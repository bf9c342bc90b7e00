# Prayer rooms: live-room session, moderation and page state

This project is a verified model of the client logic of a prayer-community app. It covers:

- live audio prayer rooms, with a host who goes live, ends the session and mutes participants;
- prayer requests with Amens and responses;
- circles, which users join and leave;
- notifications;
- the small helpers the pages share.

Every backend read or write, every audio-SDK call and every clock reading is an input to the model:

- a success flag;
- a `Fetch` (error, or data that may be null);
- an `Option`;
- an insert outcome.

Each page is a `class` whose fields are the page's state. Its handlers are methods that state the whole new state. Each page also keeps an `effects` log: the writes, reads, navigations and alerts it issues, in order. Where a handler computes something, a specification function on values defines the result, and the properties are lemmas about that function.

Modules, one per source file, plus shared ones:

- `Common`: Option/Result/Fetch, the JavaScript string helpers the pages use (`trim`, `split(..)[0]`, `includes`, ASCII case mapping), filtering and sub-sequences, counting, decimal rendering, and the e-mail author name.
- `DateUtil` (src/utils/date.ts), `UserUtil` (src/utils/user.ts), `Storage` (src/utils/storage.ts), `EnvConfig` (src/config/env.ts).
- `TokenFunction` (supabase/functions/generate-livekit-token/index.ts).
- `LiveKitSession` (src/hooks/useLiveKit.ts).
- `RoomModel`: the prayer_rooms row, the status split, and the page copy of formatScheduledTime. `RoomDetail` (src/pages/RoomDetailPage.tsx). `ParticipantList` (src/components/ParticipantList.tsx).
- `PrayerModel`: the prayer_requests row. `PrayerRequestDetail` (src/pages/PrayerRequestDetailPage.tsx). `PrayerWall` (src/pages/PrayerWallPage.tsx).
- `NotificationBell` (src/components/NotificationBell.tsx), `InviteMembers` (src/components/InviteMembersModal.tsx), `Circles` (src/pages/CirclesPage.tsx).
- `HomePage` (src/pages/HomePage.tsx), `MyRooms` (src/pages/MyRoomsPage.tsx).
- `CreateRoom` (src/pages/CreateRoomPage.tsx), `CreatePrayerRequest` (src/pages/CreatePrayerRequestPage.tsx), `ProfileSettings` (src/pages/ProfileSettingsPage.tsx).

Times are integer milliseconds. Strings are sequences of characters.

## Model

| member | source | states |
|---|---|---|
| TokenFunction.Handle | supabase/functions/generate-livekit-token/index.ts:10-74 | A token comes back exactly when the request is not a preflight, the body parses, all three fields are non-empty, both credentials are set and signing succeeds. The token's identity is participantId, its name is participantName, and its grant is roomJoin/canPublish/canSubscribe on roomName, with status 200. A preflight alone gets no body. Every error has status 400 or 500, the CORS headers and a JSON content type. |
| TokenFunction.PreflightIgnoresEverything | supabase/functions/generate-livekit-token/index.ts:11-16 | OPTIONS gets 200 with CORS headers and no body, whatever the body, credentials or signer. |
| TokenFunction.MissingFieldsFirst | supabase/functions/generate-livekit-token/index.ts:21-29 | Any unset or empty field gives 400 'Missing required fields', decided before the credentials or the signer are consulted. |
| TokenFunction.MissingCredentials | supabase/functions/generate-livekit-token/index.ts:31-42 | With all fields set, a missing key or secret gives 500 'LiveKit credentials not configured'. |
| TokenFunction.ThrownErrorsAreGeneric | supabase/functions/generate-livekit-token/index.ts:18-72 | An unparsable body, or a signer that throws, gives 500 'Failed to generate token'. |
| TokenFunction.TokenForWellFormedRequest | supabase/functions/generate-livekit-token/index.ts:44-63 | The full success response for a well-formed request. |
| LiveKitSession.Joined | src/hooks/useLiveKit.ts:72-74 | ParticipantConnected appends the newcomer at the end and changes no other state. |
| LiveKitSession.Left | src/hooks/useLiveKit.ts:76-80 | ParticipantDisconnected reports the departing identity and changes nothing but the list. |
| LiveKitSession.LeftRemovesExactlyThatSid | src/hooks/useLiveKit.ts:77 | After a departure, a participant is kept exactly when it was present with a different sid. The order is kept. An absent sid changes nothing. |
| LiveKitSession.JoinThenLeave | src/hooks/useLiveKit.ts:72-80 | A join followed by the same participant's departure restores the state, when the sid was new. |
| LiveKitSession.ConnectedEvent | src/hooks/useLiveKit.ts:62-65 | The Connected event sets isConnected and changes nothing else. |
| LiveKitSession.DisconnectedEvent | src/hooks/useLiveKit.ts:67-70 | The Disconnected event clears isConnected and changes nothing else. |
| LiveKitSession.Receive | src/hooks/useLiveKit.ts:90-120 | A parse failure is reported and changes nothing. A command targeted at someone else is silently dropped. Only an accepted MUTE_REQUEST sets isMuted, and it can only switch the microphone off. The reported moderator name is never empty. |
| LiveKitSession.ReceiveDispatch | src/hooks/useLiveKit.ts:102-116 | An accepted MUTE_REQUEST mutes whatever the prior flag and reports moderatorName, defaulting to 'Host'. HOST_TRANSFER changes no state and reports newHostId, or ''. UNMUTE_REQUEST and unknown kinds change nothing. |
| LiveKitSession.MuteCommandPacket | src/hooks/useLiveKit.ts:156-172 | sendMuteCommand publishes a MUTE_REQUEST addressed to the target alone, and nothing without a room. |
| LiveKitSession.HostTransferPacket | src/hooks/useLiveKit.ts:174-189 | sendHostTransferNotification broadcasts an untargeted HOST_TRANSFER, and nothing without a room. |
| LiveKitSession.MuteCommandOnlyMutesTarget | src/hooks/useLiveKit.ts:97-172 | A mute command for X is delivered only to X and mutes X. Any other receiver ignores it. |
| LiveKitSession.HostTransferReachesEveryone | src/hooks/useLiveKit.ts:110-189 | A host transfer is delivered to everyone and changes nobody's state. |
| LiveKitSession.ConnectState | src/hooks/useLiveKit.ts:46-136 | No room is created without a token. isMuted is never touched. isConnected follows the join. Only a fully successful connect replaces the participants and records the audio track. A partial failure leaves the microphone off. |
| LiveKitSession.DisconnectState | src/hooks/useLiveKit.ts:138-146 | With a room, the room, the connection, the participants and the track are cleared and isMuted is kept. Without a room, nothing happens. |
| LiveKitSession.ToggleMuteState | src/hooks/useLiveKit.ts:148-154 | Without a room this is a no-op. The flag flips only after the microphone call succeeds, and nothing else changes. |
| LiveKitSession.DisconnectIdempotent | src/hooks/useLiveKit.ts:138-146 | A second disconnect is a no-op. |
| LiveKitSession.ToggleTwice | src/hooks/useLiveKit.ts:148-154 | Two successful toggles restore isMuted, and the whole state when the microphone agreed with the flag. |
| LiveKitSession.NoTokenNoRoom | src/hooks/useLiveKit.ts:56-57 | A token error, or a reply without a token, leaves the state unchanged and creates no room. |
| LiveKitSession.ReconnectAfterMuteRequest | src/hooks/useLiveKit.ts:106-146 | A participant muted by a moderator who disconnects and reconnects comes back with a live microphone while isMuted still reads true. |
| LiveKitSession.Session.constructor | src/hooks/useLiveKit.ts:34-38 | The hook starts disconnected, unmuted, with no room, no participants and no track. |
| LiveKitSession.Session.Connect | src/hooks/useLiveKit.ts:46-136 | Requests a token with the hook's own room name, participant name and id. The new state is ConnectState. connect resolves exactly when every step succeeds. |
| LiveKitSession.Session.Disconnect | src/hooks/useLiveKit.ts:138-146 | The new state is DisconnectState. |
| LiveKitSession.Session.ToggleMute | src/hooks/useLiveKit.ts:148-154 | The new state is ToggleMuteState. |
| LiveKitSession.Session.OnParticipantConnected | src/hooks/useLiveKit.ts:72-74 | The new state is Joined. |
| LiveKitSession.Session.OnParticipantDisconnected | src/hooks/useLiveKit.ts:76-80 | The new state and the notice are Left. |
| LiveKitSession.Session.OnConnected | src/hooks/useLiveKit.ts:62-65 | The new state is ConnectedEvent. |
| LiveKitSession.Session.OnDisconnected | src/hooks/useLiveKit.ts:67-70 | The new state is DisconnectedEvent. |
| LiveKitSession.Session.OnData | src/hooks/useLiveKit.ts:90-120 | The new state and the notice are Receive, filtered by the hook's own participantId. |
| LiveKitSession.Session.SendMuteCommand | src/hooks/useLiveKit.ts:156-172 | The packet published is MuteCommandPacket. |
| LiveKitSession.Session.SendHostTransferNotification | src/hooks/useLiveKit.ts:174-189 | The packet published is HostTransferPacket. |
| LiveKitSession.SessionRequestIsGranted | src/hooks/useLiveKit.ts:48-54 | A session with non-empty options asks for a token that the token function grants, with 200, for the session's own identity and room. |
| RoomDetail.NewMessageRecord | src/pages/RoomDetailPage.tsx:241-246 | The message row carries the room, the sender's id, their e-mail name and the text trimmed. A non-empty stored text neither starts nor ends with white space. |
| RoomDetail.SelectPanel | src/pages/RoomDetailPage.tsx:313-508 | The live layout shows iff live and joined, with End Live exactly for the host. When not live, the host sees Go Live and anyone else the not-live notice. A non-host who is not joined to a live room sees the Join button, disabled and labelled 'Room Full' exactly when participant_count >= max_participants, else 'Join Room'. A live host who has not joined sees nothing. |
| RoomDetail.Render | src/pages/RoomDetailPage.tsx:256-278 | The page shows a spinner while loading, 'Room not found' once loaded without a room, and the room's panel otherwise. |
| RoomDetail.PanelsCoverEveryCase | src/pages/RoomDetailPage.tsx:475-508 | A host only ever sees the live layout, Go Live or nothing. Anyone else only ever sees the live layout, the notice or the Join button. |
| RoomDetail.RoomPage.constructor | src/pages/RoomDetailPage.tsx:41-63 | The page starts loading, with no room, no messages, not joined and not live. Its session is named after the room, for the user's full name, else their e-mail, else 'Anonymous', under the user's id or ''. |
| RoomDetail.RoomPage.FetchRoomDetails | src/pages/RoomDetailPage.tsx:113-133 | A row that is found replaces the room. A live row sets isLive, and a non-live row does not clear it. Loading ends whatever the outcome, and nothing else changes. |
| RoomDetail.RoomPage.FetchMessages | src/pages/RoomDetailPage.tsx:135-161 | A fetched list replaces the feed and sets the message count. An error changes nothing. |
| RoomDetail.RoomPage.OnMessageInserted | src/pages/RoomDetailPage.tsx:82-105 | An incoming message, with the sender's photo or null, is prepended. The chime plays only when the prior count is > 0 and the sender is not the current user. The count goes up by one. |
| RoomDetail.RoomPage.JoinRoom | src/pages/RoomDetailPage.tsx:163-173 | Without a room or a user this is a no-op. Otherwise the session connects, and hasJoined is set only when connect succeeds; a failed connect shows the microphone-permission join alert. isLive and the room are untouched. |
| RoomDetail.RoomPage.GoLive | src/pages/RoomDetailPage.tsx:175-197 | The status write comes before the connect. A failed write means no connect is attempted and nothing changes but the go-live alert. Only after both steps succeed are isLive, hasJoined and room.status = live set; a failed connect also shows the alert. |
| RoomDetail.RoomPage.EndLive | src/pages/RoomDetailPage.tsx:199-223 | The disconnect comes before the 'ended' write. The write is made only if the disconnect resolves. Only when both succeed do isLive and hasJoined become false and the status ended. A failure of either step shows the end-live alert. A failed write leaves the live layout over a closed session. |
| RoomDetail.RoomPage.LeaveRoom | src/pages/RoomDetailPage.tsx:225-232 | The session disconnects, and hasJoined clears once it has. isLive and the room's status are untouched. |
| RoomDetail.RoomPage.SendMessage | src/pages/RoomDetailPage.tsx:234-254 | A message is sent only when its trimmed text is non-empty and a user is signed in. It is stored trimmed, and the input is cleared only on success. |
| RoomDetail.RoomPage.SetNewMessage | src/pages/RoomDetailPage.tsx:422 | The input's text is replaced and nothing else changes. |
| RoomDetail.GoLiveShowsLiveLayout | src/pages/RoomDetailPage.tsx:186-366 | After a successful go-live, the host sees the live layout with End Live. |
| RoomDetail.LeaveShowsJoinAgain | src/pages/RoomDetailPage.tsx:225-507 | A non-host who leaves a live room sees the Join button again. |
| ParticipantList.LocalEntry | src/components/ParticipantList.tsx:41-57 | The local row is local. Its name defaults to 'You', it is muted iff its microphone is off, and its avatar is the profile's avatar_url or null. |
| ParticipantList.RemoteEntry | src/components/ParticipantList.tsx:60-76 | A remote row is not local. Its name defaults to 'Anonymous', it is muted iff its microphone is off, and its avatar is the profile's avatar_url or null. |
| ParticipantList.RemoteEntries | src/components/ParticipantList.tsx:60-76 | One remote row per remote participant, position by position. |
| ParticipantList.Roster | src/components/ParticipantList.tsx:38-78 | The roster has as many rows as remotes, plus one when there is a local participant. |
| ParticipantList.ColumnOf | src/components/ParticipantList.tsx:42-55 | The selected column's value when the row exists and has that column, null otherwise. |
| ParticipantList.AvatarWrittenRow | src/utils/storage.ts:83-86 | The profile row updateProfileAvatar leaves holds the new URL under photo_url, its only column written. |
| ParticipantList.AvatarMissedAsWritten | src/components/ParticipantList.tsx:42-74 | As written the roster reads avatar_url, which updateProfileAvatar never writes, so a participant whose photo was just saved gets no avatar, local or remote. |
| ParticipantList.AvatarShownFromPhotoColumn | src/components/ParticipantList.tsx:42-74 | Reading photo_url instead, the roster shows the saved photo for the local and for a remote participant. |
| ParticipantList.RosterOrder | src/components/ParticipantList.tsx:41-76 | The local participant, when present, is first and is the only local row. The remotes follow in input order. Each row is muted iff its microphone is off. |
| ParticipantList.Status | src/components/ParticipantList.tsx:119-129 | Exactly one label shows, with precedence speaking > muted > connected. |
| ParticipantList.ParticipantListView.constructor | src/components/ParticipantList.tsx:30 | The roster starts empty. |
| ParticipantList.ParticipantListView.Build | src/components/ParticipantList.tsx:36-82 | The loop's result replaces the roster with Roster. If any step throws, the previous roster is kept. |
| PrayerRequestDetail.AmenStep | src/pages/PrayerRequestDetailPage.tsx:103-135 | A failed write changes neither the count nor the flag. Adding increments amen_count by 1 and sets the flag. Removing sets the count to max(0, count-1) and clears the flag. |
| PrayerRequestDetail.AmenCountStaysNonNegative | src/pages/PrayerRequestDetailPage.tsx:114 | From a non-negative count, a click never makes the count negative. |
| PrayerRequestDetail.AmenAddThenRemove | src/pages/PrayerRequestDetailPage.tsx:103-132 | Add then remove, starting from not-amened with count >= 0, restores both the count and the flag. Remove then add restores them when the count was positive. |
| PrayerRequestDetail.AmenWord | src/pages/PrayerRequestDetailPage.tsx:256 | The label reads 'Amen' iff the count is 1. |
| PrayerRequestDetail.NewResponse | src/pages/PrayerRequestDetailPage.tsx:145-150 | The response row carries the request, the author's id, their e-mail name and the text trimmed. A non-empty stored text neither starts nor ends with white space. |
| PrayerRequestDetail.RequestPage.constructor | src/pages/PrayerRequestDetailPage.tsx:33-37 | The page starts loading, with no request, not amened and an empty response box. |
| PrayerRequestDetail.RequestPage.FetchRequestDetails | src/pages/PrayerRequestDetailPage.tsx:45-62 | A row that is found replaces the request, and loading ends whatever the outcome. |
| PrayerRequestDetail.RequestPage.CheckIfAmened | src/pages/PrayerRequestDetailPage.tsx:81-97 | With a user and no error, the flag is whether the amen row exists. Otherwise nothing changes. |
| PrayerRequestDetail.RequestPage.HandleAmen | src/pages/PrayerRequestDetailPage.tsx:99-136 | Without a user or a request this is a no-op. Otherwise the delete or insert matching the flag is issued, and the count and flag follow AmenStep. Nothing else in the request changes. |
| PrayerRequestDetail.RequestPage.SubmitResponse | src/pages/PrayerRequestDetailPage.tsx:138-160 | A response is sent only when its trimmed text is non-empty and a user is signed in, and it is stored trimmed. Only on success is the box cleared and are both lists fetched again. |
| PrayerRequestDetail.RequestPage.MarkAsAnswered | src/pages/PrayerRequestDetailPage.tsx:162-180 | Only the author can act. The write flips is_answered, and on success the local copy flips exactly that field. |
| PrayerRequestDetail.RequestPage.SetNewResponse | src/pages/PrayerRequestDetailPage.tsx:285 | The box's text is replaced and nothing else changes. |
| PrayerWall.BuildQuery | src/pages/PrayerWallPage.tsx:55-73 | Category 'All' applies no category filter, and any other category filters by equality. 'latest' orders by created_at, 'popular' by response_count and 'mostAmens' by amen_count, all descending. |
| PrayerWall.FilteredRequests | src/pages/PrayerWallPage.tsx:101-109 | The filtered list is never longer than the fetched one. |
| PrayerWall.MatchesSearch | src/pages/PrayerWallPage.tsx:101-109 | An empty query matches every request. |
| PrayerWall.SearchFilter | src/pages/PrayerWallPage.tsx:101-109 | An empty query keeps every request. The result is an order-preserving sub-list. A request is kept iff the lower-cased query occurs in its lower-cased title, content or userName. |
| PrayerWall.SearchIgnoresQueryCase | src/pages/PrayerWallPage.tsx:103 | A query and its lower-cased form keep the same requests. |
| PrayerWall.PluralSuffix | src/pages/PrayerWallPage.tsx:245 | The count label is pluralised iff the count differs from 1. |
| PrayerWall.EmptyText | src/pages/PrayerWallPage.tsx:226-230 | The empty-list text names the search when there is one, says 'No prayer requests yet' for 'All', and names the category otherwise. |
| PrayerWall.PrayerWallPage.constructor | src/pages/PrayerWallPage.tsx:23-27 | The wall starts loading, with no requests, category 'All', sort 'latest' and an empty search. |
| PrayerWall.PrayerWallPage.FetchRequests | src/pages/PrayerWallPage.tsx:53-99 | The query sent filters as BuildQuery says, and orders newest first by created_at for 'latest', by response_count descending for 'popular' and by amen_count descending for 'mostAmens'. Rows that come back replace the list, and an error keeps it. Loading ends either way. |
| PrayerWall.PrayerWallPage.Shown | src/pages/PrayerWallPage.tsx:101-109 | The list shown is the search filter of the fetched list, and never longer than it. |
| NotificationBell.Unread | src/components/NotificationBell.tsx:93 | The number of unread notifications is at most the list's length. |
| NotificationBell.MarkRead | src/components/NotificationBell.tsx:110-112 | isRead is set on the matching id only, and every other position is unchanged. |
| NotificationBell.MarkAllRead | src/components/NotificationBell.tsx:131 | Every position is the same notification marked read. |
| NotificationBell.WithoutId | src/components/NotificationBell.tsx:149 | The list after a deletion is never longer than before. |
| NotificationBell.MarkReadUnread | src/components/NotificationBell.tsx:110-112 | With distinct ids, marking an unread notification read lowers the true unread number by exactly one. An absent or already-read id changes nothing. |
| NotificationBell.MarkAllReadLeavesNoneUnread | src/components/NotificationBell.tsx:131-132 | After markAllAsRead nothing is unread, so the counter's 0 is accurate. |
| NotificationBell.DeleteRemovesExactlyThatId | src/components/NotificationBell.tsx:149 | deleteNotification removes exactly the entries with that id and keeps the rest in order. |
| NotificationBell.Badge | src/components/NotificationBell.tsx:199-203 | The badge is hidden at 0, shows '9+' above 9, and shows the digit otherwise. |
| NotificationBell.Icon | src/components/NotificationBell.tsx:173-190 | Unknown notification types map to the bell, and room invites to the phone. |
| NotificationBell.BellTimeAgo | src/components/NotificationBell.tsx:163-171 | The bell's own getTimeAgo, buckets 60 / 3600 / 86400 / 604800 seconds, agrees with the date.ts helper on every input. |
| NotificationBell.Bell.constructor | src/components/NotificationBell.tsx:22-25 | The bell starts closed and loading, with no notifications and a zero counter. |
| NotificationBell.Bell.Fetch | src/components/NotificationBell.tsx:67-99 | Without a user nothing happens. A successful fetch keeps at most 20 notifications, and the counter equals the number of unread among them. An error keeps both. The counter stays non-negative. |
| NotificationBell.Bell.MarkAsRead | src/components/NotificationBell.tsx:101-117 | On success only the matching id is marked read, and the counter is decremented, floored at 0, even for an already-read item. It never goes negative. A failed write changes nothing. |
| NotificationBell.Bell.MarkAllAsRead | src/components/NotificationBell.tsx:119-136 | Without a user this is a no-op. On success every item is read and the counter is 0. |
| NotificationBell.Bell.Delete | src/components/NotificationBell.tsx:138-153 | On success only the matching id is removed. The counter is not adjusted, even when the deleted item was unread. |
| NotificationBell.Bell.Click | src/components/NotificationBell.tsx:155-161 | The click marks the item read as MarkAsRead does: on success that item is read and the counter drops by one, floored at 0; a failed write keeps both. It navigates and closes the dropdown only when actionUrl is present. Loading is unchanged. |
| NotificationBell.Bell.Toggle | src/components/NotificationBell.tsx:195 | The button flips the dropdown and changes nothing else. |
| NotificationBell.CounterDrift | src/components/NotificationBell.tsx:113-149 | The counter drifts from the list. Marking an already-read item still lowers it, and deleting an unread item leaves it above the true unread number. |
| NotificationBell.UnreadDropsWithout | src/components/NotificationBell.tsx:149 | Deleting an unread notification lowers the true unread number. |
| NotificationBell.UnreadWithoutLe | src/components/NotificationBell.tsx:149 | Deleting never raises the true unread number. |
| InviteMembers.QueryRow | src/components/InviteMembersModal.tsx:44-53 | The member query returns the user id and the joined profile, held under exactly the key the select names for the join and no other. |
| InviteMembers.MemberName | src/components/InviteMembersModal.tsx:139-141 | A member's shown name is never empty: the display name of the profile read under `profile` when it is set, 'Anonymous' when there is no such profile or its name is empty. |
| InviteMembers.MemberPhoto | src/components/InviteMembersModal.tsx:201-202 | The avatar URL passed on is the photo of the profile read under `profile`, and null when there is none. |
| InviteMembers.AnonymousAsWritten | src/components/InviteMembersModal.tsx:46-202 | As written the query names the join `profiles` while the dialog reads `profile`, so every fetched member shows as 'Anonymous' with no photo, whatever the profile holds. |
| InviteMembers.ProfileShownWhenAliasMatches | src/components/InviteMembersModal.tsx:46-202 | With the join named `profile`, as the dialog reads it, a member's own display name (or 'Anonymous' when it is empty) and photo are shown. |
| InviteMembers.ToggledMembership | src/components/InviteMembersModal.tsx:79-87 | toggleMember flips the membership of exactly that id, leaves every other id as it was and never creates a repetition. |
| InviteMembers.Toggled | src/components/InviteMembersModal.tsx:79-87 | The id is selected afterwards exactly when it was not before. An absent id is appended after the ones already selected, in their order. Removing a present id shortens the selection. |
| InviteMembers.DistinctFilter | src/components/InviteMembersModal.tsx:82 | Deleting from the selection keeps it free of repetitions. |
| InviteMembers.ToggleTwice | src/components/InviteMembersModal.tsx:79-87 | Selecting then deselecting restores the selection exactly. Toggling twice always restores the set of selected ids. |
| InviteMembers.Invitations | src/components/InviteMembersModal.tsx:99-104 | One pending invitation per selected id, in selection order, from the inviter to that id for this room. |
| InviteMembers.Notices | src/components/InviteMembersModal.tsx:113-121 | One unread room_invite notification per selected id, naming the room and linking to /room/<id> with 'View Room'. |
| InviteMembers.InvitedIds | src/components/InviteMembersModal.tsx:66-68 | The already-invited set holds exactly the non-empty invitee ids of the pending invitations. |
| InviteMembers.InviteModal.constructor | src/components/InviteMembersModal.tsx:29-33 | The dialog starts loading, with no members, no selection, nobody invited and nothing sending. |
| InviteMembers.InviteModal.FetchCircleMembers | src/components/InviteMembersModal.tsx:39-77 | Members (the rows as the query returns them) and the invited set are replaced only when both queries succeed. Loading ends either way, and the selection, sending flag and effects are unchanged. |
| InviteMembers.InviteModal.ClickMember | src/components/InviteMembersModal.tsx:79-87 | An already-invited member's disabled checkbox changes nothing. Any other click toggles that id, and the selection stays free of repetitions. |
| InviteMembers.InviteModal.SendInvites | src/components/InviteMembersModal.tsx:89-137 | An empty selection does nothing. Without a user, or when the invitation insert fails, only the failure alert shows. Otherwise notifications follow, and whether or not they fail, the parent is told the count and the dialog closes. sending ends false. |
| Circles.CircleUserName | src/pages/CirclesPage.tsx:159 | The stored user name is never empty. It is the e-mail's local part when that is non-empty, else the whole e-mail, else 'Anonymous'. |
| Circles.JoinText | src/pages/CirclesPage.tsx:390-394 | The card reads 'Leave Circle' iff the user is a member, 'Request Pending' iff not a member and a request is pending, and 'Join Circle' otherwise. |
| Circles.JoinClick | src/pages/CirclesPage.tsx:510-518 | A click leaves iff the button is enabled and the user is a member. It joins iff the button is enabled and the user is not a member. A disabled button (joining this circle, or a request pending) does nothing. |
| Circles.ClickMatchesText | src/pages/CirclesPage.tsx:390-518 | What a click does agrees with the caption: 'Join Circle' joins, 'Request Pending' does nothing, and an enabled 'Leave Circle' leaves. |
| Circles.MembershipsAfterLeave | src/pages/CirclesPage.tsx:248-265 | As written, a successful leave leaves the membership set unchanged, because only the circle list is fetched again. |
| Circles.IntendedMembershipsAfterLeave | src/pages/CirclesPage.tsx:248-265 | The intended membership set after leaving drops exactly that circle. |
| Circles.StaleLeaveButton | src/pages/CirclesPage.tsx:248-265 | As written, a member who has just left still sees 'Leave Circle' on that card. |
| Circles.LeftCircleOffersJoin | src/pages/CirclesPage.tsx:248-265 | With the intended update the card no longer reads 'Leave Circle'. Without a pending request, a click joins again. |
| Circles.CreateEffects | src/pages/CirclesPage.tsx:152-178 | The circle is inserted with trimmed name and description, the user as owner and the derived owner name. On success the owner's membership row with role 'owner' follows, then a refetch. On failure nothing follows. |
| Circles.InviteEffects | src/pages/CirclesPage.tsx:193-224 | The profile is looked up by the trimmed address. A lookup error ends quietly. No profile gives 'User not found'. Otherwise the member row is inserted: success refetches members and circles, 23505 gives 'already a member', any other error ends quietly. |
| Circles.JoinEffects | src/pages/CirclesPage.tsx:315-342 | The join request is inserted. On success a public circle alerts 'joined' and refetches memberships and circles, and a private one alerts 'request sent' and refetches pending requests. 23505 alerts 'already pending', and any other error alerts the failure. |
| Circles.CirclesPage.constructor | src/pages/CirclesPage.tsx:12-30 | The page starts with no memberships, no pending requests, nothing joining, an empty public create form and an empty invite field. |
| Circles.CirclesPage.FetchSets | src/pages/CirclesPage.tsx:69-102 | Without a user, or on error, each set is kept. Otherwise it becomes exactly the circle ids returned. Every other field, the effects log included, is unchanged. |
| Circles.CirclesPage.CreateCircle | src/pages/CirclesPage.tsx:146-184 | Without a user or with a blank name nothing happens. Otherwise the calls are CreateEffects. The form resets and the dialog closes only on success. creating ends false. |
| Circles.CirclesPage.InviteMember | src/pages/CirclesPage.tsx:186-230 | Without a selected circle or with a blank address nothing happens. Otherwise the calls are InviteEffects, inviting ends false, and the field is cleared only when the member row was inserted. The sets, the selection and the create form are unchanged. |
| Circles.CirclesPage.JoinCircle | src/pages/CirclesPage.tsx:311-346 | Without a user nothing happens. Otherwise the calls are JoinEffects and joining is cleared. The local sets are left to the refetches, and every other field is unchanged. |
| Circles.CirclesPage.LeaveCircle | src/pages/CirclesPage.tsx:248-265 | Without a user or without confirmation nothing happens. Otherwise the membership row is deleted, and on success the circle list is refetched. As written the membership set is never updated, so a member who leaves still sees 'Leave Circle' on that card. Every other field is unchanged. |
| Circles.CirclesPage.LeaveCircleIntended | src/pages/CirclesPage.tsx:248-265 | The same calls as LeaveCircle, and after a successful delete the circle is dropped from the membership set, so its card no longer reads 'Leave Circle'. Every other field is unchanged. |
| Circles.CirclesPage.ClickJoinButton | src/pages/CirclesPage.tsx:508-518 | For a non-owner's card, the calls made are exactly those of the action JoinClick picks: the join calls, the confirmed leave calls, or none. joining is cleared only by a join with a user. The sets and every other field are unchanged. |
| HomePage.AccessibleRooms | src/pages/HomePage.tsx:60-64 | The accessible rooms are never more than the fetched rooms. Membership is stated by LobbyLists. |
| HomePage.Accessible | src/pages/HomePage.tsx:60-64 | A public room is always accessible. A private room is accessible only when its circle is one of the user's. With no circles, exactly the public rooms are. |
| HomePage.LobbyLists | src/pages/HomePage.tsx:58-87 | A room is in the live (scheduled) list iff it was fetched, is accessible and has that status. Both lists keep the fetched order, and ended rooms are in neither. |
| HomePage.PublicRoomsAlwaysShown | src/pages/HomePage.tsx:61-63 | A public room is always accessible. A private room without a circle id never is. |
| HomePage.MembershipErrorShowsPublicOnly | src/pages/HomePage.tsx:54-63 | When the membership query fails, the circle-id set is empty and exactly the public rooms remain, in order. |
| HomePage.ScheduledCardTarget | src/pages/HomePage.tsx:318-322 | A click on a scheduled card goes nowhere iff the viewer is its host. Otherwise it goes to /room/<id>. |
| HomePage.GoLiveControl | src/pages/HomePage.tsx:370-377 | The Go Live button shows iff the viewer is the host. It reads 'Starting...' iff that room is the one going live. |
| HomePage.Lobby.constructor | src/pages/HomePage.tsx:11-14 | The lobby starts with both lists empty and nothing going live. |
| HomePage.Lobby.FetchRooms | src/pages/HomePage.tsx:35-88 | Without a user, or when the room query fails, the lists are kept. Otherwise they are the lobby's live and scheduled lists for the user's circle ids, where a failed membership query counts as no circles. |
| HomePage.Lobby.HandleGoLive | src/pages/HomePage.tsx:125-144 | The status write comes first. Navigation to the room follows only on success, an alert on failure. The button is released either way, and the lists are untouched. |
| MyRooms.RoomIds | src/pages/MyRoomsPage.tsx:40 | The ids queried are the speaker rows' room ids, one per row, in order. |
| MyRooms.MyRoomsPage.constructor | src/pages/MyRoomsPage.tsx:10-13 | The page starts loading, with three empty groups. |
| MyRooms.MyRoomsPage.FetchMyRooms | src/pages/MyRoomsPage.tsx:18-83 | Without a user nothing happens and the spinner stays. A failed query or no joined rooms keeps the groups. Otherwise the rooms of the joined ids are grouped by status. Loading ends whenever there is a user. |
| MyRooms.EmptyStateIffNoRooms | src/pages/MyRoomsPage.tsx:190 | After a successful fetch, 'no rooms yet' shows iff no room came back. |
| Storage.FileExt | src/utils/storage.ts:30 | The extension holds no dot. A name without a dot is its own extension. |
| Storage.FileExtAfterLastDot | src/utils/storage.ts:30 | For a name with a dot, the extension is exactly the text after the last dot: a proper suffix of the name, preceded by a dot and holding none. |
| Storage.UploadPathParts | src/utils/storage.ts:31 | The object path gives its parts back: the folder is the user id, and the extension after the last dot is the file's. |
| Storage.UploadPath | src/utils/storage.ts:31 | The object path is the user id and a slash, then only decimal digits (the time stamp), then a dot and the file's extension. |
| Storage.UploadAvatar | src/utils/storage.ts:14-56 | The upload is refused as too large iff the size exceeds 2 MiB. It is refused for its type iff the size is fine and the MIME type is not one of the four allowed. It fails iff both checks pass and storage errs. Otherwise it returns the path and that path's public URL. |
| Storage.SizeBoundary | src/utils/storage.ts:20 | Exactly 2 MiB passes the size check, and one byte more does not. |
| Storage.DeleteAvatar | src/utils/storage.ts:61-73 | It sends one removal request, for exactly the given path in the avatars bucket. It reports true exactly when the removal succeeded; a failure comes back as false and never as a throw. |
| Storage.UpdateProfileAvatar | src/utils/storage.ts:78-94 | It sends one update: the photo_url column of the profiles row whose id is the user's, set to the given URL. It reports true exactly when the update succeeded; a failure comes back as false and never as a throw. |
| Storage.GetAvatarUrl | src/utils/storage.ts:164-171 | The URL is returned iff it is a non-empty string, and null otherwise. |
| EnvConfig.Lookup | src/config/env.ts:18 | A variable is found iff it is set, and then its value is returned. |
| EnvConfig.RequireEnv | src/config/env.ts:17-29 | requireEnv fails, naming the key, iff the variable is unset or empty. Otherwise it returns the non-empty value. |
| EnvConfig.NodeEnv | src/config/env.ts:70 | The mode is never empty: MODE when set and non-empty, 'development' otherwise. |
| EnvConfig.CheckOrder | src/config/env.ts:48-79 | The first failing check decides the error: the three presence checks in order, then the Supabase URL check, then the LiveKit URL check (reached only with a valid Supabase URL), then the key length. A successful validation returns the three values, a key of at least 20 characters, the optional base URL as found, and the mode. |
| EnvConfig.ValidateEnv | src/config/env.ts:48-79 | A successful validation has two URLs the URL test accepts and a key of at least 20 characters. A missing-variable error names a variable that is unset or empty. A bad-URL error carries a URL the test rejects. |
| EnvConfig.AnonKeyBoundary | src/config/env.ts:59 | With everything else valid, a 20-character anon key is accepted and a 19-character one is rejected as too short. |
| EnvConfig.ModeFlags | src/config/env.ts:90-100 | At most one of isDevelopment, isProduction and isTest holds. An unset MODE means development. |
| DateUtil.FloorDiv | src/utils/date.ts:11 | Math.floor division by a positive divisor: the quotient q satisfies q*d <= a < q*d + d, for negative dividends too. |
| DateUtil.JsRem | src/utils/date.ts:35-36 | JavaScript's %: the dividend is the quotient truncated toward zero times d plus the remainder, which lies in [0, d) for a non-negative dividend and in (-d, 0] for a negative one. |
| DateUtil.TimeAgo | src/utils/date.ts:8-19 | 'just now' iff less than a minute has elapsed, future dates included. Minutes run 1..59, hours 1..23 and days 1..6, each within its bucket's bounds. The locale date shows iff a week or more has elapsed. |
| DateUtil.TimeAgoCountsWholeUnits | src/utils/date.ts:11-16 | The number shown is the count of whole minutes, hours or days elapsed. |
| DateUtil.FormatScheduledTime | src/utils/date.ts:24-40 | 'Starting soon' iff less than a minute remains. A day count comes with 0..23 leftover hours, an hour count 1..23 with 0..59 leftover minutes, and a minute count is 1..59. |
| DateUtil.ScheduledDaysAndHours | src/utils/date.ts:31-35 | The days and leftover hours shown are the whole hours remaining: never more than the time left, and less than one hour short of it. |
| DateUtil.ScheduledHoursAndMinutes | src/utils/date.ts:31-37 | Under a day away, the hours and leftover minutes shown, or the minutes alone, are the whole minutes remaining: never more than the time left, and less than one minute short of it. |
| DateUtil.WithinHoursIsFuture | src/utils/date.ts:45-57 | For any number of hours N, fractions included, a time within the next N hours is strictly in the future and at most N hours away, so it is not past, and N is positive. |
| DateUtil.IsWithinHours | src/utils/date.ts:53-57 | A time within the next N hours lies after now, and N is positive. |
| DateUtil.IsPast | src/utils/date.ts:45-48 | The present moment is not past. A past time is within no number of next hours. |
| DateUtil.FractionalWindow | src/utils/date.ts:53-56 | A fractional window counts: ten minutes ahead is within half an hour. No time is within a window of zero or fewer hours. |
| RoomModel.WithStatus | src/pages/MyRoomsPage.tsx:72-74 | The list filtered by status is never longer than the input. Its contents are stated by StatusPartition. |
| RoomModel.StatusPartition | src/pages/MyRoomsPage.tsx:72-74 | The live, scheduled and ended lists are order-preserving sub-lists. A room is in the list of its status and in no other, and the three lengths add up to the input's. |
| RoomModel.PartitionSizes | src/pages/MyRoomsPage.tsx:72-74 | The three status lists together are exactly as long as the input. |
| RoomModel.PageFormatScheduledTime | src/pages/HomePage.tsx:146-157 | The pages' own copy, without the diff <= 0 guard, gives the same label as the date.ts helper on every input. |
| RoomModel.PageCopyStartingSoonWhenPast | src/pages/MyRoomsPage.tsx:131-142 | Without the guard, a start time now or in the past still reads 'Starting soon'. |
| Common.EmailName | src/pages/CreateRoomPage.tsx:50 | The author name is never empty: the e-mail's text before the first '@' when that is non-empty, 'Anonymous' otherwise. |
| Common.EmailNameOfAddress | src/pages/CreateRoomPage.tsx:50 | For an address local@domain with a non-empty local part, the author name is exactly the local part. |
| UserUtil.Capitalize | src/utils/user.ts:32 | The result is as long as the input. Only the first character is upper-cased, and the rest is kept. |
| UserUtil.DisplayNamePriority | src/utils/user.ts:16-36 | No user gives 'Anonymous'. Then the profile's display name wins, then the metadata full name, then the e-mail fallback, each only when every earlier source is unset or empty. With none set, the name is 'Anonymous'. |
| UserUtil.DisplayName | src/utils/user.ts:16-36 | No user gives 'Anonymous'. The name can be empty only through the e-mail fallback, for an e-mail address that starts with '@'. |
| UserUtil.DisplayNameFromEmail | src/utils/user.ts:29-33 | For an address local@domain with no full name or profile name, the name is the local part with only its first character upper-cased, whatever the domain. |
| UserUtil.Initials | src/utils/user.ts:41-53 | At most two characters. An empty name or 'Anonymous' gives 'A'. |
| UserUtil.InitialsOfOneWord | src/utils/user.ts:46-49 | A trimmed one-word name gives its upper-cased first character. |
| UserUtil.InitialsOfTwoWords | src/utils/user.ts:46-52 | 'First Last' gives the upper-cased first characters of the two words. |
| UserUtil.ToInt32 | src/utils/user.ts:83 | The 32-bit wrap of the shift lands in [-2^31, 2^31) and is congruent to its input modulo 2^32. |
| UserUtil.HashBound | src/utils/user.ts:82-84 | The hash grows by at most 2^31 plus one code point per character. For any realistic id it therefore stays within the range where JavaScript numbers are exact. |
| UserUtil.HashStep | src/utils/user.ts:82-84 | One step from 0 gives the character's code. Otherwise the step moves the accumulator by less than 2^31 away from the code minus the accumulator, since the shifted value is a signed 32-bit integer. |
| UserUtil.Hash | src/utils/user.ts:82-84 | The empty id hashes to 0. A one-character id hashes to its character code. |
| UserUtil.AvatarColorIndex | src/utils/user.ts:86 | Math.abs(hash) % 8 is a valid palette index. The empty id gives 0. |
| UserUtil.AvatarColor | src/utils/user.ts:69-88 | The colour is always one of the eight palette entries. The empty id gets the first. |
| CreateRoom.NewRoomRecord | src/pages/CreateRoomPage.tsx:42-57 | The inserted row carries the form's fields and the user as host under the e-mail name, which is never empty, with zero participants. The two times are present iff the room is scheduled, and then they are the form's strings. |
| CreateRoom.NewRoomIsJoinable | src/pages/RoomDetailPage.tsx:498-507 | A room created from a form the browser accepts (its limit is at least 2) shows anyone but its creator an enabled 'Join Room' button while live, and its creator is its host. |
| CreateRoom.NewRoomInLobby | src/pages/HomePage.tsx:60-84 | A room created live appears in the lobby's live list iff it is public, since a private one has no circle. It never appears in the scheduled list. |
| CreateRoom.CreateRoomPage.constructor | src/pages/CreateRoomPage.tsx:23-33 | The form starts empty, in 'Morning Prayer', public, with a limit of 50, live, and with no times. It is not loading. |
| CreateRoom.CreateRoomPage.SetName | src/pages/CreateRoomPage.tsx:107 | Only the name changes. |
| CreateRoom.CreateRoomPage.SetDescription | src/pages/CreateRoomPage.tsx:120 | Only the description changes. |
| CreateRoom.CreateRoomPage.SetCategory | src/pages/CreateRoomPage.tsx:131 | Only the category changes, to one of the drop-down's nine. |
| CreateRoom.CreateRoomPage.SetMaxParticipants | src/pages/CreateRoomPage.tsx:149 | Only the participant limit changes. |
| CreateRoom.CreateRoomPage.SetPrivate | src/pages/CreateRoomPage.tsx:159-172 | Only the privacy flag changes. |
| CreateRoom.CreateRoomPage.SetStatus | src/pages/CreateRoomPage.tsx:191-203 | Only the status changes, to live or scheduled. The times already typed are kept. |
| CreateRoom.CreateRoomPage.SetScheduledStartTime | src/pages/CreateRoomPage.tsx:226 | Only the start time changes. |
| CreateRoom.CreateRoomPage.SetScheduledEndTime | src/pages/CreateRoomPage.tsx:238 | Only the end time changes. |
| CreateRoom.CreateRoomPage.HandleSubmit | src/pages/CreateRoomPage.tsx:35-74 | Without a user nothing happens. Otherwise the row from NewRoomRecord is inserted. Navigation to /room/<new id> follows on success, the failure alert otherwise. Loading ends and the form is kept. |
| CreatePrayerRequest.NewRequestRecord | src/pages/CreatePrayerRequestPage.tsx:40-48 | The inserted row carries the form's title, content and category, and the user as author under the e-mail name, which is never empty. It starts with no amens, no responses, and not answered. |
| CreatePrayerRequest.NewRequestOnTheWall | src/pages/PrayerWallPage.tsx:101-109 | A new request is found on the wall by its own title and by its author's name. It is listed under 'All' and under its own category, and under no other. A first Amen makes its count one. |
| CreatePrayerRequest.StoredWithinFormLimits | src/pages/CreatePrayerRequestPage.tsx:93-132 | A request that passes the browser's required and maxLength checks is stored with a title of 1 to 100 characters and a content of 1 to 2000. |
| CreatePrayerRequest.CreatePrayerRequestPage.constructor | src/pages/CreatePrayerRequestPage.tsx:24-29 | The form starts empty in 'Healing' and is not loading. |
| CreatePrayerRequest.CreatePrayerRequestPage.SetTitle | src/pages/CreatePrayerRequestPage.tsx:95 | Only the title changes. |
| CreatePrayerRequest.CreatePrayerRequestPage.SetCategory | src/pages/CreatePrayerRequestPage.tsx:111 | Only the category changes, to one of the drop-down's ten. |
| CreatePrayerRequest.CreatePrayerRequestPage.SetContent | src/pages/CreatePrayerRequestPage.tsx:129 | Only the content changes. |
| CreatePrayerRequest.CreatePrayerRequestPage.HandleSubmit | src/pages/CreatePrayerRequestPage.tsx:31-62 | Without a user nothing happens. Otherwise the row from NewRequestRecord is inserted. Navigation to /prayer-request/<new id> follows on success, the failure alert otherwise. Loading ends and the form is kept. |
| ProfileSettings.Loaded | src/pages/ProfileSettingsPage.tsx:43-47 | Each column is taken when it is a non-empty string, else its default ('', '', 'UTC'). No row gives all the defaults, and the time zone is never empty. |
| ProfileSettings.Row | src/pages/ProfileSettingsPage.tsx:67-71 | The profile row the update leaves behind has all three columns set. |
| ProfileSettings.SaveIdempotent | src/pages/ProfileSettingsPage.tsx:68-69 | Saving again without edits writes the same values, because trimming twice is trimming once. |
| ProfileSettings.LoadAfterSave | src/pages/ProfileSettingsPage.tsx:43-71 | With a time zone set, the values a save writes load back exactly. |
| ProfileSettings.BlankDisplayName | src/pages/ProfileSettingsPage.tsx:68-135 | A display name made only of blanks passes the field's required check and is saved as the empty string. A saved non-empty name has no outer blanks. |
| ProfileSettings.Saved | src/pages/ProfileSettingsPage.tsx:67-71 | The saved display name and bio are already trimmed: trimming them again changes nothing. The timezone is saved as chosen. |
| ProfileSettings.SaveErrorText | src/pages/ProfileSettingsPage.tsx:82 | The save error shown is never empty: the error's message when it has one, 'Failed to update settings' otherwise. |
| ProfileSettings.Changed | src/pages/ProfileSettingsPage.tsx:88-90 | handleChange replaces exactly the named field and keeps the other two. |
| ProfileSettings.ProfileSettingsPage.constructor | src/pages/ProfileSettingsPage.tsx:17-25 | The page starts loading, with the defaults, no error, no success and nothing saving. |
| ProfileSettings.ProfileSettingsPage.FetchSettings | src/pages/ProfileSettingsPage.tsx:31-54 | Without a user nothing happens and the spinner stays. A failed read keeps the settings and shows 'Failed to load settings'. A successful one sets Loaded. Loading ends whenever there is a user. |
| ProfileSettings.ProfileSettingsPage.HandleChange | src/pages/ProfileSettingsPage.tsx:88-90 | The settings become Changed of the old ones, and nothing else moves. |
| ProfileSettings.ProfileSettingsPage.HandleSave | src/pages/ProfileSettingsPage.tsx:56-86 | Without a user nothing happens. Otherwise the trimmed values are written. Success shows iff the write succeeded, and then the return to /profile after 1500 ms is scheduled. An error shows iff it failed, with SaveErrorText. Saving ends, and the form keeps the untrimmed text. |
| NotificationBell.MarkReadAbsent | src/components/NotificationBell.tsx:110-112 | Marking an id that is not in the list leaves the list as it is. |
| Common.OrElse | src/pages/ProfileSettingsPage.tsx:44-46 | The JavaScript or-fallback on an optional string gives a when it is a non-empty string, b otherwise. |
| Common.FirstSegment | src/pages/CreateRoomPage.tsx:50 | split(sep)[0] is a prefix of the input that holds no separator, and it ends exactly where the first separator stands. |
| Common.TrimEmptyIffAllSpace | src/pages/CirclesPage.tsx:148 | trim() gives the empty string iff every character is white space. A non-empty result starts and ends with a non-space character. |
| Common.TrimIdempotent | src/pages/ProfileSettingsPage.tsx:68-69 | Trimming twice is trimming once. |

## Left out

- The audio SDK's internals: connecting, the microphone, data-channel transport, track attach and playback. Each call is an input saying whether it succeeded; the events it raises are methods the caller invokes. Playing remote audio on TrackSubscribed is not modelled, because it only touches the browser's media elements.
- JSON and text encoding of moderation commands: a command is a datatype. A payload on which JSON.parse throws or which parses to null is `None`; any other JSON value without a known `type` is an unknown command.
- Every Supabase query, insert, update, delete, storage upload and public URL: each is an input (a success flag, a `Fetch`, an `Option` or an insert outcome). What the database does with a write is not modelled.
- Realtime subscriptions and the full refetches they trigger: the pages' state is modelled between refetches.
- Signing the access token in the token function: the model returns the token's identity, name and grant, not the signed JWT.
- Avatar compression (compressImage), the avatar upload component, the audio equalizer, the profile page, the constants file, and the purely presentational and routing components: they are canvas or floating-point work, async orchestration over those, or markup only.
- DateUtil.IsWithinHours: `hours * 60 * 60 * 1000` is taken as an exact real product. Floating-point rounding of that product, and a NaN or infinite `hours`, are not modelled.
- Date parsing, `Date.now()` and locale formatting (toLocaleDateString, toLocaleString, formatDateTime, formatJoinDate): times are integer milliseconds given as inputs, and a locale date is the `LocaleDate` label.
- Case mapping is ASCII-only. Unicode upper- and lower-casing, as used by search and capitalisation, is not modelled.
- `new URL` parsing in the start-up checks: whether a string is a valid URL is the input function `validUrl`.
- Concurrency: lost updates on counters, out-of-order or duplicate delivery of commands, and responses arriving after a page unmounts. Every model is sequential.
- UserUtil.Hash: the id's characters are Unicode scalar values. For characters outside the Basic Multilingual Plane, JavaScript's `split('')` yields two UTF-16 code units, which is not modelled.
- CreateRoom.CreateRoomPage.SetMaxParticipants: takes the number `parseInt` produced. An unparsable field, which gives NaN in the source, is not modelled.
- The browser's own form checks (`required`, `min`/`max`, `maxLength`) are modelled as the predicates `Submittable`. They are the hypotheses of `CreatePrayerRequest.StoredWithinFormLimits` and `CreateRoom.NewRoomIsJoinable`. The submit handlers do not check them, so neither do the handler methods.
- The SDK's Connected event is folded into a successful connect. The Disconnected event is a method of its own.
- `setTimeout` before the return to the profile: the delay is logged in the effect, and the timer itself is not modelled.
- The responses list on the prayer request page: the model records that responses are fetched again, not their contents.
- The circles page's owner tools (removing a member, deleting a circle, changing its privacy, approving or rejecting join requests) and its list fetches of circles, members and join requests: they are single backend calls followed by a refetch. The remove-member condition is the predicate `CanRemove`, and the owner test is `IsOwner`, which ClickJoinButton requires to be false.
- The notification bell closing on a click outside it is not modelled: it is a DOM listener.
- ParticipantList's host test and the lobby's host test are predicates, stated by their definitions.

## Findings

| source | as written | input that shows it | evidently intended | confidence | as-written member | corrected member |
|---|---|---|---|---|---|---|
| src/pages/CirclesPage.tsx:248-265 | After a successful leave, handleLeaveCircle refetches only the circle list. The user's membership set keeps the circle, so its card still reads 'Leave Circle' and cannot be joined again until the page reloads. | A member of a public circle confirms 'Leave', and the delete succeeds. | The membership set drops the circle, so the card reads 'Join Circle' again. | not executed | Circles.StaleLeaveButton | Circles.LeftCircleOffersJoin |
| src/components/InviteMembersModal.tsx:46-202 | The member query names the joined profile `profiles` (`profiles:user_id(...)`), but the row type and getDisplayName read `member.profile`. The cast at line 71 hides the mismatch, so every member is listed as 'Anonymous' and the avatar gets no photo. | A circle member whose profile has display name 'Ruth' and a photo URL. | The dialog shows 'Ruth' and the photo: the join is named `profile`, or the dialog reads `profiles`. | not executed | InviteMembers.AnonymousAsWritten | InviteMembers.ProfileShownWhenAliasMatches |
| src/components/ParticipantList.tsx:42-74 | The roster selects `avatar_url` from profiles, but updateProfileAvatar (storage.ts:85) writes `photo_url`, and every other page reads `photo_url`. The database schema is not part of this model. If the column does not exist the query fails; if it exists nothing here writes it. Either way the roster shows no avatar. | A participant who has just saved a profile photo joins a room. | The roster selects and reads `photo_url` and shows the saved photo. | not executed; plausible, since the schema is not visible | ParticipantList.AvatarMissedAsWritten | ParticipantList.AvatarShownFromPhotoColumn |

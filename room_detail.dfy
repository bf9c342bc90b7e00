/** The live-room page of src/pages/RoomDetailPage.tsx: the host lifecycle
    (go live, end live), joining and leaving, the chat feed and the choice of
    what the page shows.

    Backend writes and SDK calls are inputs saying whether they succeeded.
    Every call the page makes is appended, in order, to the field `effects`,
    so that the contracts can state which call comes first and which call is
    never made. */
module RoomDetail {
  import opened Common
  import opened RoomModel
  import LiveKitSession

  /** A room_messages row with the sender's avatar attached. */
  datatype Message = Message(id: string, userId: string, userName: string, text: string, createdAt: int, photoUrl: Option<string>)

  /** The row handleSendMessage inserts. */
  datatype MessageRecord = MessageRecord(roomId: string, userId: string, userName: string, text: string)

  /** A call the page makes to the backend, the audio session or the
      speaker, or an alert it shows. */
  datatype Effect =
    | WriteStatus(status: RoomStatus)
    | ConnectAudio
    | DisconnectAudio
    | InsertMessage(record: MessageRecord)
    | PlayChime
    | Alert(message: string)

  const JoinFailedAlert := "Failed to join the room. Please check your microphone permissions."
  const GoLiveFailedAlert := "Failed to start the room. Please check your microphone permissions."
  const EndLiveFailedAlert := "Failed to end live session."

  // ---------------------------------------------------------------------------
  // pure rules

  /** `user && room.host_id === user.id`. */
  predicate IsHost(user: Option<AuthUser>, room: Room)
  {
    user.Some? && room.hostId == user.value.id
  }

  /** The sound plays for a new message only after the first one and only
      when it comes from someone else (or nobody is signed in). */
  predicate ChimePlays(previousCount: int, senderId: string, user: Option<AuthUser>)
  {
    previousCount > 0 && (user.None? || senderId != user.value.id)
  }

  /** The message row for the text typed: the sender's id, the local part of
      their email (or 'Anonymous') and the text without surrounding spaces. */
  function NewMessageRecord(roomId: string, user: AuthUser, typed: string): (r: MessageRecord)
    ensures r.roomId == roomId && r.userId == user.id && r.userName == EmailName(user)
    ensures r.text == Trim(typed)
    ensures r.text != "" ==> !IsJsSpace(r.text[0]) && !IsJsSpace(r.text[|r.text| - 1])
  {
    TrimEmptyIffAllSpace(typed);
    MessageRecord(roomId, user.id, EmailName(user), Trim(typed))
  }

  /** What the page body shows below the header. */
  datatype Panel =
    | LiveLayout(endButton: bool)
    | GoLivePanel
    | NotLiveNotice
    | JoinButton(disabled: bool, caption: string)
    | NoControl

  datatype PageView = LoadingView | NotFoundView | RoomView(room: Room, panel: Panel)

  /** The panel for a loaded room: the live layout when live and joined (with
      End Live for the host, Leave for anyone else); otherwise Go Live for the
      host and a notice for others while not live; a Join button for a
      non-host who has not joined a live room, disabled and labelled 'Room
      Full' when the room is at capacity; nothing for a host who is live but
      has not joined. */
  function SelectPanel(user: Option<AuthUser>, room: Room, isLive: bool, hasJoined: bool): (p: Panel)
    ensures p.LiveLayout? <==> isLive && hasJoined
    ensures p.LiveLayout? ==> (p.endButton <==> IsHost(user, room))
    ensures p == GoLivePanel <==> !isLive && IsHost(user, room)
    ensures p == NotLiveNotice <==> !isLive && !IsHost(user, room)
    ensures p.JoinButton? <==> isLive && !hasJoined && !IsHost(user, room)
    ensures p.JoinButton? ==> (p.disabled <==> room.participantCount >= room.maxParticipants)
    ensures p.JoinButton? ==> (p.caption == "Room Full" <==> p.disabled) && (p.caption == "Join Room" <==> !p.disabled)
    ensures p == NoControl <==> isLive && !hasJoined && IsHost(user, room)
  {
    if isLive && hasJoined then LiveLayout(IsHost(user, room))
    else if IsHost(user, room) && !isLive then GoLivePanel
    else if !IsHost(user, room) && !isLive then NotLiveNotice
    else if !IsHost(user, room) && isLive && !hasJoined then
      var full := room.participantCount >= room.maxParticipants;
      JoinButton(full, if full then "Room Full" else "Join Room")
    else NoControl
  }

  /** The whole page: a spinner while loading, 'Room not found' once loaded
      without a room, the room's panel otherwise. */
  function Render(loading: bool, room: Option<Room>, user: Option<AuthUser>, isLive: bool, hasJoined: bool): (v: PageView)
    ensures v == LoadingView <==> loading
    ensures v == NotFoundView <==> !loading && room.None?
    ensures v.RoomView? ==> room == Some(v.room) && v.panel == SelectPanel(user, v.room, isLive, hasJoined)
  {
    if loading then LoadingView
    else if room.None? then NotFoundView
    else RoomView(room.value, SelectPanel(user, room.value, isLive, hasJoined))
  }

  /** A host only ever sees the live layout, Go Live or nothing; anyone else
      only ever sees the live layout, the not-live notice or the Join button. */
  lemma PanelsCoverEveryCase(user: Option<AuthUser>, room: Room, isLive: bool, hasJoined: bool)
    ensures var p := SelectPanel(user, room, isLive, hasJoined);
      IsHost(user, room) ==> (p.LiveLayout? || p == GoLivePanel || p == NoControl)
    ensures var p := SelectPanel(user, room, isLive, hasJoined);
      !IsHost(user, room) ==> (p.LiveLayout? || p == NotLiveNotice || p.JoinButton?)
  {
  }

  // ---------------------------------------------------------------------------
  // the page

  class RoomPage {
    const roomId: string
    const user: Option<AuthUser>
    const session: LiveKitSession.Session

    var loading: bool
    var room: Option<Room>
    var messages: seq<Message>
    var newMessage: string
    var hasJoined: bool
    var isLive: bool
    var previousMessageCount: int
    var effects: seq<Effect>

    /** Mounting the page opens a session named after the room, for the
        user's full name, else their email, else 'Anonymous', under the
        user's id (or '' when signed out). */
    constructor(roomId: string, user: Option<AuthUser>)
      ensures this.roomId == roomId && this.user == user
      ensures loading && room.None? && messages == [] && newMessage == ""
      ensures !hasJoined && !isLive && previousMessageCount == 0 && effects == []
      ensures fresh(session) && session.State() == LiveKitSession.Initial
      ensures session.roomName == roomId
      ensures session.participantId == (if user.Some? then user.value.id else "")
      ensures session.participantName ==
        (if user.None? then "Anonymous"
         else if Truthy(user.value.fullName) then user.value.fullName.value
         else OrElse(user.value.email, "Anonymous"))
    {
      this.roomId := roomId;
      this.user := user;
      var name := if user.None? then "Anonymous"
                  else if Truthy(user.value.fullName) then user.value.fullName.value
                  else OrElse(user.value.email, "Anonymous");
      session := new LiveKitSession.Session(roomId, name, if user.Some? then user.value.id else "");
      loading := true;
      room := None;
      messages := [];
      newMessage := "";
      hasJoined := false;
      isLive := false;
      previousMessageCount := 0;
      effects := [];
    }

    /** What the page currently shows. */
    function View(): PageView
      reads this
    {
      Render(loading, room, user, isLive, hasJoined)
    }

    /** fetchRoomDetails: a row found replaces the room and, when its status
        is live, marks the page live (a non-live row does not clear the
        flag); loading ends whatever the outcome. */
    method FetchRoomDetails(result: Fetch<Room>)
      modifies this
      ensures !loading
      ensures room == (if result.FetchData? && result.data.Some? then result.data else old(room))
      ensures isLive == (old(isLive) || (result.FetchData? && result.data.Some? && result.data.value.status == Live))
      ensures messages == old(messages) && newMessage == old(newMessage) && hasJoined == old(hasJoined)
      ensures previousMessageCount == old(previousMessageCount) && effects == old(effects)
    {
      if result.FetchData? && result.data.Some? {
        room := result.data;
        if result.data.value.status == Live {
          isLive := true;
        }
      }
      loading := false;
    }

    /** fetchMessages: the fetched list (newest first) replaces the feed and
        its length becomes the message count; an error changes nothing. */
    method FetchMessages(result: Fetch<seq<Message>>)
      modifies this
      ensures result.FetchData? && result.data.Some? ==>
        messages == result.data.value && previousMessageCount == |result.data.value|
      ensures !(result.FetchData? && result.data.Some?) ==>
        messages == old(messages) && previousMessageCount == old(previousMessageCount)
      ensures loading == old(loading) && room == old(room) && newMessage == old(newMessage)
      ensures hasJoined == old(hasJoined) && isLive == old(isLive) && effects == old(effects)
    {
      if result.FetchData? && result.data.Some? {
        messages := result.data.value;
        previousMessageCount := |result.data.value|;
      }
    }

    /** The realtime INSERT handler: the message, with the sender's photo or
        null, goes in front of the feed (newest first); the chime plays under
        ChimePlays; the count goes up by one. */
    method OnMessageInserted(msg: Message, photo: Option<string>)
      modifies this
      ensures messages == [msg.(photoUrl := if Truthy(photo) then photo else None)] + old(messages)
      ensures effects == old(effects) + (if ChimePlays(old(previousMessageCount), msg.userId, user) then [PlayChime] else [])
      ensures previousMessageCount == old(previousMessageCount) + 1
      ensures loading == old(loading) && room == old(room) && newMessage == old(newMessage)
      ensures hasJoined == old(hasJoined) && isLive == old(isLive)
    {
      var withAvatar := msg.(photoUrl := if Truthy(photo) then photo else None);
      messages := [withAvatar] + messages;
      if previousMessageCount > 0 && (user.None? || msg.userId != user.value.id) {
        effects := effects + [PlayChime];
      }
      previousMessageCount := previousMessageCount + 1;
    }

    /** handleJoinRoom: without a room or a user nothing happens; otherwise
        the session connects, and the page counts as joined only when the
        connect succeeds; when it fails the join alert is shown. */
    method JoinRoom(e: LiveKitSession.ConnectEnv)
      modifies this, session
      ensures room.None? || user.None? ==>
        effects == old(effects) && hasJoined == old(hasJoined) && session.State() == old(session.State())
      ensures room.Some? && user.Some? ==>
        effects == old(effects) + [ConnectAudio] + (if LiveKitSession.ConnectSucceeds(e) then [] else [Alert(JoinFailedAlert)]) &&
        session.State() == LiveKitSession.ConnectState(old(session.State()), e) &&
        hasJoined == (old(hasJoined) || LiveKitSession.ConnectSucceeds(e))
      ensures isLive == old(isLive) && room == old(room) && loading == old(loading)
      ensures messages == old(messages) && newMessage == old(newMessage) && previousMessageCount == old(previousMessageCount)
    {
      if room.None? || user.None? {
        return;
      }
      effects := effects + [ConnectAudio];
      var ok, _ := session.Connect(e);
      if ok {
        hasJoined := true;
      } else {
        effects := effects + [Alert(JoinFailedAlert)];
      }
    }

    /** handleGoLive: the status write comes first; only if it succeeds is
        the session connected; only if that succeeds are the page and the
        room marked live and joined. Either failure shows the go-live alert. */
    method GoLive(writeOk: bool, e: LiveKitSession.ConnectEnv)
      modifies this, session
      ensures room.None? == old(room).None?
      ensures old(room).None? || user.None? ==>
        effects == old(effects) && room == old(room) && isLive == old(isLive) && hasJoined == old(hasJoined) &&
        session.State() == old(session.State())
      ensures old(room).Some? && user.Some? && !writeOk ==>
        effects == old(effects) + [WriteStatus(Live), Alert(GoLiveFailedAlert)] && room == old(room) &&
        isLive == old(isLive) && hasJoined == old(hasJoined) && session.State() == old(session.State())
      ensures old(room).Some? && user.Some? && writeOk ==>
        effects == old(effects) + [WriteStatus(Live), ConnectAudio] +
                   (if LiveKitSession.ConnectSucceeds(e) then [] else [Alert(GoLiveFailedAlert)]) &&
        session.State() == LiveKitSession.ConnectState(old(session.State()), e)
      ensures old(room).Some? && user.Some? && writeOk && LiveKitSession.ConnectSucceeds(e) ==>
        isLive && hasJoined && room == Some(old(room).value.(status := Live))
      ensures !(old(room).Some? && user.Some? && writeOk && LiveKitSession.ConnectSucceeds(e)) ==>
        isLive == old(isLive) && hasJoined == old(hasJoined) && room == old(room)
      ensures loading == old(loading) && messages == old(messages) && newMessage == old(newMessage)
      ensures previousMessageCount == old(previousMessageCount)
    {
      if room.None? || user.None? {
        return;
      }
      effects := effects + [WriteStatus(Live)];
      if !writeOk {
        effects := effects + [Alert(GoLiveFailedAlert)];
        return;
      }
      effects := effects + [ConnectAudio];
      var ok, _ := session.Connect(e);
      if !ok {
        effects := effects + [Alert(GoLiveFailedAlert)];
        return;
      }
      isLive := true;
      hasJoined := true;
      room := Some(room.value.(status := Live));
    }

    /** handleEndLive: the session is disconnected first; only if that
        succeeds is 'ended' written; only if both succeed is the page marked
        not live and not joined and the room ended. Either failure shows the
        end-live alert; a failed write therefore leaves the live layout up
        over a closed session. */
    method EndLive(disconnectOk: bool, writeOk: bool)
      modifies this, session
      ensures old(room).None? || user.None? ==>
        effects == old(effects) && room == old(room) && isLive == old(isLive) && hasJoined == old(hasJoined) &&
        session.State() == old(session.State())
      ensures old(room).Some? && user.Some? ==>
        session.State() == LiveKitSession.DisconnectState(old(session.State()), disconnectOk)
      ensures old(room).Some? && user.Some? ==>
        var done := !old(session.hasRoom) || disconnectOk;
        effects == old(effects) + [DisconnectAudio] + (if done then [WriteStatus(Ended)] else []) +
                   (if done && writeOk then [] else [Alert(EndLiveFailedAlert)])
      ensures old(room).Some? && user.Some? && (!old(session.hasRoom) || disconnectOk) && writeOk ==>
        !isLive && !hasJoined && room == Some(old(room).value.(status := Ended))
      ensures !(old(room).Some? && user.Some? && (!old(session.hasRoom) || disconnectOk) && writeOk) ==>
        isLive == old(isLive) && hasJoined == old(hasJoined) && room == old(room)
      ensures loading == old(loading) && messages == old(messages) && newMessage == old(newMessage)
      ensures previousMessageCount == old(previousMessageCount)
    {
      if room.None? || user.None? {
        return;
      }
      effects := effects + [DisconnectAudio];
      var done := session.Disconnect(disconnectOk);
      if !done {
        effects := effects + [Alert(EndLiveFailedAlert)];
        return;
      }
      effects := effects + [WriteStatus(Ended)];
      if !writeOk {
        effects := effects + [Alert(EndLiveFailedAlert)];
        return;
      }
      isLive := false;
      hasJoined := false;
      room := Some(room.value.(status := Ended));
    }

    /** handleLeaveRoom: no guard; the session is disconnected and, once it
        is, the page is no longer joined. The live flag and the room's status
        stay as they were. */
    method LeaveRoom(disconnectOk: bool)
      modifies this, session
      ensures session.State() == LiveKitSession.DisconnectState(old(session.State()), disconnectOk)
      ensures effects == old(effects) + [DisconnectAudio]
      ensures hasJoined == (old(hasJoined) && old(session.hasRoom) && !disconnectOk)
      ensures isLive == old(isLive) && room == old(room) && loading == old(loading)
      ensures messages == old(messages) && newMessage == old(newMessage) && previousMessageCount == old(previousMessageCount)
    {
      effects := effects + [DisconnectAudio];
      var done := session.Disconnect(disconnectOk);
      if done {
        hasJoined := false;
      }
    }

    /** handleSendMessage: nothing is sent when the trimmed text is empty or
        nobody is signed in; otherwise the trimmed text is inserted and the
        input is cleared only if the insert succeeds. */
    method SendMessage(insertOk: bool)
      modifies this
      ensures Trim(old(newMessage)) == "" || user.None? ==> effects == old(effects) && newMessage == old(newMessage)
      ensures Trim(old(newMessage)) != "" && user.Some? ==>
        effects == old(effects) + [InsertMessage(NewMessageRecord(roomId, user.value, old(newMessage)))] &&
        newMessage == (if insertOk then "" else old(newMessage))
      ensures loading == old(loading) && room == old(room) && messages == old(messages)
      ensures hasJoined == old(hasJoined) && isLive == old(isLive) && previousMessageCount == old(previousMessageCount)
    {
      if Trim(newMessage) == "" || user.None? {
        return;
      }
      var record := MessageRecord(roomId, user.value.id, EmailName(user.value), Trim(newMessage));
      effects := effects + [InsertMessage(record)];
      if insertOk {
        newMessage := "";
      }
    }

    /** The input's onChange. */
    method SetNewMessage(text: string)
      modifies this
      ensures newMessage == text
      ensures loading == old(loading) && room == old(room) && messages == old(messages) && effects == old(effects)
      ensures hasJoined == old(hasJoined) && isLive == old(isLive) && previousMessageCount == old(previousMessageCount)
    {
      newMessage := text;
    }
  }

  /** A host whose status write and connect both succeed ends up on the live
      layout with the End Live button. */
  lemma GoLiveShowsLiveLayout(user: Option<AuthUser>, room: Room)
    requires IsHost(user, room)
    ensures SelectPanel(user, room.(status := Live), true, true) == LiveLayout(true)
  {
  }

  /** Leaving keeps the room live, so a non-host who leaves a live room sees
      the Join button again. */
  lemma LeaveShowsJoinAgain(user: Option<AuthUser>, room: Room)
    requires !IsHost(user, room)
    ensures SelectPanel(user, room, true, false).JoinButton?
  {
  }
}

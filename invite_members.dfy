/** The invite dialog of src/components/InviteMembersModal.tsx: choosing
    circle members to invite to a room and sending the invitations and their
    notifications. The selection is a JavaScript Set, which iterates in
    insertion order; it is modelled as a sequence without repetitions.
    Backend calls are inputs; the calls made and the callbacks run are
    logged in `effects`. */
module InviteMembers {
  import opened Common

  /** The profile columns the member query selects. */
  datatype Profile = Profile(displayName: Option<string>, photoUrl: Option<string>)

  /** A circle_members row as the query returns it: the user id and the
      joined profile (null when there is none), held under the key the
      select names for the join. */
  datatype Member = Member(userId: string, embedded: map<string, Option<Profile>>)

  /** The key the member query gives the joined profile (`profiles:user_id`). */
  const QueryAlias := "profiles"

  /** The key the dialog reads the profile from (`member.profile`). */
  const ReadKey := "profile"

  /** The row the member query returns when it names the join `alias`. */
  function QueryRow(alias: string, userId: string, profile: Option<Profile>): (m: Member)
    ensures m.userId == userId && alias in m.embedded && m.embedded[alias] == profile
    ensures forall k :: k in m.embedded ==> k == alias
  {
    Member(userId, map[alias := profile])
  }

  /** The profile under `key`, None when the row has no such key or the
      profile is null. */
  function ProfileAt(m: Member, key: string): (p: Option<Profile>)
    ensures key !in m.embedded ==> p.None?
    ensures key in m.embedded ==> p == m.embedded[key]
  {
    if key in m.embedded then m.embedded[key] else None
  }

  /** A room_invites row as inserted. */
  datatype Invitation = Invitation(roomId: string, inviterId: string, inviteeId: string, status: string)

  /** A notifications row as inserted. */
  datatype InviteNotice = InviteNotice(
    userId: string,
    kind: string,
    title: string,
    message: string,
    actionUrl: string,
    actionLabel: string,
    isRead: bool)

  datatype Effect =
    | InsertInvitations(invitations: seq<Invitation>)
    | InsertNotifications(notices: seq<InviteNotice>)
    | InvitesSent(count: nat)
    | Close
    | FailureAlert

  /** getDisplayName: the display name of the profile read under
      `profile`, 'Anonymous' when there is none or it is empty. */
  function MemberName(m: Member): (name: string)
    ensures name != ""
    ensures ProfileAt(m, ReadKey).Some? && Truthy(ProfileAt(m, ReadKey).value.displayName) ==>
      name == ProfileAt(m, ReadKey).value.displayName.value
    ensures ProfileAt(m, ReadKey).Some? && !Truthy(ProfileAt(m, ReadKey).value.displayName) ==> name == "Anonymous"
    ensures ProfileAt(m, ReadKey).None? ==> name == "Anonymous"
  {
    match ProfileAt(m, ReadKey)
    case None => "Anonymous"
    case Some(p) => OrElse(p.displayName, "Anonymous")
  }

  /** The avatar URL the row passes on: the photo of the profile read
      under `profile`, null when there is none. */
  function MemberPhoto(m: Member): (url: Option<string>)
    ensures ProfileAt(m, ReadKey).None? ==> url.None?
    ensures ProfileAt(m, ReadKey).Some? ==> url == ProfileAt(m, ReadKey).value.photoUrl
  {
    match ProfileAt(m, ReadKey)
    case None => None
    case Some(p) => p.photoUrl
  }

  /** As written the query files the profile under `profiles` and the
      dialog reads `profile`: every member fetched shows as 'Anonymous'
      with no photo, whatever their profile says. */
  lemma AnonymousAsWritten(userId: string, profile: Option<Profile>)
    ensures MemberName(QueryRow(QueryAlias, userId, profile)) == "Anonymous"
    ensures MemberPhoto(QueryRow(QueryAlias, userId, profile)).None?
  {
    assert ReadKey != QueryAlias by {
      assert |ReadKey| != |QueryAlias|;
    }
  }

  /** With the join named as the dialog reads it, a member's own display
      name and photo are shown. */
  lemma ProfileShownWhenAliasMatches(userId: string, profile: Profile)
    ensures Truthy(profile.displayName) ==> MemberName(QueryRow(ReadKey, userId, Some(profile))) == profile.displayName.value
    ensures !Truthy(profile.displayName) ==> MemberName(QueryRow(ReadKey, userId, Some(profile))) == "Anonymous"
    ensures MemberPhoto(QueryRow(ReadKey, userId, Some(profile))) == profile.photoUrl
  {
  }

  /** No element occurs twice. */
  predicate Distinct(s: seq<string>)
  {
    forall i, j :: 0 <= i < j < |s| ==> s[i] != s[j]
  }

  /** toggleMember on an insertion-ordered set: an id present is deleted,
      an absent one is added at the end. */
  function Toggled(s: seq<string>, id: string): (r: seq<string>)
    ensures id in r <==> id !in s
    ensures id !in s ==> |r| == |s| + 1 && r[..|s|] == s && r[|s|] == id
    ensures id in s ==> |r| < |s|
  {
    var keep := (x: string) => x != id;
    if id in s then FilterMembership(s, keep, id); FilterShortens(s, keep, id); Filter(s, keep) else s + [id]
  }

  /** Toggling flips the membership of that id and keeps every other id and
      the absence of repetitions. */
  lemma ToggledMembership(s: seq<string>, id: string)
    requires Distinct(s)
    ensures Distinct(Toggled(s, id))
    ensures id in Toggled(s, id) <==> id !in s
    ensures forall y :: y != id ==> (y in Toggled(s, id) <==> y in s)
  {
    var keep := (x: string) => x != id;
    if id in s {
      forall y ensures y in Filter(s, keep) <==> y in s && y != id {
        FilterMembership(s, keep, y);
      }
      DistinctFilter(s, keep);
    }
  }

  lemma {:induction false} DistinctFilter(s: seq<string>, p: string -> bool)
    requires Distinct(s)
    ensures Distinct(Filter(s, p))
  {
    if s != [] {
      var tail := s[1..];
      assert Distinct(tail) by {
        forall i, j | 0 <= i < j < |tail| ensures tail[i] != tail[j] {
          assert tail[i] == s[i + 1] && tail[j] == s[j + 1];
        }
      }
      DistinctFilter(tail, p);
      if p(s[0]) {
        FilterMembership(tail, p, s[0]);
        var r := Filter(s, p);
        assert r == [s[0]] + Filter(tail, p);
        forall i, j | 0 <= i < j < |r| ensures r[i] != r[j] {
          if i == 0 {
            assert r[j] == Filter(tail, p)[j - 1];
            assert r[j] in Filter(tail, p);
          } else {
            assert r[i] == Filter(tail, p)[i - 1] && r[j] == Filter(tail, p)[j - 1];
          }
        }
      }
    }
  }

  /** Selecting a member and then deselecting it restores the selection
      exactly; deselecting and reselecting restores the set of selected ids. */
  lemma ToggleTwice(s: seq<string>, id: string)
    requires Distinct(s)
    ensures id !in s ==> Toggled(Toggled(s, id), id) == s
    ensures forall y :: y in Toggled(Toggled(s, id), id) <==> y in s
  {
    ToggledMembership(s, id);
    ToggledMembership(Toggled(s, id), id);
    if id !in s {
      var keep := (x: string) => x != id;
      assert forall i :: 0 <= i < |s| ==> keep(s[i]);
      FilterKeepsAll(s, keep);
      FilterAppend(s, [id], keep);
      assert Filter([id], keep) == [];
    }
  }

  /** One invitation per selected id, in selection order. */
  function Invitations(selected: seq<string>, roomId: string, inviterId: string): (r: seq<Invitation>)
    ensures |r| == |selected|
    ensures forall i :: 0 <= i < |r| ==> r[i] == Invitation(roomId, inviterId, selected[i], "pending")
  {
    if selected == [] then []
    else [Invitation(roomId, inviterId, selected[0], "pending")] + Invitations(selected[1..], roomId, inviterId)
  }

  /** One unread room_invite notification per selected id, linking to the room. */
  function Notices(selected: seq<string>, roomId: string, roomName: string): (r: seq<InviteNotice>)
    ensures |r| == |selected|
    ensures forall i :: 0 <= i < |r| ==>
      r[i].userId == selected[i] && r[i].kind == "room_invite" && !r[i].isRead &&
      r[i].actionUrl == "/room/" + roomId && r[i].title == "Room Invitation" && r[i].actionLabel == "View Room" &&
      r[i].message == "You've been invited to join \"" + roomName + "\""
  {
    if selected == [] then []
    else
      [InviteNotice(selected[0], "room_invite", "Room Invitation", "You've been invited to join \"" + roomName + "\"",
                    "/room/" + roomId, "View Room", false)] + Notices(selected[1..], roomId, roomName)
  }

  /** The invitee ids of the pending invitations, without the empty or
      missing ones: `new Set(ids.filter(Boolean))`. */
  function InvitedIds(invitees: seq<Option<string>>): (r: set<string>)
    ensures forall x :: x in r <==> Some(x) in invitees && x != ""
  {
    if invitees == [] then {}
    else (if Truthy(invitees[0]) then {invitees[0].value} else {}) + InvitedIds(invitees[1..])
  }

  class InviteModal {
    const roomId: string
    const roomName: string
    var members: seq<Member>
    var selected: seq<string>
    var alreadyInvited: set<string>
    var loading: bool
    var sending: bool
    var effects: seq<Effect>

    constructor(roomId: string, roomName: string)
      ensures this.roomId == roomId && this.roomName == roomName
      ensures members == [] && selected == [] && alreadyInvited == {} && loading && !sending && effects == []
    {
      this.roomId := roomId;
      this.roomName := roomName;
      members := [];
      selected := [];
      alreadyInvited := {};
      loading := true;
      sending := false;
      effects := [];
    }

    /** fetchCircleMembers: `memberRows` and `invitees` are the two query
        results, None on error. Both lists are set only when both queries
        succeed; loading ends either way. */
    method FetchCircleMembers(memberRows: Option<seq<Member>>, invitees: Option<seq<Option<string>>>)
      modifies this
      ensures memberRows.Some? && invitees.Some? ==>
        members == memberRows.value && alreadyInvited == InvitedIds(invitees.value)
      ensures memberRows.None? || invitees.None? ==>
        members == old(members) && alreadyInvited == old(alreadyInvited)
      ensures !loading
      ensures selected == old(selected) && sending == old(sending) && effects == old(effects)
    {
      loading := true;
      if memberRows.Some? && invitees.Some? {
        alreadyInvited := InvitedIds(invitees.value);
        members := memberRows.value;
      }
      loading := false;
    }

    /** A click on a member row: already invited members do not toggle. */
    method ClickMember(id: string)
      requires Distinct(selected)
      modifies this
      ensures Distinct(selected)
      ensures selected == (if id in alreadyInvited then old(selected) else Toggled(old(selected), id))
      ensures members == old(members) && alreadyInvited == old(alreadyInvited)
      ensures loading == old(loading) && sending == old(sending) && effects == old(effects)
    {
      if id in alreadyInvited {
        return;
      }
      ToggledMembership(selected, id);
      if id in selected {
        selected := Filter(selected, (x: string) => x != id);
      } else {
        selected := selected + [id];
      }
    }

    /** handleSendInvites: nothing with an empty selection. Without a user,
        or when the invitation insert fails, the failure alert shows and no
        notification is written. Otherwise the notifications are inserted
        and, whether or not that insert fails, the parent learns how many
        were invited and the dialog closes. */
    method SendInvites(user: Option<AuthUser>, invitesOk: bool, noticesOk: bool)
      modifies this
      ensures old(selected) == [] ==> effects == old(effects)
      ensures old(selected) != [] && user.None? ==> effects == old(effects) + [FailureAlert]
      ensures old(selected) != [] && user.Some? && !invitesOk ==>
        effects == old(effects) + [InsertInvitations(Invitations(selected, roomId, user.value.id)), FailureAlert]
      ensures old(selected) != [] && user.Some? && invitesOk ==>
        effects == old(effects) + [InsertInvitations(Invitations(selected, roomId, user.value.id)),
                                   InsertNotifications(Notices(selected, roomId, roomName)),
                                   InvitesSent(|selected|), Close]
      ensures sending == (old(selected) == [] && old(sending))
      ensures selected == old(selected) && members == old(members) && alreadyInvited == old(alreadyInvited)
      ensures loading == old(loading)
    {
      if selected == [] {
        return;
      }
      sending := true;
      if user.None? {
        effects := effects + [FailureAlert];
        sending := false;
        return;
      }
      effects := effects + [InsertInvitations(Invitations(selected, roomId, user.value.id))];
      if !invitesOk {
        effects := effects + [FailureAlert];
        sending := false;
        return;
      }
      effects := effects + [InsertNotifications(Notices(selected, roomId, roomName))];
      effects := effects + [InvitesSent(|selected|), Close];
      sending := false;
    }
  }
}

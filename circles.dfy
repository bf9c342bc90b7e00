/** The circles page of src/pages/CirclesPage.tsx: who owns, belongs to or
    has asked to join a circle, the join/leave button on each card, and the
    create, invite, join and leave handlers. Backend calls are inputs
    (a success flag, a row or an insert outcome); confirmation dialogs are
    inputs saying whether the user confirmed; the calls, refetches and
    alerts are logged in `effects`. */
module Circles {
  import opened Common

  datatype Circle = Circle(
    id: string,
    name: string,
    description: string,
    ownerId: string,
    ownerName: string,
    memberCount: int,
    isPublic: bool,
    createdAt: int)

  /** A circles row as the create form inserts it. */
  datatype CircleRecord = CircleRecord(name: string, description: string, ownerId: string, ownerName: string, isPublic: bool)

  /** A circle_members row as inserted. */
  datatype MemberRecord = MemberRecord(circleId: string, userId: string, userName: string, role: string)

  /** A circle_join_requests row as inserted. */
  datatype JoinRequestRecord = JoinRequestRecord(circleId: string, userId: string, userName: string)

  /** The profile row found by email. */
  datatype InviteeProfile = InviteeProfile(id: string, displayName: Option<string>, email: string)

  /** How an insert came back: success, a unique-key violation (code
      23505) or any other error. */
  datatype InsertOutcome = Inserted | DuplicateKey | OtherError

  datatype AlertText = UserNotFound | AlreadyMember | AlreadyPending | JoinedCircle | RequestSent | JoinFailed

  datatype Effect =
    | InsertCircle(circle: CircleRecord)
    | InsertMember(member: MemberRecord)
    | LookupProfile(email: string)
    | InsertJoinRequest(request: JoinRequestRecord)
    | DeleteMembership(circleId: string, userId: string)
    | Alert(text: AlertText)
    | RefetchCircles
    | RefetchMembers(circleId: string)
    | RefetchMemberships
    | RefetchPending

  /** `user.email?.split('@')[0] || user.email || 'Anonymous'`: the local
      part of the address, else the whole address, else 'Anonymous'. */
  function CircleUserName(u: AuthUser): (name: string)
    ensures name != ""
    ensures u.email.Some? && FirstSegment(u.email.value, '@') != "" ==> name == FirstSegment(u.email.value, '@')
    ensures u.email.Some? && FirstSegment(u.email.value, '@') == "" && u.email.value != "" ==> name == u.email.value
    ensures (u.email.None? || u.email.value == "") ==> name == "Anonymous"
  {
    if u.email.None? then "Anonymous"
    else OrElse(Some(FirstSegment(u.email.value, '@')), OrElse(u.email, "Anonymous"))
  }

  /** `user?.id === circle.ownerId`. */
  predicate IsOwner(user: Option<AuthUser>, c: Circle)
  {
    user.Some? && user.value.id == c.ownerId
  }

  datatype JoinButtonText = LeaveCaption | PendingCaption | JoinCaption

  /** getJoinButtonText: membership wins over a pending request. */
  function JoinText(isMember: bool, hasPending: bool): (t: JoinButtonText)
    ensures t == LeaveCaption <==> isMember
    ensures t == PendingCaption <==> !isMember && hasPending
    ensures t == JoinCaption <==> !isMember && !hasPending
  {
    if isMember then LeaveCaption else if hasPending then PendingCaption else JoinCaption
  }

  datatype ClickAction = Leave | Join | NoAction

  /** What a click on the card's button does: leave a member's circle, join
      one with no pending request, nothing otherwise. A disabled button
      (joining this circle, or a request pending) does nothing. */
  function JoinClick(isMember: bool, hasPending: bool, joiningThis: bool): (a: ClickAction)
    ensures a == Leave <==> !joiningThis && !hasPending && isMember
    ensures a == Join <==> !joiningThis && !hasPending && !isMember
    ensures hasPending || joiningThis ==> a == NoAction
  {
    if joiningThis || hasPending then NoAction
    else if isMember then Leave
    else if !hasPending then Join
    else NoAction
  }

  /** The clicks agree with the captions: a card that reads 'Leave Circle'
      leaves, one that reads 'Join Circle' joins, one that reads 'Request
      Pending' does nothing. */
  lemma ClickMatchesText(isMember: bool, hasPending: bool)
    ensures JoinText(isMember, hasPending) == JoinCaption ==> JoinClick(isMember, hasPending, false) == Join
    ensures JoinText(isMember, hasPending) == PendingCaption ==> JoinClick(isMember, hasPending, false) == NoAction
    ensures JoinText(isMember, hasPending) == LeaveCaption && !hasPending ==> JoinClick(isMember, hasPending, false) == Leave
  {
  }

  /** The remove-member control: only the owner sees it, and never on the
      owner's own row. */
  predicate CanRemove(viewerIsOwner: bool, role: string)
  {
    viewerIsOwner && role != "owner"
  }

  /** The circle's membership set after a successful leave, as the page
      keeps it: the handler refetches the circle list but not the
      memberships. */
  function MembershipsAfterLeave(memberships: set<string>, circleId: string): (r: set<string>)
    ensures r == memberships
  {
    memberships
  }

  /** The membership set as intended after leaving: without that circle. */
  function IntendedMembershipsAfterLeave(memberships: set<string>, circleId: string): (r: set<string>)
    ensures circleId !in r
    ensures forall x :: x != circleId ==> (x in r <==> x in memberships)
  {
    memberships - {circleId}
  }

  /** As written, a member who leaves still sees 'Leave Circle' on that card. */
  lemma StaleLeaveButton(memberships: set<string>, pending: set<string>, c: Circle)
    requires c.id in memberships
    ensures JoinText(c.id in MembershipsAfterLeave(memberships, c.id), c.id in pending) == LeaveCaption
  {
  }

  /** With the intended update the card offers to join again, or shows the
      pending request. */
  lemma LeftCircleOffersJoin(memberships: set<string>, pending: set<string>, c: Circle)
    ensures JoinText(c.id in IntendedMembershipsAfterLeave(memberships, c.id), c.id in pending) != LeaveCaption
    ensures c.id !in pending ==>
      JoinClick(c.id in IntendedMembershipsAfterLeave(memberships, c.id), c.id in pending, false) == Join
  {
  }

  /** The calls handleCreateCircle makes for a signed-in user and a
      non-blank name: the circle insert and, when it returns the new id,
      the owner's membership row and a refetch of the list. */
  function CreateEffects(u: AuthUser, name: string, description: string, isPublic: bool, created: Option<string>): (r: seq<Effect>)
    ensures |r| == if created.Some? then 3 else 1
    ensures r[0] == InsertCircle(CircleRecord(Trim(name), Trim(description), u.id, CircleUserName(u), isPublic))
    ensures created.Some? ==> r[1] == InsertMember(MemberRecord(created.value, u.id, CircleUserName(u), "owner"))
    ensures created.Some? ==> r[2] == RefetchCircles
  {
    [InsertCircle(CircleRecord(Trim(name), Trim(description), u.id, CircleUserName(u), isPublic))] +
    (if created.Some? then [InsertMember(MemberRecord(created.value, u.id, CircleUserName(u), "owner")), RefetchCircles] else [])
  }

  /** The calls handleInviteMember makes once it has a circle and a
      non-blank address. */
  function InviteEffects(circleId: string, email: string, profile: Fetch<InviteeProfile>, outcome: InsertOutcome): (r: seq<Effect>)
    ensures |r| >= 1 && r[0] == LookupProfile(Trim(email))
    ensures profile.FetchError? ==> |r| == 1
    ensures profile == FetchData(None) ==> r == [LookupProfile(Trim(email)), Alert(UserNotFound)]
    ensures profile.FetchData? && profile.data.Some? ==>
      |r| >= 2 && r[1] == InsertMember(MemberRecord(circleId, profile.data.value.id,
                                                    OrElse(profile.data.value.displayName, profile.data.value.email), "member"))
    ensures profile.FetchData? && profile.data.Some? && outcome == DuplicateKey ==> r[2..] == [Alert(AlreadyMember)]
    ensures profile.FetchData? && profile.data.Some? && outcome == Inserted ==> r[2..] == [RefetchMembers(circleId), RefetchCircles]
    ensures profile.FetchData? && profile.data.Some? && outcome == OtherError ==> |r| == 2
  {
    [LookupProfile(Trim(email))] +
    (match profile
     case FetchError => []
     case FetchData(None) => [Alert(UserNotFound)]
     case FetchData(Some(p)) =>
       [InsertMember(MemberRecord(circleId, p.id, OrElse(p.displayName, p.email), "member"))] +
       (match outcome
        case Inserted => [RefetchMembers(circleId), RefetchCircles]
        case DuplicateKey => [Alert(AlreadyMember)]
        case OtherError => []))
  }

  /** The calls handleJoinCircle makes for a signed-in user. */
  function JoinEffects(u: AuthUser, c: Circle, outcome: InsertOutcome): (r: seq<Effect>)
    ensures |r| >= 1 && r[0] == InsertJoinRequest(JoinRequestRecord(c.id, u.id, CircleUserName(u)))
    ensures outcome == Inserted && c.isPublic ==> r[1..] == [Alert(JoinedCircle), RefetchMemberships, RefetchCircles]
    ensures outcome == Inserted && !c.isPublic ==> r[1..] == [Alert(RequestSent), RefetchPending]
    ensures outcome == DuplicateKey ==> r[1..] == [Alert(AlreadyPending)]
    ensures outcome == OtherError ==> r[1..] == [Alert(JoinFailed)]
  {
    [InsertJoinRequest(JoinRequestRecord(c.id, u.id, CircleUserName(u)))] +
    (match outcome
     case Inserted => if c.isPublic then [Alert(JoinedCircle), RefetchMemberships, RefetchCircles]
                      else [Alert(RequestSent), RefetchPending]
     case DuplicateKey => [Alert(AlreadyPending)]
     case OtherError => [Alert(JoinFailed)])
  }

  class CirclesPage {
    const user: Option<AuthUser>
    var memberships: set<string>
    var pendingRequests: set<string>
    var joining: Option<string>
    var selectedCircle: Option<Circle>
    var newCircleName: string
    var newCircleDescription: string
    var newCircleIsPublic: bool
    var showCreateModal: bool
    var creating: bool
    var inviteEmail: string
    var inviting: bool
    var effects: seq<Effect>

    constructor(user: Option<AuthUser>)
      ensures this.user == user
      ensures memberships == {} && pendingRequests == {} && joining.None? && selectedCircle.None?
      ensures newCircleName == "" && newCircleDescription == "" && newCircleIsPublic
      ensures !showCreateModal && !creating && inviteEmail == "" && !inviting && effects == []
    {
      this.user := user;
      memberships := {};
      pendingRequests := {};
      joining := None;
      selectedCircle := None;
      newCircleName := "";
      newCircleDescription := "";
      newCircleIsPublic := true;
      showCreateModal := false;
      creating := false;
      inviteEmail := "";
      inviting := false;
      effects := [];
    }

    /** fetchUserMemberships and fetchPendingRequests: the circle ids of the
        user's memberships and pending requests, None on error. */
    method FetchSets(memberCircles: Option<seq<string>>, pendingCircles: Option<seq<string>>)
      modifies this
      ensures user.Some? && memberCircles.Some? ==> memberships == set x | x in memberCircles.value
      ensures user.None? || memberCircles.None? ==> memberships == old(memberships)
      ensures user.Some? && pendingCircles.Some? ==> pendingRequests == set x | x in pendingCircles.value
      ensures user.None? || pendingCircles.None? ==> pendingRequests == old(pendingRequests)
      ensures joining == old(joining) && selectedCircle == old(selectedCircle) && effects == old(effects)
      ensures newCircleName == old(newCircleName) && newCircleDescription == old(newCircleDescription)
      ensures newCircleIsPublic == old(newCircleIsPublic) && showCreateModal == old(showCreateModal)
      ensures creating == old(creating) && inviteEmail == old(inviteEmail) && inviting == old(inviting)
    {
      if user.None? {
        return;
      }
      if memberCircles.Some? {
        memberships := set x | x in memberCircles.value;
      }
      if pendingCircles.Some? {
        pendingRequests := set x | x in pendingCircles.value;
      }
    }

    /** handleCreateCircle: nothing without a user or with a blank name.
        The circle is inserted with trimmed name and description and the
        user as owner; `created` is the new circle's id, None when the insert
        fails. On success the owner's membership row is inserted (its result
        unchecked), the form is reset, the dialog closes and the list is
        fetched again. */
    method CreateCircle(created: Option<string>)
      modifies this
      ensures user.None? || Trim(old(newCircleName)) == "" ==>
        effects == old(effects) && newCircleName == old(newCircleName) && showCreateModal == old(showCreateModal) &&
        creating == old(creating)
      ensures user.Some? && Trim(old(newCircleName)) != "" ==>
        !creating &&
        effects == old(effects) + CreateEffects(user.value, old(newCircleName), old(newCircleDescription), old(newCircleIsPublic), created)
      ensures user.Some? && Trim(old(newCircleName)) != "" && created.Some? ==>
        newCircleName == "" && newCircleDescription == "" && newCircleIsPublic && !showCreateModal
      ensures user.None? || Trim(old(newCircleName)) == "" || created.None? ==>
        newCircleName == old(newCircleName) && newCircleDescription == old(newCircleDescription) &&
        newCircleIsPublic == old(newCircleIsPublic) && showCreateModal == old(showCreateModal)
      ensures memberships == old(memberships) && pendingRequests == old(pendingRequests)
      ensures joining == old(joining) && selectedCircle == old(selectedCircle)
      ensures inviteEmail == old(inviteEmail) && inviting == old(inviting)
    {
      if user.None? || Trim(newCircleName) == "" {
        return;
      }
      creating := true;
      effects := effects + CreateEffects(user.value, newCircleName, newCircleDescription, newCircleIsPublic, created);
      if created.Some? {
        newCircleName := "";
        newCircleDescription := "";
        newCircleIsPublic := true;
        showCreateModal := false;
      }
      creating := false;
    }

    /** handleInviteMember: nothing without a selected circle or with a
        blank address. The profile is looked up by the trimmed address; a
        lookup error ends quietly, no profile gives the not-found alert.
        Otherwise the member row is inserted: on success the field is
        cleared and members and circles are fetched again; a duplicate gives
        the already-a-member alert; any other error ends quietly. */
    method InviteMember(profile: Fetch<InviteeProfile>, outcome: InsertOutcome)
      modifies this
      ensures selectedCircle.None? || Trim(old(inviteEmail)) == "" ==>
        effects == old(effects) && inviteEmail == old(inviteEmail) && inviting == old(inviting)
      ensures selectedCircle.Some? && Trim(old(inviteEmail)) != "" ==>
        !inviting && effects == old(effects) + InviteEffects(selectedCircle.value.id, old(inviteEmail), profile, outcome)
      ensures inviteEmail == (if selectedCircle.Some? && Trim(old(inviteEmail)) != "" && profile.FetchData? &&
                                 profile.data.Some? && outcome == Inserted then "" else old(inviteEmail))
      ensures memberships == old(memberships) && pendingRequests == old(pendingRequests)
      ensures joining == old(joining) && selectedCircle == old(selectedCircle)
      ensures newCircleName == old(newCircleName) && newCircleDescription == old(newCircleDescription)
      ensures newCircleIsPublic == old(newCircleIsPublic) && showCreateModal == old(showCreateModal)
      ensures creating == old(creating)
    {
      if selectedCircle.None? || Trim(inviteEmail) == "" {
        return;
      }
      inviting := true;
      effects := effects + InviteEffects(selectedCircle.value.id, inviteEmail, profile, outcome);
      if profile.FetchData? && profile.data.Some? && outcome == Inserted {
        inviteEmail := "";
      }
      inviting := false;
    }

    /** handleJoinCircle: nothing without a user. The join request is
        inserted; a public circle then counts as joined and memberships are
        fetched again, a private one waits for the owner and pending
        requests are fetched again. A duplicate means a request is already
        pending; any other error gives the failure alert. */
    method JoinCircle(c: Circle, outcome: InsertOutcome)
      modifies this
      ensures user.None? ==> effects == old(effects) && joining == old(joining)
      ensures user.Some? ==> joining.None? && effects == old(effects) + JoinEffects(user.value, c, outcome)
      ensures memberships == old(memberships) && pendingRequests == old(pendingRequests)
      ensures selectedCircle == old(selectedCircle) && newCircleName == old(newCircleName) && inviteEmail == old(inviteEmail)
      ensures newCircleDescription == old(newCircleDescription) && newCircleIsPublic == old(newCircleIsPublic)
      ensures showCreateModal == old(showCreateModal) && creating == old(creating) && inviting == old(inviting)
    {
      if user.None? {
        return;
      }
      joining := Some(c.id);
      effects := effects + JoinEffects(user.value, c, outcome);
      joining := None;
    }

    /** handleLeaveCircle as written: nothing without a user or when the
        user does not confirm; otherwise the membership row is deleted and,
        on success, the circle list is fetched again. `memberships` is left
        as it was (MembershipsAfterLeave), so the card of a circle just left
        still reads 'Leave Circle'. */
    method LeaveCircle(c: Circle, confirmed: bool, ok: bool)
      modifies this
      ensures user.None? || !confirmed ==> effects == old(effects)
      ensures user.Some? && confirmed ==>
        effects == old(effects) + [DeleteMembership(c.id, user.value.id)] + (if ok then [RefetchCircles] else [])
      ensures memberships == MembershipsAfterLeave(old(memberships), c.id)
      ensures c.id in old(memberships) ==> JoinText(c.id in memberships, c.id in pendingRequests) == LeaveCaption
      ensures pendingRequests == old(pendingRequests) && joining == old(joining)
      ensures selectedCircle == old(selectedCircle) && newCircleName == old(newCircleName) && inviteEmail == old(inviteEmail)
      ensures newCircleDescription == old(newCircleDescription) && newCircleIsPublic == old(newCircleIsPublic)
      ensures showCreateModal == old(showCreateModal) && creating == old(creating) && inviting == old(inviting)
    {
      if user.None? || !confirmed {
        return;
      }
      effects := effects + [DeleteMembership(c.id, user.value.id)];
      if ok {
        effects := effects + [RefetchCircles];
        memberships := MembershipsAfterLeave(memberships, c.id);
      }
    }

    /** handleLeaveCircle as evidently intended: the same calls, and after a
        successful delete the circle is dropped from `memberships`, so its
        card no longer reads 'Leave Circle'. */
    method LeaveCircleIntended(c: Circle, confirmed: bool, ok: bool)
      modifies this
      ensures user.None? || !confirmed ==> effects == old(effects)
      ensures user.Some? && confirmed ==>
        effects == old(effects) + [DeleteMembership(c.id, user.value.id)] + (if ok then [RefetchCircles] else [])
      ensures memberships ==
        if user.Some? && confirmed && ok then IntendedMembershipsAfterLeave(old(memberships), c.id) else old(memberships)
      ensures user.Some? && confirmed && ok ==> JoinText(c.id in memberships, c.id in pendingRequests) != LeaveCaption
      ensures pendingRequests == old(pendingRequests) && joining == old(joining)
      ensures selectedCircle == old(selectedCircle) && newCircleName == old(newCircleName) && inviteEmail == old(inviteEmail)
      ensures newCircleDescription == old(newCircleDescription) && newCircleIsPublic == old(newCircleIsPublic)
      ensures showCreateModal == old(showCreateModal) && creating == old(creating) && inviting == old(inviting)
    {
      if user.None? || !confirmed {
        return;
      }
      effects := effects + [DeleteMembership(c.id, user.value.id)];
      if ok {
        effects := effects + [RefetchCircles];
        memberships := IntendedMembershipsAfterLeave(memberships, c.id);
      }
    }

    /** A click on a card's join/leave button, which only non-owners see:
        the caption's action runs handleLeaveCircle or handleJoinCircle,
        and a 'Joining...' click does nothing. */
    method ClickJoinButton(c: Circle, confirmed: bool, leaveOk: bool, outcome: InsertOutcome)
      requires !IsOwner(user, c)
      modifies this
      ensures var action := JoinClick(c.id in old(memberships), c.id in old(pendingRequests), old(joining) == Some(c.id));
        effects == old(effects) +
          (if action == Join && user.Some? then JoinEffects(user.value, c, outcome)
           else if action == Leave && user.Some? && confirmed then
             [DeleteMembership(c.id, user.value.id)] + (if leaveOk then [RefetchCircles] else [])
           else [])
      ensures joining ==
        if JoinClick(c.id in old(memberships), c.id in old(pendingRequests), old(joining) == Some(c.id)) == Join &&
           user.Some?
        then None else old(joining)
      ensures memberships == old(memberships) && pendingRequests == old(pendingRequests)
      ensures selectedCircle == old(selectedCircle) && newCircleName == old(newCircleName) && inviteEmail == old(inviteEmail)
      ensures newCircleDescription == old(newCircleDescription) && newCircleIsPublic == old(newCircleIsPublic)
      ensures showCreateModal == old(showCreateModal) && creating == old(creating) && inviting == old(inviting)
    {
      var action := JoinClick(c.id in memberships, c.id in pendingRequests, joining == Some(c.id));
      if action == Leave {
        LeaveCircle(c, confirmed, leaveOk);
      } else if action == Join {
        JoinCircle(c, outcome);
      }
    }
  }
}

/** The room lobby of src/pages/HomePage.tsx: which active rooms a user may
    see (public ones, and private ones of circles the user belongs to), the
    split into live and scheduled lists, and the host's Go Live button on a
    scheduled card. Backend reads and writes are inputs; navigations, the
    status write and alerts are logged in `effects`. */
module HomePage {
  import opened Common
  import opened RoomModel

  datatype Effect =
    | WriteStatusLive(roomId: string)
    | Navigate(path: string)
    | GoLiveFailedAlert

  /** The accessibility test: a public room always passes; a private one
      passes when its circle id is set and is one of the user's circles. */
  predicate Accessible(room: Room, circleIds: set<string>)
    ensures !room.isPrivate ==> Accessible(room, circleIds)
    ensures room.isPrivate && Accessible(room, circleIds) ==> room.circleId.Some? && room.circleId.value in circleIds
    ensures circleIds == {} ==> (Accessible(room, circleIds) <==> !room.isPrivate)
  {
    !room.isPrivate || (Truthy(room.circleId) && room.circleId.value in circleIds)
  }

  /** `roomsData.filter(...)` with the accessibility test. */
  function AccessibleRooms(rooms: seq<Room>, circleIds: set<string>): (r: seq<Room>)
    ensures |r| <= |rooms|
  {
    Filter(rooms, (x: Room) => Accessible(x, circleIds))
  }

  /** The lobby's two lists for a set of circle ids. */
  function LobbyLive(rooms: seq<Room>, circleIds: set<string>): (r: seq<Room>)
  {
    WithStatus(AccessibleRooms(rooms, circleIds), Live)
  }

  function LobbyScheduled(rooms: seq<Room>, circleIds: set<string>): (r: seq<Room>)
  {
    WithStatus(AccessibleRooms(rooms, circleIds), Scheduled)
  }

  /** A room is listed live (scheduled) exactly when it was fetched, is
      accessible and has that status; both lists keep the fetched order;
      ended rooms are in neither and no room is in both. */
  lemma LobbyLists(rooms: seq<Room>, circleIds: set<string>)
    ensures forall x :: x in LobbyLive(rooms, circleIds) <==> x in rooms && Accessible(x, circleIds) && x.status == Live
    ensures forall x :: x in LobbyScheduled(rooms, circleIds) <==> x in rooms && Accessible(x, circleIds) && x.status == Scheduled
    ensures IsSubsequence(LobbyLive(rooms, circleIds), rooms)
    ensures IsSubsequence(LobbyScheduled(rooms, circleIds), rooms)
    ensures forall x :: x in rooms && x.status == Ended ==> x !in LobbyLive(rooms, circleIds) && x !in LobbyScheduled(rooms, circleIds)
  {
    var acc := (x: Room) => Accessible(x, circleIds);
    forall st: RoomStatus ensures IsSubsequence(WithStatus(AccessibleRooms(rooms, circleIds), st), rooms) {
      var both := (x: Room) => acc(x) && x.status == st;
      FilterFilter(rooms, acc, (x: Room) => x.status == st, both);
      FilterIsSubsequence(rooms, both);
    }
    forall st: RoomStatus, x ensures x in WithStatus(AccessibleRooms(rooms, circleIds), st) <==> x in rooms && Accessible(x, circleIds) && x.status == st {
      FilterMembership(AccessibleRooms(rooms, circleIds), (y: Room) => y.status == st, x);
      FilterMembership(rooms, acc, x);
    }
  }

  /** Every public room is accessible, whatever the user's circles; a
      private room without a circle id never is. */
  lemma PublicRoomsAlwaysShown(room: Room, circleIds: set<string>)
    ensures !room.isPrivate ==> Accessible(room, circleIds)
    ensures room.isPrivate && !Truthy(room.circleId) ==> !Accessible(room, circleIds)
  {
  }

  /** When the membership query fails the set of circle ids is empty, and
      exactly the public rooms remain. */
  lemma {:induction false} MembershipErrorShowsPublicOnly(rooms: seq<Room>)
    ensures AccessibleRooms(rooms, {}) == Filter(rooms, (x: Room) => !x.isPrivate)
  {
    if rooms != [] {
      MembershipErrorShowsPublicOnly(rooms[1..]);
    }
  }

  /** `room.hostId === user?.id`. */
  predicate IsHostOf(room: Room, user: Option<AuthUser>)
  {
    user.Some? && room.hostId == user.value.id
  }

  /** Where a click on a scheduled card goes: nowhere for its host, the
      room page for anyone else. */
  function ScheduledCardTarget(room: Room, user: Option<AuthUser>): (path: Option<string>)
    ensures path.None? <==> IsHostOf(room, user)
    ensures path.Some? ==> path.value == "/room/" + room.id
  {
    if IsHostOf(room, user) then None else Some("/room/" + room.id)
  }

  datatype GoLiveButton = GoLive | Starting

  /** The Go Live button on a scheduled card: only its host sees it, and it
      reads 'Starting...' while that room is going live. */
  function GoLiveControl(room: Room, user: Option<AuthUser>, goingLive: Option<string>): (b: Option<GoLiveButton>)
    ensures b.Some? <==> IsHostOf(room, user)
    ensures b == Some(Starting) <==> IsHostOf(room, user) && goingLive == Some(room.id)
  {
    if !IsHostOf(room, user) then None
    else if goingLive == Some(room.id) then Some(Starting)
    else Some(GoLive)
  }

  class Lobby {
    const user: Option<AuthUser>
    var liveRooms: seq<Room>
    var scheduledRooms: seq<Room>
    var goingLive: Option<string>
    var effects: seq<Effect>

    constructor(user: Option<AuthUser>)
      ensures this.user == user
      ensures liveRooms == [] && scheduledRooms == [] && goingLive.None? && effects == []
    {
      this.user := user;
      liveRooms := [];
      scheduledRooms := [];
      goingLive := None;
      effects := [];
    }

    /** fetchRooms: `rooms` is the active rooms newest first, None on error;
        `memberCircles` the circle ids of the user's memberships, None on
        error, which counts as no circles. Nothing changes without a user or
        without rooms. */
    method FetchRooms(rooms: Option<seq<Room>>, memberCircles: Option<seq<string>>)
      modifies this
      ensures user.None? || rooms.None? ==> liveRooms == old(liveRooms) && scheduledRooms == old(scheduledRooms)
      ensures user.Some? && rooms.Some? ==>
        var ids := if memberCircles.Some? then set c | c in memberCircles.value else {};
        liveRooms == LobbyLive(rooms.value, ids) && scheduledRooms == LobbyScheduled(rooms.value, ids)
      ensures goingLive == old(goingLive) && effects == old(effects)
    {
      if user.None? || rooms.None? {
        return;
      }
      var ids: set<string> := if memberCircles.Some? then set c | c in memberCircles.value else {};
      var accessible := AccessibleRooms(rooms.value, ids);
      liveRooms := WithStatus(accessible, Live);
      scheduledRooms := WithStatus(accessible, Scheduled);
    }

    /** handleGoLive: the status write comes first; the host is taken to the
        room only when it succeeds, and the button is released either way. */
    method HandleGoLive(roomId: string, ok: bool)
      modifies this
      ensures effects == old(effects) + [WriteStatusLive(roomId)] +
        (if ok then [Navigate("/room/" + roomId)] else [GoLiveFailedAlert])
      ensures goingLive.None?
      ensures liveRooms == old(liveRooms) && scheduledRooms == old(scheduledRooms)
    {
      goingLive := Some(roomId);
      effects := effects + [WriteStatusLive(roomId)];
      if ok {
        effects := effects + [Navigate("/room/" + roomId)];
      } else {
        effects := effects + [GoLiveFailedAlert];
      }
      goingLive := None;
    }

    /** The 'No rooms right now' state. */
    predicate ShowsEmptyState()
      reads this
    {
      liveRooms == [] && scheduledRooms == []
    }
  }
}

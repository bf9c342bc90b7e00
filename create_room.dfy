/** The room creation form of src/pages/CreateRoomPage.tsx: its defaults,
    the field setters, the row it inserts and where the user goes next. The
    insert is an input (the new row's id, or None when it fails); the insert,
    the navigation and the failure alert are logged in `effects`. */
module CreateRoom {
  import opened Common
  import opened RoomModel
  import RoomDetail
  import HomePage

  /** The category drop-down's options; the first is the default. */
  const Categories: seq<string> := [
    "Morning Prayer", "Evening Prayer", "Bible Study", "Intercession", "Worship",
    "Thanksgiving", "Youth Prayer", "Family Prayer", "Other"]

  /** The form state. The status buttons only offer live and scheduled; the
      two times are the raw datetime-local strings. */
  datatype RoomForm = RoomForm(
    name: string,
    description: string,
    category: string,
    isPrivate: bool,
    maxParticipants: int,
    status: RoomStatus,
    scheduledStartTime: string,
    scheduledEndTime: string)

  const DefaultForm := RoomForm("", "", "Morning Prayer", false, 50, Live, "", "")

  /** The prayer_rooms row handed to the insert. */
  datatype NewRoom = NewRoom(
    name: string,
    description: string,
    category: string,
    isPrivate: bool,
    maxParticipants: int,
    status: RoomStatus,
    hostId: string,
    hostName: string,
    participantCount: int,
    scheduledStartTime: Option<string>,
    scheduledEndTime: Option<string>)

  datatype Effect = InsertRoom(row: NewRoom) | Navigate(path: string) | FailureAlert

  /** `roomData`: the form's fields, the user as host under their e-mail
      name, no participants yet, and the two times only for a scheduled
      room. */
  function NewRoomRecord(form: RoomForm, user: AuthUser): (r: NewRoom)
    ensures r.name == form.name && r.description == form.description && r.category == form.category
    ensures r.isPrivate == form.isPrivate && r.maxParticipants == form.maxParticipants && r.status == form.status
    ensures r.hostId == user.id && r.hostName == EmailName(user) && r.hostName != ""
    ensures r.participantCount == 0
    ensures r.scheduledStartTime.Some? <==> form.status == Scheduled
    ensures r.scheduledEndTime.Some? <==> form.status == Scheduled
    ensures form.status == Scheduled ==>
      r.scheduledStartTime == Some(form.scheduledStartTime) && r.scheduledEndTime == Some(form.scheduledEndTime)
  {
    var scheduled := form.status == Scheduled;
    NewRoom(form.name, form.description, form.category, form.isPrivate, form.maxParticipants, form.status,
      user.id, EmailName(user), 0,
      if scheduled then Some(form.scheduledStartTime) else None,
      if scheduled then Some(form.scheduledEndTime) else None)
  }

  /** What the browser's own checks let through before the submit handler
      runs: a name and a description, a participant limit between 2 and
      1000, and both times for a scheduled room. The handler itself checks
      none of these. */
  predicate Submittable(form: RoomForm)
  {
    form.name != "" && form.description != "" &&
    2 <= form.maxParticipants <= 1000 &&
    (form.status == Scheduled ==> form.scheduledStartTime != "" && form.scheduledEndTime != "")
  }

  /** The inserted row as the room pages read it back: `id` and `createdAt`
      come from the database, and so do the scheduled times, parsed from
      the strings the form sent. */
  function Stored(row: NewRoom, id: string, createdAt: int, start: Option<int>, end: Option<int>): (room: Room)
    ensures room.id == id && room.hostId == row.hostId && room.status == row.status
    ensures room.participantCount == row.participantCount && room.maxParticipants == row.maxParticipants
    ensures room.isPrivate == row.isPrivate && room.circleId.None?
  {
    Room(id, row.name, row.description, row.category, row.hostId, row.hostName,
      row.participantCount, row.maxParticipants, row.status, row.isPrivate, None,
      start, end, createdAt)
  }

  /** A room created from a form the browser let through is open to others:
      anyone but its creator who opens it while live sees an enabled 'Join
      Room' button, and its creator is its host. */
  lemma NewRoomIsJoinable(form: RoomForm, creator: AuthUser, other: Option<AuthUser>, id: string, createdAt: int,
                          start: Option<int>, end: Option<int>)
    requires Submittable(form)
    requires other.None? || other.value.id != creator.id
    ensures var room := Stored(NewRoomRecord(form, creator), id, createdAt, start, end);
      RoomDetail.SelectPanel(other, room, true, false) == RoomDetail.JoinButton(false, "Join Room") &&
      RoomDetail.IsHost(Some(creator), room)
  {
  }

  /** A public room created live shows in everyone's live list of the lobby
      once fetched, and a private one, having no circle, in nobody's. */
  lemma NewRoomInLobby(form: RoomForm, creator: AuthUser, id: string, createdAt: int,
                       start: Option<int>, end: Option<int>, rooms: seq<Room>, circleIds: set<string>)
    requires form.status == Live
    requires Stored(NewRoomRecord(form, creator), id, createdAt, start, end) in rooms
    ensures var room := Stored(NewRoomRecord(form, creator), id, createdAt, start, end);
      (room in HomePage.LobbyLive(rooms, circleIds) <==> !form.isPrivate) &&
      room !in HomePage.LobbyScheduled(rooms, circleIds)
  {
    HomePage.LobbyLists(rooms, circleIds);
  }

  class CreateRoomPage {
    const user: Option<AuthUser>
    var form: RoomForm
    var loading: bool
    var effects: seq<Effect>

    /** The category is one of the drop-down's and the status one of the
        two the buttons offer. */
    predicate Valid()
      reads this
    {
      form.category in Categories && form.status != Ended
    }

    constructor(user: Option<AuthUser>)
      ensures this.user == user
      ensures form == DefaultForm && !loading && effects == []
      ensures Valid()
    {
      this.user := user;
      form := DefaultForm;
      loading := false;
      effects := [];
    }

    method SetName(name: string)
      modifies this
      ensures form == old(form).(name := name)
      ensures loading == old(loading) && effects == old(effects)
      ensures old(Valid()) ==> Valid()
    {
      form := form.(name := name);
    }

    method SetDescription(description: string)
      modifies this
      ensures form == old(form).(description := description)
      ensures loading == old(loading) && effects == old(effects)
      ensures old(Valid()) ==> Valid()
    {
      form := form.(description := description);
    }

    /** The drop-down only offers the listed categories. */
    method SetCategory(category: string)
      requires category in Categories
      modifies this
      ensures form == old(form).(category := category)
      ensures loading == old(loading) && effects == old(effects)
      ensures old(Valid()) ==> Valid()
    {
      form := form.(category := category);
    }

    /** `parseInt` of the field's text; the browser's min and max are not
        applied here. */
    method SetMaxParticipants(n: int)
      modifies this
      ensures form == old(form).(maxParticipants := n)
      ensures loading == old(loading) && effects == old(effects)
      ensures old(Valid()) ==> Valid()
    {
      form := form.(maxParticipants := n);
    }

    method SetPrivate(isPrivate: bool)
      modifies this
      ensures form == old(form).(isPrivate := isPrivate)
      ensures loading == old(loading) && effects == old(effects)
      ensures old(Valid()) ==> Valid()
    {
      form := form.(isPrivate := isPrivate);
    }

    /** The 'Go Live Now' and 'Schedule' buttons; the times typed so far are
        kept when switching back and forth. */
    method SetStatus(status: RoomStatus)
      requires status != Ended
      modifies this
      ensures form == old(form).(status := status)
      ensures loading == old(loading) && effects == old(effects)
      ensures old(Valid()) ==> Valid()
    {
      form := form.(status := status);
    }

    method SetScheduledStartTime(t: string)
      modifies this
      ensures form == old(form).(scheduledStartTime := t)
      ensures loading == old(loading) && effects == old(effects)
      ensures old(Valid()) ==> Valid()
    {
      form := form.(scheduledStartTime := t);
    }

    method SetScheduledEndTime(t: string)
      modifies this
      ensures form == old(form).(scheduledEndTime := t)
      ensures loading == old(loading) && effects == old(effects)
      ensures old(Valid()) ==> Valid()
    {
      form := form.(scheduledEndTime := t);
    }

    /** handleSubmit: nothing without a user; otherwise the row is inserted,
        and the user is taken to the new room, or alerted when the insert
        fails. The form is left as it was and loading ends either way. */
    method HandleSubmit(created: Option<string>)
      modifies this
      ensures form == old(form)
      ensures user.None? ==> effects == old(effects) && loading == old(loading)
      ensures user.Some? ==> !loading
      ensures user.Some? ==>
        effects == old(effects) + [InsertRoom(NewRoomRecord(form, user.value))] +
                   (if created.Some? then [Navigate("/room/" + created.value)] else [FailureAlert])
    {
      if user.None? {
        return;
      }
      loading := true;
      effects := effects + [InsertRoom(NewRoomRecord(form, user.value))];
      if created.Some? {
        effects := effects + [Navigate("/room/" + created.value)];
      } else {
        effects := effects + [FailureAlert];
      }
      loading := false;
    }
  }
}

/** The "My Rooms" page of src/pages/MyRoomsPage.tsx: the rooms the user has
    joined as a speaker, grouped by status. The two backend reads are
    inputs; the queries issued are logged in `effects`. */
module MyRooms {
  import opened Common
  import opened RoomModel

  datatype Effect = QuerySpeakerRows(userId: string) | QueryRooms(roomIds: seq<string>)

  /** A room_speakers row, reduced to the column the page selects. */
  datatype SpeakerRow = SpeakerRow(roomId: string)

  /** `joinedRoomIds.map(r => r.room_id)`. */
  function RoomIds(rows: seq<SpeakerRow>): (ids: seq<string>)
    ensures |ids| == |rows|
    ensures forall i :: 0 <= i < |rows| ==> ids[i] == rows[i].roomId
  {
    if rows == [] then [] else [rows[0].roomId] + RoomIds(rows[1..])
  }

  class MyRoomsPage {
    const user: Option<AuthUser>
    var liveRooms: seq<Room>
    var scheduledRooms: seq<Room>
    var pastRooms: seq<Room>
    var loading: bool
    var effects: seq<Effect>

    constructor(user: Option<AuthUser>)
      ensures this.user == user
      ensures liveRooms == [] && scheduledRooms == [] && pastRooms == [] && loading && effects == []
    {
      this.user := user;
      liveRooms := [];
      scheduledRooms := [];
      pastRooms := [];
      loading := true;
      effects := [];
    }

    /** fetchMyRooms: `speakerRows` is the user's room_speakers rows, None on
        error; `rooms` the rows of those rooms newest first, None on error.
        Nothing at all happens without a user. An error, or no joined rooms,
        leaves the three lists as they were; loading ends in every case. */
    method FetchMyRooms(speakerRows: Option<seq<SpeakerRow>>, rooms: Option<seq<Room>>)
      modifies this
      ensures user.None? ==> effects == old(effects) && loading == old(loading)
      ensures user.None? || speakerRows.None? || speakerRows.value == [] || rooms.None? ==>
        liveRooms == old(liveRooms) && scheduledRooms == old(scheduledRooms) && pastRooms == old(pastRooms)
      ensures user.Some? ==> !loading
      ensures user.Some? && (speakerRows.None? || speakerRows.value == []) ==>
        effects == old(effects) + [QuerySpeakerRows(user.value.id)]
      ensures user.Some? && speakerRows.Some? && speakerRows.value != [] ==>
        effects == old(effects) + [QuerySpeakerRows(user.value.id), QueryRooms(RoomIds(speakerRows.value))]
      ensures user.Some? && speakerRows.Some? && speakerRows.value != [] && rooms.Some? ==>
        liveRooms == WithStatus(rooms.value, Live) && scheduledRooms == WithStatus(rooms.value, Scheduled) &&
        pastRooms == WithStatus(rooms.value, Ended)
    {
      if user.None? {
        return;
      }
      loading := true;
      effects := effects + [QuerySpeakerRows(user.value.id)];
      if speakerRows.None? {
        loading := false;
        return;
      }
      if speakerRows.value == [] {
        loading := false;
        return;
      }
      var roomIds := RoomIds(speakerRows.value);
      effects := effects + [QueryRooms(roomIds)];
      if rooms.None? {
        loading := false;
        return;
      }
      liveRooms := WithStatus(rooms.value, Live);
      scheduledRooms := WithStatus(rooms.value, Scheduled);
      pastRooms := WithStatus(rooms.value, Ended);
      loading := false;
    }

    /** The "You haven't joined any rooms yet" state. */
    predicate ShowsEmptyState()
      reads this
    {
      liveRooms == [] && scheduledRooms == [] && pastRooms == []
    }
  }

  /** After a successful fetch the empty state shows exactly when none of
      the fetched rooms is live, scheduled or ended. */
  lemma EmptyStateIffNoRooms(rooms: seq<Room>)
    ensures (WithStatus(rooms, Live) == [] && WithStatus(rooms, Scheduled) == [] && WithStatus(rooms, Ended) == []) <==> rooms == []
  {
    StatusPartition(rooms);
  }
}

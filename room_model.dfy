/** The prayer-room record shared by the room pages, the split of a room
    list by status, and the copy of formatScheduledTime that HomePage.tsx and
    MyRoomsPage.tsx each carry. Times are integer milliseconds. */
module RoomModel {
  import opened Common
  import DateUtil

  datatype RoomStatus = Scheduled | Live | Ended

  /** A prayer_rooms row. */
  datatype Room = Room(
    id: string,
    name: string,
    description: string,
    category: string,
    hostId: string,
    hostName: string,
    participantCount: int,
    maxParticipants: int,
    status: RoomStatus,
    isPrivate: bool,
    circleId: Option<string>,
    scheduledStart: Option<int>,
    scheduledEnd: Option<int>,
    createdAt: int)

  /** `rooms.filter(r => r.status === st)`. */
  function WithStatus(rooms: seq<Room>, st: RoomStatus): (r: seq<Room>)
    ensures |r| <= |rooms|
  {
    Filter(rooms, (x: Room) => x.status == st)
  }

  /** The live, scheduled and ended lists are order-preserving sub-lists of
      the input, no room is in two of them, every room is in one of them,
      and together they are exactly as long as the input. */
  lemma StatusPartition(rooms: seq<Room>)
    ensures IsSubsequence(WithStatus(rooms, Live), rooms)
    ensures IsSubsequence(WithStatus(rooms, Scheduled), rooms)
    ensures IsSubsequence(WithStatus(rooms, Ended), rooms)
    ensures forall x :: x in WithStatus(rooms, Live) <==> x in rooms && x.status == Live
    ensures forall x :: x in WithStatus(rooms, Scheduled) <==> x in rooms && x.status == Scheduled
    ensures forall x :: x in WithStatus(rooms, Ended) <==> x in rooms && x.status == Ended
    ensures |WithStatus(rooms, Live)| + |WithStatus(rooms, Scheduled)| + |WithStatus(rooms, Ended)| == |rooms|
  {
    forall st: RoomStatus ensures IsSubsequence(WithStatus(rooms, st), rooms) {
      FilterIsSubsequence(rooms, (x: Room) => x.status == st);
    }
    forall st: RoomStatus, x ensures x in WithStatus(rooms, st) <==> x in rooms && x.status == st {
      FilterMembership(rooms, (x: Room) => x.status == st, x);
    }
    PartitionSizes(rooms);
  }

  lemma {:induction false} PartitionSizes(rooms: seq<Room>)
    ensures |WithStatus(rooms, Live)| + |WithStatus(rooms, Scheduled)| + |WithStatus(rooms, Ended)| == |rooms|
  {
    if rooms != [] {
      PartitionSizes(rooms[1..]);
    }
  }

  /** formatScheduledTime as copied into the two pages: the same arithmetic
      as the date.ts version but without its `diff <= 0` guard. */
  function PageFormatScheduledTime(scheduledMs: int, nowMs: int): (r: DateUtil.ScheduledLabel)
    ensures r == DateUtil.FormatScheduledTime(scheduledMs, nowMs)
  {
    var diff := scheduledMs - nowMs;
    var minutes := DateUtil.FloorDiv(diff, 60000);
    var hours := DateUtil.FloorDiv(minutes, 60);
    var days := DateUtil.FloorDiv(hours, 24);
    if days > 0 then DateUtil.InDays(days, DateUtil.JsRem(hours, 24))
    else if hours > 0 then DateUtil.InHours(hours, DateUtil.JsRem(minutes, 60))
    else if minutes > 0 then DateUtil.InMinutes(minutes)
    else DateUtil.StartingSoon
  }

  /** Without the guard a past start time still reads "Starting soon":
      flooring a non-positive difference never gives a positive count. */
  lemma PageCopyStartingSoonWhenPast(scheduledMs: int, nowMs: int)
    requires scheduledMs <= nowMs
    ensures PageFormatScheduledTime(scheduledMs, nowMs) == DateUtil.StartingSoon
  {
  }
}

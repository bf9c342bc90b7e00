/** The notification bell of src/components/NotificationBell.tsx: the list of
    the user's latest notifications, the unread counter kept beside it, the
    badge and the icon per notification type. Backend writes are inputs
    saying whether they succeeded; the calls made are logged in `effects`. */
module NotificationBell {
  import opened Common
  import DateUtil

  datatype Notification = Notification(
    id: string,
    kind: string,
    title: string,
    message: string,
    actionUrl: Option<string>,
    actionLabel: Option<string>,
    relatedId: Option<string>,
    isRead: bool,
    createdAt: int)

  datatype Effect =
    | MarkReadWrite(id: string)
    | MarkAllReadWrite(userId: string)
    | DeleteWrite(id: string)
    | Navigate(url: string)

  /** The number of rows the fetch asks for. */
  const FetchLimit := 20

  function Unread(ns: seq<Notification>): (n: nat)
    ensures n <= |ns|
  {
    Count(ns, (x: Notification) => !x.isRead)
  }

  /** `prev.map(n => n.id === id ? {...n, isRead: true} : n)`. */
  function MarkRead(ns: seq<Notification>, id: string): (r: seq<Notification>)
    ensures |r| == |ns|
    ensures forall i :: 0 <= i < |ns| ==> r[i] == if ns[i].id == id then ns[i].(isRead := true) else ns[i]
  {
    if ns == [] then [] else [if ns[0].id == id then ns[0].(isRead := true) else ns[0]] + MarkRead(ns[1..], id)
  }

  /** `prev.map(n => ({...n, isRead: true}))`. */
  function MarkAllRead(ns: seq<Notification>): (r: seq<Notification>)
    ensures |r| == |ns|
    ensures forall i :: 0 <= i < |ns| ==> r[i] == ns[i].(isRead := true)
  {
    if ns == [] then [] else [ns[0].(isRead := true)] + MarkAllRead(ns[1..])
  }

  /** `prev.filter(n => n.id !== id)`. */
  function WithoutId(ns: seq<Notification>, id: string): (r: seq<Notification>)
    ensures |r| <= |ns|
  {
    Filter(ns, (x: Notification) => x.id != id)
  }

  /** Every id occurs at most once. */
  predicate DistinctIds(ns: seq<Notification>)
  {
    forall i, j :: 0 <= i < j < |ns| ==> ns[i].id != ns[j].id
  }

  /** Marking one unread notification read lowers the true unread number by
      exactly one; marking an id that is absent or already read changes it
      by nothing. */
  lemma {:induction false} MarkReadUnread(ns: seq<Notification>, id: string)
    requires DistinctIds(ns)
    ensures (exists i :: 0 <= i < |ns| && ns[i].id == id && !ns[i].isRead) ==> Unread(MarkRead(ns, id)) == Unread(ns) - 1
    ensures (forall i :: 0 <= i < |ns| && ns[i].id == id ==> ns[i].isRead) ==> Unread(MarkRead(ns, id)) == Unread(ns)
  {
    if ns != [] {
      var tail := ns[1..];
      assert DistinctIds(tail) by {
        forall i, j | 0 <= i < j < |tail| ensures tail[i].id != tail[j].id {
          assert tail[i] == ns[i + 1] && tail[j] == ns[j + 1];
        }
      }
      MarkReadUnread(tail, id);
      var r := MarkRead(ns, id);
      assert r[1..] == MarkRead(tail, id);
      assert r == [r[0]] + r[1..];
      UnreadCons(ns);
      UnreadCons(r);
      if ns[0].id == id {
        assert forall i :: 0 <= i < |tail| ==> tail[i].id != id by {
          forall i | 0 <= i < |tail| ensures tail[i].id != id {
            assert tail[i] == ns[i + 1];
          }
        }
        MarkReadAbsent(tail, id);
      } else {
        if exists i :: 0 <= i < |ns| && ns[i].id == id && !ns[i].isRead {
          var i :| 0 <= i < |ns| && ns[i].id == id && !ns[i].isRead;
          assert tail[i - 1] == ns[i];
        }
        if forall i :: 0 <= i < |ns| && ns[i].id == id ==> ns[i].isRead {
          forall i | 0 <= i < |tail| && tail[i].id == id ensures tail[i].isRead {
            assert tail[i] == ns[i + 1];
          }
        }
      }
    }
  }

  lemma {:induction false} UnreadCons(ns: seq<Notification>)
    requires ns != []
    ensures Unread(ns) == (if ns[0].isRead then 0 else 1) + Unread(ns[1..])
  {
  }

  lemma {:induction false} MarkReadAbsent(ns: seq<Notification>, id: string)
    requires forall i :: 0 <= i < |ns| ==> ns[i].id != id
    ensures MarkRead(ns, id) == ns
  {
  }

  /** After marking everything read nothing is unread. */
  lemma {:induction false} MarkAllReadLeavesNoneUnread(ns: seq<Notification>)
    ensures Unread(MarkAllRead(ns)) == 0
  {
    FilterDropsAll(MarkAllRead(ns), (x: Notification) => !x.isRead);
  }

  /** Deleting removes exactly the notifications with that id, keeping the
      others in order. */
  lemma DeleteRemovesExactlyThatId(ns: seq<Notification>, id: string)
    ensures forall x :: x in WithoutId(ns, id) <==> x in ns && x.id != id
    ensures IsSubsequence(WithoutId(ns, id), ns)
  {
    forall x ensures x in WithoutId(ns, id) <==> x in ns && x.id != id {
      FilterMembership(ns, (y: Notification) => y.id != id, x);
    }
    FilterIsSubsequence(ns, (y: Notification) => y.id != id);
  }

  /** The badge: hidden at zero, the number up to nine, '9+' beyond. */
  function Badge(unreadCount: int): (b: Option<string>)
    ensures b.None? <==> unreadCount <= 0
    ensures b == Some("9+") <==> unreadCount > 9
    ensures 0 < unreadCount <= 9 ==> b == Some([DigitChar(unreadCount)])
  {
    if unreadCount <= 0 then None
    else if unreadCount > 9 then Some("9+")
    else Some(Decimal(unreadCount))
  }

  /** The icon per notification type, the bell for any other type. */
  function Icon(kind: string): (glyph: string)
    ensures (kind !in {"circle_join_request", "circle_join_approved", "circle_join_rejected",
                       "prayer_request_response", "prayer_request_amen", "room_invite"}) ==> glyph == "\U{1F514}"
    ensures kind == "room_invite" ==> glyph == "\U{1F4DE}"
  {
    match kind
    case "circle_join_request" => "\U{1F465}"
    case "circle_join_approved" => "\U{2705}"
    case "circle_join_rejected" => "\U{274C}"
    case "prayer_request_response" => "\U{1F4AC}"
    case "prayer_request_amen" => "\U{1F64F}"
    case "room_invite" => "\U{1F4DE}"
    case _ => "\U{1F514}"
  }

  /** The bell's own getTimeAgo: the same buckets as the date.ts helper. */
  function BellTimeAgo(nowMs: int, createdAt: int): (r: DateUtil.TimeAgoLabel)
    ensures r == DateUtil.TimeAgo(nowMs, createdAt)
  {
    var seconds := DateUtil.FloorDiv(nowMs - createdAt, 1000);
    if seconds < 60 then DateUtil.JustNow
    else if seconds < 3600 then DateUtil.MinutesAgo(DateUtil.FloorDiv(seconds, 60))
    else if seconds < 86400 then DateUtil.HoursAgo(DateUtil.FloorDiv(seconds, 3600))
    else if seconds < 604800 then DateUtil.DaysAgo(DateUtil.FloorDiv(seconds, 86400))
    else DateUtil.LocaleDate
  }

  class Bell {
    const user: Option<AuthUser>
    var notifications: seq<Notification>
    var unreadCount: int
    var isOpen: bool
    var loading: bool
    var effects: seq<Effect>

    /** The counter is never negative and the list never longer than a fetch. */
    predicate Valid()
      reads this
    {
      0 <= unreadCount && |notifications| <= FetchLimit
    }

    constructor(user: Option<AuthUser>)
      ensures Valid() && this.user == user
      ensures notifications == [] && unreadCount == 0 && !isOpen && loading && effects == []
    {
      this.user := user;
      notifications := [];
      unreadCount := 0;
      isOpen := false;
      loading := true;
      effects := [];
    }

    /** fetchNotifications: `latest` is the user's notifications newest
        first, or None when the query fails. The first twenty are kept and
        the counter is set to the number of unread among them. */
    method Fetch(latest: Option<seq<Notification>>)
      requires Valid()
      modifies this
      ensures Valid()
      ensures user.None? ==> notifications == old(notifications) && unreadCount == old(unreadCount) && loading == old(loading)
      ensures user.Some? && latest.Some? ==>
        notifications == latest.value[..if |latest.value| < FetchLimit then |latest.value| else FetchLimit] &&
        unreadCount == Unread(notifications) && !loading
      ensures user.Some? && latest.None? ==>
        notifications == old(notifications) && unreadCount == old(unreadCount) && !loading
      ensures isOpen == old(isOpen) && effects == old(effects)
    {
      if user.None? {
        return;
      }
      if latest.Some? {
        var n := if |latest.value| < FetchLimit then |latest.value| else FetchLimit;
        notifications := latest.value[..n];
        unreadCount := Unread(notifications);
      }
      loading := false;
    }

    /** markAsRead: on success the matching notification is marked read and
        the counter goes down by one, floored at zero, whether or not that
        notification was unread. */
    method MarkAsRead(id: string, ok: bool)
      requires Valid()
      modifies this
      ensures Valid()
      ensures effects == old(effects) + [MarkReadWrite(id)]
      ensures ok ==> notifications == MarkRead(old(notifications), id) &&
                     unreadCount == (if old(unreadCount) - 1 > 0 then old(unreadCount) - 1 else 0)
      ensures !ok ==> notifications == old(notifications) && unreadCount == old(unreadCount)
      ensures isOpen == old(isOpen) && loading == old(loading)
    {
      effects := effects + [MarkReadWrite(id)];
      if !ok {
        return;
      }
      notifications := MarkRead(notifications, id);
      unreadCount := if unreadCount - 1 > 0 then unreadCount - 1 else 0;
    }

    /** markAllAsRead: nothing without a user; on success every notification
        is read and the counter is zero. */
    method MarkAllAsRead(ok: bool)
      requires Valid()
      modifies this
      ensures Valid()
      ensures user.None? ==> effects == old(effects)
      ensures user.Some? ==> effects == old(effects) + [MarkAllReadWrite(user.value.id)]
      ensures user.Some? && ok ==> notifications == MarkAllRead(old(notifications)) && unreadCount == 0
      ensures user.None? || !ok ==> notifications == old(notifications) && unreadCount == old(unreadCount)
      ensures isOpen == old(isOpen) && loading == old(loading)
    {
      if user.None? {
        return;
      }
      effects := effects + [MarkAllReadWrite(user.value.id)];
      if !ok {
        return;
      }
      notifications := MarkAllRead(notifications);
      unreadCount := 0;
    }

    /** deleteNotification: on success the notification leaves the list; the
        counter is not touched, even for an unread one. */
    method Delete(id: string, ok: bool)
      requires Valid()
      modifies this
      ensures Valid()
      ensures effects == old(effects) + [DeleteWrite(id)]
      ensures notifications == (if ok then WithoutId(old(notifications), id) else old(notifications))
      ensures unreadCount == old(unreadCount) && isOpen == old(isOpen) && loading == old(loading)
    {
      effects := effects + [DeleteWrite(id)];
      if ok {
        notifications := WithoutId(notifications, id);
      }
    }

    /** handleNotificationClick: mark it read, then follow its link and close
        the dropdown only when it has one. */
    method Click(n: Notification, ok: bool)
      requires Valid()
      modifies this
      ensures Valid()
      ensures effects == old(effects) + [MarkReadWrite(n.id)] + (if Truthy(n.actionUrl) then [Navigate(n.actionUrl.value)] else [])
      ensures isOpen == (old(isOpen) && !Truthy(n.actionUrl))
      ensures ok ==> notifications == MarkRead(old(notifications), n.id) &&
                     unreadCount == (if old(unreadCount) - 1 > 0 then old(unreadCount) - 1 else 0)
      ensures !ok ==> notifications == old(notifications) && unreadCount == old(unreadCount)
      ensures loading == old(loading)
    {
      MarkAsRead(n.id, ok);
      if Truthy(n.actionUrl) {
        effects := effects + [Navigate(n.actionUrl.value)];
        isOpen := false;
      }
    }

    /** The bell button opens and closes the dropdown. */
    method Toggle()
      modifies this
      ensures isOpen == !old(isOpen)
      ensures notifications == old(notifications) && unreadCount == old(unreadCount)
      ensures loading == old(loading) && effects == old(effects)
    {
      isOpen := !isOpen;
    }

    /** Whether the 'Mark all read' button shows. */
    function ShowsMarkAll(): bool
      reads this
    {
      unreadCount > 0
    }
  }

  /** The counter drifts from the list in two ways: marking an already read
      notification still lowers it, and deleting an unread one does not. */
  lemma CounterDrift(ns: seq<Notification>, id: string, count: int)
    requires DistinctIds(ns)
    requires count == Unread(ns) && count > 0
    ensures (forall i :: 0 <= i < |ns| && ns[i].id == id ==> ns[i].isRead) ==>
      Unread(MarkRead(ns, id)) == count && (if count - 1 > 0 then count - 1 else 0) == count - 1
    ensures (exists i :: 0 <= i < |ns| && ns[i].id == id && !ns[i].isRead) ==> Unread(WithoutId(ns, id)) < count
  {
    MarkReadUnread(ns, id);
    if exists i :: 0 <= i < |ns| && ns[i].id == id && !ns[i].isRead {
      var i :| 0 <= i < |ns| && ns[i].id == id && !ns[i].isRead;
      UnreadDropsWithout(ns, id, i);
    }
  }

  lemma {:induction false} UnreadDropsWithout(ns: seq<Notification>, id: string, i: int)
    requires 0 <= i < |ns| && ns[i].id == id && !ns[i].isRead
    ensures Unread(WithoutId(ns, id)) < Unread(ns)
  {
    UnreadCons(ns);
    var keep := (x: Notification) => x.id != id;
    var unread := (x: Notification) => !x.isRead;
    if i == 0 {
      UnreadWithoutLe(ns[1..], id);
      assert WithoutId(ns, id) == WithoutId(ns[1..], id);
    } else {
      assert ns[1..][i - 1] == ns[i];
      UnreadDropsWithout(ns[1..], id, i - 1);
      if ns[0].id != id {
        assert WithoutId(ns, id) == [ns[0]] + WithoutId(ns[1..], id);
        UnreadCons(WithoutId(ns, id));
        assert WithoutId(ns, id)[1..] == WithoutId(ns[1..], id);
      } else {
        assert WithoutId(ns, id) == WithoutId(ns[1..], id);
      }
    }
  }

  lemma {:induction false} UnreadWithoutLe(ns: seq<Notification>, id: string)
    ensures Unread(WithoutId(ns, id)) <= Unread(ns)
  {
    if ns != [] {
      UnreadWithoutLe(ns[1..], id);
      UnreadCons(ns);
      if ns[0].id != id {
        assert WithoutId(ns, id) == [ns[0]] + WithoutId(ns[1..], id);
        UnreadCons(WithoutId(ns, id));
        assert WithoutId(ns, id)[1..] == WithoutId(ns[1..], id);
      } else {
        assert WithoutId(ns, id) == WithoutId(ns[1..], id);
      }
    }
  }
}

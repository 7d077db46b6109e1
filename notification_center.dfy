/** The notification bell (`src/components/ui/notification-center.tsx`): the
    unread count and its badge, marking one or all notifications read,
    removing one, and the relative time shown for each. The current time is
    a parameter. */
module NotificationCenter {
  import opened Seqs
  import opened Text
  import opened AppStore

  datatype NotificationKind = MessageNotice | BlastNotice | SystemNotice | WarningNotice

  /** A notification; the optional action button is not part of this model. */
  datatype Notification = Notification(
    id: string,
    kind: NotificationKind,
    title: string,
    message: string,
    timestamp: string,
    read: bool)

  function NotificationKey(n: Notification): string { n.id }

  predicate IsUnread(n: Notification)
  {
    !n.read
  }

  /** `unreadCount`. */
  function UnreadCount(notifications: seq<Notification>): (r: nat)
    ensures r <= |notifications|
    ensures r == 0 <==> forall n :: n in notifications ==> n.read
  {
    var unread := Filter(notifications, IsUnread);
    assert unread != [] ==> unread[0] in unread;
    |unread|
  }

  /** The badge on the bell: hidden with nothing unread, the count up to 9,
      and "9+" beyond. */
  function BadgeLabel(unread: int): (r: Option<string>)
    ensures r.None? <==> unread <= 0
    ensures unread > 9 ==> r == Some("9+")
    ensures 0 < unread <= 9 ==> r == Some([DigitChar(unread)])
  {
    if unread <= 0 then None
    else if unread > 9 then Some("9+")
    else Some(NatToString(unread))
  }

  /** `markAsRead`'s rewrite of one notification. */
  function MarkRead(n: Notification): Notification
  {
    n.(read := true)
  }

  /** The notifications after `markAsRead(id)`. */
  function MarkedRead(notifications: seq<Notification>, id: string): (r: seq<Notification>)
    ensures UnreadCount(r) <= UnreadCount(notifications)
  {
    var r := UpdatedById(notifications, NotificationKey, id, MarkRead);
    FilterCountPointwise(notifications, r, IsUnread);
    r
  }

  /** Marking the same notification read twice is marking it once. */
  lemma MarkAsReadIdempotent(notifications: seq<Notification>, id: string)
    ensures MarkedRead(MarkedRead(notifications, id), id) == MarkedRead(notifications, id)
  {
    UpdateIdempotent(notifications, NotificationKey, id, MarkRead);
  }

  /** The notifications after `markAllAsRead`: the same ones, all read. */
  function AllMarkedRead(notifications: seq<Notification>): (r: seq<Notification>)
    ensures |r| == |notifications|
    ensures UnreadCount(r) == 0
    ensures forall i :: 0 <= i < |r| ==> r[i] == notifications[i].(read := true)
  {
    Map(notifications, MarkRead)
  }

  /** `Math.floor(diff / 60000)`: whole minutes elapsed. */
  function Minutes(diff: int): (r: int)
    ensures 60000 * r <= diff < 60000 * (r + 1)
  {
    diff / 60000
  }

  /** `Math.floor(diff / 3600000)`: whole hours elapsed. */
  function Hours(diff: int): (r: int)
    ensures 3600000 * r <= diff < 3600000 * (r + 1)
  {
    diff / 3600000
  }

  /** `formatTime` for a timestamp `diff` milliseconds in the past; `date` is
      the timestamp's locale date. */
  function FormatTime(diff: int, date: string): string
  {
    var m := Minutes(diff);
    var h := Hours(diff);
    if m < 1 then "Just now"
    else if m < 60 then NatToString(m) + "m ago"
    else if h < 24 then NatToString(h) + "h ago"
    else date
  }

  /** The four bands of `formatTime`: under a minute (including timestamps in
      the future), whole minutes under an hour, whole hours under a day, and
      the date from a day on. */
  lemma FormatTimeBands(diff: int, date: string)
    ensures diff < 60000 ==> FormatTime(diff, date) == "Just now"
    ensures 60000 <= diff < 3600000 ==> exists m: nat ::
      1 <= m < 60 && 60000 * m <= diff < 60000 * (m + 1) && FormatTime(diff, date) == NatToString(m) + "m ago"
    ensures 3600000 <= diff < 86400000 ==> exists h: nat ::
      1 <= h < 24 && 3600000 * h <= diff < 3600000 * (h + 1) && FormatTime(diff, date) == NatToString(h) + "h ago"
    ensures diff >= 86400000 ==> FormatTime(diff, date) == date
  {
    var m := Minutes(diff);
    var h := Hours(diff);
    assert diff < 60000 ==> m < 1;
    assert 3600000 <= diff ==> m >= 60 && h >= 1;
    assert diff >= 86400000 ==> h >= 24;
    if 60000 <= diff < 3600000 {
      var w: nat := m;
      assert 1 <= w < 60 && FormatTime(diff, date) == NatToString(w) + "m ago";
    }
    if 3600000 <= diff < 86400000 {
      var w: nat := h;
      assert 1 <= w < 24 && FormatTime(diff, date) == NatToString(w) + "h ago";
    }
  }

  /** The samples: five minutes ago reads "5m ago", two hours ago "2h ago". */
  lemma FormatTimeSamples(date: string)
    ensures FormatTime(300000, date) == "5m ago"
    ensures FormatTime(7200000, date) == "2h ago"
  {
    assert Minutes(300000) == 5;
    assert Minutes(7200000) == 120 && Hours(7200000) == 2;
  }

  class NotificationList {
    var notifications: seq<Notification>
    var isOpen: bool

    constructor(samples: seq<Notification>)
      ensures notifications == samples && !isOpen
    {
      notifications := samples;
      isOpen := false;
    }

    /** `markAsRead`: the notifications with that id become read, every other
        one is unchanged. */
    method MarkAsRead(id: string)
      modifies this`notifications
      ensures notifications == MarkedRead(old(notifications), id)
      ensures forall i :: 0 <= i < |notifications| ==>
        notifications[i] == if old(notifications)[i].id == id then old(notifications)[i].(read := true)
                            else old(notifications)[i]
    {
      notifications := MarkedRead(notifications, id);
    }

    /** `markAllAsRead`. */
    method MarkAllAsRead()
      modifies this`notifications
      ensures notifications == AllMarkedRead(old(notifications))
      ensures UnreadCount(notifications) == 0 && BadgeLabel(UnreadCount(notifications)).None?
    {
      notifications := AllMarkedRead(notifications);
    }

    /** `removeNotification`: the notifications with that id go, the rest stay
        in order. */
    method RemoveNotification(id: string)
      modifies this`notifications
      ensures notifications == RemovedById(old(notifications), NotificationKey, id)
      ensures UnreadCount(notifications) <= UnreadCount(old(notifications))
    {
      var before := notifications;
      notifications := RemovedById(notifications, NotificationKey, id);
      FilterSubsequenceCount(notifications, before, IsUnread);
    }
  }

  /** A subsequence has no more elements passing a filter than the whole. */
  lemma {:induction false} FilterSubsequenceCount<T>(sub: seq<T>, s: seq<T>, p: T -> bool)
    requires IsSubsequence(sub, s)
    ensures |Filter(sub, p)| <= |Filter(s, p)|
    decreases |s|
  {
    if sub != [] && s != [] {
      if sub[0] == s[0] && IsSubsequence(sub[1..], s[1..]) {
        FilterSubsequenceCount(sub[1..], s[1..], p);
      } else {
        FilterSubsequenceCount(sub, s[1..], p);
      }
    }
  }
}

// The notification hook (src/services/NotificationService.ts): the list shown, its unread count
// and the development fallback of mark-as-read, whose mapped list is the mutation's result.
module Notifications {
  import opened Wrappers
  import Seqs

  datatype NotificationKind = IdeaStatusChange | ReviewAdded | CommentAdded

  datatype Notification = Notification(
    id: string, userId: string, kind: NotificationKind, title: string, message: string,
    read: bool, createdAt: string)

  /** The two development notifications: '1' unread, '2' read (their timestamps are parameters). */
  function MockNotifications(now: string, dayBefore: string): (ns: seq<Notification>)
    ensures |ns| == 2 && ns[0].id == "1" && !ns[0].read && ns[1].id == "2" && ns[1].read
  {
    [ Notification("1", "1", ReviewAdded, "New Review Added",
        "Your idea \"AI-Powered Code Review Assistant\" has received a new review.", false, now),
      Notification("2", "1", IdeaStatusChange, "Idea Status Updated",
        "Your idea has moved to the Second Level Review stage.", true, dayBefore) ]
  }

  /** The list the hook returns: the fetched data, or the mock list while there is none. */
  function Shown(data: Option<seq<Notification>>, now: string, dayBefore: string): (ns: seq<Notification>)
    ensures data.Some? ==> ns == data.value
    ensures data.None? ==> ns == MockNotifications(now, dayBefore)
  {
    data.GetOr(MockNotifications(now, dayBefore))
  }

  function IsUnread(n: Notification): bool
  {
    !n.read
  }

  /** `notifications.filter(n => !n.read).length`. */
  function UnreadCount(ns: seq<Notification>): (c: nat)
    ensures c <= |ns|
  {
    |Seqs.Filter(ns, IsUnread)|
  }

  /** The list's read flags, one per notification, in order. */
  function ReadFlags(ns: seq<Notification>): (flags: seq<bool>)
    ensures |flags| == |ns| && forall i :: 0 <= i < |ns| ==> flags[i] == ns[i].read
  {
    seq(|ns|, i requires 0 <= i < |ns| => ns[i].read)
  }

  /** The unread count is the number of `false` read flags. */
  lemma {:induction false} UnreadCountIsFalseFlags(ns: seq<Notification>)
    ensures UnreadCount(ns) == multiset(ReadFlags(ns))[false]
  {
    if |ns| > 0 {
      UnreadCountIsFalseFlags(ns[1..]);
      assert ReadFlags(ns) == [ns[0].read] + ReadFlags(ns[1..]);
    }
  }

  /** The mock list has one unread notification. */
  lemma MockUnreadCount(now: string, dayBefore: string)
    ensures UnreadCount(MockNotifications(now, dayBefore)) == 1
  {
    var ns := MockNotifications(now, dayBefore);
    assert Seqs.Filter(ns[1..], IsUnread) == Seqs.Filter(ns[1..][1..], IsUnread) == [];
    assert Seqs.Filter(ns, IsUnread) == [ns[0]];
  }

  /** One notification as the fallback's `map` leaves it. */
  function Marked(n: Notification, notificationId: string): Notification
  {
    if n.id == notificationId then n.(read := true) else n
  }

  /**
   * The fallback of `markAsRead`: the list with every notification of that id marked read. This
   * list is only the mutation's return value; nothing stores it, and the hook's success handler
   * merely invalidates the cached query.
   */
  function MarkAsRead(ns: seq<Notification>, notificationId: string): (r: seq<Notification>)
    ensures |r| == |ns|
    ensures forall i :: 0 <= i < |ns| ==> r[i] == Marked(ns[i], notificationId)
  {
    seq(|ns|, i requires 0 <= i < |ns| => Marked(ns[i], notificationId))
  }

  /**
   * Marking makes the notifications with that id read, changes no other field of them and
   * leaves every other notification as it was, position by position.
   */
  lemma MarkAsReadEffect(ns: seq<Notification>, notificationId: string, i: int)
    requires 0 <= i < |ns|
    ensures ns[i].id == notificationId ==> MarkAsRead(ns, notificationId)[i].read
    ensures MarkAsRead(ns, notificationId)[i].(read := ns[i].read) == ns[i]
    ensures ns[i].id != notificationId ==> MarkAsRead(ns, notificationId)[i] == ns[i]
  {
  }

  /** Marking twice is marking once. */
  lemma MarkAsReadIdempotent(ns: seq<Notification>, notificationId: string)
    ensures MarkAsRead(MarkAsRead(ns, notificationId), notificationId) == MarkAsRead(ns, notificationId)
  {
  }

  /** Marking an id no notification has changes nothing. */
  lemma MarkUnknownId(ns: seq<Notification>, notificationId: string)
    requires forall i :: 0 <= i < |ns| ==> ns[i].id != notificationId
    ensures MarkAsRead(ns, notificationId) == ns
  {
  }

  /** The unread notifications that carry the id being marked. */
  function UnreadWithId(notificationId: string): Notification -> bool
  {
    (n: Notification) => !n.read && n.id == notificationId
  }

  /** Marking lowers the unread count by exactly the number of unread notifications with that id. */
  lemma {:induction false} MarkAsReadCount(ns: seq<Notification>, notificationId: string)
    ensures UnreadCount(MarkAsRead(ns, notificationId))
      == UnreadCount(ns) - |Seqs.Filter(ns, UnreadWithId(notificationId))|
  {
    if |ns| > 0 {
      MarkAsReadCount(ns[1..], notificationId);
      assert MarkAsRead(ns, notificationId) == [Marked(ns[0], notificationId)] + MarkAsRead(ns[1..], notificationId);
    }
  }

  /** Marking never raises the unread count, and lowers it when an unread notification has that id. */
  lemma MarkAsReadNeverRaisesCount(ns: seq<Notification>, notificationId: string)
    ensures UnreadCount(MarkAsRead(ns, notificationId)) <= UnreadCount(ns)
    ensures (exists i :: 0 <= i < |ns| && ns[i].id == notificationId && !ns[i].read) ==>
      UnreadCount(MarkAsRead(ns, notificationId)) < UnreadCount(ns)
  {
    MarkAsReadCount(ns, notificationId);
    if exists i :: 0 <= i < |ns| && ns[i].id == notificationId && !ns[i].read {
      var i :| 0 <= i < |ns| && ns[i].id == notificationId && !ns[i].read;
      Seqs.FilterMembership(ns, UnreadWithId(notificationId), ns[i]);
    }
  }
}

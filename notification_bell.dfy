/** The bell in the feed header (src/components/NotificationBell.tsx): a list of notifications, an unread counter
    driving a red badge, a realtime insert feed, mark-as-read on click and Clear All. */
module NotificationBell {
  import opened Options
  import opened Seqs
  import opened Database

  function IsUnread(n: Notification): bool { !n.isRead }

  /** `notifications.filter(n => !n.is_read).length` */
  function CountUnread(ns: seq<Notification>): (k: nat)
    ensures k <= |ns|
  {
    |Filter(ns, IsUnread)|
  }

  /** The unread notifications carrying a given id. */
  function UnreadWithId(ns: seq<Notification>, id: string): nat {
    |Filter(ns, (n: Notification) => n.id == id && !n.isRead)|
  }

  /** `prev.map(n => n.id === id ? { ...n, is_read: true } : n)` */
  function MarkRead(ns: seq<Notification>, id: string): (r: seq<Notification>)
    ensures |r| == |ns|
    ensures forall i :: 0 <= i < |ns| ==> r[i] == if ns[i].id == id then ns[i].(isRead := true) else ns[i]
  {
    if ns == [] then []
    else [if ns[0].id == id then ns[0].(isRead := true) else ns[0]] + MarkRead(ns[1..], id)
  }

  /** Marking an id read removes exactly the unread notifications with that id from the unread count. */
  lemma {:induction false} MarkReadCount(ns: seq<Notification>, id: string)
    ensures CountUnread(MarkRead(ns, id)) == CountUnread(ns) - UnreadWithId(ns, id)
    ensures UnreadWithId(ns, id) <= CountUnread(ns)
  {
    var p := (n: Notification) => n.id == id && !n.isRead;
    if ns != [] {
      MarkReadCount(ns[1..], id);
      var m := MarkRead(ns, id);
      assert m == [m[0]] + MarkRead(ns[1..], id);
      FilterCons(m[0], MarkRead(ns[1..], id), IsUnread);
      assert ns == [ns[0]] + ns[1..];
      FilterCons(ns[0], ns[1..], IsUnread);
      FilterCons(ns[0], ns[1..], p);
    }
  }

  /** The counter after `handleRead` as written: one less, floored at 0, whatever was clicked. */
  function ReadCountAsWritten(count: int): (r: int)
    ensures r >= 0
    ensures count > 0 ==> r == count - 1
  {
    if count - 1 > 0 then count - 1 else 0
  }

  /** The counter after a read as evidently intended: less by the unread notifications that became read. */
  function ReadCount(ns: seq<Notification>, count: int, id: string): (r: int)
    ensures r >= 0
  {
    var k := UnreadWithId(ns, id);
    if count - k > 0 then count - k else 0
  }

  /** The corrected counter never falls below the true number of unread notifications, and stays equal to it
      when it was. */
  lemma ReadCountKeepsUnread(ns: seq<Notification>, count: int, id: string)
    requires count >= CountUnread(ns)
    ensures ReadCount(ns, count, id) >= CountUnread(MarkRead(ns, id))
    ensures count == CountUnread(ns) ==> ReadCount(ns, count, id) == CountUnread(MarkRead(ns, id))
  {
    MarkReadCount(ns, id);
  }

  /** The data `fetchNotifications` loads; the two timestamps come from the clock. */
  function MockNotifications(now: string, dayAgo: string): (r: seq<Notification>)
    ensures |r| == 2 && r[0].id != r[1].id
  {
    [ Notification("1", "me", MESSAGE, "New Message", "Alice Baker sent you a message.", false, now,
                   Some("/messages/1")),
      Notification("2", "me", SYSTEM, "Welcome to KBS", "Thanks for joining our community!", true, dayAgo, None) ]
  }

  lemma MockHasOneUnread(now: string, dayAgo: string)
    ensures CountUnread(MockNotifications(now, dayAgo)) == 1
  {
    var ns := MockNotifications(now, dayAgo);
    assert ns == [ns[0]] + [ns[1]];
    FilterCons(ns[0], [ns[1]], IsUnread);
    FilterCons(ns[1], [], IsUnread);
  }

  /** As written, clicking the already-read welcome notification clears the counter, and the badge, while the
      message notification is still unread. */
  lemma AsWrittenHidesUnread(now: string, dayAgo: string)
    ensures var ns := MockNotifications(now, dayAgo);
      && CountUnread(ns) == 1
      && ReadCountAsWritten(CountUnread(ns)) == 0
      && CountUnread(MarkRead(ns, "2")) == 1
  {
    var ns := MockNotifications(now, dayAgo);
    MockHasOneUnread(now, dayAgo);
    MarkReadCount(ns, "2");
    var p := (n: Notification) => n.id == "2" && !n.isRead;
    assert ns == [ns[0]] + [ns[1]];
    FilterCons(ns[0], [ns[1]], p);
    FilterCons(ns[1], [], p);
  }

  class Bell {
    var notifications: seq<Notification>
    var unreadCount: int
    var isOpen: bool

    /** The counter covers every unread notification in the list (Clear All may leave it higher). */
    ghost predicate Valid()
      reads this
    {
      unreadCount >= CountUnread(notifications)
    }

    constructor()
      ensures Valid()
      ensures notifications == [] && unreadCount == 0 && !isOpen
    {
      notifications := [];
      unreadCount := 0;
      isOpen := false;
    }

    /** `fetchNotifications`: load the list and count its unread entries. */
    method Fetch(now: string, dayAgo: string)
      modifies this`notifications, this`unreadCount
      ensures Valid()
      ensures notifications == MockNotifications(now, dayAgo) && unreadCount == CountUnread(notifications)
    {
      notifications := MockNotifications(now, dayAgo);
      unreadCount := CountUnread(notifications);
    }

    /** The realtime INSERT handler: the new notification goes first and the counter goes up by one. */
    method ReceiveInsert(n: Notification)
      requires Valid()
      modifies this`notifications, this`unreadCount
      ensures Valid()
      ensures notifications == [n] + old(notifications) && unreadCount == old(unreadCount) + 1
    {
      FilterCons(n, notifications, IsUnread);
      notifications := [n] + notifications;
      unreadCount := unreadCount + 1;
    }

    /** A click on a notification: mark it read and lower the counter by what became read. */
    method HandleRead(id: string)
      requires Valid()
      modifies this`notifications, this`unreadCount
      ensures Valid()
      ensures notifications == MarkRead(old(notifications), id)
      ensures unreadCount == ReadCount(old(notifications), old(unreadCount), id)
    {
      ReadCountKeepsUnread(notifications, unreadCount, id);
      unreadCount := ReadCount(notifications, unreadCount, id);
      notifications := MarkRead(notifications, id);
    }

    /** Clear All empties the list and leaves the counter as it is. */
    method ClearAll()
      requires Valid()
      modifies this`notifications
      ensures Valid()
      ensures notifications == [] && unreadCount == old(unreadCount)
    {
      notifications := [];
    }

    method ToggleOpen()
      modifies this`isOpen
      ensures isOpen == !old(isOpen)
    {
      isOpen := !isOpen;
    }

    /** A click on the backdrop closes the panel. */
    method CloseBackdrop()
      modifies this`isOpen
      ensures !isOpen
    {
      isOpen := false;
    }

    /** The red dot. */
    predicate BadgeShown()
      reads this
    {
      unreadCount > 0
    }

    /** While the list holds an unread notification the badge is shown. */
    lemma UnreadShowsBadge()
      requires Valid() && CountUnread(notifications) > 0
      ensures BadgeShown()
    {
    }
  }
}

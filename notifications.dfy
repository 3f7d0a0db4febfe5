/** src/views/screens/NotificationScreen.js: the fixed notification list, marking one read, clearing all. */
module Notifications {
  datatype Notification = Notification(id: string, title: string, message: string, time: string, read: bool, icon: string)

  const InitialNotifications: seq<Notification> := [
    Notification("1", "Time for your morning meditation", "You scheduled a session for this time.",
                 "10 min ago", false, "notifications"),
    Notification("2", "7-day streak!", "You've meditated 7 days in a row.", "1 hour ago", true, "star"),
    Notification("3", "Breathing Tip", "Try the 4-7-8 technique today.", "3 hours ago", true, "lightbulb-outline")
  ]

  /** markAsRead: every item carrying the id is copied with read set; all others are kept as they are. */
  function MarkAsRead(ns: seq<Notification>, id: string): (r: seq<Notification>)
    ensures |r| == |ns|
    ensures forall i :: 0 <= i < |ns| && ns[i].id == id ==> r[i] == ns[i].(read := true)
    ensures forall i :: 0 <= i < |ns| && ns[i].id != id ==> r[i] == ns[i]
  {
    if ns == [] then []
    else [if ns[0].id == id then ns[0].(read := true) else ns[0]] + MarkAsRead(ns[1..], id)
  }

  /** clearAllNotifications. */
  function ClearAllNotifications(): (r: seq<Notification>)
    ensures |r| == 0
  {
    []
  }

  function UnreadCount(ns: seq<Notification>): nat {
    if ns == [] then 0 else (if ns[0].read then 0 else 1) + UnreadCount(ns[1..])
  }

  /** Items that carry `id` and are still unread. */
  function UnreadWithId(ns: seq<Notification>, id: string): nat {
    if ns == [] then 0 else (if !ns[0].read && ns[0].id == id then 1 else 0) + UnreadWithId(ns[1..], id)
  }

  /** Marking twice is marking once. */
  lemma MarkAsReadIdempotent(ns: seq<Notification>, id: string)
    ensures MarkAsRead(MarkAsRead(ns, id), id) == MarkAsRead(ns, id)
  {
  }

  /** An id no item carries leaves the list unchanged. */
  lemma MarkUnknownId(ns: seq<Notification>, id: string)
    requires forall i :: 0 <= i < |ns| ==> ns[i].id != id
    ensures MarkAsRead(ns, id) == ns
  {
  }

  /** Marking removes from the unread count exactly the unread items carrying the id. */
  lemma {:induction false} MarkAsReadUnread(ns: seq<Notification>, id: string)
    ensures UnreadCount(MarkAsRead(ns, id)) == UnreadCount(ns) - UnreadWithId(ns, id)
    ensures UnreadWithId(MarkAsRead(ns, id), id) == 0
  {
    if ns != [] {
      MarkAsReadUnread(ns[1..], id);
      assert MarkAsRead(ns, id)[1..] == MarkAsRead(ns[1..], id);
    }
  }

  /** The initial list: three items with distinct ids, only the first unread; marking it leaves none unread. */
  lemma InitialListFacts()
    ensures |InitialNotifications| == 3
    ensures forall i, j :: 0 <= i < j < 3 ==> InitialNotifications[i].id != InitialNotifications[j].id
    ensures UnreadCount(InitialNotifications) == 1 && !InitialNotifications[0].read
    ensures UnreadCount(MarkAsRead(InitialNotifications, "1")) == 0
  {
    var ns := InitialNotifications;
    assert ns[1..] == [ns[1], ns[2]] && ns[1..][1..] == [ns[2]] && ns[1..][1..][1..] == [];
    MarkAsReadUnread(ns, "1");
    assert UnreadWithId(ns, "1") == 1;
  }

  /** After clearing, nothing is unread and marking any id keeps the list empty. */
  lemma ClearedStaysEmpty(id: string)
    ensures UnreadCount(ClearAllNotifications()) == 0
    ensures MarkAsRead(ClearAllNotifications(), id) == []
  {
  }
}

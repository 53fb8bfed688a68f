/** The notifications page: the list, its unread counter, the per-item and
    global read marks, deletion, the click handler, the tab filter and the tab
    counters. The backend calls only log their failures and are left out. */
module Notifications {
  import opened Wrappers
  import Lists

  /** `id` 0 stands for a missing (falsy) id. */
  datatype Notification = Notification(id: int, kind: string, isRead: bool, actionUrl: Option<string>)

  function CountUnread(l: seq<Notification>): (c: nat)
    ensures c <= |l|
  {
    Lists.Count(l, (n: Notification) => !n.isRead)
  }

  predicate UniqueIds(l: seq<Notification>) {
    forall i, j :: 0 <= i < j < |l| ==> l[i].id != l[j].id
  }

  /** The `map` of `markAsRead(id)`. */
  function MarkRead(l: seq<Notification>, id: int): (r: seq<Notification>)
    ensures |r| == |l|
    ensures forall i :: 0 <= i < |l| ==> r[i] == if l[i].id == id then l[i].(isRead := true) else l[i]
  {
    if l == [] then [] else [if l[0].id == id then l[0].(isRead := true) else l[0]] + MarkRead(l[1..], id)
  }

  /** The `map` of `markAllAsRead()`. */
  function MarkAllRead(l: seq<Notification>): (r: seq<Notification>)
    ensures |r| == |l|
    ensures forall i :: 0 <= i < |l| ==> r[i] == l[i].(isRead := true)
  {
    if l == [] then [] else [l[0].(isRead := true)] + MarkAllRead(l[1..])
  }

  /** The `filter` of `deleteNotification(id)`. */
  function RemoveId(l: seq<Notification>, id: int): (r: seq<Notification>)
    ensures |r| <= |l|
    ensures forall n :: n in r <==> n in l && n.id != id
  {
    Lists.Filter(l, (n: Notification) => n.id != id)
  }

  /** `find(n => n.id === id)`. */
  function FindId(l: seq<Notification>, id: int): (r: Option<Notification>)
    ensures r.Some? ==> r.value in l && r.value.id == id
    ensures r.None? ==> forall n :: n in l ==> n.id != id
  {
    if l == [] then None else if l[0].id == id then Some(l[0]) else FindId(l[1..], id)
  }

  /** With unique ids, marking an unread item read lowers the unread count by one
      and marking any other id leaves it unchanged. */
  lemma {:induction false} MarkReadCount(l: seq<Notification>, id: int)
    requires UniqueIds(l)
    ensures CountUnread(MarkRead(l, id)) ==
      if FindId(l, id).Some? && !FindId(l, id).value.isRead then CountUnread(l) - 1 else CountUnread(l)
  {
    if l != [] {
      assert UniqueIds(l[1..]);
      MarkReadCount(l[1..], id);
      assert MarkRead(l, id)[1..] == MarkRead(l[1..], id);
      if l[0].id == id {
        NotInTail(l, id);
        MarkReadAbsent(l[1..], id);
      }
    }
  }

  lemma NotInTail(l: seq<Notification>, id: int)
    requires UniqueIds(l) && l != [] && l[0].id == id
    ensures forall n :: n in l[1..] ==> n.id != id
  {
    forall n | n in l[1..]
      ensures n.id != id
    {
      var k :| 0 <= k < |l[1..]| && l[1..][k] == n;
      assert l[k + 1] == n;
    }
  }

  /** Marking an id no item has changes nothing. */
  lemma {:induction false} MarkReadAbsent(l: seq<Notification>, id: int)
    requires forall n :: n in l ==> n.id != id
    ensures MarkRead(l, id) == l
  {
    if l != [] {
      MarkReadAbsent(l[1..], id);
    }
  }

  /** With unique ids, deleting an unread item lowers the unread count by one and
      deleting any other id leaves it unchanged. */
  lemma {:induction false} RemoveIdCount(l: seq<Notification>, id: int)
    requires UniqueIds(l)
    ensures CountUnread(RemoveId(l, id)) ==
      if FindId(l, id).Some? && !FindId(l, id).value.isRead then CountUnread(l) - 1 else CountUnread(l)
  {
    if l != [] {
      assert UniqueIds(l[1..]);
      RemoveIdCount(l[1..], id);
      assert RemoveId(l, id) == (if l[0].id == id then [] else [l[0]]) + RemoveId(l[1..], id);
      if l[0].id == id {
        NotInTail(l, id);
        RemoveIdAbsent(l[1..], id);
        assert RemoveId(l, id) == l[1..];
      }
    }
  }

  lemma {:induction false} RemoveIdAbsent(l: seq<Notification>, id: int)
    requires forall n :: n in l ==> n.id != id
    ensures RemoveId(l, id) == l
  {
    if l != [] {
      RemoveIdAbsent(l[1..], id);
    }
  }

  lemma {:induction false} MarkAllReadCount(l: seq<Notification>)
    ensures CountUnread(MarkAllRead(l)) == 0
  {
    if l != [] {
      MarkAllReadCount(l[1..]);
      assert MarkAllRead(l)[1..] == MarkAllRead(l[1..]);
    }
  }

  /** The tab filter: "all", "unread", or a notification type. */
  predicate Matches(n: Notification, filter: string) {
    if filter == "all" then true else if filter == "unread" then !n.isRead else n.kind == filter
  }

  /** `filteredNotifications`: items with a (truthy) id that match the tab, in order. */
  function Filtered(l: seq<Notification>, filter: string): (r: seq<Notification>)
    ensures |r| <= |l|
    ensures forall n :: n in r <==> n in l && n.id != 0 && Matches(n, filter)
  {
    Lists.Filter(l, (n: Notification) => n.id != 0 && Matches(n, filter))
  }

  /** How many items match the tab, whatever their id. */
  function CountMatching(l: seq<Notification>, filter: string): (c: nat)
    ensures c <= |l|
  {
    if l == [] then 0 else (if Matches(l[0], filter) then 1 else 0) + CountMatching(l[1..], filter)
  }

  datatype Counts = Counts(all: nat, unread: nat, like: nat, comment: nat, follow: nat, sale: nat)

  /** `filterCounts`. */
  function FilterCounts(l: seq<Notification>): (c: Counts)
    ensures c.all == |l|
    ensures c.unread <= c.all && c.like <= c.all && c.comment <= c.all && c.follow <= c.all && c.sale <= c.all
  {
    CountAllMatches(l);
    Counts(CountMatching(l, "all"), CountMatching(l, "unread"), CountMatching(l, "like"),
      CountMatching(l, "comment"), CountMatching(l, "follow"), CountMatching(l, "sale"))
  }

  /** The "all" tab matches every item. */
  lemma {:induction false} CountAllMatches(l: seq<Notification>)
    ensures CountMatching(l, "all") == |l|
  {
    if l != [] {
      CountAllMatches(l[1..]);
    }
  }

  /** A tab never shows more items than its counter, and exactly as many when every
      item has an id; the unread counter of the tabs is the unread count. */
  lemma {:induction false} FilteredAgreesWithCount(l: seq<Notification>, filter: string)
    ensures |Filtered(l, filter)| <= CountMatching(l, filter)
    ensures (forall n :: n in l ==> n.id != 0) ==> |Filtered(l, filter)| == CountMatching(l, filter)
    ensures CountMatching(l, "unread") == CountUnread(l)
    ensures FilterCounts(l).all == |l|
  {
    if l != [] {
      FilteredAgreesWithCount(l[1..], filter);
    }
  }

  class NotificationCenter {
    var notifications: seq<Notification>
    var unreadCount: int

    /** The counter shows the number of unread items. */
    ghost predicate Synced()
      reads this
    {
      unreadCount == CountUnread(notifications)
    }

    /** The page after its initial load of `initial`. */
    constructor (initial: seq<Notification>)
      ensures notifications == initial && Synced()
    {
      notifications := initial;
      unreadCount := CountUnread(initial);
    }

    /** `markAsRead(id)`: the counter drops by one (not below 0) whatever the item. */
    method MarkAsRead(id: int)
      modifies this
      ensures notifications == MarkRead(old(notifications), id)
      ensures unreadCount == if old(unreadCount) - 1 < 0 then 0 else old(unreadCount) - 1
      ensures (old(Synced()) && UniqueIds(old(notifications)) && FindId(old(notifications), id).Some? &&
               !FindId(old(notifications), id).value.isRead) ==> Synced()
    {
      MarkReadCountOf(id);
      notifications := MarkRead(notifications, id);
      unreadCount := if unreadCount - 1 < 0 then 0 else unreadCount - 1;
    }

    lemma MarkReadCountOf(id: int)
      ensures UniqueIds(notifications) ==>
        (CountUnread(MarkRead(notifications, id)) ==
           if FindId(notifications, id).Some? && !FindId(notifications, id).value.isRead
           then CountUnread(notifications) - 1 else CountUnread(notifications))
    {
      if UniqueIds(notifications) {
        MarkReadCount(notifications, id);
      }
    }

    /** `markAllAsRead()`. */
    method MarkAllAsRead()
      modifies this
      ensures notifications == MarkAllRead(old(notifications)) && unreadCount == 0
      ensures Synced()
    {
      MarkAllReadCount(notifications);
      notifications := MarkAllRead(notifications);
      unreadCount := 0;
    }

    /** `deleteNotification(id)`: the counter drops only when the first item with
        that id was unread. */
    method DeleteNotification(id: int)
      modifies this
      ensures notifications == RemoveId(old(notifications), id)
      ensures var found := FindId(old(notifications), id);
        unreadCount == if found.Some? && !found.value.isRead
          then (if old(unreadCount) - 1 < 0 then 0 else old(unreadCount) - 1)
          else old(unreadCount)
      ensures old(Synced()) && UniqueIds(old(notifications)) ==> Synced()
    {
      var found := FindId(notifications, id);
      if UniqueIds(notifications) {
        RemoveIdCount(notifications, id);
      }
      notifications := RemoveId(notifications, id);
      if found.Some? && !found.value.isRead {
        unreadCount := if unreadCount - 1 < 0 then 0 else unreadCount - 1;
      }
    }

    /** `handleNotificationClick(n)`: marks an unread item read, then navigates to
        its action URL when it has one. */
    method HandleNotificationClick(n: Notification) returns (navigateTo: Option<string>)
      modifies this
      ensures n.isRead ==> notifications == old(notifications) && unreadCount == old(unreadCount)
      ensures !n.isRead ==> notifications == MarkRead(old(notifications), n.id)
      ensures navigateTo.Some? <==> n.actionUrl.Some? && n.actionUrl.value != ""
      ensures navigateTo.Some? ==> navigateTo == n.actionUrl
      ensures old(Synced()) && UniqueIds(old(notifications)) && n in old(notifications) ==> Synced()
    {
      if !n.isRead {
        if n in notifications && UniqueIds(notifications) {
          UniqueFind(notifications, n);
        }
        MarkAsRead(n.id);
      }
      navigateTo := if n.actionUrl.Some? && n.actionUrl.value != "" then n.actionUrl else None;
    }
  }

  /** With unique ids, looking up an item's id finds that item. */
  lemma {:induction false} UniqueFind(l: seq<Notification>, n: Notification)
    requires UniqueIds(l) && n in l
    ensures FindId(l, n.id) == Some(n)
  {
    if l[0] != n {
      assert UniqueIds(l[1..]);
      assert n in l[1..];
      UniqueFind(l[1..], n);
    }
  }

  /** Marking an item that is already read still lowers the counter: the counter
      stays right only because every caller marks unread items. */
  lemma MarkingReadItemDrifts()
    ensures var l := [Notification(1, "like", true, None), Notification(2, "follow", false, None)];
      CountUnread(MarkRead(l, 1)) == 1 && CountUnread(l) - 1 == 0
  {
    var l := [Notification(1, "like", true, None), Notification(2, "follow", false, None)];
    assert MarkRead(l, 1) == l;
  }
}

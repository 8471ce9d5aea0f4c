/** The notifications store of the client application. */
module ClientNotifications {
  import opened Base
  import opened Seqs

  /** A notification; `kind` is the record's `type` field. */
  datatype Notification = Notification(
    id: int,
    userId: int,
    relatedTaskId: Option<int>,
    kind: string,
    message: string,
    isRead: bool,
    createdAt: string)

  /** `unreadNotifications`. */
  function UnreadNotifications(ns: seq<Notification>): seq<Notification> {
    Filter(ns, (n: Notification) => !n.isRead)
  }

  /** `unreadCount`. */
  function UnreadCount(ns: seq<Notification>): nat {
    |UnreadNotifications(ns)|
  }

  /** `unreadNotifications` holds exactly the unread items, each as often as
      in the list and in the list's order; `unreadCount` is their number. */
  lemma UnreadExact(ns: seq<Notification>, n: Notification)
    ensures multiset(UnreadNotifications(ns))[n] == if n.isRead then 0 else multiset(ns)[n]
    ensures Embeds(UnreadNotifications(ns), ns)
    ensures UnreadCount(ns) <= |ns|
  {
    FilterMultiset(ns, (n: Notification) => !n.isRead, n);
    FilterEmbeds(ns, (n: Notification) => !n.isRead);
  }

  lemma {:induction false} UnreadCountCons(n: Notification, rest: seq<Notification>)
    ensures UnreadCount([n] + rest) == (if n.isRead then 0 else 1) + UnreadCount(rest)
  {
    assert ([n] + rest)[0] == n && ([n] + rest)[1..] == rest;
  }

  /** The list after `markAsRead(id)` succeeds: the first item with that id
      is read, all else as before. */
  function MarkedRead(ns: seq<Notification>, id: int): seq<Notification> {
    var i := IndexBy(ns, NotificationId, id);
    if i == -1 then ns else ns[i := ns[i].(isRead := true)]
  }

  lemma {:induction false} UnreadCountMarkAt(ns: seq<Notification>, i: nat)
    requires i < |ns|
    ensures UnreadCount(ns[i := ns[i].(isRead := true)]) == UnreadCount(ns) - (if ns[i].isRead then 0 else 1)
  {
    var r := ns[i := ns[i].(isRead := true)];
    UnreadCountCons(ns[0], ns[1..]);
    UnreadCountCons(r[0], r[1..]);
    assert [ns[0]] + ns[1..] == ns;
    assert [r[0]] + r[1..] == r;
    if i > 0 {
      UnreadCountMarkAt(ns[1..], i - 1);
      assert r[1..] == ns[1..][i - 1 := ns[1..][i - 1].(isRead := true)];
    } else {
      assert r[1..] == ns[1..];
    }
  }

  /** Marking one item read changes only that item, keeps the length, and
      lowers the unread count by one exactly when it was unread. */
  lemma MarkedReadSpec(ns: seq<Notification>, id: int)
    ensures var r := MarkedRead(ns, id); var i := IndexBy(ns, NotificationId, id);
      && |r| == |ns|
      && (i == -1 ==> r == ns)
      && (forall j :: 0 <= j < |ns| && j != i ==> r[j] == ns[j])
      && (i != -1 ==> r[i] == ns[i].(isRead := true))
      && UnreadCount(r) == UnreadCount(ns) - (if i != -1 && !ns[i].isRead then 1 else 0)
  {
    var i := IndexBy(ns, NotificationId, id);
    if i != -1 { UnreadCountMarkAt(ns, i); }
  }

  /** The list after `markAllAsRead` succeeds. */
  function AllRead(ns: seq<Notification>): seq<Notification> {
    Map(ns, (n: Notification) => n.(isRead := true))
  }

  lemma {:induction false} NoneUnread(ns: seq<Notification>)
    requires forall j :: 0 <= j < |ns| ==> ns[j].isRead
    ensures UnreadCount(ns) == 0
  {
    if ns != [] {
      NoneUnread(ns[1..]);
      UnreadCountCons(ns[0], ns[1..]);
      assert [ns[0]] + ns[1..] == ns;
    }
  }

  /** After marking everything read nothing is unread; the items are the
      same except for the flag. */
  lemma AllReadSpec(ns: seq<Notification>)
    ensures var r := AllRead(ns);
      && |r| == |ns| && UnreadCount(r) == 0
      && forall j :: 0 <= j < |ns| ==> r[j] == ns[j].(isRead := true)
  {
    NoneUnread(AllRead(ns));
  }

  /** `addNotification`: prepend unless an item with that id is there. */
  function WithNotification(ns: seq<Notification>, n: Notification): seq<Notification> {
    if Any(ns, (x: Notification) => x.id == n.id) then ns else [n] + ns
  }

  /** The key `findIndex` and the id checks compare. */
  function NotificationId(n: Notification): int { n.id }

  /** Adding prepends exactly when the id is new, is idempotent, keeps ids
      unique, and raises the unread count only for a new unread item. */
  lemma WithNotificationSpec(ns: seq<Notification>, n: Notification)
    ensures var r := WithNotification(ns, n);
      && (r == [n] + ns <==> IndexBy(ns, NotificationId, n.id) == -1)
      && (r == ns <==> IndexBy(ns, NotificationId, n.id) != -1)
      && WithNotification(r, n) == r
      && (DistinctBy(ns, NotificationId) ==> DistinctBy(r, NotificationId))
      && UnreadCount(r) == UnreadCount(ns) + (if IndexBy(ns, NotificationId, n.id) == -1 && !n.isRead then 1 else 0)
  {
    var r := WithNotification(ns, n);
    UnreadCountCons(n, ns);
    if IndexBy(ns, NotificationId, n.id) == -1 {
      assert r[0] == n;
      assert forall j :: 0 <= j < |ns| ==> r[j + 1] == ns[j];
      assert Any(r, (x: Notification) => x.id == n.id);
    } else {
      var i := IndexBy(ns, NotificationId, n.id);
      assert ns[i].id == n.id;
    }
  }

  class NotificationsStore {
    var notifications: seq<Notification>
    var loading: bool
    var error: Option<string>

    constructor ()
      ensures notifications == [] && !loading && error == None
    {
      notifications := [];
      loading := false;
      error := None;
    }

    /** `markAsRead`: `apiOk` is whether the request succeeded; a failure
        changes nothing. */
    method MarkAsRead(id: int, apiOk: bool)
      modifies this
      ensures notifications == if apiOk then MarkedRead(old(notifications), id) else old(notifications)
      ensures loading == old(loading) && error == old(error)
    {
      if apiOk {
        var i := IndexBy(notifications, NotificationId, id);
        if i != -1 {
          notifications := notifications[i := notifications[i].(isRead := true)];
        }
      }
    }

    /** `markAllAsRead`: marks the items one by one. */
    method MarkAllAsRead(apiOk: bool)
      modifies this
      ensures notifications == if apiOk then AllRead(old(notifications)) else old(notifications)
      ensures apiOk ==> UnreadCount(notifications) == 0
      ensures |notifications| == |old(notifications)|
      ensures loading == old(loading) && error == old(error)
    {
      if apiOk {
        var k := 0;
        while k < |notifications|
          invariant 0 <= k <= |notifications| == |old(notifications)|
          invariant forall j :: 0 <= j < k ==> notifications[j] == old(notifications)[j].(isRead := true)
          invariant forall j :: k <= j < |notifications| ==> notifications[j] == old(notifications)[j]
          invariant loading == old(loading) && error == old(error)
        {
          notifications := notifications[k := notifications[k].(isRead := true)];
          k := k + 1;
        }
        AllReadSpec(old(notifications));
      }
    }

    /** `addNotification`, run for a notification pushed by the server. */
    method AddNotification(n: Notification)
      modifies this
      ensures notifications == WithNotification(old(notifications), n)
      ensures loading == old(loading) && error == old(error)
    {
      if !Any(notifications, (x: Notification) => x.id == n.id) {
        notifications := [n] + notifications;
      }
    }
  }
}

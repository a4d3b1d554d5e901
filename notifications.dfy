/** The notification bell of src/components/NotificationPanel.jsx: the fetched list, marking
    one notification read, deleting one, and the unread badge count. */
module Notifications {
  import opened Common

  datatype Notification = Notification(id: int, title: string, message: string, isRead: bool, createdAt: string)

  /** The settled `GET /api/notifications/`: a response whose content type names JSON (its
      parsed list; the status is not checked), a response of another content type, or a thrown
      error. */
  datatype ListReply = JsonList(items: seq<Notification>) | NotJson | RequestFailed

  /** `markAsRead`'s update: `is_read` set on the entries with that id, nothing else touched. */
  function MarkRead(ns: seq<Notification>, id: int): (r: seq<Notification>)
    ensures |r| == |ns|
    ensures forall k :: 0 <= k < |r| ==> r[k].isRead == (ns[k].isRead || ns[k].id == id)
    ensures forall k :: 0 <= k < |r| ==> r[k].(isRead := ns[k].isRead) == ns[k]
  {
    if ns == [] then []
    else
      var n := ns[|ns| - 1];
      MarkRead(ns[..|ns| - 1], id) + [if n.id == id then n.(isRead := true) else n]
  }

  /** Marking the same notification read twice is marking it once. */
  lemma MarkReadIdempotent(ns: seq<Notification>, id: int)
    ensures MarkRead(MarkRead(ns, id), id) == MarkRead(ns, id)
  {
    var once := MarkRead(ns, id);
    var twice := MarkRead(once, id);
    assert |twice| == |once|;
    forall k | 0 <= k < |once| ensures twice[k] == once[k] {
      assert twice[k].(isRead := once[k].isRead) == once[k];
    }
  }

  /** `deleteNotification`'s update: `prev.filter((notif) => notif.id !== id)`. */
  function Delete(ns: seq<Notification>, id: int): (r: seq<Notification>)
    ensures |r| <= |ns|
    ensures forall n :: n in r <==> n in ns && n.id != id
  {
    Filter(ns, (n: Notification) => n.id != id)
  }

  /** Deletion keeps the other notifications in order: it works piece by piece, and leaves a
      stretch without that id as it is. */
  lemma DeleteKeepsOrder(a: seq<Notification>, b: seq<Notification>, id: int)
    ensures Delete(a + b, id) == Delete(a, id) + Delete(b, id)
    ensures (forall i :: 0 <= i < |a| ==> a[i].id != id) ==> Delete(a, id) == a
  {
    FilterAppend(a, b, (n: Notification) => n.id != id);
    if forall i :: 0 <= i < |a| ==> a[i].id != id {
      FilterKeepsAll(a, (n: Notification) => n.id != id);
    }
  }

  /** The unread entries: `notifications.filter((n) => !n.is_read)`. */
  function Unread(ns: seq<Notification>): (r: seq<Notification>)
    ensures forall n :: n in r <==> n in ns && !n.isRead
  {
    Filter(ns, (n: Notification) => !n.isRead)
  }

  /** The badge: `unreadCount`. */
  function UnreadCount(ns: seq<Notification>): (c: nat)
    ensures c <= |ns|
    ensures c == 0 <==> forall k :: 0 <= k < |ns| ==> ns[k].isRead
  {
    var u := Unread(ns);
    assert u == [] <==> forall k :: 0 <= k < |ns| ==> ns[k].isRead by {
      if u != [] {
        assert u[0] in ns;
      }
      if exists k :: 0 <= k < |ns| && !ns[k].isRead {
        var k :| 0 <= k < |ns| && !ns[k].isRead;
        assert ns[k] in u;
      }
    }
    |u|
  }

  /** The badge counts piece by piece, and one notification counts 1 exactly when it is
      unread: together, the count is the number of unread entries. */
  lemma UnreadCountAppend(a: seq<Notification>, b: seq<Notification>)
    ensures UnreadCount(a + b) == UnreadCount(a) + UnreadCount(b)
  {
    FilterAppend(a, b, (n: Notification) => !n.isRead);
  }

  lemma UnreadCountOne(n: Notification)
    ensures UnreadCount([n]) == if n.isRead then 0 else 1
  {
    assert [n][..0] == [];
  }

  /** Marking one notification read lowers the badge by exactly what deleting it would: the
      unread entries with other ids are the ones left either way. Neither raises the count. */
  lemma {:induction false} MarkReadAsDelete(ns: seq<Notification>, id: int)
    ensures Unread(MarkRead(ns, id)) == Unread(Delete(ns, id))
    ensures UnreadCount(MarkRead(ns, id)) == UnreadCount(Delete(ns, id)) <= UnreadCount(ns)
  {
    if ns != [] {
      var init, n := ns[..|ns| - 1], ns[|ns| - 1];
      assert ns == init + [n];
      MarkReadAsDelete(init, id);
      var n' := if n.id == id then n.(isRead := true) else n;
      var x := if n.id != id then [n] else [];
      var m := MarkRead(ns, id);
      assert m == MarkRead(init, id) + [n'];
      FilterAppend(MarkRead(init, id), [n'], (k: Notification) => !k.isRead);
      FilterAppend(init, [n], (k: Notification) => k.id != id);
      assert Delete(ns, id) == Delete(init, id) + x;
      FilterAppend(Delete(init, id), x, (k: Notification) => !k.isRead);
      FilterAppend(init, [n], (k: Notification) => !k.isRead);
      assert Unread([n']) == Unread(x);
      assert |Unread(x)| <= |Unread([n])|;
    }
  }

  class NotificationPanel {
    var notifications: seq<Notification>
    var open: bool

    constructor ()
      ensures notifications == [] && !open
    {
      notifications := [];
      open := false;
    }

    /** `fetchNotifications`: nothing without a truthy token (`fetched` false); a JSON body
        replaces the list, another content type empties it, and a thrown error keeps it. */
    method FetchNotifications(userToken: Option<string>, reply: ListReply) returns (fetched: bool)
      modifies this
      ensures fetched <==> userToken.Some? && userToken.value != ""
      ensures !fetched ==> notifications == old(notifications)
      ensures fetched && reply.JsonList? ==> notifications == reply.items
      ensures fetched && reply.NotJson? ==> notifications == []
      ensures fetched && reply.RequestFailed? ==> notifications == old(notifications)
      ensures open == old(open)
    {
      if userToken.None? || userToken.value == "" {
        return false;
      }
      fetched := true;
      match reply {
        case JsonList(items) => notifications := items;
        case NotJson => notifications := [];
        case RequestFailed =>
      }
    }

    /** `markAsRead(id)`: applied once the request settles, whatever its status; a thrown
        error leaves the list. */
    method MarkAsRead(id: int, reply: Settled<()>)
      modifies this
      ensures notifications == (if reply.Parsed? then MarkRead(old(notifications), id) else old(notifications))
      ensures reply.Parsed? ==> UnreadCount(notifications) <= UnreadCount(old(notifications))
      ensures open == old(open)
    {
      if reply.Parsed? {
        MarkReadAsDelete(notifications, id);
        notifications := MarkRead(notifications, id);
      }
    }

    /** `deleteNotification(id)`: applied once the request settles, whatever its status; a
        thrown error leaves the list. */
    method DeleteNotification(id: int, reply: Settled<()>)
      modifies this
      ensures notifications == (if reply.Parsed? then Delete(old(notifications), id) else old(notifications))
      ensures reply.Parsed? ==> UnreadCount(notifications) <= UnreadCount(old(notifications))
      ensures open == old(open)
    {
      if reply.Parsed? {
        MarkReadAsDelete(notifications, id);
        notifications := Delete(notifications, id);
      }
    }

    /** The bell button. */
    method ToggleOpen()
      modifies this
      ensures open == !old(open) && notifications == old(notifications)
    {
      open := !open;
    }
  }
}

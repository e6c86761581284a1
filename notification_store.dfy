/**
 * The in-app notification store held by the notification provider
 * (src/lib/notification-context.tsx): a list of notifications, an unread
 * counter and a loading flag, overwritten by refresh, mark-one-read and
 * mark-all-read. The requests themselves are inputs (`Fetched` outcomes).
 */
module NotificationStore {
  import opened Common

  datatype Notification = Notification(
    id: string,
    userId: string,
    kind: string,
    title: string,
    message: string,
    link: Option<string>,
    isRead: bool,
    relatedId: Option<string>,
    createdAt: int)

  /**
   * The JSON body of a successful refresh; a missing or null field is None
   * (`unreadCount` None also stands for the falsy NaN).
   */
  datatype NotificationsBody = NotificationsBody(notifications: Option<seq<Notification>>, unreadCount: Option<int>)

  /** `prev.map(n => n.id === id ? { ...n, is_read: true } : n)` */
  function MarkRead(ns: seq<Notification>, id: string): (r: seq<Notification>)
    ensures |r| == |ns|
    ensures forall i :: 0 <= i < |ns| ==> r[i] == if ns[i].id == id then ns[i].(isRead := true) else ns[i]
  {
    if ns == [] then []
    else [if ns[0].id == id then ns[0].(isRead := true) else ns[0]] + MarkRead(ns[1..], id)
  }

  /** `prev.map(n => ({ ...n, is_read: true }))` */
  function MarkAllRead(ns: seq<Notification>): (r: seq<Notification>)
    ensures |r| == |ns|
    ensures forall i :: 0 <= i < |ns| ==> r[i] == ns[i].(isRead := true)
  {
    if ns == [] then [] else [ns[0].(isRead := true)] + MarkAllRead(ns[1..])
  }

  /** `Math.max(0, prev - 1)` */
  function DecrementUnread(count: int): (r: int)
    ensures r >= 0
    ensures count >= 1 ==> r == count - 1
    ensures count <= 1 ==> r == 0
  {
    if count - 1 > 0 then count - 1 else 0
  }

  /** The number of entries not yet read. */
  function UnreadEntries(ns: seq<Notification>): nat {
    if ns == [] then 0 else (if ns[0].isRead then 0 else 1) + UnreadEntries(ns[1..])
  }

  /** Marking one id read leaves no unread entry with that id and touches nothing else. */
  lemma MarkReadEffect(ns: seq<Notification>, id: string)
    ensures forall n | n in MarkRead(ns, id) :: n.id == id ==> n.isRead
    ensures forall i | 0 <= i < |ns| && ns[i].id != id :: MarkRead(ns, id)[i] == ns[i]
  {
  }

  /** Marking the same id twice is the same as marking it once. */
  lemma MarkReadIdempotent(ns: seq<Notification>, id: string)
    ensures MarkRead(MarkRead(ns, id), id) == MarkRead(ns, id)
  {
  }

  /** After marking all read, no entry is unread. */
  lemma {:induction false} MarkAllReadLeavesNoUnread(ns: seq<Notification>)
    ensures UnreadEntries(MarkAllRead(ns)) == 0
  {
    if ns != [] {
      MarkAllReadLeavesNoUnread(ns[1..]);
      assert MarkAllRead(ns)[1..] == MarkAllRead(ns[1..]);
    }
  }

  /**
   * Marking an id whose one entry is unread removes exactly one unread entry,
   * so a counter that agreed with the list before keeps agreeing.
   */
  lemma {:induction false} MarkReadRemovesOneUnread(ns: seq<Notification>, id: string)
    requires forall i, j | 0 <= i < j < |ns| :: ns[i].id != ns[j].id
    requires exists i | 0 <= i < |ns| :: ns[i].id == id && !ns[i].isRead
    ensures UnreadEntries(MarkRead(ns, id)) == UnreadEntries(ns) - 1
    ensures DecrementUnread(UnreadEntries(ns)) == UnreadEntries(MarkRead(ns, id))
  {
    assert MarkRead(ns, id)[1..] == MarkRead(ns[1..], id);
    if ns[0].id == id {
      assert forall i | 0 <= i < |ns[1..]| :: ns[1..][i].id != id;
      MarkReadOfAbsent(ns[1..], id);
    } else {
      var i :| 0 <= i < |ns| && ns[i].id == id && !ns[i].isRead;
      assert ns[1..][i - 1].id == id;
      MarkReadRemovesOneUnread(ns[1..], id);
    }
  }

  /** Marking an id that no entry carries leaves the list as it is. */
  lemma {:induction false} MarkReadOfAbsent(ns: seq<Notification>, id: string)
    requires forall i | 0 <= i < |ns| :: ns[i].id != id
    ensures MarkRead(ns, id) == ns
  {
    if ns != [] {
      MarkReadOfAbsent(ns[1..], id);
    }
  }

  /**
   * The counter is decremented even when the clicked entry was already read,
   * so it can fall below the number of entries still unread: with one read
   * entry "a" and one unread entry "b" and a counter of 1, marking "a" read
   * leaves the counter at 0 while "b" is still unread.
   */
  lemma CounterCanUndercount()
    ensures var a := Notification("a", "u", "message_received", "", "", None, true, None, 0);
            var b := Notification("b", "u", "message_received", "", "", None, false, None, 0);
            UnreadEntries([a, b]) == 1 &&
            DecrementUnread(1) == 0 && UnreadEntries(MarkRead([a, b], "a")) == 1
  {
    var a := Notification("a", "u", "message_received", "", "", None, true, None, 0);
    var b := Notification("b", "u", "message_received", "", "", None, false, None, 0);
    assert MarkRead([a, b], "a") == [a, b];
    assert [a, b][1..] == [b] && [b][1..] == [];
    assert UnreadEntries([b]) == 1;
    assert UnreadEntries([a, b]) == UnreadEntries([b]);
  }

  /** Some entry with this id is still unread. */
  predicate HasUnread(ns: seq<Notification>, id: string) {
    exists i | 0 <= i < |ns| :: ns[i].id == id && !ns[i].isRead
  }

  /**
   * The counter as intended: it drops only when the marked entry was still
   * unread. The provider's own update decrements unconditionally.
   */
  function CountAfterMarkRead(ns: seq<Notification>, id: string, count: int): (r: int)
    ensures HasUnread(ns, id) ==> r == DecrementUnread(count)
    ensures !HasUnread(ns, id) ==> r == count
  {
    if HasUnread(ns, id) then DecrementUnread(count) else count
  }

  /** Marking an id whose entries are all read already changes nothing. */
  lemma MarkReadOfRead(ns: seq<Notification>, id: string)
    requires !HasUnread(ns, id)
    ensures MarkRead(ns, id) == ns
  {
    assert forall i | 0 <= i < |ns| :: MarkRead(ns, id)[i] == ns[i];
  }

  /**
   * With the intended counter update, a counter that agrees with the number
   * of unread entries keeps agreeing after any entry is marked read.
   */
  lemma CountAfterMarkReadKeepsAgreement(ns: seq<Notification>, id: string, count: int)
    requires forall i, j | 0 <= i < j < |ns| :: ns[i].id != ns[j].id
    requires count == UnreadEntries(ns)
    ensures CountAfterMarkRead(ns, id, count) == UnreadEntries(MarkRead(ns, id))
  {
    if HasUnread(ns, id) {
      MarkReadRemovesOneUnread(ns, id);
    } else {
      MarkReadOfRead(ns, id);
    }
  }

  class NotificationProvider {
    var notifications: seq<Notification>
    var unreadCount: int
    var loading: bool

    /** `useState([])`, `useState(0)`, `useState(true)` */
    constructor ()
      ensures notifications == [] && unreadCount == 0 && loading
    {
      notifications := [];
      unreadCount := 0;
      loading := true;
    }

    /**
     * `fetchNotifications`: with no user the store is emptied; otherwise a
     * successful response replaces list and counter (defaulting to [] and 0)
     * and any other outcome keeps them. Loading is over either way.
     */
    method FetchNotifications(signedIn: bool, response: Fetched<NotificationsBody>)
      modifies this
      ensures !loading
      ensures !signedIn ==> notifications == [] && unreadCount == 0
      ensures signedIn && response.Ok? ==>
        notifications == response.body.notifications.GetOr([]) &&
        unreadCount == response.body.unreadCount.GetOr(0)
      ensures signedIn && !response.Ok? ==>
        notifications == old(notifications) && unreadCount == old(unreadCount)
    {
      if !signedIn {
        notifications := [];
        unreadCount := 0;
        loading := false;
        return;
      }
      if response.Ok? {
        notifications := response.body.notifications.GetOr([]);
        unreadCount := response.body.unreadCount.GetOr(0);
      }
      loading := false;
    }

    /**
     * `markAsRead(id)`: only a signed-in user whose request succeeded changes
     * the store; then the entries with that id are read and the counter drops
     * by one, never below zero.
     */
    method MarkAsRead(signedIn: bool, id: string, ok: bool)
      modifies this
      ensures loading == old(loading)
      ensures signedIn && ok ==>
        notifications == MarkRead(old(notifications), id) && unreadCount == DecrementUnread(old(unreadCount))
      ensures !(signedIn && ok) ==> notifications == old(notifications) && unreadCount == old(unreadCount)
    {
      if !signedIn { return; }
      if ok {
        notifications := MarkRead(notifications, id);
        unreadCount := DecrementUnread(unreadCount);
      }
    }

    /** `markAllAsRead()`: on success every entry is read and the counter is 0. */
    method MarkAllAsRead(signedIn: bool, ok: bool)
      modifies this
      ensures loading == old(loading)
      ensures signedIn && ok ==> notifications == MarkAllRead(old(notifications)) && unreadCount == 0
      ensures !(signedIn && ok) ==> notifications == old(notifications) && unreadCount == old(unreadCount)
    {
      if !signedIn { return; }
      if ok {
        notifications := MarkAllRead(notifications);
        unreadCount := 0;
      }
    }
  }
}

/** The `useState` notification log of the second client
    (Ubazol/src/context/NotificationContext.js): entries newest first, each
    with a read flag, and the order-status messages built from a fixed
    table. */
module UbazolNotifications {
  import opened Common
  import opened Seqs

  /** The `type` of an entry, which picks its colour and icon. */
  datatype Kind = Success | Info | Error

  datatype Notification = Notification(id: string, title: string, message: string, kind: Kind,
                                       timestamp: string, read: bool, orderId: Option<string>)

  /** The argument of `addNotification`: the caller may supply an id, a
      timestamp and a read flag, which then win over the defaults. */
  datatype NotificationInput = NotificationInput(id: Option<string>, title: string, message: string,
                                                 kind: Kind, timestamp: Option<string>, read: Option<bool>,
                                                 orderId: Option<string>)

  const Seed: seq<Notification> := [
    Notification("1", "Order Delivered!", "Your order from Pizza Palace has been delivered.", Kind.Success,
                 "2024-01-15T19:00:00", false, None),
    Notification("2", "Order Update", "Your order from Burger Barn is being prepared.", Info,
                 "2024-01-16T12:30:00", false, None)
  ]

  function OrElse<T>(v: Option<T>, fallback: T): T
  {
    if v.Some? then v.value else fallback
  }

  /** The entry `addNotification` builds: a generated id, the current time
      and `read = false`, each overridden by the caller's own value. */
  function NewNotification(input: NotificationInput, newId: string, now: string): (n: Notification)
    ensures n.id == OrElse(input.id, newId) && n.timestamp == OrElse(input.timestamp, now)
    ensures n.read == OrElse(input.read, false)
    ensures n.title == input.title && n.message == input.message && n.kind == input.kind
    ensures n.orderId == input.orderId
  {
    Notification(OrElse(input.id, newId), input.title, input.message, input.kind,
                 OrElse(input.timestamp, now), OrElse(input.read, false), input.orderId)
  }

  function HasId(id: string): Notification -> bool
  {
    (n: Notification) => n.id == id
  }

  function OtherId(id: string): Notification -> bool
  {
    (n: Notification) => n.id != id
  }

  function MarkRead(n: Notification): Notification
  {
    n.(read := true)
  }

  function IsUnread(n: Notification): bool
  {
    !n.read
  }

  /** `notifications.filter(notif => !notif.read).length`. */
  function UnreadCount(list: seq<Notification>): nat
  {
    |Filter(list, IsUnread)|
  }

  /** The list `markAsRead` leaves. */
  function ReadOne(list: seq<Notification>, id: string): seq<Notification>
  {
    UpdateWhere(list, HasId(id), MarkRead)
  }

  /** The list `markAllAsRead` leaves. */
  function ReadAll(list: seq<Notification>): seq<Notification>
  {
    Map(list, MarkRead)
  }

  /** The list `removeNotification` leaves. */
  function Removed(list: seq<Notification>, id: string): seq<Notification>
  {
    Filter(list, OtherId(id))
  }

  /** The (title, type) table of `sendOrderNotification`. */
  function StatusTitle(status: string): (r: (string, Kind))
    ensures status !in {"confirmed", "preparing", "out_for_delivery", "delivered", "cancelled"} ==>
      r == ("Order Update", Info)
  {
    if status == "confirmed" then ("Order Confirmed", Kind.Success)
    else if status == "preparing" then ("Order Being Prepared", Info)
    else if status == "out_for_delivery" then ("Out for Delivery", Info)
    else if status == "delivered" then ("Order Delivered", Kind.Success)
    else if status == "cancelled" then ("Order Cancelled", Error)
    else ("Order Update", Info)
  }

  /** `message || \`Order #${orderId} status updated.\``: a missing or empty
      message falls back to the default text. */
  function OrderMessage(orderId: string, message: Option<string>): (r: string)
    ensures message.Some? && message.value != "" ==> r == message.value
    ensures message.None? || message.value == "" ==> r == "Order #" + orderId + " status updated."
  {
    if message.Some? && message.value != "" then message.value else "Order #" + orderId + " status updated."
  }

  /** What `sendOrderNotification` hands to `addNotification`. */
  function OrderInput(orderId: string, status: string, message: Option<string>): NotificationInput
  {
    var (title, kind) := StatusTitle(status);
    NotificationInput(None, title, OrderMessage(orderId, message), kind, None, None, Some(orderId))
  }

  // ---------------------------------------------------------------------------
  // Properties
  // ---------------------------------------------------------------------------

  /** The status table, entry by entry. */
  lemma StatusTable()
    ensures StatusTitle("confirmed") == ("Order Confirmed", Kind.Success)
    ensures StatusTitle("preparing") == ("Order Being Prepared", Info)
    ensures StatusTitle("out_for_delivery") == ("Out for Delivery", Info)
    ensures StatusTitle("delivered") == ("Order Delivered", Kind.Success)
    ensures StatusTitle("cancelled") == ("Order Cancelled", Error)
    ensures StatusTitle("pending") == ("Order Update", Info)
  {
  }

  /** The unread count of a list with one more entry in front. */
  lemma UnreadCountCons(n: Notification, list: seq<Notification>)
    ensures UnreadCount([n] + list) == UnreadCount(list) + (if n.read then 0 else 1)
  {
    assert ([n] + list)[1..] == list;
  }

  /** An order notification is unread, carries the order id, and raises the
      unread count by one once it is in front of the list. */
  lemma OrderNotificationUnread(list: seq<Notification>, orderId: string, status: string,
                                message: Option<string>, newId: string, now: string)
    ensures var n := NewNotification(OrderInput(orderId, status, message), newId, now);
      && !n.read && n.orderId == Some(orderId)
      && n.title == StatusTitle(status).0 && n.kind == StatusTitle(status).1
      && UnreadCount([n] + list) == UnreadCount(list) + 1
  {
    UnreadCountCons(NewNotification(OrderInput(orderId, status, message), newId, now), list);
  }

  /** The unread count is the number of positions holding an unread entry;
      it never exceeds the length. */
  lemma {:induction false} UnreadCountBounds(list: seq<Notification>)
    ensures UnreadCount(list) <= |list|
    ensures UnreadCount(list) == 0 <==> forall i :: 0 <= i < |list| ==> list[i].read
  {
    if list != [] {
      UnreadCountBounds(list[1..]);
      assert list == [list[0]] + list[1..];
      UnreadCountCons(list[0], list[1..]);
      assert (forall i :: 0 <= i < |list| ==> list[i].read) <==>
             list[0].read && forall i :: 0 <= i < |list[1..]| ==> list[1..][i].read;
    }
  }

  /** After reading everything nothing is unread, and entries keep their
      positions and every other field. */
  lemma ReadAllClears(list: seq<Notification>)
    ensures UnreadCount(ReadAll(list)) == 0
    ensures |ReadAll(list)| == |list|
    ensures forall i :: 0 <= i < |list| ==> ReadAll(list)[i] == list[i].(read := true)
  {
    UnreadCountBounds(ReadAll(list));
  }

  /** Reading one id marks exactly the entries with that id, leaves the
      others as they were, and doing it twice is doing it once. */
  lemma ReadOneExact(list: seq<Notification>, id: string)
    ensures var r := ReadOne(list, id);
      && |r| == |list|
      && (forall i :: 0 <= i < |list| && list[i].id == id ==> r[i] == list[i].(read := true))
      && (forall i :: 0 <= i < |list| && list[i].id != id ==> r[i] == list[i])
      && ReadOne(r, id) == r
  {
    var r := ReadOne(list, id);
    var rr := ReadOne(r, id);
    assert forall i :: 0 <= i < |r| ==> rr[i] == r[i];
  }

  /** Removing drops every entry with the id and keeps the others, each as
      often as before and in order. */
  lemma RemovedExact(list: seq<Notification>, id: string)
    ensures var r := Removed(list, id);
      && (forall n :: n in r <==> n in list && n.id != id)
      && (forall n: Notification :: n.id != id ==> multiset(r)[n] == multiset(list)[n])
      && Subsequence(r, list)
  {
    FilterCounts(list, OtherId(id));
    FilterOrder(list, OtherId(id));
    var r := Removed(list, id);
    forall n ensures n in r <==> n in list && n.id != id {
      assert OtherId(id)(n) == (n.id != id);
    }
    forall n: Notification | n.id != id ensures multiset(r)[n] == multiset(list)[n] {
      assert OtherId(id)(n);
    }
  }

  /** `NotificationProvider`: the field `notifications`. */
  class NotificationProvider {
    var notifications: seq<Notification>

    constructor ()
      ensures notifications == Seed
    {
      notifications := Seed;
    }

    /** `addNotification`: the new entry goes in front and is returned. */
    method AddNotification(input: NotificationInput, newId: string, now: string) returns (n: Notification)
      modifies this
      ensures n == NewNotification(input, newId, now)
      ensures notifications == [n] + old(notifications)
    {
      n := NewNotification(input, newId, now);
      notifications := [n] + notifications;
    }

    /** `markAsRead`. */
    method MarkAsRead(id: string)
      modifies this
      ensures notifications == ReadOne(old(notifications), id)
    {
      notifications := UpdateWhere(notifications, HasId(id), MarkRead);
    }

    /** `markAllAsRead`. */
    method MarkAllAsRead()
      modifies this
      ensures notifications == ReadAll(old(notifications))
      ensures GetUnreadCount() == 0
    {
      ReadAllClears(notifications);
      notifications := Map(notifications, MarkRead);
    }

    /** `removeNotification`. */
    method RemoveNotification(id: string)
      modifies this
      ensures notifications == Removed(old(notifications), id)
    {
      notifications := Filter(notifications, OtherId(id));
    }

    /** `clearAllNotifications`. */
    method ClearAllNotifications()
      modifies this
      ensures notifications == [] && GetUnreadCount() == 0
    {
      notifications := [];
    }

    /** `getUnreadCount`. */
    function GetUnreadCount(): (count: nat)
      reads this
      ensures count <= |notifications|
      ensures count == 0 <==> forall i :: 0 <= i < |notifications| ==> notifications[i].read
    {
      UnreadCountBounds(notifications);
      UnreadCount(notifications)
    }

    /** `sendOrderNotification`: builds the entry from the status table and
        adds it, one more unread entry. */
    method SendOrderNotification(orderId: string, status: string, message: Option<string>,
                                 newId: string, now: string) returns (n: Notification)
      modifies this
      ensures n == NewNotification(OrderInput(orderId, status, message), newId, now)
      ensures notifications == [n] + old(notifications)
      ensures GetUnreadCount() == old(GetUnreadCount()) + 1
    {
      OrderNotificationUnread(notifications, orderId, status, message, newId, now);
      n := AddNotification(OrderInput(orderId, status, message), newId, now);
    }
  }
}

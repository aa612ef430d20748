/** The reducer-based notification store of the delivery client
    (src/context/NotificationContext.js): the list of received notifications,
    newest first, and the device's push token. */
module Notifications {
  import opened Common
  import opened Seqs

  /** An entry as the received-notification listener builds it. */
  datatype Notification = Notification(id: string, title: string, body: string,
                                       data: map<string, string>, receivedAt: string)

  datatype NotificationState = NotificationState(notifications: seq<Notification>,
                                                 expoPushToken: Option<string>,
                                                 loading: bool, error: Option<string>)

  datatype NotificationAction =
    | SetLoading(loading: bool)
    | SetExpoPushToken(token: string)
    | AddNotification(notification: Notification)
    | RemoveNotification(id: string)
    | ClearNotifications
    | SetError(message: string)
    | ClearError
    | Unrecognized(tag: string)  // any other action type

  const Initial: NotificationState := NotificationState([], None, false, None)

  function OtherId(id: string): Notification -> bool
  {
    (n: Notification) => n.id != id
  }

  /** `notificationReducer`. */
  function Reduce(s: NotificationState, a: NotificationAction): NotificationState
  {
    match a
    case SetLoading(b) => s.(loading := b)
    case SetExpoPushToken(t) => s.(expoPushToken := Some(t))
    case AddNotification(n) => s.(notifications := [n] + s.notifications)
    case RemoveNotification(id) => s.(notifications := Filter(s.notifications, OtherId(id)))
    case ClearNotifications => s.(notifications := [])
    case SetError(m) => s.(error := Some(m), loading := false)
    case ClearError => s.(error := None)
    case Unrecognized(_) => s
  }

  /** ADD_NOTIFICATION puts the entry in front and keeps the others, in order,
      behind it; nothing else changes. */
  lemma AddNotificationPrepends(s: NotificationState, n: Notification)
    ensures var r := Reduce(s, AddNotification(n));
      && |r.notifications| == |s.notifications| + 1
      && r.notifications[0] == n && r.notifications[1..] == s.notifications
      && r.(notifications := s.notifications) == s
  {
    var r := Reduce(s, AddNotification(n));
    assert r.notifications[1..] == s.notifications;
  }

  /** REMOVE_NOTIFICATION drops every entry with the id and keeps the others,
      each as often as before and in order; nothing else changes. */
  lemma RemoveNotificationExact(s: NotificationState, id: string)
    ensures var r := Reduce(s, RemoveNotification(id));
      && (forall n: Notification :: n in r.notifications <==> n in s.notifications && n.id != id)
      && (forall n: Notification :: n.id != id ==> multiset(r.notifications)[n] == multiset(s.notifications)[n])
      && Subsequence(r.notifications, s.notifications)
      && r.(notifications := s.notifications) == s
  {
    FilterCounts(s.notifications, OtherId(id));
    FilterOrder(s.notifications, OtherId(id));
    var r := Reduce(s, RemoveNotification(id));
    forall n: Notification ensures n in r.notifications <==> n in s.notifications && n.id != id {
      assert OtherId(id)(n) == (n.id != id);
    }
    forall n: Notification | n.id != id
      ensures multiset(r.notifications)[n] == multiset(s.notifications)[n]
    {
      assert OtherId(id)(n);
    }
  }

  /** Adding an entry whose id is new and then removing that id restores the
      state exactly. */
  lemma {:induction false} AddThenRemoveRestores(s: NotificationState, n: Notification)
    requires forall i :: 0 <= i < |s.notifications| ==> s.notifications[i].id != n.id
    ensures Reduce(Reduce(s, AddNotification(n)), RemoveNotification(n.id)) == s
  {
    var added := [n] + s.notifications;
    assert added[1..] == s.notifications;
    assert Filter(added, OtherId(n.id)) == Filter(s.notifications, OtherId(n.id));
  }

  /** CLEAR_NOTIFICATIONS empties the list, SET_EXPO_PUSH_TOKEN sets only the
      token, SET_ERROR ends loading, CLEAR_ERROR only clears the error, and an
      unknown action changes nothing. */
  lemma BookkeepingActions(s: NotificationState, t: string, m: string, tag: string)
    ensures Reduce(s, ClearNotifications) == s.(notifications := [])
    ensures Reduce(s, SetExpoPushToken(t)) == s.(expoPushToken := Some(t))
    ensures Reduce(s, SetError(m)) == s.(error := Some(m), loading := false)
    ensures Reduce(s, ClearError) == s.(error := None)
    ensures Reduce(s, Unrecognized(tag)) == s
  {
  }

  /** `NotificationProvider`: the reducer's state, changed only through `Reduce`. */
  class NotificationProvider {
    var state: NotificationState

    constructor ()
      ensures state == Initial
    {
      state := Initial;
    }

    /** `addNotification`. */
    method AddNotification(n: Notification)
      modifies this
      ensures state == old(state).(notifications := [n] + old(state).notifications)
    {
      state := Reduce(state, NotificationAction.AddNotification(n));
    }

    /** `removeNotification`. */
    method RemoveNotification(id: string)
      modifies this
      ensures state == old(state).(notifications := Filter(old(state).notifications, OtherId(id)))
    {
      state := Reduce(state, NotificationAction.RemoveNotification(id));
    }

    /** `clearNotifications`. */
    method ClearNotifications()
      modifies this
      ensures state == old(state).(notifications := [])
    {
      state := Reduce(state, NotificationAction.ClearNotifications);
    }

    /** `clearError`. */
    method ClearError()
      modifies this
      ensures state == old(state).(error := None)
    {
      state := Reduce(state, NotificationAction.ClearError);
    }
  }
}

/**
  * The notifications hook (`useNotifications`): the list, the unread counter and the loading
  * flag, updated only after the service call returns, plus the toasts it asks for.
  */
module Notifications {
  import opened Wrappers
  import opened Http
  import opened Browser
  import Strings
  import NS = NotificationService

  const ListFailedToast: string := "Não foi possível carregar as notificações"
  const MarkFailedToast: string := "Não foi possível marcar a notificação como lida"
  const MarkAllDoneToast: string := "Todas as notificações foram marcadas como lidas"
  const MarkAllFailedToast: string := "Não foi possível marcar todas as notificações como lidas"
  const TestCreatedToast: string := "Notificação de teste criada"
  const TestFailedToast: string := "Não foi possível criar notificação de teste"

  /** What the hook reads from the auth context. */
  datatype AuthView = AuthView(isAuthenticated: bool, loading: bool)

  /** The guard of both fetches: authenticated, auth settled, and a 'token' record present. */
  predicate CanFetch(auth: AuthView, token: Option<string>) {
    auth.isAuthenticated && !auth.loading && Truthy(token)
  }

  /** A list-fetch failure is toasted unless it is the missing-token error. */
  predicate ListFailureToasts(isAuthenticated: bool, message: string) {
    isAuthenticated && !Strings.Contains(message, NS.NoToken)
  }

  /** Past the guard the token is present, so the service sends its request. */
  lemma GuardedFetchSends(auth: AuthView, token: Option<string>, limit: Option<int>,
                          l: Outcome<NS.NotificationList>, u: Outcome<NS.UnreadCount>)
    requires CanFetch(auth, token)
    ensures NS.GetNotifications(token, limit, l).request.Some?
    ensures NS.GetUnreadCount(token, u).request.Some?
  {
  }

  /**
    * Every message that carries the missing-token text, wherever it sits in the message, is never
    * toasted; in particular the service's own refusal without a token is silent.
    */
  lemma MissingTokenMessageSuppressed(isAuthenticated: bool, before: string, after: string,
                                      token: Option<string>, limit: Option<int>,
                                      outcome: Outcome<NS.NotificationList>)
    ensures !ListFailureToasts(isAuthenticated, before + NS.NoToken + after)
    ensures !Truthy(token) ==>
      !ListFailureToasts(isAuthenticated, NS.GetNotifications(token, limit, outcome).result.error)
  {
    var m := before + NS.NoToken + after;
    assert m[|before|..|before| + |NS.NoToken|] == NS.NoToken;
    assert Strings.OccursAt(m, NS.NoToken, |before|);
    assert Strings.OccursAt(NS.NoToken, NS.NoToken, 0);
  }

  /** `prev.map(n => n.id === id ? { ...n, is_read: true } : n)`. */
  function MarkedRead(ns: seq<NS.Notification>, id: int): (r: seq<NS.Notification>)
    ensures |r| == |ns|
    ensures forall k :: 0 <= k < |ns| ==> r[k] == if ns[k].id == id then ns[k].(isRead := true) else ns[k]
  {
    seq(|ns|, k requires 0 <= k < |ns| => if ns[k].id == id then ns[k].(isRead := true) else ns[k])
  }

  /** `prev.map(n => ({ ...n, is_read: true }))`. */
  function AllRead(ns: seq<NS.Notification>): (r: seq<NS.Notification>)
    ensures |r| == |ns|
    ensures forall k :: 0 <= k < |ns| ==> r[k] == ns[k].(isRead := true)
  {
    seq(|ns|, k requires 0 <= k < |ns| => ns[k].(isRead := true))
  }

  /** The number of unread records in a list. */
  function UnreadIn(ns: seq<NS.Notification>): (n: nat)
    ensures n <= |ns|
    ensures n == 0 <==> forall k :: 0 <= k < |ns| ==> ns[k].isRead
    decreases |ns|
  {
    if ns == [] then 0
    else
      var rest := UnreadIn(ns[1..]);
      assert forall k :: 1 <= k < |ns| ==> ns[k] == ns[1..][k - 1];
      (if ns[0].isRead then 0 else 1) + rest
  }

  /** Marking one id read only ever lowers the number of unread records; marking all clears it. */
  lemma {:induction false} MarkedReadLowersUnread(ns: seq<NS.Notification>, id: int)
    ensures UnreadIn(MarkedRead(ns, id)) <= UnreadIn(ns)
    ensures UnreadIn(AllRead(ns)) == 0
    decreases |ns|
  {
    if ns != [] {
      MarkedReadLowersUnread(ns[1..], id);
      assert MarkedRead(ns, id)[1..] == MarkedRead(ns[1..], id);
      assert AllRead(ns)[1..] == AllRead(ns[1..]);
    }
  }

  /** Marking read touches no id and no field but `is_read`, and doing it twice changes nothing. */
  lemma MarkedReadKeepsRecords(ns: seq<NS.Notification>, id: int)
    ensures forall k :: 0 <= k < |ns| ==> MarkedRead(ns, id)[k].id == ns[k].id
    ensures forall k :: 0 <= k < |ns| ==> MarkedRead(ns, id)[k].(isRead := ns[k].isRead) == ns[k]
    ensures MarkedRead(MarkedRead(ns, id), id) == MarkedRead(ns, id)
    ensures MarkedRead(AllRead(ns), id) == AllRead(ns)
  {
  }

  /** `Math.max(0, prev - 1)`. */
  function DecrementFloor(n: int): (r: int)
    ensures r >= 0 && r <= if n > 0 then n else 0
    ensures n >= 1 ==> r == n - 1
  {
    if n - 1 > 0 then n - 1 else 0
  }

  /** Successive marks count the counter down one by one and then hold it at 0. */
  lemma {:induction false} DecrementsStopAtZero(count: nat, marks: nat)
    ensures Iterate(count, marks) == if count - marks > 0 then count - marks else 0
    decreases marks
  {
    if marks > 0 {
      DecrementsStopAtZero(count, marks - 1);
    }
  }

  /** The counter after `marks` successful mark calls. */
  function Iterate(count: nat, marks: nat): int
    decreases marks
  {
    if marks == 0 then count else DecrementFloor(Iterate(count, marks - 1))
  }

  /** The list after a list fetch that got past the guard: replaced on success, kept on failure. */
  function ListAfter(prev: seq<NS.Notification>, call: NS.Call<NS.NotificationList>): seq<NS.Notification> {
    if call.result.Success? then call.result.value.notifications else prev
  }

  /** The counter after a count fetch that got past the guard: replaced on success, kept on failure. */
  function CountAfter(prev: int, call: NS.Call<NS.UnreadCount>): int {
    if call.result.Success? then call.result.value.unreadCount else prev
  }

  /** The toast a list fetch that got past the guard asks for, if any. */
  function ListToasts(auth: AuthView, call: NS.Call<NS.NotificationList>): seq<string> {
    if call.result.Failure? && ListFailureToasts(auth.isAuthenticated, call.result.error) then [ListFailedToast] else []
  }

  class NotificationsHook {
    var notifications: seq<NS.Notification>
    var unreadCount: int
    var loading: bool
    /** The messages passed to `showToast`, in order. */
    var toasts: seq<string>
    const storage: Storage

    constructor (storage: Storage)
      ensures this.storage == storage
      ensures notifications == [] && unreadCount == 0 && !loading && toasts == []
    {
      this.storage := storage;
      notifications := [];
      unreadCount := 0;
      loading := false;
      toasts := [];
    }

    /** `fetchNotifications(limit)`: on success the list is replaced wholesale. */
    method FetchNotifications(auth: AuthView, limit: Option<int>, outcome: Outcome<NS.NotificationList>)
      returns (request: Option<NS.Request>)
      modifies this
      ensures !CanFetch(auth, storage.token) ==> request.None? && unchanged(this)
      ensures CanFetch(auth, storage.token) ==>
        var call := NS.GetNotifications(storage.token, limit, outcome);
        request == call.request && request.Some? && !loading && unreadCount == old(unreadCount)
        && (call.result.Success? ==> notifications == call.result.value.notifications && toasts == old(toasts))
        && (call.result.Failure? ==>
              notifications == old(notifications)
              && toasts == old(toasts) + (if ListFailureToasts(auth.isAuthenticated, call.result.error) then [ListFailedToast] else []))
        && notifications == ListAfter(old(notifications), call) && toasts == old(toasts) + ListToasts(auth, call)
    {
      if !CanFetch(auth, storage.token) {
        return None;
      }
      loading := true;
      var call := NS.GetNotifications(storage.token, limit, outcome);
      request := call.request;
      match call.result {
        case Success(data) =>
          notifications := data.notifications;
        case Failure(message) =>
          if ListFailureToasts(auth.isAuthenticated, message) {
            toasts := toasts + [ListFailedToast];
          }
      }
      loading := false;
    }

    /** `fetchUnreadCount`: on success the counter is replaced; a failure is silent. */
    method FetchUnreadCount(auth: AuthView, outcome: Outcome<NS.UnreadCount>) returns (request: Option<NS.Request>)
      modifies this
      ensures !CanFetch(auth, storage.token) ==> request.None? && unchanged(this)
      ensures CanFetch(auth, storage.token) ==>
        var call := NS.GetUnreadCount(storage.token, outcome);
        request == call.request && request.Some?
        && unreadCount == (if call.result.Success? then call.result.value.unreadCount else old(unreadCount))
        && unreadCount == CountAfter(old(unreadCount), call)
      ensures notifications == old(notifications) && loading == old(loading) && toasts == old(toasts)
    {
      if !CanFetch(auth, storage.token) {
        return None;
      }
      var call := NS.GetUnreadCount(storage.token, outcome);
      request := call.request;
      if call.result.Success? {
        unreadCount := call.result.value.unreadCount;
      }
    }

    /** `markAsRead(id)`: the local update only follows a successful server call. */
    method MarkAsRead(id: int, outcome: Outcome<NS.Ack>) returns (request: Option<NS.Request>)
      modifies this
      ensures var call := NS.MarkAsRead(storage.token, id, outcome);
        request == call.request
        && (call.result.Success? ==>
              notifications == MarkedRead(old(notifications), id) && unreadCount == DecrementFloor(old(unreadCount))
              && toasts == old(toasts))
        && (call.result.Failure? ==>
              notifications == old(notifications) && unreadCount == old(unreadCount)
              && toasts == old(toasts) + [MarkFailedToast])
      ensures loading == old(loading)
    {
      var call := NS.MarkAsRead(storage.token, id, outcome);
      request := call.request;
      if call.result.Success? {
        notifications := MarkedRead(notifications, id);
        unreadCount := DecrementFloor(unreadCount);
      } else {
        toasts := toasts + [MarkFailedToast];
      }
    }

    method MarkAllAsRead(outcome: Outcome<NS.Ack>) returns (request: Option<NS.Request>)
      modifies this
      ensures var call := NS.MarkAllAsRead(storage.token, outcome);
        request == call.request
        && (call.result.Success? ==>
              notifications == AllRead(old(notifications)) && unreadCount == 0
              && toasts == old(toasts) + [MarkAllDoneToast])
        && (call.result.Failure? ==>
              notifications == old(notifications) && unreadCount == old(unreadCount)
              && toasts == old(toasts) + [MarkAllFailedToast])
      ensures loading == old(loading)
    {
      var call := NS.MarkAllAsRead(storage.token, outcome);
      request := call.request;
      if call.result.Success? {
        notifications := AllRead(notifications);
        unreadCount := 0;
        toasts := toasts + [MarkAllDoneToast];
      } else {
        toasts := toasts + [MarkAllFailedToast];
      }
    }

    /** `createTestNotification`: on success, toast and reload both the list and the count. */
    method CreateTestNotification(auth: AuthView, outcome: Outcome<NS.Ack>,
                                  list: Outcome<NS.NotificationList>, count: Outcome<NS.UnreadCount>)
      returns (request: Option<NS.Request>)
      modifies this
      ensures var call := NS.CreateTestNotification(old(storage.token), outcome);
        request == call.request
        && (call.result.Failure? ==>
              toasts == old(toasts) + [TestFailedToast]
              && notifications == old(notifications) && unreadCount == old(unreadCount) && loading == old(loading))
        && (call.result.Success? && CanFetch(auth, old(storage.token)) ==>
              var lc := NS.GetNotifications(old(storage.token), None, list);
              var cc := NS.GetUnreadCount(old(storage.token), count);
              notifications == ListAfter(old(notifications), lc) && unreadCount == CountAfter(old(unreadCount), cc)
              && toasts == old(toasts) + [TestCreatedToast] + ListToasts(auth, lc) && !loading)
        && (call.result.Success? && !CanFetch(auth, old(storage.token)) ==>
              notifications == old(notifications) && unreadCount == old(unreadCount)
              && toasts == old(toasts) + [TestCreatedToast] && loading == old(loading))
    {
      var call := NS.CreateTestNotification(storage.token, outcome);
      request := call.request;
      if call.result.Failure? {
        toasts := toasts + [TestFailedToast];
        return;
      }
      toasts := toasts + [TestCreatedToast];
      var _ := FetchNotifications(auth, None, list);
      var _ := FetchUnreadCount(auth, count);
    }

    /** The effect on auth changes: wait for auth, fetch when logged in, clear when not. */
    method AuthEffect(auth: AuthView, list: Outcome<NS.NotificationList>, count: Outcome<NS.UnreadCount>)
      returns (listRequest: Option<NS.Request>, countRequest: Option<NS.Request>)
      modifies this
      ensures auth.loading ==> unchanged(this)
      ensures !auth.loading && !auth.isAuthenticated ==>
        notifications == [] && unreadCount == 0 && loading == old(loading) && toasts == old(toasts)
      ensures !auth.loading && auth.isAuthenticated && !Truthy(storage.token) ==> unchanged(this)
      ensures CanFetch(auth, storage.token) ==>
        var lc := NS.GetNotifications(storage.token, None, list);
        var cc := NS.GetUnreadCount(storage.token, count);
        listRequest == lc.request && countRequest == cc.request && listRequest.Some? && countRequest.Some?
        && notifications == ListAfter(old(notifications), lc) && unreadCount == CountAfter(old(unreadCount), cc)
        && toasts == old(toasts) + ListToasts(auth, lc) && !loading
      ensures !CanFetch(auth, storage.token) ==> listRequest.None? && countRequest.None?
    {
      listRequest, countRequest := None, None;
      if auth.loading {
        return;
      }
      if auth.isAuthenticated {
        if Truthy(storage.token) {
          listRequest := FetchNotifications(auth, None, list);
          countRequest := FetchUnreadCount(auth, count);
        }
      } else {
        notifications := [];
        unreadCount := 0;
      }
    }

    /** One tick of the 30 s poll: only the counter, and only while logged in and settled. */
    method PollTick(auth: AuthView, count: Outcome<NS.UnreadCount>) returns (request: Option<NS.Request>)
      modifies this
      ensures !auth.isAuthenticated || auth.loading ==> request.None? && unchanged(this)
      ensures notifications == old(notifications) && loading == old(loading) && toasts == old(toasts)
      ensures request.Some? ==> request.value.url == NS.UnreadCountUrl
      ensures CanFetch(auth, storage.token) ==>
        var cc := NS.GetUnreadCount(storage.token, count);
        request == cc.request && request.Some? && unreadCount == CountAfter(old(unreadCount), cc)
      ensures !CanFetch(auth, storage.token) ==> request.None? && unchanged(this)
    {
      if !auth.isAuthenticated || auth.loading {
        return None;
      }
      request := FetchUnreadCount(auth, count);
    }
  }
}

/**
  * The notification service: it reads the 'token' record, refuses to call without one, and
  * otherwise sends one request and maps a non-OK response to a fixed or a status message.
  */
module NotificationService {
  import opened Wrappers
  import opened Http
  import opened Browser
  import Strings

  const BaseUrl: string := "http://localhost:8080"
  const NoToken: string := "Token não encontrado"

  datatype Notification = Notification(id: int, userId: int, orderId: Option<int>, kind: string,
                                       title: string, message: string, isRead: bool, createdAt: int)

  /** The replies the service's methods expect from the back end. */
  datatype NotificationList = NotificationList(notifications: seq<Notification>, count: int)
  datatype UnreadCount = UnreadCount(unreadCount: int)
  datatype Ack = Ack(message: string)

  datatype Method = Get | Put | Post
  datatype Request = Request(verb: Method, url: string, headers: map<string, string>)

  /** The request a method sent (None when it threw first) and what it resolved or threw. */
  datatype Call<T> = Call(request: Option<Request>, result: Result<T, string>)

  /** `getAuthHeader`: null exactly when the token is falsy. */
  function AuthHeader(token: Option<string>): (h: Option<map<string, string>>)
    ensures h.None? <==> !Truthy(token)
    ensures h.Some? ==> h.value.Keys == {"Authorization", "Content-Type"}
    ensures h.Some? ==> h.value["Authorization"] == "Bearer " + token.value
    ensures h.Some? ==> h.value["Content-Type"] == "application/json"
  {
    if !Truthy(token) then None
    else Some(map["Authorization" := "Bearer " + token.value, "Content-Type" := "application/json"])
  }

  /** The list URL: `?limit=` only for a truthy (non-zero, present) limit. */
  function ListUrl(limit: Option<int>): (url: string)
    ensures limit.None? || limit.value == 0 ==> url == BaseUrl + "/notifications"
    ensures limit.Some? && limit.value != 0 ==> url == BaseUrl + "/notifications?limit=" + Strings.IntToString(limit.value)
  {
    if limit.Some? && limit.value != 0 then BaseUrl + "/notifications?limit=" + Strings.IntToString(limit.value)
    else BaseUrl + "/notifications"
  }

  /**
    * The limit is read back from the list URL: two present, non-zero limits share a URL only when
    * they are equal, and a zero or missing limit asks for the plain list, which no other limit does.
    */
  lemma ListUrlDistinguishesLimits(a: Option<int>, b: Option<int>)
    ensures ListUrl(None) == ListUrl(Some(0)) == BaseUrl + "/notifications"
    ensures a.Some? && a.value != 0 ==> ListUrl(a) != ListUrl(None)
    ensures a.Some? && a.value != 0 && b.Some? && b.value != 0 && ListUrl(a) == ListUrl(b) ==> a == b
  {
    var plain := BaseUrl + "/notifications";
    var query := plain + "?limit=";
    if a.Some? && a.value != 0 {
      assert |ListUrl(a)| > |plain|;
      if b.Some? && b.value != 0 && ListUrl(a) == ListUrl(b) {
        var sa := Strings.IntToString(a.value);
        var sb := Strings.IntToString(b.value);
        assert ListUrl(a) == query + sa && ListUrl(b) == query + sb;
        assert sa == ListUrl(a)[|query|..];
        assert sb == ListUrl(b)[|query|..];
        Strings.IntToStringInjective(a.value, b.value);
      }
    }
  }

  const UnreadCountUrl: string := BaseUrl + "/notifications/unread-count"
  const MarkAllReadUrl: string := BaseUrl + "/notifications/mark-all-read"
  const TestUrl: string := BaseUrl + "/notifications/test"

  function MarkReadUrl(id: int): (url: string)
    ensures url == BaseUrl + "/notifications/" + Strings.IntToString(id) + "/read"
  {
    BaseUrl + "/notifications/" + Strings.IntToString(id) + "/read"
  }

  /** Different notifications are marked through different URLs. */
  lemma MarkReadUrlInjective(a: int, b: int)
    requires MarkReadUrl(a) == MarkReadUrl(b)
    ensures a == b
  {
    var prefix := BaseUrl + "/notifications/";
    var sa := Strings.IntToString(a);
    var sb := Strings.IntToString(b);
    assert MarkReadUrl(a) == prefix + sa + "/read";
    assert MarkReadUrl(b) == prefix + sb + "/read";
    SlashSuffix(prefix, sa, sb);
    Strings.IntToStringInjective(a, b);
  }

  /** A rendered integer has no '/', so it ends where the "/read" suffix begins. */
  lemma SlashSuffix(prefix: string, a: string, b: string)
    requires forall k :: 0 <= k < |a| ==> a[k] != '/'
    requires forall k :: 0 <= k < |b| ==> b[k] != '/'
    requires prefix + a + "/read" == prefix + b + "/read"
    ensures a == b
  {
    var s := prefix + a + "/read";
    if |a| == |b| {
      assert a == s[|prefix|..|prefix| + |a|];
      assert b == (prefix + b + "/read")[|prefix|..|prefix| + |b|];
    }
  }

  /** How a non-OK response is reported: the status line, or a fixed message. */
  datatype OnError = StatusLine | Fixed(message: string)

  function StatusMessage<T>(resp: Response<T>): (m: string)
    ensures m == "HTTP " + Strings.IntToString(resp.status) + ": " + resp.statusText
  {
    "HTTP " + Strings.IntToString(resp.status) + ": " + resp.statusText
  }

  /**
    * The status line names the status: responses with the same status text but different
    * statuses are reported with different messages, and every message starts with "HTTP ".
    */
  lemma StatusMessageNamesStatus<T>(r1: Response<T>, r2: Response<T>)
    requires r1.statusText == r2.statusText && r1.status != r2.status
    ensures StatusMessage(r1) != StatusMessage(r2)
    ensures StatusMessage(r1)[..5] == "HTTP "
  {
    var prefix := "HTTP ";
    var a := Strings.IntToString(r1.status);
    var b := Strings.IntToString(r2.status);
    assert StatusMessage(r1) == prefix + a + ": " + r1.statusText;
    assert StatusMessage(r1)[..5] == prefix;
    if StatusMessage(r1) == StatusMessage(r2) {
      Strings.NumberBeforeColon(prefix, a, b, r1.statusText);
      Strings.IntToStringInjective(r1.status, r2.status);
    }
  }

  /**
    * The shape every method shares: no token, throw before any request; otherwise send and
    * resolve the parsed body of an OK response. A rejected fetch or body parse is rethrown.
    */
  function Send<T>(token: Option<string>, verb: Method, url: string, onError: OnError,
                   outcome: Outcome<T>): (c: Call<T>)
    ensures !Truthy(token) ==> c == Call(None, Failure(NoToken))
    ensures Truthy(token) ==> c.request == Some(Request(verb, url, AuthHeader(token).value))
    ensures Truthy(token) && outcome.FetchFailed? ==> c.result == Failure(outcome.reason)
    ensures Truthy(token) && outcome.Responded? && !Ok(outcome.response) ==>
      c.result == Failure(match onError
                          case StatusLine => StatusMessage(outcome.response)
                          case Fixed(m) => m)
    ensures Truthy(token) && outcome.Responded? && Ok(outcome.response) ==>
      c.result == match outcome.response.body
                  case Json(v) => Success(v)
                  case NotJson(reason) => Failure(reason)
  {
    match AuthHeader(token)
    case None => Call(None, Failure(NoToken))
    case Some(headers) =>
      var request := Some(Request(verb, url, headers));
      match outcome
      case FetchFailed(reason) => Call(request, Failure(reason))
      case Responded(resp) =>
        if !Ok(resp) then
          Call(request, Failure(match onError
                                case StatusLine => StatusMessage(resp)
                                case Fixed(m) => m))
        else
          match resp.body
          case Json(v) => Call(request, Success(v))
          case NotJson(reason) => Call(request, Failure(reason))
  }

  /** A call whose token is missing makes no request, whatever the server would have said. */
  lemma NoTokenNoRequest<T>(token: Option<string>, verb: Method, url: string, onError: OnError, outcome: Outcome<T>)
    requires !Truthy(token)
    ensures Send(token, verb, url, onError, outcome).request.None?
    ensures Send(token, verb, url, onError, outcome).result == Failure(NoToken)
  {
  }

  function GetNotifications(token: Option<string>, limit: Option<int>, outcome: Outcome<NotificationList>): Call<NotificationList> {
    Send(token, Get, ListUrl(limit), StatusLine, outcome)
  }

  function GetUnreadCount(token: Option<string>, outcome: Outcome<UnreadCount>): Call<UnreadCount> {
    Send(token, Get, UnreadCountUrl, StatusLine, outcome)
  }

  const MarkReadFailed: string := "Erro ao marcar como lida"
  const MarkAllReadFailed: string := "Erro ao marcar todas como lidas"
  const CreateTestFailed: string := "Erro ao criar notificação de teste"

  function MarkAsRead(token: Option<string>, id: int, outcome: Outcome<Ack>): Call<Ack> {
    Send(token, Put, MarkReadUrl(id), Fixed(MarkReadFailed), outcome)
  }

  function MarkAllAsRead(token: Option<string>, outcome: Outcome<Ack>): Call<Ack> {
    Send(token, Put, MarkAllReadUrl, Fixed(MarkAllReadFailed), outcome)
  }

  function CreateTestNotification(token: Option<string>, outcome: Outcome<Ack>): Call<Ack> {
    Send(token, Post, TestUrl, Fixed(CreateTestFailed), outcome)
  }

  /** The endpoints and methods each call uses once it has a token. */
  lemma Endpoints(token: Option<string>, id: int, limit: Option<int>, l: Outcome<NotificationList>,
                  u: Outcome<UnreadCount>, a: Outcome<Ack>)
    requires Truthy(token)
    ensures GetNotifications(token, limit, l).request.value.verb == Get
    ensures GetUnreadCount(token, u).request.value == Request(Get, BaseUrl + "/notifications/unread-count", AuthHeader(token).value)
    ensures MarkAsRead(token, id, a).request.value.verb == Put
    ensures MarkAsRead(token, id, a).request.value.url == BaseUrl + "/notifications/" + Strings.IntToString(id) + "/read"
    ensures MarkAllAsRead(token, a).request.value == Request(Put, BaseUrl + "/notifications/mark-all-read", AuthHeader(token).value)
    ensures CreateTestNotification(token, a).request.value == Request(Post, BaseUrl + "/notifications/test", AuthHeader(token).value)
  {
  }

  /** A non-OK mark call reports its fixed message, never the status. */
  lemma MarkFailureMessages(token: Option<string>, id: int, resp: Response<Ack>)
    requires Truthy(token) && !Ok(resp)
    ensures MarkAsRead(token, id, Responded(resp)).result == Failure(MarkReadFailed)
    ensures MarkAllAsRead(token, Responded(resp)).result == Failure(MarkAllReadFailed)
    ensures CreateTestNotification(token, Responded(resp)).result == Failure(CreateTestFailed)
  {
  }
}

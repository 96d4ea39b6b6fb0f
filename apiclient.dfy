/** The HTTP client every service goes through (`src/services/ApiClient.ts`).

    The transport is an oracle: for the n-th request the intercepted instance sends,
    `replies[n]` says whether the server answered with a 2xx response or the call
    failed with an error record; for the n-th token refresh (sent with plain axios,
    outside the interceptors) `refreshReplies[n]` says what came back. When a script
    runs out the request is still outstanding, and the exchange is `Unanswered`.

    A request is its method, its URL (relative to the base URL) and its headers;
    bodies are not inspected by the client and are left out. */
module Api {
  import opened Wrappers
  import opened Storage

  datatype HttpMethod = Get | Post | Put | Patch | Delete

  datatype Request = Request(verb: HttpMethod, url: string, headers: map<string, string>)

  /** A server response: status, status text, the body, and the body's `message`
      field when that is a string. */
  datatype HttpResponse<+T> = HttpResponse(status: int, statusText: string, data: Option<T>, message: Option<string>)

  /** An axios error record: the response when the server answered with a non-2xx
      status, whether the request went out (`error.request`), and the error's own message. */
  datatype HttpError<+T> = HttpError(response: Option<HttpResponse<T>>, requestSent: bool, message: string)

  /** What the transport does with one request. */
  datatype Reply<+T> = Answered(response: HttpResponse<T>) | Errored(error: HttpError<T>)

  /** What `axios.post(baseURL + '/auth/refresh', ...)` yields: a body with its `token`
      and `refreshToken` fields (absent fields are `None`), or an exception. */
  datatype RefreshReply = RefreshAnswered(token: Option<string>, refreshToken: Option<string>) | RefreshErrored

  /** The private `refreshToken` method's result envelope. */
  datatype RefreshResult = Refreshed(token: Option<string>, refreshToken: Option<string>) | RefreshFailed

  /** How a call on the intercepted instance settles: resolved with the response,
      rejected with the `handleError` message, or still waiting on the transport. */
  datatype Exchange<+T> = Resolved(response: HttpResponse<T>) | Failed(message: string) | Unanswered

  /** A call that reaches the network. */
  datatype NetCall = Sent(request: Request) | RefreshSent(url: string, refreshToken: string)

  /** A whole exchange: how it settles, the network calls in order, and the Keychain afterwards. */
  datatype Run<+T> = Run(exchange: Exchange<T>, calls: seq<NetCall>, keychain: map<string, string>)

  /** The `{success, data, message, errors}` value the HTTP wrappers return. */
  datatype Envelope<+T> = Envelope(success: bool, data: Option<T>, message: Option<string>, errors: seq<string>)

  const DefaultBaseURL: string := "https://api.fivvia.com"
  const NetworkErrorMessage: string := "Network error. Please check your connection."
  const UnexpectedErrorMessage: string := "An unexpected error occurred"
  const RefreshFailedMessage: string := "Token refresh failed"

  /** `handleError`: the message of the `Error` an HTTP failure is turned into. */
  function HandleError<T>(e: HttpError<T>): (m: string)
    ensures e.response.Some? ==> m == TruthyOr(e.response.value.message, e.response.value.statusText)
    ensures e.response.None? && e.requestSent ==> m == NetworkErrorMessage
    ensures e.response.None? && !e.requestSent ==> m == OrDefault(e.message, UnexpectedErrorMessage)
    ensures m == "" ==> e.response.Some? && !Truthy(e.response.value.message) && e.response.value.statusText == ""
  {
    if e.response.Some? then TruthyOr(e.response.value.message, e.response.value.statusText)
    else if e.requestSent then NetworkErrorMessage
    else OrDefault(e.message, UnexpectedErrorMessage)
  }

  /** Only a 401 from the server starts a token refresh. */
  predicate IsUnauthorized<T>(e: HttpError<T>) {
    e.response.Some? && e.response.value.status == 401
  }

  /** The request interceptor: a `Bearer` header with the stored access token when
      there is one; otherwise the headers are left as they are. */
  function Authorize(req: Request, keychain: map<string, string>, failing: set<string>): (r: Request)
    ensures r.verb == req.verb && r.url == req.url
    ensures SecureLookup(keychain, failing, "accessToken").Some? ==>
      r.headers == req.headers["Authorization" := "Bearer " + SecureLookup(keychain, failing, "accessToken").value]
    ensures SecureLookup(keychain, failing, "accessToken").None? ==> r == req
  {
    match SecureLookup(keychain, failing, "accessToken")
    case Some(token) => req.(headers := req.headers["Authorization" := "Bearer " + token])
    case None => req
  }

  /** A JavaScript template literal of a possibly missing string. */
  function TemplateText(o: Option<string>): (s: string)
    ensures o.Some? ==> s == o.value
    ensures o.None? ==> s == "undefined"
  {
    match o
    case Some(v) => v
    case None => "undefined"
  }

  /** What `setSecureItem(key, response.data.field)` stores: a missing field is
      written as the empty password. */
  function StoredText(o: Option<string>): string {
    o.GetOr("")
  }

  /** The private `refreshToken` method on Keychain values: both tokens are written,
      access token first; any exception, from the call or from either write, yields
      the failure envelope (with the writes already done kept). */
  function RefreshStep(keychain: map<string, string>, failing: set<string>, reply: RefreshReply)
    : (r: (RefreshResult, map<string, string>))
    ensures reply.RefreshErrored? ==> r == (RefreshFailed, keychain)
    ensures r.0.Refreshed? <==> reply.RefreshAnswered? && "accessToken" !in failing && "refreshToken" !in failing
    ensures r.0.Refreshed? ==>
      && r.0 == Refreshed(reply.token, reply.refreshToken)
      && r.1 == keychain["accessToken" := StoredText(reply.token)]["refreshToken" := StoredText(reply.refreshToken)]
    ensures r.0.RefreshFailed? && reply.RefreshAnswered? && "accessToken" in failing ==> r.1 == keychain
  {
    match reply
    case RefreshErrored => (RefreshFailed, keychain)
    case RefreshAnswered(token, refreshToken) =>
      if "accessToken" in failing then (RefreshFailed, keychain)
      else
        var k1 := keychain["accessToken" := StoredText(token)];
        if "refreshToken" in failing then (RefreshFailed, k1)
        else (Refreshed(token, refreshToken), k1["refreshToken" := StoredText(refreshToken)])
  }

  /** How one round on the intercepted instance ends: the exchange settles, or the
      request is resubmitted after a successful refresh. */
  datatype Step<+T> = Settle(exchange: Exchange<T>) | Resubmit(request: Request)

  /** One round: the request interceptor, then the transport; a 401 with a stored
      refresh token triggers a refresh, and a successful refresh resubmits the sent
      request with `Bearer data.token`. Yields the step, the network calls of the
      round, and the Keychain afterwards. */
  function Round<T>(baseURL: string, keychain: map<string, string>, failing: set<string>, req: Request,
                    replies: seq<Reply<T>>, refreshReplies: seq<RefreshReply>)
    : (r: (Step<T>, seq<NetCall>, map<string, string>))
    ensures |r.1| >= 1 && r.1[0] == Sent(Authorize(req, keychain, failing))
    ensures r.0.Resubmit? ==> replies != [] && refreshReplies != []
  {
    var sent := Authorize(req, keychain, failing);
    if replies == [] then (Settle(Unanswered), [Sent(sent)], keychain)
    else
      match replies[0]
      case Answered(response) => (Settle(Resolved(response)), [Sent(sent)], keychain)
      case Errored(e) =>
        var stored := SecureLookup(keychain, failing, "refreshToken");
        if IsUnauthorized(e) && stored.Some? then
          var refreshCall := RefreshSent(baseURL + "/auth/refresh", stored.value);
          if refreshReplies == [] then (Settle(Unanswered), [Sent(sent), refreshCall], keychain)
          else
            var (result, k2) := RefreshStep(keychain, failing, refreshReplies[0]);
            if result.Refreshed? then
              (Resubmit(sent.(headers := sent.headers["Authorization" := "Bearer " + TemplateText(result.token)])),
               [Sent(sent), refreshCall], k2)
            else (Settle(Failed(HandleError(e))), [Sent(sent), refreshCall], k2)
        else (Settle(Failed(HandleError(e))), [Sent(sent)], keychain)
  }

  /** The intercepted instance, as a function of the scripts: rounds follow one another
      as long as each ends in a resubmission, with no limit on their number. */
  function Pipeline<T>(baseURL: string, keychain: map<string, string>, failing: set<string>, req: Request,
                       replies: seq<Reply<T>>, refreshReplies: seq<RefreshReply>): (r: Run<T>)
    ensures |r.calls| >= 1 && r.calls[0] == Sent(Authorize(req, keychain, failing))
    decreases |replies|
  {
    var (step, calls, k2) := Round(baseURL, keychain, failing, req, replies, refreshReplies);
    match step
    case Settle(ex) => Run(ex, calls, k2)
    case Resubmit(next) =>
      var rest := Pipeline(baseURL, k2, failing, next, replies[1..], refreshReplies[1..]);
      Run(rest.exchange, calls + rest.calls, rest.keychain)
  }

  /** The HTTP wrappers' `try/catch`: a settled exchange always becomes an envelope. */
  function Wrap<T>(ex: Exchange<T>): (env: Option<Envelope<T>>)
    ensures env.None? <==> ex.Unanswered?
    ensures env.Some? ==> (env.value.success <==> ex.Resolved?)
    ensures ex.Resolved? ==> env == Some(Envelope(true, ex.response.data, None, []))
    ensures ex.Failed? ==> env == Some(Envelope(false, None, Some(ex.message), [ex.message]))
  {
    match ex
    case Resolved(response) => Some(Envelope(true, response.data, None, []))
    case Failed(m) => Some(Envelope(false, None, Some(m), [m]))
    case Unanswered => None
  }

  /** Number of token refreshes among the calls. */
  function RefreshCount(calls: seq<NetCall>): nat {
    if calls == [] then 0 else (if calls[0].RefreshSent? then 1 else 0) + RefreshCount(calls[1..])
  }

  lemma RefreshCountAppend(a: seq<NetCall>, b: seq<NetCall>)
    ensures RefreshCount(a + b) == RefreshCount(a) + RefreshCount(b)
  {
    if a != [] {
      assert (a + b)[0] == a[0];
      assert (a + b)[1..] == a[1..] + b;
      RefreshCountAppend(a[1..], b);
    } else {
      assert a + b == b;
    }
  }

  /** A failure other than a 401 is rejected with `handleError` at once: one call, no
      refresh, Keychain untouched. */
  lemma OtherFailureRejects<T>(baseURL: string, keychain: map<string, string>, failing: set<string>, req: Request,
                               e: HttpError<T>, replies: seq<Reply<T>>, refreshReplies: seq<RefreshReply>)
    requires !IsUnauthorized(e)
    ensures Pipeline(baseURL, keychain, failing, req, [Errored(e)] + replies, refreshReplies)
         == Run(Failed(HandleError(e)), [Sent(Authorize(req, keychain, failing))], keychain)
  {
    assert ([Errored(e)] + replies)[0] == Errored(e);
  }

  /** A 401 with no stored refresh token is rejected with `handleError`, without a refresh call. */
  lemma UnauthorizedWithoutRefreshToken<T>(baseURL: string, keychain: map<string, string>, failing: set<string>,
                                          req: Request, e: HttpError<T>, replies: seq<Reply<T>>,
                                          refreshReplies: seq<RefreshReply>)
    requires IsUnauthorized(e) && SecureLookup(keychain, failing, "refreshToken").None?
    ensures Pipeline(baseURL, keychain, failing, req, [Errored(e)] + replies, refreshReplies)
         == Run(Failed(HandleError(e)), [Sent(Authorize(req, keychain, failing))], keychain)
  {
    assert ([Errored(e)] + replies)[0] == Errored(e);
  }

  /** A 401 followed by a successful refresh: the refresh goes to `baseURL/auth/refresh`
      with the stored refresh token, both new tokens are written, and the sent request
      is resubmitted through the interceptor carrying `Bearer data.token` (which the
      interceptor replaces by the stored token when that is non-empty). */
  lemma RefreshThenResubmit<T>(baseURL: string, keychain: map<string, string>, failing: set<string>, req: Request,
                               e: HttpError<T>, next: Reply<T>, replies: seq<Reply<T>>,
                               token: Option<string>, refreshToken: Option<string>, refreshReplies: seq<RefreshReply>)
    requires IsUnauthorized(e) && SecureLookup(keychain, failing, "refreshToken").Some?
    requires "accessToken" !in failing && "refreshToken" !in failing
    ensures var sent := Authorize(req, keychain, failing);
            var k2 := keychain["accessToken" := StoredText(token)]["refreshToken" := StoredText(refreshToken)];
            var retry := sent.(headers := sent.headers["Authorization" := "Bearer " + TemplateText(token)]);
            var r := Pipeline(baseURL, keychain, failing, req, [Errored(e), next] + replies,
                              [RefreshAnswered(token, refreshToken)] + refreshReplies);
            var rest := Pipeline(baseURL, k2, failing, retry, [next] + replies, refreshReplies);
            && r.calls[..3] == [Sent(sent), RefreshSent(baseURL + "/auth/refresh", SecureLookup(keychain, failing, "refreshToken").value),
                                Sent(Authorize(retry, k2, failing))]
            && r.exchange == rest.exchange && r.keychain == rest.keychain
            && k2["accessToken"] == StoredText(token) && k2["refreshToken"] == StoredText(refreshToken)
  {
    var script := [Errored(e), next] + replies;
    assert script[0] == Errored(e);
    assert script[1..] == [next] + replies;
    assert ([RefreshAnswered(token, refreshToken)] + refreshReplies)[1..] == refreshReplies;
  }

  /** A failed refresh rejects the original error with `handleError`. */
  lemma RefreshFailureRejectsOriginal<T>(baseURL: string, keychain: map<string, string>, failing: set<string>,
                                        req: Request, e: HttpError<T>, replies: seq<Reply<T>>,
                                        refreshReplies: seq<RefreshReply>)
    requires IsUnauthorized(e) && SecureLookup(keychain, failing, "refreshToken").Some?
    requires refreshReplies != [] && RefreshStep(keychain, failing, refreshReplies[0]).0.RefreshFailed?
    ensures var r := Pipeline(baseURL, keychain, failing, req, [Errored(e)] + replies, refreshReplies);
            r.exchange == Failed(HandleError(e)) && RefreshCount(r.calls) == 1 && |r.calls| == 2
  {
    assert ([Errored(e)] + replies)[0] == Errored(e);
    var r := Pipeline(baseURL, keychain, failing, req, [Errored(e)] + replies, refreshReplies);
    assert r.calls == [Sent(Authorize(req, keychain, failing)),
                       RefreshSent(baseURL + "/auth/refresh", SecureLookup(keychain, failing, "refreshToken").value)];
    assert r.calls[1..][1..] == [];
    assert RefreshCount(r.calls[1..]) == 1;
  }

  /** `n` copies of the same reply. */
  function Repeat<T>(x: T, n: nat): (s: seq<T>)
    ensures |s| == n && forall i :: 0 <= i < n ==> s[i] == x
  {
    if n == 0 then [] else [x] + Repeat(x, n - 1)
  }

  /** There is no bound on the rounds: a server that answers 401 `n` times and then
      succeeds, with every refresh succeeding, yields `n` refreshes, `n + 1`
      submissions and a resolved exchange, for every `n`. */
  lemma {:induction false} RoundsAreUnbounded<T>(baseURL: string, keychain: map<string, string>, req: Request,
                                                e: HttpError<T>, ok: HttpResponse<T>, n: nat,
                                                token: string, refreshToken: string)
    requires IsUnauthorized(e) && token != "" && refreshToken != ""
    requires SecureLookup(keychain, {}, "refreshToken").Some?
    ensures var r := Pipeline(baseURL, keychain, {}, req, Repeat<Reply<T>>(Errored(e), n) + [Answered(ok)],
                              Repeat(RefreshAnswered(Some(token), Some(refreshToken)), n));
            r.exchange == Resolved(ok) && RefreshCount(r.calls) == n && |r.calls| == 2 * n + 1
    decreases n
  {
    var replies := Repeat<Reply<T>>(Errored(e), n) + [Answered(ok)];
    var refreshes := Repeat(RefreshAnswered(Some(token), Some(refreshToken)), n);
    if n == 0 {
      assert replies == [Answered(ok)];
    } else {
      var sent := Authorize(req, keychain, {});
      var k2 := keychain["accessToken" := token]["refreshToken" := refreshToken];
      var retry := sent.(headers := sent.headers["Authorization" := "Bearer " + token]);
      assert replies[0] == Errored(e);
      assert replies[1..] == Repeat<Reply<T>>(Errored(e), n - 1) + [Answered(ok)];
      assert refreshes[0] == RefreshAnswered(Some(token), Some(refreshToken));
      assert refreshes[1..] == Repeat(RefreshAnswered(Some(token), Some(refreshToken)), n - 1);
      RoundsAreUnbounded(baseURL, k2, retry, e, ok, n - 1, token, refreshToken);
      var rest := Pipeline(baseURL, k2, {}, retry, replies[1..], refreshes[1..]);
      var stored := SecureLookup(keychain, {}, "refreshToken").value;
      var r := Pipeline(baseURL, keychain, {}, req, replies, refreshes);
      assert r.calls == [Sent(sent), RefreshSent(baseURL + "/auth/refresh", stored)] + rest.calls;
      RefreshCountAppend([Sent(sent), RefreshSent(baseURL + "/auth/refresh", stored)], rest.calls);
      assert RefreshCount([Sent(sent), RefreshSent(baseURL + "/auth/refresh", stored)]) == 1;
    }
  }

  /** The client object: its base URL and the default headers every request carries. */
  class ApiClient {
    var baseURL: string
    var defaultHeaders: map<string, string>

    constructor (baseURL: string)
      ensures this.baseURL == baseURL
      ensures defaultHeaders == map["Content-Type" := "application/json", "Accept" := "application/json"]
    {
      this.baseURL := baseURL;
      defaultHeaders := map["Content-Type" := "application/json", "Accept" := "application/json"];
    }

    method SetBaseURL(url: string)
      modifies this`baseURL
      ensures baseURL == url
    {
      baseURL := url;
    }

    method GetBaseURL() returns (url: string)
      ensures url == baseURL
    {
      url := baseURL;
    }

    method SetDefaultHeader(key: string, value: string)
      modifies this`defaultHeaders
      ensures defaultHeaders == old(defaultHeaders)[key := value]
    {
      defaultHeaders := defaultHeaders[key := value];
    }

    method RemoveDefaultHeader(key: string)
      modifies this`defaultHeaders
      ensures defaultHeaders == old(defaultHeaders) - {key}
    {
      defaultHeaders := defaultHeaders - {key};
    }

    /** One round on the intercepted instance. */
    method OneRound<T>(storage: StorageService, req: Request, replies: seq<Reply<T>>, refreshReplies: seq<RefreshReply>)
      returns (step: Step<T>, calls: seq<NetCall>)
      modifies storage`keychain
      ensures (step, calls, storage.keychain)
           == Round(baseURL, old(storage.keychain), storage.failingSecure, req, replies, refreshReplies)
    {
      var token := storage.GetSecureItem("accessToken");
      var sent := req;
      if token.Some? {
        sent := req.(headers := req.headers["Authorization" := "Bearer " + token.value]);
      }
      if replies == [] {
        return Settle(Unanswered), [Sent(sent)];
      }
      match replies[0]
      case Answered(response) => {
        step, calls := Settle(Resolved(response)), [Sent(sent)];
      }
      case Errored(e) => {
        var stored := storage.GetSecureItem("refreshToken");
        if IsUnauthorized(e) && stored.Some? {
          var refreshCall := RefreshSent(baseURL + "/auth/refresh", stored.value);
          if refreshReplies == [] {
            return Settle(Unanswered), [Sent(sent), refreshCall];
          }
          var result := RefreshTokens(storage, refreshReplies[0]);
          if result.Refreshed? {
            step := Resubmit(sent.(headers := sent.headers["Authorization" := "Bearer " + TemplateText(result.token)]));
          } else {
            step := Settle(Failed(HandleError(e)));
          }
          calls := [Sent(sent), refreshCall];
        } else {
          step, calls := Settle(Failed(HandleError(e))), [Sent(sent)];
        }
      }
    }

    /** One call on the intercepted instance, round after round until the exchange settles. */
    method Dispatch<T>(storage: StorageService, req: Request, replies: seq<Reply<T>>, refreshReplies: seq<RefreshReply>)
      returns (ex: Exchange<T>, calls: seq<NetCall>)
      modifies storage`keychain
      ensures Run(ex, calls, storage.keychain)
           == Pipeline(baseURL, old(storage.keychain), storage.failingSecure, req, replies, refreshReplies)
    {
      ghost var total := Pipeline(baseURL, storage.keychain, storage.failingSecure, req, replies, refreshReplies);
      var current := req;
      var i, j := 0, 0;
      calls := [];
      while true
        invariant 0 <= i <= |replies| && 0 <= j <= |refreshReplies|
        invariant var rest := Pipeline(baseURL, storage.keychain, storage.failingSecure, current, replies[i..], refreshReplies[j..]);
                  total == Run(rest.exchange, calls + rest.calls, rest.keychain)
        decreases |replies| - i
      {
        ghost var before := calls;
        var step, roundCalls := OneRound(storage, current, replies[i..], refreshReplies[j..]);
        calls := calls + roundCalls;
        match step
        case Settle(e) => {
          ex := e;
          return;
        }
        case Resubmit(next) => {
          assert replies[i..][1..] == replies[i + 1..];
          assert refreshReplies[j..][1..] == refreshReplies[j + 1..];
          var rest := Pipeline(baseURL, storage.keychain, storage.failingSecure, next, replies[i + 1..], refreshReplies[j + 1..]);
          assert before + (roundCalls + rest.calls) == calls + rest.calls;
          current := next;
          i, j := i + 1, j + 1;
        }
      }
    }

    /** The private `refreshToken`: both writes go through the storage service. */
    method RefreshTokens(storage: StorageService, reply: RefreshReply) returns (result: RefreshResult)
      modifies storage`keychain
      ensures (result, storage.keychain) == RefreshStep(old(storage.keychain), storage.failingSecure, reply)
    {
      match reply
      case RefreshErrored => {
        result := RefreshFailed;
      }
      case RefreshAnswered(token, refreshToken) => {
        var o := storage.SetSecureItem("accessToken", StoredText(token));
        if o.Thrown? {
          result := RefreshFailed;
          return;
        }
        o := storage.SetSecureItem("refreshToken", StoredText(refreshToken));
        if o.Thrown? {
          result := RefreshFailed;
          return;
        }
        result := Refreshed(token, refreshToken);
      }
    }

    /** The shared body of the HTTP wrappers: default headers, then the call's own
        headers, then the intercepted instance, then the envelope. */
    method Send<T>(storage: StorageService, verb: HttpMethod, url: string, headers: map<string, string>,
                   replies: seq<Reply<T>>, refreshReplies: seq<RefreshReply>)
      returns (env: Option<Envelope<T>>, calls: seq<NetCall>)
      modifies storage`keychain
      ensures var r := Pipeline(baseURL, old(storage.keychain), storage.failingSecure,
                                Request(verb, url, defaultHeaders + headers), replies, refreshReplies);
              env == Wrap(r.exchange) && calls == r.calls && storage.keychain == r.keychain
    {
      var ex;
      ex, calls := Dispatch(storage, Request(verb, url, defaultHeaders + headers), replies, refreshReplies);
      env := Wrap(ex);
    }

    method Get<T>(storage: StorageService, url: string, headers: map<string, string>,
                  replies: seq<Reply<T>>, refreshReplies: seq<RefreshReply>)
      returns (env: Option<Envelope<T>>, calls: seq<NetCall>)
      modifies storage`keychain
      ensures var r := Pipeline(baseURL, old(storage.keychain), storage.failingSecure,
                                Request(HttpMethod.Get, url, defaultHeaders + headers), replies, refreshReplies);
              env == Wrap(r.exchange) && calls == r.calls && storage.keychain == r.keychain
    {
      env, calls := Send(storage, HttpMethod.Get, url, headers, replies, refreshReplies);
    }

    method Post<T>(storage: StorageService, url: string, headers: map<string, string>,
                   replies: seq<Reply<T>>, refreshReplies: seq<RefreshReply>)
      returns (env: Option<Envelope<T>>, calls: seq<NetCall>)
      modifies storage`keychain
      ensures var r := Pipeline(baseURL, old(storage.keychain), storage.failingSecure,
                                Request(HttpMethod.Post, url, defaultHeaders + headers), replies, refreshReplies);
              env == Wrap(r.exchange) && calls == r.calls && storage.keychain == r.keychain
    {
      env, calls := Send(storage, HttpMethod.Post, url, headers, replies, refreshReplies);
    }

    method Put<T>(storage: StorageService, url: string, headers: map<string, string>,
                  replies: seq<Reply<T>>, refreshReplies: seq<RefreshReply>)
      returns (env: Option<Envelope<T>>, calls: seq<NetCall>)
      modifies storage`keychain
      ensures var r := Pipeline(baseURL, old(storage.keychain), storage.failingSecure,
                                Request(HttpMethod.Put, url, defaultHeaders + headers), replies, refreshReplies);
              env == Wrap(r.exchange) && calls == r.calls && storage.keychain == r.keychain
    {
      env, calls := Send(storage, HttpMethod.Put, url, headers, replies, refreshReplies);
    }

    method Patch<T>(storage: StorageService, url: string, headers: map<string, string>,
                    replies: seq<Reply<T>>, refreshReplies: seq<RefreshReply>)
      returns (env: Option<Envelope<T>>, calls: seq<NetCall>)
      modifies storage`keychain
      ensures var r := Pipeline(baseURL, old(storage.keychain), storage.failingSecure,
                                Request(HttpMethod.Patch, url, defaultHeaders + headers), replies, refreshReplies);
              env == Wrap(r.exchange) && calls == r.calls && storage.keychain == r.keychain
    {
      env, calls := Send(storage, HttpMethod.Patch, url, headers, replies, refreshReplies);
    }

    method Delete<T>(storage: StorageService, url: string, headers: map<string, string>,
                     replies: seq<Reply<T>>, refreshReplies: seq<RefreshReply>)
      returns (env: Option<Envelope<T>>, calls: seq<NetCall>)
      modifies storage`keychain
      ensures var r := Pipeline(baseURL, old(storage.keychain), storage.failingSecure,
                                Request(HttpMethod.Delete, url, defaultHeaders + headers), replies, refreshReplies);
              env == Wrap(r.exchange) && calls == r.calls && storage.keychain == r.keychain
    {
      env, calls := Send(storage, HttpMethod.Delete, url, headers, replies, refreshReplies);
    }
  }
}

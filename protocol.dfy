/**
 * The session state machine of `TgtgClient` (src/client.ts) as pure
 * functions. Each operation is a function of the client's configuration, its
 * session state (`auth`, `cookie`), the server, the number of requests sent so
 * far and the clock reading `now`; it returns an `Effect`: the outcome, the
 * new session state, the requests posted, the `didSessionChange`
 * notifications and the waits, each in order. The class in module Client is
 * proved to behave exactly as these functions say.
 */
module Protocol {
  import opened Wrappers
  import opened Text
  import opened Fetch
  import opened Exceptions

  const BASE_URL := "https://apptoogoodtogo.com/api"

  const AUTH_BY_EMAIL_ENDPOINT := "auth/v3/authByEmail"
  const AUTH_POLLING_ENDPOINT := "auth/v3/authByRequestPollingId"
  const AUTH_SIGNUP_BY_EMAIL_ENDPOINT := "auth/v3/signUpByEmail"
  const AUTH_REFRESH_ENDPOINT := "auth/v3/token/refresh"
  const ORDER_CREATE_ENDPOINT := "order/v7/create"
  const ORDER_ABORT_ENDPOINT := "order/v7/{}/abort"

  const DEFAULT_APK_VERSION := "23.6.11"
  const DEFAULT_USER_AGENTS: seq<string> := [
    "TGTG/{} Dalvik/2.1.0 (Linux; U; Android 9; Nexus 5 Build/M4B30Z)",
    "TGTG/{} Dalvik/2.1.0 (Linux; U; Android 10; SM-G935F Build/NRD90M)",
    "TGTG/{} Dalvik/2.1.0 (Linux; Android 12; SM-G920V Build/MMB29K)"
  ]
  /** Seconds: four hours. */
  const DEFAULT_ACCESS_TOKEN_LIFETIME: int := 3600 * 4
  const DEFAULT_DEVICE_TYPE := "ANDROID"
  const DEFAULT_LANGUAGE := "en-UK"

  /** Milliseconds. */
  const POLLING_WAIT_TIME: nat := 5 * 1000
  const MAX_POLLING_TRIES: nat := 24

  const NO_SESSION_MESSAGE := "There is no active session, call authByEmail first!"
  const SESSION_ACTIVE_MESSAGE := "There is already a session active"
  const TOO_MANY_REQUESTS_MESSAGE := "Too many requests. Try again later."
  const SUCCESS_STATE := "SUCCESS"
  const TERMS_STATE := "TERMS"
  const WAIT_STATE := "WAIT"

  function NotLinkedMessage(email: string): string {
    "This email " + email + " is not linked to a tgtg account. Please signup with this email first."
  }

  /** The not-linked message names the email, right after its opening words. */
  lemma NotLinkedMessageNamesEmail(email: string)
    ensures OccursAt(NotLinkedMessage(email), email, |"This email "|)
  {
    var m := NotLinkedMessage(email);
    assert m[11..11 + |email|] == email;
  }

  /** `${MAX_POLLING_TRIES * POLLING_WAIT_TIME}`: see `TotalWaitText`. */
  const TOTAL_WAIT_TEXT := "120000"

  /**
   * The polling timeout message. The number in it counts milliseconds,
   * although the text says seconds.
   */
  function MaxRetriesMessage(): string {
    "Max retries (" + TOTAL_WAIT_TEXT + " seconds) reached. Try again."
  }

  /** The number in the timeout message is the product of the two polling constants. */
  lemma TotalWaitText()
    ensures DecimalString(MAX_POLLING_TRIES * POLLING_WAIT_TIME) == TOTAL_WAIT_TEXT
  {
    assert DecimalString(12) == "12";
    assert DecimalString(1200) == DecimalString(120) + "0" == "1200";
  }

  // ---------------------------------------------------------------------------
  // Sessions and configuration

  datatype AuthInfo = AuthInfo(access_token: string, refresh_token: string, user_id: string, token_refresh_time: int)

  /** What the caller persists: the credentials and the cookie held with them. */
  datatype Session = Session(access_token: string, refresh_token: string, user_id: string,
                             token_refresh_time: int, cookie: Option<string>)

  /** `{...auth, cookie}`, the value handed to `didSessionChange`. */
  function WithCookie(a: AuthInfo, cookie: Option<string>): Session {
    Session(a.access_token, a.refresh_token, a.user_id, a.token_refresh_time, cookie)
  }

  /** The credentials of a session, without its cookie. */
  function WithoutCookie(s: Session): (a: AuthInfo)
    ensures WithCookie(a, s.cookie) == s
  {
    AuthInfo(s.access_token, s.refresh_token, s.user_id, s.token_refresh_time)
  }

  /** The client's configuration, fixed at construction. */
  datatype Config = Config(email: string, base_url: string, apk_version: string, user_agent: string,
                           language: string, timeout: Option<int>, access_token_lifetime: int,
                           device_type: string)

  /** The optional settings a caller may pass to the constructor. */
  datatype Options = Options(base_url: Option<string>, user_agent: Option<string>, language: Option<string>,
                             timeout: Option<int>, device_type: Option<string>,
                             access_token_lifetime: Option<int>)

  /** The constructor's first argument, without its callback (see the notifications of an Effect). */
  datatype Init = Init(email: string, session: Option<Session>)

  /** The mutable part of the client. */
  datatype State = State(auth: Option<AuthInfo>, cookie: Option<string>)

  /**
   * The configuration the constructor settles on: every option left out takes
   * its default, and the user agent defaults to the template `randomAgent`
   * (the choice `randomArray` would make).
   */
  function Configure(email: string, options: Options, randomAgent: string): (cfg: Config)
    ensures cfg.email == email && cfg.apk_version == DEFAULT_APK_VERSION && cfg.timeout == options.timeout
    ensures cfg.base_url == (if options.base_url.Some? then options.base_url.value else BASE_URL)
    ensures cfg.user_agent == (if options.user_agent.Some? then options.user_agent.value else randomAgent)
    ensures cfg.language == (if options.language.Some? then options.language.value else DEFAULT_LANGUAGE)
    ensures cfg.access_token_lifetime ==
            (if options.access_token_lifetime.Some? then options.access_token_lifetime.value else DEFAULT_ACCESS_TOKEN_LIFETIME)
    ensures cfg.device_type == (if options.device_type.Some? then options.device_type.value else DEFAULT_DEVICE_TYPE)
  {
    Config(email, options.base_url.GetOr(BASE_URL), DEFAULT_APK_VERSION, options.user_agent.GetOr(randomAgent),
           options.language.GetOr(DEFAULT_LANGUAGE), options.timeout,
           options.access_token_lifetime.GetOr(DEFAULT_ACCESS_TOKEN_LIFETIME),
           options.device_type.GetOr(DEFAULT_DEVICE_TYPE))
  }

  /**
   * The state the constructor starts from: a prior session is split into its
   * credentials and its cookie, which put together give the session back.
   */
  function InitialState(init: Init): (st: State)
    ensures init.session.None? ==> st.auth.None? && st.cookie.None?
    ensures init.session.Some? ==> st.auth.Some? && WithCookie(st.auth.value, st.cookie) == init.session.value
  {
    match init.session
    case None => State(None, None)
    case Some(s) => State(Some(WithoutCookie(s)), s.cookie)
  }

  /** What one operation does, in order. */
  datatype Effect<T> = Effect(result: Result<T>, state: State, sent: seq<Request>,
                              notified: seq<Session>, slept: seq<nat>)

  /** Logs grow by appending, so an operation's part of a log can be split off in either order. */
  lemma AppendAssociates<T>(a: seq<T>, b: seq<T>, c: seq<T>)
    ensures a + b + c == a + (b + c)
  {
  }

  /** JavaScript truthiness of a `string | null`. */
  predicate Truthy(c: Option<string>) {
    c.Some? && c.value != ""
  }

  predicate Answered(x: Exchange, status: nat) {
    x.Delivered? && x.response.status == status
  }

  // ---------------------------------------------------------------------------
  // Transport: `post`

  /** The user-agent template with its first `{}` replaced by the app version. */
  function UserAgent(cfg: Config): string {
    ReplaceFirst(cfg.user_agent, "{}", cfg.apk_version)
  }

  /** The headers `post` sends from state `st`: the cookie when it is truthy, the bearer token when a session is held. */
  function Headers(cfg: Config, st: State): HeaderFields {
    HeaderFields(cfg.language, UserAgent(cfg),
                 if Truthy(st.cookie) then st.cookie else None,
                 if st.auth.Some? then Some("Bearer " + st.auth.value.access_token) else None)
  }

  /** The header object of every request, entry by entry. */
  lemma HeaderObject(cfg: Config, st: State)
    ensures var h := HeaderMap(Headers(cfg, st));
            && ("authorization" in h <==> st.auth.Some?)
            && (st.auth.Some? ==> h["authorization"] == "Bearer " + st.auth.value.access_token)
            && ("Cookie" in h <==> Truthy(st.cookie))
            && (Truthy(st.cookie) ==> h["Cookie"] == st.cookie.value)
            && "user-agent" in h && h["user-agent"] == UserAgent(cfg)
            && "accept-language" in h && h["accept-language"] == cfg.language
            && h["accept"] == "application/json" && h["Accept-Encoding"] == "gzip"
            && h["content-type"] == "application/json; charset=utf-8"
            && h.Keys <= {"accept", "Accept-Encoding", "accept-language", "content-type", "user-agent", "Cookie", "authorization"}
  {
  }

  /**
   * The user agent replaces only the first `{}` of the template, by the app
   * version with its `$` patterns expanded; a version without a dollar sign,
   * such as the one every client is configured with, is inserted as it is.
   */
  lemma UserAgentFillsFirstPlaceholder(cfg: Config, i: nat)
    requires OccursAt(cfg.user_agent, "{}", i) && forall j: nat :: j < i ==> !OccursAt(cfg.user_agent, "{}", j)
    ensures UserAgent(cfg) == cfg.user_agent[..i]
                              + Substitution(cfg.apk_version, "{}", cfg.user_agent[..i], cfg.user_agent[i + 2..])
                              + cfg.user_agent[i + 2..]
    ensures '$' !in cfg.apk_version ==> UserAgent(cfg) == cfg.user_agent[..i] + cfg.apk_version + cfg.user_agent[i + 2..]
    ensures cfg.apk_version == DEFAULT_APK_VERSION ==>
              UserAgent(cfg) == cfg.user_agent[..i] + DEFAULT_APK_VERSION + cfg.user_agent[i + 2..]
  {
    ReplaceFirstReplaces(cfg.user_agent, "{}", cfg.apk_version);
    if '$' !in cfg.apk_version {
      ReplaceFirstLiteral(cfg.user_agent, "{}", cfg.apk_version, i);
    }
    if cfg.apk_version == DEFAULT_APK_VERSION {
      assert '$' !in DEFAULT_APK_VERSION;
      ReplaceFirstLiteral(cfg.user_agent, "{}", cfg.apk_version, i);
    }
  }

  /** A user-agent template without `{}` is sent as it is. */
  lemma UserAgentWithoutPlaceholder(cfg: Config)
    requires forall j: nat :: !OccursAt(cfg.user_agent, "{}", j)
    ensures UserAgent(cfg) == cfg.user_agent
  {
    ReplaceFirstReplaces(cfg.user_agent, "{}", cfg.apk_version);
  }

  /** The request `post(path, data)` sends from state `st`. */
  function RequestFor(cfg: Config, st: State, path: string, body: Payload): Request {
    var signal := if cfg.timeout.Some? && cfg.timeout.value != 0 then cfg.timeout else None;
    Request(cfg.base_url + "/" + path, Headers(cfg, st), body, signal)
  }

  /** The one-slot cookie jar after an exchange: a non-empty `Set-Cookie` replaces the held cookie. */
  function Jar(cookie: Option<string>, x: Exchange): Option<string> {
    if x.Delivered? && Truthy(x.response.setCookie) then x.response.setCookie else cookie
  }

  /** A cookie set by one response is the cookie sent with the next request, whatever was held before. */
  lemma NextRequestCarriesNewCookie(cfg: Config, st: State, x: Exchange, path: string, body: Payload)
    requires x.Delivered? && Truthy(x.response.setCookie)
    ensures var next := HeaderMap(RequestFor(cfg, st.(cookie := Jar(st.cookie, x)), path, body).headers);
            "Cookie" in next && next["Cookie"] == x.response.setCookie.value
  {
  }

  /** Without a usable `Set-Cookie` the next request carries the same cookie header as this one. */
  lemma CookieKeptWithoutSetCookie(cfg: Config, st: State, x: Exchange, path: string, body: Payload)
    requires !(x.Delivered? && Truthy(x.response.setCookie))
    ensures RequestFor(cfg, st.(cookie := Jar(st.cookie, x)), path, body) == RequestFor(cfg, st, path, body)
  {
  }

  // ---------------------------------------------------------------------------
  // `getRefreshedAuth`

  predicate IsFresh(cfg: Config, a: AuthInfo, now: int) {
    now - a.token_refresh_time < cfg.access_token_lifetime * 1000
  }

  predicate Expired(cfg: Config, st: State, now: int) {
    st.auth.Some? && !IsFresh(cfg, st.auth.value, now)
  }

  function RefreshRequest(cfg: Config, st: State): Request
    requires st.auth.Some?
  {
    RequestFor(cfg, st, AUTH_REFRESH_ENDPOINT, RefreshBody(st.auth.value.refresh_token))
  }

  function RefreshSpec(cfg: Config, st: State, server: (nat, Request) -> Exchange, k: nat, now: int): (e: Effect<AuthInfo>)
    ensures e.slept == [] && (e.state.auth.Some? <==> st.auth.Some?)
    ensures st.auth.None? ==> e == Effect(Err(SessionError(NO_SESSION_MESSAGE)), st, [], [], [])
    ensures st.auth.Some? && !Expired(cfg, st, now) ==> e == Effect(Ok(st.auth.value), st, [], [], [])
    ensures Expired(cfg, st, now) ==>
              var x := server(k, RefreshRequest(cfg, st));
              && e.sent == [RefreshRequest(cfg, st)]
              && e.state.cookie == Jar(st.cookie, x)
              && (x.Failed? ==> e.result == Err(TransportError(x.reason)))
              && (x.Delivered? && x.response.status != OK ==>
                    e.result == Err(APIError(Http(x.response.status), x.response.body.text)))
              && (e.result.Ok? <==> Answered(x, OK))
    ensures e.result.Ok? ==> e.state.auth == Some(e.result.value)
    ensures e.result.Ok? ==> e.result.value.user_id == st.auth.value.user_id
    ensures e.result.Ok? && e.sent != [] ==>
              var body := server(k, e.sent[0]).response.body;
              && e.result.value.access_token == body.access_token
              && e.result.value.refresh_token == body.refresh_token
              && e.result.value.token_refresh_time == now
              && e.notified == [WithCookie(e.result.value, e.state.cookie)]
    ensures e.result.Err? ==> e.state.auth == st.auth
    ensures e.notified != [] ==> e.result.Ok? && e.sent != []
  {
    match st.auth
    case None => Effect(Err(SessionError(NO_SESSION_MESSAGE)), st, [], [], [])
    case Some(a) =>
      if IsFresh(cfg, a, now) then Effect(Ok(a), st, [], [], [])
      else
        var req := RefreshRequest(cfg, st);
        var x := server(k, req);
        var cookie := Jar(st.cookie, x);
        match x
        case Failed(reason) => Effect(Err(TransportError(reason)), st.(cookie := cookie), [req], [], [])
        case Delivered(resp) =>
          if resp.status == OK then
            var a' := a.(access_token := resp.body.access_token, refresh_token := resp.body.refresh_token,
                         token_refresh_time := now);
            Effect(Ok(a'), State(Some(a'), cookie), [req], [WithCookie(a', cookie)], [])
          else
            Effect(Err(APIError(Http(resp.status), resp.body.text)), st.(cookie := cookie), [req], [], [])
  }

  /**
   * After a successful refresh at `now`, the token's age is zero: every call
   * within the lifetime window returns the new credentials and sends nothing.
   */
  lemma RefreshedTokenStaysFresh(cfg: Config, st: State, server: (nat, Request) -> Exchange, k: nat, now: int,
                                 later: int, server': (nat, Request) -> Exchange, k': nat)
    requires Expired(cfg, st, now) && Answered(server(k, RefreshRequest(cfg, st)), OK)
    requires now <= later < now + cfg.access_token_lifetime * 1000
    ensures var e := RefreshSpec(cfg, st, server, k, now);
            && e.result.Ok?
            && RefreshSpec(cfg, e.state, server', k', later) == Effect(e.result, e.state, [], [], [])
  {
  }

  // ---------------------------------------------------------------------------
  // `startPolling`

  function PollingRequest(cfg: Config, st: State, pollingId: string): Request {
    RequestFor(cfg, st, AUTH_POLLING_ENDPOINT, PollingBody(cfg.device_type, cfg.email, pollingId))
  }

  /** The credentials a confirmed login response carries, stamped with `now`. */
  function LoggedIn(body: Body, now: int): AuthInfo {
    AuthInfo(body.access_token, body.refresh_token, body.user_id, now)
  }

  predicate TimedOut<T>(e: Effect<T>) {
    e.result == Err(PollingError(MaxRetriesMessage()))
  }

  /** The reply to the last request of `sent`, the first of which was the k-th request. */
  function LastReply(server: (nat, Request) -> Exchange, k: nat, sent: seq<Request>): Exchange
    requires sent != []
  {
    server(k + |sent| - 1, sent[|sent| - 1])
  }

  /** How one polling attempt ends: the loop goes on from a new state, or stops with an outcome. */
  datatype Attempt = Again(state: State) | Stop(result: Result<()>, state: State, notified: seq<Session>)

  /**
   * One attempt's reply, classified: 202 goes on, 200 logs in with the
   * reply's tokens and user id, 429 is the rate-limit APIError, a rejected
   * fetch is passed on and any other status is a LoginError. The cookie jar
   * is updated in every case.
   */
  function PollAttempt(st: State, x: Exchange, now: int): (a: Attempt)
    ensures a.state.cookie == Jar(st.cookie, x)
    ensures a.Again? <==> Answered(x, ACCEPTED)
    ensures a.Again? ==> a.state.auth == st.auth
    ensures a.Stop? && a.result.Ok? <==> Answered(x, OK)
    ensures Answered(x, OK) ==>
              a.state.auth == Some(LoggedIn(x.response.body, now))
              && a.notified == [WithCookie(a.state.auth.value, a.state.cookie)]
    ensures a.Stop? && a.result.Err? ==> a.state.auth == st.auth && a.notified == []
    ensures Answered(x, TOO_MANY_REQUESTS) ==>
              a.Stop? && a.result == Err(APIError(Http(TOO_MANY_REQUESTS), TOO_MANY_REQUESTS_MESSAGE))
    ensures x.Delivered? && x.response.status !in {OK, ACCEPTED, TOO_MANY_REQUESTS} ==>
              a.Stop? && a.result == Err(LoginErrorFromResponse(x.response))
    ensures x.Failed? ==> a.Stop? && a.result == Err(TransportError(x.reason))
  {
    var st' := st.(cookie := Jar(st.cookie, x));
    match x
    case Failed(reason) => Stop(Err(TransportError(reason)), st', [])
    case Delivered(resp) =>
      if resp.status == ACCEPTED then Again(st')
      else if resp.status == OK then
        var auth := LoggedIn(resp.body, now);
        Stop(Ok(()), State(Some(auth), st'.cookie), [WithCookie(auth, st'.cookie)])
      else if resp.status == TOO_MANY_REQUESTS then
        Stop(Err(APIError(Http(TOO_MANY_REQUESTS), TOO_MANY_REQUESTS_MESSAGE)), st', [])
      else
        Stop(Err(LoginErrorFromResponse(resp)), st', [])
  }

  /**
   * Attempts `i` to `MAX_POLLING_TRIES - 1` of the polling loop: an attempt
   * answered 202 waits twice and goes on; running out of attempts ends the
   * loop with the polling timeout.
   */
  function PollFrom(cfg: Config, st: State, server: (nat, Request) -> Exchange, k: nat,
                    pollingId: string, now: int, i: nat): (e: Effect<()>)
    requires i <= MAX_POLLING_TRIES
    ensures |e.sent| <= MAX_POLLING_TRIES - i
    ensures |e.slept| <= 2 * |e.sent|
    ensures e.result.Ok? ==> e.state.auth.Some? && e.notified == [WithCookie(e.state.auth.value, e.state.cookie)]
    ensures e.result.Err? ==> e.state.auth == st.auth && e.notified == []
    decreases MAX_POLLING_TRIES - i
  {
    if i == MAX_POLLING_TRIES then Effect(Err(PollingError(MaxRetriesMessage())), st, [], [], [])
    else
      var req := PollingRequest(cfg, st, pollingId);
      match PollAttempt(st, server(k, req), now)
      case Stop(result, st', notified) => Effect(result, st', [req], notified, [])
      case Again(st') =>
        var rest := PollFrom(cfg, st', server, k + 1, pollingId, now, i + 1);
        Effect(rest.result, rest.state, [req] + rest.sent, rest.notified,
               [POLLING_WAIT_TIME, POLLING_WAIT_TIME] + rest.slept)
  }

  /**
   * The polling loop from attempt `i` on, written the way the loop runs: the
   * whole request log, notification log and wait log so far are carried
   * along and extended, and the reply to a request is the one the network
   * gives to the `|sent|`-th request.
   */
  function PollRun(cfg: Config, server: (nat, Request) -> Exchange, pollingId: string, now: int, i: nat,
                   st: State, sent: seq<Request>, notified: seq<Session>, slept: seq<nat>): Effect<()>
    requires i <= MAX_POLLING_TRIES
    decreases MAX_POLLING_TRIES - i
  {
    if i == MAX_POLLING_TRIES then Effect(Err(PollingError(MaxRetriesMessage())), st, sent, notified, slept)
    else
      var req := PollingRequest(cfg, st, pollingId);
      match PollAttempt(st, server(|sent|, req), now)
      case Stop(result, st', n) => Effect(result, st', sent + [req], notified + n, slept)
      case Again(st') =>
        PollRun(cfg, server, pollingId, now, i + 1, st', sent + [req], notified,
                slept + [POLLING_WAIT_TIME] + [POLLING_WAIT_TIME])
  }

  /** One turn of the loop as it runs: the attempt's request is logged, then the loop goes on or stops. */
  lemma PollRunStep(cfg: Config, server: (nat, Request) -> Exchange, pollingId: string, now: int, i: nat,
                    st: State, sent: seq<Request>, notified: seq<Session>, slept: seq<nat>)
    requires i < MAX_POLLING_TRIES
    ensures var req := PollingRequest(cfg, st, pollingId);
            var a := PollAttempt(st, server(|sent|, req), now);
            var e := PollRun(cfg, server, pollingId, now, i, st, sent, notified, slept);
            && (a.Again? ==>
                  e == PollRun(cfg, server, pollingId, now, i + 1, a.state, sent + [req], notified,
                               slept + [POLLING_WAIT_TIME] + [POLLING_WAIT_TIME]))
            && (a.Stop? ==> e == Effect(a.result, a.state, sent + [req], notified + a.notified, slept))
  {
  }

  /**
   * The inductive step of `PollRunExtends`: if the loop from attempt `i + 1`
   * extends its logs as `PollFrom` says, so does the loop from attempt `i`.
   */
  lemma PollRunExtendsStep(cfg: Config, server: (nat, Request) -> Exchange, pollingId: string, now: int,
                           i: nat, st: State, sent: seq<Request>, notified: seq<Session>, slept: seq<nat>)
    requires i < MAX_POLLING_TRIES
    requires var req := PollingRequest(cfg, st, pollingId);
             var a := PollAttempt(st, server(|sent|, req), now);
             var sent', slept' := sent + [req], slept + [POLLING_WAIT_TIME] + [POLLING_WAIT_TIME];
             var rest := PollFrom(cfg, a.state, server, |sent'|, pollingId, now, i + 1);
             a.Again? ==>
               PollRun(cfg, server, pollingId, now, i + 1, a.state, sent', notified, slept')
                 == Effect(rest.result, rest.state, sent' + rest.sent, notified + rest.notified, slept' + rest.slept)
    ensures var e := PollFrom(cfg, st, server, |sent|, pollingId, now, i);
            PollRun(cfg, server, pollingId, now, i, st, sent, notified, slept)
              == Effect(e.result, e.state, sent + e.sent, notified + e.notified, slept + e.slept)
  {
    var req := PollingRequest(cfg, st, pollingId);
    var a := PollAttempt(st, server(|sent|, req), now);
    if a.Again? {
      var sent', slept' := sent + [req], slept + [POLLING_WAIT_TIME] + [POLLING_WAIT_TIME];
      var rest := PollFrom(cfg, a.state, server, |sent'|, pollingId, now, i + 1);
      assert sent' + rest.sent == sent + ([req] + rest.sent);
      assert slept' + rest.slept == slept + ([POLLING_WAIT_TIME, POLLING_WAIT_TIME] + rest.slept);
    }
  }

  /** Running the loop on top of existing logs appends to them exactly what `PollFrom` describes. */
  lemma {:induction false} PollRunExtends(cfg: Config, server: (nat, Request) -> Exchange, pollingId: string,
                                          now: int, i: nat, st: State, sent: seq<Request>,
                                          notified: seq<Session>, slept: seq<nat>)
    requires i <= MAX_POLLING_TRIES
    ensures var e := PollFrom(cfg, st, server, |sent|, pollingId, now, i);
            PollRun(cfg, server, pollingId, now, i, st, sent, notified, slept)
              == Effect(e.result, e.state, sent + e.sent, notified + e.notified, slept + e.slept)
    decreases MAX_POLLING_TRIES - i
  {
    if i < MAX_POLLING_TRIES {
      var req := PollingRequest(cfg, st, pollingId);
      var a := PollAttempt(st, server(|sent|, req), now);
      if a.Again? {
        PollRunExtends(cfg, server, pollingId, now, i + 1, a.state, sent + [req], notified,
                       slept + [POLLING_WAIT_TIME] + [POLLING_WAIT_TIME]);
      }
      PollRunExtendsStep(cfg, server, pollingId, now, i, st, sent, notified, slept);
    }
  }

  /** `startPolling(pollingId)`: the whole loop. */
  function StartPollingSpec(cfg: Config, st: State, server: (nat, Request) -> Exchange, k: nat,
                            pollingId: string, now: int): Effect<()>
  {
    PollFrom(cfg, st, server, k, pollingId, now, 0)
  }

  lemma LastReplyShift(server: (nat, Request) -> Exchange, k: nat, req: Request, rest: seq<Request>)
    requires rest != []
    ensures LastReply(server, k, [req] + rest) == LastReply(server, k + 1, rest)
  {
    assert ([req] + rest)[|rest|] == rest[|rest| - 1];
  }

  /** The reply to the n-th request of `sent`, the first of which was the k-th request. */
  function ReplyAt(server: (nat, Request) -> Exchange, k: nat, sent: seq<Request>, n: nat): Exchange
    requires n < |sent|
  {
    server(k + n, sent[n])
  }

  /**
   * Every polling request asks about the same polling id at the polling
   * endpoint, and only a 202 lets the loop send another one.
   */
  lemma {:induction false} PollingRequests(cfg: Config, st: State, server: (nat, Request) -> Exchange, k: nat,
                                           pollingId: string, now: int, i: nat, e: Effect<()>)
    requires i <= MAX_POLLING_TRIES && e == PollFrom(cfg, st, server, k, pollingId, now, i)
    ensures forall n :: 0 <= n < |e.sent| ==>
              e.sent[n].body == PollingBody(cfg.device_type, cfg.email, pollingId)
              && e.sent[n].url == cfg.base_url + "/" + AUTH_POLLING_ENDPOINT
    ensures forall n: nat :: n < |e.sent| - 1 ==> Answered(ReplyAt(server, k, e.sent, n), ACCEPTED)
    decreases MAX_POLLING_TRIES - i
  {
    if i < MAX_POLLING_TRIES {
      var req := PollingRequest(cfg, st, pollingId);
      var attempt := PollAttempt(st, server(k, req), now);
      if attempt.Again? {
        var rest := PollFrom(cfg, attempt.state, server, k + 1, pollingId, now, i + 1);
        PollingRequests(cfg, attempt.state, server, k + 1, pollingId, now, i + 1, rest);
        assert e.sent == [req] + rest.sent;
        forall n | 0 <= n < |e.sent|
          ensures e.sent[n].body == PollingBody(cfg.device_type, cfg.email, pollingId)
          ensures e.sent[n].url == cfg.base_url + "/" + AUTH_POLLING_ENDPOINT
        {
          if n > 0 { assert e.sent[n] == rest.sent[n - 1]; }
        }
        forall n: nat | n < |e.sent| - 1
          ensures Answered(ReplyAt(server, k, e.sent, n), ACCEPTED)
        {
          if n > 0 {
            assert ReplyAt(server, k, e.sent, n) == ReplyAt(server, k + 1, rest.sent, n - 1);
          }
        }
      } else {
        assert e.sent == [req];
      }
    }
  }

  /**
   * How the loop ends is decided by the last reply: a 200 logs in with the
   * tokens and user id of that reply, a 429 is the rate-limit APIError, a
   * rejected fetch is passed on, any other status but 202 is a LoginError, and
   * only a run of attempts answered 202 up to the last try is the polling
   * timeout.
   */
  lemma {:induction false} PollingVerdict(cfg: Config, st: State, server: (nat, Request) -> Exchange, k: nat,
                                          pollingId: string, now: int, i: nat, e: Effect<()>)
    requires i <= MAX_POLLING_TRIES && e == PollFrom(cfg, st, server, k, pollingId, now, i)
    ensures !TimedOut(e) ==> e.sent != [] && !Answered(LastReply(server, k, e.sent), ACCEPTED)
    ensures TimedOut(e) <==>
              |e.sent| == MAX_POLLING_TRIES - i && (e.sent == [] || Answered(LastReply(server, k, e.sent), ACCEPTED))
    ensures e.result.Ok? <==> e.sent != [] && Answered(LastReply(server, k, e.sent), OK)
    ensures e.result.Ok? ==> e.state.auth == Some(LoggedIn(LastReply(server, k, e.sent).response.body, now))
    ensures e.sent != [] && Answered(LastReply(server, k, e.sent), TOO_MANY_REQUESTS) ==>
              e.result == Err(APIError(Http(TOO_MANY_REQUESTS), TOO_MANY_REQUESTS_MESSAGE))
    ensures e.sent != [] && LastReply(server, k, e.sent).Delivered? &&
            LastReply(server, k, e.sent).response.status !in {OK, ACCEPTED, TOO_MANY_REQUESTS} ==>
              e.result == Err(LoginErrorFromResponse(LastReply(server, k, e.sent).response))
    ensures e.sent != [] && LastReply(server, k, e.sent).Failed? ==>
              e.result == Err(TransportError(LastReply(server, k, e.sent).reason))
    decreases MAX_POLLING_TRIES - i
  {
    if i < MAX_POLLING_TRIES {
      var req := PollingRequest(cfg, st, pollingId);
      var attempt := PollAttempt(st, server(k, req), now);
      if attempt.Again? {
        var rest := PollFrom(cfg, attempt.state, server, k + 1, pollingId, now, i + 1);
        PollingVerdict(cfg, attempt.state, server, k + 1, pollingId, now, i + 1, rest);
        assert e.sent == [req] + rest.sent;
        if rest.sent != [] {
          LastReplyShift(server, k, req, rest.sent);
        }
      } else {
        assert e.sent == [req];
      }
    }
  }

  /**
   * The loop waits twice for every attempt answered 202 and for nothing else:
   * twice per request, less the last request unless the loop ran out of tries.
   */
  lemma {:induction false} PollingWaits(cfg: Config, st: State, server: (nat, Request) -> Exchange, k: nat,
                                        pollingId: string, now: int, i: nat, e: Effect<()>)
    requires i <= MAX_POLLING_TRIES && e == PollFrom(cfg, st, server, k, pollingId, now, i)
    ensures forall n :: 0 <= n < |e.slept| ==> e.slept[n] == POLLING_WAIT_TIME
    ensures |e.slept| == 2 * |e.sent| - (if TimedOut(e) then 0 else 2)
    decreases MAX_POLLING_TRIES - i
  {
    if i < MAX_POLLING_TRIES {
      var req := PollingRequest(cfg, st, pollingId);
      var attempt := PollAttempt(st, server(k, req), now);
      if attempt.Again? {
        var rest := PollFrom(cfg, attempt.state, server, k + 1, pollingId, now, i + 1);
        PollingWaits(cfg, attempt.state, server, k + 1, pollingId, now, i + 1, rest);
        assert e.slept == [POLLING_WAIT_TIME, POLLING_WAIT_TIME] + rest.slept;
        forall n | 0 <= n < |e.slept|
          ensures e.slept[n] == POLLING_WAIT_TIME
        {
          if n >= 2 { assert e.slept[n] == rest.slept[n - 2]; }
        }
      }
    }
  }

  /**
   * When the server keeps answering 202, polling posts every remaining
   * attempt, waits twice per attempt, never logs in and ends in the polling
   * timeout.
   */
  lemma PollingAllAccepted(cfg: Config, st: State, server: (nat, Request) -> Exchange, k: nat,
                           pollingId: string, now: int, i: nat, e: Effect<()>)
    requires i <= MAX_POLLING_TRIES && e == PollFrom(cfg, st, server, k, pollingId, now, i)
    requires forall n: nat, req: Request :: k <= n < k + MAX_POLLING_TRIES - i ==> Answered(server(n, req), ACCEPTED)
    ensures TimedOut(e) && |e.sent| == MAX_POLLING_TRIES - i
    ensures e.slept == seq(2 * (MAX_POLLING_TRIES - i), _ => POLLING_WAIT_TIME)
    ensures e.notified == [] && e.state.auth == st.auth
  {
    PollingVerdict(cfg, st, server, k, pollingId, now, i, e);
    PollingWaits(cfg, st, server, k, pollingId, now, i, e);
  }

  // ---------------------------------------------------------------------------
  // `authByEmail`

  function AuthByEmailRequest(cfg: Config, st: State): Request {
    RequestFor(cfg, st, AUTH_BY_EMAIL_ENDPOINT, AuthByEmailBody(cfg.device_type, cfg.email))
  }

  function AuthByEmailSpec(cfg: Config, st: State, server: (nat, Request) -> Exchange, k: nat, now: int): (e: Effect<()>)
    ensures st.auth.Some? ==> e == Effect(Err(SessionError(SESSION_ACTIVE_MESSAGE)), st, [], [], [])
    ensures st.auth.None? ==> e.sent != [] && e.sent[0] == AuthByEmailRequest(cfg, st)
    ensures |e.sent| <= 1 + MAX_POLLING_TRIES
    ensures e.result.Ok? ==> e.state.auth.Some? && e.notified == [WithCookie(e.state.auth.value, e.state.cookie)]
    ensures e.result.Err? ==> e.state.auth == st.auth && e.notified == []
  {
    if st.auth.Some? then Effect(Err(SessionError(SESSION_ACTIVE_MESSAGE)), st, [], [], [])
    else
      var req := AuthByEmailRequest(cfg, st);
      var x := server(k, req);
      var st' := st.(cookie := Jar(st.cookie, x));
      match x
      case Failed(reason) => Effect(Err(TransportError(reason)), st', [req], [], [])
      case Delivered(resp) =>
        if resp.status == OK then
          if resp.body.state == Some(TERMS_STATE) then
            Effect(Err(PollingError(NotLinkedMessage(cfg.email))), st', [req], [], [])
          else if resp.body.state == Some(WAIT_STATE) then
            var p := StartPollingSpec(cfg, st', server, k + 1, resp.body.polling_id, now);
            Effect(p.result, p.state, [req] + p.sent, p.notified, p.slept)
          else
            Effect(Err(LoginErrorFromResponse(resp)), st', [req], [], [])
        else if resp.status == TOO_MANY_REQUESTS then
          Effect(Err(APIError(Http(TOO_MANY_REQUESTS), TOO_MANY_REQUESTS_MESSAGE)), st', [req], [], [])
        else
          Effect(Err(LoginErrorFromResponse(resp)), st', [req], [], [])
  }

  /**
   * The first reply decides: "TERMS" is the polling error naming the email,
   * "WAIT" hands over to polling with the returned id, any other state is a
   * LoginError, a 429 is the rate-limit APIError and any other status a
   * LoginError; only the "WAIT" path can log in.
   */
  lemma AuthByEmailClassifies(cfg: Config, st: State, server: (nat, Request) -> Exchange, k: nat, now: int)
    requires st.auth.None?
    ensures var e := AuthByEmailSpec(cfg, st, server, k, now);
            var x := server(k, AuthByEmailRequest(cfg, st));
            var st' := st.(cookie := Jar(st.cookie, x));
            && (x.Failed? ==> e.result == Err(TransportError(x.reason)) && |e.sent| == 1)
            && (Answered(x, OK) && x.response.body.state == Some(TERMS_STATE) ==>
                  e.result == Err(PollingError(NotLinkedMessage(cfg.email))) && |e.sent| == 1)
            && (Answered(x, OK) && x.response.body.state == Some(WAIT_STATE) ==>
                  var p := StartPollingSpec(cfg, st', server, k + 1, x.response.body.polling_id, now);
                  e.sent[1..] == p.sent && e.result == p.result && e.state == p.state
                  && e.notified == p.notified && e.slept == p.slept)
            && (Answered(x, OK) && x.response.body.state !in {Some(TERMS_STATE), Some(WAIT_STATE)} ==>
                  e.result == Err(LoginErrorFromResponse(x.response)) && |e.sent| == 1)
            && (Answered(x, TOO_MANY_REQUESTS) ==>
                  e.result == Err(APIError(Http(TOO_MANY_REQUESTS), TOO_MANY_REQUESTS_MESSAGE)) && |e.sent| == 1)
            && (x.Delivered? && x.response.status !in {OK, TOO_MANY_REQUESTS} ==>
                  e.result == Err(LoginErrorFromResponse(x.response)) && |e.sent| == 1)
            && (e.result.Ok? ==> Answered(x, OK) && x.response.body.state == Some(WAIT_STATE))
  {
    var x := server(k, AuthByEmailRequest(cfg, st));
    if Answered(x, OK) && x.response.body.state == Some(WAIT_STATE) {
      var e := AuthByEmailSpec(cfg, st, server, k, now);
      assert e.sent == [AuthByEmailRequest(cfg, st)] + e.sent[1..];
    }
  }

  /**
   * A login ends in a fresh session: when `authByEmail` succeeds at `now`, the
   * credentials it stored are returned by `getCredentials` at any later time
   * within the token lifetime without a post, and a second `authByEmail` is
   * refused without a post.
   */
  lemma LoginGivesFreshSession(cfg: Config, st: State, server: (nat, Request) -> Exchange, k: nat, now: int,
                               later: int, server': (nat, Request) -> Exchange, k': nat)
    requires st.auth.None?
    requires AuthByEmailSpec(cfg, st, server, k, now).result.Ok?
    requires now <= later < now + cfg.access_token_lifetime * 1000
    ensures var e := AuthByEmailSpec(cfg, st, server, k, now);
            && e.state.auth.Some? && e.state.auth.value.token_refresh_time == now
            && RefreshSpec(cfg, e.state, server', k', later) == Effect(Ok(e.state.auth.value), e.state, [], [], [])
            && AuthByEmailSpec(cfg, e.state, server', k', later)
               == Effect(Err(SessionError(SESSION_ACTIVE_MESSAGE)), e.state, [], [], [])
  {
    var x := server(k, AuthByEmailRequest(cfg, st));
    var st' := st.(cookie := Jar(st.cookie, x));
    AuthByEmailClassifies(cfg, st, server, k, now);
    var p := PollFrom(cfg, st', server, k + 1, x.response.body.polling_id, now, 0);
    PollingVerdict(cfg, st', server, k + 1, x.response.body.polling_id, now, 0, p);
  }

  // ---------------------------------------------------------------------------
  // `signUpByEmail`

  /** The arguments of `signUpByEmail`; `DefaultSignUp` fills in the defaults the signature declares. */
  datatype SignUpForm = SignUpForm(email: string, name: string, countryId: string,
                                   newsletterOptIn: bool, pushNotificationOptIn: bool)

  function DefaultSignUp(email: string): SignUpForm {
    SignUpForm(email, "", "GB", false, true)
  }

  function SignUpRequest(cfg: Config, st: State, form: SignUpForm): Request {
    RequestFor(cfg, st, AUTH_SIGNUP_BY_EMAIL_ENDPOINT,
               SignUpBody(form.countryId, cfg.device_type, form.email, form.name,
                          form.newsletterOptIn, form.pushNotificationOptIn))
  }

  /**
   * `signUpByEmail`: one post, whatever the session; a 200 installs the
   * credentials of `login_response` stamped with `now` and notifies once, any
   * other status is an APIError whose message is the decoded body.
   */
  function SignUpSpec(cfg: Config, st: State, server: (nat, Request) -> Exchange, k: nat, now: int,
                      form: SignUpForm): (e: Effect<AuthInfo>)
    ensures e.sent == [SignUpRequest(cfg, st, form)] && e.slept == []
    ensures var x := server(k, SignUpRequest(cfg, st, form));
            && e.state.cookie == Jar(st.cookie, x)
            && (e.result.Ok? <==> Answered(x, OK))
            && (e.result.Ok? ==>
                  var lr := x.response.body.login_response;
                  && e.result.value == AuthInfo(lr.access_token, lr.refresh_token, lr.user_id, now)
                  && e.state.auth == Some(e.result.value)
                  && e.notified == [WithCookie(e.result.value, e.state.cookie)])
            && (x.Delivered? && x.response.status != OK ==>
                  e.result == Err(APIError(Http(x.response.status), x.response.body.asString)))
            && (x.Failed? ==> e.result == Err(TransportError(x.reason)))
    ensures e.result.Err? ==> e.state.auth == st.auth && e.notified == []
  {
    var req := SignUpRequest(cfg, st, form);
    var x := server(k, req);
    var cookie := Jar(st.cookie, x);
    match x
    case Failed(reason) => Effect(Err(TransportError(reason)), st.(cookie := cookie), [req], [], [])
    case Delivered(resp) =>
      if resp.status == OK then
        var lr := resp.body.login_response;
        var a := AuthInfo(lr.access_token, lr.refresh_token, lr.user_id, now);
        Effect(Ok(a), State(Some(a), cookie), [req], [WithCookie(a, cookie)], [])
      else
        Effect(Err(APIError(Http(resp.status), resp.body.asString)), st.(cookie := cookie), [req], [], [])
  }

  // ---------------------------------------------------------------------------
  // `createOrder` and `abortOrder`

  /** The application-level verdict of an order reply: its body's `state` is "SUCCESS". */
  predicate OrderSucceeded(resp: Response) {
    resp.body.state == Some(SUCCESS_STATE)
  }

  /**
   * The two-level check of `createOrder`: a status other than 200 is an
   * APIError with that status, a 200 whose body state is not "SUCCESS" an
   * APIError carrying the state in place of a status; otherwise the order.
   * Both messages are the body text.
   */
  function CreateOrderCheck(resp: Response): (r: Result<string>)
    ensures r.Ok? <==> resp.status == OK && OrderSucceeded(resp)
    ensures r.Ok? ==> r.value == resp.body.order
    ensures resp.status != OK ==> r == Err(APIError(Http(resp.status), resp.body.text))
    ensures resp.status == OK && !OrderSucceeded(resp) ==> r == Err(APIError(BodyState(resp.body.state), resp.body.text))
  {
    if resp.status != OK then Err(APIError(Http(resp.status), resp.body.text))
    else if resp.body.state != Some(SUCCESS_STATE) then Err(APIError(BodyState(resp.body.state), resp.body.text))
    else Ok(resp.body.order)
  }

  /** The same two-level check in `abortOrder`, which returns the response itself. */
  function AbortOrderCheck(resp: Response): (r: Result<Response>)
    ensures r.Ok? ==> r.value == resp
  {
    if resp.status != OK then Err(APIError(Http(resp.status), resp.body.text))
    else if !OrderSucceeded(resp) then Err(APIError(BodyState(resp.body.state), resp.body.text))
    else Ok(resp)
  }

  /** Both order operations accept and reject the same replies, with the same error. */
  lemma OrderChecksAgree(resp: Response)
    ensures AbortOrderCheck(resp).Ok? <==> CreateOrderCheck(resp).Ok?
    ensures AbortOrderCheck(resp).Err? ==> AbortOrderCheck(resp).error == CreateOrderCheck(resp).error
  {
  }

  /**
   * An operation that first calls `getRefreshedAuth` and then posts one
   * request built from the resulting state: a refresh failure ends it, and
   * otherwise the reply is judged by `check`.
   */
  function AfterRefresh<T>(cfg: Config, st: State, server: (nat, Request) -> Exchange, k: nat, now: int,
                           path: string, body: Payload, check: Response -> Result<T>): (e: Effect<T>)
    ensures var r := RefreshSpec(cfg, st, server, k, now);
            && (r.result.Err? ==> e == Effect(Err(r.result.error), r.state, r.sent, r.notified, []))
            && (r.result.Ok? ==>
                  var req := RequestFor(cfg, r.state, path, body);
                  var x := server(k + |r.sent|, req);
                  && e.sent == r.sent + [req] && e.notified == r.notified && e.slept == []
                  && e.state == r.state.(cookie := Jar(r.state.cookie, x))
                  && (x.Failed? ==> e.result == Err(TransportError(x.reason)))
                  && (x.Delivered? ==> e.result == check(x.response)))
  {
    var r := RefreshSpec(cfg, st, server, k, now);
    match r.result
    case Err(err) => Effect(Err(err), r.state, r.sent, r.notified, [])
    case Ok(_) =>
      var req := RequestFor(cfg, r.state, path, body);
      var x := server(k + |r.sent|, req);
      var st' := r.state.(cookie := Jar(r.state.cookie, x));
      match x
      case Failed(reason) => Effect(Err(TransportError(reason)), st', r.sent + [req], r.notified, [])
      case Delivered(resp) => Effect(check(resp), st', r.sent + [req], r.notified, [])
  }

  function CreateOrderPath(item_id: int): string {
    ORDER_CREATE_ENDPOINT + "/" + IntString(item_id)
  }

  /** The create path is the create endpoint, a slash, then the item id spelled so that it reads back as the id. */
  lemma CreateOrderPathNamesItem(item_id: int)
    ensures var path := CreateOrderPath(item_id);
            && |path| > |ORDER_CREATE_ENDPOINT| + 1
            && path[..|ORDER_CREATE_ENDPOINT| + 1] == ORDER_CREATE_ENDPOINT + "/"
            && (item_id >= 0 ==> var id := path[|ORDER_CREATE_ENDPOINT| + 1..];
                                 AllDigits(id) && DigitsValue(id) == item_id)
  {
    IntStringValue(item_id);
    var path := CreateOrderPath(item_id);
    assert path[|ORDER_CREATE_ENDPOINT| + 1..] == IntString(item_id);
  }

  /**
   * `ORDER_ABORT_ENDPOINT.replace("{}", orderId)`, written out as the text
   * around the placeholder and the expanded id (`AbortOrderPathIsReplace`).
   */
  function AbortOrderPath(orderId: string): string {
    "order/v7/" + Substitution(orderId, "{}", "order/v7/", "/abort") + "/abort"
  }

  /** `createOrder(item_id, item_count)`. */
  function CreateOrderSpec(cfg: Config, st: State, server: (nat, Request) -> Exchange, k: nat, now: int,
                           item_id: int, item_count: int): Effect<string>
  {
    AfterRefresh(cfg, st, server, k, now, CreateOrderPath(item_id), CreateOrderBody(item_count), CreateOrderCheck)
  }

  /** `abortOrder(orderId)`, always with cancel reason 1. */
  function AbortOrderSpec(cfg: Config, st: State, server: (nat, Request) -> Exchange, k: nat, now: int,
                          orderId: string): Effect<Response>
  {
    AfterRefresh(cfg, st, server, k, now, AbortOrderPath(orderId), AbortOrderBody(1), AbortOrderCheck)
  }

  /** The abort endpoint is `order/v7/`, the placeholder, then `/abort`, and has no earlier `{}`. */
  lemma AbortEndpointShape()
    ensures ORDER_ABORT_ENDPOINT == "order/v7/" + "{}" + "/abort"
    ensures OccursAt(ORDER_ABORT_ENDPOINT, "{}", 9)
    ensures forall j: nat :: j < 9 ==> !OccursAt(ORDER_ABORT_ENDPOINT, "{}", j)
  {
    var s := ORDER_ABORT_ENDPOINT;
    assert s[9..11] == "{}";
    forall j: nat | j < 9
      ensures !OccursAt(s, "{}", j)
    {
      assert s[j] != '{';
    }
  }

  /**
   * The abort path is the endpoint template with its placeholder replaced by
   * the order id, `$` patterns expanded against the template.
   */
  lemma AbortOrderPathIsReplace(orderId: string)
    ensures AbortOrderPath(orderId) == ReplaceFirst(ORDER_ABORT_ENDPOINT, "{}", orderId)
  {
    AbortEndpointShape();
    var s := ORDER_ABORT_ENDPOINT;
    FindFirstAt(s, "{}", 9);
    assert s[..9] == "order/v7/";
    assert s[11..] == "/abort";
  }

  /** An order id without a dollar sign takes the place of the `{}` as it is. */
  lemma AbortOrderPathNamesOrder(orderId: string)
    requires '$' !in orderId
    ensures AbortOrderPath(orderId) == "order/v7/" + orderId + "/abort"
  {
    SubstitutionWithoutDollar(orderId, "{}", "order/v7/", "/abort");
  }

  /** An order id `$&` puts the placeholder back: the path is the endpoint template itself. */
  lemma AbortOrderPathRestoresPlaceholder(orderId: string)
    requires |orderId| == 2 && orderId[0] == '$' && orderId[1] == '&'
    ensures AbortOrderPath(orderId) == ORDER_ABORT_ENDPOINT
  {
    assert Substitution(orderId, "{}", "order/v7/", "/abort") == "{}" by {
      SubstitutionPattern(orderId, "{}", "order/v7/", "/abort");
      assert Substitution(orderId[2..], "{}", "order/v7/", "/abort") == [];
    }
    AbortEndpointShape();
  }

  /** An order id `$'` repeats the rest of the endpoint in place of the id. */
  lemma AbortOrderPathRepeatsSuffix(orderId: string)
    requires |orderId| == 2 && orderId[0] == '$' && orderId[1] == '\''
    ensures AbortOrderPath(orderId) == "order/v7/" + "/abort" + "/abort"
  {
    assert Substitution(orderId, "{}", "order/v7/", "/abort") == "/abort" by {
      SubstitutionPattern(orderId, "{}", "order/v7/", "/abort");
      assert Substitution(orderId[2..], "{}", "order/v7/", "/abort") == [];
    }
  }

  /**
   * Without a session the order operations post nothing and fail with the
   * no-session error; with a fresh token they post exactly the order request
   * and succeed only on a 200 whose body state is "SUCCESS", returning the
   * order.
   */
  lemma CreateOrderOutcome(cfg: Config, st: State, server: (nat, Request) -> Exchange, k: nat, now: int,
                           item_id: int, item_count: int)
    ensures var e := CreateOrderSpec(cfg, st, server, k, now, item_id, item_count);
            && (st.auth.None? ==> e.result == Err(SessionError(NO_SESSION_MESSAGE)) && e.sent == [])
            && (st.auth.Some? && !Expired(cfg, st, now) ==>
                  var req := RequestFor(cfg, st, CreateOrderPath(item_id), CreateOrderBody(item_count));
                  var x := server(k, req);
                  && e.sent == [req]
                  && (e.result.Ok? <==> Answered(x, OK) && OrderSucceeded(x.response))
                  && (e.result.Ok? ==> e.result.value == x.response.body.order)
                  && (Answered(x, OK) && !OrderSucceeded(x.response) ==>
                        e.result == Err(APIError(BodyState(x.response.body.state), x.response.body.text))))
  {
  }
}

/**
 * `TgtgClient` (src/client.ts) as a class: the configuration is fixed at
 * construction, `auth` and `cookie` change as the operations run, and two
 * ghost logs record the `didSessionChange` notifications and the waits of the
 * polling loop. The requests go out through a `Network`, which logs them.
 *
 * Every operation is proved to do exactly what its function in module
 * Protocol says: same result, same new state, same requests in the same
 * order, same notifications and waits (`Follows`).
 */
module Client {
  import opened Wrappers
  import opened Text
  import opened Fetch
  import opened Exceptions
  import opened Protocol

  class TgtgClient {
    const email: string
    const base_url: string
    const apk_version: string
    const user_agent: string
    const language: string
    const timeout: Option<int>
    const access_token_lifetime: int
    const device_type: string
    const net: Network

    var auth: Option<AuthInfo>
    var cookie: Option<string>

    /** The sessions handed to `didSessionChange`, oldest first. */
    ghost var notified: seq<Session>
    /** The waits of the polling loop, in milliseconds, oldest first. */
    ghost var slept: seq<nat>

    function Settings(): Config {
      Config(email, base_url, apk_version, user_agent, language, timeout, access_token_lifetime, device_type)
    }

    function Snapshot(): State
      reads this
    {
      State(auth, cookie)
    }

    /**
     * The call returned `r` and moved the client, the network and the logs
     * exactly as `e` says, starting from the given logs.
     */
    ghost predicate Follows<T>(r: Result<T>, e: Effect<T>, sent0: seq<Request>, notified0: seq<Session>,
                               slept0: seq<nat>)
      reads this, net
    {
      && r == e.result
      && Snapshot() == e.state
      && net.sent == sent0 + e.sent
      && notified == notified0 + e.notified
      && slept == slept0 + e.slept
    }

    /**
     * `new TgtgClient(init, options)`; `randomPick` stands for the index
     * `randomArray` draws when no user agent is given.
     */
    constructor (init: Init, options: Options, randomPick: nat, net: Network)
      requires randomPick < |DEFAULT_USER_AGENTS|
      ensures Settings() == Configure(init.email, options, DEFAULT_USER_AGENTS[randomPick])
      ensures Snapshot() == InitialState(init)
      ensures this.net == net && notified == [] && slept == []
    {
      email := init.email;
      match init.session {
        case None =>
          auth := None;
          cookie := None;
        case Some(s) =>
          auth := Some(AuthInfo(s.access_token, s.refresh_token, s.user_id, s.token_refresh_time));
          cookie := s.cookie;
      }
      base_url := options.base_url.GetOr(BASE_URL);
      apk_version := DEFAULT_APK_VERSION;
      user_agent := options.user_agent.GetOr(DEFAULT_USER_AGENTS[randomPick]);
      language := options.language.GetOr(DEFAULT_LANGUAGE);
      timeout := options.timeout;
      access_token_lifetime := options.access_token_lifetime.GetOr(DEFAULT_ACCESS_TOKEN_LIFETIME);
      device_type := options.device_type.GetOr(DEFAULT_DEVICE_TYPE);
      this.net := net;
      notified := [];
      slept := [];
    }

    /**
     * `post(path, data)`: sends the request built from the current state and
     * keeps a non-empty `Set-Cookie` of the reply.
     */
    method Post(path: string, body: Payload) returns (x: Exchange)
      modifies this, net
      ensures var req := RequestFor(Settings(), old(Snapshot()), path, body);
              && x == net.server(|old(net.sent)|, req)
              && net.sent == old(net.sent) + [req]
      ensures auth == old(auth) && cookie == Jar(old(cookie), x)
      ensures notified == old(notified) && slept == old(slept)
    {
      var headers := HeaderFields(language, ReplaceFirst(user_agent, "{}", apk_version), None, None);
      if cookie.Some? && cookie.value != "" {
        headers := headers.(cookie := cookie);
      }
      if auth.Some? {
        headers := headers.(authorization := Some("Bearer " + auth.value.access_token));
      }
      var signal := None;
      if timeout.Some? && timeout.value != 0 {
        signal := timeout;
      }
      assert headers == Headers(Settings(), Snapshot());
      var req := Request(base_url + "/" + path, headers, body, signal);
      assert req == RequestFor(Settings(), Snapshot(), path, body);
      x := net.Fetch(req);
      if x.Delivered? && x.response.setCookie.Some? && x.response.setCookie.value != "" {
        cookie := x.response.setCookie;
      }
    }

    /** `getRefreshedAuth()` at clock reading `now`. */
    method GetRefreshedAuth(now: int) returns (r: Result<AuthInfo>)
      modifies this, net
      ensures Follows(r, RefreshSpec(Settings(), old(Snapshot()), net.server, |old(net.sent)|, now),
                      old(net.sent), old(notified), old(slept))
    {
      if auth.None? {
        return Err(SessionError(NO_SESSION_MESSAGE));
      }
      var a := auth.value;
      if now - a.token_refresh_time >= access_token_lifetime * 1000 {
        var x := Post(AUTH_REFRESH_ENDPOINT, RefreshBody(a.refresh_token));
        match x {
          case Failed(reason) =>
            return Err(TransportError(reason));
          case Delivered(resp) =>
            if resp.status == OK {
              a := a.(access_token := resp.body.access_token, refresh_token := resp.body.refresh_token,
                      token_refresh_time := now);
              auth := Some(a);
              notified := notified + [WithCookie(a, cookie)];
            } else {
              return Err(APIError(Http(resp.status), resp.body.text));
            }
        }
      }
      return Ok(a);
    }

    /** `getCredentials()`: the refreshed credentials. */
    method GetCredentials(now: int) returns (r: Result<AuthInfo>)
      modifies this, net
      ensures Follows(r, RefreshSpec(Settings(), old(Snapshot()), net.server, |old(net.sent)|, now),
                      old(net.sent), old(notified), old(slept))
    {
      r := GetRefreshedAuth(now);
    }

    /**
     * The body of the polling loop up to its final wait: one post, then the
     * reply decides. A 202 waits once and goes on; a 200 logs in with the
     * reply's credentials stamped `now` and notifies; a 429, any other status
     * or a rejected fetch ends the loop with its error.
     */
    method PollOnce(pollingId: string, now: int) returns (again: bool, r: Result<()>)
      modifies this, net
      ensures var req := PollingRequest(Settings(), old(Snapshot()), pollingId);
              var a := PollAttempt(old(Snapshot()), net.server(|old(net.sent)|, req), now);
              && net.sent == old(net.sent) + [req]
              && again == a.Again? && Snapshot() == a.state
              && (again ==> notified == old(notified) && slept == old(slept) + [POLLING_WAIT_TIME])
              && (!again ==> r == a.result && notified == old(notified) + a.notified && slept == old(slept))
    {
      var x := Post(AUTH_POLLING_ENDPOINT, PollingBody(device_type, email, pollingId));
      again, r := false, Ok(());
      if x.Delivered? && x.response.status == ACCEPTED {
        slept := slept + [POLLING_WAIT_TIME];
        again := true;
      } else if x.Delivered? && x.response.status == OK {
        var a := AuthInfo(x.response.body.access_token, x.response.body.refresh_token,
                          x.response.body.user_id, now);
        auth := Some(a);
        notified := notified + [WithCookie(a, cookie)];
      } else if x.Delivered? && x.response.status == TOO_MANY_REQUESTS {
        r := Err(APIError(Http(TOO_MANY_REQUESTS), TOO_MANY_REQUESTS_MESSAGE));
      } else if x.Delivered? {
        r := Err(LoginErrorFromResponse(x.response));
      } else {
        r := Err(TransportError(x.reason));
      }
    }

    /** `startPolling(pollingId)`, with `now` the clock reading at login. */
    method StartPolling(pollingId: string, now: int) returns (r: Result<()>)
      modifies this, net
      ensures Follows(r, PollFrom(Settings(), old(Snapshot()), net.server, |old(net.sent)|, pollingId, now, 0),
                      old(net.sent), old(notified), old(slept))
    {
      ghost var run := PollRun(Settings(), net.server, pollingId, now, 0, Snapshot(), net.sent, notified, slept);
      PollRunExtends(Settings(), net.server, pollingId, now, 0, Snapshot(), net.sent, notified, slept);
      var i := 0;
      while i < MAX_POLLING_TRIES
        invariant i <= MAX_POLLING_TRIES
        invariant run == PollRun(Settings(), net.server, pollingId, now, i, Snapshot(), net.sent, notified, slept)
      {
        PollRunStep(Settings(), net.server, pollingId, now, i, Snapshot(), net.sent, notified, slept);
        var again;
        again, r := PollOnce(pollingId, now);
        if !again {
          return;
        }
        slept := slept + [POLLING_WAIT_TIME];
        i := i + 1;
      }
      r := Err(PollingError(MaxRetriesMessage()));
    }

    /** `authByEmail()`, with `now` the clock reading at login. */
    method AuthByEmail(now: int) returns (r: Result<()>)
      modifies this, net
      ensures Follows(r, AuthByEmailSpec(Settings(), old(Snapshot()), net.server, |old(net.sent)|, now),
                      old(net.sent), old(notified), old(slept))
    {
      if auth.Some? {
        return Err(SessionError(SESSION_ACTIVE_MESSAGE));
      }
      ghost var sent0, st0 := net.sent, Snapshot();
      var x := Post(AUTH_BY_EMAIL_ENDPOINT, AuthByEmailBody(device_type, email));
      ghost var req := AuthByEmailRequest(Settings(), st0);
      match x {
        case Failed(reason) =>
          r := Err(TransportError(reason));
        case Delivered(resp) =>
          if resp.status == OK {
            if resp.body.state == Some(TERMS_STATE) {
              r := Err(PollingError(NotLinkedMessage(email)));
            } else if resp.body.state == Some(WAIT_STATE) {
              ghost var p := PollFrom(Settings(), Snapshot(), net.server, |net.sent|, resp.body.polling_id, now, 0);
              r := StartPolling(resp.body.polling_id, now);
              AppendAssociates(sent0, [req], p.sent);
            } else {
              r := Err(LoginErrorFromResponse(resp));
            }
          } else if resp.status == TOO_MANY_REQUESTS {
            r := Err(APIError(Http(TOO_MANY_REQUESTS), TOO_MANY_REQUESTS_MESSAGE));
          } else {
            r := Err(LoginErrorFromResponse(resp));
          }
      }
    }

    /** `signUpByEmail(form...)`, with `now` the clock reading at sign-up. */
    method SignUpByEmail(form: SignUpForm, now: int) returns (r: Result<AuthInfo>)
      modifies this, net
      ensures Follows(r, SignUpSpec(Settings(), old(Snapshot()), net.server, |old(net.sent)|, now, form),
                      old(net.sent), old(notified), old(slept))
    {
      var x := Post(AUTH_SIGNUP_BY_EMAIL_ENDPOINT,
                    SignUpBody(form.countryId, device_type, form.email, form.name,
                               form.newsletterOptIn, form.pushNotificationOptIn));
      match x {
        case Failed(reason) =>
          r := Err(TransportError(reason));
        case Delivered(resp) =>
          if resp.status == OK {
            var lr := resp.body.login_response;
            var a := AuthInfo(lr.access_token, lr.refresh_token, lr.user_id, now);
            auth := Some(a);
            notified := notified + [WithCookie(a, cookie)];
            r := Ok(a);
          } else {
            r := Err(APIError(Http(resp.status), resp.body.asString));
          }
      }
    }

    /** `createOrder(item_id, item_count)`. */
    method CreateOrder(item_id: int, item_count: int, now: int) returns (r: Result<string>)
      modifies this, net
      ensures Follows(r, CreateOrderSpec(Settings(), old(Snapshot()), net.server, |old(net.sent)|, now,
                                         item_id, item_count),
                      old(net.sent), old(notified), old(slept))
    {
      ghost var sent0, refresh := net.sent, RefreshSpec(Settings(), Snapshot(), net.server, |net.sent|, now);
      var refreshed := GetRefreshedAuth(now);
      if refreshed.Err? {
        return Err(refreshed.error);
      }
      ghost var req := RequestFor(Settings(), Snapshot(), CreateOrderPath(item_id), CreateOrderBody(item_count));
      var x := Post(CreateOrderPath(item_id), CreateOrderBody(item_count));
      AppendAssociates(sent0, refresh.sent, [req]);
      match x {
        case Failed(reason) =>
          r := Err(TransportError(reason));
        case Delivered(resp) =>
          if resp.status != OK {
            r := Err(APIError(Http(resp.status), resp.body.text));
          } else if resp.body.state != Some(SUCCESS_STATE) {
            r := Err(APIError(BodyState(resp.body.state), resp.body.text));
          } else {
            r := Ok(resp.body.order);
          }
      }
    }

    /** `abortOrder(orderId)`. */
    method AbortOrder(orderId: string, now: int) returns (r: Result<Response>)
      modifies this, net
      ensures Follows(r, AbortOrderSpec(Settings(), old(Snapshot()), net.server, |old(net.sent)|, now, orderId),
                      old(net.sent), old(notified), old(slept))
    {
      ghost var sent0, refresh := net.sent, RefreshSpec(Settings(), Snapshot(), net.server, |net.sent|, now);
      var refreshed := GetRefreshedAuth(now);
      if refreshed.Err? {
        return Err(refreshed.error);
      }
      ghost var req := RequestFor(Settings(), Snapshot(), AbortOrderPath(orderId), AbortOrderBody(1));
      var x := Post(AbortOrderPath(orderId), AbortOrderBody(1));
      AppendAssociates(sent0, refresh.sent, [req]);
      match x {
        case Failed(reason) =>
          r := Err(TransportError(reason));
        case Delivered(resp) =>
          if resp.status != OK {
            r := Err(APIError(Http(resp.status), resp.body.text));
          } else if resp.body.state != Some(SUCCESS_STATE) {
            r := Err(APIError(BodyState(resp.body.state), resp.body.text));
          } else {
            r := Ok(resp);
          }
      }
    }
  }
}

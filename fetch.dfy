/**
 * What the client exchanges with the server through `fetch`: the requests it
 * builds, the responses it reads, and the network itself, which is not
 * modelled beyond "the k-th request gets some answer".
 */
module Fetch {
  import opened Wrappers

  /** The JSON bodies the client posts, one shape per endpoint modelled here. */
  datatype Payload =
    | RefreshBody(refresh_token: string)
    | AuthByEmailBody(device_type: string, email: string)
    | PollingBody(device_type: string, email: string, request_polling_id: string)
    | SignUpBody(countryId: string, deviceType: string, email: string, name: string,
                 newsletterOptIn: bool, pushNotificationOptIn: bool)
    | CreateOrderBody(item_count: int)
    | AbortOrderBody(cancel_reason_id: int)

  /**
   * The headers a request carries, by field: the language and user agent it
   * always sends, and the cookie and the authorization value it sends only
   * when present. `HeaderMap` spells them out as the header object.
   */
  datatype HeaderFields = HeaderFields(acceptLanguage: string, userAgent: string,
                                       cookie: Option<string>, authorization: Option<string>)

  /** The header object handed to `fetch`: four fixed entries and the language, then the optional two. */
  function HeaderMap(h: HeaderFields): map<string, string> {
    var fixed := map[
      "accept" := "application/json",
      "Accept-Encoding" := "gzip",
      "accept-language" := h.acceptLanguage,
      "content-type" := "application/json; charset=utf-8",
      "user-agent" := h.userAgent];
    var withCookie := if h.cookie.Some? then fixed["Cookie" := h.cookie.value] else fixed;
    if h.authorization.Some? then withCookie["authorization" := h.authorization.value] else withCookie
  }

  /**
   * A POST request: the full URL, the headers, the JSON body and, when a
   * timeout is configured, the number of milliseconds after which the abort
   * signal fires.
   */
  datatype Request = Request(url: string, headers: HeaderFields, body: Payload, abortAfter: Option<int>)

  /** `login_response` of a sign-up reply (`startup_data.user.user_id` is `user_id`). */
  datatype LoginResponse = LoginResponse(access_token: string, refresh_token: string, user_id: string)

  /**
   * The decoded body of a response, reduced to the fields the client reads:
   * `text` is what `response.text()` yields, `asString` what JavaScript makes of
   * the decoded JSON value when it is used as an error message, and `user_id`
   * stands for `startup_data.user.user_id`.
   */
  datatype Body = Body(
    text: string,
    asString: string,
    state: Option<string>,
    polling_id: string,
    access_token: string,
    refresh_token: string,
    user_id: string,
    login_response: LoginResponse,
    order: string)

  /** A response as `fetch` resolves it; `setCookie` is the `Set-Cookie` header, if any. */
  datatype Response = Response(status: nat, statusText: string, setCookie: Option<string>, body: Body)

  /** The outcome of one `fetch`: a response, or a rejection (network failure, timeout abort). */
  datatype Exchange = Delivered(response: Response) | Failed(reason: string)

  /** The server and the wire, seen from the client: `server(k, req)` answers the k-th request. */
  class Network {
    const server: (nat, Request) -> Exchange
    var sent: seq<Request>

    constructor (server: (nat, Request) -> Exchange)
      ensures this.server == server && sent == []
    {
      this.server := server;
      sent := [];
    }

    method Fetch(req: Request) returns (x: Exchange)
      modifies this
      ensures x == server(|old(sent)|, req)
      ensures sent == old(sent) + [req]
    {
      x := server(|sent|, req);
      sent := sent + [req];
    }
  }
}

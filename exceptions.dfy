/**
 * The HTTP status codes and the error kinds the client raises
 * (src/exceptions.ts), plus the two plain failures it can also surface: a
 * JavaScript `Error` with a fixed message and a rejected `fetch`.
 */
module Exceptions {
  import opened Wrappers
  import opened Text
  import opened Fetch

  const OK: nat := 200
  const CREATED: nat := 201
  const ACCEPTED: nat := 202
  const BAD_REQUEST: nat := 400
  const UNAUTHORIZED: nat := 401
  const FORBIDDEN: nat := 403
  const NOT_FOUND: nat := 404
  const TOO_MANY_REQUESTS: nat := 429
  const INTERNAL_SERVER_ERROR: nat := 500

  /**
   * The `statusCode` of an HTTPError: an HTTP status, or, where the order
   * endpoints pass the body's `state` in its place, that state (absent when the
   * body has none).
   */
  datatype StatusCode = Http(code: nat) | BodyState(state: Option<string>)

  datatype Error =
    | APIError(code: StatusCode, message: string)       // TgtgAPIError, an HTTPError
    | LoginError(status: Option<nat>, message: string)   // TgtgLoginError, a FetchError
    | PollingError(message: string)                      // TgtgPollingError
    | SessionError(message: string)                      // a plain Error about the session
    | TransportError(message: string)                    // the rejection of `fetch` itself

  datatype Result<+T> = Ok(value: T) | Err(error: Error)

  /** The `statusCode` property of an error, where its class has one and it is set. */
  function StatusCodeOf(e: Error): (r: Option<StatusCode>)
    ensures r.Some? <==> e.APIError? || (e.LoginError? && e.status.Some?)
    ensures e.APIError? ==> r == Some(e.code)
    ensures e.LoginError? && e.status.Some? ==> r == Some(Http(e.status.value))
  {
    match e
    case APIError(code, _) => Some(code)
    case LoginError(status, _) => if status.Some? then Some(Http(status.value)) else None
    case _ => None
  }

  /** `${status}: ${statusText}`, the message of a FetchError built from a response. */
  function StatusLine(status: nat, statusText: string): string {
    DecimalString(status) + ": " + statusText
  }

  /** Reads a status line back into its status and status text. */
  function ParseStatusLine(m: string): Option<(nat, string)> {
    match FindFirst(m, ": ")
    case None => None
    case Some(i) =>
      if 0 < i && AllDigits(m[..i]) then Some((DigitsValue(m[..i]), m[i + 2..])) else None
  }

  /** The status line keeps both the status and the status text, recoverably. */
  lemma StatusLineRoundTrip(status: nat, statusText: string)
    ensures ParseStatusLine(StatusLine(status, statusText)) == Some((status, statusText))
  {
    var d := DecimalString(status);
    var m := StatusLine(status, statusText);
    assert m[|d|..|d| + 2] == ": ";
    assert OccursAt(m, ": ", |d|);
    forall j: nat | j < |d|
      ensures !OccursAt(m, ": ", j)
    {
      assert m[j] == d[j];
    }
    FindFirstAt(m, ": ", |d|);
    assert m[..|d|] == d;
    assert m[|d| + 2..] == statusText;
    DecimalStringValue(status);
  }

  /** `new TgtgAPIError(statusCode, message)`: keeps both arguments as given. */
  function APIErrorOf(statusCode: StatusCode, message: string): (e: Error)
    ensures e.APIError? && StatusCodeOf(e) == Some(statusCode) && e.message == message
  {
    APIError(statusCode, message)
  }

  /** `new TgtgLoginError(message)`: a FetchError from a string. */
  function LoginErrorFromText(message: string): (e: Error)
    ensures e.LoginError? && StatusCodeOf(e) == None && e.message == message
  {
    LoginError(None, message)
  }

  /** `new TgtgLoginError(response)`: a FetchError from a response. */
  function LoginErrorFromResponse(response: Response): (e: Error)
    ensures e.LoginError? && StatusCodeOf(e) == Some(Http(response.status))
  {
    LoginError(Some(response.status), StatusLine(response.status, response.statusText))
  }

  /** The message of a LoginError built from a response gives back its status and status text. */
  lemma LoginErrorKeepsStatusLine(response: Response)
    ensures ParseStatusLine(LoginErrorFromResponse(response).message) == Some((response.status, response.statusText))
  {
    StatusLineRoundTrip(response.status, response.statusText);
  }

  /** `new TgtgPollingError(message)`: only a message, and of its own kind. */
  function PollingErrorOf(message: string): (e: Error)
    ensures e.message == message && StatusCodeOf(e) == None
    ensures !e.APIError? && !e.LoginError?
  {
    PollingError(message)
  }
}

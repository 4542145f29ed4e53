# TgtgClient session state machine, in Dafny

This project models the session and authentication core of the TypeScript
client for the Too Good To Go API: the `TgtgClient` class of `src/client.ts`
and the error kinds of `src/exceptions.ts`.

The client holds two mutable fields, `auth` (the credentials, or null) and
`cookie` (the one-slot cookie jar). Its operations move it between three
states:

- unauthenticated (`auth` is null);
- pending, inside the polling loop of `startPolling`;
- authenticated, which a token refresh keeps authenticated.

Each move is decided by the HTTP status of a reply (200, 202, 429 or other)
and sometimes by the `state` field of the reply body ("TERMS", "WAIT",
"SUCCESS").

The project has six modules:

- `Wrappers` (wrappers.dfy): `Option`.
- `Text` (text.dfy): the JavaScript string operations the client relies on.
  These are `${n}` for an integer and `String.prototype.replace` with a string
  pattern. `replace` replaces the first occurrence only. It expands the `$`
  patterns of the replacement (`$$`, `$&`, `` $` ``, `$'`), so an order id
  holding them does not reach the abort path as it is.
- `Fetch` (fetch.dfy): the requests the client builds, the replies it reads,
  and `Network`, a class standing for `fetch`. `Network` logs every request
  and answers the k-th request with `server(k, request)`. A reply is either a
  response or a rejection: a network failure, or the abort signal firing.
- `Exceptions` (exceptions.dfy): `HTTPStatus`, and the error kinds as one
  datatype. `APIError` is `TgtgAPIError`, `LoginError` is `TgtgLoginError` and
  `PollingError` is `TgtgPollingError`. Two more failures can reach a caller:
  the plain `Error`s about the session (`SessionError`) and a rejected `fetch`
  (`TransportError`).
- `Protocol` (protocol.dfy): every operation as a pure function. It takes the
  configuration, the session state, the server, the number of requests sent
  so far and the clock reading `now`. It returns an `Effect`, which holds:
  - the outcome and the new state;
  - the requests posted, in order;
  - the sessions handed to `didSessionChange`;
  - the waits of the polling loop.

  The properties of the state machine are proved about these functions.
- `Client` (client.dfy): `TgtgClient` as a class with the `auth` and `cookie`
  fields. Two ghost logs record the `didSessionChange` calls and the waits.
  Each method is proved to do exactly what its `Protocol` function says
  (`Follows`): the same result, state, requests, notifications and waits.
  `startPolling` is a counted loop whose invariant ties the state and the logs
  to the rest of the loop, written as `Protocol.PollRun`.

The caller of each operation supplies the clock reading `now`. Both
`Date.now()` readings of `getRefreshedAuth` are that one instant.

In `src`, a "TERMS" reply to `authByEmail` raises `TgtgPollingError`
(src/client.ts:231-234). The compiled `dist/src/client.js:140` raises
`TgtgLoginError` instead. The model follows `src`.

## Model

| member | source | states |
|---|---|---|
| Text.DecimalString | src/exceptions.ts:28 | `${n}` of a natural number is a non-empty string of digits without a leading zero |
| Text.DecimalStringValue | src/exceptions.ts:28 | reading the decimal digits of `${n}` back gives `n` |
| Text.FindFirst | src/client.ts:150 | a position found for the pattern is an occurrence of it |
| Text.FindFirstIsFirst | src/client.ts:150 | the position found is the earliest occurrence, and none found means the pattern does not occur |
| Text.FindFirstAt | src/client.ts:150 | an occurrence with no earlier one is the position found |
| Text.IntString | src/client.ts:420 | `${i}` for an integer; its meaning is stated by `Text.IntStringValue` |
| Text.IntStringValue | src/client.ts:420 | `${i}` starts with a minus sign iff `i` is negative, and the digits after it read back as the magnitude of `i` |
| Text.Substitution | src/client.ts:454 | the text a replacement stands for in `replace`; stated by `Text.SubstitutionWithoutDollar`, `Protocol.AbortOrderPathRestoresPlaceholder` and `Protocol.AbortOrderPathRepeatsSuffix` |
| Text.SubstitutionWithoutDollar | src/client.ts:454 | a replacement without a dollar sign stands for itself |
| Text.ReplaceFirst | src/client.ts:150 | `replace(p, t)` with a string pattern; its meaning is stated by the two lemmas below |
| Text.ReplaceFirstReplaces | src/client.ts:150 | only the first occurrence of the pattern is replaced, by the expanded replacement, and the rest is kept; without an occurrence the string is unchanged |
| Text.ReplaceFirstLiteral | src/client.ts:150 | a replacement without a dollar sign takes the place of the first occurrence as it is |
| Exceptions.StatusCodeOf | src/exceptions.ts:15-31 | only an HTTPError, or a FetchError built from a response, has a `statusCode`, and it is the one given |
| Exceptions.APIErrorOf | src/exceptions.ts:15-19 | `TgtgAPIError(statusCode, message)` keeps exactly that status code and that message |
| Exceptions.LoginErrorFromText | src/exceptions.ts:24-26 | a `TgtgLoginError` built from a string has that string as its message and no status code |
| Exceptions.LoginErrorFromResponse | src/exceptions.ts:27-30 | a `TgtgLoginError` built from a response carries the response's status as its status code |
| Exceptions.StatusLineRoundTrip | src/exceptions.ts:28 | the message `"<status>: <statusText>"` can be read back into the status and the status text |
| Exceptions.LoginErrorKeepsStatusLine | src/exceptions.ts:27-30 | the message of a `TgtgLoginError` built from a response gives back its status and status text |
| Exceptions.PollingErrorOf | src/exceptions.ts:38 | a `TgtgPollingError` carries only its message, has no status code and is neither of the other two kinds |
| Fetch.Network.Fetch | src/client.ts:176 | `fetch` sends the request, which joins the log, and resolves to the server's answer to the k-th request |
| Protocol.NotLinkedMessage | src/client.ts:233 | the "TERMS" message; it names the email (`Protocol.NotLinkedMessageNamesEmail`) |
| Protocol.NotLinkedMessageNamesEmail | src/client.ts:233 | the not-linked message holds the email right after "This email " |
| Protocol.MaxRetriesMessage | src/client.ts:300-304 | the polling timeout message; the number in it is stated by `Protocol.TotalWaitText` |
| Protocol.TotalWaitText | src/client.ts:300-304 | the number in the polling timeout message is `MAX_POLLING_TRIES * POLLING_WAIT_TIME`, that is 120000 |
| Protocol.WithCookie | src/client.ts:206-209 | `{...auth, cookie}`, the session handed to `didSessionChange`; `Protocol.WithoutCookie` undoes it |
| Protocol.WithoutCookie | src/client.ts:125-128 | splitting a session into credentials and cookie loses nothing: putting them back together gives the session |
| Protocol.Configure | src/client.ts:133-141 | every option left out takes its default: base URL, random user agent, "en-UK", the token lifetime and device type; the timeout is kept as given |
| Protocol.InitialState | src/client.ts:125-129 | with a prior session, `auth` is the session without its cookie and `cookie` is its cookie; without one, both are null |
| Protocol.UserAgent | src/client.ts:150 | the user-agent header; its meaning is stated by the two lemmas below |
| Protocol.Headers | src/client.ts:145-159 | the headers of a request; entry by entry in `Protocol.HeaderObject` |
| Protocol.HeaderObject | src/client.ts:145-159 | `authorization` is present iff a session is held, and is "Bearer " plus the access token; `Cookie` is present iff the cookie is truthy; the user agent and language are always sent; no other header |
| Protocol.UserAgentFillsFirstPlaceholder | src/client.ts:150 | the user agent sent is the template with its first `{}` replaced by the app version, `$` patterns expanded; the configured version "23.6.11" is inserted as it is |
| Protocol.UserAgentWithoutPlaceholder | src/client.ts:150 | a template without `{}` is sent as it is |
| Protocol.RequestFor | src/client.ts:161-173 | the request `post` sends: the URL is the base URL, a slash and the path; the headers are `Headers`; a timeout of 0 sets no abort signal. Stated by `Protocol.NextRequestCarriesNewCookie`, `Protocol.CookieKeptWithoutSetCookie` and `Client.TgtgClient.Post` |
| Protocol.Jar | src/client.ts:178-180 | the one-slot cookie jar; stated by the two lemmas below |
| Protocol.NextRequestCarriesNewCookie | src/client.ts:178-180 | a non-empty `Set-Cookie` becomes the `Cookie` header of the next request, whatever was held before |
| Protocol.CookieKeptWithoutSetCookie | src/client.ts:178-180 | without a non-empty `Set-Cookie` the next request is built from the same cookie |
| Protocol.IsFresh | src/client.ts:194-196 | a token is fresh while its age is below the lifetime in milliseconds; used by `Protocol.RefreshSpec` and `Protocol.RefreshedTokenStaysFresh` |
| Protocol.Expired | src/client.ts:194-196 | a session is held and its token is not fresh; used by `Protocol.RefreshSpec` and `Protocol.CreateOrderOutcome` |
| Protocol.RefreshSpec | src/client.ts:189-217 | no session: the no-session error and no post. Fresh token: `auth` returned unchanged, no post. Expired token and a 200: both tokens replaced together, `token_refresh_time := now`, `user_id` kept, one notification with the cookie. Any other status: APIError with that status and the body text, `auth` unchanged, no notification |
| Protocol.RefreshedTokenStaysFresh | src/client.ts:194-205 | after a successful refresh at `now`, any later call within the lifetime returns the new credentials and posts nothing |
| Protocol.LoggedIn | src/client.ts:273-278 | the credentials of a confirmed login stamped with `now`; stated by `Protocol.PollingVerdict` and `Protocol.LoginGivesFreshSession` |
| Protocol.PollAttempt | src/client.ts:259-295 | one attempt: 202 goes on with `auth` unchanged. 200 stops logged in with the reply's tokens, user id and `now`, and notifies once. 429 stops with the rate-limit APIError; any other status stops with a LoginError from the response; a rejected fetch stops with its error. The cookie jar is updated in every case |
| Protocol.PollFrom | src/client.ts:252-305 | the loop posts at most `MAX_POLLING_TRIES` requests and waits at most twice per request; it notifies only on success, and a failure leaves `auth` as it was |
| Protocol.PollRunExtendsStep | src/client.ts:253-299 | if the loop from the next attempt on appends to the logs what `PollFrom` says, so does the loop from this attempt |
| Protocol.PollRunExtends | src/client.ts:253-299 | running the loop on top of the logs so far appends to them exactly what `PollFrom` describes |
| Protocol.StartPollingSpec | src/client.ts:252-305 | `startPolling`: the loop from the first try; stated by the four lemmas below |
| Protocol.PollingRequests | src/client.ts:253-259 | every polling request goes to the polling endpoint with the same device type, email and polling id, and only a 202 is followed by another request |
| Protocol.PollingVerdict | src/client.ts:259-304 | the last reply decides how the loop ends: 200 logs in with that reply's credentials, 429 is the rate-limit APIError, other statuses are a LoginError, a rejection is passed on; the timeout happens iff all tries were used and each was answered 202 |
| Protocol.PollingWaits | src/client.ts:264-298 | every wait is `POLLING_WAIT_TIME`, and there are two per request, less two when the loop did not time out |
| Protocol.PollingAllAccepted | src/client.ts:253-304 | when every reply is 202, the loop posts every try, waits `2 * MAX_POLLING_TRIES` times, never logs in and ends in the polling timeout |
| Protocol.AuthByEmailSpec | src/client.ts:220-250 | with a session held, the session-active error and no post; otherwise the first request is the login request, at most `1 + MAX_POLLING_TRIES` requests are posted, and a success notifies exactly once |
| Protocol.AuthByEmailClassifies | src/client.ts:229-249 | 200 with "TERMS" is the PollingError naming the email; 200 with "WAIT" hands over to polling with the reply's polling id; 200 with any other state is a LoginError; 429 is the rate-limit APIError; any other status is a LoginError; only "WAIT" can log in |
| Protocol.LoginGivesFreshSession | src/client.ts:220-223 | after a successful login at `now`, credentials are returned within the lifetime without a post, and a second login is refused without a post |
| Protocol.DefaultSignUp | src/client.ts:469-472 | the defaults `signUpByEmail` declares: empty name, "GB", no newsletter, push notifications |
| Protocol.SignUpSpec | src/client.ts:467-501 | one post whatever the session; a 200 installs the credentials of `login_response` stamped `now` and notifies once; any other status is an APIError with that status and the decoded body, leaving `auth` as it was |
| Protocol.CreateOrderCheck | src/client.ts:425-434 | the reply is accepted iff its status is 200 and its body state is "SUCCESS", and then yields the order; a non-200 is an APIError with the status; a 200 without "SUCCESS" is an APIError carrying the body state; both messages are the body text |
| Protocol.AbortOrderCheck | src/client.ts:459-465 | an accepted abort returns the response itself |
| Protocol.OrderChecksAgree | src/client.ts:459-465 | `abortOrder` accepts and rejects exactly the replies `createOrder` does, with the same error |
| Protocol.AfterRefresh | src/client.ts:418-422 | an order operation first runs `getRefreshedAuth` and stops with its failure; otherwise it posts one request from the refreshed state and judges the reply |
| Protocol.CreateOrderSpec | src/client.ts:414-435 | `createOrder`: `AfterRefresh` with the create path and the `item_count` body; stated by `Protocol.CreateOrderOutcome` |
| Protocol.AbortOrderSpec | src/client.ts:450-466 | `abortOrder`: `AfterRefresh` with the abort path and cancel reason 1; its checks agree with `createOrder`'s (`Protocol.OrderChecksAgree`) |
| Protocol.CreateOrderPath | src/client.ts:420 | the create path; stated by `Protocol.CreateOrderPathNamesItem` |
| Protocol.CreateOrderPathNamesItem | src/client.ts:420 | the create path is `order/v7/create/` followed by the item id, whose digits read back as the id |
| Protocol.AbortEndpointShape | src/client.ts:22 | the abort endpoint has exactly one `{}`, between `order/v7/` and `/abort` |
| Protocol.AbortOrderPath | src/client.ts:454 | the abort path; stated by the four lemmas below |
| Protocol.AbortOrderPathIsReplace | src/client.ts:454 | the abort path is `ORDER_ABORT_ENDPOINT.replace("{}", orderId)`, `$` patterns of the id expanded against the endpoint |
| Protocol.AbortOrderPathNamesOrder | src/client.ts:454 | an order id without a dollar sign gives the path `order/v7/<orderId>/abort` |
| Protocol.AbortOrderPathRestoresPlaceholder | src/client.ts:454 | the order id `$&` gives back the endpoint template, `{}` included |
| Protocol.AbortOrderPathRepeatsSuffix | src/client.ts:454 | the order id `$'` gives `order/v7//abort/abort` |
| Protocol.CreateOrderOutcome | src/client.ts:418-434 | without a session nothing is posted and the no-session error is raised; with a fresh token exactly the order request is posted, and the order is returned only on a 200 whose state is "SUCCESS" |
| Client.TgtgClient.constructor | src/client.ts:122-142 | the client starts with the configuration `Configure` gives and the state `InitialState` gives, with nothing notified or waited |
| Client.TgtgClient.Post | src/client.ts:144-183 | the request sent is built from the current state (headers, URL, body, abort signal); `auth` is unchanged and the cookie is updated by the jar |
| Client.TgtgClient.GetRefreshedAuth | src/client.ts:189-218 | follows `RefreshSpec` |
| Client.TgtgClient.GetCredentials | src/client.ts:185-187 | follows `RefreshSpec` |
| Client.TgtgClient.PollOnce | src/client.ts:254-298 | one loop body follows `PollAttempt`: the request is posted, a 202 waits once inside the branch, any other reply ends the loop with the attempt's outcome |
| Client.TgtgClient.StartPolling | src/client.ts:252-305 | the loop follows `PollFrom`, including the second wait at the bottom of each 202 turn |
| Client.TgtgClient.AuthByEmail | src/client.ts:220-250 | follows `AuthByEmailSpec` |
| Client.TgtgClient.SignUpByEmail | src/client.ts:467-501 | follows `SignUpSpec` |
| Client.TgtgClient.CreateOrder | src/client.ts:414-435 | follows `CreateOrderSpec` |
| Client.TgtgClient.AbortOrder | src/client.ts:450-466 | follows `AbortOrderSpec`, whose path is the template's `replace` (`Protocol.AbortOrderPathIsReplace`) |

## Left out

- The other endpoints (`getItems`, `getItem`, `getFavorites`, `setFavorite`, `getActive`, `getInactive`, `getOrderStatus`, the bucket endpoint) are not modelled. They are plain requests built on `post` and `getRefreshedAuth`, which are modelled.
- JSON is not modelled. Bodies are sent as a `Payload` value, and a reply's body is the record of fields the client reads. A body that fails to parse, or lacks a nested field such as `startup_data.user.user_id`, is not modelled.
- The one-use body stream of a response is not modelled. `createOrder` reads `text()` and then `json()` from the same response, and `abortOrder` reads `json()` and then `text()`; the model lets both reads see the body.
- `Math.random` in the constructor is not modelled: the caller passes the index `randomArray` would draw.
- `Date.now()` is the parameter `now`, read once per operation. The waits recorded in the `slept` log do not move the clock, so after a login confirmed by polling, `token_refresh_time` is the time `authByEmail` started; the source reads the clock after the waits (src/client.ts:277), up to 230 seconds later.
- `setTimeout` waits are not modelled: they are entries of the `slept` log.
- The abort timer of `AbortController` is not modelled: the request records the timeout, and a fired abort is a rejected fetch (`TransportError`).
- The `didSessionChange` callback is the `notified` log. A callback that throws or re-enters the client is not modelled.
- `console.log` output is not modelled.
- Concurrency is not modelled. The client runs one operation at a time, with no racing refreshes or overlapping polling loops.
- `getRefreshedAuth` updates the stored `auth` object in place, so an object returned earlier would see the new tokens. The model replaces the value, so this aliasing is not captured.
- The compiled `dist/` files are not modelled. They are an older revision with different polling constants and a different "TERMS" error.
- The timeout message is kept as written: `Max retries (120000 seconds) reached. Try again.`. The number counts milliseconds, although the text says seconds.
- Exceptions.LoginErrorFromResponse: its ensures gives the kind and the status code only. The status and status text are recoverable from the message (`Exceptions.LoginErrorKeepsStatusLine`), although leading zeros are not ruled out: "0200: x" parses to the same pair.
- Protocol.IsFresh: `token_refresh_time` and `access_token_lifetime` are integers, while JavaScript numbers are doubles. A fractional lifetime is not modelled; 1.5 seconds would give a 1500 ms window. A NaN `token_refresh_time` is not modelled either; every comparison with it is false, so the token would never be refreshed.
- Protocol.RequestFor: the timeout is an integer; a fractional timeout, or a NaN one, which is falsy and sets no abort signal, is not modelled.
- Protocol.CreateOrderPath: `item_id` is an integer and `Text.IntString` spells integers only. `${item_id}` for a fractional number (`1.5`) or for a magnitude of 1e21 or more (`1e+21`) is not modelled.

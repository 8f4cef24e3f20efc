# Spotify authorization-code flow: a Dafny model

This project models the token lifecycle of a small Flask server that logs a
user in to the Spotify Web API with the OAuth 2.0 authorization-code grant
(section 4.1 of RFC 6749) and then reads the user's playlists.

The server keeps one process-wide dictionary, `session`. It holds up to three
keys: `access_token`, `refresh_token` and `expires_at`. Three handlers use it:

- `/login` redirects the browser to the authorize endpoint with a fixed query.
- `/callback` reads the redirect back from the authorization server. It answers
  an `error` with a JSON error. It exchanges a `code` at the token endpoint and
  stores the reply in `session`. With neither argument it returns nothing.
- `/playlists` sends a caller without a token to `/login` and a caller with an
  expired token to `/refresh-token`. Otherwise it goes on to the resource call.

`spotify_app.dfy` holds one module, `SpotifyApp`:

- `SessionState` is the dictionary as a value, one `Option` per key.
- `LoginParams`, `Login`, `TokenRequestBody`, `StoreTokensAsWritten`,
  `CallbackResultAsWritten` and `PlaylistsResult` are pure functions that
  specify the handlers as the code behaves.
- `Session` is a class with the three keys as mutable fields. Its methods
  `Callback` and `GetPlaylists` are proved to behave as those functions say.
  `Callback` assigns the three keys one after another, as the code does.
- The code writes the three keys one at a time, so a token reply that lacks a
  field leaves a half-written session (see "## Findings"). `StoreTokens` and
  `CallbackResult` are the corrected, all-or-nothing exchange. They agree with
  the code on every other input.
- `Run` replays a sequence of requests through the corrected exchange. The
  lemmas about it prove that the session is then always exactly what the last
  successful code exchange stored. So in every reachable state of the corrected
  server either no key or all three keys are present.

The clock is an integer parameter `now`, in seconds. The token endpoint's reply
is an input (`Exchange`). It is either a decoded JSON body, whose fields may be
missing, or a failure. The client id and client secret come in as a
`ClientKeys` parameter. The handler's result is a `Response` datatype. An
exception that escapes a handler (Flask then answers with status 500) is
`ServerError`. A handler that returns `None` gives `NoResponse`.

The expiry test at main.py:75 is strict (`now > expires_at`). So a token is
still used at the very second `expires_at` names. It is not refreshed then.

## Model

| member | source | states |
|---|---|---|
| `SpotifyApp.LoginParams` | main.py:33-41 | The authorize query has exactly the keys client_id, response_type, scope, redirect_uri and show_dialog. response_type is "code", scope is the two read scopes, redirect_uri is REDIRECT_URI and show_dialog is true. The client secret is never in it. |
| `SpotifyApp.Login` | main.py:43-45 | /login redirects to AUTH_URL with that query. It takes no session, so it cannot read or change one. |
| `SpotifyApp.TokenRequestBody` | main.py:53-59 | The token request body has exactly the keys code, grant_type, redirect_uri, client_id and client_secret. It carries the callback's code, grant_type "authorization_code", REDIRECT_URI and both client keys. |
| `SpotifyApp.StoreTokensAsWritten` | main.py:64-66 | The three writes as written: they succeed exactly when the reply has all three fields. Each field present before the first missing one is written, and the keys after it keep their old values. A present access token is always written, even when a later lookup raises. |
| `SpotifyApp.StoreTokens` | main.py:64-66 | A complete reply replaces the whole session: both tokens come from the reply and expires_at is now + expires_in. The result always has all three keys. An incomplete reply raises and leaves the session unchanged. |
| `SpotifyApp.CallbackResultAsWritten` | main.py:48-68 | The handler as written. An `error` argument wins even when `code` is present: it yields the JSON error with exactly that value, sends nothing and leaves the session unchanged. Neither argument gives no response and no change. A `code` sends exactly the token request body, unless the call raises before sending. The redirect to /playlists happens exactly when the exchange delivers a complete reply. A partial reply is a server error that leaves the reply's access token written. Every other callback keeps the all-or-none invariant. |
| `SpotifyApp.CallbackResult` | main.py:48-68 | The corrected handler. It has the same error-first, no-argument and request-body behaviour. The redirect to /playlists happens exactly when the exchange delivers a complete reply. Then the session holds the reply's tokens and expires_at = now + expires_in, which is after now when expires_in > 0. Every other code path is a server error with the session unchanged. So the all-or-none invariant is always kept. |
| `SpotifyApp.CallbackAgreesUnlessPartial` | main.py:48-68 | The handler as written and the corrected handler give the same outcome on every callback except one whose reply has an access token but lacks a later field. |
| `SpotifyApp.PartialCallbackBreaksSession` | main.py:61-75 | As written, /callback with code c and a reply with access token T but no refresh token answers with a server error and leaves the empty session holding only T. /playlists then raises. The corrected handler leaves the session empty. |
| `SpotifyApp.PlaylistsResult` | main.py:71-76 | No access token gives a redirect to /login. With a token and an expiry, the handler redirects to /refresh-token exactly when now > expires_at. It fetches with the stored token exactly when now <= expires_at. A token without an expiry raises KeyError. A consistent session never raises. |
| `SpotifyApp.Session.constructor` | main.py:22 | The session starts with no key present. |
| `SpotifyApp.Session.Callback` | main.py:48-68 | The handler on the mutable session, assigning the keys in sequence as main.py:64-66 do. Its new fields, its response and the request it sends are those `CallbackResultAsWritten` gives for the old fields. A consistent session stays consistent after every callback that does not carry a partial reply. |
| `SpotifyApp.Session.GetPlaylists` | main.py:71-76 | The handler returns what `PlaylistsResult` gives for the current fields. It has no modifies clause, so it never writes the session. |
| `SpotifyApp.RunIsLastExchange` | main.py:48-76 | With the corrected exchange, after any sequence of requests the session is exactly what the last successful code exchange stored. Without such an exchange it is the starting session. Nothing from an earlier session survives a new exchange, and no other request writes the session. |
| `SpotifyApp.LastExchangeIsComplete` | main.py:64-66 | A session stored by an exchange has all three keys present. |
| `SpotifyApp.ReachableIsConsistent` | main.py:64-66 | With the corrected exchange, starting from the empty session, every reachable session has none or all of the three keys. An access token is present exactly when some code exchange has succeeded. |
| `SpotifyApp.ReachablePlaylistsNeverRaise` | main.py:72-75 | With the corrected exchange, in every reachable session /playlists never fails on a missing expires_at. |
| `SpotifyApp.WithoutCallbackNothingChanges` | main.py:32-76 | A sequence of /login and /playlists requests leaves the session unchanged. |
| `SpotifyApp.LoginAndExchangeAgree` | main.py:35-59 | The token request repeats the redirect_uri and client_id that the authorize redirect sent. |
| `SpotifyApp.ExchangeOverwritesWholeSession` | main.py:64-66 | A successful exchange has the same outcome whatever the session held before. |
| `SpotifyApp.FreshTokenIsUsed` | main.py:64-76 | Right after a successful exchange at time now, /playlists fetches with the new access token up to and including now + expires_in. After that it redirects to /refresh-token. |
| `SpotifyApp.StoreTokensAgreesOnCompleteReplies` | main.py:64-66 | On a complete reply the corrected writes and the writes as written give the same session. |
| `SpotifyApp.PartialReplyBreaksSession` | main.py:64-75 | As written, a reply with an access token but no refresh token leaves an inconsistent session, and /playlists then raises. The corrected writes leave the session empty, and /playlists redirects to /login. |
| `SpotifyApp.LoginExchangeFetchScenario` | main.py:48-76 | Login, then exchanging code abc123 for T1/R1 with expires_in 3600 at time 1000, stores T1, R1 and 4600. /playlists fetches with T1 at 1000 and at 4600, and redirects to /refresh-token at 4601. |

## Findings

| source | as written | input that shows it | evidently intended | confidence | as-written member | corrected member |
|---|---|---|---|---|---|---|
| main.py:64-66 | The three session keys are written one at a time. A reply without `refresh_token` raises KeyError at line 65 after `access_token` has been written. A reply without `expires_in` raises at line 66 after both tokens are written. | Empty session, token reply `{"access_token": "T", "expires_in": 3600}`: the session then holds only `access_token`. Every later /playlists request raises KeyError on `expires_at` at line 75. | A token reply missing a field is a failed exchange and leaves the session as it was. | not executed; medium. Line 61 as written raises before any write, and Spotify normally sends all three fields. | `SpotifyApp.StoreTokensAsWritten`, `SpotifyApp.CallbackResultAsWritten`, `SpotifyApp.Session.Callback`, `SpotifyApp.PartialReplyBreaksSession`, `SpotifyApp.PartialCallbackBreaksSession` | `SpotifyApp.StoreTokens`, `SpotifyApp.CallbackResult`, `SpotifyApp.Run`, `SpotifyApp.RunIsLastExchange`, `SpotifyApp.ReachableIsConsistent`, `SpotifyApp.ReachablePlaylistsNeverRaise` |

## Left out

- The `/refresh-token` handler and the playlist resource request come after main.py:76 and are not part of this model. The "go on" branch of /playlists is the abstract `FetchPlaylists(token)` result.
- The outbound POST and the JSON decoding at main.py:61-62 are an input, `Exchange`. Line 61 calls `request.post` on Flask's request object instead of `requests.post`, so as written it always raises. The model also lets the exchange deliver a reply, which is what the code evidently means. `Exchange.Unsent` is the call that raises before any request goes out; `Exchange.Failed` is a POST that went out and then failed or returned a body that is not JSON.
- The reply's fields are typed: tokens are strings and `expires_in` is an integer. A reply whose `expires_in` is not a number (TypeError at line 66, after both tokens are written) is not modelled.
- `urllib.parse.urlencode` and the URL text at main.py:43 are library string encoding. Only the query map is modelled.
- `datetime.now().timestamp()` is a floating-point wall clock. It is modelled as an integer `now` in seconds.
- The `spotykeys` module is not part of this model. `CLIENT_ID` and `CLIENT_SECRET` are the `ClientKeys` parameter.
- The static `index` page (main.py:28-29), the Flask app object, route decorators, `redirect` and `jsonify` are framework plumbing. Request arguments are a `map<string, string>` (the first value of a repeated argument).
- Concurrent requests that race on the unsynchronized global `session` are not modelled. Handlers run one after another.
- SpotifyApp.Run: replays requests through the corrected exchange (`CallbackResult`), so its lemmas describe the server once the partial-write defect under "## Findings" is fixed. For the code as written, `SpotifyApp.PartialCallbackBreaksSession` shows a reachable session that breaks the all-or-none invariant.

# twitch-live-telegram-notify, modelled in Dafny

The script polls Twitch for the channels a user follows and sends a Telegram
message once for each live session it has not notified before. This project
models its two pieces of real logic.

1. **The Twitch client's token lifecycle** (`twitch_client`). This covers:
   - loading the token file `.twitch_token.json`;
   - writing a token record stamped with `expires_at = now + expires_in`;
   - exchanging a user-pasted authorization code for a token;
   - refreshing the token;
   - `call`, the authenticated API request that goes round its loop at most twice and refreshes after each 401.

   Module `TwitchClient` describes each operation on values. `Load`, `Persist`, `Exchange`, `Handle`, `Headers`, `Refresh` and `Iterate` each model one operation. `Loop` models the whole retry loop.

   Class `TwitchClient.Client` holds the two mutable pieces of state:
   - `token`, which is `self.token`;
   - `store`, which is the token file.

   Its methods perform the same steps imperatively, and each is proved equal to its function. Module `ClientProperties` proves what those functions promise.
2. **Live-session deduplication** (module `Dedup`). It models `is_processed` and the module-level run loop. That loop:
   - skips entries that are not `live`;
   - notifies and appends `{user_name: user_login, started_at}` for each session whose `started_at` the list does not yet hold;
   - counts the notifications in `p`;
   - writes the list back only when `p > 0`.

   `RunCycle` is proved against `NewSessions`, an independent definition. A candidate is new when it is live and its start time is in neither the list read at start nor an earlier live candidate.

The network, the user and the files are inputs:
- Every answer the token endpoint or the API gives in pass *i* of `call`'s loop, and the code the user pastes in that pass, come from `env(i)`, a `Round`.
- The token file is a `Doc`, classified by what `open` and `json.loads` make of it.
- The processed list is a sequence of `Post`. The followed-streams `data` list is a sequence of `Stream`.
- The clock is an integer `now`.

Behaviours of the code that a reader might not expect, all modelled as written:
- **Missing token file.** A missing file is not "absent": `open` raises FileNotFoundError, and so does `call` (`Doc.Missing`, `Failure.FileNotFound`).
- **Writing the token file.** The write is not all-or-nothing. `update_token` opens the file for writing before it reads `expires_in`. A record without a numeric `expires_in` raises and leaves an empty file, which the next load reads as no token (`PersistRoundTrip`).
- **Second 401.** A second 401 whose refresh succeeds does not raise. The loop ends and `call` returns None. A second 401 whose refresh fails still raises, from `refresh_token` (`TwoUnauthorizedReturnNone`).
- **Where the retry gets its token.** `refresh_token` writes the file but never assigns `self.token`. The retry sends the refreshed token only because the next pass reloads it from the file (`RetryUsesRefreshedToken`, and `Client.RefreshToken`, whose modifies clause names only the file).
- **Deduplication key.** Deduplication compares `started_at` only, never the channel. It also counts items appended earlier in the same run, so one run never notifies two candidates with the same start time (`NewSessionsDistinct`).

## Model

| member | source | states |
|---|---|---|
| `TwitchClient.Load` | twitch-telegram-notify.py:18-27 | A file holding a JSON object gives that object. A file holding another JSON value, or text that does not parse (ValueError), gives None. A missing file raises FileNotFoundError. |
| `TwitchClient.Headers` | twitch-telegram-notify.py:76-80 | KeyError exactly when the token has no `access_token`. Otherwise exactly two headers: `Authorization` is `Bearer ` followed by the access token's text, and `Client-Id` is the client id. |
| `TwitchClient.Client.constructor` | twitch-telegram-notify.py:9-16 | A new client keeps its credentials and starts with the empty token `{}`. The token file is whatever is on disk. |
| `TwitchClient.Client.UpdateToken` | twitch-telegram-notify.py:29-36 | The file is emptied first. Then either the stamped record is written, or KeyError/TypeError is raised with the file left empty (equal to `Persist`). `update_token` itself returns None and stamps the caller's dict in place; the returned map stands for that in-place update, which is how `get_access_token` hands the stamped record back. |
| `TwitchClient.Client.GetAccessToken` | twitch-telegram-notify.py:39-55 | A non-200 answer raises and writes nothing. A 200 answer is written via `update_token` and returned stamped (equal to `Exchange`). |
| `TwitchClient.Client.HandleToken` | twitch-telegram-notify.py:68-74 | Reloads the file. Adopts a non-empty stored object, or else exchanges the user's code and adopts the new token (equal to `Handle`). |
| `TwitchClient.Client.RefreshToken` | twitch-telegram-notify.py:82-94 | Modifies only the file: `self.token` is untouched. Posts the token's `refresh_token`, and raises on non-200 or persists the answer (equal to `Refresh`). |
| `TwitchClient.Client.Call` | twitch-telegram-notify.py:96-118 | The `while retries < 2` loop run step by step. The final token, file, passes and result equal `Loop` from pass 0. |
| `ClientProperties.PersistRoundTrip` | twitch-telegram-notify.py:18-36 | Loading what `update_token` wrote gives the record with `expires_at = now + expires_in` and every other key unchanged. A record without a numeric `expires_in` raises and reads back as no token. |
| `ClientProperties.ExchangeOutcome` | twitch-telegram-notify.py:48-55 | Code exchange: a non-200 answer raises (the exception carries the answer's body) and leaves the file unchanged. On 200, the next load yields the stamped record that is returned. |
| `ClientProperties.HandleAcquiresOnlyWhenUnusable` | twitch-telegram-notify.py:68-74 | A new token is acquired if and only if the load yields None or `{}`. A non-empty stored object is adopted with no exchange. A missing file raises. An acquired token is both adopted and stored. On failure `self.token` keeps its old value. |
| `ClientProperties.RefreshOutcome` | twitch-telegram-notify.py:82-94 | A token without `refresh_token` raises KeyError before posting. Non-200 raises and writes nothing. On 200 the refresh succeeds if and only if `expires_in` is numeric, and the file then loads as the stamped answer. |
| `ClientProperties.ReloadAdoptsRefreshed` | twitch-telegram-notify.py:68-94 | After a successful refresh, the next `handle_token` adopts the refreshed, stamped token without asking for a code. |
| `ClientProperties.PassFacts` | twitch-telegram-notify.py:100-118 | One pass: 200 returns the body with no refresh. 401 refreshes, unless `refresh_token` is missing. Any other status raises with no refresh. The loop goes round again only after a 401 and a refresh answered 200 and written. |
| `ClientProperties.CallReadsTwoRounds` | twitch-telegram-notify.py:98-118 | `call` depends on the outside world only through its first two passes: two scripts that agree on rounds 0 and 1 give the same final state, the same requests and the same result. |
| `ClientProperties.CallBounded` | twitch-telegram-notify.py:98-116 | One or two passes, so at most two API requests. Pass *i*'s request gets round *i*'s status. A second pass happens only after a 401 whose refresh got 200 and was written. |
| `ClientProperties.RefreshFollowsEachUnauthorized` | twitch-telegram-notify.py:113-116 | A pass refreshes if and only if its request got 401, except the last pass of a call that raised KeyError for `refresh_token`. So refreshes equal the 401s seen. |
| `ClientProperties.OkReturnsBody` | twitch-telegram-notify.py:110-111 | A 200 ends the call with that answer's body and no refresh in that pass. Only a 200 makes `call` return a body. |
| `ClientProperties.OtherStatusRaises` | twitch-telegram-notify.py:110-118 | A status other than 200 and 401 raises at once with that answer's body, with no refresh and no further pass. Conversely, in the model an `ApiRejected` raise always comes from such a status; that relies on the status and origin the model attaches to the raise. |
| `ClientProperties.TwoUnauthorizedReturnNone` | twitch-telegram-notify.py:98-118 | `call` returns None only after two 401s, each refreshed with a 200. Two 401s with working refreshes give None, not an exception. A second 401 whose refresh is answered other than 200 raises. |
| `ClientProperties.RetryUsesRefreshedToken` | twitch-telegram-notify.py:100-116 | When there is a retry: the first pass refreshed with the refresh token it had adopted, and the second pass asks for no code. The retry sends `Bearer` plus the refreshed access token, or raises KeyError when the refresh answer had none. |
| `Dedup.IsProcessed` | twitch-telegram-notify.py:154-158 | True if and only if some entry has the candidate's `started_at`. The channel name is never compared. |
| `Dedup.RunCycle` | twitch-telegram-notify.py:175-195 | Notifies exactly `NewSessions`, in input order. The final list is the original list followed by one `{user_login, started_at}` item per notification. `p` equals the notifications and the items appended. Written if and only if `p > 0`. Empty `data` changes and writes nothing. |
| `Dedup.RecordedStartTimes` | twitch-telegram-notify.py:182-192 | After *n* candidates the list holds exactly the original start times plus those of the live candidates seen so far. |
| `Dedup.FreshIffUnseen` | twitch-telegram-notify.py:183-191 | A candidate is notified if and only if it is live and `is_processed` finds no entry with its start time in the list as it stands. That list includes items appended earlier in the run. |
| `Dedup.NewSessionsInOrder` | twitch-telegram-notify.py:182-191 | The notified candidates are the fresh positions, in increasing order. Every fresh position is notified. |
| `Dedup.NewSessionsDistinct` | twitch-telegram-notify.py:183-191 | Every appended item comes from a live candidate that was not processed before the run. The appended start times are pairwise distinct. |
| `Dedup.EveryLiveSessionRecorded` | twitch-telegram-notify.py:182-192 | After a run, `is_processed` finds every live candidate in the list. |
| `Dedup.RerunNotifiesNobody` | twitch-telegram-notify.py:175-195 | A second run over the same candidates, starting from the list the first run left, notifies nobody. |
| `Dedup.ExampleCycle` | twitch-telegram-notify.py:182-195 | With chanA's session already processed and chanB newly live, only chanB is notified, and the list ends with both. |

## Left out

- `prompt_for_code` (lines 57-66) reads the terminal and builds the authorize URL. The code it returns is an input, `Round.code`.
- HTTP through `requests`. URLs, client secret, redirect URI and form encoding of the token endpoint posts are not recorded; only the grant (code or refresh token) and the status are. API answers and token endpoint answers are scripted per pass of the loop.
- Request methods other than GET and POST. With any other method the source leaves `r` unbound; `Verb` has only the two.
- Exceptions from the token endpoint and the API (lines 51, 91 and 118) are `BaseException(r.json())`, which carries only the answer's body. The model's `AuthRejected(status, body)` and `ApiRejected(status, body)` also record the status and which endpoint refused; Python code catching the exception could not tell these apart.
- `TwitchClient.Persist`: a 200 answer body that is not a JSON object is not modelled. A JSON float or boolean `expires_in` is treated as a TypeError, although Python adds those to the clock.
- The clock: `time.time()` is a float read at each write. Here it is one integer `now` per call, so both writes in one call get the same stamp.
- `config()`, `twitch_api` and the top-level calls `get_user` / `get_user_followed_streams` (lines 121-142) are thin pass-throughs and file reads. The model does not capture what happens when the top-level script indexes a None that `call` returned.
- `telegram_push` (lines 145-151) and its message text. Only which candidates are handed to it, and in what order, is modelled (`pushed`). A push that raises ends the script before `update_db`, for example a KeyError on `u['title']` (line 146) or a network error; `RunCycle` assumes every push returns, so its "written if and only if `p > 0`" holds only for runs in which no push raises.
- `get_processed_posts` and `update_db` (lines 161-172) are file I/O and are not modelled. The list read at start is the `processed` argument; the write is the `written` flag together with the final list. A missing or malformed processed file is not modelled.
- `sys.exit(0)` on empty `data` is modelled as returning with nothing changed.
- Concurrent runs racing on the two files: the source has no concurrency logic.

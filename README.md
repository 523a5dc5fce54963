# relay: session store and token refresher, modelled in Dafny

relay keeps osu! OAuth2 tokens alive on behalf of many users. Each user's
session is a JSON record in a Valkey (Redis) store, keyed by a 64-byte session
id and fronted by a process-local cache. A background refresher periodically
scans every session and renews a token whose session has at most four hours to
live, using a refresh-token grant (section 6 of RFC 6749). The renewed record
is written back with its TTL set to the new token's `expires_in`. If the
upstream exchange fails at the transport level, the whole session is deleted.

This project models:

- `storage.dfy`: the session store (`ValkeyStorage`). It is a class holding the
  cache map and the backend map `key -> (text, ttl)`. Its `Get`, `Set` and
  `Remove` methods are specified by pure functions on a `StoreState`.
- `refresher.dfy`: the refresher.
  - The TTL partition loop and the integer jitter window.
  - One renewal (`RefreshSingleToken`), specified by `RefreshEffect`. That
    function is a decision read from the key's own backend entry, then one
    write through the store.
  - The sweep loop and its success/failure tally.
  - `start`/`stop` of the `TokenRefresher` handle.
- `token.dfy`: the access token, its time arithmetic and its JSON form.
- `hex.dfy`: the cookie-key hex codec and the session-id check of `main.rs`.
- `api.dfy`: the `/api/token` handler's answers over a store lookup.
- `middleware.dfy`: the in-flight request counter of the concurrency limiter, including what a handler that unwinds does to it (see Findings).
- `json.dfy`, `wrappers.dfy`: JSON values, records, and Option/Result.

Inputs stand in for I/O:

- The backend's faults are boolean flags.
- The `TTL` probe answers are a sequence aligned with the keys `KEYS *` returned.
- The token endpoint is a function from refresh token to response.
- JSON text parsing and printing are an abstract `TextCodec`.
- The current time is an integer `now`.

The per-key renewal tasks run concurrently in the source. Here they run one
after another, in the order the keys were scheduled. Each renewal reads and
writes its own key only (`RefreshIsLocal`), so two renewals of different keys
give the same result in either order (`UnitsCommute`). Over the distinct keys
`KEYS *` returns (`ScheduledDistinct`), every scheduled key ends the sweep in
the state, and with the outcome, that its own renewal from the sweep's
starting state gives (`RunAllPointwise`). Other renewals neither feed into it
nor overwrite it. The model does not cover an interleaving of two tasks on the
same key, which distinct keys rule out.

Behaviour of the code worth knowing:

- `get` does not fill the cache on a miss.
- A key missing from the backend makes `get` fail with `Other`. The redis
  client cannot turn a nil reply into a `String`. So `get` never reports
  "no session", and a removed session reads as an error, not as absent.
- `expired` is true while the token is still valid (see Findings).
- The jitter window is `total / 50` seconds, not minutes. With 500 keys the
  delays fall in `[0, 10)` seconds (see Findings).
- The token's issue time is the field `ctime`.

## Model

| member | source | states |
|---|---|---|
| `Token.AccessToken.Lifetime` | src/token.rs:28-30 | remaining lifetime is never negative; it is 0 exactly when `ctime + expires_in <= now`, and otherwise `now + lifetime == expires_at` |
| `Token.AccessToken.ObtainedAt` | src/token.rs:16-18 | the issue instant is `ctime`; at that instant the lifetime is the whole `expires_in` (0 if it is not positive) |
| `Token.AccessToken.ExpiresAt` | src/token.rs:20-22 | expiry lies `expires_in` seconds after issue, so at or after issue exactly when `expires_in >= 0` |
| `Token.AccessToken.Expired` | src/token.rs:24-26 | as written, true exactly while some lifetime remains or at the expiry instant itself, i.e. while the token is still valid (see `ExpiredIsInverted`) |
| `Token.AccessToken.IsExpired` | src/token.rs:24-26 | corrected `expired`: true exactly when the lifetime is 0 |
| `Token.LifetimeAtIssue` | src/token.rs:16-30 | at `obtained_at` (= `ctime`) the whole `expires_in` remains, and a non-negative `expires_in` puts `expires_at` at or after `obtained_at` |
| `Token.ExpiredIsInverted` | src/token.rs:24-26 | `expired` as written is true before the expiry instant and false after it: it agrees with the intended test only at `now == expires_at` |
| `Token.ExpiredCounterexample` | src/token.rs:24-26 | a one-hour token with `ctime = 0` reads as expired at time 0 while 3600 s remain |
| `Token.FromJson` | src/token.rs:4-13 | a token is read exactly from an object holding `access_token`, `refresh_token` and `token_type` as strings and `expires_in` as an i32, each token field taken from its JSON field; `ctime` defaults to `now` when absent and must be an i64 when present; other fields are ignored |
| `Token.JsonRoundTrip` | src/token.rs:4-13 | a serialized in-range token deserializes to itself at any time |
| `Token.TokenTextRoundTrip` | src/refresher.rs:202-205 | with a codec that parses back what it prints, an in-range token printed as JSON text parses back to itself at any time |
| `Token.RenewedTokenStampedNow` | src/token.rs:11-12 | an upstream token body without `ctime` is stamped with the current time, so its lifetime then is its whole `expires_in` |
| `Json.RecordRoundTrip` | src/storage.rs:36-37 | with a codec that parses back what it prints, a record that serializes decodes from its text back to itself (the text `set` stores at src/storage.rs:64-69) |
| `Hex.ParseByte` | src/main.rs:43 | a pair of hex digits (either case) parses to `16*hi + lo`; a pair fails exactly when the second character is not a digit or the first is neither a digit nor `+` |
| `Hex.ByteToHex` | src/main.rs:35 | a byte prints as two characters that parse back to it |
| `Hex.Bin2Hex` | src/main.rs:33-38 | output is twice as long as the input, characters `2i` and `2i+1` are the upper-case high and low nibble of byte `i`, and every character is an upper-case hex digit |
| `Hex.Hex2Bin` | src/main.rs:40-45 | on text that does not panic, output has half the length and byte `i` is the value of characters `2i..2i+2` |
| `Hex.WellFormedIff` | src/main.rs:40-45 | `hex2bin` accepts exactly the even-length texts every pair of which parses |
| `Hex.HexRoundTrip` | src/main.rs:33-45 | `hex2bin(bin2hex(b)) == b` for every byte sequence (empty included) |
| `Hex.CanonicalRoundTrip` | src/main.rs:33-45 | for even-length upper-case hex text, `bin2hex(hex2bin(h)) == h` |
| `Hex.NonCanonicalInputs` | src/main.rs:43 | `+F` and `ff` are accepted and print back as `0F` and `FF`, so decoding is not injective |
| `SessionId.VerifySessionId` | src/main.rs:51-53 | the id must be exactly 64 bytes: no id of more than 64 characters passes, and an ASCII id passes exactly when it has 64 characters |
| `SessionId.Utf8LenIsLengthIffAscii` | src/main.rs:51-53 | the byte length `len()` measures equals the character count exactly for ASCII text |
| `SessionId.GeneratedIdsVerify` | src/main.rs:47-53 | every 64-character id over the nanoid alphabet passes `verify_session_id` |
| `SessionId.MultibyteIdRejected` | src/main.rs:51-53 | 64 characters with any non-ASCII one fail the check |
| `Storage.Lookup` | src/storage.rs:27-48 | `get` never yields `Ok(None)`; a cache hit returns the cached record; a miss with a backend fault or missing key is `Other`; otherwise the backend text that decodes gives `Ok(Some(record))` and text that does not gives `InvalidData` |
| `Storage.ReadYourWrite` | src/storage.rs:30-61 | right after `set(k, v)`, `get(k)` returns `v`, whatever the backend write or read does |
| `Storage.UnserializableSetIsCacheOnly` | src/storage.rs:58-68 | a record that fails to serialize is cached and the backend is unchanged |
| `Storage.SetTtlIsWholeSeconds` | src/storage.rs:69 | a written record is stored with `exp.as_secs()` as its TTL, the sub-second part dropped |
| `Storage.WritesAreLocal` | src/storage.rs:58-89 | `set` and `remove` leave every other key as it was, in cache and backend |
| `Storage.RemoveProperties` | src/storage.rs:79-90 | when `DEL` succeeds: after `remove` the key is in neither map and `get` fails; removing an absent key is a no-op; removing twice equals removing once (`FailedDeleteResurfaces` covers a failed `DEL`) |
| `Storage.WrittenRecordSurvivesRestart` | src/storage.rs:27-69 | a record `set` wrote to the backend is read back whole by a process starting with an empty cache, given a codec that parses back what it prints |
| `Storage.FailedDeleteResurfaces` | src/storage.rs:84-87 | when `DEL` fails, a later `get` reads the old record back from the backend |
| `Storage.ValkeyStorage.constructor` | src/storage.rs:18-23 | a new store has an empty cache over the given backend |
| `Storage.ValkeyStorage.Get` | src/storage.rs:27-48 | returns `Lookup` of the current state and changes nothing (the cache is not filled) |
| `Storage.ValkeyStorage.Set` | src/storage.rs:50-77 | always `Ok`; cache gets `key := val`; the backend gets the serialized record with TTL `as_secs` only if it serializes, the write succeeds and the TTL is positive, else stays as it was |
| `Storage.ValkeyStorage.Remove` | src/storage.rs:79-90 | always `Ok`; key removed from the cache, and from the backend unless `DEL` fails |
| `Storage.SetThenGet` | src/storage.rs:30-61 | through the class, `set` then `get` returns the value set |
| `Refresher.Scheduled` | src/refresher.rs:81-88 | no more keys are scheduled than were enumerated |
| `Refresher.ScheduledMembers` | src/refresher.rs:81-88 | a key is scheduled iff some probe for it answered with a TTL `<= 14400` (negative TTLs included; failed probes never) |
| `Refresher.ScheduledAppend` | src/refresher.rs:81-88 | scheduling distributes over concatenation, so scheduled keys keep their enumeration order |
| `Refresher.PartitionExample` | src/refresher.rs:19 | TTLs 100, 14400, 14401, 5 schedule the first, second and fourth keys; TTLs -2, failed, -1 schedule the first and third |
| `Refresher.PartitionByTtl` | src/refresher.rs:77-88 | the push loop builds exactly `Scheduled(keys, probes)` |
| `Refresher.JitterWindow` | src/refresher.rs:172 | the window is `total / 50` rounded down: `50w <= total < 50(w+1)` |
| `Refresher.PickDelay` | src/refresher.rs:173-177 | the delay is 0 when the window is 0, otherwise in `[0, window)` |
| `Refresher.JitterExamples` | src/refresher.rs:18 | under 50 scheduled keys there is no delay; 500 keys give a 10-second window |
| `Refresher.JitterRateAsWritten` | src/refresher.rs:171-172 | as written, 3000 keys spread over 60 seconds, fifty a second; any non-empty window holds at least fifty keys per second of window |
| `Refresher.IntendedJitterWindow` | src/refresher.rs:171-172 | the corrected window in seconds satisfies `50w <= 60 * total < 50(w + 1)`: the keys spread at fifty a minute |
| `Refresher.IntendedJitterExamples` | src/refresher.rs:171-172 | under the corrected window 3000 keys take an hour and 50 keys a minute; no more than fifty keys per started minute of the window |
| `Refresher.RefreshIsLocal` | src/refresher.rs:164-214 | a renewal leaves every other key unchanged |
| `Refresher.UnitsCommute` | src/refresher.rs:102-112 | renewals of two different keys give the same store and outcomes in either order |
| `Refresher.MissingTokenIsSkipped` | src/refresher.rs:183 | a record without `token` is left unchanged, the task returns `Ok`, and the result is the same whatever the token endpoint would answer (no call) |
| `Refresher.TransportErrorRemovesSession` | src/refresher.rs:189-199 | a transport error on the grant removes the session through the store and the task returns `Ok`; the key leaves the cache, and when `DEL` succeeds `get` then fails (when it fails, the backend keeps the record) |
| `Refresher.RenewalReplacesOnlyToken` | src/refresher.rs:200-208 | a token answer replaces only the `token` field, keeping every other field; the record is written through the store with TTL = new `expires_in`; this process reads it back |
| `Refresher.UnparseableResponseKeepsSession` | src/refresher.rs:201-202 | a body that is not a token ends the task with an error and changes nothing |
| `Refresher.NegativeExpiryPanics` | src/refresher.rs:203 | a token with negative `expires_in` panics the task before any write |
| `Refresher.RefreshSingleToken` | src/refresher.rs:164-214 | reads the backend directly and writes through the store, with the new state and outcome given by `RefreshEffect` |
| `Refresher.RunAll` | src/refresher.rs:102-125 | one outcome per scheduled key |
| `Refresher.TallyPartition` | src/refresher.rs:114-125 | `successes + failures == scheduled count`; a task that returned `Err` still counts as a success |
| `Refresher.RunAllLeavesOthers` | src/refresher.rs:102-112 | the renewals of a sweep leave every key not scheduled unchanged |
| `Refresher.ScheduledDistinct` | src/refresher.rs:77-88 | scheduling distinct keys schedules each at most once |
| `Refresher.RunAllPointwise` | src/refresher.rs:102-125 | over distinct keys, each key's outcome and final cache and backend entries are those of its own renewal from the sweep's starting state |
| `Refresher.SweepDropsFailedGrant` | src/refresher.rs:189-199 | after the sweep, a scheduled session whose grant hit a transport error is out of the cache (and the backend unless `DEL` failed), its task having returned `Ok` |
| `Refresher.SweepRenewsAnsweredSession` | src/refresher.rs:200-208 | after the sweep, a scheduled session answered with a non-negative token holds its old record with `token` replaced, its task having returned `Ok` |
| `Refresher.UnscheduledUntouched` | src/refresher.rs:81-112 | a key whose probe failed or whose TTL exceeds the threshold is untouched by the sweep |
| `Refresher.Sweep` | src/refresher.rs:77-125 | schedules `Scheduled(keys, probes)`, leaves the store as `RunAll` over them, and tallies panics as failures and everything else as successes, summing to the scheduled count |
| `Refresher.TokenRefresher.constructor` | src/refresher.rs:29-35 | a new refresher holds no task |
| `Refresher.TokenRefresher.Start` | src/refresher.rs:37-43 | spawns a new loop only when no task is held; otherwise keeps the current one |
| `Refresher.TokenRefresher.Stop` | src/refresher.rs:45-49 | hands back the held task (if any) to abort and leaves none |
| `Refresher.StopIsIdempotent` | src/refresher.rs:37-49 | a second `stop` finds nothing, and `start` after `stop` spawns a loop different from the stopped one |
| `Api.ForLookup` | src/handlers/api.rs:20-37 | 500 iff the lookup failed; the token field as JSON iff a record with `token` was found; 404 iff the record has no `token` or none was found |
| `Api.TokenHandler` | src/handlers/api.rs:9-38 | no `X-Relay-Session` header gives 401; no store in state gives 500; otherwise the answer to the store's lookup, without writing the store |
| `Api.UnknownSessionIs500` | src/handlers/api.rs:20-28 | a session neither cached nor in the backend is answered 500, not 404 |
| `Api.CachedSessionAnswered` | src/handlers/api.rs:29-35 | a cached session is answered from the cache, whatever the backend does |
| `Api.TokenAfterSet` | src/handlers/api.rs:20-31 | a token stored by this process is served at once, even when the backend write was lost |
| `Middleware.ArrivalsSaturate` | src/middleware.rs:58-62 | arrivals raise the counter one by one up to `max + 1` and no further |
| `Middleware.DefaultConfig` | src/middleware.rs:18-24 | with the default maximum a request is still admitted with ten in flight and turned away with eleven |
| `Middleware.PeakInFlight` | src/middleware.rs:18-62 | from idle, `max + 1` requests can be in flight; with the default maximum of 10, eleven |
| `Middleware.RateLimiter.constructor` | src/middleware.rs:32-38 | each wrapped handler gets its own counter at 0 |
| `Middleware.RateLimiter.Admit` | src/middleware.rs:57-63 | rejects iff `counter > max`, leaving it unchanged; otherwise increments it |
| `Middleware.RateLimiter.Release` | src/middleware.rs:66-68 | decrements the counter |
| `Middleware.RateLimiter.Call` | src/middleware.rs:56-70 | a rejected call gets 503 without the handler being called and leaves the counter alone; an admitted call whose handler returns gives its result, errors included, and puts the counter back; one whose handler unwinds gives no response and leaves the counter one higher |
| `Middleware.LeakedSlots` | src/middleware.rs:56-70 | as written, calls one after another from a counter at most `max + 1` leave it at `min(start + unwound calls, max + 1)` |
| `Middleware.LeakLocksOut` | src/middleware.rs:56-70 | as written, `max + 1` unwound calls on an idle limiter leave the counter at `max + 1` for good, so every later call gets 503 |
| `Middleware.GuardedCallsBalance` | src/middleware.rs:62-68 | with the decrement also run on unwind, any sequence of calls leaves the counter where it started, and a limiter under its maximum admits the next call |
| `Middleware.RateLimiter.GuardedCall` | src/middleware.rs:56-70 | `call` with the decrement in a drop guard: the same answers as `Call`, and the counter ends where it started whether the handler returns or unwinds |

## Left out

- Tokio: spawning, `JoinHandle`, `abort`, sleeping, and the 30 s / 3600 s cadence of the outer loop. The model covers one sweep, starting after `KEYS *` and the `TTL` probes have answered. When the connection or `KEYS` fails, the source sleeps 30 s and retries; that path is not modelled. The jitter sleep is not modelled either.
- The redis client: `get_connection().unwrap()` panics if no connection opens. The model assumes a connection opens. The key list and the probe answers are inputs. The backend never expires entries on its own: TTLs are stored, not counted down.
- Concurrency: the per-key tasks, the store's cache mutex and the middleware's counter mutex. Calls run one at a time.
- `make_token_refresh_request` and its form encoding. The token endpoint is a function from the stored refresh token to a response.
- serde_json text: parsing and printing are the abstract `TextCodec`. JSON numbers are integers (no floats). serde's positional (array) form of `AccessToken` is not modelled.
- `rand`: the jitter delay is a nondeterministic choice within the window. `PickDelay` draws from the window as written. The delay itself has no effect in the model, so the corrected window of the Findings changes nothing else in it.
- Refresher.Sweep: every renewal of one sweep is parsed at the same time `now`, so every renewed token of that sweep gets the same `ctime`. In the source, each task parses its answer after its own jitter sleep and stamps the time of that parse.
- chrono: times are integer Unix seconds. The panic of `DateTime::from_timestamp(..).unwrap()` on out-of-range timestamps is not modelled.
- Token.AccessToken.Lifetime: does not model i64 overflow of `ctime + expires_in`; the sum is an unbounded integer.
- Middleware.RateLimiter.Admit: does not model i32 overflow of the counter, which stays at most `max + 1` anyway.
- Hex.Hex2Bin: the panic on odd-length or non-hex input (slicing or `unwrap`) is a precondition.
- Api.TokenHandler: the panic of `to_str().unwrap()` on a header value that is not visible ASCII is not modelled here; the header value arrives as a string. What such a panic does to the limiter's counter is modelled by `Middleware.RateLimiter.Call` with an `Unwound` handler.
- `main()`, the authorization-code handshake (`handlers/auth.rs`), HTML templates, the YAML config file and the index page: server wiring, network calls and presentation outside the modelled core.
- Logging.

## Findings

| source | as written | input that shows it | evidently intended | confidence | as-written member | corrected member |
|---|---|---|---|---|---|---|
| src/token.rs:24-26 | `expired` returns `expires_at() >= now`, which is true while the token is still valid | `ctime = 0`, `expires_in = 3600`, `now = 0`: `expired` is true though 3600 s remain | expired once `now >= expires_at`, i.e. when the lifetime is 0 | high; not executed | `Token.ExpiredCounterexample` | `Token.AccessToken.IsExpired` |
| src/middleware.rs:62-68 | the counter is incremented before the handler and decremented after it returns, with no guard, so a handler that panics (or a request dropped while pending) keeps its slot | with the maximum at 10 (`Config::default`; src/main.rs:86 sets it from the configuration), eleven requests whose handler panics, e.g. `/api/token` with a header byte of 0x80 or above (`to_str().unwrap()`): the counter stays at 11 and every later request gets 503 | the decrement runs however the handler ends, so the counter returns to its value before the call | high; not executed | `Middleware.LeakLocksOut` | `Middleware.GuardedCallsBalance` |
| src/refresher.rs:171-172 | `max_wait_time = total_keys / AVG_UPDATES_PER_MINUTE` is used as seconds, so the keys spread at fifty a second | 3000 scheduled keys: the window is 60 s, so on average 50 renewals start every second, 3000 a minute | a window of `total_keys * 60 / 50` seconds, fifty renewals a minute, as the constant's name and the comment's "~1 RPS" say | medium; not executed | `Refresher.JitterRateAsWritten` | `Refresher.IntendedJitterWindow` |

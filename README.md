# Instrumented queries and three backend operations

This project models part of the service backend of a game-hosting platform.
It covers two things.

The first is the instrumented query layer (`sql_execute!`, `sql_fetch!`,
`sql_fetch_all!`, ...). Each macro wraps one database call in a fixed
sequence:

1. increment the counter `sql_query_total` under the label triple
   (action, context name, call site);
2. run the driver with its values bound in order, converting the driver
   error into `GlobalError`;
3. on the timed forms, record one observation in the histogram
   `sql_query_duration` under the same triple.

The registry is a class, `SqlQueryMacros.Registry`. It holds both metric
families as maps keyed by label triples, plus a ghost trace of the steps
taken. It has one method per macro, and each method states exactly how the
registry, the trace and the result change.

The second is three operations built on that layer:

- **`kv-get`**: collects the (namespace, key) parameter arrays in a loop, runs
  one lookup, and converts every row to a response key whose value is the
  UTF-8 encoding of the stored string.
- **`game-user-list-for-user`**: fetches the game users of a list of user ids
  and groups the rows back onto the requested ids, in request order.
- **`captcha-verify`**: picks the provider branch from the configuration and
  the client response, picks the Turnstile secret from the origin host, calls
  the provider, records the verification row, fails on a negative answer, and
  publishes an analytics event otherwise. The handler is a method that returns
  the ordered log of its effects.

The following are inputs, not behaviour:

- the database's answers, modelled as function parameters or values;
- connection resolution;
- remote operations, the secret store, serialization;
- the clock, the elapsed time and the fresh UUID.

Files:

- `common.dfy`: `Result`/`Option`, `GlobalError` and the driver-error conversion.
- `sqlx.dfy`: bound queries.
- `sql_query_macros.dfy`: the registry and the macros.
- `utf8.dfy`: UTF-8 encoding and a strict decoder used to state that a row's value converts without loss.
- `kv_get.dfy`, `game_user_list_for_user.dfy`, `captcha_verify.dfy`: one module per operation.

Two behaviours of the macros are easy to misread; the model follows the code:

- **When the connection is resolved.** In the forms without an explicit
  connection, `&$ctx.crdb().await?` is substituted into the driver call
  inside the `async` block. Resolution therefore runs after the counter
  increment, and a resolution error leaves the block before the finish step:
  the counter rises by one and the histogram does not change, rather than
  nothing being counted.
- **`sql_fetch` without a connection is timed.** Only `sql_fetch` with an
  explicit connection is untimed. Without one, the second rule of
  `__sql_query_as_raw!` delegates to the timed `__sql_query_as!`.

## Model

| member | source | states |
|---|---|---|
| Common.IntoGlobal | lib/pools/src/utils/sql_query_macros.rs:50 | the driver's value passes through unchanged; a driver error becomes `Database` with its cause kept; Ok exactly when the driver said Ok |
| Common.IntoGlobalInjective | lib/pools/src/utils/sql_query_macros.rs:74 | the error conversion loses nothing: equal converted results come from equal driver results |
| Sqlx.Unbound | lib/pools/src/utils/sql_query_macros.rs:44 | a freshly built statement has its template and no bound values |
| Sqlx.Bind | lib/pools/src/utils/sql_query_macros.rs:46 | `.bind(v)` keeps the statement and every value already bound in its place, and puts v on the next free placeholder |
| Sqlx.BindAll | lib/pools/src/utils/sql_query_macros.rs:45-47 | a chain of binds keeps the statement and the values already bound, and adds one placeholder per value written |
| Sqlx.BindAllInOrder | lib/pools/src/utils/sql_query_macros.rs:69-71 | a chain of binds appends the values in the order written, after those already bound |
| Sqlx.PlaceholderReceivesKthBind | lib/pools/src/utils/sql_query_macros.rs:95-97 | placeholder k+1 of a built statement receives the k-th value written at the call site |
| SqlQueryMacros.TimedResult | lib/pools/src/utils/sql_query_macros.rs:72-78 | with a connection, the result is the driver's (Ok iff Ok, value kept, error wrapped as `Database`); without one, it is the resolution error |
| SqlQueryMacros.ActionLabelInjective | lib/pools/src/utils/sql_query_macros.rs:10 | the action labels `stringify!($action)` gives are pairwise different, so each action has its own series at a call site |
| SqlQueryMacros.Registry.constructor | lib/pools/src/utils/sql_query_macros.rs:9 | a new registry has no series and an empty trace |
| SqlQueryMacros.Registry.MetricsStart | lib/pools/src/utils/sql_query_macros.rs:3-16 | the counter of (action label, context name, location) rises by exactly one; the histograms are unchanged; an `Increment` step is traced |
| SqlQueryMacros.Registry.MetricsFinish | lib/pools/src/utils/sql_query_macros.rs:19-34 | exactly one observation of the elapsed time is appended to the same triple's histogram; the counters are unchanged |
| SqlQueryMacros.Registry.QueryAs | lib/pools/src/utils/sql_query_macros.rs:63-84 | counter +1 always; one observation exactly when a connection was obtained, on the driver's Ok and Err alike; the steps are increment, resolution (when none was given), driver call, observation; the result is `TimedResult`; `Valid` is kept |
| SqlQueryMacros.Registry.Query | lib/pools/src/utils/sql_query_macros.rs:38-60 | the same timed behaviour under the `execute` action |
| SqlQueryMacros.Registry.QueryAsRaw | lib/pools/src/utils/sql_query_macros.rs:86-103 | with an explicit connection: counter +1, no observation, only the increment traced, and the unrun stream returned; without one: the timed behaviour of `QueryAs` |
| SqlQueryMacros.Registry.SqlExecute | lib/pools/src/utils/sql_query_macros.rs:107-111 | timed, under the series labelled "execute" |
| SqlQueryMacros.Registry.SqlFetch | lib/pools/src/utils/sql_query_macros.rs:114-121 | labelled "fetch"; untimed returning the stream with an explicit connection, timed and awaited without one |
| SqlQueryMacros.Registry.SqlFetchAll | lib/pools/src/utils/sql_query_macros.rs:124-131 | timed, under the series labelled "fetch_all" |
| SqlQueryMacros.Registry.SqlFetchMany | lib/pools/src/utils/sql_query_macros.rs:134-141 | timed, under the series labelled "fetch_many" |
| SqlQueryMacros.Registry.SqlFetchOne | lib/pools/src/utils/sql_query_macros.rs:144-151 | timed, under the series labelled "fetch_one" |
| SqlQueryMacros.Registry.SqlFetchOptional | lib/pools/src/utils/sql_query_macros.rs:154-161 | timed, under the series labelled "fetch_optional" |
| SqlQueryMacros.RecordedSeries | lib/pools/src/utils/sql_query_macros.rs:9-11 | one invocation's series: counter exactly +1; histogram grows by exactly the elapsed time when observed, otherwise unchanged; every other series is untouched |
| SqlQueryMacros.ResolutionFailureCountedNotTimed | lib/pools/src/utils/sql_query_macros.rs:81-83 | on a fresh registry, a failed `ctx.crdb()` resolution leaves the counter at 1 and the histogram empty, and its error is returned |
| SqlQueryMacros.DriverAnswerCountedAndTimed | lib/pools/src/utils/sql_query_macros.rs:64-80 | on a fresh registry, a completed driver call (Ok or Err) leaves the counter at 1 and exactly one observation, and returns the converted driver answer |
| SqlQueryMacros.ExplicitFetchCountedNotTimed | lib/pools/src/utils/sql_query_macros.rs:115-117 | `sql_fetch` on an explicit connection leaves the counter at 1 and the histogram empty, and returns the stream unrun |
| SqlQueryMacros.RepeatedCallSiteAccumulates | lib/pools/src/utils/sql_query_macros.rs:107-111 | two executions at one call site give count 2 and both durations in order; another action's series at that site stays at 0 |
| Utf8.EncodeChar | svc/pkg/kv/ops/get/src/lib.rs:16 | a scalar value takes 1 to 4 bytes; 1 exactly for ASCII, which is its own byte; every later byte is a continuation byte |
| Utf8.DecodeFirstEncodeChar | svc/pkg/kv/ops/get/src/lib.rs:16 | decoding the front of an encoded character, whatever follows, gives the character and its byte length |
| Utf8.Encode | svc/pkg/kv/ops/get/src/lib.rs:16 | the encoding of a string has at least one byte per character |
| Utf8.DecodeEncode | svc/pkg/kv/ops/get/src/lib.rs:16 | decoding the encoding of a string gives the string back |
| Utf8.EncodeInjective | svc/pkg/kv/ops/get/src/lib.rs:16 | different strings have different byte encodings |
| KvGet.KeyFromPairRoundTrip | svc/pkg/kv/ops/get/src/lib.rs:11-19 | a converted key has the row's namespace (now present) and the same key, and the row is read back intact from it, value bytes included |
| KvGet.KeyFromPair | svc/pkg/kv/ops/get/src/lib.rs:11-19 | the key gets the row's namespace as present and the same key, and its value bytes decode to the row's value string |
| KvGet.KeysFromRows | svc/pkg/kv/ops/get/src/lib.rs:44-46 | the response has one key per row, key i converted from row i |
| KvGet.CollectedUnique | svc/pkg/kv/ops/get/src/lib.rs:26-31 | the parameter vectors are determined by the request keys |
| KvGet.CollectKeys | svc/pkg/kv/ops/get/src/lib.rs:26-31 | succeeds exactly when every key has a namespace; both vectors then have the request's length, with entry i taken from key i; otherwise fails with the `namespace_id` unwrap error |
| KvGet.Handle | svc/pkg/kv/ops/get/src/lib.rs:21-49 | a connection error or a key without a namespace fails with no query issued; otherwise one query is issued, with the namespace array bound first and the key array second, both lined up with the request; the response values are the rows converted one for one, and a driver error is returned as `Database` |
| GameUserListForUser.GameUserIdsOf | svc/pkg/game-user/ops/list-for-user/src/lib.rs:36-40 | a user's list is never longer than the rows |
| GameUserListForUser.Users | svc/pkg/game-user/ops/list-for-user/src/lib.rs:33-47 | exactly one user per requested id, in request order with duplicates kept; user i carries `Some(id i)` and the ids of the rows of id i |
| GameUserListForUser.GameUserIdsOfAppend | svc/pkg/game-user/ops/list-for-user/src/lib.rs:36-40 | the filter keeps row order: grouping a concatenation concatenates the groups |
| GameUserListForUser.GameUserIdsOfMembership | svc/pkg/game-user/ops/list-for-user/src/lib.rs:38-39 | an id is listed for a user exactly when some row pairs that game user with that user |
| GameUserListForUser.NoRowsGiveEmptyList | svc/pkg/game-user/ops/list-for-user/src/lib.rs:33-47 | a requested user with no rows gets an empty list and is not left out |
| GameUserListForUser.RequestedRows | svc/pkg/game-user/ops/list-for-user/src/lib.rs:26 | the rows the lookup can return all belong to requested ids |
| GameUserListForUser.RequestedRowsKeepGroup | svc/pkg/game-user/ops/list-for-user/src/lib.rs:38 | dropping unrequested rows keeps every requested user's group unchanged |
| GameUserListForUser.UnrequestedRowsIgnored | svc/pkg/game-user/ops/list-for-user/src/lib.rs:42-45 | rows of ids that were not requested contribute nothing to the response |
| GameUserListForUser.SelectQuery | svc/pkg/game-user/ops/list-for-user/src/lib.rs:22-29 | the lookup binds exactly one value, the requested id array as given |
| GameUserListForUser.Handle | svc/pkg/game-user/ops/list-for-user/src/lib.rs:10-50 | a connection error is returned as is; a driver error is returned as `Database`; otherwise the response is `Users` of the requested ids over the fetched rows |
| CaptchaVerify.SelectBranch | svc/pkg/captcha/ops/verify/src/lib.rs:21-28 | hCaptcha exactly when the configuration has it and the response is one; Turnstile exactly when both agree on it; the chosen configuration and response are the request's; every other combination is "invalid request" |
| CaptchaVerify.FindSecret | svc/pkg/captcha/ops/verify/src/lib.rs:81-85 | any secret found is the secret key of one of the configured domains |
| CaptchaVerify.TurnstileSecret | svc/pkg/captcha/ops/verify/src/lib.rs:75-86 | for "rivet.game" and its subdomains, the stored secret or its read error; for any other host, the result of the domain search |
| CaptchaVerify.FindSecretFirstMatch | svc/pkg/captcha/ops/verify/src/lib.rs:81-85 | the secret found is that of the first domain, in list order, that covers the host |
| CaptchaVerify.FindSecretNone | svc/pkg/captcha/ops/verify/src/lib.rs:81-85 | no secret is found exactly when no domain equals the host or is a dot-suffix of it |
| CaptchaVerify.FindSecretSound | svc/pkg/captcha/ops/verify/src/lib.rs:81-85 | any secret found belongs to a configured domain that covers the host |
| CaptchaVerify.SuffixWithoutDotDoesNotMatch | svc/pkg/captcha/ops/verify/src/lib.rs:82-83 | a host that ends with a domain's text with no dot before it is not covered by that domain |
| CaptchaVerify.RivetGameHostIgnoresDomains | svc/pkg/captcha/ops/verify/src/lib.rs:75-78 | for "rivet.game" and its subdomains, the configured domains play no part in the secret |
| CaptchaVerify.PreludeError | svc/pkg/captcha/ops/verify/src/lib.rs:9-16 | the first failure in source order: the connection error, then the missing configuration, client response and response kind, then the two serialization errors |
| CaptchaVerify.RowOf | svc/pkg/captcha/ops/verify/src/lib.rs:50-59 | the row binds the fresh id, both topic serializations, the remote address, `complete_ts = ts`, `expire_ts = ts + verification_ttl`, the arm's provider and answer, and the user and namespace ids |
| CaptchaVerify.HcaptchaArm | svc/pkg/captcha/ops/verify/src/lib.rs:29-63 | the effects and answer are `HcaptchaOutcome`: site-key lookup, verification with that key, then the row with provider hCaptcha and the provider's answer; each `?` stops the arm with its collaborator's error, the insert's as `Database` |
| CaptchaVerify.TurnstileArm | svc/pkg/captcha/ops/verify/src/lib.rs:72-118 | the effects and answer are `TurnstileOutcome`: no origin fails with no effects; the first-party host reads the secret store; an origin no rule covers fails with `CAPTCHA_CAPTCHA_ORIGIN_NOT_ALLOWED` before any verification; otherwise verification with the selected secret, then the row with provider Turnstile and the answer; each `?` passes its error through |
| CaptchaVerify.HcaptchaOutcomeLog | svc/pkg/captcha/ops/verify/src/lib.rs:29-63 | the hCaptcha outcome publishes nothing, writes its row last and right after the verification call with the fields the inputs fix, and answers what the provider said once the row is written |
| CaptchaVerify.TurnstileOutcomeLog | svc/pkg/captcha/ops/verify/src/lib.rs:72-118 | the Turnstile outcome keeps the same promises, fails with no effects without an origin, makes no verification call for a not-allowed origin, and verifies only with the selected secret |
| CaptchaVerify.TurnstileVerifiedLog | svc/pkg/captcha/ops/verify/src/lib.rs:89-118 | once a secret is selected, the verification uses it and the row follows it with provider Turnstile and the provider's answer |
| CaptchaVerify.Conclude | svc/pkg/captcha/ops/verify/src/lib.rs:123-145 | the effects are the arm's, in order, then the event exactly when the answer was yes; the result is the arm's error, `CAPTCHA_CAPTCHA_FAILED` on a no, or the publish outcome on a yes; a yes with the row and the event written is `Ok`; any event is "captcha.success", last, right after its successful row |
| CaptchaVerify.Handle | svc/pkg/captcha/ops/verify/src/lib.rs:6-146 | prelude failures and "invalid request" have no effects; otherwise the effects are the arm outcome's, then the event exactly on a yes, and each collaborator's error is passed through; a yes with every call succeeding is `Ok`; no origin or a not-allowed origin means no verification call; Turnstile verifies with the selected secret; a row has `expire_ts = ts + verification_ttl`, the branch's provider and the provider's answer, and comes right after a verification call; a failed check is still recorded with `success = false` before the handler fails |

## Left out

- sqlx internals are not modelled. This covers the SQL text (statements are named by a descriptive constant), `indoc!`, row decoding, and what `fetch_one`, `fetch_optional`, `fetch_all` and `fetch_many` do with the number of rows. In the query layer each driver call is a function of (action, connection, bound query), which returns a value or a driver error. The kv-get and game-user drivers are functions of (connection, bound query). The captcha insert's outcome is the fixed input `env.insert`, whatever the row.
- The difference between `sqlx::query` and `sqlx::query_as` (untyped and typed rows) is not modelled. Both are calls of the same driver function; `execute` is its action.
- Timing is not modelled. The `Instant` clock and the `f64` seconds value are out; an elapsed time is a natural number given as input.
- The `tracing::info!` log line of the finish step is not modelled.
- The prometheus implementation is not modelled; the registry is two plain maps.
- Async scheduling, cancellation of a future before it completes, and concurrent metric updates are not modelled. One call of an entry point is one invocation awaited to completion, and invocations are sequential.
- The stream `sql_fetch` returns on an explicit connection is handed back unrun (`Pending`). What happens when the caller later drives it is not modelled.
- The no-connection path of `sql_fetch` follows the expansion as written (`.fetch($crdb).await` inside `__sql_query_as!`). The driver's `fetch` returns a stream rather than a future, so that expansion may not compile; the driver's types are not part of this model.
- Connection resolution (`ctx.crdb(...)`), remote operations (`op!`, `msg!`), the secret store, serialization of the topic, and `Uuid::new_v4()`/`ctx.ts()` are inputs. They are given as the fields of `CaptchaVerify.Environment`. In the query layer the macros get the resolution outcome as `SqlQueryMacros.ConnArg`, and the kv-get and game-user handlers get it as their `crdb` parameter.
- The serialization of the analytics event's properties (`serde_json::to_string`) is assumed to succeed, and the event's properties JSON is kept as structured fields.
- Four error messages are stand-ins: the text `internal_unwrap!` reports for `ctx.captcha_config`, `ctx.client_response`, `client_response.kind` and `key.namespace_id`. The real text comes from a macro that is not part of this model.
- The numeric provider codes (`CaptchaProvider::Hcaptcha as i64` and `CaptchaProvider::Turnstile as i64`) come from protocol definitions that are not part of this model. They are the two-valued `Provider`.
- Integers are unbounded. The `i64` sum `ts + verification_ttl` is not wrapped, and an overflow there is not modelled.
- UUIDs are natural numbers. The proto `common::Uuid` conversions are identities.
- The region recommendation, user-identity creation and the integration tests are not part of this model. They rely on floating-point geodesy, a foreign e-mail parser, and network I/O respectively.

# http-cache in Dafny

A model of the core of `http-cache`. This is a lazy cache for one HTTP resource, built on a
small finite-state-machine engine. The caller builds an `HttpCache` from one request and
asks for response attributes: status code, headers, body, content length, content type and
version. Each getter drives the machine only as far as the field needs. `InitState` sends a
HEAD probe. `HeaderState` then re-sends the original request and completes. Interrupt
conditions registered by the caller can lock the machine after any move. Once locked, the
machine does no more work, and every getter returns what is already known.

Modules, leaf first:

- `Wrappers`: `Option` and `Result`.
- `Fsm` (src/fsm.rs): `Transition`, and the `transitions!` declarations as a value (`Arrow`).
  From that value come the `TransitionTo` relation (`Relation`) and the declared state
  structs (`Declared`). `Transition::next` is `NextChecked`; its three trait bounds
  (`I: TransitionTo<O>`, `I: State<S>`, `O: State<S>`) become its precondition.
- `Http`: the boundary. It holds the request, response, status code, version and header
  map values, `Request::try_clone`, `HeaderValue::to_str` and `str::parse::<u64>`. The
  network is the class `Transport`. Its constant oracle `respond(request, n)` answers the
  `n`-th request issued, and its field `sent` logs every request issued, in order.
- `CacheData` (src/cache/mod.rs:11-70): the class `HttpCacheData`, with `Populate` proved
  equal to the value function `Populated`. `Data` is the record as a value, which is what
  interrupt conditions read.
- `States` (src/cache/states/mod.rs): the two declarations and the two `State`
  implementations, as methods proved equal to `StepEffect`.
- `Cache` (src/cache/mod.rs:72-186): the class `HttpCache`. `Machine` is the façade as a
  value. `HttpCache.Next` is proved equal to `Advance`. The `fsm_getter!` body (`Resolve`,
  a loop in place of the recursion) is proved equal to `Pull`.
- `CacheProperties`: what the façade promises, proved of `Advance` and `Pull`.
- `Scenarios`: the tests of src/lib.rs and the conditions of src/main.rs, proved for every
  server response of the stated shape.

In Rust, src/cache/mod.rs and src/cache/states/mod.rs import each other. Dafny modules
cannot import each other in a cycle, so `HttpCacheData` has its own module below `States`.

Panics (`expect`, `unwrap`) are modelled as a `Fault` result that ends the step, or the
getter, at the point of the panic. Fields written before the panic keep their new values,
as in the Rust code. `BodyState` has no `State` implementation, so it can never be the
current state. The type `LiveState` excludes it.

## Behaviour worth knowing

- The record is not monotone. `populate` overwrites `content_type` and `content_length` from
  the header map, so a later response without those headers sets them back to `None`
  (`CacheData.PopulateForgetsLength`).
- The header's content length always decides. An absent header gives `None`, whatever
  length the transport reported. An unparsable one panics (`LengthNotNumber`).
- The probe always uses HEAD, whatever the caller's method. A HEAD request is therefore
  probed as HEAD and then fetched as HEAD again (`States.IssuedRequests`).
- Conditions can be added at any time. One added after the lock never runs, because a
  locked machine evaluates nothing.

## Model

| member | source | states |
|---|---|---|
| `Fsm.NextChecked` | src/fsm.rs:7-15 | can be formed only for a pair in the transition relation whose two ends both implement `State`; yields `Next` wrapping exactly the target state |
| `Fsm.Relation` | src/fsm.rs:48-56 | the `TransitionTo` impls a list of invocations adds, one pair per invocation of either form (characterized by `Fsm.RelationMembers`) |
| `Fsm.RelationMembers` | src/fsm.rs:38-58 | a pair is in `TransitionTo` iff some `transitions!` invocation of either form names it |
| `Fsm.Declared` | src/fsm.rs:40-57 | the state structs a list of `transitions!` invocations declares, in order: the source and target of the plain form, only the target of the `*` form (characterized by `Fsm.DeclaredMembers`) |
| `Fsm.DeclaredMembers` | src/fsm.rs:40-57 | a state struct is declared iff it is the target of some invocation, or the source of one without `*` |
| `States.DeclarationsMeaning` | src/cache/states/mod.rs:10-11 | the two declarations compile; they declare `InitState`, `HeaderState` and `BodyState` once each; they allow exactly `InitState→HeaderState` and `HeaderState→BodyState`; `BodyState` has no outgoing pair |
| `States.CheckedMoves` | src/cache/states/mod.rs:10-52 | the only move `Transition::next` can build for the cache is `InitState→HeaderState`: the terminal pair ends in `BodyState`, which implements no `State` |
| `States.AllowedLowersRank` | src/cache/states/mod.rs:10-11 | every allowed move lowers the distance to the terminal state by exactly one |
| `States.PathLowersRank` | src/cache/states/mod.rs:10-11 | along any walk in the relation, the distance falls by exactly one per move |
| `States.LongestPath` | src/cache/states/mod.rs:10-11 | the graph is acyclic and no walk has more than two moves |
| `States.StepEffect` | src/cache/states/mod.rs:17-52 | one step issues at most one request: none iff the clone fails, otherwise the state's copy of the stored request; it moves only when the response arrived; a `Next` goes to an allowed state that has an implementation; a `Complete` comes only from `HeaderState`, with `Ok`; the stored request is kept; no empty body is stored |
| `Http.Transport.Execute` | src/cache/states/mod.rs:26 | `client.execute` (also line 45): logs the request as sent and returns the oracle's answer for it |
| `States.InitStateNext` | src/cache/states/mod.rs:17-35 | the probe step issues, writes and returns exactly what `StepEffect(InitState, …)` says |
| `States.HeaderStateNext` | src/cache/states/mod.rs:37-52 | the fetch step issues, writes and returns exactly what `StepEffect(HeaderState, …)` says |
| `States.Run` | src/fsm.rs:21-25 | `State::next` on the current state changes only the record and the network, as `StepEffect` says |
| `States.IssuedRequests` | src/cache/states/mod.rs:22-45 | the probe is the stored request with its method replaced by HEAD and nothing else changed; the fetch is the stored request verbatim |
| `States.EveryNextIsDeclared` | src/cache/states/mod.rs:31-33 | the `Next` the probe builds directly lies in the declared relation and equals what `Transition::next` builds |
| `States.StepSuccess` | src/cache/states/mod.rs:28-50 | when the clone, the call and the header reads succeed, the probe moves to `HeaderState` and the fetch completes with `Ok`; the record is populated from the response |
| `States.StepAborts` | src/cache/states/mod.rs:22-45 | a failed clone or a failed call ends the step with its fault, no transition, and the record unchanged |
| `CacheData.HttpCacheData.constructor` | src/cache/mod.rs:25-35 | the new record holds the request and all six attributes `None` |
| `CacheData.HttpCacheData.RequestClone` | src/cache/mod.rs:38-40 | a copy of the stored request, equal to it, exists iff its body is not a stream |
| `CacheData.HttpCacheData.Populate` | src/cache/mod.rs:48-69 | writes the record exactly as `Populated` says, including the fields written before a panic |
| `CacheData.Populated` | src/cache/mod.rs:48-69 | `populate` as a value: the new record and the panic, if any, in the code's write order (characterized by the `CacheData.Populate*` lemmas) |
| `CacheData.PopulateSetsMetadata` | src/cache/mod.rs:49-52 | status, headers and version are always set to the response's values, even when a later header read panics; the request is untouched |
| `CacheData.PopulateFaults` | src/cache/mod.rs:54-62 | `populate` panics iff a content-type or content-length header is present and not text, or the length does not parse; both directions, per fault kind |
| `CacheData.PopulateHeaderFields` | src/cache/mod.rs:54-61 | content type and length are `Some` iff their header is present, with the header's (parsed) value |
| `CacheData.PopulateForgetsLength` | src/cache/mod.rs:50-61 | without a content-length header the length becomes `None`, overriding the transport's length and any earlier value |
| `CacheData.PopulateBody` | src/cache/mod.rs:64-68 | the body is replaced only by text that was read and is non-empty; otherwise the old body stays |
| `CacheData.PopulateNeverStoresEmptyBody` | src/cache/mod.rs:64-68 | an empty body is never stored |
| `CacheData.PopulateKeepsKnown` | src/cache/mod.rs:48-69 | a known body stays known; status, headers and version are known afterwards |
| `CacheData.PopulateIdempotent` | src/cache/mod.rs:48-69 | populating twice from the same response gives the same record and the same panic as once |
| `Cache.AnyHolds` | src/cache/mod.rs:140 | true iff some registered condition holds on the record |
| `Cache.Advance` | src/cache/mod.rs:131-149 | keeps the conditions and the request; appends at most one request; a lock, once set, stays set; an unlocked successful step issues one request and lowers the remaining work; a panic leaves the state and leaves the machine unlocked; preserves the invariant (locked only in `HeaderState`, no empty body) |
| `Cache.Pull` | src/cache/mod.rs:77-91 | the `fsm_getter!` policy: locked, or the field known, gives the field and no work; otherwise one `Advance` and a retry; a panic stops it (characterized by `CacheProperties.PullNoWork`, `PullResult` and `LockedPullsRepeat`) |
| `Cache.HttpCache.constructor` | src/cache/mod.rs:105-112 | starts in `InitState`, unlocked, with no conditions and an empty record |
| `Cache.HttpCache.AddInterruptCondition` | src/cache/mod.rs:116-118 | appends exactly the given condition at the end; state, lock and record unchanged |
| `Cache.HttpCache.LockFsm` | src/cache/mod.rs:121-123 | sets the lock and nothing else |
| `Cache.HttpCache.Next` | src/cache/mod.rs:131-149 | state, lock, conditions, record and issued requests change exactly as `Advance` says |
| `Cache.HttpCache.Resolve` | src/cache/mod.rs:73-93 | the getter's loop leaves the façade, and returns, exactly what `Pull` says |
| `Cache.HttpCache.StatusCode` | src/cache/mod.rs:151-155 | `status_code()` behaves as `Pull` on the status field |
| `Cache.HttpCache.Headers` | src/cache/mod.rs:157-161 | `headers()` behaves as `Pull` on the headers field |
| `Cache.HttpCache.Body` | src/cache/mod.rs:163-167 | `body()` behaves as `Pull` on the body field |
| `Cache.HttpCache.ContentLength` | src/cache/mod.rs:169-173 | `content_length()` behaves as `Pull` on the length field |
| `Cache.HttpCache.ContentType` | src/cache/mod.rs:175-179 | `content_type()` behaves as `Pull` on the content-type field |
| `Cache.HttpCache.Version` | src/cache/mod.rs:181-185 | `version()` behaves as `Pull` on the version field |
| `CacheProperties.AdvanceLocked` | src/cache/mod.rs:131-134 | `next` on a locked façade changes nothing and issues no request |
| `CacheProperties.AdvanceFromProbe` | src/cache/mod.rs:136-144 | after a successful probe the state is `HeaderState`, and the façade is locked iff some condition holds on the updated record |
| `CacheProperties.AdvanceFromFetch` | src/cache/mod.rs:145-147 | after a successful fetch (`Complete`) the façade is locked |
| `CacheProperties.PullNoWork` | src/cache/mod.rs:78-84 | locked, or unlocked with the field known: the getter returns the field and changes nothing |
| `CacheProperties.PullResult` | src/cache/mod.rs:77-91 | on return, the result is the field's current value and is known or the façade is locked; a panic leaves it unlocked; the lock is monotone; conditions and request are kept; requests are only appended, at most two |
| `CacheProperties.LockedPullsRepeat` | src/cache/mod.rs:78-79 | once a getter leaves the façade locked, repeating it, or calling any other getter, returns the same snapshot and issues nothing |
| `CacheProperties.AdvancesLock` | src/cache/mod.rs:136-148 | at most two calls of `next` that do not panic leave the façade locked, with or without conditions |
| `CacheProperties.AdvancesStayLocked` | src/cache/mod.rs:131-134 | any number of `next` calls on a locked façade change nothing |
| `Scenarios.FreshGetResolvesLazily` | src/lib.rs:13-22 | on a fresh GET façade with no conditions, `version()` is answered by the HEAD probe alone and leaves it unlocked; `body()` then sends the GET, returns the fetched body and locks |
| `Scenarios.HeadProbeInterrupted` | src/lib.rs:24-36 | on a HEAD façade with the condition "request is HEAD", `body()` locks after the probe alone and returns `None` |
| `Scenarios.GetProbeNotInterrupted` | src/lib.rs:38-50 | on a GET façade with the condition "request is HEAD", the probe does not lock; `body()` sends the GET, returns the fetched body and locks |
| `Scenarios.GetWithDemoConditions` | src/main.rs:16-37 | a GET façade with the three demonstration conditions locks after the probe when the status is not 2xx or the type is PDF, and `body()` is `None`; otherwise it fetches, and `body()` is the fetched body |
| `Scenarios.ClientFreshGet` | src/lib.rs:13-22 | the first scenario run on the class: `version()` is known with the façade unlocked, then `body()` is known with it locked |

## Left out

- Network I/O (`reqwest::Client`, `execute`, `Response::text`) is not modelled. It becomes
  the `Transport` oracle, and the per-step `Client::new()` has no counterpart. A response
  is its status, version, header map, transport length and body text, where `None` means
  the text read failed.
- `async`/`await`, `async_trait` and `async_recursion`: the methods are sequential. The
  getters' recursion is a loop.
- Logging (`info!`), `env_logger` and `src/main.rs` as a program are not modelled. Its
  three conditions appear as `Scenarios.StatusNotSuccess`, `IsPdf` and `MethodIsHead`.
- The re-exports of `src/lib.rs` are not modelled. Its tests need a live server; they
  appear as scenario lemmas over arbitrary server responses.
- Header details are not modelled. A header map keeps one value per lower-case name, the
  first, which is what `HeaderMap::get` returns, so case-insensitive lookup is assumed done.
  `to_str` accepts visible ASCII and tab. `parse::<u64>` accepts an optional `+` and
  decimal digits below 2^64. There is no UTF-8 handling.
- Requests keep only method, URL, headers and body. Timeout and version are not modelled.
  `try_clone` fails exactly for a streaming body.
- `dyn_clonable`, boxing and the `Debug`/`Clone` derives are not modelled. A state is its
  identity, a `StateId`.
- Panics are results, not unwinding. The model lets a caller go on after a fault, as one
  that catches the panic could.
- `HttpCacheData::request` is the constant field `request`, and `fsm_is_locked` is the
  contract-free function `FsmIsLocked`. Both are plain reads.
- The error payload of `Transition::Complete` is not modelled as a real error. The code
  only builds `Complete(Ok(()))`, and `next` ignores the payload, so it is kept as a string.

# NLevelCache, modelled in Dafny

NLevelCache sits in front of an ordered list of cache levels, level 0
being the nearest. `get(query)` derives a key with `keyForQuery`, reads the
levels nearest first and stops at the first value `isValue` accepts. On a hit
at level `i` it writes the value back ("hydrates") into levels `0 .. i - 1`.
On a full miss it calls `compute` and writes the result into every level.
`set(query)` always computes and writes every level.

The repository holds two revisions of this class, and each is its own module
here:

- `SrcNLevelCache` models `src/index.js`.
  - Writes go nearest first. They are all issued at once and collected with
    `Promise.all`.
  - A rejected level `get` reads as `undefined` and is passed to that level's
    `onGetError`. A rejected level `set` is passed to `onSetError`. Neither
    fails the operation.
  - `hydrate: false` switches the write-back off.
- `RootNLevelCache` models `index.js`.
  - The constructor keeps the levels in order as `readers` and reversed as
    `writers`, so every write chain runs farthest level first.
  - Each write waits for the one before it.
  - The first rejected `get` or `set` rejects the whole operation, and later
    levels are not called.
  - `hydrate || true` makes hydration unconditional.

`Levels` holds what both share:
- the JavaScript values that matter (`undefined`, `null`, anything else);
- settled promises;
- a cache level as a class with a mutable store, and faults and hooks fixed
  at construction;
- the trace of observable calls: level `get`/`set`, the `onGetError` and
  `onSetError` hooks, and `compute`.

Every promise chain is modelled as the sequence of steps it runs.

Each coordinator is a class whose methods change the levels and append to a
ghost trace. Every method is proved equal to a function of the level
snapshots it started from:
- `GetRun` and `SetRun`;
- `WriteDown` for the index.js write chain, with `WriteDownStops` stating it by where it stops;
- `WriteTrace` / `Hydrated` for the src/index.js fan-out.

The lemmas state the promised behaviour of those functions:
- which levels are read and written, and in which order;
- what is returned;
- which errors surface;
- that every call uses one key and one value.

## Model

| member | source | states |
|---|---|---|
| `Levels.DefaultIsValue` | src/index.js:8 | the default `isValue` accepts exactly the values other than `null` and `undefined` |
| `Levels.Identity` | src/index.js:10 | defines the default key derivation `x => x`: the query itself is the key |
| `Levels.GetOutcome` | src/index.js:35-37 | in the model's abstraction of a cache level, `get` rejects exactly when the level has a read fault, and otherwise resolves to the stored entry (`undefined` when absent) |
| `Levels.SetOutcome` | src/index.js:53-55 | defines the outcome of `set` in the model's abstraction of a cache level: it rejects with the level's write fault when it has one, and resolves otherwise |
| `Levels.AfterSet` | src/index.js:53-55 | in the model's abstraction of a cache level, an accepted `set` stores the entry and changes no other key or property; a rejected one changes nothing |
| `Levels.Hydrated` | src/index.js:50-58 | defines the level states after writing levels `lo .. hi - 1`: those levels hold what one `set` leaves behind, and every other level is as before |
| `Levels.Level.Get` | src/index.js:35-37 | the modelled level's `get` settles as `GetOutcome` of its current state and changes nothing |
| `Levels.Level.Set` | src/index.js:53-55 | the modelled level's `set` settles as `SetOutcome` of its state before the call, and the new state is `AfterSet` of the old |
| `Levels.KeyOr` | src/index.js:45 | defines `key \|\| keyForQuery(query)`: a given non-empty key is kept; a missing or empty one is replaced by the derived key |
| `Levels.ReportersExactlyOnce` | src/index.js:36-38 | the list of levels that report an error holds each level with a pending error and a hook exactly once, in ascending order, and no other level |
| `SrcNLevelCache.Probe` | src/index.js:35-38 | one probe yields the stored value, or `undefined` when the level's `get` rejects |
| `SrcNLevelCache.ScanFrom` | src/index.js:29-41 | defines the probe loop from level `k` on: probe each level in turn and stop at the first value `isValue` accepts, or past the last level with the last value probed |
| `SrcNLevelCache.Scan` | src/index.js:29-41 | defines `_getCaches`: the probe loop from level 0, starting from `undefined` |
| `SrcNLevelCache.ProbeStep` | src/index.js:35-38 | defines the calls of one probe: the level's `get`, then its `onGetError` when the read rejects and the hook is defined |
| `SrcNLevelCache.ProbeTrace` | src/index.js:29-41 | defines the calls of probing levels `0 .. m - 1` in order |
| `SrcNLevelCache.IssueTrace` | src/index.js:52-53 | defines the calls of the `for…of` loop: `set(key, value)` on levels `0 .. hi - 1` in order |
| `SrcNLevelCache.ReportTrace` | src/index.js:54-56 | defines the `onSetError` reports of the fan-out: one per rejecting level that defines the hook, in level order |
| `SrcNLevelCache.WriteTrace` | src/index.js:50-59 | defines the calls of `_setCaches`: every `set` issued, then every report |
| `SrcNLevelCache.SetRun` | src/index.js:43-48 | defines the outcome, the calls and the new levels of `set`: `compute`, then the fan-out over every level under the given or derived key |
| `SrcNLevelCache.GetRun` | src/index.js:13-27 | defines the outcome, the calls and the new levels of `get`: the scan, then the write-back of a hit, the hit value, or `set` |
| `SrcNLevelCache.ScanFromStops` | src/index.js:29-41 | the scan stops at the first level whose probe `isValue` accepts and returns that value and index; past the end it returns `caches.length` and the last value read |
| `SrcNLevelCache.ScanFindsFirstHit` | src/index.js:32-33 | the scan's index is `i` if and only if every level before `i` misses and level `i`, when there is one, hits |
| `SrcNLevelCache.ScanMisses` | src/index.js:32-33 | with no hit, the index is `caches.length` and the value is one `isValue` rejects (over zero levels: when `isValue` rejects `undefined`, as the default does) |
| `SrcNLevelCache.ProbeTraceLevels` | src/index.js:35-38 | probing levels `0 .. m - 1` calls `get` on exactly those levels, in ascending order. It calls `onGetError` exactly on the failing levels that define it, and no `set` |
| `SrcNLevelCache.ProbeTraceComputes` | src/index.js:29-41 | probing never calls `compute` |
| `SrcNLevelCache.ProbeTraceArgs` | src/index.js:35 | every probe is made with the one key |
| `SrcNLevelCache.IssueTraceLevels` | src/index.js:52-53 | the fan-out calls `set` on levels `0 .. hi - 1`, in ascending order, and nothing else |
| `SrcNLevelCache.ReportTraceLevels` | src/index.js:54-56 | the reports go exactly to the levels whose `set` rejected and that define `onSetError`, once each, in level order |
| `SrcNLevelCache.WriteTraceLevels` | src/index.js:50-59 | writing levels `0 .. hi - 1` sets exactly those levels, ascending, and reports exactly the failing ones with a hook; no `get` is made |
| `SrcNLevelCache.WriteTraceCalls` | src/index.js:50-59 | the fan-out never calls `compute`, and each `set` carries the one key and value |
| `SrcNLevelCache.HitHydrates` | src/index.js:16-22 | with hydration on, a hit at `i` resolves to the hit value. It probes `0 .. i`, writes `0 .. i - 1` and leaves the other levels unchanged |
| `SrcNLevelCache.GetHitHydrates` | src/index.js:16-22 | a hit at `i` with hydration on probes exactly `0 .. i` and sets exactly `0 .. i - 1`, ascending (none for a hit at 0). Levels `i ..` are untouched, `compute` is not called and the hit value is returned |
| `SrcNLevelCache.GetHitWithoutHydrate` | src/index.js:16-24 | a hit with hydration off returns the hit value with no `set` and no change to any level |
| `SrcNLevelCache.SetRunShape` | src/index.js:43-48 | `set` with a known key calls `compute` once and settles as it does. On success every level is set, ascending, with the value; on rejection nothing is written |
| `SrcNLevelCache.MissFallsThrough` | src/index.js:24-25 | a full miss (over zero levels: when `isValue` rejects `undefined`, as the default does) probes every level and then does exactly what `set` does with the same key |
| `SrcNLevelCache.GetFullMiss` | src/index.js:24-25 | a full miss (over zero levels: when `isValue` rejects `undefined`, as the default does) probes each level once, calls `compute` once and settles as `compute` does. On success its value, even `null` or `undefined`, is written to every level in list order |
| `SrcNLevelCache.SetRunArgs` | src/index.js:43-48 | every level call of `set` uses one key, and every write stores the value `set` resolves to |
| `SrcNLevelCache.GetRunArgs` | src/index.js:14-25 | every level call of `get` uses `keyForQuery(query)`, and every write stores the value `get` resolves to |
| `SrcNLevelCache.GetWithoutLevels` | src/index.js:24-25 | with no levels, `get` settles as `compute` and calls only it, unless `isValue` accepts `undefined` |
| `SrcNLevelCache.SetWritesAll` | src/index.js:43-48 | `set(query)` probes nothing, calls `compute` once and settles as it does. On success it writes every level in ascending order, with the key derived from the query |
| `SrcNLevelCache.OnlyComputeRejects` | src/index.js:36-38 | `get` rejects only when it called `compute` and `compute` rejected, with that error and with nothing written or reported about a `set` |
| `SrcNLevelCache.NLevelCache.constructor` | src/index.js:4-11 | defaults: no levels, a `compute` resolving `undefined`, `isValue` rejecting `null`/`undefined`, hydration on unless `false` is given, identity keys |
| `SrcNLevelCache.NLevelCache.Get` | src/index.js:13-27 | returns, calls and leaves the levels exactly as `GetRun` of the levels before the call says |
| `SrcNLevelCache.NLevelCache.GetCaches` | src/index.js:29-41 | the loop's `{value, index}` is the scan of the levels, with the probes of levels `0 .. index` (or all of them) appended to the trace and no level changed |
| `SrcNLevelCache.NLevelCache.ProbeLevel` | src/index.js:35-38 | one probe returns the stored value, or `undefined` after reporting the rejection to `onGetError` when defined |
| `SrcNLevelCache.NLevelCache.Set` | src/index.js:43-48 | returns, calls and leaves the levels exactly as `SetRun` of the levels before the call says |
| `SrcNLevelCache.NLevelCache.SetCaches` | src/index.js:50-59 | resolves to the value, appends all `set` calls and then the error reports, and leaves levels `0 .. hi - 1` written |
| `SrcNLevelCache.NLevelCache.IssueSets` | src/index.js:52-57 | `set` is called on levels `0 .. hi - 1` in order; each outcome is collected and every accepting level written |
| `SrcNLevelCache.NLevelCache.ReportSetErrors` | src/index.js:54-56 | each collected rejection is reported, in level order, to the levels that define `onSetError` |
| `RootNLevelCache.Reversed` | index.js:8 | `writers[k]` is level `n - 1 - k` |
| `RootNLevelCache.ForcedHydrate` | index.js:11 | `hydrate \|\| true` is true whatever is passed |
| `RootNLevelCache.ScanFrom` | index.js:31-39 | defines the read loop from level `k` on: read each level in turn and stop at the first rejected `get` or the first value `isValue` accepts, or past the last level with the last value read |
| `RootNLevelCache.Scan` | index.js:31-39 | defines `_getCaches`: the read loop from level 0, starting from `undefined` |
| `RootNLevelCache.ReadTrace` | index.js:36 | defines the calls of reading levels `0 .. m - 1`: one `get(key)` each, in order |
| `RootNLevelCache.WriteDown` | index.js:48-55 | defines the write chain over levels `m - 1` down to 0: each `set` runs after the one before resolves, and the first rejection settles the chain |
| `RootNLevelCache.SetCallsDown` | index.js:52 | defines the calls of a chain that reaches level `lo`: `set(key, value)` on levels `hi - 1` down to `lo` |
| `RootNLevelCache.SetRun` | index.js:41-46 | defines the outcome, the calls and the new levels of `set`: `compute`, then the write chain over every level under the given or derived key |
| `RootNLevelCache.GetRun` | index.js:15-29 | defines the outcome, the calls and the new levels of `get`: the scan, then its rejection, the write-back of a hit, the hit value, or `set` |
| `RootNLevelCache.ScanFromStops` | index.js:31-39 | the scan stops at the first hit or the first rejected `get`, whose error it carries; all levels before the stop miss; past the end it returns the last value read |
| `RootNLevelCache.ScanStopsAt` | index.js:34-36 | the scan stops at `i` if and only if every level before `i` misses and level `i`, if any, hits or rejects |
| `RootNLevelCache.ScanRunsOff` | index.js:35 | when every level misses, the scan ends at `caches.length` with the last level's value (`undefined` over zero levels) |
| `RootNLevelCache.ReadTraceSummary` | index.js:36 | reading `m` levels calls `get` on levels `0 .. m - 1` once each, nearest first, and nothing else |
| `RootNLevelCache.ReadTraceArgs` | index.js:36 | every read uses the one key |
| `RootNLevelCache.WriteDownResult` | index.js:48-55 | a chain that stops at `f` resolves to the value when every write succeeds and otherwise rejects with the error of the first failing write |
| `RootNLevelCache.WriteDownTrace` | index.js:50-52 | the chain calls `set` on levels `m - 1` down to the failing level (or 0), one at a time, and nothing after a rejection |
| `RootNLevelCache.WriteDownViews` | index.js:50-52 | the chain stores the entry in the levels above the failing one and leaves every other level as it was |
| `RootNLevelCache.TailReversed` | index.js:8-22 | the last `index` writers are the levels `index - 1` down to 0, in that order |
| `RootNLevelCache.HydratedStep` | index.js:50-52 | one more accepted write extends the written levels down by one level; a rejected one leaves them as they were |
| `RootNLevelCache.StopLevel` | index.js:51-52 | the chain's stopping point: the levels above it accept writes and the one just below, if any, rejects |
| `RootNLevelCache.StopsAtUnique` | index.js:51-52 | each chain has only one stopping point |
| `RootNLevelCache.WriteDownStops` | index.js:48-55 | for any stopping point that fits, the step-by-step chain resolves to the value (no stop) or rejects with the stopping level's error, issues `set` calls from the top level down to the stop, and writes exactly the levels above the stop |
| `RootNLevelCache.SetCallsDownSummary` | index.js:52 | the chain's calls write levels `hi - 1` down to `lo`, in that order, and make no read and no `compute` call |
| `RootNLevelCache.SetCallsDownArgs` | index.js:52 | every write of the chain is `set(key, value)` with the one key and value |
| `RootNLevelCache.HitWritesBack` | index.js:18-23 | a hit at `i` reads `0 .. i` and then runs the chain over the writers for levels `i - 1 .. 0` |
| `RootNLevelCache.GetHit` | index.js:18-23 | a hit at `i` reads `0 .. i` in order and writes levels `i - 1` down to the first rejection (or 0), farthest first. Levels `i ..` are untouched. It returns the hit value, or the failed write's error |
| `RootNLevelCache.HitCalls` | index.js:18-23 | the calls of a hit, summed up: reads `0 .. i` ascending, writes descending, no `compute` |
| `RootNLevelCache.ReadFailureRejects` | index.js:36 | a rejected read at `i` rejects `get` with its error: no later level is read, `compute` is not called and nothing is written |
| `RootNLevelCache.MissFallsThrough` | index.js:26-27 | a full miss (over zero levels: when `isValue` rejects `undefined`, as the default does) reads every level once, nearest first, then does exactly what `set` does with the same key |
| `RootNLevelCache.GetFullMiss` | index.js:26-27 | for every stopping point of the write chain, a full miss (over zero levels: when `isValue` rejects `undefined`, as the default does) calls `compute` once after the reads. A rejected `compute` rejects with nothing written. Otherwise `set` is called farthest first down to the first level that rejects the write, the levels above it are written, and `get` resolves to the value when every level accepts the write, or rejects with that level's error |
| `RootNLevelCache.SetWritesDown` | index.js:41-46 | `set` calls `compute` once. A rejection rejects with no write. Otherwise `set` is called on levels `n - 1` down to the first level that rejects the write, the levels above that one are written with the value, and `set` resolves to the value or rejects with that level's error |
| `RootNLevelCache.SetCalls` | index.js:41-46 | the calls of `set`, summed up: one `compute`, then writes, farthest first |
| `RootNLevelCache.GetWithoutLevels` | index.js:26-27 | with zero levels, `get` settles exactly as `compute` does, unless a custom `isValue` accepts `undefined` |
| `RootNLevelCache.DefaultSetWritesNull` | index.js:9 | with the default `compute`, `set` calls `set(key, null)` farthest first down to the first level that rejects the write, and writes the levels above it. It resolves to `null` when every level accepts the write, and otherwise rejects with that level's error |
| `RootNLevelCache.SuiteFullMiss` | test/index.js:44-108 | over three levels holding `null`, `get("abc")` reads levels 1, 2, 3, computes and writes `"123"` to levels 3, 2, 1, then returns `"123"` |
| `RootNLevelCache.NLevelCache.constructor` | index.js:4-13 | readers are the levels in order and writers reversed, with defaults: a `compute` resolving `null`, `isValue` rejecting `null`/`undefined`, hydration always on, identity keys |
| `RootNLevelCache.NLevelCache.Get` | index.js:15-29 | returns, calls and leaves the levels exactly as `GetRun` of the levels before the call says |
| `RootNLevelCache.NLevelCache.GetCaches` | index.js:31-39 | the loop settles as the scan of the levels, reads levels `0 ..` up to the stop and changes no level |
| `RootNLevelCache.NLevelCache.Set` | index.js:41-46 | returns, calls and leaves the levels exactly as `SetRun` of the levels before the call says |
| `RootNLevelCache.NLevelCache.SetCaches` | index.js:48-55 | over a tail of the writers, the loop settles, calls and leaves the levels exactly as the write chain `WriteDown` over that many levels |
| `RootNLevelCache.NLevelCache.ReadLevel` | index.js:36 | one reader call settles as the level's `get`, changes no level, and is recorded |
| `RootNLevelCache.NLevelCache.WriteLevel` | index.js:52 | one writer call settles as the level's `set`, changes only that level, and is recorded |

## Left out

- Promises and concurrency. Every chain is a sequence of steps.
  - The `Promise.all` in src/index.js issues every `set` before any settles. It is modelled as all writes issued in list order and then all rejections reported in list order.
  - How reports interleave with writes in real scheduling is not modelled.
- The `options` argument passed through to `compute`, `get` and `set` is dropped; the source never looks at it.
- What `onGetError` and `onSetError` do is out of scope. The trace records only which level's hook was called, and with which error.
- A level is an object holding a map, whose `get`/`set` either always or never reject. This abstracts the level interface that both coordinators call. Real backends, and faults that change over time, are not modelled.
- The test suite's mock levels (test/index.js:8-15) are not modelled as such: their `get` returns one fixed value for every key and never rejects, and their `set` records the call without storing anything.
- Both coordinators require their levels to be distinct objects. The same level listed twice is not modelled.
- `RootNLevelCache.NLevelCache.constructor` requires the `caches` option: index.js:7-8 calls `caches.map` on the raw option, which throws when it is missing.
- The readers and writers of index.js:7-8 are unbound methods, which lose `this` in JavaScript. The model calls them on their level.
- `SrcNLevelCache.NLevelCache.constructor` models `hydrate` as a boolean or missing. A non-boolean value such as `null`, which src/index.js:9 keeps and later tests for truthiness, is not modelled.
- `Levels.KeyOr` treats only the empty string as a falsy key, since keys are strings here.
- The `shouldCompute` option of the test suite is not modelled: neither revision reads it.
- The test suite loads one revision through `require('..')`. Its expected write order, farthest first, matches index.js and not src/index.js. `RootNLevelCache.SuiteFullMiss` restates that scenario for index.js only.

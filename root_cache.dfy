/**
 * The NLevelCache of index.js: the levels are read nearest first through
 * `readers` and written through `writers`, the same levels in reverse
 * order, so every write-back goes farthest first. Writes run strictly one
 * after another, and a rejected `get`, `set` or `compute` rejects the whole
 * operation on the spot. Hydration cannot be switched off.
 */
module RootNLevelCache {
  import opened Levels

  // ---------------------------------------------------------------------
  // The reversed writer list
  // ---------------------------------------------------------------------

  /** `s.reverse()`: element `k` of the result is element `|s| - 1 - k` of
      `s`. */
  function Reversed<T>(s: seq<T>): (r: seq<T>)
    ensures |r| == |s|
    ensures forall k :: 0 <= k < |s| ==> r[k] == s[|s| - 1 - k]
  {
    if s == [] then [] else [s[|s| - 1]] + Reversed(s[..|s| - 1])
  }

  /** `ws` are the writers for levels `|ws| - 1` down to 0. */
  ghost predicate WritersDown<T>(ws: seq<T>, levels: seq<T>)
  {
    |ws| <= |levels| && forall t :: 0 <= t < |ws| ==> ws[t] == levels[|ws| - 1 - t]
  }

  /** The last `i` writers are the writers for levels `i - 1` down to 0. */
  lemma TailReversed<T>(levels: seq<T>, writers: seq<T>, i: nat)
    requires |writers| == |levels| && i <= |levels|
    requires forall k :: 0 <= k < |writers| ==> writers[k] == levels[|levels| - 1 - k]
    ensures WritersDown(writers[|writers| - i..], levels)
  {
    var ws := writers[|writers| - i..];
    forall t | 0 <= t < i
      ensures ws[t] == levels[i - 1 - t]
    {
      assert ws[t] == writers[|writers| - i + t];
    }
  }

  /** `hydrate || true`: whatever is passed, the result is true. */
  function ForcedHydrate(hydrate: Option<bool>): (b: bool)
    ensures b
  {
    (hydrate.Some? && hydrate.value) || true
  }

  // ---------------------------------------------------------------------
  // The read scan (_getCaches)
  // ---------------------------------------------------------------------

  /** How the scan settles: with the `{value, index}` where it stopped, or
      with the rejection of the `get` of level `index`. */
  datatype Scanned = Found(value: JsVal, index: nat) | Failed(error: Err, index: nat)

  /** A level whose `get` resolves to something `isValue` rejects. */
  predicate Misses(v: LevelView, key: Key, isValue: JsVal -> bool)
  {
    v.getFault.None? && !isValue(Lookup(v.store, key))
  }

  /** The scan from level `k` on, `last` being the value of the previous
      read: it stops at the first level whose value `isValue` accepts, or
      at the first `get` that rejects, and otherwise runs off the end with
      the last value it read. */
  function ScanFrom(views: seq<LevelView>, key: Key, isValue: JsVal -> bool, k: nat, last: JsVal): Scanned
    requires k <= |views|
    decreases |views| - k
  {
    if k == |views| then Found(last, k)
    else
      match GetOutcome(views[k], key)
      case Rejected(e) => Failed(e, k)
      case Resolved(v) => if isValue(v) then Found(v, k) else ScanFrom(views, key, isValue, k + 1, v)
  }

  /** The scan from level `k` stops at the first level that hits or
      rejects: every level it passes misses, a rejection carries the level's
      error, and a hit carries the level's value. */
  lemma {:induction false} ScanFromStops(views: seq<LevelView>, key: Key, isValue: JsVal -> bool, k: nat, last: JsVal)
    requires k <= |views|
    ensures var s := ScanFrom(views, key, isValue, k, last);
      && k <= s.index <= |views|
      && (forall j :: k <= j < s.index ==> Misses(views[j], key, isValue))
      && (s.Failed? ==> s.index < |views| && views[s.index].getFault == Some(s.error))
      && (s.Found? && s.index < |views| ==>
            views[s.index].getFault.None? && s.value == Lookup(views[s.index].store, key) && isValue(s.value))
    decreases |views| - k
  {
    if k < |views| && Misses(views[k], key, isValue) {
      ScanFromStops(views, key, isValue, k + 1, Lookup(views[k].store, key));
    }
  }

  /** The whole scan; the `undefined` it starts from is never passed to `isValue`. */
  function Scan(views: seq<LevelView>, key: Key, isValue: JsVal -> bool): Scanned
  {
    ScanFrom(views, key, isValue, 0, Undefined)
  }

  /** The scan stops at level `i` exactly when every level before `i`
      misses and level `i`, if there is one, either hits or rejects. */
  lemma {:induction false} ScanStopsAt(views: seq<LevelView>, key: Key, isValue: JsVal -> bool, i: nat)
    requires i <= |views|
    ensures Scan(views, key, isValue).index == i <==>
      (forall j :: 0 <= j < i ==> Misses(views[j], key, isValue)) &&
      (i < |views| ==> !Misses(views[i], key, isValue))
  {
    var s := Scan(views, key, isValue);
    ScanFromStops(views, key, isValue, 0, Undefined);
    if s.index < i {
      assert !Misses(views[s.index], key, isValue);
    } else if s.index > i {
      assert Misses(views[i], key, isValue);
    }
  }

  /** When every level misses, the scan runs off the end with the last
      level's value, or with `undefined` over zero levels. */
  lemma {:induction false} ScanRunsOff(views: seq<LevelView>, key: Key, isValue: JsVal -> bool)
    requires forall j :: 0 <= j < |views| ==> Misses(views[j], key, isValue)
    ensures Scan(views, key, isValue) ==
      Found(if |views| == 0 then Undefined else Lookup(views[|views| - 1].store, key), |views|)
    decreases |views|
  {
    ScanStopsAt(views, key, isValue, |views|);
    if |views| > 0 {
      ScanLast(views, key, isValue, 0, Undefined);
    }
  }

  /** A scan over levels that all miss ends with the last level's value. */
  lemma {:induction false} ScanLast(views: seq<LevelView>, key: Key, isValue: JsVal -> bool, k: nat, last: JsVal)
    requires k < |views|
    requires forall j :: k <= j < |views| ==> Misses(views[j], key, isValue)
    ensures ScanFrom(views, key, isValue, k, last) == Found(Lookup(views[|views| - 1].store, key), |views|)
    decreases |views| - k
  {
    if k + 1 < |views| {
      ScanLast(views, key, isValue, k + 1, Lookup(views[k].store, key));
    }
  }

  /** How many levels the scan reads: up to and including the one it
      stopped at. */
  function Probes(s: Scanned, n: nat): nat
  {
    if s.index < n then s.index + 1 else n
  }

  /** The `get(key)` calls on levels `0 .. m - 1`, in order. */
  function ReadTrace(key: Key, m: nat): seq<Event>
  {
    if m == 0 then [] else ReadTrace(key, m - 1) + [GetCall(m - 1, key)]
  }

  /** Reading levels `0 .. m - 1` calls each one's `get` once, in
      ascending order, and nothing else. */
  lemma {:induction false} ReadTraceLevels(key: Key, m: nat, k: CallKind)
    ensures LevelsOf(ReadTrace(key, m), k) == if k == GetKind then Range(0, m) else []
  {
    if m == 0 {
      assert ReadTrace(key, m) == [];
    } else {
      var e := GetCall(m - 1, key);
      ReadTraceLevels(key, m - 1, k);
      LevelsOfConcat(ReadTrace(key, m - 1), [e], k);
      Single(e, k);
      if k == GetKind {
        assert Range(0, m) == Range(0, m - 1) + [m - 1];
      }
    }
  }

  /** Reading never calls `compute`. */
  lemma {:induction false} ReadTraceComputes(key: Key, m: nat)
    ensures Computes(ReadTrace(key, m)) == 0
  {
    if m == 0 {
      assert ReadTrace(key, m) == [];
    } else {
      var e := GetCall(m - 1, key);
      ReadTraceComputes(key, m - 1);
      ComputesConcat(ReadTrace(key, m - 1), [e]);
      Single(e, GetKind);
    }
  }

  /** Every read is made with `key`, and reading writes nothing. */
  lemma {:induction false} ReadTraceArgs(key: Key, m: nat, value: JsVal)
    ensures Keyed(ReadTrace(key, m), key) && Carries(ReadTrace(key, m), value)
  {
    if m > 0 {
      ReadTraceArgs(key, m - 1, value);
      SnocKeyed(ReadTrace(key, m - 1), GetCall(m - 1, key), key);
      SnocCarries(ReadTrace(key, m - 1), GetCall(m - 1, key), value);
    } else {
      assert ReadTrace(key, m) == [];
    }
  }

  /** Reading levels `0 .. m - 1`, summed up. */
  lemma {:induction false} ReadTraceSummary(key: Key, m: nat)
    ensures CallsOf(ReadTrace(key, m)) == Calls(Range(0, m), [], [], [], 0)
  {
    ReadTraceLevels(key, m, GetKind);
    ReadTraceLevels(key, m, GetErrorKind);
    ReadTraceLevels(key, m, SetKind);
    ReadTraceLevels(key, m, SetErrorKind);
    ReadTraceComputes(key, m);
  }

  // ---------------------------------------------------------------------
  // The write chain (_setCaches)
  // ---------------------------------------------------------------------

  /** `_setCaches` over writers for levels `m - 1, m - 2, ..., 0`: one
      `set` at a time, farthest level first; the first rejection ends the
      chain and becomes its result, otherwise it resolves to `value`. */
  function WriteDown(views: seq<LevelView>, m: nat, key: Key, value: JsVal): Run
    requires m <= |views|
    decreases m
  {
    if m == 0 then Run(Resolved(value), [], views)
    else
      var call := [SetCall(m - 1, key, value)];
      match SetOutcome(views[m - 1])
      case Rejected(e) => Run(Rejected(e), call, views)
      case Resolved(_) =>
        var rest := WriteDown(views[m - 1 := AfterSet(views[m - 1], key, value)], m - 1, key, value);
        Run(rest.result, call + rest.trace, rest.views)
  }

  /** The `set(key, value)` calls on levels `hi - 1` down to `lo`. */
  function SetCallsDown(lo: nat, hi: nat, key: Key, value: JsVal): seq<Event>
    decreases hi
  {
    if hi <= lo then [] else [SetCall(hi - 1, key, value)] + SetCallsDown(lo, hi - 1, key, value)
  }

  /** A chain over the levels below `m` stops at `f`: levels `f .. m - 1`
      accept the write and, when `f > 0`, level `f - 1` rejects it. */
  ghost predicate StopsAt(views: seq<LevelView>, m: nat, f: nat)
  {
    && f <= m <= |views|
    && (forall j :: f <= j < m ==> views[j].setFault.None?)
    && (f > 0 ==> views[f - 1].setFault.Some?)
  }

  /** The lowest level the chain calls: the rejecting one, or level 0. */
  function Reached(f: nat): nat
  {
    if f == 0 then 0 else f - 1
  }

  /** A chain that stops at `f` resolves to `value` when `f` is 0 and
      otherwise rejects with the error of level `f - 1`. */
  lemma {:induction false} WriteDownResult(views: seq<LevelView>, m: nat, key: Key, value: JsVal, f: nat)
    requires StopsAt(views, m, f)
    ensures WriteDown(views, m, key, value).result ==
      if f == 0 then Resolved(value) else Rejected(views[f - 1].setFault.value)
    decreases m
  {
    if m > 0 && f < m {
      var next := views[m - 1 := AfterSet(views[m - 1], key, value)];
      assert StopsAt(next, m - 1, f);
      WriteDownResult(next, m - 1, key, value, f);
    }
  }

  /** A chain that stops at `f` calls `set(key, value)` on levels `m - 1`
      down to the rejecting level (or to 0), one at a time, and nothing
      after the rejection. */
  lemma {:induction false} WriteDownTrace(views: seq<LevelView>, m: nat, key: Key, value: JsVal, f: nat)
    requires StopsAt(views, m, f)
    ensures WriteDown(views, m, key, value).trace == SetCallsDown(Reached(f), m, key, value)
    decreases m
  {
    if m > 0 && f < m {
      var next := views[m - 1 := AfterSet(views[m - 1], key, value)];
      assert StopsAt(next, m - 1, f);
      WriteDownTrace(next, m - 1, key, value, f);
    } else if m > 0 {
      assert SetCallsDown(Reached(f), m, key, value) == [SetCall(m - 1, key, value)] + [];
    }
  }

  /** A chain that stops at `f` stores the entry in levels `f .. m - 1`
      and leaves every other level as it was. */
  lemma {:induction false} WriteDownViews(views: seq<LevelView>, m: nat, key: Key, value: JsVal, f: nat)
    requires StopsAt(views, m, f)
    ensures WriteDown(views, m, key, value).views == Hydrated(views, f, m, key, value)
    decreases m
  {
    if m > 0 && f < m {
      var next := views[m - 1 := AfterSet(views[m - 1], key, value)];
      assert StopsAt(next, m - 1, f);
      WriteDownViews(next, m - 1, key, value, f);
      assert Hydrated(next, f, m - 1, key, value) == Hydrated(views, f, m, key, value);
    } else {
      assert Hydrated(views, f, m, key, value) == views;
    }
  }

  /** Where the chain over the levels below `m` stops: just above the
      highest level below `m` that rejects writes, or 0 when none does. */
  function StopLevel(views: seq<LevelView>, m: nat): (f: nat)
    requires m <= |views|
    ensures StopsAt(views, m, f)
  {
    if m == 0 then 0
    else if views[m - 1].setFault.Some? then m
    else StopLevel(views, m - 1)
  }

  /** The step-by-step chain settles, calls and leaves the levels exactly
      as stated by any stopping point that fits it. */
  lemma WriteDownStops(views: seq<LevelView>, m: nat, f: nat, key: Key, value: JsVal)
    requires StopsAt(views, m, f)
    ensures WriteDown(views, m, key, value) ==
      Run(if f == 0 then Resolved(value) else Rejected(views[f - 1].setFault.value),
          SetCallsDown(Reached(f), m, key, value), Hydrated(views, f, m, key, value))
  {
    WriteDownResult(views, m, key, value, f);
    WriteDownTrace(views, m, key, value, f);
    WriteDownViews(views, m, key, value, f);
  }

  /** Only one stopping point fits a chain. */
  lemma {:induction false} StopsAtUnique(views: seq<LevelView>, m: nat, f: nat)
    requires StopsAt(views, m, f)
    ensures StopLevel(views, m) == f
    decreases m
  {
    if m > 0 && f < m {
      StopsAtUnique(views, m - 1, f);
    }
  }

  /** Writing level `lo - 1` extends the written range down by one, and a
      level that rejects writes is left as it was. */
  lemma HydratedStep(views: seq<LevelView>, lo: nat, m: nat, key: Key, value: JsVal)
    requires 0 < lo <= m <= |views|
    ensures Hydrated(views, lo, m, key, value)[lo - 1] == views[lo - 1]
    ensures Hydrated(views, lo, m, key, value)[lo - 1 := AfterSet(views[lo - 1], key, value)] ==
      Hydrated(views, lo - 1, m, key, value)
    ensures views[lo - 1].setFault.Some? ==> Hydrated(views, lo - 1, m, key, value) == Hydrated(views, lo, m, key, value)
  {
    var before := Hydrated(views, lo, m, key, value);
    var after := Hydrated(views, lo - 1, m, key, value);
    assert before[lo - 1 := AfterSet(views[lo - 1], key, value)] == after;
  }

  /** Writing one more level at the bottom of the chain. */
  lemma {:induction false} SetCallsDownSnoc(lo: nat, hi: nat, key: Key, value: JsVal)
    requires 0 < lo <= hi
    ensures SetCallsDown(lo - 1, hi, key, value) == SetCallsDown(lo, hi, key, value) + [SetCall(lo - 1, key, value)]
    decreases hi
  {
    if lo < hi {
      SetCallsDownSnoc(lo, hi - 1, key, value);
      Assoc([SetCall(hi - 1, key, value)], SetCallsDown(lo, hi - 1, key, value), [SetCall(lo - 1, key, value)]);
    } else {
      assert SetCallsDown(lo - 1, hi, key, value) == [SetCall(lo - 1, key, value)] + [];
    }
  }

  /** The calls on levels `hi - 1` down to `lo` write exactly those levels,
      in descending order. */
  lemma {:induction false} SetCallsDownWrites(lo: nat, hi: nat, key: Key, value: JsVal)
    ensures LevelsOf(SetCallsDown(lo, hi, key, value), SetKind) == Descending(lo, hi)
    decreases hi
  {
    if hi <= lo {
      assert SetCallsDown(lo, hi, key, value) == [];
    } else {
      var e := SetCall(hi - 1, key, value);
      var rest := SetCallsDown(lo, hi - 1, key, value);
      SetCallsDownWrites(lo, hi - 1, key, value);
      LevelsOfConcat([e], rest, SetKind);
      Single(e, SetKind);
    }
  }

  /** Those calls make no call of any other kind. */
  lemma {:induction false} SetCallsDownOnlyWrites(lo: nat, hi: nat, key: Key, value: JsVal, k: CallKind)
    requires k != SetKind
    ensures LevelsOf(SetCallsDown(lo, hi, key, value), k) == []
    decreases hi
  {
    if hi <= lo {
      assert SetCallsDown(lo, hi, key, value) == [];
    } else {
      var e := SetCall(hi - 1, key, value);
      var rest := SetCallsDown(lo, hi - 1, key, value);
      SetCallsDownOnlyWrites(lo, hi - 1, key, value, k);
      LevelsOfConcat([e], rest, k);
      Single(e, k);
    }
  }

  /** Those calls never call `compute`. */
  lemma {:induction false} SetCallsDownComputes(lo: nat, hi: nat, key: Key, value: JsVal)
    ensures Computes(SetCallsDown(lo, hi, key, value)) == 0
    decreases hi
  {
    if hi <= lo {
      assert SetCallsDown(lo, hi, key, value) == [];
    } else {
      var e := SetCall(hi - 1, key, value);
      SetCallsDownComputes(lo, hi - 1, key, value);
      ComputesConcat([e], SetCallsDown(lo, hi - 1, key, value));
      Single(e, SetKind);
    }
  }

  /** Every one of those calls is `set(key, value)`. */
  lemma {:induction false} SetCallsDownArgs(lo: nat, hi: nat, key: Key, value: JsVal)
    ensures Keyed(SetCallsDown(lo, hi, key, value), key) && Carries(SetCallsDown(lo, hi, key, value), value)
    decreases hi
  {
    if hi > lo {
      var e := SetCall(hi - 1, key, value);
      SetCallsDownArgs(lo, hi - 1, key, value);
      SnocKeyed([], e, key);
      SnocCarries([], e, value);
      assert [] + [e] == [e];
      ConcatCalls([e], SetCallsDown(lo, hi - 1, key, value), key, value);
    } else {
      assert SetCallsDown(lo, hi, key, value) == [];
    }
  }

  /** Writing levels `hi - 1` down to `lo`, summed up. */
  lemma {:induction false} SetCallsDownSummary(lo: nat, hi: nat, key: Key, value: JsVal)
    ensures CallsOf(SetCallsDown(lo, hi, key, value)) == Calls([], [], Descending(lo, hi), [], 0)
  {
    SetCallsDownOnlyWrites(lo, hi, key, value, GetKind);
    SetCallsDownOnlyWrites(lo, hi, key, value, GetErrorKind);
    SetCallsDownWrites(lo, hi, key, value);
    SetCallsDownOnlyWrites(lo, hi, key, value, SetErrorKind);
    SetCallsDownComputes(lo, hi, key, value);
  }

  // ---------------------------------------------------------------------
  // get and set, as functions of the levels before the call
  // ---------------------------------------------------------------------

  /** `set(query, options, key)`: compute, then write every level, farthest
      first. A given `key` is reused unless it is falsy. */
  function SetRun(views: seq<LevelView>, c: Config, query: Query, key: Option<Key>): Run
  {
    match c.compute(query)
    case Rejected(e) => Run(Rejected(e), [ComputeCall(query)], views)
    case Resolved(value) =>
      var w := WriteDown(views, |views|, KeyOr(key, c.keyForQuery(query)), value);
      Run(w.result, [ComputeCall(query)] + w.trace, w.views)
  }

  /** `get(query, options)`: scan; a rejected read rejects; a hit is
      written back into the nearer levels, farthest first; otherwise an
      accepted value is returned, or the call falls through to `set` with
      the same key. */
  function GetRun(views: seq<LevelView>, c: Config, query: Query): Run
  {
    var key := c.keyForQuery(query);
    var s := Scan(views, key, c.isValue);
    var probes := ReadTrace(key, Probes(s, |views|));
    if s.Failed? then Run(Rejected(s.error), probes, views)
    else if c.hydrate && s.index < |views| then
      var w := WriteDown(views, s.index, key, s.value);
      Run(w.result, probes + w.trace, w.views)
    else if c.isValue(s.value) then Run(Resolved(s.value), probes, views)
    else
      var r := SetRun(views, c, query, Some(key));
      Run(r.result, probes + r.trace, r.views)
  }

  /** A hit at level `i`: levels `0 .. i` are read, then the levels before
      `i` are written from `i - 1` down, as far as the first rejection. */
  lemma {:induction false} HitWritesBack(views: seq<LevelView>, c: Config, query: Query, key: Key, i: nat)
    requires key == c.keyForQuery(query) && c.hydrate
    requires i < |views|
    requires forall j :: 0 <= j < i ==> Misses(views[j], key, c.isValue)
    requires views[i].getFault.None? && c.isValue(Lookup(views[i].store, key))
    ensures var w := WriteDown(views, i, key, Lookup(views[i].store, key));
      GetRun(views, c, query) == Run(w.result, ReadTrace(key, i + 1) + w.trace, w.views)
  {
    ScanStopsAt(views, key, c.isValue, i);
    ScanFromStops(views, key, c.isValue, 0, Undefined);
  }

  /** A hit at level `i` with the levels `f .. i - 1` accepting writes and
      level `f - 1` (if `f > 0`) rejecting: levels `0 .. i` are read in
      order, then levels `i - 1` down to `f - 1` (or to 0) are written with
      the hit value, farthest first, and nothing after a rejection. The
      call resolves to the hit value when every write succeeds (always for
      a hit at 0) and otherwise rejects with the failed write's error;
      levels outside `f .. i - 1` keep their entries. */
  lemma {:induction false} GetHit(views: seq<LevelView>, c: Config, query: Query, key: Key, i: nat, f: nat)
    requires key == c.keyForQuery(query) && c.hydrate
    requires i < |views|
    requires forall j :: 0 <= j < i ==> Misses(views[j], key, c.isValue)
    requires views[i].getFault.None? && c.isValue(Lookup(views[i].store, key))
    requires StopsAt(views, i, f)
    ensures var run := GetRun(views, c, query);
      var value := Lookup(views[i].store, key);
      && run.result == (if f == 0 then Resolved(value) else Rejected(views[f - 1].setFault.value))
      && run.trace == ReadTrace(key, i + 1) + SetCallsDown(Reached(f), i, key, value)
      && run.views == Hydrated(views, f, i, key, value)
  {
    var value := Lookup(views[i].store, key);
    HitWritesBack(views, c, query, key, i);
    WriteDownResult(views, i, key, value, f);
    WriteDownTrace(views, i, key, value, f);
    WriteDownViews(views, i, key, value, f);
  }

  /** Reading levels `0 .. i`, then writing `i - 1` down to `lo`, summed
      up. */
  lemma {:induction false} HitCalls(key: Key, i: nat, lo: nat, value: JsVal)
    ensures CallsOf(ReadTrace(key, i + 1) + SetCallsDown(lo, i, key, value)) ==
      Calls(Range(0, i + 1), [], Descending(lo, i), [], 0)
  {
    ReadTraceSummary(key, i + 1);
    SetCallsDownSummary(lo, i, key, value);
    CallsOfConcat(ReadTrace(key, i + 1), SetCallsDown(lo, i, key, value));
    ReadsThenWrites(Range(0, i + 1), [], 0, Descending(lo, i), [], 0);
  }

  /** A rejected read at level `i` rejects `get` with that error: levels
      after `i` are not read, `compute` is not called and nothing is
      written. */
  lemma {:induction false} ReadFailureRejects(views: seq<LevelView>, c: Config, query: Query, key: Key, i: nat)
    requires key == c.keyForQuery(query)
    requires i < |views|
    requires forall j :: 0 <= j < i ==> Misses(views[j], key, c.isValue)
    requires views[i].getFault.Some?
    ensures GetRun(views, c, query) == Run(Rejected(views[i].getFault.value), ReadTrace(key, i + 1), views)
  {
    ScanStopsAt(views, key, c.isValue, i);
    ScanFromStops(views, key, c.isValue, 0, Undefined);
  }

  /** A full miss reads every level once, nearest first, then does what
      `set` does with the same key. Over zero levels this needs an
      `isValue` that rejects `undefined`, as the default does. */
  lemma {:induction false} MissFallsThrough(views: seq<LevelView>, c: Config, query: Query, key: Key)
    requires key == c.keyForQuery(query)
    requires forall j :: 0 <= j < |views| ==> Misses(views[j], key, c.isValue)
    requires |views| == 0 ==> !c.isValue(Undefined)
    ensures var r := SetRun(views, c, query, Some(key));
      GetRun(views, c, query) == Run(r.result, ReadTrace(key, |views|) + r.trace, r.views)
  {
    ScanRunsOff(views, key, c.isValue);
  }

  /** A full miss, with the write chain stopping at `f`: every level is
      read once, nearest first, and `compute` runs once. A rejected
      `compute` rejects `get` with nothing written. Otherwise its value is
      written farthest first down to the first level that rejects the
      write, and `get` resolves to the value when no level rejects (`f ==
      0`) or rejects with that level's error. */
  lemma {:induction false} GetFullMiss(views: seq<LevelView>, c: Config, query: Query, key: Key, f: nat)
    requires key == c.keyForQuery(query)
    requires forall j :: 0 <= j < |views| ==> Misses(views[j], key, c.isValue)
    requires |views| == 0 ==> !c.isValue(Undefined)
    requires StopsAt(views, |views|, f)
    ensures var run := GetRun(views, c, query);
      var probes := ReadTrace(key, |views|);
      && (c.compute(query).Rejected? ==> run == Run(c.compute(query), probes + [ComputeCall(query)], views))
      && (c.compute(query).Resolved? ==>
            var value := c.compute(query).value;
            && run.result == (if f == 0 then Resolved(value) else Rejected(views[f - 1].setFault.value))
            && run.trace == probes + ([ComputeCall(query)] + SetCallsDown(Reached(f), |views|, key, value))
            && run.views == Hydrated(views, f, |views|, key, value))
  {
    MissFallsThrough(views, c, query, key);
    SetWritesDown(views, c, query, Some(key), f);
  }

  /** `set` with every level accepting writes from `f` up and level `f - 1`
      (if `f > 0`) rejecting: `compute` runs once; a rejection of it
      rejects `set` with no write; otherwise levels `n - 1` down to `f - 1`
      (or to 0) are written with the computed value, one after another,
      and `set` resolves to that value, or rejects with the failed write's
      error. */
  lemma {:induction false} SetWritesDown(views: seq<LevelView>, c: Config, query: Query, key: Option<Key>, f: nat)
    requires StopsAt(views, |views|, f)
    ensures var run := SetRun(views, c, query, key);
      var k := KeyOr(key, c.keyForQuery(query));
      && (c.compute(query).Rejected? ==> run == Run(c.compute(query), [ComputeCall(query)], views))
      && (c.compute(query).Resolved? ==>
            var value := c.compute(query).value;
            && run.result == (if f == 0 then Resolved(value) else Rejected(views[f - 1].setFault.value))
            && run.trace == [ComputeCall(query)] + SetCallsDown(Reached(f), |views|, k, value)
            && run.views == Hydrated(views, f, |views|, k, value))
  {
    if c.compute(query).Resolved? {
      var value := c.compute(query).value;
      var k := KeyOr(key, c.keyForQuery(query));
      WriteDownResult(views, |views|, k, value, f);
      WriteDownTrace(views, |views|, k, value, f);
      WriteDownViews(views, |views|, k, value, f);
    }
  }

  /** Calling `compute`, then writing `n - 1` down to `lo`, summed up. */
  lemma {:induction false} SetCalls(query: Query, n: nat, lo: nat, key: Key, value: JsVal)
    ensures CallsOf([ComputeCall(query)] + SetCallsDown(lo, n, key, value)) ==
      Calls([], [], Descending(lo, n), [], 1)
  {
    var compute := [ComputeCall(query)];
    Single(ComputeCall(query), GetKind);
    Single(ComputeCall(query), GetErrorKind);
    Single(ComputeCall(query), SetKind);
    Single(ComputeCall(query), SetErrorKind);
    SetCallsDownSummary(lo, n, key, value);
    CallsOfConcat(compute, SetCallsDown(lo, n, key, value));
    ReadsThenWrites([], [], 1, Descending(lo, n), [], 0);
  }

  /** With zero levels, `get` settles exactly as `compute` does, unless a
      custom `isValue` accepts the `undefined` the scan starts from. */
  lemma {:induction false} GetWithoutLevels(c: Config, query: Query)
    ensures GetRun([], c, query) ==
      if c.isValue(Undefined) then Run(Resolved(Undefined), [], [])
      else Run(c.compute(query), [ComputeCall(query)], [])
  {
    var key := c.keyForQuery(query);
    assert Scan([], key, c.isValue) == Found(Undefined, 0);
    assert ReadTrace(key, 0) == [];
    if !c.isValue(Undefined) && c.compute(query).Resolved? {
      var w := WriteDown([], 0, KeyOr(Some(key), key), c.compute(query).value);
      assert w == Run(c.compute(query), [], []);
      assert [ComputeCall(query)] + [] == [ComputeCall(query)];
    }
  }

  /** With the default `compute`, `set` stores `null` farthest first down
      to the first level that rejects the write (the chain stops at `f`),
      and resolves to `null` when no level rejects it. */
  lemma {:induction false} DefaultSetWritesNull(views: seq<LevelView>, c: Config, query: Query, f: nat)
    requires forall q :: c.compute(q) == Resolved(Null)
    requires StopsAt(views, |views|, f)
    ensures var run := SetRun(views, c, query, None);
      var k := c.keyForQuery(query);
      && run.result == (if f == 0 then Resolved(Null) else Rejected(views[f - 1].setFault.value))
      && run.trace == [ComputeCall(query)] + SetCallsDown(Reached(f), |views|, k, Null)
      && run.views == Hydrated(views, f, |views|, k, Null)
  {
    SetWritesDown(views, c, query, None, f);
  }

  // ---------------------------------------------------------------------
  // The scenario of the test suite
  // ---------------------------------------------------------------------

  /** A level holding `null` for `"abc"`, like the suite's mock levels. */
  function NullLevel(): LevelView
  {
    LevelView(map["abc" := Null], None, None, false, false)
  }

  /** The suite's configuration: identity keys, the default `isValue`,
      and a `compute` resolving `"123"`. */
  function SuiteConfig(): Config
  {
    Config(_ => Resolved(V("123")), DefaultIsValue, true, Identity)
  }

  /** `get("abc")` over three levels holding `null`: the levels are read
      1, 2, 3, `compute` runs, the value is written to levels 3, 2, 1 in
      that order, and `"123"` is returned. */
  lemma {:induction false} SuiteFullMiss()
    ensures var views := [NullLevel(), NullLevel(), NullLevel()];
      var run := GetRun(views, SuiteConfig(), "abc");
      && run.result == Resolved(V("123"))
      && run.trace == [GetCall(0, "abc"), GetCall(1, "abc"), GetCall(2, "abc"), ComputeCall("abc"),
                       SetCall(2, "abc", V("123")), SetCall(1, "abc", V("123")), SetCall(0, "abc", V("123"))]
  {
    var views := [NullLevel(), NullLevel(), NullLevel()];
    var c := SuiteConfig();
    var v := V("123");
    var r := SetRun(views, c, "abc", Some("abc"));
    assert r.result == Resolved(v) && r.trace == [ComputeCall("abc")] + SetCallsDown(0, 3, "abc", v) by {
      SetWritesDown(views, c, "abc", Some("abc"), 0);
    }
    assert GetRun(views, c, "abc") == Run(r.result, ReadTrace("abc", 3) + r.trace, r.views) by {
      assert Lookup(NullLevel().store, "abc") == Null;
      MissFallsThrough(views, c, "abc", "abc");
    }
    assert ReadTrace("abc", 3) == [GetCall(0, "abc"), GetCall(1, "abc"), GetCall(2, "abc")];
    assert SetCallsDown(0, 3, "abc", v) == [SetCall(2, "abc", v), SetCall(1, "abc", v), SetCall(0, "abc", v)];
  }

  // ---------------------------------------------------------------------
  // The coordinator
  // ---------------------------------------------------------------------

  class NLevelCache {
    const caches: seq<Level>
    /** `caches.map(cache => cache.get)`: the levels in list order. */
    const readers: seq<Level>
    /** `caches.map(cache => cache.set).reverse()`: the levels farthest
        first. */
    const writers: seq<Level>
    const compute: Query -> Settled<JsVal>
    const isValue: JsVal -> bool
    const hydrate: bool
    const keyForQuery: Query -> Key
    /** Every call made so far on the levels and `compute`. */
    ghost var trace: seq<Event>

    ghost predicate Valid()
    {
      && Distinct(caches)
      && readers == caches
      && |writers| == |caches|
      && (forall k :: 0 <= k < |writers| ==> writers[k] == caches[|caches| - 1 - k])
    }

    function Settings(): Config
    {
      Config(compute, isValue, hydrate, keyForQuery)
    }

    /** The levels as they are now. */
    ghost function Views(): seq<LevelView>
      reads caches
    {
      ViewsOf(caches)
    }

    /** The constructor reads the levels forward and writes them in
        reverse, fills in a `compute` that resolves `null`, an `isValue`
        that rejects `null` and `undefined` and the identity as key
        derivation, and always hydrates. The level list must be given. */
    constructor (options: Options)
      requires options.caches.Some? && Distinct(options.caches.value)
      ensures Valid() && trace == []
      ensures caches == options.caches.value
      ensures options.compute.Some? ==> compute == options.compute.value
      ensures options.compute.None? ==> forall q :: compute(q) == Resolved(Null)
      ensures options.isValue.Some? ==> isValue == options.isValue.value
      ensures options.isValue.None? ==> forall x :: isValue(x) <==> x != Null && x != Undefined
      ensures hydrate
      ensures options.keyForQuery.Some? ==> keyForQuery == options.keyForQuery.value
      ensures options.keyForQuery.None? ==> forall q :: keyForQuery(q) == q
    {
      caches := options.caches.value;
      readers := options.caches.value;
      writers := Reversed(options.caches.value);
      match options.compute {
        case Some(f) => compute := f;
        case None => compute := _ => Resolved(Null);
      }
      match options.isValue {
        case Some(f) => isValue := f;
        case None => isValue := DefaultIsValue;
      }
      hydrate := ForcedHydrate(options.hydrate);
      match options.keyForQuery {
        case Some(f) => keyForQuery := f;
        case None => keyForQuery := Identity;
      }
      trace := [];
    }

    /** `get(query)`. */
    method Get(query: Query) returns (r: Settled<JsVal>)
      requires Valid()
      modifies this`trace, caches
      ensures var run := GetRun(old(Views()), Settings(), query);
        r == run.result && trace == old(trace) + run.trace && Views() == run.views
    {
      ghost var views := Views();
      ghost var t0 := trace;
      ghost var run := GetRun(views, Settings(), query);
      var key := keyForQuery(query);
      var s := GetCaches(key);
      ghost var probes := ReadTrace(key, Probes(s, |views|));
      if s.Failed? {
        assert run == Run(Rejected(s.error), probes, views);
        r := Rejected(s.error);
        return;
      }
      if hydrate {
        var len := |writers|;
        var isCacheValue := s.index < len;
        if isCacheValue {
          ghost var w := WriteDown(views, s.index, key, s.value);
          assert run == Run(w.result, probes + w.trace, w.views);
          TailReversed(caches, writers, s.index);
          r := SetCaches(writers[len - s.index..], key, s.value);
          Assoc(t0, probes, w.trace);
          return;
        }
      }
      if isValue(s.value) {
        assert run == Run(Resolved(s.value), probes, views);
        r := Resolved(s.value);
        return;
      }
      ghost var rs := SetRun(views, Settings(), query, Some(key));
      assert run == Run(rs.result, probes + rs.trace, rs.views);
      r := Set(query, Some(key));
      Assoc(t0, probes, rs.trace);
    }

    /** `_getCaches(readers, key)`: read the levels in order until
        `isValue` accepts a value; a rejected read ends the scan with its
        error. */
    method GetCaches(key: Key) returns (s: Scanned)
      requires Valid()
      modifies this`trace
      ensures Views() == old(Views())
      ensures s == Scan(old(Views()), key, isValue)
      ensures trace == old(trace) + ReadTrace(key, Probes(s, |caches|))
    {
      ghost var views := Views();
      var value := Undefined;
      var index := 0;
      while index < |readers|
        invariant index <= |readers|
        invariant Views() == views
        invariant Scan(views, key, isValue) == ScanFrom(views, key, isValue, index, value)
        invariant trace == old(trace) + ReadTrace(key, index)
        decreases |readers| - index
      {
        ghost var last := value;
        var got := ReadLevel(index, views[index], key);
        Assoc(old(trace), ReadTrace(key, index), [GetCall(index, key)]);
        if got.Rejected? {
          s := Failed(got.error, index);
          assert ScanFrom(views, key, isValue, index, last) == s;
          assert Probes(s, |caches|) == index + 1;
          return;
        }
        value := got.value;
        if isValue(value) {
          s := Found(value, index);
          assert ScanFrom(views, key, isValue, index, last) == s;
          assert Probes(s, |caches|) == index + 1;
          return;
        }
        assert ScanFrom(views, key, isValue, index, last) == ScanFrom(views, key, isValue, index + 1, value);
        index := index + 1;
      }
      s := Found(value, index);
      assert Probes(s, |caches|) == index;
    }

    /** One reader call: `readers[index](key)`, which is level `index`'s
        `get`. */
    method ReadLevel(index: nat, ghost before: LevelView, key: Key) returns (got: Settled<JsVal>)
      requires Valid() && index < |caches| && caches[index].View() == before
      modifies this`trace
      ensures got == GetOutcome(before, key)
      ensures trace == old(trace) + [GetCall(index, key)]
    {
      got := readers[index].Get(key);
      trace := trace + [GetCall(index, key)];
    }

    /** `set(query, options, key)`: compute, then write every level
        through the writers, farthest first. */
    method Set(query: Query, key: Option<Key>) returns (r: Settled<JsVal>)
      requires Valid()
      modifies this`trace, caches
      ensures var run := SetRun(old(Views()), Settings(), query, key);
        r == run.result && trace == old(trace) + run.trace && Views() == run.views
    {
      var computed := compute(query);
      trace := trace + [ComputeCall(query)];
      match computed
      case Rejected(e) =>
        r := Rejected(e);
      case Resolved(value) =>
        var k := KeyOr(key, keyForQuery(query));
        r := SetCaches(writers, k, value);
        Assoc(old(trace), [ComputeCall(query)], WriteDown(old(Views()), |caches|, k, value).trace);
    }

    /** `_setCaches(ws, key, value)` over a tail of the writers, that is
        over levels `|ws| - 1` down to 0: each `set` waits for the one
        before, and the first rejection stops the chain. */
    method SetCaches(ws: seq<Level>, key: Key, value: JsVal) returns (r: Settled<JsVal>)
      requires Valid()
      requires WritersDown(ws, caches)
      modifies this`trace, caches
      ensures var w := WriteDown(old(Views()), |ws|, key, value);
        r == w.result && trace == old(trace) + w.trace && Views() == w.views
    {
      ghost var views := Views();
      ghost var m := |ws|;
      ghost var lo := m;
      var index := 0;
      while index < |ws|
        invariant index <= m && lo == m - index
        invariant forall i :: lo <= i < m ==> views[i].setFault.None?
        invariant trace == old(trace) + SetCallsDown(lo, m, key, value)
        invariant Views() == Hydrated(views, lo, m, key, value)
        decreases m - index
      {
        ghost var j := lo - 1;
        var w := WriteLevel(ws[index], j, key, value);
        SetCallsDownSnoc(lo, m, key, value);
        Assoc(old(trace), SetCallsDown(lo, m, key, value), [SetCall(j, key, value)]);
        HydratedStep(views, lo, m, key, value);
        if w.Rejected? {
          WriteDownStops(views, m, lo, key, value);
          r := Rejected(w.error);
          return;
        }
        index := index + 1;
        lo := j;
      }
      WriteDownStops(views, m, 0, key, value);
      r := Resolved(value);
    }

    /** One `set` of the chain: `cache`, which is level `j`, stores the
        entry or rejects. */
    method WriteLevel(cache: Level, ghost j: nat, key: Key, value: JsVal) returns (w: Settled<()>)
      requires Valid() && j < |caches| && cache == caches[j]
      modifies this`trace, cache
      ensures w == SetOutcome(old(Views())[j])
      ensures Views() == old(Views())[j := AfterSet(old(Views())[j], key, value)]
      ensures trace == old(trace) + [SetCall(j, key, value)]
    {
      w := cache.Set(key, value);
      trace := trace + [SetCall(j, key, value)];
      assert forall i :: 0 <= i < |caches| && i != j ==> caches[i].View() == old(caches[i].View());
    }
  }
}

/**
 * The NLevelCache of src/index.js: levels are probed nearest first, a
 * rejected `get` counts as a miss, a hit is written back into the nearer
 * levels nearest first, a full miss calls `compute` and writes every level
 * nearest first, and a rejected `set` is reported and otherwise ignored.
 */
module SrcNLevelCache {
  import opened Levels

  // ---------------------------------------------------------------------
  // The read scan (_getCaches)
  // ---------------------------------------------------------------------

  /** The value one probe hands to the next step: what the level's `get`
      resolved to, or `undefined` when it rejected. */
  function Probe(v: LevelView, key: Key): (x: JsVal)
    ensures v.getFault.Some? ==> x == Undefined
    ensures v.getFault.None? ==> x == Lookup(v.store, key)
  {
    match GetOutcome(v, key)
    case Resolved(x) => x
    case Rejected(_) => Undefined
  }

  /** The `{value, index}` the scan resolves to. */
  datatype ScanResult = ScanResult(value: JsVal, index: nat)

  /** The scan from level `k` on, `last` being the value of the previous
      probe: it stops at the first level whose value `isValue` accepts, and
      otherwise runs off the end with the last value it saw. */
  function ScanFrom(views: seq<LevelView>, key: Key, isValue: JsVal -> bool, k: nat, last: JsVal): ScanResult
    requires k <= |views|
    decreases |views| - k
  {
    if k == |views| then ScanResult(last, k)
    else
      var v := Probe(views[k], key);
      if isValue(v) then ScanResult(v, k) else ScanFrom(views, key, isValue, k + 1, v)
  }

  /** The scan from level `k` stops at the first level whose probe `isValue`
      accepts and returns that value and index; if none does, it returns
      `caches.length` and the last value it saw. */
  lemma {:induction false} ScanFromStops(views: seq<LevelView>, key: Key, isValue: JsVal -> bool, k: nat, last: JsVal)
    requires k <= |views|
    ensures var s := ScanFrom(views, key, isValue, k, last);
      && k <= s.index <= |views|
      && (forall j :: k <= j < s.index ==> !isValue(Probe(views[j], key)))
      && (s.index < |views| ==> s.value == Probe(views[s.index], key) && isValue(s.value))
      && (s.index == |views| ==> s.value == if k < |views| then Probe(views[|views| - 1], key) else last)
    decreases |views| - k
  {
    if k < |views| && !isValue(Probe(views[k], key)) {
      ScanFromStops(views, key, isValue, k + 1, Probe(views[k], key));
    }
  }

  function Scan(views: seq<LevelView>, key: Key, isValue: JsVal -> bool): ScanResult
  {
    ScanFrom(views, key, isValue, 0, Undefined)
  }

  /** The scan's index is the first level that hits, or the number of levels
      when none does. */
  lemma {:induction false} ScanFindsFirstHit(views: seq<LevelView>, key: Key, isValue: JsVal -> bool, i: nat)
    requires i <= |views|
    ensures Scan(views, key, isValue).index == i <==>
      (forall j :: 0 <= j < i ==> !isValue(Probe(views[j], key))) &&
      (i < |views| ==> isValue(Probe(views[i], key)))
  {
    var s := Scan(views, key, isValue);
    ScanFromStops(views, key, isValue, 0, Undefined);
    if s.index < i {
      assert isValue(Probe(views[s.index], key));
    } else if s.index > i {
      assert !isValue(Probe(views[i], key));
    }
  }

  /** When no level hits, the scan runs off the end with a value `isValue`
      rejects: the last level's, or `undefined` over zero levels. */
  lemma {:induction false} ScanMisses(views: seq<LevelView>, key: Key, isValue: JsVal -> bool)
    requires forall j :: 0 <= j < |views| ==> !isValue(Probe(views[j], key))
    requires |views| == 0 ==> !isValue(Undefined)
    ensures Scan(views, key, isValue).index == |views|
    ensures !isValue(Scan(views, key, isValue).value)
  {
    ScanFindsFirstHit(views, key, isValue, |views|);
    ScanFromStops(views, key, isValue, 0, Undefined);
    if |views| > 0 {
      assert !isValue(Probe(views[|views| - 1], key));
    }
  }

  /** How many levels the scan probes: up to and including the hit. */
  function Probes(s: ScanResult, n: nat): nat
  {
    if s.index < n then s.index + 1 else n
  }

  /** The calls made by the probe of level `j`: its `get`, then its
      `onGetError` when the `get` rejected and the hook is defined. */
  function ProbeStep(j: nat, v: LevelView, key: Key): seq<Event>
  {
    if Reports(v, GetErrorKind) then [GetCall(j, key), GetErrorReported(j, v.getFault.value)]
    else [GetCall(j, key)]
  }

  /** The calls made by probing levels `0 .. m - 1` in order. */
  function ProbeTrace(views: seq<LevelView>, key: Key, m: nat): seq<Event>
    requires m <= |views|
  {
    if m == 0 then [] else ProbeTrace(views, key, m - 1) + ProbeStep(m - 1, views[m - 1], key)
  }

  /** One probe calls the level's `get` once, and its `onGetError` once
      when the `get` rejected and the hook is defined; nothing else. */
  lemma {:induction false} ProbeStepLevels(j: nat, v: LevelView, key: Key, k: CallKind)
    ensures LevelsOf(ProbeStep(j, v, key), k) ==
      if k == GetKind || (k == GetErrorKind && Reports(v, GetErrorKind)) then [j] else []
  {
    var get := GetCall(j, key);
    Single(get, k);
    if Reports(v, GetErrorKind) {
      var err := GetErrorReported(j, v.getFault.value);
      assert ProbeStep(j, v, key) == [get] + [err];
      LevelsOfConcat([get], [err], k);
      Single(err, k);
    }
  }

  /** One probe calls `get` with `key`, writes nothing and never calls
      `compute`. */
  lemma {:induction false} ProbeStepCalls(j: nat, v: LevelView, key: Key, value: JsVal)
    ensures Computes(ProbeStep(j, v, key)) == 0
    ensures Keyed(ProbeStep(j, v, key), key) && Carries(ProbeStep(j, v, key), value)
  {
    var get := GetCall(j, key);
    Single(get, GetKind);
    SnocKeyed([], get, key);
    SnocCarries([], get, value);
    assert [] + [get] == [get];
    if Reports(v, GetErrorKind) {
      var err := GetErrorReported(j, v.getFault.value);
      assert ProbeStep(j, v, key) == [get] + [err];
      ComputesConcat([get], [err]);
      Single(err, GetKind);
      SnocKeyed([get], err, key);
      SnocCarries([get], err, value);
    }
  }

  /** Probing one more level adds that level's calls at the end. */
  lemma {:induction false} ProbeTraceSnoc(views: seq<LevelView>, key: Key, m: nat, k: CallKind)
    requires 0 < m <= |views|
    ensures LevelsOf(ProbeTrace(views, key, m), k) == LevelsOf(ProbeTrace(views, key, m - 1), k) +
      if k == GetKind || (k == GetErrorKind && Reports(views[m - 1], GetErrorKind)) then [m - 1] else []
  {
    ProbeStepLevels(m - 1, views[m - 1], key, k);
    LevelsOfConcat(ProbeTrace(views, key, m - 1), ProbeStep(m - 1, views[m - 1], key), k);
  }

  /** Probing levels `0 .. m - 1` calls their `get` once each in ascending
      order, calls `onGetError` exactly once, in ascending order, for each
      of them whose `get` rejected and that defines the hook, and calls no
      `set` and no `onSetError`. */
  lemma {:induction false} ProbeTraceLevels(views: seq<LevelView>, key: Key, m: nat, k: CallKind)
    requires m <= |views|
    ensures LevelsOf(ProbeTrace(views, key, m), k) ==
      if k == GetKind then Range(0, m)
      else if k == GetErrorKind then Reporters(views, m, GetErrorKind)
      else []
  {
    if m == 0 {
      assert ProbeTrace(views, key, m) == [];
    } else {
      ProbeTraceLevels(views, key, m - 1, k);
      ProbeTraceSnoc(views, key, m, k);
    }
  }

  /** Probing never calls `compute`. */
  lemma {:induction false} ProbeTraceComputes(views: seq<LevelView>, key: Key, m: nat)
    requires m <= |views|
    ensures Computes(ProbeTrace(views, key, m)) == 0
  {
    if m == 0 {
      assert ProbeTrace(views, key, m) == [];
    } else {
      ProbeStepCalls(m - 1, views[m - 1], key, Undefined);
      ComputesConcat(ProbeTrace(views, key, m - 1), ProbeStep(m - 1, views[m - 1], key));
      ProbeTraceComputes(views, key, m - 1);
    }
  }

  /** Probing calls every level's `get` with the same key and writes
      nothing. */
  lemma {:induction false} ProbeTraceArgs(views: seq<LevelView>, key: Key, m: nat, value: JsVal)
    requires m <= |views|
    ensures Keyed(ProbeTrace(views, key, m), key) && Carries(ProbeTrace(views, key, m), value)
  {
    if m == 0 {
      assert ProbeTrace(views, key, m) == [];
    } else {
      ProbeTraceArgs(views, key, m - 1, value);
      ProbeStepCalls(m - 1, views[m - 1], key, value);
      ConcatCalls(ProbeTrace(views, key, m - 1), ProbeStep(m - 1, views[m - 1], key), key, value);
    }
  }

  // ---------------------------------------------------------------------
  // The write fan-out (_setCaches)
  // ---------------------------------------------------------------------

  /** The `set(key, value)` calls on levels `0 .. hi - 1`, issued in order. */
  function IssueTrace(hi: nat, key: Key, value: JsVal): seq<Event>
  {
    if hi == 0 then [] else IssueTrace(hi - 1, key, value) + [SetCall(hi - 1, key, value)]
  }

  /** The `onSetError` calls for the writes to levels `0 .. hi - 1` that
      rejected, in level order. */
  function ReportTrace(views: seq<LevelView>, hi: nat): seq<Event>
    requires hi <= |views|
  {
    if hi == 0 then []
    else if Reports(views[hi - 1], SetErrorKind) then
      ReportTrace(views, hi - 1) + [SetErrorReported(hi - 1, views[hi - 1].setFault.value)]
    else ReportTrace(views, hi - 1)
  }

  /** Writing levels `0 .. hi - 1`: every `set` is issued before any
      rejection is reported. */
  function WriteTrace(views: seq<LevelView>, hi: nat, key: Key, value: JsVal): seq<Event>
    requires hi <= |views|
  {
    IssueTrace(hi, key, value) + ReportTrace(views, hi)
  }

  /** Issuing the writes calls `set` on levels `0 .. hi - 1` in order and
      nothing else. */
  lemma {:induction false} IssueTraceLevels(hi: nat, key: Key, value: JsVal, k: CallKind)
    ensures LevelsOf(IssueTrace(hi, key, value), k) == if k == SetKind then Range(0, hi) else []
  {
    if hi == 0 {
      assert IssueTrace(hi, key, value) == [];
    } else {
      var e := SetCall(hi - 1, key, value);
      IssueTraceLevels(hi - 1, key, value, k);
      LevelsOfConcat(IssueTrace(hi - 1, key, value), [e], k);
      Single(e, k);
      if k == SetKind {
        assert Range(0, hi) == Range(0, hi - 1) + [hi - 1];
      }
    }
  }

  /** Issuing the writes never calls `compute`. */
  lemma {:induction false} IssueTraceComputes(hi: nat, key: Key, value: JsVal)
    ensures Computes(IssueTrace(hi, key, value)) == 0
  {
    if hi == 0 {
      assert IssueTrace(hi, key, value) == [];
    } else {
      var e := SetCall(hi - 1, key, value);
      IssueTraceComputes(hi - 1, key, value);
      ComputesConcat(IssueTrace(hi - 1, key, value), [e]);
      Single(e, SetKind);
    }
  }

  /** Every issued write is `set(key, value)`. */
  lemma {:induction false} IssueTraceArgs(hi: nat, key: Key, value: JsVal)
    ensures Keyed(IssueTrace(hi, key, value), key) && Carries(IssueTrace(hi, key, value), value)
  {
    if hi == 0 {
      assert IssueTrace(hi, key, value) == [];
    } else {
      var t := IssueTrace(hi - 1, key, value);
      var e := SetCall(hi - 1, key, value);
      IssueTraceArgs(hi - 1, key, value);
      SnocKeyed(t, e, key);
      SnocCarries(t, e, value);
    }
  }

  /** The reports after a write fan-out call `onSetError` exactly once for
      each written level whose `set` rejected and that defines the hook, in
      ascending order, and call no level's `get` or `set`. */
  lemma {:induction false} ReportTraceLevels(views: seq<LevelView>, hi: nat, k: CallKind)
    requires hi <= |views|
    ensures LevelsOf(ReportTrace(views, hi), k) ==
      if k == SetErrorKind then Reporters(views, hi, SetErrorKind) else []
  {
    if hi == 0 {
      assert ReportTrace(views, hi) == [];
    } else {
      ReportTraceLevels(views, hi - 1, k);
      var v := views[hi - 1];
      if Reports(v, SetErrorKind) {
        var e := SetErrorReported(hi - 1, v.setFault.value);
        LevelsOfConcat(ReportTrace(views, hi - 1), [e], k);
        Single(e, k);
      } else {
        assert ReportTrace(views, hi) == ReportTrace(views, hi - 1);
        assert Reporters(views, hi, SetErrorKind) == Reporters(views, hi - 1, SetErrorKind);
      }
    }
  }

  /** The reports never call `compute`. */
  lemma {:induction false} ReportTraceComputes(views: seq<LevelView>, hi: nat)
    requires hi <= |views|
    ensures Computes(ReportTrace(views, hi)) == 0
  {
    if hi == 0 {
      assert ReportTrace(views, hi) == [];
    } else {
      ReportTraceComputes(views, hi - 1);
      var v := views[hi - 1];
      if Reports(v, SetErrorKind) {
        var e := SetErrorReported(hi - 1, v.setFault.value);
        ComputesConcat(ReportTrace(views, hi - 1), [e]);
        Single(e, SetKind);
      } else {
        assert ReportTrace(views, hi) == ReportTrace(views, hi - 1);
      }
    }
  }

  /** The reports call no level's `get` or `set`. */
  lemma {:induction false} ReportTraceArgs(views: seq<LevelView>, hi: nat, key: Key, value: JsVal)
    requires hi <= |views|
    ensures Keyed(ReportTrace(views, hi), key) && Carries(ReportTrace(views, hi), value)
  {
    if hi == 0 {
      assert ReportTrace(views, hi) == [];
    } else {
      ReportTraceArgs(views, hi - 1, key, value);
      var v := views[hi - 1];
      if Reports(v, SetErrorKind) {
        var t := ReportTrace(views, hi - 1);
        var e := SetErrorReported(hi - 1, v.setFault.value);
        SnocKeyed(t, e, key);
        SnocCarries(t, e, value);
      } else {
        assert ReportTrace(views, hi) == ReportTrace(views, hi - 1);
      }
    }
  }

  /** Writing levels `0 .. hi - 1` calls each one's `set` once, in
      ascending order, then reports each rejected write exactly once through
      a defined `onSetError`, in ascending order, and calls no `get`. */
  lemma {:induction false} WriteTraceLevels(views: seq<LevelView>, hi: nat, key: Key, value: JsVal, k: CallKind)
    requires hi <= |views|
    ensures LevelsOf(WriteTrace(views, hi, key, value), k) ==
      if k == SetKind then Range(0, hi)
      else if k == SetErrorKind then Reporters(views, hi, SetErrorKind)
      else []
  {
    IssueTraceLevels(hi, key, value, k);
    ReportTraceLevels(views, hi, k);
    LevelsOfConcat(IssueTrace(hi, key, value), ReportTrace(views, hi), k);
  }

  /** Every write is `set(key, value)`, and writing never calls `compute`. */
  lemma {:induction false} WriteTraceCalls(views: seq<LevelView>, hi: nat, key: Key, value: JsVal)
    requires hi <= |views|
    ensures Computes(WriteTrace(views, hi, key, value)) == 0
    ensures Keyed(WriteTrace(views, hi, key, value), key) && Carries(WriteTrace(views, hi, key, value), value)
  {
    IssueTraceComputes(hi, key, value);
    IssueTraceArgs(hi, key, value);
    ReportTraceComputes(views, hi);
    ReportTraceArgs(views, hi, key, value);
    ComputesConcat(IssueTrace(hi, key, value), ReportTrace(views, hi));
    ConcatCalls(IssueTrace(hi, key, value), ReportTrace(views, hi), key, value);
  }

  // ---------------------------------------------------------------------
  // get and set, as functions of the levels before the call
  // ---------------------------------------------------------------------

  /** `set(query, options, key)`: compute, then write every level. A given
      `key` is reused, otherwise it is derived from the query. */
  function SetRun(views: seq<LevelView>, c: Config, query: Query, key: Option<Key>): Run
  {
    match c.compute(query)
    case Rejected(e) => Run(Rejected(e), [ComputeCall(query)], views)
    case Resolved(value) =>
      var k := KeyOr(key, c.keyForQuery(query));
      Run(Resolved(value), [ComputeCall(query)] + WriteTrace(views, |views|, k, value),
          Hydrated(views, 0, |views|, k, value))
  }

  /** `get(query, options)`: scan, then either hydrate the levels before the
      hit, return the value, or fall through to `set` with the same key. */
  function GetRun(views: seq<LevelView>, c: Config, query: Query): Run
  {
    var key := c.keyForQuery(query);
    var s := Scan(views, key, c.isValue);
    var probes := ProbeTrace(views, key, Probes(s, |views|));
    if c.hydrate && s.index < |views| then
      Run(Resolved(s.value), probes + WriteTrace(views, s.index, key, s.value),
          Hydrated(views, 0, s.index, key, s.value))
    else if c.isValue(s.value) then
      Run(Resolved(s.value), probes, views)
    else
      var r := SetRun(views, c, query, Some(key));
      Run(r.result, probes + r.trace, r.views)
  }

  /** Probing levels `0 .. m - 1`, summed up. */
  lemma {:induction false} ProbeTraceSummary(views: seq<LevelView>, key: Key, m: nat)
    requires m <= |views|
    ensures CallsOf(ProbeTrace(views, key, m)) == Calls(Range(0, m), Reporters(views, m, GetErrorKind), [], [], 0)
  {
    ProbeTraceLevels(views, key, m, GetKind);
    ProbeTraceLevels(views, key, m, GetErrorKind);
    ProbeTraceLevels(views, key, m, SetKind);
    ProbeTraceLevels(views, key, m, SetErrorKind);
    ProbeTraceComputes(views, key, m);
  }

  /** Writing levels `0 .. hi - 1`, summed up. */
  lemma {:induction false} WriteTraceSummary(views: seq<LevelView>, hi: nat, key: Key, value: JsVal)
    requires hi <= |views|
    ensures CallsOf(WriteTrace(views, hi, key, value)) == Calls([], [], Range(0, hi), Reporters(views, hi, SetErrorKind), 0)
  {
    WriteTraceLevels(views, hi, key, value, GetKind);
    WriteTraceLevels(views, hi, key, value, GetErrorKind);
    WriteTraceLevels(views, hi, key, value, SetKind);
    WriteTraceLevels(views, hi, key, value, SetErrorKind);
    WriteTraceCalls(views, hi, key, value);
  }

  /** Calling `compute`, summed up. */
  lemma {:induction false} ComputeSummary(query: Query, key: Key, value: JsVal)
    ensures CallsOf([ComputeCall(query)]) == Calls([], [], [], [], 1)
    ensures Keyed([ComputeCall(query)], key) && Carries([ComputeCall(query)], value)
  {
    Single(ComputeCall(query), GetKind);
    Single(ComputeCall(query), GetErrorKind);
    Single(ComputeCall(query), SetKind);
    Single(ComputeCall(query), SetErrorKind);
  }

  /** A hit at level `i` with hydration on: levels `0 .. i` are probed in
      order, exactly levels `0 .. i - 1` are written with the hit value in
      ascending order (none for a hit at 0), levels `i ..` keep their entries,
      `compute` is not called, and the hit value is returned. */
  lemma {:induction false} GetHitHydrates(views: seq<LevelView>, c: Config, query: Query, key: Key, i: nat)
    requires key == c.keyForQuery(query) && c.hydrate
    requires i < |views|
    requires forall j :: 0 <= j < i ==> !c.isValue(Probe(views[j], key))
    requires c.isValue(Probe(views[i], key))
    ensures var run := GetRun(views, c, query);
      var value := Probe(views[i], key);
      && run.result == Resolved(value)
      && CallsOf(run.trace) ==
           Calls(Range(0, i + 1), Reporters(views, i + 1, GetErrorKind),
                 Range(0, i), Reporters(views, i, SetErrorKind), 0)
      && (forall j :: 0 <= j < i ==> run.views[j] == AfterSet(views[j], key, value))
      && (forall j :: i <= j < |views| ==> run.views[j] == views[j])
  {
    HitHydrates(views, c, query, key, i);
    HitTrace(views, key, i, Probe(views[i], key));
  }

  /** With hydration on, a hit at level `i` returns its value after probing
      levels `0 .. i` and writing levels `0 .. i - 1`. */
  lemma {:induction false} HitHydrates(views: seq<LevelView>, c: Config, query: Query, key: Key, i: nat)
    requires key == c.keyForQuery(query) && c.hydrate
    requires i < |views|
    requires forall j :: 0 <= j < i ==> !c.isValue(Probe(views[j], key))
    requires c.isValue(Probe(views[i], key))
    ensures var value := Probe(views[i], key);
      GetRun(views, c, query) ==
        Run(Resolved(value), ProbeTrace(views, key, i + 1) + WriteTrace(views, i, key, value),
            Hydrated(views, 0, i, key, value))
  {
    ScanFindsFirstHit(views, key, c.isValue, i);
    ScanFromStops(views, key, c.isValue, 0, Undefined);
  }

  /** Probing levels `0 .. i`, then writing levels `0 .. i - 1`, summed up. */
  lemma {:induction false} HitTrace(views: seq<LevelView>, key: Key, i: nat, value: JsVal)
    requires i < |views|
    ensures CallsOf(ProbeTrace(views, key, i + 1) + WriteTrace(views, i, key, value)) ==
      Calls(Range(0, i + 1), Reporters(views, i + 1, GetErrorKind),
            Range(0, i), Reporters(views, i, SetErrorKind), 0)
  {
    var probes := ProbeTrace(views, key, i + 1);
    var writes := WriteTrace(views, i, key, value);
    ProbeTraceSummary(views, key, i + 1);
    WriteTraceSummary(views, i, key, value);
    CallsOfConcat(probes, writes);
    ReadsThenWrites(Range(0, i + 1), Reporters(views, i + 1, GetErrorKind), 0,
                    Range(0, i), Reporters(views, i, SetErrorKind), 0);
  }

  /** A hit at level `i` with hydration off: the hit value is returned and no
      level is written. */
  lemma {:induction false} GetHitWithoutHydrate(views: seq<LevelView>, c: Config, query: Query, key: Key, i: nat)
    requires key == c.keyForQuery(query) && !c.hydrate
    requires i < |views|
    requires forall j :: 0 <= j < i ==> !c.isValue(Probe(views[j], key))
    requires c.isValue(Probe(views[i], key))
    ensures var run := GetRun(views, c, query);
      && run.result == Resolved(Probe(views[i], key))
      && CallsOf(run.trace) == Calls(Range(0, i + 1), Reporters(views, i + 1, GetErrorKind), [], [], 0)
      && run.views == views
  {
    ScanFindsFirstHit(views, key, c.isValue, i);
    ScanFromStops(views, key, c.isValue, 0, Undefined);
    ProbeTraceSummary(views, key, i + 1);
  }

  /** The fall-through to `set` with a known key: `compute` is called
      once, then either its value is written to every level in ascending
      order and returned, or its rejection is returned and nothing is
      written. */
  lemma {:induction false} SetRunShape(views: seq<LevelView>, c: Config, query: Query, key: Key)
    requires key == c.keyForQuery(query)
    ensures var run := SetRun(views, c, query, Some(key));
      && run.result == c.compute(query)
      && (c.compute(query).Resolved? ==>
            var value := c.compute(query).value;
            && CallsOf(run.trace) == Calls([], [], Range(0, |views|), Reporters(views, |views|, SetErrorKind), 1)
            && run.views == Hydrated(views, 0, |views|, key, value))
      && (c.compute(query).Rejected? ==>
            CallsOf(run.trace) == Calls([], [], [], [], 1) && run.views == views)
  {
    var compute := [ComputeCall(query)];
    if c.compute(query).Resolved? {
      var value := c.compute(query).value;
      var writes := WriteTrace(views, |views|, key, value);
      ComputeSummary(query, key, value);
      WriteTraceSummary(views, |views|, key, value);
      CallsOfConcat(compute, writes);
      ReadsThenWrites([], [], 1, Range(0, |views|), Reporters(views, |views|, SetErrorKind), 0);
    } else {
      ComputeSummary(query, key, Undefined);
    }
  }

  /** A full miss probes every level and then does what `set` does with
      the same key. */
  lemma {:induction false} MissFallsThrough(views: seq<LevelView>, c: Config, query: Query, key: Key)
    requires key == c.keyForQuery(query)
    requires forall j :: 0 <= j < |views| ==> !c.isValue(Probe(views[j], key))
    requires |views| == 0 ==> !c.isValue(Undefined)
    ensures var r := SetRun(views, c, query, Some(key));
      GetRun(views, c, query) == Run(r.result, ProbeTrace(views, key, |views|) + r.trace, r.views)
  {
    ScanMisses(views, key, c.isValue);
  }

  /** A full miss: every level is probed once in order, `compute` is called
      once, and then either its value is written to every level in ascending
      order and returned, whatever that value is, or its rejection is
      returned and nothing is written. Over zero levels the miss needs an
      `isValue` that rejects `undefined`, which the default does. */
  lemma {:induction false} GetFullMiss(views: seq<LevelView>, c: Config, query: Query, key: Key)
    requires key == c.keyForQuery(query)
    requires forall j :: 0 <= j < |views| ==> !c.isValue(Probe(views[j], key))
    requires |views| == 0 ==> !c.isValue(Undefined)
    ensures var run := GetRun(views, c, query);
      && run.result == c.compute(query)
      && (c.compute(query).Resolved? ==>
            var value := c.compute(query).value;
            && CallsOf(run.trace) ==
                 Calls(Range(0, |views|), Reporters(views, |views|, GetErrorKind),
                       Range(0, |views|), Reporters(views, |views|, SetErrorKind), 1)
            && run.views == Hydrated(views, 0, |views|, key, value))
      && (c.compute(query).Rejected? ==>
            && CallsOf(run.trace) == Calls(Range(0, |views|), Reporters(views, |views|, GetErrorKind), [], [], 1)
            && run.views == views)
  {
    MissFallsThrough(views, c, query, key);
    MissTrace(views, c, query, key);
  }

  /** The calls of a full miss: every probe, then whatever `set` does. */
  lemma {:induction false} MissTrace(views: seq<LevelView>, c: Config, query: Query, key: Key)
    requires key == c.keyForQuery(query)
    ensures var r := SetRun(views, c, query, Some(key));
      var t := ProbeTrace(views, key, |views|) + r.trace;
      && (c.compute(query).Resolved? ==>
            && CallsOf(t) ==
                 Calls(Range(0, |views|), Reporters(views, |views|, GetErrorKind),
                       Range(0, |views|), Reporters(views, |views|, SetErrorKind), 1)
            && r.views == Hydrated(views, 0, |views|, key, c.compute(query).value))
      && (c.compute(query).Rejected? ==>
            && CallsOf(t) == Calls(Range(0, |views|), Reporters(views, |views|, GetErrorKind), [], [], 1)
            && r.views == views)
  {
    var n := |views|;
    var probes := ProbeTrace(views, key, n);
    var r := SetRun(views, c, query, Some(key));
    ProbeTraceSummary(views, key, n);
    SetRunShape(views, c, query, key);
    CallsOfConcat(probes, r.trace);
    if c.compute(query).Resolved? {
      ReadsThenWrites(Range(0, n), Reporters(views, n, GetErrorKind), 0,
                      Range(0, n), Reporters(views, n, SetErrorKind), 1);
    } else {
      ReadsThenWrites(Range(0, n), Reporters(views, n, GetErrorKind), 0, [], [], 1);
    }
  }

  /** `set` calls every level with one key, and every write stores the
      value `set` resolves to. */
  lemma {:induction false} SetRunArgs(views: seq<LevelView>, c: Config, query: Query, key: Option<Key>)
    ensures var run := SetRun(views, c, query, key);
      var k := KeyOr(key, c.keyForQuery(query));
      && Keyed(run.trace, k)
      && (run.result.Resolved? ==> Carries(run.trace, run.result.value))
  {
    var k := KeyOr(key, c.keyForQuery(query));
    var compute := [ComputeCall(query)];
    if c.compute(query).Resolved? {
      var value := c.compute(query).value;
      var writes := WriteTrace(views, |views|, k, value);
      ComputeSummary(query, k, value);
      WriteTraceCalls(views, |views|, k, value);
      ConcatCalls(compute, writes, k, value);
    } else {
      ComputeSummary(query, k, Undefined);
    }
  }

  /** `get` calls every level with the key derived from the query, and every
      write stores the value `get` resolves to. */
  lemma {:induction false} GetRunArgs(views: seq<LevelView>, c: Config, query: Query)
    ensures var run := GetRun(views, c, query);
      && Keyed(run.trace, c.keyForQuery(query))
      && (run.result.Resolved? ==> Carries(run.trace, run.result.value))
  {
    var key := c.keyForQuery(query);
    var s := Scan(views, key, c.isValue);
    var probes := ProbeTrace(views, key, Probes(s, |views|));
    var run := GetRun(views, c, query);
    var value := if run.result.Resolved? then run.result.value else Undefined;
    ProbeTraceArgs(views, key, Probes(s, |views|), value);
    if c.hydrate && s.index < |views| {
      WriteTraceCalls(views, s.index, key, s.value);
      ConcatCalls(probes, WriteTrace(views, s.index, key, s.value), key, value);
    } else if !c.isValue(s.value) {
      var r := SetRun(views, c, query, Some(key));
      SetRunArgs(views, c, query, Some(key));
      ConcatCalls(probes, r.trace, key, value);
    }
  }

  /** With no levels, `get` settles exactly as `compute` does, unless a
      custom `isValue` accepts `undefined`: then `undefined` is returned and
      nothing is computed. */
  lemma {:induction false} GetWithoutLevels(c: Config, query: Query)
    ensures !c.isValue(Undefined) ==>
      GetRun([], c, query).result == c.compute(query) && GetRun([], c, query).trace == [ComputeCall(query)]
    ensures c.isValue(Undefined) ==>
      GetRun([], c, query).result == Resolved(Undefined) && GetRun([], c, query).trace == []
  {
    var key := c.keyForQuery(query);
    assert Scan([], key, c.isValue) == ScanResult(Undefined, 0);
    assert ProbeTrace([], key, 0) == [];
    if c.compute(query).Resolved? {
      assert IssueTrace(0, key, c.compute(query).value) == [];
      assert ReportTrace([], 0) == [];
    }
  }

  /** `set(query)` always calls `compute` once and probes nothing; it settles
      as `compute` does, and on success writes the value to every level in
      ascending order under the key derived from the query. */
  lemma {:induction false} SetWritesAll(views: seq<LevelView>, c: Config, query: Query)
    ensures var run := SetRun(views, c, query, None);
      var key := c.keyForQuery(query);
      && run.result == c.compute(query)
      && (c.compute(query).Resolved? ==>
            var value := c.compute(query).value;
            && CallsOf(run.trace) == Calls([], [], Range(0, |views|), Reporters(views, |views|, SetErrorKind), 1)
            && run.views == Hydrated(views, 0, |views|, key, value))
      && (c.compute(query).Rejected? ==>
            CallsOf(run.trace) == Calls([], [], [], [], 1) && run.views == views)
  {
    var key := c.keyForQuery(query);
    assert SetRun(views, c, query, None) == SetRun(views, c, query, Some(key));
    SetRunShape(views, c, query, key);
  }

  /** Level errors never surface: `get` rejects only when it called
      `compute` and `compute` rejected, and then with the same reason; a
      rejected `get` has written nothing. */
  lemma {:induction false} OnlyComputeRejects(views: seq<LevelView>, c: Config, query: Query)
    ensures var run := GetRun(views, c, query);
      run.result.Rejected? ==>
        && run.result == c.compute(query)
        && Computes(run.trace) == 1
        && Written(run.trace) == [] && SetErrorsReported(run.trace) == []
        && run.views == views
  {
    var key := c.keyForQuery(query);
    var s := Scan(views, key, c.isValue);
    var run := GetRun(views, c, query);
    if run.result.Rejected? {
      ScanFromStops(views, key, c.isValue, 0, Undefined);
      assert !(c.hydrate && s.index < |views|) && !c.isValue(s.value);
      assert s.index == |views|;
      GetFullMiss(views, c, query, key);
    }
  }

  // ---------------------------------------------------------------------
  // The coordinator
  // ---------------------------------------------------------------------

  class NLevelCache {
    const caches: seq<Level>
    const compute: Query -> Settled<JsVal>
    const isValue: JsVal -> bool
    const hydrate: bool
    const keyForQuery: Query -> Key
    /** Every call made so far on the levels, their hooks and `compute`. */
    ghost var trace: seq<Event>

    ghost predicate Valid()
    {
      Distinct(caches)
    }

    function Settings(): Config
    {
      Config(compute, isValue, hydrate, keyForQuery)
    }

    /** The levels as they are now. */
    ghost function Views(): seq<LevelView>
      reads caches
    {
      ViewsOf(caches)
    }

    /** The constructor fills in the defaults: no levels, a `compute` that
        resolves `undefined`, an `isValue` that rejects `null` and
        `undefined`, hydration on unless `false` is given, and the identity
        as key derivation. */
    constructor (options: Options)
      requires options.caches.Some? ==> Distinct(options.caches.value)
      ensures Valid() && trace == []
      ensures caches == if options.caches.Some? then options.caches.value else []
      ensures options.compute.Some? ==> compute == options.compute.value
      ensures options.compute.None? ==> forall q :: compute(q) == Resolved(Undefined)
      ensures options.isValue.Some? ==> isValue == options.isValue.value
      ensures options.isValue.None? ==> forall x :: isValue(x) <==> x != Null && x != Undefined
      ensures hydrate <==> options.hydrate != Some(false)
      ensures options.keyForQuery.Some? ==> keyForQuery == options.keyForQuery.value
      ensures options.keyForQuery.None? ==> forall q :: keyForQuery(q) == q
    {
      caches := if options.caches.Some? then options.caches.value else [];
      match options.compute {
        case Some(f) => compute := f;
        case None => compute := _ => Resolved(Undefined);
      }
      match options.isValue {
        case Some(f) => isValue := f;
        case None => isValue := DefaultIsValue;
      }
      hydrate := if options.hydrate.Some? then options.hydrate.value else true;
      match options.keyForQuery {
        case Some(f) => keyForQuery := f;
        case None => keyForQuery := Identity;
      }
      trace := [];
    }

    /** `get(query)`. */
    method Get(query: Query) returns (r: Settled<JsVal>)
      requires Valid()
      modifies this`trace, caches
      ensures var run := GetRun(old(Views()), Settings(), query);
        r == run.result && trace == old(trace) + run.trace && Views() == run.views
    {
      ghost var views := Views();
      ghost var t0 := trace;
      var key := keyForQuery(query);
      var value, index := GetCaches(key);
      ghost var probes := ProbeTrace(views, key, Probes(ScanResult(value, index), |views|));
      assert trace == t0 + probes;
      if hydrate {
        var len := |caches|;
        var isCacheValue := index < len;
        if isCacheValue {
          var v := SetCaches(index, key, value);
          r := Resolved(v);
          Assoc(t0, probes, WriteTrace(views, index, key, value));
          return;
        }
      }
      if isValue(value) {
        r := Resolved(value);
        return;
      }
      r := Set(query, Some(key));
      Assoc(t0, probes, SetRun(views, Settings(), query, Some(key)).trace);
    }

    /** `_getCaches(caches, key)`: probe the levels in order until `isValue`
        accepts a value. */
    method GetCaches(key: Key) returns (value: JsVal, index: nat)
      modifies this`trace
      ensures Views() == old(Views())
      ensures ScanResult(value, index) == Scan(old(Views()), key, isValue)
      ensures trace == old(trace) + ProbeTrace(old(Views()), key, Probes(ScanResult(value, index), |caches|))
    {
      ghost var views := Views();
      value, index := Undefined, 0;
      while index < |caches|
        invariant index <= |caches|
        invariant Views() == views
        invariant Scan(views, key, isValue) == ScanFrom(views, key, isValue, index, value)
        invariant trace == old(trace) + ProbeTrace(views, key, index)
        decreases |caches| - index
      {
        ghost var last := value;
        value := ProbeLevel(index, views[index], key);
        Assoc(old(trace), ProbeTrace(views, key, index), ProbeStep(index, views[index], key));
        if isValue(value) {
          assert ScanFrom(views, key, isValue, index, last) == ScanResult(value, index);
          assert Probes(ScanResult(value, index), |caches|) == index + 1;
          return;
        }
        assert ScanFrom(views, key, isValue, index, last) == ScanFrom(views, key, isValue, index + 1, value);
        index := index + 1;
      }
      assert Probes(ScanResult(value, index), |caches|) == index;
    }

    /** One probe: `caches[index].get(key)`, where a rejection is reported
        to the level's `onGetError`, when defined, and read as `undefined`. */
    method ProbeLevel(index: nat, ghost before: LevelView, key: Key) returns (value: JsVal)
      requires index < |caches| && caches[index].View() == before
      modifies this`trace
      ensures value == Probe(before, key)
      ensures trace == old(trace) + ProbeStep(index, before, key)
    {
      var cache := caches[index];
      var got := cache.Get(key);
      trace := trace + [GetCall(index, key)];
      match got {
        case Resolved(x) =>
          value := x;
        case Rejected(e) =>
          if cache.onGetError {
            trace := trace + [GetErrorReported(index, e)];
          }
          value := Undefined;
      }
    }

    /** `set(query, options, key)`: compute, then write every level; the
        key is the given one, or derived from the query. */
    method Set(query: Query, key: Option<Key>) returns (r: Settled<JsVal>)
      requires Valid()
      modifies this`trace, caches
      ensures var run := SetRun(old(Views()), Settings(), query, key);
        r == run.result && trace == old(trace) + run.trace && Views() == run.views
    {
      var computed := compute(query);
      trace := trace + [ComputeCall(query)];
      match computed
      case Rejected(e) =>
        r := Rejected(e);
      case Resolved(value) =>
        var k := KeyOr(key, keyForQuery(query));
        var v := SetCaches(|caches|, k, value);
        r := Resolved(v);
        Assoc(old(trace), [ComputeCall(query)], WriteTrace(old(Views()), |caches|, k, value));
    }

    /** `_setCaches(caches.slice(0, hi), key, value)`: issue every `set` in
        order, then report each rejected one; always resolves to `value`. */
    method SetCaches(hi: nat, key: Key, value: JsVal) returns (v: JsVal)
      requires Valid() && hi <= |caches|
      modifies this`trace, caches
      ensures v == value
      ensures trace == old(trace) + WriteTrace(old(Views()), hi, key, value)
      ensures Views() == Hydrated(old(Views()), 0, hi, key, value)
    {
      ghost var views := Views();
      var writes := IssueSets(hi, key, value);
      ReportSetErrors(views, writes);
      v := value;
    }

    /** The first half of `Promise.all`: call `set(key, value)` on levels
        `0 .. hi - 1` in order and collect how each settles. */
    method IssueSets(hi: nat, key: Key, value: JsVal) returns (writes: seq<Settled<()>>)
      requires Valid() && hi <= |caches|
      modifies this`trace, caches
      ensures |writes| == hi
      ensures forall i :: 0 <= i < hi ==> writes[i] == SetOutcome(old(Views())[i])
      ensures trace == old(trace) + IssueTrace(hi, key, value)
      ensures Views() == Hydrated(old(Views()), 0, hi, key, value)
    {
      ghost var views := Views();
      writes := [];
      var j := 0;
      while j < hi
        invariant j <= hi
        invariant |writes| == j
        invariant forall i :: 0 <= i < j ==> writes[i] == SetOutcome(views[i])
        invariant trace == old(trace) + IssueTrace(j, key, value)
        invariant forall i :: 0 <= i < |caches| ==>
          caches[i].View() == if i < j then AfterSet(views[i], key, value) else views[i]
      {
        var w := caches[j].Set(key, value);
        writes := writes + [w];
        trace := trace + [SetCall(j, key, value)];
        Assoc(old(trace), IssueTrace(j, key, value), [SetCall(j, key, value)]);
        j := j + 1;
      }
      assert Views() == Hydrated(views, 0, hi, key, value);
    }

    /** The second half: once every write has settled, pass each rejection,
        in level order, to that level's `onSetError` when it has one. */
    method ReportSetErrors(ghost views: seq<LevelView>, writes: seq<Settled<()>>)
      requires |writes| <= |caches| == |views|
      requires forall i :: 0 <= i < |writes| ==>
        writes[i] == SetOutcome(views[i]) && caches[i].onSetError == views[i].onSetError
      modifies this`trace
      ensures trace == old(trace) + ReportTrace(views, |writes|)
    {
      var j := 0;
      while j < |writes|
        invariant j <= |writes|
        invariant trace == old(trace) + ReportTrace(views, j)
      {
        if writes[j].Rejected? && caches[j].onSetError {
          trace := trace + [SetErrorReported(j, writes[j].error)];
        }
        j := j + 1;
      }
    }
  }
}

/**
 * Vocabulary shared by both revisions of NLevelCache: the JavaScript values a
 * cache level can hold, settled promises, a cache level with injectable
 * faults, and the trace of calls the coordinator makes on its levels.
 */
module Levels {
  type Key = string
  type Query = string
  /** A rejection reason, passed through untouched. */
  type Err = string

  /** The JavaScript values that matter here: the default `isValue` test
      rejects both `undefined` and `null` and accepts everything else. */
  datatype JsVal = Undefined | Null | V(s: string)

  datatype Option<T> = None | Some(value: T)

  /** A promise once it has settled. */
  datatype Settled<T> = Resolved(value: T) | Rejected(error: Err)

  /** The default presence test `x => x !== null && x !== undefined`. */
  function DefaultIsValue(x: JsVal): (b: bool)
    ensures b <==> x.V?
  {
    x != Null && x != Undefined
  }

  /** The default key derivation `x => x`. */
  function Identity(q: Query): (k: Key)
    ensures k == q
  {
    q
  }

  // ---------------------------------------------------------------------
  // Cache levels
  // ---------------------------------------------------------------------

  /** A snapshot of one level: its stored entries, whether its `get` / `set`
      reject (and with what), and whether it defines `onGetError` /
      `onSetError`. */
  datatype LevelView = LevelView(
    store: map<Key, JsVal>,
    getFault: Option<Err>,
    setFault: Option<Err>,
    onGetError: bool,
    onSetError: bool)

  /** A missing entry reads as `undefined`. */
  function Lookup(store: map<Key, JsVal>, key: Key): JsVal
  {
    if key in store then store[key] else Undefined
  }

  /** How a level's `get(key)` settles. */
  function GetOutcome(v: LevelView, key: Key): (r: Settled<JsVal>)
    ensures r.Rejected? <==> v.getFault.Some?
    ensures r.Resolved? ==> r.value == Lookup(v.store, key)
  {
    if v.getFault.Some? then Rejected(v.getFault.value) else Resolved(Lookup(v.store, key))
  }

  /** How a level's `set(key, value)` settles. */
  function SetOutcome(v: LevelView): (r: Settled<()>)
    ensures r.Rejected? <==> v.setFault.Some?
    ensures r.Rejected? ==> r.error == v.setFault.value
  {
    if v.setFault.Some? then Rejected(v.setFault.value) else Resolved(())
  }

  /** The level after `set(key, value)`: a rejected write changes nothing. */
  function AfterSet(v: LevelView, key: Key, value: JsVal): (w: LevelView)
    ensures w.getFault == v.getFault && w.setFault == v.setFault
    ensures w.onGetError == v.onGetError && w.onSetError == v.onSetError
    ensures v.setFault.None? ==> Lookup(w.store, key) == value
    ensures v.setFault.None? ==> forall k :: k != key ==> Lookup(w.store, k) == Lookup(v.store, k)
    ensures v.setFault.Some? ==> w == v
  {
    if v.setFault.Some? then v else v.(store := v.store[key := value])
  }

  /** The levels after `set(key, value)` on each level `lo <= j < hi`. */
  function Hydrated(views: seq<LevelView>, lo: nat, hi: nat, key: Key, value: JsVal): (r: seq<LevelView>)
    ensures |r| == |views|
    ensures forall j :: 0 <= j < |views| ==>
      r[j] == if lo <= j < hi then AfterSet(views[j], key, value) else views[j]
  {
    seq(|views|, j requires 0 <= j < |views| =>
      if lo <= j < hi then AfterSet(views[j], key, value) else views[j])
  }

  /** No level object appears twice in `ls`. */
  ghost predicate Distinct(ls: seq<Level>)
  {
    forall i, j :: 0 <= i < j < |ls| ==> ls[i] != ls[j]
  }

  /** One cache level: a store of entries plus fault injection. A level
      whose `getFault` (`setFault`) is `Some(e)` rejects every `get`
      (`set`) with `e`. */
  class Level {
    var store: map<Key, JsVal>
    const getFault: Option<Err>
    const setFault: Option<Err>
    const onGetError: bool
    const onSetError: bool

    constructor (store: map<Key, JsVal>, getFault: Option<Err>, setFault: Option<Err>,
                 onGetError: bool, onSetError: bool)
      ensures View() == LevelView(store, getFault, setFault, onGetError, onSetError)
    {
      this.store := store;
      this.getFault := getFault;
      this.setFault := setFault;
      this.onGetError := onGetError;
      this.onSetError := onSetError;
    }

    function View(): LevelView
      reads this
    {
      LevelView(store, getFault, setFault, onGetError, onSetError)
    }

    /** `get(key)`: reads the entry, or rejects. */
    method Get(key: Key) returns (r: Settled<JsVal>)
      ensures r == GetOutcome(View(), key)
    {
      if getFault.Some? {
        r := Rejected(getFault.value);
      } else {
        r := Resolved(if key in store then store[key] else Undefined);
      }
    }

    /** `set(key, value)`: stores the entry, or rejects and stores nothing. */
    method Set(key: Key, value: JsVal) returns (r: Settled<()>)
      modifies this
      ensures r == SetOutcome(old(View()))
      ensures View() == AfterSet(old(View()), key, value)
    {
      if setFault.Some? {
        r := Rejected(setFault.value);
      } else {
        store := store[key := value];
        r := Resolved(());
      }
    }
  }

  /** The views of a list of levels, in list order. */
  ghost function ViewsOf(ls: seq<Level>): (r: seq<LevelView>)
    reads ls
    ensures |r| == |ls|
    ensures forall j :: 0 <= j < |ls| ==> r[j] == ls[j].View()
  {
    seq(|ls|, j requires 0 <= j < |ls| reads ls => ls[j].View())
  }

  // ---------------------------------------------------------------------
  // Configuration
  // ---------------------------------------------------------------------

  /** The constructor's recognised options; `None` is a property left out. */
  datatype Options = Options(
    caches: Option<seq<Level>>,
    compute: Option<Query -> Settled<JsVal>>,
    isValue: Option<JsVal -> bool>,
    hydrate: Option<bool>,
    keyForQuery: Option<Query -> Key>)

  /** The configuration after the constructor has filled in its defaults. */
  datatype Config = Config(
    compute: Query -> Settled<JsVal>,
    isValue: JsVal -> bool,
    hydrate: bool,
    keyForQuery: Query -> Key)

  /** `key || keyForQuery(query)`: a key passed in is reused unless it is
      missing or the empty string, the one string JavaScript counts as
      false. */
  function KeyOr(key: Option<Key>, derived: Key): (k: Key)
    ensures key.Some? && key.value != "" ==> k == key.value
    ensures key.None? || key.value == "" ==> k == derived
  {
    if key.Some? && key.value != "" then key.value else derived
  }

  // ---------------------------------------------------------------------
  // Traces
  // ---------------------------------------------------------------------

  /** What the coordinator does that its caller can observe: a call of a
      level's `get` / `set`, a call of a level's `onGetError` /
      `onSetError` hook, and a call of `compute`. */
  datatype Event =
    | GetCall(level: nat, key: Key)
    | SetCall(level: nat, key: Key, value: JsVal)
    | GetErrorReported(level: nat, error: Err)
    | SetErrorReported(level: nat, error: Err)
    | ComputeCall(query: Query)

  datatype CallKind = GetKind | SetKind | GetErrorKind | SetErrorKind

  predicate IsKind(e: Event, k: CallKind)
  {
    match k
    case GetKind => e.GetCall?
    case SetKind => e.SetCall?
    case GetErrorKind => e.GetErrorReported?
    case SetErrorKind => e.SetErrorReported?
  }

  /** Level `v` has a pending error of kind `k` and the hook that reports it. */
  predicate Reports(v: LevelView, k: CallKind)
  {
    match k
    case GetErrorKind => v.getFault.Some? && v.onGetError
    case SetErrorKind => v.setFault.Some? && v.onSetError
    case _ => false
  }

  /** The levels `j < m` that report an error of kind `k`, in ascending
      order. */
  function Reporters(views: seq<LevelView>, m: nat, k: CallKind): seq<nat>
    requires m <= |views|
  {
    if m == 0 then []
    else if Reports(views[m - 1], k) then Reporters(views, m - 1, k) + [m - 1]
    else Reporters(views, m - 1, k)
  }

  /** `Reporters` lists each reporting level below `m` exactly once, in
      ascending order, and nothing else. */
  lemma {:induction false} ReportersExactlyOnce(views: seq<LevelView>, m: nat, k: CallKind)
    requires m <= |views|
    ensures forall j :: j in Reporters(views, m, k) ==> j < m
    ensures forall j :: 0 <= j < m ==> (j in Reporters(views, m, k) <==> Reports(views[j], k))
    ensures forall a, b :: 0 <= a < b < |Reporters(views, m, k)| ==>
      Reporters(views, m, k)[a] < Reporters(views, m, k)[b]
  {
    if m > 0 {
      var rest := Reporters(views, m - 1, k);
      ReportersExactlyOnce(views, m - 1, k);
      assert forall a :: 0 <= a < |rest| ==> rest[a] in rest;
    }
  }

  /** The levels touched by the events of kind `k` among the first `n`
      events of `t`, in trace order. */
  function LevelsUpTo(t: seq<Event>, k: CallKind, n: nat): seq<nat>
    requires n <= |t|
  {
    if n == 0 then []
    else LevelsUpTo(t, k, n - 1) + (if IsKind(t[n - 1], k) then [t[n - 1].level] else [])
  }

  /** The levels touched by the events of kind `k`, in trace order. */
  function LevelsOf(t: seq<Event>, k: CallKind): seq<nat>
  {
    LevelsUpTo(t, k, |t|)
  }

  /** The levels whose `get` was called, in call order. */
  function Probed(t: seq<Event>): seq<nat> { LevelsOf(t, GetKind) }
  /** The levels whose `set` was called, in call order. */
  function Written(t: seq<Event>): seq<nat> { LevelsOf(t, SetKind) }
  /** The levels whose `onGetError` was called, in call order. */
  function GetErrorsReported(t: seq<Event>): seq<nat> { LevelsOf(t, GetErrorKind) }
  /** The levels whose `onSetError` was called, in call order. */
  function SetErrorsReported(t: seq<Event>): seq<nat> { LevelsOf(t, SetErrorKind) }

  /** How many of the first `n` events of `t` are `compute` calls. */
  function ComputesUpTo(t: seq<Event>, n: nat): nat
    requires n <= |t|
  {
    if n == 0 then 0
    else ComputesUpTo(t, n - 1) + (if t[n - 1].ComputeCall? then 1 else 0)
  }

  /** How many times `compute` was called. */
  function Computes(t: seq<Event>): nat
  {
    ComputesUpTo(t, |t|)
  }

  /** Everything a trace says about who was called: the projections above,
      gathered. */
  datatype Calls = Calls(
    probed: seq<nat>,
    getErrors: seq<nat>,
    written: seq<nat>,
    setErrors: seq<nat>,
    computes: nat)

  function CallsOf(t: seq<Event>): Calls
  {
    Calls(Probed(t), GetErrorsReported(t), Written(t), SetErrorsReported(t), Computes(t))
  }

  /** The calls of one trace followed by those of another. */
  function Then(a: Calls, b: Calls): Calls
  {
    Calls(a.probed + b.probed, a.getErrors + b.getErrors, a.written + b.written,
          a.setErrors + b.setErrors, a.computes + b.computes)
  }

  /** Reads followed by writes: the reads keep the get-side lists and the
      writes the set-side ones. */
  lemma ReadsThenWrites(probed: seq<nat>, getErrors: seq<nat>, c1: nat,
                        written: seq<nat>, setErrors: seq<nat>, c2: nat)
    ensures Then(Calls(probed, getErrors, [], [], c1), Calls([], [], written, setErrors, c2)) ==
      Calls(probed, getErrors, written, setErrors, c1 + c2)
  {
    assert probed + [] == probed;
    assert getErrors + [] == getErrors;
    assert [] + written == written;
    assert [] + setErrors == setErrors;
  }

  /** What one call does: how it settles, the calls it makes, and the levels
      it leaves behind. */
  datatype Run = Run(result: Settled<JsVal>, trace: seq<Event>, views: seq<LevelView>)

  /** Every level call in `t` is made with `key`. */
  ghost predicate Keyed(t: seq<Event>, key: Key)
  {
    forall i :: 0 <= i < |t| && (t[i].GetCall? || t[i].SetCall?) ==> t[i].key == key
  }

  /** Every level `set` in `t` stores `value`. */
  ghost predicate Carries(t: seq<Event>, value: JsVal)
  {
    forall i :: 0 <= i < |t| && t[i].SetCall? ==> t[i].value == value
  }

  /** The levels of a prefix depend only on that prefix. */
  lemma {:induction false} LevelsPrefix(a: seq<Event>, b: seq<Event>, k: CallKind, n: nat)
    requires n <= |a|
    ensures LevelsUpTo(a + b, k, n) == LevelsUpTo(a, k, n)
  {
    if n > 0 {
      LevelsPrefix(a, b, k, n - 1);
      assert (a + b)[n - 1] == a[n - 1];
    }
  }

  /** The `compute` count of a prefix depends only on that prefix. */
  lemma {:induction false} ComputesPrefix(a: seq<Event>, b: seq<Event>, n: nat)
    requires n <= |a|
    ensures ComputesUpTo(a + b, n) == ComputesUpTo(a, n)
  {
    if n > 0 {
      ComputesPrefix(a, b, n - 1);
      assert (a + b)[n - 1] == a[n - 1];
    }
  }

  /** The levels past a prefix are those of the suffix. */
  lemma {:induction false} LevelsSuffix(a: seq<Event>, b: seq<Event>, k: CallKind, n: nat)
    requires n <= |b|
    ensures LevelsUpTo(a + b, k, |a| + n) == LevelsOf(a, k) + LevelsUpTo(b, k, n)
  {
    if n == 0 {
      LevelsPrefix(a, b, k, |a|);
    } else {
      LevelsSuffix(a, b, k, n - 1);
      var e := b[n - 1];
      assert (a + b)[|a| + n - 1] == e;
      AppendAssoc(LevelsOf(a, k), LevelsUpTo(b, k, n - 1), if IsKind(e, k) then [e.level] else []);
    }
  }

  /** The `compute` count past a prefix is that of the suffix. */
  lemma {:induction false} ComputesSuffix(a: seq<Event>, b: seq<Event>, n: nat)
    requires n <= |b|
    ensures ComputesUpTo(a + b, |a| + n) == Computes(a) + ComputesUpTo(b, n)
  {
    if n == 0 {
      ComputesPrefix(a, b, |a|);
    } else {
      ComputesSuffix(a, b, n - 1);
      assert (a + b)[|a| + n - 1] == b[n - 1];
    }
  }

  /** Appending lists of levels one after the other. */
  lemma AppendAssoc(a: seq<nat>, b: seq<nat>, c: seq<nat>)
    ensures a + b + c == a + (b + c)
  {
  }

  lemma {:induction false} LevelsOfConcat(a: seq<Event>, b: seq<Event>, k: CallKind)
    ensures LevelsOf(a + b, k) == LevelsOf(a, k) + LevelsOf(b, k)
  {
    LevelsSuffix(a, b, k, |b|);
  }

  lemma {:induction false} ComputesConcat(a: seq<Event>, b: seq<Event>)
    ensures Computes(a + b) == Computes(a) + Computes(b)
  {
    ComputesSuffix(a, b, |b|);
  }

  /** The projections of a one-event trace. */
  lemma {:induction false} Single(e: Event, k: CallKind)
    ensures LevelsOf([e], k) == if IsKind(e, k) then [e.level] else []
    ensures Computes([e]) == if e.ComputeCall? then 1 else 0
  {
    assert LevelsUpTo([e], k, 0) == [];
    assert ComputesUpTo([e], 0) == 0;
  }

  /** Appending traces one after the other. */
  lemma Assoc(a: seq<Event>, b: seq<Event>, c: seq<Event>)
    ensures a + b + c == a + (b + c)
  {
  }

  /** What appending one event does to the keys of the level calls. */
  lemma {:induction false} SnocKeyed(t: seq<Event>, e: Event, key: Key)
    ensures Keyed(t + [e], key) <==> Keyed(t, key) && ((e.GetCall? || e.SetCall?) ==> e.key == key)
  {
    assert forall i :: 0 <= i < |t| ==> (t + [e])[i] == t[i];
    assert (t + [e])[|t|] == e;
  }

  /** What appending one event does to the values the level writes carry. */
  lemma {:induction false} SnocCarries(t: seq<Event>, e: Event, value: JsVal)
    ensures Carries(t + [e], value) <==> Carries(t, value) && (e.SetCall? ==> e.value == value)
  {
    assert forall i :: 0 <= i < |t| ==> (t + [e])[i] == t[i];
    assert (t + [e])[|t|] == e;
  }

  /** The calls of a concatenation are those of its parts, in order. */
  lemma {:induction false} CallsOfConcat(a: seq<Event>, b: seq<Event>)
    ensures CallsOf(a + b) == Then(CallsOf(a), CallsOf(b))
  {
    LevelsOfConcat(a, b, GetKind);
    LevelsOfConcat(a, b, SetKind);
    LevelsOfConcat(a, b, GetErrorKind);
    LevelsOfConcat(a, b, SetErrorKind);
    ComputesConcat(a, b);
  }

  /** A concatenation keeps the key and the written value of both parts. */
  lemma {:induction false} ConcatCalls(a: seq<Event>, b: seq<Event>, key: Key, value: JsVal)
    ensures Keyed(a + b, key) <==> Keyed(a, key) && Keyed(b, key)
    ensures Carries(a + b, value) <==> Carries(a, value) && Carries(b, value)
  {
    assert forall i :: 0 <= i < |a| ==> (a + b)[i] == a[i];
    assert forall i :: 0 <= i < |b| ==> (a + b)[|a| + i] == b[i];
  }

  // ---------------------------------------------------------------------
  // Index ranges
  // ---------------------------------------------------------------------

  /** `lo, lo + 1, ..., hi - 1`. */
  function Range(lo: nat, hi: nat): seq<nat>
    decreases hi
  {
    if hi <= lo then [] else Range(lo, hi - 1) + [hi - 1]
  }

  /** `Range(lo, hi)` is the ascending run of indices from `lo` up to, and
      not including, `hi`. */
  lemma {:induction false} RangeAscends(lo: nat, hi: nat)
    ensures |Range(lo, hi)| == if lo <= hi then hi - lo else 0
    ensures forall k :: 0 <= k < |Range(lo, hi)| ==> Range(lo, hi)[k] == lo + k
    decreases hi
  {
    if lo < hi {
      RangeAscends(lo, hi - 1);
    }
  }

  /** `hi - 1, hi - 2, ..., lo`. */
  function Descending(lo: nat, hi: nat): seq<nat>
    decreases hi
  {
    if hi <= lo then [] else [hi - 1] + Descending(lo, hi - 1)
  }

  /** `Descending(lo, hi)` is the run of indices from `hi - 1` down to
      `lo`. */
  lemma {:induction false} DescendingDescends(lo: nat, hi: nat)
    ensures |Descending(lo, hi)| == if lo <= hi then hi - lo else 0
    ensures forall k :: 0 <= k < |Descending(lo, hi)| ==> Descending(lo, hi)[k] == hi - 1 - k
    decreases hi
  {
    if lo < hi {
      DescendingDescends(lo, hi - 1);
    }
  }
}

// The long-term user memory: a tree-shaped profile record whose leaves are
// optional scalars and lists of strings, filtered by value length before it
// is stored or shown, and diffed against an extracted update.
module Memory {
  import opened Wrappers
  import opened Json
  import PyStr

  /** A scalar profile value: a string (literal choices included) or a bool. */
  datatype Scalar = SStr(s: string) | SBool(b: bool)

  /** A profile field value: an optional scalar, a list of strings or a nested record. */
  datatype Value =
    | Leaf(v: Option<Scalar>)
    | Items(items: seq<string>)
    | Model(fields: seq<(string, Value)>)

  /** len(str(x)) */
  function ScalarLength(x: Scalar): nat
  {
    match x
    case SStr(s) => |s|
    case SBool(b) => if b then 4 else 5
  }

  // ----------------------------------------------------------------- filter

  /** The resolved arguments of `filter`. */
  datatype Bounds = Bounds(lo: int, hi: int, k: Option<int>)

  /** Falsy bounds fall back to -1 and 1_000_000. */
  function Resolve(minLength: Option<int>, maxLength: Option<int>, k: Option<int>): Bounds
  {
    Bounds(if minLength.Some? && minLength.value != 0 then minLength.value else -1,
           if maxLength.Some? && maxLength.value != 0 then maxLength.value else 1_000_000,
           k)
  }

  /** The bounds `load_memory`, `save_memory` and `update_memory` use. */
  const StoreBounds := Resolve(Some(1), Some(100), Some(5))

  predicate InBounds(b: Bounds, n: int)
  {
    b.lo <= n <= b.hi
  }

  /** The list comprehension of `_filter_value`: the elements whose length is within bounds. */
  function KeepInBounds(xs: seq<string>, b: Bounds): (r: seq<string>)
    ensures |r| <= |xs|
    ensures forall i :: 0 <= i < |r| ==> InBounds(b, |r[i]|)
    ensures forall x :: x in r <==> x in xs && InBounds(b, |x|)
  {
    if xs == [] then []
    else (if InBounds(b, |xs[0]|) then [xs[0]] else []) + KeepInBounds(xs[1..], b)
  }

  lemma {:induction false} KeepInBoundsNoop(xs: seq<string>, b: Bounds)
    requires forall i :: 0 <= i < |xs| ==> InBounds(b, |xs[i]|)
    ensures KeepInBounds(xs, b) == xs
  {
    if xs != [] {
      KeepInBoundsNoop(xs[1..], b);
    }
  }

  /** value[-k:] when k is truthy. */
  function KeepLast(xs: seq<string>, k: Option<int>): (r: seq<string>)
    ensures |r| <= |xs|
    ensures r == xs[|xs| - |r|..]
    ensures k.Some? && k.value > 0 ==> |r| == if |xs| <= k.value then |xs| else k.value
    ensures k.None? || k.value == 0 ==> r == xs
  {
    if k.Some? && k.value != 0 then PyStr.SliceFrom(xs, -k.value) else xs
  }

  /** `_filter_value` and `_filter`: lists are trimmed, out-of-bounds scalars become None, records recurse. */
  function FilterValue(v: Value, b: Bounds): Value
    decreases v, 1
  {
    match v
    case Items(xs) => Items(KeepLast(KeepInBounds(xs, b), b.k))
    case Leaf(x) => if x.Some? && InBounds(b, ScalarLength(x.value)) then v else Leaf(None)
    case Model(fs) => Model(FilterFields(fs, b))
  }

  function FilterFields(fs: seq<(string, Value)>, b: Bounds): (r: seq<(string, Value)>)
    decreases fs, 0
    ensures |r| == |fs|
    ensures forall i :: 0 <= i < |fs| ==> r[i].0 == fs[i].0
  {
    if fs == [] then []
    else
      var kv := fs[0];
      assert kv in fs && kv.1 < kv;
      [(kv.0, FilterValue(kv.1, b))] + FilterFields(fs[1..], b)
  }

  /** Every scalar and list element of a value is within bounds and no list is longer than k (when k > 0). */
  predicate Bounded(v: Value, b: Bounds)
    decreases v, 1
  {
    match v
    case Items(xs) =>
      (forall i :: 0 <= i < |xs| ==> InBounds(b, |xs[i]|)) && (b.k.Some? && b.k.value > 0 ==> |xs| <= b.k.value)
    case Leaf(x) => x.Some? ==> InBounds(b, ScalarLength(x.value))
    case Model(fs) => BoundedFields(fs, b)
  }

  predicate BoundedFields(fs: seq<(string, Value)>, b: Bounds)
    decreases fs, 0
  {
    fs != [] ==>
      var kv := fs[0];
      assert kv in fs && kv.1 < kv;
      Bounded(kv.1, b) && BoundedFields(fs[1..], b)
  }

  /** A filtered value respects the bounds. */
  lemma {:induction false} FilterBounded(v: Value, b: Bounds)
    ensures Bounded(FilterValue(v, b), b)
    decreases v, 1
  {
    match v
    case Items(xs) => KeepLastBounded(KeepInBounds(xs, b), b);
    case Leaf(_) =>
    case Model(fs) => FilterFieldsBounded(fs, b);
  }

  lemma KeepLastBounded(ys: seq<string>, b: Bounds)
    requires forall i :: 0 <= i < |ys| ==> InBounds(b, |ys[i]|)
    ensures Bounded(Items(KeepLast(ys, b.k)), b)
  {
    var zs := KeepLast(ys, b.k);
    assert forall i :: 0 <= i < |zs| ==> zs[i] == ys[|ys| - |zs| + i];
  }

  lemma {:induction false} FilterFieldsBounded(fs: seq<(string, Value)>, b: Bounds)
    ensures BoundedFields(FilterFields(fs, b), b)
    decreases fs, 0
  {
    if fs != [] {
      var kv := fs[0];
      assert kv in fs && kv.1 < kv;
      FilterBounded(kv.1, b);
      FilterFieldsBounded(fs[1..], b);
      assert FilterFields(fs, b)[1..] == FilterFields(fs[1..], b);
    }
  }

  /** Filtering a value that already respects the bounds changes nothing. */
  lemma {:induction false} FilterBoundedNoop(v: Value, b: Bounds)
    requires b.k.None? || b.k.value >= 0
    requires Bounded(v, b)
    ensures FilterValue(v, b) == v
    decreases v, 1
  {
    match v
    case Items(xs) =>
      KeepInBoundsNoop(xs, b);
      assert KeepLast(xs, b.k) == xs[|xs| - |KeepLast(xs, b.k)|..];
      assert xs[0..] == xs;
    case Leaf(_) =>
    case Model(fs) => FilterFieldsBoundedNoop(fs, b);
  }

  lemma {:induction false} FilterFieldsBoundedNoop(fs: seq<(string, Value)>, b: Bounds)
    requires b.k.None? || b.k.value >= 0
    requires BoundedFields(fs, b)
    ensures FilterFields(fs, b) == fs
    decreases fs, 0
  {
    if fs != [] {
      var kv := fs[0];
      assert kv in fs && kv.1 < kv;
      FilterBoundedNoop(kv.1, b);
      FilterFieldsBoundedNoop(fs[1..], b);
    }
  }

  /** Hence filtering twice with the same bounds is filtering once, unless k is negative (then value[-k:] drops a prefix each time). */
  lemma FilterIdempotent(v: Value, b: Bounds)
    requires b.k.None? || b.k.value >= 0
    ensures FilterValue(FilterValue(v, b), b) == FilterValue(v, b)
  {
    FilterBounded(v, b);
    FilterBoundedNoop(FilterValue(v, b), b);
  }

  /** `UserProfile.filter`: works on a copy, field by field. */
  method Filter(v: Value, b: Bounds) returns (r: Value)
    ensures r == FilterValue(v, b)
    decreases v
  {
    if !v.Model? {
      return FilterValue(v, b);
    }
    var fs := v.fields;
    var out: seq<(string, Value)> := [];
    var i := 0;
    while i < |fs|
      invariant 0 <= i <= |fs|
      invariant out == FilterFields(fs[..i], b)
    {
      var kv := fs[i];
      assert kv in fs && kv.1 < kv;
      var fv := Filter(kv.1, b);
      FilterFieldsSnoc(fs[..i], kv, b);
      assert fs[..i + 1] == fs[..i] + [kv];
      out := out + [(kv.0, fv)];
      i := i + 1;
    }
    assert fs[..|fs|] == fs;
    return Model(out);
  }

  lemma {:induction false} FilterFieldsSnoc(fs: seq<(string, Value)>, kv: (string, Value), b: Bounds)
    ensures FilterFields(fs + [kv], b) == FilterFields(fs, b) + [(kv.0, FilterValue(kv.1, b))]
  {
    if fs != [] {
      assert (fs + [kv])[1..] == fs[1..] + [kv];
      FilterFieldsSnoc(fs[1..], kv, b);
    } else {
      assert [kv][1..] == [];
    }
  }

  // ------------------------------------------------------------- emptiness

  /** `dump()` without None, defaults and unset fields is empty: every leaf is None, every list empty. */
  predicate IsEmpty(v: Value)
    decreases v, 1
  {
    match v
    case Leaf(x) => x.None?
    case Items(xs) => xs == []
    case Model(fs) => EmptyFields(fs)
  }

  predicate EmptyFields(fs: seq<(string, Value)>)
    decreases fs, 0
  {
    fs != [] ==>
      var kv := fs[0];
      assert kv in fs && kv.1 < kv;
      IsEmpty(kv.1) && EmptyFields(fs[1..])
  }

  // ------------------------------------------------------------------- diff

  /** The elements of `xs` without repeats, in first-occurrence order (the model's list(set(xs))). */
  function Unique(xs: seq<string>): (r: seq<string>)
    ensures forall x :: x in r <==> x in xs
    ensures forall i, j :: 0 <= i < j < |r| ==> r[i] != r[j]
  {
    if xs == [] then []
    else
      var rest := Unique(xs[..|xs| - 1]);
      if xs[|xs| - 1] in rest then rest else rest + [xs[|xs| - 1]]
  }

  /** The elements of `xs` that are not in `ys`, in order. */
  function Minus(xs: seq<string>, ys: seq<string>): (r: seq<string>)
    ensures forall x :: x in r <==> x in xs && x !in ys
    ensures (forall i, j :: 0 <= i < j < |xs| ==> xs[i] != xs[j]) ==> forall i, j :: 0 <= i < j < |r| ==> r[i] != r[j]
    ensures (forall x :: x in xs ==> x in ys) ==> r == []
  {
    if xs == [] then []
    else (if xs[0] in ys then [] else [xs[0]]) + Minus(xs[1..], ys)
  }

  /**
   * The diff of one field, from its old value (None when the old record lacks
   * it) and its update value. A None or empty-list update leaves the default.
   */
  function DiffValue(prior: Option<Value>, update: Value): (r: Value)
    decreases update, 1
    ensures update == Leaf(None) || update == Items([]) ==> r == update
    ensures update.Leaf? && update.v.Some? ==> r == (if prior == Some(update) then Leaf(None) else update)
    ensures update.Items? && update.items != [] && prior.Some? && prior.value.Items? ==>
      r.Items? && (forall x :: x in r.items <==> x in update.items && x !in prior.value.items)
      && forall i, j :: 0 <= i < j < |r.items| ==> r.items[i] != r.items[j]
    ensures update.Model? ==> r.Model? && Keys(r.fields) == Keys(update.fields)
  {
    match update
    case Leaf(x) =>
      if x.None? then update
      else if prior == Some(update) then Leaf(None)
      else update
    case Items(xs) =>
      if xs == [] then update
      else if prior.Some? && prior.value.Items? then Items(Minus(Unique(xs), prior.value.items))
      else update
    case Model(nfs) =>
      if prior.Some? && prior.value.Model? then Model(DiffFields(prior.value.fields, nfs))
      else update
  }

  function DiffFields(priors: seq<(string, Value)>, updates: seq<(string, Value)>): (r: seq<(string, Value)>)
    decreases updates, 0
    ensures Keys(r) == Keys(updates)
  {
    if updates == [] then []
    else
      var kv := updates[0];
      assert kv in updates && kv.1 < kv;
      [(kv.0, DiffValue(Lookup(priors, kv.0), kv.1))] + DiffFields(priors, updates[1..])
  }

  /** Every record in the value has distinct field names, as a schema does. */
  predicate WellFormed(v: Value)
    decreases v, 1
  {
    match v
    case Model(fs) => UniqueKeys(fs) && WellFormedFields(fs)
    case _ => true
  }

  predicate UniqueKeys(fs: seq<(string, Value)>)
  {
    forall i, j :: 0 <= i < j < |fs| ==> fs[i].0 != fs[j].0
  }

  predicate WellFormedFields(fs: seq<(string, Value)>)
    decreases fs, 0
  {
    fs != [] ==>
      var kv := fs[0];
      assert kv in fs && kv.1 < kv;
      WellFormed(kv.1) && WellFormedFields(fs[1..])
  }

  /** A profile compared with itself has an empty diff. */
  lemma {:induction false} DiffSelfEmpty(v: Value)
    requires WellFormed(v)
    ensures IsEmpty(DiffValue(Some(v), v))
    decreases v, 1
  {
    match v
    case Leaf(_) =>
    case Items(xs) =>
      if xs != [] {
        assert Minus(Unique(xs), xs) == [];
      }
    case Model(fs) =>
      forall i | 0 <= i < |fs| ensures Lookup(fs, fs[i].0) == Some(fs[i].1) {
        IndexOfKeyFirst(fs, fs[i].0, i);
      }
      DiffFieldsSelf(fs, fs);
  }

  lemma {:induction false} DiffFieldsSelf(priors: seq<(string, Value)>, updates: seq<(string, Value)>)
    requires WellFormedFields(updates)
    requires forall i :: 0 <= i < |updates| ==> Lookup(priors, updates[i].0) == Some(updates[i].1)
    ensures EmptyFields(DiffFields(priors, updates))
    decreases updates, 0
  {
    if updates != [] {
      var kv := updates[0];
      assert kv in updates && kv.1 < kv;
      DiffSelfEmpty(kv.1);
      assert forall i :: 0 <= i < |updates[1..]| ==> updates[1..][i] == updates[i + 1];
      DiffFieldsSelf(priors, updates[1..]);
      assert DiffFields(priors, updates)[1..] == DiffFields(priors, updates[1..]);
    }
  }

  /** `compare_pydantic_schemas_to_update_and_diff`, diff half. */
  method Compare(prior: Value, update: Value) returns (diff: Value)
    ensures diff == DiffValue(Some(prior), update)
    decreases update, 1
  {
    if update.Model? && prior.Model? {
      var out := CompareFields(prior.fields, update.fields);
      return Model(out);
    }
    return DiffValue(Some(prior), update);
  }

  /** The loop over the new record's fields, each diffed against the old record's field of that name. */
  method CompareFields(priors: seq<(string, Value)>, updates: seq<(string, Value)>) returns (out: seq<(string, Value)>)
    ensures out == DiffFields(priors, updates)
    decreases updates, 0
  {
    out := [];
    var i := 0;
    while i < |updates|
      invariant 0 <= i <= |updates|
      invariant out == DiffFields(priors, updates[..i])
    {
      var kv := updates[i];
      assert kv in updates && kv.1 < kv;
      var d := CompareField(priors, kv);
      DiffFieldsSnoc(priors, updates[..i], kv);
      assert updates[..i + 1] == updates[..i] + [kv];
      out := out + [(kv.0, d)];
      i := i + 1;
    }
    assert updates[..|updates|] == updates;
  }

  /** One field: against the old record's field of the same name, or against None. */
  method CompareField(priors: seq<(string, Value)>, kv: (string, Value)) returns (d: Value)
    ensures d == DiffValue(Lookup(priors, kv.0), kv.1)
    decreases kv.1, 2
  {
    var was := Lookup(priors, kv.0);
    if was.Some? {
      d := Compare(was.value, kv.1);
    } else {
      d := DiffValue(None, kv.1);
    }
  }

  lemma {:induction false} DiffFieldsSnoc(priors: seq<(string, Value)>, updates: seq<(string, Value)>, kv: (string, Value))
    ensures DiffFields(priors, updates + [kv]) == DiffFields(priors, updates) + [(kv.0, DiffValue(Lookup(priors, kv.0), kv.1))]
  {
    if updates != [] {
      assert (updates + [kv])[1..] == updates[1..] + [kv];
      DiffFieldsSnoc(priors, updates[1..], kv);
    } else {
      assert [kv][1..] == [];
    }
  }

  // ------------------------------------------------------------ utterances

  /** The transcript lines of `prepare_utterances`: users as "User: ", assistants as "Tutor: ". */
  function UtteranceLines(utterances: seq<Json>): (r: Result<seq<string>>)
    ensures r.Ok? ==> |r.value| <= |utterances|
    ensures r.Ok? ==> forall k :: 0 <= k < |r.value| ==>
      PyStr.StartsWith(r.value[k], "User: ") || PyStr.StartsWith(r.value[k], "Tutor: ")
  {
    if utterances == [] then Ok([])
    else
      var p :- UtteranceLines(utterances[..|utterances| - 1]);
      var u := utterances[|utterances| - 1];
      var role :- Get(u, "role");
      if role == JStr("user") || role == JStr("assistant") then
        var text :- Get(u, "text");
        var t :- PyStrOf(text);
        var line := (if role == JStr("user") then "User: " else "Tutor: ") + t;
        assert PyStr.StartsWith(line, "User: ") || PyStr.StartsWith(line, "Tutor: ");
        Ok(p + [line])
      else Ok(p)
  }

  /** `prepare_utterances`: the lines joined by newlines, stripped. */
  function PrepareUtterances(utterances: seq<Json>): (r: Result<string>)
    ensures r.Ok? ==> PyStr.Trimmed(r.value)
    ensures r.Ok? <==> UtteranceLines(utterances).Ok?
  {
    var lines :- UtteranceLines(utterances);
    Ok(PyStr.Strip(PyStr.Join("\n", lines)))
  }

  /** Utterances from other speakers leave no line. */
  lemma OtherRolesDropped(utterances: seq<Json>, u: Json)
    requires UtteranceLines(utterances).Ok?
    requires Get(u, "role").Ok? && Get(u, "role").value != JStr("user") && Get(u, "role").value != JStr("assistant")
    ensures UtteranceLines(utterances + [u]) == UtteranceLines(utterances)
  {
    assert (utterances + [u])[..|utterances|] == utterances;
  }

  // -------------------------------------------------------- update_memory

  /**
   * update_memory as written: the stored profile and the returned diff. With
   * a profile, the diff against the new extraction is returned filtered and
   * the profile is only re-filtered. Without one, the init branch calls
   * `filter` on the APIResponse that the LLM call returns instead of on its
   * payload; the AttributeError is swallowed, nothing is stored and None is
   * returned. A failed extraction changes nothing.
   */
  function UpdateOutcome(memory: Option<Value>, extracted: Result<Value>): (r: (Option<Value>, Option<Value>))
    ensures r.0.None? <==> memory.None?
    ensures r.1.Some? <==> memory.Some? && extracted.Ok?
    ensures r.0.Some? && extracted.Ok? ==> Bounded(r.0.value, StoreBounds)
  {
    if extracted.Err? || memory.None? then (memory, None)
    else
      FilterBounded(memory.value, StoreBounds);
      (Some(FilterValue(memory.value, StoreBounds)), Some(FilterValue(DiffValue(memory, extracted.value), StoreBounds)))
  }

  /** update_memory as evidently intended: the init branch stores the filtered payload. */
  function IntendedOutcome(memory: Option<Value>, extracted: Result<Value>): (r: (Option<Value>, Option<Value>))
    ensures r.0.Some? <==> memory.Some? || extracted.Ok?
    ensures memory.None? && extracted.Ok? ==> r.1.None? && Bounded(r.0.value, StoreBounds)
    ensures memory.Some? ==> r == UpdateOutcome(memory, extracted)
  {
    if memory.None? && extracted.Ok? then
      FilterBounded(extracted.value, StoreBounds);
      (Some(FilterValue(extracted.value, StoreBounds)), None)
    else UpdateOutcome(memory, extracted)
  }

  /** The stored profile after a series of update_memory calls, as written. */
  function AfterUpdates(memory: Option<Value>, xs: seq<Result<Value>>): Option<Value>
    decreases |xs|
  {
    if xs == [] then memory else AfterUpdates(UpdateOutcome(memory, xs[0]).0, xs[1..])
  }

  /** The stored profile after a series of update_memory calls, as intended. */
  function IntendedAfterUpdates(memory: Option<Value>, xs: seq<Result<Value>>): Option<Value>
    decreases |xs|
  {
    if xs == [] then memory else IntendedAfterUpdates(IntendedOutcome(memory, xs[0]).0, xs[1..])
  }

  /** As written, a store that starts without a profile never gets one from update_memory, whatever is extracted. */
  lemma {:induction false} UpdatesNeverInitialise(xs: seq<Result<Value>>)
    ensures AfterUpdates(None, xs) == None
    decreases |xs|
  {
    if xs != [] {
      UpdatesNeverInitialise(xs[1..]);
    }
  }

  /** As written, the first successful extraction into an empty store is discarded. */
  lemma InitDiscardsExtraction(v: Value)
    ensures UpdateOutcome(None, Ok(v)) == (None, None)
    ensures IntendedOutcome(None, Ok(v)) == (Some(FilterValue(v, StoreBounds)), None)
  {
  }

  /**
   * As intended, once one extraction has succeeded (or a profile was loaded)
   * the store holds a profile within the store's bounds.
   */
  lemma {:induction false} IntendedProfileAppears(memory: Option<Value>, xs: seq<Result<Value>>, i: nat)
    requires i < |xs| && xs[i].Ok?
    ensures IntendedAfterUpdates(memory, xs).Some?
    ensures Bounded(IntendedAfterUpdates(memory, xs).value, StoreBounds)
    decreases |xs|
  {
    var m := IntendedOutcome(memory, xs[0]).0;
    if i == 0 {
      if memory.None? {
        FilterBounded(xs[0].value, StoreBounds);
      }
      IntendedKeepsBounded(m, xs[1..]);
    } else {
      IntendedProfileAppears(m, xs[1..], i - 1);
    }
  }

  /** As intended, a bounded profile stays present and bounded through any further updates. */
  lemma {:induction false} IntendedKeepsBounded(memory: Option<Value>, xs: seq<Result<Value>>)
    requires memory.Some? && Bounded(memory.value, StoreBounds)
    ensures IntendedAfterUpdates(memory, xs).Some?
    ensures Bounded(IntendedAfterUpdates(memory, xs).value, StoreBounds)
    decreases |xs|
  {
    if xs != [] {
      var m := IntendedOutcome(memory, xs[0]).0;
      if xs[0].Ok? {
        FilterBounded(memory.value, StoreBounds);
      }
      IntendedKeepsBounded(m, xs[1..]);
    }
  }

  // ----------------------------------------------------------- the store

  /** `UpdatableMemoryJSON`: the stored profile and its memoised load/save tasks. */
  class MemoryStore {
    var memory: Option<Value>
    var loadTask: Option<nat>
    var saveTask: Option<nat>

    constructor ()
      ensures memory == None && loadTask == None && saveTask == None
    {
      memory := None;
      loadTask := None;
      saveTask := None;
    }

    /** No profile yet, or an empty one. */
    predicate Empty()
      reads this
    {
      memory.None? || IsEmpty(memory.value)
    }

    /** `sysprompt`: "{}" for an empty store, else the profile's JSON dump. */
    method Sysprompt(dumpJson: Value -> string) returns (s: string)
      ensures Empty() ==> s == "{}"
      ensures !Empty() ==> s == dumpJson(memory.value)
    {
      if memory.None? || IsEmpty(memory.value) {
        return "{}";
      }
      return dumpJson(memory.value);
    }

    /** `load_memory_task`: the first call creates the task (`next`); later calls return it. */
    method LoadMemoryTask(next: nat) returns (t: nat)
      modifies this
      ensures old(loadTask).Some? ==> t == old(loadTask).value
      ensures old(loadTask).None? ==> t == next
      ensures loadTask == Some(t)
      ensures memory == old(memory) && saveTask == old(saveTask)
    {
      if loadTask.None? {
        loadTask := Some(next);
      }
      return loadTask.value;
    }

    /** `save_memory_task`, memoised in the same way. */
    method SaveMemoryTask(next: nat) returns (t: nat)
      modifies this
      ensures old(saveTask).Some? ==> t == old(saveTask).value
      ensures old(saveTask).None? ==> t == next
      ensures saveTask == Some(t)
      ensures memory == old(memory) && loadTask == old(loadTask)
    {
      if saveTask.None? {
        saveTask := Some(next);
      }
      return saveTask.value;
    }

    /**
     * `load_memory`: `stored` is what the file held (None when falsy) and
     * whether it validated as a profile.
     */
    method LoadMemory(stored: Option<Result<Value>>)
      modifies this
      ensures stored.None? || stored.value.Err? ==> memory == None
      ensures stored.Some? && stored.value.Ok? ==> memory == Some(FilterValue(stored.value.value, StoreBounds))
      ensures loadTask == old(loadTask) && saveTask == old(saveTask)
    {
      if stored.None? || stored.value.Err? {
        memory := None;
        return;
      }
      var m := Filter(stored.value.value, StoreBounds);
      memory := Some(m);
    }

    /** `save_memory`: nothing for an empty store, else the filtered profile, which is also kept. */
    method SaveMemory() returns (saved: Option<Value>)
      modifies this
      ensures old(Empty()) ==> saved.None? && memory == old(memory)
      ensures !old(Empty()) ==> memory == Some(FilterValue(old(memory).value, StoreBounds)) && saved == memory
      ensures loadTask == old(loadTask) && saveTask == old(saveTask)
    {
      if memory.None? || IsEmpty(memory.value) {
        return None;
      }
      var m := Filter(memory.value, StoreBounds);
      memory := Some(m);
      return memory;
    }

    /**
     * `update_memory`: `extracted` is the model's structured reply. Without a
     * stored profile the init branch fails on the APIResponse and stores
     * nothing; with one, the filtered diff against the stored profile is
     * returned and the profile is only re-filtered. A failed extraction
     * changes nothing and yields None.
     */
    method UpdateMemory(extracted: Result<Value>) returns (diff: Option<Value>)
      modifies this
      ensures (memory, diff) == UpdateOutcome(old(memory), extracted)
      ensures extracted.Err? ==> diff.None? && memory == old(memory)
      ensures old(memory).None? ==> diff.None? && memory.None?
      ensures extracted.Ok? && old(memory).Some? ==>
        diff == Some(FilterValue(DiffValue(old(memory), extracted.value), StoreBounds))
        && memory == Some(FilterValue(old(memory).value, StoreBounds))
      ensures loadTask == old(loadTask) && saveTask == old(saveTask)
    {
      if extracted.Err? {
        return None;
      }
      if memory.None? {
        // `cast(UserProfile, _memory).filter(...)` raises AttributeError,
        // which the `except Exception` turns into None.
        return None;
      }
      var d := Compare(memory.value, extracted.value);
      var fd := Filter(d, StoreBounds);
      var m := Filter(memory.value, StoreBounds);
      memory := Some(m);
      return Some(fd);
    }
  }
}

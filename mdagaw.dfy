// The multi-branch scenario engine: several branches of states can be active
// at once. Each user turn collects the candidate transitions (from active
// states, from initial states of branches not yet entered and from the global
// terminal states), lets a judge pick one, records the visit, blocks the other
// exits of a fork and rebuilds the character's system prompt.
module Mdagaw {
  import opened Wrappers
  import opened Json
  import PyStr
  import LiteLlm
  import Agentic

  const Success := "SUCCESS"
  const Fail := "FAIL"
  const Start := "START"
  const Initial := "INITIAL"
  const Global := "GLOBAL"

  /** One outgoing transition of a branch state, keyed by its target in the state's dict. */
  datatype Transition = Transition(
    condition: Option<string>,
    kind: Option<string>,
    isPositive: Option<bool>,
    shortDesc: Option<string>,
    blocked: bool)

  /** A branch state: an activation condition, its transitions and its prompt addition. */
  datatype State = State(
    condition: Option<string>,
    transitions: Option<seq<(string, Transition)>>,
    addprompt: Option<string>)

  /** A branch: its states by name, in file order. */
  type Branch = seq<(string, State)>

  /** A global terminal state (SUCCESS or FAIL). */
  datatype TState = TState(condition: Option<string>, addprompt: Option<string>)

  /** One entry of `all_transitions`, together with its `transition_sources` entry. */
  datatype Candidate = Candidate(
    source: string,
    condition: string,
    isPositive: Option<bool>,
    kind: Option<string>,
    shortDesc: string)

  // -------------------------------------------------- candidate collection

  predicate LeadsTo(st: State, name: string)
  {
    st.transitions.Some? && IndexOfKey(st.transitions.value, name).Some?
  }

  /** Some state of some branch has a transition to `name`. */
  predicate HasIncoming(branches: seq<(string, Branch)>, name: string)
  {
    exists b, s :: 0 <= b < |branches| && 0 <= s < |branches[b].1| && LeadsTo(branches[b].1[s].1, name)
  }

  function InitialCandidate(name: string, condition: string): Candidate
  {
    Candidate(Initial, condition, None, Some("parallel"), "Activate initial state " + name)
  }

  function GlobalCandidate(name: string, condition: string): Candidate
  {
    Candidate(Global, condition, Some(name == Success), None, "Reach " + name)
  }

  /** The candidate for a transition of an active state; its condition and type are required. */
  function RegularCandidate(name: string, target: string, t: Transition): (r: Result<Candidate>)
    ensures r.Ok? <==> t.condition.Some? && t.kind.Some?
    ensures r.Err? ==> r.error == KeyError
    ensures r.Ok? ==> r.value.source == name && r.value.condition == t.condition.value && r.value.kind == t.kind
    ensures r.Ok? && target == Success ==> r.value.isPositive == Some(true)
    ensures r.Ok? && t.isPositive != Some(false) ==> r.value.isPositive == Some(true)
  {
    if t.condition.None? then Err(KeyError)
    else if t.kind.None? then Err(KeyError)
    else Ok(Candidate(name, t.condition.value, Some(target == Success || t.isPositive.GetOr(true)),
                      t.kind, t.shortDesc.GetOr("Transition to " + target)))
  }

  function TransitionKey(name: string, target: string): string
  {
    name + ":" + target
  }

  /** The candidates of an active state's transitions, in order, skipping blocked ones. */
  function TransitionCandidates(name: string, ts: seq<(string, Transition)>): (r: Result<seq<(string, Candidate)>>)
    ensures r.Err? ==> r.error == KeyError
    ensures r.Ok? ==> forall e :: e in r.value ==> e.1.source == name
  {
    if ts == [] then Ok([])
    else
      var p :- TransitionCandidates(name, ts[..|ts| - 1]);
      var last := ts[|ts| - 1];
      if last.1.blocked then Ok(p)
      else
        var c :- RegularCandidate(name, last.0, last.1);
        Ok(p + [(TransitionKey(name, last.0), c)])
  }

  /**
   * Exactly the unblocked transitions become candidates; a missing condition
   * or type on an unblocked one is a KeyError.
   */
  lemma {:induction false} TransitionCandidatesExact(name: string, ts: seq<(string, Transition)>)
    ensures TransitionCandidates(name, ts).Ok? <==>
      forall j :: 0 <= j < |ts| && !ts[j].1.blocked ==> RegularCandidate(name, ts[j].0, ts[j].1).Ok?
    ensures TransitionCandidates(name, ts).Ok? ==>
      forall j :: 0 <= j < |ts| && !ts[j].1.blocked ==>
        (TransitionKey(name, ts[j].0), RegularCandidate(name, ts[j].0, ts[j].1).value) in TransitionCandidates(name, ts).value
    ensures TransitionCandidates(name, ts).Ok? ==>
      forall e :: e in TransitionCandidates(name, ts).value ==>
        exists j :: 0 <= j < |ts| && !ts[j].1.blocked && RegularCandidate(name, ts[j].0, ts[j].1).Ok?
          && e == (TransitionKey(name, ts[j].0), RegularCandidate(name, ts[j].0, ts[j].1).value)
  {
    if ts != [] {
      var init := ts[..|ts| - 1];
      TransitionCandidatesExact(name, init);
      assert forall j :: 0 <= j < |init| ==> init[j] == ts[j];
    }
  }

  /** What one state contributes, as the first double loop of `response` does. */
  function StateCandidates(branches: seq<(string, Branch)>, visited: seq<string>, name: string, st: State)
    : (r: Result<seq<(string, Candidate)>>)
    ensures r.Err? ==> r.error == KeyError && name in visited
    ensures name !in visited ==> r.Ok? && |r.value| <= 1
    ensures name !in visited ==> (r.value != [] <==> st.condition.Some? && !HasIncoming(branches, name))
    ensures name !in visited && r.value != [] ==>
      r.value[0] == (Initial + ":" + name, InitialCandidate(name, st.condition.value))
    ensures name in visited && r.Ok? ==> forall e :: e in r.value ==> e.1.source == name
    ensures name in visited && st.transitions.None? ==> r == Ok([])
  {
    if name !in visited then
      if st.condition.Some? && !HasIncoming(branches, name) then
        Ok([(Initial + ":" + name, InitialCandidate(name, st.condition.value))])
      else Ok([])
    else if st.transitions.None? then Ok([])
    else TransitionCandidates(name, st.transitions.value)
  }

  /** The concatenated contributions of `states`, in order. */
  function Raw(branches: seq<(string, Branch)>, visited: seq<string>, states: seq<(string, State)>)
    : (r: Result<seq<(string, Candidate)>>)
    ensures r.Err? ==> r.error == KeyError
  {
    if states == [] then Ok([])
    else
      var p :- Raw(branches, visited, states[..|states| - 1]);
      var q :- StateCandidates(branches, visited, states[|states| - 1].0, states[|states| - 1].1);
      Ok(p + q)
  }

  lemma {:induction false} RawErrPersists(branches: seq<(string, Branch)>, visited: seq<string>,
                                          xs: seq<(string, State)>, ys: seq<(string, State)>)
    requires Raw(branches, visited, xs).Err?
    ensures Raw(branches, visited, xs + ys).Err?
  {
    if ys != [] {
      assert (xs + ys)[..|xs + ys| - 1] == xs + ys[..|ys| - 1];
      RawErrPersists(branches, visited, xs, ys[..|ys| - 1]);
    } else {
      assert xs + ys == xs;
    }
  }

  /** Every collected candidate comes from one of the states. */
  lemma {:induction false} RawFrom(branches: seq<(string, Branch)>, visited: seq<string>,
                                   states: seq<(string, State)>, e: (string, Candidate))
    requires Raw(branches, visited, states).Ok? && e in Raw(branches, visited, states).value
    ensures exists i :: 0 <= i < |states| && StateCandidates(branches, visited, states[i].0, states[i].1).Ok?
              && e in StateCandidates(branches, visited, states[i].0, states[i].1).value
  {
    var init := states[..|states| - 1];
    var p := Raw(branches, visited, init).value;
    if e in p {
      RawFrom(branches, visited, init, e);
      var i :| 0 <= i < |init| && StateCandidates(branches, visited, init[i].0, init[i].1).Ok?
                && e in StateCandidates(branches, visited, init[i].0, init[i].1).value;
      assert init[i] == states[i];
    }
  }

  /** The contributions of the branches `bs`, branch by branch. */
  function RawAll(branches: seq<(string, Branch)>, visited: seq<string>, bs: seq<(string, Branch)>)
    : (r: Result<seq<(string, Candidate)>>)
    ensures r.Err? ==> r.error == KeyError
  {
    if bs == [] then Ok([])
    else
      var p :- RawAll(branches, visited, bs[..|bs| - 1]);
      var q :- Raw(branches, visited, bs[|bs| - 1].1);
      Ok(p + q)
  }

  lemma {:induction false} RawAllErrPersists(branches: seq<(string, Branch)>, visited: seq<string>,
                                             xs: seq<(string, Branch)>, ys: seq<(string, Branch)>)
    requires RawAll(branches, visited, xs).Err?
    ensures RawAll(branches, visited, xs + ys).Err?
  {
    if ys != [] {
      assert (xs + ys)[..|xs + ys| - 1] == xs + ys[..|ys| - 1];
      RawAllErrPersists(branches, visited, xs, ys[..|ys| - 1]);
    } else {
      assert xs + ys == xs;
    }
  }

  lemma {:induction false} RawAllFrom(branches: seq<(string, Branch)>, visited: seq<string>,
                                      bs: seq<(string, Branch)>, e: (string, Candidate))
    requires RawAll(branches, visited, bs).Ok? && e in RawAll(branches, visited, bs).value
    ensures exists b :: 0 <= b < |bs| && Raw(branches, visited, bs[b].1).Ok? && e in Raw(branches, visited, bs[b].1).value
  {
    var init := bs[..|bs| - 1];
    var p := RawAll(branches, visited, init).value;
    if e in p {
      RawAllFrom(branches, visited, init, e);
      var b :| 0 <= b < |init| && Raw(branches, visited, init[b].1).Ok? && e in Raw(branches, visited, init[b].1).value;
      assert init[b] == bs[b];
    }
  }

  /** The GLOBAL candidates: unvisited terminal states that carry a condition. */
  function Globals(tstates: seq<(string, TState)>, visited: seq<string>): (r: seq<(string, Candidate)>)
    ensures forall e :: e in r ==> e.1.source == Global
    ensures forall j :: 0 <= j < |tstates| && tstates[j].0 !in visited && tstates[j].1.condition.Some? ==>
      (Global + ":" + tstates[j].0, GlobalCandidate(tstates[j].0, tstates[j].1.condition.value)) in r
    ensures forall e :: e in r ==>
      (exists j :: 0 <= j < |tstates| && tstates[j].0 !in visited && tstates[j].1.condition.Some?
                   && e == (Global + ":" + tstates[j].0, GlobalCandidate(tstates[j].0, tstates[j].1.condition.value)))
  {
    if tstates == [] then []
    else
      var init := tstates[..|tstates| - 1];
      var p := Globals(init, visited);
      assert forall j :: 0 <= j < |init| ==> init[j] == tstates[j];
      var last := tstates[|tstates| - 1];
      if last.0 !in visited && last.1.condition.Some? then
        p + [(Global + ":" + last.0, GlobalCandidate(last.0, last.1.condition.value))]
      else p
  }

  /** `all_transitions` after the collection loops. */
  function Collected(branches: seq<(string, Branch)>, visited: seq<string>, tstates: Option<seq<(string, TState)>>)
    : (r: Result<seq<(string, Candidate)>>)
    ensures r.Err? ==> r.error == KeyError
  {
    var raw :- RawAll(branches, visited, branches);
    Ok(AssignAll(AssignAll([], raw), if tstates.Some? then Globals(tstates.value, visited) else []))
  }

  lemma {:induction false} AssignFrom<V>(fields: seq<(string, V)>, key: string, v: V, e: (string, V))
    requires e in Assign(fields, key, v)
    ensures e in fields || e == (key, v)
  {
    var r := Assign(fields, key, v);
    var i :| 0 <= i < |r| && r[i] == e;
    match IndexOfKey(fields, key)
    case Some(k) =>
      if i != k {
        assert r[i] == fields[i];
      }
    case None =>
      if i < |fields| {
        assert r[i] == fields[i];
      }
  }

  lemma {:induction false} AssignAllFrom<V>(acc: seq<(string, V)>, xs: seq<(string, V)>, e: (string, V))
    requires e in AssignAll(acc, xs)
    ensures e in acc || e in xs
  {
    if xs != [] {
      var init := xs[..|xs| - 1];
      AssignFrom(AssignAll(acc, init), xs[|xs| - 1].0, xs[|xs| - 1].1, e);
      if e in AssignAll(acc, init) {
        AssignAllFrom(acc, init, e);
        if e in init {
          var i :| 0 <= i < |init| && init[i] == e;
          assert xs[i] == e;
        }
      }
    }
  }

  /** An INITIAL candidate of an inactive state that has a condition and no incoming transition. */
  ghost predicate InitialFrom(branches: seq<(string, Branch)>, visited: seq<string>, e: (string, Candidate))
  {
    exists b, i :: 0 <= b < |branches| && 0 <= i < |branches[b].1| && InitialOf(branches, visited, branches[b].1[i], e)
  }

  ghost predicate InitialOf(branches: seq<(string, Branch)>, visited: seq<string>, st: (string, State), e: (string, Candidate))
  {
    st.0 !in visited && st.1.condition.Some? && !HasIncoming(branches, st.0)
    && e == (Initial + ":" + st.0, InitialCandidate(st.0, st.1.condition.value))
  }

  lemma StateFrom(branches: seq<(string, Branch)>, visited: seq<string>, st: (string, State), e: (string, Candidate))
    requires StateCandidates(branches, visited, st.0, st.1).Ok? && e in StateCandidates(branches, visited, st.0, st.1).value
    ensures InitialOf(branches, visited, st, e) || (e.1.source == st.0 && st.0 in visited && e.1.kind.Some?)
  {
    if st.0 in visited {
      TransitionCandidatesExact(st.0, st.1.transitions.value);
    }
  }

  /**
   * Every entry of `all_transitions` is a GLOBAL candidate, an INITIAL
   * candidate of an inactive state, or a candidate of an active state.
   */
  lemma CollectedFrom(branches: seq<(string, Branch)>, visited: seq<string>,
                      tstates: Option<seq<(string, TState)>>, e: (string, Candidate))
    requires Collected(branches, visited, tstates).Ok? && e in Collected(branches, visited, tstates).value
    ensures e.1.source == Global || InitialFrom(branches, visited, e) || (e.1.source in visited && e.1.kind.Some?)
  {
    var raw := RawAll(branches, visited, branches).value;
    var gs := if tstates.Some? then Globals(tstates.value, visited) else [];
    AssignAllFrom(AssignAll([], raw), gs, e);
    if e !in gs {
      AssignAllFrom([], raw, e);
      RawAllFrom(branches, visited, branches, e);
      var b :| 0 <= b < |branches| && Raw(branches, visited, branches[b].1).Ok? && e in Raw(branches, visited, branches[b].1).value;
      var states := branches[b].1;
      RawFrom(branches, visited, states, e);
      var i :| 0 <= i < |states| && StateCandidates(branches, visited, states[i].0, states[i].1).Ok?
                && e in StateCandidates(branches, visited, states[i].0, states[i].1).value;
      StateFrom(branches, visited, states[i], e);
    }
  }

  /** The key of a later candidate overwrites the value of an earlier one with the same key. */
  lemma CollectedLookup(branches: seq<(string, Branch)>, visited: seq<string>,
                        tstates: Option<seq<(string, TState)>>, key: string)
    requires Collected(branches, visited, tstates).Ok?
    ensures Lookup(Collected(branches, visited, tstates).value, key) ==
      LastValue(RawAll(branches, visited, branches).value
                + (if tstates.Some? then Globals(tstates.value, visited) else []), key)
  {
    var raw := RawAll(branches, visited, branches).value;
    var gs := if tstates.Some? then Globals(tstates.value, visited) else [];
    AssignAllAppend([], raw, gs);
    LookupAssignAll([], raw + gs, key);
  }

  /** The first collection loop's work on one state. */
  method CollectState(all: seq<(string, Candidate)>, branches: seq<(string, Branch)>, visited: seq<string>,
                      name: string, st: State)
    returns (r: Result<seq<(string, Candidate)>>)
    ensures r.Ok? <==> StateCandidates(branches, visited, name, st).Ok?
    ensures r.Ok? ==> r.value == AssignAll(all, StateCandidates(branches, visited, name, st).value)
  {
    if name !in visited {
      if st.condition.Some? && !HasIncoming(branches, name) {
        var e := (Initial + ":" + name, InitialCandidate(name, st.condition.value));
        AssignAllOne(all, e.0, e.1);
        return Ok(Assign(all, e.0, e.1));
      }
      return Ok(all);
    }
    if st.transitions.None? {
      return Ok(all);
    }
    var ts := st.transitions.value;
    var acc := all;
    var j := 0;
    while j < |ts|
      invariant 0 <= j <= |ts|
      invariant TransitionCandidates(name, ts[..j]).Ok?
      invariant acc == AssignAll(all, TransitionCandidates(name, ts[..j]).value)
    {
      assert ts[..j + 1][..j] == ts[..j];
      if !ts[j].1.blocked {
        var c := RegularCandidate(name, ts[j].0, ts[j].1);
        if c.Err? {
          TransitionCandidatesExact(name, ts);
          assert ts[..j + 1][j] == ts[j];
          TransitionCandidatesExact(name, ts[..j + 1]);
          return Err(KeyError);
        }
        var e := (TransitionKey(name, ts[j].0), c.value);
        AssignAllAppend(all, TransitionCandidates(name, ts[..j]).value, [e]);
        AssignAllOne(acc, e.0, e.1);
        acc := Assign(acc, e.0, e.1);
      }
      j := j + 1;
    }
    assert ts[..|ts|] == ts;
    return Ok(acc);
  }

  /** One state's work: state `s` of `states`, extending the candidates collected over the ones before it. */
  method CollectStep(all: seq<(string, Candidate)>, acc: seq<(string, Candidate)>, branches: seq<(string, Branch)>,
                     visited: seq<string>, states: seq<(string, State)>, s: nat)
    returns (r: Result<seq<(string, Candidate)>>)
    requires s < |states| && Raw(branches, visited, states[..s]).Ok?
    requires acc == AssignAll(all, Raw(branches, visited, states[..s]).value)
    ensures r.Err? ==> Raw(branches, visited, states).Err?
    ensures r.Ok? ==> Raw(branches, visited, states[..s + 1]).Ok?
    ensures r.Ok? ==> r.value == AssignAll(all, Raw(branches, visited, states[..s + 1]).value)
  {
    ghost var prefix := states[..s];
    var st := states[s];
    assert states[..s + 1] == prefix + [st];
    assert (prefix + [st])[..|prefix|] == prefix;
    r := CollectState(acc, branches, visited, st.0, st.1);
    if r.Ok? {
      AssignAllAppend(all, Raw(branches, visited, prefix).value, StateCandidates(branches, visited, st.0, st.1).value);
    } else {
      assert states[..s + 1] + states[s + 1..] == states;
      RawErrPersists(branches, visited, states[..s + 1], states[s + 1..]);
    }
  }

  /** The inner collection loop: the states of one branch. */
  method CollectBranch(all: seq<(string, Candidate)>, branches: seq<(string, Branch)>, visited: seq<string>,
                       states: seq<(string, State)>)
    returns (r: Result<seq<(string, Candidate)>>)
    ensures r.Ok? <==> Raw(branches, visited, states).Ok?
    ensures r.Ok? ==> r.value == AssignAll(all, Raw(branches, visited, states).value)
  {
    var acc := all;
    var s := 0;
    while s < |states|
      invariant 0 <= s <= |states|
      invariant Raw(branches, visited, states[..s]).Ok?
      invariant acc == AssignAll(all, Raw(branches, visited, states[..s]).value)
    {
      var res := CollectStep(all, acc, branches, visited, states, s);
      if res.Err? {
        return Err(KeyError);
      }
      acc := res.value;
      s := s + 1;
    }
    assert states[..|states|] == states;
    return Ok(acc);
  }

  /** The loop over the global terminal states. */
  method CollectGlobals(base: seq<(string, Candidate)>, ts: seq<(string, TState)>, visited: seq<string>)
    returns (all: seq<(string, Candidate)>)
    ensures all == AssignAll(base, Globals(ts, visited))
  {
    all := base;
    var i := 0;
    while i < |ts|
      invariant 0 <= i <= |ts|
      invariant all == AssignAll(base, Globals(ts[..i], visited))
    {
      assert ts[..i + 1][..i] == ts[..i];
      if ts[i].0 !in visited && ts[i].1.condition.Some? {
        var e := (Global + ":" + ts[i].0, GlobalCandidate(ts[i].0, ts[i].1.condition.value));
        AssignAllAppend(base, Globals(ts[..i], visited), [e]);
        AssignAllOne(all, e.0, e.1);
        all := Assign(all, e.0, e.1);
      }
      i := i + 1;
    }
    assert ts[..|ts|] == ts;
  }

  /** One branch's work: branch `b`, extending the candidates collected over the branches before it. */
  method CollectBranchStep(acc: seq<(string, Candidate)>, branches: seq<(string, Branch)>, visited: seq<string>, b: nat)
    returns (r: Result<seq<(string, Candidate)>>)
    requires b < |branches| && RawAll(branches, visited, branches[..b]).Ok?
    requires acc == AssignAll([], RawAll(branches, visited, branches[..b]).value)
    ensures r.Err? ==> RawAll(branches, visited, branches).Err?
    ensures r.Ok? ==> RawAll(branches, visited, branches[..b + 1]).Ok?
    ensures r.Ok? ==> r.value == AssignAll([], RawAll(branches, visited, branches[..b + 1]).value)
  {
    RawAllStep(branches, visited, b);
    r := CollectBranch(acc, branches, visited, branches[b].1);
    if r.Ok? {
      AssignAllAppend([], RawAll(branches, visited, branches[..b]).value, Raw(branches, visited, branches[b].1).value);
    }
  }

  /** The candidates of the branches up to `b` are those before it and then branch `b`'s; a failure there persists. */
  lemma RawAllStep(branches: seq<(string, Branch)>, visited: seq<string>, b: nat)
    requires b < |branches| && RawAll(branches, visited, branches[..b]).Ok?
    ensures Raw(branches, visited, branches[b].1).Err? ==> RawAll(branches, visited, branches).Err?
    ensures Raw(branches, visited, branches[b].1).Ok? ==>
      RawAll(branches, visited, branches[..b + 1])
      == Ok(RawAll(branches, visited, branches[..b]).value + Raw(branches, visited, branches[b].1).value)
  {
    assert branches[..b + 1][..b] == branches[..b];
    if Raw(branches, visited, branches[b].1).Err? {
      assert branches[..b + 1] + branches[b + 1..] == branches;
      RawAllErrPersists(branches, visited, branches[..b + 1], branches[b + 1..]);
    }
  }

  /** The collection loops of `response`: branch states in order, then the global terminals. */
  method Collect(branches: seq<(string, Branch)>, visited: seq<string>, tstates: Option<seq<(string, TState)>>)
    returns (r: Result<seq<(string, Candidate)>>)
    ensures r == Collected(branches, visited, tstates)
  {
    var all: seq<(string, Candidate)> := [];
    var b := 0;
    while b < |branches|
      invariant 0 <= b <= |branches|
      invariant RawAll(branches, visited, branches[..b]).Ok?
      invariant all == AssignAll([], RawAll(branches, visited, branches[..b]).value)
    {
      var res := CollectBranchStep(all, branches, visited, b);
      if res.Err? {
        return Err(KeyError);
      }
      all := res.value;
      b := b + 1;
    }
    assert branches[..|branches|] == branches;
    if tstates.Some? {
      all := CollectGlobals(all, tstates.value, visited);
    } else {
      assert all == AssignAll(all, []);
    }
    return Ok(all);
  }

  // ------------------------------------------------------ transitions_to_check

  /** key.split(':')[1], or the IndexError of a key without a colon. */
  function Target(key: string): (r: Result<string>)
    ensures r.Err? ==> r.error == IndexError
    ensures r.Ok? ==> forall k :: 0 <= k < |r.value| ==> r.value[k] != ':'
  {
    var parts := PyStr.Split(key, ':');
    if |parts| < 2 then Err(IndexError) else Ok(parts[1])
  }

  /** For names without colons, the target read back from a key is the target it was built from. */
  lemma TargetOfKey(name: string, target: string)
    requires forall k :: 0 <= k < |name| ==> name[k] != ':'
    requires forall k :: 0 <= k < |target| ==> target[k] != ':'
    ensures Target(TransitionKey(name, target)) == Ok(target)
  {
    PyStr.SplitPair(name, target, ':');
  }

  /** The candidates re-keyed by their target, in order. */
  function Retargeted(all: seq<(string, Candidate)>): (r: Result<seq<(string, Candidate)>>)
    ensures r.Ok? ==> |r.value| == |all|
    ensures r.Ok? ==> forall i :: 0 <= i < |all| ==> Target(all[i].0) == Ok(r.value[i].0) && r.value[i].1 == all[i].1
    ensures r.Err? <==> exists i :: 0 <= i < |all| && Target(all[i].0).Err?
    ensures r.Err? ==> r.error == IndexError
  {
    if all == [] then Ok([])
    else
      var init := all[..|all| - 1];
      assert forall i :: 0 <= i < |init| ==> init[i] == all[i];
      var p :- Retargeted(init);
      var t :- Target(all[|all| - 1].0);
      Ok(p + [(t, all[|all| - 1].1)])
  }

  /** `transitions_to_check`: keyed by target, a later candidate overwriting an earlier one. */
  function ToCheck(all: seq<(string, Candidate)>): (r: Result<seq<(string, Candidate)>>)
    ensures r.Ok? <==> Retargeted(all).Ok?
    ensures r.Ok? ==> forall t :: Lookup(r.value, t) == LastValue(Retargeted(all).value, t)
  {
    var rs :- Retargeted(all);
    assert forall t :: Lookup(AssignAll([], rs), t) == LastValue(rs, t) by {
      forall t ensures Lookup(AssignAll([], rs), t) == LastValue(rs, t) {
        LookupAssignAll([], rs, t);
      }
    }
    Ok(AssignAll([], rs))
  }

  /** The loop building `transitions_to_check`. */
  method BuildToCheck(all: seq<(string, Candidate)>) returns (r: Result<seq<(string, Candidate)>>)
    ensures r == ToCheck(all)
  {
    var check: seq<(string, Candidate)> := [];
    var i := 0;
    while i < |all|
      invariant 0 <= i <= |all|
      invariant Retargeted(all[..i]).Ok?
      invariant check == AssignAll([], Retargeted(all[..i]).value)
    {
      var next := Retarget(check, all, i);
      if next.Err? {
        return Err(IndexError);
      }
      check := next.value;
      i := i + 1;
    }
    assert all[..|all|] == all;
    return Ok(check);
  }

  /** One iteration: candidate `i` is re-keyed by its target and written over the ones before it. */
  method Retarget(check: seq<(string, Candidate)>, all: seq<(string, Candidate)>, i: nat)
    returns (r: Result<seq<(string, Candidate)>>)
    requires i < |all| && Retargeted(all[..i]).Ok? && check == AssignAll([], Retargeted(all[..i]).value)
    ensures r.Err? ==> Retargeted(all).Err?
    ensures r.Ok? ==> Retargeted(all[..i + 1]).Ok? && r.value == AssignAll([], Retargeted(all[..i + 1]).value)
  {
    var t := Target(all[i].0);
    if t.Err? {
      RetargetedFails(all, i);
      return Err(IndexError);
    }
    var e := (t.value, all[i].1);
    RetargetedSnoc(all, i);
    AssignAllAppend([], Retargeted(all[..i]).value, [e]);
    AssignAllOne(check, e.0, e.1);
    return Ok(Assign(check, e.0, e.1));
  }

  /** A key without a colon makes the whole re-keying fail. */
  lemma RetargetedFails(all: seq<(string, Candidate)>, i: nat)
    requires i < |all| && Target(all[i].0).Err?
    ensures Retargeted(all).Err?
  {
  }

  /** Re-keying one more candidate appends it under its target. */
  lemma RetargetedSnoc(all: seq<(string, Candidate)>, i: nat)
    requires i < |all| && Retargeted(all[..i]).Ok? && Target(all[i].0).Ok?
    ensures Retargeted(all[..i + 1]) == Ok(Retargeted(all[..i]).value + [(Target(all[i].0).value, all[i].1)])
  {
    assert all[..i + 1][..i] == all[..i];
  }

  /** The source of the first collected key ending in ":" + target, if any. */
  function SourceOf(all: seq<(string, Candidate)>, target: string): Option<string>
  {
    if all == [] then None
    else if PyStr.EndsWith(all[0].0, ":" + target) then Some(all[0].1.source)
    else SourceOf(all[1..], target)
  }

  /** `from_state`: the source of the first collected key ending in ":" + target. */
  method FindSource(all: seq<(string, Candidate)>, target: string) returns (r: Option<string>)
    ensures r == SourceOf(all, target)
    ensures r.Some? ==> exists i :: 0 <= i < |all| && PyStr.EndsWith(all[i].0, ":" + target) && all[i].1.source == r.value
                           && forall j :: 0 <= j < i ==> !PyStr.EndsWith(all[j].0, ":" + target)
    ensures r.None? <==> forall i :: 0 <= i < |all| ==> !PyStr.EndsWith(all[i].0, ":" + target)
  {
    var i := 0;
    while i < |all|
      invariant 0 <= i <= |all|
      invariant forall j :: 0 <= j < i ==> !PyStr.EndsWith(all[j].0, ":" + target)
      invariant SourceOf(all[i..], target) == SourceOf(all, target)
    {
      assert all[i..][1..] == all[i + 1..];
      if PyStr.EndsWith(all[i].0, ":" + target) {
        return Some(all[i].1.source);
      }
      i := i + 1;
    }
    return None;
  }

  // ------------------------------------------------------------ fork blocking

  /** Every other exit of a fork becomes blocked; nothing else changes. */
  function BlockOthers(ts: seq<(string, Transition)>, target: string): (r: seq<(string, Transition)>)
    ensures |r| == |ts|
    ensures forall j :: 0 <= j < |ts| ==> r[j].0 == ts[j].0
    ensures forall j :: 0 <= j < |ts| && ts[j].0 == target ==> r[j] == ts[j]
    ensures forall j :: 0 <= j < |ts| && ts[j].0 != target ==> r[j].1 == ts[j].1.(blocked := true)
  {
    seq(|ts|, j requires 0 <= j < |ts| => if ts[j].0 != target then (ts[j].0, ts[j].1.(blocked := true)) else ts[j])
  }

  /** The effect of a chosen transition from `source` to `target` on one branch. */
  function BlockBranch(branch: Branch, source: string, target: string): (r: Branch)
    ensures forall q :: q != source ==> Lookup(r, q) == Lookup(branch, q)
    ensures Lookup(r, source).Some? <==> Lookup(branch, source).Some?
  {
    match Lookup(branch, source)
    case None => branch
    case Some(st) =>
      if st.transitions.None? then branch
      else match Lookup(st.transitions.value, target)
        case None => branch
        case Some(t) =>
          if t.kind != Some("fork") then branch
          else Assign(branch, source, st.(transitions := Some(BlockOthers(st.transitions.value, target))))
  }

  function Blocked(branches: seq<(string, Branch)>, source: string, target: string): (r: seq<(string, Branch)>)
    ensures |r| == |branches|
    ensures forall b :: 0 <= b < |branches| ==> r[b] == (branches[b].0, BlockBranch(branches[b].1, source, target))
  {
    seq(|branches|, b requires 0 <= b < |branches| => (branches[b].0, BlockBranch(branches[b].1, source, target)))
  }

  /**
   * Choosing a fork exit blocks every other exit of that fork state, leaves the
   * chosen one as it was and leaves every other state of the branch alone.
   */
  lemma ForkBlocksSiblings(branch: Branch, source: string, target: string, st: State, t: Transition)
    requires Lookup(branch, source) == Some(st) && st.transitions.Some?
    requires Lookup(st.transitions.value, target) == Some(t) && t.kind == Some("fork")
    ensures Lookup(BlockBranch(branch, source, target), source).Some?
    ensures var ts' := Lookup(BlockBranch(branch, source, target), source).value.transitions;
      ts'.Some? && Lookup(ts'.value, target) == Some(t)
      && forall j :: 0 <= j < |ts'.value| && ts'.value[j].0 != target ==> ts'.value[j].1.blocked
    ensures forall q :: q != source ==> Lookup(BlockBranch(branch, source, target), q) == Lookup(branch, q)
  {
    var ts := st.transitions.value;
    var ts' := BlockOthers(ts, target);
    var k := IndexOfKey(ts, target).value;
    IndexOfKeyFirst(ts', target, k);
  }

  /** A choice that is not a fork exit changes nothing. */
  lemma NonForkKeeps(branch: Branch, source: string, target: string)
    requires forall st :: Lookup(branch, source) == Some(st) && st.transitions.Some? ==>
      forall t :: Lookup(st.transitions.value, target) == Some(t) ==> t.kind != Some("fork")
    ensures BlockBranch(branch, source, target) == branch
  {
  }

  method BlockExits(ts: seq<(string, Transition)>, target: string) returns (r: seq<(string, Transition)>)
    ensures r == BlockOthers(ts, target)
  {
    r := ts;
    var j := 0;
    while j < |ts|
      invariant 0 <= j <= |ts| && |r| == |ts|
      invariant r[..j] == BlockOthers(ts, target)[..j]
      invariant r[j..] == ts[j..]
    {
      if ts[j].0 != target {
        r := r[j := (ts[j].0, ts[j].1.(blocked := true))];
      }
      j := j + 1;
    }
  }

  // --------------------------------------------------------- system prompt

  /** The prompt addition of a visited state: a terminal's own, else the first branch's that has one. */
  function VisitedPrompt(branches: seq<(string, Branch)>, tstates: Option<seq<(string, TState)>>, name: string)
    : (r: Result<Option<string>>)
    ensures r.Err? ==> r.error == KeyError && (name == Success || name == Fail) && tstates.Some?
    ensures r.Ok? && r.value.Some? ==> r.value.value != ""
  {
    var terminal :-
      if (name == Success || name == Fail) && tstates.Some? then
        match Lookup(tstates.value, name)
        case None => Err(KeyError)
        case Some(t) => Ok(t.addprompt)
      else Ok(None);
    var p := if terminal.Some? && terminal.value != "" then terminal else BranchPrompt(branches, name);
    Ok(if p.Some? && p.value != "" then p else None)
  }

  /** The addprompt of `name` in the first branch holding it with one. */
  function BranchPrompt(branches: seq<(string, Branch)>, name: string): (r: Option<string>)
    ensures r.Some? ==> exists b :: 0 <= b < |branches| && Lookup(branches[b].1, name).Some?
                          && Lookup(branches[b].1, name).value.addprompt == r
    ensures r.None? ==> forall b :: 0 <= b < |branches| && Lookup(branches[b].1, name).Some? ==>
                          Lookup(branches[b].1, name).value.addprompt.None?
  {
    if branches == [] then None
    else
      var here := Lookup(branches[0].1, name);
      if here.Some? && here.value.addprompt.Some? then here.value.addprompt
      else
        var r := BranchPrompt(branches[1..], name);
        assert forall b :: 0 <= b < |branches[1..]| ==> branches[1..][b] == branches[b + 1];
        r
  }

  /** The prompt additions of the visited states (START skipped), in visit order. */
  function VisitedPrompts(branches: seq<(string, Branch)>, tstates: Option<seq<(string, TState)>>, visited: seq<string>)
    : (r: Result<seq<string>>)
    ensures r.Ok? ==> |r.value| <= |visited|
    ensures r.Ok? ==> forall k :: 0 <= k < |r.value| ==> r.value[k] != ""
    ensures r.Err? ==> r.error == KeyError && (Success in visited || Fail in visited) && tstates.Some?
  {
    if visited == [] then Ok([])
    else
      var p :- VisitedPrompts(branches, tstates, visited[..|visited| - 1]);
      var last := visited[|visited| - 1];
      if last == Start then Ok(p)
      else
        var q :- VisitedPrompt(branches, tstates, last);
        Ok(if q.Some? then p + [q.value] else p)
  }

  /**
   * The character's system prompt: the character, the negative prompt, the
   * visited states' additions and the roleplay addition, separated by blank lines.
   */
  function PromptSpec(character: string, negprompt: Option<string>, branches: seq<(string, Branch)>,
                      tstates: Option<seq<(string, TState)>>, visited: seq<string>, addition: string)
    : (r: Result<string>)
    ensures r.Err? ==> (Success in visited || Fail in visited) && tstates.Some?
    ensures r.Ok? ==> PyStr.StartsWith(r.value, character) && PyStr.EndsWith(r.value, "\n\n" + addition)
  {
    var ps :- VisitedPrompts(branches, tstates, visited);
    var parts := [character] + (if negprompt.Some? then [negprompt.value] else []) + ps + [addition];
    PyStr.JoinEnds("\n\n", parts);
    PyStr.JoinSnoc("\n\n", parts[..|parts| - 1], addition);
    assert parts[..|parts| - 1] + [addition] == parts;
    var r := PyStr.Join("\n\n", parts);
    assert r == PyStr.Join("\n\n", parts[..|parts| - 1]) + ("\n\n" + addition);
    Ok(r)
  }

  // ---------------------------------------------------------------- a turn

  /** The visit list after a transition: the target joins it only when it is new. */
  function AddVisit(visited: seq<string>, target: string): (r: seq<string>)
    ensures target in r
    ensures target in visited ==> r == visited
    ensures target !in visited ==> r == visited + [target]
  {
    if target in visited then visited else visited + [target]
  }

  predicate NoDuplicates(xs: seq<string>)
  {
    forall i, j :: 0 <= i < j < |xs| ==> xs[i] != xs[j]
  }

  /** The visit list stays duplicate-free and keeps first-visit order. */
  lemma AddVisitKeepsOrder(visited: seq<string>, target: string)
    requires NoDuplicates(visited)
    ensures NoDuplicates(AddVisit(visited, target))
    ensures AddVisit(visited, target)[..|visited|] == visited
  {
  }

  /** The judge's state prompt: every active state's additions, from every branch holding it. */
  function JudgeStatePrompt(branches: seq<(string, Branch)>, active: seq<string>): (r: string)
    ensures r == "" || PyStr.StartsWith(r, "\n\n")
    ensures (forall i :: 0 <= i < |active| ==> active[i] == Start) ==> r == ""
  {
    if active == [] then ""
    else
      var p := JudgeStatePrompt(branches, active[..|active| - 1]);
      var name := active[|active| - 1];
      if name == Start then p else p + BranchAdditions(branches, name)
  }

  /** The additions of one state, in branch order: "\n\n" + addprompt from every branch whose copy of the state has one. */
  function BranchAdditions(branches: seq<(string, Branch)>, name: string): (r: string)
    ensures r == "" || PyStr.StartsWith(r, "\n\n")
    ensures (forall b :: 0 <= b < |branches| ==>
               Lookup(branches[b].1, name).None? || Lookup(branches[b].1, name).value.addprompt.None?) ==> r == ""
  {
    if branches == [] then ""
    else
      var here := Lookup(branches[0].1, name);
      assert forall b :: 0 <= b < |branches| - 1 ==> branches[1..][b] == branches[b + 1];
      (if here.Some? && here.value.addprompt.Some? then "\n\n" + here.value.addprompt.value else "")
        + BranchAdditions(branches[1..], name)
  }

  /** An active START adds nothing to the judge's state prompt. */
  lemma JudgeStatePromptStart(branches: seq<(string, Branch)>, active: seq<string>)
    ensures JudgeStatePrompt(branches, active + [Start]) == JudgeStatePrompt(branches, active)
  {
    assert (active + [Start])[..|active|] == active;
  }

  /** Any other active state appends the additions of every branch holding it. */
  lemma JudgeStatePromptSnoc(branches: seq<(string, Branch)>, active: seq<string>, name: string)
    requires name != Start
    ensures JudgeStatePrompt(branches, active + [name]) == JudgeStatePrompt(branches, active) + BranchAdditions(branches, name)
  {
    assert (active + [name])[..|active|] == active;
  }

  /** The body of the fork loop for one branch. */
  method BlockIn(branch: Branch, source: string, target: string) returns (r: Branch)
    ensures r == BlockBranch(branch, source, target)
  {
    r := branch;
    var found := Lookup(branch, source);
    if found.Some? && found.value.transitions.Some? {
      var st := found.value;
      var t := Lookup(st.transitions.value, target);
      if t.Some? && t.value.kind == Some("fork") {
        var ts := BlockExits(st.transitions.value, target);
        r := Assign(branch, source, st.(transitions := Some(ts)));
      }
    }
  }

  /** The fork loop of `response`: every branch holding `source` is updated. */
  method BlockFork(branches: seq<(string, Branch)>, source: string, target: string) returns (r: seq<(string, Branch)>)
    ensures r == Blocked(branches, source, target)
  {
    r := branches;
    var b := 0;
    while b < |branches|
      invariant 0 <= b <= |branches| && |r| == |branches|
      invariant forall k :: 0 <= k < b ==> r[k] == (branches[k].0, BlockBranch(branches[k].1, source, target))
      invariant forall k :: b <= k < |branches| ==> r[k] == branches[k]
    {
      var nb := BlockIn(branches[b].1, source, target);
      r := r[b := (branches[b].0, nb)];
      b := b + 1;
    }
  }

  lemma VisitedPromptsSnoc(branches: seq<(string, Branch)>, tstates: Option<seq<(string, TState)>>,
                           xs: seq<string>, x: string)
    requires VisitedPrompts(branches, tstates, xs).Ok?
    ensures VisitedPrompts(branches, tstates, xs + [x]) ==
      if x == Start then VisitedPrompts(branches, tstates, xs)
      else match VisitedPrompt(branches, tstates, x)
        case Err(e) => Err(e)
        case Ok(q) => Ok(if q.Some? then VisitedPrompts(branches, tstates, xs).value + [q.value]
                         else VisitedPrompts(branches, tstates, xs).value)
  {
    assert (xs + [x])[..|xs|] == xs;
  }

  /** One visited state's work in the prompt loop: state `i` of `visited`, on top of the ones before it. */
  method PromptStep(prompt: string, ghost parts: seq<string>, ghost head: seq<string>,
                    branches: seq<(string, Branch)>, tstates: Option<seq<(string, TState)>>,
                    visited: seq<string>, i: nat)
    returns (r: Result<string>, ghost parts': seq<string>)
    requires i < |visited| && VisitedPrompts(branches, tstates, visited[..i]).Ok?
    requires parts == head + VisitedPrompts(branches, tstates, visited[..i]).value
    requires |parts| > 0 && prompt == PyStr.Join("\n\n", parts)
    ensures r.Err? ==> VisitedPrompts(branches, tstates, visited).Err?
    ensures r.Ok? ==> VisitedPrompts(branches, tstates, visited[..i + 1]).Ok?
    ensures r.Ok? ==> parts' == head + VisitedPrompts(branches, tstates, visited[..i + 1]).value
    ensures r.Ok? ==> |parts'| > 0 && r.value == PyStr.Join("\n\n", parts')
  {
    ghost var done := visited[..i];
    var name := visited[i];
    assert visited[..i + 1] == done + [name];
    VisitedPromptsSnoc(branches, tstates, done, name);
    parts' := parts;
    if name == Start {
      return Ok(prompt), parts';
    }
    var q := VisitedPrompt(branches, tstates, name);
    if q.Err? {
      assert visited[..i + 1] + visited[i + 1..] == visited;
      VisitedPromptsErr(branches, tstates, visited[..i + 1], visited[i + 1..]);
      return Err(KeyError), parts';
    }
    if q.value.None? {
      return Ok(prompt), parts';
    }
    PyStr.JoinSnoc("\n\n", parts, q.value.value);
    parts' := parts + [q.value.value];
    return Ok(prompt + "\n\n" + q.value.value), parts';
  }

  /** `_build_system_prompt`: the character, the negative prompt, the visited states' prompts and the addition. */
  method BuildPrompt(character: string, negprompt: Option<string>, branches: seq<(string, Branch)>,
                     tstates: Option<seq<(string, TState)>>, visited: seq<string>, addition: string)
    returns (r: Result<string>)
    ensures r == PromptSpec(character, negprompt, branches, tstates, visited, addition)
  {
    var prompt := character;
    ghost var head := [character];
    if negprompt.Some? {
      prompt := prompt + "\n\n" + negprompt.value;
      PyStr.JoinSnoc("\n\n", head, negprompt.value);
      head := head + [negprompt.value];
    }
    var body := PromptLoop(prompt, head, branches, tstates, visited);
    if body.Err? {
      return Err(KeyError);
    }
    ghost var parts := head + VisitedPrompts(branches, tstates, visited).value;
    PyStr.JoinSnoc("\n\n", parts, addition);
    assert parts + [addition]
      == [character] + (if negprompt.Some? then [negprompt.value] else []) + VisitedPrompts(branches, tstates, visited).value
         + [addition];
    return Ok(body.value + "\n\n" + addition);
  }

  /** The loop over the visited states, appending each state's prompt to `prompt`. */
  method PromptLoop(prompt0: string, ghost head: seq<string>, branches: seq<(string, Branch)>,
                    tstates: Option<seq<(string, TState)>>, visited: seq<string>) returns (r: Result<string>)
    requires |head| > 0 && prompt0 == PyStr.Join("\n\n", head)
    ensures r.Ok? <==> VisitedPrompts(branches, tstates, visited).Ok?
    ensures r.Ok? ==> r.value == PyStr.Join("\n\n", head + VisitedPrompts(branches, tstates, visited).value)
  {
    var prompt := prompt0;
    ghost var parts := head;
    var i := 0;
    while i < |visited|
      invariant 0 <= i <= |visited|
      invariant VisitedPrompts(branches, tstates, visited[..i]).Ok?
      invariant parts == head + VisitedPrompts(branches, tstates, visited[..i]).value
      invariant |parts| > 0 && prompt == PyStr.Join("\n\n", parts)
    {
      var step;
      step, parts := PromptStep(prompt, parts, head, branches, tstates, visited, i);
      if step.Err? {
        return Err(KeyError);
      }
      prompt := step.value;
      i := i + 1;
    }
    assert visited[..|visited|] == visited;
    return Ok(prompt);
  }

  /** Whether a transition out of `source` can block fork siblings: INITIAL, GLOBAL and no source cannot. */
  predicate Forkable(source: Option<string>)
  {
    source.Some? && source != Some(Initial) && source != Some(Global)
  }

  /**
   * The transition part of a turn: collect, re-key, ask the judge, record the
   * visit and block the fork's other exits. Without candidates the judge is
   * not asked; a judge error is raised; a verdict without a transition
   * changes nothing.
   */
  function AdvanceSpec(branches: seq<(string, Branch)>, visited: seq<string>, tstates: Option<seq<(string, TState)>>,
                       character: string, judge: (string, string, seq<(string, Candidate)>) -> Result<Agentic.Verdict>)
    : Result<(seq<(string, Branch)>, seq<string>)>
  {
    var all :- Collected(branches, visited, tstates);
    var check :- ToCheck(all);
    if check == [] then Ok((branches, visited)) else
    var verdict :- judge(character, JudgeStatePrompt(branches, visited), check);
    if !verdict.isTransition then Ok((branches, visited)) else
    var source := SourceOf(all, verdict.toState);
    Ok((if Forkable(source) then Blocked(branches, source.value, verdict.toState) else branches,
        AddVisit(visited, verdict.toState)))
  }

  /** The candidates the judge is shown in a turn, when collecting and re-keying succeed. */
  function Candidates(branches: seq<(string, Branch)>, visited: seq<string>, tstates: Option<seq<(string, TState)>>)
    : Result<seq<(string, Candidate)>>
  {
    var all :- Collected(branches, visited, tstates);
    ToCheck(all)
  }

  /** Without candidates the judge is never asked and the turn changes nothing. */
  lemma AdvanceWithoutCandidates(branches: seq<(string, Branch)>, visited: seq<string>, tstates: Option<seq<(string, TState)>>,
                                 character: string, judge: (string, string, seq<(string, Candidate)>) -> Result<Agentic.Verdict>)
    requires Candidates(branches, visited, tstates) == Ok([])
    ensures AdvanceSpec(branches, visited, tstates, character, judge) == Ok((branches, visited))
  {
  }

  /**
   * With candidates, the turn moves exactly as the judge says: an error is
   * raised, no transition keeps everything, and a transition adds the judge's
   * target to the visits and blocks from the first matching key's source.
   */
  lemma AdvanceFollowsJudge(branches: seq<(string, Branch)>, visited: seq<string>, tstates: Option<seq<(string, TState)>>,
                            character: string, judge: (string, string, seq<(string, Candidate)>) -> Result<Agentic.Verdict>)
    requires Candidates(branches, visited, tstates).Ok? && Candidates(branches, visited, tstates).value != []
    ensures var v := judge(character, JudgeStatePrompt(branches, visited), Candidates(branches, visited, tstates).value);
      var r := AdvanceSpec(branches, visited, tstates, character, judge);
      (v.Err? ==> r == Err(v.error))
      && (v.Ok? && !v.value.isTransition ==> r == Ok((branches, visited)))
      && (v.Ok? && v.value.isTransition ==>
            r.Ok? && r.value.1 == AddVisit(visited, v.value.toState)
            && var source := SourceOf(Collected(branches, visited, tstates).value, v.value.toState);
               r.value.0 == (if Forkable(source) then Blocked(branches, source.value, v.value.toState) else branches))
  {
  }

  /**
   * A transition chosen out of a fork state blocks, in every branch holding
   * that state, each other exit of it and keeps the chosen one; every other
   * state of every branch stays as it was.
   */
  lemma AdvanceBlocksForkSiblings(branches: seq<(string, Branch)>, visited: seq<string>, tstates: Option<seq<(string, TState)>>,
                                  character: string, judge: (string, string, seq<(string, Candidate)>) -> Result<Agentic.Verdict>,
                                  b: nat, st: State, t: Transition)
    requires Candidates(branches, visited, tstates).Ok? && Candidates(branches, visited, tstates).value != []
    requires var v := judge(character, JudgeStatePrompt(branches, visited), Candidates(branches, visited, tstates).value);
      v.Ok? && v.value.isTransition
      && Forkable(SourceOf(Collected(branches, visited, tstates).value, v.value.toState))
    requires b < |branches|
    requires var v := judge(character, JudgeStatePrompt(branches, visited), Candidates(branches, visited, tstates).value).value;
      var source := SourceOf(Collected(branches, visited, tstates).value, v.toState).value;
      Lookup(branches[b].1, source) == Some(st) && st.transitions.Some?
      && Lookup(st.transitions.value, v.toState) == Some(t) && t.kind == Some("fork")
    ensures var v := judge(character, JudgeStatePrompt(branches, visited), Candidates(branches, visited, tstates).value).value;
      var source := SourceOf(Collected(branches, visited, tstates).value, v.toState).value;
      var r := AdvanceSpec(branches, visited, tstates, character, judge);
      r.Ok? && |r.value.0| == |branches| && r.value.0[b].0 == branches[b].0
      && Lookup(r.value.0[b].1, source).Some?
      && var ts' := Lookup(r.value.0[b].1, source).value.transitions;
         ts'.Some? && Lookup(ts'.value, v.toState) == Some(t)
         && (forall j :: 0 <= j < |ts'.value| && ts'.value[j].0 != v.toState ==> ts'.value[j].1.blocked)
         && (forall q :: q != source ==> Lookup(r.value.0[b].1, q) == Lookup(branches[b].1, q))
  {
    var v := judge(character, JudgeStatePrompt(branches, visited), Candidates(branches, visited, tstates).value).value;
    var source := SourceOf(Collected(branches, visited, tstates).value, v.toState).value;
    AdvanceFollowsJudge(branches, visited, tstates, character, judge);
    ForkBlocksSiblings(branches[b].1, source, v.toState, st, t);
  }

  /** The turn's transition step, as `response` performs it. */
  method Advance(branches: seq<(string, Branch)>, visited: seq<string>, tstates: Option<seq<(string, TState)>>,
                 character: string, judge: (string, string, seq<(string, Candidate)>) -> Result<Agentic.Verdict>)
    returns (r: Result<(seq<(string, Branch)>, seq<string>)>)
    requires NoDuplicates(visited)
    ensures r == AdvanceSpec(branches, visited, tstates, character, judge)
    ensures Collected(branches, visited, tstates).Err? ==> r == Err(KeyError)
    ensures r.Ok? ==> NoDuplicates(r.value.1)
  {
    var all := Collect(branches, visited, tstates);
    if all.Err? {
      return Err(all.error);
    }
    var check := BuildToCheck(all.value);
    if check.Err? {
      return Err(check.error);
    }
    if check.value == [] {
      return Ok((branches, visited));
    }
    var verdict := judge(character, JudgeStatePrompt(branches, visited), check.value);
    if verdict.Err? {
      return Err(verdict.error);
    }
    if !verdict.value.isTransition {
      return Ok((branches, visited));
    }
    var target := verdict.value.toState;
    var source := FindSource(all.value, target);
    AddVisitKeepsOrder(visited, target);
    var visited' := AddVisit(visited, target);
    var branches' := branches;
    if source != Some(Initial) && source != Some(Global) && source.Some? {
      branches' := BlockFork(branches, source.value, target);
    }
    return Ok((branches', visited'));
  }

  /** A running multi-branch scenario, as `response` updates it. */
  class Story {
    var branches: seq<(string, Branch)>
    const tstates: Option<seq<(string, TState)>>
    const character: string
    const negprompt: Option<string>
    /** The roleplay instructions appended to every system prompt. */
    const addition: string
    var visited: seq<string>
    var messages: seq<LiteLlm.ChatMessage>

    /** start(): the visit list holds START and the chat holds the opening line. */
    constructor (branches: seq<(string, Branch)>, tstates: Option<seq<(string, TState)>>, character: string,
                 negprompt: Option<string>, addition: string, opening: string)
      ensures this.branches == branches && this.tstates == tstates && this.character == character
      ensures this.negprompt == negprompt && this.addition == addition
      ensures visited == [Start] && messages == [LiteLlm.ChatMessage("assistant", opening)]
      ensures NoDuplicates(visited)
    {
      this.branches := branches;
      this.tstates := tstates;
      this.character := character;
      this.negprompt := negprompt;
      this.addition := addition;
      visited := [Start];
      messages := [LiteLlm.ChatMessage("assistant", opening)];
    }

    /**
     * One user turn of `response`. The judge sees the character, the active
     * states' prompt additions and the candidates keyed by target; the reply
     * oracle sees the rebuilt system prompt. Returns whether the most recently
     * visited state is terminal.
     */
    method Respond(userMessage: string,
                   judge: (string, string, seq<(string, Candidate)>) -> Result<Agentic.Verdict>,
                   reply: string -> Result<string>)
      returns (r: Result<bool>)
      requires NoDuplicates(visited)
      modifies this
      ensures NoDuplicates(visited)
      ensures var moved := AdvanceSpec(old(branches), old(visited), tstates, character, judge);
        (moved.Err? ==> r == Err(moved.error) && branches == old(branches) && visited == old(visited))
        && (moved.Ok? ==> branches == moved.value.0 && visited == moved.value.1)
      ensures |messages| >= |old(messages)| + 1
      ensures messages[..|old(messages)| + 1] == old(messages) + [LiteLlm.ChatMessage("user", userMessage)]
      ensures Collected(old(branches), old(visited), tstates).Err? ==> r == Err(KeyError) && visited == old(visited)
      ensures r.Ok? ==> PromptSpec(character, negprompt, branches, tstates, visited, addition).Ok?
      ensures r.Ok? ==>
        var prompt := PromptSpec(character, negprompt, branches, tstates, visited, addition).value;
        reply(prompt).Ok?
        && messages == old(messages) + [LiteLlm.ChatMessage("user", userMessage), LiteLlm.ChatMessage("assistant", reply(prompt).value)]
      ensures r.Ok? ==> r.value == (visited != [] && (visited[|visited| - 1] == Success || visited[|visited| - 1] == Fail))
    {
      messages := messages + [LiteLlm.ChatMessage("user", userMessage)];
      ghost var sent := messages;
      assert messages[..|old(messages)| + 1] == sent;
      var moved := Advance(branches, visited, tstates, character, judge);
      if moved.Err? {
        return Err(moved.error);
      }
      branches, visited := moved.value.0, moved.value.1;
      var bot := Speak(character, negprompt, branches, tstates, visited, addition, reply);
      if bot.Err? {
        return Err(bot.error);
      }
      messages := messages + [LiteLlm.ChatMessage("assistant", bot.value)];
      assert messages[..|sent|] == sent;
      var recent := if visited != [] then visited[|visited| - 1] else Start;
      return Ok(recent == Success || recent == Fail);
    }
  }

  /** The bot's reply of a turn: the system prompt is rebuilt and sent. */
  method Speak(character: string, negprompt: Option<string>, branches: seq<(string, Branch)>,
               tstates: Option<seq<(string, TState)>>, visited: seq<string>, addition: string,
               reply: string -> Result<string>) returns (r: Result<string>)
    ensures r.Ok? ==> PromptSpec(character, negprompt, branches, tstates, visited, addition).Ok?
    ensures r.Ok? ==> r == reply(PromptSpec(character, negprompt, branches, tstates, visited, addition).value)
  {
    var prompt := BuildPrompt(character, negprompt, branches, tstates, visited, addition);
    if prompt.Err? {
      return Err(prompt.error);
    }
    r := reply(prompt.value);
  }

  lemma {:induction false} VisitedPromptsErr(branches: seq<(string, Branch)>, tstates: Option<seq<(string, TState)>>,
                                             xs: seq<string>, ys: seq<string>)
    requires VisitedPrompts(branches, tstates, xs).Err?
    ensures VisitedPrompts(branches, tstates, xs + ys).Err?
  {
    if ys != [] {
      assert (xs + ys)[..|xs + ys| - 1] == xs + ys[..|ys| - 1];
      VisitedPromptsErr(branches, tstates, xs, ys[..|ys| - 1]);
    } else {
      assert xs + ys == xs;
    }
  }
}

// backend/strategies/agentic/agentic.py: the breadth-first search behind
// calculate_progress, the progress formula, format_scenario,
// get_scenario_by_skill_level and the transition step of `response`.
module Agentic {
  import opened Wrappers
  import opened Json
  import PyStr
  import LiteLlm

  const Success := "SUCCESS"
  const Fail := "FAIL"
  const Start := "START"

  predicate Terminal(s: string)
  {
    s == Success || s == Fail
  }

  /** Each state's transition targets, in the order of its "transitions" dict. */
  type Graph = map<string, seq<string>>

  /** The states one transition away; terminal states have none. */
  ghost function Succ(g: Graph, u: string): set<string>
  {
    if !Terminal(u) && u in g then (set v | v in g[u]) else {}
  }

  /** The states reachable from `s` in exactly k transitions. */
  ghost function Layer(g: Graph, s: string, k: nat): set<string>
  {
    if k == 0 then {s} else set u, v | u in Layer(g, s, k - 1) && v in Succ(g, u) :: v
  }

  /** `v` is reachable in k transitions and in no fewer. */
  ghost predicate Exactly(g: Graph, s: string, v: string, k: nat)
  {
    v in Layer(g, s, k) && forall j :: 0 <= j < k ==> v !in Layer(g, s, j)
  }

  /** Every non-terminal state that is a start or a transition target has an entry. */
  predicate Closed(g: Graph, s: string)
  {
    s in g && forall u :: u in g ==> forall v :: v in g[u] && !Terminal(v) ==> v in g
  }

  lemma Pred(g: Graph, s: string, k: nat, w: string) returns (x: string)
    requires k > 0 && w in Layer(g, s, k)
    ensures x in Layer(g, s, k - 1) && w in Succ(g, x)
  {
    x :| x in Layer(g, s, k - 1) && w in Succ(g, x);
  }

  /** A state that no processed state leads to is not within lvl transitions. */
  lemma Unreached(g: Graph, s: string, P: set<string>, lvl: nat, t: string)
    requires t != s
    requires forall k :: 0 <= k < lvl ==> Layer(g, s, k) <= P
    requires forall x :: x in P ==> t !in Succ(g, x)
    ensures forall k :: 0 <= k <= lvl ==> t !in Layer(g, s, k)
  {
    forall k | 0 < k <= lvl ensures t !in Layer(g, s, k) {
      forall x | x in Layer(g, s, k - 1) ensures t !in Succ(g, x) {
        assert x in P;
      }
    }
  }

  /** When the queue front moves to level lvl + 1, level lvl has been processed. */
  lemma LevelComplete(g: Graph, s: string, P: set<string>, V: set<string>, D: map<string, nat>, lvl: nat)
    requires s in V && V == D.Keys
    requires forall k :: 0 <= k < lvl ==> Layer(g, s, k) <= P
    requires forall x :: x in P ==> Succ(g, x) <= V
    requires forall v :: v in V ==> Exactly(g, s, v, D[v])
    requires forall v :: v in V && D[v] <= lvl ==> v in P
    ensures Layer(g, s, lvl) <= P
  {
    forall w | w in Layer(g, s, lvl) ensures w in P {
      if lvl > 0 {
        var x := Pred(g, s, lvl, w);
        assert x in P;
      }
      assert w in V;
      assert D[w] <= lvl;
    }
  }

  /** A set holding `s` and closed under transitions holds every layer. */
  lemma {:induction false} AllLayersWithin(g: Graph, s: string, P: set<string>, k: nat)
    requires s in P
    requires forall x :: x in P ==> Succ(g, x) <= P
    ensures Layer(g, s, k) <= P
  {
    if k > 0 {
      AllLayersWithin(g, s, P, k - 1);
      forall w | w in Layer(g, s, k) ensures w in P {
        var x := Pred(g, s, k, w);
      }
    }
  }

  lemma Shrink(U: set<string>, P: set<string>, u: string)
    requires u in U && u !in P
    ensures |U - (P + {u})| < |U - P|
  {
    assert U - (P + {u}) == (U - P) - {u};
  }

  // The search state: the queue of (state, distance) pairs, the visited set,
  // and (ghost) the processed states P, the distances D and the current level.

  /** What holds of visited and processed states. */
  ghost predicate Settled(g: Graph, start: string, visited: set<string>, P: set<string>, D: map<string, nat>,
                          lvl: nat, U: set<string>)
  {
    && visited <= U && start in visited && Success !in visited
    && D.Keys == visited && P <= visited
    && (forall v {:trigger Exactly(g, start, v, D[v])} :: v in visited ==> Exactly(g, start, v, D[v]))
    && (forall v :: v in P ==> D[v] <= lvl && Succ(g, v) <= visited && Success !in Succ(g, v))
    && (forall k :: 0 <= k < lvl ==> Layer(g, start, k) <= P)
  }

  /** The queue holds distinct unprocessed states at their distances, in order, within one level. */
  ghost predicate QueueOk(queue: seq<(string, nat)>, visited: set<string>, P: set<string>, D: map<string, nat>, lvl: nat)
  {
    && (forall i :: 0 <= i < |queue| ==>
          queue[i].0 in visited && queue[i].0 !in P && queue[i].0 in D && queue[i].1 == D[queue[i].0]
          && lvl <= queue[i].1 <= lvl + 1)
    && (forall i, j :: 0 <= i < j < |queue| ==> queue[i].0 != queue[j].0 && queue[i].1 <= queue[j].1)
  }

  /** Every visited state other than those in `busy` is processed or queued. */
  ghost predicate Covered(queue: seq<(string, nat)>, visited: set<string>, P: set<string>, busy: set<string>)
  {
    forall v :: v in visited && v !in P && v !in busy ==> exists i :: 0 <= i < |queue| && queue[i].0 == v
  }

  /** Moving the front of the queue to level lvl + 1 completes level lvl. */
  lemma PopLevel(g: Graph, start: string, queue: seq<(string, nat)>, visited: set<string>, P: set<string>,
                 D: map<string, nat>, lvl: nat, U: set<string>)
    requires queue != []
    requires Settled(g, start, visited, P, D, lvl, U) && QueueOk(queue, visited, P, D, lvl)
    requires Covered(queue, visited, P, {})
    ensures Settled(g, start, visited, P, D, queue[0].1, U)
  {
    var d := queue[0].1;
    if d == lvl + 1 {
      forall v | v in visited && v !in P ensures D[v] > lvl {
        var i :| 0 <= i < |queue| && queue[i].0 == v;
        assert queue[0].1 <= queue[i].1;
      }
      LevelComplete(g, start, P, visited, D, lvl);
      assert forall k :: 0 <= k < d ==> Layer(g, start, k) <= P by {
        forall k | 0 <= k < d ensures Layer(g, start, k) <= P {
          if k < lvl { } else { assert k == lvl; }
        }
      }
    }
  }

  lemma PopQueue(queue: seq<(string, nat)>, visited: set<string>, P: set<string>, D: map<string, nat>, lvl: nat)
    requires queue != [] && QueueOk(queue, visited, P, D, lvl)
    ensures QueueOk(queue[1..], visited, P, D, queue[0].1)
    ensures queue[0].0 in visited && queue[0].0 !in P && queue[0].0 in D && D[queue[0].0] == queue[0].1
    ensures lvl <= queue[0].1
    ensures forall p :: p in queue[1..] ==> p.0 != queue[0].0
  {
    var rest := queue[1..];
    forall i | 0 <= i < |rest| ensures queue[0].1 <= rest[i].1 && rest[i].1 <= queue[0].1 + 1 && rest[i].0 != queue[0].0 {
      assert rest[i] == queue[i + 1];
    }
  }

  lemma PopCovered(queue: seq<(string, nat)>, visited: set<string>, P: set<string>)
    requires queue != [] && Covered(queue, visited, P, {})
    ensures Covered(queue[1..], visited, P, {queue[0].0})
  {
    forall v | v in visited && v !in P && v != queue[0].0
      ensures exists i :: 0 <= i < |queue[1..]| && queue[1..][i].0 == v
    {
      var i :| 0 <= i < |queue| && queue[i].0 == v;
      assert queue[1..][i - 1] == queue[i];
    }
  }

  /** A new target t of u (at distance d) is exactly d + 1 transitions away. */
  lemma VisitExactly(g: Graph, start: string, visited: set<string>, P: set<string>,
                     D: map<string, nat>, d: nat, U: set<string>, u: string, t: string)
    requires Settled(g, start, visited, P, D, d, U)
    requires u in visited && u in D && D[u] == d
    requires t in Succ(g, u) && t !in visited
    ensures forall v :: v in visited + {t} ==> Exactly(g, start, v, D[t := d + 1][v])
  {
    Unreached(g, start, P, d, t);
    assert Exactly(g, start, u, D[u]);
    assert t in Layer(g, start, d + 1);
    forall v | v in visited + {t} ensures Exactly(g, start, v, D[t := d + 1][v]) {
      if v != t { assert D[t := d + 1][v] == D[v]; assert Exactly(g, start, v, D[v]); }
    }
  }

  lemma VisitSettled(g: Graph, start: string, visited: set<string>, P: set<string>,
                     D: map<string, nat>, d: nat, U: set<string>, u: string, t: string)
    requires Settled(g, start, visited, P, D, d, U)
    requires u in visited && u in D && D[u] == d
    requires t in Succ(g, u) && t !in visited && t != Success && t in U
    ensures Settled(g, start, visited + {t}, P, D[t := d + 1], d, U)
  {
    VisitExactly(g, start, visited, P, D, d, U, u, t);
    forall v | v in P ensures D[t := d + 1][v] == D[v] {
    }
  }

  lemma VisitQueue(queue: seq<(string, nat)>, visited: set<string>, P: set<string>,
                   D: map<string, nat>, d: nat, u: string, t: string)
    requires QueueOk(queue, visited, P, D, d) && forall p :: p in queue ==> p.0 != u
    requires t !in visited && P <= visited && u != t
    ensures QueueOk(queue + [(t, d + 1)], visited + {t}, P, D[t := d + 1], d)
    ensures forall p :: p in queue + [(t, d + 1)] ==> p.0 != u
  {
    var queue' := queue + [(t, d + 1)];
    forall i | 0 <= i < |queue'|
      ensures queue'[i].0 in visited + {t} && queue'[i].0 !in P && queue'[i].0 in D[t := d + 1]
              && queue'[i].1 == D[t := d + 1][queue'[i].0]
    {
      if i < |queue| { assert queue'[i] == queue[i]; assert queue[i].0 != t; }
    }
    forall i, j | 0 <= i < j < |queue'| ensures queue'[i].0 != queue'[j].0 && queue'[i].1 <= queue'[j].1 {
      if j < |queue| {
        assert queue'[i] == queue[i] && queue'[j] == queue[j];
      } else {
        assert queue'[i] == queue[i];
      }
    }
  }

  lemma VisitCovered(queue: seq<(string, nat)>, visited: set<string>, P: set<string>, d: nat, u: string, t: string)
    requires Covered(queue, visited, P, {u})
    ensures Covered(queue + [(t, d + 1)], visited + {t}, P, {u})
  {
    var queue' := queue + [(t, d + 1)];
    forall v | v in visited + {t} && v !in P && v != u ensures exists i :: 0 <= i < |queue'| && queue'[i].0 == v {
      if v == t {
        assert queue'[|queue|].0 == t;
      } else {
        var i :| 0 <= i < |queue| && queue[i].0 == v;
        assert queue'[i] == queue[i];
      }
    }
  }

  /** The search state between two dequeues. */
  ghost predicate Inv(g: Graph, start: string, queue: seq<(string, nat)>, visited: set<string>, P: set<string>,
                      D: map<string, nat>, lvl: nat, U: set<string>)
  {
    Settled(g, start, visited, P, D, lvl, U) && QueueOk(queue, visited, P, D, lvl) && Covered(queue, visited, P, {})
  }

  /** The search state while the transitions of u (at distance d) are examined. */
  ghost predicate Mid(g: Graph, start: string, queue: seq<(string, nat)>, visited: set<string>, P: set<string>,
                      D: map<string, nat>, d: nat, U: set<string>, u: string)
  {
    && Settled(g, start, visited, P, D, d, U) && QueueOk(queue, visited, P, D, d)
    && Covered(queue, visited, P, {u}) && (forall p :: p in queue ==> p.0 != u)
    && u in visited && u !in P && u in D && D[u] == d
  }

  lemma PopStep(g: Graph, start: string, queue: seq<(string, nat)>, visited: set<string>, P: set<string>,
                D: map<string, nat>, lvl: nat, U: set<string>)
    requires queue != [] && Inv(g, start, queue, visited, P, D, lvl, U)
    ensures Mid(g, start, queue[1..], visited, P, D, queue[0].1, U, queue[0].0)
    ensures queue[0].0 in U
  {
    PopLevel(g, start, queue, visited, P, D, lvl, U);
    PopQueue(queue, visited, P, D, lvl);
    PopCovered(queue, visited, P);
  }

  lemma VisitStep(g: Graph, start: string, queue: seq<(string, nat)>, visited: set<string>, P: set<string>,
                  D: map<string, nat>, d: nat, U: set<string>, u: string, t: string)
    requires Mid(g, start, queue, visited, P, D, d, U, u)
    requires t in Succ(g, u) && t !in visited && t != Success && t in U
    ensures Mid(g, start, queue + [(t, d + 1)], visited + {t}, P, D[t := d + 1], d, U, u)
  {
    VisitSettled(g, start, visited, P, D, d, U, u, t);
    VisitQueue(queue, visited, P, D, d, u, t);
    VisitCovered(queue, visited, P, d, u, t);
  }

  /** After u at distance d, terminal or with all transitions seen, u is processed. */
  lemma FinishStep(g: Graph, start: string, queue: seq<(string, nat)>, visited: set<string>, P: set<string>,
                   D: map<string, nat>, d: nat, U: set<string>, u: string)
    requires Mid(g, start, queue, visited, P, D, d, U, u)
    requires Succ(g, u) <= visited && Success !in Succ(g, u)
    ensures Inv(g, start, queue, visited, P + {u}, D, d, U)
  {
  }

  /** One transition u -> t of a dequeued state u at distance d: SUCCESS is found, or t is visited. */
  method Consider(g: Graph, start: string, u: string, d: nat, t: string, queue0: seq<(string, nat)>,
                  visited0: set<string>, ghost P: set<string>, ghost D0: map<string, nat>, ghost U: set<string>)
    returns (found: bool, queue: seq<(string, nat)>, visited: set<string>, ghost D: map<string, nat>)
    requires t in Succ(g, u) && t in U
    requires Mid(g, start, queue0, visited0, P, D0, d, U, u)
    ensures found ==> Exactly(g, start, Success, d + 1)
    ensures !found ==> Mid(g, start, queue, visited, P, D, d, U, u)
    ensures !found ==> t in visited && t != Success && visited0 <= visited
  {
    queue, visited, D := queue0, visited0, D0;
    if t == Success {
      assert Exactly(g, start, u, D[u]);
      Unreached(g, start, P, d, Success);
      return true, queue, visited, D;
    }
    if t !in visited {
      VisitStep(g, start, queue, visited, P, D, d, U, u, t);
      visited := visited + {t};
      D := D[t := d + 1];
      queue := queue + [(t, d + 1)];
    }
    found := false;
  }

  /** Every state of `ts` is visited, and none is SUCCESS. */
  ghost predicate AllSeen(ts: seq<string>, visited: set<string>)
  {
    ts == [] || (ts[|ts| - 1] in visited && ts[|ts| - 1] != Success && AllSeen(ts[..|ts| - 1], visited))
  }

  lemma {:induction false} SeenGrows(ts: seq<string>, visited: set<string>, more: set<string>)
    requires AllSeen(ts, visited) && visited <= more
    ensures AllSeen(ts, more)
  {
    if ts != [] {
      SeenGrows(ts[..|ts| - 1], visited, more);
    }
  }

  lemma {:induction false} SeenWithin(ts: seq<string>, visited: set<string>)
    requires AllSeen(ts, visited)
    ensures forall v :: v in ts ==> v in visited && v != Success
  {
    if ts != [] {
      SeenWithin(ts[..|ts| - 1], visited);
      assert ts == ts[..|ts| - 1] + [ts[|ts| - 1]];
    }
  }

  lemma SeenStep(ts: seq<string>, i: nat, before: set<string>, visited: set<string>)
    requires i < |ts| && AllSeen(ts[..i], before) && before <= visited
    requires ts[i] in visited && ts[i] != Success
    ensures AllSeen(ts[..i + 1], visited)
  {
    SeenGrows(ts[..i], before, visited);
    assert ts[..i + 1][..i] == ts[..i];
  }

  /** Once every target of u is seen, the successors of u are visited and none is SUCCESS. */
  lemma SeenSucc(g: Graph, u: string, ts: seq<string>, visited: set<string>)
    requires Terminal(u) || u in g
    requires ts == (if Terminal(u) then [] else g[u])
    requires AllSeen(ts[..|ts|], visited)
    ensures Succ(g, u) <= visited && Success !in Succ(g, u)
  {
    assert ts[..|ts|] == ts;
    SeenWithin(ts, visited);
  }

  /** The transition loop of one dequeued state `u` at distance d (a terminal state is skipped). */
  method Expand(g: Graph, start: string, u: string, d: nat, queue0: seq<(string, nat)>, visited0: set<string>,
                ghost P: set<string>, ghost D0: map<string, nat>, ghost U: set<string>)
    returns (found: bool, queue: seq<(string, nat)>, visited: set<string>, ghost D: map<string, nat>)
    requires Terminal(u) || u in g
    requires Succ(g, u) <= U
    requires Mid(g, start, queue0, visited0, P, D0, d, U, u)
    ensures found ==> Exactly(g, start, Success, d + 1)
    ensures !found ==> Mid(g, start, queue, visited, P, D, d, U, u) && Succ(g, u) <= visited && Success !in Succ(g, u)
  {
    var targets := if Terminal(u) then [] else g[u];
    queue, visited, D := queue0, visited0, D0;
    var i := 0;
    while i < |targets|
      invariant 0 <= i <= |targets|
      invariant Mid(g, start, queue, visited, P, D, d, U, u)
      invariant AllSeen(targets[..i], visited)
    {
      assert targets[i] in Succ(g, u);
      ghost var before := visited;
      found, queue, visited, D := Consider(g, start, u, d, targets[i], queue, visited, P, D, U);
      if found {
        return true, queue, visited, D;
      }
      SeenStep(targets, i, before, visited);
      i := i + 1;
    }
    SeenSucc(g, u, targets, visited);
    return false, queue, visited, D;
  }

  /** A state that can be dequeued but has no entry shows the graph is not closed. */
  lemma MissingState(g: Graph, start: string, U: set<string>, u: string)
    requires U == {start} + (set x, v | x in g && v in g[x] :: v)
    requires u in U && !Terminal(u) && u !in g
    ensures !Closed(g, start)
  {
    if u != start {
      var x :| x in g && u in g[x];
    }
  }

  /** The transition targets of a state are among the states the search can meet. */
  lemma SuccWithinUniverse(g: Graph, start: string, U: set<string>, u: string)
    requires U == {start} + (set x, v | x in g && v in g[x] :: v)
    ensures Succ(g, u) <= U
  {
  }

  datatype StepOutcome = Continue | Found(n: nat) | MissingKey

  /** One iteration of the search loop: dequeue a state and examine its transitions. */
  method Step(g: Graph, start: string, queue0: seq<(string, nat)>, visited0: set<string>,
              ghost P0: set<string>, ghost D0: map<string, nat>, ghost lvl0: nat, ghost U: set<string>)
    returns (out: StepOutcome, queue: seq<(string, nat)>, visited: set<string>,
             ghost P: set<string>, ghost D: map<string, nat>, ghost lvl: nat, ghost popped: string)
    requires U == {start} + (set x, v | x in g && v in g[x] :: v)
    requires queue0 != [] && Inv(g, start, queue0, visited0, P0, D0, lvl0, U)
    ensures out.Continue? ==> Inv(g, start, queue, visited, P, D, lvl, U) && P == P0 + {popped} && popped in U && popped !in P0
    ensures out.Found? ==> Exactly(g, start, Success, out.n)
    ensures out.MissingKey? ==> !Closed(g, start)
  {
    PopStep(g, start, queue0, visited0, P0, D0, lvl0, U);
    var u := queue0[0].0;
    popped := u;
    var d := queue0[0].1;
    queue, visited, P, D, lvl := queue0[1..], visited0, P0, D0, d;
    if !Terminal(u) && u !in g {
      MissingState(g, start, U, u);
      return MissingKey, queue, visited, P, D, lvl, popped;
    }
    SuccWithinUniverse(g, start, U, u);
    var found;
    found, queue, visited, D := Expand(g, start, u, d, queue, visited, P, D, U);
    if found {
      return Found(d + 1), queue, visited, P, D, lvl, popped;
    }
    FinishStep(g, start, queue, visited, P, D, d, U, u);
    P := P + {u};
    out := Continue;
  }

  /** The search starts with only `start` queued, at distance 0. */
  lemma StartInv(g: Graph, start: string, U: set<string>)
    requires !Terminal(start)
    requires U == {start} + (set u, v | u in g && v in g[u] :: v)
    ensures Inv(g, start, [(start, 0)], {start}, {}, map[start := 0], 0, U)
  {
    assert [(start, 0)][0].0 == start;
    assert Exactly(g, start, start, map[start := 0][start]);
  }

  /** Once the queue is empty, SUCCESS is in no layer. */
  lemma Exhausted(g: Graph, start: string, visited: set<string>, P: set<string>, D: map<string, nat>, lvl: nat,
                  U: set<string>)
    requires Inv(g, start, [], visited, P, D, lvl, U)
    ensures forall k :: Success !in Layer(g, start, k)
  {
    forall k: nat ensures Success !in Layer(g, start, k) {
      AllLayersWithin(g, start, P, k);
    }
  }

  /**
   * find_shortest_path for a non-terminal start: breadth-first search that
   * returns distance + 1 at the first transition into SUCCESS.
   */
  method ShortestPath(g: Graph, start: string) returns (r: Result<nat>)
    requires !Terminal(start)
    ensures r.Ok? ==> Exactly(g, start, Success, r.value)
    ensures r.Err? ==> r.error == KeyError || r.error == ValueError("No path to SUCCESS from " + start)
    ensures r.Err? && r.error.ValueError? ==> forall k :: Success !in Layer(g, start, k)
    ensures Closed(g, start) ==> r != Err(KeyError)
  {
    var queue: seq<(string, nat)> := [(start, 0)];
    var visited: set<string> := {start};
    ghost var P: set<string> := {};
    ghost var D: map<string, nat> := map[start := 0];
    ghost var lvl: nat := 0;
    ghost var U := {start} + (set u, v | u in g && v in g[u] :: v);
    StartInv(g, start, U);
    while queue != []
      invariant Inv(g, start, queue, visited, P, D, lvl, U)
      decreases |U - P|
    {
      var out;
      ghost var P0, u := P, "";
      out, queue, visited, P, D, lvl, u := Step(g, start, queue, visited, P, D, lvl, U);
      if out.Continue? {
        Shrink(U, P0, u);
      }
      match out
      case Found(n) => return Ok(n);
      case MissingKey => return Err(KeyError);
      case Continue =>
    }
    Exhausted(g, start, visited, P, D, lvl, U);
    return Err(ValueError("No path to SUCCESS from " + start));
  }

  /** find_shortest_path's result: a number of transitions, or float('inf'). */
  datatype Distance = Steps(n: nat) | Infinite

  /** find_shortest_path: 0 from SUCCESS, infinity from FAIL, else the search. */
  method FindShortestPath(g: Graph, start: string) returns (r: Result<Distance>)
    ensures start == Success ==> r == Ok(Steps(0))
    ensures start == Fail ==> r == Ok(Infinite)
    ensures !Terminal(start) && r.Ok? ==> r.value.Steps? && Exactly(g, start, Success, r.value.n)
    ensures !Terminal(start) && r.Err? ==>
      (r.error == ValueError("No path to SUCCESS from " + start) && forall k :: Success !in Layer(g, start, k))
      || (r.error == KeyError && !Closed(g, start))
  {
    if start == Success {
      return Ok(Steps(0));
    }
    if start == Fail {
      return Ok(Infinite);
    }
    var n := ShortestPath(g, start);
    if n.Err? {
      return Err(n.error);
    }
    return Ok(Steps(n.value));
  }

  /** From a non-SUCCESS state, SUCCESS is at least one transition away. */
  lemma DistancePositive(g: Graph, s: string, n: nat)
    requires s != Success && Exactly(g, s, Success, n)
    ensures n >= 1
  {
    assert Success !in Layer(g, s, 0);
  }

  /** The shortest distance is unique. */
  lemma DistanceUnique(g: Graph, s: string, n: nat, m: nat)
    requires Exactly(g, s, Success, n) && Exactly(g, s, Success, m)
    ensures n == m
  {
  }

  const MaxProgress: real := 10.0
  const MinProgress: real := 1.0

  /** 1 + 9 * (1 - current/start): progress towards SUCCESS on a 1..10 scale. */
  function Progress(current: nat, start: nat): (p: real)
    requires 0 < start && current <= start
    ensures MinProgress <= p <= MaxProgress
    ensures p == MaxProgress <==> current == 0
    ensures p == MinProgress <==> current == start
  {
    var q := current as real / start as real;
    assert q * start as real == current as real;
    assert 0.0 <= q <= 1.0;
    MinProgress + (MaxProgress - MinProgress) * (1.0 - q)
  }

  lemma DivideMonotone(a: real, b: real, d: real)
    requires 0.0 < d && a <= b
    ensures a / d <= b / d
  {
    assert b / d - a / d == (b - a) / d;
  }

  /** Being fewer transitions from SUCCESS never means less progress. */
  lemma ProgressMonotone(c1: nat, c2: nat, start: nat)
    requires 0 < start && c1 <= c2 <= start
    ensures Progress(c2, start) <= Progress(c1, start)
  {
    var q1 := c1 as real / start as real;
    var q2 := c2 as real / start as real;
    DivideMonotone(c1 as real, c2 as real, start as real);
  }

  /**
   * calculate_progress: 10 at SUCCESS, 1 at FAIL and START, otherwise the
   * formula on the two shortest distances; an AssertionError when the
   * current state is farther from SUCCESS than START is.
   */
  method CalculateProgress(g: Graph, current: string) returns (r: Result<real>)
    ensures current == Success ==> r == Ok(MaxProgress)
    ensures current == Fail || current == Start ==> r == Ok(MinProgress)
    ensures r.Ok? ==> MinProgress <= r.value <= MaxProgress
    ensures r.Ok? ==> (r.value == MaxProgress <==> current == Success)
    ensures r.Ok? && !Terminal(current) && current != Start ==>
      exists c: nat, s: nat :: Exactly(g, current, Success, c) && Exactly(g, Start, Success, s)
        && 0 < s && c <= s && r.value == Progress(c, s)
    ensures r == Err(AssertionError) ==>
      exists c: nat, s: nat :: Exactly(g, current, Success, c) && Exactly(g, Start, Success, s) && c > s
    ensures r.Err? && r.error != AssertionError ==>
      (r.error == ValueError("No path to SUCCESS from " + current) && forall k :: Success !in Layer(g, current, k))
      || (r.error == ValueError("No path to SUCCESS from " + Start) && forall k :: Success !in Layer(g, Start, k))
      || (r.error == KeyError && (!Closed(g, current) || !Closed(g, Start)))
    ensures !Terminal(current) && current != Start && Closed(g, current) && Closed(g, Start) ==>
      (r.Ok? <==> exists c: nat, s: nat :: Exactly(g, current, Success, c) && Exactly(g, Start, Success, s) && c <= s)
  {
    if current == Success {
      return Ok(MaxProgress);
    }
    if current == Fail || current == Start {
      return Ok(MinProgress);
    }
    var toSuccess := FindShortestPath(g, current);
    if toSuccess.Err? {
      if Closed(g, current) {
        assert forall k :: Success !in Layer(g, current, k);
      }
      return Err(toSuccess.error);
    }
    var fromStart := FindShortestPath(g, Start);
    if fromStart.Err? {
      if Closed(g, Start) {
        assert forall k :: Success !in Layer(g, Start, k);
      }
      return Err(fromStart.error);
    }
    var c := toSuccess.value.n;
    var s := fromStart.value.n;
    if c > s {
      forall c': nat, s': nat | Exactly(g, current, Success, c') && Exactly(g, Start, Success, s')
        ensures c' > s'
      {
        DistanceUnique(g, current, c, c');
        DistanceUnique(g, Start, s, s');
      }
      return Err(AssertionError);
    }
    DistancePositive(g, Start, s);
    DistancePositive(g, current, c);
    r := Ok(Progress(c, s));
  }

  // ---------------------------------------------------------- format_scenario

  /** The placeholders of a scenario: {botname} and {username}. */
  function Names(username: string, botname: string): map<string, string>
  {
    map["botname" := botname, "username" := username]
  }

  /** format_scenario: format and strip every string leaf, keep everything else. */
  function FormatScenario(j: Json, username: string, botname: string): Result<Json>
    decreases j, 1
  {
    match j
    case JObj(fields) =>
      var fs :- FormatFields(fields, username, botname);
      Ok(JObj(fs))
    case JArr(items) =>
      var xs :- FormatItems(items, username, botname);
      Ok(JArr(xs))
    case JStr(s) =>
      var t :- PyStr.Format(s, Names(username, botname));
      Ok(JStr(PyStr.Strip(t)))
    case _ => Ok(j)
  }

  function FormatFields(fields: seq<(string, Json)>, username: string, botname: string)
    : Result<seq<(string, Json)>>
    decreases fields, 0
  {
    if fields == [] then Ok([])
    else
      var kv := fields[0];
      assert kv in fields && kv.1 < kv;
      var v :- FormatScenario(kv.1, username, botname);
      var rest :- FormatFields(fields[1..], username, botname);
      Ok([(fields[0].0, v)] + rest)
  }

  function FormatItems(items: seq<Json>, username: string, botname: string): Result<seq<Json>>
    decreases items, 0
  {
    if items == [] then Ok([])
    else
      var v :- FormatScenario(items[0], username, botname);
      var rest :- FormatItems(items[1..], username, botname);
      Ok([v] + rest)
  }

  /** Same dict keys in the same order, same list lengths, strings for strings, other leaves equal. */
  predicate SameShape(a: Json, b: Json)
    decreases a, 1
  {
    match a
    case JObj(fs) => b.JObj? && SameFields(fs, b.fields)
    case JArr(xs) => b.JArr? && SameItems(xs, b.items)
    case JStr(_) => b.JStr?
    case _ => b == a
  }

  predicate SameFields(fs: seq<(string, Json)>, gs: seq<(string, Json)>)
    decreases fs, 0
  {
    |fs| == |gs| &&
    (fs != [] ==>
       var kv := fs[0];
       assert kv in fs && kv.1 < kv;
       kv.0 == gs[0].0 && SameShape(kv.1, gs[0].1) && SameFields(fs[1..], gs[1..]))
  }

  predicate SameItems(xs: seq<Json>, ys: seq<Json>)
    decreases xs, 0
  {
    |xs| == |ys| && (xs != [] ==> SameShape(xs[0], ys[0]) && SameItems(xs[1..], ys[1..]))
  }

  /** No string anywhere in the value has leading or trailing whitespace. */
  predicate Stripped(j: Json)
    decreases j, 1
  {
    match j
    case JObj(fs) => StrippedFields(fs)
    case JArr(xs) => StrippedItems(xs)
    case JStr(s) => PyStr.Strip(s) == s
    case _ => true
  }

  predicate StrippedFields(fs: seq<(string, Json)>)
    decreases fs, 0
  {
    fs != [] ==>
      var kv := fs[0];
      assert kv in fs && kv.1 < kv;
      Stripped(kv.1) && StrippedFields(fs[1..])
  }

  predicate StrippedItems(xs: seq<Json>)
    decreases xs, 0
  {
    xs != [] ==> Stripped(xs[0]) && StrippedItems(xs[1..])
  }

  /** format_scenario keeps the scenario's structure and leaves every string stripped. */
  lemma {:induction false} FormatScenarioShape(j: Json, username: string, botname: string)
    requires FormatScenario(j, username, botname).Ok?
    ensures SameShape(j, FormatScenario(j, username, botname).value)
    ensures Stripped(FormatScenario(j, username, botname).value)
    decreases j, 1
  {
    match j
    case JObj(fields) => FormatFieldsShape(fields, username, botname);
    case JArr(items) => FormatItemsShape(items, username, botname);
    case JStr(s) =>
      var t := PyStr.Format(s, Names(username, botname)).value;
      PyStr.StripIdempotent(t);
    case _ =>
  }

  lemma {:induction false} FormatFieldsShape(fields: seq<(string, Json)>, username: string, botname: string)
    requires FormatFields(fields, username, botname).Ok?
    ensures SameFields(fields, FormatFields(fields, username, botname).value)
    ensures StrippedFields(FormatFields(fields, username, botname).value)
    decreases fields, 0
  {
    if fields != [] {
      var kv := fields[0];
      assert kv in fields && kv.1 < kv;
      FormatScenarioShape(kv.1, username, botname);
      FormatFieldsShape(fields[1..], username, botname);
      var r := FormatFields(fields, username, botname).value;
      assert r[1..] == FormatFields(fields[1..], username, botname).value;
    }
  }

  lemma {:induction false} FormatItemsShape(items: seq<Json>, username: string, botname: string)
    requires FormatItems(items, username, botname).Ok?
    ensures SameItems(items, FormatItems(items, username, botname).value)
    ensures StrippedItems(FormatItems(items, username, botname).value)
    decreases items, 0
  {
    if items != [] {
      FormatScenarioShape(items[0], username, botname);
      FormatItemsShape(items[1..], username, botname);
      var r := FormatItems(items, username, botname).value;
      assert r[1..] == FormatItems(items[1..], username, botname).value;
    }
  }

  /** A string leaf without braces is only stripped. */
  lemma FormatPlainLeaf(s: string, username: string, botname: string)
    requires PyStr.NoBraces(s)
    ensures FormatScenario(JStr(s), username, botname) == Ok(JStr(PyStr.Strip(s)))
  {
    PyStr.FormatLiteral(s, Names(username, botname));
  }

  // ------------------------------------------------ get_scenario_by_skill_level

  /** scenario["skill"] == skill and str(scenario["level"]) == level, left to right. */
  function Matches(scenario: Json, skill: string, level: string): Result<bool>
  {
    var sk :- Get(scenario, "skill");
    if sk != JStr(skill) then Ok(false)
    else
      var lv :- Get(scenario, "level");
      var text :- PyStrOf(lv);
      Ok(text == level)
  }

  /** get_scenario_by_skill_level: the first matching scenario, else a ValueError. */
  method GetScenario(scenarios: seq<Json>, skill: string, level: string) returns (r: Result<Json>)
    ensures r.Ok? ==> (exists i :: 0 <= i < |scenarios| && scenarios[i] == r.value
                         && Matches(scenarios[i], skill, level) == Ok(true)
                         && forall j :: 0 <= j < i ==> Matches(scenarios[j], skill, level) == Ok(false))
    ensures r.Err? && r.error.ValueError? <==> forall i :: 0 <= i < |scenarios| ==> Matches(scenarios[i], skill, level) == Ok(false)
    ensures r.Err? && !r.error.ValueError? ==>
      (exists i :: 0 <= i < |scenarios| && Matches(scenarios[i], skill, level) == Err(r.error)
                   && forall j :: 0 <= j < i ==> Matches(scenarios[j], skill, level) == Ok(false))
  {
    var i := 0;
    while i < |scenarios|
      invariant 0 <= i <= |scenarios|
      invariant forall j :: 0 <= j < i ==> Matches(scenarios[j], skill, level) == Ok(false)
    {
      var m := Matches(scenarios[i], skill, level);
      if m.Err? {
        assert !m.error.ValueError?;
        return Err(m.error);
      }
      if m.value {
        return Ok(scenarios[i]);
      }
      i := i + 1;
    }
    return Err(ValueError("Scenario for skill " + skill + " and level " + level + " not found"));
  }

  // ------------------------------------------------------------ response

  /** What the transition judge decided about the last user message. */
  datatype Verdict = Verdict(isTransition: bool, toState: string)

  /** The three parts of the roleplay system prompt, separated by blank lines. */
  function SystemPrompt(character: string, statePrompt: string, addition: string): string
  {
    PyStr.Join("\n\n", [character, statePrompt, PyStr.Strip(addition)])
  }

  /** A running agentic scenario: its states' prompts, the current state and the chat. */
  class Episode {
    /** The states of the scenario, with the prompt each one has (None when it has none). */
    const prompts: map<string, Option<string>>
    const character: string
    /** The roleplay addition appended to every system prompt. */
    const addition: string
    var current: string
    var messages: seq<LiteLlm.ChatMessage>

    /** start(): the opening message from the assistant, at START. */
    constructor (prompts: map<string, Option<string>>, character: string, addition: string, opening: string)
      ensures this.prompts == prompts && this.character == character && this.addition == addition
      ensures current == Start && messages == [LiteLlm.ChatMessage("assistant", opening)]
    {
      this.prompts := prompts;
      this.character := character;
      this.addition := addition;
      current := Start;
      messages := [LiteLlm.ChatMessage("assistant", opening)];
    }

    /** The prompt of `state`, or the KeyError of states[state]["prompt"]. */
    function PromptOf(state: string): (r: Result<string>)
      ensures r.Ok? <==> state in prompts && prompts[state].Some?
    {
      if state !in prompts then Err(KeyError)
      else if prompts[state].None? then Err(KeyError)
      else Ok(prompts[state].value)
    }

    /**
     * One user turn of `response`: record the message, ask the judge, move to
     * the judged state (which must exist), then record the character's reply to
     * the system prompt of the state now current. Returns whether the scenario ended.
     */
    method Respond(userMessage: string, judge: Result<Verdict>, reply: string -> Result<string>)
      returns (r: Result<bool>)
      modifies this
      ensures old(PromptOf(current)).Err? ==> r == Err(KeyError) && current == old(current)
      ensures judge.Ok? && judge.value.isTransition && judge.value.toState !in prompts && old(PromptOf(current)).Ok?
              ==> r == Err(AssertionError) && current == old(current)
      ensures current == old(current) || (judge.Ok? && judge.value.isTransition && current == judge.value.toState)
      ensures current != old(current) ==> current in prompts
      ensures r.Ok? ==> judge.Ok? && current == (if judge.value.isTransition then judge.value.toState else old(current))
      ensures r.Ok? ==> r.value == Terminal(current)
      ensures r.Ok? ==> PromptOf(current).Ok? && reply(SystemPrompt(character, PromptOf(current).value, addition)).Ok?
      ensures r.Ok? ==> messages == old(messages) + [LiteLlm.ChatMessage("user", userMessage),
                         LiteLlm.ChatMessage("assistant", reply(SystemPrompt(character, PromptOf(current).value, addition)).value)]
      ensures r.Err? ==> messages == old(messages) + [LiteLlm.ChatMessage("user", userMessage)]
    {
      messages := messages + [LiteLlm.ChatMessage("user", userMessage)];
      var before := PromptOf(current);
      if before.Err? {
        return Err(KeyError);
      }
      if judge.Err? {
        return Err(judge.error);
      }
      if judge.value.isTransition {
        if judge.value.toState !in prompts {
          return Err(AssertionError);
        }
        current := judge.value.toState;
      }
      var prompt := PromptOf(current);
      if prompt.Err? {
        return Err(KeyError);
      }
      var bot := reply(SystemPrompt(character, prompt.value, addition));
      if bot.Err? {
        return Err(bot.error);
      }
      messages := messages + [LiteLlm.ChatMessage("assistant", bot.value)];
      r := Ok(Terminal(current));
    }
  }
}

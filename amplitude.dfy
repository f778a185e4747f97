// The Amplitude experiments client: flag-value coercion for experiment
// settings, a memoised assignment task that fetches a user's variants, a
// memoised exposure task that reports one event per assigned flag, and the
// bounded request retry loop both use.
module Amplitude {
  import opened Wrappers
  import opened Json
  import PyStr

  /** The strings `_coerce_boolish` reads as true, after lower-casing. */
  const TrueWords: set<string> := {"true", "1", "1.0", "on", "yes"}

  /**
   * `_coerce_boolish`: None stays None, bools are kept, strings are true when
   * they lower-case to one of the true words, ints when they equal 1, and
   * everything else is false.
   */
  function CoerceBoolish(v: Json): (r: Option<bool>)
    ensures r.None? <==> v.JNull?
    ensures r == Some(true) <==>
      (v == JBool(true) || (v.JStr? && PyStr.Lower(v.s) in TrueWords) || v == JInt(1))
  {
    match v
    case JNull => None
    case JBool(b) => Some(b)
    case JStr(s) => Some(PyStr.Lower(s) in TrueWords)
    case JInt(i) => Some(i == 1)
    case _ => Some(false)
  }

  /** Coercing the result of a coercion changes nothing. */
  lemma CoerceBoolishIdempotent(v: Json)
    ensures var r := CoerceBoolish(v);
      CoerceBoolish(if r.None? then JNull else JBool(r.value)) == r
  {
  }

  /** `_coerce_enumish`: the handler's result, or None when the handler raises. */
  function CoerceEnumish<T>(v: Json, handler: Json -> Result<T>): (r: Option<T>)
    ensures r.Some? <==> handler(v).Ok?
    ensures r.Some? ==> r.value == handler(v).value
  {
    match handler(v)
    case Ok(x) => Some(x)
    case Err(_) => None
  }

  /**
   * The outcome of `_request_with_retry` when attempt `a` (from 1) yields
   * `outcome(a)`: the first success, the error of attempt `n` when every
   * attempt fails, and None when `n` allows no attempt.
   */
  function Retried(n: int, outcome: nat -> Result<Json>, a: nat): Result<Json>
    requires 1 <= a
    decreases n - a
  {
    if a > n then Ok(JNull)
    else if outcome(a).Ok? then outcome(a)
    else if a == n then outcome(a)
    else Retried(n, outcome, a + 1)
  }

  /** A request succeeds iff some attempt within the bound succeeds, and its value is the first success. */
  lemma {:induction false} RetriedExact(n: int, outcome: nat -> Result<Json>, a: nat)
    requires 1 <= a
    ensures Retried(n, outcome, a).Err? <==> a <= n && forall b :: a <= b <= n ==> outcome(b).Err?
    ensures Retried(n, outcome, a).Err? ==> Retried(n, outcome, a) == outcome(n)
    ensures Retried(n, outcome, a).Ok? && a <= n ==>
      exists b :: a <= b <= n && Retried(n, outcome, a) == outcome(b) && forall c :: a <= c < b ==> outcome(c).Err?
    decreases n - a
  {
    if a <= n && outcome(a).Err? && a < n {
      RetriedExact(n, outcome, a + 1);
    }
  }

  /**
   * `_request_with_retry`: at most `nRetries` attempts, returning the first
   * success and re-raising the last failure. A method other than GET or
   * POST fails the assertion.
   */
  method RequestWithRetry(httpMethod: string, nRetries: int, outcome: nat -> Result<Json>) returns (r: Result<Json>, attempts: nat)
    ensures httpMethod != "GET" && httpMethod != "POST" ==> r == Err(AssertionError) && attempts == 0
    ensures httpMethod == "GET" || httpMethod == "POST" ==> r == Retried(nRetries, outcome, 1)
    ensures attempts <= if nRetries < 0 then 0 else nRetries
  {
    if httpMethod != "GET" && httpMethod != "POST" {
      return Err(AssertionError), 0;
    }
    var attempt := 1;
    attempts := 0;
    while attempt <= nRetries
      invariant 1 <= attempt && attempts == attempt - 1
      invariant nRetries >= 1 ==> attempt <= nRetries
      invariant nRetries < 1 ==> attempt == 1
      invariant Retried(nRetries, outcome, 1) == Retried(nRetries, outcome, attempt)
      decreases nRetries - attempt
    {
      var o := outcome(attempt);
      attempts := attempt;
      if o.Ok? {
        return o, attempts;
      }
      if attempt == nRetries {
        return o, attempts;
      }
      attempt := attempt + 1;
    }
    return Ok(JNull), attempts;
  }

  /** `{flag_key: variant.get("key") ...}`: each flag's variant key, or None. */
  function Variants(data: seq<(string, Json)>): (r: Result<seq<(string, Json)>>)
    ensures r.Ok? <==> forall i :: 0 <= i < |data| ==> data[i].1.JObj?
    ensures r.Ok? ==> |r.value| == |data|
    ensures r.Ok? ==> forall i :: 0 <= i < |data| ==> r.value[i] == (data[i].0, Lookup(data[i].1.fields, "key").GetOr(JNull))
  {
    if data == [] then Ok([])
    else
      var n := |data| - 1;
      var p :- Variants(data[..n]);
      var v :- GetOr(data[n].1, "key", JNull);
      Ok(p + [(data[n].0, v)])
  }

  /** An `$exposure` event for one flag (its timestamp is not modelled). */
  datatype Exposure = Exposure(userId: string, eventType: string, flagKey: string, variant: Json)

  /** The events of the exposure task, one per assigned flag, in order. */
  function Exposures(userId: string, vardata: seq<(string, Json)>): (r: seq<Exposure>)
    ensures |r| == |vardata|
    ensures forall i :: 0 <= i < |r| ==> r[i] == Exposure(userId, "$exposure", vardata[i].0, vardata[i].1)
  {
    if vardata == [] then []
    else
      var n := |vardata| - 1;
      Exposures(userId, vardata[..n]) + [Exposure(userId, "$exposure", vardata[n].0, vardata[n].1)]
  }

  /** The client, its assigned variants and its two memoised tasks (named by id). */
  class Client {
    const userId: string
    var vardata: Option<seq<(string, Json)>>
    var assignmentTask: Option<nat>
    var exposureTask: Option<nat>

    constructor (userId: string)
      ensures this.userId == userId && vardata == None && assignmentTask == None && exposureTask == None
    {
      this.userId := userId;
      vardata := None;
      assignmentTask := None;
      exposureTask := None;
    }

    /** `vardata`: the assigned variants, or `{}` while none are. */
    function Vardata(): (r: seq<(string, Json)>)
      reads this
      ensures vardata.None? ==> r == []
      ensures vardata.Some? ==> r == vardata.value
    {
      if vardata.None? then [] else vardata.value
    }

    /** `assign`: the first call creates the assignment task (`next`); later calls return it. */
    method Assign(next: nat) returns (t: nat)
      modifies this
      ensures old(assignmentTask).Some? ==> t == old(assignmentTask).value
      ensures old(assignmentTask).None? ==> t == next
      ensures assignmentTask == Some(t)
      ensures vardata == old(vardata) && exposureTask == old(exposureTask)
    {
      if assignmentTask.None? {
        assignmentTask := Some(next);
      }
      return assignmentTask.value;
    }

    /** `expose`, memoised in the same way. */
    method Expose(next: nat) returns (t: nat)
      modifies this
      ensures old(exposureTask).Some? ==> t == old(exposureTask).value
      ensures old(exposureTask).None? ==> t == next
      ensures exposureTask == Some(t)
      ensures vardata == old(vardata) && assignmentTask == old(assignmentTask)
    {
      if exposureTask.None? {
        exposureTask := Some(next);
      }
      return exposureTask.value;
    }

    /**
     * The body of the assignment task; `fetched` is what the retried GET
     * returned. No experiments sets `{}` without a request.
     */
    method RunAssignment(experiments: seq<string>, fetched: Result<Json>) returns (r: Result<()>)
      modifies this
      ensures experiments == [] ==> r.Ok? && vardata == Some([])
      ensures experiments != [] && fetched.Err? ==> r == Err(fetched.error) && vardata == old(vardata)
      ensures experiments != [] && fetched.Ok? && fetched.value.JObj? && Variants(fetched.value.fields).Ok? ==>
        r.Ok? && vardata == Some(Variants(fetched.value.fields).value)
      ensures r.Err? ==> vardata == old(vardata)
      ensures assignmentTask == old(assignmentTask) && exposureTask == old(exposureTask)
    {
      if experiments == [] {
        vardata := Some([]);
        return Ok(());
      }
      if fetched.Err? {
        return Err(fetched.error);
      }
      if !fetched.value.JObj? {
        return Err(Raised("AttributeError"));
      }
      var vs := Variants(fetched.value.fields);
      if vs.Err? {
        return Err(vs.error);
      }
      vardata := Some(vs.value);
      return Ok(());
    }

    /**
     * The body of the exposure task: nothing when no variants are assigned,
     * otherwise one event per flag, posted once.
     */
    method RunExposure() returns (events: seq<Exposure>)
      ensures Vardata() == [] ==> events == []
      ensures events == Exposures(userId, Vardata())
    {
      if vardata.None? || vardata.value == [] {
        return [];
      }
      events := [];
      var i := 0;
      var vs := vardata.value;
      while i < |vs|
        invariant 0 <= i <= |vs|
        invariant events == Exposures(userId, vs[..i])
      {
        assert vs[..i + 1][..i] == vs[..i];
        events := events + [Exposure(userId, "$exposure", vs[i].0, vs[i].1)];
        i := i + 1;
      }
      assert vs[..|vs|] == vs;
    }
  }
}

// JSON-like values (what json.loads returns and what the scenarios, model
// replies and payloads are made of) with Python's dict/list access semantics.
module Json {
  import opened Wrappers
  import PyStr

  /** A parsed JSON value. Objects keep their keys in insertion order, as Python dicts do. */
  datatype Json =
    | JNull
    | JBool(b: bool)
    | JInt(i: int)
    | JReal(r: real)
    | JStr(s: string)
    | JArr(items: seq<Json>)
    | JObj(fields: seq<(string, Json)>)

  /** Python truthiness: None, False, 0, "", [] and {} are false. */
  predicate Truthy(j: Json)
  {
    match j
    case JNull => false
    case JBool(b) => b
    case JInt(i) => i != 0
    case JReal(r) => r != 0.0
    case JStr(s) => s != ""
    case JArr(items) => items != []
    case JObj(fields) => fields != []
  }

  // Python dicts as association lists in insertion order, for any value type.

  function Keys<V>(fields: seq<(string, V)>): (ks: seq<string>)
    ensures |ks| == |fields|
    ensures forall k :: 0 <= k < |fields| ==> ks[k] == fields[k].0
  {
    if fields == [] then [] else [fields[0].0] + Keys(fields[1..])
  }

  /** The index of `key` among the keys, if present. */
  function IndexOfKey<V>(fields: seq<(string, V)>, key: string): (r: Option<nat>)
    ensures r.Some? ==> r.value < |fields| && fields[r.value].0 == key
    ensures r.Some? ==> forall k :: 0 <= k < r.value ==> fields[k].0 != key
    ensures r.None? ==> forall k :: 0 <= k < |fields| ==> fields[k].0 != key
  {
    if fields == [] then None
    else if fields[0].0 == key then Some(0)
    else match IndexOfKey(fields[1..], key)
      case None => None
      case Some(k) => Some(k + 1)
  }

  function Lookup<V>(fields: seq<(string, V)>, key: string): Option<V>
  {
    match IndexOfKey(fields, key)
    case None => None
    case Some(k) => Some(fields[k].1)
  }

  /** `d[key] = v`: overwrites an existing key in place, otherwise appends it. */
  function Assign<V>(fields: seq<(string, V)>, key: string, v: V): (r: seq<(string, V)>)
    ensures Lookup(r, key) == Some(v)
    ensures forall k :: k != key ==> Lookup(r, k) == Lookup(fields, k)
    ensures IndexOfKey(fields, key).Some? ==> Keys(r) == Keys(fields)
    ensures IndexOfKey(fields, key).None? ==> Keys(r) == Keys(fields) + [key]
  {
    match IndexOfKey(fields, key)
    case Some(k) =>
      var r := fields[k := (key, v)];
      assert forall q :: q != key ==> IndexOfKey(r, q) == IndexOfKey(fields, q) by {
        forall q | q != key ensures IndexOfKey(r, q) == IndexOfKey(fields, q) {
          IndexOfKeyAfterUpdate(fields, k, key, v, q);
        }
      }
      IndexOfKeyFirst(r, key, k);
      r
    case None =>
      var r := fields + [(key, v)];
      assert forall q :: q != key ==> IndexOfKey(r, q) == IndexOfKey(fields, q) by {
        forall q | q != key ensures IndexOfKey(r, q) == IndexOfKey(fields, q) {
          IndexOfKeyAppend(fields, key, v, q);
        }
      }
      IndexOfKeyFirst(r, key, |fields|);
      r
  }

  lemma {:induction false} IndexOfKeyFirst<V>(fields: seq<(string, V)>, key: string, k: nat)
    requires k < |fields| && fields[k].0 == key
    requires forall q :: 0 <= q < k ==> fields[q].0 != key
    ensures IndexOfKey(fields, key) == Some(k)
  {
    if k > 0 {
      IndexOfKeyFirst(fields[1..], key, k - 1);
    }
  }

  lemma {:induction false} IndexOfKeyAfterUpdate<V>(fields: seq<(string, V)>, k: nat, key: string, v: V, q: string)
    requires k < |fields| && fields[k].0 == key && q != key
    ensures IndexOfKey(fields[k := (key, v)], q) == IndexOfKey(fields, q)
  {
    if fields[0].0 != q && k > 0 {
      assert fields[k := (key, v)][1..] == fields[1..][k - 1 := (key, v)];
      IndexOfKeyAfterUpdate(fields[1..], k - 1, key, v, q);
    }
  }

  lemma {:induction false} IndexOfKeyAppend<V>(fields: seq<(string, V)>, key: string, v: V, q: string)
    requires q != key
    ensures IndexOfKey(fields + [(key, v)], q) == IndexOfKey(fields, q)
  {
    if fields != [] {
      assert (fields + [(key, v)])[1..] == fields[1..] + [(key, v)];
      IndexOfKeyAppend(fields[1..], key, v, q);
    }
  }

  /** Assigning a key the value it already has changes nothing. */
  lemma AssignSame<V>(fields: seq<(string, V)>, key: string, v: V)
    requires Lookup(fields, key) == Some(v)
    ensures Assign(fields, key, v) == fields
  {
    var k := IndexOfKey(fields, key).value;
    assert fields[k] == (key, v);
  }

  /** Assigning the entries of `xs` one after another, as a loop of `d[k] = v` does. */
  function AssignAll<V>(acc: seq<(string, V)>, xs: seq<(string, V)>): seq<(string, V)>
  {
    if xs == [] then acc
    else Assign(AssignAll(acc, xs[..|xs| - 1]), xs[|xs| - 1].0, xs[|xs| - 1].1)
  }

  /** The index of the last entry of `xs` with key `key`, if any. */
  function LastIndex<V>(xs: seq<(string, V)>, key: string): (r: Option<nat>)
    ensures r.None? <==> forall i :: 0 <= i < |xs| ==> xs[i].0 != key
    ensures r.Some? ==> r.value < |xs| && xs[r.value].0 == key
    ensures r.Some? ==> forall j :: r.value < j < |xs| ==> xs[j].0 != key
  {
    if xs == [] then None
    else if xs[|xs| - 1].0 == key then Some(|xs| - 1)
    else LastIndex(xs[..|xs| - 1], key)
  }

  /** The value of the last entry of `xs` with key `key`, if any. */
  function LastValue<V>(xs: seq<(string, V)>, key: string): Option<V>
  {
    match LastIndex(xs, key)
    case Some(i) => Some(xs[i].1)
    case None => None
  }

  /** Later assignments to a key overwrite earlier ones; untouched keys keep their value. */
  lemma {:induction false} LookupAssignAll<V>(acc: seq<(string, V)>, xs: seq<(string, V)>, key: string)
    ensures Lookup(AssignAll(acc, xs), key) ==
      (if LastValue(xs, key).Some? then LastValue(xs, key) else Lookup(acc, key))
  {
    if xs != [] {
      LookupAssignAll(acc, xs[..|xs| - 1], key);
    }
  }

  lemma AssignAllOne<V>(acc: seq<(string, V)>, key: string, v: V)
    ensures AssignAll(acc, [(key, v)]) == Assign(acc, key, v)
  {
    var xs := [(key, v)];
    assert xs[..0] == [];
  }

  /** Assigning two runs of entries is assigning the first, then the second. */
  lemma {:induction false} AssignAllAppend<V>(acc: seq<(string, V)>, xs: seq<(string, V)>, ys: seq<(string, V)>)
    ensures AssignAll(acc, xs + ys) == AssignAll(AssignAll(acc, xs), ys)
  {
    if ys != [] {
      assert (xs + ys)[..|xs + ys| - 1] == xs + ys[..|ys| - 1];
      AssignAllAppend(acc, xs, ys[..|ys| - 1]);
    } else {
      assert xs + ys == xs;
    }
  }

  /** `j[key]` on a value that should be a dict. */
  function Get(j: Json, key: string): (r: Result<Json>)
    ensures r.Ok? <==> j.JObj? && Lookup(j.fields, key).Some?
    ensures r.Ok? ==> Lookup(j.fields, key) == Some(r.value)
  {
    match j
    case JObj(fields) =>
      (match Lookup(fields, key) case Some(v) => Ok(v) case None => Err(KeyError))
    case _ => Err(TypeError)
  }

  /**
   * A dict literal `{t: j[s], ...}` that renames the keys of `j`: each value
   * is read in order, so the first missing key (or a `j` that is not a dict)
   * raises.
   */
  function Project(j: Json, renames: seq<(string, string)>): (r: Result<Json>)
    ensures r.Ok? <==> forall i :: 0 <= i < |renames| ==> Get(j, renames[i].0).Ok?
    ensures r.Err? ==> r == Err(if j.JObj? then KeyError else TypeError)
    ensures r.Ok? ==> r.value.JObj? && |r.value.fields| == |renames|
    ensures r.Ok? ==> forall i :: 0 <= i < |renames| ==> r.value.fields[i] == (renames[i].1, Get(j, renames[i].0).value)
  {
    if renames == [] then Ok(JObj([]))
    else
      var n := |renames| - 1;
      var init :- Project(j, renames[..n]);
      var v :- Get(j, renames[n].0);
      Ok(JObj(init.fields + [(renames[n].1, v)]))
  }

  /** With distinct new names, each new key of a projection holds the value of its old key. */
  lemma ProjectGet(j: Json, renames: seq<(string, string)>, i: nat)
    requires Project(j, renames).Ok? && i < |renames|
    requires forall a, b :: 0 <= a < b < |renames| ==> renames[a].1 != renames[b].1
    ensures Get(Project(j, renames).value, renames[i].1) == Get(j, renames[i].0)
  {
    var fields := Project(j, renames).value.fields;
    IndexOfKeyFirst(fields, renames[i].1, i);
  }

  /** `j.get(key, default)`; a value that is not a dict has no `get` method. */
  function GetOr(j: Json, key: string, default: Json): (r: Result<Json>)
    ensures r.Ok? <==> j.JObj?
    ensures j.JObj? ==> r.value == Lookup(j.fields, key).GetOr(default)
  {
    match j
    case JObj(fields) => Ok(Lookup(fields, key).GetOr(default))
    case _ => Err(Raised("AttributeError"))
  }

  /** `j[i]` for a non-negative index. */
  function At(j: Json, i: nat): (r: Result<Json>)
    ensures j.JArr? ==> (r.Ok? <==> i < |j.items|)
    ensures j.JArr? && i < |j.items| ==> r == Ok(j.items[i])
  {
    match j
    case JArr(items) => if i < |items| then Ok(items[i]) else Err(IndexError)
    case JStr(s) => if i < |s| then Ok(JStr([s[i]])) else Err(IndexError)
    case JObj(_) => Err(KeyError)
    case _ => Err(TypeError)
  }

  /** Python's `key in j`: dict keys, list membership or a substring; an error otherwise. */
  function In(key: string, j: Json): (r: Result<bool>)
    ensures j.JObj? ==> r == Ok(IndexOfKey(j.fields, key).Some?)
  {
    match j
    case JObj(fields) => Ok(IndexOfKey(fields, key).Some?)
    case JArr(items) => Ok(JStr(key) in items)
    case JStr(s) => Ok(PyStr.Contains(s, key))
    case _ => Err(TypeError)
  }

  /** Python's str() of a JSON scalar, where the model supports it. */
  function PyStrOf(j: Json): Result<string>
  {
    match j
    case JStr(s) => Ok(s)
    case JInt(i) => Ok(PyStr.IntToString(i))
    case JBool(b) => Ok(if b then "True" else "False")
    case JNull => Ok("None")
    case _ => Err(Unsupported)
  }
}

// The in-process metric store that batches OpenTelemetry-style metrics
// before pushing them to Grafana: each metric name has a fixed kind, gauges,
// enums and events append a data point per add, counters accumulate into
// their first data point.
module Grafana {
  import opened Wrappers
  import opened Json

  /** The `kind` argument of `add`; any other string is `OtherKind`. */
  datatype Kind = Gauge | Enum | Histogram | Counter | Event | OtherKind(tag: string)

  /** The `value` argument: a number or a string. */
  datatype Sample = Number(x: real) | Text(s: string)

  /** A data point; enum points carry `asInt`, all others `asDouble`. */
  datatype Point = Point(asDouble: Option<real>, asInt: Option<int>, time: int, start: int, attributes: seq<(string, string)>)

  /** One metric entry, with its single data point. */
  datatype Metric = Metric(name: string, unit: string, point: Point)

  /** The `metrics` dict of lists and the `kinds` dict, in insertion order. */
  datatype Store = Store(metrics: seq<(string, seq<Metric>)>, kinds: seq<(string, Kind)>)

  /** What `get` returns: a number, an enum tag or an event count. */
  datatype Reading = Value(x: real) | Label(s: string) | Count(n: nat)

  function KindName(k: Kind): string
  {
    match k
    case Gauge => "gauge"
    case Enum => "enum"
    case Histogram => "histogram"
    case Counter => "counter"
    case Event => "event"
    case OtherKind(tag) => tag
  }

  /** The metrics stored under `name`, or none. */
  function Stored(metrics: seq<(string, seq<Metric>)>, name: string): seq<Metric>
  {
    match Lookup(metrics, name)
    case Some(ms) => ms
    case None => []
  }

  /**
   * The metric a non-accumulating add builds, or the exception it raises
   * before touching the store. `OtherKind` builds nothing; its failure comes
   * later, after the kind is recorded.
   */
  function Build(name: string, kind: Kind, value: Sample, unit: string, attrs: seq<(string, string)>, now: int): (r: Result<Option<Metric>>)
    ensures kind == Histogram ==> r == Err(NotImplementedError)
    ensures kind.OtherKind? ==> r == Ok(None)
    ensures (kind == Gauge || kind == Counter) && value.Text? ==> r == Err(AssertionError)
    ensures kind == Enum && value.Number? ==> r == Err(AssertionError)
    ensures r.Ok? && r.value.Some? ==> r.value.value.name == name && r.value.value.unit == unit
    ensures r.Ok? && r.value.Some? ==> (r.value.value.point.asInt.Some? <==> kind == Enum)
  {
    match kind
    case Gauge =>
      if value.Number? then Ok(Some(Metric(name, unit, Point(Some(value.x), None, now, now, attrs))))
      else Err(AssertionError)
    case Event => Ok(Some(Metric(name, unit, Point(Some(1.0), None, now, now, attrs))))
    case Enum =>
      if value.Text? then Ok(Some(Metric(name, unit, Point(None, Some(1), now, now, attrs + [(name, value.s)]))))
      else Err(AssertionError)
    case Histogram => Err(NotImplementedError)
    case Counter =>
      if value.Number? then Ok(Some(Metric(name, unit, Point(Some(value.x), None, now, now, attrs))))
      else Err(AssertionError)
    case OtherKind(_) => Ok(None)
  }

  /** A counter add on a name with stored metrics: the first data point's `asDouble` grows by `x`. */
  function Accumulate(m: Metric, x: real, now: int): (r: Result<Metric>)
    ensures m.point.asDouble.None? <==> r.Err?
    ensures r.Ok? ==> r.value.point.asDouble == Some(m.point.asDouble.value + x)
    ensures r.Ok? ==> r.value.name == m.name && r.value.point.attributes == m.point.attributes
  {
    if m.point.asDouble.None? then Err(KeyError)
    else Ok(m.(point := m.point.(asDouble := Some(m.point.asDouble.value + x), time := now)))
  }

  /** Whether an add takes the counter path into existing metrics. */
  predicate Accumulates(st: Store, name: string, kind: Kind, value: Sample)
  {
    kind == Counter && value.Number? && Stored(st.metrics, name) != []
  }

  /**
   * `_add`: the new store and the exception raised, if any. The kind is
   * recorded on first use and a mismatch fails; a counter add into existing
   * metrics returns before that check.
   */
  function AddSpec(st: Store, attributes: seq<(string, string)>, name: string, kind: Kind, value: Sample,
                   unit: string, addOnce: bool, now: int): (r: (Store, Option<Exc>))
    ensures addOnce && Lookup(st.metrics, name).Some? ==> r == (st, None)
    ensures forall k :: k != name ==> Lookup(r.0.metrics, k) == Lookup(st.metrics, k)
    ensures forall k :: k != name ==> Lookup(r.0.kinds, k) == Lookup(st.kinds, k)
    ensures Lookup(st.kinds, name).Some? ==> Lookup(r.0.kinds, name) == Lookup(st.kinds, name)
    ensures r.0.kinds == st.kinds || (Lookup(st.kinds, name).None? && Lookup(r.0.kinds, name) == Some(kind))
    ensures !(addOnce && Lookup(st.metrics, name).Some?) && !Accumulates(st, name, kind, value) ==>
      (r.1.None? <==>
         Build(name, kind, value, unit, attributes, now).Ok? && Build(name, kind, value, unit, attributes, now).value.Some?
         && (Lookup(st.kinds, name).None? || Lookup(st.kinds, name) == Some(kind)))
    ensures r.1.None? && !(addOnce && Lookup(st.metrics, name).Some?) && !Accumulates(st, name, kind, value) ==>
      Stored(r.0.metrics, name) == Stored(st.metrics, name) + [Build(name, kind, value, unit, attributes, now).value.value]
      && Lookup(r.0.kinds, name) == Some(kind)
    ensures !(addOnce && Lookup(st.metrics, name).Some?) && !Accumulates(st, name, kind, value)
      && kind != Histogram && Lookup(st.kinds, name).Some? && Lookup(st.kinds, name) != Some(kind)
      ==> r.1 == Some(AssertionError) && r.0 == st
  {
    if addOnce && Lookup(st.metrics, name).Some? then (st, None)
    else
      var attrs := attributes;
      var existing := Stored(st.metrics, name);
      if Accumulates(st, name, kind, value) then
        match Accumulate(existing[0], value.x, now)
        case Err(e) => (st, Some(e))
        case Ok(m) => (Store(Assign(st.metrics, name, existing[0 := m]), st.kinds), None)
      else
        match Build(name, kind, value, unit, attrs, now)
        case Err(e) => (st, Some(e))
        case Ok(built) =>
          var kinds := if Lookup(st.kinds, name).None? then Assign(st.kinds, name, kind) else st.kinds;
          if Lookup(kinds, name) != Some(kind) then (st, Some(AssertionError))
          else if built.None? then (Store(Assign(st.metrics, name, existing), kinds), Some(UnboundLocalError))
          else (Store(Assign(st.metrics, name, existing + [built.value]), kinds), None)
  }

  /**
   * The store's invariant: every stored name has a recorded kind, and a
   * counter name holds at most one metric, which carries `asDouble`.
   */
  ghost predicate Inv(st: Store)
  {
    forall name :: Lookup(st.metrics, name).Some? ==>
      Lookup(st.kinds, name).Some?
      && (Lookup(st.kinds, name) == Some(Counter) ==>
            |Lookup(st.metrics, name).value| <= 1
            && forall m :: m in Lookup(st.metrics, name).value ==> m.point.asDouble.Some?)
  }

  /** Every add keeps the invariant. */
  lemma AddKeepsInv(st: Store, attributes: seq<(string, string)>, name: string, kind: Kind, value: Sample,
                    unit: string, addOnce: bool, now: int)
    requires Inv(st)
    ensures Inv(AddSpec(st, attributes, name, kind, value, unit, addOnce, now).0)
  {
    var r := AddSpec(st, attributes, name, kind, value, unit, addOnce, now).0;
    forall q | Lookup(r.metrics, q).Some?
      ensures Lookup(r.kinds, q).Some?
      ensures Lookup(r.kinds, q) == Some(Counter) ==>
        |Lookup(r.metrics, q).value| <= 1 && forall m :: m in Lookup(r.metrics, q).value ==> m.point.asDouble.Some?
    {
      if q == name && r != st {
        var existing := Stored(st.metrics, name);
        if Accumulates(st, name, kind, value) && Lookup(st.kinds, name) == Some(Counter) {
          var m := Accumulate(existing[0], value.x, now).value;
          assert Lookup(r.metrics, q) == Some(existing[0 := m]);
          assert existing[0] in existing;
          assert |existing| == 1 && existing[0 := m] == [m];
        }
      }
    }
  }

  /** `get`: the reading for `name`, the default for an absent name, or the exception raised. */
  function Read(st: Store, name: string, default: Option<real>): (r: Result<Reading>)
    ensures Lookup(st.metrics, name).None? ==> r == (if default.Some? then Ok(Value(default.value)) else Err(AssertionError))
    ensures Lookup(st.metrics, name) == Some([]) ==> r == Err(AssertionError)
    ensures Lookup(st.kinds, name) == Some(Histogram) && Stored(st.metrics, name) != [] ==> r == Err(NotImplementedError)
    ensures Lookup(st.kinds, name) == Some(Event) && Stored(st.metrics, name) != [] ==> r == Ok(Count(|Stored(st.metrics, name)|))
    ensures (Lookup(st.kinds, name) == Some(Gauge) || Lookup(st.kinds, name) == Some(Counter)) && Stored(st.metrics, name) != [] ==>
      r == PointValue(Stored(st.metrics, name)[|Stored(st.metrics, name)| - 1].point)
    ensures Lookup(st.kinds, name) == Some(Enum) && Stored(st.metrics, name) != [] ==>
      r == EnumLabel(Stored(st.metrics, name)[|Stored(st.metrics, name)| - 1].point, name)
    ensures Lookup(st.kinds, name).None? && Stored(st.metrics, name) != [] ==> r == Err(KeyError)
    ensures Lookup(st.kinds, name).Some? && Lookup(st.kinds, name).value.OtherKind? && Stored(st.metrics, name) != [] ==>
      r.Err? && r.error.ValueError?
    ensures r.Ok? && r.value.Label? ==>
      Lookup(st.kinds, name) == Some(Enum)
      && Lookup(Stored(st.metrics, name)[|Stored(st.metrics, name)| - 1].point.attributes, name) == Some(r.value.s)
  {
    if Lookup(st.metrics, name).None? && default.Some? then Ok(Value(default.value))
    else if Lookup(st.metrics, name).None? then Err(AssertionError)
    else
      var ms := Lookup(st.metrics, name).value;
      if ms == [] then Err(AssertionError)
      else
        match Lookup(st.kinds, name)
        case None => Err(KeyError)
        case Some(k) =>
          var p := ms[|ms| - 1].point;
          match k
          case Gauge => PointValue(p)
          case Counter => PointValue(p)
          case Enum => EnumLabel(p, name)
          case Event => Ok(Count(|ms|))
          case Histogram => Err(NotImplementedError)
          case OtherKind(tag) => Err(ValueError("Metric `" + name + "` with kind `" + tag + "` is not supported"))
  }

  /** The first attribute keyed by the metric's own name. */
  function EnumLabel(p: Point, name: string): (r: Result<Reading>)
    ensures r.Ok? <==> Lookup(p.attributes, name).Some?
    ensures r.Ok? ==> r == Ok(Label(Lookup(p.attributes, name).value))
  {
    match Lookup(p.attributes, name)
    case Some(s) => Ok(Label(s))
    case None => Err(ValueError("Metric `" + name + "` with kind `enum` has no value"))
  }

  /** `asDouble`, else `asInt` as a float. */
  function PointValue(p: Point): (r: Result<Reading>)
    ensures p.asDouble.Some? ==> r == Ok(Value(p.asDouble.value))
    ensures p.asDouble.None? && p.asInt.Some? ==> r == Ok(Value(p.asInt.value as real))
    ensures r.Err? <==> p.asDouble.None? && p.asInt.None?
  {
    if p.asDouble.Some? then Ok(Value(p.asDouble.value))
    else if p.asInt.Some? then Ok(Value(p.asInt.value as real))
    else Err(KeyError)
  }

  /** A counter add grows the counter's reading by the value added. */
  lemma CounterAccumulates(st: Store, attributes: seq<(string, string)>, name: string, x: real, unit: string, now: int, v: real)
    requires Inv(st)
    requires Lookup(st.kinds, name) == Some(Counter)
    requires Read(st, name, None) == Ok(Value(v))
    ensures AddSpec(st, attributes, name, Counter, Number(x), unit, false, now).1.None?
    ensures Read(AddSpec(st, attributes, name, Counter, Number(x), unit, false, now).0, name, None) == Ok(Value(v + x))
  {
    var ms := Lookup(st.metrics, name).value;
    assert ms[0] in ms;
    var r := AddSpec(st, attributes, name, Counter, Number(x), unit, false, now).0;
    assert Lookup(r.metrics, name) == Some(ms[0 := Accumulate(ms[0], x, now).value]);
  }

  /** A gauge add on a fresh or gauge name succeeds, and reading the name back gives the value just added. */
  lemma GaugeReadsLast(st: Store, attributes: seq<(string, string)>, name: string, x: real, unit: string, now: int)
    requires Lookup(st.kinds, name).None? || Lookup(st.kinds, name) == Some(Gauge)
    ensures AddSpec(st, attributes, name, Gauge, Number(x), unit, false, now).1.None?
    ensures Read(AddSpec(st, attributes, name, Gauge, Number(x), unit, false, now).0, name, None) == Ok(Value(x))
  {
    var r := AddSpec(st, attributes, name, Gauge, Number(x), unit, false, now).0;
    var m := Metric(name, unit, Point(Some(x), None, now, now, attributes));
    assert Lookup(r.metrics, name) == Some(Stored(st.metrics, name) + [m]);
    assert Lookup(r.kinds, name) == Some(Gauge);
  }

  /** An event add on a fresh or event name succeeds, and the event count grows by one. */
  lemma EventCountGrows(st: Store, attributes: seq<(string, string)>, name: string, value: Sample, unit: string, now: int)
    requires Lookup(st.kinds, name).None? || Lookup(st.kinds, name) == Some(Event)
    ensures AddSpec(st, attributes, name, Event, value, unit, false, now).1.None?
    ensures Read(AddSpec(st, attributes, name, Event, value, unit, false, now).0, name, None) == Ok(Count(|Stored(st.metrics, name)| + 1))
  {
    var r := AddSpec(st, attributes, name, Event, value, unit, false, now).0;
    var m := Metric(name, unit, Point(Some(1.0), None, now, now, attributes));
    assert Lookup(r.metrics, name) == Some(Stored(st.metrics, name) + [m]);
    assert Lookup(r.kinds, name) == Some(Event);
  }

  /**
   * An enum add on a fresh or enum name succeeds, and reading the name back
   * gives the new label, provided the store's own attributes do not already
   * carry the name as a key (the first matching attribute wins).
   */
  lemma EnumReadsLabel(st: Store, attributes: seq<(string, string)>, name: string, tag: string, unit: string, now: int)
    requires Lookup(st.kinds, name).None? || Lookup(st.kinds, name) == Some(Enum)
    requires Lookup(attributes, name).None?
    ensures AddSpec(st, attributes, name, Enum, Text(tag), unit, false, now).1.None?
    ensures Read(AddSpec(st, attributes, name, Enum, Text(tag), unit, false, now).0, name, None) == Ok(Label(tag))
  {
    var r := AddSpec(st, attributes, name, Enum, Text(tag), unit, false, now).0;
    var m := Metric(name, unit, Point(None, Some(1), now, now, attributes + [(name, tag)]));
    assert Lookup(r.metrics, name) == Some(Stored(st.metrics, name) + [m]);
    assert Lookup(r.kinds, name) == Some(Enum);
    assert Assign(attributes, name, tag) == attributes + [(name, tag)];
  }

  /** The first add on a fresh name fixes the name's kind, and another kind then fails. */
  lemma KindFixedByFirstAdd(st: Store, attributes: seq<(string, string)>, name: string, kind: Kind, other: Kind,
                            value: Sample, value2: Sample, unit: string, now: int)
    requires Lookup(st.metrics, name).None? && Lookup(st.kinds, name).None?
    requires AddSpec(st, attributes, name, kind, value, unit, false, now).1.None?
    requires other != kind && other != Histogram && other != Counter
    ensures var st2 := AddSpec(st, attributes, name, kind, value, unit, false, now).0;
      Lookup(st2.kinds, name) == Some(kind)
      && AddSpec(st2, attributes, name, other, value2, unit, false, now).1 == Some(AssertionError)
  {
  }

  /** A counter add on a name of another kind with stored metrics bypasses the kind check. */
  lemma CounterSkipsKindCheck(st: Store, attributes: seq<(string, string)>, name: string, x: real, unit: string, now: int)
    requires Lookup(st.kinds, name) == Some(Gauge)
    requires Stored(st.metrics, name) != [] && Stored(st.metrics, name)[0].point.asDouble.Some?
    ensures AddSpec(st, attributes, name, Counter, Number(x), unit, false, now).1.None?
    ensures Lookup(AddSpec(st, attributes, name, Counter, Number(x), unit, false, now).0.kinds, name) == Some(Gauge)
  {
  }

  /** The metric store. */
  class Grafana {
    const attributes: seq<(string, string)>
    const mode: string
    var metrics: seq<(string, seq<Metric>)>
    var kinds: seq<(string, Kind)>

    constructor (attributes: seq<(string, string)>, mode: string)
      ensures this.attributes == attributes && this.mode == mode
      ensures metrics == [] && kinds == []
    {
      this.attributes := attributes;
      this.mode := mode;
      metrics := [];
      kinds := [];
    }

    function State(): Store
      reads this
    {
      Store(metrics, kinds)
    }

    /** `_add`, with the clock reading `now`; returns the exception raised, if any. */
    method Record(name: string, kind: Kind, value: Sample, unit: string, addOnce: bool, now: int) returns (raised: Option<Exc>)
      modifies this
      ensures (State(), raised) == AddSpec(old(State()), attributes, name, kind, value, unit, addOnce, now)
    {
      if addOnce && Lookup(metrics, name).Some? {
        return None;
      }
      var existing := Stored(metrics, name);
      if kind == Counter && value.Number? && existing != [] {
        var m := Accumulate(existing[0], value.x, now);
        if m.Err? {
          return Some(m.error);
        }
        metrics := Assign(metrics, name, existing[0 := m.value]);
        return None;
      }
      var built := Build(name, kind, value, unit, attributes, now);
      if built.Err? {
        return Some(built.error);
      }
      if Lookup(kinds, name).None? {
        kinds := Assign(kinds, name, kind);
      }
      if Lookup(kinds, name) != Some(kind) {
        return Some(AssertionError);
      }
      if built.value.None? {
        metrics := Assign(metrics, name, existing);
        return Some(UnboundLocalError);
      }
      metrics := Assign(metrics, name, existing + [built.value.value]);
      return None;
    }

    /** `add_once`: nothing when the name already has stored metrics. */
    method AddOnce(name: string, kind: Kind, value: Sample, unit: string, now: int) returns (raised: Option<Exc>)
      modifies this
      ensures old(Lookup(metrics, name)).Some? ==> raised.None? && State() == old(State())
      ensures (State(), raised) == AddSpec(old(State()), attributes, name, kind, value, unit, true, now)
    {
      raised := Record(name, kind, value, unit, true, now);
    }

    /** `add`. */
    method Add(name: string, kind: Kind, value: Sample, unit: string, now: int) returns (raised: Option<Exc>)
      modifies this
      ensures (State(), raised) == AddSpec(old(State()), attributes, name, kind, value, unit, false, now)
    {
      raised := Record(name, kind, value, unit, false, now);
    }

    /**
     * `push`: `delivered(attempt)` says whether that attempt got a 2xx
     * response. Metrics are cleared only on delivery; the last failure is
     * re-raised.
     */
    method Push(maxRetries: int, delivered: nat -> bool) returns (r: Result<()>)
      modifies this
      ensures kinds == old(kinds)
      ensures mode == "console" || old(metrics) == [] ==> r.Ok? && metrics == old(metrics)
      ensures metrics == old(metrics) || metrics == []
      ensures mode != "console" && old(metrics) != [] ==>
        (metrics == [] <==> exists a :: 1 <= a <= maxRetries && delivered(a))
      ensures r.Err? <==> (mode != "console" && old(metrics) != [] && 1 <= maxRetries
                           && forall a :: 1 <= a <= maxRetries ==> !delivered(a))
    {
      if mode == "console" || metrics == [] {
        return Ok(());
      }
      var attempt := 1;
      while attempt <= maxRetries
        invariant 1 <= attempt
        invariant maxRetries >= 1 ==> attempt <= maxRetries
        invariant metrics == old(metrics) && metrics != []
        invariant forall a :: 1 <= a < attempt ==> !delivered(a)
        decreases maxRetries - attempt
      {
        if delivered(attempt) {
          metrics := [];
          return Ok(());
        }
        if attempt == maxRetries {
          return Err(Raised("push"));
        }
        attempt := attempt + 1;
      }
      return Ok(());
    }
  }
}

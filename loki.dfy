// The logging handler that buffers formatted log records for Grafana Loki:
// noisy messages are dropped or relabelled, repeated warnings carry a repeat
// counter, and a push groups the buffer by level into one stream per level.
module Loki {
  import opened Wrappers
  import opened Json
  import PyStr

  const MaxLabels := 15
  const ImportantLevels: set<string> := {"warning", "error", "critical"}
  const MainFileNames: set<string> := {"__main__", "__mp_main__"}

  /** The fields of a `logging.LogRecord` the handler reads. */
  datatype LogRecord = LogRecord(created: real, message: string, levelname: string, pathname: string, lineno: int, name: string)

  /** The `timediff` prefix: the first log, or seconds since the previous buffered record. */
  datatype TimeDiff = FirstLog | Since(seconds: real)

  /** A record with the attributes `emit` adds before formatting. */
  datatype Decorated = Decorated(record: LogRecord, levelname: string, timediff: TimeDiff, nrepeats: string, lname: string, where: Option<string>)

  /** `LokiRecord`: creation time, formatted entry, lower-case level. */
  datatype Entry = Entry(created: real, text: string, level: string)

  /** One pushed stream: the labels plus `level`, and the (time, entry) values. */
  datatype Stream = Stream(labels: seq<(string, string)>, values: seq<(real, string)>)

  /** `_is_noisy_error`: some noisy substring occurs in the message. */
  predicate IsNoisy(message: string, noisy: seq<string>)
  {
    exists i :: 0 <= i < |noisy| && PyStr.Contains(message, noisy[i])
  }

  predicate Important(levelname: string)
  {
    PyStr.Lower(levelname) in ImportantLevels
  }

  /** Whether `emit` drops the record. */
  predicate Dropped(r: LogRecord, noisy: seq<string>, strategy: string)
  {
    IsNoisy(r.message, noisy) && strategy == "supress"
  }

  /** The level name after the noisy rule: `NOTSET` for a noisy record under that strategy. */
  function LevelName(r: LogRecord, noisy: seq<string>, strategy: string): (l: string)
    ensures l == "NOTSET" || l == r.levelname
    ensures l != r.levelname ==> IsNoisy(r.message, noisy) && strategy == "NOTSET"
  {
    if IsNoisy(r.message, noisy) && strategy == "NOTSET" then "NOTSET" else r.levelname
  }

  /** `_add_timediff`. */
  function TimeDiffOf(buffer: seq<Entry>, created: real): (t: TimeDiff)
    ensures t == FirstLog <==> buffer == []
    ensures t.Since? ==> t.seconds == created - buffer[|buffer| - 1].created
  {
    if |buffer| > 0 then Since(created - buffer[|buffer| - 1].created) else FirstLog
  }

  /** `_add_nrepeats`: the " xN" suffix, for important levels repeated at least twice. */
  function RepeatSuffix(levelname: string, count: nat): (s: string)
    ensures s != "" <==> Important(levelname) && count > 1
    ensures s == "" || s == " x" + PyStr.IntToString(count)
  {
    if Important(levelname) && count > 1 then " x" + PyStr.IntToString(count) else ""
  }

  /** `_add_optional_name`. */
  function OptionalName(name: string): (s: string)
    ensures s == "" <==> name in MainFileNames
    ensures s != "" ==> s == " " + name
  {
    if name in MainFileNames then "" else " " + name
  }

  /** The `where` key `_add_extra` adds for important records outside the main file. */
  function Where(levelname: string, r: LogRecord): (w: Option<string>)
    ensures w.Some? <==> Important(levelname) && r.name !in MainFileNames
  {
    if Important(levelname) && r.name !in MainFileNames
    then Some(r.name + " in " + r.pathname + ":" + PyStr.IntToString(r.lineno))
    else None
  }

  function CountAt(repeats: map<(string, int), nat>, pos: (string, int)): nat
  {
    if pos in repeats then repeats[pos] else 0
  }

  /** The decorated record of a kept emit; `count` is the repeat count after this emit. */
  function Decorate(buffer: seq<Entry>, count: nat, levelname: string, r: LogRecord): Decorated
  {
    Decorated(r, levelname, TimeDiffOf(buffer, r.created), RepeatSuffix(levelname, count), OptionalName(r.name), Where(levelname, r))
  }

  // -------------------------------------------------------------- grouping

  /** The (time, entry) values stored for `level`. */
  function ValuesOf(groups: seq<(string, seq<(real, string)>)>, level: string): seq<(real, string)>
  {
    match Lookup(groups, level)
    case Some(vs) => vs
    case None => []
  }

  /** `level2entries`: the buffer grouped by level, levels in first-appearance order. */
  function Group(buffer: seq<Entry>): seq<(string, seq<(real, string)>)>
  {
    if buffer == [] then []
    else
      var g := Group(buffer[..|buffer| - 1]);
      var e := buffer[|buffer| - 1];
      Assign(g, e.level, ValuesOf(g, e.level) + [(e.created, e.text)])
  }

  /** The values of the buffer's entries at one level, in buffer order. */
  function AtLevel(buffer: seq<Entry>, level: string): seq<(real, string)>
  {
    if buffer == [] then []
    else
      var e := buffer[|buffer| - 1];
      AtLevel(buffer[..|buffer| - 1], level) + (if e.level == level then [(e.created, e.text)] else [])
  }

  /** Each level's group holds exactly that level's entries, in order. */
  lemma {:induction false} GroupValues(buffer: seq<Entry>, level: string)
    ensures ValuesOf(Group(buffer), level) == AtLevel(buffer, level)
  {
    if buffer != [] {
      GroupValues(buffer[..|buffer| - 1], level);
    }
  }

  /** Some entry of the buffer is at `level`. */
  predicate HasLevel(buffer: seq<Entry>, level: string)
  {
    exists i :: 0 <= i < |buffer| && buffer[i].level == level
  }

  /** A level has a group exactly when some entry of the buffer is at that level. */
  lemma {:induction false} GroupLevels(buffer: seq<Entry>, level: string)
    ensures Lookup(Group(buffer), level).Some? <==> HasLevel(buffer, level)
  {
    if buffer != [] {
      var p, e := buffer[..|buffer| - 1], buffer[|buffer| - 1];
      assert buffer == p + [e];
      GroupLevels(p, level);
      GroupSnoc(p, e, level);
      HasLevelSnoc(p, e, level);
    }
  }

  /** Appending an entry adds its level's group, if missing, and leaves the other levels alone. */
  lemma GroupSnoc(p: seq<Entry>, e: Entry, level: string)
    ensures Lookup(Group(p + [e]), level).Some? <==> Lookup(Group(p), level).Some? || e.level == level
  {
    assert (p + [e])[..|p|] == p;
  }

  lemma HasLevelSnoc(p: seq<Entry>, e: Entry, level: string)
    ensures HasLevel(p + [e], level) <==> HasLevel(p, level) || e.level == level
  {
    if HasLevel(p, level) {
      var i :| 0 <= i < |p| && p[i].level == level;
      assert (p + [e])[i] == p[i];
    }
    if e.level == level {
      assert (p + [e])[|p|] == e;
    }
    if HasLevel(p + [e], level) {
      var i :| 0 <= i < |p + [e]| && (p + [e])[i].level == level;
      if i < |p| {
        assert p[i] == (p + [e])[i];
      }
    }
  }

  /** The number of values over all groups. */
  function Total(groups: seq<(string, seq<(real, string)>)>): nat
  {
    if groups == [] then 0 else Total(groups[..|groups| - 1]) + |groups[|groups| - 1].1|
  }

  lemma {:induction false} TotalUpdate(groups: seq<(string, seq<(real, string)>)>, k: nat, kv: (string, seq<(real, string)>))
    requires k < |groups|
    ensures Total(groups[k := kv]) == Total(groups) - |groups[k].1| + |kv.1|
  {
    var n := |groups| - 1;
    if k < n {
      assert groups[k := kv][..n] == groups[..n][k := kv];
      TotalUpdate(groups[..n], k, kv);
    } else {
      assert groups[k := kv][..n] == groups[..n];
    }
  }

  lemma TotalAppend(groups: seq<(string, seq<(real, string)>)>, kv: (string, seq<(real, string)>))
    ensures Total(groups + [kv]) == Total(groups) + |kv.1|
  {
    assert (groups + [kv])[..|groups|] == groups;
  }

  /** Grouping drops no entry: the values over all levels number as many as the buffer. */
  lemma {:induction false} GroupTotal(buffer: seq<Entry>)
    ensures Total(Group(buffer)) == |buffer|
  {
    if buffer != [] {
      var p := buffer[..|buffer| - 1];
      GroupTotal(p);
      var g := Group(p);
      var e := buffer[|buffer| - 1];
      var v := ValuesOf(g, e.level) + [(e.created, e.text)];
      match IndexOfKey(g, e.level)
      case Some(k) => TotalUpdate(g, k, (e.level, v));
      case None => TotalAppend(g, (e.level, v));
    }
  }

  /** The streams of a push: the labels with `level` set, one per group. */
  function Streams(labels: seq<(string, string)>, groups: seq<(string, seq<(real, string)>)>): (r: seq<Stream>)
    ensures |r| == |groups|
    ensures forall i :: 0 <= i < |groups| ==> Lookup(r[i].labels, "level") == Some(groups[i].0) && r[i].values == groups[i].1
  {
    if groups == [] then []
    else
      var n := |groups| - 1;
      Streams(labels, groups[..n]) + [Stream(Assign(labels, "level", groups[n].0), groups[n].1)]
  }

  /** The handler. */
  class Loki {
    const labels: seq<(string, string)>
    const mode: string
    const noisy: seq<string>
    const strategy: string
    var buffer: seq<Entry>
    var repeats: map<(string, int), nat>

    constructor (labels: seq<(string, string)>, mode: string, noisy: seq<string>, strategy: string)
      requires |labels| <= MaxLabels
      ensures this.labels == labels && this.mode == mode && this.noisy == noisy && this.strategy == strategy
      ensures buffer == [] && repeats == map[]
    {
      this.labels := labels;
      this.mode := mode;
      this.noisy := noisy;
      this.strategy := strategy;
      buffer := [];
      repeats := map[];
    }

    /**
     * `emit`, with the foreign formatter as `format`. A dropped record changes
     * nothing; any other appends exactly one entry and counts one repeat.
     */
    method Emit(r: LogRecord, format: Decorated -> string)
      modifies this
      ensures Dropped(r, noisy, strategy) ==> buffer == old(buffer) && repeats == old(repeats)
      ensures !Dropped(r, noisy, strategy) ==>
        var pos := (r.pathname, r.lineno);
        var count := CountAt(old(repeats), pos) + 1;
        var level := LevelName(r, noisy, strategy);
        repeats == old(repeats)[pos := count]
        && buffer == old(buffer) + [Entry(r.created, format(Decorate(old(buffer), count, level, r)), PyStr.Lower(level))]
    {
      if Dropped(r, noisy, strategy) {
        return;
      }
      var level := LevelName(r, noisy, strategy);
      var pos := (r.pathname, r.lineno);
      repeats := repeats[pos := CountAt(repeats, pos) + 1];
      var d := Decorate(buffer, repeats[pos], level, r);
      buffer := buffer + [Entry(r.created, format(d), PyStr.Lower(level))];
    }

    /**
     * `push`: `delivered(attempt)` says whether that attempt got a 2xx
     * response. Returns the streams sent; the buffer is cleared only on
     * delivery and the last failure is re-raised.
     */
    method Push(maxRetries: int, delivered: nat -> bool) returns (r: Result<()>, streams: seq<Stream>)
      modifies this
      ensures repeats == old(repeats)
      ensures mode == "console" || old(buffer) == [] ==> r.Ok? && buffer == old(buffer) && streams == []
      ensures mode != "console" && old(buffer) != [] ==> streams == Streams(labels, Group(old(buffer)))
      ensures buffer == old(buffer) || buffer == []
      ensures mode != "console" && old(buffer) != [] ==>
        (buffer == [] <==> exists a :: 1 <= a <= maxRetries && delivered(a))
      ensures r.Err? <==> (mode != "console" && old(buffer) != [] && 1 <= maxRetries
                           && forall a :: 1 <= a <= maxRetries ==> !delivered(a))
    {
      streams := [];
      if mode == "console" || buffer == [] {
        return Ok(()), streams;
      }
      var groups := GroupBuffer(buffer);
      streams := BuildStreams(labels, groups);
      var sent;
      r, sent := Retry(maxRetries, delivered);
      if sent {
        buffer := [];
      }
    }
  }

  /**
   * The retry loop of `push`: attempts 1 to maxRetries in turn until one is
   * delivered. `sent` tells whether one was; when every attempt fails the
   * last failure is raised, and with no attempt at all nothing is.
   */
  method Retry(maxRetries: int, delivered: nat -> bool) returns (r: Result<()>, sent: bool)
    ensures sent <==> exists a :: 1 <= a <= maxRetries && delivered(a)
    ensures sent ==> r.Ok?
    ensures r.Err? <==> 1 <= maxRetries && forall a :: 1 <= a <= maxRetries ==> !delivered(a)
    ensures r.Err? ==> r.error == Raised("Failed to send logs after " + PyStr.IntToString(maxRetries) + " attempts")
  {
    var attempt := 1;
    while attempt <= maxRetries
      invariant 1 <= attempt
      invariant maxRetries >= 1 ==> attempt <= maxRetries
      invariant forall a :: 1 <= a < attempt ==> !delivered(a)
      decreases maxRetries - attempt
    {
      if delivered(attempt) {
        return Ok(()), true;
      }
      if attempt == maxRetries {
        return Err(Raised("Failed to send logs after " + PyStr.IntToString(maxRetries) + " attempts")), false;
      }
      attempt := attempt + 1;
    }
    return Ok(()), false;
  }

  /** The `level2entries` loop. */
  method GroupBuffer(buffer: seq<Entry>) returns (groups: seq<(string, seq<(real, string)>)>)
    ensures groups == Group(buffer)
  {
    groups := [];
    var i := 0;
    while i < |buffer|
      invariant 0 <= i <= |buffer|
      invariant groups == Group(buffer[..i])
    {
      var e := buffer[i];
      assert buffer[..i + 1][..i] == buffer[..i];
      groups := Assign(groups, e.level, ValuesOf(groups, e.level) + [(e.created, e.text)]);
      i := i + 1;
    }
    assert buffer[..|buffer|] == buffer;
  }

  /** The `streams` loop. */
  method BuildStreams(labels: seq<(string, string)>, groups: seq<(string, seq<(real, string)>)>) returns (streams: seq<Stream>)
    ensures streams == Streams(labels, groups)
  {
    streams := [];
    var i := 0;
    while i < |groups|
      invariant 0 <= i <= |groups|
      invariant streams == Streams(labels, groups[..i])
    {
      assert groups[..i + 1][..i] == groups[..i];
      streams := streams + [Stream(Assign(labels, "level", groups[i].0), groups[i].1)];
      i := i + 1;
    }
    assert groups[..|groups|] == groups;
  }

  /** The constructor's label check: more than 15 labels fail the assertion. */
  method NewLoki(labels: seq<(string, string)>, mode: string, noisy: seq<string>, strategy: string) returns (r: Result<Loki>)
    ensures r.Err? <==> |labels| > MaxLabels
    ensures r.Err? ==> r.error == AssertionError
    ensures r.Ok? ==> fresh(r.value) && r.value.labels == labels && r.value.buffer == [] && r.value.repeats == map[]
  {
    if |labels| > MaxLabels {
      return Err(AssertionError);
    }
    var l := new Loki(labels, mode, noisy, strategy);
    return Ok(l);
  }
}

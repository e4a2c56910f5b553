/**
 * The first-generation TraceLogger (src/traceLogger.js). It keeps its
 * caller's trace object instead of copying it, fills in only a missing
 * `current` (never an `id`), names its lowest level 'trace', and writes
 * every record to the console. Its fields are set once, so a logger is a
 * value; a level call yields the lines handed to the console.
 */
module TraceLoggers {
  import opened Js
  import opened Errors
  import opened Functions
  import BaseLogger

  // ----- levels -----

  /** The level names of this logger: 'trace' where the shared table has 'verbose'. */
  function TraceName(l: Level): string {
    if l == Verbose then "trace" else Name(l)
  }

  /** This file's `levels` object. */
  const TraceLevels: Fields := map[
    "trace" := Num(10), "debug" := Num(20), "info" := Num(30),
    "warn" := Num(40), "error" := Num(50), "fatal" := Num(60),
    "10" := Str("trace"), "20" := Str("debug"), "30" := Str("info"),
    "40" := Str("warn"), "50" := Str("error"), "60" := Str("fatal")
  ]

  /** Each name maps to its severity and each severity (as a key) back to the name. */
  lemma TraceLevelTableRoundTrip(l: Level)
    ensures TraceName(l) in TraceLevels && TraceLevels[TraceName(l)] == Num(Severity(l))
    ensures ToJsString(Num(Severity(l))) in TraceLevels
    ensures TraceLevels[ToJsString(Num(Severity(l)))] == Str(TraceName(l))
  {
    DecimalOfSeverity(l);
  }

  /** For a minimum level given by name, filtering is exactly the severity order. */
  lemma TraceFilterFollowsSeverity(l: Level, min: Level)
    ensures BelowMinimum(TraceLevels, Severity(l), Str(TraceName(min))) <==> Severity(l) < Severity(min)
  {
    TraceLevelTableRoundTrip(min);
  }

  /** 'verbose' names no level of this table, so as a minimum it filters nothing. */
  lemma VerboseFiltersNothing(level: int)
    ensures !BelowMinimum(TraceLevels, level, Str("verbose"))
  {
    assert "verbose" !in TraceLevels && "verbose" !in ObjectPrototypeKeys;
  }

  // ----- construction -----

  /**
   * The state the constructor sets: `_name`, `_min_level`, `_trace` (None
   * when built without a trace), `_default_log` and `_options`, which is
   * kept as given (any value).
   */
  datatype TraceLogger = TraceLogger(name: Value, minLevel: Value, trace: Option<Fields>, defaultLog: Fields, options: Value)

  /** `logger._trace` as a JavaScript value. */
  function TraceValue(l: TraceLogger): (v: Value)
    ensures l.trace.None? ==> v == Undefined
    ensures l.trace.Some? ==> v == Obj(l.trace.value)
  {
    if l.trace.Some? then Obj(l.trace.value) else Undefined
  }

  /** `_default_log`: the version field is always the number 0. */
  function DefaultLog(name: Value, host: BaseLogger.Host): (r: Fields)
    ensures r.Keys == {"name", "pid", "hostname", "v"}
    ensures r["name"] == name && r["pid"] == Num(host.pid) && r["hostname"] == Str(host.hostname)
    ensures r["v"] == Num(0)
  {
    map["name" := name, "pid" := Num(host.pid), "hostname" := Str(host.hostname), "v" := Num(0)]
  }

  /**
   * `this._trace = trace; this._trace.current = this._trace.current || rand`:
   * the given trace with `current` filled from the random draw when it is
   * falsy; nothing else, and in particular no `id`, is added.
   */
  function Promote(trace: Value, rand: nat): (t: Fields)
    requires IsObjectLike(trace)
    ensures t.Keys == Spread(trace).Keys + {"current"}
    ensures Truthy(Get(Spread(trace), "current")) ==> t["current"] == Spread(trace)["current"]
    ensures !Truthy(Get(Spread(trace), "current")) ==> t["current"] == Num(rand)
    ensures forall k :: k in t && k != "current" ==> t[k] == Spread(trace)[k]
  {
    Spread(trace)["current" := Or(Get(Spread(trace), "current"), Num(rand))]
  }

  /**
   * `new TraceLogger(name, min_level, trace, options)`, with `rand` the
   * value `bignum.rand(…)` yields. Throws ErrorTraceLogger for a falsy name
   * and a TypeError when `trace` is a truthy primitive (the assignment to
   * its `current` fails in strict code).
   */
  function New(name: Value, minLevel: Value, trace: Value, options: Value, host: BaseLogger.Host, rand: nat): (r: Result<TraceLogger>)
    ensures r.Failure? <==> !Truthy(name) || (Truthy(trace) && !IsObjectLike(trace))
    ensures !Truthy(name) ==> r == Failure(ErrorTraceLogger(MissingName))
    ensures Truthy(name) && r.Failure? ==> r.error == TypeError
    ensures r.Success? ==>
      && r.value.name == name
      && (Truthy(minLevel) ==> r.value.minLevel == minLevel)
      && (!Truthy(minLevel) ==> r.value.minLevel == Str("info"))
      && (r.value.trace.Some? <==> Truthy(trace))
      && (Truthy(trace) ==> r.value.trace.value == Promote(trace, rand))
      && r.value.defaultLog == DefaultLog(name, host)
      && r.value.options == options
  {
    if !Truthy(name) then Failure(ErrorTraceLogger(MissingName))
    else if Truthy(trace) && !IsObjectLike(trace) then Failure(TypeError)
    else
      Success(TraceLogger(name, Or(minLevel, Str("info")),
                          if Truthy(trace) then Some(Promote(trace, rand)) else None,
                          DefaultLog(name, host), options))
  }

  /** `traceId`: null without a trace, else the trace's `id`. */
  function TraceId(l: TraceLogger): (r: Value)
    ensures l.trace.None? ==> r == Null
    ensures l.trace.Some? ==> r == Get(l.trace.value, "id")
  {
    if l.trace.None? then Null else Get(l.trace.value, "id")
  }

  /** `currentId`: null without a trace, else the trace's `current`. */
  function CurrentId(l: TraceLogger): (r: Value)
    ensures l.trace.None? ==> r == Null
    ensures l.trace.Some? ==> r == Get(l.trace.value, "current")
  {
    if l.trace.None? then Null else Get(l.trace.value, "current")
  }

  /** A constructed logger with a trace always has a `current`, and its `id` is only ever the caller's. */
  lemma NewTraceIds(name: Value, minLevel: Value, trace: Value, options: Value, host: BaseLogger.Host, rand: nat)
    requires New(name, minLevel, trace, options, host, rand).Success?
    requires Truthy(trace)
    ensures var l := New(name, minLevel, trace, options, host, rand).value;
      && TraceId(l) == Get(Spread(trace), "id")
      && CurrentId(l) == Or(Get(Spread(trace), "current"), Num(rand))
  {
    assert "id" != "current";
  }

  // ----- derivation -----

  /** `levels[min_level] ? min_level : this._min_level`, against this file's table. */
  function ResolveMinLevel(requested: Value, inherited: Value): (r: Value)
    ensures Truthy(Lookup(TraceLevels, requested)) ==> r == requested
    ensures !Truthy(Lookup(TraceLevels, requested)) ==> r == inherited
  {
    if Truthy(Lookup(TraceLevels, requested)) then requested else inherited
  }

  /** `Object.assign({}, this._options, options)` */
  function MergedOptions(kept: Value, options: Value): (r: Value)
    ensures r.Obj?
    ensures forall k :: k in r.fields <==> k in Spread(kept) || k in Spread(options)
    ensures forall k :: k in Spread(options) ==> r.fields[k] == Spread(options)[k]
    ensures forall k :: k in Spread(kept) && k !in Spread(options) ==> r.fields[k] == Spread(kept)[k]
  {
    Obj(Spread(kept) + Spread(options))
  }

  /**
   * `createRootTraceLogger(name, min_level, trace, options)`: a copy of the
   * given trace (always an object, so the new logger is always traced), the
   * parent's name and minimum level when the call's are missing or unknown.
   */
  function CreateRootTraceLogger(l: TraceLogger, name: Value, minLevel: Value, trace: Value, options: Value,
                                 host: BaseLogger.Host, rand: nat): (r: Result<TraceLogger>)
    ensures Truthy(name) || Truthy(l.name) ==> r.Success?
    ensures r.Success? ==>
      && r.value.name == Or(name, l.name)
      && r.value.minLevel == Or(ResolveMinLevel(minLevel, l.minLevel), Str("info"))
      && r.value.trace == Some(Promote(Obj(Spread(trace)), rand))
      && r.value.options == MergedOptions(l.options, options)
  {
    New(Or(name, l.name), ResolveMinLevel(minLevel, l.minLevel), Obj(Spread(trace)),
        MergedOptions(l.options, options), host, rand)
  }

  /**
   * The trace a child starts from: the parent's trace without `current`,
   * `parent` set to the parent's `current`, and `tags` replaced only by
   * truthy tags.
   */
  function ChildTrace(parent: Fields, tags: Value): (t: Fields)
    ensures t.Keys == (parent.Keys - {"current"}) + {"parent"} + (if Truthy(tags) then {"tags"} else {})
    ensures t["parent"] == Get(parent, "current")
    ensures Truthy(tags) ==> t["tags"] == tags
    ensures forall k :: k in t && k != "parent" && (k != "tags" || !Truthy(tags)) ==> t[k] == parent[k]
  {
    var t := (parent - {"current"})["parent" := Get(parent, "current")];
    if Truthy(tags) then t["tags" := tags] else t
  }

  /**
   * `createChildTraceLogger(name, min_level, tags, options)`: throws
   * ErrorTraceLogger on a logger without a trace; the minimum level is
   * inherited when falsy, without a validity check.
   */
  function CreateChildTraceLogger(l: TraceLogger, name: Value, minLevel: Value, tags: Value, options: Value,
                                  host: BaseLogger.Host, rand: nat): (r: Result<TraceLogger>)
    ensures l.trace.None? ==> r == Failure(ErrorTraceLogger(NoParentTraceLegacy))
    ensures l.trace.Some? && (Truthy(name) || Truthy(l.name)) ==> r.Success?
    ensures r.Success? ==>
      && l.trace.Some?
      && r.value.name == Or(name, l.name)
      && r.value.minLevel == Or(Or(minLevel, l.minLevel), Str("info"))
      && r.value.trace == Some(Promote(Obj(ChildTrace(l.trace.value, tags)), rand))
      && r.value.options == MergedOptions(l.options, options)
  {
    if l.trace.None? then Failure(ErrorTraceLogger(NoParentTraceLegacy))
    else New(Or(name, l.name), Or(minLevel, l.minLevel), Obj(ChildTrace(l.trace.value, tags)),
             MergedOptions(l.options, options), host, rand)
  }

  /**
   * A child keeps its parent's root `id`, records the parent's `current`
   * as its `parent`, and takes a fresh `current` from the draw.
   */
  lemma ChildLinksToParent(l: TraceLogger, name: Value, minLevel: Value, tags: Value, options: Value,
                           host: BaseLogger.Host, rand: nat)
    requires l.trace.Some? && Truthy(l.name)
    ensures var c := CreateChildTraceLogger(l, name, minLevel, tags, options, host, rand).value;
      && c.trace.Some?
      && TraceId(c) == TraceId(l)
      && Get(c.trace.value, "parent") == CurrentId(l)
      && CurrentId(c) == Num(rand)
  {
    var r := CreateChildTraceLogger(l, name, minLevel, tags, options, host, rand);
    assert r.Success?;
    PromotedChildTrace(l.trace.value, tags, rand);
  }

  /** The trace a child is built with: the parent's id, the parent's `current` as `parent`, a fresh `current`. */
  lemma PromotedChildTrace(parent: Fields, tags: Value, rand: nat)
    ensures var p := Promote(Obj(ChildTrace(parent, tags)), rand);
      && Get(p, "id") == Get(parent, "id")
      && Get(p, "parent") == Get(parent, "current")
      && Get(p, "current") == Num(rand)
  {
    var t := ChildTrace(parent, tags);
    assert "current" !in t && Spread(Obj(t)) == t;
    assert Get(t, "id") == Get(parent, "id");
  }

  /** `getHeaders`: throws without a trace or with nullish options; headers override the ids. */
  function GetHeaders(l: TraceLogger): (r: Result<Fields>)
    ensures r.Failure? <==> l.trace.None? || Nullish(l.options)
    ensures r.Failure? ==> r.error == TypeError
    ensures r.Success? ==>
      var headers := Spread(GetProp(l.options, "headers"));
      && r.value.Keys == {"x-cloud-trace-context", "x-trace-parent-id"} + headers.Keys
      && (forall k :: k in headers ==> r.value[k] == headers[k])
      && ("x-cloud-trace-context" !in headers ==> r.value["x-cloud-trace-context"] == TraceId(l))
      && ("x-trace-parent-id" !in headers ==> r.value["x-trace-parent-id"] == CurrentId(l))
  {
    if l.trace.None? || Nullish(l.options) then Failure(TypeError)
    else
      var t := l.trace.value;
      Success(map["x-cloud-trace-context" := Get(t, "id"), "x-trace-parent-id" := Get(t, "current")]
              + Spread(GetProp(l.options, "headers")))
  }

  // ----- writing -----

  /** `build_trace_object`: the shared merge; the `disable_trace_logging` flag is read only from truthy options. */
  function TraceFor(l: TraceLogger, trace: Value, tags: Value): (r: Option<Fields>)
    ensures !Truthy(l.options) ==> (r.Some? <==> l.trace.Some? && Truthy(Get(l.trace.value, "id")))
    ensures r.Some? <==>
      && !(Truthy(l.options) && Truthy(GetProp(l.options, "disable_trace_logging")))
      && l.trace.Some? && Truthy(Get(l.trace.value, "id"))
  {
    BuildTraceObject(Truthy(l.options) && Truthy(GetProp(l.options, "disable_trace_logging")), TraceValue(l), trace, tags)
  }

  /**
   * `Object.assign({}, default_log, { time, level, msg }, obj)`: all of
   * `obj` is copied, `trace` and `tags` included.
   */
  function MergeRecord(defaults: Fields, msg: Value, obj: Value, level: int, now: Value): (r: Fields)
    ensures var extras := Spread(obj);
      && (forall k :: k in r <==> k in defaults || k in extras || k == "time" || k == "level" || k == "msg")
      && (forall k :: k in extras ==> r[k] == extras[k])
      && ("time" !in extras ==> r["time"] == now)
      && ("level" !in extras ==> r["level"] == Num(level))
      && ("msg" !in extras ==> r["msg"] == msg)
      && (forall k :: k in defaults && k !in extras && k != "time" && k != "level" && k != "msg" ==> r[k] == defaults[k])
  {
    defaults + map["time" := now, "level" := Num(level), "msg" := msg] + Spread(obj)
  }

  /** The record `write_log` prints: the merge, with `trace` replaced when a trace object is built. */
  function Record(l: TraceLogger, msg: Value, obj: Value, trace: Value, tags: Value, level: int, now: Value): (r: Fields)
    ensures var log := MergeRecord(l.defaultLog, msg, obj, level, now);
      && (forall k :: k != "trace" ==> (k in r <==> k in log))
      && (forall k :: k in r && k != "trace" ==> r[k] == log[k])
    ensures TraceFor(l, trace, tags).Some? ==> "trace" in r && r["trace"] == Obj(TraceFor(l, trace, tags).value)
    ensures TraceFor(l, trace, tags).None? ==> r == MergeRecord(l.defaultLog, msg, obj, level, now)
  {
    var log := MergeRecord(l.defaultLog, msg, obj, level, now);
    var t := TraceFor(l, trace, tags);
    if t.Some? then log["trace" := Obj(t.value)] else log
  }

  /** `console.log` or `console.error`. */
  datatype Stream = ConsoleLog | ConsoleError

  /** One call of the stream with a record's JSON. */
  datatype Line = Line(stream: Stream, record: Fields)

  /** The stream a level method passes: `console.error` for error and fatal. */
  function StreamFor(level: Level): (s: Stream)
    ensures s == ConsoleError <==> level == Error || level == Fatal
  {
    if level == Error || level == Fatal then ConsoleError else ConsoleLog
  }

  /**
   * `trace` … `fatal` (`msg, obj, trace, tags`): nothing below the minimum
   * level of this file's table, else one line on the level's stream.
   */
  function Log(l: TraceLogger, level: Level, msg: Value, obj: Value, trace: Value, tags: Value, now: Value): (r: seq<Line>)
    ensures BelowMinimum(TraceLevels, Severity(level), l.minLevel) ==> r == []
    ensures !BelowMinimum(TraceLevels, Severity(level), l.minLevel) ==>
      r == [Line(StreamFor(level), Record(l, msg, obj, trace, tags, Severity(level), now))]
  {
    if BelowMinimum(TraceLevels, Severity(level), l.minLevel) then []
    else [Line(StreamFor(level), Record(l, msg, obj, trace, tags, Severity(level), now))]
  }

  /** A logger whose trace has no truthy `id` adds no trace object to any record. */
  lemma IdlessNeverTraces(l: TraceLogger, msg: Value, obj: Value, trace: Value, tags: Value, level: int, now: Value)
    requires !Truthy(TraceId(l))
    ensures Record(l, msg, obj, trace, tags, level, now) == MergeRecord(l.defaultLog, msg, obj, level, now)
  {
    assert !Truthy(GetProp(TraceValue(l), "id"));
  }

  /**
   * This logger never mints a root id: a root-trace logger built from a
   * trace without a truthy `id` adds no trace object to any record, whatever
   * the call's trace and tags.
   */
  lemma RootWithoutIdNeverTraces(l: TraceLogger, name: Value, minLevel: Value, trace: Value, options: Value,
                                 host: BaseLogger.Host, rand: nat,
                                 msg: Value, obj: Value, callTrace: Value, tags: Value, level: int, now: Value)
    requires CreateRootTraceLogger(l, name, minLevel, trace, options, host, rand).Success?
    requires !Truthy(Get(Spread(trace), "id"))
    ensures var r := CreateRootTraceLogger(l, name, minLevel, trace, options, host, rand).value;
      Record(r, msg, obj, callTrace, tags, level, now) == MergeRecord(r.defaultLog, msg, obj, level, now)
  {
    var r := CreateRootTraceLogger(l, name, minLevel, trace, options, host, rand).value;
    assert TraceId(r) == Get(Spread(trace), "id") by {
      assert r.trace.value == Promote(Obj(Spread(trace)), rand);
    }
    IdlessNeverTraces(r, msg, obj, callTrace, tags, level, now);
  }

  /** A child of a logger whose trace has no truthy `id` adds no trace object either. */
  lemma ChildOfIdlessNeverTraces(l: TraceLogger, name: Value, minLevel: Value, tags: Value, options: Value,
                                 host: BaseLogger.Host, rand: nat,
                                 msg: Value, obj: Value, callTrace: Value, callTags: Value, level: int, now: Value)
    requires l.trace.Some? && Truthy(l.name) && !Truthy(TraceId(l))
    ensures var c := CreateChildTraceLogger(l, name, minLevel, tags, options, host, rand).value;
      Record(c, msg, obj, callTrace, callTags, level, now) == MergeRecord(c.defaultLog, msg, obj, level, now)
  {
    ChildLinksToParent(l, name, minLevel, tags, options, host, rand);
    var c := CreateChildTraceLogger(l, name, minLevel, tags, options, host, rand).value;
    IdlessNeverTraces(c, msg, obj, callTrace, callTags, level, now);
  }
}

/**
 * The earlier, self-contained HoodLogger (src/hoodLogger.js). Its level
 * table, filter, trace merge, record assembly and derivations are the shared
 * core's; it differs in minting missing trace ids from the template
 * `yxxxxxxxxxxxxxxxxxx` and in writing each record to one of two streams.
 * Like BaseLogger its fields are set once, so a logger is a value; a write
 * yields the line handed to a stream.
 */
module HoodLoggers {
  import opened Js
  import opened Errors
  import opened Functions
  import opened BaseLogger

  /** The template filled for a missing trace `id` or `current`. */
  const IdTemplate: string := "y" + Xs(18)

  /** `n` copies of the placeholder 'x'. */
  function Xs(n: nat): (s: string)
    ensures |s| == n && forall i :: 0 <= i < n ==> s[i] == 'x'
  {
    if n == 0 then "" else "x" + Xs(n - 1)
  }

  /** The template as the source spells it. */
  lemma IdTemplateSpelling()
    ensures IdTemplate == "yxxxxxxxxxxxxxxxxxx"
  {
  }

  /** Clock readings and random draws for the two template ids a constructor may need. */
  datatype TemplateEntropy = TemplateEntropy(rootNow: nat, rootDraws: seq<real>, spanNow: nat, spanDraws: seq<real>)

  predicate TemplateFits(e: TemplateEntropy) {
    && |e.rootDraws| == |IdTemplate| && UnitInterval(e.rootDraws)
    && |e.spanDraws| == |IdTemplate| && UnitInterval(e.spanDraws)
  }

  /** `getRandomStringId('yxxxxxxxxxxxxxxxxxx')`, once for `id` and once for `current`. */
  function TemplateIds(e: TemplateEntropy): (f: FreshIds)
    requires TemplateFits(e)
    ensures f.root.Str? && |f.root.s| == |IdTemplate| && f.span.Str? && |f.span.s| == |IdTemplate|
  {
    FreshIds(Str(FillTemplate(IdTemplate, NatToDecimal(e.rootNow), e.rootDraws, 0)),
             Str(FillTemplate(IdTemplate, NatToDecimal(e.spanNow), e.spanDraws, 0)))
  }

  /** Nineteen decimal digits, the first of them 0-8. */
  predicate IsTemplateId(v: Value) {
    && v.Str? && |v.s| == 19 && '0' <= v.s[0] <= '8'
    && forall i :: 1 <= i < 19 ==> '0' <= v.s[i] <= '9'
  }

  /**
   * A filled id template of one 'y' and eighteen 'x's: 'y' gives a digit
   * 0-8 and each 'x' a digit 0-9; the clock is not used.
   */
  lemma TemplateIdShape(template: string, timestamp: string, draws: seq<real>)
    requires |template| == 19 && template[0] == 'y'
    requires forall i :: 1 <= i < 19 ==> template[i] == 'x'
    requires |draws| == |template| && UnitInterval(draws)
    ensures IsTemplateId(Str(FillTemplate(template, timestamp, draws, 0)))
  {
    var id := FillTemplate(template, timestamp, draws, 0);
    FillTemplateAt(template, timestamp, draws, 0, 0);
    forall i | 1 <= i < 19
      ensures '0' <= id[i] <= '9'
    {
      FillTemplateAt(template, timestamp, draws, 0, i);
    }
  }

  /** Both ids `TemplateIds` mints have the template shape. */
  lemma TemplateIdsShape(e: TemplateEntropy)
    requires TemplateFits(e)
    ensures IsTemplateId(TemplateIds(e).root) && IsTemplateId(TemplateIds(e).span)
  {
    TemplateIdShape(IdTemplate, NatToDecimal(e.rootNow), e.rootDraws);
    TemplateIdShape(IdTemplate, NatToDecimal(e.spanNow), e.spanDraws);
  }

  /** Where a record's JSON goes: `console.log`, `console.error`, or an injected stream. */
  datatype Sink = ConsoleLog | ConsoleError | Injected(stream: Value)

  /** `restOptions.logStream || console.log` (and likewise for errStream). */
  function StreamOption(v: Value, fallback: Sink): (s: Sink)
    ensures Truthy(v) ==> s == Injected(v)
    ensures !Truthy(v) ==> s == fallback
  {
    if Truthy(v) then Injected(v) else fallback
  }

  /** A HoodLogger: the BaseLogger state plus `_logStream` and `_errStream`. */
  datatype HoodLogger = HoodLogger(core: Logger, logStream: Sink, errStream: Sink)

  /** The streams are the ones named by the retained options, or the console's. */
  predicate StreamsFromOptions(l: HoodLogger) {
    && l.logStream == StreamOption(Get(l.core.options, "logStream"), ConsoleLog)
    && l.errStream == StreamOption(Get(l.core.options, "errStream"), ConsoleError)
  }

  /**
   * `new HoodLogger(name, options)`: the BaseLogger constructor's checks and
   * state, with template ids, and the two streams.
   */
  function New(name: Value, options: Fields, host: Host, e: TemplateEntropy): (r: Result<HoodLogger>)
    requires TemplateFits(e)
    ensures r.Failure? <==> Construct(name, options, host, TemplateIds(e)).Failure?
    ensures r.Failure? ==> r.error == Construct(name, options, host, TemplateIds(e)).error
    ensures r.Success? ==>
      && r.value.core == Construct(name, options, host, TemplateIds(e)).value
      && StreamsFromOptions(r.value)
      && r.value.logStream == StreamOption(Get(options, "logStream"), ConsoleLog)
      && r.value.errStream == StreamOption(Get(options, "errStream"), ConsoleError)
  {
    var c := Construct(name, options, host, TemplateIds(e));
    if c.Failure? then Failure(c.error)
    else
      var rest := c.value.options;
      RetainedKeepsStreams(options);
      Success(HoodLogger(c.value, StreamOption(Get(rest, "logStream"), ConsoleLog),
                         StreamOption(Get(rest, "errStream"), ConsoleError)))
  }

  /** The stream options survive the constructor's destructuring. */
  lemma RetainedKeepsStreams(options: Fields)
    ensures Get(Retained(options), "logStream") == Get(options, "logStream")
    ensures Get(Retained(options), "errStream") == Get(options, "errStream")
  {
  }

  /**
   * With an object trace option and no truthy `id`, the root id is a
   * template id; likewise `current`.
   */
  lemma NewTemplateTraceIds(name: Value, options: Fields, host: Host, e: TemplateEntropy)
    requires TemplateFits(e) && Truthy(name) && IsObjectLike(Get(options, "trace"))
    ensures New(name, options, host, e).Success?
    ensures var l := New(name, options, host, e).value;
            var given := Spread(Get(options, "trace"));
      && l.core.trace.Some?
      && (!Truthy(Get(given, "id")) ==> IsTemplateId(RootTraceId(l.core)))
      && (!Truthy(Get(given, "current")) ==> IsTemplateId(CurrentTraceId(l.core)))
  {
    TemplateIdsShape(e);
  }

  /** `createRootTraceLogger`: the shared root derivation, built as a HoodLogger. */
  function CreateRootTraceLogger(l: HoodLogger, name: Value, options: Fields, host: Host, e: TemplateEntropy): (r: Result<HoodLogger>)
    requires TemplateFits(e)
    ensures r.Failure? <==> DeriveRoot(l.core, name, options, host, TemplateIds(e)).Failure?
    ensures r.Failure? ==> r.error == DeriveRoot(l.core, name, options, host, TemplateIds(e)).error
    ensures r.Success? ==> r.value.core == DeriveRoot(l.core, name, options, host, TemplateIds(e)).value
    ensures r.Success? ==> StreamsFromOptions(r.value)
  {
    New(name, RootTraceOptions(l.core, options), host, e)
  }

  /** `createChildTraceLogger`: the shared child derivation, built as a HoodLogger. */
  function CreateChildTraceLogger(l: HoodLogger, name: Value, options: Fields, host: Host, e: TemplateEntropy): (r: Result<HoodLogger>)
    requires TemplateFits(e)
    ensures r.Failure? <==> DeriveChild(l.core, name, options, host, TemplateIds(e)).Failure?
    ensures r.Failure? ==> r.error == DeriveChild(l.core, name, options, host, TemplateIds(e)).error
    ensures l.core.trace.None? ==> r == Failure(ErrorHoodLogger(NoParentTrace))
    ensures r.Success? ==> r.value.core == DeriveChild(l.core, name, options, host, TemplateIds(e)).value
    ensures r.Success? ==> StreamsFromOptions(r.value)
  {
    var o := ChildTraceOptions(l.core, options);
    if o.Failure? then Failure(o.error) else New(name, o.value, host, e)
  }

  /** Derived options without their own streams keep the ones the parent retained. */
  lemma DerivedStreams(kept: Fields, options: Fields, minLevel: Value, trace: Value)
    requires "logStream" !in options && "errStream" !in options
    ensures var r := Retained(DerivedOptions(kept, options, minLevel, trace));
      Get(r, "logStream") == Get(kept, "logStream") && Get(r, "errStream") == Get(kept, "errStream")
  {
  }

  /**
   * A root-trace logger writes where its parent writes unless the call's
   * options name another stream: the streams travel in the retained options.
   */
  lemma RootKeepsStreams(l: HoodLogger, name: Value, options: Fields, host: Host, e: TemplateEntropy)
    requires TemplateFits(e) && StreamsFromOptions(l)
    requires "logStream" !in options && "errStream" !in options
    ensures var r := CreateRootTraceLogger(l, name, options, host, e);
            r.Success? ==> r.value.logStream == l.logStream && r.value.errStream == l.errStream
  {
    DerivedStreams(l.core.options, options, ResolveMinLevel(Get(options, "minLevel"), l.core.minLevel),
                   RootTrace(l.core.options, options));
  }

  /** Likewise for a child-trace logger. */
  lemma ChildKeepsStreams(l: HoodLogger, name: Value, options: Fields, host: Host, e: TemplateEntropy)
    requires TemplateFits(e) && StreamsFromOptions(l)
    requires "logStream" !in options && "errStream" !in options
    ensures var r := CreateChildTraceLogger(l, name, options, host, e);
            r.Success? ==> r.value.logStream == l.logStream && r.value.errStream == l.errStream
  {
    if l.core.trace.Some? {
      DerivedStreams(l.core.options, options, ResolveMinLevel(Get(options, "minLevel"), l.core.minLevel),
                     Obj(ChildTrace(l.core.trace.value, Get(options, "trace"))));
    }
  }

  /** The stream a level method passes: `_errStream` for error and fatal, `_logStream` otherwise. */
  function SinkFor(l: HoodLogger, level: Level): (s: Sink)
    ensures level == Error || level == Fatal ==> s == l.errStream
    ensures level != Error && level != Fatal ==> s == l.logStream
  {
    if level == Error || level == Fatal then l.errStream else l.logStream
  }

  /** `stream(JSON.stringify(log))`: the record handed to a sink. */
  datatype Line = Line(sink: Sink, record: Fields)

  /** Calling an injected stream that is not a function throws a TypeError. */
  function Write(sink: Sink, record: Fields): (r: Result<Line>)
    ensures r.Failure? <==> sink.Injected? && !sink.stream.Fn?
    ensures r.Failure? ==> r.error == TypeError
    ensures r.Success? ==> r.value == Line(sink, record)
  {
    if sink.Injected? && !sink.stream.Fn? then Failure(TypeError) else Success(Line(sink, record))
  }

  /** `verbose` … `fatal`: nothing below the minimum level, else one line on the level's stream. */
  function Log(l: HoodLogger, level: Level, msg: Value, options: Fields, now: Value): (r: Result<seq<Line>>)
    requires "trace" !in l.core.defaultLog
    ensures BelowMinimum(Levels, Severity(level), l.core.minLevel) ==> r == Success([])
    ensures !BelowMinimum(Levels, Severity(level), l.core.minLevel) ==>
      var w := Write(SinkFor(l, level), CreateDefaultLogObject(l.core, msg, options, Severity(level), now));
      && (r.Failure? <==> w.Failure?)
      && (r.Success? ==> r.value == [w.value])
  {
    var call := WriteLogWithLevel(l.core.minLevel, msg, options, Severity(level));
    if call.None? then Success([])
    else
      var w := Write(SinkFor(l, level), CreateDefaultLogObject(l.core, call.value.msg, call.value.options, call.value.level, now));
      if w.Failure? then Failure(w.error) else Success([w.value])
  }

  /** How many lines one level call writes when its stream can be called. */
  lemma LogLines(l: HoodLogger, level: Level, msg: Value, options: Fields, now: Value)
    requires "trace" !in l.core.defaultLog
    requires !SinkFor(l, level).Injected? || SinkFor(l, level).stream.Fn?
    ensures var r := Log(l, level, msg, options, now);
      && r.Success?
      && |r.value| == (if BelowMinimum(Levels, Severity(level), l.core.minLevel) then 0 else 1)
      && (|r.value| == 1 ==> r.value[0].sink == SinkFor(l, level))
  {
  }

  /**
   * With two injected function streams and the default minimum level,
   * `info`, `error` and `debug` write two lines: the first to the log
   * stream, the second to the error stream.
   */
  lemma InfoErrorDebugWriteTwoLines(l: HoodLogger, now: Value)
    requires "trace" !in l.core.defaultLog && l.core.minLevel == Str("info")
    requires l.logStream.Injected? && l.logStream.stream.Fn?
    requires l.errStream.Injected? && l.errStream.stream.Fn?
    ensures OneLineOn(Log(l, Info, Str("info"), map[], now), l.logStream)
    ensures OneLineOn(Log(l, Error, Str("error"), map[], now), l.errStream)
    ensures Log(l, Debug, Str("debug"), map[], now) == Success([])
  {
    assert SinkFor(l, Info) == l.logStream && SinkFor(l, Error) == l.errStream;
    DefaultLevelLog(l, Info, Str("info"), now);
    DefaultLevelLog(l, Error, Str("error"), now);
    DefaultLevelLog(l, Debug, Str("debug"), now);
  }

  /** A level call that succeeds with exactly one line, written to `sink`. */
  predicate OneLineOn(r: Result<seq<Line>>, sink: Sink) {
    r.Success? && |r.value| == 1 && r.value[0].sink == sink
  }

  /** One level call at the default minimum: no line for verbose and debug, else one on the level's stream. */
  lemma DefaultLevelLog(l: HoodLogger, level: Level, msg: Value, now: Value)
    requires "trace" !in l.core.defaultLog && l.core.minLevel == Str("info")
    requires !SinkFor(l, level).Injected? || SinkFor(l, level).stream.Fn?
    ensures level == Verbose || level == Debug ==> Log(l, level, msg, map[], now) == Success([])
    ensures level != Verbose && level != Debug ==> OneLineOn(Log(l, level, msg, map[], now), SinkFor(l, level))
  {
    DefaultThreshold(level);
    LogLines(l, level, msg, map[], now);
  }

  /** `end`: one unfiltered info line on the log stream, its trace carrying `status: 'end'`. */
  function End(l: HoodLogger, msg: Value, options: Fields, now: Value): (r: Result<Line>)
    requires "trace" !in l.core.defaultLog
    ensures BaseLogger.End(msg, options).Failure? ==> r == Failure(TypeError)
    ensures BaseLogger.End(msg, options).Success? ==>
      var c := BaseLogger.End(msg, options).value;
      r == Write(l.logStream, CreateDefaultLogObject(l.core, msg, c.options, Severity(Info), now))
  {
    var c := BaseLogger.End(msg, options);
    if c.Failure? then Failure(c.error)
    else Write(l.logStream, CreateDefaultLogObject(l.core, c.value.msg, c.value.options, c.value.level, now))
  }

  /** `complete`: one unfiltered info line on the log stream, its trace carrying `status: 'complete'`. */
  function Complete(l: HoodLogger, msg: Value, options: Fields, now: Value): (r: Result<Line>)
    requires "trace" !in l.core.defaultLog
    ensures BaseLogger.Complete(msg, options).Failure? ==> r == Failure(TypeError)
    ensures BaseLogger.Complete(msg, options).Success? ==>
      var c := BaseLogger.Complete(msg, options).value;
      r == Write(l.logStream, CreateDefaultLogObject(l.core, msg, c.options, Severity(Info), now))
  {
    var c := BaseLogger.Complete(msg, options);
    if c.Failure? then Failure(c.error)
    else Write(l.logStream, CreateDefaultLogObject(l.core, c.value.msg, c.value.options, c.value.level, now))
  }

  /**
   * `end` on a traced logger with a callable (or console) log stream writes
   * one line to the log stream whose trace has `status: 'end'`.
   */
  lemma EndWritesStatus(l: HoodLogger, msg: Value, options: Fields, now: Value)
    requires "trace" !in l.core.defaultLog
    requires !l.logStream.Injected? || l.logStream.stream.Fn?
    requires IsObjectLike(Get(options, "trace")) || !Truthy(Get(options, "trace"))
    requires l.core.trace.Some? && Truthy(Get(l.core.trace.value, "id"))
    requires !Truthy(Get(l.core.options, "disableTraceLogging"))
    ensures End(l, msg, options, now).Success?
    ensures var line := End(l, msg, options, now).value;
            && line.sink == l.logStream
            && "trace" in line.record && line.record["trace"].Obj?
            && "status" in line.record["trace"].fields && line.record["trace"].fields["status"] == Str("end")
  {
    StatusTagsTrace(l.core, msg, options, "end", now);
  }

  /** The same for `complete`, with `status: 'complete'`. */
  lemma CompleteWritesStatus(l: HoodLogger, msg: Value, options: Fields, now: Value)
    requires "trace" !in l.core.defaultLog
    requires !l.logStream.Injected? || l.logStream.stream.Fn?
    requires IsObjectLike(Get(options, "trace")) || !Truthy(Get(options, "trace"))
    requires l.core.trace.Some? && Truthy(Get(l.core.trace.value, "id"))
    requires !Truthy(Get(l.core.options, "disableTraceLogging"))
    ensures Complete(l, msg, options, now).Success?
    ensures var line := Complete(l, msg, options, now).value;
            && line.sink == l.logStream
            && "trace" in line.record && line.record["trace"].Obj?
            && "status" in line.record["trace"].fields && line.record["trace"].fields["status"] == Str("complete")
  {
    StatusTagsTrace(l.core, msg, options, "complete", now);
  }
}

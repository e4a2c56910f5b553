/**
 * The remote backend (src/loggers/remoteLogger.js). Every RemoteLogger
 * derived from a root instance writes into the root's buffer: the root keeps
 * the records, their accumulated JSON size and a flush counter, and a flush
 * that is due hands the whole buffer to the root's HTTP client in one post.
 *
 * The buffer arithmetic is specified by functions on a `Buffer` value
 * (FlushStep, AppendStep, Run); the class methods are proved to update the
 * root's fields exactly as those functions say.
 */
module RemoteLoggers {
  import opened Js
  import opened Errors
  import opened Functions
  import opened BaseLogger

  /**
   * A flush threshold as `x >= max` sees it: a numeric maximum, or one that
   * converts to NaN, which no counter or size ever reaches.
   */
  datatype Threshold = AtLeast(n: int) | Never

  /** `options.maxX || default`, as the `>=` comparison converts it to a number. */
  function ThresholdOf(v: Value, default: int): (t: Threshold)
    ensures !Truthy(v) ==> t == AtLeast(default)
    ensures Truthy(v) && v.Num? ==> t == AtLeast(v.n)
    ensures v == Bool(true) ==> t == AtLeast(1)
    ensures Truthy(v) && v.Str? && AllDigits(v.s) ==> t == AtLeast(DecimalValue(v.s))
    ensures Truthy(v) && v.Str? && !AllDigits(v.s) ==> t == Never
    ensures Truthy(v) && (v.Obj? || v.Fn?) ==> t == Never
  {
    if !Truthy(v) then AtLeast(default)
    else match v
      case Num(n) => AtLeast(n)
      case Bool(_) => AtLeast(1)
      case Str(s) => if AllDigits(s) then AtLeast(DecimalValue(s)) else Never
      case _ => Never
  }

  /** A threshold given as a decimal string counts like the number it spells. */
  lemma DecimalStringThreshold(n: nat, default: int)
    ensures ThresholdOf(Str(NatToDecimal(n)), default) == AtLeast(n)
  {
    DecimalRoundTrip(n);
  }

  predicate Reached(x: int, t: Threshold) {
    t.AtLeast? && x >= t.n
  }

  /** `_maxFlushCounter` and `_maxPayloadSize` of a root logger. */
  datatype Limits = Limits(maxFlushCounter: Threshold, maxPayloadSize: Threshold)

  /** A root's limits: at most 10 flush calls and 100000 characters of JSON by default. */
  function LimitsOf(options: Fields): (lim: Limits)
    ensures Get(options, "maxFlushCounter") == Undefined ==> lim.maxFlushCounter == AtLeast(10)
    ensures Get(options, "maxPayloadSize") == Undefined ==> lim.maxPayloadSize == AtLeast(100000)
    ensures lim.maxFlushCounter == ThresholdOf(Get(options, "maxFlushCounter"), 10)
    ensures lim.maxPayloadSize == ThresholdOf(Get(options, "maxPayloadSize"), 100000)
  {
    Limits(ThresholdOf(Get(options, "maxFlushCounter"), 10), ThresholdOf(Get(options, "maxPayloadSize"), 100000))
  }

  /** A root's buffer: `_logs`, `_currentPayloadSize` and `_flushCounter`. */
  datatype Buffer = Buffer(logs: seq<Fields>, size: int, counter: int)

  const Empty := Buffer([], 0, 0)

  /** The summed `JSON.stringify(log).length` of the buffered records. */
  function TotalLength(logs: seq<Fields>, jsonLength: Fields -> nat): nat {
    if logs == [] then 0 else TotalLength(logs[..|logs| - 1], jsonLength) + jsonLength(logs[|logs| - 1])
  }

  /** The buffer's size is the JSON size of exactly the records it holds. */
  predicate Accounted(b: Buffer, jsonLength: Fields -> nat) {
    b.size == TotalLength(b.logs, jsonLength) && b.counter >= 0
  }

  /** `httpClientWrapper.post(url, payload, options)`; the payload is the records' JSON array. */
  datatype PostCall = PostCall(url: Value, payload: seq<Fields>, options: Value)

  /**
   * What a flush call does: nothing yet, a post, or a TypeError (a rejected
   * promise) after the buffer was already cleared, which loses the records.
   */
  datatype FlushOutcome = Held | Posted(call: PostCall) | Rejected(error: LoggerError, lost: seq<Fields>)

  /** The records a flush took out of the buffer. */
  function Sent(o: FlushOutcome): seq<Fields> {
    match o
    case Held => []
    case Posted(call) => call.payload
    case Rejected(_, lost) => lost
  }

  /**
   * `const { url, options } = config; return client.post(url, payload, options)`:
   * destructuring a nullish config and calling a missing `post` throw.
   */
  function Post(client: Value, config: Value, payload: seq<Fields>): (o: FlushOutcome)
    ensures o.Rejected? <==> Nullish(config) || !GetProp(client, "post").Fn?
    ensures o.Rejected? ==> o.error == TypeError
    ensures o.Posted? ==> o.call.url == GetProp(config, "url") && o.call.options == GetProp(config, "options")
    ensures o != Held && Sent(o) == payload
  {
    if Nullish(config) || !GetProp(client, "post").Fn? then Rejected(TypeError, payload)
    else Posted(PostCall(GetProp(config, "url"), payload, GetProp(config, "options")))
  }

  datatype FlushResult = FlushResult(buffer: Buffer, outcome: FlushOutcome)

  /**
   * `flush` on a root: the counter is bumped; unless it reached its maximum
   * or the size reached its maximum, nothing else happens. Otherwise the
   * whole buffer goes out in one post and counter, size and records reset.
   */
  function FlushStep(b: Buffer, limits: Limits, client: Value, config: Value): (r: FlushResult)
    ensures var proceed := Reached(b.counter + 1, limits.maxFlushCounter) || Reached(b.size, limits.maxPayloadSize);
      && (!proceed ==> r == FlushResult(b.(counter := b.counter + 1), Held))
      && (proceed ==> r.buffer == Empty && r.outcome != Held && Sent(r.outcome) == b.logs)
      && (proceed ==> r.outcome == Post(client, config, b.logs))
  {
    var counter := b.counter + 1;
    if !(Reached(counter, limits.maxFlushCounter) || Reached(b.size, limits.maxPayloadSize)) then
      FlushResult(b.(counter := counter), Held)
    else
      FlushResult(Empty, Post(client, config, b.logs))
  }

  datatype WriteResult = WriteResult(buffer: Buffer, flushed: Option<FlushOutcome>)

  /**
   * `writeLog` on the root's buffer: the record is appended and its JSON
   * length added; when the size reaches its maximum the root flushes, and
   * that flush always proceeds and sends every buffered record.
   */
  function AppendStep(b: Buffer, record: Fields, len: nat, limits: Limits, client: Value, config: Value): (r: WriteResult)
    ensures !Reached(b.size + len, limits.maxPayloadSize) ==>
              r == WriteResult(Buffer(b.logs + [record], b.size + len, b.counter), None)
    ensures Reached(b.size + len, limits.maxPayloadSize) ==>
              && r.buffer == Empty && r.flushed.Some? && r.flushed.value != Held
              && Sent(r.flushed.value) == b.logs + [record]
              && r.flushed.value == Post(client, config, b.logs + [record])
  {
    var grown := Buffer(b.logs + [record], b.size + len, b.counter);
    if Reached(grown.size, limits.maxPayloadSize) then
      var f := FlushStep(grown, limits, client, config);
      WriteResult(f.buffer, Some(f.outcome))
    else
      WriteResult(grown, None)
  }

  lemma TotalLengthAppend(logs: seq<Fields>, record: Fields, jsonLength: Fields -> nat)
    ensures TotalLength(logs + [record], jsonLength) == TotalLength(logs, jsonLength) + jsonLength(record)
  {
    assert (logs + [record])[..|logs|] == logs;
  }

  /** A flush keeps the size equal to the JSON size of the buffered records. */
  lemma FlushKeepsAccounting(b: Buffer, limits: Limits, client: Value, config: Value, jsonLength: Fields -> nat)
    requires Accounted(b, jsonLength)
    ensures Accounted(FlushStep(b, limits, client, config).buffer, jsonLength)
  {
  }

  /** The buffer after `push(log)` and the size increment, before any flush. */
  function Pushed(b: Buffer, record: Fields, jsonLength: Fields -> nat): (r: Buffer)
    ensures r.logs == b.logs + [record] && r.size == b.size + jsonLength(record) && r.counter == b.counter
  {
    Buffer(b.logs + [record], b.size + jsonLength(record), b.counter)
  }

  /** Pushing a record with its JSON length keeps the size accounted. */
  lemma PushedKeepsAccounting(b: Buffer, record: Fields, jsonLength: Fields -> nat)
    requires Accounted(b, jsonLength)
    ensures Accounted(Pushed(b, record, jsonLength), jsonLength)
  {
    TotalLengthAppend(b.logs, record, jsonLength);
  }

  /** So does a write, with the record's own JSON length. */
  lemma AppendKeepsAccounting(b: Buffer, record: Fields, limits: Limits, client: Value, config: Value, jsonLength: Fields -> nat)
    requires Accounted(b, jsonLength)
    ensures Accounted(AppendStep(b, record, jsonLength(record), limits, client, config).buffer, jsonLength)
  {
    var len := jsonLength(record);
    if !Reached(b.size + len, limits.maxPayloadSize) {
      TotalLengthAppend(b.logs, record, jsonLength);
      assert AppendStep(b, record, len, limits, client, config).buffer == Buffer(b.logs + [record], b.size + len, b.counter);
    }
  }

  /** A call against the root's buffer: `writeLog` of a record, or an explicit `flush()`. */
  datatype Op = Write(record: Fields) | ExplicitFlush

  datatype RunResult = RunResult(buffer: Buffer, outcomes: seq<FlushOutcome>)

  /** One call: the buffer after it and the flush outcomes it produced (none, or one). */
  function Step(b: Buffer, op: Op, limits: Limits, client: Value, config: Value, jsonLength: Fields -> nat): RunResult {
    match op
    case Write(record) =>
      var w := AppendStep(b, record, jsonLength(record), limits, client, config);
      RunResult(w.buffer, if w.flushed.Some? then [w.flushed.value] else [])
    case ExplicitFlush =>
      var f := FlushStep(b, limits, client, config);
      RunResult(f.buffer, [f.outcome])
  }

  /** The buffer after a sequence of calls, and every flush outcome along the way. */
  function Run(b: Buffer, ops: seq<Op>, limits: Limits, client: Value, config: Value, jsonLength: Fields -> nat): RunResult
    decreases |ops|
  {
    if ops == [] then RunResult(b, [])
    else
      var s := Step(b, ops[0], limits, client, config, jsonLength);
      var r := Run(s.buffer, ops[1..], limits, client, config, jsonLength);
      RunResult(r.buffer, s.outcomes + r.outcomes)
  }

  /** Every record handed out by the flushes, in order. */
  function SentAll(outcomes: seq<FlushOutcome>): seq<Fields> {
    if outcomes == [] then [] else Sent(outcomes[0]) + SentAll(outcomes[1..])
  }

  /** The records a sequence of calls writes. */
  function Written(ops: seq<Op>): seq<Fields> {
    if ops == [] then [] else (if ops[0].Write? then [ops[0].record] else []) + Written(ops[1..])
  }

  lemma {:induction false} SentAllConcat(a: seq<FlushOutcome>, b: seq<FlushOutcome>)
    ensures SentAll(a + b) == SentAll(a) + SentAll(b)
  {
    if a == [] {
      assert a + b == b;
    } else {
      assert (a + b)[1..] == a[1..] + b;
      SentAllConcat(a[1..], b);
    }
  }

  /** One call hands out or keeps every record it saw. */
  lemma StepConservesRecords(b: Buffer, op: Op, limits: Limits, client: Value, config: Value, jsonLength: Fields -> nat)
    ensures var s := Step(b, op, limits, client, config, jsonLength);
            SentAll(s.outcomes) + s.buffer.logs == b.logs + Written([op])
  {
    var s := Step(b, op, limits, client, config, jsonLength);
    assert Written([op]) == (if op.Write? then [op.record] else []) + Written([]);
    if |s.outcomes| == 1 {
      assert SentAll(s.outcomes) == Sent(s.outcomes[0]) + SentAll([]);
    }
  }

  /**
   * No record is lost track of or reordered: what the flushes handed out,
   * followed by what is still buffered, is exactly what was buffered before
   * followed by every record written, in order.
   */
  lemma {:induction false} RunConservesRecords(b: Buffer, ops: seq<Op>, limits: Limits, client: Value, config: Value, jsonLength: Fields -> nat)
    ensures var r := Run(b, ops, limits, client, config, jsonLength);
            SentAll(r.outcomes) + r.buffer.logs == b.logs + Written(ops)
    decreases |ops|
  {
    if ops != [] {
      var s := Step(b, ops[0], limits, client, config, jsonLength);
      var r := Run(s.buffer, ops[1..], limits, client, config, jsonLength);
      RunConservesRecords(s.buffer, ops[1..], limits, client, config, jsonLength);
      StepConservesRecords(b, ops[0], limits, client, config, jsonLength);
      SentAllConcat(s.outcomes, r.outcomes);
      WrittenCons(ops);
      Regroup(SentAll(s.outcomes), SentAll(r.outcomes), r.buffer.logs, s.buffer.logs,
              Written([ops[0]]), Written(ops[1..]), b.logs);
    }
  }

  lemma WrittenCons(ops: seq<Op>)
    requires ops != []
    ensures Written(ops) == Written([ops[0]]) + Written(ops[1..])
  {
    assert [ops[0]][1..] == [];
  }

  /** Chaining two conservation facts: `a + s == b + w` and `r + k == s + v` give `a + r + k == b + (w + v)`. */
  lemma Regroup<T>(a: seq<T>, r: seq<T>, k: seq<T>, s: seq<T>, w: seq<T>, v: seq<T>, b: seq<T>)
    requires r + k == s + v
    requires a + s == b + w
    ensures a + r + k == b + (w + v)
  {
    calc {
      a + r + k;
      a + (r + k);
      a + (s + v);
      (a + s) + v;
      (b + w) + v;
    }
  }

  /** The buffer's size stays the JSON size of its records along any run. */
  lemma {:induction false} RunKeepsAccounting(b: Buffer, ops: seq<Op>, limits: Limits, client: Value, config: Value, jsonLength: Fields -> nat)
    requires Accounted(b, jsonLength)
    ensures Accounted(Run(b, ops, limits, client, config, jsonLength).buffer, jsonLength)
    decreases |ops|
  {
    if ops != [] {
      var s := Step(b, ops[0], limits, client, config, jsonLength);
      if ops[0].Write? {
        AppendKeepsAccounting(b, ops[0].record, limits, client, config, jsonLength);
      }
      RunKeepsAccounting(s.buffer, ops[1..], limits, client, config, jsonLength);
    }
  }

  function Flushes(k: nat): (ops: seq<Op>)
    ensures |ops| == k && forall i :: 0 <= i < k ==> ops[i] == ExplicitFlush
  {
    seq(k, _ => ExplicitFlush)
  }

  /**
   * With a maximum of `n` flush calls and the size below its maximum, the
   * first `k < n` explicit flushes post nothing and only count; the `n`-th
   * posts the whole buffer.
   */
  lemma {:induction false} FlushesBelowCountHold(b: Buffer, n: int, k: nat, limits: Limits, client: Value, config: Value, jsonLength: Fields -> nat)
    requires limits.maxFlushCounter == AtLeast(n) && b.counter + k < n
    requires !Reached(b.size, limits.maxPayloadSize)
    ensures var r := Run(b, Flushes(k), limits, client, config, jsonLength);
            && r.buffer == b.(counter := b.counter + k)
            && forall i :: 0 <= i < |r.outcomes| ==> r.outcomes[i] == Held
    decreases k
  {
    if k > 0 {
      var f := FlushStep(b, limits, client, config);
      assert Flushes(k)[1..] == Flushes(k - 1);
      FlushesBelowCountHold(f.buffer, n, k - 1, limits, client, config, jsonLength);
    }
  }

  lemma CountedFlushPosts(b: Buffer, n: int, limits: Limits, client: Value, config: Value)
    requires limits.maxFlushCounter == AtLeast(n) && b.counter + 1 == n
    ensures var f := FlushStep(b, limits, client, config);
            f.buffer == Empty && f.outcome != Held && Sent(f.outcome) == b.logs
  {
  }

  /**
   * Under the default limits, two small records followed by one explicit
   * `flush()` post nothing: the flush only counts to 1 of 10.
   */
  lemma DefaultFlushAfterTwoRecordsHolds(r1: Fields, r2: Fields, client: Value, config: Value, jsonLength: Fields -> nat)
    requires jsonLength(r1) + jsonLength(r2) < 100000
    ensures var r := Run(Empty, [Write(r1), Write(r2), ExplicitFlush], LimitsOf(map[]), client, config, jsonLength);
            && r.outcomes == [Held]
            && r.buffer == Buffer([r1, r2], jsonLength(r1) + jsonLength(r2), 1)
  {
    var lim := LimitsOf(map[]);
    var len := jsonLength(r1) + jsonLength(r2);
    DefaultStepsHold(r1, r2, client, config, jsonLength);
    var ops := [Write(r1), Write(r2), ExplicitFlush];
    assert ops[1..] == [Write(r2), ExplicitFlush];
    assert ops[1..][1..] == [ExplicitFlush];
    var b1, b2, b3 := Buffer([r1], jsonLength(r1), 0), Buffer([r1, r2], len, 0), Buffer([r1, r2], len, 1);
    assert Run(b3, [], lim, client, config, jsonLength) == RunResult(b3, []);
    assert Run(b2, ops[1..][1..], lim, client, config, jsonLength) == RunResult(b3, [Held]);
    assert Run(b1, ops[1..], lim, client, config, jsonLength) == RunResult(b3, [Held]);
  }

  /** The three calls of DefaultFlushAfterTwoRecordsHolds, one at a time. */
  lemma DefaultStepsHold(r1: Fields, r2: Fields, client: Value, config: Value, jsonLength: Fields -> nat)
    requires jsonLength(r1) + jsonLength(r2) < 100000
    ensures var lim := LimitsOf(map[]);
            var len := jsonLength(r1) + jsonLength(r2);
            && Step(Empty, Write(r1), lim, client, config, jsonLength) == RunResult(Buffer([r1], jsonLength(r1), 0), [])
            && Step(Buffer([r1], jsonLength(r1), 0), Write(r2), lim, client, config, jsonLength)
               == RunResult(Buffer([r1, r2], len, 0), [])
            && Step(Buffer([r1, r2], len, 0), ExplicitFlush, lim, client, config, jsonLength)
               == RunResult(Buffer([r1, r2], len, 1), [Held])
  {
    var lim := LimitsOf(map[]);
    assert lim == Limits(AtLeast(10), AtLeast(100000));
  }

  /**
   * A RemoteLogger. `root` is `_parentLogger`: the instance itself for a
   * root, the root it was derived from otherwise; only the root's buffer
   * fields and limits are used.
   */
  class RemoteLogger {
    const core: Logger
    const client: Value          // `_httpClientWrapper`
    const config: Value          // `_httpClientConfig`
    const limits: Limits         // a derived instance has none (undefined compares as NaN)
    const jsonLength: Fields -> nat   // `JSON.stringify(log).length`
    var root: RemoteLogger?
    var logs: seq<Fields>
    var payloadSize: int
    var flushCounter: int

    function State(): Buffer
      reads this
    {
      Buffer(logs, payloadSize, flushCounter)
    }

    ghost predicate Valid()
      reads this, root
    {
      && root != null
      && root.root == root
      && Accounted(root.State(), root.jsonLength)
      && "trace" !in core.defaultLog && "trace" !in root.core.defaultLog
    }

    /**
     * The constructor after `super(name, options)` produced `core`: without
     * a parent logger the instance is a root with an empty buffer and the
     * options' limits; otherwise it shares the given root.
     */
    constructor (core: Logger, client: Value, config: Value, options: Fields, parentLogger: RemoteLogger?, jsonLength: Fields -> nat)
      requires parentLogger != null ==>
                 parentLogger.Valid() && parentLogger.root == parentLogger
      requires "trace" !in core.defaultLog
      ensures Valid()
      ensures this.core == core && this.client == client && this.config == config && this.jsonLength == jsonLength
      ensures parentLogger == null ==> root == this && State() == Empty && limits == LimitsOf(options)
      ensures parentLogger != null ==> root == parentLogger && limits == Limits(Never, Never)
    {
      this.core := core;
      this.client := client;
      this.config := config;
      this.jsonLength := jsonLength;
      limits := if parentLogger == null then LimitsOf(options) else Limits(Never, Never);
      logs := [];
      payloadSize := 0;
      flushCounter := 0;
      new;
      root := if parentLogger == null then this else parentLogger;
    }

    /**
     * `new RemoteLogger(name, client, config, options)`: a root, or the
     * BaseLogger constructor's error.
     */
    static method Create(name: Value, client: Value, config: Value, options: Fields, host: Host, e: Entropy, jsonLength: Fields -> nat)
      returns (r: Result<RemoteLogger>)
      requires HexEntropy(e)
      ensures r.Failure? <==> New(name, options, host, e).Failure?
      ensures r.Failure? ==> r.error == New(name, options, host, e).error
      ensures r.Success? ==>
        && fresh(r.value) && r.value.Valid() && r.value.root == r.value
        && r.value.core == New(name, options, host, e).value
        && r.value.client == client && r.value.config == config
        && r.value.State() == Empty && r.value.limits == LimitsOf(options)
    {
      var c := New(name, options, host, e);
      if c.Failure? {
        return Failure(c.error);
      }
      var l := new RemoteLogger(c.value, client, config, options, null, jsonLength);
      return Success(l);
    }

    /** `createChildClassLogger`: a client-less instance writing into this logger's root. */
    method CreateChildClassLogger(name: Value, options: Fields, host: Host, e: Entropy) returns (r: Result<RemoteLogger>)
      requires Valid() && HexEntropy(e)
      ensures r.Failure? <==> New(name, options, host, e).Failure?
      ensures r.Failure? ==> r.error == New(name, options, host, e).error
      ensures r.Success? ==>
        && fresh(r.value) && r.value.Valid() && r.value.root == root
        && r.value.core == New(name, options, host, e).value
        && r.value.client == Null && r.value.config == Null
    {
      var c := New(name, options, host, e);
      if c.Failure? {
        return Failure(c.error);
      }
      var l := new RemoteLogger(c.value, Null, Null, options, root, root.jsonLength);
      return Success(l);
    }

    /** `createRootTraceLogger`: a traced instance sharing this logger's root. */
    method CreateRootTraceLogger(name: Value, options: Fields, host: Host, e: Entropy) returns (r: Result<RemoteLogger>)
      requires Valid() && HexEntropy(e)
      ensures r.Failure? <==> DeriveRoot(core, name, options, host, HexIds(e)).Failure?
      ensures r.Failure? ==> r.error == DeriveRoot(core, name, options, host, HexIds(e)).error
      ensures r.Success? ==>
        && fresh(r.value) && r.value.Valid() && r.value.root == root
        && r.value.core == DeriveRoot(core, name, options, host, HexIds(e)).value
    {
      r := CreateChildClassLogger(name, RootTraceOptions(core, options), host, e);
    }

    /** `createChildTraceLogger`: throws on an untraced logger, else a span sharing this logger's root. */
    method CreateChildTraceLogger(name: Value, options: Fields, host: Host, e: Entropy) returns (r: Result<RemoteLogger>)
      requires Valid() && HexEntropy(e)
      ensures r.Failure? <==> DeriveChild(core, name, options, host, HexIds(e)).Failure?
      ensures r.Failure? ==> r.error == DeriveChild(core, name, options, host, HexIds(e)).error
      ensures r.Success? ==>
        && fresh(r.value) && r.value.Valid() && r.value.root == root
        && r.value.core == DeriveChild(core, name, options, host, HexIds(e)).value
    {
      var o := ChildTraceOptions(core, options);
      if o.Failure? {
        return Failure(o.error);
      }
      r := CreateChildClassLogger(name, o.value, host, e);
    }

    /**
     * `writeLog`: the record goes into the root's buffer, whichever
     * instance writes it, and the root flushes once the size reaches its
     * maximum.
     */
    method WriteLog(msg: Value, options: Fields, level: int, now: Value) returns (flushed: Option<FlushOutcome>)
      requires Valid()
      modifies root
      ensures Valid() && root == old(root)
      ensures var record := CreateDefaultLogObject(core, msg, options, level, now);
              WriteResult(root.State(), flushed)
                == AppendStep(old(root.State()), record, root.jsonLength(record), root.limits, root.client, root.config)
    {
      var record := CreateDefaultLogObject(core, msg, options, level, now);
      var r := root;
      flushed := r.Push(record);
    }

    /** The root's side of `writeLog`: buffer the record, count its size, flush when due. */
    method Push(record: Fields) returns (flushed: Option<FlushOutcome>)
      requires Valid() && root == this
      modifies this
      ensures Valid() && root == this
      ensures WriteResult(State(), flushed) == AppendStep(old(State()), record, jsonLength(record), limits, client, config)
    {
      Append(record);
      if Reached(payloadSize, limits.maxPayloadSize) {
        var o := Flush();
        flushed := Some(o);
      } else {
        flushed := None;
      }
    }

    /** `_logs.push(log); _currentPayloadSize += JSON.stringify(log).length` */
    method Append(record: Fields)
      requires Valid() && root == this
      modifies this
      ensures Valid() && root == this
      ensures State() == Buffer(old(logs) + [record], old(payloadSize) + jsonLength(record), old(flushCounter))
    {
      var next := Pushed(State(), record, jsonLength);
      PushedKeepsAccounting(State(), record, jsonLength);
      logs, payloadSize := next.logs, next.size;
      assert State() == next;
    }

    /**
     * `flush`: on the root, as FlushStep says. On a derived instance the
     * counter and limits are undefined, every comparison is false and
     * nothing is sent.
     */
    method Flush() returns (outcome: FlushOutcome)
      requires Valid()
      modifies this
      ensures Valid() && root == old(root)
      ensures root != this ==> outcome == Held && unchanged(this)
      ensures root == this ==> FlushResult(State(), outcome) == FlushStep(old(State()), limits, client, config)
    {
      if root != this {
        return Held;
      }
      flushCounter := flushCounter + 1;
      var proceed := Reached(flushCounter, limits.maxFlushCounter);
      proceed := proceed || Reached(payloadSize, limits.maxPayloadSize);
      if !proceed {
        return Held;
      }
      flushCounter := 0;
      var payload := logs;
      payloadSize := 0;
      logs := [];
      outcome := Post(client, config, payload);
    }

    /** `verbose` … `fatal`: `writeLogWithLevel(this, msg, options, levels.x)`. */
    method Log(level: Level, msg: Value, options: Fields, now: Value) returns (written: bool, flushed: Option<FlushOutcome>)
      requires Valid()
      modifies root
      ensures Valid() && root == old(root)
      ensures written <==> !BelowMinimum(Levels, Severity(level), core.minLevel)
      ensures !written ==> unchanged(root) && flushed == None
      ensures written ==>
        var record := CreateDefaultLogObject(core, msg, options, Severity(level), now);
        WriteResult(root.State(), flushed)
          == AppendStep(old(root.State()), record, root.jsonLength(record), root.limits, root.client, root.config)
    {
      var call := WriteLogWithLevel(core.minLevel, msg, options, Severity(level));
      if call.None? {
        return false, None;
      }
      written := true;
      flushed := WriteLog(call.value.msg, call.value.options, call.value.level, now);
    }

    /**
     * `end`: an unfiltered info record whose trace carries `status: 'end'`;
     * a truthy primitive `options.trace` throws before anything is written.
     */
    method End(msg: Value, options: Fields, now: Value) returns (r: Result<Option<FlushOutcome>>)
      requires Valid()
      modifies root
      ensures Valid() && root == old(root)
      ensures r.Failure? <==> BaseLogger.End(msg, options).Failure?
      ensures r.Failure? ==> r.error == TypeError && unchanged(root)
      ensures r.Success? ==>
        var c := BaseLogger.End(msg, options).value;
        var record := CreateDefaultLogObject(core, c.msg, c.options, c.level, now);
        WriteResult(root.State(), r.value)
          == AppendStep(old(root.State()), record, root.jsonLength(record), root.limits, root.client, root.config)
    {
      var c := BaseLogger.End(msg, options);
      if c.Failure? {
        return Failure(c.error);
      }
      var flushed := WriteLog(c.value.msg, c.value.options, c.value.level, now);
      r := Success(flushed);
    }

    /**
     * `complete`: an unfiltered info record whose trace carries `status: 'complete'`;
     * a truthy primitive `options.trace` throws before anything is written.
     */
    method Complete(msg: Value, options: Fields, now: Value) returns (r: Result<Option<FlushOutcome>>)
      requires Valid()
      modifies root
      ensures Valid() && root == old(root)
      ensures r.Failure? <==> BaseLogger.Complete(msg, options).Failure?
      ensures r.Failure? ==> r.error == TypeError && unchanged(root)
      ensures r.Success? ==>
        var c := BaseLogger.Complete(msg, options).value;
        var record := CreateDefaultLogObject(core, c.msg, c.options, c.level, now);
        WriteResult(root.State(), r.value)
          == AppendStep(old(root.State()), record, root.jsonLength(record), root.limits, root.client, root.config)
    {
      var c := BaseLogger.Complete(msg, options);
      if c.Failure? {
        return Failure(c.error);
      }
      var flushed := WriteLog(c.value.msg, c.value.options, c.value.level, now);
      r := Success(flushed);
    }
  }
}

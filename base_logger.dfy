/**
 * The shared logger core (src/libs/baseLogger.js). A BaseLogger's fields are
 * set once, by its constructor, so a logger is a value here; derivations
 * compute the options a backend's constructor receives, and record assembly
 * is a function of the logger and the call.
 */
module BaseLogger {
  import opened Js
  import opened Errors
  import opened Functions

  /** Host data the record's defaults take: `process.pid`, `os.hostname()`. */
  datatype Host = Host(pid: int, hostname: string)

  /**
   * The state a BaseLogger constructor sets: `_name`, `_minLevel`,
   * `_options` (the options minus `minLevel` and `trace`), `_defaultLog`
   * and `_trace` (None when the logger was built without a trace).
   */
  datatype Logger = Logger(name: Value, minLevel: Value, options: Fields, defaultLog: Fields, trace: Option<Fields>)

  /** `logger._trace` as a JavaScript value. */
  function TraceValue(l: Logger): (v: Value)
    ensures l.trace.None? ==> v == Undefined
    ensures l.trace.Some? ==> v == Obj(l.trace.value)
  {
    if l.trace.Some? then Obj(l.trace.value) else Undefined
  }

  /** The ids a constructor uses for a missing trace `id` and `current`. */
  datatype FreshIds = FreshIds(root: Value, span: Value)

  /**
   * `trace.id = trace.id || …; trace.current = trace.current || …; { ...trace }`
   * for an object (or function) `trace`: the supplied truthy `id` and
   * `current` are kept, missing or falsy ones are replaced, and every other
   * own property is copied.
   */
  function PromoteTrace(trace: Value, ids: FreshIds): (t: Fields)
    requires IsObjectLike(trace)
    ensures t.Keys == Spread(trace).Keys + {"id", "current"}
    ensures t["id"] == (if Truthy(Get(Spread(trace), "id")) then Spread(trace)["id"] else ids.root)
    ensures t["current"] == (if Truthy(Get(Spread(trace), "current")) then Spread(trace)["current"] else ids.span)
    ensures forall k :: k in Spread(trace) && k != "id" && k != "current" ==> t[k] == Spread(trace)[k]
  {
    var m := Spread(trace);
    m["id" := Or(Get(m, "id"), ids.root)]["current" := Or(Get(m, "current"), ids.span)]
  }

  /** `_defaultLog`: name, pid, host and `String(version || 0)`. */
  function DefaultLog(name: Value, host: Host, version: Value): (r: Fields)
    ensures r.Keys == {"name", "pid", "hostname", "v"}
    ensures r["name"] == name && r["pid"] == Num(host.pid) && r["hostname"] == Str(host.hostname)
    ensures !Truthy(version) ==> r["v"] == Str("0")
    ensures version.Str? && version.s != "" ==> r["v"] == version
    ensures version.Num? && version.n > 0 ==> r["v"] == Str(NatToDecimal(version.n))
    ensures version == Bool(true) ==> r["v"] == Str("true")
    ensures version.Obj? ==> r["v"] == Str("[object Object]")
  {
    map["name" := name, "pid" := Num(host.pid), "hostname" := Str(host.hostname),
        "v" := Str(ToJsString(Or(version, Num(0))))]
  }

  /**
   * The BaseLogger constructor, given the ids to use for a missing trace
   * `id`/`current`. Throws ErrorHoodLogger for any falsy name (`''`
   * included), and a TypeError when the trace option is a truthy primitive
   * (the assignment to `trace.id` fails). Otherwise `minLevel` defaults to
   * `'info'`, the retained options are the input minus `minLevel` and
   * `trace`, and a truthy trace option is promoted to a full trace.
   */
  function Construct(name: Value, options: Fields, host: Host, ids: FreshIds): (r: Result<Logger>)
    ensures var trace := Get(options, "trace");
            r.Failure? <==> !Truthy(name) || (Truthy(trace) && !IsObjectLike(trace))
    ensures !Truthy(name) ==> r == Failure(ErrorHoodLogger(MissingName))
    ensures Truthy(name) && r.Failure? ==> r.error == TypeError
    ensures r.Success? ==>
      var l := r.value;
      var trace := Get(options, "trace");
      && l.name == name
      && (Truthy(Get(options, "minLevel")) ==> l.minLevel == options["minLevel"])
      && (!Truthy(Get(options, "minLevel")) ==> l.minLevel == Str("info"))
      && l.options == Retained(options)
      && l.defaultLog == DefaultLog(name, host, Get(options, "version"))
      && (!Truthy(trace) ==> l.trace.None?)
      && (Truthy(trace) ==> l.trace == Some(PromoteTrace(trace, ids)))
  {
    var trace := Get(options, "trace");
    if !Truthy(name) then Failure(ErrorHoodLogger(MissingName))
    else if Truthy(trace) && !IsObjectLike(trace) then Failure(TypeError)
    else
      var rest := Retained(options);
      Success(Logger(name, Or(Get(options, "minLevel"), Str("info")), rest,
                     DefaultLog(name, host, Get(rest, "version")),
                     if Truthy(trace) then Some(PromoteTrace(trace, ids)) else None))
  }

  /** `const { minLevel, trace, ...restOptions } = options`: the options a logger keeps. */
  function Retained(options: Fields): (r: Fields)
    ensures r.Keys == options.Keys - {"minLevel", "trace"}
    ensures forall k :: k in r ==> r[k] == options[k]
  {
    options - {"minLevel", "trace"}
  }

  /** Random draws for the two hex ids a constructor may need. */
  datatype Entropy = Entropy(root: seq<real>, span: seq<real>)

  predicate HexEntropy(e: Entropy) {
    |e.root| == 32 && |e.span| == 16 && UnitInterval(e.root) && UnitInterval(e.span)
  }

  /** `0x` + 32 hex digits for a root id, `0x` + 16 for a span id. */
  function HexIds(e: Entropy): (f: FreshIds)
    requires HexEntropy(e)
    ensures f.root.Str? && |f.root.s| == 34 && f.root.s[..2] == "0x"
    ensures f.span.Str? && |f.span.s| == 18 && f.span.s[..2] == "0x"
    ensures forall i :: 2 <= i < 34 ==> IsLowerHex(f.root.s[i])
    ensures forall i :: 2 <= i < 18 ==> IsLowerHex(f.span.s[i])
  {
    FreshIds(Str(GetRandomHexStringId(32, e.root)), Str(GetRandomHexStringId(16, e.span)))
  }

  /** `new BaseLogger(name, options)` with the hex id scheme. */
  function New(name: Value, options: Fields, host: Host, e: Entropy): (r: Result<Logger>)
    requires HexEntropy(e)
    ensures var trace := Get(options, "trace");
            r.Failure? <==> !Truthy(name) || (Truthy(trace) && !IsObjectLike(trace))
    ensures r.Success? ==>
      && r.value.name == name && r.value.options == Retained(options)
      && (r.value.trace.Some? <==> Truthy(Get(options, "trace")))
  {
    Construct(name, options, host, HexIds(e))
  }

  /**
   * With an object `trace` option the logger is traced with a truthy id and
   * current: supplied ones are kept, a missing id becomes `0x` + 32 hex
   * digits and a missing current `0x` + 16. Without a trace option both
   * accessors answer null.
   */
  lemma NewTraceIds(name: Value, options: Fields, host: Host, e: Entropy)
    requires HexEntropy(e) && Truthy(name)
    requires IsObjectLike(Get(options, "trace")) || !Truthy(Get(options, "trace"))
    ensures var l := New(name, options, host, e).value;
      && (IsObjectLike(Get(options, "trace")) ==>
            && Truthy(RootTraceId(l)) && Truthy(CurrentTraceId(l))
            && (!Truthy(Get(Spread(Get(options, "trace")), "id")) ==>
                  RootTraceId(l).Str? && |RootTraceId(l).s| == 34 && RootTraceId(l).s[..2] == "0x")
            && (!Truthy(Get(Spread(Get(options, "trace")), "current")) ==>
                  CurrentTraceId(l).Str? && |CurrentTraceId(l).s| == 18 && CurrentTraceId(l).s[..2] == "0x"))
      && (!Truthy(Get(options, "trace")) ==> RootTraceId(l) == Null && CurrentTraceId(l) == Null)
  {
    var f := HexIds(e);
    assert Truthy(f.root) && Truthy(f.span);
  }

  /** `levels[minLevel] ? minLevel : this._minLevel` */
  function ResolveMinLevel(requested: Value, inherited: Value): (r: Value)
    ensures Truthy(Lookup(Levels, requested)) ==> r == requested
    ensures !Truthy(Lookup(Levels, requested)) ==> r == inherited
  {
    if Truthy(Lookup(Levels, requested)) then requested else inherited
  }

  /** Every entry of the level table is truthy, so "valid" means "is a key". */
  lemma ValidLevelIsKey(requested: Value)
    requires ToJsString(requested) !in ObjectPrototypeKeys
    ensures Truthy(Lookup(Levels, requested)) <==> ToJsString(requested) in Levels
  {
  }

  /**
   * `{ ...kept, ...rest }` with `minLevel` and `trace` set, where `rest` is
   * the call's options without them: the options a derivation hands the
   * backend's factory. The call's options override the kept ones.
   */
  function DerivedOptions(kept: Fields, options: Fields, minLevel: Value, trace: Value): (r: Fields)
    ensures forall k :: k in r <==> k in kept || k in options || k == "minLevel" || k == "trace"
    ensures r["minLevel"] == minLevel && r["trace"] == trace
    ensures forall k :: k in r && k != "minLevel" && k != "trace" ==>
              r[k] == (if k in options then options[k] else kept[k])
  {
    (kept + (options - {"minLevel", "trace"}))["minLevel" := minLevel]["trace" := trace]
  }

  /**
   * `newOptions.trace = newOptions.trace || {}` after the spread: the call's
   * trace (present even when falsy), else the kept one, and `{}` in place of
   * a falsy one.
   */
  function RootTrace(kept: Fields, options: Fields): (t: Value)
    ensures Truthy(t)
    ensures Truthy(Get(options, "trace")) ==> t == options["trace"]
    ensures !Truthy(Get(options, "trace")) && !Truthy(Get(kept, "trace")) ==> t == Obj(map[])
  {
    Or(if "trace" in options then options["trace"] else Get(kept, "trace"), Obj(map[]))
  }

  /** The options `createRootTraceLogger` hands the backend's factory. */
  function RootTraceOptions(l: Logger, options: Fields): (r: Fields)
    ensures forall k :: k in r <==> k in l.options || k in options || k == "minLevel" || k == "trace"
    ensures r["minLevel"] == ResolveMinLevel(Get(options, "minLevel"), l.minLevel)
    ensures Truthy(r["trace"])
    ensures Truthy(Get(options, "trace")) ==> r["trace"] == options["trace"]
    ensures forall k :: k in r && k != "minLevel" && k != "trace" ==>
              r[k] == (if k in options then options[k] else l.options[k])
  {
    DerivedOptions(l.options, options, ResolveMinLevel(Get(options, "minLevel"), l.minLevel), RootTrace(l.options, options))
  }

  /**
   * The trace a child starts from: the parent's trace without `current`,
   * with `parent` set to the parent's `current`, overlaid by the call's
   * `options.trace`.
   */
  function ChildTrace(parent: Fields, callTrace: Value): (t: Fields)
    ensures forall k :: k in t <==> (k in parent && k != "current") || k == "parent" || k in Spread(callTrace)
    ensures forall k :: k in Spread(callTrace) ==> t[k] == Spread(callTrace)[k]
    ensures "parent" !in Spread(callTrace) ==> t["parent"] == Get(parent, "current")
    ensures forall k :: k in parent && k != "current" && k != "parent" && k !in Spread(callTrace) ==> t[k] == parent[k]
  {
    ((parent - {"current"})["parent" := Get(parent, "current")]) + Spread(callTrace)
  }

  /**
   * The options `createChildTraceLogger` hands the backend's factory, or
   * the ErrorHoodLogger it throws on a logger without a trace.
   */
  function ChildTraceOptions(l: Logger, options: Fields): (r: Result<Fields>)
    ensures r.Failure? <==> l.trace.None?
    ensures r.Failure? ==> r.error == ErrorHoodLogger(NoParentTrace)
    ensures r.Success? ==>
      r.value == DerivedOptions(l.options, options, ResolveMinLevel(Get(options, "minLevel"), l.minLevel),
                                Obj(ChildTrace(l.trace.value, Get(options, "trace"))))
  {
    if l.trace.None? then Failure(ErrorHoodLogger(NoParentTrace))
    else
      Success(DerivedOptions(l.options, options, ResolveMinLevel(Get(options, "minLevel"), l.minLevel),
                             Obj(ChildTrace(l.trace.value, Get(options, "trace")))))
  }

  /**
   * The BaseLogger part of `createRootTraceLogger` (the backend adds its own
   * fields), given the ids the new logger's constructor would mint.
   */
  function DeriveRoot(l: Logger, name: Value, options: Fields, host: Host, ids: FreshIds): (r: Result<Logger>)
    ensures var t := RootTrace(l.options, options);
            r.Failure? <==> !Truthy(name) || !IsObjectLike(t)
    ensures !Truthy(name) ==> r == Failure(ErrorHoodLogger(MissingName))
    ensures Truthy(name) && !IsObjectLike(RootTrace(l.options, options)) ==> r == Failure(TypeError)
    ensures r.Success? ==> r.value.name == name && r.value.trace == Some(PromoteTrace(RootTrace(l.options, options), ids))
  {
    Construct(name, RootTraceOptions(l, options), host, ids)
  }

  /** The BaseLogger part of `createChildTraceLogger`. */
  function DeriveChild(l: Logger, name: Value, options: Fields, host: Host, ids: FreshIds): (r: Result<Logger>)
    ensures l.trace.None? ==> r == Failure(ErrorHoodLogger(NoParentTrace))
    ensures l.trace.Some? ==> (r.Failure? <==> !Truthy(name))
    ensures l.trace.Some? && !Truthy(name) ==> r == Failure(ErrorHoodLogger(MissingName))
    ensures r.Success? ==> r.value.name == name && r.value.trace.Some?
  {
    var o := ChildTraceOptions(l, options);
    if o.Failure? then Failure(o.error)
    else
      ConstructWithObjectTrace(name, o.value, host, ids);
      Construct(name, o.value, host, ids)
  }

  /** With an object trace option, construction fails only on a falsy name, and is traced. */
  lemma ConstructWithObjectTrace(name: Value, options: Fields, host: Host, ids: FreshIds)
    requires IsObjectLike(Get(options, "trace"))
    ensures Construct(name, options, host, ids).Failure? <==> !Truthy(name)
    ensures !Truthy(name) ==> Construct(name, options, host, ids) == Failure(ErrorHoodLogger(MissingName))
    ensures Construct(name, options, host, ids).Success? ==>
              Construct(name, options, host, ids).value.name == name && Construct(name, options, host, ids).value.trace.Some?
  {
  }

  /** A constructed logger's minimum level is truthy, and resolving against it keeps it so. */
  lemma ResolvedMinLevelIsTruthy(requested: Value, inherited: Value)
    requires Truthy(inherited)
    ensures Truthy(ResolveMinLevel(requested, inherited))
  {
    if !Truthy(requested) {
      assert ToJsString(requested) in {"undefined", "null", "false", "0", ""};
    }
  }

  /** The logger a factory builds from derived options, with a truthy level and an object trace. */
  lemma ConstructDerived(kept: Fields, options: Fields, minLevel: Value, trace: Value, name: Value, host: Host, ids: FreshIds)
    requires Truthy(minLevel) && IsObjectLike(trace)
    ensures var r := Construct(name, DerivedOptions(kept, options, minLevel, trace), host, ids);
      && (r.Failure? <==> !Truthy(name))
      && (r.Success? ==>
            && r.value.minLevel == minLevel
            && r.value.trace == Some(PromoteTrace(trace, ids))
            && (forall k :: k in r.value.options <==> (k in kept || k in options) && k != "minLevel" && k != "trace")
            && (forall k :: k in r.value.options ==> r.value.options[k] == (if k in options then options[k] else kept[k])))
  {
    var o := DerivedOptions(kept, options, minLevel, trace);
    assert Get(o, "minLevel") == minLevel && Get(o, "trace") == trace;
    var r := Construct(name, o, host, ids);
    if r.Success? {
      forall k | k in r.value.options
        ensures r.value.options[k] == (if k in options then options[k] else kept[k])
      {
        assert r.value.options[k] == o[k];
      }
    }
  }

  /**
   * A root derivation fails only for a falsy name; otherwise its minimum
   * level is the requested one when `levels[minLevel]` is truthy and the
   * inherited one otherwise, and its retained options are this logger's
   * overridden by the new ones. (A truthy primitive `options.trace` makes
   * the new logger's constructor throw.)
   */
  lemma RootDerivationOptions(l: Logger, name: Value, options: Fields, host: Host, ids: FreshIds)
    requires Truthy(l.minLevel) && "trace" !in l.options
    requires IsObjectLike(Get(options, "trace")) || !Truthy(Get(options, "trace"))
    ensures DeriveRoot(l, name, options, host, ids).Failure? <==> !Truthy(name)
    ensures DeriveRoot(l, name, options, host, ids).Success? ==>
      var r := DeriveRoot(l, name, options, host, ids).value;
      && r.minLevel == ResolveMinLevel(Get(options, "minLevel"), l.minLevel)
      && (forall k :: k in r.options <==> (k in l.options || k in options) && k != "minLevel" && k != "trace")
      && (forall k :: k in r.options ==> r.options[k] == (if k in options then options[k] else l.options[k]))
  {
    ResolvedMinLevelIsTruthy(Get(options, "minLevel"), l.minLevel);
    ConstructDerived(l.options, options, ResolveMinLevel(Get(options, "minLevel"), l.minLevel),
                     RootTrace(l.options, options), name, host, ids);
  }


  /**
   * A root derivation that succeeds yields a traced logger; its id is the
   * given trace's truthy `id`, or else the freshly minted one.
   */
  lemma RootDerivationIsTraced(l: Logger, name: Value, options: Fields, host: Host, ids: FreshIds)
    requires "trace" !in l.options
    ensures var r := DeriveRoot(l, name, options, host, ids);
            var given := Spread(Get(options, "trace"));
      && (r.Success? ==> r.value.trace.Some?)
      && (r.Success? && Truthy(Get(given, "id")) ==> RootTraceId(r.value) == given["id"])
      && (r.Success? && !Truthy(Get(given, "id")) ==> RootTraceId(r.value) == ids.root)
  {
    var o := RootTraceOptions(l, options);
    assert Truthy(Get(o, "trace"));
  }

  /**
   * On a traced logger, child derivation fails only for a falsy name, and
   * resolves the minimum level and overrides the kept options as root
   * derivation does.
   */
  lemma ChildDerivationOptions(l: Logger, name: Value, options: Fields, host: Host, ids: FreshIds)
    requires Truthy(l.minLevel) && l.trace.Some?
    ensures DeriveChild(l, name, options, host, ids).Failure? <==> !Truthy(name)
    ensures DeriveChild(l, name, options, host, ids).Success? ==>
      var r := DeriveChild(l, name, options, host, ids).value;
      && r.minLevel == ResolveMinLevel(Get(options, "minLevel"), l.minLevel)
      && (forall k :: k in r.options <==> (k in l.options || k in options) && k != "minLevel" && k != "trace")
      && (forall k :: k in r.options ==> r.options[k] == (if k in options then options[k] else l.options[k]))
  {
    var minLevel := ResolveMinLevel(Get(options, "minLevel"), l.minLevel);
    var trace := Obj(ChildTrace(l.trace.value, Get(options, "trace")));
    ResolvedMinLevelIsTruthy(Get(options, "minLevel"), l.minLevel);
    ConstructDerived(l.options, options, minLevel, trace, name, host, ids);
    assert DeriveChild(l, name, options, host, ids) == Construct(name, DerivedOptions(l.options, options, minLevel, trace), host, ids);
  }


  /** The ids a child's promoted trace ends up with. */
  lemma ChildTraceIds(parent: Fields, callTrace: Value, ids: FreshIds)
    ensures var t := PromoteTrace(Obj(ChildTrace(parent, callTrace)), ids);
            var call := Spread(callTrace);
      && ("id" !in call && Truthy(Get(parent, "id")) ==> t["id"] == parent["id"])
      && ("parent" !in call ==> t["parent"] == Get(parent, "current"))
      && ("current" !in call ==> t["current"] == ids.span)
      && ("id" in call && Truthy(call["id"]) ==> t["id"] == call["id"])
      && ("current" in call && Truthy(call["current"]) ==> t["current"] == call["current"])
      && (forall k :: k in call && k != "id" && k != "current" ==> t[k] == call[k])
  {
    var c := ChildTrace(parent, callTrace);
    assert "current" !in Spread(callTrace) ==> "current" !in c;
  }

  /**
   * Child derivation: on a traced logger with a truthy name it succeeds; the
   * child keeps the parent's truthy `id`, its `parent` is the parent's
   * `current`, and its `current` is freshly minted, unless the call's
   * `options.trace` overrides the field.
   */
  lemma ChildDerivationLinksSpans(l: Logger, name: Value, options: Fields, host: Host, ids: FreshIds)
    requires Truthy(name) && l.trace.Some?
    ensures DeriveChild(l, name, options, host, ids).Success?
    ensures var c := DeriveChild(l, name, options, host, ids).value;
            var call := Spread(Get(options, "trace"));
            && c.trace.Some?
            && ("id" !in call && Truthy(Get(l.trace.value, "id")) ==> c.trace.value["id"] == l.trace.value["id"])
            && ("parent" !in call ==> c.trace.value["parent"] == Get(l.trace.value, "current"))
            && ("current" !in call ==> c.trace.value["current"] == ids.span)
            && ("id" in call && Truthy(call["id"]) ==> c.trace.value["id"] == call["id"])
            && ("current" in call && Truthy(call["current"]) ==> c.trace.value["current"] == call["current"])
  {
    ChildDerivationTrace(l, name, options, host, ids);
    ChildTraceIds(l.trace.value, Get(options, "trace"), ids);
  }

  /** A child's trace is its starting trace, promoted. */
  lemma ChildDerivationTrace(l: Logger, name: Value, options: Fields, host: Host, ids: FreshIds)
    requires Truthy(name) && l.trace.Some?
    ensures var c := DeriveChild(l, name, options, host, ids);
            c.Success? && c.value.trace == Some(PromoteTrace(Obj(ChildTrace(l.trace.value, Get(options, "trace"))), ids))
  {
    var o := ChildTraceOptions(l, options).value;
    var t := ChildTrace(l.trace.value, Get(options, "trace"));
    assert Get(o, "trace") == Obj(t);
    assert DeriveChild(l, name, options, host, ids) == Construct(name, o, host, ids);
    ConstructTraced(name, o, host, ids);
  }

  /** A truthy name and an object trace option always construct, with that trace promoted. */
  lemma ConstructTraced(name: Value, options: Fields, host: Host, ids: FreshIds)
    requires Truthy(name) && IsObjectLike(Get(options, "trace"))
    ensures Construct(name, options, host, ids).Success?
    ensures Construct(name, options, host, ids).value.trace == Some(PromoteTrace(Get(options, "trace"), ids))
  {
  }

  /** Derivation on a logger without a trace throws, whatever the name. */
  lemma ChildOfUntracedFails(l: Logger, name: Value, options: Fields, host: Host, ids: FreshIds)
    requires l.trace.None?
    ensures DeriveChild(l, name, options, host, ids) == Failure(ErrorHoodLogger(NoParentTrace))
  {
  }

  /** One step of a chain of child derivations, with the ids its constructor mints. */
  datatype ChildStep = ChildStep(name: Value, options: Fields, ids: FreshIds)

  /** `l.createChildTraceLogger(…).createChildTraceLogger(…)…` */
  function DeriveChain(l: Logger, steps: seq<ChildStep>, host: Host): Result<Logger>
    decreases |steps|
  {
    if steps == [] then Success(l)
    else
      var c := DeriveChild(l, steps[0].name, steps[0].options, host, steps[0].ids);
      if c.Failure? then c else DeriveChain(c.value, steps[1..], host)
  }

  /** Every step has a truthy name and leaves the trace `id` alone. */
  predicate KeepsIds(steps: seq<ChildStep>) {
    steps != [] ==>
      && Truthy(steps[0].name) && "id" !in Spread(Get(steps[0].options, "trace"))
      && KeepsIds(steps[1..])
  }

  /**
   * The root id is immutable down a chain of child loggers: when no step
   * overrides `id`, every step succeeds and the last child carries the
   * first logger's id.
   */
  lemma {:induction false} RootIdStableAlongChain(l: Logger, steps: seq<ChildStep>, host: Host)
    requires l.trace.Some? && Truthy(Get(l.trace.value, "id"))
    requires KeepsIds(steps)
    ensures DeriveChain(l, steps, host).Success?
    ensures DeriveChain(l, steps, host).value.trace.Some?
    ensures Get(DeriveChain(l, steps, host).value.trace.value, "id") == l.trace.value["id"]
    decreases |steps|
  {
    if steps != [] {
      var s := steps[0];
      ChildKeepsRootId(l, s.name, s.options, host, s.ids);
      var c := DeriveChild(l, s.name, s.options, host, s.ids).value;
      RootIdStableAlongChain(c, steps[1..], host);
    }
  }

  /** One step of such a chain: the child succeeds and carries the parent's truthy root id. */
  lemma ChildKeepsRootId(l: Logger, name: Value, options: Fields, host: Host, ids: FreshIds)
    requires Truthy(name) && l.trace.Some? && Truthy(Get(l.trace.value, "id"))
    requires "id" !in Spread(Get(options, "trace"))
    ensures DeriveChild(l, name, options, host, ids).Success?
    ensures DeriveChild(l, name, options, host, ids).value.trace.Some?
    ensures Get(DeriveChild(l, name, options, host, ids).value.trace.value, "id") == l.trace.value["id"]
  {
    ChildDerivationLinksSpans(l, name, options, host, ids);
  }

  /**
   * `getTraceContext`: the root id and current span id as headers, then
   * `options.headers`, which win on a clash. Reading `this._trace.id` of a
   * logger without a trace throws a TypeError.
   */
  function GetTraceContext(l: Logger): (r: Result<Fields>)
    ensures r.Failure? <==> l.trace.None?
    ensures r.Failure? ==> r.error == TypeError
    ensures r.Success? ==>
      var headers := Spread(Get(l.options, "headers"));
      && r.value.Keys == {"x-cloud-trace-context", "x-trace-parent-id"} + headers.Keys
      && (forall k :: k in headers ==> r.value[k] == headers[k])
      && ("x-cloud-trace-context" !in headers ==> r.value["x-cloud-trace-context"] == Get(l.trace.value, "id"))
      && ("x-trace-parent-id" !in headers ==> r.value["x-trace-parent-id"] == Get(l.trace.value, "current"))
  {
    if l.trace.None? then Failure(TypeError)
    else
      var t := l.trace.value;
      Success(map["x-cloud-trace-context" := Get(t, "id"), "x-trace-parent-id" := Get(t, "current")]
              + Spread(Get(l.options, "headers")))
  }

  /** `rootTraceId`: null without a trace, else the trace's `id`. */
  function RootTraceId(l: Logger): (r: Value)
    ensures l.trace.None? ==> r == Null
    ensures l.trace.Some? ==> r == Get(l.trace.value, "id")
  {
    if l.trace.None? then Null else Get(l.trace.value, "id")
  }

  /** `currentTraceId`: null without a trace, else the trace's `current`. */
  function CurrentTraceId(l: Logger): (r: Value)
    ensures l.trace.None? ==> r == Null
    ensures l.trace.Some? ==> r == Get(l.trace.value, "current")
  {
    if l.trace.None? then Null else Get(l.trace.value, "current")
  }

  /** `buildTraceObject(this, trace, tags)` for this logger. */
  function TraceFor(l: Logger, trace: Value, tags: Value): (r: Option<Fields>)
    ensures r.Some? <==> !Truthy(Get(l.options, "disableTraceLogging")) && l.trace.Some? && Truthy(Get(l.trace.value, "id"))
    ensures r.Some? ==> forall k :: k in Spread(trace) && k != "tags" ==> k in r.value && r.value[k] == Spread(trace)[k]
  {
    BuildTraceObject(Truthy(Get(l.options, "disableTraceLogging")), TraceValue(l), trace, tags)
  }

  /**
   * `{ ...defaults, ...{ time, level, msg }, ...extras }` where the extras
   * are the call's options minus `trace` and `tags`: the extras win, then
   * the call's own fields, then the defaults.
   */
  function MergeRecord(defaults: Fields, msg: Value, options: Fields, level: int, now: Value): (r: Fields)
    ensures var extras := options - {"trace", "tags"};
      && (forall k :: k in r <==> k in defaults || k in extras || k == "time" || k == "level" || k == "msg")
      && (forall k :: k in extras ==> r[k] == extras[k])
      && ("time" !in extras ==> r["time"] == now)
      && ("level" !in extras ==> r["level"] == Num(level))
      && ("msg" !in extras ==> r["msg"] == msg)
      && (forall k :: k in defaults && k !in extras && k != "time" && k != "level" && k != "msg" ==> r[k] == defaults[k])
  {
    var own := defaults + map["time" := now, "level" := Num(level), "msg" := msg];
    assert own["time"] == now && own["level"] == Num(level) && own["msg"] == msg;
    own + (options - {"trace", "tags"})
  }

  /**
   * `createDefaultLogObject`: the merged record, with a `trace` field
   * exactly when buildTraceObject is not null, and then that object.
   */
  function CreateDefaultLogObject(l: Logger, msg: Value, options: Fields, level: int, now: Value): (r: Fields)
    requires "trace" !in l.defaultLog
    ensures var log := MergeRecord(l.defaultLog, msg, options, level, now);
            && (forall k :: k in log ==> k in r && (k != "trace" ==> r[k] == log[k]))
            && (forall k :: k in r && k != "trace" ==> k in log)
    ensures "trace" in r <==> TraceFor(l, Get(options, "trace"), Get(options, "tags")).Some?
    ensures "trace" in r ==> r["trace"] == Obj(TraceFor(l, Get(options, "trace"), Get(options, "tags")).value)
  {
    var log := MergeRecord(l.defaultLog, msg, options, level, now);
    assert "trace" !in log;
    WithTrace(log, TraceFor(l, Get(options, "trace"), Get(options, "tags")))
  }

  /** `if (trace) log.trace = trace` on a record that has no `trace` yet. */
  function WithTrace(log: Fields, t: Option<Fields>): (r: Fields)
    requires "trace" !in log
    ensures forall k :: k in log ==> k in r && r[k] == log[k]
    ensures forall k :: k in r && k != "trace" ==> k in log
    ensures "trace" in r <==> t.Some?
    ensures t.Some? ==> r["trace"] == Obj(t.value)
  {
    if t.Some? then log["trace" := Obj(t.value)] else log
  }

  /**
   * `options.trace = options.trace || {}; options.trace.status = status`:
   * the status lands in the call's trace, and writing it to a truthy
   * primitive trace throws. (A function trace gains the property too; it is
   * represented here by the object of its own properties.)
   */
  function WithStatus(options: Fields, status: string): (r: Result<Fields>)
    ensures var t := Get(options, "trace");
            r.Failure? <==> Truthy(t) && !IsObjectLike(t)
    ensures r.Failure? ==> r.error == TypeError
    ensures r.Success? ==>
      && r.value.Keys == options.Keys + {"trace"}
      && (forall k :: k in options && k != "trace" ==> r.value[k] == options[k])
      && r.value["trace"].Obj?
      && r.value["trace"].fields == Spread(Get(options, "trace"))["status" := Str(status)]
  {
    var t := Get(options, "trace");
    if Truthy(t) && !IsObjectLike(t) then Failure(TypeError)
    else Success(options["trace" := Obj(Spread(t)["status" := Str(status)])])
  }

  /** `end`: `writeLog` at info level with `trace.status = 'end'`, not filtered. */
  function End(msg: Value, options: Fields): (c: Result<WriteCall>)
    ensures c.Failure? <==> WithStatus(options, "end").Failure?
    ensures c.Success? ==> c.value == WriteCall(msg, WithStatus(options, "end").value, Severity(Info))
  {
    var o := WithStatus(options, "end");
    if o.Failure? then Failure(o.error) else Success(WriteCall(msg, o.value, Severity(Info)))
  }

  /** `complete`: `writeLog` at info level with `trace.status = 'complete'`, not filtered. */
  function Complete(msg: Value, options: Fields): (c: Result<WriteCall>)
    ensures c.Failure? <==> WithStatus(options, "complete").Failure?
    ensures c.Success? ==> c.value == WriteCall(msg, WithStatus(options, "complete").value, Severity(Info))
  {
    var o := WithStatus(options, "complete");
    if o.Failure? then Failure(o.error) else Success(WriteCall(msg, o.value, Severity(Info)))
  }

  /**
   * `end` writes even where `info` is filtered out, and on a logger whose
   * trace has an id the record it builds carries `status: 'end'` in its
   * trace, with the logger's other trace fields.
   */
  lemma EndBypassesFilterAndTagsTrace(l: Logger, msg: Value, options: Fields, now: Value)
    requires "trace" !in l.defaultLog
    requires IsObjectLike(Get(options, "trace")) || !Truthy(Get(options, "trace"))
    requires l.trace.Some? && Truthy(Get(l.trace.value, "id"))
    requires !Truthy(Get(l.options, "disableTraceLogging"))
    ensures End(msg, options).Success?
    ensures var c := End(msg, options).value;
            var rec := CreateDefaultLogObject(l, c.msg, c.options, c.level, now);
            && c.level == Severity(Info)
            && "trace" in rec && rec["trace"].Obj?
            && "status" in rec["trace"].fields && rec["trace"].fields["status"] == Str("end")
            && (forall k :: k in l.trace.value && k !in Spread(Get(options, "trace")) && k != "status" && k != "tags" ==>
                  k in rec["trace"].fields && rec["trace"].fields[k] == l.trace.value[k])
  {
    var c := End(msg, options).value;
    var call := Get(c.options, "trace");
    assert "status" in Spread(call);
    BuildTraceObjectOverlays(false, TraceValue(l), call, Get(c.options, "tags"));
  }

  /**
   * On a logger whose trace has an id, the record built from the options
   * `end` or `complete` produces carries the given status in its trace.
   */
  lemma StatusTagsTrace(l: Logger, msg: Value, options: Fields, status: string, now: Value)
    requires "trace" !in l.defaultLog
    requires IsObjectLike(Get(options, "trace")) || !Truthy(Get(options, "trace"))
    requires l.trace.Some? && Truthy(Get(l.trace.value, "id"))
    requires !Truthy(Get(l.options, "disableTraceLogging"))
    ensures WithStatus(options, status).Success?
    ensures var rec := CreateDefaultLogObject(l, msg, WithStatus(options, status).value, Severity(Info), now);
            && "trace" in rec && rec["trace"].Obj?
            && "status" in rec["trace"].fields && rec["trace"].fields["status"] == Str(status)
  {
    var o := WithStatus(options, status).value;
    var call := Get(o, "trace");
    assert "status" in Spread(call);
    BuildTraceObjectOverlays(false, TraceValue(l), call, Get(o, "tags"));
  }

  /**
   * Under any minimum above `info` an `info` call is dropped, yet `end`
   * still writes at info level: it never consults the minimum.
   */
  lemma EndIgnoresMinimumLevel(min: Level, msg: Value, options: Fields)
    requires Severity(Info) < Severity(min)
    ensures WriteLogWithLevel(Str(Name(min)), msg, options, Severity(Info)).None?
    ensures End(msg, options).Success? ==> End(msg, options).value.level == Severity(Info)
  {
    LevelTableRoundTrip(min);
  }
}

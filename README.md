# hood logger — a Dafny model

This project models the logging core of the hood JavaScript logger and
proves properties of it. It covers:

- the shared helpers: the level table, the level filter, random ids and the trace merge;
- the `BaseLogger` class: construction, root and child trace derivation, trace context, record assembly, `end` and `complete`;
- the remote backend. Every logger derived from a root `RemoteLogger` buffers records in the root. A flush that is due sends the whole buffer in one HTTP post;
- the two legacy loggers. `HoodLogger` mints 19-digit template ids and writes to two injectable streams. `TraceLogger` keeps the caller's trace, never mints a root id and writes to the console.

Modules:

| file | module | models |
|---|---|---|
| js.dfy | `Js` | the JavaScript values the core handles: truthiness, `\|\|`, property lookup, object spread, `String(x)`, strict-mode property writes |
| errors.dfy | `Errors` | `ErrorHoodLogger`, `ErrorTraceLogger`, `TypeError`; `Result` and `Option` |
| functions.dfy | `Functions` | src/libs/functions.js |
| base_logger.dfy | `BaseLogger` | src/libs/baseLogger.js |
| remote_logger.dfy | `RemoteLoggers` | src/loggers/remoteLogger.js (a `class` over the root's buffer) |
| hood_logger.dfy | `HoodLoggers` | src/hoodLogger.js |
| trace_logger.dfy | `TraceLoggers` | src/traceLogger.js |

The model's parameters stand in for the environment:

- `Math.random()` is a sequence of draws in [0, 1).
- `Date.now()` is a `nat`, and `new Date()` is a `Value`.
- `process.pid` and `os.hostname()` form a `Host`.
- `bignum.rand(…)` is a `nat`.
- `JSON.stringify(log).length` is a function `Fields -> nat`.
- The HTTP client and its config are `Value`s. A post is the `PostCall` the flush returns.
- A stream call is the `Line` a write returns.

Loggers whose fields are set once are datatypes: `BaseLogger.Logger`, `HoodLoggers.HoodLogger` and `TraceLoggers.TraceLogger`. The root `RemoteLogger` changes its buffer in place, so it is a `class` whose methods are proved against `FlushStep` and `AppendStep`.

Every class body is strict-mode code, so writing a property of a truthy primitive throws a `TypeError`. The model keeps these error paths:

- a string or number `trace` passed to a constructor;
- a string or number `options.trace` passed to `end` or `complete`.

## Model

src/hoodLogger.js repeats parts of the shared core. These copies are modelled by the shared members and have no rows of their own:

- its level table (lines 5-18), `getRandomStringId` (294-305) and `buildTraceObject` (331-351) are the ones in src/libs/functions.js;
- its accessors (87-102) and `getTraceContext` (175-179) are BaseLogger's.

| member | source | states |
|---|---|---|
| Functions.LevelTableRoundTrip | src/libs/functions.js:1-14 | each level name maps to its severity, and each severity, as a key, maps back to the name |
| Functions.LevelTableKeys | src/libs/functions.js:1-14 | the table holds exactly the six names and the six severity keys |
| Functions.WriteLogWithLevel | src/libs/functions.js:16-22 | drops the call exactly when `level < levels[minLevel]`; otherwise forwards msg, options and level unchanged |
| Functions.FilterFollowsSeverity | src/libs/functions.js:16-22 | for a minimum given by level name, a call is dropped iff its severity is below the minimum's |
| Functions.DefaultMinimumDropsVerboseAndDebug | src/libs/functions.js:16-22 | at minimum 'info' exactly verbose and debug are dropped |
| Functions.DefaultThreshold | src/libs/functions.js:1-14 | against the threshold `levels['info']`, exactly verbose and debug are below |
| Functions.UnknownMinimumFiltersNothing | src/libs/functions.js:17 | a minimum that names no level (it compares as NaN) filters nothing |
| Functions.NumericKeysAcceptedButFilterNothing | src/libs/functions.js:17 | '10'…'60' are truthy table keys, so they pass the validity test, yet as a minimum they filter nothing |
| Functions.RandomBelow | src/libs/functions.js:33 | `Math.floor(r * bound)` for a draw in [0, 1) is below the bound |
| Functions.HexValue | src/libs/functions.js:38 | inverse of the hex digit `toString(16)` produces |
| Functions.HexDigitsDecode | src/libs/functions.js:38 | digit i of the hex string encodes draw i |
| Functions.GetRandomHexStringId | src/libs/functions.js:37-39 | `'0x'` followed by `strlen` lower-case hex digits, digit i being `floor(16·draw i)` |
| Functions.FillTemplateAt | src/libs/functions.js:24-35 | the id has the template's length; literals are kept; the k-th 'd' takes the k-th timestamp digit while digits remain; 'x' gives 0-9, and 'y' or an exhausted 'd' gives 0-8 |
| Functions.FillTemplate | src/libs/functions.js:24-35 | the `replace` over the template: the id has the template's length, and FillTemplateAt states each of its characters |
| Functions.GetRandomStringId | src/libs/functions.js:24-35 | the loop with its countdown `index` builds exactly the template fill `FillTemplate` defines |
| Functions.BuildTraceObject | src/libs/functions.js:41-61 | null iff tracing is disabled or the logger's trace has no truthy id; otherwise the logger's trace overlaid by the call's, with truthy call tags winning |
| Functions.BuildTraceObjectOverlays | src/libs/functions.js:46-60 | apart from `tags`, the trace object is exactly the call's trace spread over the logger's |
| Functions.NoTagsWithoutTags | src/libs/functions.js:47-59 | no `tags` key appears unless the call or one of the traces supplies it |
| Functions.CallTraceCannotStartATrace | src/libs/functions.js:53-55 | per-call trace or tags never make an untraced logger emit a trace |
| BaseLogger.PromoteTrace | src/libs/baseLogger.js:40-47 | the stored trace is the given one plus `id` and `current`; truthy given values are kept, falsy ones replaced by fresh ids, and other fields copied |
| BaseLogger.DefaultLog | src/libs/baseLogger.js:33-38 | the keys are exactly name, pid, hostname and v; `v = (version \|\| 0).toString()`: "0" for a falsy version, a non-empty string itself, a positive number its decimal digits, `true` "true", an object "[object Object]" |
| BaseLogger.Construct | src/libs/baseLogger.js:24-48 | fails with ErrorHoodLogger('Missing mandatory parameter: name') iff the name is falsy, and with a TypeError for a truthy primitive trace; otherwise minLevel defaults to 'info', the options minus minLevel/trace are kept, and a truthy trace is promoted |
| BaseLogger.New | src/libs/baseLogger.js:24-48 | fails iff the name is falsy or the trace is a truthy primitive; otherwise keeps the name and the options minus minLevel/trace, and is traced iff the trace option is truthy (NewTraceIds states the ids) |
| BaseLogger.Retained | src/libs/baseLogger.js:28 | the kept options are the input without `minLevel` and `trace`, values unchanged |
| BaseLogger.HexIds | src/libs/baseLogger.js:43-44 | a missing root id is `0x` + 32 hex digits and a missing span id `0x` + 16 |
| BaseLogger.NewTraceIds | src/libs/baseLogger.js:40-47 | with an object trace both ids are truthy, and minted ones have the hex shape; without a trace both accessors are null |
| BaseLogger.ResolveMinLevel | src/libs/baseLogger.js:176 | the requested level when `levels[minLevel]` is truthy, else the inherited one |
| BaseLogger.ValidLevelIsKey | src/libs/baseLogger.js:176 | outside the Object.prototype names, "valid" means "is a key of the table" |
| BaseLogger.DerivedOptions | src/libs/baseLogger.js:175-178 | the derived options are the kept ones overridden by the call's, with minLevel and trace set |
| BaseLogger.RootTrace | src/libs/baseLogger.js:178 | the derived trace is always truthy: the call's truthy trace, else `{}` |
| BaseLogger.RootTraceOptions | src/libs/baseLogger.js:174-179 | the options a root derivation passes on: the kept options overridden by the call's, minLevel resolved, and a trace that is always truthy, the call's own when truthy (RootDerivationOptions) |
| BaseLogger.DeriveRoot | src/libs/baseLogger.js:174-180 | a falsy name throws ErrorHoodLogger('Missing mandatory parameter: name'); with a truthy name, a derived trace that is a truthy primitive throws a TypeError; otherwise the name is kept and the trace is the derived trace promoted (RootDerivationIsTraced) |
| BaseLogger.ChildTrace | src/libs/baseLogger.js:209-211 | the parent's trace without `current`, with `parent` set to the parent's current, overlaid by the call's trace |
| BaseLogger.ChildTraceOptions | src/libs/baseLogger.js:203-213 | throws "Can't create child trace logger from global logger." iff the logger has no trace |
| BaseLogger.RootDerivationOptions | src/libs/baseLogger.js:174-180 | a root derivation fails only for a falsy name; the level is resolved and the options overridden |
| BaseLogger.RootDerivationIsTraced | src/libs/baseLogger.js:174-180 | a derived root is always traced; its id is the given truthy id, else a fresh one |
| BaseLogger.ChildDerivationOptions | src/libs/baseLogger.js:203-214 | on a traced logger a child derivation fails only for a falsy name; level and options are derived as for a root |
| BaseLogger.DeriveChild | src/libs/baseLogger.js:203-214 | throws "Can't create child trace logger from global logger." without a parent trace; on a traced logger a falsy name, and only a falsy name, throws ErrorHoodLogger('Missing mandatory parameter: name'); a child keeps the name and is traced (ChildDerivationLinksSpans states its ids) |
| BaseLogger.ChildTraceIds | src/libs/baseLogger.js:209-211 | the promoted child trace keeps the parent's id, links `parent` to the parent's current, and mints `current`, unless the call's trace overrides a field |
| BaseLogger.ChildDerivationLinksSpans | src/libs/baseLogger.js:203-214 | a child keeps the root id, its parent is the parent's current span, and its current span is fresh |
| BaseLogger.ChildDerivationTrace | src/libs/baseLogger.js:209-213 | the child's trace is its starting trace, promoted |
| BaseLogger.ChildOfUntracedFails | src/libs/baseLogger.js:204-206 | deriving a child from an untraced logger throws, whatever the name |
| BaseLogger.ChildKeepsRootId | src/libs/baseLogger.js:203-214 | a child derived with a truthy name and no `id` override succeeds and keeps its parent's truthy root id |
| BaseLogger.RootIdStableAlongChain | src/libs/baseLogger.js:203-214 | down any chain of child derivations with truthy names that does not override `id`, every step succeeds and the root id is unchanged |
| BaseLogger.GetTraceContext | src/libs/baseLogger.js:230-236 | the two trace headers from id and current, overridden by `options.headers`; a TypeError without a trace |
| BaseLogger.RootTraceId | src/libs/baseLogger.js:243-248 | null without a trace, else the trace's id |
| BaseLogger.CurrentTraceId | src/libs/baseLogger.js:253-258 | null without a trace, else the trace's current |
| BaseLogger.MergeRecord | src/libs/baseLogger.js:281-286 | the call's options (minus trace and tags) win over time/level/msg, which win over the defaults |
| BaseLogger.CreateDefaultLogObject | src/libs/baseLogger.js:280-293 | the merged record, with a `trace` field exactly when the trace object is not null |
| BaseLogger.TraceFor | src/libs/baseLogger.js:288 | a trace object exists iff tracing is not disabled and the logger's trace has a truthy id; it carries every field of the call's trace except tags (BuildTraceObjectOverlays) |
| BaseLogger.WithStatus | src/libs/baseLogger.js:140-142 | the call's trace gains `status`; a truthy primitive trace throws a TypeError |
| BaseLogger.End | src/libs/baseLogger.js:139-144 | an unfiltered info-level write with `status: 'end'` |
| BaseLogger.Complete | src/libs/baseLogger.js:155-160 | an unfiltered info-level write with `status: 'complete'` |
| BaseLogger.EndBypassesFilterAndTagsTrace | src/libs/baseLogger.js:139-144 | on a traced logger, the record `end` writes has `status: 'end'` in its trace plus the logger's other trace fields |
| BaseLogger.StatusTagsTrace | src/libs/baseLogger.js:139-160 | on a traced logger, the record built from the options `end` or `complete` produces carries that status in its trace |
| BaseLogger.EndIgnoresMinimumLevel | src/libs/baseLogger.js:139-144 | under every minimum above info (warn, error, fatal) an info call is dropped, yet `end` still writes at info |
| RemoteLoggers.ThresholdOf | src/loggers/remoteLogger.js:12-13 | `x >= (v \|\| default)`: a falsy value gives the default, a number or digit string its value, `true` 1, and anything else NaN, which nothing reaches |
| RemoteLoggers.DecimalStringThreshold | src/loggers/remoteLogger.js:12-13 | a limit given as a decimal string counts like the number it spells |
| RemoteLoggers.LimitsOf | src/loggers/remoteLogger.js:12-13 | by default at most 10 flush calls and 100000 characters |
| RemoteLoggers.Post | src/loggers/remoteLogger.js:48-49 | posts url, payload and options from the config; a nullish config or a missing `post` rejects, with the records already removed |
| RemoteLoggers.FlushStep | src/loggers/remoteLogger.js:35-50 | bumps the counter; unless counter or size reached its maximum nothing else changes, otherwise everything resets and the whole buffer goes out in one `post(url, payload, options)` built from the client config (Post) |
| RemoteLoggers.AppendStep | src/loggers/remoteLogger.js:26-33 | appends the record and its JSON length; at the size maximum the flush proceeds and posts every buffered record, the new one last, through Post |
| RemoteLoggers.FlushKeepsAccounting | src/loggers/remoteLogger.js:43-46 | after a flush the size is still the JSON length of the buffered records |
| RemoteLoggers.AppendKeepsAccounting | src/loggers/remoteLogger.js:28-29 | so it is after a write |
| RemoteLoggers.RunConservesRecords | src/loggers/remoteLogger.js:26-50 | over any sequence of writes and flushes, the records sent, followed by those still buffered, are the earlier buffer followed by every record written, in order |
| RemoteLoggers.RunKeepsAccounting | src/loggers/remoteLogger.js:26-50 | the size stays the JSON length of the buffered records along any run |
| RemoteLoggers.FlushesBelowCountHold | src/loggers/remoteLogger.js:37-42 | below the count and size maxima, k flushes post nothing and only add k to the counter |
| RemoteLoggers.CountedFlushPosts | src/loggers/remoteLogger.js:37-49 | the flush that brings the counter to its maximum sends the whole buffer |
| RemoteLoggers.DefaultFlushAfterTwoRecordsHolds | test/remoteLogger.spec.js:35-64 | with default limits, two small records and one `flush()` post nothing: the counter is 1 of 10 |
| RemoteLoggers.RemoteLogger.constructor | src/loggers/remoteLogger.js:4-18 | without a parent logger: a root with an empty buffer and the options' limits; otherwise it shares the given root |
| RemoteLoggers.RemoteLogger.Create | src/loggers/remoteLogger.js:4-18 | fails exactly as the BaseLogger constructor does; otherwise a fresh root |
| RemoteLoggers.RemoteLogger.CreateChildClassLogger | src/loggers/remoteLogger.js:20-24 | a client-less instance sharing this logger's root |
| RemoteLoggers.RemoteLogger.CreateRootTraceLogger | src/libs/baseLogger.js:174-180 | the BaseLogger root derivation, built as an instance that shares the root |
| RemoteLoggers.RemoteLogger.CreateChildTraceLogger | src/libs/baseLogger.js:203-214 | the BaseLogger child derivation, built as an instance that shares the root |
| RemoteLoggers.RemoteLogger.WriteLog | src/loggers/remoteLogger.js:26-33 | whichever instance writes, the root's buffer changes exactly as AppendStep says |
| RemoteLoggers.RemoteLogger.Push | src/loggers/remoteLogger.js:28-32 | the root's fields change as AppendStep says |
| RemoteLoggers.RemoteLogger.Append | src/loggers/remoteLogger.js:28-29 | the record is pushed at the end of the root's logs and its JSON length added to the payload size; the counter is untouched and the buffer invariant kept |
| RemoteLoggers.RemoteLogger.Flush | src/loggers/remoteLogger.js:35-50 | on the root the fields change as FlushStep says; on a derived instance nothing is sent or changed |
| RemoteLoggers.RemoteLogger.Log | src/libs/baseLogger.js:59-128 | writes iff the level is not below the minimum, and then changes the root's buffer as AppendStep says |
| RemoteLoggers.RemoteLogger.End | src/libs/baseLogger.js:139-144 | a TypeError leaves the buffer untouched; otherwise the status-tagged info record is appended |
| RemoteLoggers.RemoteLogger.Complete | src/libs/baseLogger.js:155-160 | as End, with `status: 'complete'` |
| HoodLoggers.IdTemplateSpelling | src/hoodLogger.js:55-56 | the id template is `yxxxxxxxxxxxxxxxxxx` |
| HoodLoggers.TemplateIdShape | src/hoodLogger.js:294-305 | filling that template gives 19 decimal digits, the first 0-8 |
| HoodLoggers.TemplateIdsShape | src/hoodLogger.js:55-56 | both minted ids have that shape |
| HoodLoggers.TemplateIds | src/hoodLogger.js:55-56 | the two minted ids are strings of the template's length (TemplateIdsShape: 19 digits, the first 0-8) |
| HoodLoggers.StreamOption | src/hoodLogger.js:51-52 | the given truthy stream, else the console |
| HoodLoggers.New | src/hoodLogger.js:38-60 | fails exactly as the BaseLogger constructor does; otherwise the same state plus the streams named by the options |
| HoodLoggers.NewTemplateTraceIds | src/hoodLogger.js:54-57 | with an object trace lacking id or current, those ids are template ids |
| HoodLoggers.CreateRootTraceLogger | src/hoodLogger.js:116-122 | fails exactly when the BaseLogger root derivation does, with the same error; otherwise that derivation built as a HoodLogger whose streams follow its options |
| HoodLoggers.CreateChildTraceLogger | src/hoodLogger.js:145-156 | fails exactly when the BaseLogger child derivation does, with the same error (the untraced error first); otherwise that derivation built as a HoodLogger |
| HoodLoggers.DerivedStreams | src/hoodLogger.js:118-121 | derived options without streams keep the parent's |
| HoodLoggers.RootKeepsStreams | src/hoodLogger.js:116-122 | a derived root writes where its parent writes unless the call names a stream |
| HoodLoggers.ChildKeepsStreams | src/hoodLogger.js:145-156 | likewise for a child |
| HoodLoggers.SinkFor | src/hoodLogger.js:190-259 | error and fatal go to the error stream, the other levels to the log stream |
| HoodLoggers.Write | src/hoodLogger.js:320 | calling an injected non-function stream throws a TypeError |
| HoodLoggers.Log | src/hoodLogger.js:307-329 | nothing below the minimum; otherwise one line with the record, on the level's stream |
| HoodLoggers.LogLines | src/hoodLogger.js:323-329 | with a callable stream a level call writes 0 or 1 lines, as the filter says |
| HoodLoggers.DefaultLevelLog | src/hoodLogger.js:307-329 | at the default minimum 'info' a verbose or debug call writes nothing; any other level writes one line on its stream |
| HoodLoggers.InfoErrorDebugWriteTwoLines | test/hoodLogger.spec.js:52-69 | the two lines that test expects, proved for the class in src/hoodLogger.js: at the default minimum, info writes one line on the log stream, error one on the error stream, debug nothing. The test itself imports the class from src/loggers/hoodLogger.js (through src/index.js:2), whose writes throw (see "## Left out"), so this does not claim the test passes |
| HoodLoggers.End | src/hoodLogger.js:270-275 | an unfiltered info line on the log stream with `status: 'end'` |
| HoodLoggers.Complete | src/hoodLogger.js:286-291 | the same with `status: 'complete'` |
| HoodLoggers.EndWritesStatus | src/hoodLogger.js:270-275 | on a traced logger with a callable log stream, `end` writes one line to the log stream whose trace has `status: 'end'` |
| HoodLoggers.CompleteWritesStatus | src/hoodLogger.js:286-291 | the same for `complete` with `status: 'complete'` |
| TraceLoggers.TraceLevelTableRoundTrip | src/traceLogger.js:7-20 | the table maps 'trace' … 'fatal' to 10…60 and back |
| TraceLoggers.TraceFilterFollowsSeverity | src/traceLogger.js:130-132 | for a minimum given by level name, a call is dropped iff its severity is below the minimum's |
| TraceLoggers.VerboseFiltersNothing | src/traceLogger.js:7-20 | 'verbose' names no level here, so as a minimum it filters nothing |
| TraceLoggers.DefaultLog | src/traceLogger.js:37-39 | name, pid, hostname, and `v` always the number 0 |
| TraceLoggers.Promote | src/traceLogger.js:33-36 | the stored trace gains only `current`, the given truthy one or the random draw; no id is added |
| TraceLoggers.New | src/traceLogger.js:26-45 | fails with ErrorTraceLogger('Missing mandatory parameter: name') for a falsy name and a TypeError for a truthy primitive trace; otherwise the name, the level (default 'info'), the trace and the options as given |
| TraceLoggers.TraceId | src/traceLogger.js:61-66 | null without a trace, else its id |
| TraceLoggers.CurrentId | src/traceLogger.js:68-73 | null without a trace, else its current |
| TraceLoggers.NewTraceIds | src/traceLogger.js:33-36 | the id is only ever the caller's; current is the caller's truthy one, else the draw |
| TraceLoggers.ResolveMinLevel | src/traceLogger.js:77 | the requested level when this file's table has a truthy entry for it, else the inherited one |
| TraceLoggers.MergedOptions | src/traceLogger.js:79 | the parent's options overridden by the call's |
| TraceLoggers.CreateRootTraceLogger | src/traceLogger.js:75-81 | succeeds whenever either name is truthy; always traced with a copy of the given trace |
| TraceLoggers.ChildTrace | src/traceLogger.js:89-93 | the parent's trace without current, `parent` set to it, tags replaced only by truthy tags |
| TraceLoggers.CreateChildTraceLogger | src/traceLogger.js:83-96 | throws "Cant create child trace logger from global logger" without a trace; inherits a falsy name or level with no validity check |
| TraceLoggers.ChildLinksToParent | src/traceLogger.js:89-95 | a child keeps the root id, its parent is the parent's current, and its current is the fresh draw |
| TraceLoggers.GetHeaders | src/traceLogger.js:98-102 | throws without a trace or with nullish options; otherwise the two headers overridden by `options.headers` |
| TraceLoggers.MergeRecord | src/traceLogger.js:134-137 | all of `obj`, trace and tags included, wins over time/level/msg, which win over the defaults |
| TraceLoggers.Record | src/traceLogger.js:139-142 | the merge, with `trace` replaced exactly when a trace object is built |
| TraceLoggers.TraceFor | src/traceLogger.js:147-167 | a trace object exists iff the logger's trace has a truthy id and tracing is not disabled, the `disable_trace_logging` flag being read only from truthy options (IdlessNeverTraces) |
| TraceLoggers.StreamFor | src/traceLogger.js:104-126 | error and fatal go to console.error, the rest to console.log |
| TraceLoggers.Log | src/traceLogger.js:129-145 | nothing below the minimum; otherwise one line with the record, on the level's stream |
| TraceLoggers.IdlessNeverTraces | src/traceLogger.js:159-161 | a logger whose trace has no truthy id adds no trace object to any record |
| TraceLoggers.RootWithoutIdNeverTraces | src/traceLogger.js:75-81 | a derived root built from a trace without id never emits a trace object |
| TraceLoggers.ChildOfIdlessNeverTraces | src/traceLogger.js:83-96 | nor does a child of such a logger |

## Left out

- `listenUncaughtException` in all three classes: it only installs a process handler and a timer.
- The exported HoodLogger in src/loggers/hoodLogger.js is not part of this model. Its constructor takes the streams as src/hoodLogger.js does. Its `writeLog` (lines 12-22) picks the stream with `errorStreamLevels.contains(level)` at line 17. Arrays have no `contains` method, so every write that passes the level filter throws a TypeError before anything is written. Even with `includes`, `level` is the numeric severity and would never match the level names. Routing by level is modelled from src/hoodLogger.js instead (HoodLoggers.SinkFor: error and fatal go to the error stream).
- The error classes, src/index.js and the dependency-injection metadata are not part of this model: they hold no logic beyond construction.
- `JSON.stringify` and the post are abstractions. A record's JSON size is a parameter. The post is returned as a `PostCall` value, and a stream call as a `Line`.
- `flush` is `async`: the model returns the post it starts and does not model the promise or its timing.
- Spreading a string copies its characters. The model spreads every non-object value to `{}`, so string options, traces and headers are not modelled.
- Options that are not objects, or nullish (`options \|\| {}`), are not modelled. Every base and hood function takes the options as `Fields`; a missing argument is the empty map.
- Aliasing is not modelled. The constructors write `id` and `current` into the caller's trace object, and `end` and `complete` write `status` into the caller's options. The model returns new values and does not show those writes to the caller's objects. The legacy TraceLogger stores the caller's trace object itself.
- Numbers are integers: floating point, NaN literals and `Math.random`'s double are not modelled. A draw is a real in [0, 1).
- TraceLoggers.New: `bignum.rand(18446744073709551615).toNumber()` is a `nat` parameter. Its range and the precision lost in `toNumber()` are not modelled.
- Functions are modelled without own enumerable properties. A function given as a trace is therefore represented by the object of the properties the constructor writes to it.
- RemoteLoggers.ThresholdOf treats every string that is not all digits as NaN. Strings with whitespace, a sign, an exponent, a hex prefix or a fraction, which `Number()` would accept, are not modelled.
- `createChildClassLogger` puts `parentLogger` into the options, and `super` keeps it in `_options`. The model keeps the root in the `root` field and not in `core.options`.
- A `parentLogger` option supplied by a caller that is not a root instance is not modelled.
- RemoteLoggers.RemoteLogger.Flush: on a derived instance, `this._flushCounter++` turns the undefined counter into NaN. The model leaves the unused field unchanged.
- The skipped test at test/remoteLogger.spec.js:35-64 writes info, error and debug, calls `flush()` once, and asserts `httpClientWrapper.data.length == 2`. Its evident intent is that the two unfiltered records are posted. With default limits the counter reaches only 1 of 10, so nothing is posted. RemoteLoggers.DefaultFlushAfterTwoRecordsHolds proves this. The literal assertion would fail anyway: nothing is posted, so `data` stays undefined and reading its `length` throws. After a real post, `data` would be the JSON string of the records (src/loggers/remoteLogger.js:44), whose length counts characters, not records. The test is disabled (`shouldSkip = true`), so this is recorded here and not as a defect.

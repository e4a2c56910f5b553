/**
 * The helpers every logger shares (src/libs/functions.js): the level table,
 * the minimum-level filter, the two random id schemes and the merge that
 * builds the `trace` field of a record.
 */
module Functions {
  import opened Js
  import opened Errors

  /** The six levels, from least to most severe. */
  datatype Level = Verbose | Debug | Info | Warn | Error | Fatal

  function Severity(l: Level): int {
    match l
    case Verbose => 10
    case Debug => 20
    case Info => 30
    case Warn => 40
    case Error => 50
    case Fatal => 60
  }

  /** The level's name in the shared table. */
  function Name(l: Level): string {
    match l
    case Verbose => "verbose"
    case Debug => "debug"
    case Info => "info"
    case Warn => "warn"
    case Error => "error"
    case Fatal => "fatal"
  }

  /** The `levels` object: names to severities and severities back to names. */
  const Levels: Fields := map[
    "verbose" := Num(10), "debug" := Num(20), "info" := Num(30),
    "warn" := Num(40), "error" := Num(50), "fatal" := Num(60),
    "10" := Str("verbose"), "20" := Str("debug"), "30" := Str("info"),
    "40" := Str("warn"), "50" := Str("error"), "60" := Str("fatal")
  ]

  lemma DecimalOfSeverity(l: Level)
    ensures ToJsString(Num(Severity(l))) == [DigitChar(Severity(l) / 10), '0']
  {
    var n := Severity(l);
    assert NatToDecimal(n / 10) == [DigitChar(n / 10)];
  }

  /** Each name maps to its severity and each severity (as a key) back to the name. */
  lemma LevelTableRoundTrip(l: Level)
    ensures Name(l) in Levels && Levels[Name(l)] == Num(Severity(l))
    ensures ToJsString(Num(Severity(l))) in Levels
    ensures Levels[ToJsString(Num(Severity(l)))] == Str(Name(l))
  {
    DecimalOfSeverity(l);
  }

  /** The table holds exactly the six names and the six severities. */
  lemma LevelTableKeys()
    ensures Levels.Keys == (set l: Level :: Name(l)) + (set l: Level :: ToJsString(Num(Severity(l))))
  {
    LevelNames();
    LevelCodes();
  }

  lemma LevelNames()
    ensures (set l: Level :: Name(l)) == {"verbose", "debug", "info", "warn", "error", "fatal"}
  {
    var names := set l: Level :: Name(l);
    assert Name(Verbose) in names && Name(Debug) in names && Name(Info) in names;
    assert Name(Warn) in names && Name(Error) in names && Name(Fatal) in names;
  }

  lemma LevelCodes()
    ensures (set l: Level :: ToJsString(Num(Severity(l)))) == {"10", "20", "30", "40", "50", "60"}
  {
    var codes := set l: Level :: ToJsString(Num(Severity(l)));
    forall l: Level ensures ToJsString(Num(Severity(l))) in {"10", "20", "30", "40", "50", "60"} {
      DecimalOfSeverity(l);
    }
    DecimalOfSeverity(Verbose); DecimalOfSeverity(Debug); DecimalOfSeverity(Info);
    DecimalOfSeverity(Warn); DecimalOfSeverity(Error); DecimalOfSeverity(Fatal);
    assert ToJsString(Num(Severity(Verbose))) in codes && ToJsString(Num(Severity(Debug))) in codes;
    assert ToJsString(Num(Severity(Info))) in codes && ToJsString(Num(Severity(Warn))) in codes;
    assert ToJsString(Num(Severity(Error))) in codes && ToJsString(Num(Severity(Fatal))) in codes;
  }

  /**
   * `level < table[minLevel]`. JavaScript compares a number with a string
   * or `undefined` as NaN, so only a numeric table entry can filter: the
   * table's string entries are level names, which are not numerals.
   */
  predicate BelowMinimum(table: Fields, level: int, minLevel: Value) {
    var threshold := Lookup(table, minLevel);
    threshold.Num? && level < threshold.n
  }

  /** The forwarded call `logger.writeLog(msg, options, level)`. */
  datatype WriteCall = WriteCall(msg: Value, options: Fields, level: int)

  /** `writeLogWithLevel`: drop the call below the minimum level, else forward it unchanged. */
  function WriteLogWithLevel(minLevel: Value, msg: Value, options: Fields, level: int): (r: Option<WriteCall>)
    ensures r.None? <==> BelowMinimum(Levels, level, minLevel)
    ensures r.Some? ==> r.value.msg == msg && r.value.options == options && r.value.level == level
  {
    if BelowMinimum(Levels, level, minLevel) then None else Some(WriteCall(msg, options, level))
  }

  /** For a minimum level given by name, filtering is exactly the severity order. */
  lemma FilterFollowsSeverity(l: Level, min: Level)
    ensures WriteLogWithLevel(Str(Name(min)), Undefined, map[], Severity(l)).None?
            <==> Severity(l) < Severity(min)
  {
    LevelTableRoundTrip(min);
  }

  /** At the default minimum `'info'` only verbose and debug are dropped. */
  lemma DefaultMinimumDropsVerboseAndDebug(l: Level, msg: Value, options: Fields)
    ensures WriteLogWithLevel(Str("info"), msg, options, Severity(l)).None? <==> (l == Verbose || l == Debug)
  {
    DefaultThreshold(l);
  }

  /** The threshold `levels['info']` is 30. */
  lemma DefaultThreshold(l: Level)
    ensures BelowMinimum(Levels, Severity(l), Str("info")) <==> (l == Verbose || l == Debug)
  {
    LevelTableRoundTrip(Info);
  }

  /** A minimum level that names no level filters nothing: `level < undefined` is false. */
  lemma UnknownMinimumFiltersNothing(minLevel: Value, level: int)
    requires forall l: Level :: ToJsString(minLevel) != Name(l)
    ensures WriteLogWithLevel(minLevel, Undefined, map[], level).Some?
  {
    var k := ToJsString(minLevel);
    if k in Levels {
      assert k in {"10", "20", "30", "40", "50", "60"} by {
        assert k != Name(Verbose) && k != Name(Debug) && k != Name(Info);
        assert k != Name(Warn) && k != Name(Error) && k != Name(Fatal);
      }
    }
  }

  /**
   * The strings '10'..'60' are keys of the table, so the validity test
   * `levels[minLevel] ? …` accepts them; as a minimum they then filter
   * nothing, because their entries are level names.
   */
  lemma NumericKeysAcceptedButFilterNothing(l: Level, level: int)
    ensures Truthy(Lookup(Levels, Str(ToJsString(Num(Severity(l))))))
    ensures WriteLogWithLevel(Str(ToJsString(Num(Severity(l)))), Undefined, map[], level).Some?
  {
    LevelTableRoundTrip(l);
  }

  // ----- random ids -----

  /** Draws of `Math.random()`: each in [0, 1). */
  predicate UnitInterval(draws: seq<real>) {
    forall i :: 0 <= i < |draws| ==> 0.0 <= draws[i] < 1.0
  }

  /** `Math.floor(Math.random() * bound)` for the draw `r`. */
  function RandomBelow(r: real, bound: nat): (d: nat)
    requires 0.0 <= r < 1.0 && bound > 0
    ensures d < bound
  {
    var x := r * bound as real;
    ScaledDrawBelow(r, bound as real);
    assert x.Floor as real <= x < bound as real;
    assert x.Floor < bound;
    x.Floor
  }

  lemma ScaledDrawBelow(r: real, b: real)
    requires 0.0 <= r < 1.0 && b > 0.0
    ensures 0.0 <= r * b < b
  {
    assert (1.0 - r) * b > 0.0;
  }

  predicate IsLowerHex(c: char) {
    '0' <= c <= '9' || 'a' <= c <= 'f'
  }

  /** `d.toString(16)` for a single hex digit. */
  function HexDigit(d: nat): (c: char)
    requires d < 16
    ensures IsLowerHex(c)
  {
    if d < 10 then DigitChar(d) else (87 + d) as char
  }

  /** The value of a lower-case hex digit: the inverse of HexDigit. */
  function HexValue(c: char): (d: int)
    requires IsLowerHex(c)
    ensures 0 <= d < 16 && HexDigit(d) == c
  {
    if c <= '9' then c as int - 48 else c as int - 87
  }

  lemma HexDigitRoundTrip(d: nat)
    requires d < 16
    ensures HexValue(HexDigit(d)) == d
  {
  }

  /** One hex digit per draw, in order. */
  function HexDigits(draws: seq<real>): (s: string)
    requires UnitInterval(draws)
    ensures |s| == |draws|
    ensures forall i :: 0 <= i < |s| ==> IsLowerHex(s[i])
  {
    if draws == [] then "" else [HexDigit(RandomBelow(draws[0], 16))] + HexDigits(draws[1..])
  }

  /** Digit `i` of HexDigits encodes draw `i`. */
  lemma {:induction false} HexDigitsDecode(draws: seq<real>, i: nat)
    requires UnitInterval(draws) && i < |draws|
    ensures HexValue(HexDigits(draws)[i]) == RandomBelow(draws[i], 16)
  {
    if i == 0 {
      HexDigitRoundTrip(RandomBelow(draws[0], 16));
    } else {
      HexDigitsDecode(draws[1..], i - 1);
    }
  }

  /** `getRandomHexStringId(strlen)`: `'0x'` and one lower-case hex digit per draw. */
  function GetRandomHexStringId(strlen: nat, draws: seq<real>): (id: string)
    requires |draws| == strlen && UnitInterval(draws)
    ensures |id| == strlen + 2 && id[..2] == "0x"
    ensures forall i :: 2 <= i < |id| ==> IsLowerHex(id[i]) && HexValue(id[i]) == RandomBelow(draws[i - 2], 16)
  {
    var digits := HexDigits(draws);
    forall i | 0 <= i < strlen ensures HexValue(digits[i]) == RandomBelow(draws[i], 16) {
      HexDigitsDecode(draws, i);
    }
    "0x" + digits
  }

  /** The character `strFormat.replace(/[xyd]/g, …)` puts at one position. */
  function TemplateChar(c: char, timestamp: string, consumed: nat, draw: real): char
    requires 0.0 <= draw < 1.0
  {
    if c == 'd' && consumed < |timestamp| then timestamp[consumed]
    else if c == 'x' then DigitChar(RandomBelow(draw, 10))
    else if c == 'y' || c == 'd' then DigitChar(RandomBelow(draw, 9))
    else c
  }

  /**
   * The id `getRandomStringId` builds from a template: `draws[i]` is the
   * random draw available at position `i`, `consumed` the number of
   * timestamp digits the template's earlier 'd's have taken.
   */
  function FillTemplate(strFormat: string, timestamp: string, draws: seq<real>, consumed: nat): (id: string)
    requires |draws| == |strFormat| && UnitInterval(draws)
    ensures |id| == |strFormat|
    decreases |strFormat|
  {
    if strFormat == [] then ""
    else
      var c := strFormat[0];
      [TemplateChar(c, timestamp, consumed, draws[0])]
        + FillTemplate(strFormat[1..], timestamp, draws[1..],
                       if c == 'd' && consumed < |timestamp| then consumed + 1 else consumed)
  }

  /** One position of the template, seen from the suffix that starts at `i`. */
  lemma FillTemplateUnfold(strFormat: string, timestamp: string, draws: seq<real>, i: nat, consumed: nat)
    requires |draws| == |strFormat| && UnitInterval(draws) && i < |strFormat|
    ensures UnitInterval(draws[i..]) && UnitInterval(draws[i + 1..])
    ensures FillTemplate(strFormat[i..], timestamp, draws[i..], consumed)
            == [TemplateChar(strFormat[i], timestamp, consumed, draws[i])]
               + FillTemplate(strFormat[i + 1..], timestamp, draws[i + 1..],
                              if strFormat[i] == 'd' && consumed < |timestamp| then consumed + 1 else consumed)
  {
    assert strFormat[i..][1..] == strFormat[i + 1..];
    assert draws[i..][1..] == draws[i + 1..];
  }

  /** The number of 'd' placeholders in `s`. */
  function CountD(s: string): nat {
    if s == [] then 0 else CountD(s[..|s| - 1]) + (if s[|s| - 1] == 'd' then 1 else 0)
  }

  lemma {:induction false} CountDCons(s: string)
    requires s != []
    ensures CountD(s) == (if s[0] == 'd' then 1 else 0) + CountD(s[1..])
    decreases |s|
  {
    if |s| > 1 {
      CountDCons(s[..|s| - 1]);
      assert s[..|s| - 1][1..] == s[1..][..|s[1..]| - 1];
    } else {
      assert s[1..] == [];
      assert s[..0] == [];
    }
  }

  /**
   * What the id holds at each position: the same length as the template;
   * literal characters are kept; the k-th 'd' takes the k-th timestamp digit
   * while digits remain; 'x' becomes a digit 0-9, 'y' (and an exhausted 'd')
   * a digit 0-8.
   */
  lemma {:induction false} FillTemplateAt(strFormat: string, timestamp: string, draws: seq<real>, consumed: nat, i: nat)
    requires |draws| == |strFormat| && UnitInterval(draws) && i < |strFormat|
    ensures |FillTemplate(strFormat, timestamp, draws, consumed)| == |strFormat|
    ensures var id := FillTemplate(strFormat, timestamp, draws, consumed);
            var c := strFormat[i];
            var k := consumed + CountD(strFormat[..i]);
            && (c !in "xyd" ==> id[i] == c)
            && (c == 'd' && k < |timestamp| ==> id[i] == timestamp[k])
            && (c == 'x' ==> '0' <= id[i] <= '9')
            && ((c == 'y' || (c == 'd' && k >= |timestamp|)) ==> '0' <= id[i] <= '8')
    decreases i
  {
    var c0 := strFormat[0];
    var next := if c0 == 'd' && consumed < |timestamp| then consumed + 1 else consumed;
    if i == 0 {
      assert strFormat[..0] == [];
    } else {
      FillTemplateAt(strFormat[1..], timestamp, draws[1..], next, i - 1);
      CountDCons(strFormat[..i]);
      assert strFormat[..i][1..] == strFormat[1..][..i - 1];
      if c0 == 'd' && consumed >= |timestamp| {
        // every later 'd' is exhausted too
        assert consumed + CountD(strFormat[..i]) >= |timestamp|;
      }
    }
  }

  /**
   * `getRandomStringId(strFormat)` as the source runs it: one pass over the
   * template with a countdown `index` of timestamp digits left, which only a
   * 'd' decrements.
   */
  method GetRandomStringId(strFormat: string, now: nat, draws: seq<real>) returns (id: string)
    requires |draws| == |strFormat| && UnitInterval(draws)
    ensures id == FillTemplate(strFormat, NatToDecimal(now), draws, 0)
  {
    var timestamp := NatToDecimal(now);
    var index := |timestamp|;
    ghost var target := FillTemplate(strFormat, timestamp, draws, 0);
    id := "";
    var i := 0;
    while i < |strFormat|
      invariant 0 <= i <= |strFormat|
      invariant 0 <= index <= |timestamp|
      invariant id + FillTemplate(strFormat[i..], timestamp, draws[i..], |timestamp| - index) == target
    {
      var c := strFormat[i];
      ghost var consumed := |timestamp| - index;
      assert 0.0 <= draws[i] < 1.0;
      var next: char;
      if c == 'd' && index > 0 {
        next := timestamp[|timestamp| - index];
        index := index - 1;
      } else if c == 'x' || c == 'y' || c == 'd' {
        next := DigitChar(RandomBelow(draws[i], if c == 'x' then 10 else 9));
      } else {
        next := c;
      }
      assert next == TemplateChar(c, timestamp, consumed, draws[i]);
      assert |timestamp| - index == if c == 'd' && consumed < |timestamp| then consumed + 1 else consumed;
      FillTemplateStep(strFormat, timestamp, draws, i, consumed, id, next, target);
      id := id + [next];
      i := i + 1;
    }
    assert strFormat[i..] == [];
  }

  /** One iteration of getRandomStringId's loop keeps its invariant. */
  lemma FillTemplateStep(strFormat: string, timestamp: string, draws: seq<real>, i: nat, consumed: nat,
                         id: string, next: char, target: string)
    requires |draws| == |strFormat| && UnitInterval(draws) && i < |strFormat|
    requires id + FillTemplate(strFormat[i..], timestamp, draws[i..], consumed) == target
    requires next == TemplateChar(strFormat[i], timestamp, consumed, draws[i])
    ensures id + [next]
            + FillTemplate(strFormat[i + 1..], timestamp, draws[i + 1..],
                           if strFormat[i] == 'd' && consumed < |timestamp| then consumed + 1 else consumed)
            == target
  {
    FillTemplateUnfold(strFormat, timestamp, draws, i, consumed);
  }

  // ----- the trace field -----

  /** `r` is `{ ...base, ...top }`: every key of either, and `top` wins. */
  ghost predicate IsOverlay(r: Fields, base: Fields, top: Fields) {
    && (forall k :: k in r <==> k in base || k in top)
    && (forall k :: k in top ==> r[k] == top[k])
    && (forall k :: k in base && k !in top ==> r[k] == base[k])
  }

  /**
   * `buildTraceObject`. `disabled` is the logger's disable flag,
   * `loggerTrace` its stored trace (`undefined` when it has none), `trace`
   * and `tags` the per-call overrides. Null when tracing is disabled, or the
   * logger's own trace has no truthy `id`; otherwise the logger's trace
   * overlaid by the call's, with `tags` set from the call's tags if truthy,
   * else left as merged.
   */
  function BuildTraceObject(disabled: bool, loggerTrace: Value, trace: Value, tags: Value): (r: Option<Fields>)
    ensures r.Some? <==> !disabled && Truthy(GetProp(loggerTrace, "id"))
    ensures r.Some? ==>
      var merged := Spread(loggerTrace) + Spread(trace);
      && (forall k :: k in r.value && k != "tags" ==> k in merged && r.value[k] == merged[k])
      && (forall k :: k in merged ==> k in r.value)
      && (Truthy(tags) ==> "tags" in r.value && r.value["tags"] == tags)
      && (!Truthy(tags) ==> r.value == merged)
  {
    if disabled then None
    else
      var t := Spread(loggerTrace) + Spread(trace);
      var tTags := if Truthy(tags) then tags else Get(t, "tags");
      if |t| == 0 && !Truthy(tTags) then None
      else if !Truthy(loggerTrace) || !Truthy(GetProp(loggerTrace, "id")) then None
      else if Truthy(tTags) then Some(t["tags" := tTags])
      else Some(t)
  }

  /** The merge: the logger's fields, overlaid by the call's, plus tags. */
  lemma BuildTraceObjectOverlays(disabled: bool, loggerTrace: Value, trace: Value, tags: Value)
    requires BuildTraceObject(disabled, loggerTrace, trace, tags).Some?
    ensures var r := BuildTraceObject(disabled, loggerTrace, trace, tags).value;
            IsOverlay(r - {"tags"}, Spread(loggerTrace) - {"tags"}, Spread(trace) - {"tags"})
  {
  }

  /** No `tags` key is added when neither the call nor either trace has tags. */
  lemma NoTagsWithoutTags(disabled: bool, loggerTrace: Value, trace: Value, tags: Value)
    requires BuildTraceObject(disabled, loggerTrace, trace, tags).Some?
    requires !Truthy(tags) && "tags" !in Spread(loggerTrace) && "tags" !in Spread(trace)
    ensures "tags" !in BuildTraceObject(disabled, loggerTrace, trace, tags).value
  {
  }

  /** Per-call trace or tags cannot make an untraced logger emit a trace. */
  lemma CallTraceCannotStartATrace(disabled: bool, trace: Value, tags: Value)
    ensures BuildTraceObject(disabled, Undefined, trace, tags).None?
    ensures BuildTraceObject(disabled, Obj(map[]), trace, tags).None?
  {
  }
}

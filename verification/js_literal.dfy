/** The string literals the template compiler emits (packages/parser/src/js_literal.ts): whatever the
    author typed, evaluating the literal gives it back. */
module JsLiterals {
  import opened JsStrings

  datatype Value = Bad | Text(s: JsString)

  // ----- what JavaScript makes of a literal -----

  function HexValue(u: Unit): (n: int)
    ensures -1 <= n < 16
  {
    if 0x30 <= u <= 0x39 then u - 0x30
    else if 0x61 <= u <= 0x66 then u - 0x61 + 10
    else if 0x41 <= u <= 0x46 then u - 0x41 + 10
    else -1
  }

  predicate IsHex(s: JsString) { forall i :: 0 <= i < |s| ==> HexValue(s[i]) >= 0 }

  function FromHex(s: JsString): (u: Unit)
    requires |s| == 4 && IsHex(s)
  {
    HexValue(s[0]) * 0x1000 + HexValue(s[1]) * 0x100 + HexValue(s[2]) * 0x10 + HexValue(s[3])
  }

  /** The unit an escape letter stands for (single escape characters of ECMAScript, otherwise itself). */
  function Unescaped(letter: Unit): Unit {
    match letter
    case 0x62 => 0x08
    case 0x74 => 0x09
    case 0x6E => 0x0A
    case 0x76 => 0x0B
    case 0x66 => 0x0C
    case 0x72 => 0x0D
    case other => other
  }

  predicate IsLineTerminator(u: Unit) { u == 0x0A || u == 0x0D || u == 0x2028 || u == 0x2029 }

  function Prepend(u: Unit, v: Value): Value { if v.Text? then Text([u] + v.s) else Bad }

  /** The value of the literal whose opening quote was read: Bad when it holds a raw line break, ends
      before or after its closing quote, or uses an escape other than those below. */
  function Evaluate(s: JsString, quote: Unit): Value {
    if s == [] then Bad
    else if s[0] == quote then if |s| == 1 then Text([]) else Bad
    else if s[0] == BACKSLASH then
      if |s| < 2 then Bad
      else if s[1] == 0x75 then
        if |s| >= 6 && IsHex(s[2..6]) then Prepend(FromHex(s[2..6]), Evaluate(s[6..], quote)) else Bad
      else if s[1] == 0x78 || 0x30 <= s[1] <= 0x39 || IsLineTerminator(s[1]) then Bad
      else Prepend(Unescaped(s[1]), Evaluate(s[2..], quote))
    else if s[0] == 0x0A || s[0] == 0x0D then Bad
    else Prepend(s[0], Evaluate(s[1..], quote))
  }

  function ValueOf(literal: JsString): Value {
    if literal != [] && (literal[0] == QUOTE || literal[0] == APOSTROPHE) then Evaluate(literal[1..], literal[0])
        else Bad
  }

  // ----- the compiler -----

  /** `text.replace(/pattern/g, by)`: left to right, without overlap. */
  function ReplaceAll(s: JsString, pattern: JsString, new_: JsString): JsString
    requires pattern != []
  {
    if |s| < |pattern| then s
    else if s[..|pattern|] == pattern then new_ + ReplaceAll(s[|pattern|..], pattern, new_)
    else [s[0]] + ReplaceAll(s[1..], pattern, new_)
  }

  function EscapeLineSeparators(literal: JsString): JsString {
    ReplaceAll(ReplaceAll(literal, [0x2028], HexEscape(0x2028)), [0x2029], HexEscape(0x2029))
  }

  function JsLiteral(value: JsString): JsString { EscapeLineSeparators(JsonStringify(value)) }

  function JsLiteralSingle(value: JsString): JsString {
    var json := JsonStringify(value);
    var unescaped := ReplaceAll(json[1..|json| - 1], [BACKSLASH, QUOTE], [QUOTE]);
    EscapeLineSeparators([APOSTROPHE] + ReplaceAll(unescaped, [APOSTROPHE], [BACKSLASH, APOSTROPHE]) + [APOSTROPHE])
  }

  // ----- replacing, one step of the writer at a time -----

  lemma {:induction false} ReplaceUnit(a: JsString, b: JsString, u: Unit, new_: JsString)
    ensures ReplaceAll(a + b, [u], new_) == ReplaceAll(a, [u], new_) + ReplaceAll(b, [u], new_)
  {
    if a == [] {
      assert a + b == b;
    } else {
      assert (a + b)[..1] == a[..1] && (a + b)[1..] == a[1..] + b;
      ReplaceUnit(a[1..], b, u, new_);
    }
  }

  lemma SeparatorsSplit(a: JsString, b: JsString)
    ensures EscapeLineSeparators(a + b) == EscapeLineSeparators(a) + EscapeLineSeparators(b)
  {
    ReplaceUnit(a, b, 0x2028, HexEscape(0x2028));
    ReplaceUnit(ReplaceAll(a, [0x2028], HexEscape(0x2028)), ReplaceAll(b, [0x2028], HexEscape(0x2028)), 0x2029,
        HexEscape(0x2029));
  }

  /** A text without `u` is left alone. */
  lemma {:induction false} ReplaceNothing(s: JsString, u: Unit, new_: JsString)
    requires u !in s
    ensures ReplaceAll(s, [u], new_) == s
  {
    if s != [] {
      assert s[..1] == [s[0]] && s[0] in s;
      ReplaceNothing(s[1..], u, new_);
    }
  }

  lemma ReplaceOne(u: Unit, new_: JsString)
    ensures ReplaceAll([u], [u], new_) == new_
  {
    assert [u][..1] == [u] && [u][1..] == [];
  }

  lemma SeparatorsNothing(s: JsString)
    requires 0x2028 !in s && 0x2029 !in s
    ensures EscapeLineSeparators(s) == s
  {
    ReplaceNothing(s, 0x2028, HexEscape(0x2028));
    ReplaceNothing(s, 0x2029, HexEscape(0x2029));
  }

  lemma SeparatorsOne(u: Unit)
    ensures EscapeLineSeparators([u]) == if u == 0x2028 || u == 0x2029 then HexEscape(u) else [u]
  {
    if u == 0x2028 {
      ReplaceOne(u, HexEscape(u));
      ReplaceNothing(HexEscape(u), 0x2029, HexEscape(0x2029));
    } else if u == 0x2029 {
      ReplaceNothing([u], 0x2028, HexEscape(0x2028));
      ReplaceOne(u, HexEscape(u));
    } else {
      SeparatorsNothing([u]);
    }
  }

  function Unquote(b: JsString): JsString { ReplaceAll(b, [BACKSLASH, QUOTE], [QUOTE]) }

  function EscapeApostrophes(b: JsString): JsString { ReplaceAll(b, [APOSTROPHE], [BACKSLASH, APOSTROPHE]) }

  lemma {:induction false} UnquoteSkips(e: JsString, b: JsString)
    requires forall i :: 0 <= i < |e| && e[i] == BACKSLASH ==> i + 1 < |e + b| ==> (e + b)[i + 1] != QUOTE
    ensures Unquote(e + b) == e + Unquote(b)
  {
    if e == [] {
      assert e + b == b;
    } else {
      assert (e + b)[1..] == e[1..] + b;
      forall i | 0 <= i < |e[1..]| && e[1..][i] == BACKSLASH && i + 1 < |e[1..] + b|
        ensures (e[1..] + b)[i + 1] != QUOTE
      {
        assert (e + b)[i + 2] == (e[1..] + b)[i + 1];
      }
      UnquoteSkips(e[1..], b);
      assert |e + b| >= 2 ==> (e + b)[..2] == [(e + b)[0], (e + b)[1]];
    }
  }

  /** What one step of the writer becomes once its `\"` is un-escaped: no other escape is touched, because
      no step starts with a bare quote. */
  lemma {:induction false} UnquoteStep(s: JsString)
    requires s != []
    ensures Unquote(JsonBody(s)) ==
            (if s[0] == QUOTE then [QUOTE] else JsonStep(s)) + Unquote(JsonBody(s[Width(s)..]))
  {
    if s[0] == QUOTE { UnquoteQuote(s); } else { UnquoteOther(s); }
  }

  lemma UnquoteQuote(s: JsString)
    requires s != [] && s[0] == QUOTE
    ensures Unquote(JsonBody(s)) == [QUOTE] + Unquote(JsonBody(s[Width(s)..]))
  {
    var b := JsonBody(s[Width(s)..]);
    assert JsonBody(s) == [BACKSLASH, QUOTE] + b;
    hide JsonBody;
    assert ([BACKSLASH, QUOTE] + b)[..2] == [BACKSLASH, QUOTE] && ([BACKSLASH, QUOTE] + b)[2..] == b;
  }

  lemma UnquoteOther(s: JsString)
    requires s != [] && s[0] != QUOTE
    ensures Unquote(JsonBody(s)) == JsonStep(s) + Unquote(JsonBody(s[Width(s)..]))
  {
    var e, b := JsonStep(s), JsonBody(s[Width(s)..]);
    assert JsonBody(s) == e + b;
    StepHoldsNoEscapedQuote(s);
    hide JsonStep, JsonBody, ReplaceAll;
    assert |e| < |e + b| ==> (e + b)[|e|] == b[0];
    UnquoteSkips(e, b);
  }

  lemma StepHoldsNoEscapedQuote(s: JsString)
    requires s != [] && s[0] != QUOTE
    ensures forall i :: 1 <= i < |JsonStep(s)| ==> JsonStep(s)[i] != QUOTE
  {
  }

  // ----- evaluating, one step at a time -----

  lemma EvaluateRaw(u: Unit, rest: JsString, quote: Unit)
    requires u != quote && u != BACKSLASH && u != 0x0A && u != 0x0D
    ensures Evaluate([u] + rest, quote) == Prepend(u, Evaluate(rest, quote))
  {
    assert ([u] + rest)[1..] == rest;
  }

  lemma EvaluateLetter(letter: Unit, rest: JsString, quote: Unit)
    requires quote != BACKSLASH && letter != 0x75 && letter != 0x78 && !(0x30 <= letter <= 0x39) &&
             !IsLineTerminator(letter)
    ensures Evaluate([BACKSLASH, letter] + rest, quote) == Prepend(Unescaped(letter), Evaluate(rest, quote))
  {
    assert ([BACKSLASH, letter] + rest)[2..] == rest;
  }

  lemma EvaluateHex(u: Unit, rest: JsString, quote: Unit)
    requires quote != BACKSLASH
    ensures Evaluate(HexEscape(u) + rest, quote) == Prepend(u, Evaluate(rest, quote))
  {
    HexRoundTrip(u);
    hide HexDigit, HexValue;
    var s := HexEscape(u) + rest;
    assert s[2..6] == HexEscape(u)[2..] && s[6..] == rest;
  }

  lemma HexRoundTrip(u: Unit)
    ensures IsHex(HexEscape(u)[2..]) && FromHex(HexEscape(u)[2..]) == u
  {
    var a := u / 16;
    var b := a / 16;
    assert forall n :: 0 <= n < 16 ==> HexValue(HexDigit(n)) == n;
    hide HexDigit, HexValue;
    var digits := HexEscape(u)[2..];
    assert digits == [HexDigit(b / 16), HexDigit(b % 16), HexDigit(a % 16), HexDigit(u % 16)];
    assert u == 16 * a + u % 16 && a == 16 * b + a % 16 && b == 16 * (b / 16) + b % 16;
  }

  /** The units one step takes, put in front of what the rest evaluates to. */
  function PrependAll(units: JsString, v: Value): Value { if v.Text? then Text(units + v.s) else Bad }

  lemma EvaluatePair(a: Unit, b: Unit, rest: JsString, quote: Unit)
    requires IsLead(a) && IsTrail(b) && quote < 0xD800
    ensures Evaluate([a, b] + rest, quote) == PrependAll([a, b], Evaluate(rest, quote))
  {
    EvaluateRaw(b, rest, quote);
    EvaluateRaw(a, [b] + rest, quote);
    assert [a, b] + rest == [a] + ([b] + rest);
  }

  /** Each step of the writer, with line separators escaped, evaluates to the units it took. */
  lemma EvaluateStep(s: JsString, rest: JsString, quote: Unit)
    requires s != [] && (quote == QUOTE || (quote == APOSTROPHE && s[0] != QUOTE && s[0] != APOSTROPHE))
    ensures Evaluate(EscapeLineSeparators(JsonStep(s)) + rest, quote) ==
            PrependAll(s[..Width(s)], Evaluate(rest, quote))
  {
    StepText(s);
    var u, e := s[0], EscapeLineSeparators(JsonStep(s));
    hide EscapeLineSeparators, JsonStep, HexEscape, Evaluate;
    assert Width(s) == 1 ==> s[..1] == [u];
    assert Width(s) == 2 ==> s[..2] == [u, s[1]];
    if Width(s) == 2 {
      EvaluatePair(u, s[1], rest, quote);
    } else if EscapeLetter(u) != 0 {
      EvaluateLetter(EscapeLetter(u), rest, quote);
    } else if e == HexEscape(u) {
      EvaluateHex(u, rest, quote);
    } else {
      EvaluateRaw(u, rest, quote);
    }
  }

  /** What one step writes, line separators escaped. */
  lemma StepText(s: JsString)
    requires s != []
    ensures var u, e := s[0], EscapeLineSeparators(JsonStep(s));
            if Width(s) == 2 then e == s[..2]
            else if EscapeLetter(u) != 0 then e == [BACKSLASH, EscapeLetter(u)]
            else e == HexEscape(u) || (e == [u] && u >= 0x20)
  {
    if Width(s) == 2 || EscapeLetter(s[0]) != 0 || JsonStep(s) != [s[0]] {
      SeparatorsNothing(JsonStep(s));
    } else {
      SeparatorsOne(s[0]);
    }
  }

  lemma {:induction false} BodyExact(s: JsString)
    ensures Evaluate(EscapeLineSeparators(JsonBody(s)) + [QUOTE], QUOTE) == Text(s)
  {
    if s == [] {
      assert EscapeLineSeparators([]) + [QUOTE] == [QUOTE];
    } else {
      var e, rest := JsonStep(s), s[Width(s)..];
      BodyExact(rest);
      SeparatorsSplit(e, JsonBody(rest));
      var closing := EscapeLineSeparators(JsonBody(rest)) + [QUOTE];
      EvaluateStep(s, closing, QUOTE);
      assert EscapeLineSeparators(JsonBody(s)) + [QUOTE] == EscapeLineSeparators(e) + closing;
      assert s == s[..Width(s)] + rest;
    }
  }

  /** The single-quoted body of one step. */
  function SingleStep(s: JsString): JsString
    requires s != []
  {
    EscapeLineSeparators(EscapeApostrophes(if s[0] == QUOTE then [QUOTE] else JsonStep(s)))
  }

  lemma EvaluateSingleStep(s: JsString, rest: JsString)
    requires s != []
    ensures Evaluate(SingleStep(s) + rest, APOSTROPHE) == PrependAll(s[..Width(s)], Evaluate(rest, APOSTROPHE))
  {
    var u := s[0];
    if u == QUOTE {
      ReplaceNothing([QUOTE], APOSTROPHE, [BACKSLASH, APOSTROPHE]);
      SeparatorsNothing([QUOTE]);
      EvaluateRaw(u, rest, APOSTROPHE);
      assert s[..1] == [u];
    } else if u == APOSTROPHE {
      ReplaceOne(APOSTROPHE, [BACKSLASH, APOSTROPHE]);
      SeparatorsNothing([BACKSLASH, APOSTROPHE]);
      EvaluateLetter(APOSTROPHE, rest, APOSTROPHE);
      assert s[..1] == [u];
    } else {
      StepHoldsNoApostrophe(s);
      hide Evaluate, JsonStep, ReplaceAll;
      ReplaceNothing(JsonStep(s), APOSTROPHE, [BACKSLASH, APOSTROPHE]);
      EvaluateStep(s, rest, APOSTROPHE);
    }
  }

  lemma StepHoldsNoApostrophe(s: JsString)
    requires s != [] && s[0] != APOSTROPHE
    ensures APOSTROPHE !in JsonStep(s)
  {
  }

  function SingleBody(s: JsString): JsString { EscapeLineSeparators(EscapeApostrophes(Unquote(JsonBody(s)))) }

  lemma SingleBodySplit(s: JsString)
    requires s != []
    ensures SingleBody(s) == SingleStep(s) + SingleBody(s[Width(s)..])
  {
    UnquoteStep(s);
    hide JsonStep, JsonBody, ReplaceAll;
    var e, b := if s[0] == QUOTE then [QUOTE] else JsonStep(s), Unquote(JsonBody(s[Width(s)..]));
    ReplaceUnit(e, b, APOSTROPHE, [BACKSLASH, APOSTROPHE]);
    SeparatorsSplit(EscapeApostrophes(e), EscapeApostrophes(b));
  }

  lemma {:induction false} SingleBodyExact(s: JsString)
    ensures Evaluate(SingleBody(s) + [APOSTROPHE], APOSTROPHE) == Text(s)
  {
    if s == [] {
      assert SingleBody([]) + [APOSTROPHE] == [APOSTROPHE];
    } else {
      SingleBodySplit(s);
      hide Evaluate, SingleStep, SingleBody;
      var rest := s[Width(s)..];
      SingleBodyExact(rest);
      var closing := SingleBody(rest) + [APOSTROPHE];
      EvaluateSingleStep(s, closing);
      assert SingleBody(s) + [APOSTROPHE] == SingleStep(s) + closing;
      assert s == s[..Width(s)] + rest;
    }
  }

  // ----- the two theorems -----

  lemma {:induction false} NoRawBreak(s: JsString, quote: Unit)
    requires Evaluate(s, quote).Text? && quote != 0x0A && quote != 0x0D
    ensures 0x0A !in s && 0x0D !in s
  {
    if s[0] == quote {
    } else if s[0] == BACKSLASH && s[1] == 0x75 {
      NoRawBreak(s[6..], quote);
      assert s == [s[0], s[1]] + s[2..6] + s[6..];
    } else if s[0] == BACKSLASH {
      NoRawBreak(s[2..], quote);
      assert s == [s[0], s[1]] + s[2..];
    } else {
      NoRawBreak(s[1..], quote);
      assert s == [s[0]] + s[1..];
    }
  }

  lemma {:induction false} ReplacedAway(s: JsString, u: Unit, new_: JsString)
    requires u !in new_
    ensures u !in ReplaceAll(s, [u], new_)
    ensures forall w :: w !in s && w !in new_ ==> w !in ReplaceAll(s, [u], new_)
  {
    if s != [] {
      assert s[..1] == [s[0]];
      ReplacedAway(s[1..], u, new_);
    }
  }

  lemma NoSeparators(s: JsString)
    ensures 0x2028 !in EscapeLineSeparators(s) && 0x2029 !in EscapeLineSeparators(s)
  {
    ReplacedAway(s, 0x2028, HexEscape(0x2028));
    ReplacedAway(ReplaceAll(s, [0x2028], HexEscape(0x2028)), 0x2029, HexEscape(0x2029));
  }

  /** For every string, the double-quoted literal evaluates to it and holds no raw line terminator; that
      no raw closing quote comes early is part of evaluating at all. */
  lemma {:induction false} JsLiteralExact(value: JsString)
    ensures ValueOf(JsLiteral(value)) == Text(value)
    ensures forall u :: u in JsLiteral(value) ==> !IsLineTerminator(u)
  {
    hide Evaluate, JsonBody, EscapeLineSeparators;
    SeparatorsSplit([QUOTE] + JsonBody(value), [QUOTE]);
    SeparatorsSplit([QUOTE], JsonBody(value));
    SeparatorsOne(QUOTE);
    BodyExact(value);
    var body := EscapeLineSeparators(JsonBody(value)) + [QUOTE];
    assert JsLiteral(value) == [QUOTE] + body;
    NoRawBreak(body, QUOTE);
    NoSeparators(JsonStringify(value));
  }

  lemma {:induction false} JsLiteralSingleExact(value: JsString)
    ensures ValueOf(JsLiteralSingle(value)) == Text(value)
    ensures forall u :: u in JsLiteralSingle(value) ==> !IsLineTerminator(u)
  {
    hide Evaluate, JsonBody, EscapeLineSeparators;
    var json := JsonStringify(value);
    assert json[1..|json| - 1] == JsonBody(value);
    var inner := EscapeApostrophes(Unquote(JsonBody(value)));
    SeparatorsSplit([APOSTROPHE] + inner, [APOSTROPHE]);
    SeparatorsSplit([APOSTROPHE], inner);
    SeparatorsOne(APOSTROPHE);
    SingleBodyExact(value);
    var body := EscapeLineSeparators(inner) + [APOSTROPHE];
    assert JsLiteralSingle(value) == [APOSTROPHE] + body;
    NoRawBreak(body, APOSTROPHE);
    NoSeparators([APOSTROPHE] + inner + [APOSTROPHE]);
  }
}

/** Character references in attribute values (packages/parser/src/html_attribute.ts; section 13.2.5 of the
    WHATWG HTML standard) and the runtime's escaping (packages/core/src/instruction-processor.ts): what the
    runtime writes the browser reads back.  The entity table is a parameter. */
module HtmlAttribute {
  import opened Options

  const MAX_NAME_LENGTH: nat := 32
  const REPLACEMENT := '\U{FFFD}'

  predicate IsDigit(c: char) { '0' <= c <= '9' }

  predicate IsHexDigit(c: char) { IsDigit(c) || 'a' <= c <= 'f' || 'A' <= c <= 'F' }

  predicate IsAlphanumeric(c: char) { IsDigit(c) || 'a' <= c <= 'z' || 'A' <= c <= 'Z' }

  /** What the code needs of HTML_NAMED_REFERENCES: names of at most 32 characters, ';' only at the end, and
      the two names the runtime escapes with. */
  ghost predicate IsTable(table: map<string, string>) {
    && (forall name :: name in table ==> 0 < |name| <= MAX_NAME_LENGTH)
    && (forall name, i :: name in table && 0 <= i < |name| - 1 ==> name[i] != ';')
    && "amp;" in table && table["amp;"] == "&" && "quot;" in table && table["quot;"] == "\""
  }

  // ----- numeric references -----

  function DigitValue(c: char): nat {
    if IsDigit(c) then c as int - '0' as int
    else if 'a' <= c <= 'f' then c as int - 'a' as int + 10
    else if 'A' <= c <= 'F' then c as int - 'A' as int + 10
    else 0
  }

  function Times(hex: bool, n: nat): nat { if hex then 16 * n else 10 * n }

  /** The number a run of digits stands for. */
  function Number(digits: string, hex: bool): nat {
    if digits == [] then 0 else Times(hex, Number(digits[..|digits| - 1], hex)) + DigitValue(digits[|digits| - 1])
  }

  /** `digits.replace(/^0+(?=.)/, '')` */
  function Significant(digits: string): string {
    if |digits| > 1 && digits[0] == '0' then Significant(digits[1..]) else digits
  }

  /** The code the decoder uses: nothing longer than eight significant digits is parsed. */
  function Code(digits: string, hex: bool): nat {
    var significant := Significant(digits);
    if |significant| > 8 then 0x110000 else Number(significant, hex)
  }

  const C1: map<nat, nat> := map[
    0x80 := 0x20AC, 0x82 := 0x201A, 0x83 := 0x0192, 0x84 := 0x201E, 0x85 := 0x2026, 0x86 := 0x2020, 0x87 := 0x2021,
    0x88 := 0x02C6, 0x89 := 0x2030, 0x8A := 0x0160, 0x8B := 0x2039, 0x8C := 0x0152, 0x8E := 0x017D, 0x91 := 0x2018,
    0x92 := 0x2019, 0x93 := 0x201C, 0x94 := 0x201D, 0x95 := 0x2022, 0x96 := 0x2013, 0x97 := 0x2014, 0x98 := 0x02DC,
    0x99 := 0x2122, 0x9A := 0x0161, 0x9B := 0x203A, 0x9C := 0x0153, 0x9E := 0x017E, 0x9F := 0x0178]

  function Remapped(code: nat): nat { if code in C1 then C1[code] else code }

  function NumericCharacter(code: nat): char {
    if code == 0 || code > 0x10FFFF || 0xD800 <= code <= 0xDFFF then REPLACEMENT
    else if Remapped(code) > 0x10FFFF || 0xD800 <= Remapped(code) <= 0xDFFF then REPLACEMENT
    else Remapped(code) as char
  }

  /** How many leading characters of `s` are digits of the base. */
  function DigitRun(s: string, hex: bool): (n: nat)
    ensures n <= |s|
    ensures forall i :: 0 <= i < n ==> if hex then IsHexDigit(s[i]) else IsDigit(s[i])
    ensures n < |s| ==> !(if hex then IsHexDigit(s[n]) else IsDigit(s[n]))
  {
    if s == [] || !(if hex then IsHexDigit(s[0]) else IsDigit(s[0])) then 0 else 1 + DigitRun(s[1..], hex)
  }

  // ----- named references -----

  /** The longest of the first `length` prefixes of `s` that is a name, 0 when there is none. */
  function Longest(table: map<string, string>, s: string, length: nat): (n: nat)
    requires length <= |s|
    ensures n <= length
    ensures n > 0 ==> s[..n] in table
    ensures forall m :: n < m <= length ==> s[..m] !in table
  {
    if length == 0 then 0 else if s[..length] in table then length else Longest(table, s, length - 1)
  }

  function Min(a: nat, b: nat): nat { if a < b then a else b }

  // ----- the decoder -----

  /** What stands at the front of `s`, which is not empty: the characters it gives, and how many it takes. */
  datatype Token = Token(out: string, taken: nat)

  function NumericToken(s: string): (t: Token)
    requires |s| >= 2
    ensures 1 <= t.taken <= |s|
  {
    var hex := |s| >= 4 && (s[2] == 'x' || s[2] == 'X') && IsHexDigit(s[3]);
    var start := if hex then 3 else 2;
    var run := DigitRun(s[start..], hex);
    if run == 0 then Token("&", 1)
    else
      var end := start + run;
      Token([NumericCharacter(Code(s[start..end], hex))],
            if end < |s| && s[end] == ';' then end + 1 else end)
  }

  function NamedToken(table: map<string, string>, s: string): (t: Token)
    requires |s| >= 2
    ensures 1 <= t.taken <= |s|
  {
    var after := s[1..];
    var n := Longest(table, after, Min(MAX_NAME_LENGTH, |after|));
    if n == 0 then Token("&", 1)
    else
      var closed, more := after[n - 1] == ';', n < |after| && (after[n] == '=' || IsAlphanumeric(after[n]));
      if !closed && more then Token("&", 1) else Token(table[after[..n]], n + 1)
  }

  function FirstToken(table: map<string, string>, s: string): (t: Token)
    requires s != []
    ensures 1 <= t.taken <= |s|
  {
    if s[0] == '\0' then Token([REPLACEMENT], 1)
    else if s[0] != '&' then Token([s[0]], 1)
    else if |s| > 1 && s[1] == '#' then NumericToken(s)
    else if |s| > 1 && IsAlphanumeric(s[1]) then NamedToken(table, s)
    else Token("&", 1)
  }

  function Decode(table: map<string, string>, s: string): string {
    if s == [] then []
    else
      var t := FirstToken(table, s);
      t.out + Decode(table, s[t.taken..])
  }

  /** `decode_attribute_text()`, its early return included. */
  method DecodeAttributeText(table: map<string, string>, text: string) returns (out: string)
    ensures out == Decode(table, text)
  {
    if '&' !in text && '\0' !in text {
      NothingToDecode(table, text);
      return text;
    }
    out := DecodeLoop(table, text);
  }

  method DecodeLoop(table: map<string, string>, text: string) returns (out: string)
    ensures out == Decode(table, text)
  {
    hide *;
    out := [];
    var i := 0;
    assert text[0..] == text && [] + Decode(table, text) == Decode(table, text);
    while i < |text|
      invariant 0 <= i <= |text|
      invariant out + Decode(table, text[i..]) == Decode(table, text)
    {
      DecodeStep(table, text, i, out);
      var c, t := text[i], Token("&", 1);
      if c == '\0' {
        t := Token([REPLACEMENT], 1);
      } else if c != '&' {
        t := Token([c], 1);
      } else if i + 1 < |text| && text[i + 1] == '#' {
        t := NumericToken(text[i..]);
      } else if i + 1 < |text| && IsAlphanumeric(text[i + 1]) {
        t := NamedToken(table, text[i..]);
      }
      out := out + t.out;
      i := i + t.taken;
    }
    NothingLeft(table, text[i..]);
  }

  lemma NothingLeft(table: map<string, string>, s: string)
    requires s == []
    ensures Decode(table, s) == []
  {
  }

  lemma DecodeFirst(table: map<string, string>, s: string)
    requires s != []
    ensures Decode(table, s) == FirstToken(table, s).out + Decode(table, s[FirstToken(table, s).taken..])
  {
  }

  lemma DecodeStep(table: map<string, string>, text: string, i: nat, out: string)
    requires i < |text|
    ensures var t := FirstToken(table, text[i..]);
            out + Decode(table, text[i..]) == out + t.out + Decode(table, text[i + t.taken..])
    ensures FirstToken(table, text[i..]) ==
            if text[i] == '\0' then Token([REPLACEMENT], 1)
            else if text[i] != '&' then Token([text[i]], 1)
            else if i + 1 < |text| && text[i + 1] == '#' then NumericToken(text[i..])
            else if i + 1 < |text| && IsAlphanumeric(text[i + 1]) then NamedToken(table, text[i..])
            else Token("&", 1)
  {
    hide NumericToken, NamedToken, Decode;
    DecodeFirst(table, text[i..]);
    var t := FirstToken(table, text[i..]);
    assert text[i..][t.taken..] == text[i + t.taken..];
  }

  /** The early return agrees with the loop. */
  lemma {:induction false} NothingToDecode(table: map<string, string>, text: string)
    requires '&' !in text && '\0' !in text
    ensures Decode(table, text) == text
  {
    if text != [] {
      assert text[0] in text;
      assert forall c :: c in text[1..] ==> c in text;
      NothingToDecode(table, text[1..]);
    }
  }

  // ----- the runtime's escaping -----

  function EscapeOne(c: char): string { if c == '&' then "&amp;" else if c == '\"' then "&quot;" else [c] }

  /** `escape_attribute()`. */
  function Escape(value: string): string {
    if value == [] then [] else EscapeOne(value[0]) + Escape(value[1..])
  }

  /** A name that ends in ';' is found whole, whatever follows it. */
  lemma NameIsLongest(table: map<string, string>, name: string, rest: string)
    requires IsTable(table) && name in table && name[|name| - 1] == ';'
    ensures Longest(table, name + rest, Min(MAX_NAME_LENGTH, |name + rest|)) == |name|
  {
    var s := name + rest;
    assert s[..|name|] == name;
    assert forall m :: |name| < m <= |s| ==> s[..m][|name| - 1] == ';';
  }

  /** What the HTML input stream makes of a character. */
  function Read(c: char): char { if c == '\0' then REPLACEMENT else c }

  function ReadAll(value: string): string { if value == [] then [] else [Read(value[0])] + ReadAll(value[1..]) }

  lemma EscapedDecodes(table: map<string, string>, c: char, rest: string)
    requires IsTable(table)
    ensures FirstToken(table, EscapeOne(c) + rest) == Token([Read(c)], |EscapeOne(c)|)
  {
    var s := EscapeOne(c) + rest;
    if c == '&' || c == '\"' {
      var name := if c == '&' then "amp;" else "quot;";
      NameIsLongest(table, name, rest);
      assert s[1..] == name + rest;
      assert (name + rest)[..|name|] == name;
    }
  }

  /** Escaping a value and reading it back as an attribute gives the value, NUL read as U+FFFD - so it gives
      exactly the value if and only if the value holds no NUL. */
  lemma {:induction false} EscapeRoundTrip(table: map<string, string>, value: string)
    requires IsTable(table)
    ensures Decode(table, Escape(value)) == ReadAll(value)
    ensures Decode(table, Escape(value)) == value <==> '\0' !in value
  {
    if value != [] {
      var e, rest := EscapeOne(value[0]), Escape(value[1..]);
      EscapeRoundTrip(table, value[1..]);
      EscapedDecodes(table, value[0], rest);
      assert (e + rest)[|e|..] == rest;
      assert '\0' in value <==> value[0] == '\0' || '\0' in value[1..];
      assert value == [value[0]] + value[1..];
      hide FirstToken, EscapeOne;
    }
  }

  // ----- the cap on digits loses nothing -----

  lemma {:induction false} SignificantNumber(digits: string, hex: bool)
    ensures Number(Significant(digits), hex) == Number(digits, hex)
    ensures |Significant(digits)| > 1 ==> Significant(digits)[0] != '0'
  {
    if |digits| > 1 && digits[0] == '0' {
      SignificantNumber(digits[1..], hex);
      LeadingZero(digits, hex);
    }
  }

  lemma {:induction false} LeadingZero(digits: string, hex: bool)
    requires |digits| > 1 && digits[0] == '0'
    ensures Number(digits[1..], hex) == Number(digits, hex)
    decreases |digits|
  {
    var n := |digits| - 1;
    assert digits[1..][..n - 1] == digits[..n][1..];
    if n > 1 {
      LeadingZero(digits[..n], hex);
    } else {
      assert digits[..1][..0] == [] && digits[1..][..0] == [];
      assert Number(digits[..1], hex) == 0;
    }
  }

  function Power(hex: bool, n: nat): nat { if n == 0 then 1 else Times(hex, Power(hex, n - 1)) }

  /** A number of `n` digits that does not start with '0' is at least the base to the n-1. */
  lemma {:induction false} AtLeast(digits: string, hex: bool)
    requires digits != [] && IsHexDigit(digits[0]) && digits[0] != '0'
    ensures Number(digits, hex) >= Power(hex, |digits| - 1)
    decreases |digits|
  {
    if |digits| > 1 { AtLeast(digits[..|digits| - 1], hex); }
  }

  lemma {:induction false} PowerGrows(hex: bool, n: nat)
    requires n >= 8
    ensures Power(hex, n) > 0x10FFFF
  {
    if n > 8 {
      PowerGrows(hex, n - 1);
    } else {
      assert Power(hex, 1) >= 10 && Power(hex, 2) >= 100 && Power(hex, 3) >= 1000 && Power(hex, 4) >= 10000;
      assert Power(hex, 5) >= 100000 && Power(hex, 6) >= 1000000 && Power(hex, 7) >= 10000000;
    }
  }

  /** A numeric reference is the character of the number its digits stand for, however many digits there are. */
  lemma {:induction false} NumericExact(digits: string, hex: bool)
    requires digits != [] && forall i :: 0 <= i < |digits| ==> IsHexDigit(digits[i])
    ensures NumericCharacter(Code(digits, hex)) == NumericCharacter(Number(digits, hex))
  {
    SignificantNumber(digits, hex);
    var s := Significant(digits);
    hide Number, Power, Significant, NumericCharacter;
    if |s| > 8 {
      SignificantIn(digits);
      assert s[0] in s;
      AtLeast(s, hex);
      PowerGrows(hex, |s| - 1);
      TooBig(0x110000);
      TooBig(Number(digits, hex));
    }
  }

  lemma TooBig(code: nat)
    requires code > 0x10FFFF
    ensures NumericCharacter(code) == REPLACEMENT
  {
  }

  lemma {:induction false} SignificantIn(digits: string)
    ensures forall c :: c in Significant(digits) ==> c in digits
  {
    if |digits| > 1 && digits[0] == '0' {
      SignificantIn(digits[1..]);
      assert forall c :: c in digits[1..] ==> c in digits;
    }
  }
}

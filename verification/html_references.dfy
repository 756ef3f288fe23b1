/** What the decoder makes of every form of reference, said by its digits and names (section 13.2.5 of the WHATWG HTML
    standard). */
module HtmlReferences {
  import opened Options
  import opened HtmlAttribute

  // ----- digits and the characters they stand for -----

  const LOWER := "0123456789abcdef"
  const UPPER := "0123456789ABCDEF"

  predicate Digit(c: char, hex: bool) { if hex then c in LOWER || c in UPPER else c in LOWER[..10] }

  predicate Digits(run: string, hex: bool) { run != [] && forall i :: 0 <= i < |run| ==> Digit(run[i], hex) }

  /** Which digit a character is. */
  function Ordinal(c: char): nat { Place(c, 0) }

  function Place(c: char, from: nat): nat
    decreases 16 - from
  {
    if from >= 16 || LOWER[from] == c || UPPER[from] == c then from else Place(c, from + 1)
  }

  function Base(hex: bool): nat { if hex then 16 else 10 }

  function Weight(hex: bool, places: nat): nat { if places == 0 then 1 else Base(hex) * Weight(hex, places - 1) }

  /** Each digit times the weight of its place. */
  function PlaceValue(run: string, hex: bool): nat {
    if run == [] then 0 else Ordinal(run[0]) * Weight(hex, |run| - 1) + PlaceValue(run[1..], hex)
  }

  /** What 0x80 to 0x9F stand for. */
  const WINDOWS: seq<nat> := [
    0x20AC, 0x81, 0x201A, 0x0192, 0x201E, 0x2026, 0x2020, 0x2021, 0x02C6, 0x2030, 0x0160, 0x2039, 0x0152, 0x8D, 0x017D,
    0x8F, 0x90, 0x2018, 0x2019, 0x201C, 0x201D, 0x2022, 0x2013, 0x2014, 0x02DC, 0x2122, 0x0161, 0x203A, 0x0153, 0x9D,
    0x017E, 0x0178]

  lemma WindowsIsC1(code: nat)
    requires 0x80 <= code <= 0x9F
    ensures |WINDOWS| == 32 && Remapped(code) == WINDOWS[code - 0x80]
  {
    if code < 0x90 { WindowsLow(code); } else { WindowsHigh(code); }
  }

  lemma WindowsLow(code: nat)
    requires 0x80 <= code < 0x90
    ensures |WINDOWS| == 32 && Remapped(code) == WINDOWS[code - 0x80]
  {
  }

  lemma WindowsHigh(code: nat)
    requires 0x90 <= code <= 0x9F
    ensures |WINDOWS| == 32 && Remapped(code) == WINDOWS[code - 0x80]
  {
  }

  predicate Surrogate(code: nat) { 0xD800 <= code <= 0xDFFF }

  lemma WindowsAreCharacters(i: nat)
    requires i < 32
    ensures |WINDOWS| == 32 && !Surrogate(WINDOWS[i]) && WINDOWS[i] <= 0x10FFFF
  {
  }

  /** The code point itself, but for those no reference may give, and for the 32 above. */
  function CharacterOf(code: nat): char {
    if code == 0 || code > 0x10FFFF || Surrogate(code) then '\U{FFFD}'
    else if 0x80 <= code <= 0x9F then
      WindowsAreCharacters(code - 0x80);
      WINDOWS[code - 0x80] as char
    else code as char
  }

  lemma CharacterIsThat(code: nat)
    ensures NumericCharacter(code) == CharacterOf(code)
  {
    if 0x80 <= code <= 0x9F {
      WindowsIsC1(code);
      WindowsAreCharacters(code - 0x80);
    } else {
      NotRemapped(code);
    }
  }

  lemma NotRemapped(code: nat)
    requires !(0x80 <= code <= 0x9F)
    ensures Remapped(code) == code
  {
  }

  lemma DigitIsDigit(c: char)
    ensures Digit(c, true) <==> IsHexDigit(c)
    ensures Digit(c, false) <==> IsDigit(c)
  {
    InAlphabet(c);
  }

  lemma {:induction false} PlaceFound(c: char, from: nat, n: nat)
    requires from <= n < 16 && (LOWER[n] == c || UPPER[n] == c)
    requires forall i :: from <= i < n ==> LOWER[i] != c && UPPER[i] != c
    ensures Place(c, from) == n
    decreases n - from
  {
    if from < n { PlaceFound(c, from + 1, n); }
  }

  lemma OrdinalIsValue(c: char)
    requires IsHexDigit(c)
    ensures Ordinal(c) == DigitValue(c) < 16
  {
    PlaceFound(c, 0, DigitValue(c));
  }

  lemma InAlphabet(c: char)
    ensures c in LOWER[..10] <==> '0' <= c <= '9'
    ensures c in LOWER <==> '0' <= c <= '9' || 'a' <= c <= 'f'
    ensures c in UPPER <==> '0' <= c <= '9' || 'A' <= c <= 'F'
  {
    if '0' <= c <= '9' { assert LOWER[c as int - '0' as int] == c && UPPER[c as int - '0' as int] == c; }
    if '0' <= c <= '9' { assert LOWER[..10][c as int - '0' as int] == c; }
    if 'a' <= c <= 'f' { assert LOWER[c as int - 'a' as int + 10] == c; }
    if 'A' <= c <= 'F' { assert UPPER[c as int - 'A' as int + 10] == c; }
  }

  // ----- the number a run of digits stands for -----

  lemma Swap(a: nat, b: nat, hex: bool)
    ensures a * (Base(hex) * b) == Base(hex) * (a * b)
  {
  }

  /** One more digit at the end. */
  lemma {:induction false} PlaceMore(run: string, c: char, hex: bool)
    ensures PlaceValue(run + [c], hex) == Base(hex) * PlaceValue(run, hex) + Ordinal(c)
    decreases |run|
  {
    hide Place, Base;
    if run == [] {
      assert [c][1..] == [] && [] + [c] == [c];
      assert Weight(hex, 0) == 1;
    } else {
      assert (run + [c])[1..] == run[1..] + [c] && (run + [c])[0] == run[0];
      PlaceMore(run[1..], c, hex);
      Swap(Ordinal(run[0]), Weight(hex, |run| - 1), hex);
      Distribute(Base(hex), Ordinal(run[0]) * Weight(hex, |run| - 1), PlaceValue(run[1..], hex));
    }
  }

  lemma Distribute(a: nat, b: nat, c: nat)
    ensures a * (b + c) == a * b + a * c
  {
  }

  lemma TimesIsBase(hex: bool, n: nat)
    ensures Times(hex, n) == Base(hex) * n
  {
  }

  lemma {:induction false} NumberIsPlaceValue(run: string, hex: bool)
    requires forall i :: 0 <= i < |run| ==> IsHexDigit(run[i])
    ensures Number(run, hex) == PlaceValue(run, hex)
    decreases |run|
  {
    hide Ordinal, DigitValue, Times, Base;
    if run != [] {
      var front, c := run[..|run| - 1], run[|run| - 1];
      assert run == front + [c];
      NumberIsPlaceValue(front, hex);
      PlaceMore(front, c, hex);
      OrdinalIsValue(c);
      TimesIsBase(hex, Number(front, hex));
    }
  }

  /** The character a run of digits gives, whatever its length. */
  lemma RunGives(run: string, hex: bool)
    requires Digits(run, hex)
    ensures NumericCharacter(Code(run, hex)) == CharacterOf(PlaceValue(run, hex))
  {
    forall i | 0 <= i < |run| ensures IsHexDigit(run[i]) { DigitIsDigit(run[i]); }
    hide Code, NumericCharacter, CharacterOf, PlaceValue, Number;
    NumericExact(run, hex);
    NumberIsPlaceValue(run, hex);
    CharacterIsThat(PlaceValue(run, hex));
  }

  // ----- numeric references -----

  /** How a reference begins; `x` is "x" or "X" if it is hexadecimal. */
  function Start(hex: bool, x: char): string { if hex then ['&', '#', x] else ['&', '#'] }

  lemma {:induction false} RunLength(run: string, rest: string, hex: bool)
    requires forall i :: 0 <= i < |run| ==> Digit(run[i], hex)
    requires rest == [] || !Digit(rest[0], hex)
    ensures DigitRun(run + rest, hex) == |run|
    decreases |run|
  {
    if run == [] {
      assert run + rest == rest;
      if rest != [] { DigitIsDigit(rest[0]); }
    } else {
      DigitIsDigit(run[0]);
      hide Digit, IsDigit, IsHexDigit;
      assert (run + rest)[1..] == run[1..] + rest;
      RunLength(run[1..], rest, hex);
    }
  }

  lemma TokenOf(s: string, hex: bool, start: nat, n: nat)
    requires |s| >= 4 || (|s| >= 3 && !hex)
    requires hex <==> |s| >= 4 && (s[2] == 'x' || s[2] == 'X') && IsHexDigit(s[3])
    requires start == (if hex then 3 else 2) && n > 0 && start + n <= |s| && DigitRun(s[start..], hex) == n
    ensures NumericToken(s) ==
            Token([NumericCharacter(Code(s[start..start + n], hex))],
                if start + n < |s| && s[start + n] == ';' then start + n + 1 else start + n)
  {
    hide IsHexDigit, IsDigit, DigitRun, Code, NumericCharacter;
  }

  lemma FrontParts(hex: bool, x: char, run: string, rest: string)
    requires Digits(run, hex) && (hex ==> x == 'x' || x == 'X')
    ensures var s, start := Start(hex, x) + run + rest, |Start(hex, x)|;
            && |s| >= start + 1 && start == (if hex then 3 else 2)
            && (hex <==> |s| >= 4 && (s[2] == 'x' || s[2] == 'X') && IsHexDigit(s[3]))
            && s[start..] == run + rest && s[start..start + |run|] == run
            && (start + |run| < |s| <==> rest != []) && (rest != [] ==> s[start + |run|] == rest[0])
  {
    NotHexMark(run[0]);
    DigitIsDigit(run[0]);
    var s := Start(hex, x) + run + rest;
    assert s[2] == (if hex then x else run[0]) && (hex ==> s[3] == run[0]);
    hide Digit, IsDigit, IsHexDigit;
  }

  /** The token at the front: all of the digits, and a ';' right after them. */
  lemma NumericFront(hex: bool, x: char, run: string, rest: string)
    requires Digits(run, hex) && (rest == [] || !Digit(rest[0], hex)) && (hex ==> x == 'x' || x == 'X')
    ensures NumericToken(Start(hex, x) + run + rest) ==
            Token([CharacterOf(PlaceValue(run, hex))],
                |Start(hex, x) + run| + if rest != [] && rest[0] == ';' then 1 else 0)
  {
    FrontParts(hex, x, run, rest);
    RunLength(run, rest, hex);
    RunGives(run, hex);
    hide *;
    assert Digits(run, hex) ==> run != [] by { NotEmpty(run, hex); }
    TokenOf(Start(hex, x) + run + rest, hex, |Start(hex, x)|, |run|);
  }

  lemma NotEmpty(run: string, hex: bool)
    ensures Digits(run, hex) ==> run != []
  {
  }

  lemma NotHexMark(c: char)
    ensures Digit(c, false) ==> c != 'x' && c != 'X'
  {
    InAlphabet(c);
  }

  /** A run of digits, decimal or after "x" hexadecimal, and a ';' that belongs to it - or what is neither a digit nor
      ';' - gives the character its place value stands for, however many digits there are. */
  lemma NumericReads(table: map<string, string>, hex: bool, x: char, run: string, rest: string)
    requires Digits(run, hex) && (hex ==> x == 'x' || x == 'X')
    ensures Decode(table, Start(hex, x) + run + ";" + rest) ==
            [CharacterOf(PlaceValue(run, hex))] + Decode(table, rest)
    ensures rest == [] || (!Digit(rest[0], hex) && rest[0] != ';') ==>
            Decode(table, Start(hex, x) + run + rest) == [CharacterOf(PlaceValue(run, hex))] + Decode(table, rest)
  {
    SemicolonEnds(hex);
    hide Digit, NumericToken, CharacterOf, PlaceValue;
    var s := Start(hex, x) + run + (";" + rest);
    assert s == Start(hex, x) + run + ";" + rest;
    NumericFront(hex, x, run, ";" + rest);
    DecodeFirst(table, s);
    assert s[|Start(hex, x) + run| + 1..] == rest;
    if rest == [] || (!Digit(rest[0], hex) && rest[0] != ';') {
      var t := Start(hex, x) + run + rest;
      NumericFront(hex, x, run, rest);
      DecodeFirst(table, t);
      assert t[|Start(hex, x) + run|..] == rest;
    }
  }

  lemma SemicolonEnds(hex: bool)
    ensures !Digit(';', hex)
  {
    InAlphabet(';');
  }

  /** "&#" with no digit of either kind after it is text. */
  lemma NumberlessReads(table: map<string, string>, rest: string)
    requires rest == [] || !Digit(rest[0], false)
    requires |rest| > 1 && (rest[0] == 'x' || rest[0] == 'X') ==> !Digit(rest[1], true)
    ensures Decode(table, "&#" + rest) == "&" + Decode(table, "#" + rest)
  {
    var s := "&#" + rest;
    assert s[2..] == rest && s[1..] == "#" + rest;
    if rest != [] { DigitIsDigit(rest[0]); }
    if |rest| > 1 { DigitIsDigit(rest[1]); }
    hide Digit, IsDigit, IsHexDigit;
    DecodeFirst(table, s);
  }

  // ----- named references -----

  predicate Alphanumeric(c: char) { '0' <= c <= '9' || 'A' <= c <= 'Z' || 'a' <= c <= 'z' }

  lemma AlphanumericIsThat(c: char)
    ensures Alphanumeric(c) <==> IsAlphanumeric(c)
  {
  }

  /** No name of the table of more than `n` characters stands at the front of `s`. */
  ghost predicate NoLonger(table: map<string, string>, s: string, n: nat) {
    forall m :: n < m <= |s| ==> s[..m] !in table
  }

  /** Without ';' at its end, and before "=" or a letter or digit, a name is left as written. */
  predicate LeftAlone(name: string, rest: string) {
    name != [] && name[|name| - 1] != ';' && rest != [] && (rest[0] == '=' || Alphanumeric(rest[0]))
  }

  lemma LongestIs(table: map<string, string>, s: string, n: nat, length: nat)
    requires n <= length <= |s| && NoLonger(table, s, n) && (n == 0 || s[..n] in table)
    ensures Longest(table, s, length) == n
    decreases length
  {
  }

  /** The longest name of the table at the front gives what it stands for, unless it is left alone. */
  lemma NamedReads(table: map<string, string>, name: string, rest: string)
    requires IsTable(table) && name in table && Alphanumeric(name[0]) && NoLonger(table, name + rest, |name|)
    ensures Decode(table, "&" + name + rest) ==
            if LeftAlone(name, rest) then "&" + Decode(table, name + rest) else table[name] + Decode(table, rest)
  {
    var s := "&" + name + rest;
    assert s[1..] == name + rest && s[|name| + 1..] == rest && (name + rest)[..|name|] == name;
    assert (name + rest)[|name| - 1] == name[|name| - 1] && s[1] == name[0];
    LongestIs(table, name + rest, |name|, Min(MAX_NAME_LENGTH, |name + rest|));
    AlphanumericIsThat(name[0]);
    NotHash(name[0]);
    if rest != [] {
      AlphanumericIsThat(rest[0]);
      assert (name + rest)[|name|] == rest[0];
    }
    hide Alphanumeric, IsAlphanumeric, Longest, NoLonger;
    DecodeFirst(table, s);
  }

  lemma NotHash(c: char)
    ensures Alphanumeric(c) ==> c != '#'
  {
    AlphanumericIsThat(c);
  }

  /** An ampersand before what no name of the table begins, or before nothing, is text; so is every other character, but
      NUL, which is read as U+FFFD. */
  lemma TextReads(table: map<string, string>, c: char, rest: string)
    requires !(c == '&' && rest != [] && rest[0] == '#')
    requires c == '&' && rest != [] && Alphanumeric(rest[0]) ==> NoLonger(table, rest, 0)
    ensures Decode(table, [c] + rest) == [if c == '\0' then '\U{FFFD}' else c] + Decode(table, rest)
  {
    var s := [c] + rest;
    assert s[1..] == rest;
    if rest != [] { AlphanumericIsThat(rest[0]); }
    if c == '&' && rest != [] && Alphanumeric(rest[0]) { LongestIs(table, rest, 0, Min(MAX_NAME_LENGTH, |rest|)); }
    hide Alphanumeric, IsAlphanumeric, Longest, NoLonger, NumericToken;
    DecodeFirst(table, s);
  }
}

/** JavaScript strings as sequences of UTF-16 code units, and what JSON.stringify writes for one
    (section 7 of RFC 8259; lone surrogates are escaped, as ECMAScript's QuoteJSONString does). */
module JsStrings {
  type Unit = u: int | 0 <= u < 0x1_0000

  type JsString = seq<Unit>

  const QUOTE: Unit := 0x22
  const APOSTROPHE: Unit := 0x27
  const BACKSLASH: Unit := 0x5C

  /** A text of characters as the code units JavaScript keeps. */
  function Units(s: string): JsString {
    if s == [] then []
    else
      var c := s[0] as int;
      (if c < 0x1_0000 then [c] else [0xD800 + (c - 0x1_0000) / 0x400, 0xDC00 + (c - 0x1_0000) % 0x400]) + Units(s[1..])
  }

  predicate IsLead(u: Unit) { 0xD800 <= u <= 0xDBFF }

  predicate IsTrail(u: Unit) { 0xDC00 <= u <= 0xDFFF }

  function HexDigit(n: int): (u: Unit)
    requires 0 <= n < 16
  {
    if n < 10 then 0x30 + n else 0x61 + n - 10
  }

  function HexEscape(u: Unit): (e: JsString) {
    [BACKSLASH, 0x75, HexDigit(u / 16 / 16 / 16), HexDigit(u / 16 / 16 % 16), HexDigit(u / 16 % 16), HexDigit(u % 16)]
  }

  /** The letter after the backslash of a two-unit escape, 0 when `u` has none. */
  function EscapeLetter(u: Unit): Unit {
    match u
    case 0x08 => 0x62
    case 0x09 => 0x74
    case 0x0A => 0x6E
    case 0x0C => 0x66
    case 0x0D => 0x72
    case 0x22 => 0x22
    case 0x5C => 0x5C
    case _ => 0
  }

  /** How many units one step of the writer takes: two for a surrogate pair. */
  function Width(s: JsString): (n: nat)
    requires s != []
    ensures 1 <= n <= |s|
  {
    if |s| >= 2 && IsLead(s[0]) && IsTrail(s[1]) then 2 else 1
  }

  /** What one step writes for the units it takes. */
  function JsonStep(s: JsString): (e: JsString)
    requires s != []
    ensures e != [] && e[0] != QUOTE
  {
    if Width(s) == 2 then s[..2]
    else if EscapeLetter(s[0]) != 0 then [BACKSLASH, EscapeLetter(s[0])]
    else if s[0] < 0x20 || IsLead(s[0]) || IsTrail(s[0]) then HexEscape(s[0])
    else [s[0]]
  }

  function JsonBody(s: JsString): (b: JsString)
    ensures b != [] ==> b[0] != QUOTE
  {
    if s == [] then [] else JsonStep(s) + JsonBody(s[Width(s)..])
  }

  function JsonStringify(s: JsString): JsString { [QUOTE] + JsonBody(s) + [QUOTE] }
}

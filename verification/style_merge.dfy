/** Merging two inline styles (packages/core/src/style-merge.ts): the tokenizer that finds declaration
    boundaries (section 4 of CSS Syntax Module Level 3, as far as the code follows it), the parser, and
    the merge.  `lower` stands for String.prototype.toLowerCase. */
module StyleMerge {
  import opened Options
  import opened WhiteSpace

  datatype Declaration = Declaration(name: string, value: string)

  // ----- the tokenizer -----

  predicate IsNewline(c: char) { c == '\n' || c == '\r' || c == '\U{000C}' }

  /** The state between two tokens: the open string's quote, and the closers still due. */
  datatype Lex = Lex(quote: Option<char>, closers: seq<char>)

  const TOP := Lex(None, [])

  /** `cut`: a stop at the top level; `open`: a comment that never ends. */
  datatype Step = Step(next: nat, lex: Lex, cut: bool, open: bool)

  /** Just after the first "*" "/" at or after `i`, None when there is none. */
  function CommentEnd(text: string, i: nat): (end: Option<nat>)
    ensures end.Some? ==> i + 2 <= end.value <= |text|
    decreases |text| - i
  {
    if i + 2 > |text| then None
    else if text[i] == '*' && text[i + 1] == '/' then Some(i + 2)
    else CommentEnd(text, i + 1)
  }

  function Closer(c: char): Option<char> {
    match c
    case '(' => Some(')')
    case '[' => Some(']')
    case '{' => Some('}')
    case _ => None
  }

  function LexStep(text: string, i: nat, lex: Lex, stop: char): (s: Step)
    requires i < |text|
    ensures i < s.next
    ensures s.cut ==> s == Step(i + 1, lex, true, false) && lex == TOP && text[i] == stop
  {
    var c := text[i];
    if lex.quote.Some? then
      if c == '\\' then Step(i + 2, lex, false, false)
      else Step(i + 1, if c == lex.quote.value || IsNewline(c) then Lex(None, lex.closers) else lex, false, false)
    else if c == '/' && i + 1 < |text| && text[i + 1] == '*' then
      var end := CommentEnd(text, i + 2);
      if end.Some? then Step(end.value, lex, false, false) else Step(|text|, lex, false, true)
    else if c == '\\' then
      Step(if i + 1 < |text| && IsNewline(text[i + 1]) then i + 1 else i + 2, lex, false, false)
    else if c == '\"' || c == '\'' then Step(i + 1, Lex(Some(c), lex.closers), false, false)
    else if Closer(c).Some? then Step(i + 1, Lex(None, lex.closers + [Closer(c).value]), false, false)
    else if lex.closers != [] && c == lex.closers[|lex.closers| - 1] then
      Step(i + 1, Lex(None, lex.closers[..|lex.closers| - 1]), false, false)
    else Step(i + 1, lex, c == stop && lex.closers == [], false)
  }

  /** The parts still to come, from `i` in state `lex`, the current part having begun at `start`;
      `limit` None is Infinity. */
  function SplitFrom(text: string, stop: char, limit: Option<nat>, start: nat, i: nat, lex: Lex,
                     count: nat): (parts: seq<string>)
    requires start <= |text| && start <= i
    ensures parts != []
    decreases |text| - i
  {
    if i >= |text| then [text[start..]]
    else
      var s := LexStep(text, i, lex, stop);
      if s.cut && (limit.Some? ==> count < limit.value)
      then [text[start..i]] + SplitFrom(text, stop, limit, i + 1, i + 1, lex, count + 1)
      else SplitFrom(text, stop, limit, start, s.next, s.lex, count)
  }

  function Split(text: string, stop: char, limit: Option<nat>): seq<string> {
    SplitFrom(text, stop, limit, 0, 0, TOP, 0)
  }

  /** The parts found so far, followed by those still to come, are the split. */
  ghost predicate Underway(text: string, stop: char, limit: Option<nat>, start: nat, i: nat, lex: Lex,
                           parts: seq<string>) {
    start <= |text| && start <= i &&
        Split(text, stop, limit) == parts + SplitFrom(text, stop, limit, start, i, lex, |parts|)
  }

  lemma Advance(text: string, stop: char, limit: Option<nat>, start: nat, i: nat, lex: Lex, parts: seq<string>)
    requires Underway(text, stop, limit, start, i, lex, parts) && i < |text|
    ensures var s := LexStep(text, i, lex, stop);
            if s.cut && (limit.Some? ==> |parts| < limit.value)
            then Underway(text, stop, limit, i + 1, i + 1, lex, parts + [text[start..i]])
            else Underway(text, stop, limit, start, s.next, s.lex, parts)
  {
    hide LexStep, Split;
    if LexStep(text, i, lex, stop).cut && (limit.Some? ==> |parts| < limit.value) {
      var rest := SplitFrom(text, stop, limit, i + 1, i + 1, lex, |parts| + 1);
      assert parts + ([text[start..i]] + rest) == parts + [text[start..i]] + rest;
    }
  }

  /** `split_top_level()`. */
  method SplitTopLevel(text: string, stop: char, limit: Option<nat>) returns (parts: seq<string>)
    requires stop == ';' || stop == ':'
    ensures parts == Split(text, stop, limit)
  {
    parts := [];
    var closers: seq<char> := [];
    var quote: Option<char> := None;
    var start, i := 0, 0;
    while i < |text|
      invariant Underway(text, stop, limit, start, i, Lex(quote, closers), parts)
      decreases |text| - i
    {
      hide Split, SplitFrom, CommentEnd;
      Advance(text, stop, limit, start, i, Lex(quote, closers), parts);
      var c := text[i];
      if quote.Some? {
        if c == '\\' {
          i := i + 2;
          continue;
        }
        if c == quote.value || IsNewline(c) { quote := None; }
        i := i + 1;
        continue;
      }
      if c == '/' && i + 1 < |text| && text[i + 1] == '*' {
        var end := CommentEnd(text, i + 2);
        i := if end.None? then |text| else end.value;
        continue;
      }
      if c == '\\' {
        i := i + if i + 1 < |text| && IsNewline(text[i + 1]) then 1 else 2;
        continue;
      }
      if c == '\"' || c == '\'' {
        quote := Some(c);
      } else if c == '(' {
        closers := closers + [')'];
      } else if c == '[' {
        closers := closers + [']'];
      } else if c == '{' {
        closers := closers + ['}'];
      } else if closers != [] && c == closers[|closers| - 1] {
        closers := closers[..|closers| - 1];
      } else if c == stop && closers == [] && (limit.Some? ==> |parts| < limit.value) {
        parts := parts + [text[start..i]];
        start := i + 1;
      }
      i := i + 1;
    }
    parts := parts + [text[start..]];
  }

  // ----- the parser -----

  function TrimStart(s: string): string { if s != [] && IsSpace(s[0]) then TrimStart(s[1..]) else s }

  function TrimEnd(s: string): string { if s != [] && IsSpace(s[|s| - 1]) then TrimEnd(s[..|s| - 1]) else s }

  function Trim(s: string): string { TrimEnd(TrimStart(s)) }

  /** The text from `i` with every comment dropped, an unfinished one to the end. */
  function StripComments(text: string, i: nat): string
    decreases |text| - i
  {
    if i >= |text| then []
    else if i + 1 < |text| && text[i] == '/' && text[i + 1] == '*' then
      var end := CommentEnd(text, i + 2);
      if end.Some? then StripComments(text, end.value) else []
    else [text[i]] + StripComments(text, i + 1)
  }

  predicate IsCustom(name: string) { "--" <= name }

  /** What one `;`-part declares, None when a browser drops it. */
  function ParseRule(rule: string): Option<Declaration> {
    var parts := Split(rule, ':', Some(1));
    if |parts| < 2 then None
    else
      var name, value := Trim(StripComments(parts[0], 0)), Trim(parts[1]);
      if name == [] || (value == [] && !IsCustom(name)) then None else Some(Declaration(name, value))
  }

  function ParseRules(rules: seq<string>): seq<Declaration> {
    if rules == [] then []
    else (match ParseRule(rules[0]) case None => [] case Some(d) => [d]) + ParseRules(rules[1..])
  }

  function Parse(style: string): seq<Declaration> { ParseRules(Split(style, ';', None)) }

  lemma RuleStep(rules: seq<string>, k: nat, ds: seq<Declaration>)
    requires k < |rules|
    ensures ds + ParseRules(rules[k..]) ==
            (match ParseRule(rules[k]) case None => ds case Some(d) => ds + [d]) + ParseRules(rules[k + 1..])
  {
    hide ParseRule;
    assert rules[k..][1..] == rules[k + 1..];
  }

  /** `parse_style_declarations()`. */
  method ParseStyleDeclarations(style: string) returns (declarations: seq<Declaration>)
    ensures declarations == Parse(style)
  {
    hide Split, StripComments, Trim, ParseRules;
    declarations := [];
    var rules := SplitTopLevel(style, ';', None);
    assert rules[0..] == rules;
    for k := 0 to |rules|
      invariant declarations + ParseRules(rules[k..]) == Parse(style)
    {
      RuleStep(rules, k, declarations);
      var parts := SplitTopLevel(rules[k], ':', Some(1));
      if |parts| < 2 { continue; }
      var name, value := Trim(StripComments(parts[0], 0)), Trim(parts[1]);
      if name == [] { continue; }
      if value == [] && !IsCustom(name) { continue; }
      declarations := declarations + [Declaration(name, value)];
    }
    NoRules(rules[|rules|..]);
  }

  lemma NoRules(rules: seq<string>)
    requires rules == []
    ensures ParseRules(rules) == []
  {
  }

  // ----- the merge -----

  function PropertyKey(name: string, lower: string -> string): string { if IsCustom(name) then name else lower(name) }

  function LowerAscii(c: char): char { if 'A' <= c <= 'Z' then c - 'A' + 'a' else c }

  predicate SameAscii(s: string, lowerCase: string) {
    |s| == |lowerCase| && forall i :: 0 <= i < |s| ==> LowerAscii(s[i]) == lowerCase[i]
  }

  /** `/!\s*important$/i` */
  predicate IsImportant(value: string) {
    |value| >= 9 && SameAscii(value[|value| - 9..], "important")
    && var before := TrimEnd(value[..|value| - 9]); before != [] && before[|before| - 1] == '!'
  }

  /** Where the property of `key` stands among the entries, their number when it is not there. */
  function IndexOf(entries: seq<Declaration>, key: string, lower: string -> string): (i: nat)
    ensures i <= |entries|
    ensures i < |entries| ==> PropertyKey(entries[i].name, lower) == key
    ensures forall j :: 0 <= j < i ==> PropertyKey(entries[j].name, lower) != key
  {
    if entries == [] || PropertyKey(entries[0].name, lower) == key then 0 else 1 + IndexOf(entries[1..], key, lower)
  }

  /** One declaration entering the ordered map of those before it. */
  function Enter(entries: seq<Declaration>, d: Declaration, lower: string -> string): seq<Declaration> {
    var i := IndexOf(entries, PropertyKey(d.name, lower), lower);
    if i == |entries| then entries + [d]
    else if IsImportant(entries[i].value) && !IsImportant(d.value) then entries
    else entries[..i] + entries[i + 1..] + [d]
  }

  function Resolve(ds: seq<Declaration>, lower: string -> string): seq<Declaration> {
    if ds == [] then [] else Enter(Resolve(ds[..|ds| - 1], lower), ds[|ds| - 1], lower)
  }

  lemma NothingResolves(lower: string -> string)
    ensures Resolve([], lower) == []
  {
  }

  lemma ResolveStep(ds: seq<Declaration>, k: nat, lower: string -> string)
    requires k < |ds|
    ensures Resolve(ds[..k + 1], lower) == Enter(Resolve(ds[..k], lower), ds[k], lower)
  {
    hide Enter;
    assert ds[..k + 1][..k] == ds[..k];
  }

  function PrintOne(d: Declaration): string { d.name + ": " + d.value }

  function Print(ds: seq<Declaration>): string {
    if ds == [] then [] else if |ds| == 1 then PrintOne(ds[0]) else PrintOne(ds[0]) + "; " + Print(ds[1..])
  }

  function Merged(base: string, extra: string, extraWins: bool, lower: string -> string): string {
    Print(Resolve(if extraWins then Parse(base) + Parse(extra) else Parse(extra) + Parse(base), lower))
  }

  /** `merge_style()`; the entries are the JavaScript Map in insertion order. */
  method MergeStyle(base: string, extra: string, extraWins: bool, lower: string -> string) returns (style: string)
    ensures style == Merged(base, extra, extraWins, lower)
  {
    hide Parse, Print, Resolve, IsImportant, PropertyKey, IndexOf;
    var loser := ParseStyleDeclarations(if extraWins then base else extra);
    var winner := ParseStyleDeclarations(if extraWins then extra else base);
    var all := loser + winner;
    var entries: seq<Declaration> := [];
    NothingResolves(lower);
    for k := 0 to |all|
      invariant entries == Resolve(all[..k], lower)
    {
      var d := all[k];
      ResolveStep(all, k, lower);
      var i := IndexOf(entries, PropertyKey(d.name, lower), lower);
      if i < |entries| && IsImportant(entries[i].value) && !IsImportant(d.value) { continue; }
      if i < |entries| { entries := entries[..i] + entries[i + 1..]; }
      entries := entries + [d];
    }
    assert all[..|all|] == all;
    style := Print(entries);
  }
}

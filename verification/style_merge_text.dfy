/** Style text: splitting loses nothing, and a list of closed declarations that is printed parses back to
    itself, so that merging is associative on the text too. */
module StyleMergeText {
  import opened Options
  import opened WhiteSpace
  import opened StyleMerge
  import opened StyleMergeTheorems

  // ----- splitting loses nothing -----

  function Rejoin(parts: seq<string>, stop: char): string
    requires parts != []
  {
    if |parts| == 1 then parts[0] else parts[0] + [stop] + Rejoin(parts[1..], stop)
  }

  lemma {:induction false} SplitFromRejoins(text: string, stop: char, limit: Option<nat>, start: nat, i: nat, lex: Lex,
                                            count: nat)
    requires start <= |text| && start <= i
    ensures Rejoin(SplitFrom(text, stop, limit, start, i, lex, count), stop) == text[start..]
    ensures limit.Some? && count <= limit.value ==>
            |SplitFrom(text, stop, limit, start, i, lex, count)| <= limit.value - count + 1
    decreases |text| - i
  {
    hide LexStep;
    if i < |text| {
      var s := LexStep(text, i, lex, stop);
      if s.cut && (limit.Some? ==> count < limit.value) {
        SplitFromRejoins(text, stop, limit, i + 1, i + 1, lex, count + 1);
        var rest := SplitFrom(text, stop, limit, i + 1, i + 1, lex, count + 1);
        assert ([text[start..i]] + rest)[1..] == rest;
        assert text[start..] == text[start..i] + [stop] + text[i + 1..];
      } else {
        SplitFromRejoins(text, stop, limit, start, s.next, s.lex, count);
      }
    }
  }

  /** The parts, put back together with the separator, are the text. */
  lemma SplitRejoins(text: string, stop: char, limit: Option<nat>)
    ensures Rejoin(Split(text, stop, limit), stop) == text
    ensures limit.Some? ==> |Split(text, stop, limit)| <= limit.value + 1
  {
    SplitFromRejoins(text, stop, limit, 0, 0, TOP, 0);
  }

  // ----- closed declarations -----

  predicate IsNameChar(c: char) { 'a' <= c <= 'z' || 'A' <= c <= 'Z' || '0' <= c <= '9' || c == '-' || c == '_' }

  predicate IsName(name: string) { name != [] && forall i :: 0 <= i < |name| ==> IsNameChar(name[i]) }

  /** From `i` in state `lex` the value meets no top-level `;`, and ends with no string, bracket, comment or
      escape open. */
  predicate ClosedFrom(v: string, i: nat, lex: Lex)
    decreases |v| - i
  {
    if i >= |v| then i == |v| && lex == TOP
    else
      var s := LexStep(v, i, lex, ';');
      !s.cut && !s.open && ClosedFrom(v, s.next, s.lex)
  }

  predicate Trimmed(s: string) { s == [] || (!IsSpace(s[0]) && !IsSpace(s[|s| - 1])) }

  predicate Nice(d: Declaration) {
    IsName(d.name) && ClosedFrom(d.value, 0, TOP) && Trimmed(d.value) && (d.value == [] ==> IsCustom(d.name))
  }

  predicate AllNice(ds: seq<Declaration>) { forall i :: 0 <= i < |ds| ==> Nice(ds[i]) }

  // ----- a closed value is scanned in its place as it is on its own -----

  lemma {:induction false} CommentShift(pre: string, v: string, post: string, j: nat)
    requires CommentEnd(v, j).Some?
    ensures CommentEnd(pre + v + post, |pre| + j) == Some(|pre| + CommentEnd(v, j).value)
    decreases |v| - j
  {
    var text := pre + v + post;
    assert text[|pre| + j] == v[j] && text[|pre| + j + 1] == v[j + 1];
    if !(v[j] == '*' && v[j + 1] == '/') { CommentShift(pre, v, post, j + 1); }
  }

  lemma StepShift(pre: string, v: string, post: string, i: nat, lex: Lex)
    requires i < |v| && (post == [] || post[0] != '*')
    requires var s := LexStep(v, i, lex, ';'); !s.open && s.next <= |v|
    ensures var s := LexStep(v, i, lex, ';');
            LexStep(pre + v + post, |pre| + i, lex, ';') == Step(|pre| + s.next, s.lex, s.cut, s.open)
  {
    var text := pre + v + post;
    assert text[|pre| + i] == v[i];
    assert i + 1 < |v| ==> text[|pre| + i + 1] == v[i + 1];
    assert i + 1 == |v| && post != [] ==> text[|pre| + i + 1] != '*';
    hide CommentEnd;
    if lex.quote.None? && i + 1 < |v| && v[i] == '/' && v[i + 1] == '*' { CommentShift(pre, v, post, i + 2); }
  }

  lemma {:induction false} ScanClosed(pre: string, v: string, post: string, i: nat, lex: Lex, start: nat, count: nat)
    requires (post == [] || post[0] == ';') && ClosedFrom(v, i, lex) && start <= |pre| + i && start <= |pre + v + post|
    ensures i <= |v|
    ensures SplitFrom(pre + v + post, ';', None, start, |pre| + i, lex, count) ==
            SplitFrom(pre + v + post, ';', None, start, |pre| + |v|, TOP, count)
    decreases |v| - i
  {
    hide LexStep, SplitFrom;
    if i >= |v| {
      assert i == |v| && lex == TOP;
    } else {
      var s := LexStep(v, i, lex, ';');
      ClosedEnds(v, s.next, s.lex);
      StepShift(pre, v, post, i, lex);
      Skip(pre + v + post, ';', None, start, |pre| + i, lex, count);
      ScanClosed(pre, v, post, s.next, s.lex, start, count);
    }
  }

  lemma Skip(text: string, stop: char, limit: Option<nat>, start: nat, i: nat, lex: Lex, count: nat)
    requires start <= i < |text| && !LexStep(text, i, lex, stop).cut
    ensures var s := LexStep(text, i, lex, stop);
            SplitFrom(text, stop, limit, start, i, lex, count) ==
                SplitFrom(text, stop, limit, start, s.next, s.lex, count)
  {
    hide LexStep;
  }

  lemma {:induction false} ClosedEnds(v: string, i: nat, lex: Lex)
    requires ClosedFrom(v, i, lex)
    ensures i <= |v|
  {
  }

  // ----- what a closed value may hold -----

  lemma {:induction false} ClosedShift(pre: string, v: string, post: string, i: nat, lex: Lex)
    requires ClosedFrom(v, i, lex) && ClosedFrom(post, 0, TOP) && (post == [] || post[0] != '*')
    requires post != [] ==> ClosedFrom(pre + v + post, |pre + v|, TOP)
    ensures ClosedFrom(pre + v + post, |pre| + i, lex)
    decreases |v| - i
  {
    ClosedEnds(v, i, lex);
    hide LexStep;
    if i < |v| {
      var s := LexStep(v, i, lex, ';');
      ClosedEnds(v, s.next, s.lex);
      StepShift(pre, v, post, i, lex);
      ClosedShift(pre, v, post, s.next, s.lex);
    }
  }

  /** Closed values written one after another are closed - unless a comment would open between them. */
  lemma ClosedConcat(a: string, b: string)
    requires ClosedFrom(a, 0, TOP) && ClosedFrom(b, 0, TOP) && (b == [] || b[0] != '*')
    ensures ClosedFrom(a + b, 0, TOP)
  {
    hide LexStep, ClosedFrom;
    EmptyClosed();
    ClosedShift(a, b, [], 0, TOP);
    assert a + b + [] == a + b && [] + a + b == a + b && [] + a == a;
    ClosedShift([], a, b, 0, TOP);
  }

  lemma EmptyClosed()
    ensures ClosedFrom([], 0, TOP)
  {
  }

  /** A string may hold any separator: whatever stands between two quotes, but for the quote itself, a backslash
      or a newline. */
  lemma StringCloses(s: string, quote: char)
    requires quote == '\"' || quote == '\''
    requires forall i :: 0 <= i < |s| ==> s[i] != quote && s[i] != '\\' && !IsNewline(s[i])
    ensures ClosedFrom([quote] + s + [quote], 0, TOP)
  {
    var v := [quote] + s + [quote];
    assert LexStep(v, 0, TOP, ';') == Step(1, Lex(Some(quote), []), false, false);
    InString(v, quote, 1);
  }

  lemma {:induction false} InString(v: string, quote: char, i: nat)
    requires 1 <= i < |v| && v[|v| - 1] == quote && !IsNewline(quote) && quote != '\\'
    requires forall k :: 1 <= k < |v| - 1 ==> v[k] != quote && v[k] != '\\' && !IsNewline(v[k])
    ensures ClosedFrom(v, i, Lex(Some(quote), []))
    decreases |v| - i
  {
    if i < |v| - 1 { InString(v, quote, i + 1); } else { assert ClosedFrom(v, |v|, TOP); }
  }

  /** So may a comment, up to the first mark that ends it. */
  lemma CommentCloses(v: string)
    requires |v| >= 4 && v[0] == '/' && v[1] == '*' && CommentEnd(v, 2) == Some(|v|)
    ensures ClosedFrom(v, 0, TOP)
  {
    CommentStep(v);
    hide LexStep, CommentEnd;
    assert ClosedFrom(v, |v|, TOP);
  }

  lemma CommentStep(v: string)
    requires |v| >= 4 && v[0] == '/' && v[1] == '*' && CommentEnd(v, 2) == Some(|v|)
    ensures LexStep(v, 0, TOP, ';') == Step(|v|, TOP, false, false)
  {
    hide CommentEnd;
  }

  /** So may a bracketed block of characters that open and close nothing - `;` and `:` among them. */
  lemma {:induction false} BlockCloses(s: string, bracket: char)
    requires Closer(bracket).Some?
    requires forall i :: 0 <= i < |s| ==> IsNameChar(s[i]) || s[i] in " ;:,.#%"
    ensures ClosedFrom([bracket] + s + [Closer(bracket).value], 0, TOP)
  {
    var v := [bracket] + s + [Closer(bracket).value];
    OpenStep(v);
    hide LexStep, IsNameChar;
    assert forall k :: 1 <= k < |v| - 1 ==> v[k] == s[k - 1];
    InBlock(v, Closer(bracket).value, 1);
  }

  lemma OpenStep(v: string)
    requires v != [] && Closer(v[0]).Some?
    ensures LexStep(v, 0, TOP, ';') == Step(1, Lex(None, [Closer(v[0]).value]), false, false)
  {
  }

  lemma {:induction false} InBlock(v: string, closer: char, i: nat)
    requires 1 <= i < |v| && v[|v| - 1] == closer && closer in ")]}"
    requires forall k :: 1 <= k < |v| - 1 ==> IsNameChar(v[k]) || v[k] in " ;:,.#%"
    ensures ClosedFrom(v, i, Lex(None, [closer]))
    decreases |v| - i
  {
    if i < |v| - 1 {
      PlainStep(v, i, closer);
      InBlock(v, closer, i + 1);
    } else {
      assert ClosedFrom(v, |v|, TOP);
      assert LexStep(v, i, Lex(None, [closer]), ';') == Step(i + 1, TOP, false, false);
    }
  }

  lemma PlainStep(v: string, i: nat, closer: char)
    requires i < |v| && closer in ")]}" && (IsNameChar(v[i]) || v[i] in " ;:,.#%")
    ensures LexStep(v, i, Lex(None, [closer]), ';') == Step(i + 1, Lex(None, [closer]), false, false)
  {
  }

  // ----- names and separators are scanned one by one -----

  predicate Inert(c: char, stop: char) { (IsNameChar(c) || c == ' ' || c == ':') && c != stop }

  lemma {:induction false} ScanInert(text: string, stop: char, limit: Option<nat>, start: nat, i: nat, j: nat,
                                     count: nat)
    requires start <= i <= j <= |text|
    requires forall k :: i <= k < j ==> Inert(text[k], stop)
    ensures SplitFrom(text, stop, limit, start, i, TOP, count) == SplitFrom(text, stop, limit, start, j, TOP, count)
    decreases j - i
  {
    hide LexStep, Inert, SplitFrom;
    if i < j {
      InertStep(text, stop, i);
      Skip(text, stop, limit, start, i, TOP, count);
      ScanInert(text, stop, limit, start, i + 1, j, count);
    }
  }

  lemma InertStep(text: string, stop: char, i: nat)
    requires i < |text| && Inert(text[i], stop)
    ensures LexStep(text, i, TOP, stop) == Step(i + 1, TOP, false, false)
  {
  }

  lemma {:induction false} NoMoreCuts(text: string, stop: char, limit: nat, start: nat, i: nat, lex: Lex, count: nat)
    requires start <= |text| && start <= i && count >= limit
    ensures SplitFrom(text, stop, Some(limit), start, i, lex, count) == [text[start..]]
    decreases |text| - i
  {
    hide LexStep;
    if i < |text| {
      var s := LexStep(text, i, lex, stop);
      NoMoreCuts(text, stop, limit, start, s.next, s.lex, count);
    }
  }

  // ----- one rule -----

  lemma {:induction false} TrimStartLead(lead: string, s: string)
    requires (lead == [] || lead == " ") && s != [] && !IsSpace(s[0])
    ensures TrimStart(lead + s) == s
  {
    assert [] + s == s;
    assert (" " + s)[1..] == s;
  }

  lemma TrimLead(lead: string, s: string)
    requires (lead == [] || lead == " ") && Trimmed(s)
    ensures Trim(lead + s) == s
  {
    if s == [] {
      assert lead + s == lead;
      assert " "[1..] == [];
    } else {
      TrimStartLead(lead, s);
    }
  }

  lemma {:induction false} NoComment(text: string, i: nat)
    requires i <= |text| && forall k :: 0 <= k < |text| ==> text[k] != '/'
    ensures StripComments(text, i) == text[i..]
    decreases |text| - i
  {
    if i < |text| { NoComment(text, i + 1); }
  }

  lemma NameTrimmed(name: string)
    requires IsName(name)
    ensures Trimmed(name)
  {
  }

  lemma RuleSplits(lead: string, d: Declaration)
    requires (lead == [] || lead == " ") && IsName(d.name)
    ensures Split(lead + PrintOne(d), ':', Some(1)) == [lead + d.name, " " + d.value]
  {
    hide LexStep, SplitFrom, IsName;
    var rule := lead + PrintOne(d);
    var first, second := lead + d.name, " " + d.value;
    var p := |first|;
    assert rule == first + ":" + second;
    InertName(lead, d.name);
    assert forall k :: 0 <= k < p ==> rule[k] == first[k];
    ScanInert(rule, ':', Some(1), 0, 0, p, 0);
    CutAt(rule, ':', Some(1), 0, p, 0);
    NoMoreCuts(rule, ':', 1, p + 1, p + 1, TOP, 1);
    assert rule[0..p] == first && rule[p + 1..] == second;
  }

  lemma CutAt(text: string, stop: char, limit: Option<nat>, start: nat, p: nat, count: nat)
    requires start <= p < |text| && text[p] == stop && (stop == ':' || stop == ';') &&
             (limit.Some? ==> count < limit.value)
    ensures SplitFrom(text, stop, limit, start, p, TOP, count) ==
            [text[start..p]] + SplitFrom(text, stop, limit, p + 1, p + 1, TOP, count + 1)
  {
    assert LexStep(text, p, TOP, stop) == Step(p + 1, TOP, true, false);
    hide LexStep;
  }

  lemma InertName(lead: string, name: string)
    requires (lead == [] || lead == " ") && IsName(name)
    ensures forall k :: 0 <= k < |lead + name| ==> Inert((lead + name)[k], ':') && Inert((lead + name)[k], ';')
  {
  }

  /** A printed declaration, with the space the printer puts before it, parses back. */
  lemma RuleParses(lead: string, d: Declaration)
    requires (lead == [] || lead == " ") && Nice(d)
    ensures ParseRule(lead + PrintOne(d)) == Some(d)
  {
    RuleSplits(lead, d);
    InertName(lead, d.name);
    assert forall k :: 0 <= k < |lead + d.name| ==> (lead + d.name)[k] != '/';
    NoComment(lead + d.name, 0);
    NameTrimmed(d.name);
    hide Split, StripComments, Trim, ClosedFrom, IsNameChar, Trimmed;
    TrimLead(lead, d.name);
    TrimLead(" ", d.value);
  }

  // ----- a printed list -----

  /** The `;`-parts of a printed list. */
  function Pieces(lead: string, ds: seq<Declaration>): seq<string>
    decreases ds
  {
    if ds == [] then [] else [lead + PrintOne(ds[0])] + Pieces(" ", ds[1..])
  }

  /** Scanning one printed declaration in its place ends at its end, at the top level. */
  lemma ScanDeclaration(pre: string, lead: string, d: Declaration, post: string, count: nat)
    requires (lead == [] || lead == " ") && Nice(d) && (post == [] || post[0] == ';')
    ensures var one := lead + PrintOne(d);
            SplitFrom(pre + one + post, ';', None, |pre|, |pre|, TOP, count) ==
            SplitFrom(pre + one + post, ';', None, |pre|, |pre| + |one|, TOP, count)
  {
    hide SplitFrom, ClosedFrom, IsNameChar, Trimmed;
    var head := lead + d.name + ": ";
    var text := pre + (lead + PrintOne(d)) + post;
    assert text == (pre + head) + d.value + post;
    InertHead(lead, d.name);
    assert forall k :: |pre| <= k < |pre + head| ==> text[k] == head[k - |pre|];
    ScanInert(text, ';', None, |pre|, |pre|, |pre + head|, count);
    ScanClosed(pre + head, d.value, post, 0, TOP, |pre|, count);
  }

  lemma InertHead(lead: string, name: string)
    requires (lead == [] || lead == " ") && IsName(name)
    ensures forall k :: 0 <= k < |lead + name + ": "| ==> Inert((lead + name + ": ")[k], ';')
  {
    InertName(lead, name);
    assert forall k :: 0 <= k < |lead + name| ==> (lead + name + ": ")[k] == (lead + name)[k];
  }

  lemma AtEnd(text: string, stop: char, start: nat, count: nat)
    requires start <= |text|
    ensures SplitFrom(text, stop, None, start, |text|, TOP, count) == [text[start..]]
  {
  }

  lemma PrintedText(pre: string, lead: string, ds: seq<Declaration>)
    requires ds != []
    ensures var one := lead + PrintOne(ds[0]);
            pre + (lead + Print(ds)) == if |ds| == 1 then pre + one else pre + one + (";" + (" " + Print(ds[1..])))
  {
    hide PrintOne;
    if |ds| > 1 {
      var rest := Print(ds[1..]);
      assert Print(ds) == PrintOne(ds[0]) + "; " + rest;
      hide Print;
      Regroup(pre, lead, PrintOne(ds[0]), rest);
    }
  }

  lemma Regroup(pre: string, lead: string, one: string, rest: string)
    ensures pre + (lead + (one + "; " + rest)) == pre + (lead + one) + (";" + (" " + rest))
  {
    assert "; " == ";" + " ";
    assert one + "; " + rest == one + (";" + (" " + rest));
  }

  lemma PiecesOf(lead: string, ds: seq<Declaration>)
    requires ds != []
    ensures Pieces(lead, ds) == [lead + PrintOne(ds[0])] + Pieces(" ", ds[1..])
    ensures |ds| == 1 ==> Pieces(" ", ds[1..]) == []
  {
  }

  /** `one` ends where `rest` begins. */
  lemma Cuts(pre: string, one: string, rest: string)
    ensures var text := pre + one + (";" + rest);
            && text[|pre|..|pre| + |one|] == one
            && text[|pre| + |one|] == ';'
            && text == (pre + one + ";") + rest
  {
  }

  lemma FirstPart(pre: string, lead: string, d: Declaration, rest: string, count: nat)
    requires (lead == [] || lead == " ") && Nice(d)
    ensures var one, next := lead + PrintOne(d), pre + (lead + PrintOne(d)) + ";";
            SplitFrom(pre + one + (";" + rest), ';', None, |pre|, |pre|, TOP, count) ==
            [one] + SplitFrom(next + rest, ';', None, |next|, |next|, TOP, count + 1)
  {
    hide Nice, PrintOne, SplitFrom;
    var one := lead + PrintOne(d);
    ScanDeclaration(pre, lead, d, ";" + rest, count);
    Cuts(pre, one, rest);
    CutAt(pre + one + (";" + rest), ';', None, |pre|, |pre| + |one|, count);
  }

  lemma OnlyPart(pre: string, lead: string, d: Declaration, count: nat)
    requires (lead == [] || lead == " ") && Nice(d)
    ensures SplitFrom(pre + (lead + PrintOne(d)), ';', None, |pre|, |pre|, TOP, count) == [lead + PrintOne(d)]
  {
    hide Nice, PrintOne, SplitFrom;
    var one := lead + PrintOne(d);
    ScanDeclaration(pre, lead, d, [], count);
    assert pre + one + [] == pre + one && (pre + one)[|pre|..] == one;
    AtEnd(pre + one, ';', |pre|, count);
  }

  lemma {:induction false} SplitPrinted(pre: string, lead: string, ds: seq<Declaration>, count: nat)
    requires (lead == [] || lead == " ") && ds != [] && AllNice(ds)
    ensures SplitFrom(pre + (lead + Print(ds)), ';', None, |pre|, |pre|, TOP, count) == Pieces(lead, ds)
    decreases |ds|
  {
    PrintedText(pre, lead, ds);
    PiecesOf(lead, ds);
    hide Nice, PrintOne, SplitFrom, Print, Pieces;
    if |ds| == 1 {
      OnlyPart(pre, lead, ds[0], count);
    } else {
      FirstPart(pre, lead, ds[0], " " + Print(ds[1..]), count);
      SplitPrinted(pre + (lead + PrintOne(ds[0])) + ";", " ", ds[1..], count + 1);
    }
  }

  lemma {:induction false} PiecesParse(lead: string, ds: seq<Declaration>)
    requires (lead == [] || lead == " ") && AllNice(ds)
    ensures ParseRules(Pieces(lead, ds)) == ds
    decreases ds
  {
    hide Nice, PrintOne, ParseRule;
    if ds != [] {
      RuleParses(lead, ds[0]);
      PiecesParse(" ", ds[1..]);
      assert ([lead + PrintOne(ds[0])] + Pieces(" ", ds[1..]))[1..] == Pieces(" ", ds[1..]);
    }
  }

  /** Printing a list of closed declarations and parsing the text gives the list. */
  lemma {:induction false} PrintThenParse(ds: seq<Declaration>)
    requires AllNice(ds)
    ensures Parse(Print(ds)) == ds
  {
    hide Nice;
    if ds == [] {
      NothingParses();
    } else {
      SplitPrinted([], [], ds, 0);
      assert [] + ([] + Print(ds)) == Print(ds);
      PiecesParse([], ds);
    }
  }

  lemma NothingParses()
    ensures Parse([]) == []
  {
    var parts: seq<string> := [[]];
    assert Split([], ';', None) == parts && Split([], ':', Some(1)) == parts;
    assert ParseRule([]) == None;
    assert parts[1..] == [];
  }

  // ----- merging texts -----

  lemma {:induction false} ResolveNice(ds: seq<Declaration>, lower: string -> string)
    requires AllNice(ds)
    ensures AllNice(Resolve(ds, lower))
    decreases |ds|
  {
    hide Nice, IsImportant, PropertyKey;
    if ds != [] {
      ResolveNice(ds[..|ds| - 1], lower);
      EnterNice(Resolve(ds[..|ds| - 1], lower), ds[|ds| - 1], lower);
    }
  }

  lemma EnterNice(ds: seq<Declaration>, d: Declaration, lower: string -> string)
    requires AllNice(ds) && Nice(d)
    ensures AllNice(Enter(ds, d, lower))
  {
    hide Nice, IsImportant, PropertyKey;
  }

  lemma {:induction false} MergedParses(a: string, b: string, lower: string -> string)
    requires AllNice(Parse(a)) && AllNice(Parse(b))
    ensures Parse(Merged(a, b, true, lower)) == Resolve(Parse(a) + Parse(b), lower)
    ensures AllNice(Parse(Merged(a, b, true, lower)))
  {
    hide Nice, Parse, Print, Resolve;
    ResolveNice(Parse(a) + Parse(b), lower);
    PrintThenParse(Resolve(Parse(a) + Parse(b), lower));
  }

  /** Three style texts whose declarations are closed merge to the same text in either grouping, and to the
      cascade of all their declarations. */
  lemma {:induction false} MergeAssociative(a: string, b: string, c: string, lower: string -> string)
    requires AllNice(Parse(a)) && AllNice(Parse(b)) && AllNice(Parse(c))
    ensures Merged(Merged(a, b, true, lower), c, true, lower) == Merged(a, Merged(b, c, true, lower), true, lower)
    ensures Merged(Merged(a, b, true, lower), c, true, lower) == Print(Resolve(Parse(a) + Parse(b) + Parse(c), lower))
  {
    hide Nice, Parse, Print, Resolve, AllNice;
    MergedParses(a, b, lower);
    MergedParses(b, c, lower);
    ResolveAssociative(Parse(a), Parse(b), Parse(c), lower);
  }
}

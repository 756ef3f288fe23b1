/** Where a style is cut, from what it is made of: strings, comments, escapes and nested blocks hide separators, and
    every other separator cuts. */
module StyleParts {
  import opened Options
  import opened WhiteSpace
  import opened StyleMerge
  import opened StyleMergeText
  import opened StyleImportant

  // ----- what a style is made of -----

  /** A character of a quoted string, as it is or after a backslash. */
  datatype Char = Raw(c: char) | Escaped(c: char)

  /** A character, one after a backslash, a string up to its quote or a newline, a comment, or a block. */
  datatype Part =
    | Plain(c: char)
    | Escape(c: char)
    | Quoted(quote: char, body: seq<Char>, end: char)
    | Comment(content: string)
    | Block(bracket: char, inner: seq<Part>)

  function ShowChars(body: seq<Char>): string {
    if body == [] then []
    else (match body[0] case Raw(c) => [c] case Escaped(c) => ['\\', c]) + ShowChars(body[1..])
  }

  function Partner(bracket: char): char { if bracket == '(' then ')' else if bracket == '[' then ']' else '}' }

  function ShowPart(p: Part): (text: string)
    ensures text != []
    decreases p, 0
  {
    match p
    case Plain(c) => [c]
    case Escape(c) => ['\\', c]
    case Quoted(quote, body, end) => [quote] + ShowChars(body) + [end]
    case Comment(body) => "/*" + body + "*/"
    case Block(bracket, inner) => [bracket] + Show(inner) + [Partner(bracket)]
  }

  function Show(ps: seq<Part>): string
    decreases ps, 1
  {
    if ps == [] then [] else ShowPart(ps[0]) + Show(ps[1..])
  }

  predicate Newline(c: char) { c in "\n\r" || c == '\U{000C}' }

  predicate FitsChars(body: seq<Char>, quote: char) {
    forall i :: 0 <= i < |body| && body[i].Raw? ==> body[i].c != quote && body[i].c != '\\' && !Newline(body[i].c)
  }

  /** Can the part stand in a block that `due` ends, or at the top level?  `star`: a "*" comes next. */
  predicate FitsPart(p: Part, due: Option<char>, stop: char, star: bool)
    decreases p, 0
  {
    match p
    case Plain(c) => c !in "\"'\\([{" && due != Some(c) && (due.None? ==> c != stop) && (c == '/' ==> !star)
    case Escape(_) => true
    case Quoted(quote, body, end) => quote in "\"'" && FitsChars(body, quote) && (end == quote || Newline(end))
    case Comment(body) => forall i :: 0 <= i < |body| ==> !((body + "*/")[i] == '*' && (body + "*/")[i + 1] == '/')
    case Block(bracket, inner) => bracket in "([{" && Fits(inner, Some(Partner(bracket)), stop)
  }

  predicate Fits(ps: seq<Part>, due: Option<char>, stop: char)
    decreases ps, 1
  {
    ps == [] || (FitsPart(ps[0], due, stop, |ps| > 1 && ps[1] == Plain('*')) && Fits(ps[1..], due, stop))
  }

  // ----- how the scan goes over it -----

  predicate IsStop(stop: char) { stop == ';' || stop == ':' }

  function Due(closers: seq<char>): Option<char> { if closers == [] then None else Some(closers[|closers| - 1]) }

  /** From `i` in state `lex` the scan comes to `j` in state `next` without a cut. */
  ghost predicate Goes(text: string, stop: char, i: nat, lex: Lex, j: nat, next: Lex) {
    i <= j && forall limit, start: nat, count {:trigger SplitFrom(text, stop, limit, start, i, lex, count)} ::
        start <= i && start <= |text| ==>
        SplitFrom(text, stop, limit, start, i, lex, count) == SplitFrom(text, stop, limit, start, j, next, count)
  }

  lemma GoesOn(text: string, stop: char, i: nat, lex: Lex, j: nat, next: Lex, k: nat, last: Lex)
    requires Goes(text, stop, i, lex, j, next) && Goes(text, stop, j, next, k, last)
    ensures Goes(text, stop, i, lex, k, last)
  {
    hide SplitFrom;
  }

  lemma OneGoes(text: string, stop: char, i: nat, lex: Lex, next: Lex, j: nat)
    requires i < |text| && LexStep(text, i, lex, stop) == Step(j, next, false, false)
    ensures Goes(text, stop, i, lex, j, next)
  {
    hide LexStep, SplitFrom;
    forall limit, start: nat, count | start <= i && start <= |text|
      ensures SplitFrom(text, stop, limit, start, i, lex, count) == SplitFrom(text, stop, limit, start, j, next, count)
    {
      Skip(text, stop, limit, start, i, lex, count);
    }
  }

  lemma Stays(text: string, stop: char, i: nat, lex: Lex)
    ensures Goes(text, stop, i, lex, i, lex)
  {
  }

  lemma PlainGoes(text: string, stop: char, i: nat, c: char, closers: seq<char>)
    requires IsStop(stop) && i < |text| && text[i] == c
    requires FitsPart(Plain(c), Due(closers), stop, i + 1 < |text| && text[i + 1] == '*')
    ensures Goes(text, stop, i, Lex(None, closers), i + 1, Lex(None, closers))
  {
    assert LexStep(text, i, Lex(None, closers), stop) == Step(i + 1, Lex(None, closers), false, false);
    hide LexStep;
    OneGoes(text, stop, i, Lex(None, closers), Lex(None, closers), i + 1);
  }

  lemma EscapeGoes(text: string, stop: char, i: nat, closers: seq<char>)
    requires IsStop(stop) && i + 1 < |text| && text[i] == '\\' && (forall c :: c in closers ==> c in ")]}")
    ensures Goes(text, stop, i, Lex(None, closers), i + 2, Lex(None, closers))
  {
    var lex := Lex(None, closers);
    if IsNewline(text[i + 1]) {
      assert closers != [] ==> closers[|closers| - 1] in closers;
      assert LexStep(text, i, lex, stop) == Step(i + 1, lex, false, false);
      assert LexStep(text, i + 1, lex, stop) == Step(i + 2, lex, false, false);
      hide LexStep, Goes;
      OneGoes(text, stop, i, lex, lex, i + 1);
      OneGoes(text, stop, i + 1, lex, lex, i + 2);
      GoesOn(text, stop, i, lex, i + 1, lex, i + 2, lex);
    } else {
      assert LexStep(text, i, lex, stop) == Step(i + 2, lex, false, false);
      hide LexStep, Goes;
      OneGoes(text, stop, i, lex, lex, i + 2);
    }
  }

  // ----- strings -----

  lemma {:induction false} CharsGo(text: string, stop: char, i: nat, body: seq<Char>, quote: char, closers: seq<char>)
    requires i + |ShowChars(body)| < |text| && text[i..i + |ShowChars(body)|] == ShowChars(body)
    requires FitsChars(body, quote)
    ensures Goes(text, stop, i, Lex(Some(quote), closers), i + |ShowChars(body)|, Lex(Some(quote), closers))
    decreases |body|
  {
    var lex := Lex(Some(quote), closers);
    if body == [] {
      Stays(text, stop, i, lex);
    } else {
      var j := CharGoes(text, stop, i, body, quote, closers);
      hide Goes;
      CharsGo(text, stop, j, body[1..], quote, closers);
      GoesOn(text, stop, i, lex, j, lex, i + |ShowChars(body)|, lex);
    }
  }

  lemma CharGoes(text: string, stop: char, i: nat, body: seq<Char>, quote: char, closers: seq<char>)
    returns (j: nat)
    requires body != [] && i + |ShowChars(body)| < |text| && text[i..i + |ShowChars(body)|] == ShowChars(body)
    requires FitsChars(body, quote)
    ensures Goes(text, stop, i, Lex(Some(quote), closers), j, Lex(Some(quote), closers))
    ensures j + |ShowChars(body[1..])| == i + |ShowChars(body)|
    ensures text[j..j + |ShowChars(body[1..])|] == ShowChars(body[1..]) && FitsChars(body[1..], quote)
  {
    var lex := Lex(Some(quote), closers);
    j := i + if body[0].Raw? then 1 else 2;
    var shown := ShowChars(body);
    assert text[i] == text[i..i + |shown|][0] == shown[0];
    assert shown[j - i..] == ShowChars(body[1..]);
    assert text[j..i + |shown|] == text[i..i + |shown|][j - i..];
    assert LexStep(text, i, lex, stop) == Step(j, lex, false, false);
    hide LexStep, ShowChars;
    OneGoes(text, stop, i, lex, lex, j);
  }

  // ----- comments -----

  lemma {:induction false} CommentEnds(text: string, i: nat, body: string)
    requires i + |body| + 2 <= |text| && text[i..i + |body| + 2] == body + "*/"
    requires FitsPart(Comment(body), None, ';', false)
    ensures CommentEnd(text, i) == Some(i + |body| + 2)
    decreases |body|
  {
    var shown := body + "*/";
    assert text[i] == text[i..i + |shown|][0] == shown[0];
    assert text[i + 1] == text[i..i + |shown|][1] == shown[1];
    if body != [] {
      var rest := body[1..];
      assert rest + "*/" == shown[1..];
      assert text[i + 1..i + |shown|] == text[i..i + |shown|][1..];
      forall k | 0 <= k < |rest| ensures !((rest + "*/")[k] == '*' && (rest + "*/")[k + 1] == '/') {
        assert (rest + "*/")[k] == shown[k + 1] && (rest + "*/")[k + 1] == shown[k + 2];
      }
      CommentEnds(text, i + 1, rest);
    }
  }

  lemma CommentGoes(text: string, stop: char, i: nat, body: string, closers: seq<char>)
    requires i + |body| + 4 <= |text| && text[i..i + |body| + 4] == "/*" + body + "*/"
    requires FitsPart(Comment(body), None, ';', false)
    ensures Goes(text, stop, i, Lex(None, closers), i + |body| + 4, Lex(None, closers))
  {
    var shown, lex := "/*" + body + "*/", Lex(None, closers);
    assert text[i] == text[i..i + |shown|][0] == shown[0];
    assert text[i + 1] == text[i..i + |shown|][1] == shown[1];
    assert text[i + 2..i + |shown|] == text[i..i + |shown|][2..] == shown[2..] == body + "*/";
    CommentEnds(text, i + 2, body);
    hide CommentEnd;
    assert LexStep(text, i, lex, stop) == Step(i + |body| + 4, lex, false, false);
    hide LexStep;
    OneGoes(text, stop, i, lex, lex, i + |body| + 4);
  }

  // ----- blocks, and parts in a row -----

  predicate Closers(closers: seq<char>) { forall c :: c in closers ==> c in ")]}" }

  /** `text` holds `shown` at `i`. */
  predicate At(text: string, i: nat, shown: string) { i + |shown| <= |text| && text[i..i + |shown|] == shown }

  lemma AtParts(text: string, i: nat, a: string, b: string)
    requires At(text, i, a + b)
    ensures At(text, i, a) && At(text, i + |a|, b)
  {
    assert (a + b)[..|a|] == a && (a + b)[|a|..] == b;
    assert text[i..i + |a|] == text[i..i + |a + b|][..|a|];
    assert text[i + |a|..i + |a + b|] == text[i..i + |a + b|][|a|..];
  }

  lemma AtChar(text: string, i: nat, c: char)
    requires At(text, i, [c])
    ensures i < |text| && text[i] == c
  {
    assert text[i] == text[i..i + 1][0];
  }

  /** A part is shown by a text that begins with "*" only if it is that character. */
  lemma StarPart(p: Part, due: Option<char>, stop: char, star: bool)
    requires FitsPart(p, due, stop, star)
    ensures ShowPart(p)[0] == '*' ==> p == Plain('*')
  {
  }

  lemma QuotedGoes(text: string, stop: char, i: nat, p: Part, closers: seq<char>)
    requires IsStop(stop) && p.Quoted? && FitsPart(p, Due(closers), stop, false) && At(text, i, ShowPart(p))
    ensures Goes(text, stop, i, Lex(None, closers), i + |ShowPart(p)|, Lex(None, closers))
  {
    var lex, inside := Lex(None, closers), Lex(Some(p.quote), closers);
    var body := ShowChars(p.body);
    hide Goes, ShowChars, LexStep;
    AtParts(text, i, [p.quote] + body, [p.end]);
    AtParts(text, i, [p.quote], body);
    AtChar(text, i, p.quote);
    AtChar(text, i + 1 + |body|, p.end);
    QuoteSteps(text, i, p.quote, closers, stop);
    OneGoes(text, stop, i, lex, inside, i + 1);
    CharsGo(text, stop, i + 1, p.body, p.quote, closers);
    EndSteps(text, i + 1 + |body|, p.quote, closers, stop);
    OneGoes(text, stop, i + 1 + |body|, inside, lex, i + 2 + |body|);
    GoesOn(text, stop, i, lex, i + 1, inside, i + 1 + |body|, inside);
    GoesOn(text, stop, i, lex, i + 1 + |body|, inside, i + 2 + |body|, lex);
  }

  lemma QuoteSteps(text: string, i: nat, quote: char, closers: seq<char>, stop: char)
    requires i < |text| && text[i] == quote && quote in "\"'"
    ensures LexStep(text, i, Lex(None, closers), stop) == Step(i + 1, Lex(Some(quote), closers), false, false)
  {
  }

  lemma EndSteps(text: string, i: nat, quote: char, closers: seq<char>, stop: char)
    requires i < |text| && quote in "\"'" && (text[i] == quote || Newline(text[i]))
    ensures LexStep(text, i, Lex(Some(quote), closers), stop) == Step(i + 1, Lex(None, closers), false, false)
  {
  }

  lemma OpenSteps(text: string, i: nat, bracket: char, closers: seq<char>, stop: char)
    requires i < |text| && text[i] == bracket && bracket in "([{" && IsStop(stop)
    ensures LexStep(text, i, Lex(None, closers), stop) ==
            Step(i + 1, Lex(None, closers + [Partner(bracket)]), false, false)
  {
  }

  lemma CloseSteps(text: string, i: nat, bracket: char, closers: seq<char>, stop: char)
    requires i < |text| && text[i] == Partner(bracket) && IsStop(stop)
    ensures LexStep(text, i, Lex(None, closers + [Partner(bracket)]), stop) ==
            Step(i + 1, Lex(None, closers), false, false)
  {
    assert (closers + [Partner(bracket)])[..|closers|] == closers;
  }

  lemma BlockAt(text: string, i: nat, bracket: char, inner: string)
    requires At(text, i, [bracket] + inner + [Partner(bracket)])
    ensures var end := i + 1 + |inner|;
            && end < |text| && text[i] == bracket && text[end] == Partner(bracket)
            && At(text, i + 1, inner)
  {
    hide At, Partner;
    AtParts(text, i, [bracket] + inner, [Partner(bracket)]);
    AtParts(text, i, [bracket], inner);
    AtChar(text, i, bracket);
    AtChar(text, i + 1 + |inner|, Partner(bracket));
  }

  lemma BlockIs(p: Part, due: Option<char>, stop: char, star: bool, closers: seq<char>)
    requires p.Block? && FitsPart(p, due, stop, star) && Closers(closers)
    ensures var inside := closers + [Partner(p.bracket)];
            && ShowPart(p) == [p.bracket] + Show(p.inner) + [Partner(p.bracket)] && p.bracket in "([{"
            && Fits(p.inner, Due(inside), stop) && Closers(inside) && Partner(p.bracket) != '*'
  {
    hide Fits, Show;
  }

  lemma {:induction false} BlockGoes(text: string, stop: char, i: nat, p: Part, closers: seq<char>)
    requires IsStop(stop) && p.Block? && FitsPart(p, Due(closers), stop, false) && At(text, i, ShowPart(p))
    requires Closers(closers)
    ensures Goes(text, stop, i, Lex(None, closers), i + |ShowPart(p)|, Lex(None, closers))
    decreases p, 0
  {
    hide *;
    var lex, inside := Lex(None, closers), Lex(None, closers + [Partner(p.bracket)]);
    var inner := Show(p.inner);
    BlockIs(p, Due(closers), stop, false, closers);
    BlockAt(text, i, p.bracket, inner);
    OpenSteps(text, i, p.bracket, closers, stop);
    OneGoes(text, stop, i, lex, inside, i + 1);
    PartsGo(text, stop, i + 1, p.inner, closers + [Partner(p.bracket)]);
    CloseSteps(text, i + 1 + |inner|, p.bracket, closers, stop);
    OneGoes(text, stop, i + 1 + |inner|, inside, lex, i + 2 + |inner|);
    GoesOn(text, stop, i, lex, i + 1, inside, i + 1 + |inner|, inside);
    GoesOn(text, stop, i, lex, i + 1 + |inner|, inside, i + 2 + |inner|, lex);
  }

  lemma {:induction false} PartGoes(text: string, stop: char, i: nat, p: Part, closers: seq<char>)
    requires IsStop(stop) && At(text, i, ShowPart(p)) && Closers(closers)
    requires var j := i + |ShowPart(p)|; FitsPart(p, Due(closers), stop, j < |text| && text[j] == '*')
    ensures Goes(text, stop, i, Lex(None, closers), i + |ShowPart(p)|, Lex(None, closers))
    decreases p, 1
  {
    hide Goes;
    match p
    case Plain(c) =>
      AtChar(text, i, c);
      PlainGoes(text, stop, i, c, closers);
    case Escape(c) =>
      assert ['\\', c] == ['\\'] + [c];
      AtParts(text, i, ['\\'], [c]);
      AtChar(text, i, '\\');
      EscapeGoes(text, stop, i, closers);
    case Quoted(_, _, _) => QuotedGoes(text, stop, i, p, closers);
    case Comment(content) => CommentGoes(text, stop, i, content, closers);
    case Block(_, _) => BlockGoes(text, stop, i, p, closers);
  }

  lemma {:induction false} PartsGo(text: string, stop: char, i: nat, ps: seq<Part>, closers: seq<char>)
    requires IsStop(stop) && Fits(ps, Due(closers), stop) && At(text, i, Show(ps)) && Closers(closers)
    requires var j := i + |Show(ps)|; !(j < |text| && text[j] == '*')
    ensures Goes(text, stop, i, Lex(None, closers), i + |Show(ps)|, Lex(None, closers))
    decreases ps, 2
  {
    var lex := Lex(None, closers);
    if ps == [] {
      Stays(text, stop, i, lex);
    } else {
      var shown, rest := ShowPart(ps[0]), Show(ps[1..]);
      var j := i + |shown|;
      FitsFirst(ps, Due(closers), stop);
      hide *;
      AtParts(text, i, shown, rest);
      NextStar(text, j, ps, stop, Due(closers));
      PartGoes(text, stop, i, ps[0], closers);
      PartsGo(text, stop, j, ps[1..], closers);
      GoesOn(text, stop, i, lex, j, lex, i + |Show(ps)|, lex);
    }
  }

  lemma FitsFirst(ps: seq<Part>, due: Option<char>, stop: char)
    requires ps != [] && Fits(ps, due, stop)
    ensures Show(ps) == ShowPart(ps[0]) + Show(ps[1..]) && Fits(ps[1..], due, stop)
  {
    hide FitsPart, ShowPart;
  }

  lemma NextStar(text: string, j: nat, ps: seq<Part>, stop: char, due: Option<char>)
    requires ps != [] && Fits(ps, due, stop) && At(text, j, Show(ps[1..]))
    requires var k := j + |Show(ps[1..])|; !(k < |text| && text[k] == '*')
    ensures FitsPart(ps[0], due, stop, j < |text| && text[j] == '*')
  {
    if |ps| > 1 {
      var shown, rest := ShowPart(ps[1]), Show(ps[1..][1..]);
      AtParts(text, j, shown, rest);
      assert text[j] == text[j..j + |shown|][0] == shown[0];
      StarPart(ps[1], due, stop, |ps| > 2 && ps[2] == Plain('*'));
      if ps[1] == Plain('*') { assert shown[0] == '*'; }
    }
    Starless(ps[0], due, stop, j < |text| && text[j] == '*', |ps| > 1 && ps[1] == Plain('*'));
  }

  lemma Starless(p: Part, due: Option<char>, stop: char, star: bool, more: bool)
    requires FitsPart(p, due, stop, more) && (star ==> more)
    ensures FitsPart(p, due, stop, star)
  {
  }

  // ----- the cuts -----

  function Joined(pieces: seq<seq<Part>>, stop: char): string {
    if pieces == [] then [] else if |pieces| == 1 then Show(pieces[0])
    else Show(pieces[0]) + [stop] + Joined(pieces[1..], stop)
  }

  function Shown(pieces: seq<seq<Part>>): seq<string> {
    if pieces == [] then [] else [Show(pieces[0])] + Shown(pieces[1..])
  }

  predicate AllFit(pieces: seq<seq<Part>>, stop: char) { forall i :: 0 <= i < |pieces| ==> Fits(pieces[i], None, stop) }

  /** One piece is scanned without a cut. */
  lemma PieceGoes(pre: string, ps: seq<Part>, post: string, stop: char, limit: Option<nat>, count: nat)
    requires IsStop(stop) && Fits(ps, None, stop) && (post == [] || post[0] == stop)
    ensures SplitFrom(pre + Show(ps) + post, stop, limit, |pre|, |pre|, TOP, count) ==
            SplitFrom(pre + Show(ps) + post, stop, limit, |pre|, |pre| + |Show(ps)|, TOP, count)
  {
    var text := pre + Show(ps) + post;
    assert text[|pre|..|pre| + |Show(ps)|] == Show(ps);
    assert post != [] ==> text[|pre| + |Show(ps)|] == post[0];
    hide Fits, Show, SplitFrom;
    PartsGo(text, stop, |pre|, ps, []);
  }

  lemma FirstCut(pre: string, ps: seq<Part>, rest: string, stop: char, limit: Option<nat>, count: nat)
    requires IsStop(stop) && Fits(ps, None, stop) && (limit.Some? ==> count < limit.value)
    ensures var next := pre + Show(ps) + [stop];
            SplitFrom(next + rest, stop, limit, |pre|, |pre|, TOP, count) ==
                [Show(ps)] + SplitFrom(next + rest, stop, limit, |next|, |next|, TOP, count + 1)
  {
    hide Fits, Show, SplitFrom;
    var text := pre + Show(ps) + [stop] + rest;
    assert text == pre + Show(ps) + ([stop] + rest);
    PieceGoes(pre, ps, [stop] + rest, stop, limit, count);
    CutAt(text, stop, limit, |pre|, |pre| + |Show(ps)|, count);
    assert text[|pre|..|pre| + |Show(ps)|] == Show(ps);
  }

  lemma {:induction false} SplitsFrom(pre: string, pieces: seq<seq<Part>>, stop: char, count: nat)
    requires IsStop(stop) && pieces != [] && AllFit(pieces, stop)
    ensures SplitFrom(pre + Joined(pieces, stop), stop, None, |pre|, |pre|, TOP, count) == Shown(pieces)
    decreases |pieces|
  {
    hide Fits, Show, SplitFrom;
    var text, first := pre + Joined(pieces, stop), Show(pieces[0]);
    if |pieces| == 1 {
      assert pre + first + [] == text;
      PieceGoes(pre, pieces[0], [], stop, None, count);
      AtEnd(text, stop, |pre|, count);
      assert text[|pre|..] == first;
    } else {
      var rest := Joined(pieces[1..], stop);
      assert text == pre + first + [stop] + rest;
      FirstCut(pre, pieces[0], rest, stop, None, count);
      SplitsFrom(pre + first + [stop], pieces[1..], stop, count + 1);
    }
  }

  /** Pieces that fit, written with separators between them, are cut at those and nowhere else. */
  lemma {:induction false} SplitsExactly(pieces: seq<seq<Part>>, stop: char)
    requires IsStop(stop) && pieces != [] && AllFit(pieces, stop)
    ensures Split(Joined(pieces, stop), stop, None) == Shown(pieces)
  {
    SplitsFrom([], pieces, stop, 0);
    assert [] + Joined(pieces, stop) == Joined(pieces, stop);
  }

  // ----- a declaration -----

  /** Names are characters and comments. */
  predicate IsNameText(ps: seq<Part>) { forall i :: 0 <= i < |ps| ==> ps[i].Plain? || ps[i].Comment? }

  function PlainText(ps: seq<Part>): string {
    if ps == [] then [] else (if ps[0].Plain? then [ps[0].c] else []) + PlainText(ps[1..])
  }

  lemma PlainKept(text: string, i: nat)
    requires i < |text| && !(text[i] == '/' && i + 1 < |text| && text[i + 1] == '*')
    ensures StripComments(text, i) == [text[i]] + StripComments(text, i + 1)
  {
  }

  lemma CommentDropped(text: string, i: nat, content: string)
    requires At(text, i, "/*" + content + "*/") && FitsPart(Comment(content), None, ';', false)
    ensures StripComments(text, i) == StripComments(text, i + |content| + 4)
  {
    var shown := "/*" + content + "*/";
    assert shown == "/*" + (content + "*/");
    AtParts(text, i, "/*", content + "*/");
    assert text[i] == text[i..i + 2][0] && text[i + 1] == text[i..i + 2][1];
    CommentEnds(text, i + 2, content);
  }

  lemma FirstDropped(text: string, i: nat, p: Part)
    requires At(text, i, ShowPart(p)) && (p.Plain? || p.Comment?)
    requires var j := i + |ShowPart(p)|; FitsPart(p, None, ':', j < |text| && text[j] == '*')
    ensures StripComments(text, i) == (if p.Plain? then [p.c] else []) + StripComments(text, i + |ShowPart(p)|)
  {
    hide StripComments;
    if p.Plain? {
      AtChar(text, i, p.c);
      PlainKept(text, i);
    } else {
      CommentDropped(text, i, p.content);
    }
  }

  lemma FirstFits(text: string, i: nat, ps: seq<Part>)
    requires ps != [] && At(text, i, Show(ps)) && i + |Show(ps)| == |text| && Fits(ps, None, ':') && IsNameText(ps)
    ensures var j := i + |ShowPart(ps[0])|;
            && At(text, i, ShowPart(ps[0])) && (ps[0].Plain? || ps[0].Comment?)
            && FitsPart(ps[0], None, ':', j < |text| && text[j] == '*')
            && At(text, j, Show(ps[1..])) && j + |Show(ps[1..])| == |text| && Fits(ps[1..], None, ':')
            && IsNameText(ps[1..])
  {
    hide ShowPart, FitsPart, At;
    AtParts(text, i, ShowPart(ps[0]), Show(ps[1..]));
    NextStar(text, i + |ShowPart(ps[0])|, ps, ':', None);
  }

  lemma {:induction false} CommentsDropped(text: string, i: nat, ps: seq<Part>)
    requires At(text, i, Show(ps)) && i + |Show(ps)| == |text| && Fits(ps, None, ':') && IsNameText(ps)
    ensures StripComments(text, i) == PlainText(ps)
    decreases |ps|
  {
    hide Show, ShowPart, Fits, FitsPart, At, IsNameText, StripComments;
    if ps == [] {
      NothingDropped(text);
    } else {
      FirstFits(text, i, ps);
      FirstDropped(text, i, ps[0]);
      CommentsDropped(text, i + |ShowPart(ps[0])|, ps[1..]);
    }
  }

  lemma NothingDropped(text: string)
    ensures StripComments(text, |text|) == [] && Show([]) == []
  {
  }

  lemma ColonCuts(name: seq<Part>, value: string)
    requires Fits(name, None, ':')
    ensures Split(Show(name) + ":" + value, ':', Some(1)) == [Show(name), value]
  {
    hide Fits, Show, SplitFrom;
    var next := Show(name) + ":";
    assert [] + Show(name) + [':'] == next;
    FirstCut([], name, value, ':', Some(1), 0);
    NoMoreCuts(next + value, ':', 1, |next|, |next|, TOP, 1);
    assert (next + value)[|next|..] == value;
  }

  /** A rule with a colon at the top level: what stands before the first is its name, the comments dropped, what stands
      after it the value, both trimmed; without a name, or without a value unless the name begins with "--", it
      declares nothing. */
  lemma RuleReads(name: seq<Part>, value: string)
    requires Fits(name, None, ':') && IsNameText(name)
    ensures ParseRule(Show(name) + ":" + value) ==
            if Trim(PlainText(name)) == [] || (Trim(value) == [] && !("--" <= Trim(PlainText(name)))) then None
            else Some(Declaration(Trim(PlainText(name)), Trim(value)))
  {
    ColonCuts(name, value);
    assert Show(name)[0..0 + |Show(name)|] == Show(name);
    CommentsDropped(Show(name), 0, name);
    hide Split, Fits, Show, StripComments, Trim;
  }

  /** A rule without one declares nothing. */
  lemma NoColonReads(ps: seq<Part>)
    requires Fits(ps, None, ':')
    ensures ParseRule(Show(ps)) == None
  {
    hide Fits, Show, SplitFrom, StripComments, Trim;
    assert [] + Show(ps) + [] == Show(ps);
    PieceGoes([], ps, [], ':', Some(1), 0);
    LimitedEnd(Show(ps));
  }

  lemma LimitedEnd(text: string)
    ensures SplitFrom(text, ':', Some(1), 0, |text|, TOP, 0) == [text]
  {
  }

  /** Trimming takes white space from both ends and nothing else. */
  lemma TrimIs(before: string, core: string, after: string)
    requires AllSpace(before) && AllSpace(after)
    requires core == [] || (!IsSpace(core[0]) && !IsSpace(core[|core| - 1]))
    ensures Trim(before + core + after) == core
  {
    hide IsSpace;
    if core == [] {
      assert before + core + after == before + after;
      StartsTrimmed(before + after, []);
      assert before + after + [] == before + after;
    } else {
      StartsTrimmed(before, core + after);
      assert before + core + after == before + (core + after);
      assert TrimStart(core + after) == core + after;
      TrimEndOf(core, after);
    }
  }

  lemma {:induction false} StartsTrimmed(before: string, rest: string)
    requires AllSpace(before)
    ensures TrimStart(before + rest) == TrimStart(rest)
  {
    hide IsSpace;
    if before == [] {
      assert before + rest == rest;
    } else {
      assert (before + rest)[1..] == before[1..] + rest;
      StartsTrimmed(before[1..], rest);
    }
  }

  /** A whole style: its rules are the pieces between its top-level semicolons. */
  lemma StyleReads(pieces: seq<seq<Part>>)
    requires pieces != [] && AllFit(pieces, ';')
    ensures Parse(Joined(pieces, ';')) == ParseRules(Shown(pieces))
  {
    SplitsExactly(pieces, ';');
    hide Split, ParseRules, Joined, Shown;
  }
}

/** The whole body, read off the template: what each line holds, plain text and separators included. */
module CodegenOutline {
  import opened Options
  import opened CodePlacement
  import opened CodegenTheorems

  // ----- the template in document order -----

  /** What a node brings, in document order: code for a line - of a slot, with a separator to come before it -, a push
      of plain text, or the start of something a space after it does not repeat. */
  datatype Token =
    | Word(line: nat, code: string, slot: bool)
    | Push(line: nat, plain: string, code: string)
    | Break

  /** The line closing code goes on: that of the closing tag, else that of the last child that is on one, else the
      node's own. */
  function ClosingLine(line: nat, children: seq<Node>, close: Option<nat>): nat {
    match close
    case Some(closeLine) => closeLine
    case None =>
      if children == [] || children[|children| - 1].line < 1 then line else children[|children| - 1].line
  }

  lemma ClosesThere(n: Node)
    requires n.Tag? || n.Component? || n.Slot?
    ensures CloseLine(n) == ClosingLine(n.line, n.children, n.close)
  {
  }

  /** Does the text end in an opening brace? */
  ghost predicate OpensBrace(text: string) { exists front :: text == front + "{" }

  lemma OpensThere(text: string)
    ensures EndsWithBrace(text) <==> OpensBrace(text)
  {
    if EndsWithBrace(text) { assert text == text[..|text| - 1] + "{"; }
  }

  /** A node on no line is not placed, nor is content beside the slots of a component that has slots. */
  function Tokens(n: Node, count: nat): seq<Token>
    decreases n, 1
  {
    if n.line == 0 || n.line > count then []
    else
      match n
      case Tag(line, _, open, children, _, closing) =>
        [Break, Word(line, open, false)] + TokensOf(children, count, false) +
            [Word(ClosingLine(line, children, n.close), closing, false), Break]
      case Void(line, _, open, children) =>
        [Break, Word(line, open, false)] + TokensOf(children, count, false) + [Break]
      case Text(line, _, plain, open) => if plain == [] then [Break] else [Push(line, plain, open)]
      case Code(_, _, first, code) => [Break] + CodeTokens(code, first)
      case Component(line, _, mode, open, children, _, closing) =>
        var inner, end := TokensOf(children, count, mode.Slots?), ClosingLine(line, children, n.close);
        [Break, Word(line, open, false)] + (if mode.Simple? then [] else inner + [Word(end, closing, false), Break])
      case Slot(line, _, open, children, _, closing) =>
        [Break, Word(line, open, true), Break] + TokensOf(children, count, false) +
            [Word(ClosingLine(line, children, n.close), closing, false), Break]
      case _ => [Break, Word(n.line, n.open, false)]
  }

  function TokensOf(nodes: seq<Node>, count: nat, slotsOnly: bool): seq<Token>
    decreases nodes, 0
  {
    if nodes == [] then []
    else if slotsOnly && !nodes[0].Slot? then TokensOf(nodes[1..], count, slotsOnly)
    else Tokens(nodes[0], count) + TokensOf(nodes[1..], count, slotsOnly)
  }

  function CodeTokens(code: seq<string>, line: nat): seq<Token> {
    if code == [] then []
    else if code[0] == [] then CodeTokens(code[1..], line + 1)
    else [Word(line, code[0], false)] + CodeTokens(code[1..], line + 1)
  }

  // ----- what they come to -----

  /** A push of one space right after another one: the last push before it, with nothing but code since. */
  predicate Repeats(tokens: seq<Token>, i: nat)
    requires i < |tokens|
  {
    && tokens[i].Push? && tokens[i].plain == SPACE_PUSH
    && exists j :: 0 <= j < i && tokens[j].Push? && tokens[j].plain == SPACE_PUSH &&
           forall k :: j < k < i ==> tokens[k].Word?
  }

  datatype Piece = Piece(line: nat, code: string)

  /** The pieces written on a line, in a row. */
  function Written(pieces: seq<Piece>, line: nat): string {
    if pieces == [] then []
    else
      var rest, last := Written(pieces[..|pieces| - 1], line), pieces[|pieces| - 1];
      if last.line == line then rest + last.code else rest
  }

  /** Word and push by word and push: a repeated space is left out, and a space comes before a slot unless its line ends
      in an opening brace. */
  ghost function Outline(tokens: seq<Token>): seq<Piece> {
    if tokens == [] then []
    else
      var n := |tokens| - 1;
      var before := Outline(tokens[..n]);
      match tokens[n]
      case Break => before
      case Push(line, _, code) => if Repeats(tokens, n) then before else before + [Piece(line, code)]
      case Word(line, code, slot) =>
        var lead := if slot && !OpensBrace(Written(before, line)) then " " else "";
        before + [Piece(line, lead + code)]
  }

  // ----- the generator emits that -----

  function Pieces(trace: seq<Fragment>): seq<Piece> {
    if trace == [] then []
    else
      var f := trace[|trace| - 1];
      Pieces(trace[..|trace| - 1]) + [Piece(f.line, f.lead + f.code)]
  }

  lemma {:induction false} WrittenIsCode(trace: seq<Fragment>, line: nat)
    ensures Written(Pieces(trace), line) == CodeOn(trace, line)
  {
    if trace != [] {
      var front := trace[..|trace| - 1];
      WrittenIsCode(front, line);
      var last := Piece(trace[|trace| - 1].line, trace[|trace| - 1].lead + trace[|trace| - 1].code);
      assert (Pieces(front) + [last])[..|Pieces(front)|] == Pieces(front);
    }
  }

  /** Is the last push a space, with nothing but code since? */
  predicate SpaceLast(tokens: seq<Token>) {
    tokens != [] &&
    match tokens[|tokens| - 1]
    case Break => false
    case Push(_, plain, _) => plain == SPACE_PUSH
    case Word(_, _, _) => SpaceLast(tokens[..|tokens| - 1])
  }

  lemma {:induction false} SpaceLastExactly(tokens: seq<Token>)
    ensures SpaceLast(tokens) <==>
            exists j :: 0 <= j < |tokens| && tokens[j].Push? && tokens[j].plain == SPACE_PUSH &&
                forall k :: j < k < |tokens| ==> tokens[k].Word?
  {
    if tokens != [] {
      var front, last := tokens[..|tokens| - 1], tokens[|tokens| - 1];
      SpaceLastExactly(front);
      if last.Word? && SpaceLast(front) {
        var j :| 0 <= j < |front| && front[j].Push? && front[j].plain == SPACE_PUSH &&
            forall k :: j < k < |front| ==> front[k].Word?;
        assert tokens[j] == front[j] && forall k :: j < k < |front| ==> tokens[k] == front[k];
      }
      if j :| 0 <= j < |tokens| && tokens[j].Push? && tokens[j].plain == SPACE_PUSH &&
              forall k :: j < k < |tokens| ==> tokens[k].Word? {
        if j < |front| { assert front[j] == tokens[j] && forall k :: j < k < |front| ==> front[k] == tokens[k]; }
      }
    }
  }

  /** The state after `tokens`. */
  ghost predicate Tells(s: State, tokens: seq<Token>) {
    Collected(s) && Pieces(s.trace) == Outline(tokens) && (s.last == SPACE_PUSH <==> SpaceLast(tokens))
  }

  lemma OneMore(tokens: seq<Token>, t: Token)
    ensures (tokens + [t])[..|tokens|] == tokens
  {
  }

  lemma ForgetTells(s: State, tokens: seq<Token>)
    requires Tells(s, tokens)
    ensures Tells(Forget(s), tokens + [Break]) && |Forget(s).lines| == |s.lines|
  {
    OneMore(tokens, Break);
  }

  lemma AtTells(s: State, tokens: seq<Token>, line: nat, code: string)
    requires Tells(s, tokens)
    ensures var t := At(s, Own(line, code));
            Tells(t, tokens + [Word(line, code, false)]) && |t.lines| == |s.lines|
  {
    var f := Own(line, code);
    OneMore(tokens, Word(line, code, false));
    assert At(s, f).trace[..|s.trace|] == s.trace;
    AtCollects(s, f);
  }

  lemma SlotTells(s: State, tokens: seq<Token>, line: nat, code: string)
    requires Tells(s, tokens) && 1 <= line <= |s.lines|
    ensures var t := At(s, Fragment(line, if EndsWithBrace(s.lines[line - 1]) then "" else " ", code));
            Tells(t, tokens + [Word(line, code, true)]) && |t.lines| == |s.lines|
  {
    var f := Fragment(line, if EndsWithBrace(s.lines[line - 1]) then "" else " ", code);
    OneMore(tokens, Word(line, code, true));
    assert At(s, f).trace[..|s.trace|] == s.trace;
    WrittenIsCode(s.trace, line);
    OpensThere(s.lines[line - 1]);
    AtCollects(s, f);
    hide EndsWithBrace, OpensBrace, CodeOn, Written;
  }

  lemma TextTells(s: State, tokens: seq<Token>, n: Node)
    requires Tells(s, tokens) && n.Text? && n.line != 0 && n.line <= |s.lines|
    ensures Tells(Place(n, s), tokens + Tokens(n, |s.lines|)) && |Place(n, s).lines| == |s.lines|
  {
    if n.plain == [] {
      ForgetTells(s, tokens);
    } else {
      var push := Push(n.line, n.plain, n.open);
      var f := Own(n.line, n.open);
      OneMore(tokens, push);
      SpaceLastExactly(tokens);
      PushRepeats(tokens, push);
      var t := s.(last := n.plain);
      assert At(t, f).trace[..|s.trace|] == s.trace;
      AtCollects(t, f);
      assert f.lead + f.code == n.open;
    }
  }

  lemma PushRepeats(tokens: seq<Token>, push: Token)
    requires push.Push?
    ensures Repeats(tokens + [push], |tokens|) <==> push.plain == SPACE_PUSH && SpaceLast(tokens)
  {
    SpaceLastExactly(tokens);
    var more := tokens + [push];
    assert forall k :: 0 <= k < |tokens| ==> more[k] == tokens[k];
    hide SpaceLast;
  }

  /** Opening code in place: the children, the closing code, and the reset after it. */
  lemma {:induction false} FillTells(children: seq<Node>, start: State, tokens: seq<Token>, slotsOnly: bool, close: nat,
                                     closing: string)
    requires Tells(start, tokens)
    ensures var filled := if slotsOnly then PlaceSlots(children, start) else PlaceAll(children, start);
            var t := Forget(At(filled, Own(close, closing)));
            && |t.lines| == |start.lines|
            && Tells(t, tokens + (TokensOf(children, |start.lines|, slotsOnly) + [Word(close, closing, false), Break]))
    decreases children, 1
  {
    hide Tells, At, Forget, PlaceAll, PlaceSlots, TokensOf;
    var filled := if slotsOnly then PlaceSlots(children, start) else PlaceAll(children, start);
    var inner := TokensOf(children, |start.lines|, slotsOnly);
    PlaceEachTells(children, start, tokens, slotsOnly);
    AtTells(filled, tokens + inner, close, closing);
    ForgetTells(At(filled, Own(close, closing)), tokens + inner + [Word(close, closing, false)]);
    assert tokens + inner + [Word(close, closing, false)] + [Break] ==
        tokens + (inner + [Word(close, closing, false), Break]);
  }

  lemma OpenTells(s: State, tokens: seq<Token>, line: nat, open: string)
    requires Tells(s, tokens)
    ensures var t := At(Forget(s), Own(line, open));
            Tells(t, tokens + [Break, Word(line, open, false)]) && |t.lines| == |s.lines|
  {
    hide Tells, At, Forget;
    ForgetTells(s, tokens);
    AtTells(Forget(s), tokens + [Break], line, open);
    assert tokens + [Break] + [Word(line, open, false)] == tokens + [Break, Word(line, open, false)];
  }

  lemma OpenSlotTells(s: State, tokens: seq<Token>, line: nat, open: string)
    requires Tells(s, tokens) && 1 <= line <= |s.lines|
    ensures var f := Fragment(line, if EndsWithBrace(s.lines[line - 1]) then "" else " ", open);
            var t := Forget(At(Forget(s), f));
            Tells(t, tokens + [Break, Word(line, open, true), Break]) && |t.lines| == |s.lines|
  {
    assert Forget(s).lines == s.lines;
    hide Tells, At, Forget, EndsWithBrace;
    var f := Fragment(line, if EndsWithBrace(s.lines[line - 1]) then "" else " ", open);
    ForgetTells(s, tokens);
    SlotTells(Forget(s), tokens + [Break], line, open);
    ForgetTells(At(Forget(s), f), tokens + [Break] + [Word(line, open, true)]);
    assert tokens + [Break] + [Word(line, open, true)] + [Break] == tokens + [Break, Word(line, open, true), Break];
  }

  lemma Regroup(a: seq<Token>, b: seq<Token>, c: seq<Token>)
    ensures a + b + c == a + (b + c)
  {
  }

  lemma {:induction false} PlaceTells(n: Node, s: State, tokens: seq<Token>)
    requires Tells(s, tokens)
    ensures Tells(Place(n, s), tokens + Tokens(n, |s.lines|)) && |Place(n, s).lines| == |s.lines|
    decreases n, 3
  {
    if n.Tag? || n.Component? || n.Slot? { ClosesThere(n); }
    hide Tells, At, Forget, TokensOf, PlaceAll, PlaceSlots, PlaceCode, EndsWithBrace, CloseLine, ClosingLine;
    assert tokens + [] == tokens;
    if n.line != 0 && n.line <= |s.lines| {
      match n
      case Tag(line, _, open, children, _, closing) => WrapTells(n, s, tokens, open, closing, false);
      case Void(line, _, open, children) => VoidTells(n, s, tokens);
      case Text(_, _, _, _) => TextTells(s, tokens, n);
      case Code(_, _, first, code) =>
        ForgetTells(s, tokens);
        CodeTells(code, first, Forget(s), tokens + [Break]);
        Regroup(tokens, [Break], CodeTokens(code, first));
      case Component(line, _, mode, open, children, _, closing) =>
        if mode.Simple? {
          OpenTells(s, tokens, line, open);
          assert [Break, Word(line, open, false)] + [] == [Break, Word(line, open, false)];
        } else {
          WrapTells(n, s, tokens, open, closing, mode.Slots?);
        }
      case Slot(line, _, open, children, _, closing) =>
        var f := Fragment(line, if EndsWithBrace(s.lines[line - 1]) then "" else " ", open);
        OpenSlotTells(s, tokens, line, open);
        var opening := [Break, Word(line, open, true), Break];
        FillTells(children, Forget(At(Forget(s), f)), tokens + opening, false, CloseLine(n), closing);
        Regroup(tokens, opening, TokensOf(children, |s.lines|, false) + [Word(CloseLine(n), closing, false), Break]);
        Regroup(opening, TokensOf(children, |s.lines|, false), [Word(CloseLine(n), closing, false), Break]);
      case _ => OpenTells(s, tokens, n.line, n.open);
    }
  }

  lemma {:induction false} WrapTells(n: Node, s: State, tokens: seq<Token>, open: string, closing: string,
                                     slotsOnly: bool)
    requires Tells(s, tokens) && (n.Tag? || n.Component?) && open == n.open && closing == n.closing
    ensures var start := At(Forget(s), Own(n.line, open));
            var filled := if slotsOnly then PlaceSlots(n.children, start) else PlaceAll(n.children, start);
            var t := Forget(At(filled, Own(CloseLine(n), closing)));
            var inner := TokensOf(n.children, |s.lines|, slotsOnly);
            && Tells(t, tokens + ([Break, Word(n.line, open, false)] +
                                  (inner + [Word(CloseLine(n), closing, false), Break])))
            && Tells(t, tokens + ([Break, Word(n.line, open, false)] + inner +
                                  [Word(CloseLine(n), closing, false), Break]))
            && |t.lines| == |s.lines|
    decreases n, 2
  {
    hide Tells, At, Forget, TokensOf, PlaceAll, PlaceSlots, CloseLine;
    var opening, ending := [Break, Word(n.line, open, false)], [Word(CloseLine(n), closing, false), Break];
    var inner := TokensOf(n.children, |s.lines|, slotsOnly);
    OpenTells(s, tokens, n.line, open);
    FillTells(n.children, At(Forget(s), Own(n.line, open)), tokens + opening, slotsOnly, CloseLine(n), closing);
    Regroup(tokens, opening, inner + ending);
    Regroup(opening, inner, ending);
  }

  lemma {:induction false} VoidTells(n: Node, s: State, tokens: seq<Token>)
    requires Tells(s, tokens) && n.Void?
    ensures var t := Forget(PlaceAll(n.children, At(Forget(s), Own(n.line, n.open))));
            var inner := TokensOf(n.children, |s.lines|, false);
            && Tells(t, tokens + ([Break, Word(n.line, n.open, false)] + inner + [Break]))
            && |t.lines| == |s.lines|
    decreases n, 2
  {
    hide Tells, At, Forget, TokensOf, PlaceAll;
    var opening, inner := [Break, Word(n.line, n.open, false)], TokensOf(n.children, |s.lines|, false);
    var start := At(Forget(s), Own(n.line, n.open));
    OpenTells(s, tokens, n.line, n.open);
    PlaceEachTells(n.children, start, tokens + opening, false);
    ForgetTells(PlaceAll(n.children, start), tokens + opening + inner);
    assert tokens + opening + inner + [Break] == tokens + (opening + inner + [Break]);
  }

  lemma {:induction false} PlaceEachTells(nodes: seq<Node>, s: State, tokens: seq<Token>, slotsOnly: bool)
    requires Tells(s, tokens)
    ensures var t := if slotsOnly then PlaceSlots(nodes, s) else PlaceAll(nodes, s);
            Tells(t, tokens + TokensOf(nodes, |s.lines|, slotsOnly)) && |t.lines| == |s.lines|
    decreases nodes, 0
  {
    hide Tells, Place, Tokens;
    if nodes == [] {
      assert tokens + [] == tokens;
    } else if slotsOnly && !nodes[0].Slot? {
      PlaceEachTells(nodes[1..], s, tokens, slotsOnly);
    } else {
      var first := Tokens(nodes[0], |s.lines|);
      PlaceTells(nodes[0], s, tokens);
      PlaceEachTells(nodes[1..], Place(nodes[0], s), tokens + first, slotsOnly);
      Regroup(tokens, first, TokensOf(nodes[1..], |s.lines|, slotsOnly));
    }
  }

  lemma {:induction false} CodeTells(code: seq<string>, line: nat, s: State, tokens: seq<Token>)
    requires Tells(s, tokens)
    ensures Tells(PlaceCode(code, line, s), tokens + CodeTokens(code, line))
    ensures |PlaceCode(code, line, s).lines| == |s.lines|
    decreases code
  {
    hide Tells, At;
    if code == [] {
      assert tokens + [] == tokens;
    } else if code[0] == [] {
      CodeTells(code[1..], line + 1, s, tokens);
    } else {
      AtTells(s, tokens, line, code[0]);
      CodeTells(code[1..], line + 1, At(s, Own(line, code[0])), tokens + [Word(line, code[0], false)]);
      Regroup(tokens, [Word(line, code[0], false)], CodeTokens(code[1..], line + 1));
    }
  }

  // ----- the theorems -----

  /** For any template, what is emitted is exactly what the template asks for, in document order: no node, text, closing
      tag or code line is skipped, swapped or emitted twice, but for a space right after another. */
  lemma EmissionIsTheOutline(nodes: seq<Node>)
    ensures Pieces(Generate(nodes).trace) == Outline(TokensOf(nodes, MaxLine(nodes), false))
  {
    GenerateTells(nodes);
  }

  lemma GenerateTells(nodes: seq<Node>)
    ensures Tells(Generate(nodes), TokensOf(nodes, MaxLine(nodes), false))
    ensures |Generate(nodes).lines| == MaxLine(nodes)
  {
    var s := State(Blank(MaxLine(nodes)), "", []);
    assert Tells(s, []);
    hide Tells, PlaceAll, TokensOf;
    PlaceEachTells(nodes, s, [], false);
    assert [] + TokensOf(nodes, MaxLine(nodes), false) == TokensOf(nodes, MaxLine(nodes), false);
  }

  /** So line N of the body is what the template asks for on source line N. */
  lemma LinesAreTheOutline(nodes: seq<Node>, i: nat)
    requires i < |Generate(nodes).lines|
    ensures Generate(nodes).lines[i] == Written(Outline(TokensOf(nodes, MaxLine(nodes), false)), i + 1)
  {
    EmissionIsTheOutline(nodes);
    EveryFragmentOnItsLine(nodes, i);
    WrittenIsCode(Generate(nodes).trace, i + 1);
    hide Generate, Outline, TokensOf;
  }
}

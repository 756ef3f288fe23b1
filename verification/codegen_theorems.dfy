/** The generated body keeps program order: every fragment is on its own source line, and reading the lines
    one after another reads the fragments as they were emitted. */
module CodegenTheorems {
  import opened Options
  import opened CodePlacement

  // ----- every fragment on its line -----

  /** The code meant for a line, in the order of emission. */
  function CodeOn(trace: seq<Fragment>, line: nat): string {
    if trace == [] then []
    else
      var rest, f := CodeOn(trace[..|trace| - 1], line), trace[|trace| - 1];
      if f.line == line then rest + (f.lead + f.code) else rest
  }

  ghost predicate Collected(s: State) {
    forall i :: 0 <= i < |s.lines| ==> s.lines[i] == CodeOn(s.trace, i + 1)
  }

  lemma AtCollects(s: State, f: Fragment)
    requires Collected(s)
    ensures Collected(At(s, f)) && |At(s, f).lines| == |s.lines|
  {
    var t := At(s, f);
    assert t.trace[..|s.trace|] == s.trace;
  }

  lemma {:induction false} PlaceCollects(n: Node, s: State)
    requires Collected(s)
    ensures Collected(Place(n, s)) && |Place(n, s).lines| == |s.lines|
    decreases n, 1
  {
    hide Collected, At;
    KeepsForget(s);
    if n.line != 0 && n.line <= |s.lines| {
      match n
      case Tag(line, _, open, children, _, closing) => WrapCollects(children, Forget(s), line, open, CloseLine(n),
          closing);
      case Void(line, _, open, children) =>
        AtCollects(Forget(s), Own(line, open));
        PlaceAllCollects(children, At(Forget(s), Own(line, open)));
        KeepsForget(PlaceAll(children, At(Forget(s), Own(line, open))));
      case Raw(line, _, open) => AtCollects(Forget(s), Own(line, open));
      case Text(line, _, plain, open) =>
        KeepsLast(s, plain);
        AtCollects(s.(last := plain), Own(line, open));
      case Code(_, _, first, code) => PlaceCodeCollects(code, first, Forget(s));
      case Expression(line, _, open) => AtCollects(Forget(s), Own(line, open));
      case Component(line, _, mode, open, children, _, closing) =>
        AtCollects(Forget(s), Own(line, open));
        if mode.Slots? {
          var filled := PlaceSlots(children, At(Forget(s), Own(line, open)));
          PlaceSlotsCollects(children, At(Forget(s), Own(line, open)));
          AtCollects(filled, Own(CloseLine(n), closing));
          KeepsForget(At(filled, Own(CloseLine(n), closing)));
        } else if mode.Content? {
          WrapCollects(children, Forget(s), line, open, CloseLine(n), closing);
        }
      case Slot(line, _, open, children, _, closing) =>
        var separator := if EndsWithBrace(s.lines[line - 1]) then "" else " ";
        var start := At(Forget(s), Fragment(line, separator, open));
        AtCollects(Forget(s), Fragment(line, separator, open));
        KeepsForget(start);
        PlaceAllCollects(children, Forget(start));
        AtCollects(PlaceAll(children, Forget(start)), Own(CloseLine(n), closing));
        KeepsForget(At(PlaceAll(children, Forget(start)), Own(CloseLine(n), closing)));
    }
  }

  lemma KeepsLast(s: State, last: string)
    requires Collected(s)
    ensures Collected(s.(last := last)) && |s.(last := last).lines| == |s.lines|
  {
  }

  lemma KeepsForget(s: State)
    ensures Collected(s) ==> Collected(Forget(s))
    ensures |Forget(s).lines| == |s.lines|
  {
  }

  lemma {:induction false} WrapCollects(children: seq<Node>, s: State, line: nat, open: string, close: nat,
                                        closing: string)
    requires Collected(s)
    ensures var t := Forget(At(PlaceAll(children, At(s, Own(line, open))), Own(close, closing)));
            Collected(t) && |t.lines| == |s.lines|
    decreases children, 1
  {
    hide Collected, At, PlaceAll;
    AtCollects(s, Own(line, open));
    PlaceAllCollects(children, At(s, Own(line, open)));
    AtCollects(PlaceAll(children, At(s, Own(line, open))), Own(close, closing));
    KeepsForget(At(PlaceAll(children, At(s, Own(line, open))), Own(close, closing)));
  }

  lemma {:induction false} PlaceAllCollects(nodes: seq<Node>, s: State)
    requires Collected(s)
    ensures Collected(PlaceAll(nodes, s)) && |PlaceAll(nodes, s).lines| == |s.lines|
    decreases nodes, 0
  {
    hide Collected, Place;
    if nodes != [] {
      PlaceCollects(nodes[0], s);
      PlaceAllCollects(nodes[1..], Place(nodes[0], s));
    }
  }

  lemma {:induction false} PlaceSlotsCollects(nodes: seq<Node>, s: State)
    requires Collected(s)
    ensures Collected(PlaceSlots(nodes, s)) && |PlaceSlots(nodes, s).lines| == |s.lines|
    decreases nodes, 0
  {
    hide Collected, Place;
    if nodes != [] {
      if nodes[0].Slot? { PlaceCollects(nodes[0], s); }
      PlaceSlotsCollects(nodes[1..], if nodes[0].Slot? then Place(nodes[0], s) else s);
    }
  }

  lemma {:induction false} PlaceCodeCollects(code: seq<string>, line: nat, s: State)
    requires Collected(s)
    ensures Collected(PlaceCode(code, line, s)) && |PlaceCode(code, line, s).lines| == |s.lines|
    decreases code
  {
    hide Collected, At;
    if code != [] {
      if code[0] != [] { AtCollects(s, Own(line, code[0])); }
      PlaceCodeCollects(code[1..], line + 1, if code[0] == [] then s else At(s, Own(line, code[0])));
    }
  }

  /** For any template, line N of the body holds exactly the fragments meant for source line N, in the order
      they were emitted. */
  lemma EveryFragmentOnItsLine(nodes: seq<Node>, i: nat)
    requires i < |Generate(nodes).lines|
    ensures Generate(nodes).lines[i] == CodeOn(Generate(nodes).trace, i + 1)
  {
    PlaceAllCollects(nodes, State(Blank(MaxLine(nodes)), "", []));
  }

  // ----- document order -----

  /** The line of the last fragment a node can emit. */
  function Reach(n: Node): nat
    decreases n, 1
  {
    match n
    case Tag(_, _, _, _, _, _) => CloseLine(n)
    case Void(line, _, _, children) => ReachAll(children, line)
    case Code(line, _, first, code) => if code == [] then line else first + |code| - 1
    case Component(line, _, mode, _, _, _, _) => if mode.Simple? then line else CloseLine(n)
    case Slot(_, _, _, _, _, _) => CloseLine(n)
    case _ => n.line
  }

  function ReachAll(nodes: seq<Node>, from: nat): nat
    decreases nodes, 0
  {
    if nodes == [] then from else ReachAll(nodes[1..], Reach(nodes[0]))
  }

  /** Read in document order from line `from` on, the lines of nodes, code lines and closing tags never go back. */
  predicate InOrder(n: Node, from: nat)
    decreases n, 1
  {
    1 <= n.line && from <= n.line &&
    match n
    case Tag(line, _, _, children, _, _) => AllInOrder(children, line) && ReachAll(children, line) <= CloseLine(n)
    case Void(line, _, _, children) => AllInOrder(children, line)
    case Code(line, _, first, code) => line <= first
    case Component(line, _, mode, _, children, _, _) =>
      mode.Simple? || (AllInOrder(children, line) && ReachAll(children, line) <= CloseLine(n))
    case Slot(line, _, _, children, _, _) => AllInOrder(children, line) && ReachAll(children, line) <= CloseLine(n)
    case _ => true
  }

  predicate AllInOrder(nodes: seq<Node>, from: nat)
    decreases nodes, 0
  {
    nodes == [] || (InOrder(nodes[0], from) && AllInOrder(nodes[1..], Reach(nodes[0])))
  }

  /** A node's recorded end covers its closing tag and its code. */
  predicate Covered(n: Node)
    decreases n, 1
  {
    match n
    case Tag(_, end, _, children, close, _) => (close.Some? ==> close.value <= end) && AllCovered(children)
    case Void(_, _, _, children) => AllCovered(children)
    case Code(_, end, first, code) => code != [] ==> first + |code| - 1 <= end
    case Component(_, end, _, _, children, close, _) => (close.Some? ==> close.value <= end) && AllCovered(children)
    case Slot(_, end, _, children, close, _) => (close.Some? ==> close.value <= end) && AllCovered(children)
    case _ => true
  }

  predicate AllCovered(nodes: seq<Node>)
    decreases nodes, 0
  {
    nodes == [] || (Covered(nodes[0]) && AllCovered(nodes[1..]))
  }

  function Flat(lines: seq<string>): string {
    if lines == [] then [] else Flat(lines[..|lines| - 1]) + lines[|lines| - 1]
  }

  function Codes(trace: seq<Fragment>): string {
    if trace == [] then [] else Codes(trace[..|trace| - 1]) + (trace[|trace| - 1].lead + trace[|trace| - 1].code)
  }

  /** Everything emitted so far is there, in order, and no line after `from` has been written. */
  ghost predicate Upto(s: State, from: nat) {
    && Flat(s.lines) == Codes(s.trace)
    && forall i :: from <= i < |s.lines| ==> s.lines[i] == []
  }

  lemma {:induction false} FlatAppends(lines: seq<string>, k: nat, code: string)
    requires k < |lines| && forall i :: k < i < |lines| ==> lines[i] == []
    ensures Flat(lines[k := lines[k] + code]) == Flat(lines) + code
    decreases |lines|
  {
    var n := |lines| - 1;
    var after := lines[k := lines[k] + code];
    if k == n {
      assert after[..n] == lines[..n];
    } else {
      assert after[..n] == lines[..n][k := lines[k] + code];
      FlatAppends(lines[..n], k, code);
    }
  }

  lemma AtUpto(s: State, from: nat, f: Fragment)
    requires Upto(s, from) && from <= f.line && 1 <= f.line <= |s.lines|
    ensures Upto(At(s, f), f.line) && |At(s, f).lines| == |s.lines|
  {
    FlatAppends(s.lines, f.line - 1, f.lead + f.code);
    assert At(s, f).trace[..|s.trace|] == s.trace;
  }

  lemma Later(s: State, from: nat, to: nat, last: string)
    requires Upto(s, from) && from <= to
    ensures Upto(s.(last := last), to) && |s.(last := last).lines| == |s.lines|
  {
  }

  lemma LineReached(n: Node, from: nat)
    requires InOrder(n, from)
    ensures from <= n.line <= Reach(n)
    decreases n, 1
  {
    match n
    case Void(line, _, _, children) => AllReached(children, line);
    case Tag(line, _, _, children, _, _) => AllReached(children, line);
    case Component(line, _, mode, _, children, _, _) => if !mode.Simple? { AllReached(children, line); }
    case Slot(line, _, _, children, _, _) => AllReached(children, line);
    case _ =>
  }

  lemma {:induction false} AllReached(nodes: seq<Node>, from: nat)
    requires AllInOrder(nodes, from)
    ensures from <= ReachAll(nodes, from)
    decreases nodes, 0
  {
    if nodes != [] {
      LineReached(nodes[0], from);
      AllReached(nodes[1..], Reach(nodes[0]));
    }
  }

  lemma {:induction false} PlaceUpto(n: Node, s: State, from: nat)
    requires Upto(s, from) && InOrder(n, from) && Reach(n) <= |s.lines|
    ensures Upto(Place(n, s), Reach(n)) && |Place(n, s).lines| == |s.lines|
    decreases n, 3
  {
    hide Upto, At;
    LineReached(n, from);
    Later(s, from, from, "");
    match n
    case Tag(line, _, open, children, _, closing) => WrapUpto(children, Forget(s), from, line, open, CloseLine(n),
        closing, false);
    case Void(line, _, open, children) =>
      AtUpto(Forget(s), from, Own(line, open));
      PlaceAllUpto(children, At(Forget(s), Own(line, open)), line);
      Later(PlaceAll(children, At(Forget(s), Own(line, open))), Reach(n), Reach(n), "");
    case Raw(line, _, open) => AtUpto(Forget(s), from, Own(line, open));
    case Text(line, _, plain, open) =>
      Later(s, from, from, plain);
      AtUpto(s.(last := plain), from, Own(line, open));
      Later(s, from, line, "");
      Later(s, from, line, s.last);
      assert s.(last := s.last) == s;
    case Code(line, _, first, code) =>
      Later(s, from, line, "");
      PlaceCodeUpto(code, first, Forget(s), line);
    case Expression(line, _, open) => AtUpto(Forget(s), from, Own(line, open));
    case Component(line, _, mode, open, children, _, closing) =>
      if mode.Simple? {
        AtUpto(Forget(s), from, Own(line, open));
      } else {
        WrapUpto(children, Forget(s), from, line, open, CloseLine(n), closing, mode.Slots?);
      }
    case Slot(line, _, open, children, _, closing) => SlotUpto(n, s, from);
  }

  lemma {:induction false} SlotUpto(n: Node, s: State, from: nat)
    requires n.Slot? && Upto(s, from) && InOrder(n, from) && Reach(n) <= |s.lines|
    ensures Upto(Place(n, s), Reach(n)) && |Place(n, s).lines| == |s.lines|
    decreases n, 2
  {
    hide Upto, At, PlaceAll, CloseLine, EndsWithBrace;
    LineReached(n, from);
    var opening := Fragment(n.line, if EndsWithBrace(s.lines[n.line - 1]) then "" else " ", n.open);
    var start := Forget(At(Forget(s), opening));
    assert Place(n, s) == Forget(At(PlaceAll(n.children, start), Own(CloseLine(n), n.closing)));
    assert AllInOrder(n.children, n.line) && ReachAll(n.children, n.line) <= CloseLine(n) == Reach(n);
    hide Place, Reach, ReachAll, InOrder, AllInOrder, Own;
    Later(s, from, from, "");
    AtUpto(Forget(s), from, opening);
    Later(At(Forget(s), opening), n.line, n.line, "");
    FillUpto(n.children, start, n.line, CloseLine(n), n.closing, false);
  }

  lemma {:induction false} WrapUpto(children: seq<Node>, s: State, from: nat, line: nat, open: string, close: nat,
                                    closing: string,
                                    slots: bool)
    requires Upto(s, from) && 1 <= line && from <= line && AllInOrder(children, line) &&
             ReachAll(children, line) <= close <= |s.lines|
    ensures var filled := if slots then PlaceSlots(children, At(s, Own(line, open)))
            else PlaceAll(children, At(s, Own(line, open)));
            var t := Forget(At(filled, Own(close, closing))); Upto(t, close) && |t.lines| == |s.lines|
    decreases children, 2
  {
    hide Upto, At, PlaceAll, PlaceSlots;
    AllReached(children, line);
    AtUpto(s, from, Own(line, open));
    FillUpto(children, At(s, Own(line, open)), line, close, closing, slots);
  }

  /** The children and the closing code of an element whose opening code is in place. */
  lemma {:induction false} FillUpto(children: seq<Node>, start: State, line: nat, close: nat, closing: string,
                                    slots: bool)
    requires Upto(start, line) && 1 <= line && AllInOrder(children, line) &&
             ReachAll(children, line) <= close <= |start.lines|
    ensures var filled := if slots then PlaceSlots(children, start) else PlaceAll(children, start);
            var t := Forget(At(filled, Own(close, closing))); Upto(t, close) && |t.lines| == |start.lines|
    decreases children, 1
  {
    hide Upto, At, PlaceAll, PlaceSlots;
    AllReached(children, line);
    if slots { PlaceSlotsUpto(children, start, line); } else { PlaceAllUpto(children, start, line); }
    var filled := if slots then PlaceSlots(children, start) else PlaceAll(children, start);
    AtUpto(filled, ReachAll(children, line), Own(close, closing));
    Later(At(filled, Own(close, closing)), close, close, "");
  }

  lemma {:induction false} PlaceAllUpto(nodes: seq<Node>, s: State, from: nat)
    requires Upto(s, from) && AllInOrder(nodes, from) && ReachAll(nodes, from) <= |s.lines|
    ensures Upto(PlaceAll(nodes, s), ReachAll(nodes, from)) && |PlaceAll(nodes, s).lines| == |s.lines|
    decreases nodes, 0
  {
    hide Upto, Place, Reach, InOrder;
    if nodes != [] {
      AllReached(nodes[1..], Reach(nodes[0]));
      PlaceUpto(nodes[0], s, from);
      PlaceAllUpto(nodes[1..], Place(nodes[0], s), Reach(nodes[0]));
    }
  }

  lemma {:induction false} PlaceSlotsUpto(nodes: seq<Node>, s: State, from: nat)
    requires Upto(s, from) && AllInOrder(nodes, from) && ReachAll(nodes, from) <= |s.lines|
    ensures Upto(PlaceSlots(nodes, s), ReachAll(nodes, from)) && |PlaceSlots(nodes, s).lines| == |s.lines|
    decreases nodes, 0
  {
    hide Upto, Place, Reach, InOrder;
    if nodes != [] {
      AllReached(nodes[1..], Reach(nodes[0]));
      LineReached(nodes[0], from);
      if nodes[0].Slot? {
        PlaceUpto(nodes[0], s, from);
        PlaceSlotsUpto(nodes[1..], Place(nodes[0], s), Reach(nodes[0]));
      } else {
        Later(s, from, Reach(nodes[0]), s.last);
        assert s.(last := s.last) == s;
        PlaceSlotsUpto(nodes[1..], s, Reach(nodes[0]));
      }
    }
  }

  lemma {:induction false} PlaceCodeUpto(code: seq<string>, line: nat, s: State, from: nat)
    requires Upto(s, from) && 1 <= line && from <= line && (code != [] ==> line + |code| - 1 <= |s.lines|)
    ensures Upto(PlaceCode(code, line, s), if code == [] then from else line + |code| - 1)
    ensures |PlaceCode(code, line, s).lines| == |s.lines|
    decreases code
  {
    hide Upto, At;
    if code != [] {
      Later(s, from, line, s.last);
      assert s.(last := s.last) == s;
      if code[0] != [] { AtUpto(s, from, Own(line, code[0])); }
      PlaceCodeUpto(code[1..], line + 1, if code[0] == [] then s else At(s, Own(line, code[0])), line);
    }
  }

  lemma {:induction false} ReachIsCovered(n: Node)
    requires Covered(n)
    ensures Reach(n) <= NodeMax(n)
    decreases n, 1
  {
    match n
    case Tag(_, _, _, children, _, _) => LastLine(children);
    case Void(line, _, _, children) => AllReachCovered(children, line);
    case Component(_, _, _, _, children, _, _) => LastLine(children);
    case Slot(_, _, _, children, _, _) => LastLine(children);
    case _ =>
  }

  lemma {:induction false} LastLine(nodes: seq<Node>)
    ensures nodes != [] ==> nodes[|nodes| - 1].line <= MaxLine(nodes)
  {
    if |nodes| > 1 {
      LastLine(nodes[1..]);
      assert nodes[1..][|nodes| - 2] == nodes[|nodes| - 1];
    }
  }

  lemma {:induction false} AllReachCovered(nodes: seq<Node>, from: nat)
    requires AllCovered(nodes)
    ensures ReachAll(nodes, from) <= Max(from, MaxLine(nodes))
    decreases nodes, 0
  {
    if nodes != [] {
      ReachIsCovered(nodes[0]);
      AllReachCovered(nodes[1..], Reach(nodes[0]));
    }
  }

  lemma {:induction false} FlatBlank(n: nat)
    ensures Flat(Blank(n)) == []
  {
    if n > 0 {
      FlatBlank(n - 1);
      assert Blank(n)[..n - 1] == Blank(n - 1);
    }
  }

  /** When no line goes back in document order, the lines of the body read one after another are the fragments
      in the order they were emitted: none is lost, none changes place. */
  lemma BodyKeepsOrder(nodes: seq<Node>)
    requires AllInOrder(nodes, 1) && AllCovered(nodes)
    ensures Flat(Generate(nodes).lines) == Codes(Generate(nodes).trace)
  {
    var s := State(Blank(MaxLine(nodes)), "", []);
    FlatBlank(MaxLine(nodes));
    if nodes != [] {
      AllReachCovered(nodes, 1);
      FirstLine(nodes);
      PlaceAllUpto(nodes, s, 1);
    }
  }

  lemma FirstLine(nodes: seq<Node>)
    requires nodes != [] && AllInOrder(nodes, 1)
    ensures 1 <= nodes[0].line <= NodeMax(nodes[0]) <= MaxLine(nodes)
  {
  }
}

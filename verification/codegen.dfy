/** Placing generated code on source lines (place_node and generate_function_body_1to1 of
    packages/parser/src/codegen.ts).  What each node's own code is - attributes, marks, expressions - is
    given; where it goes, and in which order, is proved. */
module CodePlacement {
  import opened Options

  const SPACE_PUSH := "_output.p(\" \");"

  datatype Mode = Simple | Slots | Content

  /** A node with the code it emits.  `end` is the last line it reaches (node.loc), `close` the line of its
      closing tag when the source has one; a code line that emits nothing is empty. */
  datatype Node =
    | Tag(line: nat, end: nat, open: string, children: seq<Node>, close: Option<nat>, closing: string)
    | Void(line: nat, end: nat, open: string, children: seq<Node>)
    | Raw(line: nat, end: nat, open: string)
    | Text(line: nat, end: nat, plain: string, open: string)
    | Code(line: nat, end: nat, first: nat, code: seq<string>)
    | Expression(line: nat, end: nat, open: string)
    | Component(line: nat, end: nat, mode: Mode, open: string, children: seq<Node>, close: Option<nat>, closing: string)
    | Slot(line: nat, end: nat, open: string, children: seq<Node>, close: Option<nat>, closing: string)

  function Max(a: nat, b: nat): nat { if a < b then b else a }

  /** `findMaxLine`: the last line a node, or any node of a list, reaches. */
  function NodeMax(n: Node): nat
    decreases n, 1
  {
    var own := Max(n.line, n.end);
    match n
    case Tag(_, _, _, children, _, _) => Max(own, MaxLine(children))
    case Void(_, _, _, children) => Max(own, MaxLine(children))
    case Component(_, _, _, _, children, _, _) => Max(own, MaxLine(children))
    case Slot(_, _, _, children, _, _) => Max(own, MaxLine(children))
    case _ => own
  }

  function MaxLine(nodes: seq<Node>): nat
    decreases nodes, 0
  {
    if nodes == [] then 0 else Max(NodeMax(nodes[0]), MaxLine(nodes[1..]))
  }

  /** `close_line()`. */
  function CloseLine(n: Node): nat
    requires n.Tag? || n.Component? || n.Slot?
  {
    if n.close.Some? then n.close.value
    else if n.children != [] && n.children[|n.children| - 1].line != 0 then n.children[|n.children| - 1].line
    else n.line
  }

  /** A piece of code and the line it is meant for; `lead` is a separator put before it. */
  datatype Fragment = Fragment(line: nat, lead: string, code: string)

  function Own(line: nat, code: string): Fragment { Fragment(line, "", code) }

  /** The lines, the last push of plain text (`lastOutput`), and every fragment with the line it was meant
      for, in the order of emission. */
  datatype State = State(lines: seq<string>, last: string, trace: seq<Fragment>)

  /** `at()`: code for a line there is none of is dropped. */
  function At(s: State, f: Fragment): State {
    State(if 1 <= f.line <= |s.lines| then s.lines[f.line - 1 := s.lines[f.line - 1] + (f.lead + f.code)] else s.lines,
          s.last,
          s.trace + [f])
  }

  function Forget(s: State): State { s.(last := "") }

  predicate EndsWithBrace(s: string) { s != [] && s[|s| - 1] == '{' }

  /** `place_node()`. */
  function Place(n: Node, s: State): State
    decreases n, 1
  {
    if n.line == 0 || n.line > |s.lines| then s
    else
      match n
      case Tag(line, _, open, children, _, closing) =>
        Forget(At(PlaceAll(children, At(Forget(s), Own(line, open))), Own(CloseLine(n), closing)))
      case Void(line, _, open, children) => Forget(PlaceAll(children, At(Forget(s), Own(line, open))))
      case Raw(line, _, open) => At(Forget(s), Own(line, open))
      case Text(line, _, plain, open) =>
        if plain == [] then Forget(s)
        else if plain == SPACE_PUSH && s.last == SPACE_PUSH then s
        else At(s.(last := plain), Own(line, open))
      case Code(_, _, first, code) => PlaceCode(code, first, Forget(s))
      case Expression(line, _, open) => At(Forget(s), Own(line, open))
      case Component(line, _, mode, open, children, _, closing) =>
        var start := At(Forget(s), Own(line, open));
        if mode.Simple? then start
        else
          var filled := if mode.Slots? then PlaceSlots(children, start) else PlaceAll(children, start);
          Forget(At(filled, Own(CloseLine(n), closing)))
      case Slot(line, _, open, children, _, closing) =>
        var separator := if EndsWithBrace(s.lines[line - 1]) then "" else " ";
        Forget(At(PlaceAll(children, Forget(At(Forget(s), Fragment(line, separator, open)))),
            Own(CloseLine(n), closing)))
  }

  function PlaceAll(nodes: seq<Node>, s: State): State
    decreases nodes, 0
  {
    if nodes == [] then s else PlaceAll(nodes[1..], Place(nodes[0], s))
  }

  /** Of a component with slots only the slots are placed. */
  function PlaceSlots(nodes: seq<Node>, s: State): State
    decreases nodes, 0
  {
    if nodes == [] then s else PlaceSlots(nodes[1..], if nodes[0].Slot? then Place(nodes[0], s) else s)
  }

  function PlaceCode(code: seq<string>, line: nat, s: State): State
    decreases code
  {
    if code == [] then s else PlaceCode(code[1..], line + 1, if code[0] == [] then s else At(s, Own(line, code[0])))
  }

  function Blank(n: nat): seq<string> { seq(n, _ => []) }

  /** `generate_function_body_1to1()`. */
  function Generate(nodes: seq<Node>): State { PlaceAll(nodes, State(Blank(MaxLine(nodes)), "", [])) }

  // ----- the code -----

  class Generator {
    const lines: array<string>
    var last: string
    ghost var trace: seq<Fragment>

    ghost function Abs(): State
      reads this, lines
    {
      State(lines[..], last, trace)
    }

    constructor (count: nat)
      ensures fresh(lines) && Abs() == State(Blank(count), "", [])
    {
      lines := new string[count](_ => []);
      last, trace := "", [];
      new;
      assert lines[..] == Blank(count);
    }

    method PlaceAt(f: Fragment)
      modifies this, lines
      ensures Abs() == At(old(Abs()), f)
    {
      if 1 <= f.line <= lines.Length { lines[f.line - 1] := lines[f.line - 1] + (f.lead + f.code); }
      trace := trace + [f];
    }

    method PlaceNode(n: Node)
      modifies this, lines
      ensures Abs() == Place(n, old(Abs()))
      decreases n, 1
    {
      hide At, PlaceAll, PlaceSlots, PlaceCode;
      if n.line == 0 || n.line > lines.Length { return; }
      match n {
        case Tag(line, _, open, children, _, closing) =>
          last := "";
          PlaceAt(Own(line, open));
          PlaceEach(children, false);
          PlaceAt(Own(CloseLine(n), closing));
          last := "";
        case Void(line, _, open, children) =>
          last := "";
          PlaceAt(Own(line, open));
          PlaceEach(children, false);
          last := "";
        case Raw(line, _, open) =>
          last := "";
          PlaceAt(Own(line, open));
        case Text(line, _, plain, open) =>
          if plain == [] {
            last := "";
          } else if plain != SPACE_PUSH || last != SPACE_PUSH {
            last := plain;
            PlaceAt(Own(line, open));
          }
        case Code(_, _, first, code) =>
          last := "";
          PlaceCodeLines(code, first);
        case Expression(line, _, open) =>
          last := "";
          PlaceAt(Own(line, open));
        case Component(line, _, mode, open, children, _, closing) =>
          last := "";
          PlaceAt(Own(line, open));
          if !mode.Simple? {
            PlaceEach(children, mode.Slots?);
            PlaceAt(Own(CloseLine(n), closing));
            last := "";
          }
        case Slot(line, _, open, children, _, closing) =>
          var separator := if EndsWithBrace(lines[line - 1]) then "" else " ";
          last := "";
          PlaceAt(Fragment(line, separator, open));
          last := "";
          PlaceEach(children, false);
          PlaceAt(Own(CloseLine(n), closing));
          last := "";
      }
    }

    /** The children in document order; of a component with slots, its slots. */
    method PlaceEach(nodes: seq<Node>, slotsOnly: bool)
      modifies this, lines
      ensures Abs() == if slotsOnly then PlaceSlots(nodes, old(Abs())) else PlaceAll(nodes, old(Abs()))
      decreases nodes, 0
    {
      ghost var start := Abs();
      for i := 0 to |nodes|
        invariant if slotsOnly then PlaceSlots(nodes[i..], Abs()) == PlaceSlots(nodes, start)
                  else PlaceAll(nodes[i..], Abs()) == PlaceAll(nodes, start)
      {
        assert nodes[i..][1..] == nodes[i + 1..];
        if !slotsOnly || nodes[i].Slot? { PlaceNode(nodes[i]); }
      }
    }

    method PlaceCodeLines(code: seq<string>, first: nat)
      modifies this, lines
      ensures Abs() == PlaceCode(code, first, old(Abs()))
    {
      ghost var start := Abs();
      for i := 0 to |code|
        invariant PlaceCode(code[i..], first + i, Abs()) == PlaceCode(code, first, start)
      {
        assert code[i..][1..] == code[i + 1..];
        if code[i] != [] { PlaceAt(Own(first + i, code[i])); }
      }
    }
  }

  /** `generate_function_body_1to1()`: the lines, element N of which is the code for source line N. */
  method GenerateBody(nodes: seq<Node>) returns (lines: seq<string>)
    ensures lines == Generate(nodes).lines
  {
    var generator := new Generator(MaxLine(nodes));
    generator.PlaceEach(nodes, false);
    lines := generator.lines[..];
  }
}

/** What merging pushes (merge_output_pushes of packages/parser/src/codegen.ts) does to what a body of generated lines
    does when it runs: nothing, unless a line begins as the body of a head an earlier line left open, or an argument
    throws after others of its run have been pushed. */
module PushRuns {
  import opened PushMerging

  // ----- running generated code -----

  /** What evaluating an argument list comes to. */
  datatype Eval<+W, +I> = Value(items: seq<I>, world: W) | Throws(world: W)

  /** The output buffer, everything else the code can see, and whether an exception is on its way out. */
  datatype Run<+W, +I> = Run(buffer: seq<I>, world: W, thrown: bool)

  /** Between two statements: `head` is the text of one that is not complete yet - `if (c)`, `else`, `x &&` - and
      takes what comes next as its body. */
  datatype State<+W, +I> = State(run: Run<W, I>, head: string)

  /** What the code means: which texts are argument lists, which statements are incomplete, what an argument list
      evaluates to - reading and changing anything but this buffer -, what a statement that is no push does, and how
      an open head runs its body: never, once or as often as it likes. */
  datatype Meaning<!W, !I> = Meaning(
    list: string -> bool,
    open: string -> bool,
    args: (string, W) -> Eval<W, I>,
    other: (string, Run<W, I>) -> Run<W, I>,
    under: (string, Run<W, I> -> Run<W, I>, Run<W, I>) -> Run<W, I>)

  /** `p(a, b)`: the arguments are evaluated from left to right, and a throw ends the evaluation. */
  ghost predicate LeftToRight<W(!new), I(!new)>(m: Meaning<W, I>) {
    && (forall a, b :: m.list(a) && m.list(b) ==> m.list(a + ", " + b))
    && (forall a, b, w :: m.list(a) && m.list(b) ==> m.args(a + ", " + b, w) == Both(m, m.args(a, w), b))
  }

  function Both<W, I>(m: Meaning<W, I>, first: Eval<W, I>, b: string): Eval<W, I> {
    match first
    case Throws(w) => first
    case Value(items, w) =>
      match m.args(b, w)
      case Throws(v) => Throws(v)
      case Value(more, v) => Value(items + more, v)
  }

  /** `_output.p(args)` */
  function Pushed<W, I>(m: Meaning<W, I>, args: string, r: Run<W, I>): Run<W, I> {
    if r.thrown then r
    else
      match m.args(args, r.world)
      case Value(items, w) => Run(r.buffer + items, w, false)
      case Throws(w) => Run(r.buffer, w, true)
  }

  function Joined(head: string, text: string): string { if head == [] then text else head + "\n" + text }

  function Do<W, I>(m: Meaning<W, I>, item: Item, s: State<W, I>): State<W, I> {
    match item
    case Gap(_) => s
    case Push(args) =>
      State(if s.head == [] then Pushed(m, args, s.run) else m.under(s.head, r => Pushed(m, args, r), s.run), [])
    case Other(text) =>
      var statement := Joined(s.head, text);
      if m.open(statement) then State(s.run, statement) else State(m.other(statement, s.run), [])
  }

  function DoAll<W, I>(m: Meaning<W, I>, items: seq<Item>, s: State<W, I>): State<W, I>
    decreases items
  {
    if items == [] then s else DoAll(m, items[1..], Do(m, items[0], s))
  }

  predicate HaveArgs<W, I>(m: Meaning<W, I>, items: seq<Item>) {
    forall i :: 0 <= i < |items| && items[i].Push? ==> m.list(items[i].args)
  }

  predicate AreLists<W, I>(m: Meaning<W, I>, pending: seq<string>) {
    forall i :: 0 <= i < |pending| ==> m.list(pending[i])
  }

  lemma {:induction false} DoConcat<W, I>(m: Meaning<W, I>, a: seq<Item>, b: seq<Item>, s: State<W, I>)
    ensures DoAll(m, a + b, s) == DoAll(m, b, DoAll(m, a, s))
    decreases a
  {
    if a == [] {
      assert a + b == b;
    } else {
      assert (a + b)[1..] == a[1..] + b;
      DoConcat(m, a[1..], b, Do(m, a[0], s));
    }
  }

  lemma DoOne<W, I>(m: Meaning<W, I>, item: Item, s: State<W, I>)
    ensures DoAll(m, [item], s) == Do(m, item, s)
  {
    assert [item][1..] == [];
  }

  // ----- one run of pushes -----

  lemma ListJoins<W(!new), I(!new)>(m: Meaning<W, I>, a: string, b: string)
    requires LeftToRight(m) && m.list(a) && m.list(b)
    ensures m.list(a + ", " + b)
  {
  }

  lemma {:induction false} JoinIsList<W(!new), I(!new)>(m: Meaning<W, I>, pending: seq<string>)
    requires LeftToRight(m) && AreLists(m, pending) && pending != []
    ensures m.list(JoinArgs(pending))
    decreases |pending|
  {
    hide LeftToRight;
    if |pending| > 1 {
      JoinIsList(m, pending[..|pending| - 1]);
      ListJoins(m, JoinArgs(pending[..|pending| - 1]), pending[|pending| - 1]);
    }
  }

  /** May `args` be pushed together with what the run has pushed since `begun`? It may not throw where something
      has. */
  ghost predicate Holds<W, I>(m: Meaning<W, I>, args: string, r: Run<W, I>, begun: seq<I>) {
    r.thrown || m.args(args, r.world).Value? || r.buffer == begun
  }

  lemma PushTwo<W(!new), I(!new)>(m: Meaning<W, I>, a: string, b: string, r: Run<W, I>)
    requires LeftToRight(m) && m.list(a) && m.list(b)
    ensures var apart, together := Pushed(m, b, Pushed(m, a, r)), Pushed(m, a + ", " + b, r);
            && together.world == apart.world && together.thrown == apart.thrown
            && together.buffer == (if apart.thrown && !r.thrown then r.buffer else apart.buffer)
            && (together == apart <==> Holds(m, b, Pushed(m, a, r), r.buffer))
  {
    assert m.args(a + ", " + b, r.world) == Both(m, m.args(a, r.world), b);
    hide LeftToRight;
    if !r.thrown && m.args(a, r.world).Value? {
      var items := m.args(a, r.world).items;
      if m.args(b, m.args(a, r.world).world).Value? {
        var more := m.args(b, m.args(a, r.world).world).items;
        assert r.buffer + (items + more) == (r.buffer + items) + more;
      }
    }
  }

  /** One push more in a run that is under no head. */
  lemma FlushMore<W(!new), I(!new)>(m: Meaning<W, I>, pending: seq<string>, args: string, s: State<W, I>)
    requires LeftToRight(m) && AreLists(m, pending) && m.list(args) && (pending != [] ==> s.head == [])
    ensures var mid := DoAll(m, Flush(pending), s);
            pending == [] || Holds(m, args, mid.run, s.run.buffer) ==>
            DoAll(m, Flush(pending + [args]), s) == Do(m, Push(args), mid)
  {
    hide LeftToRight, Holds;
    DoOne(m, Push(JoinArgs(pending + [args])), s);
    if pending == [] {
      assert pending + [args] == [args];
    } else {
      DoOne(m, Push(JoinArgs(pending)), s);
      JoinIsList(m, pending);
      PushTwo(m, JoinArgs(pending), args, s.run);
      assert (pending + [args])[..|pending|] == pending;
    }
  }

  function Apart(pushes: seq<string>): seq<Item> {
    if pushes == [] then [] else Apart(pushes[..|pushes| - 1]) + [Push(pushes[|pushes| - 1])]
  }

  /** A run of pushes, apart and merged: they leave the same world and throw alike; but if one throws, merged they
      have pushed nothing of the run.  So they do the same exactly if none throws after something of the run was
      pushed. */
  lemma {:induction false} RunMerges<W(!new), I(!new)>(m: Meaning<W, I>, pushes: seq<string>, r: Run<W, I>)
    requires LeftToRight(m) && AreLists(m, pushes) && pushes != []
    ensures var apart, merged := DoAll(m, Apart(pushes), State(r, [])).run, Pushed(m, JoinArgs(pushes), r);
            && merged.world == apart.world && merged.thrown == apart.thrown
            && merged.buffer == (if apart.thrown then r.buffer else apart.buffer)
            && (merged == apart <==> !apart.thrown || apart.buffer == r.buffer)
    ensures DoAll(m, Apart(pushes), State(r, [])).head == []
    decreases |pushes|
  {
    hide LeftToRight;
    var front, last := pushes[..|pushes| - 1], pushes[|pushes| - 1];
    DoConcat(m, Apart(front), [Push(last)], State(r, []));
    DoOne(m, Push(last), DoAll(m, Apart(front), State(r, [])));
    if front == [] {
      assert pushes == [last];
    } else {
      RunMerges(m, front, r);
      JoinIsList(m, front);
      PushTwo(m, JoinArgs(front), last, r);
    }
  }

  // ----- a line -----

  /** No run under an open head has a second push; `k` pushes of the run that `head` is open at are behind us. */
  predicate Fine(open: string -> bool, items: seq<Item>, head: string, k: nat) {
    if items == [] then true
    else
      match items[0]
      case Gap(_) => Fine(open, items[1..], head, k)
      case Push(_) => (k == 0 || head == []) && Fine(open, items[1..], head, k + 1)
      case Other(text) => Fine(open, items[1..], After(open, head, k, text), 0)
  }

  /** The head open after a statement that is no push. */
  function After(open: string -> bool, head: string, k: nat, text: string): string {
    var statement := Joined(if k == 0 then head else [], text);
    if open(statement) then statement else []
  }

  /** No push throws after others of its run have pushed something; `begun` is the buffer the run began with. */
  ghost predicate Smooth<W(!new), I(!new)>(m: Meaning<W, I>, items: seq<Item>, s: State<W, I>, begun: seq<I>, k: nat)
    decreases items
  {
    if items == [] then true
    else
      match items[0]
      case Gap(_) => Smooth(m, items[1..], s, begun, k)
      case Push(args) =>
        (k == 0 || Holds(m, args, s.run, begun)) &&
        Smooth(m, items[1..], Do(m, items[0], s), if k == 0 then s.run.buffer else begun, k + 1)
      case Other(text) => var t := Do(m, items[0], s); Smooth(m, items[1..], t, t.run.buffer, 0)
  }

  lemma FlushedHead<W, I>(m: Meaning<W, I>, pending: seq<string>, s: State<W, I>)
    ensures DoAll(m, Flush(pending), s).head == if pending == [] then s.head else []
  {
    if pending != [] { DoOne(m, Push(JoinArgs(pending)), s); }
  }

  /** What running the merged statements of an `Other` case amounts to. */
  lemma DoOther<W, I>(m: Meaning<W, I>, pending: seq<string>, gap: string, other: Item, tail: seq<Item>, s: State<W, I>)
    ensures DoAll(m, Flush(pending) + [Gap(gap), other] + tail, s) ==
            DoAll(m, tail, Do(m, other, DoAll(m, Flush(pending), s)))
  {
    hide Do, Flush;
    var mid := DoAll(m, Flush(pending), s);
    DoConcat(m, Flush(pending) + [Gap(gap), other], tail, s);
    DoConcat(m, Flush(pending), [Gap(gap), other], s);
    assert [Gap(gap), other] == [Gap(gap)] + [other];
    DoConcat(m, [Gap(gap)], [other], mid);
    DoOne(m, Gap(gap), mid);
    DoGap(m, gap, mid);
    DoOne(m, other, mid);
  }

  lemma DoGap<W, I>(m: Meaning<W, I>, gap: string, s: State<W, I>)
    ensures Do(m, Gap(gap), s) == s
  {
  }

  lemma GapThen<W, I>(m: Meaning<W, I>, gap: string, tail: seq<Item>, s: State<W, I>)
    ensures DoAll(m, [Gap(gap)] + tail, s) == DoAll(m, tail, s)
  {
    assert ([Gap(gap)] + tail)[1..] == tail;
  }

  lemma FlushThenGap<W, I>(m: Meaning<W, I>, pending: seq<string>, gap: string, s: State<W, I>)
    ensures DoAll(m, Flush(pending) + [Gap(gap)], s) == DoAll(m, Flush(pending), s)
  {
    DoConcat(m, Flush(pending), [Gap(gap)], s);
    DoOne(m, Gap(gap), DoAll(m, Flush(pending), s));
  }

  lemma MergedPush(items: seq<Item>, args: string, pending: seq<string>, gap: string)
    requires items != [] && items[0] == Push(args)
    ensures var tail := Merge(items[1..], pending + [args], []);
            Merge(items, pending, gap) == if pending == [] then [Gap(gap)] + tail else tail
  {
    assert [] + [args] == [args];
  }

  /** Running the merged statements does what running the separate ones does, after the pushes already pending. */
  lemma {:induction false} MergeKeepsMeaning<W(!new), I(!new)>(m: Meaning<W, I>, items: seq<Item>, pending: seq<string>,
                                                              gap: string, s: State<W, I>)
    requires LeftToRight(m) && HaveArgs(m, items) && AreLists(m, pending)
    requires Fine(m.open, items, s.head, |pending|)
    requires Smooth(m, items, DoAll(m, Flush(pending), s), s.run.buffer, |pending|)
    ensures DoAll(m, Merge(items, pending, gap), s) == DoAll(m, items, DoAll(m, Flush(pending), s))
    decreases items
  {
    hide LeftToRight, JoinArgs, Holds, Do;
    var mid := DoAll(m, Flush(pending), s);
    if items == [] {
      FlushThenGap(m, pending, gap, s);
    } else {
      match items[0]
      case Gap(text) =>
        DoGap(m, text, mid);
        MergeKeepsMeaning(m, items[1..], pending, gap + text, s);
      case Push(args) =>
        FlushMore(m, pending, args, s);
        MergeKeepsMeaning(m, items[1..], pending + [args], [], s);
        MergedPush(items, args, pending, gap);
        GapThen(m, gap, Merge(items[1..], pending + [args], []), s);
      case Other(text) =>
        OtherHead(m, text, mid);
        FlushedHead(m, pending, s);
        MergeKeepsMeaning(m, items[1..], [], [], Do(m, items[0], mid));
        DoOther(m, pending, gap, items[0], Merge(items[1..], [], []), s);
    }
  }

  lemma OtherHead<W, I>(m: Meaning<W, I>, text: string, s: State<W, I>)
    ensures Do(m, Other(text), s).head == After(m.open, s.head, 0, text)
  {
  }
}

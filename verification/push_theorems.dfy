/** When merging pushes changes nothing, exactly; and two templates for which it does change what is rendered. */
module PushTheorems {
  import opened PushMerging
  import opened PushRuns

  // ----- a line of text -----

  /** For any line of text, in any state: its items are the line, and what the merge makes of them does the same. */
  lemma MergedLineRunsAlike<W(!new), I(!new)>(scanner: Scanner, line: string, m: Meaning<W, I>, s: State<W, I>)
    requires Sane(scanner, line) && LeftToRight(m) && HaveArgs(m, Items(scanner, line, 0))
    requires Fine(m.open, Items(scanner, line, 0), s.head, 0)
    requires Smooth(m, Items(scanner, line, 0), s, s.run.buffer, 0)
    ensures Text(Items(scanner, line, 0)) == line
    ensures DoAll(m, Merge(Items(scanner, line, 0), [], []), s) == DoAll(m, Items(scanner, line, 0), s)
  {
    hide Sane, LeftToRight, Fine, Smooth;
    ItemsAreTheLine(scanner, line, 0);
    assert line[0..] == line;
    MergeKeepsMeaning(m, Items(scanner, line, 0), [], [], s);
  }

  // ----- exactly when a line runs alike -----

  /** An argument list, cut at its commas: what a meaning that evaluates every list to its parts needs. */
  function Pieces(s: string): (r: seq<string>)
    ensures r != []
  {
    if s == [] then [[]]
    else if |s| > 1 && s[0] == ',' && s[1] == ' ' then [[]] + Pieces(s[2..])
    else
      var rest := Pieces(s[1..]);
      [[s[0]] + rest[0]] + rest[1..]
  }

  lemma PiecesCut(rest: string)
    ensures Pieces(", " + rest) == [[]] + Pieces(rest)
  {
    assert (", " + rest)[2..] == rest;
  }

  lemma PiecesChar(c: char, rest: string)
    requires c == ',' && rest != [] ==> rest[0] != ' '
    ensures Pieces([c] + rest) == [[c] + Pieces(rest)[0]] + Pieces(rest)[1..]
  {
    assert ([c] + rest)[1..] == rest;
  }

  lemma Regroup<T>(x: seq<T>, y: seq<T>, z: seq<T>)
    ensures x + y + z == x + (y + z)
  {
  }

  lemma {:induction false} PiecesJoin(a: string, b: string)
    ensures Pieces(a + ", " + b) == Pieces(a) + Pieces(b)
  {
    if a == [] {
      PiecesCut(b);
      assert a + ", " == ", ";
    } else {
      var cut := if |a| > 1 && a[0] == ',' && a[1] == ' ' then 2 else 1;
      PiecesJoin(a[cut..], b);
      if cut == 2 { JoinAfterCut(a, b); } else { JoinAfterChar(a, b); }
    }
  }

  lemma JoinAfterCut(a: string, b: string)
    requires |a| > 1 && a[0] == ',' && a[1] == ' ' && Pieces(a[2..] + ", " + b) == Pieces(a[2..]) + Pieces(b)
    ensures Pieces(a + ", " + b) == Pieces(a) + Pieces(b)
  {
    var rest := a[2..];
    assert a == ", " + rest;
    hide Pieces;
    PiecesCut(rest);
    PiecesCut(rest + ", " + b);
    Regroup(", ", rest, ", ");
    Regroup(", ", rest + ", ", b);
    Regroup([[]], Pieces(rest), Pieces(b));
  }

  lemma JoinAfterChar(a: string, b: string)
    requires a != [] && !(|a| > 1 && a[0] == ',' && a[1] == ' ') &&
             Pieces(a[1..] + ", " + b) == Pieces(a[1..]) + Pieces(b)
    ensures Pieces(a + ", " + b) == Pieces(a) + Pieces(b)
  {
    hide Pieces;
    var rest := a[1..];
    HeadTail(a);
    FirstChar(rest, b);
    PiecesChar(a[0], rest);
    PiecesChar(a[0], rest + ", " + b);
    Regroup([a[0]], rest, ", ");
    Regroup([a[0]], rest + ", ", b);
    TailOf(Pieces(rest), Pieces(b));
    Regroup([[a[0]] + Pieces(rest)[0]], Pieces(rest)[1..], Pieces(b));
  }

  lemma HeadTail(a: string)
    requires a != []
    ensures a == [a[0]] + a[1..]
  {
  }

  lemma FirstChar(a: string, b: string)
    ensures (a + ", " + b)[0] == if a == [] then ',' else a[0]
  {
  }

  lemma TailOf(x: seq<string>, y: seq<string>)
    requires x != []
    ensures (x + y)[0] == x[0] && (x + y)[1..] == x[1..] + y
  {
  }

  lemma {:induction false} OnePiece(s: string)
    requires ',' !in s
    ensures Pieces(s) == [s]
  {
    if s != [] {
      assert s[0] in s;
      OnePiece(s[1..]);
      assert [s[0]] + s[1..] == s && [s[1..]][1..] == [];
    }
  }

  /** Arguments evaluate to their parts - with `booms`, one that is "boom" throws -, other statements do nothing, and
      every head is an `if` whose condition is the world. */
  ghost function Witness(open: string -> bool, booms: bool): Meaning<bool, string> {
    Meaning(a => true, open,
            (a, w) => if booms && "boom" in Pieces(a) then Throws(w) else Value(Pieces(a), w),
            (text, r) => r,
            (head: string, body: Run<bool, string> -> Run<bool, string>, r: Run<bool, string>) => if r.world
                then body(r) else r)
  }

  lemma WitnessFits(open: string -> bool, booms: bool)
    ensures LeftToRight(Witness(open, booms))
  {
    var m := Witness(open, booms);
    forall a, b, w ensures m.args(a + ", " + b, w) == Both(m, m.args(a, w), b) { PiecesJoin(a, b); }
  }

  /** The witness with the condition false: nothing throws, and the world stays. */
  predicate Calm(s: State<bool, string>) { !s.run.thrown && !s.run.world }

  lemma {:induction false} CalmSmooth(open: string -> bool, items: seq<Item>, s: State<bool, string>,
                                      begun: seq<string>, k: nat)
    requires Calm(s)
    ensures Smooth(Witness(open, false), items, s, begun, k)
    decreases items
  {
    if items != [] {
      var t := Do(Witness(open, false), items[0], s);
      CalmSmooth(open, items[1..], t, if items[0].Push? && k > 0 then begun else if items[0].Push? then s.run.buffer
                                      else if items[0].Other? then t.run.buffer else begun,
                 if items[0].Push? then k + 1 else if items[0].Other? then 0 else k);
    }
  }

  /** A longer buffer to begin with stays longer, by as much. */
  lemma {:induction false} Shift(open: string -> bool, items: seq<Item>, s: State<bool, string>, t: State<bool, string>)
    requires Calm(s) && Calm(t) && s.head == t.head
    ensures var m := Witness(open, false); var a, b := DoAll(m, items, s), DoAll(m, items, t);
            Calm(a) && Calm(b) && |a.run.buffer| - |s.run.buffer| == |b.run.buffer| - |t.run.buffer|
    decreases items
  {
    if items != [] {
      var m := Witness(open, false);
      Shift(open, items[1..], Do(m, items[0], s), Do(m, items[0], t));
    }
  }

  /** Merged, the witness pushes no more, and as much only if no run under a head has a second push. */
  ghost predicate Shorter(open: string -> bool, items: seq<Item>, pending: seq<string>, gap: string, s: State<bool,
                          string>) {
    var m := Witness(open, false);
    var merged := DoAll(m, Merge(items, pending, gap), s);
    var apart := DoAll(m, items, DoAll(m, Flush(pending), s));
    && |merged.run.buffer| <= |apart.run.buffer|
    && (|merged.run.buffer| == |apart.run.buffer| ==> Fine(open, items, s.head, |pending|))
  }

  lemma {:induction false} MergedShorter(open: string -> bool, items: seq<Item>, pending: seq<string>, gap: string,
                                         s: State<bool, string>)
    requires Calm(s)
    ensures Shorter(open, items, pending, gap, s)
    decreases items
  {
    hide Shorter, Do;
    if items == [] {
      NothingShorter(open, pending, gap, s);
    } else {
      var mid := DoAll(Witness(open, false), Flush(pending), s);
      Shift(open, Flush(pending), s, s);
      match items[0]
      case Gap(text) =>
        MergedShorter(open, items[1..], pending, gap + text, s);
        GapShorter(open, items, pending, gap, text, s);
      case Push(args) =>
        MergedShorter(open, items[1..], pending + [args], [], s);
        PushShorter(open, items, pending, gap, args, s);
      case Other(text) =>
        OpenIsOpen(open, text, mid);
        MergedShorter(open, items[1..], [], [], Do(Witness(open, false), items[0], mid));
        OtherShorter(open, items, pending, gap, text, s);
    }
  }

  lemma NothingShorter(open: string -> bool, pending: seq<string>, gap: string, s: State<bool, string>)
    ensures Shorter(open, [], pending, gap, s)
  {
    hide Witness, Flush;
    FlushThenGap(Witness(open, false), pending, gap, s);
  }

  lemma GapShorter(open: string -> bool, items: seq<Item>, pending: seq<string>, gap: string, text: string,
                   s: State<bool, string>)
    requires items != [] && items[0] == Gap(text) && Shorter(open, items[1..], pending, gap + text, s)
    ensures Shorter(open, items, pending, gap, s)
  {
    hide Witness, Do, Flush;
    var m := Witness(open, false);
    DoGap(m, text, DoAll(m, Flush(pending), s));
  }

  lemma PushShorter(open: string -> bool, items: seq<Item>, pending: seq<string>, gap: string, args: string,
                    s: State<bool, string>)
    requires Calm(s) && items != [] && items[0] == Push(args) && Shorter(open, items[1..], pending + [args], [], s)
    ensures Shorter(open, items, pending, gap, s)
  {
    hide Witness, Do, Flush;
    var m := Witness(open, false);
    MergedPush(items, args, pending, gap);
    GapThen(m, gap, Merge(items[1..], pending + [args], []), s);
    if pending == [] || s.head == [] {
      PushAlike(open, pending, args, s);
    } else {
      PushUnder(open, items, pending, args, s);
    }
  }

  lemma OtherShorter(open: string -> bool, items: seq<Item>, pending: seq<string>, gap: string, text: string,
                     s: State<bool, string>)
    requires Calm(s) && items != [] && items[0] == Other(text)
    requires Shorter(open, items[1..], [], [],
             Do(Witness(open, false), items[0], DoAll(Witness(open, false), Flush(pending), s)))
    ensures Shorter(open, items, pending, gap, s)
  {
    var m := Witness(open, false);
    var mid := DoAll(m, Flush(pending), s);
    Shift(open, Flush(pending), s, s);
    OpenIsOpen(open, text, mid);
    hide Witness, Do, Calm;
    FlushedHead(m, pending, s);
    OtherHead(m, text, mid);
    DoOther(m, pending, gap, items[0], Merge(items[1..], [], []), s);
    FlushEmpty(m, Do(m, items[0], mid));
  }

  lemma FlushEmpty(m: Meaning<bool, string>, s: State<bool, string>)
    ensures DoAll(m, Flush([]), s) == s
  {
  }

  lemma OpenIsOpen(open: string -> bool, text: string, s: State<bool, string>)
    requires Calm(s)
    ensures Witness(open, false).open == open && Calm(Do(Witness(open, false), Other(text), s))
  {
  }

  lemma PushAlike(open: string -> bool, pending: seq<string>, args: string, s: State<bool, string>)
    requires Calm(s) && (pending == [] || s.head == [])
    ensures var m := Witness(open, false);
            DoAll(m, Flush(pending + [args]), s) == Do(m, Push(args), DoAll(m, Flush(pending), s))
  {
    var m := Witness(open, false);
    WitnessFits(open, false);
    hide LeftToRight;
    FlushMore(m, pending, args, s);
  }

  /** The second push of a run under the head: apart it pushes something, merged the head has skipped it. */
  lemma PushUnder(open: string -> bool, items: seq<Item>, pending: seq<string>, args: string, s: State<bool, string>)
    requires Calm(s) && pending != [] && s.head != [] && items != [] && items[0] == Push(args)
    ensures var m := Witness(open, false);
            |DoAll(m, items[1..], DoAll(m, Flush(pending + [args]), s)).run.buffer|
            < |DoAll(m, items, DoAll(m, Flush(pending), s)).run.buffer|
  {
    var m := Witness(open, false);
    DoOne(m, Push(JoinArgs(pending)), s);
    DoOne(m, Push(JoinArgs(pending + [args])), s);
    var mid := DoAll(m, Flush(pending), s);
    assert mid == State(s.run, []) == DoAll(m, Flush(pending + [args]), s);
    Shift(open, items[1..], mid, Do(m, items[0], mid));
  }

  /** Whatever a line's statements mean and whatever the state: merged it does the same as apart, as long as no push
      throws after others of its run - exactly if no run in it stands under an open head with a second push. */
  lemma {:induction false} AlikeExactly(open: string -> bool, items: seq<Item>, head: string)
    ensures (forall m: Meaning<bool, string>, r: Run<bool, string> ::
               LeftToRight(m) && m.open == open && HaveArgs(m, items) &&
                   Smooth(m, items, State(r, head), r.buffer, 0) ==>
               DoAll(m, Merge(items, [], []), State(r, head)) == DoAll(m, items, State(r, head)))
            <==> Fine(open, items, head, 0)
  {
    if Fine(open, items, head, 0) {
      forall m: Meaning<bool, string>, r: Run<bool, string> |
          LeftToRight(m) && m.open == open && HaveArgs(m, items) && Smooth(m, items, State(r, head), r.buffer, 0)
        ensures DoAll(m, Merge(items, [], []), State(r, head)) == DoAll(m, items, State(r, head))
      {
        hide LeftToRight, Smooth, Fine;
        FlushEmpty(m, State(r, head));
        MergeKeepsMeaning(m, items, [], [], State(r, head));
      }
    } else {
      var m, r := Witness(open, false), Run([], false, false);
      WitnessFits(open, false);
      CalmSmooth(open, items, State(r, head), r.buffer, 0);
      MergedShorter(open, items, [], [], State(r, head));
      FlushEmpty(m, State(r, head));
      assert LeftToRight(m) && m.open == open && HaveArgs(m, items) && Smooth(m, items, State(r, head), r.buffer, 0);
    }
  }

  // ----- what that comes to for a generated line -----

  /** How many pushes the line begins with. */
  function Leading(items: seq<Item>): nat {
    if items == [] || items[0].Other? then 0 else (if items[0].Push? then 1 else 0) + Leading(items[1..])
  }

  /** No statement of the line leaves a head open before a push of it: a statement ends at its ';'. */
  ghost predicate ClosedInside(open: string -> bool, items: seq<Item>) {
    forall i, j, head :: 0 <= i < j < |items| && items[i].Other? && items[j].Push? ==>
        !open(Joined(head, items[i].text))
  }

  lemma {:induction false} FineIsLeading(open: string -> bool, items: seq<Item>, head: string, k: nat)
    requires ClosedInside(open, items)
    ensures Fine(open, items, head, k) <==> head == [] || k + Leading(items) <= 1 || Leading(items) == 0
    decreases items
  {
    if items != [] {
      forall i, j, h | 0 <= i < j < |items[1..]| && items[1..][i].Other? && items[1..][j].Push?
        ensures !open(Joined(h, items[1..][i].text))
      {
        assert items[1..][i] == items[i + 1] && items[1..][j] == items[j + 1];
      }
      match items[0]
      case Gap(_) => FineIsLeading(open, items[1..], head, k);
      case Push(_) => FineIsLeading(open, items[1..], head, k + 1);
      case Other(text) =>
        var after := After(open, head, k, text);
        FineIsLeading(open, items[1..], after, 0);
        if after != [] { NoPushLeft(open, items, if k == 0 then head else [], text); }
    }
  }

  lemma NoPushLeft(open: string -> bool, items: seq<Item>, head: string, text: string)
    requires ClosedInside(open, items) && items != [] && items[0] == Other(text) && open(Joined(head, text))
    ensures Leading(items[1..]) == 0
  {
    forall j | 0 < j < |items| ensures !items[j].Push? { assert open(Joined(head, items[0].text)); }
    NoPushes(items[1..]);
  }

  lemma {:induction false} NoPushes(items: seq<Item>)
    requires forall i :: 0 <= i < |items| ==> !items[i].Push?
    ensures Leading(items) == 0
  {
    if items != [] { NoPushes(items[1..]); }
  }

  /** A generated line runs alike exactly if it does not begin as the body of a head an earlier line left open, or
      begins with at most one push. */
  lemma {:induction false} LineRunsAlikeExactly(open: string -> bool, items: seq<Item>, head: string)
    requires ClosedInside(open, items)
    ensures (forall m: Meaning<bool, string>, r: Run<bool, string> ::
               LeftToRight(m) && m.open == open && HaveArgs(m, items) &&
                   Smooth(m, items, State(r, head), r.buffer, 0) ==>
               DoAll(m, Merge(items, [], []), State(r, head)) == DoAll(m, items, State(r, head)))
            <==> head == [] || Leading(items) <= 1
  {
    hide LeftToRight, Smooth, Merge, DoAll;
    AlikeExactly(open, items, head);
    FineIsLeading(open, items, head, 0);
  }

  // ----- two templates -----

  const IF := "if (this.data.c)"
  const TAG := "{tag: [\"b\", {}, false]}"

  lemma DoFirst<W, I>(m: Meaning<W, I>, item: Item, rest: seq<Item>, s: State<W, I>)
    ensures DoAll(m, [item] + rest, s) == DoAll(m, rest, Do(m, item, s))
  {
    assert ([item] + rest)[1..] == rest;
  }

  lemma MergedTwo(a: string, b: string)
    ensures Merge([Push(a), Push(b)], [], []) == [Gap([]), Push(a + ", " + b), Gap([])]
  {
    var line := [Push(a), Push(b)];
    MergedPush(line, a, [], []);
    MergedPush(line[1..], b, [a], []);
    assert line[1..][1..] == [] && [a] + [b] == [a, b];
    assert [a, b][..1] == [a] && JoinArgs([a]) == a;
    assert JoinArgs([a, b]) == a + ", " + b;
    assert Merge([], [a, b], []) == [Push(a + ", " + b), Gap([])];
  }

  lemma RunTwo(m: Meaning<bool, string>, a: string, b: string, s: State<bool, string>)
    ensures DoAll(m, [Push(a), Push(b)], s) == Do(m, Push(b), Do(m, Push(a), s))
    ensures DoAll(m, Merge([Push(a), Push(b)], [], []), s) == Do(m, Push(a + ", " + b), s)
  {
    hide Do, Merge;
    assert [Push(a), Push(b)] == [Push(a)] + [Push(b)];
    DoFirst(m, Push(a), [Push(b)], s);
    DoOne(m, Push(b), Do(m, Push(a), s));
    MergedTwo(a, b);
    assert [Gap([]), Push(a + ", " + b), Gap([])] == [Gap([])] + ([Push(a + ", " + b)] + [Gap([])]);
    GapThen(m, [], [Push(a + ", " + b)] + [Gap([])], s);
    DoFirst(m, Push(a + ", " + b), [Gap([])], s);
    DoOne(m, Gap([]), Do(m, Push(a + ", " + b), s));
    DoGap(m, [], Do(m, Push(a + ", " + b), s));
  }

  /** `<% if (this.data.c)` and on the next line `%><b>hi`, the condition false: the separate pushes skip the tag and
      print the rest, the merged ones print nothing. */
  lemma BracelessHeadDiffers()
    ensures var m := Witness(text => text == IF, false);
            var line := [Push(TAG), Push("hi")];
            var s := DoAll(m, [Other(IF)], State(Run([], false, false), []));
            && LeftToRight(m)
            && DoAll(m, line, s).run.buffer == ["hi"]
            && DoAll(m, Merge(line, [], []), s).run.buffer == []
  {
    var m := Witness(text => text == IF, false);
    WitnessFits(text => text == IF, false);
    var start: State<bool, string> := State(Run([], false, false), []);
    DoOne(m, Other(IF), start);
    var s := Do(m, Other(IF), start);
    assert s == State(Run([], false, false), IF);
    hide LeftToRight;
    RunTwo(m, TAG, "hi", s);
    assert Do(m, Push(TAG), s) == State(Run([], false, false), []);
    OnePiece("hi");
  }

  /** Inside an author's `try`: the second push of a line throws.  Apart the first one stays printed, merged it does
      not. */
  lemma ThrowDiffers()
    ensures var m := Witness(text => false, true);
            var line := [Push("a"), Push("boom")];
            var s := State(Run([], false, false), []);
            && LeftToRight(m)
            && DoAll(m, line, s).run == Run(["a"], false, true)
            && DoAll(m, Merge(line, [], []), s).run == Run([], false, true)
  {
    var m := Witness(text => false, true);
    WitnessFits(text => false, true);
    var s: State<bool, string> := State(Run([], false, false), []);
    hide LeftToRight;
    RunTwo(m, "a", "boom", s);
    PiecesJoin("a", "boom");
    OnePiece("a");
    OnePiece("boom");
    assert Pieces("a" + ", " + "boom")[1] == "boom";
  }
}

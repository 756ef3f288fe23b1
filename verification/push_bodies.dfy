/** Merging pushes in a whole body: blocks and loops that span lines, jumps, exceptions. */
module PushBodies {
  import opened PushMerging
  import opened PushRuns

  function MergeAll(lines: seq<seq<Item>>): seq<seq<Item>> {
    if lines == [] then [] else [Merge(lines[0], [], [])] + MergeAll(lines[1..])
  }

  // ----- the units control moves between -----

  /** A unit is a statement that is no push, or the pushes and the white space between two such statements of a line:
      code is entered and left at its statements only. */
  function Units(items: seq<Item>, run: seq<Item>): seq<seq<Item>>
    decreases items
  {
    if items == [] then [run]
    else if items[0].Other? then [run, [items[0]]] + Units(items[1..], [])
    else Units(items[1..], run + [items[0]])
  }

  function BodyUnits(lines: seq<seq<Item>>): seq<seq<Item>> {
    if lines == [] then [] else Units(lines[0], []) + BodyUnits(lines[1..])
  }

  predicate IsRun(items: seq<Item>) { forall i :: 0 <= i < |items| ==> !items[i].Other? }

  predicate IsUnit(unit: seq<Item>) { IsRun(unit) || (|unit| == 1 && unit[0].Other?) }

  function MergedUnit(unit: seq<Item>): seq<Item> {
    if |unit| == 1 && unit[0].Other? then unit else Merge(unit, [], [])
  }

  function MergedUnits(units: seq<seq<Item>>): (r: seq<seq<Item>>)
    ensures |r| == |units|
    ensures forall i :: 0 <= i < |units| ==> r[i] == MergedUnit(units[i])
  {
    if units == [] then [] else [MergedUnit(units[0])] + MergedUnits(units[1..])
  }

  lemma {:induction false} MergedUnitsConcat(a: seq<seq<Item>>, b: seq<seq<Item>>)
    ensures MergedUnits(a + b) == MergedUnits(a) + MergedUnits(b)
  {
    if a == [] {
      assert a + b == b;
    } else {
      assert (a + b)[1..] == a[1..] + b;
      MergedUnitsConcat(a[1..], b);
    }
  }

  /** The merge works unit by unit. */
  lemma {:induction false} MergeRun(run: seq<Item>, rest: seq<Item>, pending: seq<string>, gap: string)
    requires IsRun(run) && rest != [] && rest[0].Other?
    ensures Merge(run + rest, pending, gap) == Merge(run, pending, gap) + [rest[0]] + Merge(rest[1..], [], [])
    decreases run
  {
    if run == [] {
      assert run + rest == rest;
    } else {
      assert (run + rest)[1..] == run[1..] + rest && (run + rest)[0] == run[0];
      match run[0]
      case Gap(text) => MergeRun(run[1..], rest, pending, gap + text);
      case Push(args) =>
        assert [] + [args] == [args];
        MergeRun(run[1..], rest, pending + [args], []);
        var m := Merge(run[1..], pending + [args], []);
        assert [Gap(gap)] + (m + [rest[0]] + Merge(rest[1..], [], [])) ==
            ([Gap(gap)] + m) + [rest[0]] + Merge(rest[1..], [], []);
    }
  }

  lemma {:induction false} MergedRunIsRun(run: seq<Item>, pending: seq<string>, gap: string)
    requires IsRun(run)
    ensures IsRun(Merge(run, pending, gap))
    decreases run
  {
    if run != [] {
      match run[0]
      case Gap(text) => MergedRunIsRun(run[1..], pending, gap + text);
      case Push(args) =>
        assert [] + [args] == [args];
        MergedRunIsRun(run[1..], pending + [args], []);
    }
  }

  /** A line that is a run, a statement and the rest. */
  lemma {:induction false} UnitsOf(items: seq<Item>, rest: seq<Item>, run: seq<Item>)
    requires IsRun(items) && (rest == [] || rest[0].Other?)
    ensures Units(items + rest, run) ==
            if rest == [] then [run + items] else [run + items, [rest[0]]] + Units(rest[1..], [])
    decreases items
  {
    if items == [] {
      assert items + rest == rest && run + items == run;
    } else {
      assert (items + rest)[1..] == items[1..] + rest && (items + rest)[0] == items[0];
      assert run + [items[0]] + items[1..] == run + items;
      UnitsOf(items[1..], rest, run + [items[0]]);
    }
  }

  /** The units of the merged line are the merged units of the line. */
  lemma {:induction false} MergedByUnits(items: seq<Item>, run: seq<Item>)
    requires IsRun(run)
    ensures Units(Merge(run + items, [], []), []) == MergedUnits(Units(items, run))
    decreases items
  {
    if items == [] {
      assert run + items == run;
      MergedRunIsRun(run, [], []);
      UnitsOf(Merge(run, [], []), [], []);
      assert Merge(run, [], []) + [] == Merge(run, [], []) == [] + Merge(run, [], []);
    } else if items[0].Other? {
      MergedByUnits(items[1..], []);
      MergedStatement(items, run);
    } else {
      assert run + items == run + [items[0]] + items[1..];
      MergedByUnits(items[1..], run + [items[0]]);
    }
  }

  lemma MergedStatement(items: seq<Item>, run: seq<Item>)
    requires IsRun(run) && items != [] && items[0].Other?
    requires Units(Merge([] + items[1..], [], []), []) == MergedUnits(Units(items[1..], []))
    ensures Units(Merge(run + items, [], []), []) == MergedUnits(Units(items, run))
  {
    hide Merge;
    MergedRunIsRun(run, [], []);
    MergeRun(run, items, [], []);
    assert [] + items[1..] == items[1..];
    var merged, rest := Merge(run, [], []), Merge(items[1..], [], []);
    assert merged + [items[0]] + rest == merged + ([items[0]] + rest);
    UnitsOf(merged, [items[0]] + rest, []);
    assert ([items[0]] + rest)[1..] == rest && [] + merged == merged;
    MergedUnitsConcat([run, [items[0]]], Units(items[1..], []));
    assert MergedUnits([run, [items[0]]]) == [merged, [items[0]]];
  }

  lemma {:induction false} MergedBodyByUnits(lines: seq<seq<Item>>)
    ensures BodyUnits(MergeAll(lines)) == MergedUnits(BodyUnits(lines))
    decreases lines
  {
    if lines != [] {
      MergedBodyByUnits(lines[1..]);
      assert MergeAll(lines)[1..] == MergeAll(lines[1..]);
      assert [] + lines[0] == lines[0];
      MergedByUnits(lines[0], []);
      MergedUnitsConcat(Units(lines[0], []), BodyUnits(lines[1..]));
    }
  }

  function Join(units: seq<seq<Item>>): seq<Item> { if units == [] then [] else units[0] + Join(units[1..]) }

  /** Nothing of a line is lost or moved by cutting it into units. */
  lemma {:induction false} UnitsAreTheLine(items: seq<Item>, run: seq<Item>)
    requires IsRun(run)
    ensures Join(Units(items, run)) == run + items
    ensures forall unit :: unit in Units(items, run) ==> IsUnit(unit)
    decreases items
  {
    if items == [] {
      assert Units(items, run)[1..] == [] && run + items == run;
    } else if items[0].Other? {
      UnitsAreTheLine(items[1..], []);
      var rest := Units(items[1..], []);
      assert ([run, [items[0]]] + rest)[1..] == [[items[0]]] + rest && ([[items[0]]] + rest)[1..] == rest;
      assert run + ([items[0]] + ([] + items[1..])) == run + items;
    } else {
      UnitsAreTheLine(items[1..], run + [items[0]]);
      assert run + [items[0]] + items[1..] == run + items;
    }
  }

  // ----- running a body -----

  /** `n` units from unit `pc` on.  `next` is the control: where the unit just run, in the state it leaves, goes on - to
      the unit after it, back to the head of a loop, past a block, into a catch, or beyond the last unit. */
  function DoBody<W, I>(m: Meaning<W, I>, units: seq<seq<Item>>, next: (nat, State<W, I>) -> nat, pc: nat,
                        s: State<W, I>, n: nat): (nat, State<W, I>)
    decreases n
  {
    if n == 0 || pc >= |units| then (pc, s)
    else var t := DoAll(m, units[pc], s); DoBody(m, units, next, next(pc, t), t, n - 1)
  }

  /** Each time one of these units is run: its pushes have arguments, if it stands under a head left open it has one
      push at most, and none of its pushes throws after others of it have pushed something. */
  ghost predicate Holding<W(!new), I(!new)>(m: Meaning<W, I>, units: seq<seq<Item>>, next: (nat, State<W, I>) -> nat,
                                            pc: nat, s: State<W, I>, n: nat)
    decreases n
  {
    n == 0 || pc >= |units| ||
    (HaveArgs(m, units[pc]) && Fine(m.open, units[pc], s.head, 0) && Smooth(m, units[pc], s, s.run.buffer, 0) &&
     var t := DoAll(m, units[pc], s);
     Holding(m, units, next, next(pc, t), t, n - 1))
  }

  lemma {:induction false} UnitsRunAlike<W(!new), I(!new)>(m: Meaning<W, I>, units: seq<seq<Item>>,
                                                          next: (nat, State<W, I>) -> nat, pc: nat, s: State<W, I>,
                                                          n: nat)
    requires LeftToRight(m) && Holding(m, units, next, pc, s, n)
    ensures DoBody(m, MergedUnits(units), next, pc, s, n) == DoBody(m, units, next, pc, s, n)
    decreases n
  {
    hide LeftToRight, Fine, Smooth, HaveArgs, Merge;
    if n != 0 && pc < |units| {
      var unit := units[pc];
      NothingPending(m, s);
      if !(|unit| == 1 && unit[0].Other?) { MergeKeepsMeaning(m, unit, [], [], s); }
      var t := DoAll(m, unit, s);
      UnitsRunAlike(m, units, next, next(pc, t), t, n - 1);
    }
  }

  lemma NothingPending<W, I>(m: Meaning<W, I>, s: State<W, I>)
    ensures DoAll(m, Flush([]), s) == s && AreLists(m, [])
  {
  }

  /** A body of any number of lines, merged line by line, under any control and for however long it runs: it is in the
      same place and leaves the same buffer and the same world as the body unmerged. */
  lemma {:induction false} BodyRunsAlike<W(!new), I(!new)>(m: Meaning<W, I>, lines: seq<seq<Item>>,
                                                          next: (nat, State<W, I>) -> nat, pc: nat, s: State<W, I>,
                                                          n: nat)
    requires LeftToRight(m) && Holding(m, BodyUnits(lines), next, pc, s, n)
    ensures DoBody(m, BodyUnits(MergeAll(lines)), next, pc, s, n) == DoBody(m, BodyUnits(lines), next, pc, s, n)
  {
    hide LeftToRight, Holding, MergedUnits, BodyUnits, MergeAll;
    MergedBodyByUnits(lines);
    UnitsRunAlike(m, BodyUnits(lines), next, pc, s, n);
  }
}

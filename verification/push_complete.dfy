/** That merging is complete: which statements of a line count as pushes, and what the runs of them become. */
module PushComplete {
  import opened Options
  import opened PushBodies
  import opened PushMerging
  import opened WhiteSpace

  // ----- what a line is taken for -----

  function Opening(): string { "_output.p(" }

  /** At `i` stands a push of `args` with a semicolon right behind it; its parenthesis closes before the semicolon. */
  predicate PushAt(scanner: Scanner, line: string, i: nat, args: string) {
    var text := Opening() + args + ");";
    && i + |text| <= |line| && line[i..i + |text|] == text
    && scanner.matching(line, i + 9) == Some(i + 10 + |args|)
  }

  /** How much of the line an item takes. */
  function Length(item: Item): nat {
    match item
    case Gap(text) => |text|
    case Push(args) => |args| + 12
    case Other(text) => |text|
  }

  /** What stands at `i` is this item: one white space character, else a push, else a statement up to its end. */
  ghost predicate Stands(scanner: Scanner, line: string, i: nat, item: Item)
    requires i < |line|
  {
    match item
    case Gap(text) => IsSpace(line[i]) && text == [line[i]]
    case Push(args) => !IsSpace(line[i]) && PushAt(scanner, line, i, args)
    case Other(text) =>
      && !IsSpace(line[i]) && (forall args :: !PushAt(scanner, line, i, args))
      && i < scanner.statementEnd(line, i) <= |line| && text == line[i..scanner.statementEnd(line, i)]
  }

  /** From `i` on, the line is these items. */
  ghost predicate Laid(scanner: Scanner, line: string, i: nat, items: seq<Item>)
    decreases items
  {
    if items == [] then i == |line|
    else i < |line| && Stands(scanner, line, i, items[0]) && Laid(scanner, line, i + Length(items[0]), items[1..])
  }

  lemma OpeningIs()
    ensures Opening() == PushCode() && |PushCode()| == 10 && Opening()[9] == '('
  {
  }

  lemma PushAtEnds(scanner: Scanner, line: string, i: nat, args: string)
    requires PushAt(scanner, line, i, args)
    ensures PushEnd(scanner, line, i) == Some(i + 10 + |args|)
  {
    OpeningIs();
    hide Opening, PushCode;
    var text := Opening() + args + ");";
    assert text[..10] == Opening() && line[i..i + 10] == line[i..i + |text|][..10];
    assert line[i + 11 + |args|] == line[i..i + |text|][11 + |args|] == text[11 + |args|] == ';';
  }

  lemma EndMatches(scanner: Scanner, line: string, i: nat)
    requires PushEnd(scanner, line, i).Some?
    ensures scanner.matching(line, i + 9) == PushEnd(scanner, line, i)
  {
    OpeningIs();
    hide PushCode, Opening, StartsWith;
  }

  lemma EndIsPush(scanner: Scanner, line: string, i: nat)
    requires Sane(scanner, line) && i < |line| && PushEnd(scanner, line, i).Some?
    ensures var end := PushEnd(scanner, line, i).value;
            i + 10 <= end <= |line| && PushAt(scanner, line, i, line[i + 10..end])
  {
    hide PushEnd, Sane, Opening, PushCode, ItemText;
    OpeningIs();
    EndMatches(scanner, line, i);
    PushOnLine(scanner, line, i);
    PushGiven(line, i, PushEnd(scanner, line, i).value);
  }

  lemma PushGiven(line: string, i: nat, end: nat)
    requires i + 10 <= end && end + 2 <= |line|
    requires line[i..] == ItemText(Push(line[i + 10..end])) + line[end + 2..]
    ensures var text := Opening() + line[i + 10..end] + ");"; i + |text| == end + 2 && line[i..end + 2] == text
  {
    OpeningIs();
    hide Opening, PushCode;
    var text := Opening() + line[i + 10..end] + ");";
    assert line[i..][..|text|] == text;
    assert line[i..end + 2] == line[i..][..|text|];
  }

  lemma {:induction false} ItemsExactly(scanner: Scanner, line: string, i: nat, items: seq<Item>)
    requires Sane(scanner, line) && i <= |line|
    ensures Laid(scanner, line, i, items) <==> items == Items(scanner, line, i)
    decreases |line| - i
  {
    if i < |line| {
      var first, next := FirstStands(scanner, line, i);
      if items != [] {
        if Stands(scanner, line, i, items[0]) { OneStands(scanner, line, i, items[0], first); }
        ItemsExactly(scanner, line, next, items[1..]);
        assert items == [items[0]] + items[1..];
      }
      hide Stands, Sane, Length, Items;
    }
  }

  lemma GapStands(scanner: Scanner, line: string, i: nat)
    requires i < |line| && IsSpace(line[i])
    ensures Stands(scanner, line, i, Gap([line[i]]))
  {
    hide IsSpace;
  }

  lemma PushStands(scanner: Scanner, line: string, i: nat)
    requires Sane(scanner, line) && i < |line| && !IsSpace(line[i]) && PushEnd(scanner, line, i).Some?
    ensures var end := PushEnd(scanner, line, i).value;
            i + 10 <= end <= |line| && Stands(scanner, line, i, Push(line[i + 10..end]))
  {
    EndIsPush(scanner, line, i);
    hide PushEnd, IsSpace, PushAt, Sane;
  }

  lemma OtherStands(scanner: Scanner, line: string, i: nat)
    requires Sane(scanner, line) && i < |line| && !IsSpace(line[i]) && PushEnd(scanner, line, i).None?
    ensures i < scanner.statementEnd(line, i) <= |line|
    ensures Stands(scanner, line, i, Other(line[i..scanner.statementEnd(line, i)]))
  {
    forall args | PushAt(scanner, line, i, args) ensures false { PushAtEnds(scanner, line, i, args); }
    StatementOnLine(scanner, line, i);
    hide PushEnd, IsSpace, PushAt, Sane;
  }

  lemma FirstStands(scanner: Scanner, line: string, i: nat) returns (first: Item, next: nat)
    requires Sane(scanner, line) && i < |line|
    ensures i < next <= |line| && next == i + Length(first) && Stands(scanner, line, i, first)
    ensures Items(scanner, line, i) == [first] + Items(scanner, line, next)
  {
    hide PushEnd, IsSpace, PushAt, Sane, Opening, PushCode, Stands, Items;
    OpeningIs();
    var end := PushEnd(scanner, line, i);
    if IsSpace(line[i]) {
      GapStands(scanner, line, i);
      GapFirst(scanner, line, i);
      first, next := Gap([line[i]]), i + 1;
    } else if end.Some? {
      PushStands(scanner, line, i);
      PushFirst(scanner, line, i);
      first, next := Push(line[i + 10..end.value]), end.value + 2;
    } else {
      OtherStands(scanner, line, i);
      OtherFirst(scanner, line, i);
      next := scanner.statementEnd(line, i);
      first := Other(line[i..next]);
    }
  }

  lemma OneStands(scanner: Scanner, line: string, i: nat, a: Item, b: Item)
    requires i < |line| && Stands(scanner, line, i, a) && Stands(scanner, line, i, b)
    ensures a == b
  {
    if a.Push? && b.Push? {
      var x, y := Opening() + a.args + ");", Opening() + b.args + ");";
      assert |a.args| == |b.args| && x == y;
      assert a.args == x[|Opening()|..|Opening()| + |a.args|] && b.args == y[|Opening()|..|Opening()| + |b.args|];
    }
    hide IsSpace, Opening;
  }

  // ----- what runs become -----

  function PushedArgs(run: seq<Item>): seq<string> {
    if run == [] then [] else if run[0].Push? then [run[0].args] + PushedArgs(run[1..]) else PushedArgs(run[1..])
  }

  /** The white space before the first push of a run. */
  function Leading(run: seq<Item>): string {
    if run == [] || !run[0].Gap? then [] else run[0].text + Leading(run[1..])
  }

  /** The white space after the last push of a run. */
  function Trailing(run: seq<Item>): string {
    if run == [] || !run[|run| - 1].Gap? then [] else Trailing(run[..|run| - 1]) + run[|run| - 1].text
  }

  function Listed(args: seq<string>): string {
    if args == [] then [] else if |args| == 1 then args[0] else args[0] + ", " + Listed(args[1..])
  }

  function PushOf(args: seq<string>): string { Opening() + Listed(args) + ");" }

  /** A run of pushes is one push of all their arguments, with the white space around it and none between. */
  function OnePush(run: seq<Item>): string {
    if PushedArgs(run) == [] then Leading(run)
    else Leading(run) + PushOf(PushedArgs(run)) + Trailing(run)
  }

  /** The statements as they stand, and every run between them as one push; `run` is what stands before `items` since
      the last statement. */
  function MergedLine(items: seq<Item>, run: seq<Item>): string
    decreases items
  {
    if items == [] then OnePush(run)
    else if items[0].Other? then OnePush(run) + items[0].text + MergedLine(items[1..], [])
    else MergedLine(items[1..], run + [items[0]])
  }

  lemma {:induction false} JoinIsListed(args: seq<string>)
    ensures JoinArgs(args) == Listed(args)
  {
    if |args| > 1 {
      var front := args[..|args| - 1];
      JoinIsListed(front);
      ListedMore(front, args[|args| - 1]);
      assert front + [args[|args| - 1]] == args;
    }
  }

  lemma {:induction false} ListedMore(args: seq<string>, last: string)
    requires args != []
    ensures Listed(args + [last]) == Listed(args) + ", " + last
  {
    var more := args + [last];
    if |args| == 1 {
      assert more[1..] == [last];
    } else {
      ListedMore(args[1..], last);
      assert more[1..] == args[1..] + [last];
      assert args[0] + ", " + (Listed(args[1..]) + ", " + last) == args[0] + ", " + Listed(args[1..]) + ", " + last;
    }
  }

  lemma {:induction false} PushedMore(run: seq<Item>, last: Item)
    ensures PushedArgs(run + [last]) == PushedArgs(run) + if last.Push? then [last.args] else []
  {
    if run == [] {
      assert [] + [last] == [last];
    } else {
      PushedMore(run[1..], last);
      assert (run + [last])[1..] == run[1..] + [last];
    }
  }

  lemma {:induction false} LeadingMore(run: seq<Item>, last: Item)
    requires IsRun(run)
    ensures Leading(run + [last]) == Leading(run) + if PushedArgs(run) == [] && last.Gap? then last.text else []
  {
    if run == [] {
      assert [] + [last] == [last];
    } else {
      LeadingMore(run[1..], last);
      assert (run + [last])[1..] == run[1..] + [last];
    }
  }

  /** What a run has put out before its push is due: the white space before it, once there is one. */
  function Given(run: seq<Item>): string { if PushedArgs(run) == [] then [] else Leading(run) }

  /** The white space still to come. */
  function Pending(run: seq<Item>): string { if PushedArgs(run) == [] then Leading(run) else Trailing(run) }

  lemma RunMore(run: seq<Item>, item: Item)
    requires IsRun(run) && !item.Other?
    ensures var more := run + [item];
            && IsRun(more) && PushedArgs(more) == PushedArgs(run) + (if item.Push? then [item.args] else [])
            && Pending(more) == (if item.Gap? then Pending(run) + item.text else [])
            && Given(more) == Given(run) + (if item.Push? && PushedArgs(run) == [] then Pending(run) else [])
  {
    PushedMore(run, item);
    LeadingMore(run, item);
    var more := run + [item];
    assert more[..|more| - 1] == run && more[|more| - 1] == item;
    hide PushedArgs, Leading;
  }

  lemma RunEnds(run: seq<Item>)
    ensures Given(run) + (Text(Flush(PushedArgs(run))) + Pending(run)) == OnePush(run)
  {
    FlushText(PushedArgs(run));
    hide PushedArgs, Leading, Trailing, Text, Flush, PushOf;
    Associates(Leading(run), PushOf(PushedArgs(run)), Trailing(run));
    Associates([], [], Leading(run));
  }

  lemma Associates(a: string, b: string, c: string)
    ensures a + (b + c) == a + b + c && [] + c == c
  {
  }

  lemma FlushText(pending: seq<string>)
    ensures Text(Flush(pending)) == if pending == [] then [] else PushOf(pending)
  {
    hide Listed, JoinArgs, Opening, PushCode;
    OpeningIs();
    JoinIsListed(pending);
    if pending != [] { FirstItem(Push(JoinArgs(pending)), []); }
  }

  lemma NoRun()
    ensures IsRun([]) && Given([]) == [] && Pending([]) == [] && PushedArgs([]) == []
  {
  }

  lemma MergeStep(items: seq<Item>, pending: seq<string>, gap: string)
    requires items != []
    ensures var all, rest, item := Merge(items, pending, gap), items[1..], items[0];
            && (item.Gap? ==> all == Merge(rest, pending, gap + item.text))
            && (item.Push? ==>
                all == (if pending == [] then [Gap(gap)] else []) + Merge(rest, pending + [item.args], []))
            && (item.Other? ==> all == Flush(pending) + [Gap(gap), item] + Merge(rest, [], []))
  {
    hide Flush;
    if items[0].Push? {
      assert pending == [] ==> [] + [items[0].args] == [items[0].args];
      assert pending != [] ==> [] + Merge(items[1..], pending + [items[0].args], []) ==
                               Merge(items[1..], pending + [items[0].args], []);
    }
  }

  lemma RunGoesOn(items: seq<Item>, run: seq<Item>)
    requires IsRun(run) && items != [] && !items[0].Other?
    ensures var more := run + [items[0]];
            Given(run) + Text(Merge(items, PushedArgs(run), Pending(run))) ==
            Given(more) + Text(Merge(items[1..], PushedArgs(more), Pending(more)))
  {
    hide *;
    var more, gap := run + [items[0]], Pending(run);
    RunMore(run, items[0]);
    MergeStep(items, PushedArgs(run), gap);
    var rest := Merge(items[1..], PushedArgs(more), Pending(more));
    if items[0].Push? && PushedArgs(run) == [] {
      FirstItem(Gap(gap), rest);
      GapText(gap);
      assert Given(run) + (gap + Text(rest)) == Given(run) + gap + Text(rest);
    } else {
      assert Given(run) + [] == Given(run) && PushedArgs(run) + [] == PushedArgs(run) && [] + rest == rest;
    }
  }

  lemma RunIsOver(items: seq<Item>, run: seq<Item>)
    requires items != [] && items[0].Other?
    ensures Given(run) + Text(Merge(items, PushedArgs(run), Pending(run))) ==
            OnePush(run) + items[0].text + Text(Merge(items[1..], [], []))
  {
    hide *;
    var pending, gap := PushedArgs(run), Pending(run);
    RunEnds(run);
    MergeStep(items, pending, gap);
    RunText(pending, gap, items[0], Merge(items[1..], [], []), Given(run));
    OtherItem(items[0]);
    assert Given(run) + Text(Flush(pending)) + gap == Given(run) + (Text(Flush(pending)) + gap);
  }

  lemma {:induction false} MergesRuns(items: seq<Item>, run: seq<Item>)
    requires IsRun(run)
    ensures Given(run) + Text(Merge(items, PushedArgs(run), Pending(run))) == MergedLine(items, run)
    decreases items
  {
    hide Text, OnePush, Given, Pending, PushedArgs, Flush, ItemText, IsRun;
    if items == [] {
      RunEnds(run);
      EndText(PushedArgs(run), Pending(run));
    } else if items[0].Other? {
      RunIsOver(items, run);
      NoRun();
      MergesRuns(items[1..], []);
      assert [] + Text(Merge(items[1..], [], [])) == Text(Merge(items[1..], [], []));
    } else {
      RunGoesOn(items, run);
      RunMore(run, items[0]);
      MergesRuns(items[1..], run + [items[0]]);
    }
  }

  lemma OtherItem(other: Item)
    requires other.Other?
    ensures ItemText(other) == other.text
  {
  }

  lemma EndText(pending: seq<string>, gap: string)
    ensures Text(Flush(pending) + [Gap(gap)]) == Text(Flush(pending)) + gap
  {
    TextConcat(Flush(pending), [Gap(gap)]);
    FirstItem(Gap(gap), []);
    assert [Gap(gap)] + [] == [Gap(gap)] && gap + [] == gap;
  }

  /** What a line is merged to: every statement as it stands, and in between exactly one push of the arguments of all
      the pushes there. */
  lemma MergedTextIs(scanner: Scanner, line: string, items: seq<Item>)
    requires Sane(scanner, line) && Laid(scanner, line, 0, items)
    ensures Text(Merge(Items(scanner, line, 0), [], [])) == MergedLine(items, [])
  {
    ItemsExactly(scanner, line, 0, items);
    NoRun();
    MergesRuns(items, []);
    hide *;
  }
}

/** Merging the pushes of one generated line (merge_output_pushes of packages/parser/src/codegen.ts): the text it
    gives.  The JavaScript scanner's two answers - where a bracket closes, where a statement ends - are
    parameters. */
module PushMerging {
  import opened Options
  import opened WhiteSpace

  /** The start of a push. */
  function PushCode(): (code: string)
    ensures |code| > 0
  {
    "_output.p("
  }

  /** `find_matching_bracket` and `find_statement_end` on one line: the closing bracket's index, None when there is
      none; the index just after the statement. */
  datatype Scanner = Scanner(matching: (string, nat) -> Option<nat>, statementEnd: (string, nat) -> nat)

  /** What is assumed of them: answers lie on the line, beyond the place asked about, and a parenthesis is
      matched by a parenthesis. */
  ghost predicate Sane(scanner: Scanner, line: string) {
    && (forall i: nat :: i < |line| && scanner.matching(line, i).Some? ==>
        i < scanner.matching(line, i).value < |line| &&
            (line[i] == '(' ==> line[scanner.matching(line, i).value] == ')'))
    && (forall i: nat :: i < |line| ==> i < scanner.statementEnd(line, i) <= |line|)
  }

  /** What a line is made of: white space between statements, complete pushes, and anything else. */
  datatype Item = Gap(text: string) | Push(args: string) | Other(text: string)

  function ItemText(item: Item): string {
    match item
    case Gap(text) => text
    case Push(args) => PushCode() + args + ");"
    case Other(text) => text
  }

  function Text(items: seq<Item>): string { if items == [] then [] else ItemText(items[0]) + Text(items[1..]) }

  predicate StartsWith(line: string, i: nat, prefix: string) {
    i + |prefix| <= |line| && line[i..i + |prefix|] == prefix
  }

  /** Where the arguments of the push at `i` end, if a complete `_output.p(...);` stands there. */
  function PushEnd(scanner: Scanner, line: string, i: nat): Option<nat> {
    if !StartsWith(line, i, PushCode()) then None
    else
      var end := scanner.matching(line, i + |PushCode()| - 1);
      if end.Some? && end.value + 1 < |line| && line[end.value + 1] == ';' then end else None
  }

  /** The items of the line from `i` on. */
  ghost function Items(scanner: Scanner, line: string, i: nat): seq<Item>
    requires Sane(scanner, line) && i <= |line|
    decreases |line| - i
  {
    if i == |line| then []
    else if IsSpace(line[i]) then [Gap([line[i]])] + Items(scanner, line, i + 1)
    else
      var end := PushEnd(scanner, line, i);
      if end.Some? then [Push(line[i + |PushCode()|..end.value])] + Items(scanner, line, end.value + 2)
      else [Other(line[i..scanner.statementEnd(line, i)])] + Items(scanner, line, scanner.statementEnd(line, i))
  }

  function JoinArgs(args: seq<string>): string {
    if args == [] then [] else if |args| == 1 then args[0] else JoinArgs(args[..|args| - 1]) + ", " + args[|args| - 1]
  }

  function Flush(pending: seq<string>): seq<Item> { if pending == [] then [] else [Push(JoinArgs(pending))] }

  /** The merged line: `pending` holds the arguments of the run so far, `gap` the white space since the last
      statement. */
  function Merge(items: seq<Item>, pending: seq<string>, gap: string): seq<Item> {
    if items == [] then Flush(pending) + [Gap(gap)]
    else
      match items[0]
      case Gap(text) => Merge(items[1..], pending, gap + text)
      case Push(args) =>
        if pending == [] then [Gap(gap)] + Merge(items[1..], [args], []) else Merge(items[1..], pending + [args], [])
      case Other(text) => Flush(pending) + [Gap(gap), items[0]] + Merge(items[1..], [], [])
  }

  lemma {:induction false} TextConcat(a: seq<Item>, b: seq<Item>)
    ensures Text(a + b) == Text(a) + Text(b)
  {
    if a == [] {
      assert a + b == b;
    } else {
      assert (a + b)[1..] == a[1..] + b;
      TextConcat(a[1..], b);
    }
  }

  /** The items are the line. */
  lemma {:induction false} ItemsAreTheLine(scanner: Scanner, line: string, i: nat)
    requires Sane(scanner, line) && i <= |line|
    ensures Text(Items(scanner, line, i)) == line[i..]
    decreases |line| - i
  {
    if i < |line| {
      var item, next := FirstOfLine(scanner, line, i);
      hide PushEnd, Sane, ItemText, Text;
      ItemsAreTheLine(scanner, line, next);
      FirstItem(item, Items(scanner, line, next));
    } else {
      NothingLeft(scanner, line);
      assert line[i..] == [];
    }
  }

  lemma NothingLeft(scanner: Scanner, line: string)
    requires Sane(scanner, line)
    ensures Text(Items(scanner, line, |line|)) == []
  {
  }

  /** `item` is the first item from `i` on, and the next one begins at `next`. */
  ghost predicate FirstIs(scanner: Scanner, line: string, i: nat, item: Item, next: nat)
    requires Sane(scanner, line) && i <= |line|
  {
    && i < next <= |line|
    && Items(scanner, line, i) == [item] + Items(scanner, line, next)
    && line[i..] == ItemText(item) + line[next..]
  }

  lemma GapFirst(scanner: Scanner, line: string, i: nat)
    requires Sane(scanner, line) && i < |line| && IsSpace(line[i])
    ensures FirstIs(scanner, line, i, Gap([line[i]]), i + 1)
  {
    SliceSplit(line, i, i + 1);
    hide PushEnd;
  }

  lemma PushFirst(scanner: Scanner, line: string, i: nat)
    requires Sane(scanner, line) && i < |line| && !IsSpace(line[i]) && PushEnd(scanner, line, i).Some?
    ensures var end := PushEnd(scanner, line, i).value;
            i + |PushCode()| <= end && end + 2 <= |line| &&
                FirstIs(scanner, line, i, Push(line[i + |PushCode()|..end]), end + 2)
  {
    PushOnLine(scanner, line, i);
    PushItems(scanner, line, i);
    hide PushEnd, IsSpace, ItemText, Items, Sane, PushCode;
  }

  lemma PushItems(scanner: Scanner, line: string, i: nat)
    requires Sane(scanner, line) && i < |line| && !IsSpace(line[i]) && PushEnd(scanner, line, i).Some?
    requires var end := PushEnd(scanner, line, i).value; i + |PushCode()| <= end && end + 2 <= |line|
    ensures var end := PushEnd(scanner, line, i).value;
            Items(scanner, line, i) == [Push(line[i + |PushCode()|..end])] + Items(scanner, line, end + 2)
  {
    hide PushEnd, IsSpace, PushCode;
  }

  lemma OtherFirst(scanner: Scanner, line: string, i: nat)
    requires Sane(scanner, line) && i < |line| && !IsSpace(line[i]) && PushEnd(scanner, line, i).None?
    ensures var stop := scanner.statementEnd(line, i);
            i < stop <= |line| && FirstIs(scanner, line, i, Other(line[i..stop]), stop)
  {
    StatementOnLine(scanner, line, i);
    SliceSplit(line, i, scanner.statementEnd(line, i));
    hide PushEnd, IsSpace;
  }

  lemma FirstOfLine(scanner: Scanner, line: string, i: nat) returns (item: Item, next: nat)
    requires Sane(scanner, line) && i < |line|
    ensures FirstIs(scanner, line, i, item, next)
  {
    hide FirstIs, PushEnd, IsSpace;
    var end := PushEnd(scanner, line, i);
    if IsSpace(line[i]) {
      GapFirst(scanner, line, i);
      item, next := Gap([line[i]]), i + 1;
    } else if end.Some? {
      PushFirst(scanner, line, i);
      item, next := Push(line[i + |PushCode()|..end.value]), end.value + 2;
    } else {
      OtherFirst(scanner, line, i);
      next := scanner.statementEnd(line, i);
      item := Other(line[i..next]);
    }
  }

  lemma SliceSplit(line: string, i: nat, j: nat)
    requires i <= j <= |line|
    ensures line[i..] == line[i..j] + line[j..]
    ensures j == i + 1 ==> line[i..j] == [line[i]]
  {
  }

  lemma StatementOnLine(scanner: Scanner, line: string, i: nat)
    requires Sane(scanner, line) && i < |line|
    ensures i < scanner.statementEnd(line, i) <= |line|
  {
  }

  lemma FirstItem(item: Item, items: seq<Item>)
    ensures Text([item] + items) == ItemText(item) + Text(items)
  {
    assert ([item] + items)[1..] == items;
  }

  lemma PushOnLine(scanner: Scanner, line: string, i: nat)
    requires Sane(scanner, line) && i < |line| && PushEnd(scanner, line, i).Some?
    ensures var end := PushEnd(scanner, line, i).value;
            && i + |PushCode()| <= end && end + 2 <= |line|
            && line[i..] == ItemText(Push(line[i + |PushCode()|..end])) + line[end + 2..]
  {
    var end, open := PushEnd(scanner, line, i).value, i + |PushCode()| - 1;
    assert line[i..i + |PushCode()|][|PushCode()| - 1] == '(';
    assert line[open] == '(';
    hide *;
    assert line[i..] == line[i..i + |PushCode()|] + line[i + |PushCode()|..end] + line[end..end + 2] + line[end + 2..];
    assert line[end..end + 2] == [line[end], line[end + 1]] == ");";
    PushText(line[i + |PushCode()|..end]);
  }

  lemma PushText(args: string)
    ensures ItemText(Push(args)) == PushCode() + args + ");"
  {
  }

  lemma SameText(item: Item, items: seq<Item>, result: string)
    ensures result + Text([item] + items) == result + ItemText(item) + Text(items)
  {
    FirstItem(item, items);
  }

  lemma SpaceStep(scanner: Scanner, line: string, i: nat, pending: seq<string>, gap: string)
    requires Sane(scanner, line) && i < |line| && IsSpace(line[i])
    ensures Merge(Items(scanner, line, i), pending, gap) == Merge(Items(scanner, line, i + 1), pending, gap + [line[i]])
  {
    hide Sane;
    assert ([Gap([line[i]])] + Items(scanner, line, i + 1))[1..] == Items(scanner, line, i + 1);
  }

  lemma PushStep(scanner: Scanner, line: string, i: nat, pending: seq<string>, gap: string, result: string)
    requires Sane(scanner, line) && i < |line| && !IsSpace(line[i]) && PushEnd(scanner, line, i).Some?
    ensures var end := PushEnd(scanner, line, i).value;
            && i + |PushCode()| <= end && end + 2 <= |line|
            && result + Text(Merge(Items(scanner, line, i), pending, gap)) ==
               result + (if pending == [] then gap else [])
               + Text(Merge(Items(scanner, line, end + 2), pending + [line[i + |PushCode()|..end]], []))
  {
    PushOnLine(scanner, line, i);
    PushMerges(scanner, line, i, pending, gap);
    hide *;
    var end := PushEnd(scanner, line, i).value;
    var tail := Merge(Items(scanner, line, end + 2), pending + [line[i + |PushCode()|..end]], []);
    if pending == [] { SameText(Gap(gap), tail, result); GapText(gap); } else { assert result + [] == result; }
  }

  lemma GapText(gap: string)
    ensures ItemText(Gap(gap)) == gap
  {
  }

  lemma PushMerges(scanner: Scanner, line: string, i: nat, pending: seq<string>, gap: string)
    requires Sane(scanner, line) && i < |line| && !IsSpace(line[i]) && PushEnd(scanner, line, i).Some?
    requires var end := PushEnd(scanner, line, i).value; i + |PushCode()| <= end && end + 2 <= |line|
    ensures var end := PushEnd(scanner, line, i).value;
            var tail := Merge(Items(scanner, line, end + 2), pending + [line[i + |PushCode()|..end]], []);
            Merge(Items(scanner, line, i), pending, gap) == if pending == [] then [Gap(gap)] + tail else tail
  {
    hide Sane, PushEnd;
    var end := PushEnd(scanner, line, i).value;
    var args, rest := line[i + |PushCode()|..end], Items(scanner, line, end + 2);
    assert ([Push(args)] + rest)[1..] == rest;
    assert [] + [args] == [args];
  }

  lemma OtherStep(scanner: Scanner, line: string, i: nat, pending: seq<string>, gap: string, result: string)
    requires Sane(scanner, line) && i < |line| && !IsSpace(line[i]) && PushEnd(scanner, line, i).None?
    ensures var stop := scanner.statementEnd(line, i);
            && i < stop <= |line|
            && result + Text(Merge(Items(scanner, line, i), pending, gap)) ==
               result + Text(Flush(pending)) + gap + line[i..stop] + Text(Merge(Items(scanner, line, stop), [], []))
  {
    var stop := scanner.statementEnd(line, i);
    assert i < stop <= |line|;
    hide Sane, PushEnd;
    var other, rest := Other(line[i..stop]), Items(scanner, line, stop);
    assert ([other] + rest)[1..] == rest;
    RunText(pending, gap, other, Merge(rest, [], []), result);
  }

  lemma RunText(pending: seq<string>, gap: string, other: Item, tail: seq<Item>, result: string)
    ensures result + Text(Flush(pending) + [Gap(gap), other] + tail) ==
            result + Text(Flush(pending)) + gap + ItemText(other) + Text(tail)
  {
    hide Flush, Text;
    TextConcat(Flush(pending) + [Gap(gap), other], tail);
    TextConcat(Flush(pending), [Gap(gap), other]);
    PairText(Gap(gap), other);
  }

  lemma PairText(a: Item, b: Item)
    ensures Text([a, b]) == ItemText(a) + ItemText(b)
  {
    assert [a, b] == [a] + [b] && [b] == [b] + [];
    FirstItem(a, [b]);
    FirstItem(b, []);
  }

  // ----- the code -----

  /** `line.indexOf('_output.p(') !== -1` */
  predicate HasPush(line: string) { exists i :: 0 <= i < |line| && StartsWith(line, i, PushCode()) }

  lemma NoPushHere(scanner: Scanner, line: string, i: nat)
    requires !HasPush(line) && i < |line|
    ensures PushEnd(scanner, line, i).None?
  {
    hide PushCode;
  }

  lemma {:induction false} NothingMerges(scanner: Scanner, line: string, i: nat, gap: string)
    requires Sane(scanner, line) && i <= |line| && !HasPush(line)
    ensures Text(Merge(Items(scanner, line, i), [], gap)) == gap + line[i..]
    decreases |line| - i
  {
    hide *;
    NoFlush();
    assert [] + Text(Merge(Items(scanner, line, i), [], gap)) == Text(Merge(Items(scanner, line, i), [], gap));
    if i == |line| {
      MergeEnds(scanner, line, [], gap, []);
      assert [] + [] + gap == gap + line[i..];
    } else if IsSpace(line[i]) {
      SpaceStep(scanner, line, i, [], gap);
      NothingMerges(scanner, line, i + 1, gap + [line[i]]);
      SliceSplit(line, i, i + 1);
      assert gap + [line[i]] + line[i + 1..] == gap + ([line[i]] + line[i + 1..]);
    } else {
      NoPushHere(scanner, line, i);
      OtherStep(scanner, line, i, [], gap, []);
      var stop := scanner.statementEnd(line, i);
      NothingMerges(scanner, line, stop, []);
      SliceSplit(line, i, stop);
      assert [] + [] + gap + line[i..stop] + ([] + line[stop..]) == gap + (line[i..stop] + line[stop..]);
    }
  }

  lemma NoFlush()
    ensures Text(Flush([])) == []
  {
  }

  /** A line without that text is left alone, which is what the scan would come to. */
  lemma NothingToMerge(scanner: Scanner, line: string)
    requires Sane(scanner, line) && !HasPush(line)
    ensures Text(Merge(Items(scanner, line, 0), [], [])) == line
  {
    NothingMerges(scanner, line, 0, []);
    hide *;
  }

  /** `merge_output_pushes()`. */
  method MergeOutputPushes(scanner: Scanner, line: string) returns (result: string)
    requires Sane(scanner, line)
    ensures result == Text(Merge(Items(scanner, line, 0), [], []))
  {
    hide *;
    if !HasPush(line) {
      NothingToMerge(scanner, line);
      return line;
    }
    result := [];
    var pending: seq<string> := [];
    var gap := [];
    var i := 0;
    Start(scanner, line);
    while i < |line|
      invariant i <= |line|
      invariant Text(Merge(Items(scanner, line, 0), [], [])) ==
                result + Text(Merge(Items(scanner, line, i), pending, gap))
      decreases |line| - i
    {
      if IsSpace(line[i]) {
        SpaceStep(scanner, line, i, pending, gap);
        gap := gap + [line[i]];
        i := i + 1;
        continue;
      }
      var end := PushEnd(scanner, line, i);
      if end.Some? {
        PushStep(scanner, line, i, pending, gap, result);
        if pending == [] { result := result + gap; }
        gap := [];
        pending := pending + [line[i + |PushCode()|..end.value]];
        i := end.value + 2;
        continue;
      }
      OtherStep(scanner, line, i, pending, gap, result);
      result := result + Text(Flush(pending));
      pending := [];
      result := result + gap;
      gap := [];
      var stop := scanner.statementEnd(line, i);
      result := result + line[i..stop];
      i := stop;
    }
    MergeEnds(scanner, line, pending, gap, result);
    result := result + Text(Flush(pending));
    result := result + gap;
  }

  lemma Start(scanner: Scanner, line: string)
    requires Sane(scanner, line)
    ensures Text(Merge(Items(scanner, line, 0), [], [])) == [] + Text(Merge(Items(scanner, line, 0), [], []))
  {
  }

  lemma MergeEnds(scanner: Scanner, line: string, pending: seq<string>, gap: string, result: string)
    requires Sane(scanner, line)
    ensures result + Text(Merge(Items(scanner, line, |line|), pending, gap)) == result + Text(Flush(pending)) + gap
  {
    TextConcat(Flush(pending), [Gap(gap)]);
    FirstItem(Gap(gap), []);
    assert [Gap(gap)] + [] == [Gap(gap)] && gap + [] == gap;
  }
}

/** Whether a line still parses after its pushes are merged: exactly which lines do. */
module PushParsing {
  import opened PushMerging
  import PushTheorems

  /** Which texts may stand between the brackets of a call - none at all may, and a list may end in a comma -, and which
      are lists of arguments that do not: after a list and a comma comes what may stand there, after nothing or another
      comma none may. */
  ghost predicate Grammar(callable: string -> bool, list: string -> bool) {
    && callable([]) && !list([])
    && (forall a, rest :: callable(a) ==> (callable(a + ", " + rest) <==> list(a) && callable(rest)))
  }

  lemma {:induction false} JoinLeft(args: seq<string>)
    requires |args| > 1
    ensures JoinArgs(args) == args[0] + ", " + JoinArgs(args[1..])
    decreases |args|
  {
    var front, last := args[..|args| - 1], args[|args| - 1];
    if |args| == 2 {
      assert front == [args[0]] && args[1..] == [last];
    } else {
      JoinLeft(front);
      assert front[1..] == args[1..][..|args| - 2] && args[1..][|args| - 2] == last && front[0] == args[0];
      var middle := JoinArgs(front[1..]);
      assert args[0] + ", " + middle + ", " + last == args[0] + ", " + (middle + ", " + last);
    }
  }

  predicate ListsButLast(list: string -> bool, args: seq<string>) { forall i :: 0 <= i < |args| - 1 ==> list(args[i]) }

  predicate AllCallable(callable: string -> bool, args: seq<string>) {
    forall i :: 0 <= i < |args| ==> callable(args[i])
  }

  /** One run: merged, the call parses exactly if every push but the last has a list. */
  lemma {:induction false} RunParses(callable: string -> bool, list: string -> bool, args: seq<string>)
    requires Grammar(callable, list) && args != [] && AllCallable(callable, args)
    ensures callable(JoinArgs(args)) <==> ListsButLast(list, args)
    decreases |args|
  {
    if |args| > 1 {
      JoinLeft(args);
      RunParses(callable, list, args[1..]);
      assert callable(args[0]);
      assert ListsButLast(list, args) <==> list(args[0]) && ListsButLast(list, args[1..]) by {
        forall i | 0 < i < |args| - 1 ensures args[i] == args[1..][i - 1] {}
      }
    }
  }

  /** Every push of the line is a call that parses. */
  predicate Parses(callable: string -> bool, items: seq<Item>) {
    forall i :: 0 <= i < |items| && items[i].Push? ==> callable(items[i].args)
  }

  predicate PushNext(items: seq<Item>) {
    items != [] && (items[0].Push? || (items[0].Gap? && PushNext(items[1..])))
  }

  /** Every push with another right after it has a list: it is not empty, and does not end in a comma. */
  predicate Proper(list: string -> bool, items: seq<Item>) {
    items == [] || ((items[0].Push? && PushNext(items[1..]) ==> list(items[0].args)) && Proper(list, items[1..]))
  }

  lemma ParsesConcat(callable: string -> bool, a: seq<Item>, b: seq<Item>)
    ensures Parses(callable, a + b) <==> Parses(callable, a) && Parses(callable, b)
  {
    forall i | 0 <= i < |b| ensures (a + b)[|a| + i] == b[i] {}
    forall i | 0 <= i < |a| ensures (a + b)[i] == a[i] {}
  }

  lemma FlushParses(callable: string -> bool, list: string -> bool, pending: seq<string>, rest: seq<Item>)
    requires Grammar(callable, list) && AllCallable(callable, pending)
    requires forall i :: 0 <= i < |rest| ==> !rest[i].Push?
    ensures Parses(callable, Flush(pending) + rest) <==> ListsButLast(list, pending)
  {
    ParsesConcat(callable, Flush(pending), rest);
    if pending != [] {
      RunParses(callable, list, pending);
      hide Grammar;
      assert Flush(pending)[0] == Push(JoinArgs(pending));
    }
  }

  lemma {:induction false} MergedParses(callable: string -> bool, list: string -> bool, items: seq<Item>,
                                        pending: seq<string>, gap: string)
    requires Grammar(callable, list) && Parses(callable, items) && AllCallable(callable, pending)
    ensures Parses(callable, Merge(items, pending, gap)) <==>
            ListsButLast(list, pending) && (pending != [] && PushNext(items) ==> list(pending[|pending| - 1]))
            && Proper(list, items)
    decreases items
  {
    hide Grammar, JoinArgs;
    if items == [] {
      FlushParses(callable, list, pending, [Gap(gap)]);
    } else {
      ParsesConcat(callable, [items[0]], items[1..]);
      assert [items[0]] + items[1..] == items;
      match items[0]
      case Gap(text) => MergedParses(callable, list, items[1..], pending, gap + text);
      case Push(args) =>
        assert items[0].Push? && callable(args);
        MergedParses(callable, list, items[1..], pending + [args], []);
        assert [] + [args] == [args];
        ParsesConcat(callable, [Gap(gap)], Merge(items[1..], pending + [args], []));
        ListsMore(list, pending, args);
      case Other(text) =>
        MergedParses(callable, list, items[1..], [], []);
        FlushParses(callable, list, pending, [Gap(gap), items[0]]);
        ParsesConcat(callable, Flush(pending) + [Gap(gap), items[0]], Merge(items[1..], [], []));
    }
  }

  lemma ListsMore(list: string -> bool, pending: seq<string>, args: string)
    ensures ListsButLast(list, pending + [args]) <==>
            ListsButLast(list, pending) && (pending != [] ==> list(pending[|pending| - 1]))
  {
    forall i | 0 <= i < |pending| ensures (pending + [args])[i] == pending[i] {}
    if ListsButLast(list, pending + [args]) && pending != [] {
      assert list((pending + [args])[|pending| - 1]);
      forall i | 0 <= i < |pending| - 1 ensures list(pending[i]) { assert list((pending + [args])[i]); }
    }
  }

  /** A line all of whose pushes parse: after merging they all do exactly if every push with another right after it has
      a list of arguments that does not end in a comma. */
  lemma {:induction false} LineParsesExactly(callable: string -> bool, list: string -> bool, items: seq<Item>)
    requires Grammar(callable, list) && Parses(callable, items)
    ensures Parses(callable, Merge(items, [], [])) <==> Proper(list, items)
  {
    hide Grammar;
    MergedParses(callable, list, items, [], []);
  }

  /** `_output.p();_output.p("b");`, whose first push an author wrote, becomes `_output.p(, "b");`. */
  lemma EmptyPushBreaks(callable: string -> bool, list: string -> bool)
    requires Grammar(callable, list) && callable("\"b\"")
    ensures var line := [Push([]), Push("\"b\"")];
            && Parses(callable, line) && !Parses(callable, Merge(line, [], []))
            && Text(Merge(line, [], [])) == "_output.p(, \"b\");"
  {
    var line := [Push([]), Push("\"b\"")];
    LineParsesExactly(callable, list, line);
    assert PushNext(line[1..]);
    hide Grammar;
    EmptyPushText();
  }

  lemma EmptyPushText()
    ensures Text(Merge([Push([]), Push("\"b\"")], [], [])) == "_output.p(, \"b\");"
  {
    PushTheorems.MergedTwo([], "\"b\"");
    hide Merge, Text;
    var push := Push([] + ", " + "\"b\"");
    FirstItem(Gap([]), [push, Gap([])]);
    assert [Gap([])] + [push, Gap([])] == [Gap([]), push, Gap([])];
    PairText(push, Gap([]));
  }

  predicate Filled(pieces: seq<string>, n: int) { forall i :: 0 <= i < n && i < |pieces| ==> pieces[i] != [] }

  predicate CallPieces(s: string) { Filled(PushTheorems.Pieces(s), |PushTheorems.Pieces(s)| - 1) }

  predicate ListPieces(s: string) { Filled(PushTheorems.Pieces(s), |PushTheorems.Pieces(s)|) }

  /** Such grammars exist: lists whose parts, cut at their commas, are not empty. */
  lemma SomeGrammar()
    ensures Grammar(CallPieces, ListPieces)
  {
    assert CallPieces([]) && !ListPieces([]) by {
      PushTheorems.OnePiece([]);
      OneEmpty();
    }
    forall a, rest | CallPieces(a) ensures CallPieces(a + ", " + rest) <==> ListPieces(a) && CallPieces(rest) {
      PiecesGrammar(a, rest);
    }
    hide CallPieces, ListPieces;
  }

  lemma PiecesGrammar(a: string, rest: string)
    ensures CallPieces(a + ", " + rest) <==> ListPieces(a) && CallPieces(rest)
  {
    PushTheorems.PiecesJoin(a, rest);
    hide PushTheorems.Pieces, Filled;
    FilledJoin(PushTheorems.Pieces(a), PushTheorems.Pieces(rest));
  }

  lemma OneEmpty()
    ensures Filled([[]], 0) && !Filled([[]], 1)
  {
    var pieces: seq<string> := [[]];
    assert pieces[0] == [];
  }

  lemma FilledJoin(x: seq<string>, y: seq<string>)
    requires y != []
    ensures Filled(x + y, |x + y| - 1) <==> Filled(x, |x|) && Filled(y, |y| - 1)
  {
    forall i | 0 <= i < |x| ensures (x + y)[i] == x[i] {}
    forall i | 0 <= i < |y| ensures (x + y)[|x| + i] == y[i] {}
  }
}

/** What `!important` is in a value, and what it does when two declarations meet. */
module StyleImportant {
  import opened Options
  import opened WhiteSpace
  import opened StyleMerge
  import opened StyleMergeText

  // ----- which values are important -----

  predicate AllSpace(s: string) { forall i :: 0 <= i < |s| ==> IsSpace(s[i]) }

  /** The word "important", each letter in either case. */
  predicate SaysImportant(word: string) {
    |word| == 9 && forall i :: 0 <= i < 9 ==> word[i] == "important"[i] || word[i] == "IMPORTANT"[i]
  }

  predicate Cut(value: string, front: string, gap: string, word: string) {
    value == front + "!" + gap + word && AllSpace(gap) && SaysImportant(word)
  }

  lemma SameIsSays(word: string)
    ensures SameAscii(word, "important") <==> SaysImportant(word)
  {
    if |word| == 9 {
      forall i | 0 <= i < 9
        ensures LowerAscii(word[i]) == "important"[i] <==> word[i] == "important"[i] || word[i] == "IMPORTANT"[i]
      {
        assert "IMPORTANT"[i] == "important"[i] - 'a' + 'A' && 'a' <= "important"[i] <= 'z';
      }
    }
  }

  lemma {:induction false} TrimEndCuts(s: string)
    ensures |TrimEnd(s)| <= |s| && s[..|TrimEnd(s)|] == TrimEnd(s) && AllSpace(s[|TrimEnd(s)|..])
    decreases |s|
  {
    hide IsSpace;
    if s != [] && IsSpace(s[|s| - 1]) { TrimEndCuts(s[..|s| - 1]); }
  }

  lemma {:induction false} TrimEndOf(core: string, gap: string)
    requires AllSpace(gap) && core != [] && !IsSpace(core[|core| - 1])
    ensures TrimEnd(core + gap) == core
    decreases |gap|
  {
    hide IsSpace;
    if gap == [] {
      assert core + gap == core;
    } else {
      assert (core + gap)[..|core + gap| - 1] == core + gap[..|gap| - 1];
      TrimEndOf(core, gap[..|gap| - 1]);
    }
  }

  /** A value is important exactly if it ends in "!", white space if any, and "important" in whatever case. */
  lemma IsImportantExactly(value: string)
    ensures IsImportant(value) <==> exists front, gap, word :: Cut(value, front, gap, word)
  {
    hide TrimEnd, SaysImportant, SameAscii, IsSpace;
    if IsImportant(value) {
      var head, word := value[..|value| - 9], value[|value| - 9..];
      var kept := TrimEnd(head);
      SameIsSays(word);
      TrimEndCuts(head);
      assert kept == kept[..|kept| - 1] + "!";
      assert value == kept[..|kept| - 1] + "!" + head[|kept|..] + word;
      assert Cut(value, kept[..|kept| - 1], head[|kept|..], word);
    }
    if front, gap, word :| Cut(value, front, gap, word) { CutIsImportant(value, front, gap, word); }
  }

  lemma CutIsImportant(value: string, front: string, gap: string, word: string)
    requires Cut(value, front, gap, word)
    ensures IsImportant(value)
  {
    hide TrimEnd, SameAscii;
    SameIsSays(word);
    NotSpace();
    TrimEndOf(front + "!", gap);
    assert value == (front + "!" + gap) + word;
    assert value[..|value| - 9] == front + "!" + gap && value[|value| - 9..] == word;
  }

  lemma NotSpace()
    ensures !IsSpace('!')
  {
  }

  // ----- two declarations meet -----

  ghost predicate EndsImportant(value: string) { exists front, gap, word :: Cut(value, front, gap, word) }

  /** Names beginning with "--" are compared as written, others folded. */
  predicate SameProperty(a: string, b: string, lower: string -> string) {
    if "--" <= a || "--" <= b then a == b else lower(a) == lower(b)
  }

  /** Folding makes no name begin with "--". */
  predicate FoldsPlainly(name: string, lower: string -> string) { "--" <= lower(name) ==> "--" <= name }

  lemma SameIsKey(a: string, b: string, lower: string -> string)
    requires FoldsPlainly(a, lower) && FoldsPlainly(b, lower)
    ensures PropertyKey(a, lower) == PropertyKey(b, lower) <==> SameProperty(a, b, lower)
  {
  }

  /** What is left of `loser` and `winner`, as text: both if they are of different properties, the loser first; else the
      winner, unless the loser alone ends in `!important`. */
  ghost function Meets(loser: Declaration, winner: Declaration, lower: string -> string): string {
    var lost, won := loser.name + ": " + loser.value, winner.name + ": " + winner.value;
    if !SameProperty(loser.name, winner.name, lower) then lost + "; " + won
    else if EndsImportant(loser.value) && !EndsImportant(winner.value) then lost
    else won
  }

  lemma ParseOne(d: Declaration)
    requires Nice(d)
    ensures Parse(PrintOne(d)) == [d]
  {
    hide Nice, Parse, PrintOne;
    PrintThenParse([d]);
  }

  lemma ResolveTwo(d: Declaration, e: Declaration, lower: string -> string)
    ensures Resolve([d] + [e], lower) ==
            if PropertyKey(d.name, lower) != PropertyKey(e.name, lower) then [d, e]
            else if IsImportant(d.value) && !IsImportant(e.value) then [d] else [e]
  {
    hide IsImportant, PropertyKey;
    assert ([d] + [e])[..1] == [d] && [d][..0] == [];
    assert Resolve([d], lower) == Enter([], d, lower) == [d];
    var i := IndexOf([d], PropertyKey(e.name, lower), lower);
    assert [d][1..] == [];
    assert [d][..0] + [d][1..] + [e] == [e];
    assert [d] + [e] == [d, e];
  }

  lemma PrintTwo(d: Declaration, e: Declaration)
    ensures Print([d]) == d.name + ": " + d.value
    ensures Print([d, e]) == d.name + ": " + d.value + "; " + (e.name + ": " + e.value)
  {
    assert PrintOne(d) == d.name + ": " + d.value && PrintOne(e) == e.name + ": " + e.value;
    hide PrintOne;
    assert [d, e][1..] == [e];
  }

  lemma MergedIs(base: string, extra: string, lower: string -> string)
    ensures Merged(base, extra, true, lower) == Print(Resolve(Parse(base) + Parse(extra), lower))
    ensures Merged(base, extra, false, lower) == Print(Resolve(Parse(extra) + Parse(base), lower))
  {
    hide Parse, Resolve, Print;
  }

  lemma MeetsIs(loser: Declaration, winner: Declaration, lower: string -> string)
    requires FoldsPlainly(loser.name, lower) && FoldsPlainly(winner.name, lower)
    ensures Print(Resolve([loser] + [winner], lower)) == Meets(loser, winner, lower)
  {
    hide Resolve, IsImportant, PropertyKey, PrintOne, SameProperty, EndsImportant, Print, FoldsPlainly;
    ResolveTwo(loser, winner, lower);
    SameIsKey(loser.name, winner.name, lower);
    ImportantEnds(loser.value);
    ImportantEnds(winner.value);
    PrintTwo(loser, winner);
    PrintTwo(winner, loser);
  }

  lemma ImportantEnds(value: string)
    ensures IsImportant(value) <==> EndsImportant(value)
  {
    IsImportantExactly(value);
  }

  /** Two styles of one declaration each, whichever is written where. */
  lemma MergeTwo(loser: Declaration, winner: Declaration, lower: string -> string)
    requires Nice(loser) && Nice(winner) && FoldsPlainly(loser.name, lower) && FoldsPlainly(winner.name, lower)
    ensures Merged(PrintOne(loser), PrintOne(winner), true, lower) == Meets(loser, winner, lower)
    ensures Merged(PrintOne(winner), PrintOne(loser), false, lower) == Meets(loser, winner, lower)
  {
    hide *;
    ParseOne(loser);
    ParseOne(winner);
    MeetsIs(loser, winner, lower);
    MergedIs(PrintOne(loser), PrintOne(winner), lower);
    MergedIs(PrintOne(winner), PrintOne(loser), lower);
  }
}

/** The merge is the CSS cascade, and it survives being printed and parsed again: styles handed down a
    chain of templates merge to the same result in any grouping. */
module StyleMergeTheorems {
  import opened Options
  import opened StyleMerge

  // ----- the cascade, said directly -----

  predicate HasKey(ds: seq<Declaration>, key: string, lower: string -> string) {
    ds != [] && (PropertyKey(ds[0].name, lower) == key || HasKey(ds[1..], key, lower))
  }

  predicate HasImportant(ds: seq<Declaration>, key: string, lower: string -> string) {
    ds != [] &&
    ((PropertyKey(ds[0].name, lower) == key && IsImportant(ds[0].value)) || HasImportant(ds[1..], key, lower))
  }

  /** `d`, written between `before` and `after`, is the last `!important` declaration of its property, or
      the last of all when none is important. */
  predicate Wins(before: seq<Declaration>, d: Declaration, after: seq<Declaration>, lower: string -> string) {
    var key := PropertyKey(d.name, lower);
    && !HasImportant(after, key, lower)
    && (IsImportant(d.value) || (!HasKey(after, key, lower) && !HasImportant(before, key, lower)))
  }

  /** The winning declarations of `ds` between `before` and `after`, in list order. */
  function Survivors(before: seq<Declaration>, ds: seq<Declaration>, after: seq<Declaration>, lower: string -> string)
    : seq<Declaration>
    decreases ds
  {
    if ds == [] then []
    else
      var rest := Survivors(before + [ds[0]], ds[1..], after, lower);
      if Wins(before, ds[0], ds[1..] + after, lower) then [ds[0]] + rest else rest
  }

  predicate UniqueKeys(ds: seq<Declaration>, lower: string -> string) {
    ds == [] || (!HasKey(ds[1..], PropertyKey(ds[0].name, lower), lower) && UniqueKeys(ds[1..], lower))
  }

  lemma {:induction false} HasConcat(a: seq<Declaration>, b: seq<Declaration>, key: string, lower: string -> string)
    ensures HasKey(a + b, key, lower) <==> HasKey(a, key, lower) || HasKey(b, key, lower)
    ensures HasImportant(a + b, key, lower) <==> HasImportant(a, key, lower) || HasImportant(b, key, lower)
  {
    hide PropertyKey, IsImportant;
    if a == [] {
      assert a + b == b;
    } else {
      assert (a + b)[1..] == a[1..] + b;
      HasConcat(a[1..], b, key, lower);
    }
  }

  /** `last` overrides `d`. */
  predicate Beats(last: Declaration, d: Declaration, lower: string -> string) {
    PropertyKey(last.name, lower) == PropertyKey(d.name, lower) && (IsImportant(last.value) || !IsImportant(d.value))
  }

  function Without(ds: seq<Declaration>, last: Declaration, lower: string -> string): seq<Declaration> {
    if ds == [] then []
    else if Beats(last, ds[0], lower) then Without(ds[1..], last, lower)
    else [ds[0]] + Without(ds[1..], last, lower)
  }

  lemma WinsBefore(before: seq<Declaration>, d: Declaration, after: seq<Declaration>, last: Declaration,
                   lower: string -> string)
    ensures Wins(before, d, after + [last], lower) <==> Wins(before, d, after, lower) && !Beats(last, d, lower)
  {
    var key := PropertyKey(d.name, lower);
    HasConcat(after, [last], key, lower);
    assert [last][1..] == [];
    hide PropertyKey, IsImportant;
  }

  /** One more declaration at the end takes away what it overrides. */
  lemma {:induction false} SurvivorsBefore(before: seq<Declaration>, ds: seq<Declaration>, after: seq<Declaration>,
                                           last: Declaration,
                                           lower: string -> string)
    ensures Survivors(before, ds, after + [last], lower) == Without(Survivors(before, ds, after, lower), last, lower)
    decreases ds
  {
    hide Wins, Beats;
    if ds == [] {
    } else {
      WinsBefore(before, ds[0], ds[1..] + after, last, lower);
      assert ds[1..] + (after + [last]) == ds[1..] + after + [last];
      SurvivorsBefore(before + [ds[0]], ds[1..], after, last, lower);
      var rest := Survivors(before + [ds[0]], ds[1..], after, lower);
      assert ([ds[0]] + rest)[1..] == rest;
    }
  }

  lemma ConsHas(d: Declaration, ds: seq<Declaration>, key: string, lower: string -> string)
    ensures HasKey([d] + ds, key, lower) <==> PropertyKey(d.name, lower) == key || HasKey(ds, key, lower)
    ensures HasImportant([d] + ds, key, lower) <==>
            (PropertyKey(d.name, lower) == key && IsImportant(d.value)) || HasImportant(ds, key, lower)
    ensures UniqueKeys([d] + ds, lower) <==> !HasKey(ds, PropertyKey(d.name, lower), lower) && UniqueKeys(ds, lower)
  {
    assert ([d] + ds)[1..] == ds;
    hide PropertyKey, IsImportant;
  }

  lemma {:induction false} WithoutKey(ds: seq<Declaration>, last: Declaration, lower: string -> string, key: string)
    requires UniqueKeys(ds, lower)
    ensures var own := key == PropertyKey(last.name, lower);
            && (HasKey(Without(ds, last, lower), key, lower) <==>
                if own then HasImportant(ds, key, lower) && !IsImportant(last.value) else HasKey(ds, key, lower))
            && (HasImportant(Without(ds, last, lower), key, lower) <==>
                HasImportant(ds, key, lower) && (own ==> !IsImportant(last.value)))
  {
    hide PropertyKey, IsImportant;
    if ds != [] {
      WithoutKey(ds[1..], last, lower, key);
      ImportantHasKey(ds[1..], key, lower);
      ConsHas(ds[0], Without(ds[1..], last, lower), key, lower);
    }
  }

  lemma {:induction false} WithoutUnique(ds: seq<Declaration>, last: Declaration, lower: string -> string)
    requires UniqueKeys(ds, lower)
    ensures UniqueKeys(Without(ds, last, lower), lower)
  {
    hide PropertyKey, IsImportant;
    if ds != [] {
      WithoutUnique(ds[1..], last, lower);
      WithoutKey(ds[1..], last, lower, PropertyKey(ds[0].name, lower));
      ImportantHasKey(ds[1..], PropertyKey(ds[0].name, lower), lower);
      ConsHas(ds[0], Without(ds[1..], last, lower), "", lower);
    }
  }

  lemma {:induction false} ImportantHasKey(ds: seq<Declaration>, key: string, lower: string -> string)
    ensures HasImportant(ds, key, lower) ==> HasKey(ds, key, lower)
  {
    hide PropertyKey, IsImportant;
    if ds != [] { ImportantHasKey(ds[1..], key, lower); }
  }

  /** A property that is not there is overridden nowhere. */
  lemma {:induction false} WithoutAbsent(ds: seq<Declaration>, last: Declaration, lower: string -> string)
    requires !HasKey(ds, PropertyKey(last.name, lower), lower)
    ensures Without(ds, last, lower) == ds && IndexOf(ds, PropertyKey(last.name, lower), lower) == |ds|
  {
    hide PropertyKey, IsImportant;
    if ds != [] { WithoutAbsent(ds[1..], last, lower); }
  }

  /** Entering a declaration takes away what it overrides and appends it, unless an important one stands. */
  lemma {:induction false} EnterIsWithout(ds: seq<Declaration>, last: Declaration, lower: string -> string)
    requires UniqueKeys(ds, lower)
    ensures Enter(ds, last, lower) ==
            Without(ds, last, lower)
            + if !IsImportant(last.value) && HasImportant(ds, PropertyKey(last.name, lower), lower) then [] else [last]
  {
    hide PropertyKey, IsImportant, Enter;
    if ds == [] {
      EnterFirst(last, lower);
    } else if PropertyKey(ds[0].name, lower) == PropertyKey(last.name, lower) {
      WithoutAbsent(ds[1..], last, lower);
      ImportantHasKey(ds[1..], PropertyKey(last.name, lower), lower);
      EnterHead(ds, last, lower);
      assert ds == [ds[0]] + ds[1..] && ds + [] == ds;
    } else {
      EnterIsWithout(ds[1..], last, lower);
      EnterTail(ds, last, lower);
      SameImportant(ds, PropertyKey(last.name, lower), lower);
      hide HasImportant, Without;
      WithoutOther(ds, last, lower);
    }
  }

  lemma EnterFirst(d: Declaration, lower: string -> string)
    ensures Enter([], d, lower) == [d]
  {
  }

  lemma SameImportant(ds: seq<Declaration>, key: string, lower: string -> string)
    requires ds != [] && PropertyKey(ds[0].name, lower) != key
    ensures HasImportant(ds, key, lower) == HasImportant(ds[1..], key, lower)
  {
  }

  lemma WithoutOther(ds: seq<Declaration>, last: Declaration, lower: string -> string)
    requires ds != [] && PropertyKey(ds[0].name, lower) != PropertyKey(last.name, lower)
    ensures Without(ds, last, lower) == [ds[0]] + Without(ds[1..], last, lower)
  {
  }

  lemma EnterHead(ds: seq<Declaration>, last: Declaration, lower: string -> string)
    requires ds != [] && PropertyKey(ds[0].name, lower) == PropertyKey(last.name, lower)
    ensures Enter(ds, last, lower) ==
            if IsImportant(ds[0].value) && !IsImportant(last.value) then ds else ds[1..] + [last]
  {
    FirstIndex(ds, PropertyKey(last.name, lower), lower);
    hide PropertyKey, IsImportant, IndexOf;
    assert ds[..0] + ds[1..] + [last] == ds[1..] + [last];
  }

  lemma FirstIndex(ds: seq<Declaration>, key: string, lower: string -> string)
    requires ds != [] && PropertyKey(ds[0].name, lower) == key
    ensures IndexOf(ds, key, lower) == 0
  {
  }

  lemma EnterTail(ds: seq<Declaration>, last: Declaration, lower: string -> string)
    requires ds != [] && PropertyKey(ds[0].name, lower) != PropertyKey(last.name, lower)
    ensures Enter(ds, last, lower) == [ds[0]] + Enter(ds[1..], last, lower)
  {
    hide PropertyKey, IsImportant;
    var i := IndexOf(ds[1..], PropertyKey(last.name, lower), lower);
    assert ds == [ds[0]] + ds[1..];
    if i < |ds[1..]| {
      assert ds[..i + 1] + ds[i + 2..] + [last] == [ds[0]] + (ds[1..][..i] + ds[1..][i + 1..] + [last]);
    } else {
      assert ds + [last] == [ds[0]] + (ds[1..] + [last]);
    }
  }

  // ----- resolving is the cascade -----

  lemma SurvivorsConcat(before: seq<Declaration>, a: seq<Declaration>, b: seq<Declaration>, after: seq<Declaration>,
                        lower: string -> string)
    ensures Survivors(before, a + b, after, lower) ==
            Survivors(before, a, b + after, lower) + Survivors(before + a, b, after, lower)
    decreases a
  {
    hide Wins;
    if a == [] {
      assert a + b == b && before + a == before;
    } else {
      assert (a + b)[1..] == a[1..] + b && a[1..] + b + after == a[1..] + (b + after);
      assert before + [a[0]] + a[1..] == before + a;
      SurvivorsConcat(before + [a[0]], a[1..], b, after, lower);
    }
  }

  lemma SurvivorsOne(before: seq<Declaration>, d: Declaration, after: seq<Declaration>, lower: string -> string)
    ensures Survivors(before, [d], after, lower) == if Wins(before, d, after, lower) then [d] else []
  {
    hide Wins;
    assert [d][1..] == [] && [] + after == after;
  }

  /** What resolving keeps of each property. */
  lemma {:induction false} ResolveKeys(ds: seq<Declaration>, lower: string -> string, key: string)
    ensures UniqueKeys(Resolve(ds, lower), lower)
    ensures HasKey(Resolve(ds, lower), key, lower) <==> HasKey(ds, key, lower)
    ensures HasImportant(Resolve(ds, lower), key, lower) <==> HasImportant(ds, key, lower)
    decreases |ds|, 0
  {
    if ds != [] {
      var front, last := ds[..|ds| - 1], ds[|ds| - 1];
      assert ds == front + [last];
      EnterKeys(front, last, lower, key);
    }
  }

  lemma {:induction false} EnterKeys(front: seq<Declaration>, last: Declaration, lower: string -> string, key: string)
    ensures var all := Enter(Resolve(front, lower), last, lower);
            && UniqueKeys(all, lower)
            && (HasKey(all, key, lower) <==> HasKey(front + [last], key, lower))
            && (HasImportant(all, key, lower) <==> HasImportant(front + [last], key, lower))
    decreases |front|, 1
  {
    var own := PropertyKey(last.name, lower);
    hide PropertyKey, IsImportant, Enter, Without, UniqueKeys;
    var r := Resolve(front, lower);
    var kept := Without(r, last, lower);
    var added := if !IsImportant(last.value) && HasImportant(r, own, lower) then [] else [last];
    ResolveKeys(front, lower, key);
    ResolveKeys(front, lower, own);
    EnterIsWithout(r, last, lower);
    WithoutKey(r, last, lower, key);
    WithoutKey(r, last, lower, own);
    ImportantHasKey(r, own, lower);
    HasConcat(kept, added, key, lower);
    HasConcat(front, [last], key, lower);
    OneHas(last, key, lower);
    WithoutUnique(r, last, lower);
    if added == [] { assert kept + [] == kept; } else { UniqueAppended(kept, last, lower); }
  }

  lemma OneHas(d: Declaration, key: string, lower: string -> string)
    ensures HasKey([d], key, lower) <==> PropertyKey(d.name, lower) == key
    ensures HasImportant([d], key, lower) <==> PropertyKey(d.name, lower) == key && IsImportant(d.value)
    ensures !HasKey([], key, lower) && !HasImportant([], key, lower)
  {
    assert [d][1..] == [];
    hide PropertyKey, IsImportant;
  }

  lemma {:induction false} UniqueAppended(ds: seq<Declaration>, d: Declaration, lower: string -> string)
    requires UniqueKeys(ds, lower) && !HasKey(ds, PropertyKey(d.name, lower), lower)
    ensures UniqueKeys(ds + [d], lower)
  {
    hide PropertyKey;
    if ds == [] {
      OneHas(d, "", lower);
      assert [] + [d] == [d] && [d][1..] == [];
    } else {
      assert (ds + [d])[1..] == ds[1..] + [d];
      UniqueAppended(ds[1..], d, lower);
      HasConcat(ds[1..], [d], PropertyKey(ds[0].name, lower), lower);
      OneHas(d, PropertyKey(ds[0].name, lower), lower);
    }
  }

  /** Merging is the cascade: what is left is, per property, the last important declaration if there is one
      and otherwise the last, in list order. */
  lemma {:induction false} ResolveIsCascade(ds: seq<Declaration>, lower: string -> string)
    ensures Resolve(ds, lower) == Survivors([], ds, [], lower)
    decreases |ds|
  {
    hide PropertyKey, IsImportant, Enter, Without, Wins, UniqueKeys;
    if ds != [] {
      var front, last := ds[..|ds| - 1], ds[|ds| - 1];
      assert ds == front + [last];
      ResolveIsCascade(front, lower);
      ResolveKeys(front, lower, PropertyKey(last.name, lower));
      EnterIsWithout(Resolve(front, lower), last, lower);
      SurvivorsConcat([], front, [last], [], lower);
      SurvivorsBefore([], front, [], last, lower);
      SurvivorsOne(front, last, [], lower);
      LastWins(front, last, lower);
      assert [last] + [] == [last] && [] + [last] == [last] && [] + front == front;
    }
  }

  lemma LastWins(front: seq<Declaration>, last: Declaration, lower: string -> string)
    ensures Wins(front, last, [], lower) <==>
            IsImportant(last.value) || !HasImportant(front, PropertyKey(last.name, lower), lower)
  {
    OneHas(last, PropertyKey(last.name, lower), lower);
    hide PropertyKey, IsImportant;
  }

  // ----- resolving is associative -----

  lemma {:induction false} UniqueFront(ds: seq<Declaration>, d: Declaration, lower: string -> string)
    requires UniqueKeys(ds + [d], lower)
    ensures UniqueKeys(ds, lower) && !HasKey(ds, PropertyKey(d.name, lower), lower)
  {
    hide PropertyKey;
    if ds != [] {
      assert (ds + [d])[1..] == ds[1..] + [d];
      UniqueFront(ds[1..], d, lower);
      HasConcat(ds[1..], [d], PropertyKey(ds[0].name, lower), lower);
      OneHas(d, PropertyKey(ds[0].name, lower), lower);
    }
  }

  /** A list of distinct properties resolves to itself. */
  lemma {:induction false} ResolveUnique(ds: seq<Declaration>, lower: string -> string)
    requires UniqueKeys(ds, lower)
    ensures Resolve(ds, lower) == ds
    decreases |ds|
  {
    hide PropertyKey, UniqueKeys;
    if ds != [] {
      var front, last := ds[..|ds| - 1], ds[|ds| - 1];
      assert ds == front + [last];
      UniqueFront(front, last, lower);
      ResolveUnique(front, lower);
      WithoutAbsent(front, last, lower);
    }
  }

  lemma {:induction false} ResolveLeft(a: seq<Declaration>, b: seq<Declaration>, lower: string -> string)
    ensures Resolve(Resolve(a, lower) + b, lower) == Resolve(a + b, lower)
    decreases |b|
  {
    hide Enter, UniqueKeys;
    var r := Resolve(a, lower);
    if b == [] {
      ResolveKeys(a, lower, "");
      ResolveUnique(r, lower);
      assert r + b == r && a + b == a;
    } else {
      var front, last := b[..|b| - 1], b[|b| - 1];
      assert (r + b)[..|r + b| - 1] == r + front && (a + b)[..|a + b| - 1] == a + front;
      ResolveLeft(a, front, lower);
    }
  }

  /** The declarations an important one in `a` does not stop. */
  function Allowed(a: seq<Declaration>, ds: seq<Declaration>, lower: string -> string): seq<Declaration> {
    if ds == [] then []
    else
      var rest := Allowed(a, ds[1..], lower);
      if IsImportant(ds[0].value) || !HasImportant(a, PropertyKey(ds[0].name, lower), lower) then [ds[0]] + rest
          else rest
  }

  lemma {:induction false} BeforeFilters(a: seq<Declaration>, before: seq<Declaration>, ds: seq<Declaration>,
                                         after: seq<Declaration>,
                                         lower: string -> string)
    ensures Survivors(a + before, ds, after, lower) == Allowed(a, Survivors(before, ds, after, lower), lower)
    decreases ds
  {
    if ds != [] {
      var d, rest := ds[0], Survivors(before + [ds[0]], ds[1..], after, lower);
      assert a + before + [d] == a + (before + [d]);
      BeforeFilters(a, before + [d], ds[1..], after, lower);
      HasConcat(a, before, PropertyKey(d.name, lower), lower);
      hide PropertyKey, IsImportant, HasImportant, HasKey;
      assert ([d] + rest)[1..] == rest;
    }
  }

  lemma {:induction false} AfterMatters(before: seq<Declaration>, ds: seq<Declaration>, x: seq<Declaration>,
                                        y: seq<Declaration>,
                                        lower: string -> string)
    requires forall key :: HasKey(x, key, lower) == HasKey(y, key, lower)
    requires forall key :: HasImportant(x, key, lower) == HasImportant(y, key, lower)
    ensures Survivors(before, ds, x, lower) == Survivors(before, ds, y, lower)
    decreases ds
  {
    if ds != [] {
      AfterMatters(before + [ds[0]], ds[1..], x, y, lower);
      HasConcat(ds[1..], x, PropertyKey(ds[0].name, lower), lower);
      HasConcat(ds[1..], y, PropertyKey(ds[0].name, lower), lower);
      hide PropertyKey, IsImportant, HasImportant, HasKey;
    }
  }

  lemma {:induction false} ResolveRight(a: seq<Declaration>, b: seq<Declaration>, lower: string -> string)
    ensures Resolve(a + Resolve(b, lower), lower) == Resolve(a + b, lower)
  {
    hide PropertyKey, IsImportant, HasImportant, HasKey, Wins, Allowed, Survivors, UniqueKeys, Resolve;
    var r := Resolve(b, lower);
    forall key ensures HasKey(r, key, lower) == HasKey(b, key, lower) &&
        HasImportant(r, key, lower) == HasImportant(b, key, lower) {
      ResolveKeys(b, lower, key);
    }
    ResolveKeys(b, lower, "");
    ResolveUnique(r, lower);
    ResolveIsCascade(b, lower);
    ResolveIsCascade(r, lower);
    ResolveIsCascade(a + r, lower);
    ResolveIsCascade(a + b, lower);
    SurvivorsConcat([], a, r, [], lower);
    SurvivorsConcat([], a, b, [], lower);
    assert r + [] == r && b + [] == b && [] + a == a + [];
    AfterMatters([], a, r, b, lower);
    BeforeFilters(a, [], r, [], lower);
    BeforeFilters(a, [], b, [], lower);
  }

  /** Three styles resolve to the same list in either grouping. */
  lemma {:induction false} ResolveAssociative(a: seq<Declaration>, b: seq<Declaration>, c: seq<Declaration>,
                                              lower: string -> string)
    ensures Resolve(Resolve(a + b, lower) + c, lower) == Resolve(a + Resolve(b + c, lower), lower) ==
            Resolve(a + b + c, lower)
  {
    hide Resolve;
    ResolveLeft(a + b, c, lower);
    ResolveRight(a, b + c, lower);
    assert a + b + c == a + (b + c);
  }
}

/** What callers must keep so that cached data is filed right, and three runs in which they do not. */
module CacheCallers {
  import opened Options
  import opened ComponentCache
  import opened CacheRuns
  import opened CacheTheorems
  import opened CacheDataKey

  // ----- a discipline under which everything is filed right -----

  predicate PlainUnderWay(c: Cell) {
    var begun := c.loads.begun;
    begun != [] && begun[|begun| - 1].kind.PlainLoad? && |begun| - 1 in InFlight(c.loads)
  }

  /** A component's args do not change while its load() fetches, and no reload() begins under another key than that of a
      result that waits for its turn. */
  predicate KeysStand(c: Cell, a: Action) {
    match a
    case SetArgs(_, _) => !PlainUnderWay(c)
    case Begin(_, kind, _, _) =>
      kind.PlainLoad? || forall r :: r in c.loads.waiting ==> c.loads.begun[r.load].key == c.inst.key
    case _ => true
  }

  ghost predicate Undisturbed(actions: seq<Action>) {
    forall n :: 0 <= n < |actions| ==> StandsAt(Run(actions[..n]), actions[n])
  }

  predicate StandsAt(s: State, a: Action) { Acts(a) && a.i < |s.cells| ==> KeysStand(s.cells[a.i], a) }

  /** Then a load() under way still has its key, and whatever waits that of the last boot load or reload() begun. */
  predicate Standing(c: Cell) {
    && (PlainUnderWay(c) ==> c.inst.key == c.loads.begun[|c.loads.begun| - 1].key)
    && forall r :: r in c.loads.waiting ==>
        LastFiling(c.loads.begun) >= 0 && c.loads.begun[LastFiling(c.loads.begun)].key == c.loads.begun[r.load].key
  }

  lemma BeginStanding(c: Cell, a: Action, entries: map<string, string>, at: nat)
    requires Standing(c) && a.Begin? && KeysStand(c, a)
    ensures Standing(CellAfter(c, a, entries, at))
  {
    BeginKeys(c.inst, entries, a.kind, a.argsChanged, a.skip);
    var o := BeginLoad(c.inst, entries, a.kind, a.argsChanged, a.skip);
    LastFilingMore(c.loads.begun, Load(a.kind, c.inst.key, o.inst.data));
    hide BeginLoad, Touched;
  }

  lemma StepStanding(c: Cell, a: Action, entries: map<string, string>, at: nat)
    requires Standing(c) && Can(c, a) && KeysStand(c, a)
    ensures Standing(CellAfter(c, a, entries, at))
    ensures a.Turn? ==> !KeyMoved(c, a)
    ensures a.Return? && a.n + 1 == |c.loads.begun| && c.loads.begun[a.n].kind.PlainLoad? ==> !KeyMoved(c, a)
  {
    hide BeginLoad, AppliedIf, Touched;
    match a
    case Begin(_, _, _, _) => BeginStanding(c, a, entries, at);
    case Return(_, n, text, _) => AppliedKeys(c.inst, c.loads.begun[n], text);
    case Turn(_, _) => AppliedKeys(c.inst, c.loads.begun[c.loads.waiting[0].load], c.loads.waiting[0].text);
    case _ =>
  }

  lemma BornStanding(key: Option<string>, data: string, entries: map<string, string>, skip: bool)
    ensures Standing(Born(key, data, entries, skip))
  {
  }

  lemma {:induction false} RunStanding(actions: seq<Action>, i: nat)
    requires Undisturbed(actions) && i < |Run(actions).cells|
    ensures Standing(Run(actions).cells[i])
    decreases |actions|
  {
    if actions != [] {
      var front, a := actions[..|actions| - 1], actions[|actions| - 1];
      forall n | 0 <= n < |front| ensures front[..n] == actions[..n] && front[n] == actions[n] {}
      assert actions[..|front|] == front;
      assert StandsAt(Run(front), a);
      hide Standing, Step, Possible, CellAfter, Born, Can, KeysStand;
      var s := Run(front);
      if i < |s.cells| { RunStanding(front, i); }
      if Possible(s, a) {
        CanNow(s, a);
        StepCell(s, a, i);
        if Acts(a) && a.i == i { StepStanding(s.cells[i], a, s.entries, |s.ops|); }
        if a.Appear? { BornStanding(a.key, a.data, s.entries, a.skip); }
      }
    }
  }

  lemma PlainOrQueued(c: Cell, a: Action, entries: map<string, string>, at: nat)
    requires a.Return? && Can(c, a) && CellStep(c, a, entries, at).op.Write?
    ensures a.n + 1 == |c.loads.begun| && c.loads.begun[a.n].kind.PlainLoad?
  {
  }

  /** If args stand still while load() fetches, and no reload() begins under another key while a result waits for its
      turn, no key moves - and then everything is filed under its key. */
  lemma {:induction false} UndisturbedFilesWell(actions: seq<Action>)
    requires Undisturbed(actions)
    ensures NoneMoves(actions)
  {
    forall n | 0 <= n < |actions| && Possible(Run(actions[..n]), actions[n])
      ensures Stays(Run(actions[..n]), actions[n])
    {
      var front, a, s := actions[..n], actions[n], Run(actions[..n]);
      forall m | 0 <= m < |front| ensures front[..m] == actions[..m] && front[m] == actions[m] {}
      CanNow(s, a);
      if Acts(a) && (a.Return? || a.Turn?) && OpOf(s, a).Write? {
        assert StandsAt(s, a);
        RunStanding(front, a.i);
        StepStanding(s.cells[a.i], a, s.entries, |s.ops|);
        if a.Return? { PlainOrQueued(s.cells[a.i], a, s.entries, |s.ops|); }
      }
    }
  }

  // ----- three runs -----

  /** A storage with one component, as far as this matters. */
  predicate Is(s: State, c: Cell, entries: map<string, string>, produced: set<(string, string)>) {
    s.cells == [c] && s.entries == entries && s.produced == produced
  }

  /** Its next step, which is not a failure. */
  lemma Next(actions: seq<Action>, c: Cell, entries: map<string, string>, produced: set<(string, string)>, a: Action,
             d: Cell, op: Op)
    returns (more: seq<Action>)
    requires Is(Run(actions), c, entries, produced) && Acts(a) && a.i == 0 && Can(c, a) && !a.Throw? && Accepted(a)
    requires CellStep(c, a, entries, 0) == Out(d.(filed := c.filed), op) && d.filed == Touched(c.filed, op)
    ensures more == actions + [a]
    ensures Is(Run(more), d, if op.Write? then entries[op.key := op.text] else entries,
            produced + Product(Run(actions), a))
  {
    RunThen(actions, a);
    more := actions + [a];
    StepCell(Run(actions), a, 0);
    assert CellStep(c, a, entries, |Run(actions).ops|) == CellStep(c, a, entries, 0);
    hide CellStep, Can, Run, Product, Touched;
  }

  const A := Some("a")
  const B := Some("b")
  const C := Some("c")

  const ALONE := Ledger([], {}, {}, [], false)

  /** A component with args "a" and data {0}. */
  lemma One() returns (actions: seq<Action>)
    ensures actions == [Appear(A, "{0}", true)]
    ensures Is(Run(actions), Cell(Inst(A, A, None, "{0}", false), ALONE, map[], None), map[], {})
  {
    actions := [Appear(A, "{0}", true)];
    assert [] + actions == actions;
    assert Run([]) == INITIAL;
    RunThen([], Appear(A, "{0}", true));
  }

  // In two of the runs only reload() is called, three times within one on_ready() that awaits each call while the one
  // before still runs, so that all are promoted.

  /** A reload() begins; it finds nothing in the cache. */
  lemma Begun(actions: seq<Action>, c: Cell, entries: map<string, string>, produced: set<(string, string)>, moved: bool,
              after: seq<Load>)
    returns (more: seq<Action>)
    requires Is(Run(actions), c, entries, produced) && c.inst.key.Some? && c.inst.key.value !in entries
    requires c.loads.fetching == {} && after == c.loads.begun + [Load(Reload, c.inst.key, c.inst.data)]
    ensures more == actions + [Begin(0, Reload, moved, false)]
    ensures Is(Run(more), c.(inst := c.inst.(cacheKey := c.inst.key),
                             loads := c.loads.(begun := after, fetching := {|c.loads.begun|})), entries, produced)
  {
    hide Run;
    var d := c.(inst := c.inst.(cacheKey := c.inst.key),
                loads := c.loads.(begun := after, fetching := {|c.loads.begun|}));
    assert c.loads.fetching + {|c.loads.begun|} == {|c.loads.begun|};
    var a := Begin(0, Reload, moved, false);
    var op := CellStep(c, a, entries, 0).op;
    assert Product(Run(actions), a) == {} && produced + {} == produced;
    more := Next(actions, c, entries, produced, a, d, op);
  }

  /** The on_load() of load number `n` ends. */
  lemma Fetches(actions: seq<Action>, c: Cell, entries: map<string, string>, produced: set<(string, string)>, n: nat,
                text: string)
    returns (more: seq<Action>)
    requires Is(Run(actions), c, entries, produced) && c.loads.fetching == {n} && c.loads.recovering == {}
    requires n + 1 == |c.loads.begun| && c.loads.begun[n].kind.Reload? && c.loads.begun[n].key.Some?
    requires c.loads.waiting == []
    ensures more == actions + [Return(0, n, Some(text), true)]
    ensures Is(Run(more), c.(loads := c.loads.(fetching := {}, waiting := [Result(n, Some(text))])), entries,
            produced + {(c.loads.begun[n].key.value, text)})
  {
    hide Run;
    assert c.loads.fetching - {n} == {} && c.loads.recovering - {n} == {};
    var d := c.(loads := c.loads.(fetching := {}, waiting := [Result(n, Some(text))]));
    assert [] + [Result(n, Some(text))] == [Result(n, Some(text))];
    assert Product(Run(actions), Return(0, n, Some(text), true)) == {(c.loads.begun[n].key.value, text)};
    more := Next(actions, c, entries, produced, Return(0, n, Some(text), true), d, NoOp);
  }

  /** The one result that waits is applied. */
  lemma Turns(actions: seq<Action>, c: Cell, entries: map<string, string>, produced: set<(string, string)>, n: nat,
              text: string)
    returns (more: seq<Action>)
    requires Is(Run(actions), c, entries, produced) && c.loads.waiting == [Result(n, Some(text))] && !c.loads.applying
    ensures more == actions + [Turn(0, true)]
    ensures var a := Applied(c.inst, c.loads.begun[n], text);
            Is(Run(more), Cell(a.inst, c.loads.(waiting := [], applying := true), Touched(c.filed, a.op), c.failedAt),
                if a.op.Write? then entries[a.op.key := a.op.text] else entries, produced)
  {
    hide Run, Applied;
    assert c.loads.waiting[1..] == [] && c.loads.waiting[0] in c.loads.waiting;
    assert Product(Run(actions), Turn(0, true)) == {} && produced + {} == produced;
    var a := Applied(c.inst, c.loads.begun[n], text);
    var d := Cell(a.inst, c.loads.(waiting := [], applying := true), Touched(c.filed, a.op), c.failedAt);
    more := Next(actions, c, entries, produced, Turn(0, true), d, a.op);
  }

  /** A step that only changes the args or ends an on_loaded(). */
  lemma Else(actions: seq<Action>, c: Cell, entries: map<string, string>, produced: set<(string, string)>, a: Action)
    returns (more: seq<Action>)
    requires Is(Run(actions), c, entries, produced) && (a.SetArgs? || a.EndLoaded?) && a.i == 0 && Can(c, a)
    ensures more == actions + [a]
    ensures Is(Run(more), if a.SetArgs? then c.(inst := c.inst.(key := a.key))
            else c.(loads := c.loads.(applying := false)), entries, produced)
  {
    hide Run;
    assert produced + {} == produced;
    more := Next(actions, c, entries, produced, a,
        if a.SetArgs? then c.(inst := c.inst.(key := a.key)) else c.(loads := c.loads.(applying := false)), NoOp);
  }

  const P0 := Load(PlainLoad, A, "{0}")

  lemma PlainBegins() returns (actions: seq<Action>)
    ensures Is(Run(actions), Cell(Inst(A, A, None, "{0}", false), Ledger([P0], {0}, {}, [], false), map[], None),
                map[], {})
  {
    actions := One();
    hide Run;
    var c := Cell(Inst(A, A, None, "{0}", false), ALONE, map[], None);
    assert ALONE.begun + [P0] == [P0] && ALONE.fetching + {0} == {0};
    assert Product(Run(actions), Begin(0, PlainLoad, false, false)) == {};
    actions := Next(actions, c, map[], {}, Begin(0, PlainLoad, false, false),
        c.(loads := Ledger([P0], {0}, {}, [], false)), NoOp);
  }

  /** Args that change while load() fetches: what was fetched for "a" is filed under "b", where no load has
      produced it. */
  lemma MovedArgsMisfile() returns (actions: seq<Action>)
    ensures var s := Run(actions); "b" in s.entries && ("b", s.entries["b"]) !in s.produced
  {
    actions := PlainBegins();
    hide Run;
    var c := Cell(Inst(A, A, None, "{0}", false), Ledger([P0], {0}, {}, [], false), map[], None);
    actions := Else(actions, c, map[], {}, SetArgs(0, B));
    c := c.(inst := Inst(B, A, None, "{0}", false));
    var d := Cell(Inst(B, A, B, "{1}", false), Ledger([P0], {}, {}, [], false), map["b" := "{1}"], None);
    assert c.loads.fetching - {0} == {};
    assert Product(Run(actions), Return(0, 0, Some("{1}"), true)) == {("a", "{1}")};
    actions := Next(actions, c, map[], {}, Return(0, 0, Some("{1}"), true), d, Write("b", "{1}"));
  }

  const R0 := Load(Reload, A, "{0}")
  const SLOW := Cell(Inst(A, A, None, "{0}", false), Ledger([R0], {}, {}, [], true), map[], None)

  /** The first reload() has brought nothing new, and its on_loaded() takes its time. */
  lemma SlowOnLoaded() returns (actions: seq<Action>)
    ensures Is(Run(actions), SLOW, map[], {("a", "{0}")}) && OnlyReloads(actions) && ArgsStay(actions)
  {
    actions := One();
    hide Run;
    var c := Cell(Inst(A, A, None, "{0}", false), ALONE, map[], None);
    actions := Begun(actions, c, map[], {}, false, [R0]);
    c := c.(loads := Ledger([R0], {0}, {}, [], false));
    actions := Fetches(actions, c, map[], {}, 0, "{0}");
    c := c.(loads := Ledger([R0], {}, {}, [Result(0, Some("{0}"))], false));
    assert {} + {("a", "{0}")} == {("a", "{0}")};
    actions := Turns(actions, c, map[], {("a", "{0}")}, 0, "{0}");
  }

  predicate OnlyReloads(actions: seq<Action>) { forall a :: a in actions && a.Begin? ==> a.kind == Reload }

  predicate ArgsStay(actions: seq<Action>) { forall a :: a in actions ==> !a.SetArgs? }

  const R1 := Load(Reload, B, "{0}")
  const R2 := Load(Reload, C, "{0}")

  /** The result of a second reload(), for args "b", waits for that on_loaded() while a third begins, for args "c": it
      is filed under "c", where no load has produced it. */
  lemma OvertakenReloadMisfiles() returns (actions: seq<Action>)
    ensures var s := Run(actions);
            OnlyReloads(actions) && "c" in s.entries && ("c", s.entries["c"]) !in s.produced
  {
    actions := SlowOnLoaded();
    hide Run;
    var c, p := SLOW, {("a", "{0}")};
    actions := Else(actions, c, map[], p, SetArgs(0, B));
    c := c.(inst := c.inst.(key := B));
    actions := Begun(actions, c, map[], p, true, [R0, R1]);
    c := Cell(Inst(B, B, None, "{0}", false), Ledger([R0, R1], {1}, {}, [], true), map[], None);
    actions := Fetches(actions, c, map[], p, 1, "{1}");
    p := p + {("b", "{1}")};
    c := c.(loads := Ledger([R0, R1], {}, {}, [Result(1, Some("{1}"))], true));
    actions := Else(actions, c, map[], p, SetArgs(0, C));
    c := c.(inst := c.inst.(key := C));
    actions := Begun(actions, c, map[], p, true, [R0, R1, R2]);
    c := Cell(Inst(C, C, None, "{0}", false), Ledger([R0, R1, R2], {2}, {}, [Result(1, Some("{1}"))], true), map[],
        None);
    actions := Else(actions, c, map[], p, EndLoaded(0));
    c := c.(loads := Ledger([R0, R1, R2], {2}, {}, [Result(1, Some("{1}"))], false));
    actions := Turns(actions, c, map[], p, 1, "{1}");
  }

  /** The args stand still.  The second reload() brings new data, which waits while the third begins; the third brings
      the old data again, which counts as unchanged, and the data key stays that of the second's. */
  lemma ReturningDataIsUnfiled() returns (actions: seq<Action>)
    ensures OnlyReloads(actions) && ArgsStay(actions) && !MeantIn(Run(actions), 0)
  {
    actions := SlowOnLoaded();
    hide Run;
    var c, p := SLOW, {("a", "{0}")};
    actions := Begun(actions, c, map[], p, false, [R0, R0]);
    c := c.(loads := Ledger([R0, R0], {1}, {}, [], true));
    actions := Fetches(actions, c, map[], p, 1, "{1}");
    p := p + {("a", "{1}")};
    c := c.(loads := Ledger([R0, R0], {}, {}, [Result(1, Some("{1}"))], true));
    actions := Begun(actions, c, map[], p, false, [R0, R0, R0]);
    c := c.(loads := Ledger([R0, R0, R0], {2}, {}, [Result(1, Some("{1}"))], true));
    actions := Else(actions, c, map[], p, EndLoaded(0));
    c := c.(loads := Ledger([R0, R0, R0], {2}, {}, [Result(1, Some("{1}"))], false));
    actions := Turns(actions, c, map[], p, 1, "{1}");
    actions := LastReturns(actions, p);
  }

  const FILED := Cell(Inst(A, A, A, "{1}", false), Ledger([R0, R0, R0], {2}, {}, [], true), map["a" := "{1}"], None)

  lemma LastReturns(before: seq<Action>, p: set<(string, string)>) returns (actions: seq<Action>)
    requires Is(Run(before), FILED, map["a" := "{1}"], p) && OnlyReloads(before) && ArgsStay(before)
    ensures OnlyReloads(actions) && ArgsStay(actions) && !MeantIn(Run(actions), 0)
  {
    hide Run;
    var c, e := FILED, map["a" := "{1}"];
    actions := Fetches(before, c, e, p, 2, "{0}");
    c := c.(loads := Ledger([R0, R0, R0], {}, {}, [Result(2, Some("{0}"))], true));
    var q := p + {("a", "{0}")};
    actions := Else(actions, c, e, q, EndLoaded(0));
    c := c.(loads := Ledger([R0, R0, R0], {}, {}, [Result(2, Some("{0}"))], false));
    actions := Turns(actions, c, e, q, 2, "{0}");
  }
}

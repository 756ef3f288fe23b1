/** In what order results are applied: the loads of a component overlap, but their results take turns. */
module CacheOrder {
  import opened Options
  import opened ComponentCache
  import opened CacheRuns
  import opened CacheTheorems
  import opened CacheDataKey

  /** The result of component `i` that `a` lets wait for its turn: that of a boot load or a reload() ending while no
      load has begun after it. */
  function WaitsNow(s: State, a: Action, i: nat): seq<Result> {
    if Possible(s, a) && a.Return? && a.i == i && a.n + 1 == |s.cells[i].loads.begun| &&
       !s.cells[i].loads.begun[a.n].kind.PlainLoad?
    then [Result(a.n, a.text)] else []
  }

  /** The result of component `i` that `a` applies in its turn. */
  function TurnsNow(s: State, a: Action, i: nat): seq<Result> {
    if Possible(s, a) && a.Turn? && a.i == i then [s.cells[i].loads.waiting[0]] else []
  }

  function AllWaited(actions: seq<Action>, i: nat): seq<Result> {
    if actions == [] then []
    else
      var front, a := actions[..|actions| - 1], actions[|actions| - 1];
      AllWaited(front, i) + WaitsNow(Run(front), a, i)
  }

  function AllTurned(actions: seq<Action>, i: nat): seq<Result> {
    if actions == [] then []
    else
      var front, a := actions[..|actions| - 1], actions[|actions| - 1];
      AllTurned(front, i) + TurnsNow(Run(front), a, i)
  }

  /** The results so far are of loads that are over, each begun after the one before. */
  ghost predicate InOrder(waited: seq<Result>, l: Loads) {
    && (forall k :: 0 <= k < |waited| ==> waited[k].load < |l.begun| && waited[k].load !in InFlight(l))
    && (forall j, k :: 0 <= j < k < |waited| ==> waited[j].load < waited[k].load)
  }

  /** What a component's loads have come to; nothing before it appears. */
  function LoadsOf(s: State, i: nat): Loads {
    if i < |s.cells| then s.cells[i].loads else Ledger([], {}, {}, [], false)
  }

  lemma ActsInOrder(s: State, a: Action, i: nat, waited: seq<Result>, turned: seq<Result>)
    requires Possible(s, a) && Acts(a) && a.i == i && InOrder(waited, s.cells[i].loads)
    requires waited == turned + s.cells[i].loads.waiting
    ensures var l, more := CellAfter(s.cells[i], a, s.entries, |s.ops|).loads, waited + WaitsNow(s, a, i);
            InOrder(more, l) && more == turned + TurnsNow(s, a, i) + l.waiting
  {
    hide BeginLoad, AppliedIf, Touched;
  }

  lemma OthersWait(s: State, a: Action, i: nat)
    requires !(Possible(s, a) && Acts(a) && a.i == i)
    ensures WaitsNow(s, a, i) == [] && TurnsNow(s, a, i) == []
  {
  }

  lemma StepInOrder(s: State, a: Action, i: nat, waited: seq<Result>, turned: seq<Result>)
    requires Possible(s, a) && InOrder(waited, LoadsOf(s, i)) && waited == turned + LoadsOf(s, i).waiting
    ensures var l, more := LoadsOf(Step(s, a), i), waited + WaitsNow(s, a, i);
            InOrder(more, l) && more == turned + TurnsNow(s, a, i) + l.waiting
  {
    CanNow(s, a);
    if i < |s.cells| { StillThere(s, a, i); }
    if i < |Step(s, a).cells| { StepCell(s, a, i); }
    if Acts(a) && a.i == i { ActsInOrder(s, a, i, waited, turned); } else { OthersWait(s, a, i); }
    hide Step, CellAfter, Can, Possible, WaitsNow, TurnsNow, InOrder;
  }

  /** Every result that waits has its turn once, in the order the results came in, which is the order the loads
      began in; what has had no turn yet is what waits now. */
  lemma {:induction false} TurnsInOrder(actions: seq<Action>, i: nat)
    ensures var waited, l := AllWaited(actions, i), LoadsOf(Run(actions), i);
            waited == AllTurned(actions, i) + l.waiting && InOrder(waited, l)
    decreases |actions|
  {
    if actions != [] {
      var front, a := actions[..|actions| - 1], actions[|actions| - 1];
      TurnsInOrder(front, i);
      if Possible(Run(front), a) { StepInOrder(Run(front), a, i, AllWaited(front, i), AllTurned(front, i)); }
      else { OthersWait(Run(front), a, i); }
      hide Step, Possible, WaitsNow, TurnsNow, InOrder, LoadsOf;
    }
  }

  /** The action applies a result of component `i`. */
  predicate Applies(s: State, a: Action, i: nat) { TurnsNow(s, a, i) != [] && TurnsNow(s, a, i)[0].text.Some? }

  lemma RunNext(actions: seq<Action>, n: nat)
    requires n < |actions|
    ensures var s := Run(actions[..n]);
            Run(actions[..n + 1]) == if Possible(s, actions[n]) then Step(s, actions[n]) else s
  {
    assert actions[..n + 1][..n] == actions[..n];
    hide Step, Possible;
  }

  lemma {:induction false} StillApplying(actions: seq<Action>, i: nat, j: nat, n: nat)
    requires j < n <= |actions| && Applies(Run(actions[..j]), actions[j], i)
    requires forall m :: j < m < n ==> actions[m] != EndLoaded(i)
    ensures LoadsOf(Run(actions[..n]), i).applying
    decreases n
  {
    RunNext(actions, n - 1);
    StepApplies(Run(actions[..n - 1]), actions[n - 1], i);
    if n - 1 != j { StillApplying(actions, i, j, n - 1); }
    hide *;
  }

  lemma StepApplies(s: State, a: Action, i: nat)
    ensures Applies(s, a, i) ==> Possible(s, a)
    ensures Possible(s, a) && Applies(s, a, i) ==> LoadsOf(Step(s, a), i).applying
    ensures Possible(s, a) && LoadsOf(s, i).applying && a != EndLoaded(i) ==> LoadsOf(Step(s, a), i).applying
  {
    if Possible(s, a) && i < |s.cells| {
      CanNow(s, a);
      StillThere(s, a, i);
      StepCell(s, a, i);
      if Acts(a) && a.i == i { StepApplying(s.cells[i], a, s.entries, |s.ops|); }
    }
    hide Step, CellAfter, Can;
  }

  lemma StepApplying(c: Cell, a: Action, entries: map<string, string>, at: nat)
    requires Can(c, a) && Acts(a)
    ensures var d := CellAfter(c, a, entries, at);
            && (a.Turn? ==> d.loads.applying == c.loads.waiting[0].text.Some?)
            && (c.loads.applying && !a.EndLoaded? ==> d.loads.applying)
  {
    hide BeginLoad, AppliedIf, Touched;
  }

  /** One at a time: between two turns of a component, the on_loaded() of the first result applied has ended. */
  lemma OneAtATime(actions: seq<Action>, i: nat, j: nat, k: nat)
    requires j < k < |actions| && Applies(Run(actions[..j]), actions[j], i)
    requires TurnsNow(Run(actions[..k]), actions[k], i) != []
    ensures exists m :: j < m < k && actions[m] == EndLoaded(i)
  {
    if forall m :: j < m < k ==> actions[m] != EndLoaded(i) { StillApplying(actions, i, j, k); }
  }

  /** A load whose on_load() throws is not over: what on_load_error() returns counts as its result, but not as something
      on_load() has produced. */
  lemma ThrowRecovers(s: State, i: nat, n: nat, text: Option<string>, accepted: bool)
    requires Possible(s, Throw(i, n))
    ensures var t, back := Step(s, Throw(i, n)), Return(i, n, text, accepted);
            Possible(t, back) && Step(t, back).produced == t.produced == s.produced && !Possible(t, Throw(i, n))
  {
    hide AppliedIf;
  }
}

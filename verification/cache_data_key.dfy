/** Where a component's present data is filed: exactly when `_data_cache_key` tells. */
module CacheDataKey {
  import opened Options
  import opened ComponentCache
  import opened CacheRuns
  import opened CacheTheorems

  /** A data key means that the component last wrote, offered or was given exactly its present data under it. */
  predicate Meant(c: Cell) {
    c.inst.dataKey.Some? ==> c.inst.dataKey.value in c.filed && c.filed[c.inst.dataKey.value] == c.inst.data
  }

  /** A load leaves the data it began with, but other data has come meanwhile; it counts as unchanged, so the data
      key of that other data stays - unless the cache key has moved and the result is filed for that. */
  predicate Returns(c: Inst, load: Load, text: Option<string>) {
    && text == Some(load.before) && text != Some(c.data) && c.dataKey.Some?
    && (load.kind.PlainLoad? || c.failed || c.cacheKey.None? || c.cacheKey == c.dataKey)
  }

  /** The step applies such a result. */
  predicate Parts(c: Cell, a: Action) {
    && Can(c, a)
    && match a
       case Turn(_, _) => Returns(c.inst, c.loads.begun[c.loads.waiting[0].load], c.loads.waiting[0].text)
       case Return(_, n, text, _) =>
         n + 1 == |c.loads.begun| && c.loads.begun[n].kind.PlainLoad? && Returns(c.inst, c.loads.begun[n], text)
       case _ => false
  }

  lemma AppliedMeant(c: Inst, load: Load, text: Option<string>, filed: map<string, string>)
    requires c.dataKey.Some? ==> c.dataKey.value in filed && filed[c.dataKey.value] == c.data
    ensures var a := AppliedIf(c, load, text);
            var more := Touched(filed, a.op);
            (a.inst.dataKey.Some? ==> a.inst.dataKey.value in more && more[a.inst.dataKey.value] == a.inst.data)
            <==> !Returns(c, load, text)
  {
  }

  lemma BeginMeant(c: Inst, entries: map<string, string>, kind: Kind, argsChanged: bool, skip: bool,
                   filed: map<string, string>)
    requires c.dataKey.Some? ==> c.dataKey.value in filed && filed[c.dataKey.value] == c.data
    ensures var a := BeginLoad(c, entries, kind, argsChanged, skip);
            var more := Touched(filed, a.op);
            a.inst.dataKey.Some? ==> a.inst.dataKey.value in more && more[a.inst.dataKey.value] == a.inst.data
  {
  }

  lemma NothingTouched(filed: map<string, string>)
    ensures Touched(filed, NoOp) == filed
  {
  }

  /** Only such a step makes a data key that tells where the data is filed stop telling it. */
  lemma StepMeant(c: Cell, a: Action, entries: map<string, string>, at: nat)
    requires Meant(c) && Can(c, a)
    ensures Meant(CellAfter(c, a, entries, at)) <==> !Parts(c, a)
  {
    hide BeginLoad, AppliedIf, Touched, Returns;
    NothingTouched(c.filed);
    match a
    case Begin(_, kind, argsChanged, skip) => BeginMeant(c.inst, entries, kind, argsChanged, skip, c.filed);
    case Return(_, n, text, _) => AppliedMeant(c.inst, c.loads.begun[n], text, c.filed);
    case Turn(_, _) =>
      AppliedMeant(c.inst, c.loads.begun[c.loads.waiting[0].load], c.loads.waiting[0].text, c.filed);
    case _ =>
  }

  lemma BornMeant(key: Option<string>, data: string, entries: map<string, string>, skip: bool)
    ensures Meant(Born(key, data, entries, skip))
  {
  }

  predicate StepParts(s: State, a: Action, i: nat) {
    Possible(s, a) && Acts(a) && a.i == i && Parts(s.cells[i], a)
  }

  predicate MeantIn(s: State, i: nat) { i < |s.cells| ==> Meant(s.cells[i]) }

  lemma StepMeantIn(s: State, a: Action, i: nat)
    requires Possible(s, a) && MeantIn(s, i)
    ensures MeantIn(Step(s, a), i) <==> !StepParts(s, a, i)
  {
    hide Meant, Step, Parts, CellAfter;
    CanNow(s, a);
    if i < |s.cells| { StillThere(s, a, i); }
    if i < |Step(s, a).cells| {
      StepCell(s, a, i);
      if a.Appear? { BornMeant(a.key, a.data, s.entries, a.skip); }
      if Acts(a) && a.i == i { StepMeant(s.cells[i], a, s.entries, |s.ops|); }
    }
  }

  lemma StillThere(s: State, a: Action, i: nat)
    requires Possible(s, a) && i < |s.cells|
    ensures i < |Step(s, a).cells|
  {
    hide CellStep, Can, Product;
  }

  /** All through a run a component's data key, whenever it has one, tells where its present data is filed, exactly if
      no step of the run applies to it a result equal to the data its load began with, when other data has come
      meanwhile and the key has not moved. */
  lemma {:induction false} DataKeyIsMeant(actions: seq<Action>, i: nat)
    ensures (forall n :: 0 <= n <= |actions| ==> MeantIn(Run(actions[..n]), i))
            <==> (forall n :: 0 <= n < |actions| ==> !StepParts(Run(actions[..n]), actions[n], i))
    decreases |actions|
  {
    hide MeantIn, StepParts, Step, Possible;
    if actions == [] {
      assert MeantIn(INITIAL, i) by { NoneYet(i); }
      assert forall n :: 0 <= n <= |actions| ==> actions[..n] == [];
    } else {
      var front, a := actions[..|actions| - 1], actions[|actions| - 1];
      forall n | 0 <= n <= |front| ensures actions[..n] == front[..n] {}
      assert actions[..|actions|] == actions && actions[..|front|] == front && front[..|front|] == front;
      DataKeyIsMeant(front, i);
      if MeantIn(Run(front), i) { LastStep(front, a, i); }
    }
  }

  lemma NoneYet(i: nat)
    ensures MeantIn(INITIAL, i)
  {
  }

  lemma LastStep(front: seq<Action>, a: Action, i: nat)
    requires MeantIn(Run(front), i)
    ensures front + [a] != [] && (MeantIn(Run(front + [a]), i) <==> !StepParts(Run(front), a, i))
  {
    assert (front + [a])[..|front|] == front;
    hide MeantIn, Step;
    if Possible(Run(front), a) { StepMeantIn(Run(front), a, i); }
  }

  // ----- what a caller can do about it -----

  /** Loads begin only while no result of their component waits for its turn. */
  ghost predicate NoneOvertakes(actions: seq<Action>) {
    forall n :: 0 <= n < |actions| ==> !Overtakes(Run(actions[..n]), actions[n])
  }

  predicate Overtakes(s: State, a: Action) { a.Begin? && a.i < |s.cells| && s.cells[a.i].loads.waiting != [] }

  /** Then at most one result waits, the newest load's, and as long as that load is under way the data is what it
      began with. */
  predicate Single(c: Cell) {
    var l := c.loads;
    && |l.waiting| <= 1
    && (l.waiting != [] ==> |l.begun| > 0 && l.waiting[0].load == |l.begun| - 1 && |l.begun| - 1 !in InFlight(l))
    && (|l.begun| > 0 && (l.waiting != [] || |l.begun| - 1 in InFlight(l)) ==>
        l.begun[|l.begun| - 1].before == c.inst.data)
  }

  lemma StepSingle(c: Cell, a: Action, entries: map<string, string>, at: nat)
    requires Single(c) && Can(c, a) && !(a.Begin? && c.loads.waiting != [])
    ensures Single(CellAfter(c, a, entries, at)) && !Parts(c, a)
  {
    hide BeginLoad, AppliedIf, Touched;
  }

  lemma {:induction false} RunSingle(actions: seq<Action>, i: nat)
    requires NoneOvertakes(actions) && i < |Run(actions).cells|
    ensures Single(Run(actions).cells[i])
    decreases |actions|
  {
    if actions != [] {
      var front, a := actions[..|actions| - 1], actions[|actions| - 1];
      forall n | 0 <= n < |front| ensures front[..n] == actions[..n] && front[n] == actions[n] {}
      assert actions[..|front|] == front;
      hide Single, Step, Possible, CellAfter, Born, Can;
      var s := Run(front);
      if i < |s.cells| { RunSingle(front, i); }
      if Possible(s, a) {
        CanNow(s, a);
        StepCell(s, a, i);
        if Acts(a) && a.i == i { StepSingle(s.cells[i], a, s.entries, |s.ops|); }
        if a.Appear? { BornSingle(a.key, a.data, s.entries, a.skip); }
      }
    }
  }

  lemma BornSingle(key: Option<string>, data: string, entries: map<string, string>, skip: bool)
    ensures Single(Born(key, data, entries, skip))
  {
  }

  /** If no load begins while a result of its component waits for its turn, data keys always tell where data is
      filed. */
  lemma {:induction false} InTurnIsMeant(actions: seq<Action>, i: nat)
    requires NoneOvertakes(actions)
    ensures forall n :: 0 <= n <= |actions| ==> MeantIn(Run(actions[..n]), i)
  {
    forall n | 0 <= n < |actions| ensures !StepParts(Run(actions[..n]), actions[n], i) {
      var front, s := actions[..n], Run(actions[..n]);
      forall m | 0 <= m < |front| ensures front[..m] == actions[..m] && front[m] == actions[m] {}
      if StepParts(s, actions[n], i) {
        RunSingle(front, i);
        StepSingle(s.cells[i], actions[n], s.entries, |s.ops|);
      }
    }
    DataKeyIsMeant(actions, i);
  }
}

/** Under which key cached data is filed, in every run: exactly when it is that of the load that produced it. */
module CacheTheorems {
  import opened Options
  import opened ComponentCache
  import opened CacheRuns

  // ----- one step of one component -----

  predicate Acts(a: Action) { !a.Appear? && !a.Evict? }

  function CellAfter(c: Cell, a: Action, entries: map<string, string>, at: nat): Cell
    requires Can(c, a)
  {
    var o := CellStep(c, a, entries, at);
    o.cell.(filed := Touched(o.cell.filed, o.op))
  }

  function Born(key: Option<string>, data: string, entries: map<string, string>, skip: bool): Cell {
    var a := ReadInCreate(Newborn(key, data).inst, entries, skip);
    Newborn(key, data).(inst := a.inst, filed := Touched(map[], a.op))
  }

  /** What a step makes of component `i`. */
  lemma StepCell(s: State, a: Action, i: nat)
    requires Possible(s, a) && i < |Step(s, a).cells|
    ensures i < |s.cells| <==> !(a.Appear? && i == |s.cells|)
    ensures a.Appear? && i == |s.cells| ==> Step(s, a).cells[i] == Born(a.key, a.data, s.entries, a.skip)
    ensures Acts(a) && a.i == i ==> Step(s, a).cells[i] == CellAfter(s.cells[i], a, s.entries, |s.ops|)
    ensures i < |s.cells| && !(Acts(a) && a.i == i) ==> Step(s, a).cells[i] == s.cells[i]
  {
    hide CellStep, ReadInCreate, Can, Product, Touched;
  }

  lemma RunThen(actions: seq<Action>, a: Action)
    requires Possible(Run(actions), a)
    ensures Run(actions + [a]) == Step(Run(actions), a)
  {
    assert (actions + [a])[..|actions|] == actions;
  }

  // ----- the key boot's load and reload() write under -----

  /** The number of the last boot load or reload() begun, or -1. */
  function LastFiling(begun: seq<Load>): (m: int)
    ensures -1 <= m < |begun|
    ensures m >= 0 ==> !begun[m].kind.PlainLoad?
    ensures forall k :: m < k < |begun| ==> begun[k].kind.PlainLoad?
  {
    if begun == [] then -1
    else if !begun[|begun| - 1].kind.PlainLoad? then |begun| - 1 else LastFiling(begun[..|begun| - 1])
  }

  lemma LastFilingMore(begun: seq<Load>, load: Load)
    ensures LastFiling(begun + [load]) == if load.kind.PlainLoad? then LastFiling(begun) else |begun|
  {
    assert (begun + [load])[..|begun|] == begun;
  }

  /** ... is that of the last of them begun. */
  predicate Anchored(c: Cell) {
    LastFiling(c.loads.begun) >= 0 ==> c.inst.cacheKey == c.loads.begun[LastFiling(c.loads.begun)].key
  }

  lemma BeginKeys(c: Inst, entries: map<string, string>, kind: Kind, argsChanged: bool, skip: bool)
    ensures var d := BeginLoad(c, entries, kind, argsChanged, skip).inst;
            d.key == c.key && d.failed == c.failed && d.cacheKey == if kind.PlainLoad? then c.cacheKey else c.key
    ensures !BeginLoad(c, entries, kind, argsChanged, skip).op.Write?
  {
  }

  lemma AppliedKeys(c: Inst, load: Load, text: Option<string>)
    ensures var a := AppliedIf(c, load, text);
            && a.inst.key == c.key && a.inst.failed == c.failed && a.inst.cacheKey == c.cacheKey && !a.op.Read?
            && (c.failed ==> a.op.NoOp?)
            && (a.op.Write? ==>
                text == Some(a.op.text) && Some(a.op.key) == if load.kind.PlainLoad? then c.key else c.cacheKey)
  {
  }

  lemma StepAnchored(c: Cell, a: Action, entries: map<string, string>, at: nat)
    requires Anchored(c) && Can(c, a)
    ensures Anchored(CellAfter(c, a, entries, at))
  {
    hide BeginLoad, AppliedIf;
    match a
    case Begin(_, kind, argsChanged, skip) =>
      BeginKeys(c.inst, entries, kind, argsChanged, skip);
      var after := BeginLoad(c.inst, entries, kind, argsChanged, skip);
      LastFilingMore(c.loads.begun, Load(kind, c.inst.key, after.inst.data));
    case Return(_, n, text, _) => AppliedKeys(c.inst, c.loads.begun[n], text);
    case Turn(_, _) => AppliedKeys(c.inst, c.loads.begun[c.loads.waiting[0].load], c.loads.waiting[0].text);
    case _ =>
  }

  lemma {:induction false} RunAnchored(actions: seq<Action>, i: nat)
    requires i < |Run(actions).cells|
    ensures Anchored(Run(actions).cells[i])
    decreases |actions|
  {
    if actions != [] {
      hide Anchored, Step, Possible, CellAfter;
      var front, a := actions[..|actions| - 1], actions[|actions| - 1];
      var s := Run(front);
      if i < |s.cells| { RunAnchored(front, i); }
      if Possible(s, a) {
        StepCell(s, a, i);
        assert Possible(s, a) && Acts(a) ==> a.i < |s.cells| && Can(s.cells[a.i], a) by { CanNow(s, a); }
        if Acts(a) && a.i == i { StepAnchored(s.cells[i], a, s.entries, |s.ops|); }
        if a.Appear? { BornAnchored(a.key, a.data, s.entries, a.skip); }
      }
    }
  }

  lemma CanNow(s: State, a: Action)
    requires Possible(s, a)
    ensures Acts(a) ==> a.i < |s.cells| && Can(s.cells[a.i], a)
  {
  }

  lemma BornAnchored(key: Option<string>, data: string, entries: map<string, string>, skip: bool)
    ensures Anchored(Born(key, data, entries, skip))
  {
  }

  /** The write a step makes, in a state it is possible in. */
  function OpOf(s: State, a: Action): Op
    requires Possible(s, a) && Acts(a)
  {
    CellStep(s.cells[a.i], a, s.entries, |s.ops|).op
  }

  /** The load whose result a step applies. */
  function LoadOf(c: Cell, a: Action): nat
    requires Can(c, a) && (a.Return? || a.Turn?)
  {
    if a.Return? then a.n else c.loads.waiting[0].load
  }

  /** The key a result is filed under is another than that of the args it was fetched for: for load(), the args' key
      when it ends; for boot and reload(), the key of the last of these begun by then. */
  predicate KeyMoved(c: Cell, a: Action)
    requires Can(c, a) && (a.Return? || a.Turn?)
  {
    var begun := c.loads.begun;
    var load := begun[LoadOf(c, a)];
    if load.kind.PlainLoad? then c.inst.key != load.key
    else LastFiling(begun) >= 0 && begun[LastFiling(begun)].key != load.key
  }

  /** Where a load's result is written, in every run: under the key of the args it was fetched for exactly if - for a
      load() - the args have that key when it ends, or - for boot's load and reload() - the last such load begun by
      the time its turn has come has that key.  Nothing else writes. */
  lemma {:induction false} WrittenUnderOwnKey(actions: seq<Action>, a: Action)
    requires Possible(Run(actions), a) && Acts(a) && OpOf(Run(actions), a).Write?
    ensures var c, op := Run(actions).cells[a.i], OpOf(Run(actions), a);
            && (a.Return? || a.Turn?) && LoadOf(c, a) < |c.loads.begun|
            && Some(op.text) == (if a.Return? then a.text else c.loads.waiting[0].text)
            && (Some(op.key) == c.loads.begun[LoadOf(c, a)].key <==> !KeyMoved(c, a))
    ensures a.Turn? ==> var c := Run(actions).cells[a.i]; LoadOf(c, a) <= LastFiling(c.loads.begun)
  {
    var c := Run(actions).cells[a.i];
    RunAnchored(actions, a.i);
    WritesApply(c, a, Run(actions).entries, |Run(actions).ops|);
  }

  lemma WritesApply(c: Cell, a: Action, entries: map<string, string>, at: nat)
    requires Anchored(c) && Can(c, a) && CellStep(c, a, entries, at).op.Write?
    ensures a.Return? || a.Turn?
    ensures var op, load := CellStep(c, a, entries, at).op, c.loads.begun[LoadOf(c, a)];
            && Some(op.text) == (if a.Return? then a.text else c.loads.waiting[0].text)
            && (Some(op.key) == load.key <==> !KeyMoved(c, a))
    ensures a.Return? ==> a.n + 1 == |c.loads.begun|
    ensures !c.inst.failed
  {
    hide BeginLoad, AppliedIf;
    match a
    case Begin(_, kind, argsChanged, skip) => BeginKeys(c.inst, entries, kind, argsChanged, skip);
    case Return(_, n, text, _) => AppliedKeys(c.inst, c.loads.begun[n], text);
    case Turn(_, _) => AppliedKeys(c.inst, c.loads.begun[c.loads.waiting[0].load], c.loads.waiting[0].text);
    case _ =>
  }

  // ----- when everything is filed right -----

  /** Everything stored, and everything a component was given or wrote, was produced by a load with that key. */
  ghost predicate Provenance(s: State) {
    && (forall k :: k in s.entries ==> (k, s.entries[k]) in s.produced)
    && (forall i, k :: 0 <= i < |s.cells| && k in s.cells[i].filed ==> (k, s.cells[i].filed[k]) in s.produced)
  }

  /** What waits was produced too, if it is not a fallback - after which nothing is written -, and so is what comes. */
  ghost predicate Fetched(c: Cell, produced: set<(string, string)>) {
    && (c.loads.recovering != {} ==> c.inst.failed)
    && (!c.inst.failed ==> forall r :: r in c.loads.waiting && r.text.Some? && c.loads.begun[r.load].key.Some? ==>
            (c.loads.begun[r.load].key.value, r.text.value) in produced)
  }

  lemma StepFetched(s: State, a: Action)
    requires Possible(s, a) && Acts(a) && Fetched(s.cells[a.i], s.produced)
    ensures Fetched(CellAfter(s.cells[a.i], a, s.entries, |s.ops|), s.produced + Product(s, a))
  {
    var c := s.cells[a.i];
    hide BeginLoad, AppliedIf;
    match a
    case Begin(_, kind, argsChanged, skip) => BeginKeys(c.inst, s.entries, kind, argsChanged, skip);
    case Return(_, n, text, _) => AppliedKeys(c.inst, c.loads.begun[n], text);
    case Turn(_, _) => AppliedKeys(c.inst, c.loads.begun[c.loads.waiting[0].load], c.loads.waiting[0].text);
    case _ =>
  }

  /** A write under the load's own key is of something it produced. */
  lemma WriteProduced(s: State, a: Action)
    requires Possible(s, a) && Acts(a) && Anchored(s.cells[a.i]) && Fetched(s.cells[a.i], s.produced)
    requires OpOf(s, a).Write? && !KeyMoved(s.cells[a.i], a)
    ensures (OpOf(s, a).key, OpOf(s, a).text) in s.produced + Product(s, a)
  {
    WritesApply(s.cells[a.i], a, s.entries, |s.ops|);
    assert a.Turn? ==> s.cells[a.i].loads.waiting[0] in s.cells[a.i].loads.waiting;
  }

  /** No step of the run writes a result whose key has moved. */
  ghost predicate NoneMoves(actions: seq<Action>) {
    forall n :: 0 <= n < |actions| && Possible(Run(actions[..n]), actions[n]) ==> Stays(Run(actions[..n]), actions[n])
  }

  predicate Stays(s: State, a: Action)
    requires Possible(s, a)
  {
    Acts(a) && (a.Return? || a.Turn?) && OpOf(s, a).Write? ==> !KeyMoved(s.cells[a.i], a)
  }

  ghost predicate Kept(s: State) {
    Provenance(s) && forall i :: 0 <= i < |s.cells| ==> Fetched(s.cells[i], s.produced) && Anchored(s.cells[i])
  }

  lemma FetchedMore(c: Cell, produced: set<(string, string)>, more: set<(string, string)>)
    requires Fetched(c, produced)
    ensures Fetched(c, produced + more)
  {
  }

  /** Reads give what is stored. */
  lemma ReadsGive(c: Cell, a: Action, entries: map<string, string>, at: nat)
    requires Can(c, a)
    ensures var o := CellStep(c, a, entries, at);
            && o.cell.filed == c.filed
            && (o.op.Read? && o.op.given.Some? ==> o.op.key in entries && o.op.given.value == entries[o.op.key])
  {
    hide BeginLoad, AppliedIf;
    match a
    case Begin(_, kind, argsChanged, skip) => BeginReads(c.inst, entries, kind, argsChanged, skip);
    case Return(_, n, text, _) => AppliedKeys(c.inst, c.loads.begun[n], text);
    case Turn(_, _) => AppliedKeys(c.inst, c.loads.begun[c.loads.waiting[0].load], c.loads.waiting[0].text);
    case _ =>
  }

  lemma BeginReads(c: Inst, entries: map<string, string>, kind: Kind, argsChanged: bool, skip: bool)
    ensures var op := BeginLoad(c, entries, kind, argsChanged, skip).op;
            op.Read? && op.given.Some? ==> op.key in entries && op.given.value == entries[op.key]
  {
  }

  /** What an access carries. */
  function Carried(op: Op): set<(string, string)> {
    match op
    case NoOp => {}
    case Read(key, given) => if given.Some? then {(key, given.value)} else {}
    case Write(key, text) => {(key, text)}
  }

  ghost predicate Within(m: map<string, string>, before: map<string, string>, more: set<(string, string)>) {
    forall k :: k in m ==> (k in before && m[k] == before[k]) || (k, m[k]) in more
  }

  lemma CellActs(s: State, a: Action)
    requires Possible(s, a) && Acts(a)
    ensures var o, t := CellStep(s.cells[a.i], a, s.entries, |s.ops|), Step(s, a);
            && t.produced == s.produced + Product(s, a)
            && Within(t.entries, s.entries, if o.op.Write? then Carried(o.op) else {})
            && Within(t.cells[a.i].filed, o.cell.filed, Carried(o.op))
  {
    hide CellStep, Product, Can;
  }

  lemma ActsKeep(s: State, a: Action)
    requires Kept(s) && Possible(s, a) && Acts(a) && Stays(s, a)
    ensures Kept(Step(s, a))
  {
    var c, t := s.cells[a.i], Step(s, a);
    StepFetched(s, a);
    StepAnchored(c, a, s.entries, |s.ops|);
    CellActs(s, a);
    ActsProvenance(s, a);
    hide CellStep, Product, Can, Fetched, Anchored, Stays, Provenance;
    forall i: nat | i < |t.cells| ensures Fetched(t.cells[i], t.produced) && Anchored(t.cells[i]) {
      StepCell(s, a, i);
      if i != a.i { FetchedMore(s.cells[i], s.produced, Product(s, a)); }
    }
  }

  /** What the step files, if anything, was produced. */
  lemma CarriedProduced(s: State, a: Action)
    requires Kept(s) && Possible(s, a) && Acts(a) && Stays(s, a)
    ensures Carried(OpOf(s, a)) <= s.produced + Product(s, a)
    ensures CellStep(s.cells[a.i], a, s.entries, |s.ops|).cell.filed == s.cells[a.i].filed
  {
    assert Fetched(s.cells[a.i], s.produced) && Anchored(s.cells[a.i]);
    ReadsGive(s.cells[a.i], a, s.entries, |s.ops|);
    if OpOf(s, a).Write? {
      WritesApply(s.cells[a.i], a, s.entries, |s.ops|);
      WriteProduced(s, a);
    }
    hide CellStep, Product, Can, Fetched, Anchored, KeyMoved;
  }

  lemma ActsProvenance(s: State, a: Action)
    requires Kept(s) && Possible(s, a) && Acts(a) && Stays(s, a)
    ensures Provenance(Step(s, a))
  {
    var t := Step(s, a);
    CellActs(s, a);
    CarriedProduced(s, a);
    hide CellStep, Product, Can, Fetched, Anchored, Stays, Carried;
    forall i: nat | i < |t.cells| ensures i < |s.cells| && (i != a.i ==> t.cells[i] == s.cells[i]) {
      StepCell(s, a, i);
    }
    hide Step;
    forall i, k | 0 <= i < |t.cells| && k in t.cells[i].filed ensures (k, t.cells[i].filed[k]) in t.produced {
      if i == a.i { assert (k, t.cells[i].filed[k]) in Carried(OpOf(s, a)) || k in s.cells[i].filed; }
    }
  }

  lemma AppearKeeps(s: State, a: Action)
    requires Kept(s) && a.Appear?
    ensures Kept(Step(s, a))
  {
    var t := Step(s, a);
    BornAnchored(a.key, a.data, s.entries, a.skip);
    forall i: nat | i < |t.cells|
      ensures Fetched(t.cells[i], t.produced) && Anchored(t.cells[i])
      ensures forall k :: k in t.cells[i].filed ==> (k, t.cells[i].filed[k]) in t.produced
    {
      StepCell(s, a, i);
    }
  }

  lemma {:induction false} RunKept(actions: seq<Action>)
    requires NoneMoves(actions)
    ensures Kept(Run(actions))
    decreases |actions|
  {
    if actions == [] {
      assert Kept(INITIAL);
    } else {
      var front, a := actions[..|actions| - 1], actions[|actions| - 1];
      forall n | 0 <= n < |front| ensures front[..n] == actions[..n] && front[n] == actions[n] {}
      assert actions[..|front|] == front;
      hide Kept, Step, Possible, Stays;
      RunKept(front);
      if Possible(Run(front), a) {
        CanNow(Run(front), a);
        if a.Appear? {
          AppearKeeps(Run(front), a);
        } else if a.Evict? {
          EvictKeeps(Run(front), a);
        } else {
          ActsKeep(Run(front), a);
        }
      }
    }
  }

  lemma EvictKeeps(s: State, a: Action)
    requires Kept(s) && a.Evict?
    ensures Kept(Step(s, a))
  {
  }

  /** If no result is written after its key has moved, every stored entry was produced by a load whose args have its
      key, and so was whatever a component wrote or was given. */
  lemma {:induction false} FiledUnderItsKey(actions: seq<Action>)
    requires NoneMoves(actions)
    ensures var s := Run(actions);
            && (forall k :: k in s.entries ==> (k, s.entries[k]) in s.produced)
            && (forall i, k :: 0 <= i < |s.cells| && k in s.cells[i].filed ==> (k, s.cells[i].filed[k]) in s.produced)
  {
    RunKept(actions);
  }

  // ----- after a failure -----

  /** A component that has failed makes no access after its first failure. */
  ghost predicate Silent(i: nat, c: Cell, ops: seq<(nat, Op)>) {
    && (c.failedAt.Some? <==> c.inst.failed)
    && (c.failedAt.Some? ==> c.failedAt.value <= |ops| && forall n :: c.failedAt.value <= n < |ops| ==> ops[n].0 != i)
  }

  lemma StepSilent(i: nat, c: Cell, a: Action, entries: map<string, string>, ops: seq<(nat, Op)>)
    requires Can(c, a) && Silent(i, c, ops)
    ensures var o := CellStep(c, a, entries, |ops|);
            (c.inst.failed ==> o.op.NoOp?) && (!o.op.NoOp? ==> !o.cell.inst.failed)
    ensures Silent(i, CellAfter(c, a, entries, |ops|), ops)
  {
    hide AppliedIf;
    match a
    case Begin(_, kind, argsChanged, skip) =>
    case Return(_, n, text, _) => AppliedKeys(c.inst, c.loads.begun[n], text);
    case Turn(_, _) => AppliedKeys(c.inst, c.loads.begun[c.loads.waiting[0].load], c.loads.waiting[0].text);
    case _ =>
  }

  lemma StepOps(s: State, a: Action)
    requires Possible(s, a)
    ensures a.Evict? ==> Step(s, a).ops == s.ops
    ensures a.Appear? ==> Step(s, a).ops == s.ops || exists op :: Step(s, a).ops == s.ops + [(|s.cells|, op)]
    ensures Acts(a) ==> var op := CellStep(s.cells[a.i], a, s.entries, |s.ops|).op;
            Step(s, a).ops == if op.NoOp? then s.ops else s.ops + [(a.i, op)]
  {
    hide CellStep, Can, Product;
  }

  lemma ActsSilent(s: State, a: Action, i: nat)
    requires Possible(s, a) && Acts(a) && i < |s.cells|
    requires Silent(i, s.cells[i], s.ops) && Silent(a.i, s.cells[a.i], s.ops)
    ensures Silent(i, Step(s, a).cells[i], Step(s, a).ops)
  {
    StepOps(s, a);
    StepCell(s, a, i);
    StepSilent(a.i, s.cells[a.i], a, s.entries, s.ops);
    hide CellStep, Step, Can;
  }

  lemma OtherSilent(s: State, a: Action, i: nat)
    requires Possible(s, a) && !Acts(a) && i < |Step(s, a).cells|
    requires i < |s.cells| ==> Silent(i, s.cells[i], s.ops)
    ensures Silent(i, Step(s, a).cells[i], Step(s, a).ops)
  {
    StepOps(s, a);
    StepCell(s, a, i);
    hide Step;
  }

  lemma {:induction false} RunSilent(actions: seq<Action>, i: nat)
    requires i < |Run(actions).cells|
    ensures Silent(i, Run(actions).cells[i], Run(actions).ops)
    decreases |actions|
  {
    if actions != [] {
      hide Silent, Step, Possible;
      var front, a := actions[..|actions| - 1], actions[|actions| - 1];
      var s := Run(front);
      if i < |s.cells| { RunSilent(front, i); }
      if Possible(s, a) {
        CanNow(s, a);
        StepCell(s, a, i);
        if Acts(a) {
          RunSilent(front, a.i);
          ActsSilent(s, a, i);
        } else {
          OtherSilent(s, a, i);
        }
      }
    }
  }

  /** After its first failed load a component never accesses the storage again, later successes included. */
  lemma {:induction false} FailureEndsCaching(actions: seq<Action>, i: nat, n: nat)
    requires var s := Run(actions);
             i < |s.cells| && s.cells[i].failedAt.Some? && s.cells[i].failedAt.value <= n < |s.ops|
    ensures Run(actions).ops[n].0 != i
  {
    RunSilent(actions, i);
  }
}

/** What becomes of 'ready': the readiness half of the lifecycle invariant. */
module LifecycleReady {
  import opened Options
  import opened ComponentQueues
  import opened LifecycleRuns

  /** A lock holder whose executor has still to reach its 'ready' point. */
  ghost predicate Due(c: Cycle) { Owns(c) && !c.settled && ReadyKey(c.entry.key) && c.stage != Pointed }

  ghost predicate HolderDue(cycles: map<nat, Cycle>) { exists a :: a in cycles && Due(cycles[a]) }

  /** The lock holder's on_ready() runs or has run, so only a throw or a stop keeps it from its 'ready' point. */
  ghost predicate HolderReadying(cycles: map<nat, Cycle>) {
    exists a :: a in cycles && Due(cycles[a]) && cycles[a].stage != Working
  }

  ghost predicate PendingDue(pending: seq<Entry>) { exists i :: 0 <= i < |pending| && ReadyKey(pending[i].key) }

  ghost predicate StagesReadyKey(cycles: map<nat, Cycle>) {
    forall a :: a in cycles && cycles[a].stage != Working ==> ReadyKey(cycles[a].entry.key)
  }

  /** 'ready' is never lost: while it has not fired it is owed, or a queued or running cycle will reach it. */
  ghost predicate ReadyKept(q: Queue, cycles: map<nat, Cycle>, owed: bool, ready: bool, live: bool) {
    && StagesReadyKey(cycles)
    && (live && !ready ==> owed || PendingDue(q.pending) || HolderDue(cycles))
    && (live && q.promotedRunning > 0 ==> owed || HolderReadying(cycles))
  }

  ghost predicate OwedBusy(s: State) { s.owed && !s.stopped ==> s.queue.busy }

  ghost predicate Live(s: State) { !s.stopped && !s.threw }

  ghost predicate Readiness(s: State) {
    OwedBusy(s) && ReadyKept(s.queue, s.cycles, s.owed, s.ready, Live(s))
  }

  // On the parts ReadyKept speaks of.

  lemma QueuedKept(q: Queue, key: Key, caller: nat, cycles: map<nat, Cycle>, owed: bool, ready: bool, live: bool)
    requires ReadyKept(q, cycles, owed, ready, live) && q.busy
    ensures ReadyKept(Enqueue(q, key, caller).0, cycles, owed, ready && key != RenderKey, live)
  {
    var p := Enqueue(q, key, caller).0;
    assert p.pending[|p.pending| - 1].key == key;
    if PendingDue(q.pending) {
      var i :| 0 <= i < |q.pending| && ReadyKey(q.pending[i].key);
      assert ReadyKey(p.pending[i].key);
    }
  }

  lemma StartedKept(q: Queue, p: Queue, cycles: map<nat, Cycle>, e: Entry, was: bool, owed: bool, ready: bool,
                    now: bool,
                    live: bool)
    requires ReadyKept(q, cycles, owed, ready, live) && Unowned(cycles) && p.promotedRunning == 0 && e.id !in cycles
    requires q.pending == p.pending || q.pending == [e] + p.pending
    requires now == ready || ReadyKey(e.key)
    ensures ReadyKept(p, cycles[e.id := Starting(Held, e, was)], owed, now, live)
  {
    var c := Starting(Held, e, was);
    if ReadyKey(e.key) {
      assert Due(cycles[e.id := c][e.id]);
    } else if PendingDue(q.pending) {
      var i :| 0 <= i < |q.pending| && ReadyKey(q.pending[i].key);
      assert (i < |p.pending| && p.pending[i] == q.pending[i]) || (i > 0 && p.pending[i - 1] == q.pending[i]);
    }
  }

  lemma PromotedKept(q: Queue, p: Queue, cycles: map<nat, Cycle>, e: Entry, was: bool, owed: bool, ready: bool,
                     now: bool,
                    live: bool)
    requires ReadyKept(q, cycles, owed, ready, live) && e.id !in cycles
    requires live ==> owed || HolderReadying(cycles)
    ensures ReadyKept(p, cycles[e.id := Starting(Promoted, e, was)], owed, now, live)
  {
    var after := cycles[e.id := Starting(Promoted, e, was)];
    if HolderReadying(cycles) {
      var a :| a in cycles && Due(cycles[a]) && cycles[a].stage != Working;
      assert Due(after[a]) && after[a].stage != Working;
    }
  }

  /** Replacing one executor's record by one just as due. */
  lemma ChangedKept(q: Queue, cycles: map<nat, Cycle>, id: nat, c: Cycle, owed: bool, ready: bool, now: bool,
                    live: bool)
    requires ReadyKept(q, cycles, owed, ready, live) && id in cycles
    requires (Due(cycles[id]) ==> Due(c)) && (cycles[id].stage != Working ==> c.stage != Working)
    requires c.stage != Working ==> ReadyKey(c.entry.key)
    requires ready && !now ==> Due(c) || q.promotedRunning > 0
    ensures ReadyKept(q, cycles[id := c], owed, now, live)
  {
    if HolderDue(cycles) {
      var a :| a in cycles && Due(cycles[a]);
      assert Due(cycles[id := c][a]);
    }
    if HolderReadying(cycles) {
      var a :| a in cycles && Due(cycles[a]) && cycles[a].stage != Working;
      assert Due(cycles[id := c][a]) && cycles[id := c][a].stage != Working;
    }
    if Due(c) {
      assert Due(cycles[id := c][id]);
    }
  }

  lemma PointedKept(q: Queue, cycles: map<nat, Cycle>, id: nat, owed: bool, ready: bool, defer: bool, live: bool)
    requires ReadyKept(q, cycles, owed, ready, live) && id in cycles && ReadyKey(cycles[id].entry.key)
    requires q.promotedRunning > 0 ==> defer
    ensures ReadyKept(q, cycles[id := cycles[id].(stage := Pointed)], defer, ready || !defer, live)
  {
  }

  lemma EndedKept(q: Queue, p: Queue, cycles: map<nat, Cycle>, id: nat, owed: bool, ready: bool, live: bool)
    requires ReadyKept(q, cycles, owed, ready, live) && id in cycles && cycles[id].settled
    requires p.promotedRunning <= q.promotedRunning && p.pending == q.pending
    ensures ReadyKept(p, Without(cycles, id), owed, ready, live)
  {
    var rest := Without(cycles, id);
    if HolderDue(cycles) {
      var a :| a in cycles && Due(cycles[a]);
      assert a in rest && Due(rest[a]);
    }
    if HolderReadying(cycles) {
      var a :| a in cycles && Due(cycles[a]) && cycles[a].stage != Working;
      assert a in rest && Due(rest[a]) && rest[a].stage != Working;
    }
  }

  /** The lock comes to rest: what was owed fires, and nothing else was outstanding. */
  lemma IdleKept(q: Queue, p: Queue, cycles: map<nat, Cycle>, owed: bool, ready: bool, stopped: bool, threw: bool)
    requires ReadyKept(q, cycles, owed, ready, !stopped && !threw) && Unowned(cycles)
    requires q.pending == [] && p.pending == [] && p.promotedRunning == 0
    ensures var fires := owed && !stopped;
            ReadyKept(p, cycles, owed && !fires, ready || fires, !stopped && !threw)
  {
  }

  // On whole steps.

  lemma ReadyCall(s: State, key: Key)
    requires Structure(s) && Readiness(s) && Enabled(s, Call(key))
    ensures Readiness(Tick(StepCall(s, key)))
  {
    hide Ids, CycleIds, Hooks, Alone, Lock, NewHandle, Unowned, PromotedIn, ReadyKept;
    if s.queue.busy {
      QueuedKept(s.queue, key, |s.calls.keyOf|, s.cycles, s.owed, s.ready, Live(s));
    } else {
      IdleOrTimerIsFree(s.queue, s.cycles, s.timers);
      FreshIdFacts(s.queue.pending, s.queue.nextId, s.begun, s.clock, s.heldStarts);
      NotStarted(s.cycles, s.begun, s.heldStarts, s.queue.nextId);
      var e := Entry(s.queue.nextId, key, [|s.calls.keyOf|]);
      var p := Enqueue(s.queue, key, |s.calls.keyOf|).0;
      StartedKept(s.queue, p, s.cycles, e, s.ready &&
          key != RenderKey, s.owed, s.ready, StepCall(s, key).ready, Live(s));
    }
  }

  lemma PromotedExists(q: Queue, cycles: map<nat, Cycle>, timers: nat, a: nat)
    requires Lock(q, cycles, timers) && a in cycles && cycles[a].role == Promoted
    ensures q.promotedRunning > 0
  {
    assert a in PromotedIn(cycles);
  }

  lemma ReadyingBy(cycles: map<nat, Cycle>, a: nat)
    requires a in cycles && Due(cycles[a]) && cycles[a].stage != Working
    ensures HolderReadying(cycles)
  {
  }

  /** Promotion happens only while the lock holder is in its on_ready() or past it, or 'ready' is owed. */
  lemma PromotionFindsReadying(s: State, owner: nat)
    requires Structure(s) && Readiness(s) && Live(s)
    requires owner < |s.hooks| && !s.hooks[owner].settled && s.hooks[owner].name == OnReady
    ensures s.owed || HolderReadying(s.cycles)
  {
    hide Lock, Ids, CycleIds, Hooks, Alone, HolderReadying, HolderDue, PendingDue;
    var a := OwnerOfUnsettledReady(s, owner);
    if s.cycles[a].role == Promoted {
      PromotedExists(s.queue, s.cycles, s.timers, a);
    } else {
      ReadyingBy(s.cycles, a);
    }
  }

  lemma ReadyPromote(s: State, entry: nat, owner: nat)
    requires Structure(s) && Readiness(s)
    requires owner < |s.hooks| && !s.hooks[owner].settled && s.hooks[owner].name == OnReady
    requires IndexOf(s.queue.pending, entry) < |s.queue.pending|
    ensures Readiness(Tick(StepAwait(s, entry, owner)))
  {
    hide Lock, Ids, CycleIds, Hooks, Alone, ReadyKept, HolderReadying;
    var k := IndexOf(s.queue.pending, entry);
    var e := s.queue.pending[k];
    PendingFacts(s.queue.pending, s.queue.nextId, s.begun, s.clock, s.heldStarts, k);
    NotStarted(s.cycles, s.begun, s.heldStarts, e.id);
    if Live(s) {
      PromotionFindsReadying(s, owner);
    }
    var q := Promote(s.queue, entry).0;
    PromotedKept(s.queue, q, s.cycles, e, s.ready, s.owed, s.ready, s.ready && (s.stopped || !Reloads(e.key)), Live(s));
  }

  lemma ReadyAwait(s: State, entry: nat, owner: nat)
    requires Structure(s) && Readiness(s) && Enabled(s, Await(entry, owner))
    ensures Readiness(Tick(StepAwait(s, entry, owner)))
  {
    hide Structure, ReadyKept;
    StructureHooks(s);
    HandleFacts(s, (entry, owner));
    if !s.hooks[owner].settled && IndexOf(s.queue.pending, entry) < |s.queue.pending| {
      ReadyPromote(s, entry, owner);
    }
  }

  lemma StructureHooks(s: State)
    requires Structure(s)
    ensures Hooks(s.cycles, s.hooks, s.handles)
  {
  }

  lemma ReadyRender(s: State, id: nat)
    requires Structure(s) && Readiness(s) && Enabled(s, Render(id))
    ensures Readiness(Tick(StepRender(s, id)))
  {
    hide Lock, Ids, CycleIds, Hooks, Alone, ReadyKept;
    var t := StepRender(s, id);
    if s.cycles[id].role == Promoted {
      PromotedExists(s.queue, s.cycles, s.timers, id);
    }
    ChangedKept(s.queue, s.cycles, id, t.cycles[id], s.owed, s.ready, false, Live(s));
  }

  lemma ReadyHookStart(s: State, id: nat, name: HookName)
    requires Structure(s) && Readiness(s) && Enabled(s, HookStart(id, name))
    ensures Readiness(Tick(StepHookStart(s, id, name)))
  {
    hide Lock, Ids, CycleIds, Hooks, Alone, ReadyKept;
    ChangedKept(s.queue, s.cycles, id, StepHookStart(s, id, name).cycles[id], s.owed, s.ready, s.ready, Live(s));
  }

  lemma StageReadyKey(q: Queue, cycles: map<nat, Cycle>, owed: bool, ready: bool, live: bool, id: nat)
    requires ReadyKept(q, cycles, owed, ready, live) && id in cycles && cycles[id].stage != Working
    ensures ReadyKey(cycles[id].entry.key)
  {
  }

  lemma ReadyHookSettle(s: State, id: nat)
    requires Structure(s) && Readiness(s) && Enabled(s, HookSettle(id))
    ensures Readiness(Tick(StepHookSettle(s, id)))
  {
    hide Structure, Hooks, ReadyKept;
    StructureHooks(s);
    HookSettleHooks(s, id);
    if s.cycles[id].stage != Working {
      StageReadyKey(s.queue, s.cycles, s.owed, s.ready, Live(s), id);
    }
    ChangedKept(s.queue, s.cycles, id, StepHookSettle(s, id).cycles[id], s.owed, s.ready, s.ready, Live(s));
  }

  lemma ExecutorBusy(q: Queue, cycles: map<nat, Cycle>, timers: nat, id: nat)
    requires Lock(q, cycles, timers) && id in cycles
    ensures q.busy
  {
    if cycles[id].role == Promoted {
      PromotedExists(q, cycles, timers, id);
    }
  }

  lemma ReadyReadyPoint(s: State, id: nat)
    requires Structure(s) && Readiness(s) && Enabled(s, ReadyPoint(id))
    ensures Readiness(Tick(StepReadyPoint(s, id)))
  {
    hide Lock, Ids, CycleIds, Hooks, Alone, ReadyKept;
    ExecutorBusy(s.queue, s.cycles, s.timers, id);
    PointedKept(s.queue, s.cycles, id, s.owed, s.ready, StepReadyPoint(s, id).owed, Live(s));
  }

  /** Only a throw, a stop or a 'ready' point ends the executor of a lock holder that owes one. */
  lemma ReturnNotDue(s: State, id: nat)
    requires Alone(s.cycles, s.queue.promotedRunning, s.renderCount, s.loadSeq)
    requires Enabled(s, Return(id, false)) && !s.stopped
    ensures !Due(s.cycles[id])
  {
  }

  lemma ReadyReturn(s: State, id: nat, throws: bool)
    requires Structure(s) && Readiness(s) && Enabled(s, Return(id, throws))
    ensures Readiness(Tick(StepReturn(s, id, throws)))
  {
    hide Lock, Ids, CycleIds, Hooks, Alone;
    var t := StepReturn(s, id, throws);
    if !throws && !s.stopped {
      ReturnNotDue(s, id);
      ChangedKept(s.queue, s.cycles, id, t.cycles[id], s.owed, s.ready, s.ready, Live(s));
    }
  }

  ghost predicate Settles(s: State, q: Queue, effect: Effect) {
    var fires := effect == Idle && s.owed && !s.stopped;
    && (effect != Idle ==> q.busy)
    && ReadyKept(q, s.cycles, s.owed && !fires, s.ready || fires, Live(s))
  }

  lemma ApplyReady(s: State, q: Queue, effect: Effect)
    requires Settles(s, q, effect) && !effect.Start? && !effect.StartPromoted?
    ensures Readiness(Tick(Apply(s, q, effect)))
  {
    hide ReadyKept;
  }

  lemma EndedSettles(s: State, id: nat)
    requires Lock(s.queue, s.cycles, s.timers) && ReadyKept(s.queue, s.cycles, s.owed, s.ready, Live(s))
    requires id in s.cycles && s.cycles[id].settled
    ensures var (q, effect) := Continued(s.queue, s.cycles[id].role);
            Settles(s.(cycles := Without(s.cycles, id)), q, effect) && !effect.Start? && !effect.StartPromoted?
  {
    hide Lock, ReadyKept, Without, Unowned, Continued;
    var (q, effect) := Continued(s.queue, s.cycles[id].role);
    EndedLock(s.queue, s.cycles, s.timers, id);
    EndedKept(s.queue, q, s.cycles, id, s.owed, s.ready, Live(s));
    ExecutorBusy(s.queue, s.cycles, s.timers, id);
    ContinuedIdle(s.queue, s.cycles[id].role);
    if effect == Idle {
      IdleOrTimerIsFree(q, Without(s.cycles, id), s.timers);
      IdleKept(q, q, Without(s.cycles, id), s.owed, s.ready, s.stopped, s.threw);
    }
  }

  /** Ending a settled executor: the lock comes to rest only when no 'ready' is outstanding. */
  lemma ReadyContinue(s: State, id: nat)
    requires Structure(s) && Readiness(s) && Enabled(s, Continue(id))
    ensures Readiness(Tick(StepContinue(s, id)))
  {
    hide Lock, Ids, CycleIds, Hooks, Alone, ReadyKept, Settles, Continued, Without, Apply;
    var (q, effect) := Continued(s.queue, s.cycles[id].role);
    EndedSettles(s, id);
    ApplyReady(s.(cycles := Without(s.cycles, id)), q, effect);
  }

  lemma ContinuedIdle(q: Queue, role: Role)
    ensures var (p, effect) := Continued(q, role); if effect == Idle then !p.busy else p.busy == q.busy
  {
  }

  lemma ReadyTimerStarts(s: State)
    requires Structure(s) && Readiness(s) && s.timers > 0 && s.queue.pending != []
    ensures Readiness(Tick(StepTimer(s)))
  {
    hide Ids, CycleIds, Hooks, Alone, Lock, ReadyKept, Unowned, PromotedIn;
    IdleOrTimerIsFree(s.queue, s.cycles, s.timers);
    var e := s.queue.pending[0];
    PendingFacts(s.queue.pending, s.queue.nextId, s.begun, s.clock, s.heldStarts, 0);
    NotStarted(s.cycles, s.begun, s.heldStarts, e.id);
    StartedKept(s.queue, TimerFired(s.queue).0, s.cycles, e, s.ready, s.owed, s.ready, StepTimer(s).ready, Live(s));
  }

  lemma ReadyTimerIdles(s: State)
    requires Structure(s) && Readiness(s) && s.timers > 0 && s.queue.pending == []
    ensures Readiness(Tick(StepTimer(s)))
  {
    hide Ids, CycleIds, Hooks, Alone, Lock, ReadyKept, Unowned, PromotedIn;
    IdleOrTimerIsFree(s.queue, s.cycles, s.timers);
    IdleKept(s.queue, TimerFired(s.queue).0, s.cycles, s.owed, s.ready, s.stopped, s.threw);
  }

  lemma ReadyStop(s: State)
    requires Readiness(s)
    ensures Readiness(Tick(s.(stopped := true)))
  {
  }

  lemma StepKeepsReadiness(s: State, a: Action)
    requires Structure(s) && Readiness(s) && Enabled(s, a)
    ensures Readiness(Step(s, a))
  {
    hide Structure, Readiness, StepCall, StepAwait, StepRender, StepHookStart, StepHookSettle, StepReadyPoint,
      StepReturn, StepContinue, StepTimer;
    match a
    case Call(key) => ReadyCall(s, key);
    case Await(entry, owner) => ReadyAwait(s, entry, owner);
    case Render(c) => ReadyRender(s, c);
    case HookStart(c, name) => ReadyHookStart(s, c, name);
    case HookSettle(c) => ReadyHookSettle(s, c);
    case ReadyPoint(c) => ReadyReadyPoint(s, c);
    case Return(c, throws) => ReadyReturn(s, c, throws);
    case Continue(c) => ReadyContinue(s, c);
    case Timer => if s.queue.pending == [] { ReadyTimerIdles(s); } else { ReadyTimerStarts(s); }
    case Stop => ReadyStop(s);
  }
}

/** Exactly when a component whose queue has come to rest is ready, whatever its executors did. */
module LifecycleRest {
  import opened Options
  import opened ComponentQueues
  import opened LifecycleRuns
  import opened LifecycleReady
  import opened LifecycleHistory
  import opened LifecycleTheorems

  /** An executor, promoted or not, that has still to reach its 'ready' point. */
  predicate StillDue(c: Cycle) { !c.settled && Short(c) }

  ghost predicate SomeDue(cycles: map<nat, Cycle>) { exists a :: a in cycles && StillDue(cycles[a]) }

  /** While 'ready' has not fired it is owed, or some call will reach it, or one has ended short of it. */
  ghost predicate RestKept(pending: seq<Entry>, cycles: map<nat, Cycle>, owed: bool, ready: bool, lost: bool,
                           stopped: bool) {
    && (lost ==> !ready)
    && (!stopped && !ready ==> owed || lost || PendingDue(pending) || SomeDue(cycles))
  }

  ghost predicate Rest(s: State) { RestKept(s.queue.pending, s.cycles, s.owed, s.ready, s.lost, s.stopped) }

  // On the parts RestKept speaks of.

  lemma QueuedRest(q: Queue, key: Key, caller: nat, cycles: map<nat, Cycle>, owed: bool, ready: bool, lost: bool,
                   stopped: bool)
    requires RestKept(q.pending, cycles, owed, ready, lost, stopped) && q.busy
    ensures RestKept(Enqueue(q, key, caller).0.pending, cycles, owed, ready && key != RenderKey, lost, stopped)
  {
    var p := Enqueue(q, key, caller).0;
    assert p.pending[|p.pending| - 1].key == key;
    if PendingDue(q.pending) {
      var i :| 0 <= i < |q.pending| && ReadyKey(q.pending[i].key);
      assert ReadyKey(p.pending[i].key);
    }
  }

  /** An entry leaves the queue, if it was there, and starts. */
  lemma StartedRest(before: seq<Entry>, after: seq<Entry>, cycles: map<nat, Cycle>, e: Entry, role: Role, was: bool,
                    owed: bool, ready: bool, now: bool, lost: bool, stopped: bool)
    requires RestKept(before, cycles, owed, ready, lost, stopped) && e.id !in cycles
    requires forall i :: 0 <= i < |before| ==> before[i] == e || before[i] in after
    requires now == ready || (!now && ReadyKey(e.key))
    ensures RestKept(after, cycles[e.id := Starting(role, e, was)], owed, now, lost, stopped)
  {
    var more := cycles[e.id := Starting(role, e, was)];
    if ReadyKey(e.key) {
      assert StillDue(more[e.id]);
    } else if PendingDue(before) {
      var i :| 0 <= i < |before| && ReadyKey(before[i].key);
      assert before[i] in after;
    } else if SomeDue(cycles) {
      var a :| a in cycles && StillDue(cycles[a]);
      assert StillDue(more[a]);
    }
  }

  lemma ChangedRest(pending: seq<Entry>, cycles: map<nat, Cycle>, id: nat, c: Cycle, owed: bool, ready: bool, now: bool,
                    lost: bool,
                    after: bool, stopped: bool)
    requires RestKept(pending, cycles, owed, ready, lost, stopped) && id in cycles
    requires (after ==> !now) && (ready && !now ==> after || StillDue(c))
    requires !now && (lost || (StillDue(cycles[id]) && !StillDue(c))) ==> after
    ensures RestKept(pending, cycles[id := c], owed, now, after, stopped)
  {
    if SomeDue(cycles) {
      var a :| a in cycles && StillDue(cycles[a]);
      assert a != id ==> StillDue(cycles[id := c][a]);
    }
    if StillDue(c) {
      assert StillDue(cycles[id := c][id]);
    }
  }

  lemma EndedRest(pending: seq<Entry>, cycles: map<nat, Cycle>, id: nat, owed: bool, ready: bool, lost: bool,
                  stopped: bool)
    requires RestKept(pending, cycles, owed, ready, lost, stopped) && id in cycles && cycles[id].settled
    ensures RestKept(pending, Without(cycles, id), owed, ready, lost, stopped)
  {
    if SomeDue(cycles) {
      var a :| a in cycles && StillDue(cycles[a]);
      assert StillDue(Without(cycles, id)[a]);
    }
  }

  // On whole steps.

  lemma RestCall(s: State, key: Key)
    requires Structure(s) && Rest(s) && Enabled(s, Call(key))
    ensures Rest(Tick(StepCall(s, key)))
  {
    hide Ids, CycleIds, Hooks, Alone, Lock, NewHandle, Unowned, PromotedIn, RestKept;
    if s.queue.busy {
      QueuedRest(s.queue, key, |s.calls.keyOf|, s.cycles, s.owed, s.ready, s.lost, s.stopped);
    } else {
      IdleOrTimerIsFree(s.queue, s.cycles, s.timers);
      FreshIdFacts(s.queue.pending, s.queue.nextId, s.begun, s.clock, s.heldStarts);
      NotStarted(s.cycles, s.begun, s.heldStarts, s.queue.nextId);
      var e := Entry(s.queue.nextId, key, [|s.calls.keyOf|]);
      StartedRest([], [], s.cycles, e, Held, s.ready &&
          key != RenderKey, s.owed, s.ready, StepCall(s, key).ready, s.lost, s.stopped);
    }
  }

  lemma RestAwait(s: State, entry: nat, owner: nat)
    requires Structure(s) && Rest(s) && Enabled(s, Await(entry, owner))
    ensures Rest(Tick(StepAwait(s, entry, owner)))
  {
    hide Structure, RestKept;
    if owner < |s.hooks| && !s.hooks[owner].settled && IndexOf(s.queue.pending, entry) < |s.queue.pending| {
      RestPromote(s, entry);
    }
  }

  lemma RestPromote(s: State, entry: nat)
    requires Structure(s) && Rest(s) && IndexOf(s.queue.pending, entry) < |s.queue.pending|
    ensures var (q, effect) := Promote(s.queue, entry); Rest(Tick(Apply(s, q, effect)))
  {
    hide Lock, Hooks, Alone, Ids, CycleIds, Rest, Promote, Apply;
    var k := IndexOf(s.queue.pending, entry);
    PendingFacts(s.queue.pending, s.queue.nextId, s.begun, s.clock, s.heldStarts, k);
    NotStarted(s.cycles, s.begun, s.heldStarts, s.queue.pending[k].id);
    RestTaken(s, entry, k);
  }

  lemma RestTaken(s: State, entry: nat, k: nat)
    requires Rest(s) && k == IndexOf(s.queue.pending, entry) < |s.queue.pending| && s.queue.pending[k].id !in s.cycles
    ensures var (q, effect) := Promote(s.queue, entry); Rest(Tick(Apply(s, q, effect)))
  {
    hide RestKept, StartCycle;
    var pending := s.queue.pending;
    var e, rest := pending[k], pending[..k] + pending[k + 1..];
    StartedParts(s.(queue := Promote(s.queue, entry).0), e, Promoted);
    forall i | 0 <= i < |pending| ensures pending[i] == e || pending[i] in rest { StaysIn(pending, k, i); }
    StartedRest(pending, rest, s.cycles, e, Promoted, s.ready, s.owed, s.ready, s.ready &&
        (s.stopped || !Reloads(e.key)),
                s.lost, s.stopped);
  }

  lemma StaysIn(pending: seq<Entry>, k: nat, i: nat)
    requires k < |pending| && i < |pending|
    ensures pending[i] == pending[k] || pending[i] in pending[..k] + pending[k + 1..]
  {
    var rest := pending[..k] + pending[k + 1..];
    assert i < k ==> rest[i] == pending[i];
    assert i > k ==> rest[i - 1] == pending[i];
  }

  lemma LostUnready(s: State)
    requires Rest(s)
    ensures s.lost ==> !s.ready
  {
  }

  lemma RestRender(s: State, id: nat)
    requires Rest(s) && Enabled(s, Render(id))
    ensures Rest(Tick(StepRender(s, id)))
  {
    hide RestKept;
    ChangedRest(s.queue.pending, s.cycles, id, StepRender(s, id).cycles[id], s.owed, s.ready, false, s.lost, s.lost,
        s.stopped);
  }

  lemma RestHook(s: State, a: Action)
    requires Rest(s) && Enabled(s, a) && (a.HookStart? || a.HookSettle?)
    ensures Rest(Step(s, a))
  {
    hide RestKept;
    LostUnready(s);
    var c := s.cycles[a.cycle];
    var t := Step(s, a);
    assert t.cycles == s.cycles[a.cycle := t.cycles[a.cycle]];
    assert t.cycles[a.cycle].entry == c.entry && t.cycles[a.cycle].settled == c.settled
        && (t.cycles[a.cycle].stage == Pointed ==> c.stage == Pointed);
    ChangedRest(s.queue.pending, s.cycles, a.cycle, t.cycles[a.cycle], s.owed, s.ready, s.ready, s.lost, s.lost,
        s.stopped);
  }

  lemma RestPoint(s: State, id: nat)
    requires Rest(s) && Enabled(s, ReadyPoint(id))
    ensures Rest(Tick(StepReadyPoint(s, id)))
  {
  }

  lemma RestReturn(s: State, id: nat, throws: bool)
    requires Rest(s) && Enabled(s, Return(id, throws))
    ensures Rest(Tick(StepReturn(s, id, throws)))
  {
    hide CallersSettled;
    LostUnready(s);
    var t := StepReturn(s, id, throws);
    ChangedRest(s.queue.pending, s.cycles, id, t.cycles[id], s.owed, s.ready, t.ready, s.lost, t.lost, s.stopped);
  }

  lemma RestEffect(s: State, q: Queue, effect: Effect)
    requires RestKept(q.pending, s.cycles, s.owed, s.ready, s.lost, s.stopped) && !effect.Start? &&
             !effect.StartPromoted?
    ensures Rest(Tick(Apply(s, q, effect)))
  {
  }

  lemma RestContinue(s: State, id: nat)
    requires Structure(s) && Rest(s) && Enabled(s, Continue(id))
    ensures Rest(Tick(StepContinue(s, id)))
  {
    hide Lock, Ids, CycleIds, Hooks, Alone, RestKept, Continued, Without, Apply;
    var (q, effect) := Continued(s.queue, s.cycles[id].role);
    EndedLock(s.queue, s.cycles, s.timers, id);
    EndedRest(s.queue.pending, s.cycles, id, s.owed, s.ready, s.lost, s.stopped);
    RestEffect(s.(cycles := Without(s.cycles, id)), q, effect);
  }

  lemma RestTimer(s: State)
    requires Structure(s) && Rest(s) && Enabled(s, Timer)
    ensures Rest(Tick(StepTimer(s)))
  {
    hide Ids, CycleIds, Hooks, Alone, Lock, RestKept, Unowned, PromotedIn;
    if s.queue.pending == [] {
      RestEffect(s.(timers := s.timers - 1), TimerFired(s.queue).0, TimerFired(s.queue).1);
    } else {
      var e := s.queue.pending[0];
      PendingFacts(s.queue.pending, s.queue.nextId, s.begun, s.clock, s.heldStarts, 0);
      NotStarted(s.cycles, s.begun, s.heldStarts, e.id);
      forall i | 0 <= i < |s.queue.pending| ensures s.queue.pending[i] == e ||
          s.queue.pending[i] in s.queue.pending[1..] {
        assert i > 0 ==> s.queue.pending[1..][i - 1] == s.queue.pending[i];
      }
      StartedRest(s.queue.pending, s.queue.pending[1..], s.cycles, e, Held, s.ready, s.owed, s.ready,
          StepTimer(s).ready,
                  s.lost, s.stopped);
    }
  }

  lemma RestStop(s: State)
    requires Rest(s)
    ensures Rest(Tick(s.(stopped := true)))
  {
  }

  lemma StepKeepsRest(s: State, a: Action)
    requires Structure(s) && Rest(s) && Enabled(s, a)
    ensures Rest(Step(s, a))
  {
    hide Structure, Rest, StepCall, StepAwait, StepRender, StepHookStart, StepHookSettle, StepReadyPoint, StepReturn,
      StepContinue, StepTimer;
    match a
    case Call(key) => RestCall(s, key);
    case Await(entry, owner) => RestAwait(s, entry, owner);
    case Render(c) => RestRender(s, c);
    case HookStart(_, _) => RestHook(s, a);
    case HookSettle(_) => RestHook(s, a);
    case ReadyPoint(c) => RestPoint(s, c);
    case Return(c, throws) => RestReturn(s, c, throws);
    case Continue(c) => RestContinue(s, c);
    case Timer => RestTimer(s);
    case Stop => RestStop(s);
  }

  lemma {:induction false} ReachedRest(actions: seq<Action>)
    requires Run(actions).Some?
    ensures Rest(Run(actions).value)
  {
    hide Inv, Rest, Step, Enabled;
    if actions == [] {
      InitRest();
    } else {
      var rest := actions[..|actions| - 1];
      ReachedRest(rest);
      Reached(rest);
      InvStructure(Run(rest).value);
      StepKeepsRest(Run(rest).value, actions[|actions| - 1]);
    }
  }

  lemma InitRest()
    ensures Rest(Init())
  {
    assert StillDue(Init().cycles[0]);
  }

  lemma InvStructure(s: State)
    requires Inv(s)
    ensures Structure(s)
  {
  }

  // ----- the theorems -----

  /** When the queue of a live component has come to rest, the component is ready exactly if, since 'ready' last fired,
      no executor that should have reached its 'ready' point has ended without and left it not ready. */
  lemma {:induction false} ReadyAtRestExactly(actions: seq<Action>)
    requires Run(actions).Some?
    requires var s := Run(actions).value; !s.queue.busy && !s.stopped
    ensures var s := Run(actions).value; s.ready <==> !s.lost
  {
    hide Step;
    ReachedRest(actions);
    BusyExactly(actions);
    OwedReadyHasLock(actions);
    assert Run(actions).value.cycles.Keys == {};
  }

  /** Only such an end loses 'ready': a throw - of a reload() or refresh() that had not found the component ready, or of
      any other executor -, the return of an executor of a stopped component, or the stale return of a promoted one. */
  lemma {:induction false} LostOnlyShort(actions: seq<Action>, a: Action)
    requires Run(actions).Some? && Enabled(Run(actions).value, a)
    requires !Run(actions).value.lost && Step(Run(actions).value, a).lost
    ensures var s := Run(actions).value;
            && a.Return? && Short(s.cycles[a.cycle]) && !s.ready && !Restores(s.cycles[a.cycle], a.throws, s.stopped)
            && (a.throws || s.stopped || s.cycles[a.cycle].role == Promoted)
  {
    var s := Run(actions).value;
    hide Run, StepReturn, Stale, Superseded, Short, Restores;
    OthersKeepLost(s, a);
    HolderReturns(actions, a);
    ReturnLoses(s, a.cycle, a.throws);
  }

  lemma OthersKeepLost(s: State, a: Action)
    requires Enabled(s, a) && !s.lost && Step(s, a).lost
    ensures a.Return?
  {
    hide Apply, Enqueue, Promote, TimerFired, Continued, Without, NewHandle, CallMade, HookBegun, HookSettled,
      LeavesOwed, Called;
    match a
    case Call(key) =>
      var (q, effect, waits) := Enqueue(s.queue, key, |s.calls.keyOf|);
      CalledLost(s, key, waits);
      ApplyLost(Called(s, key, waits), q, effect);
    case Await(entry, _) => var (q, effect) := Promote(s.queue, entry); ApplyLost(s, q, effect);
    case Timer => var (q, effect) := TimerFired(s.queue); ApplyLost(s.(timers := s.timers - 1), q, effect);
    case Continue(c) =>
      var (q, effect) := Continued(s.queue, s.cycles[c].role);
      ApplyLost(s.(cycles := Without(s.cycles, c)), q, effect);
    case Render(_) | ReadyPoint(_) | Return(_, _) | Stop | HookStart(_, _) | HookSettle(_) =>
  }

  lemma ApplyLost(s: State, q: Queue, effect: Effect)
    ensures Apply(s, q, effect).lost ==> s.lost
  {
  }

  lemma CalledLost(s: State, key: Key, waits: Option<nat>)
    ensures Called(s, key, waits).lost == s.lost
  {
    hide CallMade, NewHandle;
  }

  lemma ReturnLoses(s: State, id: nat, throws: bool)
    requires id in s.cycles && !s.lost && StepReturn(s, id, throws).lost
    ensures Short(s.cycles[id]) && !s.ready && !Restores(s.cycles[id], throws, s.stopped)
  {
  }

  lemma {:induction false} HolderReturns(actions: seq<Action>, a: Action)
    requires Run(actions).Some? && Enabled(Run(actions).value, a) && a.Return?
    ensures var s := Run(actions).value;
            Short(s.cycles[a.cycle]) && !a.throws && !s.stopped ==> s.cycles[a.cycle].role == Promoted
  {
    hide Run;
    var s := Run(actions).value;
    if Owns(s.cycles[a.cycle]) { HolderNeverOutdated(actions, a.cycle); }
  }

  // ----- a failing render() and a failing reload() -----

  /** The executor of entry `e` is all there is. */
  ghost predicate Only(s: State, e: nat, c: Cycle) {
    && s.queue.busy && !s.queue.booting && !s.queue.releaseDeferred && s.queue.promotedRunning == 0 &&
        s.queue.pending == []
    && s.cycles == map[e := c] && !s.stopped && !s.owed
  }

  lemma CalledOnly(s: State, key: Key)
    requires Structure(s) && !s.queue.busy && !s.stopped && !s.owed && s.cycles.Keys == {}
    ensures var e := s.queue.nextId;
            var t := Step(s, Call(key));
            Only(t, e, Starting(Held, Entry(e, key, [|s.calls.keyOf|]), s.ready && key != RenderKey))
  {
    hide Ids, CycleIds, Hooks, Alone;
    IdleOrTimerIsFree(s.queue, s.cycles, s.timers);
  }

  lemma RenderedOnly(s: State, e: nat, c: Cycle)
    requires Only(s, e, c) && Running(s, e) && c.stage == Working && ReadyKey(c.entry.key)
    ensures Enabled(s, Render(e)) && Only(Step(s, Render(e)), e, c.(rendered := Some(s.renderCount + 1)))
    ensures !Step(s, Render(e)).ready
  {
  }

  lemma ThrewOnly(s: State, e: nat, c: Cycle)
    requires Only(s, e, c) && Running(s, e) && c.role == Held && !s.ready
    ensures Enabled(s, Return(e, true)) && Only(Step(s, Return(e, true)), e, c.(settled := true))
    ensures Step(s, Return(e, true)).ready == Restores(c, true, false)
  {
    hide CallersSettled;
  }

  lemma EndedOnly(s: State, e: nat, c: Cycle)
    requires Only(s, e, c) && c.settled && c.role == Held
    ensures Enabled(s, Continue(e))
    ensures var t := Step(s, Continue(e)); !t.queue.busy && !t.stopped && t.ready == s.ready
  {
  }

  ghost function Failing(key: Key, e: nat): seq<Action> { [Call(key), Render(e), Return(e, true), Continue(e)] }

  lemma FailedSteps(s: State, key: Key)
    requires Structure(s) && !s.queue.busy && !s.stopped && !s.owed && s.cycles.Keys == {} && s.ready
    requires key in {RenderKey, ReloadKey, RefreshKey}
    ensures Enabled(s, Call(key))
    ensures var e, s1 := s.queue.nextId, Step(s, Call(key));
            Enabled(s1, Render(e)) &&
            var s2 := Step(s1, Render(e));
            Enabled(s2, Return(e, true)) &&
            var s3 := Step(s2, Return(e, true));
            Enabled(s3, Continue(e)) &&
            var s4 := Step(s3, Continue(e));
            !s4.queue.busy && !s4.stopped && (s4.ready <==> key != RenderKey)
  {
    hide Structure, Only, Step, Running;
    var e := s.queue.nextId;
    CalledOnly(s, key);
    var s1, c := Step(s, Call(key)), Starting(Held, Entry(e, key, [|s.calls.keyOf|]), s.ready && key != RenderKey);
    OnlyRuns(s1, e, c);
    RenderedOnly(s1, e, c);
    var s2, c2 := Step(s1, Render(e)), c.(rendered := Some(s1.renderCount + 1));
    OnlyRuns(s2, e, c2);
    ThrewOnly(s2, e, c2);
    EndedOnly(Step(s2, Return(e, true)), e, c2.(settled := true));
  }

  /** A component at rest and ready: a render() whose executor throws after rendering leaves it not ready, a reload()
      or refresh() that does leaves it ready. */
  lemma {:induction false} FailedCycle(actions: seq<Action>, key: Key)
    requires Run(actions).Some? && key in {RenderKey, ReloadKey, RefreshKey}
    requires var s := Run(actions).value; !s.queue.busy && !s.stopped && s.ready
    ensures var r := Run(actions + Failing(key, Run(actions).value.queue.nextId));
            r.Some? && !r.value.queue.busy && !r.value.stopped && (r.value.ready <==> key != RenderKey)
  {
    hide Structure, Inv, Run, Step, Enabled;
    var s := Run(actions).value;
    var e := s.queue.nextId;
    Reached(actions);
    BusyExactly(actions);
    OwedReadyHasLock(actions);
    InvStructure(s);
    FailedSteps(s, key);
    OneMore(actions, Call(key));
    OneMore(actions + [Call(key)], Render(e));
    OneMore(actions + [Call(key)] + [Render(e)], Return(e, true));
    OneMore(actions + [Call(key)] + [Render(e)] + [Return(e, true)], Continue(e));
    assert actions + [Call(key)] + [Render(e)] + [Return(e, true)] + [Continue(e)] == actions + Failing(key, e);
  }

  lemma OnlyRuns(s: State, e: nat, c: Cycle)
    requires Only(s, e, c) && !c.settled && c.hook.None?
    ensures Running(s, e)
  {
  }

  lemma OneMore(actions: seq<Action>, a: Action)
    requires Run(actions).Some? && Enabled(Run(actions).value, a)
    ensures Run(actions + [a]) == Some(Step(Run(actions).value, a))
  {
    assert (actions + [a])[..|actions|] == actions;
    hide Step, Enabled;
  }
}

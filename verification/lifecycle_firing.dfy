/** When 'ready' fires: never inside another cycle, and never before the calls boot left waiting. */
module LifecycleFiring {
  import opened Options
  import opened ComponentQueues
  import opened LifecycleRuns
  import opened LifecycleReady
  import opened LifecycleHistory
  import opened LifecycleTheorems

  /** At its ready point boot fires 'ready' exactly if no call waits and no promoted executor runs, an entry exactly if
      none runs - itself, for a promoted one - and 'ready' is not owed already; otherwise it is owed. */
  lemma {:induction false} FiresExactly(actions: seq<Action>, id: nat)
    requires Run(actions).Some? && Enabled(Run(actions).value, ReadyPoint(id))
    ensures var s := Run(actions).value;
            var t, boot := Step(s, ReadyPoint(id)), s.cycles[id].role == Boot;
            && (t.owed <==> (exists a :: a in s.cycles && s.cycles[a].role == Promoted)
                            || (if boot then s.queue.pending != [] else s.owed))
            && (if t.owed then t.ready == s.ready else t.ready)
            && (s.cycles[id].role == Promoted ==> t.owed)
  {
    hide Ids, CycleIds, Hooks, Alone, Readiness, History, Order;
    Reached(actions);
    var s := Run(actions).value;
    assert s.queue.promotedRunning == |PromotedIn(s.cycles)|;
    if a :| a in s.cycles && s.cycles[a].role == Promoted {
      assert a in PromotedIn(s.cycles);
    } else {
      assert PromotedIn(s.cycles) == {};
    }
  }

  /** An owed 'ready' fires when the queue goes idle, and nowhere else but at boot's own ready point, with nothing
      waiting and no promoted executor running. */
  lemma {:induction false} OwedFiresAtRest(actions: seq<Action>, a: Action)
    requires Run(actions).Some? && Enabled(Run(actions).value, a)
    requires Run(actions).value.owed && !Step(Run(actions).value, a).owed
    ensures var s := Run(actions).value;
            || !Step(s, a).queue.busy
            || (a.ReadyPoint? && s.cycles[a.cycle].role == Boot && s.queue.pending == [] &&
                s.queue.promotedRunning == 0)
  {
    var s := Run(actions).value;
    hide Run, Enqueue, Promote, TimerFired, Continued, HookBegun, HookSettled, CallMade, NewHandle, Restores, Short,
      CallersSettled;
    match a
    case Call(key) =>
      var (q, effect, waits) := Enqueue(s.queue, key, |s.calls.keyOf|);
      CallNotIdle(s.queue, key, |s.calls.keyOf|);
      ApplyOwes(Called(s, key, waits), q, effect);
    case Await(entry, _) =>
      var (q, effect) := Promote(s.queue, entry);
      PromoteNotIdle(s.queue, entry);
      ApplyOwes(s, q, effect);
    case Timer =>
      var (q, effect) := TimerFired(s.queue);
      FiredIdle(s.queue);
      ApplyOwes(s.(timers := s.timers - 1), q, effect);
    case Continue(c) =>
      var (q, effect) := Continued(s.queue, s.cycles[c].role);
      ContinuedIdle(s.queue, s.cycles[c].role);
      ApplyOwes(s.(cycles := Without(s.cycles, c)), q, effect);
    case _ =>
  }

  lemma ApplyOwes(s: State, q: Queue, effect: Effect)
    ensures Apply(s, q, effect).queue == q && (!effect.Idle? ==> Apply(s, q, effect).owed == s.owed)
  {
  }

  lemma CallNotIdle(q: Queue, key: Key, caller: nat)
    ensures !Enqueue(q, key, caller).1.Idle?
  {
  }

  lemma PromoteNotIdle(q: Queue, id: nat)
    ensures !Promote(q, id).1.Idle?
  {
  }

  lemma FiredIdle(q: Queue)
    ensures TimerFired(q).1.Idle? ==> !TimerFired(q).0.busy
  {
  }

  lemma ContinuedIdle(q: Queue, role: Role)
    ensures Continued(q, role).1.Idle? ==> !Continued(q, role).0.busy
  {
  }

  // ----- a stopped component -----

  /** The action stops the component: a stop, or a throw that ends its boot. */
  ghost predicate Stops(s: State, a: Action) {
    a == Stop || (a.Return? && a.throws && a.cycle in s.cycles && s.cycles[a.cycle].role == Boot)
  }

  lemma StepStops(s: State, a: Action)
    requires Enabled(s, a)
    ensures Step(s, a).stopped <==> s.stopped || Stops(s, a)
    ensures s.stopped && Step(s, a).ready ==> s.ready
  {
    hide Enqueue, Promote, TimerFired, Continued, HookBegun, HookSettled, CallMade, NewHandle, Short, CallersSettled,
      Apply, Without, LeavesOwed, Stale, Superseded;
    match a
    case Call(key) =>
      var (q, effect, waits) := Enqueue(s.queue, key, |s.calls.keyOf|);
      ApplyStops(Called(s, key, waits), q, effect);
    case Await(entry, _) =>
      var (q, effect) := Promote(s.queue, entry);
      ApplyStops(s, q, effect);
    case Timer =>
      var (q, effect) := TimerFired(s.queue);
      ApplyStops(s.(timers := s.timers - 1), q, effect);
    case Continue(c) =>
      var (q, effect) := Continued(s.queue, s.cycles[c].role);
      ApplyStops(s.(cycles := Without(s.cycles, c)), q, effect);
    case _ =>
  }

  lemma ApplyStops(s: State, q: Queue, effect: Effect)
    ensures Apply(s, q, effect).stopped == s.stopped && (s.stopped && Apply(s, q, effect).ready ==> s.ready)
  {
  }

  ghost predicate StoppedAt(actions: seq<Action>, n: nat) {
    n < |actions| && Run(actions[..n]).Some? && Stops(Run(actions[..n]).value, actions[n])
  }

  /** A component is stopped exactly if it was, or if its boot threw; and no 'ready' fires on it from then on. */
  lemma {:induction false} StoppedExactly(actions: seq<Action>)
    requires Run(actions).Some?
    ensures Run(actions).value.stopped <==> exists n: nat :: StoppedAt(actions, n)
    ensures forall a :: Run(actions).value.stopped && Enabled(Run(actions).value, a) ==>
              Step(Run(actions).value, a).stopped && (Step(Run(actions).value, a).ready ==> Run(actions).value.ready)
  {
    hide Step, Enabled, Stops;
    var s := Run(actions).value;
    forall a | s.stopped && Enabled(s, a) ensures Step(s, a).stopped && (Step(s, a).ready ==> s.ready) {
      StepStops(s, a);
    }
    if actions != [] {
      var front, m := actions[..|actions| - 1], |actions| - 1;
      StoppedExactly(front);
      StepStops(Run(front).value, actions[m]);
      forall k | 0 <= k < m ensures front[..k] == actions[..k] && front[k] == actions[k] {}
      assert actions[..m] == front;
      if n: nat :| StoppedAt(front, n) { assert StoppedAt(actions, n); }
      if n: nat :| StoppedAt(actions, n) { assert n == m || StoppedAt(front, n); }
      assert Stops(Run(front).value, actions[m]) ==> StoppedAt(actions, m);
    }
  }
}

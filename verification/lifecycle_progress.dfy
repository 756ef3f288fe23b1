/** The queue always drains: whatever has been called gets its turn once the executors and hooks in front of it end. */
module LifecycleProgress {
  import opened Options
  import opened ComponentQueues
  import opened LifecycleRuns
  import opened LifecycleReady
  import opened LifecycleHistory
  import opened LifecycleTheorems

  /** The system going on by itself: no new call, no throw, no stop, and of hooks to come only on_ready(). */
  ghost predicate Proceeds(s: State, a: Action) {
    && Enabled(s, a)
    && match a
       case HookStart(_, name) => name == OnReady
       case Return(_, throws) => !throws
       case HookSettle(_) => true
       case ReadyPoint(_) => true
       case Continue(_) => true
       case Timer => true
       case _ => false
  }

  lemma CycleProceeds(s: State, id: nat)
    requires id in s.cycles && Hooks(s.cycles, s.hooks, s.handles)
    ensures exists a :: Proceeds(s, a) && !a.Timer? && !a.Call? && !a.Await? && !a.Stop? && a.cycle == id
  {
    var c := s.cycles[id];
    assert CycleHook(c, id, s.hooks);
    var a :=
      if c.settled then Continue(id)
      else if c.hook.Some? then HookSettle(id)
      else if s.stopped || !ReadyKey(c.entry.key) || c.stage == Pointed then Return(id, false)
      else if c.stage == Working then HookStart(id, OnReady)
      else ReadyPoint(id);
    assert Proceeds(s, a);
  }

  /** Every executor in flight can go on, and as long as the queue is busy something can. */
  lemma {:induction false} NeverStuck(actions: seq<Action>)
    requires Run(actions).Some?
    ensures var s := Run(actions).value;
            && (forall id :: id in s.cycles ==>
                exists a :: Proceeds(s, a) && !a.Timer? && !a.Call? && !a.Await? && !a.Stop? && a.cycle == id)
            && (s.queue.busy ==> exists a :: Proceeds(s, a))
  {
    Reached(actions);
    var s := Run(actions).value;
    assert s.queue.promotedRunning == |PromotedIn(s.cycles)|;
    assert s.timers == 1 ==> Proceeds(s, Timer);
    hide Ids, CycleIds, Alone, Readiness, History, Order, Proceeds, Run;
    forall id | id in s.cycles
      ensures exists a :: Proceeds(s, a) && !a.Timer? && !a.Call? && !a.Await? && !a.Stop? && a.cycle == id
    {
      CycleProceeds(s, id);
    }
    if s.queue.busy && s.timers != 1 && Unowned(s.cycles) {
      assert PromotedIn(s.cycles) != {};
      var id :| id in PromotedIn(s.cycles);
      assert id in s.cycles;
    }
  }

  // ----- how much there is left to do -----

  /** The steps an executor still has before it, and then some. */
  function Rank(c: Cycle): nat {
    if c.settled then 2
    else
      (match c.stage
       case Working => 10
       case InReady => 8
       case AfterReady => 6
       case Pointed => 4) + (if c.hook.Some? then 1 else 0)
  }

  ghost function Ranks(cycles: map<nat, Cycle>, n: nat): nat {
    if n == 0 then 0 else Ranks(cycles, n - 1) + if n - 1 in cycles then Rank(cycles[n - 1]) else 0
  }

  ghost function Left(s: State): nat { Ranks(s.cycles, s.queue.nextId) + 12 * |s.queue.pending| + s.timers }

  ghost function RankIn(cycles: map<nat, Cycle>, id: nat): nat { if id in cycles then Rank(cycles[id]) else 0 }

  /** Changing one executor changes the sum by what its rank changes. */
  lemma {:induction false} OneRank(a: map<nat, Cycle>, b: map<nat, Cycle>, id: nat, n: nat)
    requires forall x :: x != id ==> RankIn(a, x) == RankIn(b, x)
    ensures Ranks(a, n) + (if id < n then RankIn(b, id) else 0) == Ranks(b, n) + if id < n then RankIn(a, id) else 0
  {
    if n > 0 {
      OneRank(a, b, id, n - 1);
      assert n - 1 != id ==> RankIn(a, n - 1) == RankIn(b, n - 1);
    }
  }

  lemma {:induction false} RanksBound(cycles: map<nat, Cycle>, n: nat)
    ensures Ranks(cycles, n) <= 11 * n
  {
    if n > 0 { RanksBound(cycles, n - 1); }
  }

  lemma KnownId(s: State, id: nat)
    requires Structure(s) && id in s.cycles
    ensures id < s.queue.nextId
  {
    hide Lock, Hooks, Alone;
  }

  /** An executor goes on. */
  lemma ExecutorLess(s: State, t: State, id: nat)
    requires Structure(s) && id in s.cycles && t.queue == s.queue && t.timers == s.timers
    requires id in t.cycles && t.cycles == s.cycles[id := t.cycles[id]] && Rank(t.cycles[id]) < Rank(s.cycles[id])
    ensures Left(t) < Left(s)
  {
    KnownId(s, id);
    OneRank(s.cycles, t.cycles, id, s.queue.nextId);
    hide Structure, Rank, Ranks;
  }

  lemma HookLess(s: State, id: nat)
    requires Structure(s)
    ensures Enabled(s, HookStart(id, OnReady)) ==> Left(StepHookStart(s, id, OnReady)) < Left(s)
    ensures Enabled(s, HookSettle(id)) ==> Left(StepHookSettle(s, id)) < Left(s)
  {
    hide Lock, Ids, CycleIds, Alone, Left;
    if Enabled(s, HookStart(id, OnReady)) { ExecutorLess(s, StepHookStart(s, id, OnReady), id); }
    if Enabled(s, HookSettle(id)) {
      assert CycleHook(s.cycles[id], id, s.hooks);
      ExecutorLess(s, StepHookSettle(s, id), id);
    }
  }

  lemma PointLess(s: State, id: nat)
    requires Structure(s)
    ensures Enabled(s, ReadyPoint(id)) ==> Left(StepReadyPoint(s, id)) < Left(s)
    ensures Enabled(s, Return(id, false)) ==> Left(StepReturn(s, id, false)) < Left(s)
  {
    hide Structure, Left, LeavesOwed, CallersSettled, Restores, Short, Stale, Superseded;
    if Enabled(s, ReadyPoint(id)) { ExecutorLess(s, StepReadyPoint(s, id), id); }
    if Enabled(s, Return(id, false)) { ExecutorLess(s, StepReturn(s, id, false), id); }
  }

  lemma WithoutRank(cycles: map<nat, Cycle>, id: nat, n: nat)
    requires id in cycles && id < n
    ensures Ranks(Without(cycles, id), n) + 2 <= Ranks(cycles, n)
  {
    OneRank(cycles, Without(cycles, id), id, n);
    hide Ranks;
  }

  /** What follows an executor at most schedules a hand-off. */
  lemma ContinuedKeeps(q: Queue, role: Role)
    ensures var (p, effect) := Continued(q, role);
            p.pending == q.pending && p.nextId == q.nextId && (effect == Nothing || effect == Handoff || effect == Idle)
  {
  }

  lemma AppliedLeft(s: State, q: Queue, effect: Effect)
    requires effect == Nothing || effect == Handoff || effect == Idle
    ensures var t := Apply(s, q, effect); t.queue == q && t.cycles == s.cycles && t.timers <= s.timers + 1
  {
  }

  lemma ContinueLess(s: State, id: nat)
    requires Structure(s) && Enabled(s, Continue(id))
    ensures Left(StepContinue(s, id)) < Left(s) && StepContinue(s, id).queue.nextId == s.queue.nextId
  {
    KnownId(s, id);
    WithoutRank(s.cycles, id, s.queue.nextId);
    var (q, effect) := Continued(s.queue, s.cycles[id].role);
    ContinuedKeeps(s.queue, s.cycles[id].role);
    AppliedLeft(s.(cycles := Without(s.cycles, id)), q, effect);
    hide Structure, Ranks, Without, Continued, Apply;
  }

  lemma TimerLess(s: State)
    requires Structure(s) && s.timers > 0
    ensures Left(StepTimer(s)) < Left(s) && StepTimer(s).queue.nextId == s.queue.nextId
  {
    if s.queue.pending != [] {
      var e := s.queue.pending[0];
      assert e.id !in s.cycles && e.id < s.queue.nextId;
      OneRank(s.cycles, s.cycles[e.id := Starting(Held, e, s.ready)], e.id, s.queue.nextId);
    }
    hide Structure, Ranks;
  }

  lemma StepLess(s: State, a: Action)
    requires Structure(s) && Proceeds(s, a)
    ensures Left(Step(s, a)) < Left(s) && Step(s, a).queue.nextId == s.queue.nextId
  {
    match a
    case HookStart(c, name) => HookLess(s, c);
    case HookSettle(c) => HookLess(s, c);
    case ReadyPoint(c) => PointLess(s, c);
    case Return(c, throws) => PointLess(s, c);
    case Continue(c) => ContinueLess(s, c);
    case Timer => TimerLess(s);
    hide Structure, Left, StepContinue, StepTimer, Enabled;
    TickLeft();
  }

  lemma TickLeft()
    ensures forall s: State :: Left(Tick(s)) == Left(s)
  {
  }

  // ----- the theorems -----

  /** Nothing happens in `more` but that the system goes on by itself. */
  ghost predicate Undisturbed(before: seq<Action>, more: seq<Action>) {
    && Run(before + more).Some?
    && forall n :: 0 <= n < |more| ==> Run(before + more[..n]).Some? && Proceeds(Run(before + more[..n]).value, more[n])
  }

  /** Left alone the system comes to rest, whatever order its steps are taken in: the steps it can take are bounded by
      how many entries wait and how many there have been. */
  lemma {:induction false} RunsDry(before: seq<Action>, more: seq<Action>)
    requires Undisturbed(before, more)
    ensures Run(before).Some?
    ensures var s := Run(before).value; |more| <= Left(s) <= 12 * |s.queue.pending| + 11 * s.queue.nextId + 1
    ensures Left(Run(before + more).value) + |more| <= Left(Run(before).value)
    decreases |more|
  {
    hide Run, Proceeds, Left, Structure, Readiness, History, Order;
    if more == [] {
      assert before + [] == before;
      Reached(before);
      LeftBound(Run(before).value);
    } else {
      var front, a := more[..|more| - 1], more[|more| - 1];
      forall n | 0 <= n < |front| ensures front[..n] == more[..n] && front[n] == more[n] {}
      assert more[..|front|] == front;
      RunsDry(before, front);
      Reached(before + front);
      StepLess(Run(before + front).value, a);
      Goes(before + front, a);
      assert before + more == before + front + [a];
    }
  }

  lemma Goes(actions: seq<Action>, a: Action)
    requires Run(actions).Some? && Proceeds(Run(actions).value, a)
    ensures Run(actions + [a]) == Some(Step(Run(actions).value, a))
  {
    assert (actions + [a])[..|actions|] == actions;
    hide Step, Enabled;
  }

  lemma LeftBound(s: State)
    requires Structure(s)
    ensures Left(s) <= 12 * |s.queue.pending| + 11 * s.queue.nextId + 1
  {
    RanksBound(s.cycles, s.queue.nextId);
  }

  /** And when it can take no more, the queue is idle and every caller has been settled. */
  lemma {:induction false} RestIsDone(actions: seq<Action>)
    requires Run(actions).Some? && forall a :: !Proceeds(Run(actions).value, a)
    ensures var s := Run(actions).value;
            !s.queue.busy && s.queue.pending == [] && forall c :: c in s.calls.keyOf ==> c in s.calls.settledAt
  {
    NeverStuck(actions);
    BusyExactly(actions);
    var s := Run(actions).value;
    hide Run, Proceeds;
    forall c | c in s.calls.keyOf ensures c in s.calls.settledAt { Conservation(actions, c); }
  }
}

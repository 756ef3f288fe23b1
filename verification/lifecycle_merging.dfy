/** Which calls one execution serves: a call joins an earlier one exactly when that one is still the last waiting and
    has the same key, and then both are settled together. */
module LifecycleMerging {
  import opened Options
  import opened ComponentQueues
  import opened LifecycleRuns
  import opened LifecycleHistory
  import opened LifecycleReady
  import opened LifecycleTheorems

  // ----- no entry without a caller -----

  ghost predicate AllCalled(pending: seq<Entry>) { forall i :: 0 <= i < |pending| ==> pending[i].callers != [] }

  lemma ApplyPending(s: State, q: Queue, effect: Effect)
    ensures Apply(s, q, effect).queue == q && Apply(s, q, effect).calls == s.calls
  {
  }

  lemma EnqueueCalled(q: Queue, key: Key, caller: nat)
    requires AllCalled(q.pending)
    ensures AllCalled(Enqueue(q, key, caller).0.pending)
  {
  }

  lemma PromoteCalled(q: Queue, id: nat)
    requires AllCalled(q.pending)
    ensures AllCalled(Promote(q, id).0.pending)
  {
  }

  lemma ContinuedPending(q: Queue, role: Role)
    ensures Continued(q, role).0.pending == q.pending
  {
  }

  lemma StepCalled(s: State, a: Action)
    requires Enabled(s, a) && AllCalled(s.queue.pending)
    ensures AllCalled(Step(s, a).queue.pending)
  {
    hide Apply, AllCalled, Enqueue, Promote, Continued, TimerFired, HookBegun, HookSettled, NewHandle, CallMade;
    match a
    case Call(key) =>
      var (q, effect, waits) := Enqueue(s.queue, key, |s.calls.keyOf|);
      EnqueueCalled(s.queue, key, |s.calls.keyOf|);
      ApplyPending(Called(s, key, waits), q, effect);
    case Await(entry, owner) =>
      var (q, effect) := Promote(s.queue, entry);
      PromoteCalled(s.queue, entry);
      ApplyPending(s, q, effect);
    case Continue(c) =>
      var (q, effect) := Continued(s.queue, s.cycles[c].role);
      ContinuedPending(s.queue, s.cycles[c].role);
      ApplyPending(s.(cycles := Without(s.cycles, c)), q, effect);
    case Timer =>
      var (q, effect) := TimerFired(s.queue);
      FiredCalled(s.queue);
      ApplyPending(s.(timers := s.timers - 1), q, effect);
    case _ =>
  }

  lemma FiredCalled(q: Queue)
    requires AllCalled(q.pending)
    ensures AllCalled(TimerFired(q).0.pending)
  {
  }

  lemma {:induction false} RunCalled(actions: seq<Action>)
    requires Run(actions).Some?
    ensures AllCalled(Run(actions).value.queue.pending)
  {
    if actions != [] {
      hide AllCalled, Step, Enabled;
      RunCalled(actions[..|actions| - 1]);
      StepCalled(Run(actions[..|actions| - 1]).value, actions[|actions| - 1]);
    }
  }

  // ----- whom a call joins -----

  /** The queue is busy, and the last entry waiting has this key. */
  ghost predicate LastWaits(q: Queue, key: Key) {
    q.busy && q.pending != [] && q.pending[|q.pending| - 1].key == key
  }

  ghost predicate SomeoneOn(calls: Calls, entry: nat) { exists d :: d in calls.entryOf && calls.entryOf[d] == entry }

  /** The state after a call, `entry` being what the caller was put on. */
  ghost predicate Put(s: State, key: Key, t: State, entry: nat) {
    var c := |s.calls.keyOf|;
    && t.calls == CallMade(s.calls, key, entry, s.clock)
    && (LastWaits(s.queue, key) ==>
        var last := s.queue.pending[|s.queue.pending| - 1];
        && entry == last.id && t.begun == s.begun
        && t.queue.pending == s.queue.pending[..|s.queue.pending| - 1] + [last.(callers := last.callers + [c])])
    && (!LastWaits(s.queue, key) ==> entry == s.queue.nextId)
    && (s.queue.busy && !LastWaits(s.queue, key) ==>
        t.begun == s.begun && t.queue.pending == s.queue.pending + [Entry(entry, key, [c])])
    && (!s.queue.busy ==>
        t.queue.pending == s.queue.pending && t.begun == s.begun[entry := Begun(s.clock, key, false)])
  }

  lemma QueuePuts(q: Queue, key: Key, c: nat)
    ensures var (p, effect, waits) := Enqueue(q, key, c);
            var entry := if waits.Some? then waits.value else q.nextId;
            && (LastWaits(q, key) ==>
                var last := q.pending[|q.pending| - 1];
                entry == last.id && effect == Nothing && p.nextId == q.nextId &&
                p.pending == q.pending[..|q.pending| - 1] + [last.(callers := last.callers + [c])])
            && (!LastWaits(q, key) ==> entry == q.nextId)
            && (q.busy && !LastWaits(q, key) ==>
                effect == Nothing && p.pending == q.pending + [Entry(entry, key, [c])])
            && (!q.busy ==> p.pending == q.pending && effect == Start(Entry(entry, key, [c])))
  {
  }

  lemma ApplyBegins(s: State, q: Queue, effect: Effect)
    ensures Apply(s, q, effect).queue == q && Apply(s, q, effect).calls == s.calls
    ensures effect == Nothing ==> Apply(s, q, effect).begun == s.begun
    ensures effect.Start? ==>
            Apply(s, q, effect).begun == s.begun[effect.entry.id := Begun(s.clock, effect.entry.key, false)]
  {
  }

  lemma CallPuts(s: State, key: Key)
    requires Enabled(s, Call(key))
    ensures var t, c := Step(s, Call(key)), |s.calls.keyOf|;
            c in t.calls.entryOf && Put(s, key, t, t.calls.entryOf[c])
  {
    var (q, effect, waits) := Enqueue(s.queue, key, |s.calls.keyOf|);
    QueuePuts(s.queue, key, |s.calls.keyOf|);
    ApplyBegins(Called(s, key, waits), q, effect);
    hide Enqueue, Apply, NewHandle, LastWaits;
  }

  /** In every reachable state, for every call: it is put on the entry of an earlier caller exactly if the queue is busy
      and the last entry waiting has the call's key - then on that entry, no other entry comes or begins -, and
      otherwise on an entry of its own, which waits last if the queue is busy and begins at once if not. */
  lemma {:induction false} MergesExactly(actions: seq<Action>, key: Key)
    requires Run(actions).Some? && Enabled(Run(actions).value, Call(key))
    ensures var s := Run(actions).value;
            var t, c := Step(s, Call(key)), |s.calls.keyOf|;
            && c !in s.calls.keyOf && c in t.calls.entryOf && Put(s, key, t, t.calls.entryOf[c])
            && (SomeoneOn(s.calls, t.calls.entryOf[c]) <==> LastWaits(s.queue, key))
  {
    hide Lock, CycleIds, Hooks, Alone, Readiness, Order, Step, Enabled, CycleCalls, BegunCalls, WaitingCalls, InTurn,
      Put;
    Reached(actions);
    RunCalled(actions);
    var s := Run(actions).value;
    KnownBegun(s);
    CallPuts(s, key);
    var t := Step(s, Call(key));
    PutOn(s, key, t, t.calls.entryOf[|s.calls.keyOf|]);
    if LastWaits(s.queue, key) {
      var last := s.queue.pending[|s.queue.pending| - 1];
      assert last.callers[0] in last.callers;
      assert CallersOf(last.callers, last.id, s.calls.entryOf);
    } else {
      assert s.calls.keyOf.Keys == s.calls.entryOf.Keys;
    }
  }

  lemma PutOn(s: State, key: Key, t: State, entry: nat)
    requires Put(s, key, t, entry)
    ensures |s.calls.keyOf| in t.calls.entryOf && t.calls.entryOf[|s.calls.keyOf|] == entry
    ensures entry == if LastWaits(s.queue, key) then s.queue.pending[|s.queue.pending| - 1].id else s.queue.nextId
  {
  }

  // ----- and that they are settled together -----

  /** Calls on one entry are settled at one moment. */
  ghost predicate Together(calls: Calls) {
    forall c, d :: c in calls.entryOf && d in calls.entryOf && calls.entryOf[c] == calls.entryOf[d] ==>
      (c in calls.settledAt <==> d in calls.settledAt)
      && (c in calls.settledAt && d in calls.settledAt ==> calls.settledAt[c] == calls.settledAt[d])
  }

  /** A new call on an entry none of whose callers is settled. */
  lemma MadeTogether(calls: Calls, key: Key, entry: nat, clock: nat)
    requires Together(calls) && |calls.keyOf| !in calls.entryOf && |calls.keyOf| !in calls.settledAt
    requires forall d :: d in calls.entryOf && calls.entryOf[d] == entry ==> d !in calls.settledAt
    ensures Together(CallMade(calls, key, entry, clock))
  {
  }

  /** Who is on an entry that has not begun is not settled. */
  lemma UnbegunUnsettled(s: State, entry: nat)
    requires History(s) && entry !in s.begun
    ensures forall d :: d in s.calls.entryOf && s.calls.entryOf[d] == entry ==> d !in s.calls.settledAt
    ensures |s.calls.keyOf| !in s.calls.entryOf && |s.calls.keyOf| !in s.calls.settledAt
  {
    hide PendingCalls, CycleCalls, BegunCalls, InTurn;
    assert s.calls.keyOf.Keys == s.calls.entryOf.Keys;
  }

  lemma CallTogether(s: State, key: Key)
    requires Together(s.calls) && Structure(s) && History(s) && Enabled(s, Call(key))
    ensures Together(Step(s, Call(key)).calls)
  {
    hide Enabled, History, Structure, CallMade, Together;
    CallPuts(s, key);
    KnownBegun(s);
    var t := Step(s, Call(key));
    var entry := t.calls.entryOf[|s.calls.keyOf|];
    hide Step;
    PutOn(s, key, t, entry);
    UnbegunUnsettled(s, entry);
    MadeTogether(s.calls, key, entry, s.clock);
  }

  lemma ReturnTogether(s: State, id: nat, throws: bool)
    requires Together(s.calls) && History(s) && Enabled(s, Return(id, throws))
    ensures Together(Step(s, Return(id, throws)).calls)
  {
    assert CallersOf(s.cycles[id].entry.callers, id, s.calls.entryOf);
    hide History, CallersSettled, Short, Restores, Together;
    SettledAtOnce(s.calls, s.cycles[id].entry.callers, id, s.clock);
  }

  lemma SettledAtOnce(calls: Calls, callers: seq<nat>, id: nat, now: nat)
    requires Together(calls) && CallersOf(callers, id, calls.entryOf)
    ensures Together(CallersSettled(calls, callers, now))
  {
  }

  /** Other steps touch neither the entries of calls nor their settlement. */
  lemma OtherCalls(s: State, a: Action)
    requires Enabled(s, a) && !a.Call? && !a.Return?
    ensures Step(s, a).calls == s.calls
  {
    hide StepAwait, StepTimer, StepContinue, HookBegun, HookSettled;
    match a
    case Await(entry, owner) => AwaitSettlesNone(s, entry, owner);
    case Timer => TimerSettlesNone(s);
    case Continue(c) => ContinueSettlesNone(s, c);
    case _ =>
  }

  /** In every reachable state, calls put on one entry are settled at the same moment, by its one execution, or not
      yet. */
  lemma {:induction false} SettledTogether(actions: seq<Action>)
    requires Run(actions).Some?
    ensures Together(Run(actions).value.calls)
  {
    if actions == [] {
      assert Together(Init().calls);
    } else {
      hide Together, Step, Enabled, Structure, History, Readiness, Order;
      var front, a := actions[..|actions| - 1], actions[|actions| - 1];
      var s := Run(front).value;
      SettledTogether(front);
      Reached(front);
      match a
      case Call(key) => CallTogether(s, key);
      case Return(id, throws) => ReturnTogether(s, id, throws);
      case _ => OtherCalls(s, a);
    }
  }

  /** A call stays on the entry it was put on. */
  lemma {:induction false} StaysOnEntry(actions: seq<Action>, a: Action, c: nat)
    requires Run(actions).Some? && Enabled(Run(actions).value, a) && c in Run(actions).value.calls.entryOf
    ensures var s := Run(actions).value; var t := Step(s, a);
            c in t.calls.entryOf && t.calls.entryOf[c] == s.calls.entryOf[c]
  {
    var s := Run(actions).value;
    hide Step, Enabled, Inv;
    Reached(actions);
    match a
    case Call(key) =>
      CallPuts(s, key);
      CallerIsNew(s);
      hide LastWaits;
    case Return(id, throws) => ReturnKeepsEntries(s, id, throws);
    case _ => OtherCalls(s, a);
  }

  lemma CallerIsNew(s: State)
    requires Inv(s)
    ensures |s.calls.keyOf| !in s.calls.entryOf
  {
    hide Structure, Readiness, Order, PendingCalls, CycleCalls, BegunCalls, WaitingCalls, InTurn;
    assert s.calls.keyOf.Keys == s.calls.entryOf.Keys;
  }

  lemma ReturnKeepsEntries(s: State, id: nat, throws: bool)
    requires Enabled(s, Return(id, throws))
    ensures Step(s, Return(id, throws)).calls.entryOf == s.calls.entryOf
  {
  }
}

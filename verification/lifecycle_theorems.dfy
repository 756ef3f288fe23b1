/** What holds in every run of a component's lifecycle. */
module LifecycleTheorems {
  import opened Options
  import opened ComponentQueues
  import opened LifecycleRuns
  import opened LifecycleReady
  import opened LifecycleHistory

  ghost predicate Inv(s: State) { Structure(s) && Readiness(s) && History(s) && Order(s) }

  lemma InitStructure()
    ensures Structure(Init())
  {
    var s := Init();
    assert PromotedIn(s.cycles) == {};
    assert Owns(s.cycles[0]);
  }

  lemma InitInv()
    ensures Inv(Init())
  {
    hide Structure;
    InitStructure();
    assert Due(Init().cycles[0]);
  }

  lemma {:induction false} Reached(actions: seq<Action>)
    requires Run(actions).Some?
    ensures Inv(Run(actions).value)
  {
    hide Structure, Readiness, History, Order, Step, Enabled;
    if actions == [] {
      InitInv();
    } else {
      var before := Run(actions[..|actions| - 1]).value;
      var a := actions[|actions| - 1];
      Reached(actions[..|actions| - 1]);
      StepKeepsStructure(before, a);
      StepKeepsReadiness(before, a);
      StepKeepsHistory(before, a);
      StepKeepsOrder(before, a);
    }
  }

  /** Mutual exclusion with promotion: at most one executor that is not promoted; none of it next to
      a scheduled hand-off; and while a hand-off is scheduled no promoted executor runs. */
  lemma {:induction false} MutualExclusion(actions: seq<Action>)
    requires Run(actions).Some?
    ensures var s := Run(actions).value;
      && (forall a, b :: a in s.cycles && b in s.cycles && Owns(s.cycles[a]) && Owns(s.cycles[b]) ==> a == b)
      && (s.timers > 0 ==> s.timers == 1 && s.cycles.Values == {})
      && s.queue.promotedRunning == |set a | a in s.cycles && s.cycles[a].role == Promoted|
  {
    hide Ids, CycleIds, Hooks, Alone, Readiness, History;
    Reached(actions);
    var s := Run(actions).value;
    if s.timers > 0 {
      assert PromotedIn(s.cycles) == {};
      assert forall a :: a in s.cycles ==> a in PromotedIn(s.cycles);
      assert s.cycles.Keys == {};
    }
    assert PromotedIn(s.cycles) == set a | a in s.cycles && s.cycles[a].role == Promoted;
  }

  /** An entry is promoted only while boot or a queue entry holds the lock past its work, or another
      promoted entry runs - never in the gap between a finished entry and the next one. */
  lemma {:induction false} PromotionIsNested(actions: seq<Action>, entry: nat, owner: nat)
    requires Run(actions).Some? && Enabled(Run(actions).value, Await(entry, owner))
    ensures var s := Run(actions).value; var t := Step(s, Await(entry, owner));
      t.queue.promotedRunning > s.queue.promotedRunning ==>
        && s.timers == 0 && s.queue.busy
        && (exists a :: a in s.cycles && s.cycles[a].stage == InReady && !s.cycles[a].settled)
        && (forall a :: a in s.cycles && Owns(s.cycles[a]) ==> s.cycles[a].stage != Working)
  {
    hide Lock, Ids, CycleIds, Hooks, Alone, Readiness, History;
    Reached(actions);
    var s := Run(actions).value;
    HandleFacts(s, (entry, owner));
    if !s.hooks[owner].settled {
      var a := OwnerOfUnsettledReady(s, owner);
    }
  }

  /** `_busy` holds exactly while something holds or is about to hold the lock. */
  lemma {:induction false} BusyExactly(actions: seq<Action>)
    requires Run(actions).Some?
    ensures var s := Run(actions).value;
      && (s.queue.busy <==>
            s.timers == 1 || s.queue.releaseDeferred || exists a :: a in s.cycles && Owns(s.cycles[a]))
      && !(s.timers == 1 && s.queue.releaseDeferred)
      && (s.timers == 1 || s.queue.releaseDeferred ==> !exists a :: a in s.cycles && Owns(s.cycles[a]))
      && (s.queue.releaseDeferred ==> s.queue.promotedRunning > 0)
      && (!s.queue.busy ==> s.cycles.Keys == {} && s.queue.pending == [])
  {
    hide Ids, CycleIds, Hooks, Alone, Readiness, History;
    Reached(actions);
    var s := Run(actions).value;
    if !s.queue.busy {
      assert PromotedIn(s.cycles) == {};
      assert forall a :: a in s.cycles ==> a in PromotedIn(s.cycles);
    }
  }

  /** The render and load of a lock holder are never outdated before its on_ready(): the checks
      for a stale render and a superseded load can only fire for promoted entries. */
  lemma {:induction false} HolderNeverOutdated(actions: seq<Action>, a: nat)
    requires Run(actions).Some? && a in Run(actions).value.cycles && Owns(Run(actions).value.cycles[a])
    ensures var s := Run(actions).value; !Stale(s, s.cycles[a]) && !Superseded(s, s.cycles[a])
  {
    hide Lock, Ids, CycleIds, Hooks, Readiness, History;
    Reached(actions);
  }

  /** An owed 'ready' always has a lock whose release will fire it. */
  lemma {:induction false} OwedReadyHasLock(actions: seq<Action>)
    requires Run(actions).Some?
    ensures var s := Run(actions).value; s.owed && !s.stopped ==> s.queue.busy
  {
    hide Structure, ReadyKept, History;
    Reached(actions);
  }

  /** When the queue comes to rest on a live component none of whose executors has thrown,
      'ready' has fired since everything that invalidated it. */
  lemma {:induction false} ReadyAtRest(actions: seq<Action>)
    requires Run(actions).Some?
    requires var s := Run(actions).value; !s.queue.busy && !s.stopped && !s.threw
    ensures Run(actions).value.ready
  {
    hide Ids, CycleIds, Hooks, Alone, History;
    Reached(actions);
    var s := Run(actions).value;
    IdleOrTimerIsFree(s.queue, s.cycles, s.timers);
  }

  // ----- Calls -----

  ghost predicate IsPending(s: State, c: nat) {
    exists i :: 0 <= i < |s.queue.pending| && c in s.queue.pending[i].callers
  }

  ghost predicate IsRunning(s: State, c: nat) {
    exists a :: a in s.cycles && !s.cycles[a].settled && c in s.cycles[a].entry.callers
  }

  /** Every caller is pending, running or settled - exactly one of them. */
  lemma {:induction false} Conservation(actions: seq<Action>, c: nat)
    requires Run(actions).Some? && c in Run(actions).value.calls.keyOf
    ensures var s := Run(actions).value;
      && (IsPending(s, c) || IsRunning(s, c) || c in s.calls.settledAt)
      && !(IsPending(s, c) && IsRunning(s, c))
      && !(IsPending(s, c) && c in s.calls.settledAt)
      && !(IsRunning(s, c) && c in s.calls.settledAt)
  {
    hide Lock, CycleIds, Hooks, Alone, Readiness, InTurn;
    Reached(actions);
    var s := Run(actions).value;
    KnownBegun(s);
    assert c in s.calls.entryOf.Keys && c in s.calls.at.Keys;
    var id := s.calls.entryOf[c];
    if id in s.begun {
      assert BegunCall(s.calls, c, s.begun[id], Unsettled(s.cycles, id), s.clock);
    }
  }

  /** Each caller stands on one entry, once. */
  lemma {:induction false} OnePlace(actions: seq<Action>)
    requires Run(actions).Some?
    ensures var s := Run(actions).value;
      && (forall i :: 0 <= i < |s.queue.pending| ==> NoDuplicates(s.queue.pending[i].callers))
      && (forall a :: a in s.cycles ==> NoDuplicates(s.cycles[a].entry.callers))
      && (forall i, j, c :: 0 <= i < j < |s.queue.pending| && c in s.queue.pending[i].callers ==>
          c !in s.queue.pending[j].callers)
      && (forall a, b, c :: a in s.cycles && b in s.cycles && a != b && c in s.cycles[a].entry.callers ==>
          c !in s.cycles[b].entry.callers)
  {
    hide Lock, CycleIds, Hooks, Alone, Readiness, InTurn, BegunCalls, WaitingCalls;
    Reached(actions);
    KnownBegun(Run(actions).value);
  }

  /** A caller is settled by an entry with its own key that began no earlier than the call. */
  lemma {:induction false} SettledFresh(actions: seq<Action>, c: nat)
    requires Run(actions).Some? && c in Run(actions).value.calls.settledAt
    ensures var s := Run(actions).value;
      && c in s.calls.keyOf && c in s.calls.at && c in s.calls.entryOf && s.calls.entryOf[c] in s.begun
      && var b := s.begun[s.calls.entryOf[c]];
         b.key == s.calls.keyOf[c] && s.calls.at[c] <= b.at < s.calls.settledAt[c]
  {
    hide Lock, Ids, CycleIds, Hooks, Alone, Readiness, InTurn, PendingCalls, CycleCalls;
    Reached(actions);
    var s := Run(actions).value;
    assert c in s.calls.entryOf.Keys;
    assert BegunCall(s.calls, c, s.begun[s.calls.entryOf[c]], Unsettled(s.cycles, s.calls.entryOf[c]), s.clock);
  }

  lemma OnlyReturnSettles(s: State, a: Action)
    requires Enabled(s, a) && !a.Return?
    ensures Step(s, a).calls.settledAt == s.calls.settledAt
  {
    hide StepCall, StepAwait, StepTimer, StepContinue, HookBegun, HookSettled, LeavesOwed;
    match a
    case Call(key) => CallSettlesNone(s, key);
    case Await(entry, owner) => AwaitSettlesNone(s, entry, owner);
    case Timer => TimerSettlesNone(s);
    case Continue(c) => ContinueSettlesNone(s, c);
    case Render(_) | HookStart(_, _) | HookSettle(_) | ReadyPoint(_) | Stop =>
  }

  lemma CallSettlesNone(s: State, key: Key)
    ensures StepCall(s, key).calls.settledAt == s.calls.settledAt
  {
    hide Apply, Enqueue, NewHandle;
    var (q, effect, waits) := Enqueue(s.queue, key, |s.calls.keyOf|);
    ApplyCalls(Called(s, key, waits), q, effect);
  }

  lemma AwaitSettlesNone(s: State, entry: nat, owner: nat)
    ensures StepAwait(s, entry, owner).calls == s.calls
  {
    hide Apply, Promote;
    var (q, effect) := Promote(s.queue, entry);
    ApplyCalls(s, q, effect);
  }

  lemma TimerSettlesNone(s: State)
    requires s.timers > 0
    ensures StepTimer(s).calls == s.calls
  {
    hide Apply, TimerFired;
    var (q, effect) := TimerFired(s.queue);
    ApplyCalls(s.(timers := s.timers - 1), q, effect);
  }

  lemma ContinueSettlesNone(s: State, id: nat)
    requires id in s.cycles
    ensures StepContinue(s, id).calls == s.calls
  {
    hide Apply, Continued, Without;
    var (q, effect) := Continued(s.queue, s.cycles[id].role);
    ApplyCalls(s.(cycles := Without(s.cycles, id)), q, effect);
  }

  /** No step settles a caller again, or takes a settlement back. */
  lemma {:induction false} SettledOnce(actions: seq<Action>, a: Action)
    requires Run(actions).Some? && Enabled(Run(actions).value, a)
    ensures var s := Run(actions).value; var t := Step(s, a);
      forall c :: c in s.calls.settledAt ==> c in t.calls.settledAt && t.calls.settledAt[c] == s.calls.settledAt[c]
  {
    hide Structure, Readiness, Order, StepCall, StepAwait, StepContinue, StepTimer, StepHookStart, StepHookSettle,
      StepReadyPoint, StepRender;
    Reached(actions);
    var s := Run(actions).value;
    if a.Return? {
      forall c | c in s.calls.settledAt ensures c !in s.cycles[a.cycle].entry.callers {
        SettledFresh(actions, c);
        assert BegunCall(s.calls, c, s.begun[s.calls.entryOf[c]], Unsettled(s.cycles, s.calls.entryOf[c]), s.clock);
      }
    } else {
      OnlyReturnSettles(s, a);
    }
  }

  /** Entries that are not promoted begin oldest first, and each only after the callers of
      the one before it were settled. */
  lemma {:induction false} StartsInTurn(actions: seq<Action>, k: nat)
    requires Run(actions).Some? && k + 1 < |Run(actions).value.heldStarts|
    ensures var s := Run(actions).value; var now := s.heldStarts[k + 1];
      && s.heldStarts[k] < now && now in s.begun
      && (forall c :: c in s.calls.entryOf && s.calls.entryOf[c] == s.heldStarts[k] ==>
            c in s.calls.settledAt && s.calls.settledAt[c] < s.begun[now].at)
      && (forall i :: 0 <= i < |s.queue.pending| ==> now < s.queue.pending[i].id)
  {
    hide Lock, CycleIds, Hooks, Alone, Readiness, PendingCalls, CycleCalls, BegunCalls, WaitingCalls;
    Reached(actions);
  }

  /** An earlier call is never on a later entry than a later call, unless its entry was promoted:
      so the oldest-first starts are in call order. */
  lemma {:induction false} EntriesInCallOrder(actions: seq<Action>, c: nat, d: nat)
    requires Run(actions).Some?
    requires var e := Run(actions).value.calls.entryOf; c in e && d in e && c < d && e[c] > e[d]
    ensures var s := Run(actions).value; s.calls.entryOf[c] in s.begun && s.begun[s.calls.entryOf[c]].promoted
  {
    hide Structure, Readiness, History;
    Reached(actions);
  }
}

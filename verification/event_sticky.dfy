/** When an event is sticky, and what that does for those who subscribe late. */
module EventSticky {
  import opened Options
  import opened ComponentEvents
  import opened EventRuns
  import opened EventTheorems

  predicate Triggers(s: State, a: Action, event: string) { !InLoop(s) && a.Trigger? && a.event == event }

  predicate Invalidates(s: State, a: Action, event: string) { !InLoop(s) && a == Invalidate(event) }

  /** Action `n` of the run triggers the event, and none after it invalidates it. */
  ghost predicate StandsFrom(actions: seq<Action>, event: string, n: nat) {
    && n < |actions| && Triggers(Run(actions[..n]), actions[n], event)
    && forall k :: n < k < |actions| ==> !Invalidates(Run(actions[..k]), actions[k], event)
  }

  lemma StepStates(s: State, a: Action, event: string)
    ensures event in Step(s, a).store.states <==>
            Triggers(s, a, event) || (event in s.store.states && !Invalidates(s, a, event))
  {
    hide Registering, Removing;
    if InLoop(s) { NextStates(s); }
    OthersStates(s.store, event);
  }

  lemma NextStates(s: State)
    requires InLoop(s)
    ensures StepNext(s).store.states == s.store.states
  {
  }

  lemma OthersStates(store: Store, event: string)
    ensures forall e, reg :: Registering(store, e, reg).states == store.states
    ensures forall e, reg :: Removing(store, e, reg).states == store.states
  {
  }

  lemma StandsMore(actions: seq<Action>, event: string, n: nat)
    requires actions != []
    ensures var front, m := actions[..|actions| - 1], |actions| - 1;
            StandsFrom(actions, event, n) <==>
            (n == m && Triggers(Run(front), actions[m], event))
            || (StandsFrom(front, event, n) && !Invalidates(Run(front), actions[m], event))
  {
    hide Run, Triggers, Invalidates;
    var front, m := actions[..|actions| - 1], |actions| - 1;
    forall k | 0 <= k < m ensures front[..k] == actions[..k] && front[k] == actions[k] {}
    assert actions[..m] == front;
  }

  /** An event is sticky exactly if it has been triggered, and not invalidated since the last time. */
  lemma {:induction false} StickyExactly(actions: seq<Action>, event: string)
    ensures event in Run(actions).store.states <==> exists n: nat :: StandsFrom(actions, event, n)
    decreases |actions|
  {
    if actions != [] {
      hide Step, Triggers, Invalidates, StandsFrom;
      var front, m := actions[..|actions| - 1], |actions| - 1;
      StickyExactly(front, event);
      StepStates(Run(front), actions[m], event);
      forall n: nat {
        StandsMore(actions, event, n);
      }
      if event in Run(actions).store.states {
        if Triggers(Run(front), actions[m], event) {
          assert StandsFrom(actions, event, m);
        } else {
          var n: nat :| StandsFrom(front, event, n);
          assert StandsFrom(actions, event, n);
        }
      }
    }
  }

  /** Who subscribes late to a sticky event is called at once, with the payload of its last trigger, and otherwise not;
      on() registers either way, once() only if it was not called. */
  lemma {:induction false} LateSubscriber(actions: seq<Action>, event: string)
    requires !InLoop(Run(actions))
    ensures var s := Run(actions);
            var on, once := Run(actions + [On(event)]), Run(actions + [OnceOf(event)]);
            var plain, wrapped := Reg(s.nextId, false), Reg(s.nextId, true);
            && Registered(on.store, event) == Registered(s.store, event) + [plain]
            && (if exists n: nat :: StandsFrom(actions, event, n)
                then LastPayload(s.dispatches, event).Some? &&
                     var data := LastPayload(s.dispatches, event).value;
                     && on.log == s.log + [EventRuns.Call(plain, AtOnce, data)]
                     && once.log == s.log + [EventRuns.Call(wrapped, AtOnce, data)]
                     && Registered(once.store, event) == Registered(s.store, event)
                else && on.log == s.log && once.log == s.log
                     && Registered(once.store, event) == Registered(s.store, event) + [wrapped])
  {
    var s := Run(actions);
    StickyExactly(actions, event);
    StickyIsLast(actions, event);
    assert (actions + [On(event)])[..|actions|] == actions && (actions + [OnceOf(event)])[..|actions|] == actions;
    hide LastPayload, StandsFrom;
    assert Run(actions + [On(event)]) == StepOn(s, event) && Run(actions + [OnceOf(event)]) == StepOnce(s, event);
    hide Run;
  }
}

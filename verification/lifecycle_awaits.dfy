/** Awaiting a call in on_ready(): exactly when it is pulled forward, and a run in which it never returns. */
module LifecycleAwaits {
  import opened Options
  import opened ComponentQueues
  import opened LifecycleRuns
  import opened LifecycleReady
  import opened LifecycleHistory
  import opened LifecycleTheorems

  // ----- the chain of hook runs -----

  /** Is hook run `k` on the chain that begins at `h`? */
  ghost predicate OnChain(hooks: seq<Hook>, h: Option<nat>, k: nat)
    decreases if h.Some? then h.value + 1 else 0
  {
    h.Some? && h.value < |hooks| &&
    (h.value == k
     || var previous := hooks[h.value].previous;
        previous.Some? && previous.value < h.value && OnChain(hooks, previous, k))
  }

  /** Hook runs are chained to older ones, and the head of the chain still runs. */
  ghost predicate Linked(hooks: seq<Hook>, asyncHook: Option<nat>) {
    && (forall i :: 0 <= i < |hooks| && hooks[i].previous.Some? ==> hooks[i].previous.value < i)
    && (asyncHook.Some? ==> asyncHook.value < |hooks| && !hooks[asyncHook.value].settled)
  }

  /** The head of the chain settles when the run before it already has: the chain is cut there. */
  ghost predicate Drops(s: State, a: Action) {
    a.HookSettle? && Enabled(s, a) &&
    var h := s.cycles[a.cycle].hook.value;
    s.asyncHook == Some(h) &&
    var previous := s.hooks[h].previous;
    previous.Some? && previous.value < |s.hooks| && s.hooks[previous.value].settled
  }

  /** Since hook run `k` began, no step has cut the chain. */
  ghost predicate Kept(actions: seq<Action>, k: nat)
    requires Run(actions).Some?
  {
    actions == [] ||
    var before := Run(actions[..|actions| - 1]).value;
    k < |before.hooks| ==> Kept(actions[..|actions| - 1], k) && !Drops(before, actions[|actions| - 1])
  }

  /** Only the links matter. */
  lemma {:induction false} SameLinks(hooks: seq<Hook>, more: seq<Hook>, h: Option<nat>, k: nat)
    requires |hooks| <= |more| && forall i :: 0 <= i < |hooks| ==> more[i].previous == hooks[i].previous
    requires h.Some? ==> h.value < |hooks|
    ensures OnChain(hooks, h, k) <==> OnChain(more, h, k)
    decreases if h.Some? then h.value + 1 else 0
  {
    if h.Some? && hooks[h.value].previous.Some? && hooks[h.value].previous.value < h.value {
      SameLinks(hooks, more, hooks[h.value].previous, k);
    }
  }

  lemma LinkedStep(s: State, a: Action)
    requires Enabled(s, a) && Linked(s.hooks, s.asyncHook)
    ensures Linked(Step(s, a).hooks, Step(s, a).asyncHook)
  {
    HooksStep(s, a);
    if !a.HookStart? && !a.HookSettle? { hide Step, Linked; }
  }

  /** Only hook steps touch the chain. */
  lemma HooksStep(s: State, a: Action)
    requires Enabled(s, a)
    ensures !a.HookStart? && !a.HookSettle? ==> Step(s, a).hooks == s.hooks && Step(s, a).asyncHook == s.asyncHook
  {
    hide Apply, Enqueue, Promote, TimerFired, Continued, Without, NewHandle, CallMade, HookBegun, HookSettled;
    match a
    case Call(key) => ApplyHooks(s, key);
    case Await(entry, _) => var (q, effect) := Promote(s.queue, entry); ApplyKeepsHooks(s, q, effect);
    case Timer => var (q, effect) := TimerFired(s.queue); ApplyKeepsHooks(s.(timers := s.timers - 1), q, effect);
    case Continue(c) =>
      var (q, effect) := Continued(s.queue, s.cycles[c].role);
      ApplyKeepsHooks(s.(cycles := Without(s.cycles, c)), q, effect);
    case Render(_) | ReadyPoint(_) | Return(_, _) | Stop | HookStart(_, _) | HookSettle(_) =>
  }

  lemma {:induction false} ReachedLinked(actions: seq<Action>)
    requires Run(actions).Some?
    ensures Linked(Run(actions).value.hooks, Run(actions).value.asyncHook)
  {
    hide Step, Enabled, Linked;
    if actions != [] {
      ReachedLinked(actions[..|actions| - 1]);
      LinkedStep(Run(actions[..|actions| - 1]).value, actions[|actions| - 1]);
    } else {
      LinkedFirst();
    }
  }

  lemma LinkedFirst()
    ensures Linked(Init().hooks, Init().asyncHook)
  {
  }

  /** What one step does to a hook run that goes on running: one that is off the chain stays off, and one that is on it
      leaves exactly if the step cuts the chain - the head settles and the run before it already has. */
  lemma ChainStepExactly(s: State, a: Action, k: nat)
    requires Enabled(s, a) && Linked(s.hooks, s.asyncHook) && k < |s.hooks| && Unsettled(Step(s, a).hooks, k)
    ensures var t := Step(s, a); OnChain(t.hooks, t.asyncHook, k) <==> OnChain(s.hooks, s.asyncHook, k) && !Drops(s, a)
  {
    HooksStep(s, a);
    match a
    case HookStart(c, name) => StartStepExactly(s, c, name, k);
    case HookSettle(c) => SettleStepExactly(s, c, k);
    case _ => hide Step, OnChain, Enabled, Linked;
  }

  ghost predicate Unsettled(hooks: seq<Hook>, k: nat) { k < |hooks| && !hooks[k].settled }

  lemma StartStepExactly(s: State, c: nat, name: HookName, k: nat)
    requires Enabled(s, HookStart(c, name)) && Linked(s.hooks, s.asyncHook) && k < |s.hooks|
    ensures var t := Step(s, HookStart(c, name)); OnChain(t.hooks, t.asyncHook, k) <==> OnChain(s.hooks, s.asyncHook, k)
  {
    var t := Step(s, HookStart(c, name));
    assert t.hooks == s.hooks + [Hook(name, false, s.asyncHook, c)] && t.asyncHook == Some(|s.hooks|);
    hide Step, Enabled;
    SameLinks(s.hooks, t.hooks, s.asyncHook, k);
  }

  lemma SettleStepExactly(s: State, c: nat, k: nat)
    requires Enabled(s, HookSettle(c)) && Linked(s.hooks, s.asyncHook) && Unsettled(Step(s, HookSettle(c)).hooks, k)
    ensures var t := Step(s, HookSettle(c));
            OnChain(t.hooks, t.asyncHook, k) <==> OnChain(s.hooks, s.asyncHook, k) && !Drops(s, HookSettle(c))
  {
    var t := Step(s, HookSettle(c));
    var h := s.cycles[c].hook.value;
    assert (t.hooks, t.asyncHook) == HookSettled(s.hooks, s.asyncHook, h);
    assert Drops(s, HookSettle(c)) <==>
           s.asyncHook == Some(h) && s.hooks[h].previous.Some? && s.hooks[h].previous.value < |s.hooks|
           && s.hooks[s.hooks[h].previous.value].settled;
    hide Step, Enabled, Drops;
    SameLinks(s.hooks, t.hooks, s.asyncHook, k);
    SameLinks(s.hooks, t.hooks, s.hooks[h].previous, k);
  }

  /** In every reachable state: a hook run that still runs is on the chain exactly if no step since it began has cut
      the chain. */
  lemma {:induction false} OnChainExactly(actions: seq<Action>, k: nat)
    requires Run(actions).Some? && Unsettled(Run(actions).value.hooks, k)
    ensures OnChain(Run(actions).value.hooks, Run(actions).value.asyncHook, k) <==> Kept(actions, k)
    decreases |actions|
  {
    if actions != [] {
      var rest, a := actions[..|actions| - 1], actions[|actions| - 1];
      var s := Run(rest).value;
      hide Step, Enabled, Linked, OnChain, Drops;
      ReachedLinked(rest);
      if k < |s.hooks| {
        RunsOn(s, a, k);
        OnChainExactly(rest, k);
        ChainStepExactly(s, a, k);
      } else {
        NewHeads(s, a, k);
      }
    }
  }

  /** A hook run that runs after a step ran before it. */
  lemma RunsOn(s: State, a: Action, k: nat)
    requires Enabled(s, a) && k < |s.hooks| && Unsettled(Step(s, a).hooks, k)
    ensures Unsettled(s.hooks, k)
  {
    HooksStep(s, a);
    if !a.HookStart? && !a.HookSettle? { hide Step, Enabled; }
  }

  lemma NewHeads(s: State, a: Action, k: nat)
    requires Enabled(s, a) && |s.hooks| <= k < |Step(s, a).hooks|
    ensures OnChain(Step(s, a).hooks, Step(s, a).asyncHook, k)
  {
    HooksStep(s, a);
    if !a.HookStart? && !a.HookSettle? { hide Step, Enabled; }
  }

  // ----- which on_ready() an awaited call is nested in -----

  ghost predicate RunsReady(hooks: seq<Hook>, k: nat) { k < |hooks| && !hooks[k].settled && hooks[k].name == OnReady }

  /** The walk up the chain finds a running on_ready() exactly if there is one on it. */
  lemma {:induction false} FirstReadyExactly(hooks: seq<Hook>, h: Option<nat>)
    ensures FirstReady(hooks, h).Some? <==> exists k :: RunsReady(hooks, k) && OnChain(hooks, h, k)
    ensures FirstReady(hooks, h).Some? ==> OnChain(hooks, h, FirstReady(hooks, h).value)
    decreases if h.Some? then h.value + 1 else 0
  {
    if h.Some? && h.value < |hooks| {
      var previous := hooks[h.value].previous;
      if previous.Some? && previous.value < h.value { FirstReadyExactly(hooks, previous); }
      if RunsReady(hooks, h.value) {
        assert OnChain(hooks, h, h.value);
      } else if FirstReady(hooks, h).Some? {
        var k := FirstReady(hooks, h).value;
        assert RunsReady(hooks, k) && OnChain(hooks, h, k);
      }
    }
  }

  /** The handles the promise of a call made now holds. */
  ghost function OwnHandles(s: State, key: Key): set<(nat, nat)> {
    NewHandle(s.hooks, s.asyncHook, Enqueue(s.queue, key, |s.calls.keyOf|).2)
  }

  /** Awaiting the promise while on_ready() run `p.1` goes on starts the call's entry at once, nested. */
  ghost predicate Promotes(s: State, key: Key, p: (nat, nat))
    requires Enabled(s, Call(key))
  {
    var t := Step(s, Call(key));
    && |s.calls.keyOf| in t.calls.entryOf && p.0 == t.calls.entryOf[|s.calls.keyOf|]
    && Enabled(t, Await(p.0, p.1)) && p.0 in Step(t, Await(p.0, p.1)).begun
  }

  /** In every reachable state in which some on_ready() runs: a call made now is started at once by awaiting it exactly
      if the chain has not been cut since one of the on_ready() runs that still run began. */
  lemma {:induction false} AwaitedCallRuns(actions: seq<Action>, key: Key, ready: nat)
    requires Run(actions).Some? && Enabled(Run(actions).value, Call(key)) && RunsReady(Run(actions).value.hooks, ready)
    ensures var s := Run(actions).value;
      (exists p :: p in OwnHandles(s, key) && Promotes(s, key, p)) <==>
      (exists k :: RunsReady(s.hooks, k) && Kept(actions, k))
  {
    hide Kept, Step, Enabled, Promotes, Enqueue, OnChain, Linked, FirstReady, Inv;
    var s := Run(actions).value;
    Reached(actions);
    ReachedLinked(actions);
    BusyThen(s, ready);
    FirstReadyExactly(s.hooks, s.asyncHook);
    HandledExactly(s, key);
    forall k | RunsReady(s.hooks, k)
      ensures OnChain(s.hooks, s.asyncHook, k) <==> Kept(actions, k)
    {
      OnChainExactly(actions, k);
    }
    if FirstReady(s.hooks, s.asyncHook).Some? {
      var k :| RunsReady(s.hooks, k) && OnChain(s.hooks, s.asyncHook, k);
      assert Kept(actions, k);
      PromotesNow(s, key);
    }
  }

  lemma BusyThen(s: State, ready: nat)
    requires Inv(s) && RunsReady(s.hooks, ready)
    ensures s.queue.busy
  {
    hide Lock, Ids, CycleIds, Hooks, Alone;
    var a := OwnerOfUnsettledReady(s, ready);
  }

  /** A call gets a handle exactly if the walk finds a running on_ready(). */
  lemma HandledExactly(s: State, key: Key)
    requires s.queue.busy && Linked(s.hooks, s.asyncHook)
    ensures OwnHandles(s, key) != {} <==> FirstReady(s.hooks, s.asyncHook).Some?
    ensures forall p :: p in OwnHandles(s, key) ==>
      Enqueue(s.queue, key, |s.calls.keyOf|).2 == Some(p.0) && FirstReady(s.hooks, s.asyncHook) == Some(p.1)
  {
    EnqueueBusy(s.queue, key, |s.calls.keyOf|);
    var owner, waits := FirstReady(s.hooks, s.asyncHook), Enqueue(s.queue, key, |s.calls.keyOf|).2;
    if owner.Some? { assert (waits.value, owner.value) in OwnHandles(s, key); }
  }

  lemma PromotesNow(s: State, key: Key)
    requires Inv(s) && Linked(s.hooks, s.asyncHook) && s.queue.busy && Enabled(s, Call(key))
    requires FirstReady(s.hooks, s.asyncHook).Some?
    ensures exists p :: p in OwnHandles(s, key) && Promotes(s, key, p)
  {
    HandledExactly(s, key);
    hide Readiness, History, Order, Lock, Ids, CycleIds, Hooks, Alone, Linked, FirstReady, Enqueue, OwnHandles, Step;
    var p :| p in OwnHandles(s, key);
    WaitsOn(s.queue, key, |s.calls.keyOf|, s.begun, s.clock, s.heldStarts);
    HandleUnsettled(s.hooks, s.asyncHook, p.1);
    CallQueues(s, key, p);
    AwaitBegins(Step(s, Call(key)), p);
    assert Promotes(s, key, p);
  }

  /** The state after the call: its entry waits, and its promise is a handle on it. */
  lemma CallQueues(s: State, key: Key, p: (nat, nat))
    requires s.queue.busy && Enabled(s, Call(key)) && p in OwnHandles(s, key)
    requires Enqueue(s.queue, key, |s.calls.keyOf|).2 == Some(p.0)
    ensures var t := Step(s, Call(key));
            && t.queue == Enqueue(s.queue, key, |s.calls.keyOf|).0 && t.hooks == s.hooks && t.begun == s.begun
            && p in t.handles && |s.calls.keyOf| in t.calls.entryOf && t.calls.entryOf[|s.calls.keyOf|] == p.0
  {
    EnqueueBusy(s.queue, key, |s.calls.keyOf|);
    hide Enqueue, NewHandle;
  }

  lemma AwaitBegins(t: State, p: (nat, nat))
    requires p in t.handles && RunsReady(t.hooks, p.1)
    requires |t.queue.pending| > 0 && t.queue.pending[|t.queue.pending| - 1].id == p.0
    ensures Enabled(t, Await(p.0, p.1)) && p.0 in Step(t, Await(p.0, p.1)).begun
  {
    assert IndexOf(t.queue.pending, p.0) < |t.queue.pending|;
  }

  lemma HandleUnsettled(hooks: seq<Hook>, h: Option<nat>, owner: nat)
    requires FirstReady(hooks, h) == Some(owner)
    ensures RunsReady(hooks, owner)
  {
  }

  // ----- if hook runs settle innermost first -----

  /** Hook runs settled innermost first: never one that is not the innermost in progress. */
  ghost predicate Nested(actions: seq<Action>)
    requires Run(actions).Some?
  {
    actions == [] ||
    var before := Run(actions[..|actions| - 1]).value;
    var a := actions[|actions| - 1];
    Nested(actions[..|actions| - 1]) && (a.HookSettle? ==> before.cycles[a.cycle].hook == before.asyncHook)
  }

  /** The chain from `h` holds every hook run in progress, innermost first. */
  ghost predicate Chain(hooks: seq<Hook>, h: Option<nat>)
    decreases if h.Some? then h.value + 1 else 0
  {
    match h
    case None => forall k :: 0 <= k < |hooks| ==> hooks[k].settled
    case Some(top) =>
      && top < |hooks| && !hooks[top].settled
      && (forall k :: top < k < |hooks| ==> hooks[k].settled)
      && (hooks[top].previous.Some? ==> hooks[top].previous.value < top)
      && Chain(hooks[..top], hooks[top].previous)
  }

  lemma ChainStep(s: State, a: Action)
    requires Structure(s) && Enabled(s, a) && Chain(s.hooks, s.asyncHook)
    requires a.HookSettle? ==> s.cycles[a.cycle].hook == s.asyncHook
    ensures Chain(Step(s, a).hooks, Step(s, a).asyncHook)
  {
    hide Structure, Apply, Enqueue, Promote, TimerFired, Continued, Without, NewHandle, CallMade;
    var t := Step(s, a);
    match a
    case HookStart(c, name) =>
      assert t.hooks[..|s.hooks|] == s.hooks;
    case HookSettle(c) =>
      var top := s.cycles[c].hook.value;
      var previous := s.hooks[top].previous;
      assert t.hooks[..top] == s.hooks[..top];
      ChainLonger(s.hooks[..top], previous, t.hooks);
      if previous.Some? {
        assert !s.hooks[..top][previous.value].settled;
      }
    case Call(key) => ApplyHooks(s, key);
    case Await(entry, _) => var (q, effect) := Promote(s.queue, entry); ApplyKeepsHooks(s, q, effect);
    case Timer => var (q, effect) := TimerFired(s.queue); ApplyKeepsHooks(s.(timers := s.timers - 1), q, effect);
    case Continue(c) =>
      var (q, effect) := Continued(s.queue, s.cycles[c].role);
      ApplyKeepsHooks(s.(cycles := Without(s.cycles, c)), q, effect);
    case Render(_) | ReadyPoint(_) | Return(_, _) | Stop =>
  }

  lemma ApplyKeepsHooks(s: State, q: Queue, effect: Effect)
    ensures Apply(s, q, effect).hooks == s.hooks && Apply(s, q, effect).asyncHook == s.asyncHook
  {
  }

  lemma ApplyHooks(s: State, key: Key)
    ensures StepCall(s, key).hooks == s.hooks && StepCall(s, key).asyncHook == s.asyncHook
  {
    hide Enqueue, Apply, Called;
    var (q, effect, waits) := Enqueue(s.queue, key, |s.calls.keyOf|);
    CalledKeepsHooks(s, key, waits);
    ApplyKeepsHooks(Called(s, key, waits), q, effect);
  }

  lemma CalledKeepsHooks(s: State, key: Key, waits: Option<nat>)
    ensures Called(s, key, waits).hooks == s.hooks && Called(s, key, waits).asyncHook == s.asyncHook
  {
    hide CallMade, NewHandle;
  }

  lemma {:induction false} ChainLonger(hooks: seq<Hook>, h: Option<nat>, all: seq<Hook>)
    requires Chain(hooks, h) && hooks <= all && forall k :: |hooks| <= k < |all| ==> all[k].settled
    ensures Chain(all, h)
  {
    if h.Some? {
      assert all[..h.value] == hooks[..h.value];
      assert all[h.value] == hooks[h.value];
    }
  }

  lemma {:induction false} NestedChain(actions: seq<Action>)
    requires Run(actions).Some? && Nested(actions)
    ensures Chain(Run(actions).value.hooks, Run(actions).value.asyncHook)
  {
    hide Structure, Readiness, History, Order, Step, Enabled;
    if actions != [] {
      var rest := actions[..|actions| - 1];
      NestedChain(rest);
      Reached(rest);
      ChainStep(Run(rest).value, actions[|actions| - 1]);
    }
  }

  /** If hook runs settle innermost first the chain is never cut: awaiting a call in any on_ready() that runs starts it
      at once. */
  lemma {:induction false} InnermostFirst(actions: seq<Action>, k: nat)
    requires Run(actions).Some? && Nested(actions) && RunsReady(Run(actions).value.hooks, k)
    ensures Kept(actions, k)
    decreases |actions|
  {
    if actions != [] {
      var rest, a := actions[..|actions| - 1], actions[|actions| - 1];
      var s := Run(rest).value;
      if k < |s.hooks| {
        HooksStep(s, a);
        StillReady(s, a, k);
        InnermostFirst(rest, k);
        NestedChain(rest);
        assert s.asyncHook.Some? && s.hooks[s.asyncHook.value].previous.Some? ==>
               Chain(s.hooks[..s.asyncHook.value], s.hooks[s.asyncHook.value].previous);
      }
    }
  }

  lemma StillReady(s: State, a: Action, k: nat)
    requires Enabled(s, a) && k < |s.hooks| && RunsReady(Step(s, a).hooks, k)
    ensures RunsReady(s.hooks, k)
  {
    HooksStep(s, a);
    if !a.HookStart? && !a.HookSettle? { hide Step, Enabled; }
  }

  // ----- a run in which the chain is cut -----

  lemma RunThen(actions: seq<Action>, a: Action)
    requires Run(actions).Some? && Enabled(Run(actions).value, a)
    ensures Run(actions + [a]) == Some(Step(Run(actions).value, a))
  {
    assert (actions + [a])[..|actions|] == actions;
  }

  /** boot's on_ready() awaits a reload() and a refresh() together, and their on_load() runs overlap. */
  ghost function Overlapping(): seq<Action> {
    [HookStart(0, OnReady), Call(ReloadKey), Call(RefreshKey), Await(1, 0), Await(2, 0),
     HookStart(1, OnLoad), HookStart(2, OnLoad), HookSettle(1), HookSettle(2)]
  }

  ghost function Prefix(n: nat): seq<Action>
    requires n <= 9
  {
    Overlapping()[..n]
  }

  lemma PrefixNext(n: nat, s: State)
    requires n < 9 && Run(Prefix(n)) == Some(s) && Enabled(s, Overlapping()[n])
    ensures Run(Prefix(n + 1)) == Some(Step(s, Overlapping()[n]))
  {
    assert Prefix(n + 1) == Prefix(n) + [Overlapping()[n]];
    RunThen(Prefix(n), Overlapping()[n]);
  }

  /** boot is parked in its on_ready(); `queued` of the two calls wait and `promoted` of them run, all untouched. */
  ghost predicate OverlapAt(s: State, queued: seq<Entry>, promoted: seq<Entry>, handles: set<(nat, nat)>) {
    && s.queue.busy && s.queue.pending == queued && s.queue.nextId == 1 + |queued| + |promoted|
    && !s.stopped && !s.ready
    && s.hooks == [Hook(OnReady, false, None, 0)] && s.asyncHook == Some(0) && s.handles == handles
    && |s.calls.keyOf| == |queued| + |promoted|
    && (forall e :: e in promoted ==>
          e.id in s.cycles && s.cycles[e.id] == Starting(Promoted, e, false))
    && (forall c :: c in s.calls.entryOf ==> c < |s.calls.keyOf|)
    && s.calls.entryOf.Keys == s.calls.keyOf.Keys
  }

  const E1 := Entry(1, ReloadKey, [0])
  const E2 := Entry(2, RefreshKey, [1])

  lemma OverlapReady()
    ensures Enabled(Init(), HookStart(0, OnReady)) && OverlapAt(Step(Init(), HookStart(0, OnReady)), [], [], {})
  {
  }

  lemma OverlapReload(s: State)
    requires OverlapAt(s, [], [], {})
    ensures OverlapAt(Step(s, Call(ReloadKey)), [E1], [], {(1, 0)})
  {
    assert FirstReady(s.hooks, Some(0)) == Some(0);
    assert 0 !in s.calls.keyOf.Keys;
  }

  lemma OverlapRefresh(s: State)
    requires OverlapAt(s, [E1], [], {(1, 0)})
    ensures OverlapAt(Step(s, Call(RefreshKey)), [E1, E2], [], {(1, 0), (2, 0)})
  {
    assert FirstReady(s.hooks, Some(0)) == Some(0);
    assert 1 !in s.calls.keyOf.Keys;
  }

  lemma OverlapAwait1(s: State)
    requires OverlapAt(s, [E1, E2], [], {(1, 0), (2, 0)})
    ensures OverlapAt(Step(s, Await(1, 0)), [E2], [E1], {(1, 0), (2, 0)})
  {
    assert IndexOf(s.queue.pending, 1) == 0;
  }

  lemma OverlapAwait2(s: State)
    requires OverlapAt(s, [E2], [E1], {(1, 0), (2, 0)})
    ensures OverlapAt(Step(s, Await(2, 0)), [], [E1, E2], {(1, 0), (2, 0)})
  {
    assert IndexOf(s.queue.pending, 2) == 0;
  }

  lemma OverlapBegins() returns (s: State)
    ensures Run(Prefix(5)) == Some(s) && OverlapAt(s, [], [E1, E2], {(1, 0), (2, 0)})
  {
    hide Run, Step, OverlapAt;
    s := Init();
    assert Prefix(0) == [];
    RunEmpty();
    OverlapReady();
    PrefixNext(0, s); s := Step(s, HookStart(0, OnReady));
    OverlapLive(s, [], [], {});
    PrefixNext(1, s); OverlapReload(s); s := Step(s, Call(ReloadKey));
    OverlapLive(s, [E1], [], {(1, 0)});
    PrefixNext(2, s); OverlapRefresh(s); s := Step(s, Call(RefreshKey));
    OverlapLive(s, [E1, E2], [], {(1, 0), (2, 0)});
    PrefixNext(3, s); OverlapAwait1(s); s := Step(s, Await(1, 0));
    OverlapLive(s, [E2], [E1], {(1, 0), (2, 0)});
    PrefixNext(4, s); OverlapAwait2(s); s := Step(s, Await(2, 0));
  }

  lemma OverlapLive(s: State, queued: seq<Entry>, promoted: seq<Entry>, handles: set<(nat, nat)>)
    requires OverlapAt(s, queued, promoted, handles)
    ensures !s.stopped && s.handles == handles
  {
  }

  lemma RunEmpty()
    ensures Run([]) == Some(Init())
  {
  }

  /** Two executors' hook runs overlap inside `outer`: the chain ends empty though `outer` still runs. */
  lemma OverlapSettles(s: State, a: nat, b: nat, outer: nat)
    requires Running(s, a) && Running(s, b) && a != b && s.cycles[a].stage == Working && s.cycles[b].stage == Working
    requires s.asyncHook == Some(outer) && outer < |s.hooks| && !s.hooks[outer].settled
    ensures Enabled(s, HookStart(a, OnLoad))
    ensures var s1 := Step(s, HookStart(a, OnLoad));
      Enabled(s1, HookStart(b, OnLoad)) &&
      var s2 := Step(s1, HookStart(b, OnLoad));
      Enabled(s2, HookSettle(a)) &&
      var s3 := Step(s2, HookSettle(a));
      Enabled(s3, HookSettle(b)) &&
      var s4 := Step(s3, HookSettle(b));
      && s4.asyncHook.None? && |s4.hooks| == |s.hooks| + 2 && s4.hooks[outer] == s.hooks[outer]
      && s4.queue == s.queue && s4.handles == s.handles && s4.calls == s.calls && s4.stopped == s.stopped
  {
  }

  /** A call made with an empty chain gets no handle. */
  lemma NoChainNoHandle(s: State, key: Key)
    requires s.asyncHook.None? && s.queue.busy && s.queue.pending == []
    requires forall p :: p in s.handles ==> p.0 < s.queue.nextId
    ensures var t := StepCall(s, key);
      && |s.calls.keyOf| in t.calls.entryOf
      && forall owner :: (t.calls.entryOf[|s.calls.keyOf|], owner) !in t.handles
  {
  }

  /** Without that nesting the chain can break: when two promoted entries' hooks overlap, the run that
      settles last drops the enclosing on_ready() that still runs, and a call made there afterwards
      gets no handle - nothing can promote its entry, so awaiting it in that on_ready() never returns. */
  lemma OverlapLosesOuterReady()
    ensures Run(Overlapping()).Some? && Enabled(Run(Overlapping()).value, Call(RenderKey))
    ensures var s := Run(Overlapping()).value; var t := Step(s, Call(RenderKey));
      && |s.hooks| > 0 && s.hooks[0].name == OnReady && !s.hooks[0].settled && s.asyncHook.None?
      && |s.calls.keyOf| in t.calls.entryOf
      && forall owner :: !Enabled(t, Await(t.calls.entryOf[|s.calls.keyOf|], owner))
    ensures !Kept(Overlapping(), 0)
  {
    hide Run, StepCall, StepHookStart, StepHookSettle;
    var s := OverlapBegins();
    assert E1 in [E1, E2] && E2 in [E1, E2];
    OverlapSettles(s, 1, 2, 0);
    PrefixNext(5, s); var s1 := Step(s, HookStart(1, OnLoad));
    PrefixNext(6, s1); var s2 := Step(s1, HookStart(2, OnLoad));
    PrefixNext(7, s2); var s3 := Step(s2, HookSettle(1));
    PrefixNext(8, s3); var s4 := Step(s3, HookSettle(2));
    assert Prefix(9) == Overlapping();
    NoChainNoHandle(s4, RenderKey);
    hide Kept, Linked;
    OnChainExactly(Overlapping(), 0);
  }
}

/** Every run of one component's lifecycle: the queue of component-queue.ts together with
    the parts of component.ts that decide when a call may be promoted (`_queue_call`,
    `_call_lifecycle`) and when 'ready' fires (`_ready`, `_entry_ready_point`,
    `_on_queue_idle`).

    A run is a sequence of actions.  Author code is arbitrary: any number of calls at any
    moment, hooks that settle whenever they like, executors that throw, a stop at any time.
    Continuations the event loop holds (settled executors, zero timeouts) fire in any order. */
module LifecycleRuns {
  import opened Options
  import opened ComponentQueues

  datatype Role = Boot | Held | Promoted

  /** How far an executor has come with respect to its own on_ready(). */
  datatype Stage = Working | InReady | AfterReady | Pointed

  datatype HookName = OnLoad | OnLoaded | OnReady

  /** One run of an async hook: Hook_Run of component.ts, `previous` an index into `hooks`. */
  datatype Hook = Hook(name: HookName, settled: bool, previous: Option<nat>, cycle: nat)

  /** One executor in flight. `settled`: its callers are settled, its continuation is still queued.  `wasReady`: the
      component was ready when it started, what a failing reload() restores. */
  datatype Cycle = Cycle(
    role: Role, entry: Entry, stage: Stage,
    rendered: Option<nat>, loading: Option<nat>,
    hook: Option<nat>, settled: bool, wasReady: bool)

  /** When, as what and how an entry started. */
  datatype Begun = Begun(at: nat, key: Key, promoted: bool)

  /** Every call so far: its key, the entry it was put on, when it was made and when it was settled. */
  datatype Calls = Calls(keyOf: map<nat, Key>, entryOf: map<nat, nat>, at: map<nat, nat>, settledAt: map<nat, nat>)

  /** `threw`: some executor has thrown.  `lost`: since 'ready' last fired, an executor that should have reached its
      'ready' point ended without, and left the component not ready. */
  datatype State = State(
    queue: Queue,
    cycles: map<nat, Cycle>, timers: nat,
    hooks: seq<Hook>, asyncHook: Option<nat>, handles: set<(nat, nat)>,
    owed: bool, ready: bool, stopped: bool, threw: bool, lost: bool,
    renderCount: nat, loadSeq: nat,
    clock: nat, begun: map<nat, Begun>, heldStarts: seq<nat>, calls: Calls)

  datatype Action =
    | Call(key: Key)              // render(), load(), reload() or refresh()
    | Await(entry: nat, owner: nat)  // .then() on the promise a call made during on_ready() returned
    | Render(cycle: nat)             // _render()
    | HookStart(cycle: nat, name: HookName)
    | HookSettle(cycle: nat)
    | ReadyPoint(cycle: nat)
    | Return(cycle: nat, throws: bool)
    | Continue(cycle: nat)           // what follows the settled executor: release, or end_boot()
    | Timer
    | Stop

  ghost predicate Reloads(key: Key) { key == ReloadKey || key == RefreshKey }

  ghost predicate ReadyKey(key: Key) { key != LoadKey }

  /** Boot has begun: it is the first entry, and holds the lock. */
  ghost function Init(): State {
    State(BeginBoot(Queue(false, false, [], 0, false, 1)),
          map[0 := Cycle(Boot, Entry(0, BootKey, []), Working, None, None, None, false, false)], 0,
          [], None, {}, false, false, false, false, false, 0, 0,
          1, map[0 := Begun(0, BootKey, false)], [0], Calls(map[], map[], map[], map[]))
  }

  ghost function Fire(s: State): State { s.(owed := false, ready := true, lost := false) }

  function Starting(role: Role, e: Entry, wasReady: bool): Cycle {
    Cycle(role, e, Working, None, None, None, false, wasReady)
  }

  /** `_execute()` invokes the executor at once; a reload's prologue invalidates 'ready'. */
  ghost function StartCycle(s: State, e: Entry, role: Role): State {
    s.(cycles := s.cycles[e.id := Starting(role, e, s.ready)],
       begun := s.begun[e.id := Begun(s.clock, e.key, role == Promoted)],
       heldStarts := if role == Held then s.heldStarts + [e.id] else s.heldStarts,
       ready := s.ready && (s.stopped || !Reloads(e.key)))
  }

  ghost function Apply(s: State, q: Queue, effect: Effect): State {
    var t := s.(queue := q);
    match effect
    case Nothing => t
    case Start(e) => StartCycle(t, e, Held)
    case StartPromoted(e) => StartCycle(t, e, Promoted)
    case Handoff => t.(timers := t.timers + 1)
    case Idle => if t.owed && !t.stopped then Fire(t) else t
  }

  /** The innermost on_ready() still running on the chain of hook runs that starts at `h`. */
  ghost function FirstReady(hooks: seq<Hook>, h: Option<nat>): (r: Option<nat>)
    ensures r.Some? ==> r.value < |hooks| && !hooks[r.value].settled && hooks[r.value].name == OnReady
    decreases if h.Some? then h.value + 1 else 0
  {
    if h.None? || h.value >= |hooks| then None
    else
      var run := hooks[h.value];
      if !run.settled && run.name == OnReady then h
      else if run.previous.Some? && run.previous.value < h.value then FirstReady(hooks, run.previous)
      else None
  }

  /** The promise of a call made while an on_ready() runs is a handle: awaiting it may promote the entry. */
  ghost function NewHandle(hooks: seq<Hook>, run: Option<nat>, waits: Option<nat>): set<(nat, nat)> {
    var owner := FirstReady(hooks, run);
    if waits.Some? && run.Some? && run.value < |hooks| && !hooks[run.value].settled && owner.Some?
    then {(waits.value, owner.value)} else {}
  }

  ghost function CallMade(calls: Calls, key: Key, entry: nat, now: nat): Calls {
    var c := |calls.keyOf|;
    calls.(keyOf := calls.keyOf[c := key], entryOf := calls.entryOf[c := entry], at := calls.at[c := now])
  }

  /** The call is on record, waiting on an entry or not. */
  ghost function Called(s: State, key: Key, waits: Option<nat>): State {
    s.(calls := CallMade(s.calls, key, if waits.Some? then waits.value else s.queue.nextId, s.clock),
       ready := s.ready && key != RenderKey,
       handles := s.handles + NewHandle(s.hooks, s.asyncHook, waits))
  }

  ghost function StepCall(s: State, key: Key): State {
    var (q, effect, waits) := Enqueue(s.queue, key, |s.calls.keyOf|);
    Apply(Called(s, key, waits), q, effect)
  }

  /** An executor runs while it is not settled and not parked on a hook of its own. */
  ghost predicate Running(s: State, c: nat) {
    c in s.cycles && !s.cycles[c].settled && s.cycles[c].hook.None?
  }

  ghost predicate Stale(s: State, c: Cycle) {
    c.stage == Working && c.rendered.Some? && c.rendered.value != s.renderCount
  }

  ghost predicate Superseded(s: State, c: Cycle) {
    c.stage == Working && c.loading.Some? && c.loading.value != s.loadSeq
  }

  ghost function SetCycle(s: State, id: nat, c: Cycle): State { s.(cycles := s.cycles[id := c]) }

  /** `_call_lifecycle()` up to the await: the new run is the innermost. */
  function HookBegun(hooks: seq<Hook>, asyncHook: Option<nat>, name: HookName, cycle: nat): (seq<Hook>, Option<nat>) {
    (hooks + [Hook(name, false, asyncHook, cycle)], Some(|hooks|))
  }

  /** ... and its `finally`. */
  function HookSettled(hooks: seq<Hook>, asyncHook: Option<nat>, h: nat): (seq<Hook>, Option<nat>)
    requires h < |hooks|
  {
    var previous := hooks[h].previous;
    var after := hooks[h := hooks[h].(settled := true)];
    (after,
     if asyncHook != Some(h) then asyncHook
     else if previous.Some? && previous.value < |after| && !after[previous.value].settled then previous
     else None)
  }

  /** A cycle at its 'ready' point: is 'ready' left owed? Otherwise it fires. */
  function LeavesOwed(role: Role, owed: bool, hasPending: bool, promotedRunning: nat): bool {
    (if role == Boot then hasPending else owed) || promotedRunning > 0
  }

  ghost function StepHookStart(s: State, id: nat, name: HookName): State
    requires id in s.cycles
  {
    var c := s.cycles[id];
    var seqNo := if name == OnLoad then s.loadSeq + 1 else s.loadSeq;
    var (hooks, asyncHook) := HookBegun(s.hooks, s.asyncHook, name, id);
    SetCycle(s, id, c.(hook := asyncHook, stage := if name == OnReady then InReady else c.stage,
                       loading := if name == OnLoad then Some(seqNo) else c.loading))
    .(hooks := hooks, asyncHook := asyncHook, loadSeq := seqNo)
  }

  ghost function StepHookSettle(s: State, id: nat): State
    requires id in s.cycles && s.cycles[id].hook.Some? && s.cycles[id].hook.value < |s.hooks|
  {
    var c := s.cycles[id];
    var h := c.hook.value;
    var (hooks, asyncHook) := HookSettled(s.hooks, s.asyncHook, h);
    SetCycle(s, id, c.(hook := None, stage := if s.hooks[h].name == OnReady then AfterReady else c.stage))
    .(hooks := hooks, asyncHook := asyncHook)
  }

  ghost function StepReadyPoint(s: State, id: nat): State
    requires id in s.cycles
  {
    var c := s.cycles[id];
    var defer := LeavesOwed(c.role, s.owed, s.queue.pending != [], s.queue.promotedRunning);
    SetCycle(s, id, c.(stage := Pointed)).(owed := defer, ready := s.ready || !defer, lost := s.lost && defer)
  }

  ghost function CallersSettled(calls: Calls, callers: seq<nat>, now: nat): Calls {
    calls.(settledAt := map x | x in calls.settledAt.Keys + (set y | y in callers) ::
                          if x in callers then now else calls.settledAt[x])
  }

  /** Does the failing executor put 'ready' back?  Only reload() and refresh() do, when they had found it. */
  predicate Restores(c: Cycle, throws: bool, stopped: bool) {
    throws && (c.entry.key == ReloadKey || c.entry.key == RefreshKey) && c.wasReady && !stopped
  }

  /** The executor should have reached its 'ready' point, and has not. */
  predicate Short(c: Cycle) { c.entry.key != LoadKey && c.stage != Pointed }

  /** Settle the callers; a boot that throws stops the component. */
  ghost function StepReturn(s: State, id: nat, throws: bool): State
    requires id in s.cycles
  {
    var c := s.cycles[id];
    var ready := s.ready || Restores(c, throws, s.stopped);
    SetCycle(s, id, c.(settled := true))
    .(ready := ready, lost := !ready && (s.lost || Short(c)),
      calls := CallersSettled(s.calls, c.entry.callers, s.clock),
      threw := s.threw || throws, stopped := s.stopped || (throws && c.role == Boot))
  }

  ghost function Without(cycles: map<nat, Cycle>, id: nat): map<nat, Cycle> {
    map x | x in cycles && x != id :: cycles[x]
  }

  ghost function Continued(q: Queue, role: Role): (Queue, Effect) {
    match role
    case Boot => EndBoot(q)
    case Held => Release(q)
    case Promoted => if q.promotedRunning == 0 then (q, Nothing) else PromotedEnded(q)
  }

  ghost function StepContinue(s: State, id: nat): State
    requires id in s.cycles
  {
    var (q, effect) := Continued(s.queue, s.cycles[id].role);
    Apply(s.(cycles := Without(s.cycles, id)), q, effect)
  }

  ghost predicate Enabled(s: State, a: Action) {
    match a
    case Call(key) => !s.stopped || Reloads(key)
    case Await(entry, owner) => (entry, owner) in s.handles
    case Render(c) => Running(s, c) && s.cycles[c].stage == Working && !s.stopped && ReadyKey(s.cycles[c].entry.key)
    case HookStart(c, name) =>
      && Running(s, c) && s.cycles[c].stage == Working
      && (name == OnReady ==> !s.stopped && ReadyKey(s.cycles[c].entry.key))
    case HookSettle(c) => c in s.cycles && s.cycles[c].hook.Some? && s.cycles[c].hook.value < |s.hooks|
    case ReadyPoint(c) =>
      && Running(s, c) && !s.stopped && ReadyKey(s.cycles[c].entry.key)
      && (s.cycles[c].stage == AfterReady
          || (s.cycles[c].stage == Working && Reloads(s.cycles[c].entry.key)))
    case Return(c, throws) =>
      && Running(s, c)
      && (throws || s.stopped || !ReadyKey(s.cycles[c].entry.key) || s.cycles[c].stage == Pointed
          || Stale(s, s.cycles[c]) || Superseded(s, s.cycles[c]))
    case Continue(c) => c in s.cycles && s.cycles[c].settled
    case Timer => s.timers > 0
    case Stop => true
  }

  ghost function StepAwait(s: State, entry: nat, owner: nat): State {
    if owner < |s.hooks| && !s.hooks[owner].settled
    then var (q, effect) := Promote(s.queue, entry); Apply(s, q, effect)
    else s
  }

  ghost function StepRender(s: State, id: nat): State
    requires id in s.cycles
  {
    SetCycle(s, id, s.cycles[id].(rendered := Some(s.renderCount + 1))).(renderCount := s.renderCount + 1,
        ready := false)
  }

  ghost function StepTimer(s: State): State
    requires s.timers > 0
  {
    var (q, effect) := TimerFired(s.queue);
    Apply(s.(timers := s.timers - 1), q, effect)
  }

  ghost function Tick(s: State): State { s.(clock := s.clock + 1) }

  ghost function Step(s: State, a: Action): State
    requires Enabled(s, a)
  {
    match a
    case Call(key) => Tick(StepCall(s, key))
    case Await(entry, owner) => Tick(StepAwait(s, entry, owner))
    case Render(c) => Tick(StepRender(s, c))
    case HookStart(c, name) => Tick(StepHookStart(s, c, name))
    case HookSettle(c) => Tick(StepHookSettle(s, c))
    case ReadyPoint(c) => Tick(StepReadyPoint(s, c))
    case Return(c, throws) => Tick(StepReturn(s, c, throws))
    case Continue(c) => Tick(StepContinue(s, c))
    case Timer => Tick(StepTimer(s))
    case Stop => Tick(s.(stopped := true))
  }

  /** The state a run ends in; None when some action of it was not enabled. */
  ghost function Run(actions: seq<Action>): Option<State> {
    if actions == [] then Some(Init())
    else
      var s := Run(actions[..|actions| - 1]);
      var a := actions[|actions| - 1];
      if s.None? || !Enabled(s.value, a) then None else Some(Step(s.value, a))
  }

  // ----- The lock -----

  ghost predicate Owns(c: Cycle) { c.role != Promoted }

  ghost function PromotedIn(cycles: map<nat, Cycle>): set<nat> { set id | id in cycles && cycles[id].role == Promoted }

  ghost predicate Unowned(cycles: map<nat, Cycle>) { forall a :: a in cycles ==> !Owns(cycles[a]) }

  /** Boot, a queue entry, a scheduled hand-off or a deferred release: exactly one of them
      exists while the queue is busy, and none while it is idle. */
  ghost predicate Lock(q: Queue, cycles: map<nat, Cycle>, timers: nat) {
    && (forall a, b :: a in cycles && b in cycles && Owns(cycles[a]) && Owns(cycles[b]) ==> a == b)
    && timers <= 1
    && (timers == 1 ==> !q.releaseDeferred && q.promotedRunning == 0)
    && (timers == 1 || q.releaseDeferred ==> Unowned(cycles))
    && (q.busy <==> timers == 1 || q.releaseDeferred || !Unowned(cycles))
    && (q.releaseDeferred ==> q.promotedRunning > 0)
    && (q.promotedRunning > 0 ==> q.busy)
    && q.promotedRunning == |PromotedIn(cycles)|
    && (q.booting <==> 0 in cycles)
    && (forall a :: a in cycles ==> (cycles[a].role == Boot <==> a == 0))
    && (!q.busy ==> q.pending == [])
  }

  ghost predicate Younger(pending: seq<Entry>, id: nat) {
    forall i :: 0 <= i < |pending| ==> id < pending[i].id
  }

  /** Identities: pending entries have not begun, and are younger than every lock holder so far. */
  ghost predicate Ids(pending: seq<Entry>, nextId: nat, begun: map<nat, Begun>, clock: nat, heldStarts: seq<nat>) {
    && (forall i, j :: 0 <= i < j < |pending| ==> pending[i].id < pending[j].id)
    && (forall i :: 0 <= i < |pending| ==> 0 < pending[i].id < nextId && pending[i].id !in begun)
    && (forall e :: e in begun ==> e < nextId && begun[e].at < clock)
    && 0 in begun && nextId > 0
    && |heldStarts| > 0
    && (forall k :: 0 <= k < |heldStarts| ==>
          heldStarts[k] in begun && !begun[heldStarts[k]].promoted && Younger(pending, heldStarts[k]))
    && (forall k, l :: 0 <= k < l < |heldStarts| ==> heldStarts[k] < heldStarts[l])
  }

  ghost predicate CycleIds(cycles: map<nat, Cycle>, begun: map<nat, Begun>, heldStarts: seq<nat>) {
    forall a :: a in cycles ==>
      && a in begun && cycles[a].entry.id == a && cycles[a].entry.key == begun[a].key
      && (cycles[a].role == Promoted <==> begun[a].promoted)
      && (Owns(cycles[a]) ==> |heldStarts| > 0 && a == heldStarts[|heldStarts| - 1])
  }

  /** A hook run that has not settled belongs to an executor that is parked on it. */
  ghost predicate Hooks(cycles: map<nat, Cycle>, hooks: seq<Hook>, handles: set<(nat, nat)>) {
    && (forall h :: 0 <= h < |hooks| && !hooks[h].settled ==>
          hooks[h].cycle in cycles && cycles[hooks[h].cycle].hook == Some(h))
    && (forall a :: a in cycles ==> CycleHook(cycles[a], a, hooks))
    && (forall p :: p in handles ==> p.1 < |hooks| && hooks[p.1].name == OnReady)
  }

  ghost predicate CycleHook(c: Cycle, a: nat, hooks: seq<Hook>) {
    && (c.stage == InReady ==> c.hook.Some?)
    && (c.hook.Some? ==>
          && c.hook.value < |hooks| && hooks[c.hook.value].cycle == a && !hooks[c.hook.value].settled
          && !c.settled && (c.stage == InReady <==> hooks[c.hook.value].name == OnReady))
  }

  /** Until its own on_ready() runs, the lock holder is alone: nothing can have outdated it. */
  ghost predicate Alone(cycles: map<nat, Cycle>, promotedRunning: nat, renderCount: nat, loadSeq: nat) {
    forall a :: a in cycles && Owns(cycles[a]) && cycles[a].stage == Working ==>
      && promotedRunning == 0
      && (cycles[a].rendered.Some? ==> cycles[a].rendered.value == renderCount)
      && (cycles[a].loading.Some? ==> cycles[a].loading.value == loadSeq)
  }

  ghost predicate Structure(s: State) {
    && Lock(s.queue, s.cycles, s.timers)
    && Ids(s.queue.pending, s.queue.nextId, s.begun, s.clock, s.heldStarts)
    && CycleIds(s.cycles, s.begun, s.heldStarts)
    && Hooks(s.cycles, s.hooks, s.handles)
    && Alone(s.cycles, s.queue.promotedRunning, s.renderCount, s.loadSeq)
  }

  // Changing executors one at a time.

  lemma PromotedAfterAdd(cycles: map<nat, Cycle>, id: nat, c: Cycle)
    requires id !in cycles
    ensures |PromotedIn(cycles[id := c])| == |PromotedIn(cycles)| + (if c.role == Promoted then 1 else 0)
  {
    assert PromotedIn(cycles[id := c]) == PromotedIn(cycles) + (if c.role == Promoted then {id} else {});
  }

  lemma PromotedAfterRemove(cycles: map<nat, Cycle>, id: nat)
    requires id in cycles
    ensures |PromotedIn(map x | x in cycles && x != id :: cycles[x])|
         == |PromotedIn(cycles)| - (if cycles[id].role == Promoted then 1 else 0)
  {
    var rest := map x | x in cycles && x != id :: cycles[x];
    assert PromotedIn(rest) == PromotedIn(cycles) - (if cycles[id].role == Promoted then {id} else {});
  }

  /** Replacing an executor's record by one with the same role leaves the lock as it was. */
  lemma SameRoleLock(q: Queue, cycles: map<nat, Cycle>, timers: nat, id: nat, c: Cycle)
    requires Lock(q, cycles, timers) && id in cycles && c.role == cycles[id].role
    ensures Lock(q, cycles[id := c], timers)
  {
    assert PromotedIn(cycles[id := c]) == PromotedIn(cycles);
    if !Unowned(cycles) {
      var a :| a in cycles && Owns(cycles[a]);
      assert a in cycles[id := c] && Owns(cycles[id := c][a]);
    }
    if !Unowned(cycles[id := c]) {
      var a :| a in cycles[id := c] && Owns(cycles[id := c][a]);
      assert a in cycles && Owns(cycles[a]);
    }
  }

  /** The lock is free - busy, but with no boot, entry, hand-off or deferred release. */
  ghost predicate Free(s: State) {
    && s.queue.busy && !s.queue.booting && !s.queue.releaseDeferred && s.timers == 0
    && s.queue.promotedRunning == 0 == |PromotedIn(s.cycles)|
    && Unowned(s.cycles) && 0 !in s.cycles
  }

  lemma StartHeldLock(q: Queue, cycles: map<nat, Cycle>, id: nat, c: Cycle)
    requires q.busy && !q.booting && !q.releaseDeferred && q.promotedRunning == 0 == |PromotedIn(cycles)|
    requires Unowned(cycles) && 0 !in cycles && id !in cycles && id != 0 && c.role == Held
    ensures Lock(q, cycles[id := c], 0)
  {
    PromotedAfterAdd(cycles, id, c);
    assert Owns(cycles[id := c][id]);
    assert PromotedIn(cycles) == {};
  }

  lemma StartIds(pending: seq<Entry>, nextId: nat, begun: map<nat, Begun>, clock: nat, heldStarts: seq<nat>, id: nat,
                 b: Begun)
    requires Ids(pending, nextId, begun, clock, heldStarts)
    requires id !in begun && id < nextId && b.at == clock && Younger(pending, id) && !b.promoted
    requires forall k :: 0 <= k < |heldStarts| ==> heldStarts[k] < id
    ensures Ids(pending, nextId, begun[id := b], clock + 1, heldStarts + [id])
  {
  }

  lemma StartCycleIds(cycles: map<nat, Cycle>, begun: map<nat, Begun>, heldStarts: seq<nat>, id: nat, c: Cycle,
                      b: Begun)
    requires CycleIds(cycles, begun, heldStarts) && id !in begun && Unowned(cycles)
    requires c.role == Held && c.entry.id == id && c.entry.key == b.key && !b.promoted
    ensures CycleIds(cycles[id := c], begun[id := b], heldStarts + [id])
  {
  }

  lemma StartHooks(cycles: map<nat, Cycle>, hooks: seq<Hook>, handles: set<(nat, nat)>, id: nat, c: Cycle)
    requires Hooks(cycles, hooks, handles) && id !in cycles && c.hook.None? && c.stage == Working
    ensures Hooks(cycles[id := c], hooks, handles)
  {
  }

  /** Starting the next lock holder from a free lock. */
  lemma StartHeldKeeps(s: State, e: Entry)
    requires Free(s)
    requires Ids(s.queue.pending, s.queue.nextId, s.begun, s.clock, s.heldStarts)
    requires CycleIds(s.cycles, s.begun, s.heldStarts) && Hooks(s.cycles, s.hooks, s.handles)
    requires e.id !in s.begun && 0 < e.id < s.queue.nextId && Younger(s.queue.pending, e.id)
    requires forall k :: 0 <= k < |s.heldStarts| ==> s.heldStarts[k] < e.id
    ensures Structure(Tick(StartCycle(s, e, Held)))
  {
    var c := Starting(Held, e, s.ready);
    var b := Begun(s.clock, e.key, false);
    StartHeldLock(s.queue, s.cycles, e.id, c);
    StartIds(s.queue.pending, s.queue.nextId, s.begun, s.clock, s.heldStarts, e.id, b);
    StartCycleIds(s.cycles, s.begun, s.heldStarts, e.id, c, b);
    StartHooks(s.cycles, s.hooks, s.handles, e.id, c);
    assert Alone(s.cycles[e.id := c], s.queue.promotedRunning, s.renderCount, s.loadSeq);
  }

  lemma IdsTick(pending: seq<Entry>, nextId: nat, begun: map<nat, Begun>, clock: nat, heldStarts: seq<nat>)
    requires Ids(pending, nextId, begun, clock, heldStarts)
    ensures Ids(pending, nextId, begun, clock + 1, heldStarts)
  {
  }

  lemma AppendIds(pending: seq<Entry>, e: Entry, begun: map<nat, Begun>, clock: nat, heldStarts: seq<nat>)
    requires Ids(pending, e.id, begun, clock, heldStarts)
    ensures Ids(pending + [e], e.id + 1, begun, clock, heldStarts)
  {
  }

  lemma EnqueueIds(q: Queue, key: Key, caller: nat, begun: map<nat, Begun>, clock: nat, heldStarts: seq<nat>)
    requires Ids(q.pending, q.nextId, begun, clock, heldStarts)
    ensures var p := Enqueue(q, key, caller).0; Ids(p.pending, p.nextId, begun, clock, heldStarts)
  {
    var p := Enqueue(q, key, caller).0;
    if p.nextId == q.nextId {
      assert forall i :: 0 <= i < |q.pending| ==> p.pending[i].id == q.pending[i].id;
    } else {
      AppendIds(q.pending, Entry(q.nextId, key, [caller]), begun, clock, heldStarts);
    }
  }

  lemma RemoveIds(pending: seq<Entry>, nextId: nat, begun: map<nat, Begun>, clock: nat, heldStarts: seq<nat>, k: nat)
    requires Ids(pending, nextId, begun, clock, heldStarts) && k < |pending|
    ensures Ids(pending[..k] + pending[k + 1..], nextId, begun, clock, heldStarts)
  {
    var rest := pending[..k] + pending[k + 1..];
    assert forall i :: 0 <= i < |rest| ==> rest[i] == pending[if i < k then i else i + 1];
  }

  lemma StartPromotedIds(pending: seq<Entry>, nextId: nat, begun: map<nat, Begun>, clock: nat, heldStarts: seq<nat>,
                         id: nat, b: Begun)
    requires Ids(pending, nextId, begun, clock, heldStarts)
    requires id !in begun && id < nextId && b.at == clock
    requires forall i :: 0 <= i < |pending| ==> pending[i].id != id
    ensures Ids(pending, nextId, begun[id := b], clock + 1, heldStarts)
  {
  }

  /** With no boot, entry or deferred release about, an idle or handed-off lock is free to take. */
  lemma IdleOrTimerIsFree(q: Queue, cycles: map<nat, Cycle>, timers: nat)
    requires Lock(q, cycles, timers) && (!q.busy || timers > 0)
    ensures !q.booting && !q.releaseDeferred && q.promotedRunning == 0 == |PromotedIn(cycles)|
    ensures Unowned(cycles) && 0 !in cycles && timers == (if q.busy then 1 else 0)
    ensures !q.busy ==> q.pending == []
  {
  }

  lemma PendingFacts(pending: seq<Entry>, nextId: nat, begun: map<nat, Begun>, clock: nat, heldStarts: seq<nat>, k: nat)
    requires Ids(pending, nextId, begun, clock, heldStarts) && k < |pending|
    ensures pending[k].id !in begun && 0 < pending[k].id < nextId
    ensures forall i :: 0 <= i < |pending| && i != k ==> pending[i].id != pending[k].id
    ensures k == 0 ==> Younger(pending[1..], pending[0].id)
    ensures forall i :: 0 <= i < |heldStarts| ==> heldStarts[i] < pending[k].id
  {
  }

  lemma FreshIdFacts(pending: seq<Entry>, nextId: nat, begun: map<nat, Begun>, clock: nat, heldStarts: seq<nat>)
    requires Ids(pending, nextId, begun, clock, heldStarts)
    ensures nextId !in begun && nextId > 0
    ensures forall i :: 0 <= i < |heldStarts| ==> heldStarts[i] < nextId
  {
  }

  lemma EnqueueLock(q: Queue, key: Key, caller: nat, cycles: map<nat, Cycle>, timers: nat)
    requires Lock(q, cycles, timers) && q.busy
    ensures Lock(Enqueue(q, key, caller).0, cycles, timers)
  {
  }

  lemma NewHandleKeeps(cycles: map<nat, Cycle>, hooks: seq<Hook>, handles: set<(nat, nat)>, run: Option<nat>,
                       waits: Option<nat>)
    requires Hooks(cycles, hooks, handles)
    ensures Hooks(cycles, hooks, handles + NewHandle(hooks, run, waits))
  {
  }

  /** What an effect other than a start does to the parts the structure speaks of. */
  lemma ApplyQuiet(s: State, q: Queue, effect: Effect)
    requires !effect.Start? && !effect.StartPromoted?
    ensures var t := Apply(s, q, effect);
            && t.queue == q && t.cycles == s.cycles && t.timers == s.timers + (if effect == Handoff then 1 else 0)
            && t.hooks == s.hooks && t.handles == s.handles && t.begun == s.begun && t.clock == s.clock
            && t.heldStarts == s.heldStarts && t.renderCount == s.renderCount && t.loadSeq == s.loadSeq
  {
  }

  /** What starting an executor does to each part. */
  lemma StartedParts(s: State, e: Entry, role: Role)
    ensures var t := StartCycle(s, e, role);
            && t.queue == s.queue && t.timers == s.timers && t.hooks == s.hooks && t.handles == s.handles &&
                t.calls == s.calls
            && t.clock == s.clock && t.renderCount == s.renderCount && t.loadSeq == s.loadSeq
            && t.owed == s.owed && t.lost == s.lost && t.stopped == s.stopped && t.threw == s.threw
            && t.cycles == s.cycles[e.id := Starting(role, e, s.ready)]
            && t.begun == s.begun[e.id := Begun(s.clock, e.key, role == Promoted)]
            && t.heldStarts == (if role == Held then s.heldStarts + [e.id] else s.heldStarts)
            && t.ready == (s.ready && (s.stopped || !Reloads(e.key)))
  {
  }

  lemma EnqueueBusy(q: Queue, key: Key, caller: nat)
    requires q.busy
    ensures var (p, effect, waits) := Enqueue(q, key, caller);
            effect == Nothing && waits.Some? && p.promotedRunning == q.promotedRunning
  {
  }

  lemma CallQueued(s: State, key: Key)
    requires Structure(s) && s.queue.busy
    ensures Structure(Tick(StepCall(s, key)))
  {
    hide Enqueue, Apply, Lock, Ids, CycleIds, Hooks, Alone, NewHandle;
    var (q, effect, waits) := Enqueue(s.queue, key, |s.calls.keyOf|);
    EnqueueBusy(s.queue, key, |s.calls.keyOf|);
    EnqueueIds(s.queue, key, |s.calls.keyOf|, s.begun, s.clock, s.heldStarts);
    IdsTick(q.pending, q.nextId, s.begun, s.clock, s.heldStarts);
    EnqueueLock(s.queue, key, |s.calls.keyOf|, s.cycles, s.timers);
    NewHandleKeeps(s.cycles, s.hooks, s.handles, s.asyncHook, waits);
    ApplyQuiet(s.(calls := CallMade(s.calls, key, waits.value, s.clock), ready := s.ready && key != RenderKey,
             handles := s.handles + NewHandle(s.hooks, s.asyncHook, waits)), q, effect);
  }

  lemma CallStarts(s: State, key: Key)
    requires Structure(s) && !s.queue.busy
    ensures Structure(Tick(StepCall(s, key)))
  {
    hide Lock, Ids, CycleIds, Hooks, Alone, PromotedIn, Unowned, Younger, FirstReady;
    var q := s.queue.(busy := true, nextId := s.queue.nextId + 1);
    EnqueueIds(s.queue, key, |s.calls.keyOf|, s.begun, s.clock, s.heldStarts);
    IdleOrTimerIsFree(s.queue, s.cycles, s.timers);
    FreshIdFacts(s.queue.pending, s.queue.nextId, s.begun, s.clock, s.heldStarts);
    var e := Entry(s.queue.nextId, key, [|s.calls.keyOf|]);
    var u := s.(queue := q, calls := CallMade(s.calls, key, e.id, s.clock), ready := s.ready && key != RenderKey,
                handles := s.handles + NewHandle(s.hooks, s.asyncHook, None));
    assert u.handles == s.handles;
    StartHeldKeeps(u, e);
  }

  lemma TimerStarts(s: State)
    requires Structure(s) && s.timers > 0 && s.queue.pending != []
    ensures Structure(Tick(StepTimer(s)))
  {
    hide Lock, Ids, CycleIds, Hooks, Alone, PromotedIn, Unowned, Younger, FirstReady;
    IdleOrTimerIsFree(s.queue, s.cycles, s.timers);
    PendingFacts(s.queue.pending, s.queue.nextId, s.begun, s.clock, s.heldStarts, 0);
    RemoveIds(s.queue.pending, s.queue.nextId, s.begun, s.clock, s.heldStarts, 0);
    assert s.queue.pending[..0] + s.queue.pending[1..] == s.queue.pending[1..];
    StartHeldKeeps(s.(timers := 0, queue := TimerFired(s.queue).0), s.queue.pending[0]);
  }

  lemma TimerIdles(s: State)
    requires Structure(s) && s.timers > 0 && s.queue.pending == []
    ensures Structure(Tick(StepTimer(s)))
  {
    hide Lock, Ids, CycleIds, Hooks, Alone, PromotedIn, Unowned, Younger, FirstReady;
    IdleOrTimerIsFree(s.queue, s.cycles, s.timers);
    IdsTick(s.queue.pending, s.queue.nextId, s.begun, s.clock, s.heldStarts);
    IdleLock(s.queue.(busy := false), s.cycles);
  }

  lemma IdleLock(q: Queue, cycles: map<nat, Cycle>)
    requires !q.busy && !q.booting && !q.releaseDeferred && q.promotedRunning == 0 == |PromotedIn(cycles)|
    requires Unowned(cycles) && 0 !in cycles && q.pending == []
    ensures Lock(q, cycles, 0)
  {
    assert PromotedIn(cycles) == {};
  }

  /** The cycle parked on an unsettled on_ready() run, and what its being there says about the lock. */
  lemma OwnerOfUnsettledReady(s: State, h: nat) returns (a: nat)
    requires Structure(s) && h < |s.hooks| && !s.hooks[h].settled && s.hooks[h].name == OnReady
    ensures a in s.cycles && s.cycles[a].stage == InReady && !s.cycles[a].settled
    ensures s.timers == 0 && s.queue.busy
    ensures forall b :: b in s.cycles && Owns(s.cycles[b]) ==> s.cycles[b].stage != Working
  {
    a := s.hooks[h].cycle;
    assert CycleHook(s.cycles[a], a, s.hooks);
    if s.cycles[a].role == Promoted {
      assert a in PromotedIn(s.cycles);
    }
  }

  lemma PromoteLock(q: Queue, cycles: map<nat, Cycle>, id: nat, c: Cycle, p: Queue)
    requires Lock(q, cycles, 0) && q.busy && id !in cycles && id != 0 && c.role == Promoted
    requires p.busy && p.booting == q.booting && p.releaseDeferred == q.releaseDeferred
    requires p.promotedRunning == q.promotedRunning + 1
    ensures Lock(p, cycles[id := c], 0)
  {
    PromotedAfterAdd(cycles, id, c);
    assert Unowned(cycles) ==> Unowned(cycles[id := c]);
    if !Unowned(cycles) {
      var a :| a in cycles && Owns(cycles[a]);
      assert Owns(cycles[id := c][a]);
    }
  }

  lemma PromotedCycleIds(cycles: map<nat, Cycle>, begun: map<nat, Begun>, heldStarts: seq<nat>, id: nat, c: Cycle,
                         b: Begun)
    requires CycleIds(cycles, begun, heldStarts) && id !in begun
    requires c.role == Promoted && c.entry.id == id && c.entry.key == b.key && b.promoted
    ensures CycleIds(cycles[id := c], begun[id := b], heldStarts)
  {
  }

  lemma HandleFacts(s: State, p: (nat, nat))
    requires Hooks(s.cycles, s.hooks, s.handles) && p in s.handles
    ensures p.1 < |s.hooks| && s.hooks[p.1].name == OnReady
  {
  }

  lemma NotStarted(cycles: map<nat, Cycle>, begun: map<nat, Begun>, heldStarts: seq<nat>, id: nat)
    requires CycleIds(cycles, begun, heldStarts) && id !in begun
    ensures id !in cycles
  {
  }

  lemma AwaitKeeps(s: State, entry: nat, owner: nat)
    requires Structure(s) && Enabled(s, Await(entry, owner))
    ensures Structure(Tick(StepAwait(s, entry, owner)))
  {
    hide Lock, Ids, CycleIds, Hooks;
    IdsTick(s.queue.pending, s.queue.nextId, s.begun, s.clock, s.heldStarts);
    HandleFacts(s, (entry, owner));
    var k := IndexOf(s.queue.pending, entry);
    if !s.hooks[owner].settled && k < |s.queue.pending| {
      var (q, _) := Promote(s.queue, entry);
      var e := s.queue.pending[k];
      var a := OwnerOfUnsettledReady(s, owner);
      var c := Starting(Promoted, e, s.ready);
      var b := Begun(s.clock, e.key, true);
      PendingFacts(s.queue.pending, s.queue.nextId, s.begun, s.clock, s.heldStarts, k);
      NotStarted(s.cycles, s.begun, s.heldStarts, e.id);
      PromoteLock(s.queue, s.cycles, e.id, c, q);
      RemoveIds(s.queue.pending, s.queue.nextId, s.begun, s.clock, s.heldStarts, k);
      StartPromotedIds(q.pending, q.nextId, s.begun, s.clock, s.heldStarts, e.id, b);
      PromotedCycleIds(s.cycles, s.begun, s.heldStarts, e.id, c, b);
      StartHooks(s.cycles, s.hooks, s.handles, e.id, c);
      assert Alone(s.cycles[e.id := c], q.promotedRunning, s.renderCount, s.loadSeq);
    }
  }

  // Steps of one executor.

  lemma ChangedCycleIds(cycles: map<nat, Cycle>, begun: map<nat, Begun>, heldStarts: seq<nat>, id: nat, c: Cycle)
    requires CycleIds(cycles, begun, heldStarts) && id in cycles
    requires c.role == cycles[id].role && c.entry == cycles[id].entry
    ensures CycleIds(cycles[id := c], begun, heldStarts)
  {
  }

  lemma ChangedCycleHooks(cycles: map<nat, Cycle>, hooks: seq<Hook>, handles: set<(nat, nat)>, id: nat, c: Cycle)
    requires Hooks(cycles, hooks, handles) && id in cycles && cycles[id].hook.None?
    requires c.hook.None? && c.stage != InReady
    ensures Hooks(cycles[id := c], hooks, handles)
  {
  }

  /** While a lock holder works towards its on_ready(), every executor is that holder. */
  lemma WorkingIsAlone(q: Queue, cycles: map<nat, Cycle>, timers: nat, id: nat, a: nat)
    requires Lock(q, cycles, timers) && q.promotedRunning == 0
    requires id in cycles && a in cycles && Owns(cycles[a])
    ensures id == a
  {
    assert PromotedIn(cycles) == {};
    assert id !in PromotedIn(cycles);
  }

  /** Replacing the record of executor `id`, which is not parked on a hook. */
  lemma ChangeKeeps(s: State, id: nat, c: Cycle, renderCount: nat)
    requires Structure(s) && Running(s, id)
    requires c.role == s.cycles[id].role && c.entry == s.cycles[id].entry && c.hook.None? && c.stage != InReady
    requires c.stage == Working ==> s.cycles[id].stage == Working && c.loading == s.cycles[id].loading
    requires if renderCount == s.renderCount then c.rendered == s.cycles[id].rendered
             else c.rendered == Some(renderCount) && c.stage == Working
    ensures Lock(s.queue, s.cycles[id := c], s.timers)
    ensures Ids(s.queue.pending, s.queue.nextId, s.begun, s.clock + 1, s.heldStarts)
    ensures CycleIds(s.cycles[id := c], s.begun, s.heldStarts)
    ensures Hooks(s.cycles[id := c], s.hooks, s.handles)
    ensures Alone(s.cycles[id := c], s.queue.promotedRunning, renderCount, s.loadSeq)
  {
    hide Lock, Ids, CycleIds, Hooks;
    SameRoleLock(s.queue, s.cycles, s.timers, id, c);
    IdsTick(s.queue.pending, s.queue.nextId, s.begun, s.clock, s.heldStarts);
    ChangedCycleIds(s.cycles, s.begun, s.heldStarts, id, c);
    ChangedCycleHooks(s.cycles, s.hooks, s.handles, id, c);
    var after := s.cycles[id := c];
    forall a | a in after && Owns(after[a]) && after[a].stage == Working
      ensures s.queue.promotedRunning == 0
      ensures after[a].rendered.Some? ==> after[a].rendered.value == renderCount
      ensures after[a].loading.Some? ==> after[a].loading.value == s.loadSeq
    {
      WorkingIsAlone(s.queue, s.cycles, s.timers, id, a);
    }
  }

  lemma RenderKeeps(s: State, id: nat)
    requires Structure(s) && Enabled(s, Render(id))
    ensures Structure(Tick(StepRender(s, id)))
  {
    hide Lock, Ids, CycleIds, Hooks, Alone, PromotedIn, Unowned, Younger, FirstReady;
    ChangeKeeps(s, id, s.cycles[id].(rendered := Some(s.renderCount + 1)), s.renderCount + 1);
  }

  lemma ReadyPointKeeps(s: State, id: nat)
    requires Structure(s) && Enabled(s, ReadyPoint(id))
    ensures Structure(Tick(StepReadyPoint(s, id)))
  {
    hide Lock, Ids, CycleIds, Hooks, Alone, PromotedIn, Unowned, Younger, FirstReady;
    ChangeKeeps(s, id, s.cycles[id].(stage := Pointed), s.renderCount);
  }

  lemma NotInReady(cycles: map<nat, Cycle>, hooks: seq<Hook>, handles: set<(nat, nat)>, id: nat)
    requires Hooks(cycles, hooks, handles) && id in cycles && cycles[id].hook.None?
    ensures cycles[id].stage != InReady
  {
    assert CycleHook(cycles[id], id, hooks);
  }

  lemma ReturnKeeps(s: State, id: nat, throws: bool)
    requires Structure(s) && Enabled(s, Return(id, throws))
    ensures Structure(Tick(StepReturn(s, id, throws)))
  {
    hide Lock, Ids, CycleIds, Hooks, Alone, PromotedIn, Unowned, Younger, FirstReady;
    NotInReady(s.cycles, s.hooks, s.handles, id);
    ChangeKeeps(s, id, s.cycles[id].(settled := true), s.renderCount);
  }

  lemma HookStartHooks(s: State, id: nat, name: HookName)
    requires Hooks(s.cycles, s.hooks, s.handles) && Running(s, id) && s.cycles[id].stage == Working
    ensures var t := StepHookStart(s, id, name); Hooks(t.cycles, t.hooks, t.handles)
  {
    var t := StepHookStart(s, id, name);
    forall a | a in t.cycles ensures CycleHook(t.cycles[a], a, t.hooks) {
      assert CycleHook(s.cycles[a], a, s.hooks);
    }
  }

  lemma HookStartAlone(s: State, id: nat, name: HookName)
    requires Lock(s.queue, s.cycles, s.timers) && Alone(s.cycles, s.queue.promotedRunning, s.renderCount, s.loadSeq)
    requires Running(s, id) && s.cycles[id].stage == Working
    ensures var t := StepHookStart(s, id, name); Alone(t.cycles, t.queue.promotedRunning, t.renderCount, t.loadSeq)
  {
    hide Lock;
    var t := StepHookStart(s, id, name);
    forall a | a in t.cycles && Owns(t.cycles[a]) && t.cycles[a].stage == Working
      ensures s.queue.promotedRunning == 0
      ensures t.cycles[a].rendered.Some? ==> t.cycles[a].rendered.value == t.renderCount
      ensures t.cycles[a].loading.Some? ==> t.cycles[a].loading.value == t.loadSeq
    {
      WorkingIsAlone(s.queue, s.cycles, s.timers, id, a);
    }
  }

  lemma HookStartKeeps(s: State, id: nat, name: HookName)
    requires Structure(s) && Enabled(s, HookStart(id, name))
    ensures Structure(Tick(StepHookStart(s, id, name)))
  {
    hide Lock, Ids, CycleIds, Hooks, Alone;
    var t := StepHookStart(s, id, name);
    SameRoleLock(s.queue, s.cycles, s.timers, id, t.cycles[id]);
    IdsTick(s.queue.pending, s.queue.nextId, s.begun, s.clock, s.heldStarts);
    ChangedCycleIds(s.cycles, s.begun, s.heldStarts, id, t.cycles[id]);
    HookStartHooks(s, id, name);
    HookStartAlone(s, id, name);
  }

  lemma HookSettleHooks(s: State, id: nat)
    requires Hooks(s.cycles, s.hooks, s.handles) && id in s.cycles
    requires s.cycles[id].hook.Some? && s.cycles[id].hook.value < |s.hooks|
    ensures var t := StepHookSettle(s, id); Hooks(t.cycles, t.hooks, t.handles)
    ensures s.cycles[id].stage == InReady <==> s.hooks[s.cycles[id].hook.value].name == OnReady
  {
    var t := StepHookSettle(s, id);
    assert CycleHook(s.cycles[id], id, s.hooks);
    forall a | a in t.cycles ensures CycleHook(t.cycles[a], a, t.hooks) {
      assert CycleHook(s.cycles[a], a, s.hooks);
    }
  }

  lemma HookSettleKeeps(s: State, id: nat)
    requires Structure(s) && Enabled(s, HookSettle(id))
    ensures Structure(Tick(StepHookSettle(s, id)))
  {
    hide Lock, Ids, CycleIds, Hooks;
    var t := StepHookSettle(s, id);
    SameRoleLock(s.queue, s.cycles, s.timers, id, t.cycles[id]);
    IdsTick(s.queue.pending, s.queue.nextId, s.begun, s.clock, s.heldStarts);
    ChangedCycleIds(s.cycles, s.begun, s.heldStarts, id, t.cycles[id]);
    HookSettleHooks(s, id);
    assert Alone(t.cycles, t.queue.promotedRunning, t.renderCount, t.loadSeq);
  }

  // The continuation of a settled executor.

  lemma WithoutCycleIds(cycles: map<nat, Cycle>, begun: map<nat, Begun>, heldStarts: seq<nat>, id: nat)
    requires CycleIds(cycles, begun, heldStarts)
    ensures CycleIds(Without(cycles, id), begun, heldStarts)
  {
  }

  lemma WithoutAlone(cycles: map<nat, Cycle>, promotedRunning: nat, renderCount: nat, loadSeq: nat, id: nat, after: nat)
    requires Alone(cycles, promotedRunning, renderCount, loadSeq) && after <= promotedRunning
    ensures Alone(Without(cycles, id), after, renderCount, loadSeq)
  {
  }

  lemma WithoutHooks(cycles: map<nat, Cycle>, hooks: seq<Hook>, handles: set<(nat, nat)>, id: nat)
    requires Hooks(cycles, hooks, handles) && id in cycles && cycles[id].settled
    ensures Hooks(Without(cycles, id), hooks, handles)
  {
    assert CycleHook(cycles[id], id, hooks);
  }

  /** The holder is gone and `_release()` runs. */
  lemma OwnerEndedLock(q: Queue, cycles: map<nat, Cycle>, timers: nat, id: nat)
    requires Lock(q, cycles, timers) && id in cycles && Owns(cycles[id])
    ensures var (p, effect) := Continued(q, cycles[id].role);
            && !effect.Start? && !effect.StartPromoted? && p.pending == q.pending && p.nextId == q.nextId
            && p.promotedRunning <= q.promotedRunning
            && Lock(p, Without(cycles, id), timers + (if effect == Handoff then 1 else 0))
  {
    PromotedAfterRemove(cycles, id);
    assert Unowned(Without(cycles, id));
  }

  lemma PromotedEndedLock(q: Queue, cycles: map<nat, Cycle>, timers: nat, id: nat)
    requires Lock(q, cycles, timers) && id in cycles && cycles[id].role == Promoted
    ensures var (p, effect) := Continued(q, Promoted);
            && !effect.Start? && !effect.StartPromoted? && p.pending == q.pending && p.nextId == q.nextId
            && p.promotedRunning <= q.promotedRunning
            && Lock(p, Without(cycles, id), timers + (if effect == Handoff then 1 else 0))
  {
    assert id in PromotedIn(cycles);
    PromotedAfterRemove(cycles, id);
    if !Unowned(cycles) {
      var a :| a in cycles && Owns(cycles[a]);
      assert Owns(Without(cycles, id)[a]);
    }
  }

  lemma EndedLock(q: Queue, cycles: map<nat, Cycle>, timers: nat, id: nat)
    requires Lock(q, cycles, timers) && id in cycles
    ensures var (p, effect) := Continued(q, cycles[id].role);
            && !effect.Start? && !effect.StartPromoted? && p.pending == q.pending && p.nextId == q.nextId
            && p.promotedRunning <= q.promotedRunning
            && Lock(p, Without(cycles, id), timers + (if effect == Handoff then 1 else 0))
  {
    hide Lock;
    if cycles[id].role == Promoted {
      PromotedEndedLock(q, cycles, timers, id);
    } else {
      OwnerEndedLock(q, cycles, timers, id);
    }
  }

  lemma ContinueKeeps(s: State, id: nat)
    requires Structure(s) && Enabled(s, Continue(id))
    ensures Structure(Tick(StepContinue(s, id)))
  {
    hide Lock, Ids, CycleIds, Hooks, Alone, Without, Continued, Apply;
    var (q, effect) := Continued(s.queue, s.cycles[id].role);
    IdsTick(s.queue.pending, s.queue.nextId, s.begun, s.clock, s.heldStarts);
    WithoutHooks(s.cycles, s.hooks, s.handles, id);
    WithoutCycleIds(s.cycles, s.begun, s.heldStarts, id);
    EndedLock(s.queue, s.cycles, s.timers, id);
    WithoutAlone(s.cycles, s.queue.promotedRunning, s.renderCount, s.loadSeq, id, q.promotedRunning);
    ApplyQuiet(s.(cycles := Without(s.cycles, id)), q, effect);
  }

  lemma StopKeeps(s: State)
    requires Structure(s)
    ensures Structure(Tick(s.(stopped := true)))
  {
    hide Lock, Ids, CycleIds, Hooks, Alone;
    IdsTick(s.queue.pending, s.queue.nextId, s.begun, s.clock, s.heldStarts);
  }

  lemma StepKeepsStructure(s: State, a: Action)
    requires Structure(s) && Enabled(s, a)
    ensures Structure(Step(s, a))
  {
    hide Structure, StepCall, StepAwait, StepRender, StepHookStart, StepHookSettle, StepReadyPoint, StepReturn,
      StepContinue, StepTimer;
    match a
    case Call(key) => if s.queue.busy { CallQueued(s, key); } else { CallStarts(s, key); }
    case Await(entry, owner) => AwaitKeeps(s, entry, owner);
    case Render(c) => RenderKeeps(s, c);
    case HookStart(c, name) => HookStartKeeps(s, c, name);
    case HookSettle(c) => HookSettleKeeps(s, c);
    case ReadyPoint(c) => ReadyPointKeeps(s, c);
    case Return(c, throws) => ReturnKeeps(s, c, throws);
    case Continue(c) => ContinueKeeps(s, c);
    case Timer => if s.queue.pending == [] { TimerIdles(s); } else { TimerStarts(s); }
    case Stop => StopKeeps(s);
  }
}

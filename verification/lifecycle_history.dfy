/** What becomes of every call: the history half of the lifecycle invariant. */
module LifecycleHistory {
  import opened Options
  import opened ComponentQueues
  import opened LifecycleRuns

  ghost predicate NoDuplicates(s: seq<nat>) {
    forall i, j :: 0 <= i < j < |s| ==> s[i] != s[j]
  }

  /** `callers` lists exactly the calls put on entry `id`, each once. */
  ghost predicate CallersOf(callers: seq<nat>, id: nat, entryOf: map<nat, nat>) {
    && NoDuplicates(callers)
    && (forall c :: c in callers ==> c in entryOf && entryOf[c] == id)
    && (forall c :: c in entryOf && entryOf[c] == id ==> c in callers)
  }

  /** The records of calls agree on who called, and on when. */
  ghost predicate Recorded(calls: Calls, nextId: nat, clock: nat) {
    && calls.keyOf.Keys == calls.entryOf.Keys == calls.at.Keys
    && (forall c :: c in calls.keyOf ==> c < |calls.keyOf| && calls.entryOf[c] < nextId && calls.at[c] < clock)
  }

  ghost predicate PendingCalls(calls: Calls, pending: seq<Entry>) {
    forall i :: 0 <= i < |pending| ==>
      && CallersOf(pending[i].callers, pending[i].id, calls.entryOf)
      && (forall c :: c in pending[i].callers ==> c in calls.keyOf && calls.keyOf[c] == pending[i].key)
  }

  ghost predicate CycleCalls(calls: Calls, cycles: map<nat, Cycle>) {
    forall a :: a in cycles ==> CallersOf(cycles[a].entry.callers, a, calls.entryOf)
  }

  ghost predicate Unsettled(cycles: map<nat, Cycle>, id: nat) { id in cycles && !cycles[id].settled }

  /** A call whose entry has begun: begun under the call's key, no earlier than the call, and
      settled - later than it began - unless the entry still runs. */
  ghost predicate BegunCall(calls: Calls, c: nat, b: Begun, running: bool, clock: nat)
    requires c in calls.keyOf && c in calls.at
  {
    && b.key == calls.keyOf[c] && calls.at[c] <= b.at
    && (c in calls.settledAt <==> !running)
    && (c in calls.settledAt ==> b.at < calls.settledAt[c] < clock)
  }

  ghost predicate BegunCalls(calls: Calls, begun: map<nat, Begun>, cycles: map<nat, Cycle>, clock: nat) {
    forall c :: c in calls.keyOf && c in calls.at && c in calls.entryOf && calls.entryOf[c] in begun ==>
      BegunCall(calls, c, begun[calls.entryOf[c]], Unsettled(cycles, calls.entryOf[c]), clock)
  }

  /** A call whose entry has not begun is pending. */
  ghost predicate WaitingCalls(calls: Calls, begun: map<nat, Begun>, pending: seq<Entry>) {
    forall c :: c in calls.entryOf && calls.entryOf[c] !in begun ==>
      c !in calls.settledAt && exists i :: 0 <= i < |pending| && pending[i].id == calls.entryOf[c]
  }

  ghost predicate SettledKnown(calls: Calls) { forall c :: c in calls.settledAt ==> c in calls.entryOf }

  /** The callers of each lock holder were settled before the next one began. */
  ghost predicate InTurn(calls: Calls, begun: map<nat, Begun>, heldStarts: seq<nat>) {
    forall k, c :: 0 <= k < |heldStarts| - 1 && c in calls.entryOf && calls.entryOf[c] == heldStarts[k] ==>
      c in calls.settledAt && heldStarts[k + 1] in begun && calls.settledAt[c] < begun[heldStarts[k + 1]].at
  }

  ghost predicate History(s: State) {
    && Recorded(s.calls, s.queue.nextId, s.clock)
    && PendingCalls(s.calls, s.queue.pending)
    && CycleCalls(s.calls, s.cycles)
    && BegunCalls(s.calls, s.begun, s.cycles, s.clock)
    && WaitingCalls(s.calls, s.begun, s.queue.pending)
    && SettledKnown(s.calls)
    && InTurn(s.calls, s.begun, s.heldStarts)
  }

  // Time alone, and executors that change neither entry nor settledness, keep the history.

  lemma SameExecutors(s: State, t: State)
    requires History(s) && t.calls == s.calls && t.queue.nextId == s.queue.nextId && t.clock == s.clock + 1
    requires t.queue.pending == s.queue.pending && t.begun == s.begun && t.heldStarts == s.heldStarts
    requires t.cycles.Keys == s.cycles.Keys
    requires forall a :: a in s.cycles ==>
      t.cycles[a].entry == s.cycles[a].entry && t.cycles[a].settled == s.cycles[a].settled
    ensures History(t)
  {
    assert forall id :: Unsettled(s.cycles, id) == Unsettled(t.cycles, id);
  }

  // A call.

  lemma MadeRecorded(calls: Calls, key: Key, entry: nat, nextId: nat, after: nat, clock: nat)
    requires Recorded(calls, nextId, clock) && entry < after && nextId <= after
    ensures Recorded(CallMade(calls, key, entry, clock), after, clock + 1)
    ensures |calls.keyOf| !in calls.keyOf && |calls.keyOf| !in calls.entryOf
  {
    var made := CallMade(calls, key, entry, clock);
    assert |calls.keyOf| !in calls.keyOf.Keys;
    assert made.keyOf.Keys == calls.keyOf.Keys + {|calls.keyOf|};
    assert |made.keyOf.Keys| == |calls.keyOf.Keys| + 1;
  }

  lemma MadeCallersElsewhere(callers: seq<nat>, id: nat, calls: Calls, key: Key, entry: nat, clock: nat)
    requires CallersOf(callers, id, calls.entryOf) && id != entry && |calls.keyOf| !in calls.entryOf
    ensures CallersOf(callers, id, CallMade(calls, key, entry, clock).entryOf)
  {
  }

  lemma MadeCallersHere(callers: seq<nat>, id: nat, calls: Calls, key: Key, clock: nat)
    requires CallersOf(callers, id, calls.entryOf) && |calls.keyOf| !in calls.entryOf
    ensures CallersOf(callers + [|calls.keyOf|], id, CallMade(calls, key, id, clock).entryOf)
  {
    var c := |calls.keyOf|;
    assert forall x :: x in callers + [c] <==> x in callers || x == c;
  }

  lemma MadeFirst(id: nat, calls: Calls, key: Key, nextId: nat, clock: nat)
    requires Recorded(calls, nextId, clock) && id >= nextId && |calls.keyOf| !in calls.keyOf
    ensures CallersOf([|calls.keyOf|], id, CallMade(calls, key, id, clock).entryOf)
  {
  }

  ghost predicate EntryCalls(e: Entry, calls: Calls) {
    && CallersOf(e.callers, e.id, calls.entryOf)
    && (forall c :: c in e.callers ==> c in calls.keyOf && calls.keyOf[c] == e.key)
  }

  lemma MadeElsewhereEntry(e: Entry, calls: Calls, key: Key, entry: nat, clock: nat)
    requires EntryCalls(e, calls) && e.id != entry && |calls.keyOf| !in calls.keyOf && |calls.keyOf| !in calls.entryOf
    ensures EntryCalls(e, CallMade(calls, key, entry, clock))
  {
    hide CallersOf;
    MadeCallersElsewhere(e.callers, e.id, calls, key, entry, clock);
  }

  lemma MadeMergedEntry(e: Entry, calls: Calls, clock: nat)
    requires EntryCalls(e, calls) && |calls.keyOf| !in calls.keyOf && |calls.keyOf| !in calls.entryOf
    ensures EntryCalls(e.(callers := e.callers + [|calls.keyOf|]), CallMade(calls, e.key, e.id, clock))
  {
    hide CallersOf;
    MadeCallersHere(e.callers, e.id, calls, e.key, clock);
  }

  lemma MadeEntryCalls(q: Queue, key: Key, calls: Calls, clock: nat, i: nat)
    requires q.busy && Recorded(calls, q.nextId, clock) && |calls.keyOf| !in calls.keyOf
    requires forall j, k :: 0 <= j < k < |q.pending| ==> q.pending[j].id < q.pending[k].id
    requires forall j :: 0 <= j < |q.pending| ==> q.pending[j].id < q.nextId
    requires i < |q.pending| ==> EntryCalls(q.pending[i], calls)
    ensures var (p, _, waits) := Enqueue(q, key, |calls.keyOf|);
            waits.Some? && (i < |p.pending| ==> EntryCalls(p.pending[i], CallMade(calls, key, waits.value, clock)))
  {
    hide EntryCalls, CallMade;
    var (p, _, waits) := Enqueue(q, key, |calls.keyOf|);
    assert |calls.keyOf| !in calls.entryOf.Keys;
    if i < |p.pending| - 1 {
      MadeElsewhereEntry(q.pending[i], calls, key, waits.value, clock);
    } else if i == |p.pending| - 1 && p.nextId == q.nextId {
      MadeMergedEntry(q.pending[i], calls, clock);
    } else if i == |p.pending| - 1 {
      MadeFirstEntry(q.nextId, calls, key, clock);
    }
  }

  lemma MadeFirstEntry(id: nat, calls: Calls, key: Key, clock: nat)
    requires Recorded(calls, id, clock) && |calls.keyOf| !in calls.keyOf
    ensures EntryCalls(Entry(id, key, [|calls.keyOf|]), CallMade(calls, key, id, clock))
  {
    MadeFirst(id, calls, key, id, clock);
  }

  /** `after` continues `pending`, entry by entry. */
  ghost predicate SameIds(pending: seq<Entry>, after: seq<Entry>) {
    |pending| <= |after| && forall i :: 0 <= i < |pending| ==> after[i].id == pending[i].id
  }

  /** Which entry a queued call waits on. */
  lemma WaitsOn(q: Queue, key: Key, caller: nat, begun: map<nat, Begun>, clock: nat, heldStarts: seq<nat>)
    requires q.busy && Ids(q.pending, q.nextId, begun, clock, heldStarts)
    ensures var (p, _, waits) := Enqueue(q, key, caller);
            && waits.Some? && waits.value < p.nextId && q.nextId <= p.nextId && waits.value !in begun
            && |p.pending| > 0 && p.pending[|p.pending| - 1].id == waits.value
            && SameIds(q.pending, p.pending)
  {
  }

  lemma MadeWaiting(calls: Calls, begun: map<nat, Begun>, pending: seq<Entry>, after: seq<Entry>, key: Key, entry: nat,
                    clock: nat)
    requires WaitingCalls(calls, begun, pending) && SettledKnown(calls) && |calls.keyOf| !in calls.entryOf
    requires SameIds(pending, after)
    requires entry in begun || (|after| > 0 && after[|after| - 1].id == entry)
    ensures WaitingCalls(CallMade(calls, key, entry, clock), begun, after) &&
            SettledKnown(CallMade(calls, key, entry, clock))
  {
    var made := CallMade(calls, key, entry, clock);
    forall c | c in made.entryOf && made.entryOf[c] !in begun
      ensures c !in made.settledAt && exists i :: 0 <= i < |after| && after[i].id == made.entryOf[c]
    {
      if c in calls.entryOf {
        var i :| 0 <= i < |pending| && pending[i].id == calls.entryOf[c];
        assert after[i].id == made.entryOf[c];
      }
    }
  }

  lemma MadeElsewhere(calls: Calls, begun: map<nat, Begun>, cycles: map<nat, Cycle>, heldStarts: seq<nat>, key: Key,
                      entry: nat, clock: nat)
    requires BegunCalls(calls, begun, cycles, clock) && CycleCalls(calls, cycles) && InTurn(calls, begun, heldStarts)
    requires entry !in begun && |calls.keyOf| !in calls.entryOf
    requires forall a :: a in cycles ==> a in begun
    requires forall k :: 0 <= k < |heldStarts| ==> heldStarts[k] in begun
    ensures var made := CallMade(calls, key, entry, clock);
            BegunCalls(made, begun, cycles, clock) && BegunCalls(made, begun, cycles, clock + 1)
            && CycleCalls(made, cycles) && InTurn(made, begun, heldStarts)
  {
    var made := CallMade(calls, key, entry, clock);
    forall a | a in cycles ensures CallersOf(cycles[a].entry.callers, a, made.entryOf) {
      MadeCallersElsewhere(cycles[a].entry.callers, a, calls, key, entry, clock);
    }
  }

  lemma KnownBegun(s: State)
    requires Structure(s)
    ensures forall a :: a in s.cycles ==> a in s.begun
    ensures forall k :: 0 <= k < |s.heldStarts| ==> s.heldStarts[k] in s.begun && !s.begun[s.heldStarts[k]].promoted
    ensures forall i, j :: 0 <= i < j < |s.queue.pending| ==> s.queue.pending[i].id < s.queue.pending[j].id
    ensures forall i :: 0 <= i < |s.queue.pending| ==>
      s.queue.pending[i].id < s.queue.nextId && s.queue.pending[i].id !in s.begun
    ensures forall e :: e in s.begun ==> s.begun[e].at < s.clock && e < s.queue.nextId
  {
  }

  lemma QueuedPending(s: State, key: Key)
    requires Structure(s) && History(s) && s.queue.busy
    ensures var (p, _, waits) := Enqueue(s.queue, key, |s.calls.keyOf|);
            waits.Some? && PendingCalls(CallMade(s.calls, key, waits.value, s.clock), p.pending)
  {
    hide Lock, Ids, CycleIds, Hooks, Alone, Enqueue, CallersOf, CallMade, BegunCalls, WaitingCalls, CycleCalls, InTurn;
    KnownBegun(s);
    var (p, _, waits) := Enqueue(s.queue, key, |s.calls.keyOf|);
    EnqueueBusy(s.queue, key, |s.calls.keyOf|);
    MadeRecorded(s.calls, key, 0, s.queue.nextId, s.queue.nextId + 1, s.clock);
    forall i: nat | i < |p.pending| ensures EntryCalls(p.pending[i], CallMade(s.calls, key, waits.value, s.clock)) {
      MadeEntryCalls(s.queue, key, s.calls, s.clock, i);
    }
  }

  lemma QueuedHistory(s: State, key: Key)
    requires Structure(s) && History(s) && s.queue.busy
    ensures History(Tick(StepCall(s, key)))
  {
    hide Lock, Ids, CycleIds, Hooks, Alone, Enqueue, CallersOf, CallMade, NewHandle, Apply, Recorded,
      PendingCalls, BegunCalls, WaitingCalls, CycleCalls, InTurn, SettledKnown, SameIds;
    KnownBegun(s);
    var c := |s.calls.keyOf|;
    var (p, effect, waits) := Enqueue(s.queue, key, c);
    EnqueueBusy(s.queue, key, c);
    WaitsOn(s.queue, key, c, s.begun, s.clock, s.heldStarts);
    MadeRecorded(s.calls, key, waits.value, s.queue.nextId, p.nextId, s.clock);
    QueuedPending(s, key);
    MadeElsewhere(s.calls, s.begun, s.cycles, s.heldStarts, key, waits.value, s.clock);
    MadeWaiting(s.calls, s.begun, s.queue.pending, p.pending, key, waits.value, s.clock);
    var made := CallMade(s.calls, key, waits.value, s.clock);
    ApplyQuiet(s.(calls := made, ready := s.ready && key != RenderKey,
                  handles := s.handles + NewHandle(s.hooks, s.asyncHook, waits)), p, effect);
    ApplyCalls(s.(calls := made, ready := s.ready && key != RenderKey,
                  handles := s.handles + NewHandle(s.hooks, s.asyncHook, waits)), p, effect);
  }

  lemma ApplyCalls(s: State, q: Queue, effect: Effect)
    ensures Apply(s, q, effect).calls == s.calls
  {
  }

  // An entry begins.

  /** Entry `e` is about to begin, leaving `pending` behind it. */
  ghost predicate Beginnable(calls: Calls, begun: map<nat, Begun>, pending: seq<Entry>, e: Entry, clock: nat) {
    && e.id !in begun && EntryCalls(e, calls)
    && (forall c :: c in e.callers ==> c in calls.at && calls.at[c] <= clock && c !in calls.settledAt)
    && (forall c :: c in calls.entryOf && calls.entryOf[c] !in begun && calls.entryOf[c] != e.id ==>
          c !in calls.settledAt && exists i :: 0 <= i < |pending| && pending[i].id == calls.entryOf[c])
  }

  lemma BeginsHistory(calls: Calls, begun: map<nat, Begun>, cycles: map<nat, Cycle>, pending: seq<Entry>, e: Entry,
                      c: Cycle, b: Begun, clock: nat)
    requires BegunCalls(calls, begun, cycles, clock) && CycleCalls(calls, cycles) &&
             Beginnable(calls, begun, pending, e, clock)
    requires b.at == clock && b.key == e.key && c.entry == e && !c.settled
    ensures BegunCalls(calls, begun[e.id := b], cycles[e.id := c], clock + 1)
    ensures CycleCalls(calls, cycles[e.id := c]) && WaitingCalls(calls, begun[e.id := b], pending)
  {
    forall x | x in calls.keyOf && x in calls.at && x in calls.entryOf && calls.entryOf[x] in begun[e.id := b]
      ensures BegunCall(calls, x, begun[e.id := b][calls.entryOf[x]], Unsettled(cycles[e.id := c], calls.entryOf[x]),
              clock + 1)
    {
      if calls.entryOf[x] == e.id {
        assert x in e.callers;
      } else {
        assert Unsettled(cycles[e.id := c], calls.entryOf[x]) == Unsettled(cycles, calls.entryOf[x]);
        assert BegunCall(calls, x, begun[calls.entryOf[x]], Unsettled(cycles, calls.entryOf[x]), clock);
      }
    }
  }

  lemma PromotedInTurn(calls: Calls, begun: map<nat, Begun>, heldStarts: seq<nat>, id: nat, b: Begun)
    requires InTurn(calls, begun, heldStarts) && id !in begun
    ensures InTurn(calls, begun[id := b], heldStarts)
  {
  }

  /** When the lock is free, every caller of the entries that held it has been settled. */
  lemma NextInTurn(calls: Calls, begun: map<nat, Begun>, cycles: map<nat, Cycle>, heldStarts: seq<nat>, clock: nat,
                   id: nat, b: Begun)
    requires InTurn(calls, begun, heldStarts) && id !in begun && b.at == clock && Unowned(cycles)
    requires BegunCalls(calls, begun, cycles, clock) && CycleIds(cycles, begun, heldStarts)
    requires calls.keyOf.Keys == calls.entryOf.Keys == calls.at.Keys
    requires forall k :: 0 <= k < |heldStarts| ==> heldStarts[k] in begun && !begun[heldStarts[k]].promoted
    requires forall c :: c in calls.settledAt && c in calls.entryOf ==> calls.settledAt[c] < clock
    ensures InTurn(calls, begun[id := b], heldStarts + [id])
  {
    var after := heldStarts + [id];
    forall k, c | 0 <= k < |after| - 1 && c in calls.entryOf && calls.entryOf[c] == after[k]
      ensures c in calls.settledAt && after[k + 1] in begun[id := b] &&
              calls.settledAt[c] < begun[id := b][after[k + 1]].at
    {
      assert after[k] == heldStarts[k] && calls.entryOf[c] in begun && c in calls.keyOf;
      assert BegunCall(calls, c, begun[heldStarts[k]], Unsettled(cycles, heldStarts[k]), clock);
      if k == |heldStarts| - 1 {
        assert !Unsettled(cycles, heldStarts[k]);
      }
    }
  }

  lemma SettledBefore(s: State)
    requires Structure(s) && History(s)
    ensures forall c :: c in s.calls.settledAt ==> c in s.calls.entryOf && s.calls.settledAt[c] < s.clock
  {
    forall c | c in s.calls.settledAt ensures s.calls.settledAt[c] < s.clock {
      assert c in s.calls.entryOf.Keys;
      assert BegunCall(s.calls, c, s.begun[s.calls.entryOf[c]], Unsettled(s.cycles, s.calls.entryOf[c]), s.clock);
    }
  }

  lemma PendingBeginnable(s: State, k: nat)
    requires Structure(s) && History(s) && k < |s.queue.pending|
    ensures Beginnable(s.calls, s.begun, s.queue.pending[..k] + s.queue.pending[k + 1..], s.queue.pending[k], s.clock)
  {
    hide Lock, Hooks, Alone, CycleIds, CycleCalls, BegunCalls, InTurn;
    KnownBegun(s);
    var rest := s.queue.pending[..k] + s.queue.pending[k + 1..];
    var e := s.queue.pending[k];
    forall c | c in e.callers ensures c in s.calls.at && s.calls.at[c] <= s.clock && c !in s.calls.settledAt {
      assert c in s.calls.keyOf.Keys;
    }
    forall c | c in s.calls.entryOf && s.calls.entryOf[c] !in s.begun && s.calls.entryOf[c] != e.id
      ensures c !in s.calls.settledAt && exists i :: 0 <= i < |rest| && rest[i].id == s.calls.entryOf[c]
    {
      var i :| 0 <= i < |s.queue.pending| && s.queue.pending[i].id == s.calls.entryOf[c];
      assert if i < k then rest[i] == s.queue.pending[i] else rest[i - 1] == s.queue.pending[i];
    }
  }

  /** The next lock holder begins. */
  lemma HeldHistory(s: State, e: Entry)
    requires Recorded(s.calls, s.queue.nextId, s.clock + 1) && PendingCalls(s.calls, s.queue.pending)
    requires CycleCalls(s.calls, s.cycles) && BegunCalls(s.calls, s.begun, s.cycles, s.clock) && SettledKnown(s.calls)
    requires InTurn(s.calls, s.begun, s.heldStarts)
    requires Beginnable(s.calls, s.begun, s.queue.pending, e, s.clock)
    requires Unowned(s.cycles) && CycleIds(s.cycles, s.begun, s.heldStarts)
    requires forall k :: 0 <= k < |s.heldStarts| ==> s.heldStarts[k] in s.begun && !s.begun[s.heldStarts[k]].promoted
    requires forall c :: c in s.calls.settledAt && c in s.calls.entryOf ==> s.calls.settledAt[c] < s.clock
    ensures History(Tick(StartCycle(s, e, Held)))
  {
    hide CallersOf, PendingCalls, CycleCalls, BegunCalls, WaitingCalls, SettledKnown, InTurn, CycleIds, Unowned;
    var c := Starting(Held, e, s.ready);
    var b := Begun(s.clock, e.key, false);
    assert e.id !in s.begun;
    NextInTurn(s.calls, s.begun, s.cycles, s.heldStarts, s.clock, e.id, b);
    BeginsHistory(s.calls, s.begun, s.cycles, s.queue.pending, e, c, b, s.clock);
  }

  lemma FirstCallBeginnable(s: State, key: Key)
    requires Structure(s) && History(s) && !s.queue.busy
    ensures var c := |s.calls.keyOf|;
            Beginnable(CallMade(s.calls, key, s.queue.nextId, s.clock), s.begun, [], Entry(s.queue.nextId, key, [c]),
                s.clock)
  {
    hide Ids, Hooks, Alone, CycleIds, CycleCalls, BegunCalls, InTurn, PendingCalls;
    FreshIdFacts(s.queue.pending, s.queue.nextId, s.begun, s.clock, s.heldStarts);
    MadeRecorded(s.calls, key, s.queue.nextId, s.queue.nextId, s.queue.nextId + 1, s.clock);
    MadeFirst(s.queue.nextId, s.calls, key, s.queue.nextId, s.clock);
  }

  lemma StartedHistory(s: State, key: Key)
    requires Structure(s) && History(s) && !s.queue.busy
    ensures History(Tick(StepCall(s, key)))
  {
    hide Lock, Ids, Hooks, Alone, CallersOf, PendingCalls, CycleCalls, BegunCalls, WaitingCalls, SettledKnown, InTurn,
      CycleIds, Unowned, Recorded, PromotedIn, CallMade, Beginnable;
    KnownBegun(s);
    SettledBefore(s);
    IdleOrTimerIsFree(s.queue, s.cycles, s.timers);
    FreshIdFacts(s.queue.pending, s.queue.nextId, s.begun, s.clock, s.heldStarts);
    var c := |s.calls.keyOf|;
    var id := s.queue.nextId;
    MadeRecorded(s.calls, key, id, id, id + 1, s.clock);
    MadeElsewhere(s.calls, s.begun, s.cycles, s.heldStarts, key, id, s.clock);
    FirstCallBeginnable(s, key);
    var made := CallMade(s.calls, key, id, s.clock);
    MadeSettled(s.calls, key, id, s.clock);
    CalledAtOnce(s, key);
    hide StepCall, Called, CallMade, History, StartCycle;
    HeldHistory(Called(s, key, None).(queue := s.queue.(busy := true, nextId := id + 1)), Entry(id, key, [c]));
  }

  lemma CalledAtOnce(s: State, key: Key)
    requires !s.queue.busy
    ensures var u := Called(s, key, None);
            && u.calls == CallMade(s.calls, key, s.queue.nextId, s.clock)
            && u.cycles == s.cycles && u.begun == s.begun && u.heldStarts == s.heldStarts && u.clock == s.clock
            && StepCall(s, key) ==
               StartCycle(u.(queue := s.queue.(busy := true, nextId := s.queue.nextId + 1)),
                          Entry(s.queue.nextId, key, [|s.calls.keyOf|]), Held)
  {
    hide CallMade, NewHandle;
  }

  lemma MadeSettled(calls: Calls, key: Key, entry: nat, clock: nat)
    requires SettledKnown(calls) && |calls.keyOf| !in calls.entryOf
    ensures var made := CallMade(calls, key, entry, clock);
            made.settledAt == calls.settledAt && SettledKnown(made)
    ensures PendingCalls(CallMade(calls, key, entry, clock), [])
  {
  }

  lemma TimerStartHistory(s: State)
    requires Structure(s) && History(s) && s.timers > 0 && s.queue.pending != []
    ensures History(Tick(StepTimer(s)))
  {
    hide Lock, Ids, Hooks, Alone, CallersOf, CycleCalls, BegunCalls, WaitingCalls, SettledKnown, InTurn,
      CycleIds, Unowned, PromotedIn, Beginnable;
    KnownBegun(s);
    SettledBefore(s);
    IdleOrTimerIsFree(s.queue, s.cycles, s.timers);
    PendingBeginnable(s, 0);
    assert s.queue.pending[..0] + s.queue.pending[1..] == s.queue.pending[1..];
    HeldHistory(s.(timers := 0, queue := TimerFired(s.queue).0), s.queue.pending[0]);
  }

  lemma TimerHistory(s: State)
    requires Structure(s) && History(s) && s.timers > 0
    ensures History(Tick(StepTimer(s)))
  {
    hide Structure, History;
    if s.queue.pending != [] {
      TimerStartHistory(s);
    } else {
      SameExecutors(s, Tick(StepTimer(s)));
    }
  }

  lemma RemovedPending(calls: Calls, pending: seq<Entry>, k: nat)
    requires PendingCalls(calls, pending) && k < |pending|
    ensures PendingCalls(calls, pending[..k] + pending[k + 1..])
  {
    hide CallersOf;
    var rest := pending[..k] + pending[k + 1..];
    assert forall i :: 0 <= i < |rest| ==> rest[i] == pending[if i < k then i else i + 1];
  }

  lemma PromoteHistory(s: State, entry: nat)
    requires Structure(s) && History(s) && IndexOf(s.queue.pending, entry) < |s.queue.pending|
    ensures var (q, effect) := Promote(s.queue, entry); History(Tick(Apply(s, q, effect)))
  {
    hide Lock, Ids, Hooks, Alone, CallersOf, CycleCalls, BegunCalls, WaitingCalls, SettledKnown, InTurn,
      CycleIds, Unowned, PromotedIn, PendingCalls, EntryCalls;
    var k := IndexOf(s.queue.pending, entry);
    var e := s.queue.pending[k];
    var rest := s.queue.pending[..k] + s.queue.pending[k + 1..];
    var b := Begun(s.clock, e.key, true);
    PendingBeginnable(s, k);
    RemovedPending(s.calls, s.queue.pending, k);
    PromotedInTurn(s.calls, s.begun, s.heldStarts, e.id, b);
    BeginsHistory(s.calls, s.begun, s.cycles, rest, e, Starting(Promoted, e, s.ready), b, s.clock);
  }

  lemma ReturnedBegun(calls: Calls, begun: map<nat, Begun>, cycles: map<nat, Cycle>, clock: nat, id: nat, after: Calls)
    requires BegunCalls(calls, begun, cycles, clock) && CycleCalls(calls, cycles)
    requires id in cycles && id in begun && begun[id].at < clock && !cycles[id].settled
    requires after == CallersSettled(calls, cycles[id].entry.callers, clock)
    ensures BegunCalls(after, begun, cycles[id := cycles[id].(settled := true)], clock + 1)
  {
    var done := cycles[id := cycles[id].(settled := true)];
    forall x | x in after.keyOf && x in after.at && x in after.entryOf && after.entryOf[x] in begun
      ensures BegunCall(after, x, begun[after.entryOf[x]], Unsettled(done, after.entryOf[x]), clock + 1)
    {
      assert BegunCall(calls, x, begun[calls.entryOf[x]], Unsettled(cycles, calls.entryOf[x]), clock);
      assert x in cycles[id].entry.callers <==> calls.entryOf[x] == id;
    }
  }

  lemma ReturnedRest(calls: Calls, begun: map<nat, Begun>, cycles: map<nat, Cycle>, pending: seq<Entry>,
                     heldStarts: seq<nat>, clock: nat, id: nat, after: Calls)
    requires WaitingCalls(calls, begun, pending) && InTurn(calls, begun, heldStarts) && SettledKnown(calls)
    requires BegunCalls(calls, begun, cycles, clock) && CycleCalls(calls, cycles)
    requires calls.keyOf.Keys == calls.entryOf.Keys == calls.at.Keys
    requires forall k :: 0 <= k < |heldStarts| ==> heldStarts[k] in begun
    requires id in cycles && id in begun && !cycles[id].settled
    requires after == CallersSettled(calls, cycles[id].entry.callers, clock)
    ensures WaitingCalls(after, begun, pending) && InTurn(after, begun, heldStarts) && SettledKnown(after)
    ensures after.keyOf == calls.keyOf && after.entryOf == calls.entryOf && after.at == calls.at
    ensures PendingCalls(calls, pending) ==> PendingCalls(after, pending)
  {
    forall k, c | 0 <= k < |heldStarts| - 1 && c in calls.entryOf && calls.entryOf[c] == heldStarts[k]
      ensures c in after.settledAt && after.settledAt[c] == calls.settledAt[c]
    {
      assert c in calls.keyOf.Keys;
      assert BegunCall(calls, c, begun[calls.entryOf[c]], Unsettled(cycles, calls.entryOf[c]), clock);
    }
  }

  lemma ReturnHistory(s: State, id: nat, throws: bool)
    requires Structure(s) && History(s) && Enabled(s, Return(id, throws))
    ensures History(Tick(StepReturn(s, id, throws)))
  {
    hide Lock, Ids, CycleIds, Hooks, Alone, CallersOf, BegunCalls, WaitingCalls, SettledKnown, InTurn, PendingCalls,
      CallersSettled;
    KnownBegun(s);
    var after := CallersSettled(s.calls, s.cycles[id].entry.callers, s.clock);
    ReturnedBegun(s.calls, s.begun, s.cycles, s.clock, id, after);
    ReturnedRest(s.calls, s.begun, s.cycles, s.queue.pending, s.heldStarts, s.clock, id, after);
  }

  lemma EndedHistory(s: State, id: nat)
    requires Structure(s) && History(s) && Enabled(s, Continue(id))
    ensures History(Tick(StepContinue(s, id)))
  {
    hide Lock, Ids, CycleIds, Hooks, Alone, CallersOf, WaitingCalls, SettledKnown, InTurn, Continued, Apply, BegunCall;
    var (q, effect) := Continued(s.queue, s.cycles[id].role);
    var rest := Without(s.cycles, id);
    EndedLock(s.queue, s.cycles, s.timers, id);
    ApplyQuiet(s.(cycles := rest), q, effect);
    ApplyCalls(s.(cycles := rest), q, effect);
    assert forall x :: Unsettled(rest, x) == Unsettled(s.cycles, x);
    LaterBegun(s.calls, s.begun, s.cycles, s.clock);
  }

  lemma LaterBegun(calls: Calls, begun: map<nat, Begun>, cycles: map<nat, Cycle>, clock: nat)
    requires BegunCalls(calls, begun, cycles, clock)
    ensures BegunCalls(calls, begun, cycles, clock + 1)
  {
  }

  lemma AwaitHistory(s: State, entry: nat, owner: nat)
    requires Structure(s) && History(s)
    ensures History(Tick(StepAwait(s, entry, owner)))
  {
    hide Structure, History;
    if owner < |s.hooks| && !s.hooks[owner].settled && IndexOf(s.queue.pending, entry) < |s.queue.pending| {
      PromoteHistory(s, entry);
    } else {
      SameExecutors(s, Tick(s));
    }
  }

  lemma ExecutorHistory(s: State, a: Action)
    requires History(s) && Enabled(s, a) && (a.Render? || a.HookStart? || a.HookSettle? || a.ReadyPoint? || a.Stop?)
    ensures History(Step(s, a))
  {
    hide History, HookBegun, HookSettled, LeavesOwed;
    SameExecutors(s, Step(s, a));
  }

  lemma StepKeepsHistory(s: State, a: Action)
    requires Structure(s) && History(s) && Enabled(s, a)
    ensures History(Step(s, a))
  {
    hide Structure, History, StepCall, StepAwait, StepReturn, StepContinue, StepTimer, StepRender, StepHookStart,
      StepHookSettle, StepReadyPoint;
    match a
    case Call(key) => if s.queue.busy { QueuedHistory(s, key); } else { StartedHistory(s, key); }
    case Await(entry, owner) => AwaitHistory(s, entry, owner);
    case Return(c, throws) => ReturnHistory(s, c, throws);
    case Continue(c) => EndedHistory(s, c);
    case Timer => TimerHistory(s);
    case Render(_) | HookStart(_, _) | HookSettle(_) | ReadyPoint(_) | Stop => ExecutorHistory(s, a);
  }

  // Call order.

  ghost predicate BegunInOrder(begun: map<nat, Begun>, pending: seq<Entry>) {
    forall e :: e in begun && !begun[e].promoted ==> Younger(pending, e)
  }

  /** A later call is on a later entry, unless the earlier call's entry was promoted past it. */
  ghost predicate CallOrder(calls: Calls, begun: map<nat, Begun>) {
    forall c, d :: c in calls.entryOf && d in calls.entryOf && c < d && calls.entryOf[c] > calls.entryOf[d] ==>
      calls.entryOf[c] in begun && begun[calls.entryOf[c]].promoted
  }

  ghost predicate Order(s: State) { BegunInOrder(s.begun, s.queue.pending) && CallOrder(s.calls, s.begun) }

  lemma OrderBegins(calls: Calls, begun: map<nat, Begun>, pending: seq<Entry>, k: nat, b: Begun)
    requires BegunInOrder(begun, pending) && CallOrder(calls, begun) && k < |pending| && pending[k].id !in begun
    requires forall i, j :: 0 <= i < j < |pending| ==> pending[i].id < pending[j].id
    requires b.promoted || k == 0
    ensures var rest := pending[..k] + pending[k + 1..];
            BegunInOrder(begun[pending[k].id := b], rest) && CallOrder(calls, begun[pending[k].id := b])
  {
    var rest := pending[..k] + pending[k + 1..];
    assert forall i :: 0 <= i < |rest| ==> rest[i] == pending[if i < k then i else i + 1];
  }

  /** No entry newer than the last pending one is still waiting, or began unpromoted. */
  lemma LastIsNewest(calls: Calls, begun: map<nat, Begun>, pending: seq<Entry>, c: nat)
    requires BegunInOrder(begun, pending) && WaitingCalls(calls, begun, pending) && |pending| > 0
    requires forall i, j :: 0 <= i < j < |pending| ==> pending[i].id < pending[j].id
    requires c in calls.entryOf && calls.entryOf[c] > pending[|pending| - 1].id
    ensures calls.entryOf[c] in begun && begun[calls.entryOf[c]].promoted
  {
  }

  /** The entry a new call goes to is the newest one waiting: the last pending entry, or a fresh one. */
  lemma NewestWaiting(calls: Calls, begun: map<nat, Begun>, pending: seq<Entry>, entry: nat, nextId: nat, clock: nat,
                      c: nat)
    requires BegunInOrder(begun, pending) && WaitingCalls(calls, begun, pending) && Recorded(calls, nextId, clock)
    requires forall i, j :: 0 <= i < j < |pending| ==> pending[i].id < pending[j].id
    requires entry == nextId || (|pending| > 0 && entry == pending[|pending| - 1].id)
    requires c in calls.entryOf
    ensures c < |calls.keyOf|
    ensures calls.entryOf[c] > entry ==> calls.entryOf[c] in begun && begun[calls.entryOf[c]].promoted
  {
    hide WaitingCalls, BegunInOrder;
    assert c in calls.keyOf.Keys;
    if calls.entryOf[c] > entry {
      LastIsNewest(calls, begun, pending, c);
    }
  }

  lemma OrderMade(calls: Calls, begun: map<nat, Begun>, pending: seq<Entry>, key: Key, entry: nat, nextId: nat,
                  clock: nat)
    requires BegunInOrder(begun, pending) && WaitingCalls(calls, begun, pending) && CallOrder(calls, begun)
    requires Recorded(calls, nextId, clock)
    requires forall i, j :: 0 <= i < j < |pending| ==> pending[i].id < pending[j].id
    requires entry == nextId || (|pending| > 0 && entry == pending[|pending| - 1].id)
    ensures CallOrder(CallMade(calls, key, entry, clock), begun)
  {
    hide WaitingCalls, BegunInOrder, Recorded;
    forall c | c in calls.entryOf
      ensures c < |calls.keyOf|
      ensures calls.entryOf[c] > entry ==> calls.entryOf[c] in begun && begun[calls.entryOf[c]].promoted
    {
      NewestWaiting(calls, begun, pending, entry, nextId, clock, c);
    }
  }

  lemma QueuedInOrder(q: Queue, key: Key, caller: nat, begun: map<nat, Begun>)
    requires q.busy && BegunInOrder(begun, q.pending) && forall e :: e in begun ==> e < q.nextId
    ensures BegunInOrder(begun, Enqueue(q, key, caller).0.pending)
    ensures var (_, _, waits) := Enqueue(q, key, caller);
            waits.Some? &&
                (waits.value == q.nextId || (|q.pending| > 0 && waits.value == q.pending[|q.pending| - 1].id))
  {
  }

  lemma OrderQueued(s: State, key: Key)
    requires Structure(s) && History(s) && Order(s) && s.queue.busy
    ensures Order(Tick(StepCall(s, key)))
  {
    hide Lock, Ids, CycleIds, Hooks, Alone, PendingCalls, BegunCalls, CycleCalls, InTurn, NewHandle, CallOrder,
      Recorded, WaitingCalls, CallMade, Enqueue, BegunInOrder;
    KnownBegun(s);
    var (p, effect, waits) := Enqueue(s.queue, key, |s.calls.keyOf|);
    EnqueueBusy(s.queue, key, |s.calls.keyOf|);
    QueuedInOrder(s.queue, key, |s.calls.keyOf|, s.begun);
    OrderMade(s.calls, s.begun, s.queue.pending, key, waits.value, s.queue.nextId, s.clock);
  }

  lemma OrderStarted(s: State, key: Key)
    requires Structure(s) && History(s) && Order(s) && !s.queue.busy
    ensures Order(Tick(StepCall(s, key)))
  {
    hide Lock, Ids, CycleIds, Hooks, Alone, PendingCalls, BegunCalls, CycleCalls, InTurn, NewHandle, CallOrder,
      Recorded, WaitingCalls, CallMade, Unowned, PromotedIn;
    KnownBegun(s);
    IdleOrTimerIsFree(s.queue, s.cycles, s.timers);
    FreshIdFacts(s.queue.pending, s.queue.nextId, s.begun, s.clock, s.heldStarts);
    var id := s.queue.nextId;
    OrderMade(s.calls, s.begun, s.queue.pending, key, id, id, s.clock);
    OrderFirst(CallMade(s.calls, key, id, s.clock), s.begun, id, Begun(s.clock, key, false));
  }

  lemma OrderFirst(calls: Calls, begun: map<nat, Begun>, id: nat, b: Begun)
    requires CallOrder(calls, begun) && id !in begun
    ensures CallOrder(calls, begun[id := b])
  {
  }

  lemma OrderAwait(s: State, entry: nat, owner: nat)
    requires Structure(s) && Order(s)
    ensures Order(Tick(StepAwait(s, entry, owner)))
  {
    hide Lock, Ids, CycleIds, Hooks, Alone, BegunInOrder, CallOrder, StartCycle;
    KnownBegun(s);
    var k := IndexOf(s.queue.pending, entry);
    if k < |s.queue.pending| {
      StartedParts(s.(queue := Promote(s.queue, entry).0), s.queue.pending[k], Promoted);
      OrderBegins(s.calls, s.begun, s.queue.pending, k, Begun(s.clock, s.queue.pending[k].key, true));
    }
  }

  lemma OrderTimer(s: State)
    requires Structure(s) && Order(s) && s.timers > 0
    ensures Order(Tick(StepTimer(s)))
  {
    hide Lock, CycleIds, Hooks, Alone, Order, StepTimer;
    KnownBegun(s);
    if s.queue.pending == [] { OrderIdles(s); } else { OrderStarts(s); }
  }

  lemma OrderIdles(s: State)
    requires Order(s) && s.timers > 0 && s.queue.pending == []
    ensures Order(Tick(StepTimer(s)))
  {
    hide BegunInOrder, CallOrder;
  }

  lemma OrderStarts(s: State)
    requires Order(s) && s.timers > 0 && s.queue.pending != [] && s.queue.pending[0].id !in s.begun
    requires forall i, j :: 0 <= i < j < |s.queue.pending| ==> s.queue.pending[i].id < s.queue.pending[j].id
    ensures Order(Tick(StepTimer(s)))
  {
    hide BegunInOrder, CallOrder, StartCycle;
    StartedParts(s.(timers := s.timers - 1, queue := TimerFired(s.queue).0), s.queue.pending[0], Held);
    OrderBegins(s.calls, s.begun, s.queue.pending, 0, Begun(s.clock, s.queue.pending[0].key, false));
    assert s.queue.pending[..0] + s.queue.pending[1..] == s.queue.pending[1..];
  }

  lemma OrderContinue(s: State, id: nat)
    requires Structure(s) && Order(s) && Enabled(s, Continue(id))
    ensures Order(Tick(StepContinue(s, id)))
  {
    hide Lock, Ids, CycleIds, Hooks, Alone, BegunInOrder, CallOrder, Continued, Apply;
    var (q, effect) := Continued(s.queue, s.cycles[id].role);
    EndedLock(s.queue, s.cycles, s.timers, id);
    ApplyQuiet(s.(cycles := Without(s.cycles, id)), q, effect);
    ApplyCalls(s.(cycles := Without(s.cycles, id)), q, effect);
  }

  lemma ReturnOrder(s: State, id: nat, throws: bool)
    requires Order(s) && id in s.cycles
    ensures Order(Tick(StepReturn(s, id, throws)))
  {
  }

  lemma StepKeepsOrder(s: State, a: Action)
    requires Structure(s) && History(s) && Order(s) && Enabled(s, a)
    ensures Order(Step(s, a))
  {
    hide Structure, History, BegunInOrder, CallOrder, StepCall, StepAwait, StepContinue, StepTimer;
    match a
    case Call(key) => if s.queue.busy { OrderQueued(s, key); } else { OrderStarted(s, key); }
    case Await(entry, owner) => OrderAwait(s, entry, owner);
    case Continue(c) => OrderContinue(s, c);
    case Timer => OrderTimer(s);
    case Return(c, throws) => ReturnOrder(s, c, throws);
    case Render(_) | HookStart(_, _) | HookSettle(_) | ReadyPoint(_) | Stop =>
  }
}

/** What holds of every run of the event system, however its handlers nest. */
module EventTheorems {
  import opened Options
  import opened ComponentEvents
  import opened EventRuns

  // ----- invariants -----

  predicate NoRepeats(regs: seq<Reg>) { regs == [] || (regs[0] !in regs[1..] && NoRepeats(regs[1..])) }

  /** A registration is known: it was issued, and says once exactly when once() made it. */
  ghost predicate Issued(reg: Reg, onces: map<nat, Once>, nextId: nat) {
    reg.id < nextId && (reg.once <==> reg.id in onces)
  }

  /** The callbacks of one event: known, each once, and a once() wrapper only under its own event. */
  ghost predicate Proper(event: string, regs: seq<Reg>, onces: map<nat, Once>, nextId: nat) {
    && NoRepeats(regs)
    && forall reg :: reg in regs ==>
       Issued(reg, onces, nextId) && (reg.once ==> onces[reg.id] == Once(event, false))
  }

  ghost predicate Callbacks(callbacks: map<string, seq<Reg>>, onces: map<nat, Once>, nextId: nat) {
    forall event :: event in callbacks ==> Proper(event, callbacks[event], onces, nextId)
  }

  ghost predicate Snapshots(dispatches: seq<Dispatch>, onces: map<nat, Once>, nextId: nat) {
    forall n: nat :: n < |dispatches| ==> Proper(dispatches[n].event, dispatches[n].snapshot, onces, nextId)
  }

  ghost predicate Known(log: seq<Call>, onces: map<nat, Once>, nextId: nat) {
    && (forall id :: id in onces ==> id < nextId)
    && (forall c :: c in log ==> Issued(c.reg, onces, nextId))
  }

  /** A once() handler was called once if it fired at once or from a dispatch, and not yet otherwise. */
  ghost predicate OnceState(id: nat, once: Once, store: Store, log: seq<Call>) {
    && Count(log, id) == (if once.atOnce || id in store.fired then 1 else 0)
    && (once.atOnce ==> id !in store.fired)
    && (!once.atOnce ==> (Reg(id, true) in Registered(store, once.event) <==> id !in store.fired))
  }

  ghost predicate Onces(onces: map<nat, Once>, store: Store, log: seq<Call>) {
    && (forall id :: id in onces ==> OnceState(id, onces[id], store, log))
    && (forall id :: id in store.fired ==> id in onces)
  }

  /** A dispatch has called every plain entry it has passed, in order and once, and left no wrapper behind
      that has not fired. */
  ghost predicate Progress(n: nat, d: Dispatch, fired: set<nat>, log: seq<Call>) {
    && d.pos <= |d.snapshot|
    && Plain(CalledBy(log, n)) == Plain(d.snapshot[..d.pos])
    && (forall j :: 0 <= j < d.pos && d.snapshot[j].once ==> d.snapshot[j].id in fired)
  }

  ghost predicate AllProgress(dispatches: seq<Dispatch>, fired: set<nat>, log: seq<Call>) {
    forall n: nat :: n < |dispatches| ==> Progress(n, dispatches[n], fired, log)
  }

  /** A call made by a dispatch is of one of its entries, with its payload. */
  ghost predicate FromSnapshot(c: Call, dispatches: seq<Dispatch>) {
    c.via.By? ==>
      && c.via.dispatch < |dispatches|
      && c.data == dispatches[c.via.dispatch].data
      && c.reg in dispatches[c.via.dispatch].snapshot
  }

  ghost predicate Calls(dispatches: seq<Dispatch>, log: seq<Call>) {
    forall c :: c in log ==> FromSnapshot(c, dispatches)
  }

  /** A dispatch with entries left is still on the stack. */
  ghost predicate Open(dispatches: seq<Dispatch>, stack: seq<Frame>) {
    forall n: nat :: n < |dispatches| && dispatches[n].pos < |dispatches[n].snapshot| ==> Loop(n) in stack
  }

  ghost predicate Loops(dispatches: seq<Dispatch>, stack: seq<Frame>) {
    forall n: nat :: Loop(n) in stack ==> n < |dispatches|
  }

  ghost predicate Inv(s: State) {
    && Callbacks(s.store.callbacks, s.onces, s.nextId)
    && Snapshots(s.dispatches, s.onces, s.nextId)
    && Known(s.log, s.onces, s.nextId)
    && Onces(s.onces, s.store, s.log)
    && AllProgress(s.dispatches, s.store.fired, s.log)
    && Calls(s.dispatches, s.log)
    && Open(s.dispatches, s.stack)
    && Loops(s.dispatches, s.stack)
  }

  // ----- components of a step -----

  lemma {:induction false} AppendUnique(regs: seq<Reg>, reg: Reg)
    requires NoRepeats(regs) && reg !in regs
    ensures NoRepeats(regs + [reg])
  {
    if regs == [] {
      assert [] + [reg] == [reg];
    } else {
      assert (regs + [reg])[1..] == regs[1..] + [reg];
      AppendUnique(regs[1..], reg);
    }
  }

  lemma {:induction false} WithoutUnique(regs: seq<Reg>, reg: Reg)
    requires NoRepeats(regs)
    ensures NoRepeats(Without(regs, reg))
    ensures forall r :: r in Without(regs, reg) <==> r in regs && r != reg
  {
    if regs != [] {
      WithoutUnique(regs[1..], reg);
      assert regs[0] != reg ==> ([regs[0]] + Without(regs[1..], reg))[1..] == Without(regs[1..], reg);
      assert forall r :: r in regs <==> r == regs[0] || r in regs[1..];
    }
  }

  /** A fresh id has been called by no one. */
  lemma {:induction false} FreshCount(log: seq<Call>, onces: map<nat, Once>, nextId: nat, id: nat)
    requires forall c :: c in log ==> Issued(c.reg, onces, nextId)
    requires nextId <= id
    ensures Count(log, id) == 0
  {
    if log != [] {
      assert log[0] in log;
      FreshCount(log[1..], onces, nextId, id);
    }
  }

  /** A dispatch that has not begun has called no one. */
  lemma {:induction false} FreshCalls(log: seq<Call>, dispatches: seq<Dispatch>, n: nat)
    requires Calls(dispatches, log) && |dispatches| <= n
    ensures CalledBy(log, n) == []
  {
    if log != [] {
      assert FromSnapshot(log[0], dispatches);
      forall c | c in log[1..] ensures FromSnapshot(c, dispatches) { assert c in log; }
      FreshCalls(log[1..], dispatches, n);
    }
  }

  /** A new registration leaves what is there as it was. */
  lemma ProperLater(event: string, regs: seq<Reg>, onces: map<nat, Once>, nextId: nat, more: map<nat, Once>)
    requires Proper(event, regs, onces, nextId)
    requires forall id :: id < nextId ==> (id in onces <==> id in more) && (id in onces ==> more[id] == onces[id])
    ensures Proper(event, regs, more, nextId + 1)
  {
    forall reg | reg in regs ensures Issued(reg, more, nextId + 1) &&
        (reg.once ==> more[reg.id] == Once(event, false)) {
      assert Issued(reg, onces, nextId);
    }
  }

  lemma RegisterKeepsCallbacks(store: Store, event: string, reg: Reg, onces: map<nat, Once>, nextId: nat, more: map<nat,
                               Once>)
    requires Callbacks(store.callbacks, onces, nextId) && reg.id == nextId
    requires forall id :: id < nextId ==> (id in onces <==> id in more) && (id in onces ==> more[id] == onces[id])
    requires (reg.once <==> nextId in more) && (reg.once ==> more[nextId] == Once(event, false))
    ensures Callbacks(Registering(store, event, reg).callbacks, more, nextId + 1)
  {
    var regs := Registered(store, event);
    assert Proper(event, regs, onces, nextId);
    forall r | r in regs ensures r != reg { assert Issued(r, onces, nextId); }
    AppendUnique(regs, reg);
    ProperLater(event, regs, onces, nextId, more);
    assert Proper(event, regs + [reg], more, nextId + 1);
    forall e | e in store.callbacks ensures Proper(e, store.callbacks[e], more, nextId + 1) {
      ProperLater(e, store.callbacks[e], onces, nextId, more);
    }
  }

  lemma LaterKeepsCallbacks(store: Store, onces: map<nat, Once>, nextId: nat, more: map<nat, Once>)
    requires Callbacks(store.callbacks, onces, nextId)
    requires forall id :: id < nextId ==> (id in onces <==> id in more) && (id in onces ==> more[id] == onces[id])
    ensures Callbacks(store.callbacks, more, nextId + 1)
  {
    forall e | e in store.callbacks ensures Proper(e, store.callbacks[e], more, nextId + 1) {
      ProperLater(e, store.callbacks[e], onces, nextId, more);
    }
  }

  lemma LaterKeepsSnapshots(dispatches: seq<Dispatch>, onces: map<nat, Once>, nextId: nat, more: map<nat, Once>)
    requires Snapshots(dispatches, onces, nextId)
    requires forall id :: id < nextId ==> (id in onces <==> id in more) && (id in onces ==> more[id] == onces[id])
    ensures Snapshots(dispatches, more, nextId + 1)
  {
    forall n: nat | n < |dispatches| ensures Proper(dispatches[n].event, dispatches[n].snapshot, more, nextId + 1) {
      ProperLater(dispatches[n].event, dispatches[n].snapshot, onces, nextId, more);
    }
  }

  lemma LaterKeepsKnown(log: seq<Call>, onces: map<nat, Once>, nextId: nat, more: map<nat, Once>)
    requires Known(log, onces, nextId)
    requires forall id :: id < nextId ==> (id in onces <==> id in more) && (id in onces ==> more[id] == onces[id])
    requires forall id :: id in more ==> id <= nextId
    ensures Known(log, more, nextId + 1)
  {
    forall c | c in log ensures Issued(c.reg, more, nextId + 1) { assert Issued(c.reg, onces, nextId); }
  }

  // ----- calls -----

  /** A call that is not of a once() handler changes no once() handler's state. */
  lemma PlainCallKeepsOnces(onces: map<nat, Once>, store: Store, log: seq<Call>, c: Call)
    requires Onces(onces, store, log) && c.reg.id !in onces
    ensures Onces(onces, store, log + [c])
  {
    forall id | id in onces ensures OnceState(id, onces[id], store, log + [c]) {
      assert OnceState(id, onces[id], store, log);
      CountMore(log, c, id);
    }
  }

  lemma CallKeepsCalls(dispatches: seq<Dispatch>, log: seq<Call>, c: Call)
    requires Calls(dispatches, log) && FromSnapshot(c, dispatches)
    ensures Calls(dispatches, log + [c])
  {
    forall k | k in log + [c] ensures FromSnapshot(k, dispatches) { assert k in log || k == c; }
  }

  lemma CallKeepsKnown(log: seq<Call>, c: Call, onces: map<nat, Once>, nextId: nat)
    requires Known(log, onces, nextId) && Issued(c.reg, onces, nextId)
    ensures Known(log + [c], onces, nextId)
  {
    forall k | k in log + [c] ensures Issued(k.reg, onces, nextId) { assert k in log || k == c; }
  }

  lemma AtOnceKeepsProgress(dispatches: seq<Dispatch>, fired: set<nat>, log: seq<Call>, c: Call)
    requires AllProgress(dispatches, fired, log) && c.via.AtOnce?
    ensures AllProgress(dispatches, fired, log + [c])
  {
    forall n: nat | n < |dispatches| ensures Progress(n, dispatches[n], fired, log + [c]) {
      assert Progress(n, dispatches[n], fired, log);
      CalledByMore(log, c, n);
    }
  }

  lemma PushKeepsStack(dispatches: seq<Dispatch>, stack: seq<Frame>, f: Frame)
    requires Open(dispatches, stack) && Loops(dispatches, stack) && (f.Loop? ==> f.dispatch < |dispatches|)
    ensures Open(dispatches, stack + [f]) && Loops(dispatches, stack + [f])
  {
    forall n: nat | Loop(n) in stack + [f] ensures n < |dispatches| { assert Loop(n) in stack || f == Loop(n); }
  }

  // ----- each kind of step keeps the invariants -----

  lemma RegisterKeepsOnces(store: Store, event: string, reg: Reg, onces: map<nat, Once>, log: seq<Call>, nextId: nat)
    requires Onces(onces, store, log) && Known(log, onces, nextId) && reg == Reg(nextId, false)
    ensures Onces(onces, Registering(store, event, reg), log)
  {
    var after := Registering(store, event, reg);
    forall id | id in onces ensures OnceState(id, onces[id], after, log) {
      assert OnceState(id, onces[id], store, log);
      assert Registered(after, onces[id].event) ==
             if onces[id].event == event then Registered(store, event) + [reg] else Registered(store, onces[id].event);
    }
  }

  lemma OnKeeps(s: State, event: string)
    requires Inv(s)
    ensures Inv(StepOn(s, event))
  {
    var reg := Reg(s.nextId, false);
    RegisterKeepsCallbacks(s.store, event, reg, s.onces, s.nextId, s.onces);
    LaterKeepsSnapshots(s.dispatches, s.onces, s.nextId, s.onces);
    LaterKeepsKnown(s.log, s.onces, s.nextId, s.onces);
    RegisterKeepsOnces(s.store, event, reg, s.onces, s.log, s.nextId);
    if event in s.store.states {
      var c := Call(reg, AtOnce, s.store.states[event]);
      PlainCallKeepsOnces(s.onces, Registering(s.store, event, reg), s.log, c);
      CallKeepsCalls(s.dispatches, s.log, c);
      CallKeepsKnown(s.log, c, s.onces, s.nextId + 1);
      AtOnceKeepsProgress(s.dispatches, s.store.fired, s.log, c);
      PushKeepsStack(s.dispatches, s.stack, Handler(s.nextId));
    }
    hide Callbacks, Snapshots, Known, Onces, AllProgress, Calls, Open, Loops;
  }

  lemma OnceAtOnceKeepsOnces(s: State, event: string, data: nat)
    requires Onces(s.onces, s.store, s.log) && Known(s.log, s.onces, s.nextId)
    ensures Onces(s.onces[s.nextId := Once(event, true)], s.store, s.log + [Call(Reg(s.nextId, true), AtOnce, data)])
  {
    var more, c := s.onces[s.nextId := Once(event, true)], Call(Reg(s.nextId, true), AtOnce, data);
    forall id | id in more ensures OnceState(id, more[id], s.store, s.log + [c]) {
      CountMore(s.log, c, id);
      if id == s.nextId {
        FreshCount(s.log, s.onces, s.nextId, id);
      } else {
        assert OnceState(id, s.onces[id], s.store, s.log);
      }
    }
  }

  lemma OnceLaterKeepsOnces(s: State, event: string)
    requires Onces(s.onces, s.store, s.log) && Known(s.log, s.onces, s.nextId)
    ensures Onces(s.onces[s.nextId := Once(event, false)], Registering(s.store, event, Reg(s.nextId, true)), s.log)
  {
    var more, reg := s.onces[s.nextId := Once(event, false)], Reg(s.nextId, true);
    var after := Registering(s.store, event, reg);
    forall id | id in more ensures OnceState(id, more[id], after, s.log) {
      assert Registered(after, more[id].event) ==
             if more[id].event == event then Registered(s.store, event) + [reg]
                 else Registered(s.store, more[id].event);
      if id == s.nextId {
        FreshCount(s.log, s.onces, s.nextId, id);
        assert reg in Registered(s.store, event) + [reg];
      } else {
        assert OnceState(id, s.onces[id], s.store, s.log);
      }
    }
  }

  lemma OnceKeeps(s: State, event: string)
    requires Inv(s)
    ensures Inv(StepOnce(s, event))
  {
    var reg, atOnce := Reg(s.nextId, true), event in s.store.states;
    var more := s.onces[s.nextId := Once(event, atOnce)];
    LaterKeepsSnapshots(s.dispatches, s.onces, s.nextId, more);
    LaterKeepsKnown(s.log, s.onces, s.nextId, more);
    if atOnce {
      var c := Call(reg, AtOnce, s.store.states[event]);
      LaterKeepsCallbacks(s.store, s.onces, s.nextId, more);
      OnceAtOnceKeepsOnces(s, event, c.data);
      CallKeepsCalls(s.dispatches, s.log, c);
      CallKeepsKnown(s.log, c, more, s.nextId + 1);
      AtOnceKeepsProgress(s.dispatches, s.store.fired, s.log, c);
      PushKeepsStack(s.dispatches, s.stack, Handler(s.nextId));
    } else {
      RegisterKeepsCallbacks(s.store, event, reg, s.onces, s.nextId, more);
      OnceLaterKeepsOnces(s, event);
    }
    hide Callbacks, Snapshots, Known, Onces, AllProgress, Calls, Open, Loops;
  }

  lemma SameCallbacksKeepOnces(onces: map<nat, Once>, store: Store, after: Store, log: seq<Call>)
    requires Onces(onces, store, log) && after.callbacks == store.callbacks && after.fired == store.fired
    ensures Onces(onces, after, log)
  {
    forall id | id in onces ensures OnceState(id, onces[id], after, log) {
      assert OnceState(id, onces[id], store, log);
    }
  }

  lemma TriggerKeeps(s: State, event: string, data: nat)
    requires Inv(s)
    ensures Inv(StepTrigger(s, event, data))
  {
    var d := Dispatch(event, data, Registered(s.store, event), 0);
    var dispatches, n := s.dispatches + [d], |s.dispatches|;
    SameCallbacksKeepOnces(s.onces, s.store, Triggering(s.store, event, data), s.log);
    assert Snapshots(dispatches, s.onces, s.nextId) by { assert Proper(event, d.snapshot, s.onces, s.nextId); }
    FreshCalls(s.log, s.dispatches, n);
    forall k: nat | k < |dispatches| ensures Progress(k, dispatches[k], s.store.fired, s.log) {
      assert k < n ==> Progress(k, s.dispatches[k], s.store.fired, s.log);
      assert d.snapshot[..0] == [];
    }
    forall c | c in s.log ensures FromSnapshot(c, dispatches) { assert FromSnapshot(c, s.dispatches); }
    forall k: nat | k < |dispatches| &&
        dispatches[k].pos < |dispatches[k].snapshot| ensures Loop(k) in s.stack + [Loop(n)] {
      assert k < n ==> Loop(k) in s.stack;
    }
    hide Callbacks, Snapshots, Known, Onces, AllProgress, Calls, Open;
  }

  lemma InvalidateKeeps(s: State, event: string)
    requires Inv(s)
    ensures Inv(s.(store := Invalidating(s.store, event)))
  {
    SameCallbacksKeepOnces(s.onces, s.store, Invalidating(s.store, event), s.log);
    hide Callbacks, Snapshots, Known, Onces, AllProgress, Calls, Open, Loops;
  }

  lemma RemoveKeeps(s: State, event: string, id: nat)
    requires Inv(s)
    ensures Inv(s.(store := Removing(s.store, event, Reg(id, false))))
  {
    RemovingKeepsCallbacks(s.store, event, Reg(id, false), s.onces, s.nextId);
    RemovingKeepsOnces(s.onces, s.store, s.log, event, id);
    hide Callbacks, Snapshots, Known, Onces, AllProgress, Calls, Open, Loops;
  }

  lemma RemovingKeepsCallbacks(store: Store, event: string, reg: Reg, onces: map<nat, Once>, nextId: nat)
    requires Callbacks(store.callbacks, onces, nextId)
    ensures Callbacks(Removing(store, event, reg).callbacks, onces, nextId)
  {
    if event in store.callbacks {
      assert Proper(event, store.callbacks[event], onces, nextId);
      WithoutUnique(store.callbacks[event], reg);
    }
  }

  /** Removing a plain handler touches no wrapper. */
  lemma RemovingKeepsOnces(onces: map<nat, Once>, store: Store, log: seq<Call>, event: string, id: nat)
    requires Onces(onces, store, log)
    ensures Onces(onces, Removing(store, event, Reg(id, false)), log)
  {
    var after := Removing(store, event, Reg(id, false));
    forall k | k in onces ensures OnceState(k, onces[k], after, log) {
      assert OnceState(k, onces[k], store, log);
      WithoutOther(Registered(store, event), Reg(id, false), Reg(k, true));
    }
  }

  lemma PopKeeps(dispatches: seq<Dispatch>, stack: seq<Frame>)
    requires Open(dispatches, stack) && Loops(dispatches, stack) && stack != []
    requires var f := stack[|stack| - 1];
             f.Loop? && f.dispatch < |dispatches| ==> dispatches[f.dispatch].pos >= |dispatches[f.dispatch].snapshot|
    ensures Open(dispatches, stack[..|stack| - 1]) && Loops(dispatches, stack[..|stack| - 1])
  {
    var below, f := stack[..|stack| - 1], stack[|stack| - 1];
    assert stack == below + [f];
  }

  // ----- the loop going on -----

  lemma FiringKeepsOnces(onces: map<nat, Once>, store: Store, log: seq<Call>, event: string, reg: Reg, c: Call,
                         nextId: nat)
    requires Onces(onces, store, log) && Callbacks(store.callbacks, onces, nextId)
    requires reg.once && reg.id in onces && onces[reg.id] == Once(event, false) && reg.id !in store.fired &&
             c.reg == reg
    ensures Onces(onces, Entering(store, event, reg), log + [c])
  {
    var after := Entering(store, event, reg);
    assert event in store.callbacks ==> Proper(event, store.callbacks[event], onces, nextId);
    if event in store.callbacks { WithoutUnique(store.callbacks[event], reg); }
    forall id | id in onces ensures OnceState(id, onces[id], after, log + [c]) {
      assert OnceState(id, onces[id], store, log);
      CountMore(log, c, id);
    }
  }

  lemma NextKeepsProgress(s: State, n: nat, reg: Reg, fired: set<nat>, log: seq<Call>)
    requires AllProgress(s.dispatches, s.store.fired, s.log) && n < |s.dispatches|
    requires s.dispatches[n].pos < |s.dispatches[n].snapshot| && reg == s.dispatches[n].snapshot[s.dispatches[n].pos]
    requires s.store.fired <= fired && (reg.once ==> reg.id in fired)
    requires log == s.log + [Call(reg, By(n), s.dispatches[n].data)] || (log == s.log && reg.once)
    ensures var d := s.dispatches[n]; AllProgress(s.dispatches[n := d.(pos := d.pos + 1)], fired, log)
  {
    var d := s.dispatches[n];
    var dispatches, c := s.dispatches[n := d.(pos := d.pos + 1)], Call(reg, By(n), d.data);
    forall k: nat | k < |dispatches| ensures Progress(k, dispatches[k], fired, log) {
      assert Progress(k, s.dispatches[k], s.store.fired, s.log);
      if k == n {
        EntryProgress(d, n, reg, s.store.fired, fired, s.log, log);
      } else {
        OtherProgress(s.dispatches[k], k, s.store.fired, fired, s.log, c);
      }
    }
  }

  lemma OtherProgress(d: Dispatch, k: nat, fired: set<nat>, more: set<nat>, log: seq<Call>, c: Call)
    requires Progress(k, d, fired, log) && c.via != By(k) && fired <= more
    ensures Progress(k, d, more, log) && Progress(k, d, more, log + [c])
  {
    CalledByMore(log, c, k);
  }

  lemma EntryProgress(d: Dispatch, n: nat, reg: Reg, fired: set<nat>, more: set<nat>, log: seq<Call>, after: seq<Call>)
    requires Progress(n, d, fired, log) && d.pos < |d.snapshot| && reg == d.snapshot[d.pos]
    requires fired <= more && (reg.once ==> reg.id in more)
    requires after == log + [Call(reg, By(n), d.data)] || (after == log && reg.once)
    ensures Progress(n, d.(pos := d.pos + 1), more, after)
  {
    hide Plain, CalledBy;
    CalledByMore(log, Call(reg, By(n), d.data), n);
    PlainMore(d.snapshot[..d.pos], reg);
    PlainMore(CalledBy(log, n), reg);
    assert d.snapshot[..d.pos + 1] == d.snapshot[..d.pos] + [reg];
  }

  lemma AdvanceKeepsCalls(dispatches: seq<Dispatch>, n: nat, log: seq<Call>, stack: seq<Frame>, onces: map<nat, Once>,
                          nextId: nat)
    requires n < |dispatches| && Calls(dispatches, log) && Snapshots(dispatches, onces, nextId)
    requires Open(dispatches, stack) && Loops(dispatches, stack)
    ensures var after := dispatches[n := dispatches[n].(pos := dispatches[n].pos + 1)];
            Calls(after, log) && Snapshots(after, onces, nextId) && Open(after, stack) && Loops(after, stack)
  {
    var after := dispatches[n := dispatches[n].(pos := dispatches[n].pos + 1)];
    forall c | c in log ensures FromSnapshot(c, after) { assert FromSnapshot(c, dispatches); }
    forall k: nat | k < |after| ensures Proper(after[k].event, after[k].snapshot, onces, nextId) {
      assert Proper(dispatches[k].event, dispatches[k].snapshot, onces, nextId);
    }
  }

  lemma NextKeeps(s: State)
    requires Inv(s) && InLoop(s)
    ensures Inv(StepNext(s))
  {
    var n := Top(s).dispatch;
    var d := s.dispatches[n];
    if d.pos >= |d.snapshot| {
      PopKeeps(s.dispatches, s.stack);
      hide Callbacks, Snapshots, Known, Onces, AllProgress, Calls, Open, Loops;
    } else {
      EntryKeeps(s, n);
    }
  }

  lemma EntryKeeps(s: State, n: nat)
    requires Inv(s) && InLoop(s) && n == Top(s).dispatch && s.dispatches[n].pos < |s.dispatches[n].snapshot|
    ensures Inv(StepNext(s))
  {
    var d := s.dispatches[n];
    var reg := d.snapshot[d.pos];
    assert Proper(d.event, d.snapshot, s.onces, s.nextId) && reg in d.snapshot;
    assert Issued(reg, s.onces, s.nextId);
    var c := Call(reg, By(n), d.data);
    var dispatches, after := s.dispatches[n := d.(pos := d.pos + 1)], Entering(s.store, d.event, reg);
    RemovingKeepsCallbacks(s.store, d.event, reg, s.onces, s.nextId);
    AdvanceKeepsCalls(s.dispatches, n, s.log, s.stack, s.onces, s.nextId);
    var log := if Runs(s.store, reg) then s.log + [c] else s.log;
    NextKeepsProgress(s, n, reg, after.fired, log);
    if Runs(s.store, reg) {
      CallKeepsCalls(dispatches, s.log, c);
      CallKeepsKnown(s.log, c, s.onces, s.nextId);
      PushKeepsStack(dispatches, s.stack, Handler(reg.id));
      if reg.once {
        FiringKeepsOnces(s.onces, s.store, s.log, d.event, reg, c, s.nextId);
      } else {
        PlainCallKeepsOnces(s.onces, s.store, s.log, c);
      }
    }
    hide Callbacks, Snapshots, Known, Onces, AllProgress, Calls, Open, Loops;
  }

  lemma StepKeeps(s: State, a: Action)
    requires Inv(s)
    ensures Inv(Step(s, a))
  {
    hide Inv, StepOn, StepOnce, StepTrigger, StepNext, Invalidating, Removing;
    if InLoop(s) {
      if a.Next? { NextKeeps(s); }
    } else {
      match a
      case On(event) => OnKeeps(s, event);
      case OnceOf(event) => OnceKeeps(s, event);
      case Trigger(event, data) => TriggerKeeps(s, event, data);
      case Invalidate(event) => InvalidateKeeps(s, event);
      case Remove(event, id) => RemoveKeeps(s, event, id);
      case Return => if s.stack != [] && Top(s).Handler? { ReturnKeeps(s); }
      case Next =>
    }
  }

  lemma ReturnKeeps(s: State)
    requires Inv(s) && s.stack != [] && Top(s).Handler?
    ensures Inv(s.(stack := Below(s)))
  {
    PopKeeps(s.dispatches, s.stack);
    hide Callbacks, Snapshots, Known, Onces, AllProgress, Calls, Open, Loops;
  }

  lemma {:induction false} RunKeeps(actions: seq<Action>)
    ensures Inv(Run(actions))
    decreases |actions|
  {
    if actions == [] {
      assert Inv(INITIAL);
    } else {
      hide Inv, Step;
      RunKeeps(actions[..|actions| - 1]);
      StepKeeps(Run(actions[..|actions| - 1]), actions[|actions| - 1]);
    }
  }

  // ----- the theorems -----

  /** A once() handler runs at most once in any run.  One that fired at once was never registered; one that
      was registered is still there exactly while it has not run. */
  lemma {:induction false} OnceAtMostOnce(actions: seq<Action>, id: nat)
    requires id in Run(actions).onces
    ensures var s := Run(actions);
            var once := s.onces[id];
            && Count(s.log, id) <= 1
            && (once.atOnce ==> Count(s.log, id) == 1 && forall event :: Reg(id, true) !in Registered(s.store, event))
            && (!once.atOnce ==> (Count(s.log, id) == 0 <==> Reg(id, true) in Registered(s.store, once.event)))
  {
    RunKeeps(actions);
    var s := Run(actions);
    assert OnceState(id, s.onces[id], s.store, s.log);
    forall event | event in s.store.callbacks && Reg(id, true) in s.store.callbacks[event]
      ensures s.onces[id] == Once(event, false)
    {
      assert Proper(event, s.store.callbacks[event], s.onces, s.nextId);
    }
  }

  /** A dispatch that has ended - its loop is off the stack - called every plain handler that was registered
      when it began, in order and each exactly once, and every once() handler among them has run by then. */
  lemma {:induction false} DispatchReachesAll(actions: seq<Action>, n: nat)
    requires n < |Run(actions).dispatches| && Loop(n) !in Run(actions).stack
    ensures var s := Run(actions);
            var d := s.dispatches[n];
            && NoRepeats(d.snapshot)
            && Plain(CalledBy(s.log, n)) == Plain(d.snapshot)
            && (forall reg :: reg in d.snapshot && reg.once ==> Count(s.log, reg.id) == 1)
  {
    RunKeeps(actions);
    var s := Run(actions);
    var d := s.dispatches[n];
    assert Progress(n, d, s.store.fired, s.log);
    assert Proper(d.event, d.snapshot, s.onces, s.nextId);
    assert d.snapshot[..d.pos] == d.snapshot;
    forall reg | reg in d.snapshot && reg.once ensures Count(s.log, reg.id) == 1 {
      var j :| 0 <= j < |d.snapshot| && d.snapshot[j] == reg;
      assert Issued(reg, s.onces, s.nextId);
      assert OnceState(reg.id, s.onces[reg.id], s.store, s.log);
    }
  }

  /** A dispatch calls nothing that was not registered when it began - a handler added while it runs waits for
      the next - and gives every handler its own payload, whatever was triggered meanwhile. */
  lemma {:induction false} DispatchStaysInSnapshot(actions: seq<Action>, c: Call)
    requires c in Run(actions).log && c.via.By?
    ensures var s := Run(actions);
            && c.via.dispatch < |s.dispatches|
            && c.reg in s.dispatches[c.via.dispatch].snapshot
            && c.data == s.dispatches[c.via.dispatch].data
  {
    RunKeeps(actions);
    assert FromSnapshot(c, Run(actions).dispatches);
  }

  /** What the last dispatch of the event carried. */
  function LastPayload(dispatches: seq<Dispatch>, event: string): Option<nat> {
    if dispatches == [] then None
    else
      var d := dispatches[|dispatches| - 1];
      if d.event == event then Some(d.data) else LastPayload(dispatches[..|dispatches| - 1], event)
  }

  lemma {:induction false} AdvanceKeepsPayload(dispatches: seq<Dispatch>, n: nat, pos: nat, event: string)
    requires n < |dispatches|
    ensures LastPayload(dispatches[n := dispatches[n].(pos := pos)], event) == LastPayload(dispatches, event)
  {
    var front := dispatches[..|dispatches| - 1];
    if n < |front| {
      AdvanceKeepsPayload(front, n, pos, event);
      assert dispatches[n := dispatches[n].(pos := pos)][..|dispatches| - 1] == front[n := front[n].(pos := pos)];
    } else {
      assert dispatches[n := dispatches[n].(pos := pos)][..|dispatches| - 1] == front;
    }
  }

  ghost predicate Sticky(s: State, event: string) {
    event in s.store.states ==> LastPayload(s.dispatches, event) == Some(s.store.states[event])
  }

  lemma NextKeepsSticky(s: State, event: string)
    requires Sticky(s, event) && InLoop(s)
    ensures Sticky(StepNext(s), event)
  {
    var n := Top(s).dispatch;
    AdvanceKeepsPayload(s.dispatches, n, s.dispatches[n].pos + 1, event);
  }

  lemma StepKeepsSticky(s: State, a: Action, event: string)
    requires Sticky(s, event)
    ensures Sticky(Step(s, a), event)
  {
    if InLoop(s) {
      if a.Next? { NextKeepsSticky(s, event); }
    } else {
      hide LastPayload;
      if a.Trigger? { TriggerKeepsSticky(s, a.event, a.data, event); }
    }
  }

  lemma TriggerKeepsSticky(s: State, triggered: string, data: nat, event: string)
    requires Sticky(s, event)
    ensures Sticky(StepTrigger(s, triggered, data), event)
  {
    assert StepTrigger(s, triggered, data).dispatches[..|s.dispatches|] == s.dispatches;
  }

  /** A late subscriber is given the payload of the last trigger of its event. */
  lemma {:induction false} StickyIsLast(actions: seq<Action>, event: string)
    ensures var s := Run(actions);
            event in s.store.states ==> LastPayload(s.dispatches, event) == Some(s.store.states[event])
    decreases |actions|
  {
    hide Step, LastPayload;
    if actions != [] {
      StickyIsLast(actions[..|actions| - 1], event);
      StepKeepsSticky(Run(actions[..|actions| - 1]), actions[|actions| - 1], event);
    }
  }

  /** Was the handler taken out while the last actions of the run happened? */
  predicate Removed(actions: seq<Action>, more: seq<Action>, event: string, id: nat) {
    exists n :: 0 <= n < |more| && Removes(Run(actions + more[..n]), more[n], event, id)
  }

  predicate Removes(s: State, a: Action, event: string, id: nat) { !InLoop(s) && a == Remove(event, id) }

  /** A plain handler is registered in a later state exactly if nobody has removed it since; so every dispatch of
      its event that begins before that has it in its snapshot, and none that begins after it has. */
  lemma {:induction false} PlainStays(actions: seq<Action>, more: seq<Action>, event: string, reg: Reg)
    requires !reg.once && reg in Registered(Run(actions).store, event)
    ensures reg in Registered(Run(actions + more).store, event) <==> !Removed(actions, more, event, reg.id)
    decreases |more|
  {
    hide Step, Registered, Removes;
    if more == [] {
      assert actions + more == actions;
    } else {
      var front, last := more[..|more| - 1], more[|more| - 1];
      PlainStays(actions, front, event, reg);
      RemovedMore(actions, more, event, reg.id);
      assert actions + more == (actions + front) + [last];
      RunMore(actions + front, last);
      StillIssued(actions, front, event, reg);
      PlainStaysStep(Run(actions + front), last, event, reg);
    }
  }

  lemma RemovedMore(actions: seq<Action>, more: seq<Action>, event: string, id: nat)
    requires more != []
    ensures var front := more[..|more| - 1];
            Removed(actions, more, event, id) <==>
            Removed(actions, front, event, id) || Removes(Run(actions + front), more[|more| - 1], event, id)
  {
    hide Run, Removes;
    var front := more[..|more| - 1];
    forall n | 0 <= n < |front| ensures front[..n] == more[..n] {}
    if Removed(actions, front, event, id) {
      var n :| 0 <= n < |front| && Removes(Run(actions + front[..n]), front[n], event, id);
      assert Removes(Run(actions + more[..n]), more[n], event, id);
    }
  }

  /** The handler was issued, so no later registration is it. */
  lemma {:induction false} StillIssued(actions: seq<Action>, more: seq<Action>, event: string, reg: Reg)
    requires reg in Registered(Run(actions).store, event)
    ensures Inv(Run(actions + more)) && reg.id < Run(actions + more).nextId
    decreases |more|
  {
    hide Step, Inv;
    RunKeeps(actions + more);
    if more == [] {
      assert actions + more == actions;
      RegisteredIssued(Run(actions), event, reg);
    } else {
      var front, last := more[..|more| - 1], more[|more| - 1];
      StillIssued(actions, front, event, reg);
      assert actions + more == (actions + front) + [last];
      RunMore(actions + front, last);
      IdsGrow(Run(actions + front), last);
    }
  }

  lemma RegisteredIssued(s: State, event: string, reg: Reg)
    requires Inv(s) && reg in Registered(s.store, event)
    ensures reg.id < s.nextId
  {
    assert Proper(event, s.store.callbacks[event], s.onces, s.nextId);
  }

  lemma IdsGrow(s: State, a: Action)
    ensures s.nextId <= Step(s, a).nextId
  {
  }

  lemma RunMore(actions: seq<Action>, a: Action)
    ensures Run(actions + [a]) == Step(Run(actions), a)
  {
    assert (actions + [a])[..|actions|] == actions;
    hide Step;
  }

  lemma {:induction false} WithoutOther(regs: seq<Reg>, gone: Reg, reg: Reg)
    requires reg != gone
    ensures reg in Without(regs, gone) <==> reg in regs
  {
    if regs != [] { WithoutOther(regs[1..], gone, reg); }
  }

  lemma PlainStaysStep(s: State, a: Action, event: string, reg: Reg)
    requires Inv(s) && !reg.once && reg.id < s.nextId
    ensures reg in Registered(Step(s, a).store, event) <==>
            reg in Registered(s.store, event) && !Removes(s, a, event, reg.id)
  {
    hide Inv, Without, Runs;
    if InLoop(s) {
      if a.Next? { EntryKeepsPlain(s, event, reg); }
    } else if a.Remove? {
      WithoutOne(s, event, Reg(a.id, false));
    }
  }

  lemma WithoutOne(s: State, event: string, gone: Reg)
    requires Inv(s)
    ensures forall r :: r in Without(Registered(s.store, event), gone) <==> r in Registered(s.store, event) && r != gone
  {
    assert event in s.store.callbacks ==> Proper(event, s.store.callbacks[event], s.onces, s.nextId);
    WithoutUnique(Registered(s.store, event), gone);
  }

  lemma EntryKeepsPlain(s: State, event: string, reg: Reg)
    requires InLoop(s) && !reg.once
    ensures reg in Registered(StepNext(s).store, event) <==> reg in Registered(s.store, event)
  {
    var d := s.dispatches[Top(s).dispatch];
    hide Without;
    if d.pos < |d.snapshot| && d.snapshot[d.pos].once {
      WithoutOther(Registered(s.store, event), d.snapshot[d.pos], reg);
    }
  }
}

/** Every run of first loads over one registry.  Author code is arbitrary: on_load() and the
    application of its result may succeed, throw or never settle, in any order. */
module LoadRuns {
  import opened Options
  import opened LoadCoordinators

  datatype Phase =
    | Leading(promise: nat)   // on_load() runs, as the registered leader
    | Applying(promise: nat)  // on_load() succeeded; its result is being applied, or handed over by a stopped leader
    | Waiting(promise: nat)   // a follower awaiting the coordination promise
    | Alone                   // on its own: an independent on_load(), or this component's on_load_error()
    | Adopted(data: Text)     // a follower that applies the leader's data
    | Done

  datatype Load = Load(key: Key, phase: Phase)

  datatype State = State(coordination: Coordination, loads: seq<Load>)

  datatype Action =
    | Begin(key: Key, contextThrows: bool)   // _load() reaches the coordinator
    | OnLoadReturns(load: nat)
    | OnLoadThrows(load: nat)
    | ApplyReturns(load: nat, content: string)
    | ApplyThrows(load: nat)
    | Wake(load: nat, dropped: bool)         // the promise settled; `dropped`: stopped or superseded meanwhile

  ghost predicate Enabled(s: State, a: Action) {
    match a
    case Begin(_, _) => true
    case OnLoadReturns(l) => l < |s.loads| && s.loads[l].phase.Leading?
    case OnLoadThrows(l) => l < |s.loads| && s.loads[l].phase.Leading?
    case ApplyReturns(l, _) => l < |s.loads| && s.loads[l].phase.Applying?
    case ApplyThrows(l) => l < |s.loads| && s.loads[l].phase.Applying?
    case Wake(l, _) =>
      && l < |s.loads| && s.loads[l].phase.Waiting?
      && s.loads[l].phase.promise < |s.coordination.promises|
      && s.coordination.promises[s.loads[l].phase.promise].outcome != Pending
  }

  ghost function Become(s: State, l: nat, c: Coordination, phase: Phase): State
    requires l < |s.loads|
  {
    State(c, s.loads[l := s.loads[l].(phase := phase)])
  }

  /** Asking and registering are one step: nothing is awaited between them.  A detached context that
      cannot be created throws before the registration. */
  ghost function StepBegin(s: State, key: Key, contextThrows: bool): State {
    var l := |s.loads|;
    var (c, execute) := ShouldExecute(s.coordination, l, key);
    if execute then
      if contextThrows then State(c, s.loads + [Load(key, Alone)])
      else State(Register(c, l, key), s.loads + [Load(key, Leading(|c.promises|))])
    else State(c, s.loads + [Load(key, Waiting(c.registry[key].promise))])
  }

  ghost function StepWake(s: State, l: nat, dropped: bool): State
    requires Enabled(s, Wake(l, dropped))
  {
    var key := s.loads[l].key;
    if s.coordination.promises[s.loads[l].phase.promise].outcome == Rejected then Become(s, l, s.coordination, Alone)
    else
      var (c, data) := Collect(s.coordination, l, key);
      Become(s, l, c, if dropped then Done else if data.Some? then Adopted(data.value) else Alone)
  }

  ghost function Step(s: State, a: Action): State
    requires Enabled(s, a)
  {
    match a
    case Begin(key, contextThrows) => StepBegin(s, key, contextThrows)
    case OnLoadReturns(l) => Become(s, l, s.coordination, Applying(s.loads[l].phase.promise))
    case OnLoadThrows(l) => Become(s, l, Fail(s.coordination, s.loads[l].key), Alone)
    case ApplyReturns(l, content) =>
      Become(s, l, Complete(s.coordination, s.loads[l].key, Some(Text(l, content))), Done)
    case ApplyThrows(l) => Become(s, l, Fail(s.coordination, s.loads[l].key), Done)
    case Wake(l, dropped) => StepWake(s, l, dropped)
  }

  ghost function Run(actions: seq<Action>): Option<State> {
    if actions == [] then Some(State(Coordination(map[], []), []))
    else
      var s := Run(actions[..|actions| - 1]);
      var a := actions[|actions| - 1];
      if s.None? || !Enabled(s.value, a) then None else Some(Step(s.value, a))
  }

  // ----- The invariant -----

  ghost predicate Leads(load: Load, g: nat) { load.phase == Leading(g) || load.phase == Applying(g) }

  /** A promise is pending exactly while its leader's load is in progress; then the registry holds
      the leader's own entry under the key.  Otherwise it was settled once. */
  ghost predicate PromiseOk(g: nat, p: Promise, registry: map<Key, Entry>, loads: seq<Load>) {
    && p.leader < |loads| && loads[p.leader].key == p.key
    && (p.outcome == Pending <==> Leads(loads[p.leader], g))
    && p.settles == (if p.outcome == Pending then 0 else 1)
    && (p.outcome == Pending ==>
          p.key in registry && registry[p.key].status == Loading && registry[p.key].promise == g)
  }

  ghost predicate EntryOk(key: Key, e: Entry, promises: seq<Promise>, loads: seq<Load>) {
    && e.promise < |promises| && promises[e.promise].key == key && promises[e.promise].leader == e.leader
    && (e.status == Loading || e.status == Completed)
    && (e.status == Loading <==> promises[e.promise].outcome == Pending)
    && (e.status == Completed ==> e.waiting != [] && e.data.Some? && promises[e.promise].outcome == Resolved)
    && (e.data.Some? ==> e.data.value.producer < |loads| && loads[e.data.value.producer] == Load(key, Done))
    && (forall w :: w in e.waiting ==> w < |loads| && loads[w] == Load(key, Waiting(e.promise)))
    && NoRepeats(e.waiting)
  }

  ghost predicate NoRepeats(s: seq<nat>) { s == [] || (s[0] !in s[1..] && NoRepeats(s[1..])) }

  ghost predicate LoadOk(l: nat, load: Load, registry: map<Key, Entry>, promises: seq<Promise>, loads: seq<Load>) {
    match load.phase
    case Leading(g) => g < |promises| && promises[g].leader == l
    case Applying(g) => g < |promises| && promises[g].leader == l
    case Waiting(g) =>
      && g < |promises| && promises[g].key == load.key
      && (promises[g].outcome == Pending ==> load.key in registry && l in registry[load.key].waiting)
    case Adopted(data) => data.producer < |loads| && loads[data.producer] == Load(load.key, Done)
    case Alone => true
    case Done => true
  }

  ghost predicate Promises(registry: map<Key, Entry>, promises: seq<Promise>, loads: seq<Load>) {
    forall g :: 0 <= g < |promises| ==> PromiseOk(g, promises[g], registry, loads)
  }

  ghost predicate Entries(registry: map<Key, Entry>, promises: seq<Promise>, loads: seq<Load>) {
    forall key :: key in registry ==> EntryOk(key, registry[key], promises, loads)
  }

  ghost predicate Loads(registry: map<Key, Entry>, promises: seq<Promise>, loads: seq<Load>) {
    forall l :: 0 <= l < |loads| ==> LoadOk(l, loads[l], registry, promises, loads)
  }

  ghost predicate Good(c: Coordination, loads: seq<Load>) {
    && Promises(c.registry, c.promises, loads)
    && Entries(c.registry, c.promises, loads)
    && Loads(c.registry, c.promises, loads)
  }

  ghost predicate Inv(s: State) { Good(s.coordination, s.loads) }

  /** A load that has nothing to do with the coordinator joins. */
  lemma AloneJoins(c: Coordination, loads: seq<Load>, key: Key)
    requires Good(c, loads)
    ensures Good(c, loads + [Load(key, Alone)])
  {
    var after := loads + [Load(key, Alone)];
    assert forall l :: 0 <= l < |loads| ==> after[l] == loads[l];
  }

  /** A longer list of loads tells the promises and entries about the old ones what they knew. */
  lemma MoreLoads(registry: map<Key, Entry>, promises: seq<Promise>, loads: seq<Load>, more: seq<Load>)
    requires loads <= more
    ensures Promises(registry, promises, loads) ==> Promises(registry, promises, more)
    ensures forall key, e :: EntryOk(key, e, promises, loads) ==> EntryOk(key, e, promises, more)
    ensures forall l, load :: LoadOk(l, load, registry, promises, loads) ==> LoadOk(l, load, registry, promises, more)
  {
    assert forall l :: 0 <= l < |loads| ==> more[l] == loads[l];
  }

  lemma {:induction false} AppendNoRepeats(s: seq<nat>, x: nat)
    requires NoRepeats(s) && x !in s
    ensures NoRepeats(s + [x])
  {
    if s != [] {
      AppendNoRepeats(s[1..], x);
      assert (s + [x])[1..] == s[1..] + [x];
    }
  }

  lemma FollowerEntry(key: Key, e: Entry, promises: seq<Promise>, loads: seq<Load>)
    requires EntryOk(key, e, promises, loads) && e.status == Loading
    ensures EntryOk(key, e.(waiting := e.waiting + [|loads|]), promises, loads + [Load(key, Waiting(e.promise))])
  {
    var more := loads + [Load(key, Waiting(e.promise))];
    assert forall l :: 0 <= l < |loads| ==> more[l] == loads[l];
    assert forall w :: w in e.waiting + [|loads|] ==> w in e.waiting || w == |loads|;
    AppendNoRepeats(e.waiting, |loads|);
  }

  lemma FollowerOthers(c: Coordination, loads: seq<Load>, key: Key, e: Entry, more: seq<Load>)
    requires Promises(c.registry, c.promises, loads) && Loads(c.registry, c.promises, loads)
    requires key in c.registry && e == c.registry[key].(waiting := c.registry[key].waiting + [|loads|])
    requires e.status == Loading && e.promise < |c.promises| && c.promises[e.promise].key == key
    requires more == loads + [Load(key, Waiting(e.promise))]
    ensures Promises(c.registry[key := e], c.promises, more) && Loads(c.registry[key := e], c.promises, more)
  {
    MoreLoads(c.registry, c.promises, loads, more);
    forall g | 0 <= g < |c.promises| ensures PromiseOk(g, c.promises[g], c.registry[key := e], more) {
      assert PromiseOk(g, c.promises[g], c.registry, loads);
    }
    forall l | 0 <= l < |more| ensures LoadOk(l, more[l], c.registry[key := e], c.promises, more) {
      if l < |loads| {
        assert LoadOk(l, loads[l], c.registry, c.promises, loads);
      }
    }
  }

  lemma FollowerJoins(c: Coordination, loads: seq<Load>, key: Key)
    requires Good(c, loads) && key in c.registry && c.registry[key].status == Loading
    ensures var (after, execute) := ShouldExecute(c, |loads|, key);
            !execute && Good(after, loads + [Load(key, Waiting(c.registry[key].promise))])
  {
    var e := c.registry[key];
    var (d, _) := ShouldExecute(c, |loads|, key);
    var more := loads + [Load(key, Waiting(e.promise))];
    assert EntryOk(key, e, c.promises, loads);
    FollowerEntry(key, e, c.promises, loads);
    FollowerOthers(c, loads, key, d.registry[key], more);
    hide EntryOk, PromiseOk, LoadOk, Promises, Loads;
    MoreLoads(c.registry, c.promises, loads, more);
  }

  /** A load leads under a key that has no 'loading' entry. */
  ghost predicate MayLead(c: Coordination, loads: seq<Load>, key: Key, d: Coordination, more: seq<Load>) {
    && Good(c, loads) && (key !in c.registry || c.registry[key].status == Completed)
    && d == Register(c, |loads|, key)
    && more == loads + [Load(key, Leading(|c.promises|))]
  }

  lemma LeaderJoinsPromises(c: Coordination, loads: seq<Load>, key: Key, d: Coordination, more: seq<Load>)
    requires MayLead(c, loads, key, d, more)
    ensures Promises(d.registry, d.promises, more)
  {
    forall g | 0 <= g < |d.promises| ensures PromiseOk(g, d.promises[g], d.registry, more) {
      if g < |c.promises| {
        assert PromiseOk(g, c.promises[g], c.registry, loads);
        assert key in c.registry ==> EntryOk(key, c.registry[key], c.promises, loads);
      }
    }
  }

  lemma LeaderJoinsEntries(c: Coordination, loads: seq<Load>, key: Key, d: Coordination, more: seq<Load>)
    requires MayLead(c, loads, key, d, more)
    ensures Entries(d.registry, d.promises, more)
  {
    MoreLoads(c.registry, c.promises, loads, more);
    forall k | k in d.registry ensures EntryOk(k, d.registry[k], d.promises, more) {
      if k != key { assert EntryOk(k, c.registry[k], c.promises, more); }
    }
  }

  lemma LeaderJoinsLoads(c: Coordination, loads: seq<Load>, key: Key, d: Coordination, more: seq<Load>)
    requires MayLead(c, loads, key, d, more)
    ensures Loads(d.registry, d.promises, more)
  {
    forall l | 0 <= l < |more| ensures LoadOk(l, more[l], d.registry, d.promises, more) {
      if l < |loads| {
        assert LoadOk(l, loads[l], c.registry, c.promises, loads);
        if loads[l].phase.Waiting? {
          assert PromiseOk(loads[l].phase.promise, c.promises[loads[l].phase.promise], c.registry, loads);
        }
      }
    }
  }

  lemma LeaderJoins(c: Coordination, loads: seq<Load>, key: Key)
    requires Good(c, loads) && (key !in c.registry || c.registry[key].status == Completed)
    ensures Good(Register(c, |loads|, key), loads + [Load(key, Leading(|c.promises|))])
  {
    var d, more := Register(c, |loads|, key), loads + [Load(key, Leading(|c.promises|))];
    LeaderJoinsPromises(c, loads, key, d, more);
    LeaderJoinsEntries(c, loads, key, d, more);
    LeaderJoinsLoads(c, loads, key, d, more);
    hide Promises, Entries, Loads;
  }

  /** A load changes its phase without touching the coordinator, or what anyone knows of it. */
  lemma PhaseKeeps(c: Coordination, loads: seq<Load>, l: nat, phase: Phase)
    requires Good(c, loads) && l < |loads|
    requires LoadOk(l, Load(loads[l].key, phase), c.registry, c.promises, loads)
    requires forall g :: Leads(loads[l], g) <==> Leads(Load(loads[l].key, phase), g)
    requires loads[l].phase != Done
    requires loads[l].phase.Waiting? && phase != loads[l].phase ==>
      forall key :: key in c.registry ==> l !in c.registry[key].waiting
    ensures Good(c, loads[l := loads[l].(phase := phase)])
  {
    var after := loads[l := loads[l].(phase := phase)];
    assert forall m :: 0 <= m < |loads| && m != l ==> after[m] == loads[m];
    forall g | 0 <= g < |c.promises| ensures PromiseOk(g, c.promises[g], c.registry, after) {
      assert PromiseOk(g, c.promises[g], c.registry, loads);
    }
    forall key | key in c.registry ensures EntryOk(key, c.registry[key], c.promises, after) {
      assert EntryOk(key, c.registry[key], c.promises, loads);
    }
    forall m | 0 <= m < |after| ensures LoadOk(m, after[m], c.registry, c.promises, after) {
      assert LoadOk(m, loads[m], c.registry, c.promises, loads);
    }
  }

  /** The leader of a load in progress owns the entry under its key. */
  lemma LeaderOwns(c: Coordination, loads: seq<Load>, l: nat, g: nat)
    requires Good(c, loads) && l < |loads| && Leads(loads[l], g)
    ensures g < |c.promises| && c.promises[g] == Promise(loads[l].key, l, Pending, 0)
    ensures loads[l].key in c.registry
    ensures var e := c.registry[loads[l].key]; e.status == Loading && e.promise == g && e.leader == l
  {
    assert LoadOk(l, loads[l], c.registry, c.promises, loads);
    assert PromiseOk(g, c.promises[g], c.registry, loads);
    assert EntryOk(loads[l].key, c.registry[loads[l].key], c.promises, loads);
  }

  /** The leader's load ends: its promise is settled, and at most its own entry changes. */
  ghost predicate Ends(c: Coordination, loads: seq<Load>, l: nat, g: nat, outcome: Outcome, d: Coordination,
                       after: seq<Load>) {
    && l < |loads| && |after| == |loads| && g < |c.promises| && outcome != Pending
    && (forall m :: 0 <= m < |loads| && m != l ==> after[m] == loads[m])
    && after[l].key == loads[l].key && (after[l].phase == Alone || after[l].phase == Done)
    && d.promises == SettleAt(c.promises, g, outcome)
    && d.registry.Keys <= c.registry.Keys
    && (forall k :: k in c.registry && k != loads[l].key ==> k in d.registry && d.registry[k] == c.registry[k])
    && c.promises[g] == Promise(loads[l].key, l, Pending, 0)
  }

  lemma EndsPromises(c: Coordination, loads: seq<Load>, l: nat, g: nat, outcome: Outcome, d: Coordination,
                     after: seq<Load>)
    requires Good(c, loads) && Ends(c, loads, l, g, outcome, d, after) && Leads(loads[l], g)
    ensures Promises(d.registry, d.promises, after)
  {
    forall h | 0 <= h < |d.promises| ensures PromiseOk(h, d.promises[h], d.registry, after) {
      assert PromiseOk(h, c.promises[h], c.registry, loads);
      assert PromiseOk(g, c.promises[g], c.registry, loads);
    }
  }

  lemma EndsEntries(c: Coordination, loads: seq<Load>, l: nat, g: nat, outcome: Outcome, d: Coordination,
                    after: seq<Load>)
    requires Good(c, loads) && Ends(c, loads, l, g, outcome, d, after) && Leads(loads[l], g)
    requires loads[l].key in d.registry ==> EntryOk(loads[l].key, d.registry[loads[l].key], d.promises, after)
    ensures Entries(d.registry, d.promises, after)
  {
    forall k | k in d.registry && k != loads[l].key ensures EntryOk(k, d.registry[k], d.promises, after) {
      assert EntryOk(k, c.registry[k], c.promises, loads);
    }
  }

  lemma EndsLoads(c: Coordination, loads: seq<Load>, l: nat, g: nat, outcome: Outcome, d: Coordination,
                  after: seq<Load>)
    requires Good(c, loads) && Ends(c, loads, l, g, outcome, d, after)
    ensures Loads(d.registry, d.promises, after)
  {
    forall m | 0 <= m < |after| ensures LoadOk(m, after[m], d.registry, d.promises, after) {
      assert LoadOk(m, loads[m], c.registry, c.promises, loads);
    }
  }

  lemma LeaderSettles(c: Coordination, loads: seq<Load>, l: nat, g: nat, outcome: Outcome, phase: Phase,
                      registry: map<Key, Entry>)
    requires Good(c, loads) && l < |loads| && Leads(loads[l], g)
    requires outcome != Pending && (phase == Alone || phase == Done)
    requires registry.Keys <= c.registry.Keys
    requires forall k :: k in c.registry && k != loads[l].key ==> k in registry && registry[k] == c.registry[k]
    requires loads[l].key in registry ==>
      EntryOk(loads[l].key, registry[loads[l].key], SettleAt(c.promises, g, outcome),
          loads[l := loads[l].(phase := phase)])
    ensures Good(Coordination(registry, SettleAt(c.promises, g, outcome)), loads[l := loads[l].(phase := phase)])
  {
    hide Promises, Entries, Loads, EntryOk;
    LeaderOwns(c, loads, l, g);
    var d := Coordination(registry, SettleAt(c.promises, g, outcome));
    var after := loads[l := loads[l].(phase := phase)];
    assert Ends(c, loads, l, g, outcome, d, after);
    EndsPromises(c, loads, l, g, outcome, d, after);
    EndsEntries(c, loads, l, g, outcome, d, after);
    EndsLoads(c, loads, l, g, outcome, d, after);
  }

  lemma LeaderFails(c: Coordination, loads: seq<Load>, l: nat, g: nat, phase: Phase)
    requires Good(c, loads) && l < |loads| && Leads(loads[l], g) && (phase == Alone || phase == Done)
    ensures Good(Fail(c, loads[l].key), loads[l := loads[l].(phase := phase)])
  {
    hide Good;
    LeaderOwns(c, loads, l, g);
    LeaderSettles(c, loads, l, g, Rejected, phase, c.registry - {loads[l].key});
  }

  lemma LeaderCompletes(c: Coordination, loads: seq<Load>, l: nat, g: nat, text: Text)
    requires Good(c, loads) && l < |loads| && Leads(loads[l], g) && text.producer == l
    ensures Good(Complete(c, loads[l].key, Some(text)), loads[l := loads[l].(phase := Done)])
  {
    var key := loads[l].key;
    var after := loads[l := loads[l].(phase := Done)];
    LeaderOwns(c, loads, l, g);
    assert EntryOk(key, c.registry[key], c.promises, loads);
    assert EntryOk(key, c.registry[key].(data := Some(text), status := Completed), SettleAt(c.promises, g, Resolved),
        after)
        || c.registry[key].waiting == [];
    hide Good, EntryOk;
    LeaderSettles(c, loads, l, g, Resolved, Done, Complete(c, key, Some(text)).registry);
  }

  lemma CollectedEntry(key: Key, e: Entry, promises: seq<Promise>, loads: seq<Load>, l: nat)
    requires EntryOk(key, e, promises, loads) && e.status == Completed && RemoveFirst(e.waiting, l) != []
    ensures EntryOk(key, e.(waiting := RemoveFirst(e.waiting, l)), promises, loads)
    ensures l !in RemoveFirst(e.waiting, l)
  {
    RemoveFirstNoRepeats(e.waiting, l);
  }

  /** The entry of a completed load may change or go: only pending promises point at entries. */
  lemma CompletedEntryFree(c: Coordination, loads: seq<Load>, key: Key, registry: map<Key, Entry>)
    requires Good(c, loads) && key in c.registry && c.registry[key].status == Completed
    requires forall k :: k in c.registry && k != key ==> k in registry && registry[k] == c.registry[k]
    ensures Promises(registry, c.promises, loads) && Loads(registry, c.promises, loads)
  {
    assert EntryOk(key, c.registry[key], c.promises, loads);
    forall h | 0 <= h < |c.promises| ensures PromiseOk(h, c.promises[h], registry, loads) {
      assert PromiseOk(h, c.promises[h], c.registry, loads);
    }
    forall m | 0 <= m < |loads| ensures LoadOk(m, loads[m], registry, c.promises, loads) {
      assert LoadOk(m, loads[m], c.registry, c.promises, loads);
      if loads[m].phase.Waiting? {
        assert PromiseOk(loads[m].phase.promise, c.promises[loads[m].phase.promise], c.registry, loads);
      }
    }
  }

  /** What a woken follower finds under its key is a result for that key; collecting takes it off the list. */
  lemma FollowerCollects(c: Coordination, loads: seq<Load>, l: nat)
    requires Good(c, loads) && l < |loads|
    ensures var (d, data) := Collect(c, l, loads[l].key);
      && Good(d, loads) && d.promises == c.promises
      && (data.Some? ==> data.value.producer < |loads| && loads[data.value.producer] == Load(loads[l].key, Done))
      && (loads[l].key in d.registry && l in d.registry[loads[l].key].waiting ==>
            d.registry[loads[l].key].status != Completed)
  {
    var key := loads[l].key;
    var (d, data) := Collect(c, l, key);
    if key in c.registry {
      var e := c.registry[key];
      assert EntryOk(key, e, c.promises, loads);
      if e.status == Completed && e.data.Some? {
        if RemoveFirst(e.waiting, l) != [] {
          CollectedEntry(key, e, c.promises, loads, l);
        }
        CompletedEntryFree(c, loads, key, d.registry);
      }
    }
  }

  /** An awaiting follower stands on no list but that of the promise it awaits. */
  lemma WaitsOnce(c: Coordination, loads: seq<Load>, l: nat, g: nat, key: Key)
    requires Good(c, loads) && l < |loads| && loads[l].phase == Waiting(g) && g < |c.promises|
    requires key in c.registry && l in c.registry[key].waiting
    ensures key == loads[l].key && c.registry[key].promise == g
    ensures c.registry[key].status == Loading <==> c.promises[g].outcome == Pending
    ensures c.registry[key].status == Completed <==> c.promises[g].outcome == Resolved
  {
    assert EntryOk(key, c.registry[key], c.promises, loads);
  }

  lemma {:induction false} RemoveFirstNoRepeats(s: seq<nat>, x: nat)
    requires NoRepeats(s)
    ensures NoRepeats(RemoveFirst(s, x)) && x !in RemoveFirst(s, x)
  {
    if s != [] && s[0] != x {
      RemoveFirstNoRepeats(s[1..], x);
    }
  }

  lemma OnLoadKeeps(c: Coordination, loads: seq<Load>, l: nat, g: nat)
    requires Good(c, loads) && l < |loads| && loads[l].phase == Leading(g)
    ensures Good(c, loads[l := loads[l].(phase := Applying(g))])
  {
    assert LoadOk(l, loads[l], c.registry, c.promises, loads);
    PhaseKeeps(c, loads, l, Applying(g));
  }

  lemma WakeKeeps(s: State, l: nat, dropped: bool)
    requires Inv(s) && Enabled(s, Wake(l, dropped))
    ensures Inv(StepWake(s, l, dropped))
  {
    var c, loads := s.coordination, s.loads;
    var g := loads[l].phase.promise;
    var (d, data) := Collect(c, l, loads[l].key);
    hide EntryOk, PromiseOk, LoadOk;
    if c.promises[g].outcome == Rejected {
      forall key | key in c.registry ensures l !in c.registry[key].waiting {
        EntryStatus(c, loads, key);
        if l in c.registry[key].waiting { WaitsOnce(c, loads, l, g, key); }
      }
      FreePhase(c, loads, l, Alone);
      PhaseKeeps(c, loads, l, Alone);
    } else {
      FollowerCollects(c, loads, l);
      var phase := if dropped then Done else if data.Some? then Adopted(data.value) else Alone;
      forall key | key in d.registry ensures l !in d.registry[key].waiting {
        EntryStatus(d, loads, key);
        if l in d.registry[key].waiting { WaitsOnce(d, loads, l, g, key); }
      }
      FreePhase(d, loads, l, phase);
      PhaseKeeps(d, loads, l, phase);
    }
  }

  lemma EntryStatus(c: Coordination, loads: seq<Load>, key: Key)
    requires Good(c, loads) && key in c.registry
    ensures c.registry[key].status == Loading || c.registry[key].status == Completed
  {
    assert EntryOk(key, c.registry[key], c.promises, loads);
  }

  lemma FreePhase(c: Coordination, loads: seq<Load>, l: nat, phase: Phase)
    requires l < |loads| && (phase.Alone? || phase.Done? || phase.Adopted?)
    requires phase.Adopted? ==> phase.data.producer < |loads| && loads[phase.data.producer] == Load(loads[l].key, Done)
    ensures LoadOk(l, Load(loads[l].key, phase), c.registry, c.promises, loads)
  {
  }

  lemma StepKeeps(s: State, a: Action)
    requires Inv(s) && Enabled(s, a)
    ensures Inv(Step(s, a))
  {
    var c, loads := s.coordination, s.loads;
    match a
    case Begin(key, contextThrows) =>
      if key in c.registry && c.registry[key].status == Loading {
        FollowerJoins(c, loads, key);
      } else if contextThrows {
        AloneJoins(c, loads, key);
      } else {
        assert key in c.registry ==> EntryOk(key, c.registry[key], c.promises, loads);
        LeaderJoins(c, loads, key);
      }
    case OnLoadReturns(l) =>
      assert LoadOk(l, loads[l], c.registry, c.promises, loads);
      OnLoadKeeps(c, loads, l, loads[l].phase.promise);
    case OnLoadThrows(l) => LeaderFails(c, loads, l, loads[l].phase.promise, Alone);
    case ApplyReturns(l, content) =>
      LeaderCompletes(c, loads, l, loads[l].phase.promise, Text(l, content));
    case ApplyThrows(l) => LeaderFails(c, loads, l, loads[l].phase.promise, Done);
    case Wake(l, dropped) => WakeKeeps(s, l, dropped);
  }

  // ----- What holds in every run -----

  lemma {:induction false} Reached(actions: seq<Action>)
    requires Run(actions).Some?
    ensures Inv(Run(actions).value)
  {
    hide Inv, Step;
    if actions == [] {
      InitInv();
    } else {
      Reached(actions[..|actions| - 1]);
      StepKeeps(Run(actions[..|actions| - 1]).value, actions[|actions| - 1]);
    }
  }

  lemma InitInv()
    ensures Inv(State(Coordination(map[], []), []))
  {
  }

  /** Single flight: two leaders in progress have different keys, and each owns the 'loading' entry of
      its key - so what it completes or fails by key is its own entry.  No entry is left 'loading'
      by a leader that has ended. */
  lemma {:induction false} SingleFlight(actions: seq<Action>)
    requires Run(actions).Some?
    ensures var s := Run(actions).value; var c, loads := s.coordination, s.loads;
      && (forall l, m :: 0 <= l < m < |loads| && InProgress(loads[l]) && InProgress(loads[m]) ==>
          loads[l].key != loads[m].key)
      && (forall l :: 0 <= l < |loads| && InProgress(loads[l]) ==>
            loads[l].key in c.registry && c.registry[loads[l].key].leader == l &&
                c.registry[loads[l].key].status == Loading)
      && (forall key :: key in c.registry && c.registry[key].status == Loading ==>
            var l := c.registry[key].leader; l < |loads| && loads[l].key == key && InProgress(loads[l]))
  {
    Reached(actions);
    var s := Run(actions).value;
    var c, loads := s.coordination, s.loads;
    forall l | 0 <= l < |loads| && InProgress(loads[l])
      ensures loads[l].key in c.registry && c.registry[loads[l].key].leader == l &&
              c.registry[loads[l].key].status == Loading
    {
      LeaderOwns(c, loads, l, loads[l].phase.promise);
    }
    forall key | key in c.registry && c.registry[key].status == Loading
      ensures var l := c.registry[key].leader; l < |loads| && loads[l].key == key && InProgress(loads[l])
    {
      assert EntryOk(key, c.registry[key], c.promises, loads);
      assert PromiseOk(c.registry[key].promise, c.promises[c.registry[key].promise], c.registry, loads);
    }
  }

  ghost predicate InProgress(load: Load) { load.phase.Leading? || load.phase.Applying? }

  /** Every leader settles its promise exactly once, when its load ends - on whichever path. */
  lemma {:induction false} SettledExactlyOnce(actions: seq<Action>, g: nat)
    requires Run(actions).Some? && g < |Run(actions).value.coordination.promises|
    ensures var s := Run(actions).value; var p := s.coordination.promises[g];
      && p.leader < |s.loads|
      && (p.settles == 0 && p.outcome == Pending <==> Leads(s.loads[p.leader], g))
      && (p.settles == 1 && p.outcome != Pending <==> !Leads(s.loads[p.leader], g))
  {
    Reached(actions);
    var s := Run(actions).value;
    assert PromiseOk(g, s.coordination.promises[g], s.coordination.registry, s.loads);
  }

  /** No orphans: a follower either can wake, or its leader is in progress and will find it. */
  lemma {:induction false} NoOrphans(actions: seq<Action>, l: nat)
    requires Run(actions).Some? && l < |Run(actions).value.loads| && Run(actions).value.loads[l].phase.Waiting?
    ensures var s := Run(actions).value; var key := s.loads[l].key;
      Enabled(s, Wake(l, false)) ||
      (key in s.coordination.registry && l in s.coordination.registry[key].waiting
       && s.coordination.registry[key].promise == s.loads[l].phase.promise
       && var leader := s.coordination.registry[key].leader;
          leader < |s.loads| && s.loads[leader].key == key && InProgress(s.loads[leader]))
  {
    Reached(actions);
    var s := Run(actions).value;
    var c, g := s.coordination, s.loads[l].phase.promise;
    assert LoadOk(l, s.loads[l], c.registry, c.promises, s.loads);
    assert PromiseOk(g, c.promises[g], c.registry, s.loads);
    if c.promises[g].outcome == Pending {
      assert EntryOk(s.loads[l].key, c.registry[s.loads[l].key], c.promises, s.loads);
    }
  }

  /** A follower adopts only what a load with its own key produced, one that has completed. */
  lemma {:induction false} AdoptsOwnKey(actions: seq<Action>, l: nat)
    requires Run(actions).Some? && l < |Run(actions).value.loads| && Run(actions).value.loads[l].phase.Adopted?
    ensures var loads := Run(actions).value.loads; var producer := loads[l].phase.data.producer;
      producer < |loads| && loads[producer] == Load(loads[l].key, Done) && producer != l
  {
    Reached(actions);
    var s := Run(actions).value;
    assert LoadOk(l, s.loads[l], s.coordination.registry, s.coordination.promises, s.loads);
  }

  /** The registry does not leak: a completed entry has a follower still to collect it, so once all followers
      of a key have collected, the key has an entry only while it loads. */
  lemma {:induction false} CollectedEntriesGo(actions: seq<Action>, key: Key)
    requires Run(actions).Some?
    requires var s := Run(actions).value;
      forall l :: 0 <= l < |s.loads| && s.loads[l].key == key ==> !s.loads[l].phase.Waiting?
    ensures var c := Run(actions).value.coordination;
      key in c.registry ==> c.registry[key].status == Loading
  {
    Reached(actions);
    var s := Run(actions).value;
    if key in s.coordination.registry {
      SomeoneWaits(key, s.coordination.registry[key], s.coordination.promises, s.loads);
    }
  }

  lemma SomeoneWaits(key: Key, e: Entry, promises: seq<Promise>, loads: seq<Load>)
    requires EntryOk(key, e, promises, loads)
    ensures e.status == Loading || exists l :: 0 <= l < |loads| && loads[l].key == key && loads[l].phase.Waiting?
  {
    assert e.waiting != [] ==> e.waiting[0] in e.waiting;
  }

  // ----- the coordinator by itself: a null result -----

  function CollectAll(c: Coordination, followers: seq<nat>, key: Key): Coordination
    decreases |followers|
  {
    if followers == [] then c else CollectAll(Collect(c, followers[0], key).0, followers[1..], key)
  }

  /** _load() always completes with a text.  Of the coordinator alone: an entry completed while followers wait is
      freed by their collecting exactly if its result is not null - a null one is answered before the list is
      touched. */
  lemma {:induction false} NullResultStays(c: Coordination, key: Key, text: Option<Text>)
    requires key in c.registry && c.registry[key].waiting != []
    ensures var e := c.registry[key];
            key in CollectAll(Complete(c, key, text), e.waiting, key).registry <==> text.None?
  {
    var e := c.registry[key];
    var d := Complete(c, key, text);
    assert key in d.registry && d.registry[key] == e.(data := text, status := Completed);
    if text.None? { NothingCollected(d, e.waiting, key); } else { AllCollected(d, e.waiting, key); }
  }

  lemma {:induction false} NothingCollected(c: Coordination, followers: seq<nat>, key: Key)
    requires key in c.registry && c.registry[key].data.None?
    ensures CollectAll(c, followers, key) == c
    decreases |followers|
  {
    if followers != [] { NothingCollected(c, followers[1..], key); }
  }

  lemma {:induction false} AllCollected(c: Coordination, followers: seq<nat>, key: Key)
    requires key in c.registry && c.registry[key].data.Some? && c.registry[key].status == Completed
    requires followers != [] && c.registry[key].waiting == followers
    ensures key !in CollectAll(c, followers, key).registry
    decreases |followers|
  {
    var d := Collect(c, followers[0], key).0;
    assert RemoveFirst(followers, followers[0]) == followers[1..];
    if |followers| > 1 { AllCollected(d, followers[1..], key); } else { assert CollectAll(d, [], key) == d; }
  }
}

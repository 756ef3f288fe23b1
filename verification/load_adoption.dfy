/** What followers get: the very text their leader's load came to. */
module LoadAdoption {
  import opened Options
  import opened LoadCoordinators
  import opened LoadRuns

  /** Promise `g` is the newest for its key: nobody has led since. */
  ghost predicate NewestFor(promises: seq<Promise>, g: nat, key: Key) {
    forall h :: g < h < |promises| ==> promises[h].key != key
  }

  /** An entry is that of the newest leader of its key, and holds what that leader's load came to. */
  ghost predicate EntryNewest(key: Key, e: Entry, promises: seq<Promise>) {
    && NewestFor(promises, e.promise, key)
    && (e.data.Some? ==> e.promise < |promises| && e.data.value.producer == promises[e.promise].leader)
  }

  /** A follower whose leader has completed, and nobody led since, is still on the list of the entry. */
  ghost predicate Listed(l: nat, load: Load, c: Coordination) {
    load.phase.Waiting? && load.phase.promise < |c.promises| && c.promises[load.phase.promise].outcome == Resolved &&
    NewestFor(c.promises, load.phase.promise, load.key) ==>
      load.key in c.registry && c.registry[load.key].promise == load.phase.promise &&
          l in c.registry[load.key].waiting
  }

  ghost predicate AllNewest(c: Coordination) {
    forall key :: key in c.registry ==> EntryNewest(key, c.registry[key], c.promises)
  }

  ghost predicate AllListed(s: State) { forall l :: 0 <= l < |s.loads| ==> Listed(l, s.loads[l], s.coordination) }

  ghost predicate Kept(s: State) { AllNewest(s.coordination) && AllListed(s) }

  // ----- steps -----

  lemma RegisterKeeps(s: State, key: Key)
    requires Inv(s) && Kept(s) && (key !in s.coordination.registry || s.coordination.registry[key].status == Completed)
    ensures var l := |s.loads|;
            Kept(State(Register(s.coordination, l, key), s.loads + [Load(key, Leading(|s.coordination.promises|))]))
  {
    var c, l := s.coordination, |s.loads|;
    var d, loads := Register(c, l, key), s.loads + [Load(key, Leading(|c.promises|))];
    forall k | k in d.registry ensures EntryNewest(k, d.registry[k], d.promises) {
      if k != key {
        assert EntryNewest(k, c.registry[k], c.promises) && EntryOk(k, c.registry[k], c.promises, s.loads);
      }
    }
    forall m | 0 <= m < |loads| ensures Listed(m, loads[m], d) {
      if m < l {
        assert Listed(m, s.loads[m], c) && LoadOk(m, s.loads[m], c.registry, c.promises, s.loads);
        if loads[m].phase.Waiting? && loads[m].key == key { assert d.promises[|c.promises|].key == key; }
        if loads[m].phase.Waiting? && NewestFor(d.promises, loads[m].phase.promise, loads[m].key) {
          NewestBefore(c.promises, d.promises, loads[m].phase.promise, loads[m].key);
        }
      }
    }
  }

  lemma NewestBefore(promises: seq<Promise>, more: seq<Promise>, g: nat, key: Key)
    requires promises <= more && NewestFor(more, g, key)
    ensures NewestFor(promises, g, key)
  {
    assert forall h :: 0 <= h < |promises| ==> promises[h] == more[h];
  }

  lemma FollowKeeps(s: State, key: Key)
    requires Inv(s) && Kept(s) && key in s.coordination.registry && s.coordination.registry[key].status == Loading
    ensures var l := |s.loads|; var (c, _) := ShouldExecute(s.coordination, l, key);
            Kept(State(c, s.loads + [Load(key, Waiting(c.registry[key].promise))]))
  {
    var c, l := s.coordination, |s.loads|;
    var (d, _) := ShouldExecute(c, l, key);
    var loads := s.loads + [Load(key, Waiting(d.registry[key].promise))];
    assert EntryOk(key, c.registry[key], c.promises, s.loads) && EntryNewest(key, c.registry[key], c.promises);
    forall m | 0 <= m < |loads| ensures Listed(m, loads[m], d) {
      if m < l { assert Listed(m, s.loads[m], c); }
    }
  }

  /** A leader's load ends, and its entry is completed or gone. */
  ghost predicate Ended(c: Coordination, l: nat, g: nat, key: Key, outcome: Outcome, d: Coordination) {
    && outcome != Pending && d.promises == SettleAt(c.promises, g, outcome)
    && (forall k :: k in d.registry ==> k in c.registry)
    && (forall k :: k in c.registry && k != key ==> k in d.registry && d.registry[k] == c.registry[k])
    && (key in d.registry ==> outcome == Resolved && Filled(c.registry[key], d.registry[key], l))
    && (key !in d.registry && outcome == Resolved && key in c.registry ==> c.registry[key].waiting == [])
  }

  ghost predicate Filled(e: Entry, f: Entry, l: nat) {
    f.data.Some? && f.data.value.producer == l && f.promise == e.promise && f.waiting == e.waiting
  }

  lemma SettledPromises(promises: seq<Promise>, g: nat, outcome: Outcome)
    ensures var after := SettleAt(promises, g, outcome);
            && |after| == |promises|
            && (forall h :: 0 <= h < |promises| ==>
                after[h].key == promises[h].key && after[h].leader == promises[h].leader)
            && (forall h :: 0 <= h < |promises| && h != g ==> after[h] == promises[h])
  {
  }

  lemma EndedNewest(s: State, l: nat, g: nat, outcome: Outcome, d: Coordination)
    requires Inv(s) && AllNewest(s.coordination) && l < |s.loads| && Leads(s.loads[l], g)
    requires Ended(s.coordination, l, g, s.loads[l].key, outcome, d)
    ensures AllNewest(d)
  {
    var c, key := s.coordination, s.loads[l].key;
    LeaderOwns(c, s.loads, l, g);
    hide Inv;
    SettledPromises(c.promises, g, outcome);
    hide SettleAt;
    forall k | k in d.registry ensures EntryNewest(k, d.registry[k], d.promises) {
      assert EntryNewest(k, c.registry[k], c.promises);
    }
  }

  lemma EndedListed(s: State, l: nat, g: nat, outcome: Outcome, d: Coordination, m: nat)
    requires Inv(s) && Kept(s) && l < |s.loads| && Leads(s.loads[l], g) && m < |s.loads| && m != l
    requires Ended(s.coordination, l, g, s.loads[l].key, outcome, d)
    ensures Listed(m, s.loads[m], d)
  {
    var c, key, load := s.coordination, s.loads[l].key, s.loads[m];
    LeaderOwns(c, s.loads, l, g);
    assert Listed(m, load, c) && LoadOk(m, load, c.registry, c.promises, s.loads);
    assert EntryNewest(key, c.registry[key], c.promises);
    hide Inv, Kept, LoadOk;
    SettledPromises(c.promises, g, outcome);
    if load.phase.Waiting? && load.phase.promise < |c.promises| && NewestFor(d.promises, load.phase.promise, load.key) {
      assert NewestFor(c.promises, load.phase.promise, load.key);
      if load.key == key && load.phase.promise == g { WaitsForPending(s, m, g); }
    }
  }

  lemma WaitsForPending(s: State, m: nat, g: nat)
    requires Inv(s) && m < |s.loads| && s.loads[m].phase == Waiting(g) && g < |s.coordination.promises|
    requires s.coordination.promises[g].outcome == Pending
    ensures var c := s.coordination;
            s.loads[m].key in c.registry && m in c.registry[s.loads[m].key].waiting
  {
    assert LoadOk(m, s.loads[m], s.coordination.registry, s.coordination.promises, s.loads);
  }

  lemma EndKeeps(s: State, l: nat, g: nat, outcome: Outcome, d: Coordination, phase: Phase)
    requires Inv(s) && Kept(s) && l < |s.loads| && Leads(s.loads[l], g) && !phase.Waiting?
    requires Ended(s.coordination, l, g, s.loads[l].key, outcome, d)
    ensures Kept(State(d, s.loads[l := s.loads[l].(phase := phase)]))
  {
    hide Inv, Ended, AllNewest;
    EndedNewest(s, l, g, outcome, d);
    var loads := s.loads[l := s.loads[l].(phase := phase)];
    forall m: nat | m < |loads| ensures Listed(m, loads[m], d) {
      if m != l { EndedListed(s, l, g, outcome, d, m); }
    }
  }

  lemma Collected(c: Coordination, l: nat, key: Key, m: nat)
    requires m != l && key in c.registry && m in c.registry[key].waiting
    ensures var d := Collect(c, l, key).0;
            key in d.registry && m in d.registry[key].waiting && d.registry[key].promise == c.registry[key].promise
  {
    assert m in RemoveFirst(c.registry[key].waiting, l);
  }

  predicate SameLoad(e: Entry, f: Entry) { e.promise == f.promise && e.data == f.data }

  lemma CollectedRest(c: Coordination, l: nat, key: Key)
    ensures var d := Collect(c, l, key).0;
            && d.promises == c.promises
            && (forall k :: k in d.registry ==> k in c.registry && SameLoad(d.registry[k], c.registry[k]))
            && (forall k :: k in c.registry && k != key ==> k in d.registry && d.registry[k] == c.registry[k])
  {
  }

  lemma WakeKept(s: State, l: nat, dropped: bool)
    requires Inv(s) && Kept(s) && Enabled(s, Wake(l, dropped))
    ensures Kept(StepWake(s, l, dropped))
  {
    var c, key, t := s.coordination, s.loads[l].key, StepWake(s, l, dropped);
    var d := t.coordination;
    CollectedRest(c, l, key);
    hide Collect, Inv;
    forall k | k in d.registry ensures EntryNewest(k, d.registry[k], d.promises) {
      assert EntryNewest(k, c.registry[k], c.promises);
    }
    forall m: nat | m < |t.loads| ensures Listed(m, t.loads[m], d) {
      assert Listed(m, s.loads[m], c);
      if m != l && key in c.registry && m in c.registry[key].waiting { Collected(c, l, key, m); }
    }
  }

  lemma FailEnds(s: State, l: nat, phase: Phase)
    requires Inv(s) && Kept(s) && l < |s.loads| && InProgress(s.loads[l]) && !phase.Waiting?
    ensures Kept(Become(s, l, Fail(s.coordination, s.loads[l].key), phase))
  {
    var c, g := s.coordination, s.loads[l].phase.promise;
    LeaderOwns(c, s.loads, l, g);
    hide Inv, Kept;
    EndKeeps(s, l, g, Rejected, Fail(c, s.loads[l].key), phase);
  }

  lemma CompleteEnds(s: State, l: nat, content: string)
    requires Inv(s) && Kept(s) && l < |s.loads| && InProgress(s.loads[l])
    ensures Kept(Become(s, l, Complete(s.coordination, s.loads[l].key, Some(Text(l, content))), Done))
  {
    var c, g := s.coordination, s.loads[l].phase.promise;
    LeaderOwns(c, s.loads, l, g);
    hide Inv, Kept;
    EndKeeps(s, l, g, Resolved, Complete(c, s.loads[l].key, Some(Text(l, content))), Done);
  }

  lemma BeginKeeps(s: State, key: Key, contextThrows: bool)
    requires Inv(s) && Kept(s)
    ensures Kept(StepBegin(s, key, contextThrows))
  {
    var c := s.coordination;
    hide Kept, Inv;
    if key in c.registry && c.registry[key].status == Loading {
      FollowKeeps(s, key);
    } else if contextThrows {
      AloneKeeps(s, key);
    } else {
      RegisterOk(s, key);
      RegisterKeeps(s, key);
    }
  }

  lemma StepKept(s: State, a: Action)
    requires Inv(s) && Kept(s) && Enabled(s, a)
    ensures Kept(Step(s, a))
  {
    hide Kept, Inv, StepBegin, StepWake, Fail, Complete;
    match a
    case Begin(key, contextThrows) => BeginKeeps(s, key, contextThrows);
    case OnLoadReturns(l) => PhaseOnly(s, l, Applying(s.loads[l].phase.promise));
    case OnLoadThrows(l) => FailEnds(s, l, Alone);
    case ApplyReturns(l, content) => CompleteEnds(s, l, content);
    case ApplyThrows(l) => FailEnds(s, l, Done);
    case Wake(l, dropped) => WakeKept(s, l, dropped);
  }

  lemma RegisterOk(s: State, key: Key)
    requires Inv(s) && !(key in s.coordination.registry && s.coordination.registry[key].status == Loading)
    ensures key !in s.coordination.registry || s.coordination.registry[key].status == Completed
  {
    if key in s.coordination.registry { EntryStatus(s.coordination, s.loads, key); }
  }

  lemma AloneKeeps(s: State, key: Key)
    requires Kept(s)
    ensures Kept(State(s.coordination, s.loads + [Load(key, Alone)]))
  {
    var loads := s.loads + [Load(key, Alone)];
    forall m | 0 <= m < |loads| ensures Listed(m, loads[m], s.coordination) {
      if m < |s.loads| { assert Listed(m, s.loads[m], s.coordination); }
    }
  }

  lemma PhaseOnly(s: State, l: nat, phase: Phase)
    requires Kept(s) && l < |s.loads| && !phase.Waiting?
    ensures Kept(Become(s, l, s.coordination, phase))
  {
    var t := Become(s, l, s.coordination, phase);
    forall m | 0 <= m < |t.loads| ensures Listed(m, t.loads[m], t.coordination) {
      assert Listed(m, s.loads[m], s.coordination);
    }
  }

  lemma {:induction false} RunKept(actions: seq<Action>)
    requires Run(actions).Some?
    ensures Kept(Run(actions).value)
  {
    if actions == [] {
      assert Kept(State(Coordination(map[], []), []));
    } else {
      hide Kept, Step, Inv, Enabled;
      RunKept(actions[..|actions| - 1]);
      Reached(actions[..|actions| - 1]);
      StepKept(Run(actions[..|actions| - 1]).value, actions[|actions| - 1]);
    }
  }

  // ----- what a follower gets -----

  /** A follower that wakes after its leader completed, and is still wanted, adopts its leader's text, as long as nobody
      has led under the key since; else what a newer leader has completed with, if that is there, and loads on its
      own only if it is not. */
  lemma {:induction false} FollowerAdopts(actions: seq<Action>, l: nat)
    requires Run(actions).Some? && Enabled(Run(actions).value, Wake(l, false))
    requires var s := Run(actions).value; s.coordination.promises[s.loads[l].phase.promise].outcome == Resolved
    ensures var s, t := Run(actions).value, Step(Run(actions).value, Wake(l, false));
            var c, key, g := s.coordination, s.loads[l].key, s.loads[l].phase.promise;
            && (NewestFor(c.promises, g, key) ==>
                t.loads[l].phase.Adopted? && t.loads[l].phase.data.producer == c.promises[g].leader)
            && (t.loads[l].phase == Alone <==> !(key in c.registry && c.registry[key].status == Completed))
            && (t.loads[l].phase.Adopted? ==>
                c.registry[key].data == Some(t.loads[l].phase.data) && c.registry[key].promise < |c.promises|
                && t.loads[l].phase.data.producer == c.promises[c.registry[key].promise].leader)
            && (t.loads[l].phase.Adopted? || t.loads[l].phase == Alone)
  {
    Reached(actions);
    RunKept(actions);
    var s := Run(actions).value;
    var c, key := s.coordination, s.loads[l].key;
    hide Run;
    assert Listed(l, s.loads[l], c);
    if key in c.registry {
      assert EntryOk(key, c.registry[key], c.promises, s.loads) && EntryNewest(key, c.registry[key], c.promises);
    }
  }

  /** The application of some load came to this text. */
  ghost predicate Said(actions: seq<Action>, text: Text) {
    exists n :: 0 <= n < |actions| && actions[n] == ApplyReturns(text.producer, text.content)
  }

  ghost predicate AllSaid(actions: seq<Action>, s: State) {
    && (forall key :: key in s.coordination.registry && s.coordination.registry[key].data.Some? ==>
            Said(actions, s.coordination.registry[key].data.value))
    && (forall l :: 0 <= l < |s.loads| && s.loads[l].phase.Adopted? ==> Said(actions, s.loads[l].phase.data))
  }

  lemma SaidMore(front: seq<Action>, a: Action, text: Text)
    ensures Said(front, text) ==> Said(front + [a], text)
    ensures a == ApplyReturns(text.producer, text.content) ==> Said(front + [a], text)
  {
    if n :| 0 <= n < |front| && front[n] == ApplyReturns(text.producer, text.content) {
      assert (front + [a])[n] == front[n];
    }
    assert (front + [a])[|front|] == a;
  }

  lemma StepSaid(front: seq<Action>, s: State, a: Action)
    requires Enabled(s, a) && AllSaid(front, s)
    ensures AllSaid(front + [a], Step(s, a))
  {
    hide Said;
    forall text { SaidMore(front, a, text); }
  }

  /** Whatever a follower adopts is what the application of the load it names came to. */
  lemma {:induction false} AdoptedWasSaid(actions: seq<Action>, l: nat)
    requires Run(actions).Some? && l < |Run(actions).value.loads| && Run(actions).value.loads[l].phase.Adopted?
    ensures Said(actions, Run(actions).value.loads[l].phase.data)
  {
    RunSaid(actions);
  }

  lemma {:induction false} RunSaid(actions: seq<Action>)
    requires Run(actions).Some?
    ensures AllSaid(actions, Run(actions).value)
  {
    if actions != [] {
      hide AllSaid, Step, Enabled;
      var front, a := actions[..|actions| - 1], actions[|actions| - 1];
      RunSaid(front);
      StepSaid(front, Run(front).value, a);
      assert front + [a] == actions;
    }
  }
}

/** What is stored, and who finds it: a load's result reaches the next component with its key. */
module CacheHits {
  import opened Options
  import opened ComponentCache
  import opened CacheRuns
  import opened CacheTheorems

  /** A component that has been given `text` from under `key`. */
  predicate Holds(c: Cell, key: string, text: string) {
    c.inst.data == text && c.inst.dataKey == Some(key) && key in c.filed && c.filed[key] == text
  }

  /** The component that appears last. */
  function Newest(s: State): Cell
    requires s.cells != []
  {
    s.cells[|s.cells| - 1]
  }

  /** A component that appears begins with what is stored under its key, exactly if something is and it may look; it
      looks exactly if it has a key and may. */
  lemma AppearHydrates(actions: seq<Action>, key: Option<string>, data: string, skip: bool)
    ensures var s, t := Run(actions), Step(Run(actions), Appear(key, data, skip));
            && t.cells != [] && |t.cells| == |s.cells| + 1 && t.entries == s.entries && Newest(t).inst.cacheKey == key
            && (if key.Some? && !skip && key.value in s.entries then Holds(Newest(t), key.value, s.entries[key.value])
                else Newest(t).inst.data == data && Newest(t).inst.dataKey == None && Newest(t).filed == map[])
            && |t.ops| == |s.ops| + if key.Some? && !skip then 1 else 0
  {
    var s := Run(actions);
    StepOps(s, Appear(key, data, skip));
    StepCell(s, Appear(key, data, skip), |s.cells|);
    hide Run;
  }

  /** A reload() of a component that never failed begins with what is stored under the key of its args, exactly if the
      args have changed, it may look, and something but "{}" is stored; its result is compared with that. */
  lemma {:induction false} ReloadHydrates(actions: seq<Action>, i: nat, moved: bool, skip: bool)
    requires i < |Run(actions).cells| && Run(actions).cells[i].failedAt.None?
    ensures var s, t := Run(actions), Step(Run(actions), Begin(i, Reload, moved, skip));
            var c, d := s.cells[i], t.cells[i];
            var begun := d.loads.begun;
            && |begun| == |c.loads.begun| + 1 && begun[|begun| - 1] == Load(Reload, c.inst.key, d.inst.data)
            && d.inst.cacheKey == c.inst.key && t.entries == s.entries
            && (if moved && !skip && c.inst.key.Some? && c.inst.key.value in s.entries &&
                   s.entries[c.inst.key.value] != EMPTY
                then Holds(d, c.inst.key.value, s.entries[c.inst.key.value])
                else d.inst.data == c.inst.data && d.inst.dataKey == c.inst.dataKey && d.filed == c.filed)
  {
    var s := Run(actions);
    RunSilent(actions, i);
    StepCell(s, Begin(i, Reload, moved, skip), i);
    hide Run;
  }

  /** The result a step applies: that of load() when it ends as the newest load, that of the others in their turn. */
  function AppliedNow(c: Cell, a: Action): Option<string>
    requires Can(c, a) && (a.Return? || a.Turn?)
  {
    if a.Turn? then c.loads.waiting[0].text
    else if a.n + 1 == |c.loads.begun| && c.loads.begun[a.n].kind.PlainLoad? then a.text
    else None
  }

  /** What is stored of a load's result, exactly: nothing after a failure or without a key; else what differs from the
      data the load began with - of boot's load and reload() nothing that is "{}" -, and of these also what is the same,
      if the data is filed under another key. */
  lemma {:induction false} LoadStores(actions: seq<Action>, a: Action)
    requires Possible(Run(actions), a) && Acts(a) && (a.Return? || a.Turn?)
    ensures var c, op := Run(actions).cells[a.i], OpOf(Run(actions), a);
            var load, text := c.loads.begun[LoadOf(c, a)], AppliedNow(c, a);
            var key := if load.kind.PlainLoad? then c.inst.key else c.inst.cacheKey;
            && (op.Write? <==>
                && text.Some? && key.Some? && c.failedAt.None?
                && (if text.value != load.before then load.kind.PlainLoad? || text.value != EMPTY
                    else !load.kind.PlainLoad? && c.inst.dataKey.Some? && c.inst.dataKey != key))
            && (op.Write? ==> op == Write(key.value, text.value))
            && (text.Some? ==> CellStep(c, a, Run(actions).entries, |Run(actions).ops|).cell.inst.data == text.value)
  {
    RunSilent(actions, a.i);
    hide Run;
  }

  /** The step stores something under `key`, or takes what is there away. */
  predicate Overwrites(s: State, a: Action, key: string) {
    Possible(s, a) && (a == Evict(key) || (Acts(a) && OpOf(s, a).Write? && OpOf(s, a).key == key && Accepted(a)))
  }

  lemma EntryStays(s: State, a: Action, key: string)
    requires Possible(s, a) && key in s.entries && !Overwrites(s, a, key)
    ensures key in Step(s, a).entries && Step(s, a).entries[key] == s.entries[key]
  {
    hide CellStep, Can, Product;
  }

  ghost predicate Untouched(before: seq<Action>, since: seq<Action>, key: string) {
    forall n :: 0 <= n < |since| ==> !Overwrites(Run(before + since[..n]), since[n], key)
  }

  lemma UntouchedFront(before: seq<Action>, since: seq<Action>, key: string)
    requires Untouched(before, since, key) && since != []
    ensures Untouched(before, since[..|since| - 1], key)
    ensures !Overwrites(Run(before + since[..|since| - 1]), since[|since| - 1], key)
  {
    hide Overwrites, Run;
    var front := since[..|since| - 1];
    forall n | 0 <= n < |front| ensures front[..n] == since[..n] && front[n] == since[n] {}
  }

  lemma RunLast(before: seq<Action>, since: seq<Action>)
    requires since != []
    ensures var s, a := Run(before + since[..|since| - 1]), since[|since| - 1];
            Run(before + since) == if Possible(s, a) then Step(s, a) else s
  {
    assert (before + since)[..|before + since| - 1] == before + since[..|since| - 1];
    hide Step, Possible;
  }

  lemma {:induction false} StoredStays(before: seq<Action>, since: seq<Action>, key: string)
    requires key in Run(before).entries && Untouched(before, since, key)
    ensures key in Run(before + since).entries && Run(before + since).entries[key] == Run(before).entries[key]
    decreases |since|
  {
    hide Run, Overwrites, Step, Possible, Untouched;
    if since == [] {
      assert before + [] == before;
    } else {
      var front, last := since[..|since| - 1], since[|since| - 1];
      UntouchedFront(before, since, key);
      StoredStays(before, front, key);
      RunLast(before, since);
      if Possible(Run(before + front), last) { EntryStays(Run(before + front), last, key); }
    }
  }

  lemma WriteStored(s: State, a: Action)
    requires Possible(s, a) && Acts(a) && OpOf(s, a).Write? && Accepted(a)
    ensures OpOf(s, a).key in Step(s, a).entries && Step(s, a).entries[OpOf(s, a).key] == OpOf(s, a).text
  {
    hide CellStep, Can, Product;
  }

  /** What a load has stored is what the next component with that key begins with, as long as nothing has been stored
      under the key or taken from it since. */
  lemma {:induction false} StoredIsFound(before: seq<Action>, a: Action, since: seq<Action>, data: string)
    requires Possible(Run(before), a) && Acts(a) && OpOf(Run(before), a).Write? && Accepted(a)
    requires Untouched(before + [a], since, OpOf(Run(before), a).key)
    ensures var op, s := OpOf(Run(before), a), Run(before + [a] + since);
            && op.key in s.entries && s.entries[op.key] == op.text
            && Holds(Newest(Step(s, Appear(Some(op.key), data, false))), op.key, op.text)
  {
    hide Run, Untouched, OpOf, Step, Holds, Acts, Accepted;
    var op := OpOf(Run(before), a);
    RunThen(before, a);
    WriteStored(Run(before), a);
    StoredStays(before + [a], since, op.key);
    AppearHydrates(before + [a] + since, Some(op.key), data, false);
  }
}

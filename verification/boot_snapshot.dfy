/** A component that snapshots its html waits for its children to render; its calls wait as in the lifecycle queue. */
module BootSnapshot {
  import opened Options
  import opened Boot
  import opened BootRuns
  import opened BootSteps
  import ComponentQueues

  // ----- the wait for the children's renders -----

  /** `p` waits for child `k` to render, or need not. */
  predicate Renders(comps: seq<Comp>, p: nat, k: nat) {
    p < |comps| && k < |comps| && p != k && comps[p].phase == RenderWait &&
    (k in comps[p].watch.renderWait || Drawn(comps[k]))
  }

  /** Before its ready phase a live component that snapshots its html waits, for exactly the children that have neither
      rendered nor stopped. */
  lemma {:induction false} SnapshotWaits(actions: seq<Action>, tree: Tree, p: nat)
    requires Enabled(Run(actions, tree), EndYield(p), tree.limit)
    requires var c := Run(actions, tree)[p]; c.own.htmlCache && !c.stopped
    ensures var comps, after := Run(actions, tree), Step(Run(actions, tree), EndYield(p), tree.limit);
            && after[p].phase == RenderWait
            && (forall k :: k in after[p].watch.renderWait <==>
                            k in comps[p].watch.kids && k < |comps| && !Drawn(comps[k]))
            && (forall k :: k in comps[p].watch.kids ==> Renders(after, p, k))
  {
    RunKeeps(actions, tree);
    var comps := Run(actions, tree);
    LocalOf(comps, p);
    hide Run;
    forall k | k in comps[p].watch.kids ensures p < k < |comps| {
      assert k in Family(comps[p]) && Knows(p, comps[p], k, comps[k]);
    }
  }

  lemma StepRenders(comps: seq<Comp>, a: Action, limit: nat, p: nat, k: nat)
    requires Inv(comps) && Enabled(comps, a, limit) && Renders(comps, p, k)
    requires Step(comps, a, limit)[p].phase == RenderWait
    ensures Renders(Step(comps, a, limit), p, k)
  {
    if !a.Spawn? {
      LocalOf(comps, a.c);
      LocalOf(comps, p);
      SegmentMoves(comps, a, limit);
      hide Inv, Segment, Moves;
      ApplyRenders(comps, a.c, Segment(comps, a, limit), p, k);
    }
  }

  lemma ApplyRenders(comps: seq<Comp>, c: nat, after: After, p: nat, k: nat)
    requires c < |comps| && Moved(comps, c, after) && Renders(comps, p, k) && Local(comps[p])
    requires Apply(comps, c, after)[p].phase == RenderWait
    requires c == p ==> after.comp.watch.renderWait == comps[p].watch.renderWait
    ensures Renders(Apply(comps, c, after), p, k)
  {
    MovedParts(comps, c, after);
    assert Readies(comps[c], after);
    hide Local, Moved, Waits, UnreadyKids, UnrenderedKids, Awaited;
  }

  /** It waits all through these further actions. */
  ghost predicate StillWaits(before: seq<Action>, since: seq<Action>, tree: Tree, p: nat) {
    forall n :: 0 <= n <= |since| ==> WaitsNow(Run(before + since[..n], tree), p)
  }

  predicate WaitsNow(comps: seq<Comp>, p: nat) { p < |comps| && comps[p].phase == RenderWait }

  lemma RunLast(before: seq<Action>, since: seq<Action>, tree: Tree)
    requires since != []
    ensures var comps, a := Run(before + since[..|since| - 1], tree), since[|since| - 1];
            Run(before + since, tree) == if Enabled(comps, a, tree.limit) then Step(comps, a, tree.limit) else comps
  {
    assert (before + since)[..|before + since| - 1] == before + since[..|since| - 1];
    hide Step, Enabled;
  }

  lemma {:induction false} WaitsOn(before: seq<Action>, since: seq<Action>, tree: Tree, p: nat, k: nat)
    requires Renders(Run(before, tree), p, k) && StillWaits(before, since, tree, p)
    ensures Renders(Run(before + since, tree), p, k)
    decreases |since|
  {
    hide Run, Step, Enabled, Renders, Inv;
    assert since[..|since|] == since;
    if since == [] {
      assert before + [] == before;
    } else {
      var front, last := since[..|since| - 1], since[|since| - 1];
      forall n | 0 <= n <= |front| ensures front[..n] == since[..n] {}
      WaitsOn(before, front, tree, p, k);
      RunKeeps(before + front, tree);
      RunLast(before, since, tree);
      if Enabled(Run(before + front, tree), last, tree.limit) {
        StepRenders(Run(before + front, tree), last, tree.limit, p, k);
      }
    }
  }

  /** A component that snapshots its html goes on to its ready phase only when every child it had when it came to the
      wait has rendered or stopped. */
  lemma {:induction false} SnapshotAfterChildren(before: seq<Action>, since: seq<Action>, tree: Tree, p: nat, k: nat)
    requires Enabled(Run(before, tree), EndYield(p), tree.limit)
    requires var c := Run(before, tree)[p]; c.own.htmlCache && !c.stopped && k in c.watch.kids
    requires StillWaits(before + [EndYield(p)], since, tree, p)
    requires Enabled(Run(before + [EndYield(p)] + since, tree), EndRenderWait(p), tree.limit)
    ensures var comps := Run(before + [EndYield(p)] + since, tree); k < |comps| && Drawn(comps[k])
  {
    SnapshotWaits(before, tree, p);
    assert [EndYield(p)][..0] == [] && before + [] == before;
    RunLast(before, [EndYield(p)], tree);
    hide Run, Step;
    WaitsOn(before + [EndYield(p)], since, tree, p, k);
  }

  // ----- the calls wait as in the lifecycle queue -----

  function KeyOf(kind: Kind): ComponentQueues.Key {
    match kind
    case Booted => ComponentQueues.BootKey
    case Rendered => ComponentQueues.RenderKey
    case Reloaded => ComponentQueues.ReloadKey
    case Refreshed => ComponentQueues.RefreshKey
    case Loaded => ComponentQueues.LoadKey
  }

  /** The queue of one component, as component-queue.ts has it, when nothing is promoted. */
  ghost predicate Queues(c: Comp, q: ComponentQueues.Queue) {
    && (q.busy <==> c.phase != Idle || c.queue != [])
    && q.promotedRunning == 0 && |q.pending| == |c.queue|
    && forall i :: 0 <= i < |c.queue| ==> q.pending[i].key == KeyOf(c.queue[i])
  }

  /** A call on a live component does to its queue what Enqueue does: it starts, merges or waits in the same cases. */
  lemma CallIsEnqueue(c: Comp, q: ComponentQueues.Queue, kind: Kind, cached: bool, caller: nat)
    requires Queues(c, q) && kind != Booted && !c.stopped
    ensures var (p, effect, waits) := ComponentQueues.Enqueue(q, KeyOf(kind), caller);
            var d := Called(c, kind, cached);
            Queues(d, p) && (effect.Start? <==> c.phase == Idle && c.queue == [])
  {
    if c.phase == Idle && c.queue == [] {
      StartIsEnqueue(c, q, kind, cached, caller);
    } else {
      WaitIsEnqueue(c, q, kind, cached, caller);
    }
  }

  lemma StartIsEnqueue(c: Comp, q: ComponentQueues.Queue, kind: Kind, cached: bool, caller: nat)
    requires Queues(c, q) && kind != Booted && !c.stopped && c.phase == Idle && c.queue == []
    ensures var (p, effect, waits) := ComponentQueues.Enqueue(q, KeyOf(kind), caller);
            Queues(Called(c, kind, cached), p) && effect.Start?
  {
  }

  lemma WaitIsEnqueue(c: Comp, q: ComponentQueues.Queue, kind: Kind, cached: bool, caller: nat)
    requires Queues(c, q) && kind != Booted && !(c.phase == Idle && c.queue == [])
    ensures var (p, effect, waits) := ComponentQueues.Enqueue(q, KeyOf(kind), caller);
            Queues(Called(c, kind, cached), p) && !effect.Start?
  {
    KeysDiffer(kind);
    var d := Called(c, kind, cached);
    assert d.queue == Queued(c.queue, kind) && d.phase == c.phase;
    hide Called, KeyOf;
  }

  lemma KeysDiffer(kind: Kind)
    ensures forall other :: KeyOf(kind) == KeyOf(other) <==> kind == other
  {
  }

  /** The hand-off does what the timer does: the oldest call starts. */
  lemma HandOffIsTimer(c: Comp, q: ComponentQueues.Queue, cached: bool)
    requires Queues(c, q) && c.phase == Idle && c.queue != []
    requires Booted !in c.queue && !c.stopped
    ensures var (p, effect) := ComponentQueues.TimerFired(q);
            var d := NextStarts(c, cached).comp;
            && effect.Start? && effect.entry.key == KeyOf(c.queue[0]) && d.kind == c.queue[0]
            && Queues(d, p)
  {
  }
}

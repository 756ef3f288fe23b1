/** A tree of components comes to an end; and exactly which child leaves one waiting. */
module BootTheorems {
  import opened Boot
  import opened BootRuns
  import opened BootSteps

  // ----- it comes to an end -----

  function Weight(phase: Phase): nat {
    match phase
    case Rendering => 8
    case Loading => 7
    case Rerendering => 6
    case Yielding => 5
    case RenderWait => 4
    case ReadyWait => 3
    case InOnReady => 2
    case Idle => 0
  }

  function Left(c: Comp): nat { Weight(c.phase) + 8 * |c.queue| + if c.stopped then 0 else 9 }

  function LeftAll(comps: seq<Comp>): nat {
    if comps == [] then 0 else Left(comps[|comps| - 1]) + LeftAll(comps[..|comps| - 1])
  }

  function Measure(comps: seq<Comp>, limit: nat): nat {
    LeftAll(comps) + 18 * if |comps| < limit then limit - |comps| else 0
  }

  /** One component changes by at most `more`, the others not at all. */
  lemma {:induction false} LeftChanges(comps: seq<Comp>, after: seq<Comp>, c: nat, more: int)
    requires |after| == |comps| && c < |comps| && Left(after[c]) <= Left(comps[c]) + more
    requires forall i :: 0 <= i < |comps| && i != c ==> Left(after[i]) == Left(comps[i])
    ensures LeftAll(after) <= LeftAll(comps) + more
    decreases |comps|
  {
    hide Left;
    var n := |comps| - 1;
    if c == n {
      LeftSame(comps[..n], after[..n]);
    } else {
      LeftChanges(comps[..n], after[..n], c, more);
    }
  }

  lemma {:induction false} LeftSame(comps: seq<Comp>, after: seq<Comp>)
    requires |after| == |comps| && forall i :: 0 <= i < |comps| ==> Left(after[i]) == Left(comps[i])
    ensures LeftAll(after) == LeftAll(comps)
    decreases |comps|
  {
    hide Left;
    if comps != [] { LeftSame(comps[..|comps| - 1], after[..|comps| - 1]); }
  }

  /** A segment ends in a phase nearer to the end. */
  predicate Nearer(c: Comp, d: Comp) {
    d.queue == c.queue && (c.stopped ==> d.stopped) && Weight(d.phase) < Weight(c.phase)
  }

  lemma NearerLeft(c: Comp, d: Comp)
    requires Nearer(c, d)
    ensures Left(d) < Left(c)
  {
  }

  predicate Over(c: Comp, d: Comp) { d.phase == Idle && d.queue == c.queue && (c.stopped ==> d.stopped) }

  lemma OverNearer(c: Comp, d: Comp)
    requires Over(c, d) && c.phase != Idle
    ensures Nearer(c, d)
  {
  }

  lemma EndsOver(c: Comp, fired: bool)
    ensures Over(c, Ends(c, fired).comp)
  {
  }

  lemma PointsOver(c: Comp)
    ensures Over(c, Points(c).comp)
  {
    hide Ends;
    EndsOver(c, false);
    EndsOver(Fire(c), true);
  }

  lemma BreaksOver(c: Comp, late: bool)
    ensures Over(c, Breaks(c, late).comp)
  {
    hide Ends;
    EndsOver(Restored(c), true);
    EndsOver(Failed(c, c.sign.atReady && !late), false);
  }

  lemma FailOver(c: Comp, throws: bool, awaited: bool)
    ensures Over(c, Fail(c, throws, awaited).comp)
  {
  }

  lemma LoadNearer(c: Comp, outcome: Outcome, next: Next, unready: set<nat>, awaited: bool)
    requires c.phase == Loading
    ensures Nearer(c, if c.kind == Booted then LoadEnds(c, outcome, next, awaited).comp
            else FetchEnds(c, outcome, next, unready).comp)
  {
    hide Ends, Breaks, Points, Fail, Over;
    if c.kind == Loaded {
      EndsOver(c, false);
      OverNearer(c, Ends(c, false).comp);
    } else if outcome.Throws? {
      hide Nearer;
      BreaksOver(c, outcome.late);
      FailOver(c, outcome.stopThrows, awaited);
      OverNearer(c, Breaks(c, outcome.late).comp);
      OverNearer(c, Fail(c, outcome.stopThrows, awaited).comp);
    } else if c.kind != Booted {
      EndsOver(c, false);
      OverNearer(c, Ends(c, false).comp);
      var dropped := if c.own.hasLoad then Unready(c) else c;
      PointsOver(dropped);
      OverNearer(dropped, Points(dropped).comp);
    }
  }

  lemma RerenderNearer(c: Comp, outcome: Outcome, unready: set<nat>, awaited: bool)
    requires c.phase == Rerendering
    ensures Nearer(c, RerenderEnds(c, outcome, unready, awaited).comp)
  {
    hide Ends, Breaks, Fail, Over;
    if outcome.Throws? {
      hide Nearer;
      BreaksOver(c, outcome.late);
      FailOver(c, outcome.stopThrows, awaited);
      OverNearer(c, Breaks(c, outcome.late).comp);
      OverNearer(c, Fail(c, outcome.stopThrows, awaited).comp);
    } else if c.kind != Booted && c.stopped {
      EndsOver(c, false);
      OverNearer(c, Ends(c, false).comp);
    }
  }

  lemma OnReadyNearer(c: Comp, outcome: Outcome, awaited: bool)
    requires c.phase == InOnReady
    ensures Nearer(c, OnReadyEnds(c, outcome, awaited).comp)
  {
    hide Ends, Breaks, Points, Fail, Over;
    if outcome.Throws? {
      hide Nearer;
      BreaksOver(c, outcome.late);
      FailOver(c, outcome.stopThrows, awaited);
      OverNearer(c, Breaks(c, outcome.late).comp);
      OverNearer(c, Fail(c, outcome.stopThrows, awaited).comp);
    } else if c.kind != Booted {
      hide Nearer;
      EndsOver(c, false);
      OverNearer(c, Ends(c, false).comp);
      PointsOver(c);
      OverNearer(c, Points(c).comp);
    }
  }

  lemma RenderNearer(c: Comp, outcome: Outcome, awaited: bool)
    requires c.phase == Rendering
    ensures Nearer(c, RenderEnds(c, outcome, awaited).comp)
  {
    hide Fail;
    if outcome.Throws? {
      FailOver(c, outcome.stopThrows, awaited);
      OverNearer(c, Fail(c, outcome.stopThrows, awaited).comp);
    }
  }

  lemma WaitsNearer(c: Comp, unready: set<nat>, unrendered: set<nat>)
    ensures c.phase == Yielding ==> Nearer(c, YieldEnds(c, unrendered, unready).comp)
    ensures c.phase == RenderWait ==> Nearer(c, RenderWaitEnds(c, unready).comp)
    ensures c.phase == ReadyWait ==> Nearer(c, ReadyWaitEnds(c).comp)
  {
    hide Ends, Over;
    if c.phase == ReadyWait && c.stopped && c.kind != Booted {
      EndsOver(c, false);
      OverNearer(c, Ends(c, false).comp);
    }
  }

  lemma CallLeft(c: Comp, kind: Kind, cached: bool)
    requires kind != Booted && Booted !in c.queue
    ensures Left(Called(c, kind, cached)) <= Left(c) + 8
  {
    QueuedParts(c.queue, kind);
    hide Queued;
  }

  lemma NextParts(c: Comp, cached: bool)
    requires c.phase == Idle && c.queue != [] && Booted !in c.queue
    ensures var d := NextStarts(c, cached).comp;
            d.stopped == c.stopped && d.queue == c.queue[1..] &&
                (d.phase == Idle || d.phase == Loading || d.phase == Rerendering)
  {
  }

  lemma NextLeft(c: Comp, cached: bool)
    requires c.phase == Idle && c.queue != [] && Booted !in c.queue
    ensures Left(NextStarts(c, cached).comp) < Left(c)
  {
    NextParts(c, cached);
    hide NextStarts;
  }

  lemma StopLeft(c: Comp, throws: bool, awaited: bool)
    requires !c.stopped
    ensures Left(StopSelf(c, throws, awaited).comp) < Left(c)
  {
  }

  lemma SegmentLeft(comps: seq<Comp>, a: Action, limit: nat)
    requires Enabled(comps, a, limit) && !a.Spawn? && Booted !in comps[a.c].queue
    ensures Left(Segment(comps, a, limit).comp) <= Left(comps[a.c]) + if a.Call? then 8 else -1
  {
    hide UnreadyKids, UnrenderedKids, Awaited, Called, NextStarts, RenderEnds, LoadEnds, FetchEnds, RerenderEnds,
      YieldEnds, RenderWaitEnds, ReadyWaitEnds, OnReadyEnds, StopSelf, Left, Nearer;
    var c := comps[a.c];
    var s, t, awaited := UnreadyKids(comps, c.watch.kids), UnrenderedKids(comps, c.watch.kids), Awaited(comps, a.c);
    match a
    case Call(_, call, cached) => CallLeft(c, call, cached);
    case StartNext(_, cached) => NextLeft(c, cached);
    case Stop(_, throws) => StopLeft(c, throws, awaited);
    case EndRender(_, outcome) =>
      RenderNearer(c, outcome, awaited);
      NearerLeft(c, Segment(comps, a, limit).comp);
    case EndLoad(_, outcome, next) =>
      LoadNearer(c, outcome, next, s, awaited);
      NearerLeft(c, Segment(comps, a, limit).comp);
    case EndRerender(_, outcome) =>
      RerenderNearer(c, outcome, s, awaited);
      NearerLeft(c, Segment(comps, a, limit).comp);
    case EndOnReady(_, outcome) =>
      OnReadyNearer(c, outcome, awaited);
      NearerLeft(c, Segment(comps, a, limit).comp);
    case EndYield(_) | EndRenderWait(_) | EndReadyWait(_) =>
      WaitsNearer(c, s, t);
      NearerLeft(c, Segment(comps, a, limit).comp);
  }

  lemma HeardLeft(comp: Comp, c: nat, event: Event)
    ensures Left(Heard(comp, c, event)) == Left(comp)
  {
  }

  /** Every step of a tree of at most `limit` components brings its end closer; a call puts it off by 8 steps. */
  lemma StepDecreases(comps: seq<Comp>, a: Action, limit: nat)
    requires Inv(comps) && Enabled(comps, a, limit)
    ensures Measure(Step(comps, a, limit), limit) <= Measure(comps, limit) + if a.Call? then 8 else -1
  {
    if a.Spawn? {
      SpawnDecreases(comps, a, limit);
    } else {
      LocalOf(comps, a.c);
      SegmentLeft(comps, a, limit);
      hide Segment, Enabled, Left, Heard, Inv, Local;
      var after := Segment(comps, a, limit);
      forall i | 0 <= i < |comps| ensures Left(Step(comps, a, limit)[i]) ==
          Left(if i == a.c then after.comp else comps[i]) {
        HeardLeft(if i == a.c then after.comp else comps[i], a.c, after.event);
      }
      LeftChanges(comps, Step(comps, a, limit), a.c, if a.Call? then 8 else -1);
    }
  }

  lemma SpawnDecreases(comps: seq<Comp>, a: Action, limit: nat)
    requires Enabled(comps, a, limit) && a.Spawn?
    ensures Measure(Step(comps, a, limit), limit) < Measure(comps, limit)
  {
    LeftSame(comps, Step(comps, a, limit)[..|comps|]);
  }

  /** How many of the actions happen, and how many of those are calls. */
  function Steps(actions: seq<Action>, tree: Tree, callsOnly: bool): nat {
    if actions == [] then 0
    else
      var front, a := actions[..|actions| - 1], actions[|actions| - 1];
      Steps(front, tree, callsOnly)
      + if Enabled(Run(front, tree), a, tree.limit) && (callsOnly ==> a.Call?) then 1 else 0
  }

  /** No run of a tree of at most `limit` components takes more than 18 steps per component, 9 per call and 17 more. */
  lemma {:induction false} RunsEnd(actions: seq<Action>, tree: Tree)
    ensures Steps(actions, tree, false) + Measure(Run(actions, tree), tree.limit)
            <= 17 + 18 * tree.limit + 9 * Steps(actions, tree, true)
    decreases |actions|
  {
    if actions == [] {
      assert Run(actions, tree)[..0] == [];
      assert LeftAll([]) == 0;
    } else {
      hide Enabled, Step, Measure, Inv;
      var front, a := actions[..|actions| - 1], actions[|actions| - 1];
      RunsEnd(front, tree);
      RunKeeps(front, tree);
      if Enabled(Run(front, tree), a, tree.limit) { StepDecreases(Run(front, tree), a, tree.limit); }
    }
  }

  // ----- exactly when somebody is left waiting -----

  /** Nothing is left to happen but somebody calling, removing or creating a component: every hook has settled, every
      queue is idle. */
  ghost predicate AtRest(comps: seq<Comp>, limit: nat) {
    forall a :: Enabled(comps, a, limit) ==> a.Stop? || a.Call? || a.Spawn?
  }

  /** The child's on_stop() threw while its parent waited for it, and the parent is still there. */
  predicate LostToParent(comps: seq<Comp>, k: nat) {
    k < |comps| && comps[k].lost && 0 <= comps[k].own.parent < |comps| && !comps[comps[k].own.parent].stopped
  }

  /** An executor of the component threw with 'ready' gone, and neither 'ready' nor 'stop' has come since. */
  predicate Broken(comps: seq<Comp>, k: nat) { k < |comps| && comps[k].sign.failed && !comps[k].stopped }

  ghost predicate SomeLost(comps: seq<Comp>) { exists k: nat :: LostToParent(comps, k) || Broken(comps, k) }

  /** A component that is not settled can go on, or is broken, or waits for one further down - or for a lost one. */
  lemma {:induction false} Unsettled(comps: seq<Comp>, i: nat, limit: nat) returns (k: nat)
    requires Inv(comps) && AtRest(comps, limit) && i < |comps| && !Settled(comps[i])
    ensures LostToParent(comps, k) || (Broken(comps, k) && comps[k].phase == Idle && comps[k].queue == [])
    decreases |comps| - i
  {
    hide AtRest, Inv;
    var c := comps[i];
    LocalOf(comps, i);
    OwnAction(comps, i, limit);
    if c.phase == Idle {
      k := i;
    } else {
      var waits := if c.phase == RenderWait then c.watch.renderWait else c.watch.readyWait;
      k :| k in waits;
      WaitedFor(comps, i, k);
      if !comps[k].stopped { k := Unsettled(comps, k, limit); }
    }
  }

  lemma WaitedFor(comps: seq<Comp>, i: nat, k: nat)
    requires Inv(comps) && i < |comps| && (k in comps[i].watch.readyWait || k in comps[i].watch.renderWait)
    ensures i < k < |comps| && comps[k].own.parent == i && !Ready(comps[k].sign) && (comps[k].stopped ==> comps[k].lost)
  {
    LocalOf(comps, i);
    assert k in Family(comps[i]);
    LocalOf(comps, k);
    assert Knows(i, comps[i], k, comps[k]);
  }

  lemma OwnAction(comps: seq<Comp>, i: nat, limit: nat)
    requires AtRest(comps, limit) && i < |comps| && Local(comps[i])
    ensures var c := comps[i];
            || (c.phase == Idle && c.queue == [])
            || (c.phase == RenderWait && c.watch.renderWait != {}) || (c.phase == ReadyWait && c.watch.readyWait != {})
  {
    var a := match comps[i].phase
      case Rendering => EndRender(i, Returns)
      case Loading => EndLoad(i, Returns, Rerender)
      case Rerendering => EndRerender(i, Returns)
      case Yielding => EndYield(i)
      case RenderWait => EndRenderWait(i)
      case ReadyWait => EndReadyWait(i)
      case InOnReady => EndOnReady(i, Returns)
      case Idle => StartNext(i, false);
    assert !Enabled(comps, a, limit);
  }

  /** Whom a lost child leaves waiting, and a broken one, are not settled. */
  lemma LostLeavesOne(comps: seq<Comp>, k: nat) returns (i: nat)
    requires Inv(comps) && (LostToParent(comps, k) || Broken(comps, k))
    ensures i < |comps| && !Settled(comps[i])
  {
    i := if Broken(comps, k) then k else comps[k].own.parent;
    LocalOf(comps, i);
    if !Broken(comps, k) { assert Knows(i, comps[i], k, comps[k]); }
  }

  /** When everything has come to rest, every component is ready or stopped exactly if there is no child whose on_stop()
      threw while its parent, still there, waited for it, and none whose render() or reload() threw with
      'ready' gone. */
  lemma {:induction false} RestIsSettled(actions: seq<Action>, tree: Tree)
    requires AtRest(Run(actions, tree), tree.limit)
    ensures var comps := Run(actions, tree);
            (forall i :: 0 <= i < |comps| ==> Settled(comps[i])) <==> !SomeLost(comps)
  {
    RunKeeps(actions, tree);
    hide Inv, AtRest, Run;
    var comps := Run(actions, tree);
    if k: nat :| LostToParent(comps, k) || Broken(comps, k) {
      var i := LostLeavesOne(comps, k);
    } else {
      forall i | 0 <= i < |comps| ensures Settled(comps[i]) {
        if !Settled(comps[i]) { var k := Unsettled(comps, i, tree.limit); }
      }
    }
  }

  // ----- no deadlock -----

  predicate StopThrows(a: Action) {
    match a
    case EndRender(_, outcome) => outcome.Throws? && outcome.stopThrows
    case EndLoad(_, outcome, _) => outcome.Throws? && outcome.stopThrows
    case EndRerender(_, outcome) => outcome.Throws? && outcome.stopThrows
    case EndOnReady(_, outcome) => outcome.Throws? && outcome.stopThrows
    case Stop(_, throws) => throws
    case _ => false
  }

  /** The executor of a render() throws; those of boot, reload(), refresh() and load() may. */
  predicate RenderThrows(comps: seq<Comp>, a: Action) {
    (a.EndRerender? || a.EndOnReady?) && a.outcome.Throws? && a.c < |comps| && comps[a.c].kind == Rendered
  }

  /** No on_stop() throws, nor does a render() after boot. */
  predicate Tame(actions: seq<Action>, tree: Tree) {
    forall n :: 0 <= n < |actions| ==> !StopThrows(actions[n]) && !RenderThrows(Run(actions[..n], tree), actions[n])
  }

  /** A component that idles without 'ready' has a render() waiting, or owes it; so does a reload that found none. */
  predicate Hopeful(c: Comp) {
    && !c.lost
    && (!c.stopped && (if c.phase.Idle? || c.kind.Loaded? then !Ready(c.sign) else Reloads(c.kind) && !c.sign.was) ==>
        Rendered in c.queue || c.sign.owed)
  }

  lemma EndsHopeful(c: Comp, d: Comp, fired: bool)
    requires !d.lost && !d.stopped && (Ready(d.sign) || Rendered in d.queue || d.sign.owed)
    ensures Hopeful(Ends(d, fired).comp)
  {
  }

  lemma StoppedHopeful(c: Comp, fired: bool)
    requires Hopeful(c) && c.stopped
    ensures Hopeful(Ends(c, fired).comp)
  {
  }

  lemma PointsHopeful(c: Comp)
    requires !c.lost && !c.stopped
    ensures Hopeful(Points(c).comp)
  {
    hide Ends;
    if c.sign.owed { EndsHopeful(c, c, false); } else { EndsHopeful(c, Fire(c), true); }
  }

  /** A reload that found the component ready puts 'ready' back; otherwise a render() is still to come. */
  lemma BreaksHopeful(c: Comp, late: bool)
    requires Hopeful(c) && Reloads(c.kind) && !c.phase.Idle?
    ensures Hopeful(Breaks(c, late).comp)
  {
    hide Ends;
    if c.stopped {
      StoppedHopeful(Failed(c, c.sign.atReady && !late), false);
    } else if c.sign.was {
      EndsHopeful(c, Restored(c), true);
    } else {
      EndsHopeful(c, Failed(c, c.sign.atReady && !late), false);
    }
  }

  lemma CallHopeful(c: Comp, kind: Kind, cached: bool)
    requires Hopeful(c) && Local(c) && !c.stopped && kind != Booted
    ensures Hopeful(Called(c, kind, cached))
  {
    NoBooted(c);
    QueuedParts(c.queue, kind);
    hide Queued;
  }

  lemma NextHopeful(c: Comp, cached: bool)
    requires Hopeful(c) && c.phase.Idle? && c.queue != [] && Booted !in c.queue
    ensures Hopeful(NextStarts(c, cached).comp)
  {
    assert c.queue == [c.queue[0]] + c.queue[1..];
  }

  lemma FetchHopeful(c: Comp, outcome: Outcome, next: Next, unready: set<nat>)
    requires Hopeful(c) && (Reloads(c.kind) || c.kind.Loaded?) && c.phase.Loading?
    ensures Hopeful(FetchEnds(c, outcome, next, unready).comp)
  {
    hide Breaks, Ends, Points;
    if c.stopped { StoppedHopeful(c, false); }
    if c.kind == Loaded {
      if !c.stopped { EndsHopeful(c, c, false); }
    } else if outcome.Throws? {
      BreaksHopeful(c, outcome.late);
    } else if !c.stopped && next == Nothing {
      PointsHopeful(if c.own.hasLoad then Unready(c) else c);
    }
  }

  lemma RerenderHopeful(c: Comp, outcome: Outcome, unready: set<nat>, awaited: bool)
    requires !c.kind.Loaded? && Hopeful(c) && c.phase.Rerendering?
    requires !(outcome.Throws? && (outcome.stopThrows || c.kind == Rendered))
    ensures Hopeful(RerenderEnds(c, outcome, unready, awaited).comp)
  {
    hide Breaks, Ends;
    if Reloads(c.kind) && outcome.Throws? { BreaksHopeful(c, outcome.late); }
    if c.stopped { StoppedHopeful(c, false); }
  }

  lemma OnReadyHopeful(c: Comp, outcome: Outcome, awaited: bool)
    requires !c.kind.Loaded? && Hopeful(c) && c.phase.InOnReady?
    requires !(outcome.Throws? && (outcome.stopThrows || c.kind == Rendered))
    ensures Hopeful(OnReadyEnds(c, outcome, awaited).comp)
  {
    hide Breaks, Ends, Points;
    if Reloads(c.kind) && outcome.Throws? { BreaksHopeful(c, outcome.late); }
    if c.stopped { StoppedHopeful(c, false); } else { PointsHopeful(c); }
  }

  lemma BootHopeful(c: Comp, outcome: Outcome, next: Next, awaited: bool)
    requires Hopeful(c) && Local(c) && c.kind.Booted? && !(outcome.Throws? && outcome.stopThrows)
    ensures c.phase.Rendering? ==> Hopeful(RenderEnds(c, outcome, awaited).comp)
    ensures c.phase.Loading? ==> Hopeful(LoadEnds(c, outcome, next, awaited).comp)
  {
  }

  lemma WaitsHopeful(c: Comp, unready: set<nat>, unrendered: set<nat>)
    requires Hopeful(c)
    ensures c.phase.Yielding? && c.kind.Booted? ==> Hopeful(YieldEnds(c, unrendered, unready).comp)
    ensures c.phase.RenderWait? && c.kind.Booted? ==> Hopeful(RenderWaitEnds(c, unready).comp)
    ensures c.phase.ReadyWait? ==> Hopeful(ReadyWaitEnds(c).comp)
  {
    hide Ends;
    if c.stopped { StoppedHopeful(c, false); }
  }

  lemma KindOf(c: Comp)
    requires Local(c)
    ensures c.phase.Rendering? || c.phase.Yielding? || c.phase.RenderWait? ==> c.kind.Booted?
    ensures c.kind.Rendered? ==> !c.phase.Loading?
    ensures c.kind.Loaded? ==> c.phase.Loading? || c.phase.Idle?
  {
  }

  lemma SegmentHopeful(comps: seq<Comp>, a: Action, limit: nat)
    requires Enabled(comps, a, limit) && !a.Spawn? && Local(comps[a.c]) && Hopeful(comps[a.c])
    requires !StopThrows(a) && !RenderThrows(comps, a)
    ensures Hopeful(Segment(comps, a, limit).comp)
  {
    var c := comps[a.c];
    NoBooted(c);
    KindOf(c);
    hide UnreadyKids, UnrenderedKids, Awaited, Called, NextStarts, RenderEnds, LoadEnds, FetchEnds, RerenderEnds,
      YieldEnds, RenderWaitEnds, ReadyWaitEnds, OnReadyEnds, Hopeful, Local;
    var s, t, awaited := UnreadyKids(comps, c.watch.kids), UnrenderedKids(comps, c.watch.kids), Awaited(comps, a.c);
    match a
    case Call(_, call, cached) => CallHopeful(c, call, cached);
    case StartNext(_, cached) => NextHopeful(c, cached);
    case EndRender(_, outcome) => BootHopeful(c, outcome, Nothing, awaited);
    case EndLoad(_, outcome, next) =>
      if c.kind.Booted? { BootHopeful(c, outcome, next, awaited); } else { FetchHopeful(c, outcome, next, s); }
    case EndRerender(_, outcome) => RerenderHopeful(c, outcome, s, awaited);
    case EndOnReady(_, outcome) => OnReadyHopeful(c, outcome, awaited);
    case EndYield(_) | EndRenderWait(_) | EndReadyWait(_) => WaitsHopeful(c, s, t);
    case Stop(_, _) => StopHopeful(c, awaited);
  }

  lemma StopHopeful(c: Comp, awaited: bool)
    requires Hopeful(c) && !c.stopped
    ensures Hopeful(StopSelf(c, false, awaited).comp)
  {
  }

  predicate AllHopeful(comps: seq<Comp>) { forall i :: 0 <= i < |comps| ==> Hopeful(comps[i]) }

  lemma StepHopeful(comps: seq<Comp>, a: Action, limit: nat)
    requires Inv(comps) && Enabled(comps, a, limit) && AllHopeful(comps) && !StopThrows(a) && !RenderThrows(comps, a)
    ensures AllHopeful(Step(comps, a, limit))
  {
    if !a.Spawn? {
      LocalOf(comps, a.c);
      SegmentHopeful(comps, a, limit);
      hide Segment, Inv, Local, Enabled, StopThrows, RenderThrows, Noted;
      var after := Segment(comps, a, limit);
      forall i | 0 <= i < |comps| ensures Hopeful(Step(comps, a, limit)[i]) {
        assert Hopeful(if i == a.c then after.comp else comps[i]);
      }
    }
  }

  lemma {:induction false} RunHopeful(actions: seq<Action>, tree: Tree)
    requires Tame(actions, tree)
    ensures AllHopeful(Run(actions, tree))
    decreases |actions|
  {
    if actions != [] {
      var front, a := actions[..|actions| - 1], actions[|actions| - 1];
      forall n | 0 <= n < |front| ensures front[..n] == actions[..n] && front[n] == actions[n] {}
      assert !StopThrows(a) && !RenderThrows(Run(front, tree), a);
      RunHopeful(front, tree);
      RunKeeps(front, tree);
      hide Enabled, Step, Inv, AllHopeful, Tame, StopThrows, RenderThrows;
      if Enabled(Run(front, tree), a, tree.limit) { StepHopeful(Run(front, tree), a, tree.limit); }
    }
  }

  /** Without a throwing on_stop() and without a render() that throws, a tree whose hooks all end - boot's and
      reload()'s by throwing, if they like - comes to rest with every component ready or stopped, whatever was removed
      or called on the way. */
  lemma {:induction false} NoDeadlock(actions: seq<Action>, tree: Tree)
    requires Tame(actions, tree) && AtRest(Run(actions, tree), tree.limit)
    ensures var comps := Run(actions, tree); forall i :: 0 <= i < |comps| ==> Settled(comps[i])
  {
    RunKeeps(actions, tree);
    RunHopeful(actions, tree);
    hide Inv, AtRest, Run, Tame;
    var comps := Run(actions, tree);
    forall i | 0 <= i < |comps| ensures Settled(comps[i]) {
      if !Settled(comps[i]) {
        var k := Unsettled(comps, i, tree.limit);
        HopefulSettles(comps, k);
      }
    }
  }

  lemma HopefulSettles(comps: seq<Comp>, k: nat)
    requires Inv(comps) && AllHopeful(comps)
    ensures !LostToParent(comps, k)
    ensures !(Broken(comps, k) && comps[k].phase == Idle && comps[k].queue == [])
  {
    if k < |comps| { LocalOf(comps, k); }
    hide Inv;
  }
}

/** What every step of a tree of components keeps. */
module BootSteps {
  import opened Boot
  import opened BootRuns

  /** Ready, or dead: nobody who asks this component waits. */
  predicate Settled(c: Comp) { Ready(c.sign) || c.stopped }

  // ----- invariants -----

  predicate InBoot(c: Comp) { c.kind.Booted? && !c.phase.Idle? }

  /** Past its last render, as far as boot goes. */
  predicate Late(phase: Phase) { phase.Yielding? || phase.RenderWait? || phase.ReadyWait? || phase.InOnReady? }

  /** Nothing runs that touches 'ready'. */
  predicate Resting(c: Comp) { (c.phase.Idle? || c.kind.Loaded?) && !c.stopped }

  /** What a component's own fields say about its phase. */
  predicate Local(c: Comp) {
    && Booted !in c.queue
    && (InBoot(c) ==> !c.sign.atReady && !c.sign.marker && !c.sign.owed)
    && (c.kind.Booted? ==> !c.sign.failed)
    && (c.phase.Rendering? || c.phase.Yielding? || c.phase.RenderWait? ==> c.kind.Booted?)
    && (c.kind.Rendered? ==> !c.phase.Loading?)
    && (c.phase.ReadyWait? || c.phase.InOnReady? ==> !c.sign.atReady)
    && (c.sign.failed ==> !Ready(c.sign))
    && (c.lost ==> c.stopped)
    && (c.watch.readyWait != {} ==> c.phase.ReadyWait?)
    && (c.watch.renderWait != {} ==> c.phase.RenderWait?)
    && (c.kind.Loaded? ==> c.phase.Loading? || c.phase.Idle?)
    && (c.phase.Idle? && c.queue == [] && !c.stopped ==> !c.sign.owed)
    && (Resting(c) ==> Ready(c.sign) || c.sign.failed || c.sign.owed || Rendered in c.queue)
    && (c.sign.atReady || c.sign.marker || Late(c.phase) || !c.kind.Booted? || (c.phase.Idle? && !c.stopped) ==>
        c.renderDone)
  }

  /** What component `i` knows about component `k`: its children are younger and know it; ... */
  predicate KnowsKid(i: nat, c: Comp, k: nat, d: Comp) { k in Family(c) ==> i < k && d.own.parent == i }

  function Family(c: Comp): set<nat> { c.watch.kids + c.watch.found + c.watch.readyWait + c.watch.renderWait }

  /** ... those it waits for have not fired what it waits for, nor stopped with an event; ... */
  predicate KnowsUnready(c: Comp, k: nat, d: Comp) {
    k in c.watch.readyWait ==> !d.sign.atReady && !d.sign.marker && (d.stopped ==> d.lost)
  }

  predicate KnowsUndrawn(c: Comp, k: nat, d: Comp) {
    k in c.watch.renderWait ==> !d.renderDone && (d.stopped ==> d.lost)
  }

  /** ... and a child lost to it is one it waits for. */
  predicate KnowsLost(i: nat, c: Comp, k: nat, d: Comp) {
    d.lost && d.own.parent == i ==> k in c.watch.readyWait || k in c.watch.renderWait
  }

  predicate Knows(i: nat, c: Comp, k: nat, d: Comp) {
    KnowsKid(i, c, k, d) && KnowsUnready(c, k, d) && KnowsUndrawn(c, k, d) && KnowsLost(i, c, k, d)
  }

  ghost predicate Bounded(c: Comp, n: nat) { c.own.parent < n && forall k :: k in Family(c) ==> k < n }

  ghost predicate Inv(comps: seq<Comp>) {
    && (forall i :: 0 <= i < |comps| ==> Local(comps[i]) && Bounded(comps[i], |comps|))
    && (forall i: nat, k: nat :: i < |comps| && k < |comps| ==> Knows(i, comps[i], k, comps[k]))
  }

  lemma SpawnKeeps(comps: seq<Comp>, a: Action, limit: nat)
    requires Inv(comps) && Enabled(comps, a, limit) && a.Spawn?
    ensures Inv(Step(comps, a, limit))
  {
    var after := Step(comps, a, limit);
    forall i: nat, k: nat | i < |after| && k < |after| ensures Knows(i, after[i], k, after[k]) {
      assert i < |comps| && k < |comps| ==> Knows(i, comps[i], k, comps[k]);
      assert i < |comps| ==> Bounded(comps[i], |comps|);
      assert k < |comps| ==> Bounded(comps[k], |comps|);
    }
    forall i | 0 <= i < |after| ensures Local(after[i]) && Bounded(after[i], |after|) {
      assert i < |comps| ==> Local(comps[i]) && Bounded(comps[i], |comps|);
    }
  }

  /** What one segment does to its component: how it stops - `awaited` says that its parent waits for it -, ... */
  predicate Lives(c: Comp, after: After, awaited: bool) {
    var d := after.comp;
    && d.own.parent == c.own.parent && (d.watch.kids == c.watch.kids || d.watch.kids == {})
    && (c.stopped ==> d.stopped && d.lost == c.lost && after.event != Stopped)
    && (d.stopped && !c.stopped && d.lost ==> awaited && after.event == Silent)
    && (d.stopped && !c.stopped && !d.lost ==> after.event == Stopped || !awaited)
    && (after.event == Stopped ==> d.stopped)
  }

  /** ... what it fires when it becomes ready or is drawn, ... */
  predicate Readies(c: Comp, after: After) {
    var d := after.comp;
    && ((!c.sign.atReady && d.sign.atReady) || (!c.sign.marker && d.sign.marker) ==> after.event == Readied)
    && (!c.renderDone && d.renderDone ==> after.event == Drew)
    && (c.renderDone ==> d.renderDone) && (after.event == Drew ==> d.renderDone && !d.stopped)
    && (after.event == Readied ==> Ready(d.sign) && !d.stopped)
  }

  /** ... and whom it waits for. */
  predicate Waits(c: Comp, d: Comp, unready: set<nat>, unrendered: set<nat>) {
    && (d.watch.renderWait == c.watch.renderWait ||
        (c.watch.renderWait == {} && c.watch.readyWait == {} && d.watch.renderWait == unrendered))
    && ((d.watch.found == c.watch.found && d.watch.readyWait == c.watch.readyWait && d.watch.looks == c.watch.looks)
        || (c.watch.readyWait == {} && c.watch.renderWait == {} && d.watch.found == c.watch.kids &&
            d.watch.readyWait == unready && d.watch.looks == c.watch.looks + 1))
  }

  predicate Moves(c: Comp, after: After, unready: set<nat>, unrendered: set<nat>, awaited: bool) {
    Local(after.comp) && Lives(c, after, awaited) && Readies(c, after) && Waits(c, after.comp, unready, unrendered)
  }

  /** An executor's end; `c` is the component before the segment, `d` with what the segment did to its ready state. */
  lemma EndsMoves(c: Comp, d: Comp, fired: bool, s: set<nat>, t: set<nat>, awaited: bool)
    requires Local(c) && !c.kind.Booted? && !c.phase.Idle? && c.watch.readyWait == {} && c.watch.renderWait == {}
    requires d == c.(sign := d.sign) && (d.sign.failed ==> !Ready(d.sign))
    requires d.sign.owed || Ready(d.sign) || d.sign.failed || c.stopped || Rendered in c.queue
    requires fired ==> Ready(d.sign) && !c.stopped
    requires !fired ==> (d.sign.atReady ==> c.sign.atReady) && (d.sign.marker ==> c.sign.marker)
    ensures Moves(c, Ends(d, fired), s, t, awaited)
  {
  }

  lemma StopMoves(c: Comp, throws: bool, s: set<nat>, t: set<nat>, awaited: bool)
    requires Local(c) && !c.stopped
    ensures Moves(c, StopSelf(c, throws, awaited), s, t, awaited)
  {
  }

  lemma FailMoves(c: Comp, throws: bool, s: set<nat>, t: set<nat>, awaited: bool)
    requires Local(c) && InBoot(c) && c.watch.readyWait == {} && c.watch.renderWait == {}
    ensures Moves(c, Fail(c, throws, awaited), s, t, awaited)
  {
  }

  /** A call that waits or merges. */
  lemma QueuedMoves(c: Comp, kind: Kind, queue: seq<Kind>, s: set<nat>, t: set<nat>, awaited: bool)
    requires Local(c) && !c.stopped && queue != [] && Booted !in queue
    requires (!c.phase.Idle? || c.queue != []) && kind in queue && (Rendered in c.queue ==> Rendered in queue)
    ensures Moves(c, After(Invalidated(c, kind).(queue := queue), Silent), s, t, awaited)
  {
  }

  /** An executor starts: of a call made now, or of the oldest one waiting. */
  lemma StartsMoves(c: Comp, d: Comp, kind: Kind, cached: bool, s: set<nat>, t: set<nat>, awaited: bool)
    requires Local(c) && c.phase.Idle? && !c.stopped && kind != Booted && Booted !in d.queue
    requires d == c.(queue := d.queue, sign := c.sign.(marker := d.sign.marker)) && (d.sign.marker ==> c.sign.marker)
    requires kind.Loaded? ==> Ready(d.sign) || d.sign.failed || d.sign.owed || Rendered in d.queue
    ensures Moves(c, After(Starts(d, kind, cached), Silent), s, t, awaited)
  {
  }

  lemma QueuedParts(queue: seq<Kind>, kind: Kind)
    requires Booted !in queue && kind != Booted
    ensures Queued(queue, kind) != [] && Booted !in Queued(queue, kind)
    ensures |queue| <= |Queued(queue, kind)| <= |queue| + 1
    ensures forall k :: k in queue ==> k in Queued(queue, kind)
    ensures kind in Queued(queue, kind)
  {
  }

  lemma CallMoves(c: Comp, kind: Kind, cached: bool, s: set<nat>, t: set<nat>, awaited: bool)
    requires Local(c) && kind != Booted && !c.stopped
    ensures Moves(c, After(Called(c, kind, cached), Silent), s, t, awaited)
  {
    NoBooted(c);
    QueuedParts(c.queue, kind);
    hide Local, Moves, Queued, Starts;
    if c.phase == Idle && c.queue == [] {
      assert kind.Loaded? ==> Ready(c.sign) || c.sign.failed || c.sign.owed by { RestingNow(c); }
      StartsMoves(c, Invalidated(c, kind), kind, cached, s, t, awaited);
    } else {
      assert c.queue == [] ==> !c.phase.Idle?;
      QueuedMoves(c, kind, Queued(c.queue, kind), s, t, awaited);
    }
  }

  lemma NoBooted(c: Comp)
    requires Local(c)
    ensures Booted !in c.queue
  {
  }

  lemma RestingNow(c: Comp)
    requires Local(c) && c.phase.Idle? && !c.stopped
    ensures Ready(c.sign) || c.sign.failed || c.sign.owed || Rendered in c.queue
  {
    assert Resting(c);
  }

  lemma NextMoves(c: Comp, cached: bool, s: set<nat>, t: set<nat>, awaited: bool)
    requires Local(c) && c.phase.Idle? && c.queue != []
    ensures Booted !in c.queue && Moves(c, NextStarts(c, cached), s, t, awaited)
  {
    NoBooted(c);
    assert c.queue[0] in c.queue;
    var d := c.(queue := c.queue[1..]);
    assert Booted !in d.queue;
    if c.stopped {
      DroppedMoves(c, d.queue, s, t, awaited);
    } else {
      RestingNow(c);
      assert Rendered in c.queue && c.queue[0] != Rendered ==> Rendered in d.queue;
      hide Local, Moves, Starts;
      StartsMoves(c, d, c.queue[0], cached, s, t, awaited);
    }
  }

  lemma DroppedMoves(c: Comp, rest: seq<Kind>, s: set<nat>, t: set<nat>, awaited: bool)
    requires Local(c) && c.phase.Idle? && c.stopped && Booted !in rest
    ensures Moves(c, After(c.(queue := rest), Silent), s, t, awaited)
  {
  }

  predicate InCall(c: Comp) { !c.kind.Booted? && !c.phase.Idle? && c.watch.readyWait == {} && c.watch.renderWait == {} }

  lemma InCallNow(c: Comp)
    requires Local(c) && !c.kind.Booted? && (c.phase.Loading? || c.phase.Rerendering? || c.phase.InOnReady?)
    ensures InCall(c)
  {
  }

  lemma BreaksMoves(c: Comp, late: bool, s: set<nat>, t: set<nat>, awaited: bool)
    requires Local(c) && InCall(c)
    ensures Moves(c, Breaks(c, late), s, t, awaited)
  {
    NotReadyFailed(c);
    hide Ends, Moves, Local;
    if Reloads(c.kind) && c.sign.was && !c.stopped {
      EndsMoves(c, Restored(c), true, s, t, awaited);
    } else {
      EndsMoves(c, Failed(c, c.sign.atReady && !late), false, s, t, awaited);
    }
  }

  lemma PointsMoves(c: Comp, d: Comp, s: set<nat>, t: set<nat>, awaited: bool)
    requires Local(c) && InCall(c) && !c.stopped && d == c.(sign := c.sign.(atReady := d.sign.atReady))
    requires d.sign.atReady ==> c.sign.atReady
    ensures Moves(c, Points(d), s, t, awaited)
  {
    NotReadyFailed(c);
    hide Ends, Moves, Local;
    if d.sign.owed { EndsMoves(c, d, false, s, t, awaited); } else { EndsMoves(c, Fire(d), true, s, t, awaited); }
  }

  lemma NotReadyFailed(c: Comp)
    requires Local(c)
    ensures c.sign.failed ==> !Ready(c.sign)
  {
  }

  lemma LoadMoves(c: Comp, outcome: Outcome, next: Next, s: set<nat>, t: set<nat>, awaited: bool)
    requires Local(c) && c.phase.Loading? && c.kind.Booted?
    ensures Moves(c, LoadEnds(c, outcome, next, awaited), s, t, awaited)
  {
    hide Fail;
    if outcome.Throws? { FailMoves(c, outcome.stopThrows, s, t, awaited); }
  }

  lemma StoppedMoves(c: Comp, s: set<nat>, t: set<nat>, awaited: bool)
    requires Local(c) && InCall(c) && c.stopped
    ensures Moves(c, Ends(c, false), s, t, awaited)
  {
    NotReadyFailed(c);
    hide Ends, Moves, Local;
    EndsMoves(c, c, false, s, t, awaited);
  }

  lemma LoadedMoves(c: Comp, s: set<nat>, t: set<nat>, awaited: bool)
    requires Local(c) && InCall(c) && c.kind.Loaded?
    ensures Moves(c, Ends(c, false), s, t, awaited)
  {
    NotReadyFailed(c);
    assert Resting(c) || c.stopped;
    hide Ends, Moves, Ready;
    EndsMoves(c, c, false, s, t, awaited);
  }

  lemma FetchMoves(c: Comp, outcome: Outcome, next: Next, s: set<nat>, t: set<nat>, awaited: bool)
    requires Local(c) && c.phase.Loading? && !c.kind.Booted?
    ensures Moves(c, FetchEnds(c, outcome, next, s), s, t, awaited)
  {
    InCallNow(c);
    hide Breaks, Points, Ends, Moves, Local, InCall;
    if c.kind == Loaded {
      LoadedMoves(c, s, t, awaited);
    } else if outcome.Throws? {
      BreaksMoves(c, outcome.late, s, t, awaited);
    } else if c.stopped {
      StoppedMoves(c, s, t, awaited);
    } else {
      match next
      case Nothing => PointsMoves(c, if c.own.hasLoad then Unready(c) else c, s, t, awaited);
      case Rerender => FetchedRerender(c, s, t, awaited);
      case WaitOnly => FetchedWait(c, s, t, awaited);
    }
  }

  lemma FetchedRerender(c: Comp, s: set<nat>, t: set<nat>, awaited: bool)
    requires Local(c) && c.phase.Loading? && !c.kind.Booted? && !c.kind.Loaded? && !c.stopped
    ensures Moves(c, FetchEnds(c, Returns, Rerender, s), s, t, awaited)
  {
  }

  lemma FetchedWait(c: Comp, s: set<nat>, t: set<nat>, awaited: bool)
    requires Local(c) && c.phase.Loading? && !c.kind.Booted? && !c.kind.Loaded? && !c.stopped
    ensures Moves(c, FetchEnds(c, Returns, WaitOnly, s), s, t, awaited)
  {
  }

  lemma RerenderMoves(c: Comp, outcome: Outcome, s: set<nat>, t: set<nat>, awaited: bool)
    requires Local(c) && c.phase.Rerendering?
    ensures Moves(c, RerenderEnds(c, outcome, s, awaited), s, t, awaited)
  {
    if c.kind.Booted? {
      if outcome.Throws? {
        FailMoves(c, outcome.stopThrows, s, t, awaited);
      } else {
        BootRerenderMoves(c, s, t, awaited);
      }
    } else {
      InCallNow(c);
      hide Breaks, Moves, Local, InCall;
      if outcome.Throws? { BreaksMoves(c, outcome.late, s, t, awaited); } else { CallRerenderMoves(c, s, t, awaited); }
    }
  }

  lemma BootRerenderMoves(c: Comp, s: set<nat>, t: set<nat>, awaited: bool)
    requires Local(c) && c.phase.Rerendering? && c.kind.Booted?
    ensures Moves(c, RerenderEnds(c, Returns, s, awaited), s, t, awaited)
  {
  }

  lemma CallRerenderMoves(c: Comp, s: set<nat>, t: set<nat>, awaited: bool)
    requires Local(c) && c.phase.Rerendering? && !c.kind.Booted?
    ensures Moves(c, RerenderEnds(c, Returns, s, awaited), s, t, awaited)
  {
    if c.stopped { StoppedMoves(c, s, t, awaited); }
  }

  lemma OnReadyMoves(c: Comp, outcome: Outcome, s: set<nat>, t: set<nat>, awaited: bool)
    requires Local(c) && c.phase.InOnReady?
    ensures Moves(c, OnReadyEnds(c, outcome, awaited), s, t, awaited)
  {
    if c.kind.Booted? {
      BootReadyMoves(c, outcome, s, t, awaited);
    } else {
      InCallNow(c);
      hide Breaks, Points, Ends, Moves, Local, InCall;
      if outcome.Throws? {
        BreaksMoves(c, outcome.late, s, t, awaited);
      } else if c.stopped {
        StoppedMoves(c, s, t, awaited);
      } else {
        PointsMoves(c, c, s, t, awaited);
      }
    }
  }

  lemma BootReadyMoves(c: Comp, outcome: Outcome, s: set<nat>, t: set<nat>, awaited: bool)
    requires Local(c) && c.phase.InOnReady? && c.kind.Booted?
    ensures Moves(c, OnReadyEnds(c, outcome, awaited), s, t, awaited)
  {
    hide Fail;
    if outcome.Throws? { FailMoves(c, outcome.stopThrows, s, t, awaited); }
  }

  lemma WaitsMove(c: Comp, s: set<nat>, t: set<nat>, awaited: bool)
    requires Local(c)
    ensures c.phase == Yielding ==> Moves(c, YieldEnds(c, t, s), s, t, awaited)
    ensures c.phase == RenderWait && c.watch.renderWait == {} ==> Moves(c, RenderWaitEnds(c, s), s, t, awaited)
    ensures c.phase == ReadyWait && c.watch.readyWait == {} ==> Moves(c, ReadyWaitEnds(c), s, t, awaited)
  {
  }

  lemma RenderMoves(c: Comp, outcome: Outcome, s: set<nat>, t: set<nat>, awaited: bool)
    requires Local(c) && c.phase == Rendering
    ensures Moves(c, RenderEnds(c, outcome, awaited), s, t, awaited)
  {
    hide Fail;
    if outcome.Throws? { FailMoves(c, outcome.stopThrows, s, t, awaited); }
  }

  lemma SegmentMoves(comps: seq<Comp>, a: Action, limit: nat)
    requires Enabled(comps, a, limit) && !a.Spawn? && Local(comps[a.c])
    ensures var c := comps[a.c];
            Moves(c, Segment(comps, a, limit), UnreadyKids(comps, c.watch.kids), UnrenderedKids(comps, c.watch.kids),
                Awaited(comps, a.c))
  {
    hide UnreadyKids, UnrenderedKids, Awaited, Moves, Local, Called, NextStarts, RenderEnds, LoadEnds, FetchEnds,
      RerenderEnds, YieldEnds, RenderWaitEnds, ReadyWaitEnds, OnReadyEnds, StopSelf;
    var c := comps[a.c];
    var s, t, awaited := UnreadyKids(comps, c.watch.kids), UnrenderedKids(comps, c.watch.kids), Awaited(comps, a.c);
    match a
    case Call(_, call, cached) => CallMoves(c, call, cached, s, t, awaited);
    case StartNext(_, cached) => NextMoves(c, cached, s, t, awaited);
    case EndRender(_, outcome) => RenderMoves(c, outcome, s, t, awaited);
    case EndLoad(_, outcome, next) =>
      if c.kind == Booted {
        LoadMoves(c, outcome, next, s, t, awaited);
      } else {
        FetchMoves(c, outcome, next, s, t, awaited);
      }
    case EndRerender(_, outcome) => RerenderMoves(c, outcome, s, t, awaited);
    case EndYield(_) => WaitsMove(c, s, t, awaited);
    case EndRenderWait(_) => WaitsMove(c, s, t, awaited);
    case EndReadyWait(_) => WaitsMove(c, s, t, awaited);
    case EndOnReady(_, outcome) => OnReadyMoves(c, outcome, s, t, awaited);
    case Stop(_, throws) => StopMoves(c, throws, s, t, awaited);
  }

  // ----- a step of the tree -----

  /** What everyone sees of the component that moves. */
  ghost predicate Moved(comps: seq<Comp>, c: nat, after: After)
    requires c < |comps|
  {
    Moves(comps[c], after, UnreadyKids(comps, comps[c].watch.kids), UnrenderedKids(comps, comps[c].watch.kids),
        Awaited(comps, c))
  }

  lemma MovedParts(comps: seq<Comp>, c: nat, after: After)
    requires c < |comps| && Moved(comps, c, after)
    ensures Local(after.comp) && Lives(comps[c], after, Awaited(comps, c))
    ensures Waits(comps[c], after.comp, UnreadyKids(comps, comps[c].watch.kids),
            UnrenderedKids(comps, comps[c].watch.kids))
  {
    hide Local, Lives, Waits, Readies;
  }

  /** Nobody comes into a family by hearing of others, or by a segment. */
  lemma HeardFamily(comp: Comp, c: nat, event: Event)
    ensures Family(Heard(comp, c, event)) <= Family(comp) && Heard(comp, c, event).own.parent == comp.own.parent
  {
  }

  lemma MoverFamily(comps: seq<Comp>, c: nat, after: After)
    requires c < |comps| && Lives(comps[c], after, Awaited(comps, c))
    requires Waits(comps[c], after.comp, UnreadyKids(comps, comps[c].watch.kids),
             UnrenderedKids(comps, comps[c].watch.kids))
    ensures Family(after.comp) <= Family(comps[c]) && after.comp.own.parent == comps[c].own.parent
  {
    hide Awaited;
    var kids := comps[c].watch.kids;
    assert UnreadyKids(comps, kids) <= kids && UnrenderedKids(comps, kids) <= kids;
  }

  lemma AppliedFamily(comps: seq<Comp>, c: nat, after: After, i: nat)
    requires c < |comps| && i < |comps| && Moved(comps, c, after)
    ensures var r := Apply(comps, c, after); Family(r[i]) <= Family(comps[i]) && r[i].own.parent == comps[i].own.parent
  {
    MovedParts(comps, c, after);
    hide Moved, Family, Heard;
    MoverFamily(comps, c, after);
    HeardFamily(if i == c then after.comp else comps[i], c, after.event);
  }

  lemma KidsKnown(comps: seq<Comp>, c: nat, after: After, i: nat, k: nat)
    requires Inv(comps) && c < |comps| && i < |comps| && k < |comps| && Moved(comps, c, after)
    ensures var r := Apply(comps, c, after); KnowsKid(i, r[i], k, r[k])
  {
    assert KnowsKid(i, comps[i], k, comps[k]) by { assert Knows(i, comps[i], k, comps[k]); }
    hide Inv, Moved, Family;
    AppliedFamily(comps, c, after, i);
    AppliedFamily(comps, c, after, k);
  }

  lemma UnreadyKnown(comps: seq<Comp>, c: nat, after: After, i: nat, k: nat)
    requires Inv(comps) && c < |comps| && i < |comps| && k < |comps| && Moved(comps, c, after)
    ensures var r := Apply(comps, c, after); KnowsUnready(r[i], k, r[k])
  {
    assert KnowsUnready(comps[i], k, comps[k]) &&
        KnowsKid(i, comps[i], k, comps[k]) by { assert Knows(i, comps[i], k, comps[k]); }
    Waiters(comps, c, i, k);
    hide Inv, Local, Awaited, UnrenderedKids;
  }

  lemma UndrawnKnown(comps: seq<Comp>, c: nat, after: After, i: nat, k: nat)
    requires Inv(comps) && c < |comps| && i < |comps| && k < |comps| && Moved(comps, c, after)
    ensures var r := Apply(comps, c, after); KnowsUndrawn(r[i], k, r[k])
  {
    assert KnowsUndrawn(comps[i], k, comps[k]) &&
        KnowsKid(i, comps[i], k, comps[k]) by { assert Knows(i, comps[i], k, comps[k]); }
    Waiters(comps, c, i, k);
    hide Inv, Local, Awaited, UnreadyKids;
  }

  /** Who waits for a component is its parent, and makes it awaited. */
  lemma Waiters(comps: seq<Comp>, c: nat, i: nat, k: nat)
    requires Inv(comps) && c < |comps| && i < |comps| && k < |comps|
    ensures k in comps[i].watch.readyWait || k in comps[i].watch.renderWait ==>
            comps[k].own.parent == i && Awaited(comps, k)
    ensures Awaited(comps, k) ==> 0 <= comps[k].own.parent < k
  {
    assert Knows(i, comps[i], k, comps[k]);
    var p := comps[k].own.parent;
    if 0 <= p < |comps| { assert Knows(p, comps[p], k, comps[k]); }
  }

  lemma LostKnown(comps: seq<Comp>, c: nat, after: After, i: nat, k: nat)
    requires Inv(comps) && c < |comps| && i < |comps| && k < |comps| && Moved(comps, c, after)
    ensures var r := Apply(comps, c, after); KnowsLost(i, r[i], k, r[k])
  {
    assert KnowsLost(i, comps[i], k, comps[k]) by { assert Knows(i, comps[i], k, comps[k]); }
    assert comps[k].lost ==> comps[k].stopped by { LocalOf(comps, k); }
    Waiters(comps, c, i, k);
    hide Inv, Local, UnreadyKids, UnrenderedKids;
  }

  lemma AppliedKnows(comps: seq<Comp>, c: nat, after: After, i: nat, k: nat)
    requires Inv(comps) && c < |comps| && i < |comps| && k < |comps| && Moved(comps, c, after)
    ensures var r := Apply(comps, c, after); Knows(i, r[i], k, r[k])
  {
    hide Inv, Moved, KnowsKid, KnowsUnready, KnowsUndrawn, KnowsLost;
    KidsKnown(comps, c, after, i, k);
    UnreadyKnown(comps, c, after, i, k);
    UndrawnKnown(comps, c, after, i, k);
    LostKnown(comps, c, after, i, k);
  }

  lemma HeardLocal(comp: Comp, c: nat, event: Event)
    requires Local(comp)
    ensures Local(Heard(comp, c, event))
  {
  }

  lemma AppliedLocal(comps: seq<Comp>, c: nat, after: After, i: nat)
    requires Inv(comps) && c < |comps| && i < |comps| && Local(after.comp)
    ensures Local(Apply(comps, c, after)[i])
  {
    LocalOf(comps, i);
    hide Inv, Local, Heard;
    HeardLocal(if i == c then after.comp else comps[i], c, after.event);
  }

  lemma AppliedBounded(comps: seq<Comp>, c: nat, after: After, i: nat)
    requires Inv(comps) && c < |comps| && i < |comps| && Moved(comps, c, after)
    ensures Bounded(Apply(comps, c, after)[i], |comps|)
  {
    LocalOf(comps, i);
    hide Inv, Local, Moved, Family;
    AppliedFamily(comps, c, after, i);
  }

  lemma ApplyKeeps(comps: seq<Comp>, c: nat, after: After)
    requires Inv(comps) && c < |comps| && Moved(comps, c, after)
    ensures Inv(Apply(comps, c, after))
  {
    hide Moved, Knows, Local, Bounded, Lives, Waits, UnreadyKids, UnrenderedKids, Awaited, Heard;
    var r := Apply(comps, c, after);
    forall i: nat, k: nat | i < |r| && k < |r| ensures Knows(i, r[i], k, r[k]) { AppliedKnows(comps, c, after, i, k); }
    assert Local(after.comp) by { MovedParts(comps, c, after); }
    forall i | 0 <= i < |r| ensures Local(r[i]) && Bounded(r[i], |r|) {
      AppliedLocal(comps, c, after, i);
      AppliedBounded(comps, c, after, i);
    }
  }

  lemma StepKeeps(comps: seq<Comp>, a: Action, limit: nat)
    requires Inv(comps) && Enabled(comps, a, limit)
    ensures Inv(Step(comps, a, limit))
  {
    hide Inv, Segment, Moves, Local;
    if a.Spawn? {
      SpawnKeeps(comps, a, limit);
    } else {
      LocalOf(comps, a.c);
      SegmentMoves(comps, a, limit);
      ApplyKeeps(comps, a.c, Segment(comps, a, limit));
    }
  }

  lemma LocalOf(comps: seq<Comp>, c: nat)
    requires Inv(comps) && c < |comps|
    ensures Local(comps[c]) && Bounded(comps[c], |comps|)
  {
  }

  lemma {:induction false} RunKeeps(actions: seq<Action>, tree: Tree)
    ensures Inv(Run(actions, tree))
    decreases |actions|
  {
    if actions == [] {
      assert Inv(Run([], tree));
    } else {
      hide Inv, Enabled, Step;
      RunKeeps(actions[..|actions| - 1], tree);
      var comps, a := Run(actions[..|actions| - 1], tree), actions[|actions| - 1];
      if Enabled(comps, a, tree.limit) { StepKeeps(comps, a, tree.limit); }
    }
  }
}

/** What a component of the tree has on record: its children, its ready state, and that a stop ends it. */
module BootRecords {
  import opened Boot
  import opened BootRuns
  import opened BootSteps

  // ----- a stopped component -----

  /** It is over, and no further into the ready state. */
  predicate Over(c: Comp, after: After) {
    && after.comp.stopped && after.comp.phase == Idle
    && (after.comp.sign.atReady ==> c.sign.atReady) && (after.comp.sign.marker ==> c.sign.marker)
  }

  lemma EndsOver(c: Comp, late: bool)
    requires c.stopped
    ensures Over(c, Ends(c, false)) && Over(c, Breaks(c, late)) && Over(c, ReadyWaitEnds(c))
  {
  }

  lemma CallOver(c: Comp, outcome: Outcome, next: Next, unready: set<nat>, awaited: bool)
    requires c.stopped
    ensures c.kind != Booted ==> Over(c, FetchEnds(c, outcome, next, unready))
    ensures Over(c, RerenderEnds(c, outcome, unready, awaited)) && Over(c, OnReadyEnds(c, outcome, awaited))
  {
    EndsOver(c, outcome.Throws? && outcome.late);
    hide Ends, Breaks, Points, Looks;
  }

  lemma BootOver(c: Comp, outcome: Outcome, next: Next, unready: set<nat>, unrendered: set<nat>, awaited: bool)
    requires c.stopped
    ensures Over(c, RenderEnds(c, outcome, awaited)) && Over(c, LoadEnds(c, outcome, next, awaited))
    ensures Over(c, YieldEnds(c, unrendered, unready)) && Over(c, RenderWaitEnds(c, unready))
    ensures c.phase == Idle && c.queue != [] && Booted !in c.queue ==>
              Over(c, NextStarts(c, false)) && Over(c, NextStarts(c, true))
  {
  }

  lemma SegmentOver(comps: seq<Comp>, a: Action, limit: nat)
    requires Enabled(comps, a, limit) && !a.Spawn? && comps[a.c].stopped
    ensures Over(comps[a.c], Segment(comps, a, limit))
  {
    hide Over, Called, NextStarts, RenderEnds, LoadEnds, FetchEnds, RerenderEnds, YieldEnds, RenderWaitEnds,
      ReadyWaitEnds, OnReadyEnds, UnreadyKids, UnrenderedKids, Awaited, Suits;
    var c, w := comps[a.c], Awaited(comps, a.c);
    var u, v := UnreadyKids(comps, c.watch.kids), UnrenderedKids(comps, c.watch.kids);
    match a
    case StartNext(_, cached) => BootOver(c, Returns, Rerender, u, v, w);
    case EndRender(_, outcome) => BootOver(c, outcome, Rerender, u, v, w);
    case EndLoad(_, outcome, next) => BootOver(c, outcome, next, u, v, w); CallOver(c, outcome, next, u, w);
    case EndRerender(_, outcome) => CallOver(c, outcome, Rerender, u, w);
    case EndYield(_) => BootOver(c, Returns, Rerender, u, v, w);
    case EndRenderWait(_) => BootOver(c, Returns, Rerender, u, v, w);
    case EndReadyWait(_) => EndsOver(c, false);
    case EndOnReady(_, outcome) => CallOver(c, outcome, Rerender, u, w);
    case _ =>
  }

  /** Whatever a stopped component was doing, its next step ends it, and takes it no further into the ready state. */
  lemma StoppedGoesIdle(comps: seq<Comp>, a: Action, limit: nat)
    requires Enabled(comps, a, limit) && !a.Spawn? && comps[a.c].stopped
    ensures var c, d := comps[a.c], Step(comps, a, limit)[a.c];
            && d.stopped && d.phase == Idle
            && (d.sign.atReady ==> c.sign.atReady) && (d.sign.marker ==> c.sign.marker)
  {
    SegmentOver(comps, a, limit);
    hide Segment, Enabled;
  }

  // ----- the children -----

  /** This step begins a render of `p` after its first. */
  predicate Redraws(before: seq<Comp>, after: seq<Comp>, p: nat) {
    p < |before| && p < |after| && before[p].phase != Rerendering && after[p].phase == Rerendering
  }

  /** The action stops `k`, and its on_stop() does not throw: it is told to, or its boot fails. */
  predicate Leaves(comps: seq<Comp>, a: Action, k: nat) {
    && k < |comps| && !a.Spawn? && a.c == k && !comps[k].stopped
    && match a
       case Stop(_, throws) => !throws
       case EndRender(_, outcome) => outcome.Throws? && !outcome.stopThrows
       case EndLoad(_, outcome, _) => comps[k].kind == Booted && outcome.Throws? && !outcome.stopThrows
       case EndRerender(_, outcome) => comps[k].kind == Booted && outcome.Throws? && !outcome.stopThrows
       case EndOnReady(_, outcome) => comps[k].kind == Booted && outcome.Throws? && !outcome.stopThrows
       case _ => false
  }

  predicate Born(comps: seq<Comp>, a: Action, p: nat, k: nat) { a.Spawn? && a.parent == p && k == |comps| }

  /** One component's part in a step. */
  predicate Parts(c: Comp, after: After, stops: bool) {
    && (after.event == Stopped <==> stops)
    && after.comp.watch.kids ==
       if c.phase != Rerendering && after.comp.phase == Rerendering then {} else c.watch.kids
  }

  lemma StartsParts(c: Comp, kind: Kind, cached: bool)
    requires c.phase == Idle && kind != Booted
    ensures Parts(c, After(Starts(c, kind, cached), Silent), false)
  {
  }

  lemma CallParts(c: Comp, kind: Kind, cached: bool)
    requires kind != Booted
    ensures Parts(c, After(Called(c, kind, cached), Silent), false)
  {
    if c.phase == Idle { StartsParts(Invalidated(c, kind), kind, cached); }
    hide Starts, Queued;
  }

  lemma NextParts(c: Comp, cached: bool)
    requires c.phase == Idle && c.queue != [] && Booted !in c.queue
    ensures Parts(c, NextStarts(c, cached), false)
  {
    StartsParts(c.(queue := c.queue[1..]), c.queue[0], cached);
    hide Starts;
  }

  lemma BootParts(c: Comp, outcome: Outcome, next: Next, awaited: bool)
    ensures var stops := !c.stopped && outcome.Throws? && !outcome.stopThrows;
            && (c.phase == Rendering ==> Parts(c, RenderEnds(c, outcome, awaited), stops))
            && (c.phase == Loading ==> Parts(c, LoadEnds(c, outcome, next, awaited), stops))
  {
  }

  lemma FetchParts(c: Comp, outcome: Outcome, next: Next, unready: set<nat>)
    requires c.phase == Loading && c.kind != Booted
    ensures Parts(c, FetchEnds(c, outcome, next, unready), false)
  {
  }

  lemma RerenderParts(c: Comp, outcome: Outcome, unready: set<nat>, awaited: bool)
    requires c.phase == Rerendering
    ensures var stops := c.kind == Booted && !c.stopped && outcome.Throws? && !outcome.stopThrows;
            Parts(c, RerenderEnds(c, outcome, unready, awaited), stops)
  {
  }

  lemma ReadyParts(c: Comp, outcome: Outcome, awaited: bool)
    requires c.phase == InOnReady
    ensures var stops := c.kind == Booted && !c.stopped && outcome.Throws? && !outcome.stopThrows;
            Parts(c, OnReadyEnds(c, outcome, awaited), stops)
  {
  }

  lemma WaitParts(c: Comp, unready: set<nat>, unrendered: set<nat>)
    ensures Parts(c, YieldEnds(c, unrendered, unready), false) && Parts(c, RenderWaitEnds(c, unready), false)
    ensures c.phase == ReadyWait ==> Parts(c, ReadyWaitEnds(c), false)
  {
  }

  lemma SegmentParts(comps: seq<Comp>, a: Action, limit: nat)
    requires Enabled(comps, a, limit) && !a.Spawn?
    ensures Parts(comps[a.c], Segment(comps, a, limit), Leaves(comps, a, a.c))
  {
    hide Parts, Called, NextStarts, RenderEnds, LoadEnds, FetchEnds, RerenderEnds, YieldEnds, RenderWaitEnds,
      ReadyWaitEnds, OnReadyEnds, UnreadyKids, UnrenderedKids, Awaited, Suits;
    var c, w := comps[a.c], Awaited(comps, a.c);
    var u, v := UnreadyKids(comps, c.watch.kids), UnrenderedKids(comps, c.watch.kids);
    match a
    case Call(_, call, cached) => CallParts(c, call, cached);
    case StartNext(_, cached) => NextParts(c, cached);
    case EndRender(_, outcome) => BootParts(c, outcome, Rerender, w);
    case EndLoad(_, outcome, next) =>
      if c.kind == Booted { BootParts(c, outcome, next, w); } else { FetchParts(c, outcome, next, u); }
    case EndRerender(_, outcome) => RerenderParts(c, outcome, u, w);
    case EndYield(_) => WaitParts(c, u, v);
    case EndRenderWait(_) => WaitParts(c, u, v);
    case EndReadyWait(_) => WaitParts(c, u, v);
    case EndOnReady(_, outcome) => ReadyParts(c, outcome, w);
    case Stop(_, throws) => StopParts(c, throws, w);
  }

  lemma StopParts(c: Comp, throws: bool, awaited: bool)
    ensures Parts(c, StopSelf(c, throws, awaited), !c.stopped && !throws)
  {
  }

  function Kids(comps: seq<Comp>, p: nat): set<nat> { if p < |comps| then comps[p].watch.kids else {} }

  lemma HeardKids(comps: seq<Comp>, c: nat, after: After, p: nat)
    requires c < |comps|
    ensures p < |comps| ==>
              var d, e := if p == c then after.comp else comps[p], Apply(comps, c, after)[p];
              && e.phase == d.phase && e.sign == d.sign
              && e.watch.kids == d.watch.kids - if after.event == Stopped then {c} else {}
  {
  }

  lemma KidIsOlder(comps: seq<Comp>, p: nat, k: nat)
    requires Inv(comps) && p < |comps| && k in comps[p].watch.kids
    ensures p < k < |comps|
  {
    assert k in Family(comps[p]) && k < |comps|;
    assert Knows(p, comps[p], k, comps[k]);
  }

  lemma StepKids(comps: seq<Comp>, a: Action, limit: nat, p: nat, k: nat)
    requires Inv(comps) && Enabled(comps, a, limit)
    ensures var r := Step(comps, a, limit);
            k in Kids(r, p) <==>
            (k in Kids(comps, p) || Born(comps, a, p, k)) && !Redraws(comps, r, p) && !Leaves(comps, a, k)
  {
    if !a.Spawn? {
      SegmentParts(comps, a, limit);
      HeardKids(comps, a.c, Segment(comps, a, limit), p);
      if p < |comps| && k in comps[p].watch.kids { KidIsOlder(comps, p, k); }
      LeavesItself(comps, a, k);
      hide Segment, Inv, Enabled, Leaves, Apply;
    }
  }

  lemma LeavesItself(comps: seq<Comp>, a: Action, k: nat)
    ensures Leaves(comps, a, k) ==> !a.Spawn? && a.c == k
  {
  }

  predicate Happens(actions: seq<Action>, tree: Tree, n: nat) {
    n < |actions| && Enabled(Run(actions[..n], tree), actions[n], tree.limit)
  }

  /** Action `n` of the run spawns `k` in `p`, and since then `p` has begun no render, and `k` has not left. */
  ghost predicate ChildSince(actions: seq<Action>, tree: Tree, n: nat, p: nat, k: nat) {
    && Happens(actions, tree, n) && Born(Run(actions[..n], tree), actions[n], p, k)
    && forall m :: n < m < |actions| && Happens(actions, tree, m) ==> Keeps(actions, tree, m, p, k)
  }

  predicate Keeps(actions: seq<Action>, tree: Tree, m: nat, p: nat, k: nat)
    requires m < |actions|
  {
    !Redraws(Run(actions[..m], tree), Run(actions[..m + 1], tree), p) &&
    !Leaves(Run(actions[..m], tree), actions[m], k)
  }

  lemma ChildMore(actions: seq<Action>, tree: Tree, n: nat, p: nat, k: nat)
    requires actions != []
    ensures var front, m := actions[..|actions| - 1], |actions| - 1;
            ChildSince(actions, tree, n, p, k) <==>
            if n == m then Happens(actions, tree, m) && Born(Run(front, tree), actions[m], p, k)
            else ChildSince(front, tree, n, p, k) && (Happens(actions, tree, m) ==> Keeps(actions, tree, m, p, k))
  {
    hide Run, Enabled, Born, Redraws, Leaves;
    var front, m := actions[..|actions| - 1], |actions| - 1;
    assert actions[..m] == front;
    if n < m { assert front[..n] == actions[..n] && front[n] == actions[n]; }
    forall j: nat | j < m
      ensures Happens(front, tree, j) == Happens(actions, tree, j)
      ensures Keeps(front, tree, j, p, k) == Keeps(actions, tree, j, p, k)
    {
      assert front[..j] == actions[..j] && front[..j + 1] == actions[..j + 1] && front[j] == actions[j];
    }
  }

  lemma LastHappens(actions: seq<Action>, tree: Tree, p: nat, k: nat)
    requires actions != []
    ensures var front, m := actions[..|actions| - 1], |actions| - 1;
            var comps, a := Run(front, tree), actions[m];
            && (Happens(actions, tree, m) <==> Enabled(comps, a, tree.limit))
            && (Keeps(actions, tree, m, p, k) <==> !Redraws(comps, Run(actions, tree), p) && !Leaves(comps, a, k))
            && Run(actions, tree) == if Enabled(comps, a, tree.limit) then Step(comps, a, tree.limit) else comps
  {
    var m := |actions| - 1;
    assert actions[..m + 1] == actions;
    hide Enabled, Step, Redraws, Leaves;
  }

  lemma NoKids(tree: Tree, p: nat)
    ensures Kids(Run([], tree), p) == {}
  {
  }

  lemma NoneSince(tree: Tree, p: nat, k: nat)
    ensures forall n: nat :: !ChildSince([], tree, n, p, k)
  {
  }

  /** A component's children are exactly those spawned in it since its last render began that have not left since; an
      on_stop() that throws leaves its component where it is. */
  lemma {:induction false} KidsExactly(actions: seq<Action>, tree: Tree, p: nat, k: nat)
    ensures k in Kids(Run(actions, tree), p) <==> exists n: nat :: ChildSince(actions, tree, n, p, k)
    decreases |actions|
  {
    hide *;
    if actions == [] {
      NoKids(tree, p);
      NoneSince(tree, p, k);
    } else {
      var front, m := actions[..|actions| - 1], |actions| - 1;
      KidsExactly(front, tree, p, k);
      RunKeeps(front, tree);
      LastHappens(actions, tree, p, k);
      var comps, a := Run(front, tree), actions[m];
      if Enabled(comps, a, tree.limit) {
        StepKids(comps, a, tree.limit, p, k);
        BornKeeps(comps, a, tree.limit, p, k);
      }
      if n: nat :| ChildSince(front, tree, n, p, k) {
        ChildShorter(front, tree, n, p, k);
        ChildMore(actions, tree, n, p, k);
      }
      if n: nat :| ChildSince(actions, tree, n, p, k) { ChildMore(actions, tree, n, p, k); }
      ChildMore(actions, tree, m, p, k);
    }
  }

  lemma BornKeeps(comps: seq<Comp>, a: Action, limit: nat, p: nat, k: nat)
    requires Enabled(comps, a, limit)
    ensures Born(comps, a, p, k) ==> !Redraws(comps, Step(comps, a, limit), p) && !Leaves(comps, a, k)
  {
    hide Segment, Apply;
  }

  lemma ChildShorter(actions: seq<Action>, tree: Tree, n: nat, p: nat, k: nat)
    requires ChildSince(actions, tree, n, p, k)
    ensures n < |actions|
  {
    hide Enabled, Run, Born, Keeps;
  }

  // ----- the ready state -----

  /** 'ready' fires on `p`. */
  predicate Fires(comps: seq<Comp>, a: Action, limit: nat, p: nat) {
    Enabled(comps, a, limit) && !a.Spawn? && a.c == p && Segment(comps, a, limit).event == Readied
  }

  /** The action takes `p` out of the ready state: a reload() or refresh() renders from the cache or applies what it
      loaded, a render after the first ends, or a call throws after one of these. */
  predicate Unreadies(comps: seq<Comp>, a: Action, p: nat) {
    && !a.Spawn? && a.c == p && p < |comps|
    && var c := comps[p];
    match a
    case Call(_, call, cached) => Reloads(call) && cached && c.phase == Idle && c.queue == []
    case StartNext(_, cached) => cached && !c.stopped && c.queue != [] && Reloads(c.queue[0])
    case EndLoad(_, outcome, next) =>
      && c.kind != Booted && c.kind != Loaded
      && if outcome.Throws? then outcome.late else !c.stopped && (next == WaitOnly || c.own.hasLoad)
    case EndRerender(_, outcome) => c.kind != Booted && if outcome.Throws? then outcome.late else !c.stopped
    case EndOnReady(_, outcome) => c.kind != Booted && outcome.Throws? && outcome.late
    case _ => false
  }

  /** One component's part in a step. */
  predicate Signed(c: Comp, after: After, unreadies: bool) {
    after.comp.sign.atReady <==> after.event == Readied || (c.sign.atReady && !unreadies)
  }

  lemma CallSigned(c: Comp, kind: Kind, cached: bool)
    requires kind != Booted && !c.stopped
    ensures Signed(c, After(Called(c, kind, cached), Silent),
              Reloads(kind) && cached && c.phase == Idle && c.queue == [])
  {
  }

  lemma NextSigned(c: Comp, cached: bool)
    requires c.phase == Idle && c.queue != [] && Booted !in c.queue
    ensures Signed(c, NextStarts(c, cached), cached && !c.stopped && Reloads(c.queue[0]))
  {
  }

  lemma BootSigned(c: Comp, outcome: Outcome, next: Next, unready: set<nat>, unrendered: set<nat>, awaited: bool)
    ensures Signed(c, RenderEnds(c, outcome, awaited), false) && Signed(c, LoadEnds(c, outcome, next, awaited), false)
    ensures Signed(c, YieldEnds(c, unrendered, unready), false) && Signed(c, RenderWaitEnds(c, unready), false)
  {
  }

  lemma BreaksSigned(c: Comp, late: bool)
    ensures Signed(c, Breaks(c, late), late)
  {
  }

  lemma EndsSigned(c: Comp)
    ensures Signed(c, Ends(c, false), false) && Signed(c, ReadyWaitEnds(c), false)
    ensures Signed(c, Points(c), false) && Signed(c, Points(Unready(c)), true)
  {
  }

  lemma FetchSigned(c: Comp, outcome: Outcome, next: Next, unready: set<nat>)
    requires c.kind != Booted
    ensures Signed(c, FetchEnds(c, outcome, next, unready),
              && c.kind != Loaded
              && if outcome.Throws? then outcome.late else !c.stopped && (next == WaitOnly || c.own.hasLoad))
  {
    if outcome.Throws? { BreaksSigned(c, outcome.late); }
    EndsSigned(c);
    hide Breaks, Ends, Points;
  }

  lemma RerenderSigned(c: Comp, outcome: Outcome, unready: set<nat>, awaited: bool)
    ensures Signed(c, RerenderEnds(c, outcome, unready, awaited),
              c.kind != Booted && if outcome.Throws? then outcome.late else !c.stopped)
    ensures Signed(c, OnReadyEnds(c, outcome, awaited), c.kind != Booted && outcome.Throws? && outcome.late)
  {
    if outcome.Throws? { BreaksSigned(c, outcome.late); }
    EndsSigned(c);
    hide Breaks, Ends, Points;
  }

  lemma SegmentSigned(comps: seq<Comp>, a: Action, limit: nat)
    requires Enabled(comps, a, limit) && !a.Spawn?
    ensures Signed(comps[a.c], Segment(comps, a, limit), Unreadies(comps, a, a.c))
  {
    hide Signed, Called, NextStarts, RenderEnds, LoadEnds, FetchEnds, RerenderEnds, YieldEnds, RenderWaitEnds,
      ReadyWaitEnds, OnReadyEnds, UnreadyKids, UnrenderedKids, Awaited, Suits, StopSelf;
    var c, w := comps[a.c], Awaited(comps, a.c);
    var u, v := UnreadyKids(comps, c.watch.kids), UnrenderedKids(comps, c.watch.kids);
    match a
    case Call(_, call, cached) => CallSigned(c, call, cached);
    case StartNext(_, cached) => NextSigned(c, cached);
    case EndRender(_, outcome) => BootSigned(c, outcome, Rerender, u, v, w);
    case EndLoad(_, outcome, next) =>
      if c.kind == Booted { BootSigned(c, outcome, next, u, v, w); } else { FetchSigned(c, outcome, next, u); }
    case EndRerender(_, outcome) => RerenderSigned(c, outcome, u, w);
    case EndYield(_) => BootSigned(c, Returns, Rerender, u, v, w);
    case EndRenderWait(_) => BootSigned(c, Returns, Rerender, u, v, w);
    case EndReadyWait(_) => EndsSigned(c);
    case EndOnReady(_, outcome) => RerenderSigned(c, outcome, u, w);
    case Stop(_, throws) => StopSigned(c, throws, w);
  }

  lemma StopSigned(c: Comp, throws: bool, awaited: bool)
    ensures Signed(c, StopSelf(c, throws, awaited), false)
  {
  }

  predicate AtReady(comps: seq<Comp>, p: nat) { p < |comps| && comps[p].sign.atReady }

  lemma StepAtReady(comps: seq<Comp>, a: Action, limit: nat, p: nat)
    requires Enabled(comps, a, limit)
    ensures AtReady(Step(comps, a, limit), p) <==>
            Fires(comps, a, limit, p) || (AtReady(comps, p) && !Unreadies(comps, a, p))
  {
    if !a.Spawn? {
      SegmentSigned(comps, a, limit);
      HeardKids(comps, a.c, Segment(comps, a, limit), p);
      hide Segment, Enabled, Unreadies, Apply;
      OthersStay(comps, a, p);
    }
  }

  lemma OthersStay(comps: seq<Comp>, a: Action, p: nat)
    ensures Unreadies(comps, a, p) ==> !a.Spawn? && a.c == p
  {
  }

  /** Action `n` of the run fires 'ready' on `p`, and nothing since has taken `p` out of the ready state. */
  ghost predicate ReadySince(actions: seq<Action>, tree: Tree, n: nat, p: nat) {
    && n < |actions| && Fires(Run(actions[..n], tree), actions[n], tree.limit, p)
    && forall m :: n < m < |actions| && Happens(actions, tree, m) ==> !Unreadies(Run(actions[..m], tree), actions[m], p)
  }

  lemma ReadyMore(actions: seq<Action>, tree: Tree, n: nat, p: nat)
    requires actions != []
    ensures var front, m := actions[..|actions| - 1], |actions| - 1;
            ReadySince(actions, tree, n, p) <==>
            if n == m then Fires(Run(front, tree), actions[m], tree.limit, p)
            else ReadySince(front, tree, n, p) &&
                 (Happens(actions, tree, m) ==> !Unreadies(Run(front, tree), actions[m], p))
  {
    hide Run, Enabled, Fires, Unreadies;
    var front, m := actions[..|actions| - 1], |actions| - 1;
    assert actions[..m] == front;
    if n < m { assert front[..n] == actions[..n] && front[n] == actions[n]; }
    forall j: nat | j < m
      ensures Happens(front, tree, j) == Happens(actions, tree, j)
      ensures Unreadies(Run(front[..j], tree), front[j], p) == Unreadies(Run(actions[..j], tree), actions[j], p)
    {
      assert front[..j] == actions[..j] && front[j] == actions[j];
    }
  }

  /** A component is in the ready state exactly if 'ready' has fired on it and none of these has happened since (the
      record of one that has been stopped is left as it was). */
  lemma {:induction false} InReadyStateExactly(actions: seq<Action>, tree: Tree, p: nat)
    ensures AtReady(Run(actions, tree), p) <==> exists n: nat :: ReadySince(actions, tree, n, p)
    decreases |actions|
  {
    if actions != [] {
      var front, m := actions[..|actions| - 1], |actions| - 1;
      InReadyStateExactly(front, tree, p);
      var comps, a := Run(front, tree), actions[m];
      assert actions[..m] == front;
      if Enabled(comps, a, tree.limit) { StepAtReady(comps, a, tree.limit, p); }
      FiresNow(comps, a, tree.limit, p);
      hide Step, Enabled, Fires, Unreadies, ReadySince, AtReady;
      if n: nat :| ReadySince(front, tree, n, p) { ReadyMore(actions, tree, n, p); }
      if n: nat :| ReadySince(actions, tree, n, p) { ReadyMore(actions, tree, n, p); }
      ReadyMore(actions, tree, m, p);
    }
  }

  lemma FiresNow(comps: seq<Comp>, a: Action, limit: nat, p: nat)
    ensures Fires(comps, a, limit, p) ==> Enabled(comps, a, limit)
  {
  }
}

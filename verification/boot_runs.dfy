/** A tree of components: any interleaving of their segments, with calls made and components removed at any time. */
module BootRuns {
  import opened Boot

  datatype Action =
    | Spawn(parent: nat, hasLoad: bool, htmlCache: bool)
    | Call(c: nat, call: Kind, cached: bool)      // render(), reload(), refresh() or load()
    | StartNext(c: nat, cached: bool)
    | EndRender(c: nat, outcome: Outcome)
    | EndLoad(c: nat, outcome: Outcome, next: Next)
    | EndRerender(c: nat, outcome: Outcome)
    | EndYield(c: nat)
    | EndRenderWait(c: nat)
    | EndReadyWait(c: nat)
    | EndOnReady(c: nat, outcome: Outcome)
    | Stop(c: nat, throws: bool)

  /** Everyone else hears component `c`: a waiter is released by the event it waits for, or by 'stop', and a
      stopped component leaves its parent's children. */
  function Heard(comp: Comp, c: nat, event: Event): Comp { comp.(watch := Noted(comp.watch, c, event)) }

  function Noted(w: Watch, c: nat, event: Event): Watch {
    match event
    case Silent => w
    case Drew => w.(renderWait := w.renderWait - {c})
    case Readied => w.(readyWait := w.readyWait - {c})
    case Stopped => w.(renderWait := w.renderWait - {c}, readyWait := w.readyWait - {c}, kids := w.kids - {c})
  }

  function Apply(comps: seq<Comp>, c: nat, after: After): (r: seq<Comp>)
    requires c < |comps|
    ensures |r| == |comps|
    ensures forall i :: 0 <= i < |comps| ==> r[i] == Heard(if i == c then after.comp else comps[i], c, after.event)
  {
    seq(|comps|, i requires 0 <= i < |comps| => Heard(if i == c then after.comp else comps[i], c, after.event))
  }

  function Subject(a: Action): nat { if a.Spawn? then a.parent else a.c }

  /** Does the parent of `c` wait for it? */
  predicate Awaited(comps: seq<Comp>, c: nat)
    requires c < |comps|
  {
    var p := comps[c].own.parent;
    0 <= p < |comps| && (c in comps[p].watch.readyWait || c in comps[p].watch.renderWait)
  }

  /** Can the action happen now?  `limit` bounds the number of components of the tree. */
  predicate Enabled(comps: seq<Comp>, a: Action, limit: nat) {
    Subject(a) < |comps| &&
    var c := comps[Subject(a)];
    match a
    case Spawn(_, _, _) => |comps| < limit
    case Call(_, call, _) => !c.stopped && call != Booted
    case StartNext(_, _) => c.phase == Idle && c.queue != [] && Booted !in c.queue
    case EndRender(_, _) => c.phase == Rendering
    case EndLoad(_, _, next) => c.phase == Loading && Suits(c, next)
    case EndRerender(_, _) => c.phase == Rerendering
    case EndYield(_) => c.phase == Yielding
    case EndRenderWait(_) => c.phase == RenderWait && c.watch.renderWait == {}
    case EndReadyWait(_) => c.phase == ReadyWait && c.watch.readyWait == {}
    case EndOnReady(_, _) => c.phase == InOnReady
    case Stop(_, _) => !c.stopped
  }

  /** What the component itself does. */
  function Segment(comps: seq<Comp>, a: Action, limit: nat): After
    requires Enabled(comps, a, limit) && !a.Spawn?
  {
    var c := comps[a.c];
    match a
    case Call(_, call, cached) => After(Called(c, call, cached), Silent)
    case StartNext(_, cached) => NextStarts(c, cached)
    case EndRender(_, outcome) => RenderEnds(c, outcome, Awaited(comps, a.c))
    case EndLoad(_, outcome, next) =>
      if c.kind == Booted then LoadEnds(c, outcome, next, Awaited(comps, a.c))
      else FetchEnds(c, outcome, next, UnreadyKids(comps, c.watch.kids))
    case EndRerender(_, outcome) => RerenderEnds(c, outcome, UnreadyKids(comps, c.watch.kids), Awaited(comps, a.c))
    case EndYield(_) => YieldEnds(c, UnrenderedKids(comps, c.watch.kids), UnreadyKids(comps, c.watch.kids))
    case EndRenderWait(_) => RenderWaitEnds(c, UnreadyKids(comps, c.watch.kids))
    case EndReadyWait(_) => ReadyWaitEnds(c)
    case EndOnReady(_, outcome) => OnReadyEnds(c, outcome, Awaited(comps, a.c))
    case Stop(_, throws) => StopSelf(c, throws, Awaited(comps, a.c))
  }

  function Step(comps: seq<Comp>, a: Action, limit: nat): seq<Comp>
    requires Enabled(comps, a, limit)
  {
    if a.Spawn? then
      var p := comps[a.parent];
      comps[a.parent := p.(watch := p.watch.(kids := p.watch.kids + {|comps|}))] +
          [New(Own(a.parent, a.hasLoad, a.htmlCache))]
    else Apply(comps, a.c, Segment(comps, a, limit))
  }

  /** How many components the tree may have, and what its root is. */
  datatype Tree = Tree(limit: nat, hasLoad: bool, htmlCache: bool)

  /** The root component booting, then these actions; an action that cannot happen does not. */
  function Run(actions: seq<Action>, tree: Tree): seq<Comp> {
    if actions == [] then [New(Own(-1, tree.hasLoad, tree.htmlCache))]
    else
      var comps := Run(actions[..|actions| - 1], tree);
      var a := actions[|actions| - 1];
      if Enabled(comps, a, tree.limit) then Step(comps, a, tree.limit) else comps
  }
}

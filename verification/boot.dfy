/** One component's boot and its later render(), reload(), refresh() and load() calls
    (packages/core/src/lifecycle-manager.ts with _ready(), render(), load(), _reload(), _settle_on() and _stop() of
    component.ts), cut at their awaits: each segment as a function of the component, and as the method that runs it. */
module Boot {
  /** What runs, or ran last: boot, or one of the calls. */
  datatype Kind = Booted | Rendered | Reloaded | Refreshed | Loaded

  predicate Reloads(kind: Kind) { kind == Reloaded || kind == Refreshed }

  /** Where that is suspended; `Idle` is between two of them. */
  datatype Phase = Rendering | Loading | Rerendering | Yielding | RenderWait | ReadyWait | InOnReady | Idle

  /** What a component is from the start: its parent (-1 for the root), whether its class has an on_load(), and whether
      it snapshots its html. */
  datatype Own = Own(parent: int, hasLoad: bool, htmlCache: bool)

  /** `atReady` is "_ready_state >= 4", `marker` the sticky 'ready', `owed` _ready_owed, and `was` what a reload found.
      `failed`: an executor threw with 'ready' gone, and 'ready' has not fired since. */
  datatype Signs = Signs(atReady: bool, marker: bool, owed: bool, was: bool, failed: bool)

  /** `kids` are the DOM children, `found` those _wait_for_children_ready() saw when it looked for the `looks`-th time;
      the wait sets hold those whose event is still waited for. */
  datatype Watch = Watch(kids: set<nat>, found: set<nat>, looks: nat, renderWait: set<nat>, readyWait: set<nat>)

  /** A component; `queue` holds the calls waiting for its lock.  `lost` marks a stop whose on_stop() threw - no 'stop'
      event - while the parent waited. */
  datatype Comp = Comp(
    own: Own,
    kind: Kind,
    phase: Phase,
    queue: seq<Kind>,
    stopped: bool,
    lost: bool,
    renderDone: bool,
    sign: Signs,
    watch: Watch)

  function New(own: Own): Comp {
    Comp(own, Booted, Rendering, [], false, false, false, Signs(false, false, false, false, false),
        Watch({}, {}, 0, {}, {}))
  }

  /** In the ready state, and 'ready' has fired since it was last invalidated.  (ready() itself resolves at once on the
      sticky 'ready' alone.) */
  predicate Ready(s: Signs) { s.atReady && s.marker }

  /** Only one of the two: a call is taking them away one after the other, or has failed after the first. */
  predicate HalfReady(s: Signs) { s.atReady != s.marker }

  /** How a segment of the author's code ended; `stopThrows` is what on_stop() does if the throw stops it, and `late`
      says that a reload or render threw after it had left the ready state. */
  datatype Outcome = Returns | Throws(stopThrows: bool, late: bool)

  /** What the segment makes others see: a 'render' that counts or 'rendered', 'ready', or 'stop'. */
  datatype Event = Silent | Drew | Readied | Stopped

  datatype After = After(comp: Comp, event: Event)

  // ----- stopping -----

  /** `_stop()`: a second call does nothing; a throw in on_stop() keeps the event from firing.  `awaited`: the parent
      waits for this component. */
  function StopSelf(c: Comp, throws: bool, awaited: bool): After {
    if c.stopped then After(c, Silent)
    else After(c.(stopped := true, lost := throws && awaited), if throws then Silent else Stopped)
  }

  /** The catch of boot_component(). */
  function Fail(c: Comp, stopThrows: bool, awaited: bool): After {
    var a := StopSelf(c, stopThrows, awaited);
    a.(comp := a.comp.(phase := Idle))
  }

  // ----- the ready points -----

  /** `_fire_ready()` */
  function Fire(c: Comp): Comp { c.(sign := Signs(true, true, false, c.sign.was, false)) }

  /** The executor is over: with nothing waiting the queue idles, and an owed 'ready' fires. */
  function Ends(c: Comp, fired: bool): After {
    if c.queue == [] && c.sign.owed && !c.stopped then After(Fire(c).(phase := Idle), Readied)
    else After(c.(phase := Idle), if fired then Readied else Silent)
  }

  /** `_entry_ready_point()` */
  function Points(c: Comp): After { if c.sign.owed then Ends(c, false) else Ends(Fire(c), true) }

  /** A render() or reload() throws; _reload() puts back the 'ready' it had found. */
  function Breaks(c: Comp, late: bool): After {
    if Reloads(c.kind) && c.sign.was && !c.stopped then Ends(Restored(c), true)
    else Ends(Failed(c, c.sign.atReady && !late), false)
  }

  function Restored(c: Comp): Comp { c.(sign := Signs(true, true, c.sign.owed, c.sign.was, false)) }

  function Failed(c: Comp, atReady: bool): Comp {
    c.(sign := Signs(atReady, c.sign.marker, c.sign.owed, c.sign.was, c.sign.failed || !(atReady && c.sign.marker)))
  }

  /** The ready state is left, the sticky 'ready' is not. */
  function Unready(c: Comp): Comp { c.(sign := c.sign.(atReady := false)) }

  // ----- boot -----

  /** The end of the boot's render chain. */
  function RenderChainDone(c: Comp): After { After(c.(phase := Yielding, renderDone := true), Drew) }

  /** create() and the first _render(), which is the last for a component without on_load(). */
  function RenderEnds(c: Comp, outcome: Outcome, awaited: bool): After {
    if outcome.Throws? then Fail(c, outcome.stopThrows, awaited)
    else if c.stopped then After(c.(phase := Idle), Silent)
    else if c.own.hasLoad then After(c.(phase := Loading), Silent)
    else After(c.(phase := Loading, renderDone := true), Drew)
  }

  /** The yield before _ready(), up to its first wait; the sets are the children each wait is for. */
  function YieldEnds(c: Comp, unrendered: set<nat>, unready: set<nat>): After {
    if c.stopped then After(c.(phase := Idle), Silent)
    else if c.own.htmlCache then After(c.(phase := RenderWait, watch := c.watch.(renderWait := unrendered)), Silent)
    else After(Looks(c, unready), Silent)
  }

  /** `_wait_for_children_ready()` */
  function Looks(c: Comp, unready: set<nat>): Comp {
    c.(phase := ReadyWait, watch := Watch(c.watch.kids, c.watch.kids, c.watch.looks + 1, c.watch.renderWait, unready))
  }

  function RenderWaitEnds(c: Comp, unready: set<nat>): After {
    if c.stopped then After(c.(phase := Idle), Silent) else After(Looks(c, unready), Silent)
  }

  // ----- the calls -----

  /** `render()`, `reload()`, `refresh()` or `load()`: render() invalidates 'ready' at once; the call starts if the
      component is idle, merges into an equal call waiting last, or waits.  `cached`: a reload shows cached data before
      it loads. */
  function Called(c: Comp, kind: Kind, cached: bool): Comp
    requires kind != Booted
  {
    if c.phase == Idle && c.queue == [] then Starts(Invalidated(c, kind), kind, cached)
    else Invalidated(c, kind).(queue := Queued(c.queue, kind))
  }

  function Invalidated(c: Comp, kind: Kind): Comp { c.(sign := c.sign.(marker := c.sign.marker && kind != Rendered)) }

  function Queued(queue: seq<Kind>, kind: Kind): seq<Kind> {
    if queue != [] && queue[|queue| - 1] == kind then queue else queue + [kind]
  }

  /** The executor starts.  A reload's prologue notes and invalidates 'ready', and rendering from the cache leaves the
      ready state; load() touches neither. */
  function Starts(c: Comp, kind: Kind, cached: bool): Comp
    requires kind != Booted
  {
    if c.stopped then c
    else if kind == Rendered then Draws(c).(kind := kind)
    else if kind == Loaded then c.(kind := kind, phase := Loading)
    else c.(kind := kind, phase := Loading,
            sign := Signs(c.sign.atReady && !cached, false, c.sign.owed, Ready(c.sign), c.sign.failed))
  }

  /** A _render() after the first begins: the old children are forgotten. */
  function Draws(c: Comp): Comp { c.(phase := Rerendering, watch := c.watch.(kids := {})) }

  /** The hand-off to the oldest call waiting. */
  function NextStarts(c: Comp, cached: bool): After
    requires c.queue != [] && Booted !in c.queue
  {
    After(Starts(c.(queue := c.queue[1..]), c.queue[0], cached), Silent)
  }

  // ----- segments boot and the calls share -----

  /** What follows a load: a render, none, or - a reload that has rendered from the cache - only the wait. */
  datatype Next = Rerender | Nothing | WaitOnly

  /** reload() always renders, from the cache or after the load; without on_load() there is nothing else to do. */
  predicate Suits(c: Comp, next: Next) {
    (c.kind == Reloaded ==> next != Nothing) && (Reloads(c.kind) && !c.own.hasLoad ==> next == Rerender)
  }

  /** Boot's _load(), or the loaded step of a component without on_load(). */
  function LoadEnds(c: Comp, outcome: Outcome, next: Next, awaited: bool): After {
    if outcome.Throws? then Fail(c, outcome.stopThrows, awaited)
    else if c.stopped then After(c.(phase := Idle), Silent)
    else if next == Rerender then After(Draws(c), Silent)
    else RenderChainDone(c)
  }

  /** The load of a load(), which ends with it, or of a reload: on_load() and its application, which leaves the ready
      state, or the loaded step. */
  function FetchEnds(c: Comp, outcome: Outcome, next: Next, unready: set<nat>): After {
    if c.kind == Loaded then Ends(c, false)
    else if outcome.Throws? then Breaks(c, outcome.late)
    else if c.stopped then Ends(c, false)
    else
      match next
      case Rerender => After(Draws(if c.own.hasLoad then Unready(c) else c), Silent)
      case Nothing => Points(if c.own.hasLoad then Unready(c) else c)
      case WaitOnly => After(Looks(Unready(c), unready), Silent)
  }

  /** A _render() after the first; in a call the children are looked for at once.  A throw leaves the ready state as it
      was. */
  function RerenderEnds(c: Comp, outcome: Outcome, unready: set<nat>, awaited: bool): After {
    if c.kind == Booted then
      if outcome.Throws? then Fail(c, outcome.stopThrows, awaited)
      else if c.stopped then After(c.(phase := Idle), Silent)
      else RenderChainDone(c)
    else if outcome.Throws? then Breaks(c, outcome.late)
    else if c.stopped then Ends(c, false)
    else After(Looks(Unready(c).(renderDone := true), unready), Drew)
  }

  function ReadyWaitEnds(c: Comp): After {
    if !c.stopped then After(c.(phase := InOnReady), Silent)
    else if c.kind == Booted then After(c.(phase := Idle), Silent)
    else Ends(c, false)
  }

  /** on_ready() is over.  Boot leaves 'ready' owed if calls are waiting. */
  function OnReadyEnds(c: Comp, outcome: Outcome, awaited: bool): After {
    if c.kind == Booted then
      if outcome.Throws? then Fail(c, outcome.stopThrows, awaited)
      else if c.stopped then After(c.(phase := Idle), Silent)
      else if c.queue != [] then After(c.(phase := Idle, sign := c.sign.(owed := true)), Silent)
      else After(Fire(c).(phase := Idle), Readied)
    else if outcome.Throws? then Breaks(c, outcome.late)
    else if c.stopped then Ends(c, false)
    else Points(c)
  }

  // ----- the waits -----

  /** Must the component be waited for?  _wait_for_children_ready() skips the ready and the stopped, and the sticky
      'ready' of one that is neither releases the wait at once. */
  predicate Passes(c: Comp) { c.sign.atReady || c.stopped || c.sign.marker }

  predicate Drawn(c: Comp) { c.renderDone || c.stopped }

  function UnreadyKids(comps: seq<Comp>, kids: set<nat>): set<nat> {
    set k | k in kids && k < |comps| && !Passes(comps[k])
  }

  function UnrenderedKids(comps: seq<Comp>, kids: set<nat>): set<nat> {
    set k | k in kids && k < |comps| && !Drawn(comps[k])
  }

  /** The loop of _wait_for_children_ready() over the children in DOM order. */
  method WaitForChildrenReady(comps: seq<Comp>, children: seq<nat>) returns (waits: set<nat>)
    requires forall k :: k in children ==> k < |comps|
    ensures waits == UnreadyKids(comps, set k | k in children)
  {
    waits := {};
    for i := 0 to |children|
      invariant waits == UnreadyKids(comps, set k | k in children[..i])
    {
      var child := children[i];
      assert child in children;
      if comps[child].sign.atReady { continue; }
      if comps[child].stopped { continue; }
      if comps[child].sign.marker { continue; }
      waits := waits + {child};
    }
    assert children[..|children|] == children;
  }

  /** One component: each method runs from one await to the next. */
  class Booting {
    var comp: Comp

    constructor (own: Own)
      ensures comp == New(own)
    {
      comp := New(own);
    }

    method Stop(throws: bool, awaited: bool) returns (event: Event)
      modifies this
      ensures After(comp, event) == StopSelf(old(comp), throws, awaited)
    {
      if comp.stopped { return Silent; }
      comp := comp.(stopped := true, lost := false);
      if throws {
        if awaited { comp := comp.(lost := true); }
        return Silent;
      }
      event := Stopped;
    }

    method BootFails(stopThrows: bool, awaited: bool) returns (event: Event)
      modifies this
      ensures After(comp, event) == Fail(old(comp), stopThrows, awaited)
    {
      event := Stop(stopThrows, awaited);
      comp := comp.(phase := Idle);
    }

    method FireReady() returns (event: Event)
      modifies this
      ensures comp == Fire(old(comp)) && event == Readied
    {
      comp := comp.(sign := comp.sign.(owed := false));
      comp := comp.(sign := comp.sign.(atReady := true));
      comp := comp.(sign := comp.sign.(marker := true, failed := false));
      event := Readied;
    }

    /** The executor settles and the lock is released. */
    method Release(fired: bool) returns (event: Event)
      modifies this
      ensures After(comp, event) == Ends(old(comp), fired)
    {
      comp := comp.(phase := Idle);
      event := if fired then Readied else Silent;
      if |comp.queue| == 0 && comp.sign.owed && !comp.stopped { event := FireReady(); }
    }

    method EntryReadyPoint() returns (event: Event)
      modifies this
      ensures After(comp, event) == Points(old(comp))
    {
      var fired := false;
      if !comp.sign.owed {
        event := FireReady();
        fired := true;
      }
      event := Release(fired);
    }

    /** The catch of _reload(); the others have none. */
    method ExecutorThrows(late: bool) returns (event: Event)
      modifies this
      ensures After(comp, event) == Breaks(old(comp), late)
    {
      if late { comp := Unready(comp); }
      if Reloads(comp.kind) && comp.sign.was && !comp.stopped {
        comp := comp.(sign := comp.sign.(atReady := true, marker := true, failed := false));
        event := Release(true);
      } else {
        comp := comp.(sign := comp.sign.(failed := comp.sign.failed || !Ready(comp.sign)));
        event := Release(false);
      }
    }

    method FinishRender(outcome: Outcome, awaited: bool) returns (event: Event)
      modifies this
      ensures After(comp, event) == RenderEnds(old(comp), outcome, awaited)
    {
      if outcome.Throws? {
        event := BootFails(outcome.stopThrows, awaited);
        return;
      }
      event := Silent;
      if comp.stopped {
        comp := comp.(phase := Idle);
        return;
      }
      if !comp.own.hasLoad {
        comp := comp.(renderDone := true);
        event := Drew;
      }
      comp := comp.(phase := Loading);
    }

    method FinishLoad(outcome: Outcome, next: Next, awaited: bool) returns (event: Event)
      modifies this
      ensures After(comp, event) == LoadEnds(old(comp), outcome, next, awaited)
    {
      event := Silent;
      if outcome.Throws? {
        event := BootFails(outcome.stopThrows, awaited);
      } else if comp.stopped {
        comp := comp.(phase := Idle);
      } else if next == Rerender {
        comp := Draws(comp);
      } else {
        comp := comp.(renderDone := true, phase := Yielding);
        event := Drew;
      }
    }

    method FinishFetch(outcome: Outcome, next: Next, comps: seq<Comp>, children: seq<nat>) returns (event: Event)
      requires comp.watch.kids == set k | k in children
      requires forall k :: k in children ==> k < |comps|
      modifies this
      ensures After(comp, event) == FetchEnds(old(comp), outcome, next, UnreadyKids(comps, old(comp).watch.kids))
    {
      hide UnreadyKids;
      event := Silent;
      if comp.kind == Loaded {
        event := Release(false);
      } else if outcome.Throws? {
        event := ExecutorThrows(outcome.late);
      } else if comp.stopped {
        event := Release(false);
      } else if next == WaitOnly {
        comp := Unready(comp);
        BeginWait(comps, children);
      } else {
        if comp.own.hasLoad { comp := Unready(comp); }
        if next == Rerender {
          comp := Draws(comp);
        } else {
          event := EntryReadyPoint();
        }
      }
    }

    method BeginWait(comps: seq<Comp>, children: seq<nat>)
      requires comp.watch.kids == set k | k in children
      requires forall k :: k in children ==> k < |comps|
      modifies this
      ensures comp == Looks(old(comp), UnreadyKids(comps, old(comp).watch.kids))
    {
      var waits := WaitForChildrenReady(comps, children);
      comp := comp.(phase := ReadyWait,
          watch := comp.watch.(found := comp.watch.kids, looks := comp.watch.looks + 1, readyWait := waits));
    }

    method FinishRerender(outcome: Outcome, comps: seq<Comp>, children: seq<nat>, awaited: bool) returns (event: Event)
      requires comp.watch.kids == set k | k in children
      requires forall k :: k in children ==> k < |comps|
      modifies this
      ensures After(comp, event) == RerenderEnds(old(comp), outcome, UnreadyKids(comps, old(comp).watch.kids), awaited)
    {
      event := Silent;
      if comp.kind == Booted {
        if outcome.Throws? {
          event := BootFails(outcome.stopThrows, awaited);
        } else if comp.stopped {
          comp := comp.(phase := Idle);
        } else {
          comp := comp.(renderDone := true, phase := Yielding);
          event := Drew;
        }
      } else if outcome.Throws? {
        event := ExecutorThrows(outcome.late);
      } else if comp.stopped {
        event := Release(false);
      } else {
        comp := Unready(comp).(renderDone := true);
        BeginWait(comps, children);
        event := Drew;
      }
    }

    /** _ready() up to its wait for the children. */
    method BeginReady(comps: seq<Comp>, children: seq<nat>) returns (event: Event)
      requires comp.watch.kids == set k | k in children
      requires forall k :: k in children ==> k < |comps|
      modifies this
      ensures After(comp, event) ==
              YieldEnds(old(comp), UnrenderedKids(comps, old(comp).watch.kids),
                  UnreadyKids(comps, old(comp).watch.kids))
    {
      event := Silent;
      if comp.stopped {
        comp := comp.(phase := Idle);
        return;
      }
      if comp.own.htmlCache {
        comp := comp.(phase := RenderWait, watch := comp.watch.(renderWait := UnrenderedKids(comps, comp.watch.kids)));
        return;
      }
      BeginWait(comps, children);
    }

    /** _ready() going on once the children it snapshots have rendered. */
    method FinishRenderWait(comps: seq<Comp>, children: seq<nat>) returns (event: Event)
      requires comp.watch.kids == set k | k in children
      requires forall k :: k in children ==> k < |comps|
      modifies this
      ensures After(comp, event) == RenderWaitEnds(old(comp), UnreadyKids(comps, old(comp).watch.kids))
    {
      event := Silent;
      if comp.stopped {
        comp := comp.(phase := Idle);
        return;
      }
      BeginWait(comps, children);
    }

    method FinishOnReady(outcome: Outcome, awaited: bool) returns (event: Event)
      modifies this
      ensures After(comp, event) == OnReadyEnds(old(comp), outcome, awaited)
    {
      event := Silent;
      if comp.kind != Booted {
        if outcome.Throws? {
          event := ExecutorThrows(outcome.late);
        } else if comp.stopped {
          event := Release(false);
        } else {
          event := EntryReadyPoint();
        }
        return;
      }
      if outcome.Throws? {
        event := BootFails(outcome.stopThrows, awaited);
      } else if comp.stopped {
        comp := comp.(phase := Idle);
      } else if |comp.queue| > 0 {
        comp := comp.(phase := Idle, sign := comp.sign.(owed := true));
      } else {
        event := FireReady();
        comp := comp.(phase := Idle);
      }
    }

    method StartExecutor(kind: Kind, cached: bool)
      requires kind != Booted
      modifies this
      ensures comp == Starts(old(comp), kind, cached)
    {
      if comp.stopped { return; }
      comp := comp.(kind := kind);
      if kind == Rendered {
        comp := Draws(comp);
        return;
      }
      comp := comp.(phase := Loading);
      if kind == Loaded { return; }
      comp := comp.(sign := comp.sign.(was := Ready(comp.sign)));
      comp := comp.(sign := comp.sign.(marker := false));
      if cached { comp := Unready(comp); }
    }

    /** render(), reload(), refresh() or load(). */
    method CallOn(kind: Kind, cached: bool)
      requires kind != Booted
      modifies this
      ensures comp == Called(old(comp), kind, cached)
    {
      hide Starts, Queued;
      Invalidate(kind);
      if comp.phase == Idle && |comp.queue| == 0 {
        StartExecutor(kind, cached);
      } else {
        Enqueue(kind);
      }
    }

    method Invalidate(kind: Kind)
      modifies this
      ensures comp == Invalidated(old(comp), kind)
    {
      if kind == Rendered { comp := comp.(sign := comp.sign.(marker := false)); }
    }

    method Enqueue(kind: Kind)
      modifies this
      ensures comp == old(comp).(queue := Queued(old(comp).queue, kind))
    {
      if |comp.queue| > 0 && comp.queue[|comp.queue| - 1] == kind { return; }
      comp := comp.(queue := comp.queue + [kind]);
    }

    method HandOff(cached: bool)
      requires comp.queue != [] && Booted !in comp.queue
      modifies this
      ensures After(comp, Silent) == NextStarts(old(comp), cached)
    {
      var kind := comp.queue[0];
      comp := comp.(queue := comp.queue[1..]);
      StartExecutor(kind, cached);
    }
  }
}

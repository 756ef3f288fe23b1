/** Two runs in which a parent's on_ready() runs while its child is not ready: the child was half ready when the parent
    looked. */
module BootHalf {
  import opened Boot
  import opened BootRuns
  import opened BootSteps
  import opened BootBottomUp
  import opened BootLost

  const SEEN := PARENT.(phase := ReadyWait, renderDone := true, watch := Watch({1}, {1}, 1, {}, {}))

  /** The parent goes on past a child that is half ready. */
  lemma ParentPasses(before: seq<Action>, child: Comp) returns (actions: seq<Action>)
    requires Run(before, TREE) == [PARENT, child] && HalfReady(child.sign) && Heard(child, 0, Drew) == child
    ensures |actions| > 1 && Run(actions[..|actions| - 1], TREE) == [SEEN, child]
    ensures Looking(Run(actions[..|actions| - 2], TREE), [SEEN, child], 0, 1)
    ensures Run(actions, TREE) == [SEEN.(phase := InOnReady), child]
  {
    hide Run;
    var drawn := PARENT.(phase := Yielding, renderDone := true);
    RunThen(before, EndLoad(0, Returns, Nothing));
    var loaded := before + [EndLoad(0, Returns, Nothing)];
    Two(Run(loaded, TREE), drawn, child);
    RunThen(loaded, EndYield(0));
    var looked := loaded + [EndYield(0)];
    assert UnreadyKids([drawn, child], {1}) == {};
    Two(Run(looked, TREE), SEEN, child);
    RunThen(looked, EndReadyWait(0));
    actions := looked + [EndReadyWait(0)];
    Two(Run(actions, TREE), SEEN.(phase := InOnReady), child);
    assert actions[..|actions| - 1] == looked && actions[..|actions| - 2] == loaded;
  }

  /** The parent's on_ready() runs, right after a look at which the child was neither ready nor stopped, and it still is
      not. */
  predicate TooEarly(actions: seq<Action>, child: Comp) {
    && |actions| > 1 && !Settled(child)
    && Run(actions[..|actions| - 1], TREE) == [SEEN, child]
    && Looking(Run(actions[..|actions| - 2], TREE), [SEEN, child], 0, 1)
    && Run(actions, TREE) == [SEEN.(phase := InOnReady), child]
  }

  /** `reload()` is called on the child, which fetches; it still is in the ready state, and the parent skips it. */
  lemma ReloadingChildPasses() returns (actions: seq<Action>, child: Comp)
    ensures TooEarly(actions, child) && child.phase == Loading && child.kind == Reloaded && child.own.hasLoad
  {
    actions := ChildBoots();
    hide Run;
    child := BOOTED.(kind := Reloaded, phase := Loading, sign := Signs(true, false, false, true, false));
    actions := ChildMoves(actions, Call(1, Reloaded, false), PARENT, BOOTED, child, Silent);
    actions := ParentPasses(actions, child);
  }

  /** `render()` is called on the child while it refreshes: the refresh ends in 'ready', the render leaves the ready
      state and waits for children; the sticky 'ready' of the refresh releases the parent, the child's on_ready() is
      still to come. */
  lemma RenderingChildPasses() returns (actions: seq<Action>, child: Comp)
    ensures TooEarly(actions, child) && child.phase == ReadyWait && child.kind == Rendered
  {
    actions := ChildBoots();
    hide Run;
    var fetching := BOOTED.(kind := Refreshed, phase := Loading, sign := Signs(true, false, false, true, false));
    actions := ChildMoves(actions, Call(1, Refreshed, false), PARENT, BOOTED, fetching, Silent);
    var called := fetching.(queue := [Rendered]);
    actions := ChildMoves(actions, Call(1, Rendered, false), PARENT, fetching, called, Silent);
    var fired := called.(phase := Idle, sign := Signs(true, true, false, true, false));
    actions := ChildMoves(actions, EndLoad(1, Returns, Nothing), PARENT, called, fired, Readied);
    actions, child := ThenRenders(actions, fired);
    actions := ParentPasses(actions, child);
  }

  lemma ThenRenders(before: seq<Action>, fired: Comp) returns (actions: seq<Action>, child: Comp)
    requires fired == BOOTED.(kind := Refreshed, queue := [Rendered], sign := Signs(true, true, false, true, false))
    requires Run(before, TREE) == [PARENT, fired]
    ensures child == BOOTED.(kind := Rendered, phase := ReadyWait, sign := Signs(false, true, false, true, false),
                             watch := Watch({}, {}, 2, {}, {}))
    ensures Run(actions, TREE) == [PARENT, child]
  {
    hide Run;
    var drawing := fired.(kind := Rendered, phase := Rerendering, queue := []);
    actions := ChildMoves(before, StartNext(1, false), PARENT, fired, drawing, Silent);
    child := BOOTED.(kind := Rendered, phase := ReadyWait, sign := Signs(false, true, false, true, false),
                     watch := Watch({}, {}, 2, {}, {}));
    assert UnreadyKids([PARENT, drawing], {}) == {};
    actions := ChildMoves(actions, EndRerender(1, Returns), PARENT, drawing, child, Drew);
  }
}

/** Two runs in which a parent waits for ever: for a child whose on_stop() throws, and for one whose render() does. */
module BootLost {
  import opened Boot
  import opened BootRuns
  import opened BootSteps
  import opened BootTheorems

  const TREE := Tree(2, true, false)

  /** One step more. */
  lemma RunThen(actions: seq<Action>, a: Action)
    requires Enabled(Run(actions, TREE), a, 2)
    ensures Run(actions + [a], TREE) == Step(Run(actions, TREE), a, 2)
  {
    assert (actions + [a])[..|actions|] == actions;
  }

  lemma Two(comps: seq<Comp>, x: Comp, y: Comp)
    requires |comps| == 2 && comps[0] == x && comps[1] == y
    ensures comps == [x, y]
  {
  }

  /** The child moves, and what it fires, if anything, changes nobody. */
  lemma ChildMoves(actions: seq<Action>, a: Action, x: Comp, y: Comp, z: Comp, event: Event) returns (more: seq<Action>)
    requires Run(actions, TREE) == [x, y] && !a.Spawn? && a.c == 1 && Enabled([x, y], a, 2)
    requires Segment([x, y], a, 2) == After(z, event) && Heard(x, 1, event) == x && Heard(z, 1, event) == z
    ensures more == actions + [a] && Run(more, TREE) == [x, z]
  {
    RunThen(actions, a);
    more := actions + [a];
    Two(Run(more, TREE), x, z);
  }

  const NONE := Signs(false, false, false, false, false)
  const PARENT := Comp(Own(-1, true, false), Booted, Loading, [], false, false, false, NONE, Watch({1}, {}, 0, {}, {}))
  const CHILD := New(Own(0, true, false))

  /** Parent 0 loads, and has child 1. */
  lemma ParentLoads() returns (actions: seq<Action>)
    ensures Run(actions, TREE) == [PARENT, CHILD]
  {
    hide Run;
    actions := [];
    Root();
    RunThen(actions, Spawn(0, true, false));
    actions := actions + [Spawn(0, true, false)];
    Two(Run(actions, TREE), PARENT.(phase := Rendering), CHILD);
    RunThen(actions, EndRender(0, Returns));
    actions := actions + [EndRender(0, Returns)];
    Two(Run(actions, TREE), PARENT, CHILD);
  }

  lemma Root()
    ensures Run([], TREE) == [New(Own(-1, true, false))]
  {
  }

  const WAITING := PARENT.(phase := ReadyWait, renderDone := true, watch := Watch({1}, {1}, 1, {}, {1}))

  /** The parent goes on and waits, whatever the child has become, if it is neither ready nor stopped. */
  lemma ParentWaits(before: seq<Action>, child: Comp) returns (actions: seq<Action>)
    requires Run(before, TREE) == [PARENT, child] && !Passes(child) && Heard(child, 0, Drew) == child
    ensures Run(actions, TREE) == [WAITING, child]
  {
    hide Run;
    actions := before;
    RunThen(actions, EndLoad(0, Returns, Nothing));
    actions := actions + [EndLoad(0, Returns, Nothing)];
    Two(Run(actions, TREE), PARENT.(phase := Yielding, renderDone := true), child);
    RunThen(actions, EndYield(0));
    actions := actions + [EndYield(0)];
    assert UnreadyKids([PARENT.(phase := Yielding, renderDone := true), child], {1}) == {1};
    Two(Run(actions, TREE), WAITING, child);
  }

  /** Child 1 is stopped while its parent waits, and its on_stop() throws: no 'stop' event is fired, everything comes to
      rest, and parent 0 is neither ready nor stopped. */
  lemma ThrowingStopHangsParent() returns (actions: seq<Action>)
    ensures var comps := Run(actions, TREE);
            AtRest(comps, 2) && |comps| == 2 && !Settled(comps[0]) && comps[1].stopped
  {
    actions := ParentLoads();
    actions := ParentWaits(actions, CHILD);
    hide Run;
    var stopped := CHILD.(stopped := true, lost := true);
    actions := ChildMoves(actions, Stop(1, true), WAITING, CHILD, stopped, Silent);
    actions := ChildMoves(actions, EndRender(1, Returns), WAITING, stopped, stopped.(phase := Idle), Silent);
  }

  const ALONE := Watch({}, {}, 1, {}, {})
  const BOOTED := Comp(Own(0, true, false), Booted, Idle, [], false, false, true,
      Signs(true, true, false, false, false), ALONE)

  /** Child 1 becomes ready while parent 0 still loads. */
  lemma ChildBoots() returns (actions: seq<Action>)
    ensures Run(actions, TREE) == [PARENT, BOOTED]
  {
    actions := ParentLoads();
    hide Run;
    var loading, yielding := CHILD.(phase := Loading), CHILD.(phase := Yielding, renderDone := true);
    var waiting := BOOTED.(phase := ReadyWait, sign := NONE);
    assert UnreadyKids([PARENT, yielding], {}) == {};
    actions := ChildMoves(actions, EndRender(1, Returns), PARENT, CHILD, loading, Silent);
    actions := ChildMoves(actions, EndLoad(1, Returns, Nothing), PARENT, loading, yielding, Drew);
    actions := ChildMoves(actions, EndYield(1), PARENT, yielding, waiting, Silent);
    actions := ChildMoves(actions, EndReadyWait(1), PARENT, waiting, waiting.(phase := InOnReady), Silent);
    actions := ChildMoves(actions, EndOnReady(1, Returns), PARENT, waiting.(phase := InOnReady), BOOTED, Readied);
  }

  const INVALID := Signs(true, false, false, false, false)
  const BROKEN := BOOTED.(kind := Rendered, sign := Signs(false, false, false, false, true),
      watch := Watch({}, {}, 2, {}, {}))

  /** Then `render()` is called on the child, and its on_ready() throws: nothing fires 'ready' again. */
  lemma ChildRenders() returns (actions: seq<Action>)
    ensures Run(actions, TREE) == [PARENT, BROKEN]
  {
    actions := ChildBoots();
    hide Run;
    var drawing := BOOTED.(kind := Rendered, phase := Rerendering, sign := INVALID);
    var waiting := BROKEN.(phase := ReadyWait, sign := NONE);
    assert UnreadyKids([PARENT, drawing], {}) == {};
    actions := ChildMoves(actions, Call(1, Rendered, false), PARENT, BOOTED, drawing, Silent);
    actions := ChildMoves(actions, EndRerender(1, Returns), PARENT, drawing, waiting, Drew);
    actions := ChildMoves(actions, EndReadyWait(1), PARENT, waiting, waiting.(phase := InOnReady), Silent);
    actions := ChildMoves(actions, EndOnReady(1, Throws(false, false)), PARENT, waiting.(phase := InOnReady), BROKEN,
        Silent);
  }

  /** The parent waits for that child for ever, though nothing was stopped. */
  lemma FailedRenderHangsParent() returns (actions: seq<Action>)
    ensures var comps := Run(actions, TREE);
            AtRest(comps, 2) && |comps| == 2 && !Settled(comps[0]) && Broken(comps, 1) && !LostToParent(comps, 1)
  {
    actions := ChildRenders();
    hide Run;
    actions := ParentWaits(actions, BROKEN);
  }
}

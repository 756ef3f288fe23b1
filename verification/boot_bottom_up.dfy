/** A tree of components becomes ready bottom-up, but for children that are half ready when their parent looks. */
module BootBottomUp {
  import opened Boot
  import opened BootRuns
  import opened BootSteps

  /** Child `k` was ready or stopped while `p` was at its look number `looks`. */
  predicate Met(comps: seq<Comp>, p: nat, k: nat, looks: nat) {
    p < |comps| && k < |comps| && comps[p].watch.looks == looks && Settled(comps[k])
  }

  /** This step is look number `looks` of `p`. */
  predicate Looking(before: seq<Comp>, after: seq<Comp>, p: nat, looks: nat) {
    p < |before| && p < |after| && before[p].watch.looks + 1 == after[p].watch.looks == looks
  }

  /** ... and it finds `k` alive, with only one of the ready state and the sticky 'ready'. */
  predicate Skims(before: seq<Comp>, after: seq<Comp>, p: nat, k: nat, looks: nat) {
    Looking(before, after, p, looks) && k < |after| && HalfReady(after[k].sign) && !after[k].stopped
  }

  /** `p` found `k` when it looked, and does not wait for it. */
  predicate Let(comps: seq<Comp>, p: nat, k: nat) {
    p < |comps| && k in comps[p].watch.found && k !in comps[p].watch.readyWait
  }

  /** How a step comes to let `k` pass. */
  predicate Lets(before: seq<Comp>, after: seq<Comp>, p: nat, k: nat)
    requires p < |before| && p < |after|
  {
    var looks := after[p].watch.looks;
    || Met(after, p, k, looks) || Skims(before, after, p, k, looks)
    || (Let(before, p, k) && before[p].watch.looks == looks)
  }

  predicate SameLook(p: Comp, q: Comp, k: nat) {
    && q.watch.looks == p.watch.looks && k in p.watch.found
    && (k in p.watch.readyWait ==> k in q.watch.readyWait)
  }

  /** The component that moves, about the children it found before or finds now. */
  lemma MoverLooks(comps: seq<Comp>, c: nat, after: After, k: nat)
    requires Inv(comps) && c < |comps| && Moved(comps, c, after) && k in Apply(comps, c, after)[c].watch.found
    ensures var r := Apply(comps, c, after);
            && c < k < |comps| && comps[k].sign == r[k].sign && comps[k].stopped == r[k].stopped
            && (SameLook(comps[c], r[c], k) ||
                (r[c].watch.looks == comps[c].watch.looks + 1 && (k in r[c].watch.readyWait <==> !Passes(r[k]))))
  {
    FoundLater(comps, c, after, k);
    MovedParts(comps, c, after);
    hide Inv, Local, Moved, Lives, UnrenderedKids, Awaited;
  }

  /** The children found are younger components of the tree. */
  lemma FoundLater(comps: seq<Comp>, c: nat, after: After, k: nat)
    requires Inv(comps) && c < |comps| && Moved(comps, c, after) && k in Apply(comps, c, after)[c].watch.found
    ensures c < k < |comps|
  {
    AppliedFamily(comps, c, after, c);
    LocalOf(comps, c);
    assert k in Family(Apply(comps, c, after)[c]) && k in Family(comps[c]);
    assert Knows(c, comps[c], k, comps[k]);
  }

  lemma MoverLets(comps: seq<Comp>, c: nat, after: After, k: nat)
    requires Inv(comps) && c < |comps| && Moved(comps, c, after) && Let(Apply(comps, c, after), c, k)
    ensures Lets(comps, Apply(comps, c, after), c, k)
  {
    MoverLooks(comps, c, after, k);
    hide Inv, Moved;
  }

  /** Who does not move hears 'ready' or 'stop' of a child that is ready or stopped. */
  lemma OtherLets(comps: seq<Comp>, c: nat, after: After, p: nat, k: nat)
    requires c < |comps| && p < |comps| && p != c && Moved(comps, c, after) && Let(Apply(comps, c, after), p, k)
    ensures Lets(comps, Apply(comps, c, after), p, k)
  {
    MovedParts(comps, c, after);
    assert Readies(comps[c], after);
    hide Local, Moved, Waits, UnreadyKids, UnrenderedKids, Awaited, Skims;
  }

  lemma StepLets(comps: seq<Comp>, a: Action, limit: nat, p: nat, k: nat)
    requires Inv(comps) && Enabled(comps, a, limit) && Let(Step(comps, a, limit), p, k)
    ensures p < |comps| && Lets(comps, Step(comps, a, limit), p, k)
  {
    if !a.Spawn? {
      LocalOf(comps, a.c);
      SegmentMoves(comps, a, limit);
      hide Inv, Segment, Moves, Local, Let, Lets;
      assert Let(Step(comps, a, limit), p, k) ==> p < |comps| by { LetInside(Step(comps, a, limit), p, k); }
      if p == a.c {
        MoverLets(comps, p, Segment(comps, a, limit), k);
      } else {
        OtherLets(comps, a.c, Segment(comps, a, limit), p, k);
      }
    }
  }

  lemma LetInside(comps: seq<Comp>, p: nat, k: nat)
    requires Let(comps, p, k)
    ensures p < |comps|
  {
  }

  /** The last of these actions is look number `looks` of `p`, and skims over `k`. */
  predicate SkimsLast(actions: seq<Action>, tree: Tree, p: nat, k: nat, looks: nat) {
    actions != [] && Skims(Run(actions[..|actions| - 1], tree), Run(actions, tree), p, k, looks)
  }

  ghost predicate WasMet(actions: seq<Action>, tree: Tree, p: nat, k: nat, looks: nat) {
    exists m :: 0 <= m <= |actions| && Met(Run(actions[..m], tree), p, k, looks)
  }

  ghost predicate WasSkimmed(actions: seq<Action>, tree: Tree, p: nat, k: nat, looks: nat) {
    exists m :: 0 <= m <= |actions| && SkimsLast(actions[..m], tree, p, k, looks)
  }

  lemma Longer(front: seq<Action>, actions: seq<Action>, tree: Tree, p: nat, k: nat, looks: nat)
    requires |front| <= |actions| && front == actions[..|front|]
    ensures WasMet(front, tree, p, k, looks) ==> WasMet(actions, tree, p, k, looks)
    ensures WasSkimmed(front, tree, p, k, looks) ==> WasSkimmed(actions, tree, p, k, looks)
  {
    hide Met, SkimsLast;
    forall m | 0 <= m <= |front| ensures front[..m] == actions[..m] {}
  }

  lemma Now(actions: seq<Action>, tree: Tree, p: nat, k: nat, looks: nat)
    ensures Met(Run(actions, tree), p, k, looks) ==> WasMet(actions, tree, p, k, looks)
    ensures SkimsLast(actions, tree, p, k, looks) ==> WasSkimmed(actions, tree, p, k, looks)
  {
    hide Met, SkimsLast;
    assert actions[..|actions|] == actions;
  }

  lemma {:induction false} LetWasMet(actions: seq<Action>, tree: Tree, p: nat, k: nat)
    requires Let(Run(actions, tree), p, k)
    ensures var looks := Run(actions, tree)[p].watch.looks;
            WasMet(actions, tree, p, k, looks) || WasSkimmed(actions, tree, p, k, looks)
    decreases |actions|
  {
    Now(actions, tree, p, k, Run(actions, tree)[p].watch.looks);
    if actions != [] {
      hide Enabled, Step, Inv, Let, Met, Skims, WasMet, WasSkimmed;
      var front, a := actions[..|actions| - 1], actions[|actions| - 1];
      var comps := Run(front, tree);
      RunKeeps(front, tree);
      if Enabled(comps, a, tree.limit) { StepLets(comps, a, tree.limit, p, k); }
      if Let(comps, p, k) {
        LetInside(comps, p, k);
        LetWasMet(front, tree, p, k);
        Longer(front, actions, tree, p, k, comps[p].watch.looks);
      }
    }
  }

  /** Whenever a component's on_ready() runs - in boot, in a render() or in a reload() -, each child it found when it
      last looked was ready or stopped at some moment since that look, or was half ready at it. */
  lemma {:induction false} BottomUp(actions: seq<Action>, tree: Tree, p: nat, k: nat)
    requires var comps := Run(actions, tree); p < |comps| && comps[p].phase == InOnReady && k in comps[p].watch.found
    ensures var looks := Run(actions, tree)[p].watch.looks;
            WasMet(actions, tree, p, k, looks) || WasSkimmed(actions, tree, p, k, looks)
  {
    RunKeeps(actions, tree);
    LocalOf(Run(actions, tree), p);
    LetWasMet(actions, tree, p, k);
  }

  /** What a look passes over, exactly: a child found that is neither ready nor stopped is not waited for exactly if it
      has one of the ready state and the sticky 'ready'. */
  lemma {:induction false} LookSkipsExactly(actions: seq<Action>, tree: Tree, p: nat, k: nat)
    requires actions != []
    requires var after := Run(actions, tree);
             p < |after| && k in after[p].watch.found
             && Looking(Run(actions[..|actions| - 1], tree), after, p, after[p].watch.looks)
    ensures var after := Run(actions, tree);
            && k < |after|
            && (k !in after[p].watch.readyWait && !Settled(after[k]) <==>
                HalfReady(after[k].sign) && !after[k].stopped)
  {
    var front, a := actions[..|actions| - 1], actions[|actions| - 1];
    var comps := Run(front, tree);
    RunKeeps(front, tree);
    assert Enabled(comps, a, tree.limit);
    StepLooks(comps, a, tree.limit, p, k);
  }

  lemma StepLooks(comps: seq<Comp>, a: Action, limit: nat, p: nat, k: nat)
    requires Inv(comps) && Enabled(comps, a, limit) && p < |comps|
    requires var r := Step(comps, a, limit); Looking(comps, r, p, r[p].watch.looks) && k in r[p].watch.found
    ensures var r := Step(comps, a, limit);
            k < |r| && (k !in r[p].watch.readyWait && !Settled(r[k]) <==> HalfReady(r[k].sign) && !r[k].stopped)
  {
    if !a.Spawn? {
      LocalOf(comps, a.c);
      SegmentMoves(comps, a, limit);
      hide Inv, Segment, Moves, Local;
      if p == a.c {
        MoverLooks(comps, p, Segment(comps, a, limit), k);
      }
    }
  }

  /** ... which a child is only while a call runs or waits on it, or after an executor of it has thrown. */
  lemma {:induction false} HalfReadyInCalls(actions: seq<Action>, tree: Tree, k: nat)
    requires k < |Run(actions, tree)| && HalfReady(Run(actions, tree)[k].sign) && !Run(actions, tree)[k].stopped
    ensures var c := Run(actions, tree)[k];
            c.sign.failed || c.queue != [] || (c.phase != Idle && c.kind != Booted)
  {
    RunKeeps(actions, tree);
    LocalOf(Run(actions, tree), k);
    assert Run(actions, tree)[k].phase == Idle ==> Resting(Run(actions, tree)[k]);
  }
}

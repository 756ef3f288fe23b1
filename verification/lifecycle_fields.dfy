/** The hook chain and the ready points as the code has them. */
module LifecycleMethods {
  import opened Options
  import opened ComponentQueues
  import opened LifecycleRuns

  /** The component's own lifecycle fields (packages/core/src/component.ts), and the methods on them
      that the steps of a run speak of. `ready` stands for "_ready_state >= 4 and the sticky 'ready' marker". */
  class LifecycleFields {
    var hooks: seq<Hook>
    var asyncHook: Option<nat>
    var owed: bool
    var ready: bool
    var stopped: bool

    constructor ()
      ensures hooks == [] && asyncHook == None && !owed && !ready && !stopped
    {
      hooks, asyncHook, owed, ready, stopped := [], None, false, false, false;
    }

    method HookStarts(name: HookName, cycle: nat) returns (run: nat)
      modifies this
      ensures run == old(|hooks|) && (hooks, asyncHook) == HookBegun(old(hooks), old(asyncHook), name, cycle)
      ensures owed == old(owed) && ready == old(ready) && stopped == old(stopped)
    {
      run := |hooks|;
      hooks := hooks + [Hook(name, false, asyncHook, cycle)];
      asyncHook := Some(run);
    }

    method HookSettles(run: nat)
      requires run < |hooks|
      modifies this
      ensures (hooks, asyncHook) == HookSettled(old(hooks), old(asyncHook), run)
      ensures owed == old(owed) && ready == old(ready) && stopped == old(stopped)
    {
      var previous := hooks[run].previous;
      hooks := hooks[run := hooks[run].(settled := true)];
      if asyncHook == Some(run) {
        asyncHook := None;
        if previous.Some? && previous.value < |hooks| && !hooks[previous.value].settled {
          asyncHook := previous;
        }
      }
    }

    method FireReady()
      modifies this`owed, this`ready
      ensures !owed && ready
    {
      owed := false;
      ready := true;
    }

    /** The end of `_ready()`: boot's 'ready' point. */
    method BootReadyPoint(hasPending: bool, promotedRunning: nat)
      modifies this`owed, this`ready
      ensures owed == LeavesOwed(Boot, old(owed), hasPending, promotedRunning) && ready == (old(ready) || !owed)
    {
      if hasPending || promotedRunning > 0 {
        owed := true;
        return;
      }
      FireReady();
    }

    method EntryReadyPoint(role: Role, promotedRunning: nat)
      requires role != Boot
      modifies this`owed, this`ready
      ensures owed == LeavesOwed(role, old(owed), false, promotedRunning) && ready == (old(ready) || !owed)
    {
      if owed || promotedRunning > 0 {
        owed := true;
        return;
      }
      FireReady();
    }

    /** The catch of `_reload()`: what Restores says. */
    method ReloadFails(wasReady: bool)
      modifies this`ready
      ensures ready == (old(ready) || (wasReady && !stopped))
    {
      if wasReady && !stopped { ready := true; }
    }

    /** What an `Idle` effect of the queue calls: the Idle case of Apply. */
    method OnQueueIdle()
      modifies this`owed, this`ready
      ensures var fires := old(owed) && !stopped; owed == (old(owed) && !fires) && ready == (old(ready) || fires)
    {
      if owed && !stopped {
        FireReady();
      }
    }
  }
}

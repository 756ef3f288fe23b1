/** The per-component lifecycle lock and its queue (packages/core/src/component-queue.ts).

    `Queue` and the functions on it say what each operation does to the lock; the class
    `ComponentQueue` is the queue object itself, its methods proved against them.  An
    operation does not run author code: what it asks of the JavaScript event loop (start an
    executor, set a zero timeout, report idle) is its `Effect`. */
module ComponentQueues {

  import opened Options

  /** Method plus arguments: the keys component.ts queues under, and boot's own place. */
  datatype Key = BootKey | RenderKey | LoadKey | ReloadKey | RefreshKey

  /** A queued call: `id` stands for the identity of the entry object, `callers` for its resolvers. */
  datatype Entry = Entry(id: nat, key: Key, callers: seq<nat>)

  datatype Effect =
    | Nothing
    | Start(entry: Entry)          // run the executor as the lock holder
    | StartPromoted(entry: Entry)  // run the executor nested in the holder's on_ready()
    | Handoff                      // setTimeout(..., 0): hand the lock to the next entry
    | Idle                         // _on_idle()

  datatype Queue = Queue(
    busy: bool,
    booting: bool,
    pending: seq<Entry>,
    promotedRunning: nat,
    releaseDeferred: bool,
    nextId: nat)

  function Release(q: Queue): (Queue, Effect) {
    if q.promotedRunning > 0 then (q.(releaseDeferred := true), Nothing)
    else if q.pending == [] then (q.(busy := false), Idle)
    else (q, Handoff)
  }

  function TimerFired(q: Queue): (Queue, Effect) {
    if q.pending == [] then (q.(busy := false), Idle)
    else (q.(pending := q.pending[1..], busy := true), Start(q.pending[0]))
  }

  function BeginBoot(q: Queue): Queue {
    q.(busy := true, booting := true)
  }

  function EndBoot(q: Queue): (Queue, Effect) {
    if !q.booting then (q, Nothing) else Release(q.(booting := false))
  }

  /** `end_boot()` is safe to call more than once: no call after the first does anything. */
  lemma EndBootOnce(q: Queue)
    ensures EndBoot(EndBoot(q).0) == (EndBoot(q).0, Nothing)
  {
  }

  /** The third component is the entry the call waits on; None when it started at once. */
  function Enqueue(q: Queue, key: Key, caller: nat): (Queue, Effect, Option<nat>) {
    var n := |q.pending|;
    if !q.busy then
      (q.(busy := true, nextId := q.nextId + 1), Start(Entry(q.nextId, key, [caller])), None)
    else if n > 0 && q.pending[n - 1].key == key then
      var last := q.pending[n - 1];
      (q.(pending := q.pending[n - 1 := last.(callers := last.callers + [caller])]), Nothing, Some(last.id))
    else
      (q.(pending := q.pending + [Entry(q.nextId, key, [caller])], nextId := q.nextId + 1), Nothing, Some(q.nextId))
  }

  /** Position of the entry in the pending array, or |pending| when it is no longer there. */
  function IndexOf(pending: seq<Entry>, id: nat): (k: nat)
    ensures k <= |pending|
    ensures k < |pending| ==> pending[k].id == id
    ensures forall i :: 0 <= i < k ==> pending[i].id != id
  {
    if pending == [] || pending[0].id == id then 0 else 1 + IndexOf(pending[1..], id)
  }

  function Promote(q: Queue, id: nat): (Queue, Effect) {
    var k := IndexOf(q.pending, id);
    if k == |q.pending| then (q, Nothing)
    else (q.(pending := q.pending[..k] + q.pending[k + 1..], promotedRunning := q.promotedRunning + 1),
          StartPromoted(q.pending[k]))
  }

  function PromotedEnded(q: Queue): (Queue, Effect)
    requires q.promotedRunning > 0
  {
    var p := q.(promotedRunning := q.promotedRunning - 1);
    if p.promotedRunning == 0 && p.releaseDeferred then Release(p.(releaseDeferred := false)) else (p, Nothing)
  }

  class ComponentQueue {
    var busy: bool
    var booting: bool
    var pending: seq<Entry>
    var promotedRunning: nat
    var releaseDeferred: bool
    var nextId: nat

    function Model(): Queue
      reads this
    {
      Queue(busy, booting, pending, promotedRunning, releaseDeferred, nextId)
    }

    constructor ()
      ensures Model() == Queue(false, false, [], 0, false, 0)
    {
      busy, booting, pending, promotedRunning, releaseDeferred, nextId := false, false, [], 0, false, 0;
    }

    method BeginBootNow()
      modifies this
      ensures Model() == BeginBoot(old(Model()))
    {
      busy := true;
      booting := true;
    }

    method EndBootNow() returns (effect: Effect)
      modifies this
      ensures (Model(), effect) == EndBoot(old(Model()))
    {
      effect := Nothing;
      if booting {
        booting := false;
        effect := ReleaseNow();
      }
    }

    method EnqueueCall(key: Key, caller: nat) returns (effect: Effect, entry: Option<nat>)
      modifies this
      ensures (Model(), effect, entry) == Enqueue(old(Model()), key, caller)
    {
      effect, entry := Nothing, None;
      if !busy {
        busy := true;
        effect := Start(Entry(nextId, key, [caller]));
        nextId := nextId + 1;
        return;
      }
      if |pending| > 0 {
        var last := pending[|pending| - 1];
        if last.key == key {
          pending := pending[|pending| - 1 := last.(callers := last.callers + [caller])];
          return Nothing, Some(last.id);
        }
      }
      entry := Some(nextId);
      pending := pending + [Entry(nextId, key, [caller])];
      nextId := nextId + 1;
    }

    method PromoteEntry(id: nat) returns (promoted: bool, effect: Effect)
      modifies this
      ensures (Model(), effect) == Promote(old(Model()), id)
      ensures promoted <==> exists i :: 0 <= i < |old(pending)| && old(pending)[i].id == id
    {
      var index := IndexOf(pending, id);
      if index == |pending| {
        return false, Nothing;
      }
      var entry := pending[index];
      pending := pending[..index] + pending[index + 1..];
      promotedRunning := promotedRunning + 1;
      return true, StartPromoted(entry);
    }

    method PromotedEntryEnded() returns (effect: Effect)
      requires promotedRunning > 0
      modifies this
      ensures (Model(), effect) == PromotedEnded(old(Model()))
    {
      effect := Nothing;
      promotedRunning := promotedRunning - 1;
      if promotedRunning == 0 && releaseDeferred {
        releaseDeferred := false;
        effect := ReleaseNow();
      }
    }

    method ReleaseNow() returns (effect: Effect)
      modifies this
      ensures (Model(), effect) == Release(old(Model()))
    {
      if promotedRunning > 0 {
        releaseDeferred := true;
        return Nothing;
      }
      if |pending| == 0 {
        busy := false;
        return Idle;
      }
      return Handoff;
    }

    method HandoffTimer() returns (effect: Effect)
      modifies this
      ensures (Model(), effect) == TimerFired(old(Model()))
    {
      if |pending| > 0 {
        var next := pending[0];
        pending := pending[1..];
        busy := true;
        return Start(next);
      }
      busy := false;
      return Idle;
    }
  }
}

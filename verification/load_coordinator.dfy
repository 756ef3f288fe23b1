/** Deduplicated first loads: the registry of packages/core/src/load-coordinator.ts and the
    leaders and followers of `_load()` (packages/core/src/component.ts) that use it. */
module LoadCoordinators {
  import opened Options

  type Key = string

  datatype Status = Loading | Completed | Failed

  /** A load's serialized result. `producer` is the load that produced it; the text itself is opaque. */
  datatype Text = Text(producer: nat, content: string)

  datatype Entry = Entry(status: Status, promise: nat, leader: nat, data: Option<Text>, waiting: seq<nat>)

  datatype Outcome = Pending | Resolved | Rejected

  /** A coordination promise: `settles` counts the resolve and reject calls made on it. */
  datatype Promise = Promise(key: Key, leader: nat, outcome: Outcome, settles: nat)

  datatype Coordination = Coordination(registry: map<Key, Entry>, promises: seq<Promise>)

  function Settle(p: Promise, outcome: Outcome): Promise {
    p.(outcome := if p.outcome == Pending then outcome else p.outcome, settles := p.settles + 1)
  }

  function SettleAt(promises: seq<Promise>, g: nat, outcome: Outcome): seq<Promise> {
    if g < |promises| then promises[g := Settle(promises[g], outcome)] else promises
  }

  function RemoveFirst(s: seq<nat>, x: nat): (r: seq<nat>)
    ensures x !in s ==> r == s
    ensures x in s ==> |r| == |s| - 1
    ensures forall y :: y in r ==> y in s
    ensures forall y :: y in s && y != x ==> y in r
  {
    if s == [] then [] else if s[0] == x then s[1..] else [s[0]] + RemoveFirst(s[1..], x)
  }

  /** The second component: does the component execute on_load() itself? */
  function ShouldExecute(c: Coordination, component: nat, key: Key): (Coordination, bool) {
    if key !in c.registry || c.registry[key].status != Loading then (c, true)
    else
      var e := c.registry[key];
      (c.(registry := c.registry[key := e.(waiting := e.waiting + [component])]), false)
  }

  function Register(c: Coordination, component: nat, key: Key): Coordination {
    Coordination(c.registry[key := Entry(Loading, |c.promises|, component, None, [])],
                 c.promises + [Promise(key, component, Pending, 0)])
  }

  function Complete(c: Coordination, key: Key, text: Option<Text>): Coordination {
    if key !in c.registry then c
    else
      var e := c.registry[key].(data := text, status := Completed);
      Coordination(if e.waiting == [] then c.registry - {key} else c.registry[key := e],
                   SettleAt(c.promises, e.promise, Resolved))
  }

  function Fail(c: Coordination, key: Key): Coordination {
    if key !in c.registry then c
    else Coordination(c.registry - {key}, SettleAt(c.promises, c.registry[key].promise, Rejected))
  }

  function Collect(c: Coordination, component: nat, key: Key): (Coordination, Option<Text>) {
    if key !in c.registry || c.registry[key].status != Completed || c.registry[key].data.None? then (c, None)
    else
      var e := c.registry[key];
      var rest := RemoveFirst(e.waiting, component);
      (c.(registry := if rest == [] then c.registry - {key} else c.registry[key := e.(waiting := rest)]), e.data)
  }

  class LoadCoordinator {
    var registry: map<Key, Entry>
    var promises: seq<Promise>

    function Model(): Coordination
      reads this
    {
      Coordination(registry, promises)
    }

    constructor ()
      ensures Model() == Coordination(map[], [])
    {
      registry, promises := map[], [];
    }

    method ShouldExecuteOnLoad(component: nat, key: Key) returns (execute: bool)
      modifies this
      ensures (Model(), execute) == ShouldExecute(old(Model()), component, key)
    {
      if key !in registry {
        return true;
      }
      var entry := registry[key];
      if entry.status == Loading {
        registry := registry[key := entry.(waiting := entry.waiting + [component])];
        return false;
      }
      return true;
    }

    method RegisterLeader(component: nat, key: Key) returns (promise: nat)
      modifies this
      ensures Model() == Register(old(Model()), component, key) && promise == |old(promises)|
    {
      promise := |promises|;
      promises := promises + [Promise(key, component, Pending, 0)];
      registry := registry[key := Entry(Loading, promise, component, None, [])];
    }

    method GetCoordinationPromise(key: Key) returns (promise: Option<nat>)
      ensures promise.Some? <==> key in registry && registry[key].status == Loading
      ensures promise.Some? ==> promise.value == registry[key].promise
    {
      if key !in registry || registry[key].status != Loading {
        return None;
      }
      return Some(registry[key].promise);
    }

    method CompleteCoordination(key: Key, text: Option<Text>)
      modifies this
      ensures Model() == Complete(old(Model()), key, text)
    {
      if key in registry {
        var entry := registry[key].(data := text, status := Completed);
        registry := registry[key := entry];
        promises := SettleAt(promises, entry.promise, Resolved);
        if |entry.waiting| == 0 {
          registry := registry - {key};
        }
      }
    }

    method GetLeaderData(component: nat, key: Key) returns (data: Option<Text>)
      modifies this
      ensures (Model(), data) == Collect(old(Model()), component, key)
    {
      if key !in registry || registry[key].status != Completed || registry[key].data.None? {
        return None;
      }
      var entry := registry[key].(waiting := RemoveFirst(registry[key].waiting, component));
      registry := registry[key := entry];
      if |entry.waiting| == 0 {
        registry := registry - {key};
        assert registry == old(registry) - {key};
      }
      return entry.data;
    }

    method HandleLeaderError(key: Key)
      modifies this
      ensures Model() == Fail(old(Model()), key)
    {
      if key in registry {
        var entry := registry[key].(status := Failed);
        promises := SettleAt(promises, entry.promise, Rejected);
        registry := registry - {key};
      }
    }
  }
}

/** The component event system (packages/core/src/component-events.ts): sticky events, once() wrappers and
    dispatch over a snapshot, as functions of the event store and as the methods that change it. */
module ComponentEvents {
  /** One registration: a plain callback, or the wrapper once() put around one. */
  datatype Reg = Reg(id: nat, once: bool)

  /** `_lifecycle_callbacks`, `_lifecycle_states`, and the `fired` flag of every wrapper. */
  datatype Store = Store(callbacks: map<string, seq<Reg>>, states: map<string, nat>, fired: set<nat>)

  function Registered(s: Store, event: string): seq<Reg> {
    if event in s.callbacks then s.callbacks[event] else []
  }

  function Registering(s: Store, event: string, reg: Reg): Store {
    s.(callbacks := s.callbacks[event := Registered(s, event) + [reg]])
  }

  function Triggering(s: Store, event: string, data: nat): Store { s.(states := s.states[event := data]) }

  function Invalidating(s: Store, event: string): Store { s.(states := s.states - {event}) }

  /** The array without the first occurrence of `reg`. */
  function Without(regs: seq<Reg>, reg: Reg): seq<Reg> {
    if regs == [] then [] else if regs[0] == reg then regs[1..] else [regs[0]] + Without(regs[1..], reg)
  }

  /** Does calling what was registered reach the author's handler? */
  predicate Runs(s: Store, reg: Reg) { !reg.once || reg.id !in s.fired }

  function Removing(s: Store, event: string, reg: Reg): Store {
    if event in s.callbacks then s.(callbacks := s.callbacks[event := Without(s.callbacks[event], reg)]) else s
  }

  /** The store as the author's handler finds it. */
  function Entering(s: Store, event: string, reg: Reg): Store {
    if !reg.once || reg.id in s.fired then s
    else
      Removing(s, event, reg).(fired := s.fired + {reg.id})
  }

  class Events {
    var callbacks: map<string, seq<Reg>>
    var states: map<string, nat>
    var fired: set<nat>

    ghost function Abs(): Store
      reads this
    {
      Store(callbacks, states, fired)
    }

    constructor ()
      ensures Abs() == Store(map[], map[], {})
    {
      callbacks, states, fired := map[], map[], {};
    }

    /** `event_on()`, up to the immediate call it makes when the event has occurred. */
    method EventOn(event: string, id: nat) returns (fires: bool, data: nat)
      modifies this
      ensures Abs() == Registering(old(Abs()), event, Reg(id, false))
      ensures fires <==> event in old(states)
      ensures fires ==> data == old(states)[event]
    {
      if event !in callbacks { callbacks := callbacks[event := []]; }
      callbacks := callbacks[event := callbacks[event] + [Reg(id, false)]];
      fires, data := event in states, 0;
      if fires { data := states[event]; }
    }

    /** `event_once()`: at once, or registered, never both. */
    method EventOnce(event: string, id: nat) returns (fires: bool, data: nat)
      modifies this
      ensures fires <==> event in old(states)
      ensures fires ==> data == old(states)[event] && Abs() == old(Abs())
      ensures !fires ==> Abs() == Registering(old(Abs()), event, Reg(id, true))
    {
      if event in states { return true, states[event]; }
      if event !in callbacks { callbacks := callbacks[event := []]; }
      callbacks := callbacks[event := callbacks[event] + [Reg(id, true)]];
      fires, data := false, 0;
    }

    /** `event_trigger()`, up to its loop: the payload is recorded, the callbacks are copied. */
    method EventTrigger(event: string, data: nat) returns (snapshot: seq<Reg>)
      modifies this`states
      ensures Abs() == Triggering(old(Abs()), event, data)
      ensures snapshot == Registered(old(Abs()), event)
    {
      states := states[event := data];
      snapshot := if event in callbacks then callbacks[event] else [];
    }

    /** Calling one entry of the snapshot, up to the author's handler. */
    method CallEntry(event: string, reg: Reg) returns (runs: bool)
      modifies this
      ensures runs == Runs(old(Abs()), reg)
      ensures Abs() == Entering(old(Abs()), event, reg)
    {
      if !reg.once { return true; }
      if reg.id in fired { return false; }
      fired := fired + {reg.id};
      SpliceOut(event, reg);
      runs := true;
    }

    /** `callbacks.splice(callbacks.indexOf(handler), 1)`: what a fired wrapper does, and the framework's own waiters
        when they settle. */
    method SpliceOut(event: string, reg: Reg)
      modifies this`callbacks
      ensures Abs() == Removing(old(Abs()), event, reg)
    {
      if event !in callbacks { return; }
      var regs := callbacks[event];
      var i := IndexOf(regs, reg);
      if i < |regs| {
        callbacks := callbacks[event := regs[..i] + regs[i + 1..]];
      } else {
        assert callbacks == callbacks[event := regs];
      }
    }

    static method IndexOf(regs: seq<Reg>, reg: Reg) returns (i: nat)
      ensures i <= |regs|
      ensures Without(regs, reg) == if i < |regs| then regs[..i] + regs[i + 1..] else regs
    {
      i := 0;
      while i < |regs| && regs[i] != reg
        invariant i <= |regs|
        invariant Without(regs, reg) == regs[..i] + Without(regs[i..], reg)
      {
        i := i + 1;
      }
      if i < |regs| {
        assert regs[i..][1..] == regs[i + 1..];
      } else {
        assert regs[..i] + Without(regs[i..], reg) == regs;
      }
    }

    method EventInvalidate(event: string)
      modifies this`states
      ensures Abs() == Invalidating(old(Abs()), event)
    {
      states := states - {event};
    }
  }
}

/** Any nesting of trigger, on, once, invalidate and the framework's own removals: one thread of control, whose stack
    holds dispatch loops and the handlers they called, and handlers that do what they like. */
module EventRuns {
  import opened ComponentEvents

  /** Why a handler was called: by a dispatch, or by on() or once() for an event that had occurred. */
  datatype Via = AtOnce | By(dispatch: nat)

  datatype Call = Call(reg: Reg, via: Via, data: nat)

  /** One trigger() call: its snapshot, and how many of its entries have been called. */
  datatype Dispatch = Dispatch(event: string, data: nat, snapshot: seq<Reg>, pos: nat)

  datatype Frame = Loop(dispatch: nat) | Handler(id: nat)

  /** A once() call: its event, and whether it fired at once. */
  datatype Once = Once(event: string, atOnce: bool)

  datatype State = State(
    store: Store,
    dispatches: seq<Dispatch>,
    stack: seq<Frame>,
    log: seq<Call>,
    onces: map<nat, Once>,
    nextId: nat)

  const INITIAL := State(Store(map[], map[], {}), [], [], [], map[], 0)

  /** What the running code does next; `Return` ends the innermost handler, a throw included, and `Next` is
      the innermost loop going on.  `Remove` takes a plain handler out: there is no off(), but the framework's
      waiters (_settle_on(), _wait_for_children_on_render()) remove theirs when they settle. */
  datatype Action =
    | On(event: string)
    | OnceOf(event: string)
    | Trigger(event: string, data: nat)
    | Invalidate(event: string)
    | Remove(event: string, id: nat)
    | Return
    | Next

  predicate InLoop(s: State) { s.stack != [] && s.stack[|s.stack| - 1].Loop? && Top(s).dispatch < |s.dispatches| }

  function Top(s: State): Frame
    requires s.stack != []
  {
    s.stack[|s.stack| - 1]
  }

  function Below(s: State): seq<Frame>
    requires s.stack != []
  {
    s.stack[..|s.stack| - 1]
  }

  /** The handler of `reg` is called. */
  function Called(s: State, reg: Reg, via: Via, data: nat): State {
    s.(stack := s.stack + [Handler(reg.id)], log := s.log + [Call(reg, via, data)])
  }

  function StepOn(s: State, event: string): State {
    var reg := Reg(s.nextId, false);
    var t := s.(store := Registering(s.store, event, reg), nextId := s.nextId + 1);
    if event in s.store.states then Called(t, reg, AtOnce, s.store.states[event]) else t
  }

  function StepOnce(s: State, event: string): State {
    var reg := Reg(s.nextId, true);
    var t := s.(nextId := s.nextId + 1);
    if event in s.store.states
    then Called(t.(onces := s.onces[reg.id := Once(event, true)]), reg, AtOnce, s.store.states[event])
    else t.(store := Registering(s.store, event, reg), onces := s.onces[reg.id := Once(event, false)])
  }

  function StepTrigger(s: State, event: string, data: nat): State {
    s.(store := Triggering(s.store, event, data),
       dispatches := s.dispatches + [Dispatch(event, data, Registered(s.store, event), 0)],
       stack := s.stack + [Loop(|s.dispatches|)])
  }

  function StepNext(s: State): State
    requires InLoop(s)
  {
    var n := Top(s).dispatch;
    var d := s.dispatches[n];
    if d.pos >= |d.snapshot| then s.(stack := Below(s))
    else
      var reg := d.snapshot[d.pos];
      var t := s.(store := Entering(s.store, d.event, reg), dispatches := s.dispatches[n := d.(pos := d.pos + 1)]);
      if Runs(s.store, reg) then Called(t, reg, By(n), d.data) else t
  }

  function Step(s: State, a: Action): State {
    if InLoop(s) then if a.Next? then StepNext(s) else s
    else
      match a
      case On(event) => StepOn(s, event)
      case OnceOf(event) => StepOnce(s, event)
      case Trigger(event, data) => StepTrigger(s, event, data)
      case Invalidate(event) => s.(store := Invalidating(s.store, event))
      case Remove(event, id) => s.(store := Removing(s.store, event, Reg(id, false)))
      case Return => if s.stack != [] && Top(s).Handler? then s.(stack := Below(s)) else s
      case Next => s
  }

  function Run(actions: seq<Action>): State {
    if actions == [] then INITIAL else Step(Run(actions[..|actions| - 1]), actions[|actions| - 1])
  }

  // ----- what is counted -----

  /** How often the handler of `id` was called. */
  function Count(log: seq<Call>, id: nat): nat {
    if log == [] then 0 else (if log[0].reg.id == id then 1 else 0) + Count(log[1..], id)
  }

  /** The registrations a dispatch called, in order. */
  function CalledBy(log: seq<Call>, n: nat): seq<Reg> {
    if log == [] then []
    else if log[0].via == By(n) then [log[0].reg] + CalledBy(log[1..], n)
    else CalledBy(log[1..], n)
  }

  function Plain(regs: seq<Reg>): seq<Reg> {
    if regs == [] then [] else if regs[0].once then Plain(regs[1..]) else [regs[0]] + Plain(regs[1..])
  }

  lemma {:induction false} CountMore(log: seq<Call>, c: Call, id: nat)
    ensures Count(log + [c], id) == Count(log, id) + if c.reg.id == id then 1 else 0
  {
    if log == [] {
      assert [] + [c] == [c] && [c][1..] == [];
    } else {
      assert (log + [c])[1..] == log[1..] + [c];
      CountMore(log[1..], c, id);
    }
  }

  lemma {:induction false} CalledByMore(log: seq<Call>, c: Call, n: nat)
    ensures CalledBy(log + [c], n) == if c.via == By(n) then CalledBy(log, n) + [c.reg] else CalledBy(log, n)
  {
    if log == [] {
      assert [] + [c] == [c] && [c][1..] == [];
    } else {
      assert (log + [c])[1..] == log[1..] + [c];
      CalledByMore(log[1..], c, n);
    }
  }

  lemma {:induction false} PlainMore(regs: seq<Reg>, reg: Reg)
    ensures Plain(regs + [reg]) == if reg.once then Plain(regs) else Plain(regs) + [reg]
  {
    if regs == [] {
      assert [] + [reg] == [reg] && [reg][1..] == [];
    } else {
      assert (regs + [reg])[1..] == regs[1..] + [reg];
      PlainMore(regs[1..], reg);
    }
  }
}

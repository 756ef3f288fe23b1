/** Any number of components sharing one storage, over whole runs: loads of one component overlap when promotion nests
    one in another. */
module CacheRuns {
  import opened Options
  import opened ComponentCache

  datatype Action =
    | Appear(key: Option<string>, data: string, skip: bool)
    | SetArgs(i: nat, key: Option<string>)
    | Begin(i: nat, kind: Kind, argsChanged: bool, skip: bool)
    | Return(i: nat, n: nat, text: Option<string>, accepted: bool)   // on_load() or on_load_error() of load n
    | Throw(i: nat, n: nat)                                          // on_load() of load n
    | Abandon(i: nat, n: nat)                                        // stopped, or nothing recovered it
    | Turn(i: nat, accepted: bool)
    | EndLoaded(i: nat)
    | Evict(entry: string)

  /** `begun` are the loads in the order of their numbers; `fetching` are in on_load(), `recovering` in on_load_error(),
      and `waiting` those whose results wait for their turn. */
  datatype Ledger = Ledger(
    begun: seq<Load>,
    fetching: set<nat>,
    recovering: set<nat>,
    waiting: seq<Result>,
    applying: bool)

  predicate Numbered(l: Ledger) {
    && (forall n :: n in l.fetching + l.recovering ==> n < |l.begun|)
    && (forall r :: r in l.waiting ==> r.load < |l.begun| && !l.begun[r.load].kind.PlainLoad?)
  }

  type Loads = l: Ledger | Numbered(l) witness Ledger([], {}, {}, [], false)

  /** `filed` is what the component last wrote, offered or was given under each key; `failedAt` how many accesses there
      had been when it first failed. */
  datatype Cell = Cell(inst: Inst, loads: Loads, filed: map<string, string>, failedAt: Option<nat>)

  /** `produced` holds what on_load() has produced, each under the key of its load's args; `ops` every access. */
  datatype State = State(
    cells: seq<Cell>,
    entries: map<string, string>,
    produced: set<(string, string)>,
    ops: seq<(nat, Op)>)

  const INITIAL := State([], map[], {}, [])

  datatype Out = Out(cell: Cell, op: Op)

  function InFlight(l: Ledger): set<nat> { l.fetching + l.recovering }

  function Landed(l: Loads, n: nat): Loads { l.(fetching := l.fetching - {n}, recovering := l.recovering - {n}) }

  /** Can the component do this now? */
  predicate Can(c: Cell, a: Action) {
    match a
    case SetArgs(_, _) => true
    case Begin(_, _, _, _) => true
    case Return(_, n, _, _) => n in InFlight(c.loads)
    case Throw(_, n) => n in c.loads.fetching
    case Abandon(_, n) => n in InFlight(c.loads)
    case Turn(_, _) => c.loads.waiting != [] && !c.loads.applying
    case EndLoaded(_) => c.loads.applying
    case _ => false
  }

  predicate Possible(s: State, a: Action) { a.Appear? || a.Evict? || (a.i < |s.cells| && Can(s.cells[a.i], a)) }

  function Begins(c: Cell, entries: map<string, string>, kind: Kind, argsChanged: bool, skip: bool): Out {
    var a, l := BeginLoad(c.inst, entries, kind, argsChanged, skip), c.loads;
    Out(c.(inst := a.inst, loads := Enrolled(l, Load(kind, c.inst.key, a.inst.data))), a.op)
  }

  function Enrolled(l: Loads, load: Load): Loads {
    l.(begun := l.begun + [load], fetching := l.fetching + {|l.begun|})
  }

  /** Only the newest load's result counts: load() applies it at once, boot and reload() queue it. */
  function Returned(c: Cell, n: nat, text: Option<string>): Out
    requires n in InFlight(c.loads)
  {
    var l, load := Landed(c.loads, n), c.loads.begun[n];
    if n + 1 != |l.begun| then Out(c.(loads := l), NoOp)
    else if !load.kind.PlainLoad? then Out(c.(loads := Queued(l, Result(n, text))), NoOp)
    else var a := AppliedIf(c.inst, load, text); Out(c.(inst := a.inst, loads := l), a.op)
  }

  function Queued(l: Loads, r: Result): Loads
    requires r.load < |l.begun| && !l.begun[r.load].kind.PlainLoad?
  {
    l.(waiting := l.waiting + [r])
  }

  /** The oldest waiting result has its turn. */
  function Turned(c: Cell): Out
    requires c.loads.waiting != []
  {
    var r := c.loads.waiting[0];
    var l: Loads := c.loads.(waiting := c.loads.waiting[1..], applying := r.text.Some?);
    var a := AppliedIf(c.inst, c.loads.begun[r.load], r.text);
    Out(c.(inst := a.inst, loads := l), a.op)
  }

  /** `at`: how many accesses there have been. */
  function CellStep(c: Cell, a: Action, entries: map<string, string>, at: nat): Out
    requires Can(c, a)
  {
    match a
    case SetArgs(_, key) => Out(c.(inst := c.inst.(key := key)), NoOp)
    case Begin(_, kind, argsChanged, skip) => Begins(c, entries, kind, argsChanged, skip)
    case Return(_, n, text, _) => Returned(c, n, text)
    case Throw(_, n) =>
      var l: Loads := c.loads.(fetching := c.loads.fetching - {n}, recovering := c.loads.recovering + {n});
      Out(Cell(c.inst.(failed := true), l, c.filed, if c.failedAt.Some? then c.failedAt else Some(at)), NoOp)
    case Abandon(_, n) => Out(c.(loads := Landed(c.loads, n)), NoOp)
    case Turn(_, _) => Turned(c)
    case EndLoaded(_) => Out(c.(loads := c.loads.(applying := false)), NoOp)
  }

  /** Component `i` becomes `o.cell` and makes the access `o.op`, which the storage may refuse if it is a write. */
  function Act(s: State, i: nat, o: Out, accepted: bool): State
    requires i < |s.cells|
  {
    State(
      s.cells[i := o.cell.(filed := Touched(o.cell.filed, o.op))],
      if o.op.Write? && accepted then s.entries[o.op.key := o.op.text] else s.entries,
      s.produced,
      if o.op.NoOp? then s.ops else s.ops + [(i, o.op)])
  }

  function Touched(filed: map<string, string>, op: Op): map<string, string> {
    match op
    case NoOp => filed
    case Read(key, given) => if given.Some? then filed[key := given.value] else filed
    case Write(key, text) => filed[key := text]
  }

  predicate Accepted(a: Action) {
    match a
    case Return(_, _, _, accepted) => accepted
    case Turn(_, accepted) => accepted
    case _ => true
  }

  /** What the action shows an on_load() to have produced. */
  function Product(s: State, a: Action): set<(string, string)>
    requires Possible(s, a)
  {
    if a.Return? && a.text.Some? && a.n in s.cells[a.i].loads.fetching && s.cells[a.i].loads.begun[a.n].key.Some?
        then {(s.cells[a.i].loads.begun[a.n].key.value, a.text.value)} else {}
  }

  function Newborn(key: Option<string>, data: string): Cell {
    Cell(Inst(key, None, None, data, false), Ledger([], {}, {}, [], false), map[], None)
  }

  function Step(s: State, a: Action): State
    requires Possible(s, a)
  {
    match a
    case Appear(key, data, skip) =>
      var c := Newborn(key, data);
      var after := ReadInCreate(c.inst, s.entries, skip);
      Act(s.(cells := s.cells + [c]), |s.cells|, Out(c.(inst := after.inst), after.op), true)
    case Evict(entry) => s.(entries := s.entries - {entry})
    case _ =>
      Act(s.(produced := s.produced + Product(s, a)), a.i, CellStep(s.cells[a.i], a, s.entries, |s.ops|),
          Accepted(a))
  }

  function Run(actions: seq<Action>): State {
    if actions == [] then INITIAL
    else
      var s, a := Run(actions[..|actions| - 1]), actions[|actions| - 1];
      if Possible(s, a) then Step(s, a) else s
  }
}

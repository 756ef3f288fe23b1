/** The serializer's walk over the object graph JavaScript hands it (packages/core/src/local-storage.ts):
    shared and cyclic references, and the mutable set of ancestors that tells them apart. */
module SerializerGraph {
  import opened Options
  import opened Serializer

  /** A property value: a primitive (or function), or a reference into the heap. */
  datatype Val = Prim(live: Live) | Ref(id: nat)

  datatype Prop = Prop(key: string, value: Val)

  /** What to_plain returned. */
  datatype Form = Throws | Plain(v: Val)

  /** `Alien` is an object its prototype gives away (DOM node, jQuery object, component, promise). */
  datatype Node =
    | Alien
    | Arr(items: seq<Val>)
    | Obj(props: seq<Prop>)
    | Own(name: string, props: seq<Prop>)
    | Hooked(name: string, props: seq<Prop>, form: Form)

  type Heap = map<nat, Node>

  function Read(props: seq<Prop>, key: string): Val {
    if props == [] then Prim(LUndefined)
    else if props[0].key == key then props[0].value
    else Read(props[1..], key)
  }

  /** The duck-typing test on an object's own properties. */
  predicate LooksForeign(props: seq<Prop>) {
    var cid, name := Read(props, "_cid"), Read(props, "component_name");
    || (Read(props, "nodeType").Prim? && Read(props, "nodeType").live.LNumber?)
    || (Read(props, "jquery").Prim? ==> Truthy(Read(props, "jquery").live))
    || (cid != Prim(LUndefined) && name == Prim(LFunction))
    || Read(props, "then") == Prim(LFunction)
  }

  predicate IsForeign(n: Node) {
    match n
    case Alien => true
    case Arr(_) => false
    case Obj(props) => LooksForeign(props)
    case Own(_, props) => LooksForeign(props)
    case Hooked(_, props, _) => LooksForeign(props)
  }

  // ----- the walk as a function of the ancestor set -----

  function Walk(heap: Heap, v: Val, seen: set<nat>, keep: bool): Option<Wire>
    decreases heap.Keys - seen, 2
  {
    if v.Prim? then Serialize(v.live, keep)
    else if v.id !in heap || IsForeign(heap[v.id]) || v.id in seen then None
    else
      var path := seen + {v.id};
      assert heap.Keys - path < heap.Keys - seen by { assert v.id in heap.Keys - seen; }
      match heap[v.id]
      case Alien => None
      case Arr(items) => Some(WArray(WalkItems(heap, items, path, keep)))
      case Obj(props) => Some(WObject(WalkProps(heap, props, path, keep)))
      case Own(name, props) => Some(ClassWire(name, WObject(WalkProps(heap, props, path, keep))))
      case Hooked(name, props, form) =>
        if form.Throws? then None
        else if form.v == v then Some(ClassWire(name, WObject(WalkProps(heap, props, path, keep))))
        else Some(ClassWire(name, OrNull(Walk(heap, form.v, path, keep))))
  }

  function WalkItems(heap: Heap, items: seq<Val>, path: set<nat>, keep: bool): (ws: seq<Wire>)
    ensures |ws| == |items|
    decreases heap.Keys - path, 3, items
  {
    if items == [] then []
    else [OrNull(Walk(heap, items[0], path, keep))] + WalkItems(heap, items[1..], path, keep)
  }

  function WalkProps(heap: Heap, props: seq<Prop>, path: set<nat>, keep: bool): seq<WireProp>
    decreases heap.Keys - path, 3, props
  {
    if props == [] then []
    else
      var w, rest := Walk(heap, props[0].value, path, keep), WalkProps(heap, props[1..], path, keep);
      if w.Some? && props[0].key != PROTO then [WireProp(props[0].key, w.value)] + rest else rest
  }

  lemma ItemStep(heap: Heap, items: seq<Val>, i: nat, path: set<nat>, keep: bool, ws: seq<Wire>)
    requires i < |items|
    ensures ws + WalkItems(heap, items[i..], path, keep) ==
            ws + [OrNull(Walk(heap, items[i], path, keep))] + WalkItems(heap, items[i + 1..], path, keep)
  {
    hide Walk;
    assert items[i..][1..] == items[i + 1..];
  }

  lemma PropStep(heap: Heap, props: seq<Prop>, i: nat, path: set<nat>, keep: bool, ps: seq<WireProp>)
    requires i < |props|
    ensures var w := Walk(heap, props[i].value, path, keep);
            ps + WalkProps(heap, props[i..], path, keep) ==
            (if w.Some? && props[i].key != PROTO then ps + [WireProp(props[i].key, w.value)] else ps)
            + WalkProps(heap, props[i + 1..], path, keep)
  {
    hide Walk;
    assert props[i..][1..] == props[i + 1..];
  }

  // ----- the code -----

  /** The `seen` WeakSet of one serialize_value() call. */
  class Ancestors {
    var seen: set<nat>

    constructor ()
      ensures seen == {}
    {
      seen := {};
    }

    /** `process_for_serialization()`: leaves the ancestor set as it found it. */
    method Process(heap: Heap, v: Val, keep: bool) returns (w: Option<Wire>)
      modifies this
      ensures seen == old(seen)
      ensures w == Walk(heap, v, seen, keep)
      decreases heap.Keys - seen, 2
    {
      if v.Prim? {
        return Serialize(v.live, keep);
      }
      if v.id !in heap || IsForeign(heap[v.id]) || v.id in seen {
        return None;
      }
      assert v.id in heap.Keys - seen;
      ghost var before := seen;
      seen := seen + {v.id};
      assert heap.Keys - seen < heap.Keys - before;
      match heap[v.id] {
        case Alien =>
          w := None;
        case Arr(items) =>
          var ws := ProcessItems(heap, items, keep);
          w := Some(WArray(ws));
        case Obj(props) =>
          var ps := ProcessOwnProperties(heap, props, keep);
          w := Some(WObject(ps));
        case Own(name, props) =>
          var ps := ProcessOwnProperties(heap, props, keep);
          w := Some(ClassWire(name, WObject(ps)));
        case Hooked(name, props, form) =>
          if form.Throws? {
            w := None;
          } else if form.v == v {
            var ps := ProcessOwnProperties(heap, props, keep);
            w := Some(ClassWire(name, WObject(ps)));
          } else {
            var plain := Process(heap, form.v, keep);
            w := Some(ClassWire(name, OrNull(plain)));
          }
      }
      seen := seen - {v.id};
      assert seen == before;
    }

    method ProcessItems(heap: Heap, items: seq<Val>, keep: bool) returns (ws: seq<Wire>)
      modifies this
      ensures seen == old(seen)
      ensures ws == WalkItems(heap, items, seen, keep)
      decreases heap.Keys - seen, 3, items
    {
      ws := [];
      var i := 0;
      while i < |items|
        invariant 0 <= i <= |items|
        invariant seen == old(seen)
        invariant ws + WalkItems(heap, items[i..], seen, keep) == WalkItems(heap, items, seen, keep)
      {
        ItemStep(heap, items, i, seen, keep, ws);
        hide Walk, WalkItems;
        var w := Process(heap, items[i], keep);
        ws := ws + [OrNull(w)];
        i := i + 1;
      }
    }

    method ProcessOwnProperties(heap: Heap, props: seq<Prop>, keep: bool) returns (ps: seq<WireProp>)
      modifies this
      ensures seen == old(seen)
      ensures ps == WalkProps(heap, props, seen, keep)
      decreases heap.Keys - seen, 3, props
    {
      ps := [];
      var i := 0;
      while i < |props|
        invariant 0 <= i <= |props|
        invariant seen == old(seen)
        invariant ps + WalkProps(heap, props[i..], seen, keep) == WalkProps(heap, props, seen, keep)
      {
        PropStep(heap, props, i, seen, keep, ps);
        hide Walk, WalkProps;
        var w := Process(heap, props[i].value, keep);
        if w.Some? && props[i].key != PROTO {
          ps := ps + [WireProp(props[i].key, w.value)];
        }
        i := i + 1;
      }
    }
  }

  // ----- the graph as a tree -----

  /** The graph under `v` as a tree: a reference back to an ancestor is cut, and nothing else is. */
  function Unfold(heap: Heap, v: Val, seen: set<nat>): Live
    decreases heap.Keys - seen, 2
  {
    if v.Prim? then v.live
    else if v.id !in heap || IsForeign(heap[v.id]) || v.id in seen then LOpaque
    else
      var path := seen + {v.id};
      assert heap.Keys - path < heap.Keys - seen by { assert v.id in heap.Keys - seen; }
      match heap[v.id]
      case Alien => LOpaque
      case Arr(items) => LArray(UnfoldItems(heap, items, path))
      case Obj(props) => LObject(UnfoldProps(heap, props, path))
      case Own(name, props) => LOwn(name, UnfoldProps(heap, props, path))
      case Hooked(name, props, form) =>
        if form.Throws? then LOpaque
        else if form.v == v then LHooked(name, LObject(UnfoldProps(heap, props, path)))
        else LHooked(name, Unfold(heap, form.v, path))
  }

  function UnfoldItems(heap: Heap, items: seq<Val>, path: set<nat>): seq<Live>
    decreases heap.Keys - path, 3, items
  {
    if items == [] then [] else [Unfold(heap, items[0], path)] + UnfoldItems(heap, items[1..], path)
  }

  function UnfoldProps(heap: Heap, props: seq<Prop>, path: set<nat>): seq<LiveProp>
    decreases heap.Keys - path, 3, props
  {
    if props == [] then []
    else [LiveProp(props[0].key, Unfold(heap, props[0].value, path))] + UnfoldProps(heap, props[1..], path)
  }

  lemma {:induction false} ReadUnfolded(heap: Heap, props: seq<Prop>, path: set<nat>, key: string)
    ensures Value(UnfoldProps(heap, props, path), key) == Unfold(heap, Read(props, key), path)
  {
    if props != [] { ReadUnfolded(heap, props[1..], path, key); }
  }

  lemma UnfoldedKind(heap: Heap, v: Val, path: set<nat>)
    ensures var u := Unfold(heap, v, path);
            v.Ref? ==> !u.LNumber? && !u.LFunction? && !u.LUndefined?
  {
  }

  lemma NotForeignUnfolded(heap: Heap, props: seq<Prop>, path: set<nat>)
    requires !LooksForeign(props)
    ensures !Foreign(UnfoldProps(heap, props, path))
  {
    hide Read, Value, UnfoldProps, Truthy;
    ReadUnfolded(heap, props, path, "nodeType");
    ReadUnfolded(heap, props, path, "jquery");
    ReadUnfolded(heap, props, path, "_cid");
    ReadUnfolded(heap, props, path, "component_name");
    ReadUnfolded(heap, props, path, "then");
    UnfoldedKind(heap, Read(props, "nodeType"), path);
    UnfoldedKind(heap, Read(props, "component_name"), path);
    UnfoldedKind(heap, Read(props, "then"), path);
  }

  /** On any graph, cyclic or not, the walk writes the unfolding. */
  lemma {:induction false} WalkWritesUnfolding(heap: Heap, v: Val, seen: set<nat>, keep: bool)
    ensures Walk(heap, v, seen, keep) == Serialize(Unfold(heap, v, seen), keep)
    decreases heap.Keys - seen, 2
  {
    if v.Ref? && v.id in heap && !IsForeign(heap[v.id]) && v.id !in seen {
      var path := seen + {v.id};
      assert v.id in heap.Keys - seen;
      assert heap.Keys - path < heap.Keys - seen;
      match heap[v.id]
      case Alien =>
      case Arr(items) => WalkWritesItems(heap, items, path, keep);
      case Obj(props) =>
        NotForeignUnfolded(heap, props, path);
        WalkWritesProps(heap, props, path, keep);
      case Own(name, props) =>
        NotForeignUnfolded(heap, props, path);
        WalkWritesProps(heap, props, path, keep);
      case Hooked(name, props, form) =>
        if form.Plain? {
          if form.v == v {
            NotForeignUnfolded(heap, props, path);
            WalkWritesProps(heap, props, path, keep);
          } else {
            WalkWritesUnfolding(heap, form.v, path, keep);
          }
        }
    }
  }

  lemma {:induction false} WalkWritesItems(heap: Heap, items: seq<Val>, path: set<nat>, keep: bool)
    ensures WalkItems(heap, items, path, keep) == SerializeItems(UnfoldItems(heap, items, path), keep)
    decreases heap.Keys - path, 3, items
  {
    if items != [] {
      WalkWritesUnfolding(heap, items[0], path, keep);
      WalkWritesItems(heap, items[1..], path, keep);
    }
  }

  lemma {:induction false} WalkWritesProps(heap: Heap, props: seq<Prop>, path: set<nat>, keep: bool)
    ensures WalkProps(heap, props, path, keep) == SerializeProps(UnfoldProps(heap, props, path), keep)
    decreases heap.Keys - path, 3, props
  {
    if props != [] {
      WalkWritesUnfolding(heap, props[0].value, path, keep);
      WalkWritesProps(heap, props[1..], path, keep);
    }
  }

  // ----- acyclic graphs -----

  ghost predicate Below(rank: map<nat, nat>, v: Val, r: nat) { v.Ref? ==> v.id in rank && rank[v.id] < r }

  ghost predicate ItemsBelow(rank: map<nat, nat>, items: seq<Val>, r: nat) {
    forall i :: 0 <= i < |items| ==> Below(rank, items[i], r)
  }

  ghost predicate PropsBelow(rank: map<nat, nat>, props: seq<Prop>, r: nat) {
    forall i :: 0 <= i < |props| ==> Below(rank, props[i].value, r)
  }

  /** Every reference goes from a higher rank to a lower one: the graph has no cycle, however much of it is shared. */
  ghost predicate Acyclic(heap: Heap, rank: map<nat, nat>) {
    && heap.Keys == rank.Keys
    && forall id :: id in heap ==>
       match heap[id]
       case Alien => true
       case Arr(items) => ItemsBelow(rank, items, rank[id])
       case Obj(props) => PropsBelow(rank, props, rank[id])
       case Own(_, props) => PropsBelow(rank, props, rank[id])
       case Hooked(_, props, form) =>
         PropsBelow(rank, props, rank[id]) && (form.Plain? && form.v != Ref(id) ==> Below(rank, form.v, rank[id]))
  }

  /** The tree a value stands for, every reference followed: no ancestor set. */
  ghost function Tree(heap: Heap, rank: map<nat, nat>, v: Val, r: nat): Live
    requires Acyclic(heap, rank) && Below(rank, v, r)
    decreases r, 0
  {
    if v.Prim? then v.live
    else if IsForeign(heap[v.id]) then LOpaque
    else
      match heap[v.id]
      case Alien => LOpaque
      case Arr(items) => LArray(TreeItems(heap, rank, items, rank[v.id]))
      case Obj(props) => LObject(TreeProps(heap, rank, props, rank[v.id]))
      case Own(name, props) => LOwn(name, TreeProps(heap, rank, props, rank[v.id]))
      case Hooked(name, props, form) =>
        if form.Throws? then LOpaque
        else if form.v == v then LHooked(name, LObject(TreeProps(heap, rank, props, rank[v.id])))
        else LHooked(name, Tree(heap, rank, form.v, rank[v.id]))
  }

  ghost function TreeItems(heap: Heap, rank: map<nat, nat>, items: seq<Val>, r: nat): seq<Live>
    requires Acyclic(heap, rank) && ItemsBelow(rank, items, r)
    decreases r, 1, items
  {
    if items == [] then [] else [Tree(heap, rank, items[0], r)] + TreeItems(heap, rank, items[1..], r)
  }

  ghost function TreeProps(heap: Heap, rank: map<nat, nat>, props: seq<Prop>, r: nat): seq<LiveProp>
    requires Acyclic(heap, rank) && PropsBelow(rank, props, r)
    decreases r, 1, props
  {
    if props == [] then []
    else [LiveProp(props[0].key, Tree(heap, rank, props[0].value, r))] + TreeProps(heap, rank, props[1..], r)
  }

  ghost predicate Above(rank: map<nat, nat>, path: set<nat>, r: nat) {
    forall id :: id in path ==> id in rank && rank[id] >= r
  }

  lemma {:induction false} UnfoldIsTree(heap: Heap, rank: map<nat, nat>, v: Val, r: nat, path: set<nat>)
    requires Acyclic(heap, rank) && Below(rank, v, r) && Above(rank, path, r)
    ensures Unfold(heap, v, path) == Tree(heap, rank, v, r)
    decreases r, 0
  {
    hide Foreign, LooksForeign;
    if v.Ref? && !IsForeign(heap[v.id]) {
      var inner := path + {v.id};
      match heap[v.id]
      case Alien =>
      case Arr(items) => UnfoldIsTreeItems(heap, rank, items, rank[v.id], inner);
      case Obj(props) => UnfoldIsTreeProps(heap, rank, props, rank[v.id], inner);
      case Own(name, props) => UnfoldIsTreeProps(heap, rank, props, rank[v.id], inner);
      case Hooked(name, props, form) =>
        UnfoldIsTreeProps(heap, rank, props, rank[v.id], inner);
        if form.Plain? && form.v != v { UnfoldIsTree(heap, rank, form.v, rank[v.id], inner); }
    }
  }

  lemma {:induction false} UnfoldIsTreeItems(heap: Heap, rank: map<nat, nat>, items: seq<Val>, r: nat, path: set<nat>)
    requires Acyclic(heap, rank) && ItemsBelow(rank, items, r) && Above(rank, path, r)
    ensures UnfoldItems(heap, items, path) == TreeItems(heap, rank, items, r)
    decreases r, 1, items
  {
    if items != [] {
      UnfoldIsTree(heap, rank, items[0], r, path);
      UnfoldIsTreeItems(heap, rank, items[1..], r, path);
    }
  }

  lemma {:induction false} UnfoldIsTreeProps(heap: Heap, rank: map<nat, nat>, props: seq<Prop>, r: nat, path: set<nat>)
    requires Acyclic(heap, rank) && PropsBelow(rank, props, r) && Above(rank, path, r)
    ensures UnfoldProps(heap, props, path) == TreeProps(heap, rank, props, r)
    decreases r, 1, props
  {
    if props != [] {
      UnfoldIsTree(heap, rank, props[0].value, r, path);
      UnfoldIsTreeProps(heap, rank, props[1..], r, path);
    }
  }

  /** On every acyclic graph, shared nodes included, the walk writes exactly the tree. */
  lemma AcyclicIsTree(heap: Heap, rank: map<nat, nat>, v: Val, r: nat, keep: bool)
    requires Acyclic(heap, rank) && Below(rank, v, r)
    ensures Walk(heap, v, {}, keep) == Serialize(Tree(heap, rank, v, r), keep)
  {
    WalkWritesUnfolding(heap, v, {}, keep);
    UnfoldIsTree(heap, rank, v, r, {});
  }

  // ----- cyclic graphs: only back-edges are dropped -----

  predicate Has(props: seq<Prop>, key: string) { props != [] && (props[0].key == key || Has(props[1..], key)) }

  predicate UniqueKeys(props: seq<Prop>) {
    props == [] || (!Has(props[1..], props[0].key) && UniqueKeys(props[1..]))
  }

  /** A JavaScript object has each of its keys once. */
  ghost predicate Objects(heap: Heap) {
    forall id :: id in heap && !heap[id].Alien? && !heap[id].Arr? ==> UniqueKeys(heap[id].props)
  }

  datatype Step = Item(i: nat) | Key(key: string) | PlainForm

  /** Where one step leads from an object: an item, an own property, or the plain form of an instance. */
  function Child(n: Node, id: nat, step: Step): Option<Val> {
    match n
    case Alien => None
    case Arr(items) => if step.Item? && step.i < |items| then Some(items[step.i]) else None
    case Obj(props) => ChildProp(props, step)
    case Own(_, props) => ChildProp(props, step)
    case Hooked(_, props, form) =>
      if form.Throws? then None
      else if form.v == Ref(id) then ChildProp(props, step)
      else if step.PlainForm? then Some(form.v)
      else None
  }

  function ChildProp(props: seq<Prop>, step: Step): Option<Val> {
    if step.Key? && step.key != PROTO && Has(props, step.key) then Some(Read(props, step.key)) else None
  }

  /** Following `steps` from `v` through serializable objects, none twice, ends at `u` with ancestors `path`. */
  ghost predicate Reaches(heap: Heap, v: Val, seen: set<nat>, steps: seq<Step>, u: Val, path: set<nat>)
    decreases steps
  {
    if steps == [] then u == v && path == seen
    else
      && v.Ref? && v.id in heap && !IsForeign(heap[v.id]) && v.id !in seen
      && Child(heap[v.id], v.id, steps[0]).Some?
      && Reaches(heap, Child(heap[v.id], v.id, steps[0]).value, seen + {v.id}, steps[1..], u, path)
  }

  function PropAt(props: seq<WireProp>, key: string): Option<Wire> {
    if props == [] then None else if props[0].key == key then Some(props[0].value) else PropAt(props[1..], key)
  }

  /** The part of what was written for a node that its step leads to. */
  function Part(n: Node, id: nat, w: Wire, step: Step): Option<Wire> {
    match n
    case Alien => None
    case Arr(_) => if w.WArray? && step.Item? && step.i < |w.items| then Some(w.items[step.i]) else None
    case Obj(_) => if w.WObject? && step.Key? then PropAt(w.props, step.key) else None
    case Own(_, _) => InInstance(w, step)
    case Hooked(_, _, form) =>
      if form == Plain(Ref(id)) then InInstance(w, step)
      else if w.WObject? && |w.props| == 2 then Some(w.props[1].value)
      else None
  }

  function InInstance(w: Wire, step: Step): Option<Wire> {
    if w.WObject? && |w.props| == 2 && w.props[1].value.WObject? && step.Key?
    then PropAt(w.props[1].value.props, step.key) else None
  }

  /** The same steps in what was written for `v`. */
  function Follow(heap: Heap, v: Val, w: Option<Wire>, steps: seq<Step>): Option<Wire>
    decreases steps
  {
    if steps == [] then w
    else if w.None? || v.Prim? || v.id !in heap || Child(heap[v.id], v.id, steps[0]).None? then None
    else Follow(heap, Child(heap[v.id], v.id, steps[0]).value, Part(heap[v.id], v.id, w.value, steps[0]), steps[1..])
  }

  /** `got` is what was written for a value due to be written as `due`: a dropped item or plain form is null. */
  predicate StandsFor(got: Option<Wire>, due: Option<Wire>) { got == due || (due.None? && got == Some(WNull)) }

  lemma {:induction false} AbsentProp(heap: Heap, props: seq<Prop>, path: set<nat>, keep: bool, key: string)
    requires !Has(props, key)
    ensures PropAt(WalkProps(heap, props, path, keep), key).None?
  {
    if props != [] { AbsentProp(heap, props[1..], path, keep, key); }
  }

  lemma {:induction false} WrittenProp(heap: Heap, props: seq<Prop>, path: set<nat>, keep: bool, key: string)
    requires UniqueKeys(props) && Has(props, key) && key != PROTO
    ensures PropAt(WalkProps(heap, props, path, keep), key) == Walk(heap, Read(props, key), path, keep)
  {
    if props[0].key == key {
      AbsentProp(heap, props[1..], path, keep, key);
    } else {
      WrittenProp(heap, props[1..], path, keep, key);
    }
  }

  lemma {:induction false} WrittenItem(heap: Heap, items: seq<Val>, path: set<nat>, keep: bool, i: nat)
    requires i < |items|
    ensures WalkItems(heap, items, path, keep)[i] == OrNull(Walk(heap, items[i], path, keep))
  {
    if i > 0 { WrittenItem(heap, items[1..], path, keep, i - 1); }
  }

  /** One step: the part written for a child is the walk of the child below this object. */
  lemma PartOfWalk(heap: Heap, v: Val, seen: set<nat>, step: Step, keep: bool)
    requires Objects(heap) && v.Ref? && v.id in heap && !IsForeign(heap[v.id]) && v.id !in seen
    requires Child(heap[v.id], v.id, step).Some?
    ensures var w := Walk(heap, v, seen, keep);
            && w.Some?
            && StandsFor(Part(heap[v.id], v.id, w.value, step),
                         Walk(heap, Child(heap[v.id], v.id, step).value, seen + {v.id}, keep))
  {
    hide LooksForeign, WalkItems, WalkProps, PropAt, UniqueKeys, Has, Read;
    var path := seen + {v.id};
    match heap[v.id]
    case Arr(items) => WrittenItem(heap, items, path, keep, step.i);
    case Obj(props) => WrittenProp(heap, props, path, keep, step.key);
    case Own(name, props) => WrittenProp(heap, props, path, keep, step.key);
    case Hooked(name, props, form) =>
      if form.v == v { WrittenProp(heap, props, path, keep, step.key); }
  }

  /** Everything a path of distinct objects reaches is written, as the walk of it below those objects. */
  lemma {:induction false} FollowsWalk(heap: Heap, v: Val, seen: set<nat>, steps: seq<Step>, u: Val, path: set<nat>,
                                       keep: bool,
                                       got: Option<Wire>)
    requires Objects(heap) && Reaches(heap, v, seen, steps, u, path)
    requires StandsFor(got, Walk(heap, v, seen, keep))
    ensures StandsFor(Follow(heap, v, got, steps), Walk(heap, u, path, keep))
    decreases steps
  {
    if steps != [] {
      PartOfWalk(heap, v, seen, steps[0], keep);
      var child := Child(heap[v.id], v.id, steps[0]).value;
      FollowsWalk(heap, child, seen + {v.id}, steps[1..], u, path, keep, Part(heap[v.id], v.id, got.value, steps[0]));
    }
  }

  /** A reference to a serializable object is dropped exactly when it points back to one of its ancestors. */
  lemma OnlyBackEdgesDropped(heap: Heap, v: Val, steps: seq<Step>, u: Val, path: set<nat>, keep: bool)
    requires Objects(heap) && Reaches(heap, v, {}, steps, u, path)
    requires u.Ref? && u.id in heap && !IsForeign(heap[u.id]) && (heap[u.id].Hooked? ==> heap[u.id].form.Plain?)
    ensures var got := Follow(heap, v, Walk(heap, v, {}, keep), steps);
            && (got.None? || got == Some(WNull) <==> u.id in path)
            && (u.id !in path ==> got == Walk(heap, u, path, keep))
  {
    hide LooksForeign, WalkItems, WalkProps;
    FollowsWalk(heap, v, {}, steps, u, path, keep, Walk(heap, v, {}, keep));
  }
}

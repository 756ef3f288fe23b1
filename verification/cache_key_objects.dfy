/** What an object counts as in a cache key, by its own properties: a DOM node, a jQuery object, or the map it is. */
module CacheKeyObjects {
  import opened JsStrings
  import opened Options
  import opened CacheKey
  import opened CacheKeyTheorems

  /** An object has a property once. */
  ghost predicate OnceEach(n: Node) {
    n.Obj? ==> forall i, j :: 0 <= i < j < |n.props| ==> n.props[i].key != n.props[j].key
  }

  /** What an `if` takes for false. */
  predicate Falsy(v: Val) {
    || v == VNull || v == VUndefined || v == VBool(false) || v == VString([])
    || (v.VNumber? && (v.text == Units("0") || v.text == Units("NaN")))
  }

  /** A DOM node, or an object with a number as its `nodeType`. */
  predicate LikeDomNode(n: Node) {
    n.DomNode? || (n.Obj? && exists p :: p in n.props && p.key == Units("nodeType") && p.value.VNumber?)
  }

  /** A jQuery object, or one whose `jquery` counts as true. */
  predicate LikeJquery(n: Node) {
    n.Jquery? || (n.Obj? && exists p :: p in n.props && p.key == Units("jquery") && !Falsy(p.value))
  }

  lemma {:induction false} ReadFinds(props: seq<Prop>, i: nat)
    requires OnceEach(Obj(props)) && i < |props|
    ensures Read(props, props[i].key) == props[i].value
  {
    if i != 0 {
      var rest := props[1..];
      assert forall j, k :: 0 <= j < k < |rest| ==> rest[j].key == props[j + 1].key && rest[k].key == props[k + 1].key;
      ReadFinds(rest, i - 1);
    }
  }

  lemma {:induction false} ReadMisses(props: seq<Prop>, key: JsString)
    requires forall p :: p in props ==> p.key != key
    ensures Read(props, key) == VUndefined
  {
    if props != [] { ReadMisses(props[1..], key); }
  }

  /** A property read by name, for a test that undefined fails. */
  lemma ReadTells(props: seq<Prop>, key: JsString)
    requires OnceEach(Obj(props))
    ensures Read(props, key) == VUndefined || Prop(key, Read(props, key)) in props
    ensures forall p :: p in props && p.key == key ==> p.value == Read(props, key)
  {
    if forall p :: p in props ==> p.key != key { ReadMisses(props, key); }
    forall p | p in props && p.key == key ensures p.value == Read(props, key) {
      var i :| 0 <= i < |props| && props[i] == p;
      ReadFinds(props, i);
    }
  }

  lemma KeysRead(props: seq<Prop>)
    requires OnceEach(Obj(props))
    ensures forall p :: p in props ==> p.key in KeysOf(props) && Read(props, p.key) == p.value
    ensures forall k :: k in KeysOf(props) ==> exists p :: p in props && p.key == k
  {
    var keys := KeysOf(props);
    forall p | p in props ensures p.key in keys && Read(props, p.key) == p.value {
      var i :| 0 <= i < |props| && props[i] == p;
      assert keys[i] == p.key;
      ReadFinds(props, i);
    }
    forall k | k in keys ensures exists p :: p in props && p.key == k {
      var i :| 0 <= i < |keys| && keys[i] == k;
      assert props[i] in props;
    }
  }

  lemma ImpostorIs(n: Node)
    requires OnceEach(n)
    ensures Impostor(n) == if LikeDomNode(n) then Some(IsDomNode) else if LikeJquery(n) then Some(IsJquery) else None
  {
    if n.Obj? {
      var nodeType, jquery := Prop(Units("nodeType"), Read(n.props, Units("nodeType"))),
                              Prop(Units("jquery"), Read(n.props, Units("jquery")));
      ReadTells(n.props, Units("nodeType"));
      ReadTells(n.props, Units("jquery"));
      assert nodeType.value.VNumber? ==> nodeType in n.props;
      assert !Falsy(jquery.value) ==> jquery in n.props;
      hide Units, Read;
    }
  }

  /** An object is told by its own properties before it is taken for data: what is like a DOM node is declined as one,
      else what is like a jQuery object as one, and both before a cycle is noticed. */
  lemma ImpostorsDecline(heap: Heap, id: nat, seen: set<nat>, size: nat)
    requires id in heap && OnceEach(heap[id])
    ensures var w, n := Walk(heap, VRef(id), seen, size), heap[id];
            && (LikeDomNode(n) ==> w == Declined(IsDomNode))
            && (!LikeDomNode(n) && LikeJquery(n) ==> w == Declined(IsJquery))
            && (!LikeDomNode(n) && !LikeJquery(n) && id in seen ==> w == Declined(Circular))
            && (!LikeDomNode(n) && !LikeJquery(n) && id !in seen && n.Classed? ==> w == Declined(NonPlainObject))
  {
    ImpostorIs(heap[id]);
    hide LikeDomNode, LikeJquery, Impostor, OnceEach;
  }

  /** Every value has data, and it is the map from each key to its own value's. */
  ghost predicate IsTheMapOf(d: Option<Data>, heap: Heap, props: seq<Prop>, path: set<nat>) {
    && (d.Some? <==> forall p :: p in props ==> DataOf(heap, p.value, path).Some?)
    && (d.Some? ==> d.value.DObject? && d.value.props.Keys == set p | p in props :: p.key)
    && (d.Some? ==> forall p :: p in props ==> Some(d.value.props[p.key]) == DataOf(heap, p.value, path))
  }

  lemma MapsItsKeys(heap: Heap, props: seq<Prop>, path: set<nat>)
    requires OnceEach(Obj(props))
    ensures IsTheMapOf(ObjectData(heap, Obj(props), path), heap, props, path)
  {
    KeysRead(props);
    hide Read, KeysOf, OnceEach, DataOf;
  }

  lemma DataOfObject(heap: Heap, id: nat, seen: set<nat>)
    requires id in heap
    ensures DataOf(heap, VRef(id), seen) ==
            if id in seen || Impostor(heap[id]).Some? then None else ObjectData(heap, heap[id], seen + {id})
  {
    hide Impostor, ObjectData;
  }

  /** An object is data exactly if it is none of these and all its values are, and then it is the map from each of its
      keys to that key's own value. */
  lemma ObjectIsItsProperties(heap: Heap, id: nat, seen: set<nat>)
    requires id in heap && heap[id].Obj? && OnceEach(heap[id])
    ensures var n, path, d := heap[id], seen + {id}, DataOf(heap, VRef(id), seen);
            if id in seen || LikeDomNode(n) || LikeJquery(n) then d == None else IsTheMapOf(d, heap, n.props, path)
  {
    ImpostorIs(heap[id]);
    MapsItsKeys(heap, heap[id].props, seen + {id});
    DataOfObject(heap, id, seen);
    hide *;
  }
}

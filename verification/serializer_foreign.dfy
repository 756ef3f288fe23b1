/** What the serializer drops for what it is: told by an object's own properties, on values and on graphs. */
module SerializerForeign {
  import opened Options
  import opened Serializer
  import G = SerializerGraph

  /** What an `if` takes for false. */
  predicate Falsy(v: Live) {
    || v == LNull || v == LUndefined || v == LBool(false) || v == LString("")
    || (v.LNumber? && (v.text == "0" || v.text == "-0" || v.text == "NaN"))
  }

  // ----- on values -----

  /** An object has a property once. */
  ghost predicate OnceEach(props: seq<LiveProp>) {
    forall i, j :: 0 <= i < j < |props| ==> props[i].key != props[j].key
  }

  predicate Has(props: seq<LiveProp>, key: string, holds: Live -> bool) {
    exists p :: p in props && p.key == key && holds(p.value)
  }

  /** A number as `nodeType`; a `jquery` that counts as true; a `_cid` beside a function `component_name`; a function
      `then`. */
  predicate DuckTyped(props: seq<LiveProp>) {
    || Has(props, "nodeType", (v: Live) => v.LNumber?)
    || Has(props, "jquery", (v: Live) => !Falsy(v))
    || (Has(props, "_cid", (v: Live) => !v.LUndefined?) && Has(props, "component_name", (v: Live) => v.LFunction?))
    || Has(props, "then", (v: Live) => v.LFunction?)
  }

  lemma {:induction false} ValueFinds(props: seq<LiveProp>, i: nat)
    requires OnceEach(props) && i < |props|
    ensures Value(props, props[i].key) == props[i].value
  {
    if i != 0 {
      var rest := props[1..];
      assert forall j, k :: 0 <= j < k < |rest| ==> rest[j].key == props[j + 1].key && rest[k].key == props[k + 1].key;
      ValueFinds(rest, i - 1);
    }
  }

  lemma {:induction false} ValueMisses(props: seq<LiveProp>, key: string)
    requires forall p :: p in props ==> p.key != key
    ensures Value(props, key) == LUndefined
  {
    if props != [] { ValueMisses(props[1..], key); }
  }

  /** A property read by name, for a test that undefined fails. */
  lemma ValueTells(props: seq<LiveProp>, key: string, holds: Live -> bool)
    requires OnceEach(props) && !holds(LUndefined)
    ensures holds(Value(props, key)) <==> Has(props, key, holds)
  {
    if forall p :: p in props ==> p.key != key {
      ValueMisses(props, key);
    } else {
      var i :| 0 <= i < |props| && props[i].key == key;
      ValueFinds(props, i);
      forall p | p in props && p.key == key ensures p == props[i] {
        var j :| 0 <= j < |props| && props[j] == p;
        assert !(i < j) && !(j < i);
      }
    }
  }

  lemma ForeignIs(props: seq<LiveProp>)
    requires OnceEach(props)
    ensures Foreign(props) <==> DuckTyped(props)
  {
    ValueTells(props, "nodeType", (v: Live) => v.LNumber?);
    ValueTells(props, "jquery", (v: Live) => !Falsy(v));
    ValueTells(props, "_cid", (v: Live) => !v.LUndefined?);
    ValueTells(props, "component_name", (v: Live) => v.LFunction?);
    ValueTells(props, "then", (v: Live) => v.LFunction?);
    hide Value, Has;
  }

  /** Of objects that carry their own properties, exactly the duck-typed are dropped. */
  lemma DuckTypedAreDropped(name: string, props: seq<LiveProp>, keep: bool)
    requires OnceEach(props)
    ensures Serialize(LObject(props), keep) == None <==> DuckTyped(props)
    ensures Serialize(LOwn(name, props), keep) == None <==> DuckTyped(props)
  {
    ForeignIs(props);
    hide Foreign, DuckTyped;
  }

  // ----- on graphs -----

  /** The properties as these tests see them: an object is none of the values they ask for, but counts as true. */
  function Seen(props: seq<G.Prop>): (ps: seq<LiveProp>)
    ensures |ps| == |props|
    ensures forall i :: 0 <= i < |props| ==> ps[i] == LiveProp(props[i].key, SeenValue(props[i].value))
  {
    if props == [] then [] else [LiveProp(props[0].key, SeenValue(props[0].value))] + Seen(props[1..])
  }

  function SeenValue(v: G.Val): Live { if v.Prim? then v.live else LOpaque }

  predicate LikeForeign(n: G.Node) { n.Alien? || (!n.Arr? && DuckTyped(Seen(n.props))) }

  lemma {:induction false} ReadSeen(props: seq<G.Prop>, key: string)
    ensures Value(Seen(props), key) == SeenValue(G.Read(props, key))
  {
    if props != [] { ReadSeen(props[1..], key); }
  }

  lemma LooksForeignIs(props: seq<G.Prop>)
    requires OnceEach(Seen(props))
    ensures G.LooksForeign(props) <==> DuckTyped(Seen(props))
  {
    ReadSeen(props, "nodeType");
    ReadSeen(props, "jquery");
    ReadSeen(props, "_cid");
    ReadSeen(props, "component_name");
    ReadSeen(props, "then");
    ForeignIs(Seen(props));
    hide Value, G.Read, Seen, DuckTyped, OnceEach;
  }

  lemma IsForeignIs(n: G.Node)
    requires n.Alien? || n.Arr? || OnceEach(Seen(n.props))
    ensures G.IsForeign(n) <==> LikeForeign(n)
  {
    if !n.Alien? && !n.Arr? { LooksForeignIs(n.props); }
    hide DuckTyped, Seen, OnceEach, G.LooksForeign;
  }

  /** A reference is dropped exactly if it dangles, is to an ancestor, is to something foreign, or to an instance whose
      to_plain throws: no array and nothing that merely holds such things is. */
  lemma DroppedExactly(heap: G.Heap, id: nat, seen: set<nat>, keep: bool)
    requires id in heap ==> heap[id].Alien? || heap[id].Arr? || OnceEach(Seen(heap[id].props))
    ensures G.Walk(heap, G.Ref(id), seen, keep) == None <==>
            id !in heap || id in seen || LikeForeign(heap[id]) || (heap[id].Hooked? && heap[id].form.Throws?)
  {
    if id in heap { IsForeignIs(heap[id]); }
    hide LikeForeign, G.IsForeign, OnceEach, Seen;
  }
}

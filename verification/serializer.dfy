/** The class-aware cache serializer (packages/core/src/local-storage.ts) on live values that
    are trees: what it writes, what it restores, and that what it restored it writes again
    unchanged - "the text a value was normalized through is its serialized form".

    `Wire` is the JSON value `JSON.stringify` turns into text; that `JSON.parse` gives it back
    is taken from the JSON standard. */
module Serializer {
  import opened Options

  const CLASS_MARKER := "__jqhtml_class__"
  const PROPS_MARKER := "__jqhtml_props__"
  const UNDEFINED_CLASS := "(undefined)"
  const PROTO := "__proto__"

  datatype WireProp = WireProp(key: string, value: Wire)

  datatype Wire =
    | WNull
    | WBool(b: bool)
    | WNumber(text: string)
    | WString(s: string)
    | WArray(items: seq<Wire>)
    | WObject(props: seq<WireProp>)

  datatype LiveProp = LiveProp(key: string, value: Live)

  /** A live value.  `LNumber` carries its text, "-0" for negative zero.  `LOpaque` is a symbol,
      a bigint, an instance whose to_plain threw, or an object its prototype gives away as a DOM node,
      jQuery object, component or promise.  `LObject` is a plain object or an instance of a class
      nobody registered; `LOwn` an instance stored by its own properties; `LHooked` an instance
      stored by the plain form its class writes for it. */
  datatype Live =
    | LNull
    | LUndefined
    | LBool(b: bool)
    | LNumber(text: string, finite: bool)
    | LString(s: string)
    | LFunction
    | LOpaque
    | LArray(items: seq<Live>)
    | LObject(props: seq<LiveProp>)
    | LOwn(name: string, props: seq<LiveProp>)
    | LHooked(name: string, plain: Live)

  /** A registered class.  For `Hooked`, `rebuild(p)` is the plain form of what from_plain makes of `p`,
      None when it throws, and `accepts(p)` says that `p` is a plain form the class writes. */
  datatype Class =
    | OwnProperties
    | MapEntries
    | SetItems
    | Hooked(rebuild: Live -> Option<Live>, accepts: Live -> bool)

  /** The property read `props.key`. */
  function Value(props: seq<LiveProp>, key: string): Live {
    if props == [] then LUndefined
    else if props[0].key == key then props[0].value
    else Value(props[1..], key)
  }

  predicate Truthy(v: Live) {
    match v
    case LNull | LUndefined => false
    case LBool(b) => b
    case LNumber(text, _) => text != "0" && text != "-0" && text != "NaN"
    case LString(s) => s != ""
    case _ => true
  }

  /** Live objects that only look like data: DOM node, jQuery object, component, promise. */
  predicate Foreign(props: seq<LiveProp>) {
    || Value(props, "nodeType").LNumber?
    || Truthy(Value(props, "jquery"))
    || (!Value(props, "_cid").LUndefined? && Value(props, "component_name").LFunction?)
    || Value(props, "then").LFunction?
  }

  function ClassWire(name: string, plain: Wire): Wire {
    WObject([WireProp(CLASS_MARKER, WString(name)), WireProp(PROPS_MARKER, plain)])
  }

  /** JSON prints either zero as "0". */
  function Printed(text: string): string { if text == "-0" then "0" else text }

  function OrNull(w: Option<Wire>): Wire { if w.Some? then w.value else WNull }

  /** `process_for_serialization()`; None is a dropped value.  `keepUndefined` is the snapshot's mode. */
  function Serialize(v: Live, keepUndefined: bool): Option<Wire>
    decreases v, 1
  {
    match v
    case LNull => Some(WNull)
    case LUndefined => if keepUndefined then Some(ClassWire(UNDEFINED_CLASS, WNumber("0"))) else None
    case LBool(b) => Some(WBool(b))
    case LNumber(text, finite) => Some(if finite then WNumber(Printed(text)) else WNull)
    case LString(s) => Some(WString(s))
    case LFunction | LOpaque => None
    case LArray(items) => Some(WArray(SerializeItems(items, keepUndefined)))
    case LObject(props) => if Foreign(props) then None else Some(WObject(SerializeProps(props, keepUndefined)))
    case LOwn(name, props) =>
      if Foreign(props) then None else Some(ClassWire(name, WObject(SerializeProps(props, keepUndefined))))
    case LHooked(name, plain) => Some(ClassWire(name, OrNull(Serialize(plain, keepUndefined))))
  }

  function SerializeItems(items: seq<Live>, keepUndefined: bool): (ws: seq<Wire>)
    ensures |ws| == |items|
    decreases items, 0
  {
    if items == [] then []
    else [OrNull(Serialize(items[0], keepUndefined))] + SerializeItems(items[1..], keepUndefined)
  }

  /** `process_own_properties()`: assigning `__proto__` makes no own property. */
  function SerializeProps(props: seq<LiveProp>, keepUndefined: bool): seq<WireProp>
    decreases props, 0
  {
    if props == [] then []
    else
      var w := Serialize(props[0].value, keepUndefined);
      var rest := SerializeProps(props[1..], keepUndefined);
      if w.Some? && props[0].key != PROTO then [WireProp(props[0].key, w.value)] + rest else rest
  }

  function Find(props: seq<WireProp>, key: string): (i: nat)
    ensures i <= |props|
    ensures i < |props| ==> props[i].key == key
    ensures forall j :: 0 <= j < i ==> props[j].key != key
  {
    if props == [] || props[0].key == key then 0 else 1 + Find(props[1..], key)
  }

  /** Both markers are there: the walk restores a class, whoever wrote the object. */
  predicate Marked(props: seq<WireProp>) {
    Find(props, CLASS_MARKER) < |props| && Find(props, PROPS_MARKER) < |props|
  }

  /** `process_for_deserialization()`. */
  ghost function Deserialize(w: Wire, classes: map<string, Class>): Live
    decreases w, 1
  {
    match w
    case WNull => LNull
    case WBool(b) => LBool(b)
    case WNumber(text) => LNumber(text, true)
    case WString(s) => LString(s)
    case WArray(items) => LArray(DeserializeItems(items, classes))
    case WObject(props) =>
      if !Marked(props) then LObject(DeserializeProps(props, classes))
      else
        var name := props[Find(props, CLASS_MARKER)].value;
        if name == WString(UNDEFINED_CLASS) then LUndefined
        else
          var plain := Deserialize(props[Find(props, PROPS_MARKER)].value, classes);
          if name.WString? && name.s in classes then Restore(name.s, classes[name.s], plain) else plain
  }

  ghost function DeserializeItems(items: seq<Wire>, classes: map<string, Class>): (vs: seq<Live>)
    ensures |vs| == |items|
    decreases items, 0
  {
    if items == [] then [] else [Deserialize(items[0], classes)] + DeserializeItems(items[1..], classes)
  }

  ghost function DeserializeProps(props: seq<WireProp>, classes: map<string, Class>): (ps: seq<LiveProp>)
    decreases props, 0
  {
    if props == [] then []
    else
      var rest := DeserializeProps(props[1..], classes);
      if props[0].key == PROTO then rest
      else [LiveProp(props[0].key, Deserialize(props[0].value, classes))] + rest
  }

  /** Restoring one instance: from_plain, or Object.assign onto the prototype; a throw leaves null. */
  ghost function Restore(name: string, class_: Class, plain: Live): Live {
    if class_.OwnProperties? then LOwn(name, if plain.LObject? || plain.LOwn? then plain.props else [])
    else
      var r := match class_
        case MapEntries => RebuildMap(plain)
        case SetItems => RebuildSet(plain)
        case Hooked(rebuild, _) => rebuild(plain);
      if r.Some? then LHooked(name, r.value) else LNull
  }

  // ----- Map and Set -----

  /** SameValueZero on restored values: an object is only ever the same as itself. */
  predicate SameKey(a: Live, b: Live) { a == b && (a.LNull? || a.LUndefined? || a.LBool? || a.LNumber? || a.LString?) }

  predicate IsEntry(e: Live) { e.LArray? && |e.items| == 2 }

  predicate AreEntries(s: seq<Live>) { forall i :: 0 <= i < |s| ==> IsEntry(s[i]) }

  function FindKey(entries: seq<Live>, key: Live): (i: nat)
    requires AreEntries(entries)
    ensures i <= |entries|
    ensures i < |entries| ==> SameKey(entries[i].items[0], key)
    ensures forall j :: 0 <= j < i ==> !SameKey(entries[j].items[0], key)
  {
    if entries == [] then 0
    else if SameKey(entries[0].items[0], key) then 0
    else 1 + FindKey(entries[1..], key)
  }

  /** `new Map(entries)`, read back as entries: a repeated key keeps its place and takes the later value. */
  function MapOf(entries: seq<Live>): (r: seq<Live>)
    requires AreEntries(entries)
    ensures AreEntries(r)
    ensures |r| <= |entries|
  {
    if entries == [] then []
    else
      var before := MapOf(entries[..|entries| - 1]);
      var e := entries[|entries| - 1];
      var i := FindKey(before, e.items[0]);
      if i < |before| then before[i := LArray([before[i].items[0], e.items[1]])] else before + [e]
  }

  function SetOf(items: seq<Live>): (r: seq<Live>)
    ensures |r| <= |items|
  {
    if items == [] then []
    else
      var before := SetOf(items[..|items| - 1]);
      var e := items[|items| - 1];
      if exists i :: 0 <= i < |before| && SameKey(before[i], e) then before else before + [e]
  }

  function RebuildMap(p: Live): Option<Live> {
    if p.LNull? then Some(LArray([]))
    else if p.LArray? && AreEntries(p.items) then Some(LArray(MapOf(p.items)))
    else None
  }

  function RebuildSet(p: Live): Option<Live> {
    if p.LNull? then Some(LArray([])) else if p.LArray? then Some(LArray(SetOf(p.items))) else None
  }

  ghost predicate DistinctItems(items: seq<Live>) {
    forall i, j :: 0 <= i < j < |items| ==> !SameKey(items[i], items[j])
  }

  function Keys(entries: seq<Live>): (ks: seq<Live>)
    requires AreEntries(entries)
  {
    seq(|entries|, i requires 0 <= i < |entries| => entries[i].items[0])
  }

  lemma DistinctGrows(front: seq<Live>, last: Live)
    ensures DistinctItems(front + [last]) <==>
            DistinctItems(front) && forall i :: 0 <= i < |front| ==> !SameKey(front[i], last)
  {
    var all := front + [last];
    assert forall i :: 0 <= i < |front| ==> all[i] == front[i];
    if DistinctItems(all) {
      forall i, j | 0 <= i < j < |front| ensures !SameKey(front[i], front[j]) { assert !SameKey(all[i], all[j]); }
      forall i | 0 <= i < |front| ensures !SameKey(front[i], last) { assert !SameKey(all[i], all[|front|]); }
    }
  }

  lemma MapGrows(front: seq<Live>, last: Live)
    requires AreEntries(front) && IsEntry(last)
    ensures var before := MapOf(front);
            if exists i :: 0 <= i < |before| && SameKey(Keys(before)[i], last.items[0])
            then |MapOf(front + [last])| == |before| else MapOf(front + [last]) == before + [last]
  {
    assert (front + [last])[..|front|] == front;
    var before := MapOf(front);
    var i := FindKey(before, last.items[0]);
    assert i < |before| ==> SameKey(Keys(before)[i], last.items[0]);
  }

  /** `new Map(entries)` keeps every entry exactly when no two keys are the same. */
  lemma {:induction false} MapOfExact(entries: seq<Live>)
    requires AreEntries(entries)
    ensures DistinctItems(Keys(entries)) ==> MapOf(entries) == entries
    ensures !DistinctItems(Keys(entries)) ==> |MapOf(entries)| < |entries|
  {
    hide SameKey, MapOf, FindKey;
    if entries == [] {
      MapOfEmpty();
    } else {
      var front, last := entries[..|entries| - 1], entries[|entries| - 1];
      MapOfExact(front);
      MapGrows(front, last);
      DistinctGrows(Keys(front), last.items[0]);
      assert Keys(entries) == Keys(front) + [last.items[0]];
      assert entries == front + [last];
    }
  }

  lemma MapOfEmpty()
    ensures MapOf([]) == []
  {
  }

  /** `new Set(items)` keeps every item exactly when no two are the same. */
  lemma {:induction false} SetOfExact(items: seq<Live>)
    ensures DistinctItems(items) ==> SetOf(items) == items
    ensures !DistinctItems(items) ==> |SetOf(items)| < |items|
  {
    if items != [] {
      var front, last := items[..|items| - 1], items[|items| - 1];
      SetOfExact(front);
      DistinctGrows(front, last);
      assert items == front + [last];
    }
  }

  /** What a stored collection restores to: null as an empty one, and anything but a list - for a Map, of pairs - as
      null. */
  lemma CollectionsRestore(name: string, class_: Class, plain: Live)
    requires class_.MapEntries? || class_.SetItems?
    ensures var r := Restore(name, class_, plain);
            && (plain.LNull? ==> r == LHooked(name, LArray([])))
            && (plain.LArray? ==> (r == LNull <==> class_.MapEntries? && exists e :: e in plain.items && !IsEntry(e)))
            && (!plain.LNull? && !plain.LArray? ==> r == LNull)
  {
    if plain.LArray? && !AreEntries(plain.items) {
      var i :| 0 <= i < |plain.items| && !IsEntry(plain.items[i]);
      assert plain.items[i] in plain.items;
    }
  }

  /** An instance stored by its own properties gets those of whatever its stored form restores to. */
  lemma InstanceRestores(name: string, other: string, props: seq<LiveProp>)
    ensures Restore(name, OwnProperties, LObject(props)) == LOwn(name, props)
    ensures Restore(name, OwnProperties, LOwn(other, props)) == LOwn(name, props)
  {
  }

  /** Which restored values a Map or Set takes for one: equal primitives, and no two objects. */
  lemma SameKeyIs(a: Live, b: Live)
    ensures SameKey(a, b) <==>
            if a.LNumber? && b.LNumber? then a.text == b.text && a.finite == b.finite
            else if a.LString? && b.LString? then a.s == b.s
            else if a.LBool? && b.LBool? then a.b == b.b
            else (a.LNull? && b.LNull?) || (a.LUndefined? && b.LUndefined?)
  {
  }
}

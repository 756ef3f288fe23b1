/** What the repository depends on about the serializer: the text a value was normalized through
    is the serialized form of the result, and a snapshot gives back what it was taken of. */
module SerializerTheorems {
  import opened Options
  import opened Serializer

  /** from_plain undoes to_plain on every plain form the class writes; no class has the reserved name. */
  ghost predicate Lawful(classes: map<string, Class>) {
    && UNDEFINED_CLASS !in classes
    && forall n, p :: n in classes && classes[n].Hooked? && classes[n].accepts(p) ==> classes[n].rebuild(p) == Some(p)
  }

  // ----- the data -----

  predicate Has(props: seq<LiveProp>, key: string) {
    props != [] && (props[0].key == key || Has(props[1..], key))
  }

  predicate UniqueKeys(props: seq<LiveProp>) {
    props == [] || (!Has(props[1..], props[0].key) && UniqueKeys(props[1..]))
  }

  /** An object of the author's data does not carry both marker keys. */
  predicate MarkerFree(props: seq<LiveProp>) { !Has(props, CLASS_MARKER) || !Has(props, PROPS_MARKER) }

  /** Data the promises are made for: marker-free objects, and every instance registered as what it
      is, its plain form still one its class writes after losing what JSON cannot express. */
  ghost predicate Clean(v: Live, classes: map<string, Class>, keep: bool)
    decreases v, 1
  {
    match v
    case LArray(items) => CleanItems(items, classes, keep)
    case LObject(props) => UniqueKeys(props) && MarkerFree(props) && CleanProps(props, classes, keep)
    case LOwn(name, props) =>
      && name in classes && classes[name].OwnProperties?
      && UniqueKeys(props) && MarkerFree(props) && CleanProps(props, classes, keep)
    case LHooked(name, plain) =>
      name in classes && Clean(plain, classes, keep) && FormOf(classes[name], OrNull(Serialize(plain, keep)), classes)
      && !classes[name].OwnProperties?
    case _ => true
  }

  ghost predicate CleanItems(items: seq<Live>, classes: map<string, Class>, keep: bool)
    decreases items, 0
  {
    items == [] || (Clean(items[0], classes, keep) && CleanItems(items[1..], classes, keep))
  }

  ghost predicate CleanProps(props: seq<LiveProp>, classes: map<string, Class>, keep: bool)
    decreases props, 0
  {
    props == [] || (Clean(props[0].value, classes, keep) && CleanProps(props[1..], classes, keep))
  }

  /** `p` is a wire form of what instances of the class write. */
  ghost predicate FormOf(class_: Class, p: Wire, classes: map<string, Class>) {
    match class_
    case OwnProperties => p.WObject? && !Marked(p.props)
    case MapEntries => p.WArray? && AreEntries(DeserializeItems(p.items, classes))
    case SetItems => p.WArray?
    case Hooked(_, accepts) => accepts(Deserialize(p, classes))
  }

  // ----- the wire -----

  /** What the serializer writes: markers only in its own class objects, no `__proto__`, no negative zero, nothing
      that would be taken for a DOM node once it is live again. */
  ghost predicate WellFormed(w: Wire, classes: map<string, Class>, keep: bool)
    decreases w, 1
  {
    match w
    case WNumber(text) => text != "-0"
    case WArray(items) => WellFormedItems(items, classes, keep)
    case WObject(props) =>
      if Marked(props) then
        && |props| == 2 && props[0].key == CLASS_MARKER && props[1].key == PROPS_MARKER && props[0].value.WString?
        && (if props[0].value.s == UNDEFINED_CLASS then keep && props[1].value == WNumber("0")
            else
              && props[0].value.s in classes
              && WellFormed(props[1].value, classes, keep)
              && FormOf(classes[props[0].value.s], props[1].value, classes))
      else WellFormedProps(props, classes, keep) && !Foreign(DeserializeProps(props, classes))
    case _ => true
  }

  ghost predicate WellFormedItems(items: seq<Wire>, classes: map<string, Class>, keep: bool)
    decreases items, 0
  {
    items == [] || (WellFormed(items[0], classes, keep) && WellFormedItems(items[1..], classes, keep))
  }

  ghost predicate WellFormedProps(props: seq<WireProp>, classes: map<string, Class>, keep: bool)
    decreases props, 0
  {
    props == [] ||
    (props[0].key != PROTO && WellFormed(props[0].value, classes, keep) && WellFormedProps(props[1..], classes, keep))
  }

  /** A restored Map or Set holds every entry it was written with: no two restored keys are the same. */
  ghost predicate Keeps(class_: Class, plain: Live) {
    match class_
    case MapEntries => plain.LArray? && AreEntries(plain.items) && DistinctItems(Keys(plain.items))
    case SetItems => plain.LArray? && DistinctItems(plain.items)
    case _ => true
  }

  /** Every Map and Set anywhere in the wire has distinct keys or items. */
  ghost predicate Distinct(w: Wire, classes: map<string, Class>)
    decreases w, 1
  {
    match w
    case WArray(items) => DistinctInItems(items, classes)
    case WObject(props) =>
      && DistinctInProps(props, classes)
      && (Marked(props) ==>
          var name := props[Find(props, CLASS_MARKER)].value;
          name.WString? && name.s in classes ==>
          Keeps(classes[name.s], Deserialize(props[Find(props, PROPS_MARKER)].value, classes)))
    case _ => true
  }

  ghost predicate DistinctInItems(items: seq<Wire>, classes: map<string, Class>)
    decreases items, 0
  {
    items == [] || (Distinct(items[0], classes) && DistinctInItems(items[1..], classes))
  }

  ghost predicate DistinctInProps(props: seq<WireProp>, classes: map<string, Class>)
    decreases props, 0
  {
    props == [] || (Distinct(props[0].value, classes) && DistinctInProps(props[1..], classes))
  }

  // ----- the fixpoint on the wire -----

  lemma MarkedPair(props: seq<WireProp>)
    requires |props| == 2 && props[0].key == CLASS_MARKER && props[1].key == PROPS_MARKER
    ensures Find(props, CLASS_MARKER) == 0 && Find(props, PROPS_MARKER) == 1 && Marked(props)
  {
    assert props[1..][0] == props[1];
  }

  /** Restoring a wire and serializing the result gives the wire back exactly when every Map and Set in it
      has distinct keys. */
  lemma {:induction false} Rewritten(w: Wire, classes: map<string, Class>, keep: bool)
    requires Lawful(classes) && WellFormed(w, classes, keep)
    ensures var again := Serialize(Deserialize(w, classes), keep);
            again.Some? && (again.value == w <==> Distinct(w, classes))
    decreases w, 1
  {
    hide Foreign, FormOf, Keeps, Restore, Lawful;
    match w
    case WArray(items) => RewrittenItems(items, classes, keep);
    case WObject(props) =>
      if Marked(props) {
        MarkedPair(props);
        RewrittenInstance(props, classes, keep);
      } else {
        RewrittenProps(props, classes, keep);
      }
    case _ =>
  }

  lemma DistinctClass(name: string, p: Wire, classes: map<string, Class>)
    requires name in classes && name != UNDEFINED_CLASS
    ensures Distinct(ClassWire(name, p), classes) <==>
            Distinct(p, classes) && Keeps(classes[name], Deserialize(p, classes))
    ensures Deserialize(ClassWire(name, p), classes) == Restore(name, classes[name], Deserialize(p, classes))
  {
    var props := ClassWire(name, p).props;
    MarkedPair(props);
    DistinctPair(props, classes);
  }

  lemma DistinctPair(props: seq<WireProp>, classes: map<string, Class>)
    requires |props| == 2
    ensures DistinctInProps(props, classes) <==> Distinct(props[0].value, classes) && Distinct(props[1].value, classes)
  {
    assert DistinctInProps(props[1..], classes) <==>
           Distinct(props[1..][0].value, classes) && DistinctInProps(props[1..][1..], classes);
    assert props[1..][1..] == [];
  }

  lemma ClassWireInjective(name: string, a: Wire, b: Wire)
    requires ClassWire(name, a) == ClassWire(name, b)
    ensures a == b
  {
    assert ClassWire(name, a).props[1].value == ClassWire(name, b).props[1].value;
  }

  lemma {:induction false} RewrittenInstance(props: seq<WireProp>, classes: map<string, Class>, keep: bool)
    requires Lawful(classes) && WellFormed(WObject(props), classes, keep) && Marked(props)
    ensures var again := Serialize(Deserialize(WObject(props), classes), keep);
            again.Some? && (again.value == WObject(props) <==> Distinct(WObject(props), classes))
    decreases props, 2
  {
    MarkedPair(props);
    var name, p := props[0].value.s, props[1].value;
    assert props == ClassWire(name, p).props;
    if name == UNDEFINED_CLASS {
      DistinctPair(props, classes);
    } else {
      Rewritten(p, classes, keep);
      DistinctClass(name, p, classes);
      RestoredRewritten(name, p, classes, keep);
    }
  }

  lemma RestoredRewritten(name: string, p: Wire, classes: map<string, Class>, keep: bool)
    requires Lawful(classes) && name in classes
    requires WellFormed(p, classes, keep) && FormOf(classes[name], p, classes)
    requires Serialize(Deserialize(p, classes), keep).Some?
    ensures var again := Serialize(Restore(name, classes[name], Deserialize(p, classes)), keep);
            && again.Some?
            && (again.value == ClassWire(name, p) <==>
                Serialize(Deserialize(p, classes), keep).value == p && Keeps(classes[name], Deserialize(p, classes)))
  {
    var plain := Deserialize(p, classes);
    hide Foreign, Deserialize, DeserializeItems, DeserializeProps, WellFormed, Serialize, ClassWire, MapOf, SetOf;
    match classes[name]
    case OwnProperties => PlainObject(p.props, classes, keep); OwnWritten(name, plain.props, p, keep);
    case MapEntries =>
      PlainArray(p.items, classes);
      MapOfExact(plain.items);
      HookedWritten(name, LArray(MapOf(plain.items)), p, keep);
      LengthWritten(MapOf(plain.items), p.items, keep);
    case SetItems =>
      PlainArray(p.items, classes);
      SetOfExact(plain.items);
      HookedWritten(name, LArray(SetOf(plain.items)), p, keep);
      LengthWritten(SetOf(plain.items), p.items, keep);
    case Hooked(_, _) => assert classes[name].rebuild(plain) == Some(plain); HookedWritten(name, plain, p, keep);
  }

  lemma HookedWritten(name: string, plain: Live, p: Wire, keep: bool)
    ensures var again := Serialize(LHooked(name, plain), keep);
            again.Some? && (again.value == ClassWire(name, p) <==> OrNull(Serialize(plain, keep)) == p)
  {
    if ClassWire(name, OrNull(Serialize(plain, keep))) == ClassWire(name, p) {
      ClassWireInjective(name, OrNull(Serialize(plain, keep)), p);
    }
  }

  lemma OwnWritten(name: string, props: seq<LiveProp>, p: Wire, keep: bool)
    requires !Foreign(props)
    ensures var again := Serialize(LOwn(name, props), keep);
            again.Some? && (again.value == ClassWire(name, p) <==> Serialize(LObject(props), keep) == Some(p))
  {
    var plain := WObject(SerializeProps(props, keep));
    if ClassWire(name, plain) == ClassWire(name, p) { ClassWireInjective(name, plain, p); }
  }

  lemma LengthWritten(items: seq<Live>, ws: seq<Wire>, keep: bool)
    ensures Serialize(LArray(items), keep).Some?
    ensures |items| != |ws| ==> Serialize(LArray(items), keep) != Some(WArray(ws))
  {
  }

  lemma PlainObject(props: seq<WireProp>, classes: map<string, Class>, keep: bool)
    requires WellFormed(WObject(props), classes, keep) && !Marked(props)
    ensures Deserialize(WObject(props), classes) == LObject(DeserializeProps(props, classes))
    ensures !Foreign(DeserializeProps(props, classes))
  {
  }

  lemma PlainArray(items: seq<Wire>, classes: map<string, Class>)
    ensures Deserialize(WArray(items), classes) == LArray(DeserializeItems(items, classes))
  {
  }

  lemma {:induction false} RewrittenItems(items: seq<Wire>, classes: map<string, Class>, keep: bool)
    requires Lawful(classes) && WellFormedItems(items, classes, keep)
    ensures SerializeItems(DeserializeItems(items, classes), keep) == items <==> DistinctInItems(items, classes)
    decreases items, 0
  {
    if items != [] {
      Rewritten(items[0], classes, keep);
      RewrittenItems(items[1..], classes, keep);
    }
  }

  lemma {:induction false} RewrittenProps(props: seq<WireProp>, classes: map<string, Class>, keep: bool)
    requires Lawful(classes) && WellFormedProps(props, classes, keep)
    ensures SerializeProps(DeserializeProps(props, classes), keep) == props <==> DistinctInProps(props, classes)
    decreases props, 0
  {
    if props != [] {
      Rewritten(props[0].value, classes, keep);
      RewrittenProps(props[1..], classes, keep);
    }
  }

  // ----- what a clean value is written as -----

  lemma {:induction false} WrittenKeys(props: seq<LiveProp>, keep: bool, key: string)
    requires !Has(props, key)
    ensures forall i :: 0 <= i < |SerializeProps(props, keep)| ==> SerializeProps(props, keep)[i].key != key
  {
    if props != [] {
      WrittenKeys(props[1..], keep, key);
    }
  }

  lemma WrittenUnmarked(props: seq<LiveProp>, keep: bool)
    requires MarkerFree(props)
    ensures !Marked(SerializeProps(props, keep))
  {
    if !Has(props, CLASS_MARKER) {
      WrittenKeys(props, keep, CLASS_MARKER);
    } else {
      WrittenKeys(props, keep, PROPS_MARKER);
    }
  }

  /** The restored value of a value, undefined standing for a dropped property. */
  ghost function Again(v: Live, classes: map<string, Class>, keep: bool): Live {
    var w := Serialize(v, keep);
    if w.Some? then Deserialize(w.value, classes) else LUndefined
  }

  lemma {:induction false} MissingValue(props: seq<LiveProp>, key: string)
    requires !Has(props, key)
    ensures Value(props, key) == LUndefined
  {
    if props != [] {
      MissingValue(props[1..], key);
    }
  }

  /** Reading a property of the restored object reads the restored property. */
  lemma {:induction false} ValueAgain(props: seq<LiveProp>, classes: map<string, Class>, keep: bool, key: string)
    requires UniqueKeys(props) && key != PROTO
    ensures Value(DeserializeProps(SerializeProps(props, keep), classes), key) ==
            Again(Value(props, key), classes, keep)
  {
    if props == [] {
      UndefinedAgain(classes, keep);
    } else {
      ValueAgain(props[1..], classes, keep, key);
      if props[0].key == key {
        MissingValue(props[1..], key);
        UndefinedAgain(classes, keep);
      }
    }
  }

  lemma UndefinedAgain(classes: map<string, Class>, keep: bool)
    ensures Again(LUndefined, classes, keep) == LUndefined
  {
    MarkedPair(ClassWire(UNDEFINED_CLASS, WNumber("0")).props);
  }

  /** Nothing turns into a number, a function or something truthy on the way. */
  lemma AgainKind(v: Live, classes: map<string, Class>, keep: bool)
    requires Clean(v, classes, keep) && Lawful(classes)
    ensures var a := Again(v, classes, keep);
            && (a.LNumber? ==> v.LNumber?)
            && !a.LFunction?
            && (Truthy(a) ==> Truthy(v))
  {
    if v.LUndefined? {
      UndefinedAgain(classes, keep);
    } else if v.LOwn? && !Foreign(v.props) {
      DistinctClass(v.name, WObject(SerializeProps(v.props, keep)), classes);
    } else if v.LHooked? {
      DistinctClass(v.name, OrNull(Serialize(v.plain, keep)), classes);
    } else if v.LObject? {
      WrittenUnmarked(v.props, keep);
    }
  }

  /** What a clean value is written as is well formed. */
  lemma {:induction false} WrittenWell(v: Live, classes: map<string, Class>, keep: bool)
    requires Lawful(classes) && Clean(v, classes, keep)
    ensures Serialize(v, keep).Some? ==> WellFormed(Serialize(v, keep).value, classes, keep)
    decreases v, 1
  {
    match v
    case LUndefined => MarkedPair(ClassWire(UNDEFINED_CLASS, WNumber("0")).props);
    case LArray(items) => WrittenWellItems(items, classes, keep);
    case LObject(props) =>
      if !Foreign(props) { WrittenWellObject(props, classes, keep); }
    case LOwn(name, props) =>
      if !Foreign(props) {
        WrittenWellObject(props, classes, keep);
        MarkedPair(Serialize(v, keep).value.props);
      }
    case LHooked(name, plain) =>
      WrittenWell(plain, classes, keep);
      MarkedPair(Serialize(v, keep).value.props);
    case _ =>
  }

  lemma {:induction false} WrittenWellObject(props: seq<LiveProp>, classes: map<string, Class>, keep: bool)
    requires Lawful(classes) && UniqueKeys(props) && MarkerFree(props) && CleanProps(props, classes, keep)
    requires !Foreign(props)
    ensures WellFormed(WObject(SerializeProps(props, keep)), classes, keep) && !Marked(SerializeProps(props, keep))
    decreases props, 1
  {
    WrittenUnmarked(props, keep);
    WrittenWellProps(props, classes, keep);
    NotForeignAgain(props, classes, keep);
  }

  lemma {:induction false} WrittenWellItems(items: seq<Live>, classes: map<string, Class>, keep: bool)
    requires Lawful(classes) && CleanItems(items, classes, keep)
    ensures WellFormedItems(SerializeItems(items, keep), classes, keep)
    decreases items, 0
  {
    if items != [] {
      WrittenWell(items[0], classes, keep);
      WrittenWellItems(items[1..], classes, keep);
    }
  }

  lemma {:induction false} WrittenWellProps(props: seq<LiveProp>, classes: map<string, Class>, keep: bool)
    requires Lawful(classes) && CleanProps(props, classes, keep)
    ensures WellFormedProps(SerializeProps(props, keep), classes, keep)
    decreases props, 0
  {
    if props != [] {
      WrittenWell(props[0].value, classes, keep);
      WrittenWellProps(props[1..], classes, keep);
    }
  }

  lemma {:induction false} CleanValue(props: seq<LiveProp>, classes: map<string, Class>, keep: bool, key: string)
    requires CleanProps(props, classes, keep)
    ensures Clean(Value(props, key), classes, keep)
  {
    if props != [] { CleanValue(props[1..], classes, keep, key); }
  }

  lemma NotForeignAgain(props: seq<LiveProp>, classes: map<string, Class>, keep: bool)
    requires Lawful(classes) && UniqueKeys(props) && CleanProps(props, classes, keep) && !Foreign(props)
    ensures !Foreign(DeserializeProps(SerializeProps(props, keep), classes))
  {
    hide Clean, CleanProps, UniqueKeys, Lawful, Value, Serialize, Deserialize, SerializeProps, DeserializeProps, Again,
      Truthy;
    forall key | key in ["nodeType", "jquery", "component_name", "then"]
      ensures var a := Value(DeserializeProps(SerializeProps(props, keep), classes), key);
              && (a.LNumber? ==> Value(props, key).LNumber?) && !a.LFunction? &&
                  (Truthy(a) ==> Truthy(Value(props, key)))
    {
      ValueAgain(props, classes, keep, key);
      CleanValue(props, classes, keep, key);
      AgainKind(Value(props, key), classes, keep);
    }
    assert forall key :: key in ["nodeType", "jquery", "component_name", "then"] <==>
      key == "nodeType" || key == "jquery" || key == "component_name" || key == "then";
  }

  // ----- hot data equals cold data -----

  datatype Normal = Normal(value: Live, text: Wire)

  const EMPTY := Normal(LObject([]), WObject([]))

  /** `Jqhtml_Local_Storage.normalize()`. */
  ghost function Normalize(v: Live, classes: map<string, Class>): Normal {
    var w := Serialize(v, false);
    if w.None? then EMPTY
    else
      var value := Deserialize(w.value, classes);
      if value.LNull? && !w.value.WNull? then EMPTY else Normal(value, w.value)
  }

  lemma CleanRestores(w: Wire, classes: map<string, Class>, keep: bool)
    requires Lawful(classes) && WellFormed(w, classes, keep)
    ensures Deserialize(w, classes).LNull? ==> w.WNull?
  {
    if w.WObject? && Marked(w.props) && w.props[0].value.s != UNDEFINED_CLASS {
      MarkedPair(w.props);
      var name, plain := w.props[0].value.s, Deserialize(w.props[1].value, classes);
      assert classes[name].Hooked? ==> classes[name].rebuild(plain) == Some(plain);
    }
  }

  /** The text a value was normalized through is the serialized form of the normalized value, and
      normalizing again changes nothing, exactly when no Map or Set lost an entry to a repeated key. */
  lemma NormalizeIsFixpoint(v: Live, classes: map<string, Class>)
    requires Lawful(classes) && Clean(v, classes, false)
    ensures var n := Normalize(v, classes);
            && n.text == (if Serialize(v, false).Some? then Serialize(v, false).value else WObject([]))
            && n.value == Deserialize(n.text, classes)
            && (Serialize(n.value, false) == Some(n.text) <==> Distinct(n.text, classes))
            && (Normalize(n.value, classes) == n <==> Distinct(n.text, classes))
  {
    var n := Normalize(v, classes);
    WrittenWell(v, classes, false);
    if Serialize(v, false).Some? {
      CleanRestores(Serialize(v, false).value, classes, false);
    } else {
      EmptyWell(classes);
    }
    Rewritten(n.text, classes, false);
    CleanRestores(n.text, classes, false);
  }

  lemma EmptyWell(classes: map<string, Class>)
    ensures WellFormed(WObject([]), classes, false)
    ensures Deserialize(WObject([]), classes) == LObject([])
  {
    assert DeserializeProps([], classes) == [];
    assert !Marked([]);
    assert !Foreign([]);
  }

  lemma NanAndNullWritten(classes: map<string, Class>)
    ensures var items := [LNumber("NaN", false), LNull];
            CleanItems(items, classes, false) && SerializeItems(items, false) == [WNull, WNull]
  {
    var items := [LNumber("NaN", false), LNull];
    assert items[1..] == [LNull] && [LNull][1..] == [];
    assert Clean(LNull, classes, false) && CleanItems([LNull], classes, false);
    assert SerializeItems([LNull], false) == [WNull];
    assert OrNull(Serialize(items[0], false)) == WNull;
  }

  lemma NullsRestored(classes: map<string, Class>)
    ensures DeserializeItems([WNull, WNull], classes) == [LNull, LNull] && !DistinctItems([LNull, LNull])
  {
    assert [WNull, WNull][1..] == [WNull];
    assert DeserializeItems([WNull], classes) == [LNull];
    assert SameKey([LNull, LNull][0], [LNull, LNull][1]);
  }

  /** A Set of NaN and null: both are written null, and the restored Set has one item. */
  lemma NanItemIsLost(classes: map<string, Class>)
    requires classes == map["Set" := SetItems]
    ensures var v := LHooked("Set", LArray([LNumber("NaN", false), LNull]));
            && Lawful(classes) && Clean(v, classes, false)
            && Serialize(Normalize(v, classes).value, false) != Some(Normalize(v, classes).text)
  {
    hide SerializeItems, DeserializeItems, DistinctItems, Normalize, Distinct;
    NanAndNullWritten(classes);
    NullsRestored(classes);
    DistinctClass("Set", WArray([WNull, WNull]), classes);
    NormalizeIsFixpoint(LHooked("Set", LArray([LNumber("NaN", false), LNull])), classes);
  }

  // ----- the on_create() snapshot -----

  /** Everything the snapshot can express: finite numbers, no function or live object, no `__proto__`
      key, no Map or Set whose keys JSON cannot tell apart. */
  ghost predicate Expressible(v: Live, classes: map<string, Class>)
    decreases v, 1
  {
    match v
    case LNumber(text, finite) => finite && text != "-0"
    case LFunction | LOpaque => false
    case LArray(items) => ExpressibleItems(items, classes)
    case LObject(props) => !Foreign(props) && ExpressibleProps(props, classes)
    case LOwn(_, props) => !Foreign(props) && ExpressibleProps(props, classes)
    case LHooked(name, plain) => Expressible(plain, classes) && name in classes && Keeps(classes[name], plain)
    case _ => true
  }

  ghost predicate ExpressibleItems(items: seq<Live>, classes: map<string, Class>)
    decreases items, 0
  {
    items == [] || (Expressible(items[0], classes) && ExpressibleItems(items[1..], classes))
  }

  ghost predicate ExpressibleProps(props: seq<LiveProp>, classes: map<string, Class>)
    decreases props, 0
  {
    props == [] ||
    (props[0].key != PROTO && Expressible(props[0].value, classes) && ExpressibleProps(props[1..], classes))
  }

  /** `restore_snapshot(snapshot(v))` is v itself - undefined properties included - exactly when v is
      expressible. */
  lemma {:induction false} SnapshotExact(v: Live, classes: map<string, Class>)
    requires Lawful(classes) && Clean(v, classes, true)
    ensures (Serialize(v, true).Some? && Deserialize(Serialize(v, true).value, classes) == v) <==>
            Expressible(v, classes)
    decreases v, 1
  {
    match v
    case LUndefined => UndefinedAgain(classes, true);
    case LArray(items) => SnapshotItems(items, classes);
    case LObject(props) =>
      WrittenUnmarked(props, true);
      SnapshotProps(props, classes);
    case LOwn(name, props) =>
      WrittenUnmarked(props, true);
      SnapshotProps(props, classes);
      DistinctClass(name, WObject(SerializeProps(props, true)), classes);
    case LHooked(name, plain) =>
      SnapshotExact(plain, classes);
      DistinctClass(name, OrNull(Serialize(plain, true)), classes);
      SnapshotHooked(name, plain, classes);
    case _ =>
  }

  lemma SnapshotHooked(name: string, plain: Live, classes: map<string, Class>)
    requires Lawful(classes) && Clean(LHooked(name, plain), classes, true)
    requires (Serialize(plain, true).Some? && Deserialize(Serialize(plain, true).value, classes) == plain)
             <==> Expressible(plain, classes)
    ensures Restore(name, classes[name], Deserialize(OrNull(Serialize(plain, true)), classes)) == LHooked(name, plain)
            <==> Expressible(plain, classes) && Keeps(classes[name], plain)
  {
    var again := Deserialize(OrNull(Serialize(plain, true)), classes);
    match classes[name]
    case MapEntries => MapOfExact(again.items);
    case SetItems => SetOfExact(again.items);
    case Hooked(_, _) => assert classes[name].rebuild(again) == Some(again);
  }

  lemma {:induction false} SnapshotItems(items: seq<Live>, classes: map<string, Class>)
    requires Lawful(classes) && CleanItems(items, classes, true)
    ensures DeserializeItems(SerializeItems(items, true), classes) == items <==> ExpressibleItems(items, classes)
    decreases items, 0
  {
    if items != [] {
      SnapshotExact(items[0], classes);
      SnapshotItems(items[1..], classes);
    }
  }

  lemma {:induction false} SnapshotProps(props: seq<LiveProp>, classes: map<string, Class>)
    requires Lawful(classes) && CleanProps(props, classes, true)
    ensures |DeserializeProps(SerializeProps(props, true), classes)| <= |props|
    ensures DeserializeProps(SerializeProps(props, true), classes) == props <==> ExpressibleProps(props, classes)
    decreases props, 0
  {
    if props != [] {
      SnapshotExact(props[0].value, classes);
      SnapshotProps(props[1..], classes);
    }
  }
}

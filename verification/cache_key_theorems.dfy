/** What a cache key promises: two arguments get the same text exactly when they are the same data, key
    order aside, and no text reaches 1000 units. */
module CacheKeyTheorems {
  import opened JsStrings
  import opened Options
  import opened CacheKey

  /** Plain data; an object is what it maps its keys to, so key order is not part of it. */
  datatype Data =
    | DNull
    | DUndefined
    | DBool(b: bool)
    | DNumber(text: Bare)
    | DString(s: JsString)
    | DDate(iso: Bare)
    | DArray(items: seq<Data>)
    | DObject(props: map<JsString, Data>)

  // ----- the data a value stands for -----

  /** None when the walk declines it for what it is, whatever its size. */
  ghost function DataOf(heap: Heap, v: Val, seen: set<nat>): Option<Data>
    decreases heap.Keys - seen, 2
  {
    match v
    case VNull => Some(DNull)
    case VUndefined => Some(DUndefined)
    case VBool(b) => Some(DBool(b))
    case VNumber(text) => Some(DNumber(text))
    case VString(s) => Some(DString(s))
    case VFunction | VSymbol | VBigint => None
    case VRef(id) =>
      if id !in heap || Impostor(heap[id]).Some? || id in seen then None
      else
        assert id in heap.Keys - seen;
        ObjectData(heap, heap[id], seen + {id})
  }

  ghost function ObjectData(heap: Heap, n: Node, path: set<nat>): Option<Data>
    decreases heap.Keys - path, 4
  {
    match n
    case Dated(iso) => if iso.Some? then Some(DDate(iso.value)) else None
    case Arr(items) =>
      var ds := ItemsData(heap, items, path);
      if ds.Some? then Some(DArray(ds.value)) else None
    case Obj(props) =>
      if forall k :: k in KeysOf(props) ==> DataOf(heap, Read(props, k), path).Some?
      then Some(DObject(map k | k in KeysOf(props) :: DataOf(heap, Read(props, k), path).value))
      else None
    case _ => None
  }

  ghost function ItemsData(heap: Heap, items: seq<Val>, path: set<nat>): (ds: Option<seq<Data>>)
    ensures ds.Some? ==> |ds.value| == |items|
    decreases heap.Keys - path, 3, items
  {
    if items == [] then Some([])
    else
      var d, rest := DataOf(heap, items[0], path), ItemsData(heap, items[1..], path);
      if d.Some? && rest.Some? then Some([d.value] + rest.value) else None
  }

  // ----- keys in order -----

  lemma {:induction false} LessTotal(a: JsString, b: JsString)
    ensures Less(a, b) || Less(b, a) || a == b
    ensures !(Less(a, b) && Less(b, a)) && !Less(a, a)
  {
    if a != [] && b != [] {
      LessTotal(a[1..], b[1..]);
      LessTotal(a[1..], a[1..]);
      assert a == [a[0]] + a[1..] && b == [b[0]] + b[1..];
    } else if a != [] {
      LessTotal(a[1..], a[1..]);
    }
  }

  lemma {:induction false} LessTransitive(a: JsString, b: JsString, c: JsString)
    requires Less(a, b) && Less(b, c)
    ensures Less(a, c)
  {
    if a != [] && a[0] == b[0] && b[0] == c[0] { LessTransitive(a[1..], b[1..], c[1..]); }
  }

  predicate Increasing(ks: seq<JsString>) {
    |ks| <= 1 || (Less(ks[0], ks[1]) && Increasing(ks[1..]))
  }

  lemma {:induction false} FirstIsLeast(ks: seq<JsString>, k: JsString)
    requires Increasing(ks) && ks != [] && k in ks[1..]
    ensures Less(ks[0], k)
  {
    if ks[1] != k {
      assert ks[1..][1..] == ks[2..];
      FirstIsLeast(ks[1..], k);
      LessTransitive(ks[0], ks[1], k);
    }
  }

  lemma {:induction false} InsertIncreasing(k: JsString, ks: seq<JsString>)
    requires Increasing(ks) && k !in ks
    ensures Increasing(Insert(k, ks))
    ensures forall o :: o in Insert(k, ks) <==> o == k || o in ks
  {
    if ks == [] {
    } else if Less(k, ks[0]) {
      assert ([k] + ks)[1..] == ks;
    } else {
      LessTotal(k, ks[0]);
      InsertIncreasing(k, ks[1..]);
      var rest := Insert(k, ks[1..]);
      assert ([ks[0]] + rest)[1..] == rest;
      assert rest[0] in rest;
      if rest[0] != k { FirstIsLeast(ks, rest[0]); }
      assert forall o :: o in ks <==> o == ks[0] || o in ks[1..];
    }
  }

  predicate NoRepeats(ks: seq<JsString>) { ks == [] || (ks[0] !in ks[1..] && NoRepeats(ks[1..])) }

  lemma {:induction false} SortIncreasing(ks: seq<JsString>)
    requires NoRepeats(ks)
    ensures Increasing(SortKeys(ks))
    ensures forall o :: o in SortKeys(ks) <==> o in ks
  {
    if ks != [] {
      SortIncreasing(ks[1..]);
      InsertIncreasing(ks[0], SortKeys(ks[1..]));
    }
  }

  lemma FirstIn(ks: seq<JsString>)
    ensures ks == [] || ks[0] in ks
  {
  }

  /** A set of keys has one increasing list. */
  lemma {:induction false} IncreasingUnique(a: seq<JsString>, b: seq<JsString>)
    requires Increasing(a) && Increasing(b)
    requires forall o :: o in a <==> o in b
    ensures a == b
  {
    if a == [] {
      FirstIn(b);
    } else {
      assert a[0] in a;
      assert b != [];
      assert b[0] in b;
      if a[0] != b[0] {
        assert a[0] in b[1..] && b[0] in a[1..];
        FirstIsLeast(a, b[0]);
        FirstIsLeast(b, a[0]);
        LessTotal(a[0], b[0]);
        assert false;
      }
      forall o ensures o in a[1..] <==> o in b[1..] {
        if o in a[1..] { FirstIsLeast(a, o); LessTotal(o, o); assert o in a; }
        if o in b[1..] { FirstIsLeast(b, o); LessTotal(o, o); assert o in b; }
      }
      IncreasingUnique(a[1..], b[1..]);
    }
  }

  /** The increasing list of a set of keys. */
  ghost function InOrder(ks: set<JsString>): (r: seq<JsString>)
    ensures Increasing(r)
    ensures forall o :: o in r <==> o in ks
  {
    if ks == {} then []
    else
      var k :| k in ks;
      var rest := InOrder(ks - {k});
      InsertIncreasing(k, rest);
      Insert(k, rest)
  }

  // ----- the reference encoding -----

  ghost function Encode(d: Data): (t: JsString)
    ensures t != [] && t[0] in [0x6E, 0x75, 0x62, 0x64, 0x73, 0x74, 0x61, 0x6F]
    decreases d, 0
  {
    match d
    case DNull => [0x6E]
    case DUndefined => [0x75]
    case DBool(b) => [0x62, if b then 0x31 else 0x30]
    case DNumber(text) => [0x64] + text
    case DString(s) => Prefixed(0x73, s)
    case DDate(iso) => [0x74] + iso
    case DArray(items) => OPEN_ARRAY + Join(ItemTexts(items)) + CLOSE_ARRAY
    case DObject(props) => OPEN_OBJECT + Join(PropTexts(d, InOrder(props.Keys))) + CLOSE_OBJECT
  }

  ghost function ItemTexts(items: seq<Data>): (ts: seq<JsString>)
    ensures |ts| == |items|
    decreases items, 0
  {
    if items == [] then [] else [Encode(items[0])] + ItemTexts(items[1..])
  }

  ghost function PropTexts(d: Data, keys: seq<JsString>): (ts: seq<JsString>)
    requires d.DObject? && forall k :: k in keys ==> k in d.props
    ensures |ts| == |keys|
    decreases d, 0, keys
  {
    if keys == [] then []
    else [Prefixed(0x6B, keys[0]) + [0x3D] + Encode(d.props[keys[0]])] + PropTexts(d, keys[1..])
  }

  /** What the walk counts: every text but the separators. */
  ghost function Size(d: Data): nat
    decreases d, 0
  {
    match d
    case DArray(items) => 3 + ItemSizes(items)
    case DObject(props) => 3 + PropSizes(d, InOrder(props.Keys))
    case _ => |Encode(d)|
  }

  ghost function ItemSizes(items: seq<Data>): nat
    decreases items, 0
  {
    if items == [] then 0 else Size(items[0]) + ItemSizes(items[1..])
  }

  ghost function PropSizes(d: Data, keys: seq<JsString>): nat
    requires d.DObject? && forall k :: k in keys ==> k in d.props
    decreases d, 0, keys
  {
    if keys == [] then 0 else |Prefixed(0x6B, keys[0])| + Size(d.props[keys[0]]) + PropSizes(d, keys[1..])
  }

  // ----- the walk computes it -----

  /** No object has a key twice. */
  ghost predicate Objects(heap: Heap) { forall id :: id in heap && heap[id].Obj? ==> NoRepeats(KeysOf(heap[id].props)) }

  /** `o` is what the walk has to give for data `d`, None for a value that cannot be a key. */
  ghost predicate Gives(o: Outcome, d: Option<Data>, size: nat) {
    if d.Some? && size + Size(d.value) <= MAX_KEY_BYTES
    then o == Done(Encode(d.value), size + Size(d.value))
    else o.Declined? && (d.Some? ==> o == Declined(TooLarge))
  }

  /** From a size within the budget, the walk gives the encoding of the data exactly when the data is a key
      and its size stays within the budget. */
  lemma {:induction false} WalkEncodes(heap: Heap, v: Val, seen: set<nat>, size: nat)
    requires Objects(heap) && size <= MAX_KEY_BYTES
    ensures Gives(Walk(heap, v, seen, size), DataOf(heap, v, seen), size)
    decreases heap.Keys - seen, 0
  {
    hide Prefixed, WalkObject, ObjectData, Gives, Objects;
    if !v.VRef? {
      LeafEncodes(heap, v, seen, size);
    } else if v.id in heap && Impostor(heap[v.id]).None? && v.id !in seen {
      assert v.id in heap.Keys - seen;
      IsPlainNode(heap, v.id);
      WalkObjectEncodes(heap, heap[v.id], seen + {v.id}, size);
    } else {
      Refused(Walk(heap, v, seen, size).reason, size);
    }
  }

  lemma IsPlainNode(heap: Heap, id: nat)
    requires Objects(heap) && id in heap
    ensures heap[id].Obj? ==> NoRepeats(KeysOf(heap[id].props))
  {
  }

  lemma Refused(reason: Reason, size: nat)
    ensures Gives(Declined(reason), None, size)
  {
  }

  lemma LeafEncodes(heap: Heap, v: Val, seen: set<nat>, size: nat)
    requires !v.VRef? && size <= MAX_KEY_BYTES
    ensures Gives(Walk(heap, v, seen, size), DataOf(heap, v, seen), size)
  {
    hide Prefixed;
  }

  lemma {:induction false} WalkObjectEncodes(heap: Heap, n: Node, path: set<nat>, size: nat)
    requires Objects(heap) && size <= MAX_KEY_BYTES && (n.Obj? ==> NoRepeats(KeysOf(n.props)))
    ensures Gives(WalkObject(heap, n, path, size), ObjectData(heap, n, path), size)
    decreases heap.Keys - path, 3
  {
    hide WalkProps, WalkItems, PropTexts, PropSizes, InOrder;
    match n
    case Arr(items) =>
      if size + 2 <= MAX_KEY_BYTES { WalkItemsEncodes(heap, items, path, size + 2); }
    case Obj(props) => WalkPlainEncodes(heap, props, path, size);
    case _ =>
  }

  lemma {:induction false} WalkPlainEncodes(heap: Heap, props: seq<Prop>, path: set<nat>, size: nat)
    requires Objects(heap) && size <= MAX_KEY_BYTES && NoRepeats(KeysOf(props))
    ensures Gives(WalkObject(heap, Obj(props), path, size), ObjectData(heap, Obj(props), path), size)
    decreases heap.Keys - path, 2
  {
    hide NoRepeats, Increasing, Objects, SortKeys, WalkProps, PropTexts, PropSizes, ObjectData, WalkObject, Gives,
      InOrder, DataOf, Read, KeysOf;
    SortIncreasing(KeysOf(props));
    var keys := SortKeys(KeysOf(props));
    var d := ObjectData(heap, Obj(props), path);
    if d.Some? {
      PlainData(heap, props, path);
      IncreasingUnique(keys, InOrder(d.value.props.Keys));
      if size + 2 <= MAX_KEY_BYTES { WalkPropsEncodes(heap, props, keys, path, size + 2, d.value); }
      ClosesPlain(heap, props, path, size, d.value);
    } else {
      NoData(heap, props, path);
      if size + 2 <= MAX_KEY_BYTES { WalkPropsDeclines(heap, props, keys, path, size + 2); }
      DeclinesPlain(heap, props, path, size);
    }
  }

  lemma NoData(heap: Heap, props: seq<Prop>, path: set<nat>)
    requires ObjectData(heap, Obj(props), path).None?
    ensures exists k :: k in KeysOf(props) && DataOf(heap, Read(props, k), path).None?
  {
  }

  lemma DeclinesPlain(heap: Heap, props: seq<Prop>, path: set<nat>, size: nat)
    requires size + 2 <= MAX_KEY_BYTES ==> WalkProps(heap, props, SortKeys(KeysOf(props)), path, size + 2).NoParts?
    ensures Gives(WalkObject(heap, Obj(props), path, size), None, size)
  {
    hide WalkProps, SortKeys;
  }

  lemma PlainData(heap: Heap, props: seq<Prop>, path: set<nat>)
    requires ObjectData(heap, Obj(props), path).Some?
    ensures var d := ObjectData(heap, Obj(props), path).value;
            && d.DObject?
            && (forall k :: k in d.props <==> k in KeysOf(props))
            && (forall k :: k in KeysOf(props) ==> DataOf(heap, Read(props, k), path) == Some(d.props[k]))
  {
  }

  lemma ClosesPlain(heap: Heap, props: seq<Prop>, path: set<nat>, size: nat, d: Data)
    requires size <= MAX_KEY_BYTES && d.DObject? && SortKeys(KeysOf(props)) == InOrder(d.props.Keys)
    requires size + 2 <= MAX_KEY_BYTES ==>
             var keys := SortKeys(KeysOf(props));
             var ps := WalkProps(heap, props, keys, path, size + 2);
             if size + 2 + PropSizes(d, keys) <= MAX_KEY_BYTES
             then ps == Parts(PropTexts(d, keys), size + 2 + PropSizes(d, keys))
             else ps == NoParts(TooLarge)
    ensures Gives(WalkObject(heap, Obj(props), path, size), Some(d), size)
  {
    hide Join, PropTexts, PropSizes, WalkProps, SortKeys, InOrder;
    var keys := InOrder(d.props.Keys);
    assert Encode(d) == OPEN_OBJECT + Join(PropTexts(d, keys)) + CLOSE_OBJECT;
    assert Size(d) == 3 + PropSizes(d, keys);
  }

  lemma {:induction false} WalkItemsEncodes(heap: Heap, items: seq<Val>, path: set<nat>, size: nat)
    requires Objects(heap) && size <= MAX_KEY_BYTES
    ensures var ds, ps := ItemsData(heap, items, path), WalkItems(heap, items, path, size);
            if ds.Some? && size + ItemSizes(ds.value) <= MAX_KEY_BYTES
            then ps == Parts(ItemTexts(ds.value), size + ItemSizes(ds.value))
            else ps.NoParts? && (ds.Some? ==> ps.reason == TooLarge)
    decreases heap.Keys - path, 1, items
  {
    hide Encode, Size, DataOf, Walk;
    if items != [] {
      WalkEncodes(heap, items[0], path, size);
      var o := Walk(heap, items[0], path, size);
      if o.Done? { WalkItemsEncodes(heap, items[1..], path, o.size); }
    }
  }

  lemma {:induction false} WalkPropsEncodes(heap: Heap, props: seq<Prop>, keys: seq<JsString>, path: set<nat>,
                                            size: nat, d: Data)
    requires Objects(heap) && size <= MAX_KEY_BYTES && d.DObject?
    requires forall k :: k in keys ==> k in d.props && DataOf(heap, Read(props, k), path) == Some(d.props[k])
    ensures var ps := WalkProps(heap, props, keys, path, size);
            if size + PropSizes(d, keys) <= MAX_KEY_BYTES
            then ps == Parts(PropTexts(d, keys), size + PropSizes(d, keys))
            else ps == NoParts(TooLarge)
    decreases heap.Keys - path, 1, keys
  {
    hide Encode, Size, DataOf, Walk, Prefixed;
    if keys != [] {
      var k := keys[0];
      assert k in keys;
      var s := size + |Prefixed(0x6B, k)|;
      FirstKey(d, keys);
      if s <= MAX_KEY_BYTES {
        WalkEncodes(heap, Read(props, k), path, s);
        hide PropTexts, PropSizes;
        if s + Size(d.props[k]) <= MAX_KEY_BYTES {
          WalkPropsEncodes(heap, props, keys[1..], path, s + Size(d.props[k]), d);
        }
      }
    }
  }

  lemma FirstKey(d: Data, keys: seq<JsString>)
    requires d.DObject? && keys != [] && forall k :: k in keys ==> k in d.props
    ensures PropTexts(d, keys) ==
            [Prefixed(0x6B, keys[0]) + [0x3D] + Encode(d.props[keys[0]])] + PropTexts(d, keys[1..])
    ensures PropSizes(d, keys) == |Prefixed(0x6B, keys[0])| + Size(d.props[keys[0]]) + PropSizes(d, keys[1..])
  {
    hide Encode, Size, Prefixed;
  }

  lemma {:induction false} WalkPropsDeclines(heap: Heap, props: seq<Prop>, keys: seq<JsString>, path: set<nat>,
                                             size: nat)
    requires Objects(heap) && size <= MAX_KEY_BYTES
    requires exists k :: k in keys && DataOf(heap, Read(props, k), path).None?
    ensures WalkProps(heap, props, keys, path, size).NoParts?
    decreases heap.Keys - path, 1, keys
  {
    hide Prefixed, Encode, Size, DataOf, Walk;
    var k := keys[0];
    var s := size + |Prefixed(0x6B, k)|;
    if s <= MAX_KEY_BYTES {
      WalkEncodes(heap, Read(props, k), path, s);
      var o := Walk(heap, Read(props, k), path, s);
      if o.Done? { WalkPropsDeclines(heap, props, keys[1..], path, o.size); }
    }
  }

  // ----- the encoding tells data apart -----

  /** What follows a value: nothing, or a separator or bracket. */
  predicate Terminated(r: JsString) { r == [] || r[0] in {0x2C, 0x5D, 0x7D} }

  /** Two texts free of `stop`, each followed by nothing or by a unit of `stop`, are told apart. */
  lemma {:induction false} Split(x: JsString, y: JsString, r: JsString, q: JsString, stop: set<Unit>)
    requires x + r == y + q
    requires forall i :: 0 <= i < |x| ==> x[i] !in stop
    requires forall i :: 0 <= i < |y| ==> y[i] !in stop
    requires (r == [] || r[0] in stop) && (q == [] || q[0] in stop)
    ensures x == y && r == q
  {
    if x == [] || y == [] {
      assert x == [] ==> r == y + q;
      assert y == [] ==> q == x + r;
    } else {
      assert (x + r)[0] == x[0] && (y + q)[0] == y[0];
      assert (x + r)[1..] == x[1..] + r && (y + q)[1..] == y[1..] + q;
      Split(x[1..], y[1..], r, q, stop);
      assert x == [x[0]] + x[1..] && y == [y[0]] + y[1..];
    }
  }

  lemma {:induction false} DecDigits(n: nat)
    ensures forall i :: 0 <= i < |Dec(n)| ==> Dec(n)[i] !in {0x3A}
  {
    if n >= 10 { DecDigits(n / 10); }
  }

  lemma {:induction false} DecInjective(m: nat, n: nat)
    requires Dec(m) == Dec(n)
    ensures m == n
  {
    if m >= 10 && n >= 10 {
      var a, b := Dec(m / 10), Dec(n / 10);
      assert Dec(m) == a + [0x30 + m % 10] && Dec(n) == b + [0x30 + n % 10];
      assert Dec(m)[..|Dec(m)| - 1] == a && Dec(n)[..|Dec(n)| - 1] == b;
      assert Dec(m)[|Dec(m)| - 1] == 0x30 + m % 10 && Dec(n)[|Dec(n)| - 1] == 0x30 + n % 10;
      DecInjective(m / 10, n / 10);
    } else {
      assert m >= 10 ==> |Dec(m)| > 1;
      assert n >= 10 ==> |Dec(n)| > 1;
      assert Dec(m)[0] == Dec(n)[0];
    }
  }

  /** A length-prefixed text ends where its length says, whatever follows. */
  lemma PrefixedInjective(tag: Unit, x: JsString, y: JsString, r: JsString, q: JsString)
    requires Prefixed(tag, x) + r == Prefixed(tag, y) + q
    ensures x == y && r == q
  {
    var a, b := Dec(|x|), Dec(|y|);
    var s, t := Prefixed(tag, x) + r, Prefixed(tag, y) + q;
    assert s[1..] == a + ([0x3A] + x + r) && t[1..] == b + ([0x3A] + y + q);
    DecDigits(|x|);
    DecDigits(|y|);
    Split(a, b, [0x3A] + x + r, [0x3A] + y + q, {0x3A});
    DecInjective(|x|, |y|);
    assert ([0x3A] + x + r)[1..][..|x|] == x && ([0x3A] + y + q)[1..][..|y|] == y;
    assert ([0x3A] + x + r)[1..][|x|..] == r && ([0x3A] + y + q)[1..][|y|..] == q;
  }

  /** The rest of a bracketed list after its first part. */
  function Tail(parts: seq<JsString>, close: JsString): JsString {
    if parts == [] then close else [0x2C] + Join(parts) + close
  }

  lemma JoinFirst(parts: seq<JsString>, close: JsString)
    requires parts != []
    ensures Join(parts) + close == parts[0] + Tail(parts[1..], close)
  {
    if |parts| > 1 { CommaAssociates(parts[0], Join(parts[1..]), close); }
  }

  lemma CommaAssociates(first: JsString, rest: JsString, close: JsString)
    ensures first + [0x2C] + rest + close == first + ([0x2C] + rest + close)
  {
  }

  lemma TailsAgree(a: seq<JsString>, b: seq<JsString>, r: JsString, q: JsString)
    requires r != [] && q != [] && r[0] == q[0] && r[0] != 0x2C
    requires Tail(a, r) == Tail(b, q)
    ensures a == [] <==> b == []
    ensures if a == [] then r == q else Join(a) + r == Join(b) + q
  {
    hide Join;
    TailStarts(a, r);
    TailStarts(b, q);
  }

  lemma TailStarts(parts: seq<JsString>, close: JsString)
    requires close != [] && close[0] != 0x2C
    ensures Tail(parts, close)[0] == 0x2C <==> parts != []
    ensures parts != [] ==> Tail(parts, close)[1..] == Join(parts) + close
  {
  }

  /** The encoding is a prefix code: the text of a value followed by a separator or bracket determines both. */
  lemma {:induction false} EncodeInjective(a: Data, b: Data, r: JsString, q: JsString)
    requires Encode(a) + r == Encode(b) + q && Terminated(r) && Terminated(q)
    ensures a == b && r == q
    decreases a, 1
  {
    SameKind(a, b, r, q);
    match a
    case DString(s) => PrefixedInjective(0x73, s, b.s, r, q);
    case DArray(items) =>
      ListBody(OPEN_ARRAY, ItemTexts(items), CLOSE_ARRAY, r);
      ListBody(OPEN_ARRAY, ItemTexts(b.items), CLOSE_ARRAY, q);
      hide Encode, Join;
      ItemsInjective(items, b.items, r, q);
    case DObject(props) =>
      var ka, kb := InOrder(props.Keys), InOrder(b.props.Keys);
      ListBody(OPEN_OBJECT, PropTexts(a, ka), CLOSE_OBJECT, r);
      ListBody(OPEN_OBJECT, PropTexts(b, kb), CLOSE_OBJECT, q);
      hide Encode, Join;
      PropsInjective(a, b, ka, kb, r, q);
      assert props.Keys == b.props.Keys;
    case _ => LeafInjective(a, b, r, q);
  }

  function Tag(d: Data): Unit {
    match d
    case DNull => 0x6E
    case DUndefined => 0x75
    case DBool(_) => 0x62
    case DNumber(_) => 0x64
    case DString(_) => 0x73
    case DDate(_) => 0x74
    case DArray(_) => 0x61
    case DObject(_) => 0x6F
  }

  lemma TagFirst(d: Data, r: JsString)
    ensures (Encode(d) + r)[0] == Tag(d)
  {
    assert (Encode(d) + r)[0] == Encode(d)[0];
  }

  lemma SameKind(a: Data, b: Data, r: JsString, q: JsString)
    requires Encode(a) + r == Encode(b) + q
    ensures Tag(a) == Tag(b)
  {
    TagFirst(a, r);
    TagFirst(b, q);
  }

  lemma LeafInjective(a: Data, b: Data, r: JsString, q: JsString)
    requires Encode(a) + r == Encode(b) + q && Terminated(r) && Terminated(q)
    requires Tag(a) == Tag(b) && !a.DString? && !a.DArray? && !a.DObject?
    ensures a == b && r == q
  {
    assert (Encode(a) + r)[1..] == Encode(a)[1..] + r && (Encode(b) + q)[1..] == Encode(b)[1..] + q;
    Split(Encode(a)[1..], Encode(b)[1..], r, q, {0x2C, 0x5D, 0x7D});
    assert a.DBool? ==> Encode(a)[1..][0] == Encode(b)[1..][0];
  }

  lemma ListBody(open: JsString, parts: seq<JsString>, close: JsString, r: JsString)
    requires |open| == 2
    ensures (open + Join(parts) + close + r)[2..] == Join(parts) + (close + r)
  {
  }

  lemma ItemsStart(items: seq<Data>, r: JsString)
    ensures var t := Join(ItemTexts(items)) + (CLOSE_ARRAY + r);
            t != [] && (t[0] == 0x5D <==> items == []) && (items == [] ==> t == CLOSE_ARRAY + r)
  {
    if items != [] { JoinFirst(ItemTexts(items), CLOSE_ARRAY + r); }
  }

  lemma {:induction false} ItemsInjective(a: seq<Data>, b: seq<Data>, r: JsString, q: JsString)
    requires Join(ItemTexts(a)) + (CLOSE_ARRAY + r) == Join(ItemTexts(b)) + (CLOSE_ARRAY + q)
    ensures a == b && r == q
    decreases a, 0
  {
    hide Join, Encode;
    ItemsStart(a, r);
    ItemsStart(b, q);
    if a == [] {
      CloseStripped(CLOSE_ARRAY, r, q);
    } else {
      JoinFirst(ItemTexts(a), CLOSE_ARRAY + r);
      JoinFirst(ItemTexts(b), CLOSE_ARRAY + q);
      var ta, tb := ItemTexts(a[1..]), ItemTexts(b[1..]);
      EncodeInjective(a[0], b[0], Tail(ta, CLOSE_ARRAY + r), Tail(tb, CLOSE_ARRAY + q));
      TailsAgree(ta, tb, CLOSE_ARRAY + r, CLOSE_ARRAY + q);
      if |a| > 1 { ItemsInjective(a[1..], b[1..], r, q); } else { CloseStripped(CLOSE_ARRAY, r, q); }
      assert a == [a[0]] + a[1..] && b == [b[0]] + b[1..];
    }
  }

  lemma {:induction false} PropsInjective(a: Data, b: Data, ka: seq<JsString>, kb: seq<JsString>, r: JsString,
                                          q: JsString)
    requires a.DObject? && b.DObject? && (forall k :: k in ka ==> k in a.props) &&
             (forall k :: k in kb ==> k in b.props)
    requires Join(PropTexts(a, ka)) + (CLOSE_OBJECT + r) == Join(PropTexts(b, kb)) + (CLOSE_OBJECT + q)
    ensures ka == kb && r == q && forall k :: k in ka ==> a.props[k] == b.props[k]
    decreases a, 0, ka
  {
    hide Join, Prefixed, Encode;
    if ka == [] || kb == [] {
      EmptyProps(a, b, ka, kb, r, q);
    } else {
      var ta, tb := PropTexts(a, ka[1..]), PropTexts(b, kb[1..]);
      var ra, rb := Tail(ta, CLOSE_OBJECT + r), Tail(tb, CLOSE_OBJECT + q);
      FirstProp(a, ka, CLOSE_OBJECT + r);
      FirstProp(b, kb, CLOSE_OBJECT + q);
      var va, vb := Encode(a.props[ka[0]]) + ra, Encode(b.props[kb[0]]) + rb;
      PrefixedInjective(0x6B, ka[0], kb[0], [0x3D] + va, [0x3D] + vb);
      assert ([0x3D] + va)[1..] == va && ([0x3D] + vb)[1..] == vb;
      EncodeInjective(a.props[ka[0]], b.props[kb[0]], ra, rb);
      TailsAgree(ta, tb, CLOSE_OBJECT + r, CLOSE_OBJECT + q);
      if |ka| > 1 { PropsInjective(a, b, ka[1..], kb[1..], r, q); } else { CloseStripped(CLOSE_OBJECT, r, q); }
      assert ka == [ka[0]] + ka[1..] && kb == [kb[0]] + kb[1..];
    }
  }

  lemma CloseStripped(close: JsString, r: JsString, q: JsString)
    requires close + r == close + q
    ensures r == q
  {
    assert (close + r)[|close|..] == r && (close + q)[|close|..] == q;
  }

  lemma FirstProp(d: Data, keys: seq<JsString>, close: JsString)
    requires d.DObject? && keys != [] && forall k :: k in keys ==> k in d.props
    ensures Join(PropTexts(d, keys)) + close ==
            Prefixed(0x6B, keys[0]) + ([0x3D] + (Encode(d.props[keys[0]]) + Tail(PropTexts(d, keys[1..]), close)))
  {
    hide Join, Prefixed, Encode, Tail;
    JoinFirst(PropTexts(d, keys), close);
    assert PropTexts(d, keys)[1..] == PropTexts(d, keys[1..]);
    EqualsAssociates(Prefixed(0x6B, keys[0]), Encode(d.props[keys[0]]), Tail(PropTexts(d, keys[1..]), close));
  }

  lemma EqualsAssociates(key: JsString, value: JsString, rest: JsString)
    ensures key + [0x3D] + value + rest == key + ([0x3D] + (value + rest))
  {
  }

  lemma EmptyProps(a: Data, b: Data, ka: seq<JsString>, kb: seq<JsString>, r: JsString, q: JsString)
    requires a.DObject? && b.DObject? && (forall k :: k in ka ==> k in a.props) &&
             (forall k :: k in kb ==> k in b.props)
    requires Join(PropTexts(a, ka)) + (CLOSE_OBJECT + r) == Join(PropTexts(b, kb)) + (CLOSE_OBJECT + q)
    requires ka == [] || kb == []
    ensures ka == kb && r == q
  {
    PropsStart(a, ka, r);
    PropsStart(b, kb, q);
    hide Join, PropTexts;
    assert ka == kb;
    CloseStripped(CLOSE_OBJECT, r, q);
  }

  lemma PropsStart(d: Data, keys: seq<JsString>, r: JsString)
    requires d.DObject? && forall k :: k in keys ==> k in d.props
    ensures var t := Join(PropTexts(d, keys)) + (CLOSE_OBJECT + r);
            t != [] && t[0] == (if keys == [] then 0x7D else 0x6B) && (keys == [] ==> t == CLOSE_OBJECT + r)
  {
    if keys != [] {
      FirstProp(d, keys, CLOSE_OBJECT + r);
      assert Prefixed(0x6B, keys[0])[0] == 0x6B;
    }
  }

  // ----- the bound -----

  /** Uncounted separators at most double a text: it stays under twice its counted size. */
  lemma {:induction false} TextBound(d: Data)
    ensures 1 <= Size(d) && |Encode(d)| <= 2 * Size(d) - 1
    decreases d, 1
  {
    match d
    case DArray(items) => ItemsBound(items);
    case DObject(props) => PropsBound(d, InOrder(props.Keys));
    case _ =>
  }

  lemma {:induction false} ItemsBound(items: seq<Data>)
    ensures |Join(ItemTexts(items))| <= 2 * ItemSizes(items)
    decreases items, 0
  {
    hide Encode, Size;
    if items != [] {
      TextBound(items[0]);
      ItemsBound(items[1..]);
    }
  }

  lemma {:induction false} PropsBound(d: Data, keys: seq<JsString>)
    requires d.DObject? && forall k :: k in keys ==> k in d.props
    ensures |Join(PropTexts(d, keys))| <= 2 * PropSizes(d, keys)
    decreases d, 0, keys
  {
    hide Encode, Size;
    if keys != [] {
      TextBound(d.props[keys[0]]);
      PropsBound(d, keys[1..]);
    }
  }

  // ----- the theorems -----

  /** Two arguments that both become keys have the same text exactly when they are the same data: no two
      different arguments collide, and key order or shared references make no difference. */
  lemma KeysAreExact(h1: Heap, v1: Val, h2: Heap, v2: Val)
    requires Objects(h1) && Objects(h2)
    requires Walk(h1, v1, {}, 0).Done? && Walk(h2, v2, {}, 0).Done?
    ensures Walk(h1, v1, {}, 0).text == Walk(h2, v2, {}, 0).text <==> DataOf(h1, v1, {}) == DataOf(h2, v2, {})
  {
    hide Encode, Size, Walk, DataOf;
    WalkEncodes(h1, v1, {}, 0);
    WalkEncodes(h2, v2, {}, 0);
    var a, b := DataOf(h1, v1, {}).value, DataOf(h2, v2, {}).value;
    if Encode(a) == Encode(b) {
      assert Encode(a) + [] == Encode(b) + [];
      EncodeInjective(a, b, [], []);
    }
  }

  /** A value becomes a key exactly when it is plain data of counted size at most 500; the text then has
      fewer than 1000 units, however many separators it holds. */
  lemma KeyIsBounded(heap: Heap, v: Val)
    requires Objects(heap)
    ensures var d, o := DataOf(heap, v, {}), Walk(heap, v, {}, 0);
            && (o.Done? <==> d.Some? && Size(d.value) <= MAX_KEY_BYTES)
            && (o.Done? ==> o.size == Size(d.value) && |o.text| <= 2 * o.size - 1 <= 999)
            && (d.Some? && o.Declined? ==> o.reason == TooLarge)
  {
    hide Encode, Size, Walk, DataOf;
    WalkEncodes(heap, v, {}, 0);
    if DataOf(heap, v, {}).Some? { TextBound(DataOf(heap, v, {}).value); }
  }

  // ----- cycles -----

  ghost predicate RefersTo(n: Node, id: nat) {
    match n
    case Arr(items) => VRef(id) in items
    case Obj(props) => exists k :: k in KeysOf(props) && Read(props, k) == VRef(id)
    case _ => false
  }

  /** Each object of the list refers to the next. */
  ghost predicate IsPath(heap: Heap, p: seq<nat>) {
    forall i :: 0 <= i < |p| - 1 ==> p[i] in heap && RefersTo(heap[p[i]], p[i + 1])
  }

  lemma {:induction false} ItemHasData(heap: Heap, items: seq<Val>, path: set<nat>, v: Val)
    requires ItemsData(heap, items, path).Some? && v in items
    ensures DataOf(heap, v, path).Some?
  {
    if items[0] != v { ItemHasData(heap, items[1..], path, v); }
  }

  /** A value that is a key refers, however deep, to no object above it. */
  lemma {:induction false} NoWayBack(heap: Heap, p: seq<nat>, seen: set<nat>)
    requires p != [] && IsPath(heap, p) && DataOf(heap, VRef(p[0]), seen).Some?
    ensures forall i :: 0 <= i < |p| ==> p[i] !in seen
    ensures forall i :: 0 < i < |p| ==> p[i] != p[0]
    decreases |p|
  {
    if |p| > 1 {
      var n := heap[p[0]];
      assert RefersTo(n, p[1]);
      if n.Arr? { ItemHasData(heap, n.items, seen + {p[0]}, VRef(p[1])); }
      forall i | 0 <= i < |p[1..]| - 1 ensures p[1..][i] in heap && RefersTo(heap[p[1..][i]], p[1..][i + 1]) {
        assert p[1..][i] == p[i + 1] && p[1..][i + 1] == p[i + 2];
      }
      NoWayBack(heap, p[1..], seen + {p[0]});
      assert forall i :: 0 < i < |p| ==> p[i] == p[1..][i - 1];
    }
  }

  /** A value from which some object reaches itself is declined. */
  lemma CycleDeclines(heap: Heap, p: seq<nat>, i: nat, j: nat)
    requires Objects(heap) && IsPath(heap, p) && i < j < |p| && p[i] == p[j]
    ensures Walk(heap, VRef(p[0]), {}, 0).Declined?
  {
    hide Walk, DataOf;
    WalkEncodes(heap, VRef(p[0]), {}, 0);
    if DataOf(heap, VRef(p[0]), {}).Some? { Below(heap, p, {}, i, j); }
  }

  lemma {:induction false} Below(heap: Heap, p: seq<nat>, seen: set<nat>, i: nat, j: nat)
    requires IsPath(heap, p) && i < j < |p| && p[i] == p[j]
    requires DataOf(heap, VRef(p[0]), seen).Some?
    ensures false
    decreases i
  {
    if i == 0 {
      NoWayBack(heap, p, seen);
    } else {
      var n := heap[p[0]];
      assert RefersTo(n, p[1]);
      if n.Arr? { ItemHasData(heap, n.items, seen + {p[0]}, VRef(p[1])); }
      forall k | 0 <= k < |p[1..]| - 1 ensures p[1..][k] in heap && RefersTo(heap[p[1..][k]], p[1..][k + 1]) {
        assert p[1..][k] == p[k + 1] && p[1..][k + 1] == p[k + 2];
      }
      Below(heap, p[1..], seen + {p[0]}, i - 1, j - 1);
    }
  }

  /** Every reference goes from a higher rank to a lower one, however much is shared. */
  ghost predicate Acyclic(heap: Heap, rank: map<nat, nat>) {
    && heap.Keys <= rank.Keys
    && forall id, to :: id in heap && to in heap && RefersTo(heap[id], to) ==> rank[to] < rank[id]
  }

  ghost predicate RanksAbove(heap: Heap, rank: map<nat, nat>, path: set<nat>, v: Val)
    requires heap.Keys <= rank.Keys
  {
    v.VRef? && v.id in heap ==> forall id :: id in path ==> id in rank && rank[id] > rank[v.id]
  }

  /** Without a cycle nothing is declined as circular: shared references are fine. */
  lemma {:induction false} SharedIsFine(heap: Heap, rank: map<nat, nat>, v: Val, seen: set<nat>, size: nat)
    requires Objects(heap) && Acyclic(heap, rank) && RanksAbove(heap, rank, seen, v)
    ensures Walk(heap, v, seen, size) != Declined(Circular)
    decreases heap.Keys - seen, 0
  {
    hide WalkObject, Objects;
    if v.VRef? && v.id in heap && Impostor(heap[v.id]).None? && v.id !in seen {
      assert v.id in heap.Keys - seen;
      SharedObject(heap, rank, v.id, seen + {v.id}, size);
    }
  }

  lemma {:induction false} SharedObject(heap: Heap, rank: map<nat, nat>, id: nat, path: set<nat>, size: nat)
    requires Objects(heap) && Acyclic(heap, rank) && id in heap
    requires forall o :: o in path ==> o in rank && rank[o] >= rank[id]
    ensures WalkObject(heap, heap[id], path, size) != Declined(Circular)
    decreases heap.Keys - path, 2
  {
    hide Join, WalkItems, WalkProps, SortKeys, NoRepeats, Increasing, Read;
    match heap[id]
    case Arr(items) =>
      ItemsRank(heap, rank, id, path);
      SharedItems(heap, rank, items, path, size + 2);
    case Obj(props) =>
      PropsRank(heap, rank, id, path);
      SharedProps(heap, rank, props, SortKeys(KeysOf(props)), path, size + 2);
    case _ =>
  }

  lemma ItemsRank(heap: Heap, rank: map<nat, nat>, id: nat, path: set<nat>)
    requires Acyclic(heap, rank) && id in heap && heap[id].Arr?
    requires forall o :: o in path ==> o in rank && rank[o] >= rank[id]
    ensures forall u :: u in heap[id].items ==> RanksAbove(heap, rank, path, u)
  {
    forall u | u in heap[id].items ensures RanksAbove(heap, rank, path, u) {
      assert u.VRef? ==> RefersTo(heap[id], u.id);
    }
  }

  lemma PropsRank(heap: Heap, rank: map<nat, nat>, id: nat, path: set<nat>)
    requires Acyclic(heap, rank) && Objects(heap) && id in heap && heap[id].Obj?
    requires forall o :: o in path ==> o in rank && rank[o] >= rank[id]
    ensures forall k :: k in SortKeys(KeysOf(heap[id].props)) ==> RanksAbove(heap, rank, path, Read(heap[id].props, k))
  {
    hide Increasing, SortKeys, NoRepeats, Read;
    var props := heap[id].props;
    SortIncreasing(KeysOf(props));
    forall k | k in KeysOf(props) ensures RanksAbove(heap, rank, path, Read(props, k)) {
      assert Read(props, k).VRef? ==> RefersTo(heap[id], Read(props, k).id);
    }
  }

  lemma {:induction false} SharedItems(heap: Heap, rank: map<nat, nat>, items: seq<Val>, path: set<nat>, size: nat)
    requires Objects(heap) && Acyclic(heap, rank) && forall u :: u in items ==> RanksAbove(heap, rank, path, u)
    ensures WalkItems(heap, items, path, size) != NoParts(Circular)
    decreases heap.Keys - path, 1, items
  {
    hide Walk, RanksAbove;
    if items != [] {
      SharedIsFine(heap, rank, items[0], path, size);
      var o := Walk(heap, items[0], path, size);
      if o.Done? { SharedItems(heap, rank, items[1..], path, o.size); }
    }
  }

  lemma {:induction false} SharedProps(heap: Heap, rank: map<nat, nat>, props: seq<Prop>, keys: seq<JsString>,
                                       path: set<nat>, size: nat)
    requires Objects(heap) && Acyclic(heap, rank)
    requires forall k :: k in keys ==> RanksAbove(heap, rank, path, Read(props, k))
    ensures WalkProps(heap, props, keys, path, size) != NoParts(Circular)
    decreases heap.Keys - path, 1, keys
  {
    hide Prefixed, Walk, RanksAbove;
    if keys != [] {
      assert keys[0] in keys;
      var s := size + |Prefixed(0x6B, keys[0])|;
      SharedIsFine(heap, rank, Read(props, keys[0]), path, s);
      var o := Walk(heap, Read(props, keys[0]), path, s);
      if o.Done? { SharedProps(heap, rank, props, keys[1..], path, o.size); }
    }
  }
}

/** The cache-key serializer (packages/core/src/cache-key-serializer.ts): the walk over the object graph
    with its size budget, against a reference encoding of plain data. */
module CacheKey {
  import opened JsStrings
  import opened Options

  const MAX_KEY_BYTES := 500

  const OPEN_ARRAY: JsString := [0x61, 0x5B]
  const CLOSE_ARRAY: JsString := [0x5D]
  const OPEN_OBJECT: JsString := [0x6F, 0x7B]
  const CLOSE_OBJECT: JsString := [0x7D]

  // ----- the values an argument can hold -----

  /** What a number or a date prints as: digits, signs, letters, never a comma or a closing bracket. */
  type Bare = t: JsString | forall i :: 0 <= i < |t| ==> t[i] !in {0x2C, 0x5D, 0x7D}

  datatype Val =
    | VNull
    | VUndefined
    | VBool(b: bool)
    | VNumber(text: Bare)
    | VString(s: JsString)
    | VFunction
    | VSymbol
    | VBigint
    | VRef(id: nat)

  datatype Prop = Prop(key: JsString, value: Val)

  /** `Dated(None)` is an invalid Date; `Classed` an object with any other prototype. */
  datatype Node =
    | DomNode
    | Jquery
    | Dated(iso: Option<Bare>)
    | Arr(items: seq<Val>)
    | Obj(props: seq<Prop>)
    | Classed

  type Heap = map<nat, Node>

  datatype Reason =
    | IsFunction | IsSymbol | IsBigint | IsDomNode | IsJquery | Circular | InvalidDate | NonPlainObject | TooLarge

  datatype Outcome = Done(text: JsString, size: nat) | Declined(reason: Reason)

  datatype Parts = Parts(parts: seq<JsString>, size: nat) | NoParts(reason: Reason)

  function Read(props: seq<Prop>, key: JsString): Val {
    if props == [] then VUndefined
    else if props[0].key == key then props[0].value
    else Read(props[1..], key)
  }

  predicate Truthy(v: Val) {
    match v
    case VNull | VUndefined => false
    case VBool(b) => b
    case VNumber(text) => text != Units("0") && text != Units("NaN")
    case VString(s) => s != []
    case _ => true
  }

  /** The objects declined before anything treats them as data. */
  function Impostor(n: Node): Option<Reason> {
    if n.DomNode? || (n.Obj? && Read(n.props, Units("nodeType")).VNumber?) then Some(IsDomNode)
    else if n.Jquery? || (n.Obj? && Truthy(Read(n.props, Units("jquery")))) then Some(IsJquery)
    else None
  }

  // ----- keys in code unit order -----

  predicate Less(a: JsString, b: JsString) {
    b != [] && (a == [] || a[0] < b[0] || (a[0] == b[0] && Less(a[1..], b[1..])))
  }

  function Insert(k: JsString, ks: seq<JsString>): seq<JsString> {
    if ks == [] || Less(k, ks[0]) then [k] + ks else [ks[0]] + Insert(k, ks[1..])
  }

  function KeysOf(props: seq<Prop>): (ks: seq<JsString>)
    ensures |ks| == |props|
    ensures forall i :: 0 <= i < |props| ==> ks[i] == props[i].key
  {
    if props == [] then [] else [props[0].key] + KeysOf(props[1..])
  }

  /** `keys.sort()`. */
  function SortKeys(ks: seq<JsString>): seq<JsString> {
    if ks == [] then [] else Insert(ks[0], SortKeys(ks[1..]))
  }

  // ----- texts -----

  function Dec(n: nat): (t: JsString)
    ensures t != []
  {
    if n < 10 then [0x30 + n] else Dec(n / 10) + [0x30 + n % 10]
  }

  /** `${prefix}${value.length}:${value}` */
  function Prefixed(prefix: Unit, value: JsString): JsString { [prefix] + Dec(|value|) + [0x3A] + value }

  function Join(parts: seq<JsString>): JsString {
    if parts == [] then [] else if |parts| == 1 then parts[0] else parts[0] + [0x2C] + Join(parts[1..])
  }

  // ----- the walk as a function -----

  function Push(size: nat, text: JsString): Outcome {
    if size + |text| > MAX_KEY_BYTES then Declined(TooLarge) else Done(text, size + |text|)
  }

  function Walk(heap: Heap, v: Val, seen: set<nat>, size: nat): Outcome
    decreases heap.Keys - seen, 2
  {
    match v
    case VNull => Push(size, [0x6E])
    case VUndefined => Push(size, [0x75])
    case VBool(b) => Push(size, [0x62, if b then 0x31 else 0x30])
    case VNumber(text) => Push(size, [0x64] + text)
    case VString(s) => Push(size, Prefixed(0x73, s))
    case VFunction => Declined(IsFunction)
    case VSymbol => Declined(IsSymbol)
    case VBigint => Declined(IsBigint)
    case VRef(id) =>
      if id !in heap then Declined(NonPlainObject)
      else if Impostor(heap[id]).Some? then Declined(Impostor(heap[id]).value)
      else if id in seen then Declined(Circular)
      else
        assert id in heap.Keys - seen;
        WalkObject(heap, heap[id], seen + {id}, size)
  }

  /** The walk of an object that is already among the ancestors. */
  function WalkObject(heap: Heap, n: Node, path: set<nat>, size: nat): Outcome
    decreases heap.Keys - path, 4
  {
    match n
    case Dated(iso) => if iso.None? then Declined(InvalidDate) else Push(size, [0x74] + iso.value)
    case Arr(items) =>
      if Push(size, OPEN_ARRAY).Declined? then Declined(TooLarge)
      else Closed(OPEN_ARRAY, WalkItems(heap, items, path, size + 2), CLOSE_ARRAY)
    case Obj(props) =>
      if Push(size, OPEN_OBJECT).Declined? then Declined(TooLarge)
      else Closed(OPEN_OBJECT, WalkProps(heap, props, SortKeys(KeysOf(props)), path, size + 2), CLOSE_OBJECT)
    case _ => Declined(NonPlainObject)
  }

  /** A bracketed list; the separators between its parts are not counted. */
  function Closed(open: JsString, inner: Parts, close: JsString): Outcome {
    match inner
    case NoParts(reason) => Declined(reason)
    case Parts(parts, size) =>
      if Push(size, close).Declined? then Declined(TooLarge)
      else Done(open + Join(parts) + close, size + |close|)
  }

  function WalkItems(heap: Heap, items: seq<Val>, path: set<nat>, size: nat): Parts
    decreases heap.Keys - path, 3, items
  {
    if items == [] then Parts([], size)
    else
      match Walk(heap, items[0], path, size)
      case Declined(reason) => NoParts(reason)
      case Done(text, s) =>
        match WalkItems(heap, items[1..], path, s)
        case NoParts(reason) => NoParts(reason)
        case Parts(parts, t) => Parts([text] + parts, t)
  }

  function WalkProps(heap: Heap, props: seq<Prop>, keys: seq<JsString>, path: set<nat>, size: nat): Parts
    decreases heap.Keys - path, 3, keys
  {
    if keys == [] then Parts([], size)
    else
      match Push(size, Prefixed(0x6B, keys[0]))
      case Declined(reason) => NoParts(reason)
      case Done(key, s) =>
        match Walk(heap, Read(props, keys[0]), path, s)
        case Declined(reason) => NoParts(reason)
        case Done(text, t) =>
          match WalkProps(heap, props, keys[1..], path, t)
          case NoParts(reason) => NoParts(reason)
          case Parts(parts, u) => Parts([key + [0x3D] + text] + parts, u)
  }

  /** The parts collected so far, then those still to come. */
  ghost function After(parts: seq<JsString>, rest: Parts): Parts {
    if rest.Parts? then Parts(parts + rest.parts, rest.size) else rest
  }

  lemma ItemsStep(heap: Heap, items: seq<Val>, path: set<nat>, size: nat, done: seq<JsString>)
    requires items != []
    ensures var o, all := Walk(heap, items[0], path, size), After(done, WalkItems(heap, items, path, size));
            match o
            case Declined(why) => all == NoParts(why)
            case Done(t, s) => all == After(done + [t], WalkItems(heap, items[1..], path, s))
  {
    var o := Walk(heap, items[0], path, size);
    if o.Done? {
      var rest := WalkItems(heap, items[1..], path, o.size);
      if rest.Parts? { assert done + ([o.text] + rest.parts) == done + [o.text] + rest.parts; }
    }
  }

  lemma PropsStep(heap: Heap, props: seq<Prop>, keys: seq<JsString>, path: set<nat>, size: nat, done: seq<JsString>)
    requires keys != []
    ensures var k, all := Prefixed(0x6B, keys[0]), After(done, WalkProps(heap, props, keys, path, size));
            if Push(size, k).Declined? then all == NoParts(TooLarge)
            else
              match Walk(heap, Read(props, keys[0]), path, size + |k|)
              case Declined(why) => all == NoParts(why)
              case Done(t, s) => all == After(done + [k + [0x3D] + t], WalkProps(heap, props, keys[1..], path, s))
  {
    hide Prefixed, Walk, Read;
    var k := Prefixed(0x6B, keys[0]);
    var o := Walk(heap, Read(props, keys[0]), path, size + |k|);
    if Push(size, k).Done? && o.Done? {
      var rest := WalkProps(heap, props, keys[1..], path, o.size);
      var part := k + [0x3D] + o.text;
      if rest.Parts? { assert done + ([part] + rest.parts) == done + [part] + rest.parts; }
    }
  }

  // ----- the code -----

  /** `Walk_State` and the functions that take one. */
  class WalkState {
    var seen: set<nat>
    var size: nat
    var reason: Option<Reason>

    constructor ()
      ensures seen == {} && size == 0 && reason == None
    {
      seen, size, reason := {}, 0, None;
    }

    method Decline(why: Reason) returns (text: Option<JsString>)
      modifies this`reason
      ensures text == None && reason == Some(why)
    {
      reason := Some(why);
      text := None;
    }

    method PushText(t: JsString) returns (text: Option<JsString>)
      modifies this`size, this`reason
      ensures text == (if Push(old(size), t).Done? then Some(t) else None)
      ensures size == old(size) + |t|
      ensures reason == (if text.Some? then old(reason) else Some(TooLarge))
    {
      size := size + |t|;
      if size > MAX_KEY_BYTES {
        text := Decline(TooLarge);
      } else {
        text := Some(t);
      }
    }

    method EncodeString(prefix: Unit, value: JsString) returns (text: Option<JsString>)
      modifies this`size, this`reason
      ensures text == (if Push(old(size), Prefixed(prefix, value)).Done? then Some(Prefixed(prefix, value)) else None)
      ensures size == old(size) + |Prefixed(prefix, value)|
      ensures reason == (if text.Some? then old(reason) else Some(TooLarge))
    {
      text := PushText([prefix] + Dec(|value|) + [0x3A] + value);
    }

    /** `text` and the state agree with what the walk is specified to give. */
    ghost predicate Reports(o: Outcome, text: Option<JsString>)
      reads this
    {
      match o
      case Done(t, s) => text == Some(t) && size == s
      case Declined(why) => text == None && reason == Some(why)
    }

    /** `walk()`: gives what `Walk` says and leaves the ancestors as it found them, declined or not. */
    method WalkValue(heap: Heap, v: Val) returns (text: Option<JsString>)
      modifies this
      ensures seen == old(seen)
      ensures Reports(Walk(heap, v, old(seen), old(size)), text)
      decreases heap.Keys - seen, 2
    {
      match v {
        case VNull => text := PushText([0x6E]);
        case VUndefined => text := PushText([0x75]);
        case VBool(b) => text := PushText([0x62, if b then 0x31 else 0x30]);
        case VNumber(t) => text := PushText([0x64] + t);
        case VString(s) => text := EncodeString(0x73, s);
        case VFunction => text := Decline(IsFunction);
        case VSymbol => text := Decline(IsSymbol);
        case VBigint => text := Decline(IsBigint);
        case VRef(id) =>
          if id !in heap {
            text := Decline(NonPlainObject);
          } else if Impostor(heap[id]).Some? {
            text := Decline(Impostor(heap[id]).value);
          } else if id in seen {
            text := Decline(Circular);
          } else {
            ghost var before := seen;
            assert id in heap.Keys - seen;
            seen := seen + {id};
            assert heap.Keys - seen < heap.Keys - before;
            text := WalkSeen(heap, heap[id]);
            seen := seen - {id};
            assert seen == before;
          }
      }
    }

    method WalkSeen(heap: Heap, n: Node) returns (text: Option<JsString>)
      modifies this
      ensures seen == old(seen)
      ensures Reports(WalkObject(heap, n, old(seen), old(size)), text)
      decreases heap.Keys - seen, 4
    {
      hide Join;
      match n {
        case Dated(iso) =>
          if iso.None? { text := Decline(InvalidDate); } else { text := PushText([0x74] + iso.value); }
        case Arr(items) =>
          text := PushText(OPEN_ARRAY);
          if text == None { return; }
          var parts := WalkArray(heap, items);
          text := CloseList(OPEN_ARRAY, parts, CLOSE_ARRAY);
        case Obj(props) =>
          text := PushText(OPEN_OBJECT);
          if text == None { return; }
          var parts := WalkPlain(heap, props);
          text := CloseList(OPEN_OBJECT, parts, CLOSE_OBJECT);
        case _ =>
          text := Decline(NonPlainObject);
      }
    }

    ghost predicate ReportsParts(o: Parts, parts: Option<seq<JsString>>)
      reads this
    {
      match o
      case Parts(ps, s) => parts == Some(ps) && size == s
      case NoParts(why) => parts == None && reason == Some(why)
    }

    method CloseList(open: JsString, parts: Option<seq<JsString>>, close: JsString) returns (text: Option<JsString>)
      requires parts.None? ==> reason.Some?
      modifies this`size, this`reason
      ensures var inner := if parts.Some? then Parts(parts.value, old(size)) else NoParts(old(reason).value);
              Reports(Closed(open, inner, close), text)
    {
      if parts == None { return None; }
      text := PushText(close);
      if text == None { return; }
      text := Some(open + Join(parts.value) + close);
    }

    method WalkArray(heap: Heap, items: seq<Val>) returns (parts: Option<seq<JsString>>)
      modifies this
      ensures seen == old(seen)
      ensures ReportsParts(WalkItems(heap, items, old(seen), old(size)), parts)
      decreases heap.Keys - seen, 3
    {
      var done: seq<JsString> := [];
      var i := 0;
      while i < |items|
        invariant 0 <= i <= |items| && seen == old(seen)
        invariant WalkItems(heap, items, seen, old(size)) == After(done, WalkItems(heap, items[i..], seen, size))
      {
        ItemsStep(heap, items[i..], seen, size, done);
        assert items[i..][1..] == items[i + 1..];
        var part := WalkValue(heap, items[i]);
        if part == None { return None; }
        done := done + [part.value];
        i := i + 1;
      }
      assert done + [] == done;
      parts := Some(done);
    }

    method WalkPlain(heap: Heap, props: seq<Prop>) returns (parts: Option<seq<JsString>>)
      modifies this
      ensures seen == old(seen)
      ensures ReportsParts(WalkProps(heap, props, SortKeys(KeysOf(props)), old(seen), old(size)), parts)
      decreases heap.Keys - seen, 3
    {
      hide Walk, Read, Prefixed;
      var keys := SortKeys(KeysOf(props));
      var done: seq<JsString> := [];
      var i := 0;
      while i < |keys|
        invariant 0 <= i <= |keys| && seen == old(seen)
        invariant WalkProps(heap, props, keys, seen, old(size)) ==
                  After(done, WalkProps(heap, props, keys[i..], seen, size))
      {
        PropsStep(heap, props, keys[i..], seen, size, done);
        assert keys[i..][1..] == keys[i + 1..];
        var key := EncodeString(0x6B, keys[i]);
        if key == None { return None; }
        var value := WalkValue(heap, Read(props, keys[i]));
        if value == None { return None; }
        done := done + [key.value + [0x3D] + value.value];
        i := i + 1;
      }
      assert done + [] == done;
      parts := Some(done);
    }
  }

  /** `serialize_for_cache_key()`. */
  method SerializeForCacheKey(heap: Heap, v: Val) returns (result: Outcome)
    ensures result.Done? <==> Walk(heap, v, {}, 0).Done?
    ensures result.Done? ==> result.text == Walk(heap, v, {}, 0).text
    ensures result.Declined? ==> result == Walk(heap, v, {}, 0)
  {
    var state := new WalkState();
    var text := state.WalkValue(heap, v);
    result := if text.Some? then Done(text.value, state.size) else Declined(state.reason.value);
  }
}

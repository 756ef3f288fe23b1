/** Reading a stored text back: the walk that restores classes is skipped when the text shows no marker
    key, and the result is the one the walk would give. */
module SerializerText {
  import opened Options
  import opened JsStrings
  import opened Serializer

  // ----- JSON text -----

  /** `JSON.stringify` of a wire value. */
  function Text(w: Wire): JsString
    decreases w, 1
  {
    match w
    case WNull => Units("null")
    case WBool(b) => Units(if b then "true" else "false")
    case WNumber(text) => Units(text)
    case WString(s) => JsonStringify(Units(s))
    case WArray(items) => Units("[") + ItemsText(items) + Units("]")
    case WObject(props) => Units("{") + PropsText(props) + Units("}")
  }

  function ItemsText(items: seq<Wire>): JsString
    decreases items, 0
  {
    if items == [] then []
    else Text(items[0]) + (if |items| == 1 then [] else Units(",")) + ItemsText(items[1..])
  }

  function PropsText(props: seq<WireProp>): JsString
    decreases props, 0
  {
    if props == [] then []
    else
      JsonStringify(Units(props[0].key)) + Units(":") + Text(props[0].value)
      + (if |props| == 1 then [] else Units(",")) + PropsText(props[1..])
  }

  /** `JSON.parse` of that text: every key, `__proto__` too, is an own property. */
  function Parsed(w: Wire): Live
    decreases w, 1
  {
    match w
    case WNull => LNull
    case WBool(b) => LBool(b)
    case WNumber(text) => LNumber(text, true)
    case WString(s) => LString(s)
    case WArray(items) => LArray(ParsedItems(items))
    case WObject(props) => LObject(ParsedProps(props))
  }

  function ParsedItems(items: seq<Wire>): seq<Live>
    decreases items, 0
  {
    if items == [] then [] else [Parsed(items[0])] + ParsedItems(items[1..])
  }

  function ParsedProps(props: seq<WireProp>): seq<LiveProp>
    decreases props, 0
  {
    if props == [] then [] else [LiveProp(props[0].key, Parsed(props[0].value))] + ParsedProps(props[1..])
  }

  predicate FoundAt(s: JsString, pattern: JsString, i: nat) {
    i + |pattern| <= |s| && s[i..i + |pattern|] == pattern
  }

  predicate Contains(s: JsString, pattern: JsString) { exists i :: 0 <= i <= |s| && FoundAt(s, pattern, i) }

  predicate NeedsDeserializeWalk(text: JsString) {
    Contains(text, [QUOTE] + Units(CLASS_MARKER) + [QUOTE]) || Contains(text, [QUOTE] + Units(PROTO) + [QUOTE])
  }

  /** `deserialize_value()` of the text of `w`. */
  ghost function DeserializeValue(w: Wire, classes: map<string, Class>): Live {
    if NeedsDeserializeWalk(Text(w)) then Deserialize(w, classes) else Parsed(w)
  }

  // ----- a key anywhere shows in the text -----

  predicate HasKey(w: Wire, key: string)
    decreases w, 1
  {
    match w
    case WArray(items) => ItemsHaveKey(items, key)
    case WObject(props) => PropsHaveKey(props, key)
    case _ => false
  }

  predicate ItemsHaveKey(items: seq<Wire>, key: string)
    decreases items, 0
  {
    items != [] && (HasKey(items[0], key) || ItemsHaveKey(items[1..], key))
  }

  predicate PropsHaveKey(props: seq<WireProp>, key: string)
    decreases props, 0
  {
    props != [] && (props[0].key == key || HasKey(props[0].value, key) || PropsHaveKey(props[1..], key))
  }

  lemma ContainsEither(a: JsString, b: JsString, pattern: JsString)
    requires Contains(a, pattern) || Contains(b, pattern)
    ensures Contains(a + b, pattern)
  {
    if Contains(a, pattern) {
      var i :| 0 <= i <= |a| && FoundAt(a, pattern, i);
      assert (a + b)[i..i + |pattern|] == a[i..i + |pattern|];
      assert FoundAt(a + b, pattern, i);
    } else {
      var i :| 0 <= i <= |b| && FoundAt(b, pattern, i);
      assert (a + b)[|a| + i..|a| + i + |pattern|] == b[i..i + |pattern|];
      assert FoundAt(a + b, pattern, |a| + i);
    }
  }

  lemma ContainsItself(s: JsString)
    ensures Contains(s, s)
  {
    assert FoundAt(s, s, 0);
  }

  lemma {:induction false} KeyShows(w: Wire, key: string)
    requires HasKey(w, key)
    ensures Contains(Text(w), JsonStringify(Units(key)))
    decreases w, 1
  {
    hide Contains, JsonStringify, Units;
    var quoted := JsonStringify(Units(key));
    match w
    case WArray(items) =>
      KeyShowsInItems(items, key);
      ContainsEither(Units("["), ItemsText(items), quoted);
      ContainsEither(Units("[") + ItemsText(items), Units("]"), quoted);
    case WObject(props) =>
      KeyShowsInProps(props, key);
      ContainsEither(Units("{"), PropsText(props), quoted);
      ContainsEither(Units("{") + PropsText(props), Units("}"), quoted);
  }

  lemma {:induction false} KeyShowsInItems(items: seq<Wire>, key: string)
    requires ItemsHaveKey(items, key)
    ensures Contains(ItemsText(items), JsonStringify(Units(key)))
    decreases items, 0
  {
    hide Contains, JsonStringify, Units;
    var quoted, text := JsonStringify(Units(key)), Text(items[0]);
    var comma, rest := if |items| == 1 then [] else Units(","), ItemsText(items[1..]);
    if HasKey(items[0], key) {
      KeyShows(items[0], key);
      ContainsEither(text, comma, quoted);
    } else {
      KeyShowsInItems(items[1..], key);
    }
    ContainsEither(text + comma, rest, quoted);
  }

  lemma {:induction false} KeyShowsInProps(props: seq<WireProp>, key: string)
    requires PropsHaveKey(props, key)
    ensures Contains(PropsText(props), JsonStringify(Units(key)))
    decreases props, 0
  {
    hide Contains, JsonStringify, Units, Text;
    var quoted, name, text := JsonStringify(Units(key)), JsonStringify(Units(props[0].key)), Text(props[0].value);
    var comma, rest := if |props| == 1 then [] else Units(","), PropsText(props[1..]);
    if props[0].key == key || HasKey(props[0].value, key) {
      if props[0].key == key {
        ContainsItself(name);
        ContainsEither(name, Units(":"), quoted);
      } else {
        KeyShows(props[0].value, key);
      }
      ContainsEither(name + Units(":"), text, quoted);
      ContainsEither(name + Units(":") + text, comma, quoted);
    } else {
      KeyShowsInProps(props[1..], key);
    }
    ContainsEither(name + Units(":") + text + comma, rest, quoted);
  }

  // ----- the walk does nothing without such a key -----

  lemma {:induction false} FindAbsent(props: seq<WireProp>, key: string)
    requires !PropsHaveKey(props, key)
    ensures Find(props, key) == |props|
  {
    if props != [] { FindAbsent(props[1..], key); }
  }

  lemma {:induction false} WalkIsParse(w: Wire, classes: map<string, Class>)
    requires !HasKey(w, CLASS_MARKER) && !HasKey(w, PROTO)
    ensures Deserialize(w, classes) == Parsed(w)
    decreases w, 1
  {
    match w
    case WArray(items) => WalkIsParseItems(items, classes);
    case WObject(props) =>
      FindAbsent(props, CLASS_MARKER);
      WalkIsParseProps(props, classes);
    case _ =>
  }

  lemma {:induction false} WalkIsParseItems(items: seq<Wire>, classes: map<string, Class>)
    requires !ItemsHaveKey(items, CLASS_MARKER) && !ItemsHaveKey(items, PROTO)
    ensures DeserializeItems(items, classes) == ParsedItems(items)
    decreases items, 0
  {
    if items != [] {
      WalkIsParse(items[0], classes);
      WalkIsParseItems(items[1..], classes);
    }
  }

  lemma {:induction false} WalkIsParseProps(props: seq<WireProp>, classes: map<string, Class>)
    requires !PropsHaveKey(props, CLASS_MARKER) && !PropsHaveKey(props, PROTO)
    ensures DeserializeProps(props, classes) == ParsedProps(props)
    decreases props, 0
  {
    if props != [] {
      WalkIsParse(props[0].value, classes);
      WalkIsParseProps(props[1..], classes);
    }
  }

  // ----- the fast path -----

  predicate Plain(u: Unit) { 0x20 <= u < 0x7E && u != QUOTE && u != BACKSLASH }

  /** A plain ASCII key is quoted as it is. */
  lemma {:induction false} PlainBody(s: JsString)
    requires forall i :: 0 <= i < |s| ==> Plain(s[i])
    ensures JsonBody(s) == s
  {
    if s != [] { PlainBody(s[1..]); }
  }

  lemma {:induction false} PlainUnits(s: string)
    requires forall i :: 0 <= i < |s| ==> ' ' <= s[i] < '~' && s[i] != '\"' && s[i] != '\\'
    ensures forall i :: 0 <= i < |Units(s)| ==> Plain(Units(s)[i])
  {
    if s != [] { PlainUnits(s[1..]); }
  }

  lemma PlainQuoted(s: string)
    requires forall i :: 0 <= i < |s| ==> ' ' <= s[i] < '~' && s[i] != '\"' && s[i] != '\\'
    ensures JsonStringify(Units(s)) == [QUOTE] + Units(s) + [QUOTE]
  {
    PlainUnits(s);
    PlainBody(Units(s));
  }

  /** Every text JSON.stringify prints - of whatever value, marked or not - is read back as the walk would read it:
      the substring test misses no marker and no `__proto__` key. */
  lemma {:induction false} FastPathIsTheWalk(w: Wire, classes: map<string, Class>)
    ensures DeserializeValue(w, classes) == Deserialize(w, classes)
  {
    hide Contains, JsonStringify, Units, Text;
    if !NeedsDeserializeWalk(Text(w)) {
      PlainQuoted(CLASS_MARKER);
      PlainQuoted(PROTO);
      if HasKey(w, CLASS_MARKER) { KeyShows(w, CLASS_MARKER); }
      if HasKey(w, PROTO) { KeyShows(w, PROTO); }
      WalkIsParse(w, classes);
    }
  }
}

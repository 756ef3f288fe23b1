/** The entity table is an object literal (HTML_NAMED_REFERENCES of packages/parser/src/html_entity_table.ts), so a
    lookup also finds what every object inherits: `constructor`, `toString`, `valueOf` and the like.  What that does
    to a value, and to which values. */
module InheritedNames {
  import opened Options
  import opened HtmlAttribute

  /** What `HTML_NAMED_REFERENCES[name]` finds: the table's own names, and behind them the inherited ones. */
  ghost function Lookup(table: map<string, string>, inherited: map<string, string>): map<string, string> {
    inherited + table
  }

  /** The inherited names and what each prints as.  They hold letters only, none is the beginning of a name of the
      table or begins with one, and what they print as - the text of a function - is no reference. */
  ghost predicate AreInherited(table: map<string, string>, inherited: map<string, string>) {
    && (forall name :: name in inherited ==>
          && 0 < |name| <= MAX_NAME_LENGTH && Letters(name)
          && inherited[name] != [] && inherited[name][0] != '&')
    && (forall name, own :: name in inherited && own in table ==> !(name <= own) && !(own <= name))
    && (forall name :: name in table ==> '&' !in name)
  }

  predicate Letters(name: string) { forall i :: 0 <= i < |name| ==> IsAlphanumeric(name[i]) }

  /** A reference to `name` that the attribute rule lets stand at the front of `s`. */
  predicate Refers(s: string, name: string) {
    && s != [] && s[0] == '&' && name <= s[1..]
    && (1 + |name| == |s| || (s[1 + |name|] != '=' && !IsAlphanumeric(s[1 + |name|])))
  }

  ghost predicate Hit(inherited: map<string, string>, s: string) { exists name :: name in inherited && Refers(s, name) }

  ghost predicate HitIn(inherited: map<string, string>, text: string) {
    exists i :: 0 <= i < |text| && Hit(inherited, text[i..])
  }

  /** All that is proved of the decoder for a table holds for what the lookup finds. */
  lemma LookupIsTable(table: map<string, string>, inherited: map<string, string>)
    requires IsTable(table) && AreInherited(table, inherited)
    ensures IsTable(Lookup(table, inherited))
  {
    forall name, i | name in Lookup(table, inherited) && 0 <= i < |name| - 1 ensures name[i] != ';' {
      if name in inherited { assert IsAlphanumeric(name[i]); }
    }
  }

  // ----- one token -----

  lemma {:induction false} LongestWithin(table: map<string, string>, inherited: map<string, string>, s: string,
                                         length: nat)
    requires length <= |s| && AreInherited(table, inherited)
    requires forall name :: name in inherited && name <= s ==> |name| > length
    ensures Longest(Lookup(table, inherited), s, length) == Longest(table, s, length)
  {
    if length > 0 {
      assert s[..length] <= s;
      LongestWithin(table, inherited, s, length - 1);
    }
  }

  /** No name of the table stands where an inherited one does. */
  lemma {:induction false} NoOwnName(table: map<string, string>, inherited: map<string, string>, name: string,
                                     s: string, length: nat)
    requires length <= |s| && AreInherited(table, inherited) && name in inherited && name <= s
    ensures Longest(table, s, length) == 0
  {
    if length > 0 {
      var own := s[..length];
      assert if length <= |name| then own <= name else name <= own;
      NoOwnName(table, inherited, name, s, length - 1);
    }
  }

  /** The longest inherited name at the front of `s` is what the lookup finds there. */
  lemma {:induction false} LongestInherited(table: map<string, string>, inherited: map<string, string>, name: string,
                                            s: string,
                                            length: nat)
    requires AreInherited(table, inherited) && name in inherited && name <= s && |name| <= length <= |s|
    ensures var n := Longest(Lookup(table, inherited), s, length);
            n >= |name| && s[..n] in inherited && s[..n] !in table
  {
    var found := s[..length];
    assert found in table ==> name <= found;
    if found !in Lookup(table, inherited) {
      assert length == |name| ==> found == name;
      LongestInherited(table, inherited, name, s, length - 1);
    }
  }

  /** Where no inherited name stands the token is the table's. */
  lemma MissedToken(table: map<string, string>, inherited: map<string, string>, s: string)
    requires AreInherited(table, inherited) && s != [] && !Hit(inherited, s)
    ensures FirstToken(Lookup(table, inherited), s) == FirstToken(table, s)
  {
    hide NamedToken, Hit, AreInherited, NumericToken;
    if s[0] == '&' && |s| > 1 { MissedNamed(table, inherited, s); }
  }

  lemma MissedNamed(table: map<string, string>, inherited: map<string, string>, s: string)
    requires AreInherited(table, inherited) && |s| > 1 && s[0] == '&' && !Hit(inherited, s)
    ensures NamedToken(Lookup(table, inherited), s) == NamedToken(table, s)
  {
    hide AreInherited, Longest;
    var after := s[1..];
    var length := Min(MAX_NAME_LENGTH, |after|);
    if name :| name in inherited && name <= after {
      MissedLongest(table, inherited, name, s);
    } else {
      LongestWithin(table, inherited, after, length);
      LookupOwn(table, inherited, after[..Longest(table, after, length)]);
    }
  }

  lemma LookupOwn(table: map<string, string>, inherited: map<string, string>, name: string)
    ensures name in table ==> name in Lookup(table, inherited) && Lookup(table, inherited)[name] == table[name]
  {
  }

  lemma Short(table: map<string, string>, inherited: map<string, string>, name: string)
    requires AreInherited(table, inherited) && name in inherited
    ensures 0 < |name| <= MAX_NAME_LENGTH && Letters(name) && name !in table &&
            Lookup(table, inherited)[name] == inherited[name]
  {
    assert name <= name;
  }

  /** An inherited name stands there, but the attribute rule leaves it as text. */
  lemma MissedLongest(table: map<string, string>, inherited: map<string, string>, name: string, s: string)
    requires AreInherited(table, inherited) && |s| > 1 && s[0] == '&' && !Hit(inherited, s)
    requires name in inherited && name <= s[1..]
    ensures NamedToken(Lookup(table, inherited), s) == Token("&", 1) == NamedToken(table, s)
  {
    hide AreInherited, Longest, Letters, IsAlphanumeric;
    var after := s[1..];
    var length := Min(MAX_NAME_LENGTH, |after|);
    Short(table, inherited, name);
    LongestInherited(table, inherited, name, after, length);
    NoOwnName(table, inherited, name, after, length);
    var n := Longest(Lookup(table, inherited), after, length);
    Short(table, inherited, after[..n]);
    LastIsLetter(after[..n]);
    assert !Refers(s, after[..n]);
  }

  lemma LastIsLetter(name: string)
    requires name != [] && Letters(name)
    ensures name[|name| - 1] != ';'
  {
  }

  /** Where one stands the code prints it, and the table leaves the reference as text. */
  lemma HitToken(table: map<string, string>, inherited: map<string, string>, s: string, name: string)
    requires AreInherited(table, inherited) && name in inherited && Refers(s, name)
    ensures FirstToken(table, s) == Token("&", 1)
    ensures FirstToken(Lookup(table, inherited), s) == Token(inherited[name], 1 + |name|)
  {
    hide AreInherited, Longest;
    var after := s[1..];
    var length := Min(MAX_NAME_LENGTH, |after|);
    Short(table, inherited, name);
    assert s[1] == name[0];
    LongestInherited(table, inherited, name, after, length);
    NoOwnName(table, inherited, name, after, length);
    var n := Longest(Lookup(table, inherited), after, length);
    Short(table, inherited, after[..n]);
    LastIsLetter(name);
    NoLonger(s, name, n);
    assert after[..n] == name;
  }

  /** Letters cannot go on where a reference is let stand. */
  lemma NoLonger(s: string, name: string, n: nat)
    requires Refers(s, name) && n < |s| && Letters(s[1..][..n])
    ensures n <= |name|
  {
    var found := s[1..][..n];
    assert forall i :: 0 <= i < n ==> found[i] == s[1 + i];
  }

  // ----- a whole value -----

  /** Every '&' begins a token of its own. */
  lemma TokenInside(table: map<string, string>, s: string)
    requires s != [] && forall name :: name in table ==> '&' !in name
    ensures forall i :: 0 < i < FirstToken(table, s).taken ==> s[i] != '&'
  {
    var t := FirstToken(table, s);
    if t.taken > 1 && s[1] != '#' {
      var name := s[1..][..t.taken - 1];
      forall i | 0 < i < t.taken ensures s[i] != '&' { assert s[i] == name[i - 1]; }
    }
  }

  lemma HitLater(inherited: map<string, string>, s: string, taken: nat)
    requires 0 < taken <= |s| && forall i :: 0 < i < taken ==> s[i] != '&'
    ensures HitIn(inherited, s) <==> Hit(inherited, s) || HitIn(inherited, s[taken..])
  {
    assert s[0..] == s;
    forall i | taken <= i < |s| ensures s[i..] == s[taken..][i - taken..] {}
    if HitIn(inherited, s) {
      var i :| 0 <= i < |s| && Hit(inherited, s[i..]);
      assert i >= taken ==> s[i..] == s[taken..][i - taken..];
    }
    if HitIn(inherited, s[taken..]) {
      var i :| 0 <= i < |s[taken..]| && Hit(inherited, s[taken..][i..]);
      assert s[taken..][i..] == s[taken + i..];
    }
  }

  /** The code decodes a value as the table says exactly if no reference to an inherited name stands in it. */
  lemma {:induction false} DecodesAsTheTable(table: map<string, string>, inherited: map<string, string>, text: string)
    requires AreInherited(table, inherited)
    ensures Decode(Lookup(table, inherited), text) == Decode(table, text) <==> !HitIn(inherited, text)
    decreases |text|
  {
    if text != [] {
      var t := FirstToken(table, text);
      TokenInside(table, text);
      HitLater(inherited, text, t.taken);
      DecodeFirst(table, text);
      DecodeFirst(Lookup(table, inherited), text);
      hide Decode, FirstToken, AreInherited, Lookup;
      if name :| name in inherited && Refers(text, name) {
        HitToken(table, inherited, text, name);
        assert Hit(inherited, text);
        PrintsNoReference(table, inherited, name);
        assert Decode(Lookup(table, inherited), text)[0] != Decode(table, text)[0];
      } else {
        MissedToken(table, inherited, text);
        DecodesAsTheTable(table, inherited, text[t.taken..]);
        SameFront(t.out, Decode(Lookup(table, inherited), text[t.taken..]), Decode(table, text[t.taken..]));
      }
    } else {
      NothingLeft(table, text);
      NothingLeft(Lookup(table, inherited), text);
    }
  }

  lemma PrintsNoReference(table: map<string, string>, inherited: map<string, string>, name: string)
    requires AreInherited(table, inherited) && name in inherited
    ensures inherited[name] != [] && inherited[name][0] != '&'
  {
  }

  lemma SameFront(front: string, a: string, b: string)
    ensures front + a == front + b <==> a == b
  {
    assert (front + a)[|front|..] == a && (front + b)[|front|..] == b;
  }

  const CONSTRUCTOR := map["constructor" := "function Object() { [native code] }"]

  /** `title="&constructor"`: the page shows the text of a function, where the standard leaves the value as it is. */
  lemma ConstructorIsRead(table: map<string, string>)
    requires AreInherited(table, CONSTRUCTOR)
    ensures Decode(Lookup(table, CONSTRUCTOR), "&constructor") == "function Object() { [native code] }"
    ensures Decode(table, "&constructor") != "function Object() { [native code] }"
  {
    var s := "&constructor";
    hide Decode, AreInherited, FirstToken, Lookup;
    assert s[1..] == "constructor";
    HitToken(table, CONSTRUCTOR, s, "constructor");
    DecodeFirst(table, s);
    DecodeFirst(Lookup(table, CONSTRUCTOR), s);
    assert Decode(table, s)[0] == '&';
    assert s[12..] == [];
    NothingLeft(Lookup(table, CONSTRUCTOR), s[12..]);
  }
}

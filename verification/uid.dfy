/** Component ids (packages/core/src/instruction-processor.ts): the counter aa, ab, ..., az, a0, ..., z9, aaa,
    ... is shown to count - the n-th id has rank n - so no id is ever given twice. */
module Uids {
  predicate IsLetter(c: char) { 'a' <= c <= 'z' }

  predicate IsDigit(c: char) { '0' <= c <= '9' }

  /** What uid() gives: a letter followed by at least one letter or digit. */
  predicate IsCid(s: string) {
    |s| >= 2 && IsLetter(s[0]) && forall i :: 0 <= i < |s| ==> IsLetter(s[i]) || IsDigit(s[i])
  }

  /** The character after `c`: letters, then digits; '9' wraps to 'a'. */
  function Successor(c: char): char {
    if 'a' <= c < 'z' then (c as int + 1) as char
    else if c == 'z' then '0'
    else if '0' <= c < '9' then (c as int + 1) as char
    else if c == '9' then 'a'
    else c
  }

  predicate AllNines(s: string) { forall i :: 0 <= i < |s| ==> s[i] == '9' }

  /** Counting up from the right; the carry runs out of the left only when every character is '9'. */
  function Increment(s: string): (r: string)
    ensures |r| == |s|
  {
    if s == [] then []
    else
      var front, last := s[..|s| - 1], s[|s| - 1];
      if last == '9' then Increment(front) + ['a'] else front + [Successor(last)]
  }

  /** The id after `s`. */
  function Next(s: string): (r: string)
    requires IsCid(s)
  {
    var up := Increment(s);
    var carried := if AllNines(s) then ['a'] + up else up;
    if IsDigit(carried[0]) then ['a', 'a'] + carried[1..] else carried
  }

  class Uid {
    var increment: string
    ghost var issued: nat

    ghost predicate Valid()
      reads this
    {
      increment == Nth(issued)
    }

    constructor ()
      ensures Valid() && issued == 0
    {
      increment, issued := "aa", 0;
    }

    /** `uid()`: gives the n-th id at its n-th call. */
    method Take() returns (current: string)
      requires Valid()
      modifies this
      ensures Valid() && issued == old(issued) + 1
      ensures current == Nth(old(issued))
    {
      NthIsCid(issued);
      current := increment;
      var chars, carry := CountUp(increment);
      if carry { chars := ['a'] + chars; }
      if IsDigit(chars[0]) { chars := ['a', 'a'] + chars[1..]; }
      increment := chars;
      issued := issued + 1;
    }
  }

  /** The carry loop of uid(), right to left over the characters of the last id; nothing is left to carry. */
  method CountUp(s: string) returns (chars: string, carry: bool)
    requires IsCid(s)
    ensures chars == Increment(s) && !carry
  {
    hide Increment;
    chars, carry := s, true;
    var i := |s| - 1;
    assert s[..|s|] == s && chars[|s|..] == [];
    while i >= 0 && carry
      invariant -1 <= i < |s| == |chars|
      invariant carry ==> AllNines(s[i + 1..])
      invariant !carry ==> !AllNines(s)
      invariant Increment(s) == if carry then Increment(s[..i + 1]) + chars[i + 1..] else chars
      invariant carry ==> chars[..i + 1] == s[..i + 1]
    {
      var c := chars[i];
      assert c == chars[..i + 1][i] == s[i];
      IncrementStep(s, i, chars[i + 1..]);
      var next := Successor(c);
      assert c != '9' ==> chars[i := next] == s[..i] + [next] + chars[i + 1..];
      assert c == '9' ==> chars[i := 'a'][i..] == ['a'] + chars[i + 1..] && s[i..] == ['9'] + s[i + 1..];
      if 'a' <= c < 'z' {
        chars := chars[i := (c as int + 1) as char];
        carry := false;
      } else if c == 'z' {
        chars := chars[i := '0'];
        carry := false;
      } else if '0' <= c < '9' {
        chars := chars[i := (c as int + 1) as char];
        carry := false;
      } else if c == '9' {
        chars := chars[i := 'a'];
        carry := true;
      }
      i := i - 1;
    }
  }

  lemma IncrementStep(s: string, i: nat, tail: string)
    requires IsCid(s) && i < |s|
    ensures Increment(s[..i + 1]) + tail ==
            if s[i] == '9' then Increment(s[..i]) + (['a'] + tail) else s[..i] + [Successor(s[i])] + tail
  {
    assert s[..i + 1][..i] == s[..i];
  }

  /** The first character is a letter, so the carry never leaves the left end. */
  lemma NeverCarriesOut(s: string)
    requires IsCid(s)
    ensures !AllNines(s)
  {
    assert s[0] != '9';
  }

  /** The id given by call number `n`. */
  function Nth(n: nat): string {
    if n == 0 then "aa" else if IsCid(Nth(n - 1)) then Next(Nth(n - 1)) else ""
  }

  // ----- rank -----

  function Digit(c: char): nat {
    if IsLetter(c) then c as int - 'a' as int else if IsDigit(c) then c as int - '0' as int + 26 else 0
  }

  function Power(n: nat): nat { if n == 0 then 1 else 36 * Power(n - 1) }

  /** The characters read as a number in base 36. */
  function Number(s: string): nat { if s == [] then 0 else 36 * Number(s[..|s| - 1]) + Digit(s[|s| - 1]) }

  /** How many ids are shorter than `length` characters. */
  function Shorter(length: nat): nat { if length <= 2 then 0 else Shorter(length - 1) + 26 * Power(length - 2) }

  function Rank(s: string): nat { Shorter(|s|) + Number(s) }

  predicate CidChars(s: string) { forall i :: 0 <= i < |s| ==> IsLetter(s[i]) || IsDigit(s[i]) }

  lemma NumberMore(s: string, c: char)
    ensures Number(s + [c]) == 36 * Number(s) + Digit(c)
  {
    assert (s + [c])[..|s|] == s;
    hide Digit;
  }

  lemma SuccessorCounts(c: char)
    requires (IsLetter(c) || IsDigit(c)) && c != '9'
    ensures Digit(Successor(c)) == Digit(c) + 1 && (IsLetter(Successor(c)) || IsDigit(Successor(c)))
  {
  }

  lemma IncrementLast(front: string, last: char)
    ensures Increment(front + [last]) == if last == '9' then Increment(front) + ['a'] else front + [Successor(last)]
  {
    assert (front + [last])[..|front|] == front;
    hide Successor;
  }

  lemma {:induction false} IncrementCounts(s: string)
    requires CidChars(s) && !AllNines(s)
    ensures Number(Increment(s)) == Number(s) + 1 && CidChars(Increment(s))
  {
    var front, last := s[..|s| - 1], s[|s| - 1];
    assert s == front + [last];
    assert CidChars(front);
    assert Digit('9') == 35 && Digit('a') == 0;
    hide Number, Digit, Increment, Successor;
    NumberMore(front, last);
    IncrementLast(front, last);
    if last == '9' {
      IncrementCounts(front);
      NumberMore(Increment(front), 'a');
    } else {
      SuccessorCounts(last);
      NumberMore(front, Successor(last));
    }
  }

  /** A number whose first character became '0' by counting is 26 times a power of 36: all the rest wrapped. */
  lemma {:induction false} FirstOverflows(s: string)
    requires CidChars(s) && s != [] && IsLetter(s[0]) && IsDigit(Increment(s)[0])
    ensures Number(Increment(s)) == 26 * Power(|s| - 1)
    ensures forall i :: 1 <= i < |s| ==> Increment(s)[i] == 'a'
  {
    var front, last := s[..|s| - 1], s[|s| - 1];
    if |s| == 1 {
      OneOverflows(s);
    } else {
      assert CidChars(front) && front[0] == s[0];
      assert last == '9';
      FirstOverflows(front);
      NumberMore(Increment(front), 'a');
      hide Increment, Number;
      assert Power(|s| - 1) == 36 * Power(|s| - 2);
    }
  }

  lemma OneOverflows(s: string)
    requires |s| == 1 && IsLetter(s[0]) && IsDigit(Increment(s)[0])
    ensures Increment(s) == ['0'] && Number(Increment(s)) == 26 && Power(0) == 1
  {
    assert Increment(s) == [Successor(s[0])] && Increment(s)[..0] == [];
  }

  lemma {:induction false} AllAs(s: string)
    requires forall i :: 0 <= i < |s| ==> s[i] == 'a'
    ensures Number(s) == 0
  {
    if s != [] { AllAs(s[..|s| - 1]); }
  }

  /** Each id ranks one above the one before. */
  lemma NextCounts(s: string)
    requires IsCid(s)
    ensures IsCid(Next(s)) && Rank(Next(s)) == Rank(s) + 1
  {
    NeverCarriesOut(s);
    IncrementCounts(s);
    var up := Increment(s);
    if IsDigit(up[0]) {
      FirstOverflows(s);
      hide Number, Power, Increment;
      AllAs(Next(s));
      assert Shorter(|s| + 1) == Shorter(|s|) + 26 * Power(|s| - 1);
    } else {
      hide Number, Power, Increment, Shorter;
    }
  }

  lemma {:induction false} NthIsCid(n: nat)
    ensures IsCid(Nth(n)) && Rank(Nth(n)) == n
  {
    if n == 0 {
      assert "aa"[..1] == "a" && "a"[..0] == "";
    } else {
      NthIsCid(n - 1);
      NextCounts(Nth(n - 1));
    }
  }

  /** However long the page lives, no two calls give the same id, and each gives a letter followed by letters
      or digits. */
  lemma NeverRepeats(m: nat, n: nat)
    ensures Nth(m) == Nth(n) <==> m == n
    ensures IsCid(Nth(n))
  {
    NthIsCid(m);
    NthIsCid(n);
  }
}

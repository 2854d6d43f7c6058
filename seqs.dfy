/** Sequence and string helpers shared by the models: JavaScript's `indexOf`,
 *  the `indexOf`/`splice(i, 1)` removal idiom, and decimal rendering of an index
 *  inside a template literal. */
module Seqs {

  /** `Array.prototype.indexOf`: the first position holding `x`, or -1. */
  function IndexOf<T(==)>(s: seq<T>, x: T): (i: int)
    ensures -1 <= i < |s|
    ensures i == -1 <==> x !in s
    ensures 0 <= i ==> s[i] == x && x !in s[..i]
  {
    if |s| == 0 then -1
    else if s[0] == x then 0
    else
      var j := IndexOf(s[1..], x);
      assert s[1..][..if j < 0 then 0 else j] == s[1..if j < 0 then 1 else j + 1];
      if j == -1 then -1 else j + 1
  }

  /** `const i = s.indexOf(x); if (i > -1) s.splice(i, 1);` as a value. */
  function RemoveFirst<T(==)>(s: seq<T>, x: T): (r: seq<T>)
    ensures x !in s ==> r == s
    ensures x in s ==> |r| == |s| - 1 && multiset(r) == multiset(s) - multiset{x}
    ensures x in s ==> exists i :: 0 <= i < |s| && s[i] == x && x !in s[..i] && r == s[..i] + s[i + 1..]
    ensures forall y :: y in r ==> y in s
    ensures forall y :: y in s && y != x ==> y in r
  {
    var i := IndexOf(s, x);
    if i > -1 then
      assert s == s[..i] + [s[i]] + s[i + 1..];
      s[..i] + s[i + 1..]
    else s
  }

  /** No element occurs twice. */
  predicate NoDup<T(==)>(s: seq<T>)
  {
    forall i, j :: 0 <= i < j < |s| ==> s[i] != s[j]
  }

  lemma {:induction false} RemoveFirstNoDup<T>(s: seq<T>, x: T)
    requires NoDup(s)
    ensures NoDup(RemoveFirst(s, x)) && x !in RemoveFirst(s, x)
  {
    var i := IndexOf(s, x);
    if i > -1 {
      var r := s[..i] + s[i + 1..];
      assert forall k :: 0 <= k < |r| ==> r[k] == (if k < i then s[k] else s[k + 1]);
    }
  }

  lemma AppendFreshNoDup<T>(s: seq<T>, x: T)
    requires NoDup(s) && x !in s
    ensures NoDup(s + [x])
  {
  }

  /** Removing what was just appended gives back the original list. */
  lemma RemoveFirstAppended<T>(s: seq<T>, x: T)
    requires x !in s
    ensures RemoveFirst(s + [x], x) == s
  {
    assert IndexOf(s + [x], x) == |s|;
    assert (s + [x])[..|s|] == s;
  }

  lemma AppendAssoc<T>(a: seq<T>, b: seq<T>, c: seq<T>)
    ensures (a + b) + c == a + (b + c)
  {
  }

  /** Decimal digits of `n`, as `${n}` renders a non-negative integer. */
  function NatToString(n: nat): (r: string)
    ensures |r| >= 1
    ensures forall i :: 0 <= i < |r| ==> '0' <= r[i] <= '9'
    ensures (|r| == 1) == (n < 10)
    decreases n
  {
    if n < 10 then [Digit(n)] else NatToString(n / 10) + [Digit(n % 10)]
  }

  function Digit(d: nat): (c: char)
    requires d < 10
    ensures '0' <= c <= '9'
  {
    ['0', '1', '2', '3', '4', '5', '6', '7', '8', '9'][d]
  }

  lemma DigitInjective(a: nat, b: nat)
    requires a < 10 && b < 10 && Digit(a) == Digit(b)
    ensures a == b
  {
  }

  /** Different indices render differently, so `a[0]` and `a[1]` are different labels. */
  lemma {:induction false} NatToStringInjective(a: nat, b: nat)
    requires NatToString(a) == NatToString(b)
    ensures a == b
    decreases a
  {
    var s := NatToString(a);
    if a < 10 {
      assert b < 10;
      DigitInjective(a, b);
    } else {
      assert b >= 10;
      assert s[|s| - 1] == Digit(a % 10) && s[|s| - 1] == Digit(b % 10);
      DigitInjective(a % 10, b % 10);
      assert NatToString(a / 10) == s[..|s| - 1] == NatToString(b / 10);
      NatToStringInjective(a / 10, b / 10);
    }
  }

  /** A slice inside `a` is the same slice of `a + b`. */
  lemma SliceOfAppend<T>(a: seq<T>, b: seq<T>, at: nat, len: nat)
    requires at + len <= |a|
    ensures (a + b)[at..at + len] == a[at..at + len]
  {
  }

  /** `b` is the slice of `a + b` after `a`. */
  lemma PrefixSlice<T>(a: seq<T>, b: seq<T>)
    ensures (a + b)[|a|..|a| + |b|] == b
  {
  }
}

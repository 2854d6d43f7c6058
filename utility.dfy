/** `normalize_uniform_label` (src/graphics/utility.ts): the key under which a
 *  uniform is registered. Everything between a `[` and the next `]` is dropped,
 *  and a label that contained a bracket at all is marked with a leading `[]`,
 *  so that every element of a uniform array shares one registry entry. */
module UniformLabels {

  predicate IsBracket(c: char)
  {
    c == '[' || c == ']'
  }

  predicate BracketFree(s: string)
  {
    forall i :: 0 <= i < |s| ==> !IsBracket(s[i])
  }

  /** The characters the scan appends when it reads `s` starting in skip state
   *  `skipping`: `[` starts skipping, `]` stops it, any other character is
   *  appended unless the scan is skipping. */
  function Kept(s: string, skipping: bool): string
  {
    if s == [] then []
    else if s[0] == '[' then Kept(s[1..], true)
    else if s[0] == ']' then Kept(s[1..], false)
    else (if skipping then [] else [s[0]]) + Kept(s[1..], skipping)
  }

  /** The skip state after reading `s` from state `skipping`: decided by the last
   *  bracket of `s`, if there is one. */
  function SkipAfter(s: string, skipping: bool): bool
  {
    if s == [] then skipping
    else if s[0] == '[' then SkipAfter(s[1..], true)
    else if s[0] == ']' then SkipAfter(s[1..], false)
    else SkipAfter(s[1..], skipping)
  }

  /** The normalised label: `[]` in front when the raw label has a bracket. */
  function Normalize(raw: string): string
  {
    (if BracketFree(raw) then "" else "[]") + Kept(raw, false)
  }

  /** The source's loop, character by character. */
  method NormalizeUniformLabel(rawLabel: string) returns (key: string)
    ensures key == Normalize(rawLabel)
  {
    key := "";
    var skipping := false;
    var isArray := false;
    var i := 0;
    while i < |rawLabel|
      invariant 0 <= i <= |rawLabel|
      invariant key + Kept(rawLabel[i..], skipping) == Kept(rawLabel, false)
      invariant isArray == !BracketFree(rawLabel[..i])
    {
      var c := rawLabel[i];
      KeptStep(rawLabel, i, skipping);
      BracketFreeStep(rawLabel, i);
      if c == '[' {
        skipping := true;
        isArray := true;
      } else if c == ']' {
        skipping := false;
        isArray := true;
      } else {
        if !skipping {
          assert key + Kept(rawLabel[i..], skipping) == (key + [c]) + Kept(rawLabel[i + 1..], skipping);
          key := key + [c];
        }
      }
      i := i + 1;
    }
    assert rawLabel[..i] == rawLabel;
    if isArray {
      key := "[]" + key;
    }
  }

  /** One character of the scan. */
  lemma KeptStep(s: string, i: nat, skipping: bool)
    requires i < |s|
    ensures Kept(s[i..], skipping)
         == if s[i] == '[' then Kept(s[i + 1..], true)
            else if s[i] == ']' then Kept(s[i + 1..], false)
            else (if skipping then [] else [s[i]]) + Kept(s[i + 1..], skipping)
  {
    assert s[i..][0] == s[i] && s[i..][1..] == s[i + 1..];
  }

  lemma BracketFreeStep(s: string, i: nat)
    requires i < |s|
    ensures BracketFree(s[..i + 1]) <==> BracketFree(s[..i]) && !IsBracket(s[i])
  {
    assert s[..i + 1] == s[..i] + [s[i]];
    BracketFreeAppend2(s[..i], [s[i]]);
  }

  lemma {:induction false} KeptBracketFree(s: string, skipping: bool)
    ensures BracketFree(Kept(s, skipping))
    ensures |Kept(s, skipping)| <= |s|
    decreases |s|
  {
    if s != [] {
      KeptBracketFree(s[1..], if s[0] == '[' then true else if s[0] == ']' then false else skipping);
    }
  }

  /** Reading `a + b` is reading `a`, then reading `b` from where `a` left the scan. */
  lemma {:induction false} KeptAppend(a: string, b: string, skipping: bool)
    ensures Kept(a + b, skipping) == Kept(a, skipping) + Kept(b, SkipAfter(a, skipping))
    decreases |a|
  {
    if a == [] {
      assert a + b == b;
    } else {
      assert (a + b)[0] == a[0] && (a + b)[1..] == a[1..] + b;
      KeptAppend(a[1..], b, if a[0] == '[' then true else if a[0] == ']' then false else skipping);
    }
  }

  lemma {:induction false} BracketFreeScan(s: string, skipping: bool)
    requires BracketFree(s)
    ensures Kept(s, skipping) == (if skipping then [] else s)
    ensures SkipAfter(s, skipping) == skipping
    decreases |s|
  {
    if s != [] {
      assert BracketFree(s[1..]) by {
        forall i | 0 <= i < |s[1..]| ensures !IsBracket(s[1..][i]) { assert s[1..][i] == s[i + 1]; }
      }
      assert !IsBracket(s[0]);
      BracketFreeScan(s[1..], skipping);
      assert s == [s[0]] + s[1..];
    }
  }

  lemma BracketFreeAppend(a: string, b: string)
    requires BracketFree(a) && BracketFree(b)
    ensures BracketFree(a + b)
  {
    forall i | 0 <= i < |a + b| ensures !IsBracket((a + b)[i]) {
      if i < |a| { assert (a + b)[i] == a[i]; } else { assert (a + b)[i] == b[i - |a|]; }
    }
  }

  lemma BracketFreeAppend2(a: string, b: string)
    ensures BracketFree(a + b) <==> BracketFree(a) && BracketFree(b)
  {
    if BracketFree(a) && BracketFree(b) {
      BracketFreeAppend(a, b);
    }
    if BracketFree(a + b) {
      forall i | 0 <= i < |a| ensures !IsBracket(a[i]) { assert a[i] == (a + b)[i]; }
      forall i | 0 <= i < |b| ensures !IsBracket(b[i]) { assert b[i] == (a + b)[|a| + i]; }
    }
  }

  /** A label without brackets is its own key. */
  lemma PlainLabelUnchanged(raw: string)
    requires BracketFree(raw)
    ensures Normalize(raw) == raw
  {
    BracketFreeScan(raw, false);
  }

  /** The key starts with the array marker exactly when the raw label has a bracket,
   *  and the rest of the key never contains a bracket. */
  lemma ArrayMarkerIff(raw: string)
    ensures (|Normalize(raw)| >= 2 && Normalize(raw)[..2] == "[]") <==> !BracketFree(raw)
    ensures !BracketFree(raw) ==> Normalize(raw) == "[]" + Kept(raw, false) && BracketFree(Normalize(raw)[2..])
    ensures BracketFree(raw) ==> BracketFree(Normalize(raw))
  {
    KeptBracketFree(raw, false);
    if BracketFree(raw) {
      PlainLabelUnchanged(raw);
      if |raw| >= 2 { assert !IsBracket(raw[0]); }
    } else {
      assert Normalize(raw)[2..] == Kept(raw, false);
    }
  }

  /** Normalising twice changes nothing. */
  lemma Idempotent(raw: string)
    ensures Normalize(Normalize(raw)) == Normalize(raw)
  {
    var k := Kept(raw, false);
    KeptBracketFree(raw, false);
    if BracketFree(raw) {
      PlainLabelUnchanged(raw);
    } else {
      var n := "[]" + k;
      assert n[0] == '[';
      assert !BracketFree(n);
      assert n == "[" + ("]" + k);
      assert ("]" + k)[1..] == k;
      BracketFreeScan(k, false);
      assert Kept(n, false) == Kept("]" + k, true) == Kept(k, false) == k;
    }
  }

  /** An element label `p[i]q` is stored under `[]` followed by `p` and what
   *  the scan keeps of `q`: the index itself never reaches the key. */
  lemma ElementKey(p: string, index: string, q: string)
    requires BracketFree(p) && BracketFree(index)
    ensures Normalize(p + "[" + index + "]" + q) == "[]" + p + Kept(q, false)
  {
    var raw := p + "[" + index + "]" + q;
    assert raw[|p|] == '[';
    assert !BracketFree(raw);
    assert raw == p + ("[" + (index + ("]" + q)));
    BracketFreeScan(p, false);
    KeptAppend(p, "[" + (index + ("]" + q)), false);
    assert ("[" + (index + ("]" + q)))[1..] == index + ("]" + q);
    BracketFreeScan(index, true);
    KeptAppend(index, "]" + q, true);
    assert ("]" + q)[1..] == q;
  }

  /** Two elements of the same uniform array share one key. */
  lemma IndexIndependent(p: string, i: string, j: string, q: string)
    requires BracketFree(p) && BracketFree(i) && BracketFree(j)
    ensures Normalize(p + "[" + i + "]" + q) == Normalize(p + "[" + j + "]" + q)
  {
    ElementKey(p, i, q);
    ElementKey(p, j, q);
  }

  /** An unclosed `[` drops the rest of the label. */
  lemma UnclosedBracketDropsRest(p: string, rest: string)
    requires BracketFree(p) && '[' !in rest && ']' !in rest
    ensures Normalize(p + "[" + rest) == "[]" + p
  {
    var raw := p + "[" + rest;
    assert raw[|p|] == '[';
    assert BracketFree(rest) by {
      forall i | 0 <= i < |rest| ensures !IsBracket(rest[i]) { assert rest[i] in rest; }
    }
    assert raw == p + ("[" + rest);
    BracketFreeScan(p, false);
    KeptAppend(p, "[" + rest, false);
    assert ("[" + rest)[1..] == rest;
    BracketFreeScan(rest, true);
  }

  /** A stray `]` marks the label as an array and is dropped. */
  lemma StrayClosingBracket(p: string, q: string)
    requires BracketFree(p) && BracketFree(q)
    ensures Normalize(p + "]" + q) == "[]" + p + q
  {
    var raw := p + "]" + q;
    assert raw[|p|] == ']';
    assert raw == p + ("]" + q);
    BracketFreeScan(p, false);
    KeptAppend(p, "]" + q, false);
    assert ("]" + q)[1..] == q;
    BracketFreeScan(q, false);
  }
}

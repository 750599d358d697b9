/** Python string operations the driver relies on, over `string` = `seq<char>`:
    the substring test `sub in s`, ASCII `str.upper()`, the code-point order
    `sorted()` uses, and sorting the keys of a dictionary. */
module Text {

  // ---------------------------------------------------------------------------
  // Substring test
  // ---------------------------------------------------------------------------

  /** Python's `sub in s`, scanning start positions from the left. */
  predicate Contains(s: string, sub: string)
    decreases |s|
  {
    sub <= s || (|s| > 0 && Contains(s[1..], sub))
  }

  /** `sub` occurs in `s` starting at index `i`. */
  ghost predicate OccursAt(s: string, sub: string, i: int) {
    0 <= i && i + |sub| <= |s| && s[i..i + |sub|] == sub
  }

  /** The scan agrees with the positional definition of a substring. */
  lemma {:induction false} ContainsIffOccurs(s: string, sub: string)
    ensures Contains(s, sub) <==> exists i :: OccursAt(s, sub, i)
    decreases |s|
  {
    assert OccursAt(s, sub, 0) <==> sub <= s by {
      if |sub| <= |s| {
        assert s[0..|sub|] == s[..|sub|];
      }
    }
    if sub <= s {
    } else if |s| > 0 {
      ContainsIffOccurs(s[1..], sub);
      if Contains(s[1..], sub) {
        var i :| OccursAt(s[1..], sub, i);
        assert s[1..][i..i + |sub|] == s[i + 1..i + 1 + |sub|];
        assert OccursAt(s, sub, i + 1);
      }
      if exists i :: OccursAt(s, sub, i) {
        var i :| OccursAt(s, sub, i);
        assert i != 0;
        assert s[1..][i - 1..i - 1 + |sub|] == s[i..i + |sub|];
        assert OccursAt(s[1..], sub, i - 1);
      }
    } else {
      assert forall i :: OccursAt(s, sub, i) ==> i == 0;
    }
  }

  /** A string shorter than `sub` cannot contain it. */
  lemma {:induction false} ShorterLacks(s: string, sub: string)
    requires |s| < |sub|
    ensures !Contains(s, sub)
    decreases |s|
  {
    if |s| > 0 {
      ShorterLacks(s[1..], sub);
    }
  }

  // ---------------------------------------------------------------------------
  // Upper case
  // ---------------------------------------------------------------------------

  /** `str.upper()` on one character, for the ASCII letters. */
  function UpperChar(c: char): char {
    if 'a' <= c <= 'z' then (c as int - 32) as char else c
  }

  /** `str.upper()`, character by character. */
  function Upper(s: string): string {
    seq(|s|, i requires 0 <= i < |s| => UpperChar(s[i]))
  }

  /** `UpperChar` maps exactly an upper-case letter and its lower-case twin to
      that upper-case letter, and fixes a non-letter only. */
  lemma UpperCharPreimage(c: char, u: char)
    ensures 'A' <= u <= 'Z' ==> (UpperChar(c) == u <==> c == u || c as int == u as int + 32)
    ensures !('A' <= u <= 'Z') && !('a' <= u <= 'z') ==> (UpperChar(c) == u <==> c == u)
  {
  }

  // ---------------------------------------------------------------------------
  // The order of Python's `sorted()` on strings
  // ---------------------------------------------------------------------------

  /** Lexicographic order on code points; a proper prefix comes first. */
  predicate Less(a: string, b: string)
    decreases |a|
  {
    if |a| == 0 then |b| > 0
    else if |b| == 0 then false
    else if a[0] == b[0] then Less(a[1..], b[1..])
    else a[0] < b[0]
  }

  lemma {:induction false} LessIrreflexive(a: string)
    ensures !Less(a, a)
    decreases |a|
  {
    if |a| > 0 {
      LessIrreflexive(a[1..]);
    }
  }

  lemma {:induction false} LessAsymmetric(a: string, b: string)
    ensures Less(a, b) ==> !Less(b, a)
    decreases |a|
  {
    if |a| > 0 && |b| > 0 && a[0] == b[0] {
      LessAsymmetric(a[1..], b[1..]);
    }
  }

  lemma {:induction false} LessTransitive(a: string, b: string, c: string)
    ensures Less(a, b) && Less(b, c) ==> Less(a, c)
    decreases |a|
  {
    if |a| > 0 && |b| > 0 && |c| > 0 && a[0] == b[0] && b[0] == c[0] {
      LessTransitive(a[1..], b[1..], c[1..]);
    }
  }

  lemma {:induction false} LessTotal(a: string, b: string)
    ensures a != b ==> Less(a, b) || Less(b, a)
    decreases |a|
  {
    if |a| > 0 && |b| > 0 && a[0] == b[0] {
      if a[1..] == b[1..] {
        assert a == [a[0]] + a[1..] && b == [b[0]] + b[1..];
      }
      LessTotal(a[1..], b[1..]);
    }
  }

  // ---------------------------------------------------------------------------
  // Sorted key lists
  // ---------------------------------------------------------------------------

  /** Every earlier element is strictly smaller than every later one. */
  predicate StrictlySorted(s: seq<string>) {
    forall i, j :: 0 <= i < j < |s| ==> Less(s[i], s[j])
  }

  function Elems(s: seq<string>): set<string> {
    set x | x in s
  }

  lemma ElemsEmpty(s: seq<string>)
    ensures Elems(s) == {} <==> |s| == 0
  {
    if |s| > 0 {
      assert s[0] in Elems(s);
    }
  }

  /** Inserts a new key into a strictly sorted list at its place. */
  function Insert(s: seq<string>, k: string): (r: seq<string>)
    requires StrictlySorted(s) && k !in s
    ensures StrictlySorted(r)
    ensures Elems(r) == Elems(s) + {k}
    ensures |r| == |s| + 1
  {
    if |s| == 0 then [k]
    else if Less(k, s[0]) then
      assert forall j :: 0 < j < |s| ==> Less(k, s[j]) by {
        forall j | 0 < j < |s| {
          LessTransitive(k, s[0], s[j]);
        }
      }
      [k] + s
    else
      LessTotal(k, s[0]);
      var rest := Insert(s[1..], k);
      assert Elems(s) == {s[0]} + Elems(s[1..]);
      assert forall x :: x in rest ==> Less(s[0], x) by {
        forall x | x in rest
          ensures Less(s[0], x)
        {
          assert x in Elems(rest);
          if x != k {
            var j :| 0 <= j < |s[1..]| && s[1..][j] == x;
            assert s[j + 1] == x;
          }
        }
      }
      [s[0]] + rest
  }

  /** A strictly sorted list is determined by its set of elements. */
  lemma {:induction false} SortedUnique(a: seq<string>, b: seq<string>)
    requires StrictlySorted(a) && StrictlySorted(b)
    requires Elems(a) == Elems(b)
    ensures a == b
    decreases |a|
  {
    if |a| == 0 || |b| == 0 {
      ElemsEmpty(a);
      ElemsEmpty(b);
    } else {
      if a[0] != b[0] {
        assert a[0] in Elems(b);
        var j :| 0 <= j < |b| && b[j] == a[0];
        assert b[0] in Elems(a);
        var i :| 0 <= i < |a| && a[i] == b[0];
        LessAsymmetric(a[0], b[0]);
        assert false;
      }
      forall x | x in a[1..]
        ensures x != a[0]
      {
        var i :| 1 <= i < |a| && a[i] == x;
        LessIrreflexive(a[0]);
      }
      forall x | x in b[1..]
        ensures x != b[0]
      {
        var i :| 1 <= i < |b| && b[i] == x;
        LessIrreflexive(b[0]);
      }
      assert Elems(a) == {a[0]} + Elems(a[1..]);
      assert Elems(b) == {b[0]} + Elems(b[1..]);
      assert Elems(a[1..]) == Elems(b[1..]);
      SortedUnique(a[1..], b[1..]);
      assert a == [a[0]] + a[1..] && b == [b[0]] + b[1..];
    }
  }

  /** Python's `sorted(list(d.keys()))` for a dictionary whose keys are `keys`. */
  method SortKeys(keys: set<string>) returns (r: seq<string>)
    ensures StrictlySorted(r)
    ensures Elems(r) == keys
    ensures |r| == |keys|
  {
    r := [];
    var rest := keys;
    while rest != {}
      invariant StrictlySorted(r)
      invariant Elems(r) + rest == keys
      invariant Elems(r) !! rest
      invariant |r| + |rest| == |keys|
      decreases |rest|
    {
      var k :| k in rest;
      r := Insert(r, k);
      rest := rest - {k};
    }
  }
}

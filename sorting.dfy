/**
 * Python's `sorted` on chart entries. The library sorts fixed-width lowercase
 * hex strings, two digits per byte, whose order is the lexicographic order of
 * the bytes they spell; the model sorts the byte sequences themselves.
 */
module Sorting {
  import opened Common

  /** Lexicographic order on byte sequences, a proper prefix first. */
  predicate LexLe(a: seq<Byte>, b: seq<Byte>)
    decreases |a|
  {
    a == [] || (b != [] && (a[0] < b[0] || (a[0] == b[0] && LexLe(a[1..], b[1..]))))
  }

  lemma {:induction false} LexTotal(a: seq<Byte>, b: seq<Byte>)
    ensures LexLe(a, b) || LexLe(b, a)
    decreases |a|
  {
    if a != [] && b != [] && a[0] == b[0] {
      LexTotal(a[1..], b[1..]);
    }
  }

  lemma {:induction false} LexAntisymmetric(a: seq<Byte>, b: seq<Byte>)
    requires LexLe(a, b) && LexLe(b, a)
    ensures a == b
    decreases |a|
  {
    if a != [] {
      LexAntisymmetric(a[1..], b[1..]);
      assert a == [a[0]] + a[1..] && b == [b[0]] + b[1..];
    }
  }

  lemma {:induction false} LexTransitive(a: seq<Byte>, b: seq<Byte>, c: seq<Byte>)
    requires LexLe(a, b) && LexLe(b, c)
    ensures LexLe(a, c)
    decreases |a|
  {
    if a != [] && a[0] == b[0] && b[0] == c[0] {
      LexTransitive(a[1..], b[1..], c[1..]);
    }
  }

  predicate Sorted(s: seq<seq<Byte>>)
  {
    forall i, j :: 0 <= i < j < |s| ==> LexLe(s[i], s[j])
  }

  /** A sorted sequence stays sorted when an element no greater than all of it goes in front. */
  lemma ConsSorted(x: seq<Byte>, s: seq<seq<Byte>>)
    requires Sorted(s)
    requires forall k :: 0 <= k < |s| ==> LexLe(x, s[k])
    ensures Sorted([x] + s)
  {
    var r := [x] + s;
    forall i, j | 0 <= i < j < |r|
      ensures LexLe(r[i], r[j])
    {
      assert r[j] == s[j - 1];
      if i > 0 {
        assert r[i] == s[i - 1];
      }
    }
  }

  /** The head of a sorted sequence is no greater than any of its elements. */
  lemma HeadIsLeast(s: seq<seq<Byte>>, y: seq<Byte>)
    requires Sorted(s) && y in multiset(s)
    ensures LexLe(s[0], y)
  {
    var k :| 0 <= k < |s| && s[k] == y;
    if k == 0 {
      LexReflexive(y);
    }
  }

  lemma {:induction false} LexReflexive(a: seq<Byte>)
    ensures LexLe(a, a)
    decreases |a|
  {
    if a != [] {
      LexReflexive(a[1..]);
    }
  }

  lemma SortedTail(s: seq<seq<Byte>>)
    requires Sorted(s) && s != []
    ensures Sorted(s[1..])
  {
    forall i, j | 0 <= i < j < |s[1..]|
      ensures LexLe(s[1..][i], s[1..][j])
    {
      assert s[1..][i] == s[i + 1] && s[1..][j] == s[j + 1];
    }
  }

  /** x is no greater than every element of a sorted s whose head it does not exceed. */
  lemma BelowHead(x: seq<Byte>, s: seq<seq<Byte>>)
    requires Sorted(s) && s != [] && LexLe(x, s[0])
    ensures forall k :: 0 <= k < |s| ==> LexLe(x, s[k])
  {
    forall k | 0 < k < |s|
      ensures LexLe(x, s[k])
    {
      LexTransitive(x, s[0], s[k]);
    }
  }

  /** The head of a sorted s, when x exceeds it, is no greater than x nor the rest of s. */
  lemma HeadBelowRest(x: seq<Byte>, s: seq<seq<Byte>>, rest: seq<seq<Byte>>)
    requires Sorted(s) && s != [] && !LexLe(x, s[0])
    requires multiset(rest) == multiset(s[1..]) + multiset{x}
    ensures forall k :: 0 <= k < |rest| ==> LexLe(s[0], rest[k])
  {
    LexTotal(x, s[0]);
    assert s == [s[0]] + s[1..];
    forall k | 0 <= k < |rest|
      ensures LexLe(s[0], rest[k])
    {
      assert rest[k] in multiset(rest);
      if rest[k] != x {
        assert rest[k] in multiset(s);
        HeadIsLeast(s, rest[k]);
      }
    }
  }

  /** Inserts x in front of the first element it does not exceed. */
  function Insert(x: seq<Byte>, s: seq<seq<Byte>>): (r: seq<seq<Byte>>)
    requires Sorted(s)
    ensures Sorted(r)
    ensures multiset(r) == multiset(s) + multiset{x}
    ensures |r| == |s| + 1
    decreases |s|
  {
    if s == [] then [x]
    else if LexLe(x, s[0]) then
      BelowHead(x, s);
      ConsSorted(x, s);
      [x] + s
    else
      SortedTail(s);
      var rest := Insert(x, s[1..]);
      HeadBelowRest(x, s, rest);
      ConsSorted(s[0], rest);
      assert s == [s[0]] + s[1..];
      [s[0]] + rest
  }

  /** `sorted(s)`: the elements of s in ascending order. */
  function Sort(s: seq<seq<Byte>>): (r: seq<seq<Byte>>)
    ensures Sorted(r)
    ensures multiset(r) == multiset(s)
    ensures |r| == |s|
    decreases |s|
  {
    if s == [] then []
    else
      assert s == [s[0]] + s[1..];
      Insert(s[0], Sort(s[1..]))
  }

  /** Equal heads leave equal tails. */
  lemma MultisetTail(a: seq<seq<Byte>>, b: seq<seq<Byte>>)
    requires a != [] && b != [] && a[0] == b[0] && multiset(a) == multiset(b)
    ensures multiset(a[1..]) == multiset(b[1..])
  {
    assert a == [a[0]] + a[1..] && b == [b[0]] + b[1..];
    assert multiset(a[1..]) == multiset(a) - multiset{a[0]};
    assert multiset(b[1..]) == multiset(b) - multiset{b[0]};
  }

  /** Two sorted sequences holding the same elements are equal. */
  lemma {:induction false} SortedUnique(a: seq<seq<Byte>>, b: seq<seq<Byte>>)
    requires Sorted(a) && Sorted(b) && multiset(a) == multiset(b)
    ensures a == b
    decreases |a|
  {
    if a == [] || b == [] {
      assert |a| == |multiset(a)| == |multiset(b)| == |b|;
    } else {
      assert a[0] in multiset(a) && b[0] in multiset(b);
      HeadIsLeast(a, b[0]);
      HeadIsLeast(b, a[0]);
      LexAntisymmetric(a[0], b[0]);
      MultisetTail(a, b);
      SortedTail(a);
      SortedTail(b);
      SortedUnique(a[1..], b[1..]);
      assert a == [a[0]] + a[1..] && b == [b[0]] + b[1..];
    }
  }

  /** Sorting depends only on which elements there are, not on their order. */
  lemma SortOrderFree(a: seq<seq<Byte>>, b: seq<seq<Byte>>)
    requires multiset(a) == multiset(b)
    ensures Sort(a) == Sort(b)
  {
    SortedUnique(Sort(a), Sort(b));
  }

  /** Sorting a sorted sequence changes nothing. */
  lemma SortOfSorted(s: seq<seq<Byte>>)
    requires Sorted(s)
    ensures Sort(s) == s
  {
    SortedUnique(Sort(s), s);
  }
}

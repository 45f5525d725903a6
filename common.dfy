/**
 * Shared vocabulary of the re.corder protocol model: bytes, optional values,
 * the error kinds every library generation raises, and first-match lookup in
 * the fixed name tables.
 */
module Common {

  /** A MIDI byte as the transport carries it. */
  type Byte = b: int | 0 <= b < 256

  datatype Option<+T> = None | Some(value: T) {
    function GetOr(default: T): T {
      match this
      case Some(v) => v
      case None => default
    }
  }

  /** The failures the libraries surface, named after what went wrong. */
  datatype Error =
    | Timeout            // no response within the correlation window
    | RequestFailed      // response status byte is not 0x01
    | UnexpectedPayload  // response does not echo the command bytes
    | InvalidArgument    // a setter argument out of range, or an unknown name
    | InvalidFingering   // a fingering string the codec refuses
    | InvalidNote        // a note name the note codec refuses
    | WrongMode          // chart operation not available in the current user mode
    | MalformedResponse  // a response whose shape the Python getters cannot destructure
    | ShapeMismatch      // a settings update that gives an object where the settings hold none

  datatype Result<+T> = Ok(value: T) | Err(error: Error)

  /** First position of `x` in `table` (JavaScript `indexOf`, Python `index`, `find_key`). */
  function IndexOf<T(==)>(table: seq<T>, x: T): (r: Option<nat>)
    ensures r.Some? ==> r.value < |table| && table[r.value] == x
    ensures r.Some? ==> forall j :: 0 <= j < r.value ==> table[j] != x
    ensures r.None? <==> !Member(table, x)
  {
    if |table| == 0 then None
    else if table[0] == x then Some(0)
    else match IndexOf(table[1..], x)
      case None => None
      case Some(k) => Some(k + 1)
  }

  /**
   * `x` is an entry of `table`, searched from the front. Unlike `x in table`,
   * this is only unfolded as far as a proof asks for.
   */
  predicate Member<T(==)>(table: seq<T>, x: T)
    decreases |table|
  {
    |table| > 0 && (table[0] == x || Member(table[1..], x))
  }

  lemma {:induction false} MemberIsIn<T>(table: seq<T>, x: T)
    ensures Member(table, x) <==> x in table
    decreases |table|
  {
    if |table| > 0 {
      MemberIsIn(table[1..], x);
      assert table == [table[0]] + table[1..];
    }
  }

  /** A table whose entries are pairwise distinct maps every entry back to its own position. */
  lemma {:induction false} IndexOfDistinct<T>(table: seq<T>, k: nat)
    requires k < |table|
    requires forall i, j :: 0 <= i < j < |table| ==> table[i] != table[j]
    ensures IndexOf(table, table[k]) == Some(k)
  {
    MemberIsIn(table, table[k]);
  }

  /** The bytes of a sequence of byte groups, in order. */
  function Flatten(groups: seq<seq<Byte>>): (r: seq<Byte>)
    ensures groups == [] ==> r == []
  {
    if groups == [] then [] else Flatten(groups[..|groups| - 1]) + groups[|groups| - 1]
  }

  lemma {:induction false} FlattenAppend(groups: seq<seq<Byte>>, g: seq<Byte>)
    ensures Flatten(groups + [g]) == Flatten(groups) + g
  {
    assert (groups + [g])[..|groups|] == groups;
  }

  /** Flattening from the front: the first group, then the rest. */
  lemma {:induction false} FlattenCons(g: seq<Byte>, groups: seq<seq<Byte>>)
    ensures Flatten([g] + groups) == g + Flatten(groups)
    decreases |groups|
  {
    if groups == [] {
      assert [g] + groups == [] + [g];
      FlattenAppend([], g);
    } else {
      var init, last := groups[..|groups| - 1], groups[|groups| - 1];
      assert groups == init + [last];
      assert [g] + groups == ([g] + init) + [last];
      FlattenAppend([g] + init, last);
      FlattenCons(g, init);
      FlattenAppend(init, last);
    }
  }

  /** f accepts every element of s before position i and refuses s[i] with e. */
  predicate FirstError<A, B>(f: A -> Result<B>, s: seq<A>, i: int, e: Error)
  {
    0 <= i < |s| && f(s[i]) == Err(e) && forall j :: 0 <= j < i ==> f(s[j]).Ok?
  }

  /** f applied to every element in order; the first element f refuses gives the error. */
  function Traverse<A, B>(f: A -> Result<B>, s: seq<A>): (r: Result<seq<B>>)
    ensures r.Ok? <==> forall i :: 0 <= i < |s| ==> f(s[i]).Ok?
    ensures r.Ok? ==> |r.value| == |s| && forall i :: 0 <= i < |s| ==> r.value[i] == f(s[i]).value
    ensures r.Err? ==> exists i :: FirstError(f, s, i, r.error)
    decreases |s|
  {
    if s == [] then Ok([])
    else
      match f(s[0])
      case Err(e) =>
        assert FirstError(f, s, 0, e);
        Err(e)
      case Ok(b) =>
        var tail := s[1..];
        assert forall i :: 0 < i < |s| ==> s[i] == tail[i - 1];
        match Traverse(f, tail)
        case Err(e) =>
          var k :| FirstError(f, tail, k, e);
          assert FirstError(f, s, k + 1, e);
          Err(e)
        case Ok(rest) =>
          Ok([b] + rest)
  }

  /** Appending x keeps the earlier elements where they were and puts x last. */
  lemma SnocAt<T>(prev: seq<T>, x: T)
    ensures |prev + [x]| == |prev| + 1 && (prev + [x])[|prev|] == x
    ensures forall j :: 0 <= j < |prev| ==> (prev + [x])[j] == prev[j]
  {
  }

  /** f applied to every element, in order. */
  function Map<A, B>(f: A -> B, s: seq<A>): (r: seq<B>)
    ensures |r| == |s|
    decreases |s|
  {
    if s == [] then [] else [f(s[0])] + Map(f, s[1..])
  }

  lemma {:induction false} MapAt<A, B>(f: A -> B, s: seq<A>)
    ensures forall i :: 0 <= i < |s| ==> Map(f, s)[i] == f(s[i])
    decreases |s|
  {
    if s != [] {
      MapAt(f, s[1..]);
      assert forall i :: 0 < i < |s| ==> s[i] == s[1..][i - 1];
    }
  }

  lemma {:induction false} MapConcat<A, B>(f: A -> B, a: seq<A>, b: seq<A>)
    ensures Map(f, a + b) == Map(f, a) + Map(f, b)
    decreases |a|
  {
    if a == [] {
      assert a + b == b;
    } else {
      assert a + b != [] && (a + b)[0] == a[0] && (a + b)[1..] == a[1..] + b;
      MapConcat(f, a[1..], b);
      calc {
        Map(f, a + b);
        [f(a[0])] + Map(f, a[1..] + b);
        [f(a[0])] + (Map(f, a[1..]) + Map(f, b));
        ([f(a[0])] + Map(f, a[1..])) + Map(f, b);
      }
    }
  }

  lemma MapSingle<A, B>(f: A -> B, x: A)
    ensures Map(f, [x]) == [f(x)]
  {
    assert [x][1..] == [];
  }

  /** Mapping a sequence with one element in front. */
  lemma MapCons<A, B>(f: A -> B, x: A, b: seq<A>)
    ensures Map(f, [x] + b) == [f(x)] + Map(f, b)
  {
    assert ([x] + b)[1..] == b;
  }

  /** Mapping around the element at position j. */
  lemma MapAround<A, B>(f: A -> B, t: seq<A>, j: nat)
    requires j < |t|
    ensures Map(f, t) == Map(f, t[..j]) + ([f(t[j])] + Map(f, t[j + 1..]))
  {
    var a, b := t[..j], t[j + 1..];
    SplitAt(t, j);
    MapConcat(f, a, [t[j]] + b);
    MapCons(f, t[j], b);
  }

  /** A sequence is its prefix before j, its element at j and its suffix after j. */
  lemma SplitAt<T>(t: seq<T>, j: nat)
    requires j < |t|
    ensures t == t[..j] + ([t[j]] + t[j + 1..])
  {
    assert t[j..] == [t[j]] + t[j + 1..];
    assert t == t[..j] + t[j..];
  }

  /** An element between two sequences counts once in their multiset. */
  lemma MultisetAround<T>(a: seq<T>, x: T, b: seq<T>)
    ensures multiset(a + ([x] + b)) == multiset{x} + multiset(a + b)
  {
  }

  /** Mapping a sequence with one element taken out takes one result out. */
  lemma MapRemove<A, B>(f: A -> B, t: seq<A>, j: nat)
    requires j < |t|
    ensures multiset(Map(f, t)) == multiset{f(t[j])} + multiset(Map(f, t[..j] + t[j + 1..]))
  {
    MapAround(f, t, j);
    MapConcat(f, t[..j], t[j + 1..]);
    MultisetAround(Map(f, t[..j]), f(t[j]), Map(f, t[j + 1..]));
  }

  /** Taking out the element at position j takes one copy of it out of the multiset. */
  lemma MultisetRemove<A>(t: seq<A>, j: nat)
    requires j < |t|
    ensures multiset(t[..j] + t[j + 1..]) == multiset(t) - multiset{t[j]}
  {
    assert t[..j + 1] == t[..j] + [t[j]];
    assert t == t[..j + 1] + t[j + 1..];
  }

  /** Mapping two arrangements of the same elements gives two arrangements of the same results. */
  lemma {:induction false} MapPermutation<A, B>(f: A -> B, s: seq<A>, t: seq<A>)
    requires multiset(s) == multiset(t)
    ensures multiset(Map(f, s)) == multiset(Map(f, t))
    decreases |s|
  {
    if s == [] {
      assert |t| == |multiset(t)| == 0;
    } else {
      var x, rest := s[0], s[1..];
      assert s == [x] + rest;
      assert x in multiset(t);
      var j :| 0 <= j < |t| && t[j] == x;
      var others := t[..j] + t[j + 1..];
      MultisetRemove(t, j);
      assert multiset(rest) == multiset(others);
      MapPermutation(f, rest, others);
      MapCons(f, x, rest);
      MapRemove(f, t, j);
    }
  }

  /**
   * The dictionary built from key/value pairs in order, a later pair
   * overwriting an earlier one with the same key.
   */
  function LastWins<K, V>(keys: seq<K>, vals: seq<V>): map<K, V>
    requires |keys| == |vals|
    decreases |keys|
  {
    if keys == [] then map[]
    else LastWins(keys[..|keys| - 1], vals[..|vals| - 1])[keys[|keys| - 1] := vals[|vals| - 1]]
  }

  /** The pair at position j is the last one with its key. */
  predicate LastWithKey<K(==)>(keys: seq<K>, j: int)
  {
    0 <= j < |keys| && forall j' :: j < j' < |keys| ==> keys[j'] != keys[j]
  }

  /**
   * Its keys are the keys given; each maps to the value of the last pair
   * with that key.
   */
  lemma {:induction false} LastWinsKeys<K, V>(keys: seq<K>, vals: seq<V>)
    requires |keys| == |vals|
    ensures forall k :: k in LastWins(keys, vals) <==> k in keys
    ensures forall k :: k in LastWins(keys, vals) ==>
              exists j :: LastWithKey(keys, j) && keys[j] == k && LastWins(keys, vals)[k] == vals[j]
    decreases |keys|
  {
    if keys != [] {
      var n := |keys| - 1;
      var prev := LastWins(keys[..n], vals[..n]);
      LastWinsKeys(keys[..n], vals[..n]);
      assert keys == keys[..n] + [keys[n]];
      assert LastWins(keys, vals) == prev[keys[n] := vals[n]];
      forall k | k in LastWins(keys, vals)
        ensures exists j :: LastWithKey(keys, j) && keys[j] == k && LastWins(keys, vals)[k] == vals[j]
      {
        if k == keys[n] {
          assert LastWithKey(keys, n);
        } else {
          assert k in prev && LastWins(keys, vals)[k] == prev[k];
          var j :| LastWithKey(keys[..n], j) && keys[..n][j] == k && LastWins(keys[..n], vals[..n])[k] == vals[..n][j];
          assert keys[j] == k && vals[j] == vals[..n][j];
          assert LastWithKey(keys, j);
        }
      }
    }
  }

  /** Whatever comes before it, the last pair with a key gives that key its value. */
  lemma LastWinsLast<K, V>(keys: seq<K>, vals: seq<V>, j: nat)
    requires |keys| == |vals| && LastWithKey(keys, j)
    ensures keys[j] in LastWins(keys, vals) && LastWins(keys, vals)[keys[j]] == vals[j]
  {
    LastWinsKeys(keys, vals);
    var i :| LastWithKey(keys, i) && keys[i] == keys[j] && LastWins(keys, vals)[keys[j]] == vals[i];
    assert i == j;
  }

  predicate Distinct<K(==)>(keys: seq<K>)
  {
    forall i, j :: 0 <= i < j < |keys| ==> keys[i] != keys[j]
  }

  /** Taking one element out of a sequence without repeats leaves no repeats. */
  lemma DistinctRemove<K>(s: seq<K>, i: nat)
    requires i < |s|
    ensures Distinct(s) ==> Distinct(s[..i] + s[i + 1..])
  {
    if !Distinct(s) {
      return;
    }
    var r := s[..i] + s[i + 1..];
    forall a, b | 0 <= a < b < |r|
      ensures r[a] != r[b]
    {
      var a', b' := if a < i then a else a + 1, if b < i then b else b + 1;
      assert r[a] == s[a'] && r[b] == s[b'];
    }
  }

  /** Taking the element at i out of a sequence without repeats leaves exactly the others. */
  lemma RemoveMembers<K>(s: seq<K>, i: nat)
    requires i < |s|
    ensures Distinct(s) ==> forall y :: y in s[..i] + s[i + 1..] <==> y in s && y != s[i]
  {
    if !Distinct(s) {
      return;
    }
    var r := s[..i] + s[i + 1..];
    forall y
      ensures y in r <==> y in s && y != s[i]
    {
      if y in r {
        var a :| 0 <= a < |r| && r[a] == y;
        var a' := if a < i then a else a + 1;
        assert s[a'] == y && a' != i;
      }
      if y in s && y != s[i] {
        var k :| 0 <= k < |s| && s[k] == y;
        assert r[if k < i then k else k - 1] == y;
      }
    }
  }

  lemma DistinctSnoc<K>(s: seq<K>, x: K)
    requires Distinct(s) && x !in s
    ensures Distinct(s + [x])
  {
    var t := s + [x];
    forall a, b | 0 <= a < b < |t|
      ensures t[a] != t[b]
    {
      assert t[a] == s[a];
      if b < |s| {
        assert t[b] == s[b];
      }
    }
  }

  lemma DistinctTail<K>(s: seq<K>)
    requires Distinct(s) && s != []
    ensures Distinct(s[1..]) && s[0] !in s[1..]
  {
    forall a, b | 0 <= a < b < |s[1..]|
      ensures s[1..][a] != s[1..][b]
    {
      assert s[1..][a] == s[a + 1] && s[1..][b] == s[b + 1];
    }
  }

  /** With pairwise distinct keys nothing is overwritten: one entry per pair. */
  lemma {:induction false} LastWinsSize<K, V>(keys: seq<K>, vals: seq<V>)
    requires |keys| == |vals| && Distinct(keys)
    ensures |LastWins(keys, vals)| == |keys|
    decreases |keys|
  {
    if keys != [] {
      var n := |keys| - 1;
      assert Distinct(keys[..n]);
      LastWinsSize(keys[..n], vals[..n]);
      LastWinsKeys(keys[..n], vals[..n]);
      assert keys[n] !in keys[..n];
    }
  }

  /** With pairwise distinct keys every key keeps the value paired with it. */
  lemma {:induction false} LastWinsAt<K, V>(keys: seq<K>, vals: seq<V>, j: nat)
    requires |keys| == |vals| && Distinct(keys) && j < |keys|
    ensures keys[j] in LastWins(keys, vals) && LastWins(keys, vals)[keys[j]] == vals[j]
    decreases |keys|
  {
    var n := |keys| - 1;
    if j < n {
      assert Distinct(keys[..n]);
      LastWinsAt(keys[..n], vals[..n], j);
      assert keys[..n][j] == keys[j] && vals[..n][j] == vals[j];
    }
  }

  /** Strictly increasing: no value twice, and in order. */
  predicate Increasing(s: seq<nat>)
  {
    forall i, j :: 0 <= i < j < |s| ==> s[i] < s[j]
  }

  /** The one-element sequence [x] when b holds, the empty one otherwise. */
  function Opt<T>(b: bool, x: T): (r: seq<T>)
    ensures x in r <==> b
    ensures |r| <= 1
  {
    if b then [x] else []
  }

  lemma MapOpt<A, B>(f: A -> B, b: bool, x: A)
    ensures Map(f, Opt(b, x)) == Opt(b, f(x))
  {
    if b {
      MapSingle(f, x);
    }
  }

  /** The values of the steps whose guard holds, in order. */
  function Guarded<T>(steps: seq<(bool, T)>): (r: seq<T>)
    ensures |r| <= |steps|
    decreases |steps|
  {
    if steps == [] then [] else Opt(steps[0].0, steps[0].1) + Guarded(steps[1..])
  }

  /** Guarded, one step at a time from position k. */
  lemma GuardedFrom<T>(steps: seq<(bool, T)>, k: nat)
    requires k < |steps|
    ensures Guarded(steps[k..]) == Opt(steps[k].0, steps[k].1) + Guarded(steps[k + 1..])
  {
    assert steps[k..][1..] == steps[k + 1..];
  }

  /** Steps whose guards all fail before position k contribute nothing. */
  lemma {:induction false} GuardedSkip<T>(steps: seq<(bool, T)>, k: nat)
    requires k <= |steps|
    requires forall i :: 0 <= i < k ==> !steps[i].0
    ensures Guarded(steps) == Guarded(steps[k..])
    decreases k
  {
    if k > 0 {
      GuardedSkip(steps, k - 1);
      GuardedFrom(steps, k - 1);
    } else {
      assert steps[0..] == steps;
    }
  }

  /** Ranked steps whose step at position i has rank base + i. */
  predicate RankedFrom<T>(steps: seq<(bool, T)>, rank: T -> nat, base: nat)
  {
    forall i :: 0 <= i < |steps| ==> rank(steps[i].1) == base + i
  }

  /** The ranks kept: the first step's when its guard holds, then those of the rest. */
  lemma GuardedHead<T>(steps: seq<(bool, T)>, rank: T -> nat, base: nat)
    requires steps != [] && RankedFrom(steps, rank, base)
    ensures RankedFrom(steps[1..], rank, base + 1)
    ensures Map(rank, Guarded(steps)) == Opt(steps[0].0, base) + Map(rank, Guarded(steps[1..]))
  {
    assert forall i :: 0 <= i < |steps[1..]| ==> steps[1..][i] == steps[i + 1];
    MapConcat(rank, Opt(steps[0].0, steps[0].1), Guarded(steps[1..]));
    MapOpt(rank, steps[0].0, steps[0].1);
  }

  /** A rank is kept exactly when its step's guard holds. */
  lemma GuardedMembers<T>(steps: seq<(bool, T)>, rank: T -> nat, base: nat)
    requires RankedFrom(steps, rank, base)
    ensures forall k :: k in Map(rank, Guarded(steps)) <==> base <= k < base + |steps| && steps[k - base].0
  {
    forall k
      ensures k in Map(rank, Guarded(steps)) <==> base <= k < base + |steps| && steps[k - base].0
    {
      GuardedMember(steps, rank, base, k);
    }
  }

  /** GuardedMembers for one rank k, by induction on the steps. */
  lemma {:induction false} GuardedMember<T>(steps: seq<(bool, T)>, rank: T -> nat, base: nat, k: int)
    requires RankedFrom(steps, rank, base)
    ensures k in Map(rank, Guarded(steps)) <==> base <= k < base + |steps| && steps[k - base].0
    decreases |steps|
  {
    if steps == [] {
      assert Map(rank, Guarded(steps)) == [];
    } else {
      var rest := steps[1..];
      GuardedHead(steps, rank, base);
      GuardedMember(rest, rank, base + 1, k);
      var h, t := Opt(steps[0].0, base), Map(rank, Guarded(rest));
      assert Map(rank, Guarded(steps)) == h + t;
      assert k in h + t <==> k in h || k in t;
      assert k in h <==> steps[0].0 && k == base;
      if base < k < base + |steps| {
        assert rest[k - (base + 1)] == steps[k - base];
      }
    }
  }

  /** Every element of s is at least x. */
  predicate AtLeast(s: seq<nat>, x: nat)
  {
    forall i :: 0 <= i < |s| ==> x <= s[i]
  }

  /** Putting x perhaps in front of an increasing sequence above x keeps it increasing. */
  lemma IncreasingCons(b: bool, x: nat, t: seq<nat>)
    requires Increasing(t) && AtLeast(t, x + 1)
    ensures Increasing(Opt(b, x) + t) && AtLeast(Opt(b, x) + t, x)
  {
    var h := Opt(b, x);
    var m := h + t;
    assert forall i :: 0 <= i < |m| ==> m[i] == (if i < |h| then x else t[i - |h|]);
  }

  /** Ranked steps keep their values in increasing rank. */
  lemma {:induction false} GuardedIncreasing<T>(steps: seq<(bool, T)>, rank: T -> nat, base: nat)
    requires RankedFrom(steps, rank, base)
    ensures Increasing(Map(rank, Guarded(steps)))
    ensures AtLeast(Map(rank, Guarded(steps)), base)
    decreases |steps|
  {
    if steps != [] {
      GuardedHead(steps, rank, base);
      GuardedIncreasing(steps[1..], rank, base + 1);
      IncreasingCons(steps[0].0, base, Map(rank, Guarded(steps[1..])));
    }
  }

  /** A property of every step's value holds of every value kept. */
  lemma {:induction false} GuardedAll<T>(steps: seq<(bool, T)>, p: T -> bool)
    requires forall i :: 0 <= i < |steps| ==> p(steps[i].1)
    ensures forall i :: 0 <= i < |Guarded(steps)| ==> p(Guarded(steps)[i])
    decreases |steps|
  {
    if steps != [] {
      assert forall i :: 0 <= i < |steps[1..]| ==> steps[1..][i] == steps[i + 1];
      GuardedAll(steps[1..], p);
      var h, t := Opt(steps[0].0, steps[0].1), Guarded(steps[1..]);
      assert forall i :: 0 <= i < |h + t| ==> (h + t)[i] == (if i < |h| then steps[0].1 else t[i - |h|]);
    }
  }

  /** A sequence of four is the display of its four elements. */
  lemma FourOf<T>(s: seq<T>)
    requires |s| == 4
    ensures s == [s[0], s[1], s[2], s[3]]
  {
  }

  /** A map that agrees with m away from key and holds x at key is m updated at key. */
  lemma MapUpdated<K, V>(m': map<K, V>, m: map<K, V>, key: K, x: V)
    requires key in m' && m'[key] == x
    requires forall k :: k != key ==> (k in m' <==> k in m)
    requires forall k :: k != key && k in m ==> m'[k] == m[k]
    ensures m' == m[key := x]
  {
  }
}

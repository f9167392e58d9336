/**
 * Sequence operations the list views are built from: `Array.prototype.filter`,
 * a `reduce` that adds up one field, and grouping by a key.
 */
module Seqs {

  /** `a` can be obtained from `b` by deleting elements: the order of `a` is the order in `b`. */
  predicate Subsequence<T(==)>(a: seq<T>, b: seq<T>)
    decreases |b|
  {
    a == [] || (b != [] && ((a[0] == b[0] && Subsequence(a[1..], b[1..])) || Subsequence(a, b[1..])))
  }

  /** `s.filter(p)`. */
  function Filter<T(==)>(s: seq<T>, p: T -> bool): (r: seq<T>)
    ensures |r| <= |s|
    ensures forall i :: 0 <= i < |r| ==> r[i] in s && p(r[i])
    ensures forall i :: 0 <= i < |s| && p(s[i]) ==> s[i] in r
    ensures Subsequence(r, s)
  {
    if s == [] then []
    else
      assert s == [s[0]] + s[1..];
      var rest := Filter(s[1..], p);
      if p(s[0]) then
        assert ([s[0]] + rest)[1..] == rest;
        [s[0]] + rest
      else
        rest
  }

  lemma {:induction false} FilterConcat<T>(a: seq<T>, b: seq<T>, p: T -> bool)
    ensures Filter(a + b, p) == Filter(a, p) + Filter(b, p)
  {
    if a == [] {
      assert a + b == b;
    } else {
      assert (a + b)[0] == a[0];
      assert (a + b)[1..] == a[1..] + b;
      FilterConcat(a[1..], b, p);
    }
  }

  /** A filter that every element passes returns the sequence unchanged. */
  lemma {:induction false} FilterKeepsAll<T>(s: seq<T>, p: T -> bool)
    requires forall i :: 0 <= i < |s| ==> p(s[i])
    ensures Filter(s, p) == s
  {
    if s != [] {
      FilterKeepsAll(s[1..], p);
      assert s == [s[0]] + s[1..];
    }
  }

  /**
   * Filtering by a predicate and by its negation splits a sequence in two:
   * every element lands in exactly one part.
   */
  lemma {:induction false} FilterPartition<T>(s: seq<T>, p: T -> bool, q: T -> bool)
    requires forall x :: q(x) == !p(x)
    ensures |Filter(s, p)| + |Filter(s, q)| == |s|
    ensures multiset(Filter(s, p)) + multiset(Filter(s, q)) == multiset(s)
    ensures forall i :: 0 <= i < |Filter(s, p)| ==> Filter(s, p)[i] !in Filter(s, q)
  {
    if s != [] {
      var h, t := s[0], s[1..];
      assert s == [h] + t;
      FilterPartition(t, p, q);
      assert Filter(s, p) == (if p(h) then [h] else []) + Filter(t, p);
      assert Filter(s, q) == (if q(h) then [h] else []) + Filter(t, q);
    }
  }

  /** `s.reduce((acc, x) => acc + f(x), 0)`. */
  function Sum<T>(s: seq<T>, f: T -> int): int {
    if s == [] then 0 else f(s[0]) + Sum(s[1..], f)
  }

  lemma {:induction false} SumConcat<T>(a: seq<T>, b: seq<T>, f: T -> int)
    ensures Sum(a + b, f) == Sum(a, f) + Sum(b, f)
  {
    if a == [] {
      assert a + b == b;
    } else {
      assert (a + b)[0] == a[0];
      assert (a + b)[1..] == a[1..] + b;
      SumConcat(a[1..], b, f);
    }
  }

  lemma SumSnoc<T>(s: seq<T>, x: T, f: T -> int)
    ensures Sum(s + [x], f) == Sum(s, f) + f(x)
  {
    SumConcat(s, [x], f);
  }

  lemma {:induction false} SumNonNegative<T>(s: seq<T>, f: T -> int)
    requires forall i :: 0 <= i < |s| ==> f(s[i]) >= 0
    ensures Sum(s, f) >= 0
  {
    if s != [] {
      SumNonNegative(s[1..], f);
    }
  }

  lemma {:induction false} SumZero<T>(s: seq<T>, f: T -> int)
    requires forall i :: 0 <= i < |s| ==> f(s[i]) == 0
    ensures Sum(s, f) == 0
  {
    if s != [] {
      SumZero(s[1..], f);
    }
  }

  /** A sum over a sequence is the sum over the two parts of a filter partition. */
  lemma {:induction false} SumFilterPartition<T>(s: seq<T>, p: T -> bool, q: T -> bool, f: T -> int)
    requires forall x :: q(x) == !p(x)
    ensures Sum(s, f) == Sum(Filter(s, p), f) + Sum(Filter(s, q), f)
  {
    if s != [] {
      SumFilterPartition(s[1..], p, q, f);
      var head := if p(s[0]) then [s[0]] else [];
      SumConcat(head, Filter(s[1..], p), f);
      var head' := if q(s[0]) then [s[0]] else [];
      SumConcat(head', Filter(s[1..], q), f);
    }
  }

  /** The elements of `s` whose key is `k`, in order: one group of a grouping by `key`. */
  function Select<T(==), K(==)>(s: seq<T>, key: T -> K, k: K): (r: seq<T>)
    ensures forall i :: 0 <= i < |r| ==> r[i] in s && key(r[i]) == k
    ensures forall i :: 0 <= i < |s| && key(s[i]) == k ==> s[i] in r
    ensures Subsequence(r, s)
  {
    Filter(s, x => key(x) == k)
  }

  lemma SelectConcat<T, K>(a: seq<T>, b: seq<T>, key: T -> K, k: K)
    ensures Select(a + b, key, k) == Select(a, key, k) + Select(b, key, k)
  {
    FilterConcat(a, b, x => key(x) == k);
  }

  lemma SelectSnoc<T, K>(s: seq<T>, x: T, key: T -> K, k: K)
    ensures Select(s + [x], key, k) == Select(s, key, k) + (if key(x) == k then [x] else [])
  {
    SelectConcat(s, [x], key, k);
  }

  /** A key no element carries has an empty group. */
  lemma SelectAbsent<T, K>(s: seq<T>, key: T -> K, k: K)
    requires forall i :: 0 <= i < |s| ==> key(s[i]) != k
    ensures Select(s, key, k) == []
  {
  }

  /**
   * The first non-empty `f` value along `s`, or "" when there is none: the
   * field a grouping loop fills from the first record that has it
   * (`if (!g.x && record.x) g.x = record.x`).
   */
  function FirstNonEmpty<T>(s: seq<T>, f: T -> string): (r: string)
    ensures r == "" <==> forall i :: 0 <= i < |s| ==> f(s[i]) == ""
    ensures r != "" ==> exists i :: 0 <= i < |s| && f(s[i]) == r && forall j :: 0 <= j < i ==> f(s[j]) == ""
  {
    if s == [] then ""
    else
      var init := s[..|s| - 1];
      assert forall i :: 0 <= i < |init| ==> init[i] == s[i];
      var p := FirstNonEmpty(init, f);
      if p != "" then p else f(s[|s| - 1])
  }

  lemma FirstNonEmptySnoc<T>(s: seq<T>, x: T, f: T -> string)
    ensures FirstNonEmpty(s + [x], f) == if FirstNonEmpty(s, f) != "" then FirstNonEmpty(s, f) else f(x)
  {
    assert (s + [x])[..|s|] == s;
  }

  predicate Distinct<K(==)>(ks: seq<K>) {
    forall i, j :: 0 <= i < j < |ks| ==> ks[i] != ks[j]
  }

  /** In a sequence without repeats every element occurs once. */
  lemma {:induction false} DistinctCounts<K>(s: seq<K>)
    requires Distinct(s)
    ensures forall x :: multiset(s)[x] <= 1
  {
    if s != [] {
      assert s == [s[0]] + s[1..];
      assert Distinct(s[1..]) by {
        forall i, j | 0 <= i < j < |s[1..]|
          ensures s[1..][i] != s[1..][j]
        {
          assert s[1..][i] == s[i + 1] && s[1..][j] == s[j + 1];
        }
      }
      DistinctCounts(s[1..]);
      assert s[0] !in s[1..] by {
        forall k | 0 <= k < |s[1..]|
          ensures s[1..][k] != s[0]
        {
          assert s[1..][k] == s[k + 1];
        }
      }
    }
  }

  lemma RepeatCounts<K>(s: seq<K>, i: nat, j: nat)
    requires i < j < |s|
    ensures multiset(s)[s[j]] >= if s[i] == s[j] then 2 else 1
  {
    assert s == s[..j] + [s[j]] + s[j + 1..];
    assert s[..j][i] == s[i];
  }

  /** Reordering a sequence without repeats cannot create one. */
  lemma PermutationKeepsDistinct<K>(a: seq<K>, b: seq<K>)
    requires Distinct(a) && multiset(a) == multiset(b)
    ensures Distinct(b)
  {
    DistinctCounts(a);
    forall i, j | 0 <= i < j < |b|
      ensures b[i] != b[j]
    {
      RepeatCounts(b, i, j);
    }
  }

  /** The keys of `s` in order of first appearance: the keys of the object a grouping loop builds. */
  function KeysInOrder<T, K(==)>(s: seq<T>, key: T -> K): (ks: seq<K>)
    ensures Distinct(ks)
  {
    if s == [] then []
    else
      var prefix := KeysInOrder(s[..|s| - 1], key);
      var k := key(s[|s| - 1]);
      prefix + (if k in prefix then [] else [k])
  }

  /** The key of every element is listed. */
  lemma {:induction false} KeysCover<T, K>(s: seq<T>, key: T -> K)
    ensures forall i :: 0 <= i < |s| ==> key(s[i]) in KeysInOrder(s, key)
  {
    if s != [] {
      var init := s[..|s| - 1];
      KeysCover(init, key);
      assert forall i :: 0 <= i < |init| ==> init[i] == s[i];
    }
  }

  /** Every key listed is the key of some element: no group is empty. */
  lemma {:induction false} KeysAreUsed<T, K>(s: seq<T>, key: T -> K, k: K)
    requires k in KeysInOrder(s, key)
    ensures exists i :: 0 <= i < |s| && key(s[i]) == k
  {
    var init := s[..|s| - 1];
    if k in KeysInOrder(init, key) {
      KeysAreUsed(init, key, k);
      var i :| 0 <= i < |init| && key(init[i]) == k;
      assert init[i] == s[i];
    } else {
      assert key(s[|s| - 1]) == k;
    }
  }

  /** `add` applied to the elements in turn, starting from `init`. */
  function Fold<T, G>(s: seq<T>, init: G, add: (G, T) -> G): G {
    if s == [] then init else add(Fold(s[..|s| - 1], init, add), s[|s| - 1])
  }

  lemma FoldSnoc<T, G>(s: seq<T>, x: T, init: G, add: (G, T) -> G)
    ensures Fold(s + [x], init, add) == add(Fold(s, init, add), x)
  {
    assert (s + [x])[..|s|] == s;
  }

  /** Filing one more element changes only the entry of its own key. */
  lemma FoldSelectSnoc<T, K, G>(s: seq<T>, x: T, key: T -> K, start: K -> G, add: (G, T) -> G, k: K)
    ensures Fold(Select(s + [x], key, k), start(k), add)
            == if key(x) == k then add(Fold(Select(s, key, k), start(k), add), x) else Fold(Select(s, key, k), start(k), add)
  {
    SelectSnoc(s, x, key, k);
    if key(x) == k {
      FoldSnoc(Select(s, key, k), x, start(k), add);
    } else {
      assert Select(s, key, k) + [] == Select(s, key, k);
    }
  }

  lemma KeysSnoc<T, K>(s: seq<T>, x: T, key: T -> K)
    ensures KeysInOrder(s + [x], key) == KeysInOrder(s, key) + if key(x) in KeysInOrder(s, key) then [] else [key(x)]
  {
    assert (s + [x])[..|s|] == s;
  }

  /**
   * `s.forEach(x => { const k = key(x); if (!map[k]) map[k] = start(k); map[k] = add(map[k], x) })`:
   * one pass that files every element under its key. The keys come out in
   * order of first appearance, and the entry of each key is the fold of
   * exactly the elements with that key, in order.
   */
  method GroupInto<T(==), K(==), G>(s: seq<T>, key: T -> K, start: K -> G, add: (G, T) -> G)
    returns (m: map<K, G>, keys: seq<K>)
    ensures keys == KeysInOrder(s, key)
    ensures forall k :: k in m <==> k in keys
    ensures forall k :: k in m ==> m[k] == Fold(Select(s, key, k), start(k), add)
  {
    m := map[];
    keys := [];
    for i := 0 to |s|
      invariant keys == KeysInOrder(s[..i], key)
      invariant forall k :: k in m <==> k in keys
      invariant forall k :: k in m ==> m[k] == Fold(Select(s[..i], key, k), start(k), add)
    {
      var x := s[i];
      var k := key(x);
      ghost var done := s[..i];
      assert s[..i + 1] == done + [x];
      KeysSnoc(done, x, key);
      if k !in m {
        KeysCover(done, key);
        SelectAbsent(done, key, k);
        m := m[k := start(k)];
        keys := keys + [k];
      }
      m := m[k := add(m[k], x)];
      forall k' | k' in m
        ensures m[k'] == Fold(Select(done + [x], key, k'), start(k'), add)
      {
        FoldSelectSnoc(done, x, key, start, add, k');
      }
    }
    assert s[..|s|] == s;
  }

  /** Sum of `f` over the group of each key in `ks`. */
  function SumOverGroups<T(==), K(==)>(s: seq<T>, key: T -> K, ks: seq<K>, f: T -> int): int {
    if ks == [] then 0 else Sum(Select(s, key, ks[0]), f) + SumOverGroups(s, key, ks[1..], f)
  }

  /** Total size of the groups of each key in `ks`. */
  function SizeOverGroups<T(==), K(==)>(s: seq<T>, key: T -> K, ks: seq<K>): nat {
    if ks == [] then 0 else |Select(s, key, ks[0])| + SizeOverGroups(s, key, ks[1..])
  }

  lemma {:induction false} GroupsStep<T, K>(x: T, s: seq<T>, key: T -> K, ks: seq<K>, f: T -> int)
    requires Distinct(ks)
    ensures SumOverGroups([x] + s, key, ks, f) == SumOverGroups(s, key, ks, f) + (if key(x) in ks then f(x) else 0)
    ensures SizeOverGroups([x] + s, key, ks) == SizeOverGroups(s, key, ks) + (if key(x) in ks then 1 else 0)
  {
    if ks != [] {
      var k := ks[0];
      GroupsStep(x, s, key, ks[1..], f);
      SelectConcat([x], s, key, k);
      var one := Select([x], key, k);
      assert one == if key(x) == k then [x] else [];
      SumConcat(one, Select(s, key, k), f);
      assert key(x) in ks <==> key(x) == k || key(x) in ks[1..];
      assert key(x) == k ==> key(x) !in ks[1..];
    }
  }

  /**
   * Grouping loses and duplicates nothing: over a list of distinct keys that
   * covers every element, the group sizes add up to the length and the group
   * sums add up to the sum.
   */
  lemma {:induction false} GroupsCoverAll<T, K>(s: seq<T>, key: T -> K, ks: seq<K>, f: T -> int)
    requires Distinct(ks)
    requires forall i :: 0 <= i < |s| ==> key(s[i]) in ks
    ensures SizeOverGroups(s, key, ks) == |s|
    ensures SumOverGroups(s, key, ks, f) == Sum(s, f)
  {
    if s == [] {
      EmptyGroups(key, ks, f);
    } else {
      assert s == [s[0]] + s[1..];
      GroupsCoverAll(s[1..], key, ks, f);
      GroupsStep(s[0], s[1..], key, ks, f);
    }
  }

  lemma {:induction false} EmptyGroups<T, K>(key: T -> K, ks: seq<K>, f: T -> int)
    ensures SizeOverGroups([], key, ks) == 0
    ensures SumOverGroups([], key, ks, f) == 0
  {
    if ks != [] {
      EmptyGroups(key, ks[1..], f);
    }
  }
}

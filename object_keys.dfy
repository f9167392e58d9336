/**
 * The order in which `Object.values` lists the properties of a plain object
 * built by assigning string keys (ECMAScript, section 10.1.11.1,
 * OrdinaryOwnPropertyKeys): keys that are array indices come first in
 * ascending numeric order, then the other keys in the order they were added.
 * The admin panel's groupings are such objects keyed by phone number, so a
 * group of an eight-digit phone is listed by number, not by first appearance.
 */
module ObjectKeys {
  import opened Text
  import opened Seqs

  /** 2^32 - 1: an array index is a canonical decimal strictly below it. */
  const IndexBound := 4294967295

  function DigitOf(c: char): nat {
    if IsDigit(c) then c as int - '0' as int else 0
  }

  /** The number a string of decimal digits denotes. */
  function DecimalValue(s: string): nat {
    if s == [] then 0 else DecimalValue(s[..|s| - 1]) * 10 + DigitOf(s[|s| - 1])
  }

  /** A key JavaScript treats as an array index: digits, no leading zero, below 2^32 - 1. */
  predicate IsIndexKey(k: string) {
    k != "" && AllDigits(k) && (k[0] != '0' || k == "0") && DecimalValue(k) < IndexBound
  }

  predicate NotIndexKey(k: string) {
    !IsIndexKey(k)
  }

  predicate Ascending(ks: seq<string>) {
    forall i, j :: 0 <= i < j < |ks| ==> DecimalValue(ks[i]) <= DecimalValue(ks[j])
  }

  function InsertKey(k: string, ks: seq<string>): (r: seq<string>)
    ensures multiset(r) == multiset(ks) + multiset{k}
    ensures r[0] == k || (ks != [] && r[0] == ks[0])
  {
    if ks == [] || DecimalValue(k) <= DecimalValue(ks[0]) then
      [k] + ks
    else
      assert ks == [ks[0]] + ks[1..];
      [ks[0]] + InsertKey(k, ks[1..])
  }

  lemma PrependAscending(k: string, ks: seq<string>)
    requires Ascending(ks)
    requires ks != [] ==> DecimalValue(k) <= DecimalValue(ks[0])
    ensures Ascending([k] + ks)
  {
    var r := [k] + ks;
    forall i, j | 0 <= i < j < |r|
      ensures DecimalValue(r[i]) <= DecimalValue(r[j])
    {
      assert r[j] == ks[j - 1];
      if i > 0 {
        assert r[i] == ks[i - 1];
      }
    }
  }

  lemma {:induction false} InsertAscending(k: string, ks: seq<string>)
    requires Ascending(ks)
    ensures Ascending(InsertKey(k, ks))
  {
    if ks == [] || DecimalValue(k) <= DecimalValue(ks[0]) {
      PrependAscending(k, ks);
    } else {
      assert Ascending(ks[1..]) by {
        forall i, j | 0 <= i < j < |ks[1..]|
          ensures DecimalValue(ks[1..][i]) <= DecimalValue(ks[1..][j])
        {
          assert ks[1..][i] == ks[i + 1] && ks[1..][j] == ks[j + 1];
        }
      }
      InsertAscending(k, ks[1..]);
      PrependAscending(ks[0], InsertKey(k, ks[1..]));
    }
  }

  /** Index keys sorted by numeric value, as a permutation. */
  function SortKeys(ks: seq<string>): (r: seq<string>)
    ensures multiset(r) == multiset(ks)
    ensures Ascending(r)
  {
    if ks == [] then []
    else
      assert ks == [ks[0]] + ks[1..];
      var rest := SortKeys(ks[1..]);
      InsertAscending(ks[0], rest);
      InsertKey(ks[0], rest)
  }

  /**
   * The order `Object.values` returns the values in, given the keys in the
   * order they were first assigned: a reordering of the keys.
   */
  function ValuesOrder(ks: seq<string>): (r: seq<string>)
    ensures multiset(r) == multiset(ks)
    ensures forall x :: x in r <==> x in ks
    ensures Distinct(ks) ==> Distinct(r)
  {
    var r := SortKeys(Filter(ks, IsIndexKey)) + Filter(ks, NotIndexKey);
    FilterPartition(ks, IsIndexKey, NotIndexKey);
    assert multiset(r) == multiset(ks);
    assert forall x :: x in r <==> x in ks by {
      forall x
        ensures x in r <==> x in ks
      {
        assert x in r <==> x in multiset(r);
        assert x in ks <==> x in multiset(ks);
      }
    }
    if Distinct(ks) then
      PermutationKeepsDistinct(ks, r);
      r
    else
      r
  }

  /**
   * The array-index keys come first, by ascending value; the other keys
   * follow in insertion order.
   */
  lemma ValuesOrderShape(ks: seq<string>)
    ensures exists n :: (0 <= n <= |ValuesOrder(ks)| && Ascending(ValuesOrder(ks)[..n])
                         && (forall i :: 0 <= i < n ==> IsIndexKey(ValuesOrder(ks)[i]))
                         && ValuesOrder(ks)[n..] == Filter(ks, NotIndexKey))
  {
    var indices := SortKeys(Filter(ks, IsIndexKey));
    var r := ValuesOrder(ks);
    assert r == indices + Filter(ks, NotIndexKey);
    forall i | 0 <= i < |indices|
      ensures IsIndexKey(r[i])
    {
      assert r[i] == indices[i];
      assert indices[i] in multiset(Filter(ks, IsIndexKey));
    }
    assert r[..|indices|] == indices;
  }

  /** Without array-index keys, `Object.values` keeps insertion order. */
  lemma InsertionOrderWithoutIndices(ks: seq<string>)
    requires forall i :: 0 <= i < |ks| ==> NotIndexKey(ks[i])
    ensures ValuesOrder(ks) == ks
  {
    FilterKeepsAll(ks, NotIndexKey);
    FilterPartition(ks, IsIndexKey, NotIndexKey);
  }

  /** With only array-index keys, `Object.values` lists them by ascending value. */
  lemma NumericOrderWithOnlyIndices(ks: seq<string>)
    requires forall i :: 0 <= i < |ks| ==> IsIndexKey(ks[i])
    ensures Ascending(ValuesOrder(ks))
  {
    FilterKeepsAll(ks, IsIndexKey);
    FilterPartition(ks, IsIndexKey, NotIndexKey);
    assert ValuesOrder(ks) == SortKeys(ks) + [];
  }
}

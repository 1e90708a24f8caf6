/**
 * Copy, sort with a numeric comparator, take a prefix: the shape of every ranking
 * view in the dashboard. Array.prototype.sort is stable (ECMA-262, section 23.1.3.30),
 * so the sorted copy is modelled by a stable insertion sort, and StableSortIsUnique
 * shows that every stable sort under the same comparator yields the same sequence.
 */
module StableSort {
  import opened Types

  /** The three comparators the dashboard hands to sort. */
  datatype Order = ByChangePercentDesc | ByChangePercentAsc | ByVolumeDesc

  /** The sort key each comparator induces: ascending Key order is the comparator's order. */
  function Key(o: Order, e: ETF): real {
    match o
    case ByChangePercentDesc => -e.changePercent
    case ByChangePercentAsc => e.changePercent
    case ByVolumeDesc => -(e.volume as real)
  }

  /** The comparator as written at the call sites: a negative value puts a before b. */
  function Compare(o: Order, a: ETF, b: ETF): (c: real)
    ensures c < 0.0 <==> Key(o, a) < Key(o, b)
    ensures c == 0.0 <==> Key(o, a) == Key(o, b)
  {
    match o
    case ByChangePercentDesc => b.changePercent - a.changePercent
    case ByChangePercentAsc => a.changePercent - b.changePercent
    case ByVolumeDesc => (b.volume - a.volume) as real
  }

  predicate Sorted(o: Order, s: seq<ETF>) {
    forall i, j :: 0 <= i < j < |s| ==> Key(o, s[i]) <= Key(o, s[j])
  }

  /** The elements of s whose key is k, in the order they have in s. */
  function Ties(o: Order, s: seq<ETF>, k: real): seq<ETF>
  {
    if s == [] then [] else (if Key(o, s[0]) == k then [s[0]] else []) + Ties(o, s[1..], k)
  }

  /** r is what a stable sort of s under o returns: ordered, a permutation, ties in input order. */
  ghost predicate IsStableSortOf(o: Order, r: seq<ETF>, s: seq<ETF>) {
    && Sorted(o, r)
    && multiset(r) == multiset(s)
    && forall k :: Ties(o, r, k) == Ties(o, s, k)
  }

  /** Places x in front of the first element it does not compare after. */
  function Insert(o: Order, x: ETF, r: seq<ETF>): (t: seq<ETF>)
    ensures |t| == |r| + 1
  {
    if r == [] then [x]
    else if Compare(o, x, r[0]) <= 0.0 then [x] + r
    else
      assert r == [r[0]] + r[1..];
      [r[0]] + Insert(o, x, r[1..])
  }

  /** Insert adds exactly x. */
  lemma {:induction false} InsertPermutes(o: Order, x: ETF, r: seq<ETF>)
    ensures multiset(Insert(o, x, r)) == multiset(r) + multiset{x}
  {
    if r != [] && Compare(o, x, r[0]) > 0.0 {
      InsertPermutes(o, x, r[1..]);
      assert r == [r[0]] + r[1..];
    }
  }

  /** A lower bound on the keys of r and of x bounds the keys of Insert(o, x, r). */
  lemma {:induction false} InsertBound(o: Order, x: ETF, r: seq<ETF>, b: real)
    requires forall i :: 0 <= i < |r| ==> b <= Key(o, r[i])
    requires b <= Key(o, x)
    ensures forall i :: 0 <= i < |Insert(o, x, r)| ==> b <= Key(o, Insert(o, x, r)[i])
  {
    if r != [] && Compare(o, x, r[0]) > 0.0 {
      InsertBound(o, x, r[1..], b);
      var t := Insert(o, x, r);
      assert forall i :: 1 <= i < |t| ==> t[i] == Insert(o, x, r[1..])[i - 1];
    }
  }

  /** Inserting into a sorted sequence keeps it sorted. */
  lemma {:induction false} InsertSorted(o: Order, x: ETF, r: seq<ETF>)
    requires Sorted(o, r)
    ensures Sorted(o, Insert(o, x, r))
  {
    if r != [] && Compare(o, x, r[0]) > 0.0 {
      var rest := Insert(o, x, r[1..]);
      var t := [r[0]] + rest;
      assert Insert(o, x, r) == t;
      InsertSorted(o, x, r[1..]);
      InsertBound(o, x, r[1..], Key(o, r[0]));
      forall i, j | 0 <= i < j < |t| ensures Key(o, t[i]) <= Key(o, t[j]) {
        assert t[j] == rest[j - 1];
        if i > 0 {
          assert t[i] == rest[i - 1];
        }
      }
    }
  }

  function InsertionSort(o: Order, s: seq<ETF>): (r: seq<ETF>)
    ensures multiset(r) == multiset(s)
    ensures Sorted(o, r)
  {
    if s == [] then []
    else
      assert s == [s[0]] + s[1..];
      var rest := InsertionSort(o, s[1..]);
      InsertSorted(o, s[0], rest);
      InsertPermutes(o, s[0], rest);
      Insert(o, s[0], rest)
  }

  lemma {:induction false} TiesAppend(o: Order, a: seq<ETF>, b: seq<ETF>, k: real)
    ensures Ties(o, a + b, k) == Ties(o, a, k) + Ties(o, b, k)
  {
    if a == [] {
      assert a + b == b;
    } else {
      var h := if Key(o, a[0]) == k then [a[0]] else [];
      assert (a + b)[0] == a[0];
      assert (a + b)[1..] == a[1..] + b;
      TiesAppend(o, a[1..], b, k);
      calc {
        Ties(o, a + b, k);
        h + Ties(o, a[1..] + b, k);
        h + (Ties(o, a[1..], k) + Ties(o, b, k));
        (h + Ties(o, a[1..], k)) + Ties(o, b, k);
      }
    }
  }

  lemma {:induction false} TiesMember(o: Order, s: seq<ETF>, k: real, e: ETF)
    requires e in Ties(o, s, k)
    ensures e in s && Key(o, e) == k
  {
    if s != [] && !(Key(o, s[0]) == k && e == s[0]) {
      TiesMember(o, s[1..], k, e);
    }
  }

  /** Insert puts x ahead of every element with the same key. */
  lemma {:induction false} InsertTies(o: Order, x: ETF, r: seq<ETF>, k: real)
    ensures Ties(o, Insert(o, x, r), k) == (if Key(o, x) == k then [x] else []) + Ties(o, r, k)
  {
    var xs := if Key(o, x) == k then [x] else [];
    var t := Insert(o, x, r);
    if r == [] {
      assert t == [x] && t[1..] == [];
      assert Ties(o, t, k) == xs + Ties(o, [], k);
    } else if Compare(o, x, r[0]) <= 0.0 {
      assert t == [x] + r && t[1..] == r;
      assert Ties(o, t, k) == xs + Ties(o, r, k);
    } else {
      var rest := Insert(o, x, r[1..]);
      assert t == [r[0]] + rest;
      assert t[1..] == rest;
      InsertTies(o, x, r[1..], k);
      assert Key(o, r[0]) < Key(o, x);
      if Key(o, x) == k {
        assert Ties(o, t, k) == Ties(o, rest, k);
        assert Ties(o, r, k) == Ties(o, r[1..], k);
      } else {
        assert Ties(o, rest, k) == Ties(o, r[1..], k);
      }
    }
  }

  lemma {:induction false} InsertionSortTies(o: Order, s: seq<ETF>, k: real)
    ensures Ties(o, InsertionSort(o, s), k) == Ties(o, s, k)
  {
    if s != [] {
      InsertionSortTies(o, s[1..], k);
      InsertTies(o, s[0], InsertionSort(o, s[1..]), k);
    }
  }

  lemma InsertionSortIsStable(o: Order, s: seq<ETF>)
    ensures IsStableSortOf(o, InsertionSort(o, s), s)
  {
    forall k ensures Ties(o, InsertionSort(o, s), k) == Ties(o, s, k) {
      InsertionSortTies(o, s, k);
    }
  }

  lemma TiesOfHead(o: Order, s: seq<ETF>)
    ensures s != [] ==> Ties(o, s, Key(o, s[0])) != []
  {
  }

  /** Two sorted sequences with the same ties for every key are equal. */
  lemma {:induction false} SortedTiesDetermine(o: Order, r1: seq<ETF>, r2: seq<ETF>)
    requires Sorted(o, r1) && Sorted(o, r2)
    requires forall k :: Ties(o, r1, k) == Ties(o, r2, k)
    ensures r1 == r2
    decreases |r1|
  {
    if r1 == [] || r2 == [] {
      TiesOfHead(o, r1);
      TiesOfHead(o, r2);
    } else {
      var k1, k2 := Key(o, r1[0]), Key(o, r2[0]);
      assert Ties(o, r2, k2) == [r2[0]] + Ties(o, r2[1..], k2);
      TiesMember(o, r1, k2, r2[0]);
      assert k1 <= k2;
      assert Ties(o, r1, k1) == [r1[0]] + Ties(o, r1[1..], k1);
      TiesMember(o, r2, k1, r1[0]);
      assert k2 <= k1;
      forall k ensures Ties(o, r1[1..], k) == Ties(o, r2[1..], k) {
        if k == k1 {
          assert Ties(o, r1, k) == [r1[0]] + Ties(o, r1[1..], k);
          assert Ties(o, r2, k) == [r2[0]] + Ties(o, r2[1..], k);
          assert Ties(o, r1, k)[1..] == Ties(o, r1[1..], k);
          assert Ties(o, r2, k)[1..] == Ties(o, r2[1..], k);
        } else {
          assert Ties(o, r1, k) == Ties(o, r1[1..], k);
          assert Ties(o, r2, k) == Ties(o, r2[1..], k);
        }
      }
      assert Ties(o, r1, k1)[0] == r1[0] && Ties(o, r2, k1)[0] == r2[0];
      SortedTiesDetermine(o, r1[1..], r2[1..]);
      assert r1 == [r1[0]] + r1[1..] && r2 == [r2[0]] + r2[1..];
    }
  }

  /** Every stable sort agrees with InsertionSort: the sort implementation does not matter. */
  lemma StableSortIsUnique(o: Order, s: seq<ETF>, r: seq<ETF>)
    requires IsStableSortOf(o, r, s)
    ensures r == InsertionSort(o, s)
  {
    InsertionSortIsStable(o, s);
    SortedTiesDetermine(o, r, InsertionSort(o, s));
  }

  /** A prefix of a stable sort is ordered, drawn from s, ties in input order, and no left-out element ranks ahead of it. */
  lemma PrefixOfStableSort(o: Order, s: seq<ETF>, sorted: seq<ETF>, m: nat)
    requires IsStableSortOf(o, sorted, s)
    requires m <= |s|
    ensures |sorted| == |s|
    ensures Sorted(o, sorted[..m])
    ensures multiset(sorted[..m]) <= multiset(s)
    ensures forall k :: Ties(o, sorted[..m], k) <= Ties(o, s, k)
    ensures forall e :: e in multiset(s) - multiset(sorted[..m]) ==>
              forall i :: 0 <= i < m ==> Key(o, sorted[i]) <= Key(o, e)
  {
    assert |multiset(sorted)| == |multiset(s)|;
    var r, rest := sorted[..m], sorted[m..];
    assert sorted == r + rest;
    assert multiset(sorted) == multiset(r) + multiset(rest);
    forall k ensures Ties(o, r, k) <= Ties(o, s, k) {
      TiesAppend(o, r, rest, k);
    }
    forall e | e in multiset(s) - multiset(r)
      ensures forall i :: 0 <= i < m ==> Key(o, sorted[i]) <= Key(o, e)
    {
      assert e in multiset(rest);
      var j :| 0 <= j < |rest| && rest[j] == e;
      assert sorted[m + j] == e;
    }
  }

  /** The view `[...s].sort(compare).slice(0, k)`. */
  function TopK(o: Order, s: seq<ETF>, k: nat): (r: seq<ETF>)
    ensures |r| == Min(k, |s|)
  {
    InsertionSort(o, s)[..Min(k, |s|)]
  }

  /** Every element of a sub-multiset of s occurs in s. */
  lemma SubMultisetMembers(r: seq<ETF>, s: seq<ETF>)
    requires multiset(r) <= multiset(s)
    ensures forall i :: 0 <= i < |r| ==> r[i] in s
  {
    forall i | 0 <= i < |r| ensures r[i] in s {
      assert r[i] in multiset(r);
    }
  }

  /** A view is ordered, drawn from s, keeps ties in input order, and nothing left out ranks ahead of it. */
  lemma TopKSpec(o: Order, s: seq<ETF>, k: nat)
    ensures Sorted(o, TopK(o, s, k))
    ensures multiset(TopK(o, s, k)) <= multiset(s)
    ensures forall i :: 0 <= i < |TopK(o, s, k)| ==> TopK(o, s, k)[i] in s
    ensures forall t :: Ties(o, TopK(o, s, k), t) <= Ties(o, s, t)
    ensures forall e :: e in multiset(s) - multiset(TopK(o, s, k)) ==>
              forall i :: 0 <= i < |TopK(o, s, k)| ==> Key(o, TopK(o, s, k)[i]) <= Key(o, e)
  {
    var sorted := InsertionSort(o, s);
    InsertionSortIsStable(o, s);
    PrefixOfStableSort(o, s, sorted, Min(k, |s|));
    SubMultisetMembers(TopK(o, s, k), s);
  }

  /** The order and membership facts of TopKSpec alone, for callers that need no more. */
  lemma TopKOrderedMembers(o: Order, s: seq<ETF>, k: nat)
    ensures Sorted(o, TopK(o, s, k))
    ensures forall i :: 0 <= i < |TopK(o, s, k)| ==> TopK(o, s, k)[i] in s
  {
    TopKSpec(o, s, k);
  }

  /** Any stable sort followed by the same slice gives the same view. */
  lemma TopKOfAnyStableSort(o: Order, s: seq<ETF>, r: seq<ETF>, k: nat)
    requires IsStableSortOf(o, r, s)
    ensures |r| == |s|
    ensures TopK(o, s, k) == r[..Min(k, |s|)]
  {
    assert |multiset(r)| == |multiset(s)|;
    StableSortIsUnique(o, s, r);
  }
}

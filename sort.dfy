/**
 * Stable sort by ObjectNameOnDoc (DataSort/Sort.cs). LINQ's `OrderBy` and
 * `OrderByDescending` are both stable; names are compared in ordinal order.
 */
module Sort {
  import opened StringUtil
  import opened CultObjectProcessing

  /** `a` may stand before `b` in the requested direction. */
  predicate Precedes(a: CultObject, b: CultObject, ascending: bool)
  {
    if ascending then AtMost(SortKey(a), SortKey(b)) else AtMost(SortKey(b), SortKey(a))
  }

  /** Neighbours are in order: names non-decreasing (ascending) or non-increasing (descending). */
  predicate Sorted(s: seq<CultObject>, ascending: bool)
  {
    forall i :: 0 <= i < |s| - 1 ==> Precedes(s[i], s[i + 1], ascending)
  }

  lemma {:induction false} PrecedesTotal(a: CultObject, b: CultObject, ascending: bool)
    ensures Precedes(a, b, ascending) || Precedes(b, a, ascending)
  {
    AtMostTotal(SortKey(a), SortKey(b));
  }

  lemma {:induction false} PrecedesTransitive(a: CultObject, b: CultObject, c: CultObject, ascending: bool)
    requires Precedes(a, b, ascending) && Precedes(b, c, ascending)
    ensures Precedes(a, c, ascending)
  {
    if ascending {
      AtMostTransitive(SortKey(a), SortKey(b), SortKey(c));
    } else {
      AtMostTransitive(SortKey(c), SortKey(b), SortKey(a));
    }
  }

  /** Inserts `x` before the first element it may precede, hence ahead of every element with an equal name. */
  function Insert(x: CultObject, s: seq<CultObject>, ascending: bool): (r: seq<CultObject>)
    ensures multiset(r) == multiset(s) + multiset{x}
    ensures |r| == |s| + 1
    ensures r[0] == x || (|s| > 0 && r[0] == s[0])
    ensures Sorted(s, ascending) ==> Sorted(r, ascending)
    decreases |s|
  {
    if |s| == 0 then [x]
    else if Precedes(x, s[0], ascending) then [x] + s
    else
      PrecedesTotal(x, s[0], ascending);
      assert s == [s[0]] + s[1..];
      [s[0]] + Insert(x, s[1..], ascending)
  }

  /** `OrderBy` (ascending) or `OrderByDescending` on ObjectNameOnDoc. */
  function SortByObjectNameOnDoc(xs: seq<CultObject>, ascending: bool): (r: seq<CultObject>)
    ensures multiset(r) == multiset(xs)
    ensures |r| == |xs|
    ensures Sorted(r, ascending)
    decreases |xs|
  {
    if |xs| == 0 then []
    else
      assert xs == [xs[0]] + xs[1..];
      Insert(xs[0], SortByObjectNameOnDoc(xs[1..], ascending), ascending)
  }

  /** The records named `k`, in order. */
  function WithName(s: seq<CultObject>, k: string): seq<CultObject>
  {
    if |s| == 0 then []
    else Named(s[0], k) + WithName(s[1..], k)
  }

  /** The records named `k` that `x` contributes: itself or nothing. */
  function Named(x: CultObject, k: string): seq<CultObject>
  {
    if SortKey(x) == k then [x] else []
  }

  lemma {:induction false} InsertWithName(x: CultObject, s: seq<CultObject>, ascending: bool, k: string)
    ensures WithName(Insert(x, s, ascending), k) == Named(x, k) + WithName(s, k)
    decreases |s|
  {
    if |s| == 0 || Precedes(x, s[0], ascending) {
      InsertFrontWithName(x, s, ascending, k);
    } else {
      InsertWithName(x, s[1..], ascending, k);
      InsertPastWithName(x, s, ascending, k);
    }
  }

  lemma {:induction false} InsertFrontWithName(x: CultObject, s: seq<CultObject>, ascending: bool, k: string)
    requires |s| == 0 || Precedes(x, s[0], ascending)
    ensures WithName(Insert(x, s, ascending), k) == Named(x, k) + WithName(s, k)
  {
    var r := Insert(x, s, ascending);
    assert r == [x] + s;
    assert r[1..] == s;
  }

  lemma {:induction false} InsertPastWithName(x: CultObject, s: seq<CultObject>, ascending: bool, k: string)
    requires |s| > 0 && !Precedes(x, s[0], ascending)
    requires WithName(Insert(x, s[1..], ascending), k) == Named(x, k) + WithName(s[1..], k)
    ensures WithName(Insert(x, s, ascending), k) == Named(x, k) + WithName(s, k)
  {
    assert SortKey(x) != SortKey(s[0]);
    assert Insert(x, s, ascending) == [s[0]] + Insert(x, s[1..], ascending);
    NamedPast(s[0], x, Insert(x, s[1..], ascending), s[1..], k);
    assert [s[0]] + s[1..] == s;
  }

  /** Putting a record with another name in front does not disturb the names-`k` subsequence. */
  lemma {:induction false} NamedPast(a: CultObject, x: CultObject, t: seq<CultObject>, rest: seq<CultObject>, k: string)
    requires SortKey(a) != SortKey(x)
    requires WithName(t, k) == Named(x, k) + WithName(rest, k)
    ensures WithName([a] + t, k) == Named(x, k) + WithName([a] + rest, k)
  {
    WithNameCons(a, t, k);
    WithNameCons(a, rest, k);
    if SortKey(x) == k {
      assert Named(a, k) == [];
    } else {
      assert Named(x, k) == [];
    }
  }

  lemma {:induction false} WithNameCons(a: CultObject, rest: seq<CultObject>, k: string)
    ensures WithName([a] + rest, k) == Named(a, k) + WithName(rest, k)
  {
    assert ([a] + rest)[1..] == rest;
  }

  /** Stability: records with equal names keep their input order, in both directions. */
  lemma {:induction false} SortIsStable(xs: seq<CultObject>, ascending: bool, k: string)
    ensures WithName(SortByObjectNameOnDoc(xs, ascending), k) == WithName(xs, k)
    decreases |xs|
  {
    if |xs| > 0 {
      SortIsStable(xs[1..], ascending, k);
      InsertWithName(xs[0], SortByObjectNameOnDoc(xs[1..], ascending), ascending, k);
    }
  }

  /** Sorting an already sorted list in the same direction returns it unchanged. */
  lemma {:induction false} SortSortedIsIdentity(xs: seq<CultObject>, ascending: bool)
    requires Sorted(xs, ascending)
    ensures SortByObjectNameOnDoc(xs, ascending) == xs
    decreases |xs|
  {
    if |xs| > 0 {
      assert Sorted(xs[1..], ascending);
      SortSortedIsIdentity(xs[1..], ascending);
      assert xs == [xs[0]] + xs[1..];
    }
  }

  lemma {:induction false} SortIdempotent(xs: seq<CultObject>, ascending: bool)
    ensures SortByObjectNameOnDoc(SortByObjectNameOnDoc(xs, ascending), ascending)
         == SortByObjectNameOnDoc(xs, ascending)
  {
    SortSortedIsIdentity(SortByObjectNameOnDoc(xs, ascending), ascending);
  }

  lemma {:induction false} SortedAllPairs(s: seq<CultObject>, ascending: bool, i: int, j: int)
    requires Sorted(s, ascending) && 0 <= i <= j < |s|
    ensures i == j || Precedes(s[i], s[j], ascending)
    decreases j - i
  {
    if i < j - 1 {
      SortedAllPairs(s, ascending, i, j - 1);
      PrecedesTransitive(s[i], s[j - 1], s[j], ascending);
    }
  }

  function Reverse(s: seq<CultObject>): (r: seq<CultObject>)
    ensures |r| == |s| && forall i :: 0 <= i < |s| ==> r[i] == s[|s| - 1 - i]
  {
    if |s| == 0 then [] else Reverse(s[1..]) + [s[0]]
  }

  lemma {:induction false} ReverseMultiset(s: seq<CultObject>)
    ensures multiset(Reverse(s)) == multiset(s)
    decreases |s|
  {
    if |s| > 0 {
      ReverseMultiset(s[1..]);
      assert s == [s[0]] + s[1..];
    }
  }

  /** Records that share a name are identical. */
  predicate NamesIdentify(xs: seq<CultObject>)
  {
    forall i, j :: 0 <= i < |xs| && 0 <= j < |xs| && SortKey(xs[i]) == SortKey(xs[j]) ==> xs[i] == xs[j]
  }

  lemma {:induction false} NamesIdentifyTail(xs: seq<CultObject>)
    requires |xs| > 0 && NamesIdentify(xs)
    ensures NamesIdentify(xs[1..])
  {
    forall i, j | 0 <= i < |xs| - 1 && 0 <= j < |xs| - 1 && SortKey(xs[1..][i]) == SortKey(xs[1..][j])
      ensures xs[1..][i] == xs[1..][j]
    {
      assert xs[1..][i] == xs[i + 1] && xs[1..][j] == xs[j + 1];
    }
  }

  lemma {:induction false} NamesIdentifyPermutation(xs: seq<CultObject>, ys: seq<CultObject>)
    requires multiset(xs) == multiset(ys) && NamesIdentify(xs)
    ensures NamesIdentify(ys)
  {
    forall i, j | 0 <= i < |ys| && 0 <= j < |ys| && SortKey(ys[i]) == SortKey(ys[j])
      ensures ys[i] == ys[j]
    {
      assert ys[i] in multiset(xs) && ys[j] in multiset(xs);
      var p :| 0 <= p < |xs| && xs[p] == ys[i];
      var q :| 0 <= q < |xs| && xs[q] == ys[j];
    }
  }

  /** The heads of two sorted arrangements of the same records have equal names. */
  lemma {:induction false} SortedHeadsAgree(a: seq<CultObject>, b: seq<CultObject>, ascending: bool)
    requires Sorted(a, ascending) && Sorted(b, ascending)
    requires multiset(a) == multiset(b) && |a| > 0
    ensures |b| > 0 && SortKey(a[0]) == SortKey(b[0])
  {
    assert a[0] in multiset(b);
    assert b[0] in multiset(a);
    var i :| 0 <= i < |b| && b[i] == a[0];
    var j :| 0 <= j < |a| && a[j] == b[0];
    SortedAllPairs(b, ascending, 0, i);
    SortedAllPairs(a, ascending, 0, j);
    if ascending {
      AtMostAntisymmetric(SortKey(a[0]), SortKey(b[0]));
    } else {
      AtMostAntisymmetric(SortKey(b[0]), SortKey(a[0]));
    }
  }

  lemma {:induction false} SortedTail(s: seq<CultObject>, ascending: bool)
    requires Sorted(s, ascending) && |s| > 0
    ensures Sorted(s[1..], ascending)
  {
    forall i | 0 <= i < |s| - 2
      ensures Precedes(s[1..][i], s[1..][i + 1], ascending)
    {
      assert s[1..][i] == s[i + 1] && s[1..][i + 1] == s[i + 2];
    }
  }

  lemma {:induction false} MultisetTails(a: seq<CultObject>, b: seq<CultObject>)
    requires |a| > 0 && |b| > 0 && a[0] == b[0] && multiset(a) == multiset(b)
    ensures multiset(a[1..]) == multiset(b[1..])
  {
    assert a == [a[0]] + a[1..] && b == [b[0]] + b[1..];
    assert multiset(a) == multiset{a[0]} + multiset(a[1..]);
    assert multiset(b) == multiset{b[0]} + multiset(b[1..]);
    assert multiset(a[1..]) == multiset(a) - multiset{a[0]};
    assert multiset(b[1..]) == multiset(b) - multiset{b[0]};
  }

  /** Two sorted arrangements of the same records are equal when names identify records. */
  lemma {:induction false} SortedUnique(a: seq<CultObject>, b: seq<CultObject>, ascending: bool)
    requires Sorted(a, ascending) && Sorted(b, ascending)
    requires multiset(a) == multiset(b) && NamesIdentify(a)
    ensures a == b
    decreases |a|
  {
    assert |a| == |multiset(a)| == |b|;
    if |a| > 0 {
      SortedHeadsAgree(a, b, ascending);
      assert b[0] in multiset(a);
      var j :| 0 <= j < |a| && a[j] == b[0];
      assert a[0] == b[0];
      MultisetTails(a, b);
      SortedTail(a, ascending);
      SortedTail(b, ascending);
      NamesIdentifyTail(a);
      SortedUnique(a[1..], b[1..], ascending);
      assert a == [a[0]] + a[1..] && b == [b[0]] + b[1..];
    }
  }

  /** Reversing an ascending list gives a descending one. */
  lemma {:induction false} ReverseSorted(up: seq<CultObject>)
    requires Sorted(up, true)
    ensures Sorted(Reverse(up), false)
  {
    var rev := Reverse(up);
    forall i | 0 <= i < |rev| - 1
      ensures Precedes(rev[i], rev[i + 1], false)
    {
      assert rev[i] == up[|up| - 1 - i] && rev[i + 1] == up[|up| - 2 - i];
    }
  }

  /** When records sharing a name are identical, descending order is ascending order reversed. */
  lemma {:induction false} DescendingIsReversedAscending(xs: seq<CultObject>)
    requires NamesIdentify(xs)
    ensures SortByObjectNameOnDoc(xs, false) == Reverse(SortByObjectNameOnDoc(xs, true))
  {
    var up := SortByObjectNameOnDoc(xs, true);
    var down := SortByObjectNameOnDoc(xs, false);
    ReverseMultiset(up);
    ReverseSorted(up);
    NamesIdentifyPermutation(xs, down);
    SortedUnique(down, Reverse(up), false);
  }
}

/** Equality filtering on one property (DataFilter/Filter.cs). */
module Filter {
  import opened CultObjectProcessing

  /** `a` can be obtained from `b` by deleting elements: `a` keeps `b`'s order. */
  predicate IsSubsequence<T(==)>(a: seq<T>, b: seq<T>)
    decreases |b|
  {
    |a| == 0 || (|b| > 0 && ((a[0] == b[0] && IsSubsequence(a[1..], b[1..])) || IsSubsequence(a, b[1..])))
  }

  /**
   * The records whose property `fieldName` equals `value` (ordinal `==`), in
   * input order; a name other than SecurityStatus, Category or ObjectType
   * leaves the input unchanged.
   */
  function FilterByField(xs: seq<CultObject>, fieldName: string, value: string): (r: seq<CultObject>)
    ensures !IsFilterKey(fieldName) ==> r == xs
    ensures IsSubsequence(r, xs)
    decreases |xs|
  {
    if !IsFilterKey(fieldName) then
      assert IsSubsequence(xs, xs) by { SubsequenceReflexive(xs); }
      xs
    else if |xs| == 0 then []
    else
      var rest := FilterByField(xs[1..], fieldName, value);
      assert xs == [xs[0]] + xs[1..];
      if FilterValue(xs[0], fieldName) == value then
        assert ([xs[0]] + rest)[1..] == rest;
        [xs[0]] + rest
      else
        rest
  }

  /**
   * For a known field the filter keeps exactly the matching records: every
   * kept record matches, and every matching record is kept as often as it
   * occurs in the input.
   */
  lemma {:induction false} FilterByFieldExact(xs: seq<CultObject>, fieldName: string, value: string)
    requires IsFilterKey(fieldName)
    ensures forall x :: x in FilterByField(xs, fieldName, value) ==> FilterValue(x, fieldName) == value
    ensures multiset(FilterByField(xs, fieldName, value)) <= multiset(xs)
    ensures forall x :: FilterValue(x, fieldName) == value ==>
      multiset(FilterByField(xs, fieldName, value))[x] == multiset(xs)[x]
    decreases |xs|
  {
    if |xs| > 0 {
      FilterByFieldExact(xs[1..], fieldName, value);
      var rest := FilterByField(xs[1..], fieldName, value);
      assert xs == [xs[0]] + xs[1..];
      if FilterValue(xs[0], fieldName) == value {
        assert FilterByField(xs, fieldName, value) == [xs[0]] + rest;
      } else {
        assert FilterByField(xs, fieldName, value) == rest;
      }
    }
  }

  lemma {:induction false} SubsequenceReflexive<T>(s: seq<T>)
    ensures IsSubsequence(s, s)
    decreases |s|
  {
    if |s| > 0 {
      SubsequenceReflexive(s[1..]);
    }
  }

  /** Filtering again by the same field and value changes nothing. */
  lemma {:induction false} FilterIdempotent(xs: seq<CultObject>, fieldName: string, value: string)
    ensures FilterByField(FilterByField(xs, fieldName, value), fieldName, value) == FilterByField(xs, fieldName, value)
    decreases |xs|
  {
    if IsFilterKey(fieldName) && |xs| > 0 {
      FilterIdempotent(xs[1..], fieldName, value);
      var rest := FilterByField(xs[1..], fieldName, value);
      if FilterValue(xs[0], fieldName) == value {
        assert ([xs[0]] + rest)[1..] == rest;
      }
    }
  }

  /** The records with the given SecurityStatus and the given Category, in input order. */
  function BothMatch(xs: seq<CultObject>, status: string, category: string): (r: seq<CultObject>)
    ensures IsSubsequence(r, xs)
    decreases |xs|
  {
    if |xs| == 0 then []
    else
      var rest := BothMatch(xs[1..], status, category);
      if xs[0].securityStatus == status && xs[0].category == category then
        assert ([xs[0]] + rest)[1..] == rest;
        [xs[0]] + rest
      else rest
  }

  /** Narrowing by SecurityStatus and then by Category is filtering by both at once. */
  lemma {:induction false} StatusThenCategory(xs: seq<CultObject>, status: string, category: string)
    ensures FilterByField(FilterByField(xs, SecurityStatusKey, status), CategoryKey, category)
         == BothMatch(xs, status, category)
    decreases |xs|
  {
    if |xs| > 0 {
      StatusThenCategory(xs[1..], status, category);
      var rest := FilterByField(xs[1..], SecurityStatusKey, status);
      if xs[0].securityStatus == status {
        assert ([xs[0]] + rest)[1..] == rest;
      }
    }
  }

  /** The other order gives the same records. */
  lemma {:induction false} CategoryThenStatus(xs: seq<CultObject>, status: string, category: string)
    ensures FilterByField(FilterByField(xs, CategoryKey, category), SecurityStatusKey, status)
         == BothMatch(xs, status, category)
    decreases |xs|
  {
    if |xs| > 0 {
      CategoryThenStatus(xs[1..], status, category);
      var rest := FilterByField(xs[1..], CategoryKey, category);
      if xs[0].category == category {
        assert ([xs[0]] + rest)[1..] == rest;
      }
    }
  }
}

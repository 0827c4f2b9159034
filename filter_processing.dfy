/** The sorted distinct values of one property (DataFilter/FilterProcessing.cs). */
module FilterProcessing {
  import opened StringUtil
  import opened CultObjectProcessing
  import opened Filter

  /** The values the named property takes over the records; none for an unknown name. */
  ghost function ValueSet(field: string, objects: seq<CultObject>): set<string>
  {
    if IsFilterKey(field) then set x | x in objects :: FilterValue(x, field) else {}
  }

  /** Strictly ascending in ordinal order, hence without duplicates. */
  predicate StrictlyAscending(s: seq<string>)
  {
    forall i, j :: 0 <= i < j < |s| ==> Below(s[i], s[j])
  }

  /** `SortedSet.Add`: the ascending sequence with `v` added unless it is already present. */
  function InsertSorted(s: seq<string>, v: string): (r: seq<string>)
    requires StrictlyAscending(s)
    ensures StrictlyAscending(r)
    ensures forall x :: x in r <==> x in s || x == v
    ensures |r| >= 1 && (r[0] == v || (|s| >= 1 && r[0] == s[0]))
    decreases |s|
  {
    if |s| == 0 then [v]
    else if v == s[0] then s
    else if Below(v, s[0]) then
      assert forall j :: 0 < j < |s| ==> Below(v, s[j]) by {
        forall j | 0 < j < |s| ensures Below(v, s[j]) { BelowTransitive(v, s[0], s[j]); }
      }
      [v] + s
    else
      BelowTotal(v, s[0]);
      var rest := InsertSorted(s[1..], v);
      assert forall x :: x in rest ==> Below(s[0], x) by {
        forall x | x in rest ensures Below(s[0], x) {
          if x != v {
            var j :| 0 <= j < |s[1..]| && s[1..][j] == x;
            assert s[j + 1] == x;
          }
        }
      }
      assert s == [s[0]] + s[1..];
      [s[0]] + rest
  }

  /**
   * What `GetVariants` computes: every record's value of the named property
   * inserted, in record order, into an initially empty sorted set.
   */
  function Variants(field: string, objects: seq<CultObject>): (r: seq<string>)
    ensures StrictlyAscending(r)
    decreases |objects|
  {
    if |objects| == 0 then []
    else
      var n := |objects| - 1;
      var before := Variants(field, objects[..n]);
      if IsFilterKey(field) then InsertSorted(before, FilterValue(objects[n], field)) else before
  }

  /** The variants are exactly the property's values over the records. */
  lemma {:induction false} VariantsMembers(field: string, objects: seq<CultObject>)
    ensures forall v :: v in Variants(field, objects) <==> v in ValueSet(field, objects)
    decreases |objects|
  {
    if |objects| > 0 {
      var n := |objects| - 1;
      VariantsMembers(field, objects[..n]);
      assert objects == objects[..n] + [objects[n]];
      if IsFilterKey(field) {
        forall v
          ensures v in ValueSet(field, objects) <==> v in ValueSet(field, objects[..n]) || v == FilterValue(objects[n], field)
        {
          if v in ValueSet(field, objects) {
            var x :| x in objects && FilterValue(x, field) == v;
            if x != objects[n] {
              assert x in objects[..n];
            }
          }
        }
      }
    }
  }

  /**
   * A name the switch does not know (such as the combined filter label)
   * offers nothing, and so does an empty list of records.
   */
  lemma {:induction false} NoVariantsWithoutKeyOrRecords(field: string, objects: seq<CultObject>)
    ensures !IsFilterKey(field) ==> Variants(field, objects) == []
    ensures Variants(field, []) == []
    decreases |objects|
  {
    if |objects| > 0 {
      NoVariantsWithoutKeyOrRecords(field, objects[..|objects| - 1]);
    }
  }

  method GetVariants(field: string, objects: seq<CultObject>) returns (r: seq<string>)
    ensures r == Variants(field, objects)
  {
    var variants: seq<string> := [];
    for i := 0 to |objects|
      invariant variants == Variants(field, objects[..i])
    {
      var obj := objects[i];
      assert objects[..i + 1][..i] == objects[..i];
      if field == SecurityStatusKey {
        variants := InsertSorted(variants, obj.securityStatus);
      } else if field == ObjectTypeKey {
        variants := InsertSorted(variants, obj.objectType);
      } else if field == CategoryKey {
        variants := InsertSorted(variants, obj.category);
      }
    }
    assert objects[..|objects|] == objects;
    r := variants;
  }

  /** Two strictly ascending sequences with the same elements are equal. */
  lemma {:induction false} AscendingUnique(a: seq<string>, b: seq<string>)
    requires StrictlyAscending(a) && StrictlyAscending(b)
    requires forall x :: x in a <==> x in b
    ensures a == b
    decreases |a|
  {
    assert |a| > 0 ==> a[0] in b;
    assert |b| > 0 ==> b[0] in a;
    if |a| > 0 && |b| > 0 {
      if a[0] != b[0] {
        var i :| 0 <= i < |b| && b[i] == a[0];
        var j :| 0 <= j < |a| && a[j] == b[0];
        assert Below(b[0], a[0]) && Below(a[0], b[0]);
        BelowAsymmetric(a[0], b[0]);
      }
      forall x
        ensures x in a[1..] <==> x in b[1..]
      {
        if x in a[1..] {
          var i :| 1 <= i < |a| && a[i] == x;
          assert Below(a[0], x);
          BelowIrreflexive(x);
          if x == b[0] { assert false; }
          assert x in b;
          assert x in b[1..] by {
            var k :| 0 <= k < |b| && b[k] == x;
            assert k != 0;
            assert b[1..][k - 1] == x;
          }
        }
        if x in b[1..] {
          var i :| 1 <= i < |b| && b[i] == x;
          assert Below(b[0], x);
          BelowIrreflexive(x);
          assert x in a;
          assert x in a[1..] by {
            var k :| 0 <= k < |a| && a[k] == x;
            assert k != 0;
            assert a[1..][k - 1] == x;
          }
        }
      }
      AscendingUnique(a[1..], b[1..]);
      assert a == [a[0]] + a[1..] && b == [b[0]] + b[1..];
    }
  }

  /** The result is THE ascending listing of the property's values: no other sequence qualifies. */
  lemma {:induction false} VariantsDetermined(field: string, objects: seq<CultObject>, s: seq<string>)
    requires StrictlyAscending(s)
    requires forall v :: v in s <==> v in ValueSet(field, objects)
    ensures s == Variants(field, objects)
  {
    VariantsMembers(field, objects);
    AscendingUnique(s, Variants(field, objects));
  }

  /** A value is offered exactly when filtering by it keeps at least one record. */
  lemma {:induction false} OfferedIffFilterNonEmpty(field: string, objects: seq<CultObject>, v: string)
    requires IsFilterKey(field)
    ensures v in Variants(field, objects) <==> FilterByField(objects, field, v) != []
  {
    var r := FilterByField(objects, field, v);
    VariantsMembers(field, objects);
    FilterByFieldExact(objects, field, v);
    if v in Variants(field, objects) {
      var x :| x in objects && FilterValue(x, field) == v;
      assert multiset(r)[x] == multiset(objects)[x] > 0;
    }
    if r != [] {
      assert r[0] in r;
      SubsequenceMembers(r, objects);
    }
  }

  lemma {:induction false} SubsequenceMembers<T>(a: seq<T>, b: seq<T>)
    requires IsSubsequence(a, b)
    ensures forall x :: x in a ==> x in b
    decreases |b|
  {
    if |a| > 0 {
      if a[0] == b[0] && IsSubsequence(a[1..], b[1..]) {
        SubsequenceMembers(a[1..], b[1..]);
        assert forall x :: x in a ==> x == a[0] || x in a[1..];
      } else {
        SubsequenceMembers(a, b[1..]);
      }
    }
  }

  /** A known property of a non-empty list always offers at least one value. */
  lemma {:induction false} NonEmptyOffersValues(field: string, objects: seq<CultObject>)
    requires IsFilterKey(field) && |objects| > 0
    ensures |Variants(field, objects)| > 0
  {
    assert FilterValue(objects[0], field) in ValueSet(field, objects);
  }
}

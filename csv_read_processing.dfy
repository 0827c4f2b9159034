/** Header check, unquoting and record construction for CSV rows (CSVFormat/CSVReadProcessing.cs). */
module CsvReadProcessing {
  import opened CultObjectProcessing

  /** The canonical English column identifiers the first CSV line must carry. */
  const Header: seq<string> :=
    ["AISID", "USRCHONumber", "ObjectNameOnDoc", "EnsembleNameOnDoc",
     "SecurityStatus", "Category", "ObjectType", "global_id"]

  /**
   * Drops the first and the last character of any string of length at least
   * two, whether or not they are quotes; shorter strings pass unchanged.
   */
  function ElementFormating(s: string): (r: string)
  {
    if |s| >= 2 then s[1..|s| - 1] else s
  }

  /** Wraps a value in one layer of double quotes, as the CSV writer does. */
  function Quote(x: string): (r: string)
  {
    "\"" + x + "\""
  }

  lemma {:induction false} UnquoteQuoted(x: string)
    ensures ElementFormating(Quote(x)) == x
  {
  }

  lemma {:induction false} ShortPassesThrough(s: string)
    requires |s| < 2
    ensures ElementFormating(s) == s
  {
  }

  lemma {:induction false} LongLosesBothEnds(s: string)
    requires |s| >= 2
    ensures |ElementFormating(s)| == |s| - 2
    ensures forall i :: 0 <= i < |s| - 2 ==> ElementFormating(s)[i] == s[i + 1]
  {
  }

  /** The header acceptance condition that `CheckData` decides. */
  predicate IsHeaderRow(fields: seq<string>)
  {
    |fields| >= 8 && forall i :: 0 <= i < 8 ==> ElementFormating(fields[i]) == Header[i]
  }

  /** Compares the first eight fields, unquoted, with the canonical header, stopping at the first mismatch. */
  method CheckData(fields: seq<string>) returns (ok: bool)
    ensures ok <==> IsHeaderRow(fields)
    ensures |fields| < 8 ==> !ok
    ensures ok ==> forall i :: 0 <= i < 8 ==> ElementFormating(fields[i]) == Header[i]
  {
    if |fields| >= 8 {
      var i := 0;
      while i < |Header|
        invariant 0 <= i <= 8
        invariant forall k :: 0 <= k < i ==> ElementFormating(fields[k]) == Header[k]
      {
        if Header[i] != ElementFormating(fields[i]) {
          return false;
        }
        i := i + 1;
      }
      return true;
    } else {
      return false;
    }
  }

  /** Fields after the eighth play no part in the header check. */
  lemma {:induction false} HeaderIgnoresExtraFields(fields: seq<string>, extra: seq<string>)
    requires |fields| >= 8
    ensures IsHeaderRow(fields + extra) == IsHeaderRow(fields)
  {
    assert forall i :: 0 <= i < 8 ==> (fields + extra)[i] == fields[i];
  }

  /** The JSON keys agree with the CSV header except for the ensemble column. */
  lemma {:induction false} JsonKeysDifferOnlyAtEnsemble()
    ensures |JsonKeys| == |Header| == 8
    ensures forall i :: 0 <= i < 8 ==> (JsonKeys[i] == Header[i] <==> i != 3)
  {
  }

  /** Builds a record from the first eight fields of a row, each unquoted. */
  function MakeObject(fields: seq<string>): (c: CultObject)
    requires |fields| >= 8
    ensures forall i :: 0 <= i < 8 ==> Fields(c)[i] == ElementFormating(fields[i])
  {
    CultObject(ElementFormating(fields[0]), ElementFormating(fields[1]), ElementFormating(fields[2]),
      ElementFormating(fields[3]), ElementFormating(fields[4]), ElementFormating(fields[5]),
      ElementFormating(fields[6]), ElementFormating(fields[7]))
  }

  /** Unquoting the quoted fields of a record rebuilds the record. */
  lemma {:induction false} MakeObjectOfQuoted(c: CultObject, fields: seq<string>)
    requires |fields| >= 8
    requires forall i :: 0 <= i < 8 ==> fields[i] == Quote(Fields(c)[i])
    ensures MakeObject(fields) == c
  {
    forall i | 0 <= i < 8
      ensures Fields(MakeObject(fields))[i] == Fields(c)[i]
    {
      UnquoteQuoted(Fields(c)[i]);
    }
    FieldsDetermineObject(MakeObject(fields), c);
  }
}

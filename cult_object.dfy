/** The record of one cultural-heritage object (CultObjectProcessing/CultObject.cs). */
module CultObjectProcessing {

  /**
   * The eight string properties, in declaration order: AISID, USRCHONumber,
   * ObjectNameOnDoc, EnsembleNameOnDoc, SecurityStatus, Category, ObjectType,
   * Global_id. The 8-argument constructor of the source is the datatype
   * constructor: it stores each argument in the property at the same position.
   */
  datatype CultObject = CultObject(
    aisId: string,
    usrchoNumber: string,
    objectNameOnDoc: string,
    ensembleNameOnDoc: string,
    securityStatus: string,
    category: string,
    objectType: string,
    globalId: string)

  /** The eight properties as a positional sequence, in constructor order. */
  function Fields(c: CultObject): (r: seq<string>)
    ensures |r| == 8
  {
    [c.aisId, c.usrchoNumber, c.objectNameOnDoc, c.ensembleNameOnDoc,
     c.securityStatus, c.category, c.objectType, c.globalId]
  }

  /** The parameterless constructor: every property is the empty string. */
  function Empty(): (c: CultObject)
    ensures forall i :: 0 <= i < 8 ==> Fields(c)[i] == ""
  {
    CultObject("", "", "", "", "", "", "", "")
  }

  /** A record is determined by its eight positional fields. */
  lemma {:induction false} FieldsDetermineObject(a: CultObject, b: CultObject)
    requires Fields(a) == Fields(b)
    ensures a == b
  {
    assert Fields(a)[0] == Fields(b)[0] && Fields(a)[1] == Fields(b)[1];
    assert Fields(a)[2] == Fields(b)[2] && Fields(a)[3] == Fields(b)[3];
    assert Fields(a)[4] == Fields(b)[4] && Fields(a)[5] == Fields(b)[5];
    assert Fields(a)[6] == Fields(b)[6] && Fields(a)[7] == Fields(b)[7];
  }

  /** The `JsonPropertyName` of each property, in declaration order. */
  const JsonKeys: seq<string> :=
    ["AISID", "USRCHONumber", "ObjectNameOnDoc", "EnsemblyNameOnDoc",
     "SecurityStatus", "Category", "ObjectType", "global_id"]

  // The field names the query engine understands.
  const SecurityStatusKey: string := "SecurityStatus"
  const CategoryKey: string := "Category"
  const ObjectTypeKey: string := "ObjectType"

  /** The only property names filtering and value listing accept. */
  predicate IsFilterKey(name: string)
  {
    name == SecurityStatusKey || name == CategoryKey || name == ObjectTypeKey
  }

  /** The value of the filter property called `name`. */
  function FilterValue(c: CultObject, name: string): (v: string)
    requires IsFilterKey(name)
    ensures name == SecurityStatusKey ==> v == Fields(c)[4]
    ensures name == CategoryKey ==> v == Fields(c)[5]
    ensures name == ObjectTypeKey ==> v == Fields(c)[6]
  {
    if name == SecurityStatusKey then c.securityStatus
    else if name == CategoryKey then c.category
    else c.objectType
  }

  /** The sort key: ObjectNameOnDoc, the third field. */
  function SortKey(c: CultObject): (k: string)
    ensures k == Fields(c)[2]
  {
    c.objectNameOnDoc
  }
}

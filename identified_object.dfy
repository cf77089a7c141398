/**
 * `IdentifiedObject`: the root of the CIM classes. Its mRID is fixed at
 * construction; an empty mRID is replaced by a freshly generated random UUID.
 */
module IdentifiedObjects {

  predicate IsHexDigit(c: char)
  {
    '0' <= c <= '9' || 'a' <= c <= 'f'
  }

  /**
   * The text of a version 4 (random) UUID as `UUID.toString` writes it: the
   * 8-4-4-4-12 layout of section 3 of RFC 4122 in lower-case hexadecimal,
   * with the version nibble 4 and the variant bits `10` of section 4.4.
   */
  predicate IsRandomUuid(s: string)
  {
    |s| == 36 &&
    (forall i :: 0 <= i < 36 && i in {8, 13, 18, 23} ==> s[i] == '-') &&
    (forall i :: 0 <= i < 36 && i !in {8, 13, 18, 23} ==> IsHexDigit(s[i])) &&
    s[14] == '4' &&
    s[19] in "89ab"
  }

  /** Random UUIDs exist, so the generator always has something to return. */
  lemma SomeRandomUuid()
    ensures IsRandomUuid("00000000-0000-4000-8000-000000000000")
  {
    var s := "00000000-0000-4000-8000-000000000000";
    forall i | 0 <= i < 36 && i !in {8, 13, 18, 23} ensures IsHexDigit(s[i]) {
      assert s[i] == '0' || s[i] == '4' || s[i] == '8';
    }
  }

  /** The initialiser of `mRID`: the requested mRID, or `generated` when it is empty. */
  function InitialMRID(requested: string, generated: string): (r: string)
    ensures requested != "" ==> r == requested
    ensures requested == "" ==> r == generated
    ensures IsRandomUuid(generated) ==> r != ""
  {
    if requested == "" then generated else requested
  }

  class IdentifiedObject {
    const mRID: string
    var name: string
    var description: string
    var numDiagramObjects: int

    /**
     * `IdentifiedObject(mRID)`: keeps a non-empty mRID verbatim and draws a
     * random UUID for an empty one; the other fields start empty or zero.
     */
    constructor (mRID: string)
      ensures mRID != "" ==> this.mRID == mRID
      ensures mRID == "" ==> IsRandomUuid(this.mRID)
      ensures this.mRID != ""
      ensures name == "" && description == "" && numDiagramObjects == 0
      ensures !HasDiagramObjects()
    {
      SomeRandomUuid();
      var generated :| IsRandomUuid(generated);
      this.mRID := InitialMRID(mRID, generated);
      name := "";
      description := "";
      numDiagramObjects := 0;
    }

    method SetName(name: string)
      modifies this`name
      ensures this.name == name
      ensures description == old(description) && numDiagramObjects == old(numDiagramObjects)
    {
      this.name := name;
    }

    method SetDescription(description: string)
      modifies this`description
      ensures this.description == description
      ensures name == old(name) && numDiagramObjects == old(numDiagramObjects)
    {
      this.description := description;
    }

    method SetNumDiagramObjects(n: int)
      modifies this`numDiagramObjects
      ensures numDiagramObjects == n
      ensures HasDiagramObjects() <==> n > 0
    {
      numDiagramObjects := n;
    }

    /** `hasDiagramObjects`: true exactly when at least one diagram object is associated with the object. */
    predicate HasDiagramObjects()
      reads this
      ensures HasDiagramObjects() <==> numDiagramObjects >= 1
    {
      numDiagramObjects > 0
    }
  }
}

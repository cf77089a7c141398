/**
 * `SourceMetadata`: the timestamp and file hash of one source of an
 * ingestion job. Two objects are equal when their hashes hold the same bytes;
 * the timestamp plays no part in equality or in the hash code.
 */
module SourceFiles {
  import opened Wrappers
  import opened JavaInts

  /** A Java `byte`: signed, from -128 to 127. */
  newtype JByte = x: int | -128 <= x < 128

  /** A `java.time.Instant`, as a count of its smallest unit since the epoch. */
  type Instant = int

  /** `ByteArray.contentHashCode()`: the list hash of the byte values. */
  function ContentHash(bytes: seq<JByte>): (h: int)
    ensures -TwoTo31 <= h < TwoTo31
  {
    ListHash(bytes, (b: JByte) => b as int)
  }

  class SourceMetadata {
    var timestamp: Option<Instant>
    var fileHash: Option<seq<JByte>>

    /** `SourceMetadata(timestamp, fileHash)`; `SourceMetadata()` passes two nulls. */
    constructor (timestamp: Option<Instant>, fileHash: Option<seq<JByte>>)
      ensures this.timestamp == timestamp && this.fileHash == fileHash
    {
      this.timestamp := timestamp;
      this.fileHash := fileHash;
    }

    /**
     * `equals`: true for the same object; false for null; otherwise the
     * hashes must both be null or both be present with equal contents.
     */
    predicate Equals(other: SourceMetadata?)
      reads this, other
    {
      if this == other then true
      else if other == null then false
      else if fileHash.Some? then other.fileHash.Some? && fileHash.value == other.fileHash.value
      else other.fileHash.None?
    }

    /** `hashCode`: the content hash of the file hash, or 0 when there is none. */
    function HashCode(): (h: int)
      reads this
      ensures -TwoTo31 <= h < TwoTo31
      ensures fileHash.None? ==> h == 0
    {
      if fileHash.Some? then ContentHash(fileHash.value) else 0
    }
  }

  /** Equality is exactly equality of the file hashes: the timestamps never matter. */
  lemma EqualsIffSameFileHash(a: SourceMetadata, b: SourceMetadata?)
    ensures b == null ==> !a.Equals(b)
    ensures b != null ==> (a.Equals(b) <==> a.fileHash == b.fileHash)
  {
  }

  /** `equals` is an equivalence relation on the non-null objects. */
  lemma EqualsIsEquivalence(a: SourceMetadata, b: SourceMetadata, c: SourceMetadata)
    ensures a.Equals(a)
    ensures a.Equals(b) ==> b.Equals(a)
    ensures a.Equals(b) && b.Equals(c) ==> a.Equals(c)
  {
    EqualsIffSameFileHash(a, b);
    EqualsIffSameFileHash(b, a);
    EqualsIffSameFileHash(b, c);
    EqualsIffSameFileHash(a, c);
  }

  /** Equal objects have equal hash codes, as the `hashCode` contract demands. */
  lemma HashCodeConsistentWithEquals(a: SourceMetadata, b: SourceMetadata)
    requires a.Equals(b)
    ensures a.HashCode() == b.HashCode()
  {
    EqualsIffSameFileHash(a, b);
  }

  /** The hashes of "ABC" and "XYZ" as bytes: 94369 and 117208, so they differ. */
  lemma DifferentContentsHashApart()
    ensures ContentHash([65, 66, 67]) == 94369
    ensures ContentHash([88, 89, 90]) == 117208
  {
    var abc: seq<JByte> := [65, 66, 67];
    assert abc[..2] == [65, 66] && abc[..2][..1] == [65] && abc[..2][..1][..0] == [];
    assert ContentHash([65]) == 96;
    assert ContentHash([65, 66]) == 3042;
    var xyz: seq<JByte> := [88, 89, 90];
    assert xyz[..2] == [88, 89] && xyz[..2][..1] == [88] && xyz[..2][..1][..0] == [];
    assert ContentHash([88]) == 119;
    assert ContentHash([88, 89]) == 3778;
  }
}

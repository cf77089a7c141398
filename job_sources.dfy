/**
 * `JobSources`: the metadata of each named source of an ingestion job,
 * created on first access and never removed.
 */
module JobSourceTables {
  import Wrappers
  import opened SourceFiles

  class JobSources {
    /** Its entry set is `entries`. */
    var sourceNameToMetadata: map<string, SourceMetadata>

    constructor ()
      ensures sourceNameToMetadata == map[]
    {
      sourceNameToMetadata := map[];
    }

    /**
     * `get(sourceName)`: the stored object for a known name; for a new name a
     * fresh `SourceMetadata()` with no timestamp and no hash, which is stored.
     * The other entries are untouched, so the entries only grow.
     */
    method Get(sourceName: string) returns (m: SourceMetadata)
      modifies this`sourceNameToMetadata
      ensures sourceName in old(sourceNameToMetadata) ==>
        m == old(sourceNameToMetadata)[sourceName] && sourceNameToMetadata == old(sourceNameToMetadata)
      ensures sourceName !in old(sourceNameToMetadata) ==>
        fresh(m) && m.timestamp.None? && m.fileHash.None? &&
        sourceNameToMetadata == old(sourceNameToMetadata)[sourceName := m]
      ensures sourceName in sourceNameToMetadata
      ensures forall k :: k in old(sourceNameToMetadata) ==> k in sourceNameToMetadata && sourceNameToMetadata[k] == old(sourceNameToMetadata)[k]
    {
      if sourceName in sourceNameToMetadata {
        m := sourceNameToMetadata[sourceName];
      } else {
        m := new SourceMetadata(Wrappers.None, Wrappers.None);
        sourceNameToMetadata := sourceNameToMetadata[sourceName := m];
      }
    }
  }
}

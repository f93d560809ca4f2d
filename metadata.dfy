/**
 The per-frame metadata store the algorithm publishes into, reduced to what
 the black level algorithm does with it: store or overwrite one record under
 a string key.
 */
module MetadataStore {
  import opened BlackLevelConfig

  /** The status record the black level algorithm publishes every frame. */
  datatype BlackLevelStatus = BlackLevelStatus(blackLevelR: uint16, blackLevelG: uint16, blackLevelB: uint16)

  /**
   The store is type-erased: records of any shape sit side by side. Only the
   black level status is modelled; a record some other algorithm published is
   kept opaque and named by its shape.
   */
  datatype Record = BlackLevelRecord(status: BlackLevelStatus) | Unmodelled(shape: string)

  /** One frame's metadata: records keyed by name. */
  class Metadata {
    var entries: map<string, Record>

    constructor (entries: map<string, Record>)
      ensures this.entries == entries
    {
      this.entries := entries;
    }

    /** Stores `value` under `key`, overwriting any record already there. */
    method Set(key: string, value: Record)
      modifies this
      ensures entries == old(entries)[key := value]
    {
      entries := entries[key := value];
    }
  }
}

/**
 The Raspberry Pi black level control algorithm (rpi.black_level). It reads
 three per-channel black levels once from its configuration and publishes
 them, unchanged, into every frame's metadata.
 */
module RPiBlackLevel {
  import opened BlackLevelConfig
  import opened MetadataStore

  /** The name the algorithm is known and configured by. */
  const AlgorithmName: string := "rpi.black_level"

  /** The metadata key the status record is published under. */
  const StatusKey: string := "black_level.status"

  /** The status record that carries a set of levels. */
  function StatusOf(l: Levels): BlackLevelStatus
  {
    BlackLevelStatus(l.red, l.green, l.blue)
  }

  /**
   A store after the status for `l` is published into it: the status key
   holds that record and every other key is as it was.
   */
  function Published(entries: map<string, Record>, l: Levels): (r: map<string, Record>)
    ensures r.Keys == entries.Keys + {StatusKey}
    ensures r[StatusKey] == BlackLevelRecord(BlackLevelStatus(l.red, l.green, l.blue))
    ensures forall k :: k in entries && k != StatusKey ==> r[k] == entries[k]
  {
    entries[StatusKey := BlackLevelRecord(StatusOf(l))]
  }

  /** Publishing the same levels twice leaves the store as publishing once. */
  lemma PublishTwiceIsOnce(entries: map<string, Record>, l: Levels)
    ensures Published(Published(entries, l), l) == Published(entries, l)
  {
  }

  /** A second publication overwrites the first rather than merging with it. */
  lemma PublishLastWriteWins(entries: map<string, Record>, l1: Levels, l2: Levels)
    ensures Published(Published(entries, l1), l2) == Published(entries, l2)
  {
  }

  /** The black level algorithm: three levels, set by Read and published by Prepare. */
  class BlackLevel {
    var blackLevelR: uint16
    var blackLevelG: uint16
    var blackLevelB: uint16

    /** The levels the algorithm currently holds. */
    function CurrentLevels(): Levels
      reads this
    {
      BlackLevelConfig.Levels(blackLevelR, blackLevelG, blackLevelB)
    }

    /** The algorithm's name; it never changes. */
    function Name(): (n: string)
      ensures n == "rpi.black_level"
    {
      AlgorithmName
    }

    /**
     Reads the configuration into the three levels, each channel falling back
     to the common level and that to the default. Always reports success (0).
     */
    method Read(params: Params) returns (status: int)
      modifies this
      ensures status == 0
      ensures CurrentLevels() == ReadLevels(params)
    {
      var blackLevel := CommonLevel(params);
      blackLevelR := GetOr(params, RedKey, blackLevel);
      blackLevelG := GetOr(params, GreenKey, blackLevel);
      blackLevelB := GetOr(params, BlueKey, blackLevel);
      status := 0;
    }

    /**
     Publishes the held levels as a status record under the status key of
     `imageMetadata`; the levels themselves are not changed.
     */
    method Prepare(imageMetadata: Metadata)
      modifies imageMetadata
      ensures imageMetadata.entries == Published(old(imageMetadata.entries), CurrentLevels())
      ensures CurrentLevels() == old(CurrentLevels())
    {
      var status := StatusOf(CurrentLevels());
      imageMetadata.Set(StatusKey, BlackLevelRecord(status));
    }
  }

  /**
   One algorithm's life up to its first frame: read the configuration, then
   prepare a frame whose metadata held `frame`. The published status carries
   exactly the configured (or defaulted) levels and no other key is touched.
   */
  method ReadThenPrepare(params: Params, frame: map<string, Record>) returns (status: int, published: map<string, Record>)
    ensures status == 0
    ensures published.Keys == frame.Keys + {StatusKey}
    ensures published[StatusKey] == BlackLevelRecord(StatusOf(ReadLevels(params)))
    ensures forall k :: k in frame && k != StatusKey ==> published[k] == frame[k]
  {
    var algorithm := new BlackLevel;
    status := algorithm.Read(params);
    var imageMetadata := new Metadata(frame);
    algorithm.Prepare(imageMetadata);
    published := imageMetadata.entries;
  }
}

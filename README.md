# Raspberry Pi black level algorithm

A Dafny model of `rpi.black_level`, the black level control algorithm of the
Raspberry Pi image processing controller in libcamera
(`src/ipa/raspberrypi/controller/rpi/black_level.cpp`).

The algorithm has two parts:

- **Read.** Once, it reads its configuration subtree into three per-channel
  black levels (red, green, blue), all 16-bit unsigned. A common
  `black_level` value defaults to 4096 (64 at 10 bits scaled to 16 bits).
  Each of `black_level_r`, `black_level_g` and `black_level_b` defaults to
  that common value. Read always reports success (0).
- **Prepare.** Every frame, it copies the three levels into a
  `BlackLevelStatus` record. It stores that record in the frame's metadata
  under the key `black_level.status`, overwriting any record already there.

Files:

- `config.dfy` (module `BlackLevelConfig`): the 16-bit value type, the
  already-parsed configuration as a partial map, the layered defaulting as
  the pure function `ReadLevels`, and lemmas about it.
- `metadata.dfy` (module `MetadataStore`): the status record, the
  type-erased record type, and the `Metadata` class. `Set` stores or
  overwrites one key of its map field.
- `black_level.dfy` (module `RPiBlackLevel`): the `BlackLevel` class. Its
  three fields are updated by `Read`, and `Prepare` updates a `Metadata`
  object in place. Beside it are the function `Published`, which specifies
  the store after a publication, and the read-then-prepare sequence
  `ReadThenPrepare`.

## Model

| member | source | states |
|---|---|---|
| `RPiBlackLevel.BlackLevel.Name` | src/ipa/raspberrypi/controller/rpi/black_level.cpp:29-32 | the name is always `rpi.black_level` |
| `RPiBlackLevel.BlackLevel.Read` | src/ipa/raspberrypi/controller/rpi/black_level.cpp:34-46 | returns 0 for every configuration; the three fields afterwards equal `ReadLevels` of the configuration (the common level is computed by the helper `CommonLevel`, shared with `ReadLevels`) |
| `BlackLevelConfig.ChannelKey` | src/ipa/raspberrypi/controller/rpi/black_level.cpp:38-40 | no per-channel key is the common key `black_level` |
| `BlackLevelConfig.ReadLevels` | src/ipa/raspberrypi/controller/rpi/black_level.cpp:36-40 | each channel is its own key's value if present, else the common key's value if present, else 4096 |
| `BlackLevelConfig.ChannelKeysDistinct` | src/ipa/raspberrypi/controller/rpi/black_level.cpp:38-40 | two channels share a key exactly when they are the same channel |
| `BlackLevelConfig.EmptyConfigDefaults` | src/ipa/raspberrypi/controller/rpi/black_level.cpp:36-37 | with none of the four keys present all three levels are 4096, which is 64 times 64 (64 shifted left by 6) |
| `BlackLevelConfig.LevelsInRange` | src/ipa/raspberrypi/controller/rpi/black_level.cpp:36-40 | every level read lies in 0..65535 |
| `BlackLevelConfig.CommonLevelFallback` | src/ipa/raspberrypi/controller/rpi/black_level.cpp:38-40 | a channel without its own key equals the configured `black_level` value |
| `BlackLevelConfig.ChannelOverride` | src/ipa/raspberrypi/controller/rpi/black_level.cpp:38-40 | setting a per-channel key to v makes that channel v and leaves the other two channels as they were, whatever `black_level` is |
| `BlackLevelConfig.ChannelParamsRoundTrip` | src/ipa/raspberrypi/controller/rpi/black_level.cpp:36-40 | a configuration naming all three channels reads back as exactly those levels, with or without a common value |
| `BlackLevelConfig.ReadLevelsOnto` | src/ipa/raspberrypi/controller/rpi/black_level.cpp:36-40 | every triple of 16-bit levels is read from some configuration |
| `BlackLevelConfig.CommonLevelIrrelevantIff` | src/ipa/raspberrypi/controller/rpi/black_level.cpp:36-40 | changing `black_level` cannot change what is read if and only if all three per-channel keys are present |
| `MetadataStore.Metadata.Set` | src/ipa/raspberrypi/controller/rpi/black_level.cpp:58 | the store afterwards is the old store with the key bound to the new record |
| `RPiBlackLevel.Published` | src/ipa/raspberrypi/controller/rpi/black_level.cpp:54-58 | after publication the status key holds a record whose R, G, B are the levels; every other key is present and unchanged as before, and no other key is added |
| `RPiBlackLevel.BlackLevel.Prepare` | src/ipa/raspberrypi/controller/rpi/black_level.cpp:48-59 | the metadata afterwards is `Published` of the old metadata and the held levels (the record is built by the helper `StatusOf`); the held levels are unchanged |
| `RPiBlackLevel.PublishTwiceIsOnce` | src/ipa/raspberrypi/controller/rpi/black_level.cpp:58 | publishing twice leaves the same store as publishing once |
| `RPiBlackLevel.PublishLastWriteWins` | src/ipa/raspberrypi/controller/rpi/black_level.cpp:58 | a second publication overwrites the first rather than merging with it |
| `RPiBlackLevel.ReadThenPrepare` | src/ipa/raspberrypi/controller/rpi/black_level.cpp:34-58 | read followed by prepare reports 0 and publishes exactly the configured or defaulted levels; no other key of the frame's metadata changes |

## Left out

- The constructor (`black_level.cpp:24-27`) only forwards to the `Algorithm` base class; the model's class needs none.
- Logging (the log category and the debug message in `read`) has no behavioural content.
- Self-registration (`create` and the static `RegisterAlgorithm`) relies on the algorithm registry, which is not part of this model.
- Parsing of the configuration tree and conversion of its text to `uint16_t` belong to an external library. The configuration is modelled as an already-parsed partial map of values in 0..65535. What happens to a malformed or out-of-range value is not modelled. A property tree can hold several children under the same key and a map cannot, so the model does not capture which of several duplicates `get` returns.
- The `Metadata` class, `Controller` and `Algorithm` are not part of this model. `Metadata::set` is modelled only as storing or overwriting one key of a map; its type erasure is reduced to the `Record` datatype. Records other than the black level status are opaque values.
- The field types of `BlackLevelStatus` are not part of this model; they are taken to be 16-bit, like the levels copied into them.

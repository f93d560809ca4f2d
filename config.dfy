/**
 The configuration side of the Raspberry Pi black level algorithm
 (rpi.black_level): how its parameter subtree is turned into three
 per-channel black levels.

 The subtree reaches the algorithm already parsed: a partial map from key to
 a 16-bit unsigned value. A key that is absent falls back to a default; the
 per-channel keys fall back to the common `black_level` value, which itself
 falls back to 4096.
 */
module BlackLevelConfig {

  /** An unsigned 16-bit value, the C++ `uint16_t` every level is stored in. */
  type uint16 = x: int | 0 <= x < 0x1_0000

  /** The algorithm's parameter subtree, already parsed into 16-bit values. */
  type Params = map<string, uint16>

  const CommonKey: string := "black_level"
  const RedKey: string := "black_level_r"
  const GreenKey: string := "black_level_g"
  const BlueKey: string := "black_level_b"

  /** 64 at 10 bits per sample, scaled up to 16 bits (a shift left by 6). */
  const DefaultBlackLevel: uint16 := 4096

  datatype Option<T> = None | Some(value: T)

  /** The three colour channels a black level is kept for. */
  datatype Channel = Red | Green | Blue

  /** The configuration key that sets one channel on its own. */
  function ChannelKey(c: Channel): (k: string)
    ensures k != CommonKey
  {
    match c
    case Red => RedKey
    case Green => GreenKey
    case Blue => BlueKey
  }

  /** The three per-channel levels the algorithm keeps. */
  datatype Levels = Levels(red: uint16, green: uint16, blue: uint16)
  {
    /** The level of one channel. */
    function At(c: Channel): uint16
    {
      match c
      case Red => red
      case Green => green
      case Blue => blue
    }

    /** These levels with the level of channel `c` replaced by `v`. */
    function With(c: Channel, v: uint16): (l: Levels)
      ensures l.At(c) == v
      ensures forall d :: d != c ==> l.At(d) == At(d)
    {
      match c
      case Red => this.(red := v)
      case Green => this.(green := v)
      case Blue => this.(blue := v)
    }
  }

  /** A lookup with a fallback, as the parameter tree's `get(key, default)`. */
  function GetOr(params: Params, key: string, default: uint16): uint16
  {
    if key in params then params[key] else default
  }

  /** The common level every channel falls back to: `black_level`, else the default. */
  function CommonLevel(params: Params): uint16
  {
    GetOr(params, CommonKey, DefaultBlackLevel)
  }

  /**
   The levels `read` derives from a configuration: each channel takes its own
   key when present, otherwise the common key, otherwise the default.
   */
  function ReadLevels(params: Params): (l: Levels)
    ensures forall c ::
      l.At(c) == if ChannelKey(c) in params then params[ChannelKey(c)]
                 else if CommonKey in params then params[CommonKey]
                 else DefaultBlackLevel
  {
    var blackLevel := CommonLevel(params);
    Levels(GetOr(params, RedKey, blackLevel),
           GetOr(params, GreenKey, blackLevel),
           GetOr(params, BlueKey, blackLevel))
  }

  /** A configuration that sets every channel explicitly to the given levels. */
  function ChannelParams(l: Levels): (params: Params)
    ensures params.Keys == {RedKey, GreenKey, BlueKey}
  {
    map[RedKey := l.red, GreenKey := l.green, BlueKey := l.blue]
  }

  /** The per-channel keys and the common key are four different keys. */
  lemma ChannelKeysDistinct(c: Channel, d: Channel)
    ensures ChannelKey(c) == ChannelKey(d) <==> c == d
  {
  }

  /** With none of the four keys present, every channel is 64 at 10 bits scaled to 16 bits. */
  lemma EmptyConfigDefaults(params: Params)
    requires CommonKey !in params && RedKey !in params && GreenKey !in params && BlueKey !in params
    ensures ReadLevels(params) == Levels(4096, 4096, 4096)
    ensures DefaultBlackLevel == 64 * 64
  {
  }

  /** Every level read lies in the range of a 16-bit unsigned value. */
  lemma LevelsInRange(params: Params, c: Channel)
    ensures 0 <= ReadLevels(params).At(c) <= 0xFFFF
  {
  }

  /** A channel without its own key takes the common level when one is configured. */
  lemma CommonLevelFallback(params: Params, c: Channel)
    requires CommonKey in params && ChannelKey(c) !in params
    ensures ReadLevels(params).At(c) == params[CommonKey]
  {
  }

  /**
   Setting a per-channel key determines that channel alone, whatever the
   common level is, and leaves the other two channels as they were.
   */
  lemma ChannelOverride(params: Params, c: Channel, v: uint16)
    ensures ReadLevels(params[ChannelKey(c) := v]) == ReadLevels(params).With(c, v)
  {
  }

  /**
   A configuration that names all three channels reproduces them exactly,
   whatever the common level is: writing the levels out and reading them back
   is the identity.
   */
  lemma ChannelParamsRoundTrip(l: Levels, common: Option<uint16>)
    ensures ReadLevels(WithCommon(ChannelParams(l), common)) == l
  {
  }

  /** A configuration with the common key added (when given) or left out. */
  function WithCommon(params: Params, common: Option<uint16>): (p: Params)
    ensures CommonKey in p <==> common.Some? || CommonKey in params
  {
    match common
    case Some(v) => params[CommonKey := v]
    case None => params
  }

  /** Every triple of levels is what some configuration reads as. */
  lemma ReadLevelsOnto(l: Levels)
    ensures exists params :: CommonKey !in params && ReadLevels(params) == l
  {
    ChannelParamsRoundTrip(l, None);
    assert CommonKey !in ChannelParams(l);
  }

  /**
   The common `black_level` value makes no difference to what is read
   exactly when all three per-channel keys are present.
   */
  lemma CommonLevelIrrelevantIff(params: Params)
    ensures (forall v: uint16 :: ReadLevels(WithCommon(params, Some(v))) == ReadLevels(params))
        <==> (RedKey in params && GreenKey in params && BlueKey in params)
  {
    if RedKey in params && GreenKey in params && BlueKey in params {
      forall v: uint16
        ensures ReadLevels(WithCommon(params, Some(v))) == ReadLevels(params)
      {
        var p := WithCommon(params, Some(v));
        assert RedKey in p && GreenKey in p && BlueKey in p;
      }
    } else {
      var c := if RedKey !in params then Red else if GreenKey !in params then Green else Blue;
      var was := ReadLevels(params).At(c);
      var v: uint16 := if was == 0 then 1 else 0;
      assert ReadLevels(WithCommon(params, Some(v))).At(c) == v;
    }
  }
}

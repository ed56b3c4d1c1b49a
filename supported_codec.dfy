/** The codec-support table: for five codecs and two acceleration
    preferences it asks the browser whether decoding and encoding at the
    chosen size are supported, and lists the answers keyed by position. */
module SupportedCodec {
  import opened Wrappers
  import opened Decimal

  const CODECS: seq<string> := ["avc1.42E01F", "vp8", "vp09.00.10.08", "av01.0.04M.08", "hvc1.1.6.L123"]

  /** WebCodecs' `HardwareAcceleration`. */
  datatype Acceleration = PreferHardware | PreferSoftware | NoPreference

  const ACCELERATIONS: seq<Acceleration> := [PreferHardware, PreferSoftware]

  const INITIAL_WIDTH: int := 720
  const INITIAL_HEIGHT: int := 1280
  const ENCODE_FRAMERATE: int := 30

  datatype Mode = Decode | Encode

  /** A `VideoDecoderConfig` or `VideoEncoderConfig`; a field the program
      does not set is `None`. */
  datatype CodecConfig = CodecConfig(
    codec: string,
    hardwareAcceleration: Acceleration,
    codedWidth: Option<int>,
    codedHeight: Option<int>,
    width: Option<int>,
    height: Option<int>,
    framerate: Option<int>)

  /** What a config of the given mode for `codec` and `acceleration` holds:
      decode configs give the size as the coded size and no frame rate;
      encode configs give it as the output size, at 30 frames a second,
      and no coded size. */
  predicate ConfigFor(c: CodecConfig, mode: Mode, codec: string, acceleration: Acceleration,
                      width: int, height: int)
  {
    && c.codec == codec
    && c.hardwareAcceleration == acceleration
    && (mode == Decode ==>
          && c.codedWidth == Some(width) && c.codedHeight == Some(height)
          && c.width.None? && c.height.None? && c.framerate.None?)
    && (mode == Encode ==>
          && c.width == Some(width) && c.height == Some(height)
          && c.framerate == Some(ENCODE_FRAMERATE)
          && c.codedWidth.None? && c.codedHeight.None?)
  }

  /** `getConfigs`: every codec with every acceleration, codec-major, so
      config `2i + j` is codec `i` with acceleration `j`. */
  method GetConfigs(mode: Mode, width: int, height: int) returns (configs: seq<CodecConfig>)
    ensures |configs| == |CODECS| * |ACCELERATIONS| == 10
    ensures forall k :: 0 <= k < |configs| ==>
              ConfigFor(configs[k], mode, CODECS[k / 2], ACCELERATIONS[k % 2], width, height)
  {
    configs := [];
    for i := 0 to |CODECS|
      invariant |configs| == 2 * i
      invariant forall k :: 0 <= k < |configs| ==>
                  ConfigFor(configs[k], mode, CODECS[k / 2], ACCELERATIONS[k % 2], width, height)
    {
      var codec := CODECS[i];
      for j := 0 to |ACCELERATIONS|
        invariant |configs| == 2 * i + j
        invariant forall k :: 0 <= k < |configs| ==>
                    ConfigFor(configs[k], mode, CODECS[k / 2], ACCELERATIONS[k % 2], width, height)
      {
        var config := CodecConfig(codec, ACCELERATIONS[j], None, None, None, None, None);
        if mode == Decode {
          config := config.(codedWidth := Some(width), codedHeight := Some(height));
        }
        if mode == Encode {
          config := config.(width := Some(width), height := Some(height), framerate := Some(ENCODE_FRAMERATE));
        }
        assert (2 * i + j) / 2 == i && (2 * i + j) % 2 == j;
        configs := configs + [config];
      }
    }
  }

  /** Every codec and acceleration pair appears exactly once. */
  lemma EveryPairOnce(configs: seq<CodecConfig>, mode: Mode, width: int, height: int, i: nat, j: nat)
    requires |configs| == 10
    requires forall k :: 0 <= k < |configs| ==>
               ConfigFor(configs[k], mode, CODECS[k / 2], ACCELERATIONS[k % 2], width, height)
    requires i < |CODECS| && j < |ACCELERATIONS|
    ensures ConfigFor(configs[2 * i + j], mode, CODECS[i], ACCELERATIONS[j], width, height)
    ensures forall k :: 0 <= k < |configs| && k != 2 * i + j ==>
              configs[k].codec != CODECS[i] || configs[k].hardwareAcceleration != ACCELERATIONS[j]
  {
    assert (2 * i + j) / 2 == i && (2 * i + j) % 2 == j;
  }

  /** A row of a support table: the browser's answer for a config, keyed
      by the config's position. */
  datatype SupportRow = SupportRow(supported: bool, config: CodecConfig, key: string)

  /** The keys of the first `n` rows are all different. */
  lemma KeysDistinct(n: nat)
    ensures forall i: nat, j: nat :: i < j < n ==> NatToString(i) != NatToString(j)
  {
    forall i: nat, j: nat | i < j < n
      ensures NatToString(i) != NatToString(j)
    {
      ParseNatToString(i);
      ParseNatToString(j);
    }
  }

  /** The rows `getDecodeCodec`/`getEncodeCodec` store, given the answers
      of `isConfigSupported` for each config: row `i` is config `i` with
      its answer and the key `String(i)`, so keys are all different and
      each reads back as its row's position. */
  function SupportRows(configs: seq<CodecConfig>, supported: seq<bool>): (rows: seq<SupportRow>)
    requires |supported| == |configs|
    ensures |rows| == |configs|
    ensures forall i :: 0 <= i < |rows| ==> rows[i].config == configs[i] && rows[i].supported == supported[i]
    ensures forall i, j :: 0 <= i < j < |rows| ==> rows[i].key != rows[j].key
    ensures forall i :: 0 <= i < |rows| ==> AllDigits(rows[i].key) && ParseNat(rows[i].key) == i
  {
    KeysDistinct(|configs|);
    var rows := seq(|configs|, i requires 0 <= i < |configs| => SupportRow(supported[i], configs[i], NatToString(i)));
    assert forall i :: 0 <= i < |rows| ==> rows[i].key == NatToString(i);
    assert forall i: nat :: i < |rows| ==> ParseNat(NatToString(i)) == i by {
      forall i: nat | i < |rows| {
        ParseNatToString(i);
      }
    }
    rows
  }

  /** The text of the mode column. */
  function AccelerationLabel(mode: Mode, model: Acceleration): (text: string)
    ensures model == PreferHardware ==> text == (if mode == Decode then "硬解" else "硬编")
    ensures model != PreferHardware ==> text == (if mode == Decode then "软解" else "软编")
  {
    var isPreferHardware := model == PreferHardware;
    match mode
    case Decode => if isPreferHardware then "硬解" else "软解"
    case Encode => if isPreferHardware then "硬编" else "软编"
  }

  /** Only `prefer-hardware` is labelled as hardware, in both tables. */
  lemma HardwareLabelIff(mode: Mode, model: Acceleration)
    ensures AccelerationLabel(mode, model) == AccelerationLabel(mode, PreferHardware) <==> model == PreferHardware
  {
  }

  /** The page's size state. */
  class SizeState {
    var width: int
    var height: int

    constructor ()
      ensures width == INITIAL_WIDTH && height == INITIAL_HEIGHT
    {
      width := INITIAL_WIDTH;
      height := INITIAL_HEIGHT;
    }

    /** `changeWidth`: an empty input is ignored. */
    method ChangeWidth(val: Option<int>)
      modifies this
      ensures width == (if val.Some? then val.value else old(width))
      ensures height == old(height)
    {
      if val.Some? {
        width := val.value;
      }
    }

    /** `changeHeight`: an empty input is ignored. */
    method ChangeHeight(val: Option<int>)
      modifies this
      ensures height == (if val.Some? then val.value else old(height))
      ensures width == old(width)
    {
      if val.Some? {
        height := val.value;
      }
    }

    /** The configs asked about at the current size. */
    method Configs(mode: Mode) returns (configs: seq<CodecConfig>)
      ensures |configs| == 10
      ensures forall k :: 0 <= k < |configs| ==>
                ConfigFor(configs[k], mode, CODECS[k / 2], ACCELERATIONS[k % 2], width, height)
    {
      configs := GetConfigs(mode, width, height);
    }
  }
}

/** Chroma keying: the key colour comes from a `#rrggbb` colour input, each
    decoded frame is redrawn with that colour made transparent, and the
    keyed frames and the untouched audio go on to the encoder. */
module ChromaKey {
  import opened Wrappers
  import opened Media

  // ---------------------------------------------------------------------
  // hexToRgb
  // ---------------------------------------------------------------------

  /** A colour as red, green and blue components. */
  datatype Rgb = Rgb(r: int, g: int, b: int)

  /** The key colour used when the colour string does not parse. */
  const FALLBACK_KEY: Rgb := Rgb(0, 255, 0)

  predicate IsHexDigit(c: char) {
    '0' <= c <= '9' || 'a' <= c <= 'f' || 'A' <= c <= 'F'
  }

  predicate AllHex(s: string) {
    forall i :: 0 <= i < |s| ==> IsHexDigit(s[i])
  }

  /** The value of one base-16 digit, either case. */
  function HexValue(c: char): (v: int)
    requires IsHexDigit(c)
    ensures 0 <= v < 16
  {
    if '0' <= c <= '9' then c as int - '0' as int
    else if 'a' <= c <= 'f' then c as int - 'a' as int + 10
    else c as int - 'A' as int + 10
  }

  /** `parseInt(pair, 16)` for two hex digits. */
  function ParsePair(hi: char, lo: char): (v: int)
    requires IsHexDigit(hi) && IsHexDigit(lo)
    ensures 0 <= v <= 255
    ensures v / 16 == HexValue(hi) && v % 16 == HexValue(lo)
  {
    16 * HexValue(hi) + HexValue(lo)
  }

  /** `hex.replace(/^#/, '')`: one leading `#` at most is removed. */
  function StripHash(hex: string): (s: string)
    ensures |hex| > 0 && hex[0] == '#' ==> s == hex[1..]
    ensures !(|hex| > 0 && hex[0] == '#') ==> s == hex
  {
    if |hex| > 0 && hex[0] == '#' then hex[1..] else hex
  }

  /** What `hexToRgb` needs of its argument here: when six characters
      remain after the `#`, they are all hex digits. */
  predicate Parsable(hex: string) {
    |StripHash(hex)| == 6 ==> AllHex(StripHash(hex))
  }

  /** `hexToRgb`: `null` unless exactly six characters remain once the
      leading `#` is gone; otherwise the base-16 values of characters
      [0, 2), [2, 4) and [4, 6), each between 0 and 255. */
  function HexToRgb(hex: string): (c: Option<Rgb>)
    requires Parsable(hex)
    ensures c.None? <==> |StripHash(hex)| != 6
    ensures c.Some? ==>
              var s := StripHash(hex);
              && c.value == Rgb(ParsePair(s[0], s[1]), ParsePair(s[2], s[3]), ParsePair(s[4], s[5]))
              && 0 <= c.value.r <= 255 && 0 <= c.value.g <= 255 && 0 <= c.value.b <= 255
  {
    var s := StripHash(hex);
    if |s| != 6 then None
    else Some(Rgb(ParsePair(s[0], s[1]), ParsePair(s[2], s[3]), ParsePair(s[4], s[5])))
  }

  /** `hexToRgb(color) || [0, 255, 0]`: the parse, or green when it fails. */
  function ColorKey(color: string): (c: Rgb)
    requires Parsable(color)
    ensures |StripHash(color)| != 6 ==> c == FALLBACK_KEY
    ensures |StripHash(color)| == 6 ==> Some(c) == HexToRgb(color)
  {
    HexToRgb(color).GetOr(FALLBACK_KEY)
  }

  /** The `#` is optional: with and without it the string parses the same. */
  lemma HashOptional(s: string)
    requires !(|s| > 0 && s[0] == '#')
    requires Parsable(s)
    ensures Parsable("#" + s)
    ensures HexToRgb("#" + s) == HexToRgb(s)
  {
    assert ("#" + s)[1..] == s;
  }

  /** A hex digit in lower case. */
  function LowerHex(c: char): (l: char)
    requires IsHexDigit(c)
    ensures IsHexDigit(l) && HexValue(l) == HexValue(c)
    ensures !('A' <= l <= 'F')
  {
    if 'A' <= c <= 'F' then (c as int - 'A' as int + 'a' as int) as char else c
  }

  function LowerAll(s: string): (l: string)
    requires AllHex(s)
    ensures |l| == |s| && AllHex(l)
    ensures forall i :: 0 <= i < |s| ==> l[i] == LowerHex(s[i])
  {
    if s == [] then [] else [LowerHex(s[0])] + LowerAll(s[1..])
  }

  /** Upper- and lower-case digits give the same colour. */
  lemma CaseInsensitive(s: string)
    requires |s| == 6 && AllHex(s)
    ensures HexToRgb(s) == HexToRgb("#" + s) == HexToRgb(LowerAll(s)) == HexToRgb("#" + LowerAll(s))
  {
    var l := LowerAll(s);
    assert ("#" + s)[1..] == s;
    assert ("#" + l)[1..] == l;
  }

  /** The lower-case digit of a value below 16. */
  function HexDigit(v: int): (c: char)
    requires 0 <= v < 16
    ensures IsHexDigit(c) && HexValue(c) == v && !('A' <= c <= 'F')
  {
    if v < 10 then (v + '0' as int) as char else (v - 10 + 'a' as int) as char
  }

  predicate IsComponent(v: int) {
    0 <= v <= 255
  }

  /** The `#rrggbb` form a colour input produces. */
  function RgbToHex(c: Rgb): (hex: string)
    requires IsComponent(c.r) && IsComponent(c.g) && IsComponent(c.b)
    ensures |hex| == 7 && hex[0] == '#' && AllHex(hex[1..])
  {
    "#" + [HexDigit(c.r / 16), HexDigit(c.r % 16), HexDigit(c.g / 16),
           HexDigit(c.g % 16), HexDigit(c.b / 16), HexDigit(c.b % 16)]
  }

  /** Every colour survives formatting and parsing. */
  lemma RgbToHexRoundTrip(c: Rgb)
    requires IsComponent(c.r) && IsComponent(c.g) && IsComponent(c.b)
    ensures Parsable(RgbToHex(c))
    ensures HexToRgb(RgbToHex(c)) == Some(c)
  {
    var hex := RgbToHex(c);
    var s := StripHash(hex);
    assert s == hex[1..];
    assert ParsePair(s[0], s[1]) == c.r;
    assert ParsePair(s[2], s[3]) == c.g;
    assert ParsePair(s[4], s[5]) == c.b;
  }

  /** And every lower-case `#rrggbb` survives parsing and formatting. */
  lemma HexToRgbRoundTrip(s: string)
    requires |s| == 6 && AllHex(s)
    requires forall i :: 0 <= i < 6 ==> !('A' <= s[i] <= 'F')
    ensures HexToRgb("#" + s).Some?
    ensures RgbToHex(HexToRgb("#" + s).value) == "#" + s
  {
    assert ("#" + s)[1..] == s;
    var c := HexToRgb("#" + s).value;
    forall i | 0 <= i < 6
      ensures HexDigit(HexValue(s[i])) == s[i]
    {
      DigitOfValue(s[i]);
    }
    assert RgbToHex(c)[1..] == s;
  }

  lemma DigitOfValue(c: char)
    requires IsHexDigit(c) && !('A' <= c <= 'F')
    ensures HexDigit(HexValue(c)) == c
  {
  }

  // ---------------------------------------------------------------------
  // The frame hand-off in onSamples
  // ---------------------------------------------------------------------

  /** What the decoder hands to `onSamples`. */
  datatype Sample = Video(frame: VideoFrame) | Audio(data: AudioData)

  /** A frame drawn from the keyed canvas: the source frame with `key`
      made transparent, the alpha channel kept, and the source's timing. */
  datatype KeyedFrame = KeyedFrame(source: VideoFrame, key: Rgb, timestamp: int, duration: Option<int>)

  function Keyed(frame: VideoFrame, key: Rgb): KeyedFrame {
    KeyedFrame(frame, key, frame.timestamp, frame.duration)
  }

  /** The video frames among the samples, in order. */
  function VideoFrames(samples: seq<Sample>): seq<VideoFrame> {
    if samples == [] then []
    else VideoFrames(samples[..|samples| - 1])
           + (if samples[|samples| - 1].Video? then [samples[|samples| - 1].frame] else [])
  }

  /** The audio blocks among the samples, in order. */
  function AudioBlocks(samples: seq<Sample>): seq<AudioData> {
    if samples == [] then []
    else AudioBlocks(samples[..|samples| - 1])
           + (if samples[|samples| - 1].Audio? then [samples[|samples| - 1].data] else [])
  }

  /** The video frames and audio blocks together are exactly as many as the samples. */
  lemma {:induction false} EverySampleKept(samples: seq<Sample>)
    ensures |VideoFrames(samples)| + |AudioBlocks(samples)| == |samples|
  {
    if samples != [] {
      EverySampleKept(samples[..|samples| - 1]);
    }
  }

  /** The `onSamples` callback of the keying run, with the lists it fills. */
  class KeyingSession {
    const key: Rgb
    var videoSamples: seq<KeyedFrame>
    var audioSamples: seq<AudioData>
    /** The decoded frames closed so far. */
    var closed: seq<VideoFrame>

    constructor (key: Rgb)
      ensures this.key == key && videoSamples == [] && audioSamples == [] && closed == []
    {
      this.key := key;
      videoSamples := [];
      audioSamples := [];
      closed := [];
    }

    /** A video frame is redrawn keyed, with its timestamp and duration,
        and closed; audio is kept as it is. */
    method OnSamples(sample: Sample)
      modifies this
      ensures sample.Video? ==>
                && videoSamples == old(videoSamples) + [Keyed(sample.frame, key)]
                && closed == old(closed) + [sample.frame]
                && audioSamples == old(audioSamples)
      ensures sample.Audio? ==>
                && audioSamples == old(audioSamples) + [sample.data]
                && videoSamples == old(videoSamples) && closed == old(closed)
    {
      match sample {
        case Video(frame) =>
          var newFrame := KeyedFrame(frame, key, frame.timestamp, frame.duration);
          closed := closed + [frame];
          videoSamples := videoSamples + [newFrame];
        case Audio(data) =>
          audioSamples := audioSamples + [data];
      }
    }
  }

  /** A whole decoding run through the keying callback: one keyed frame
      per decoded frame, in order, with its timestamp and duration; every
      decoded frame closed; the audio passed through unchanged. */
  method KeyAll(key: Rgb, samples: seq<Sample>)
    returns (videos: seq<KeyedFrame>, audios: seq<AudioData>, closed: seq<VideoFrame>)
    ensures |videos| == |VideoFrames(samples)|
    ensures forall k :: 0 <= k < |videos| ==> videos[k] == Keyed(VideoFrames(samples)[k], key)
    ensures forall k :: 0 <= k < |videos| ==>
              videos[k].timestamp == VideoFrames(samples)[k].timestamp
              && videos[k].duration == VideoFrames(samples)[k].duration
    ensures closed == VideoFrames(samples)
    ensures audios == AudioBlocks(samples)
  {
    var session := new KeyingSession(key);
    for i := 0 to |samples|
      invariant session.key == key
      invariant |session.videoSamples| == |VideoFrames(samples[..i])|
      invariant forall k :: 0 <= k < |session.videoSamples| ==>
                  session.videoSamples[k] == Keyed(VideoFrames(samples[..i])[k], key)
      invariant session.closed == VideoFrames(samples[..i])
      invariant session.audioSamples == AudioBlocks(samples[..i])
    {
      assert samples[..i + 1][..i] == samples[..i];
      session.OnSamples(samples[i]);
    }
    assert samples[..|samples|] == samples;
    videos, audios, closed := session.videoSamples, session.audioSamples, session.closed;
  }
}

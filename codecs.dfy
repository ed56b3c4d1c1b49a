/** The WebCodecs transcode glue: picking the decoder description out of an
    MP4 sample-description table, feeding the byte stream to the demuxer,
    turning demuxed samples into encoded chunks for the decoders, and driving
    the encoders and the muxer.

    The mp4box demuxer, the WebCodecs decoders/encoders and mp4-muxer are
    outside the model: what the glue hands them is recorded as values (call
    records, configurations), and what they hand back arrives as parameters. */
module Codecs {
  import opened Wrappers
  import opened Media

  const NOT_FOUND: string := "avcC, hvcC, av1C or VPX not found"

  /** `nbSamples` passed to `setExtractionOptions` for every track. */
  const SAMPLES_PER_BATCH: nat := 100

  /** The fixed audio layout the muxer is created with. */
  const DEFAULT_SAMPLE_RATE: int := 48000
  const DEFAULT_CHANNEL_COUNT: int := 2

  // ---------------------------------------------------------------------
  // Decoder description (the codec-configuration box of a sample entry)
  // ---------------------------------------------------------------------

  /** The codec-configuration boxes a sample entry of the `stsd` box
      (section 8.5.2 of ISO/IEC 14496-12) may carry and that are looked for. */
  datatype ConfigKind = AvcC | HvcC | Av1C | VpcC

  /** The four-character box type, as ASCII bytes. */
  function FourCC(k: ConfigKind): (s: seq<byte>)
    ensures |s| == 4
  {
    match k
    case AvcC => [97, 118, 99, 67]   // "avcC"
    case HvcC => [104, 118, 99, 67]  // "hvcC"
    case Av1C => [97, 118, 49, 67]   // "av1C"
    case VpcC => [118, 112, 99, 67]  // "vpcC"
  }

  /** Position of a kind in the lookup order avcC, hvcC, av1C, vpcC. */
  function Rank(k: ConfigKind): nat {
    match k
    case AvcC => 0
    case HvcC => 1
    case Av1C => 2
    case VpcC => 3
  }

  /** A codec-configuration box: its type and its content after the header. */
  datatype ConfigBox = ConfigBox(kind: ConfigKind, payload: seq<byte>)

  /** One entry of the `stsd` box, with the payload of each configuration
      box it carries. */
  datatype SampleEntry = SampleEntry(
    avcC: Option<seq<byte>>,
    hvcC: Option<seq<byte>>,
    av1C: Option<seq<byte>>,
    vpcC: Option<seq<byte>>)

  function Field(e: SampleEntry, k: ConfigKind): Option<seq<byte>> {
    match k
    case AvcC => e.avcC
    case HvcC => e.hvcC
    case Av1C => e.av1C
    case VpcC => e.vpcC
  }

  /** `entry.avcC ?? entry.hvcC ?? entry.av1C ?? entry.vpcC`. */
  function ConfigOf(e: SampleEntry): (r: Option<ConfigBox>)
    ensures r.None? <==> forall k :: Field(e, k).None?
    ensures r.Some? ==> Field(e, r.value.kind) == Some(r.value.payload)
    ensures r.Some? ==> forall k :: Rank(k) < Rank(r.value.kind) ==> Field(e, k).None?
  {
    if e.avcC.Some? then assert Field(e, AvcC).Some?; Some(ConfigBox(AvcC, e.avcC.value))
    else if e.hvcC.Some? then assert Field(e, HvcC).Some?; Some(ConfigBox(HvcC, e.hvcC.value))
    else if e.av1C.Some? then assert Field(e, Av1C).Some?; Some(ConfigBox(Av1C, e.av1C.value))
    else if e.vpcC.Some? then assert Field(e, VpcC).Some?; Some(ConfigBox(VpcC, e.vpcC.value))
    else None
  }

  /** Every configuration box is small enough for the compact 32-bit size
      field of a box header. */
  predicate WellSized(entries: seq<SampleEntry>) {
    forall i, k | 0 <= i < |entries| && Field(entries[i], k).Some? ::
      |Field(entries[i], k).value| + 8 < 0x1_0000_0000
  }

  function BigEndian32(n: nat): (s: seq<byte>)
    requires n < 0x1_0000_0000
    ensures |s| == 4
  {
    [(n / 0x100_0000) as byte, (n / 0x1_0000 % 0x100) as byte,
     (n / 0x100 % 0x100) as byte, (n % 0x100) as byte]
  }

  function ReadBigEndian32(s: seq<byte>): nat
    requires |s| == 4
  {
    s[0] as nat * 0x100_0000 + s[1] as nat * 0x1_0000 + s[2] as nat * 0x100 + s[3] as nat
  }

  /** The bytes `box.write(stream)` produces: a header of a 32-bit
      big-endian size (header included) and the four-character type
      (section 4.2 of ISO/IEC 14496-12), then the payload. */
  function BoxBytes(b: ConfigBox): (bytes: seq<byte>)
    requires |b.payload| + 8 < 0x1_0000_0000
    ensures |bytes| == |b.payload| + 8
    ensures bytes[8..] == b.payload
  {
    BigEndian32(8 + |b.payload|) + FourCC(b.kind) + b.payload
  }

  lemma BigEndian32RoundTrip(n: nat)
    requires n < 0x1_0000_0000
    ensures ReadBigEndian32(BigEndian32(n)) == n
  {
    var a, b, c, d := n / 0x100_0000, n / 0x1_0000 % 0x100, n / 0x100 % 0x100, n % 0x100;
    assert n / 0x100 == (n / 0x1_0000) * 0x100 + c;
    assert n / 0x1_0000 == a * 0x100 + b;
    assert n == (n / 0x100) * 0x100 + d;
  }

  /** Stripping eight bytes strips exactly the header: what remains is the
      payload, and the header reads back as the box's size and type. */
  lemma BoxHeaderStrip(b: ConfigBox)
    requires |b.payload| + 8 < 0x1_0000_0000
    ensures |BoxBytes(b)| == |b.payload| + 8
    ensures ReadBigEndian32(BoxBytes(b)[..4]) == |BoxBytes(b)|
    ensures BoxBytes(b)[4..8] == FourCC(b.kind)
    ensures BoxBytes(b)[8..] == b.payload
  {
    var bytes := BoxBytes(b);
    assert bytes[..4] == BigEndian32(8 + |b.payload|);
    BigEndian32RoundTrip(8 + |b.payload|);
  }

  /** `parseVideoCodecDesc`: the first sample entry that carries a
      recognised configuration box gives the decoder description, which is
      that box serialised minus its 8-byte header. */
  method ParseVideoCodecDesc(entries: seq<SampleEntry>) returns (r: Result<seq<byte>, string>)
    requires WellSized(entries)
    ensures r.Failure? <==> forall i | 0 <= i < |entries| :: ConfigOf(entries[i]).None?
    ensures r.Failure? ==> r.error == NOT_FOUND
    ensures r.Success? ==> exists i | 0 <= i < |entries| ::
              && (forall j | 0 <= j < i :: ConfigOf(entries[j]).None?)
              && ConfigOf(entries[i]).Some?
              && r.value == ConfigOf(entries[i]).value.payload
              && |r.value| + 8 == |BoxBytes(ConfigOf(entries[i]).value)|
  {
    for i := 0 to |entries|
      invariant forall j | 0 <= j < i :: ConfigOf(entries[j]).None?
    {
      var box := ConfigOf(entries[i]);
      if box.Some? {
        assert Field(entries[i], box.value.kind).Some?;
        var bytes := BoxBytes(box.value);
        BoxHeaderStrip(box.value);
        return Success(bytes[8..]);
      }
    }
    return Failure(NOT_FOUND);
  }

  // ---------------------------------------------------------------------
  // Feeding the byte stream to the demuxer
  // ---------------------------------------------------------------------

  /** A call the reading loop makes on the mp4box file. */
  datatype ReaderCall = AppendBuffer(fileStart: nat, data: seq<byte>) | Flush

  /** Total byte length of a run of chunks. */
  function TotalLength(chunks: seq<seq<byte>>): nat {
    if chunks == [] then 0 else TotalLength(chunks[..|chunks| - 1]) + |chunks[|chunks| - 1]|
  }

  /** The logical file the chunks make up. */
  function Concat(chunks: seq<seq<byte>>): seq<byte> {
    if chunks == [] then [] else Concat(chunks[..|chunks| - 1]) + chunks[|chunks| - 1]
  }

  /** How a read loop can end early: `reader.read()` rejects on read
      `at` (counting from 0, the read that would report done included),
      or `appendBuffer` throws on chunk `at` (for instance because the
      `onReady` callback it runs throws). */
  datatype ParseFailure = ReadRejected(at: nat) | AppendThrew(at: nat)

  /** Whether `failure` happens before the reader reports done. */
  predicate Aborts(chunks: seq<seq<byte>>, failure: Option<ParseFailure>) {
    && failure.Some?
    && (failure.value.ReadRejected? ==> failure.value.at <= |chunks|)
    && (failure.value.AppendThrew? ==> failure.value.at < |chunks|)
  }

  /** How many chunks reach `appendBuffer`. */
  function AppendedCount(chunks: seq<seq<byte>>, failure: Option<ParseFailure>): (n: nat)
    ensures n <= |chunks|
    ensures !Aborts(chunks, failure) ==> n == |chunks|
  {
    if !Aborts(chunks, failure) then |chunks|
    else if failure.value.ReadRejected? then failure.value.at
    else failure.value.at + 1
  }

  /** The `appendBuffer` calls for the first `n` chunks. */
  function AppendCalls(chunks: seq<seq<byte>>, n: nat): (calls: seq<ReaderCall>)
    requires n <= |chunks|
    ensures |calls| == n
  {
    if n == 0 then []
    else AppendCalls(chunks, n - 1) + [AppendBuffer(TotalLength(chunks[..n - 1]), chunks[n - 1])]
  }

  /** Call `i` appends chunk `i` at the total length of the chunks before
      it: the offsets leave no gaps. */
  lemma {:induction false} AppendCallsAt(chunks: seq<seq<byte>>, n: nat, i: nat)
    requires i < n <= |chunks|
    ensures AppendCalls(chunks, n)[i] == AppendBuffer(TotalLength(chunks[..i]), chunks[i])
  {
    if i < n - 1 {
      AppendCallsAt(chunks, n - 1, i);
    }
  }

  lemma TotalLengthStep(chunks: seq<seq<byte>>, i: nat)
    requires i < |chunks|
    ensures TotalLength(chunks[..i + 1]) == TotalLength(chunks[..i]) + |chunks[i]|
  {
    assert chunks[..i + 1][..i] == chunks[..i];
  }

  /** `parse`: every chunk the reader delivers is appended, in order, tagged
      with the running offset; `flush` follows once the reader is done.
      `chunks` is what the reader delivers before it reports done. A
      rejected read or a throwing `appendBuffer` ends the loop at once:
      nothing more is appended, `flush` is never called and `parse`
      rejects (`completed` is false). */
  method Parse(chunks: seq<seq<byte>>, failure: Option<ParseFailure>)
    returns (calls: seq<ReaderCall>, completed: bool)
    ensures completed <==> !Aborts(chunks, failure)
    ensures calls == AppendCalls(chunks, AppendedCount(chunks, failure)) + (if completed then [Flush] else [])
  {
    var offset := 0;
    calls := [];
    var i := 0;
    while i < |chunks|
      invariant 0 <= i <= |chunks|
      invariant failure.Some? ==> failure.value.at >= i
      invariant offset == TotalLength(chunks[..i])
      invariant calls == AppendCalls(chunks, i)
    {
      if failure == Some(ReadRejected(i)) {
        assert Aborts(chunks, failure) && AppendedCount(chunks, failure) == i;
        return calls, false;
      }
      calls := calls + [AppendBuffer(offset, chunks[i])];
      if failure == Some(AppendThrew(i)) {
        assert Aborts(chunks, failure) && AppendedCount(chunks, failure) == i + 1;
        return calls, false;
      }
      TotalLengthStep(chunks, i);
      offset := offset + |chunks[i]|;
      i := i + 1;
    }
    if failure == Some(ReadRejected(|chunks|)) {
      assert Aborts(chunks, failure) && AppendedCount(chunks, failure) == |chunks|;
      return calls, false;
    }
    assert !Aborts(chunks, failure);
    calls := calls + [Flush];
    completed := true;
  }

  lemma {:induction false} ConcatLength(chunks: seq<seq<byte>>)
    ensures |Concat(chunks)| == TotalLength(chunks)
  {
    if chunks != [] {
      ConcatLength(chunks[..|chunks| - 1]);
    }
  }

  lemma {:induction false} ConcatPrefix(chunks: seq<seq<byte>>, i: nat)
    requires i <= |chunks|
    ensures Concat(chunks[..i]) <= Concat(chunks)
  {
    if i < |chunks| {
      var init := chunks[..|chunks| - 1];
      assert chunks[..i] == init[..i];
      ConcatPrefix(init, i);
      assert chunks[..|chunks|] == chunks;
    } else {
      assert chunks[..i] == chunks;
    }
  }

  /** The offsets are gap-free: each chunk sits in the logical file exactly
      at the `fileStart` it was given. */
  lemma ChunkAtFileStart(chunks: seq<seq<byte>>, i: nat)
    requires i < |chunks|
    ensures TotalLength(chunks[..i]) + |chunks[i]| <= |Concat(chunks)|
    ensures Concat(chunks)[TotalLength(chunks[..i])..TotalLength(chunks[..i]) + |chunks[i]|] == chunks[i]
  {
    var upto := chunks[..i + 1];
    assert upto[..i] == chunks[..i];
    assert Concat(upto) == Concat(chunks[..i]) + chunks[i];
    ConcatLength(chunks[..i]);
    ConcatPrefix(chunks, i + 1);
  }

  // ---------------------------------------------------------------------
  // Demuxed samples to encoded chunks
  // ---------------------------------------------------------------------

  type Timescale = n: int | n > 0 witness 1

  /** A sample as mp4box extracts it (`MP4Sample`): times in ticks of the
      track's timescale. */
  datatype Mp4Sample = Mp4Sample(
    isSync: bool,
    cts: int,
    duration: int,
    timescale: Timescale,
    data: seq<byte>)

  datatype ChunkType = Key | Delta

  /** The `EncodedVideoChunk`/`EncodedAudioChunk` init: times in microseconds. */
  datatype EncodedChunk = EncodedChunk(
    chunkType: ChunkType,
    timestamp: real,
    duration: real,
    data: seq<byte>)

  /** `1e6 * ticks / timescale`, exactly: the time in microseconds that
      `ticks` ticks of the timescale span. */
  function Micros(ticks: int, timescale: Timescale): real {
    1000000.0 * ticks as real / timescale as real
  }

  /** The converted time spans the ticks: times the timescale it gives
      back a million times the ticks, and it is never negative for a
      non-negative count. */
  lemma MicrosSpan(ticks: int, timescale: Timescale)
    ensures Micros(ticks, timescale) * timescale as real == 1000000.0 * ticks as real
    ensures ticks >= 0 ==> Micros(ticks, timescale) >= 0.0
  {
  }

  function ChunkTypeOf(s: Mp4Sample): ChunkType {
    if s.isSync then Key else Delta
  }

  /** The chunk one sample becomes; `zeroTimestamp` forces timestamp 0. */
  function ChunkOf(s: Mp4Sample, zeroTimestamp: bool): (c: EncodedChunk)
    ensures c.chunkType == Key <==> s.isSync
    ensures c.data == s.data
    ensures zeroTimestamp ==> c.timestamp == 0.0
    ensures !zeroTimestamp ==> c.timestamp == Micros(s.cts, s.timescale)
    ensures c.duration == Micros(s.duration, s.timescale)
  {
    EncodedChunk(ChunkTypeOf(s), if zeroTimestamp then 0.0 else Micros(s.cts, s.timescale),
                 Micros(s.duration, s.timescale), s.data)
  }

  /** The audio chunks made from one batch: one per sample, in order. */
  function AudioChunks(samples: seq<Mp4Sample>): (r: seq<EncodedChunk>)
    ensures |r| == |samples|
    ensures forall k | 0 <= k < |r| ::
              && (r[k].chunkType == Key <==> samples[k].isSync)
              && r[k].timestamp == Micros(samples[k].cts, samples[k].timescale)
              && r[k].duration == Micros(samples[k].duration, samples[k].timescale)
              && r[k].data == samples[k].data
  {
    if samples == [] then [] else [ChunkOf(samples[0], false)] + AudioChunks(samples[1..])
  }

  /** The video chunks made from one batch when the sticky flag is
      `isFirst`: the sample that meets the flag set gets timestamp 0 and
      clears it; every other sample keeps its converted timestamp. */
  function VideoChunks(samples: seq<Mp4Sample>, isFirst: bool): (r: seq<EncodedChunk>)
    ensures |r| == |samples|
    ensures forall k | 0 <= k < |r| ::
              && (r[k].chunkType == Key <==> samples[k].isSync)
              && r[k].timestamp == (if isFirst && k == 0 then 0.0 else Micros(samples[k].cts, samples[k].timescale))
              && r[k].duration == Micros(samples[k].duration, samples[k].timescale)
              && r[k].data == samples[k].data
  {
    if samples == [] then [] else [ChunkOf(samples[0], isFirst)] + VideoChunks(samples[1..], false)
  }

  lemma {:induction false} AudioChunksSnoc(samples: seq<Mp4Sample>, s: Mp4Sample)
    ensures AudioChunks(samples + [s]) == AudioChunks(samples) + [ChunkOf(s, false)]
  {
    if samples != [] {
      assert (samples + [s])[1..] == samples[1..] + [s];
      AudioChunksSnoc(samples[1..], s);
    }
  }

  lemma VideoChunksSnoc(samples: seq<Mp4Sample>, s: Mp4Sample, isFirst: bool)
    ensures VideoChunks(samples + [s], isFirst) == VideoChunks(samples, isFirst) + [ChunkOf(s, isFirst && samples == [])]
  {
    VideoChunksAppend(samples, [s], isFirst);
  }

  function Flatten(batches: seq<seq<Mp4Sample>>): seq<Mp4Sample> {
    if batches == [] then [] else batches[0] + Flatten(batches[1..])
  }

  /** The video chunks of a run of `onSamples` batches, with the flag
      carried from batch to batch. */
  function VideoChunksOfBatches(batches: seq<seq<Mp4Sample>>, isFirst: bool): seq<EncodedChunk> {
    if batches == [] then []
    else VideoChunks(batches[0], isFirst) + VideoChunksOfBatches(batches[1..], isFirst && batches[0] == [])
  }

  lemma {:induction false} VideoChunksAppend(a: seq<Mp4Sample>, b: seq<Mp4Sample>, isFirst: bool)
    ensures VideoChunks(a + b, isFirst) == VideoChunks(a, isFirst) + VideoChunks(b, isFirst && a == [])
  {
    if a != [] {
      assert (a + b)[1..] == a[1..] + b;
      VideoChunksAppend(a[1..], b, false);
    } else {
      assert a + b == b;
    }
  }

  /** Splitting the samples into batches changes nothing: across all
      batches of a run, only the very first video sample is zeroed. */
  lemma {:induction false} BatchesLikeOneBatch(batches: seq<seq<Mp4Sample>>, isFirst: bool)
    ensures VideoChunksOfBatches(batches, isFirst) == VideoChunks(Flatten(batches), isFirst)
  {
    if batches != [] {
      BatchesLikeOneBatch(batches[1..], isFirst && batches[0] == []);
      VideoChunksAppend(batches[0], Flatten(batches[1..]), isFirst);
    }
  }

  // ---------------------------------------------------------------------
  // The decode session: the state `decoderHandle` keeps in its closures
  // ---------------------------------------------------------------------

  datatype Config = Config(video: Option<VideoDecoderConfig>, audio: Option<AudioDecoderConfig>)

  /** A video track of the demuxer's `MP4Info`, with the sample entries of
      the track `getTrackById` returns for its id. */
  datatype VideoTrack = VideoTrack(
    id: nat,
    codec: string,
    trackWidth: int,
    trackHeight: int,
    videoWidth: int,
    videoHeight: int,
    sampleEntries: seq<SampleEntry>)

  datatype AudioTrack = AudioTrack(id: nat, codec: string, channelCount: int, sampleRate: int)

  datatype Mp4Info = Mp4Info(videoTracks: seq<VideoTrack>, audioTracks: seq<AudioTrack>)

  datatype TrackKind = VideoKind | AudioKind | OtherKind

  /** A `setExtractionOptions(id, user, { nbSamples })` call. */
  datatype ExtractionOption = ExtractionOption(trackId: nat, user: TrackKind, nbSamples: nat)

  class DecodeSession {
    var vTrackId: Option<nat>
    var aTrackId: Option<nat>
    var config: Config
    var extractionOptions: seq<ExtractionOption>
    /** What `videoDecoder.configure` / `audioDecoder.configure` received. */
    var videoDecoderConfig: Option<VideoDecoderConfig>
    var audioDecoderConfig: Option<AudioDecoderConfig>
    /** Whether `mp4boxFile.start()` was called. */
    var started: bool
    var isFirst: bool
    /** The chunks handed to `decode` on each decoder, in order. */
    var videoChunks: seq<EncodedChunk>
    var audioChunks: seq<EncodedChunk>
    /** What the decoders' output callbacks delivered, in callback order. */
    var videoSamples: seq<VideoFrame>
    var audioSamples: seq<AudioData>
    var videoFlushed: bool
    var audioFlushed: bool

    constructor ()
      ensures vTrackId == None && aTrackId == None && config == Config(None, None)
      ensures extractionOptions == [] && videoDecoderConfig == None && audioDecoderConfig == None
      ensures !started && isFirst
      ensures videoChunks == [] && audioChunks == [] && videoSamples == [] && audioSamples == []
      ensures !videoFlushed && !audioFlushed
    {
      vTrackId, aTrackId := None, None;
      config := Config(None, None);
      extractionOptions := [];
      videoDecoderConfig, audioDecoderConfig := None, None;
      started, isFirst := false, true;
      videoChunks, audioChunks := [], [];
      videoSamples, audioSamples := [], [];
      videoFlushed, audioFlushed := false, false;
    }

    /** `onReady`: configures the first video track and the first audio
        track, if any, and starts extraction. A video track without a
        recognised configuration box makes it throw (`thrown`) after its
        extraction options were set and before anything else. */
    method OnReady(info: Mp4Info) returns (thrown: Option<string>)
      requires |info.videoTracks| > 0 ==> WellSized(info.videoTracks[0].sampleEntries)
      modifies this`vTrackId, this`aTrackId, this`config, this`extractionOptions,
               this`videoDecoderConfig, this`audioDecoderConfig, this`started
      ensures vTrackId == (if |info.videoTracks| > 0 then Some(info.videoTracks[0].id) else None)
      ensures thrown.Some? <==>
                (|info.videoTracks| > 0 &&
                 forall i | 0 <= i < |info.videoTracks[0].sampleEntries| ::
                   ConfigOf(info.videoTracks[0].sampleEntries[i]).None?)
      ensures thrown.Some? ==>
                && thrown.value == NOT_FOUND
                && extractionOptions == old(extractionOptions)
                     + [ExtractionOption(info.videoTracks[0].id, VideoKind, SAMPLES_PER_BATCH)]
                && aTrackId == old(aTrackId) && config == old(config) && started == old(started)
                && videoDecoderConfig == old(videoDecoderConfig)
                && audioDecoderConfig == old(audioDecoderConfig)
      ensures thrown.None? ==>
                && started
                && aTrackId == (if |info.audioTracks| > 0 then Some(info.audioTracks[0].id) else None)
                && extractionOptions == old(extractionOptions)
                     + (if |info.videoTracks| > 0
                        then [ExtractionOption(info.videoTracks[0].id, VideoKind, SAMPLES_PER_BATCH)] else [])
                     + (if |info.audioTracks| > 0
                        then [ExtractionOption(info.audioTracks[0].id, AudioKind, SAMPLES_PER_BATCH)] else [])
      ensures thrown.None? && |info.videoTracks| > 0 ==>
                var t := info.videoTracks[0];
                && config.video.Some? && videoDecoderConfig.Some?
                && config.video.value.codec == t.codec == videoDecoderConfig.value.codec
                && config.video.value.codedWidth == Some(t.videoWidth)
                && config.video.value.codedHeight == Some(t.videoHeight)
                && videoDecoderConfig.value.codedWidth == Some(t.trackWidth)
                && videoDecoderConfig.value.codedHeight == Some(t.trackHeight)
                && config.video.value.description == videoDecoderConfig.value.description
                && exists i | 0 <= i < |t.sampleEntries| ::
                     && (forall j | 0 <= j < i :: ConfigOf(t.sampleEntries[j]).None?)
                     && ConfigOf(t.sampleEntries[i]).Some?
                     && config.video.value.description == ConfigOf(t.sampleEntries[i]).value.payload
      ensures thrown.None? && |info.videoTracks| == 0 ==>
                config.video == old(config.video) && videoDecoderConfig == old(videoDecoderConfig)
      ensures thrown.None? && |info.audioTracks| > 0 ==>
                var a := info.audioTracks[0];
                && config.audio == Some(AudioDecoderConfig(a.codec, a.channelCount, a.sampleRate))
                && audioDecoderConfig == config.audio
      ensures thrown.None? && |info.audioTracks| == 0 ==>
                config.audio == old(config.audio) && audioDecoderConfig == old(audioDecoderConfig)
    {
      if |info.videoTracks| > 0 {
        var t := info.videoTracks[0];
        vTrackId := Some(t.id);
        extractionOptions := extractionOptions + [ExtractionOption(t.id, VideoKind, SAMPLES_PER_BATCH)];
        var desc := ParseVideoCodecDesc(t.sampleEntries);
        if desc.Failure? {
          return Some(desc.error);
        }
        config := config.(video := Some(VideoDecoderConfig(t.codec, Some(t.videoWidth), Some(t.videoHeight), desc.value)));
        videoDecoderConfig := Some(VideoDecoderConfig(t.codec, Some(t.trackWidth), Some(t.trackHeight), desc.value));
      } else {
        vTrackId := None;
      }
      if |info.audioTracks| > 0 {
        var a := info.audioTracks[0];
        aTrackId := Some(a.id);
        extractionOptions := extractionOptions + [ExtractionOption(a.id, AudioKind, SAMPLES_PER_BATCH)];
        config := config.(audio := Some(AudioDecoderConfig(a.codec, a.channelCount, a.sampleRate)));
        audioDecoderConfig := config.audio;
      } else {
        aTrackId := None;
      }
      started := true;
      return None;
    }

    /** `onSamples`: every sample of the batch becomes one chunk for the
        decoder of its kind, in order; the first video sample of the whole
        session gets timestamp 0. Batches of any other kind are ignored. */
    method OnSamples(kind: TrackKind, samples: seq<Mp4Sample>)
      modifies this`isFirst, this`videoChunks, this`audioChunks
      ensures kind == VideoKind ==>
                && videoChunks == old(videoChunks) + VideoChunks(samples, old(isFirst))
                && isFirst == (old(isFirst) && samples == [])
                && audioChunks == old(audioChunks)
      ensures kind == AudioKind ==>
                && audioChunks == old(audioChunks) + AudioChunks(samples)
                && isFirst == old(isFirst) && videoChunks == old(videoChunks)
      ensures kind == OtherKind ==>
                isFirst == old(isFirst) && videoChunks == old(videoChunks) && audioChunks == old(audioChunks)
    {
      if kind == AudioKind {
        DecodeAudioBatch(samples);
      } else if kind == VideoKind {
        DecodeVideoBatch(samples);
      }
    }

    /** The audio branch of `onSamples`. */
    method DecodeAudioBatch(samples: seq<Mp4Sample>)
      modifies this`audioChunks
      ensures audioChunks == old(audioChunks) + AudioChunks(samples)
    {
      var i := 0;
      while i < |samples|
        invariant 0 <= i <= |samples|
        invariant audioChunks == old(audioChunks) + AudioChunks(samples[..i])
      {
        var s := samples[i];
        AudioChunksSnoc(samples[..i], s);
        assert samples[..i + 1] == samples[..i] + [s];
        audioChunks := audioChunks + [ChunkOf(s, false)];
        i := i + 1;
      }
      assert samples[..i] == samples;
    }

    /** The video branch of `onSamples`, with the sticky `isFirst` flag. */
    method DecodeVideoBatch(samples: seq<Mp4Sample>)
      modifies this`isFirst, this`videoChunks
      ensures videoChunks == old(videoChunks) + VideoChunks(samples, old(isFirst))
      ensures isFirst == (old(isFirst) && samples == [])
    {
      ghost var first := isFirst;
      var i := 0;
      while i < |samples|
        invariant 0 <= i <= |samples|
        invariant isFirst == (first && i == 0)
        invariant videoChunks == old(videoChunks) + VideoChunks(samples[..i], first)
      {
        var s := samples[i];
        var chunk := ChunkOf(s, isFirst);
        isFirst := false;
        ghost var done := samples[..i];
        assert samples[..i + 1] == done + [s];
        VideoChunksSnoc(done, s, first);
        assert chunk == ChunkOf(s, first && done == []);
        videoChunks := videoChunks + [chunk];
        i := i + 1;
      }
      assert samples[..i] == samples;
    }

    /** The video decoder's output callback. */
    method OnVideoOutput(frame: VideoFrame)
      modifies this`videoSamples
      ensures videoSamples == old(videoSamples) + [frame]
    {
      videoSamples := videoSamples + [frame];
    }

    /** The audio decoder's output callback. */
    method OnAudioOutput(data: AudioData)
      modifies this`audioSamples
      ensures audioSamples == old(audioSamples) + [data]
    {
      audioSamples := audioSamples + [data];
    }

    /** The end of `decoderHandle`: each decoder is flushed only when its
        track was found; the collected frames and the config are returned. */
    method Finish() returns (videos: seq<VideoFrame>, audios: seq<AudioData>, cfg: Config)
      modifies this`videoFlushed, this`audioFlushed
      ensures videoFlushed == (old(videoFlushed) || vTrackId.Some?)
      ensures audioFlushed == (old(audioFlushed) || aTrackId.Some?)
      ensures videos == videoSamples && audios == audioSamples && cfg == config
    {
      if vTrackId.Some? {
        videoFlushed := true;
      }
      if aTrackId.Some? {
        audioFlushed := true;
      }
      return videoSamples, audioSamples, config;
    }
  }

  // ---------------------------------------------------------------------
  // Encoding and muxing
  // ---------------------------------------------------------------------

  /** The options mp4-muxer is created with. */
  datatype MuxerOptions = MuxerOptions(
    videoCodec: string,
    width: int,
    height: int,
    audioCodec: string,
    numberOfChannels: int,
    sampleRate: int,
    fastStart: string)

  datatype VideoEncoderConfig = VideoEncoderConfig(codec: string, width: int, height: int, bitrate: int)

  /** A call `encoderHandle` makes on an encoder, a frame or the muxer. */
  datatype EncoderCall =
    | EncodeVideo(frame: VideoFrame, keyFrame: bool)
    | CloseVideo(frame: VideoFrame)
    | EncodeAudio(data: AudioData)
    | CloseAudio(data: AudioData)
    | FlushVideo
    | FinalizeMuxer

  datatype EncodeRun = EncodeRun(
    muxer: MuxerOptions,
    videoConfig: VideoEncoderConfig,
    /** What `audioEncoder.configure` received, if it was called. */
    audioConfig: Option<AudioDecoderConfig>,
    calls: seq<EncoderCall>,
    fileName: string)

  /** `encoderHandle`: nothing without video frames; otherwise the output is
      sized from the first frame, every video frame is encoded as a key
      frame and closed right after, then every audio block likewise, then
      the video encoder is flushed and the muxer finalised. */
  method EncoderHandle(videoFrames: seq<VideoFrame>, audioData: seq<AudioData>, config: Config)
    returns (r: Option<EncodeRun>)
    ensures r.None? <==> videoFrames == []
    ensures r.Some? ==>
              var w, h := videoFrames[0].codedWidth, videoFrames[0].codedHeight;
              && r.value.muxer == MuxerOptions("vp9", w, h, "aac", DEFAULT_CHANNEL_COUNT, DEFAULT_SAMPLE_RATE, "in-memory")
              && r.value.videoConfig == VideoEncoderConfig("vp09.00.10.08", w, h, 1000000)
              && r.value.audioConfig == config.audio
              && r.value.fileName == "test.mp4"
    ensures r.Some? ==>
              var calls, n, m := r.value.calls, |videoFrames|, |audioData|;
              && |calls| == 2 * n + 2 * m + 2
              && (forall k | 0 <= k < 2 * n ::
                    calls[k] == if k % 2 == 0 then EncodeVideo(videoFrames[k / 2], true)
                                else CloseVideo(videoFrames[k / 2]))
              && (forall k | 2 * n <= k < 2 * n + 2 * m ::
                    calls[k] == if k % 2 == 0 then EncodeAudio(audioData[(k - 2 * n) / 2])
                                else CloseAudio(audioData[(k - 2 * n) / 2]))
              && calls[2 * n + 2 * m] == FlushVideo
              && calls[2 * n + 2 * m + 1] == FinalizeMuxer
  {
    if videoFrames == [] {
      return None;
    }
    var width, height := videoFrames[0].codedWidth, videoFrames[0].codedHeight;
    var muxer := MuxerOptions("vp9", width, height, "aac", DEFAULT_CHANNEL_COUNT, DEFAULT_SAMPLE_RATE, "in-memory");
    var videoConfig := VideoEncoderConfig("vp09.00.10.08", width, height, 1000000);
    var audioConfig := None;
    if config.audio.Some? {
      audioConfig := config.audio;
    }
    var calls: seq<EncoderCall> := [];
    var n, m := |videoFrames|, |audioData|;
    for i := 0 to n
      invariant |calls| == 2 * i
      invariant forall k | 0 <= k < 2 * i ::
                  calls[k] == if k % 2 == 0 then EncodeVideo(videoFrames[k / 2], true)
                              else CloseVideo(videoFrames[k / 2])
    {
      calls := calls + [EncodeVideo(videoFrames[i], true), CloseVideo(videoFrames[i])];
    }
    for i := 0 to m
      invariant |calls| == 2 * n + 2 * i
      invariant forall k | 0 <= k < 2 * n ::
                  calls[k] == if k % 2 == 0 then EncodeVideo(videoFrames[k / 2], true)
                              else CloseVideo(videoFrames[k / 2])
      invariant forall k | 2 * n <= k < 2 * n + 2 * i ::
                  calls[k] == if k % 2 == 0 then EncodeAudio(audioData[(k - 2 * n) / 2])
                              else CloseAudio(audioData[(k - 2 * n) / 2])
    {
      calls := calls + [EncodeAudio(audioData[i]), CloseAudio(audioData[i])];
    }
    calls := calls + [FlushVideo, FinalizeMuxer];
    return Some(EncodeRun(muxer, videoConfig, audioConfig, calls, "test.mp4"));
  }
}

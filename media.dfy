/** Records shared by the pipeline stages: the WebCodecs objects that pass
    from the decoders through the frame transforms to the encoders. */
module Media {
  import opened Wrappers

  newtype byte = x: int | 0 <= x < 256

  /** A decoded video frame (WebCodecs `VideoFrame`). `id` stands for its
      native pixel buffer; `duration` is `null` when the decoder gave none. */
  datatype VideoFrame = VideoFrame(
    id: nat,
    timestamp: int,
    duration: Option<int>,
    codedWidth: int,
    codedHeight: int)

  /** A decoded block of audio (WebCodecs `AudioData`). */
  datatype AudioData = AudioData(id: nat, timestamp: int)

  /** The `VideoDecoder.configure` argument as this program fills it. */
  datatype VideoDecoderConfig = VideoDecoderConfig(
    codec: string,
    codedWidth: Option<int>,
    codedHeight: Option<int>,
    description: seq<byte>)

  /** The `AudioDecoder.configure` argument as this program fills it. */
  datatype AudioDecoderConfig = AudioDecoderConfig(
    codec: string,
    numberOfChannels: int,
    sampleRate: int)
}

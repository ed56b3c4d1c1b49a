# web-codecs-demo, modelled in Dafny

This project models the decision-making core of `web-codecs-demo`, a set of
browser demos built on WebCodecs, the mp4box demuxer, mp4-muxer and
ffmpeg.wasm. The libraries themselves are not modelled. What the program
hands them is recorded as values: call traces, configurations and argument
lists. What they hand back arrives as parameters. The model covers:

- **Transcode glue** (`codecs.dfy`, module `Codecs`):
  - picking the decoder description out of the `stsd` sample entries
    (section 8.5.2 of ISO/IEC 14496-12) and stripping the 8-byte box header
    (section 4.2);
  - feeding streamed chunks to the demuxer with running `fileStart`
    offsets;
  - track selection in `onReady`;
  - the sample-to-chunk conversion in `onSamples`, with its sticky `isFirst`
    flag;
  - the frame loop of `encoderHandle`.
- **ffmpeg front end** (`ffmpeg.dfy`, module `FFmpeg`):
  - the argument lists of `addMediaFileMeta`, `customTransformVideo` and
    `videoFrame`;
  - the `run` wrapper's `isWorked` state machine.
- **Watermark bounce** (`watermark.dfy`, module `VideoWatermark`): the caption
  position and the velocity reflected off the canvas edges. The velocity is
  module state, shared by all calls.
- **Canvas recorder** (`canvas_export.dfy`, module `CanvasExportVideo`):
  - the key-frame scheduler of `record`;
  - the pointer position and the drawing handlers.
- **Chroma key** (`chroma_key.dfy`, module `ChromaKey`):
  - `hexToRgb` and its inverse;
  - the hand-off of keyed frames and audio in `onSamples`.
- **Codec support table** (`supported_codec.dfy`, module `SupportedCodec`):
  - the codec × acceleration enumeration;
  - the result-row keys;
  - the size setters and the acceleration labels.
- **Shared modules**:
  - `Wrappers` holds `Option`/`Result`;
  - `Media` holds frame and config records;
  - `Decimal` holds JavaScript's integer `toString` and a parser for it.

State the source mutates in place is modelled by classes whose methods
state the complete new state:
- `isWorked`;
- the module-level watermark velocity;
- `lastKeyFrame`/`framesGenerated`;
- `lastPos`;
- the decode-session closures;
- the page's width and height.

Pure logic is modelled as functions with lemmas. Each loop is a `for` or
`while` loop proved against a specification function.

## Model

| member | source | states |
|---|---|---|
| Codecs.ConfigOf | src/core/Codecs.ts:32 | The result is absent iff the entry carries none of avcC, hvcC, av1C, vpcC. Otherwise it is the payload of the box that is present, and every box earlier in that order is absent. |
| Codecs.BoxBytes | src/core/Codecs.ts:34-39 | A serialised box is its payload behind an 8-byte header. |
| Codecs.BigEndian32RoundTrip | src/core/Codecs.ts:34-39 | The 32-bit big-endian size field of a box header reads back as the size written. |
| Codecs.BoxHeaderStrip | src/core/Codecs.ts:34-40 | A serialised box is 8 bytes longer than its payload. Its first 4 bytes read back as its length and the next 4 are its type. Dropping 8 bytes leaves exactly the payload. |
| Codecs.ParseVideoCodecDesc | src/core/Codecs.ts:29-44 | Fails with 'avcC, hvcC, av1C or VPX not found' iff no entry has a config box. Otherwise it returns the payload of the first entry that has one, which is the serialised box minus 8 bytes. |
| Codecs.AppendCalls | src/core/Codecs.ts:58-65 | The appendBuffer calls for the first n chunks, one per chunk. |
| Codecs.AppendCallsAt | src/core/Codecs.ts:58-65 | Call i appends chunk i with fileStart equal to the total length of chunks 0..i-1, so the offsets leave no gaps. |
| Codecs.Parse | src/core/Codecs.ts:46-72 | Chunk i is appended in read order with fileStart = total length of chunks 0..i-1. If every read resolves and every append returns, flush follows exactly once and parse completes. A rejected read stops before its chunk; a throwing appendBuffer (such as a throw from onReady) stops after its chunk. Either way nothing more is appended, flush is never called and parse does not complete. |
| Codecs.ConcatLength | src/core/Codecs.ts:60-63 | The running offset equals the length of the bytes delivered so far. |
| Codecs.ChunkAtFileStart | src/core/Codecs.ts:60-66 | Every chunk lies in the concatenated file exactly at the fileStart it was given: the offsets leave no gap or overlap. |
| Codecs.Micros | src/core/Codecs.ts:172-173 | `1e6 * ticks / timescale`, the time in microseconds that the ticks span, computed exactly. |
| Codecs.MicrosSpan | src/core/Codecs.ts:172-173 | The converted time times the timescale gives back 1e6 times the ticks, and it is never negative for a non-negative tick count. |
| Codecs.ChunkOf | src/core/Codecs.ts:168-188 | A sample becomes a chunk that is key iff the sample is sync and carries the sample's data. Its duration is the sample's converted to microseconds. Its timestamp is 0 when forced and otherwise the sample's cts converted to microseconds. |
| Codecs.AudioChunks | src/core/Codecs.ts:167-178 | One chunk per audio sample, in order. A chunk is key iff the sample is sync. Timestamp is 1e6·cts/timescale and duration is 1e6·duration/timescale. The data is unchanged. |
| Codecs.VideoChunks | src/core/Codecs.ts:180-192 | As for audio, except that only the first sample, when the flag is set, gets timestamp 0. |
| Codecs.AudioChunksSnoc | src/core/Codecs.ts:168-177 | Converting one more sample appends exactly its chunk. |
| Codecs.VideoChunksAppend | src/core/Codecs.ts:181-191 | Converting two runs one after the other equals converting their concatenation. Only the very first sample can be zeroed. |
| Codecs.VideoChunksSnoc | src/core/Codecs.ts:181-191 | Converting one more sample appends its chunk, zeroed only if it is the first sample and the flag is set. |
| Codecs.VideoChunksOfBatches | src/core/Codecs.ts:163-193 | Reference definition of the video chunks of a run of `onSamples` batches, carrying isFirst from batch to batch; no contract of its own, BatchesLikeOneBatch states its property. |
| Codecs.BatchesLikeOneBatch | src/core/Codecs.ts:163-193 | With isFirst carried across onSamples batches, the chunks of all batches equal the chunks of one flattened batch. So only the first video sample of the session is zeroed. |
| Codecs.DecodeSession.constructor | src/core/Codecs.ts:81-104 | The session starts with no tracks, an empty config, isFirst set, and nothing decoded or flushed. |
| Codecs.DecodeSession.OnReady | src/core/Codecs.ts:106-161 | Configures only the first video and first audio track, each extracted in batches of 100. The decode config uses the track size and config.video uses the video size. A video track without a config box throws after its track id is recorded and its extraction option set. |
| Codecs.DecodeSession.OnSamples | src/core/Codecs.ts:164-193 | A video batch appends VideoChunks(samples, isFirst), and isFirst stays set only for an empty batch. An audio batch appends AudioChunks(samples). Other kinds change nothing. |
| Codecs.DecodeSession.DecodeAudioBatch | src/core/Codecs.ts:167-178 | The audio loop appends exactly AudioChunks(samples). |
| Codecs.DecodeSession.DecodeVideoBatch | src/core/Codecs.ts:180-192 | The video loop appends exactly VideoChunks(samples, isFirst) and clears isFirst after the first sample. |
| Codecs.DecodeSession.OnVideoOutput | src/core/Codecs.ts:85-88 | Decoded frames are collected in callback order. |
| Codecs.DecodeSession.OnAudioOutput | src/core/Codecs.ts:94-97 | Decoded audio is collected in callback order. |
| Codecs.DecodeSession.Finish | src/core/Codecs.ts:195-201 | Each decoder is flushed iff its track id was found. The collected samples and the config are returned. |
| Codecs.EncoderHandle | src/core/Codecs.ts:233-292 | Returns nothing iff there are no video frames. Otherwise the muxer and encoder are sized from the first frame (vp9/aac, 2 ch, 48 kHz, VP9 at 1 Mbit/s). Frame k is encoded as a key frame and closed right after. Audio blocks likewise. Then the video encoder is flushed, the muxer finalised, and the file is 'test.mp4'. |
| Decimal.NatToString | src/pages/SupportedCodec/SupportedCodec.tsx:72 | `String(n)` of a natural number is a non-empty run of digits without leading zero. |
| Decimal.IntToString | src/core/FFmpeg.ts:170 | `toString()` of an integer is non-empty and starts with '-' iff the number is negative. The other characters are digits. |
| Decimal.ParseNatToString | src/pages/SupportedCodec/SupportedCodec.tsx:72 | The digits of n read back as n. |
| Decimal.ParseIntToString | src/core/FFmpeg.ts:170 | Every integer's text reads back as that integer. |
| Decimal.IntToStringInjective | src/core/FFmpeg.ts:176 | Different integers give different texts. |
| FFmpeg.Split | src/core/FFmpeg.ts:146 | `split` returns at least one part and no part contains the separator. |
| FFmpeg.SplitJoin | src/core/FFmpeg.ts:196 | Splitting a join of separator-free parts gives the parts back. |
| FFmpeg.Join | src/core/FFmpeg.ts:196 | `parts.join(sep)`: the parts in order with one separator between neighbours. |
| FFmpeg.SplitLast | src/core/FFmpeg.ts:146 | The last part of `split` is a separator-free suffix that is either the whole string or follows a separator. |
| FFmpeg.Extension | src/core/FFmpeg.ts:146 | The extension is a dot-free suffix of the name. If the name has a '.', it is what follows the last '.'. Otherwise it is the whole name. |
| FFmpeg.ExtensionAfterDot | src/core/FFmpeg.ts:146-147 | The extension of `stem.ext`, with ext dot-free, is ext. |
| FFmpeg.ExtensionIsLastPart | src/core/FFmpeg.ts:146 | The extension equals the last part of the name split on '.', which is what `split('.').pop()` returns. |
| FFmpeg.MediaMetaCommands | src/core/FFmpeg.ts:145-148 | The new name is `<random>.<extension of the input>` and the commands are `-i name -c copy -map 0 newName`. |
| FFmpeg.MediaMetaKeepsExtension | src/core/FFmpeg.ts:146-148 | The stream copy keeps the input's extension. |
| FFmpeg.FormatOf | src/core/FFmpeg.ts:214 | `format \|\| 'mp4'` is never empty. |
| FFmpeg.NumberSet | src/core/FFmpeg.ts:199 | A numeric option counts as set, as JavaScript's truthiness decides, iff it is present and not 0. |
| FFmpeg.FlagSet | src/core/FFmpeg.ts:179 | A flag counts as set iff it is present and true. |
| FFmpeg.ScaleFilter | src/core/FFmpeg.ts:184-186 | The scale filter contains no ','. |
| FFmpeg.CropFilter | src/core/FFmpeg.ts:188-191 | The crop filter contains no ','. |
| FFmpeg.Filters | src/core/FFmpeg.ts:179-197 | The filter list is non-empty iff crop, flipH or scale is set, and no filter contains ','. |
| FFmpeg.FilterArgumentSplits | src/core/FFmpeg.ts:182-196 | The joined `-vf` argument splits back into scale, crop and hflip, in that order. |
| FFmpeg.OutputName | src/core/FFmpeg.ts:214 | The output name contains a '.'. |
| FFmpeg.TransformArgs | src/core/FFmpeg.ts:165-216 | Reference definition of the whole `customTransformVideo` argument list, built from its parts: TimeArgs (`-ss`/`-i`/`-t`, lines 168-177), FilterArgs (`-vf` and the joined filters, lines 179-197), RateArgs (`-r fps`, lines 199-201), VideoCopyArgs (`-c:v copy`, lines 203-205), then `-c:a copy`, BitrateArgs (`-b:v <n>k`, lines 210-212) and the output name; no contract of its own, TransformArgsFront/Video/Tail and TransformCommands state its properties. |
| FFmpeg.TransformArgsFront | src/core/FFmpeg.ts:168-177 | `-ss start` comes right before `-i name` and `-t (end-start)` right after it, iff timeRange is given. Otherwise the list opens with `-i name`. The length counts two for `-i name`, four more for a time range, two per other set option, plus the audio pair and the output. |
| FFmpeg.TransformArgsVideo | src/core/FFmpeg.ts:179-205 | `-vf <joined filters>`, `-r fps` and `-c:v copy` appear at their offsets iff the filters, a non-zero fps and copy are set, in that order. |
| FFmpeg.TransformArgsTail | src/core/FFmpeg.ts:207-216 | `-c:a copy` is always there. `-b:v <n>k` follows iff a non-zero bitrate is set. The last argument is `<random>.<format or mp4>`. |
| FFmpeg.TransformCommands | src/core/FFmpeg.ts:165-216 | The push-by-push builder produces exactly TransformArgs and the output name `<random>.<format or mp4>`. |
| FFmpeg.FrameTime | src/core/FFmpeg.ts:230 | The grab time is the given `time`, or 00:00:01 when none is given. |
| FFmpeg.FrameFilters | src/core/FFmpeg.ts:235-239 | Reference definition of the frame-grab filters: `scale=100:-1`, then `hflip` when flipH is set; no contract of its own, FrameFilterSplits and FrameArgs state its properties. |
| FFmpeg.FrameFilterSplits | src/core/FFmpeg.ts:235-239 | The frame filter argument splits back into `scale=100:-1`, followed by `hflip` iff flipH is set. |
| FFmpeg.FrameArgs | src/core/FFmpeg.ts:230-241 | Nine arguments: `-i name -ss <time> -vf <filters> -frames:v 1 output.jpg`. The `-vf` argument splits back into `scale=100:-1`, then `hflip` iff flipH is set. |
| FFmpeg.FrameCommands | src/core/FFmpeg.ts:229-241 | The push-by-push builder produces exactly FrameArgs, with output name output.jpg. |
| FFmpeg.MimeOf | src/core/FFmpeg.ts:123 | The file type is the sniffed MIME, or video/mp4 when none is sniffed or it is empty. |
| FFmpeg.FFmpeg.constructor | src/core/FFmpeg.ts:29-40 | Not working, only the console-logging progress listener registered (lines 39 and 60-64), nothing executed or deleted. |
| FFmpeg.FFmpeg.OnLog | src/core/FFmpeg.ts:70-77 | A 'Conversion failed!' line clears isWorked. Any other line leaves it. |
| FFmpeg.FFmpeg.DeliverLogs | src/core/FFmpeg.ts:70-77 | After the logs of one exec, isWorked is still set iff none of them was 'Conversion failed!'. |
| FFmpeg.FFmpeg.Run | src/core/FFmpeg.ts:97-133 | While busy: rejects with 'FFmpeg正在工作中' and changes nothing. Otherwise: executes iff load and write succeed. It succeeds iff exec resolves, no 'Conversion failed!' was logged and the file is read, returning (newName, data, sniffed MIME or video/mp4). Every other outcome is 'FFmpeg转换失败'. On every exit isWorked is cleared, the progress callback removed and newName deleted. |
| FFmpeg.FFmpeg.AddMediaFileMeta | src/core/FFmpeg.ts:141-151 | While busy: rejects with 'FFmpeg正在工作中' and leaves isWorked set and the listeners, executed and deleted lists unchanged. Otherwise: executes exactly MediaMetaCommands iff load and write succeed. It succeeds iff run's success conditions hold, returning (`<random>.<input extension>`, the data read, sniffed MIME or video/mp4); otherwise it fails with 'FFmpeg转换失败'. isWorked ends cleared, the listeners are as before, and `<random>.<input extension>` is deleted. |
| FFmpeg.FFmpeg.CustomTransformVideo | src/core/FFmpeg.ts:160-221 | While busy: rejects with 'FFmpeg正在工作中' and leaves isWorked set and the listeners, executed and deleted lists unchanged. Otherwise: executes exactly TransformArgs iff load and write succeed. It succeeds iff run's success conditions hold, returning (`<random>.<format or mp4>`, the data read, sniffed MIME or video/mp4); otherwise it fails with 'FFmpeg转换失败'. isWorked ends cleared, the listeners are as before, and `<random>.<format or mp4>` is deleted. |
| FFmpeg.FFmpeg.VideoFrame | src/core/FFmpeg.ts:229-249 | While busy: rejects with 'FFmpeg正在工作中' and leaves isWorked set and the listeners, executed and deleted lists unchanged. Otherwise: executes exactly FrameArgs iff load and write succeed. It succeeds iff run's success conditions hold, returning (output.jpg, the data read, sniffed MIME or video/mp4); otherwise it fails with 'FFmpeg转换失败'. isWorked ends cleared, the listeners are as before, and output.jpg is deleted. |
| VideoWatermark.Bounce | src/pages/VideoWatermark/VideoWatermark.tsx:22-29 | A velocity component is negated exactly when the moved caption sticks out past the far edge or past 0. |
| VideoWatermark.Move | src/pages/VideoWatermark/VideoWatermark.tsx:16-31 | The position moves by the velocity, unclamped. x's velocity flips iff x+320 > width or x < 0. y's flips iff y+80 > height or y < 0. |
| VideoWatermark.Iterate | src/pages/VideoWatermark/VideoWatermark.tsx:49-59 | The motion after k frames of `forEach`: k applications of the per-frame move. |
| VideoWatermark.MoveKeepsSpeeds | src/pages/VideoWatermark/VideoWatermark.tsx:22-29 | The speeds stay 16 and 10: a step changes only their signs. |
| VideoWatermark.IterateKeepsSpeeds | src/pages/VideoWatermark/VideoWatermark.tsx:49-59 | Over any number of frames the speeds keep their magnitudes. |
| VideoWatermark.AxisStep | src/pages/VideoWatermark/VideoWatermark.tsx:18-29 | On one axis, the bounce keeps the position within one step of the canvas. |
| VideoWatermark.IterateKeepsX | src/pages/VideoWatermark/VideoWatermark.tsx:49-59 | The horizontal band holds after any number of frames, whatever the height. |
| VideoWatermark.IterateKeepsY | src/pages/VideoWatermark/VideoWatermark.tsx:49-59 | The vertical band holds after any number of frames, whatever the width. |
| VideoWatermark.IterateInBounds | src/pages/VideoWatermark/VideoWatermark.tsx:49-59 | Both bands hold after any number of frames. |
| VideoWatermark.CaptionStaysNearCanvasX | src/pages/VideoWatermark/VideoWatermark.tsx:46-59 | From (0, 80), whatever the velocity signs left by earlier calls and on any canvas, x stays in [-16, max(width-320,0)+16]. |
| VideoWatermark.CaptionStaysNearCanvasY | src/pages/VideoWatermark/VideoWatermark.tsx:46-59 | From (0, 80), on a canvas at least 160 high, y stays in [-10, max(height-80,0)+10]. |
| VideoWatermark.LowCanvasLeavesBand | src/pages/VideoWatermark/VideoWatermark.tsx:46-59 | On a 100-high canvas, moving down from (0, 80), the first frame takes y to 90, past that band. |
| VideoWatermark.CanvasSide | src/pages/VideoWatermark/VideoWatermark.tsx:38-39 | The canvas side is the coded size, or 400 when the config or size is absent or 0. |
| VideoWatermark.DurationOf | src/pages/VideoWatermark/VideoWatermark.tsx:61 | `duration \|\| 0`. |
| VideoWatermark.Stamp | src/pages/VideoWatermark/VideoWatermark.tsx:50-63 | A watermarked frame is drawn from its source at the canvas size, with the caption at the current motion's position and the source's timestamp and `duration \|\| 0`. |
| VideoWatermark.Watermarker.constructor | src/pages/VideoWatermark/VideoWatermark.tsx:8-10 | The velocity starts at (16, 10). |
| VideoWatermark.Watermarker.Movements | src/pages/VideoWatermark/VideoWatermark.tsx:16-31 | Returns the moved position and leaves the module velocity as Move says. |
| VideoWatermark.Watermarker.AddWatermark | src/pages/VideoWatermark/VideoWatermark.tsx:33-68 | Without a 2D context: nothing, with the velocity unchanged. Otherwise: one frame per input, in order, with the input's timestamp and `duration \|\| 0`. Frame k's caption is at the motion from (0, 80) after k steps, the position before that frame's move. Every input is closed. The velocity carries on from the previous call. |
| CanvasExportVideo.FrameAt | src/pages/CanvasExportVideo/CanvasExportVideo.tsx:92-95 | Grab n is stamped n·1e6/30 µs and lasts 1e6/30 µs. |
| CanvasExportVideo.TimestampsIncrease | src/pages/CanvasExportVideo/CanvasExportVideo.tsx:92-97 | Timestamps strictly increase, exactly one frame apart per grab. |
| CanvasExportVideo.NeedsKeyFrame | src/pages/CanvasExportVideo/CanvasExportVideo.tsx:99 | A key frame is needed iff no key frame came before (-Infinity) or 500 ms have passed since the last one. |
| CanvasExportVideo.NextLastKeyFrame | src/pages/CanvasExportVideo/CanvasExportVideo.tsx:99-100 | lastKeyFrame becomes elapsed on a key frame and is unchanged otherwise. |
| CanvasExportVideo.LastKeyFrameAt | src/pages/CanvasExportVideo/CanvasExportVideo.tsx:99-100 | Reference definition of `lastKeyFrame` after the first n grabs, folding NextLastKeyFrame over the elapsed times; no contract of its own, FirstIsKey and LastKeyFrameNotBefore state its properties. |
| CanvasExportVideo.IsKey | src/pages/CanvasExportVideo/CanvasExportVideo.tsx:99-100 | Reference definition of whether grab j is encoded as a key frame: NeedsKeyFrame on the `lastKeyFrame` before it; no contract of its own, FirstIsKey and KeyFrameIff state its properties. |
| CanvasExportVideo.FirstIsKey | src/pages/CanvasExportVideo/CanvasExportVideo.tsx:84-100 | The first grab is always a key frame, since lastKeyFrame starts at -Infinity. |
| CanvasExportVideo.LastKeyFrameNotBefore | src/pages/CanvasExportVideo/CanvasExportVideo.tsx:99-100 | For non-decreasing times, after key frame i the remembered key time is never earlier than grab i's. |
| CanvasExportVideo.KeyFramesApart | src/pages/CanvasExportVideo/CanvasExportVideo.tsx:99-100 | For non-decreasing elapsed times, any two key frames are at least 500 ms apart. |
| CanvasExportVideo.KeyFrameIff | src/pages/CanvasExportVideo/CanvasExportVideo.tsx:99-100 | A grab is a key frame iff none came before or 500 ms have passed since the last one. Only key frames move lastKeyFrame. |
| CanvasExportVideo.Scheduler.constructor | src/pages/CanvasExportVideo/CanvasExportVideo.tsx:84-85 | lastKeyFrame is -Infinity and no frames have been generated. |
| CanvasExportVideo.Scheduler.EncodeVideoFrame | src/pages/CanvasExportVideo/CanvasExportVideo.tsx:88-104 | framesGenerated grows by one. The frame stamped from the old count is encoded with the key flag, then closed. |
| CanvasExportVideo.Record | src/pages/CanvasExportVideo/CanvasExportVideo.tsx:57-109 | The encoder is configured as avc1.64001F at the canvas size and 3 Mbit/s. Grab n is encoded as FrameAt(n), as a key frame iff IsKey, and closed right after. |
| CanvasExportVideo.RelativePos | src/pages/CanvasExportVideo/CanvasExportVideo.tsx:112-115 | The relative position is the client position minus the rect origin. |
| CanvasExportVideo.RelativePosRoundTrip | src/pages/CanvasExportVideo/CanvasExportVideo.tsx:112-115 | Adding the origin back gives the client position, so the mapping is one-to-one. |
| CanvasExportVideo.Sketch.constructor | src/pages/CanvasExportVideo/CanvasExportVideo.tsx:15 | lastPos starts at (0, 0), with nothing drawn. |
| CanvasExportVideo.Sketch.PointerDown | src/pages/CanvasExportVideo/CanvasExportVideo.tsx:141-158 | lastPos becomes the pointer's relative position. A dot is drawn there and one more move handler is registered. The strokes keep ending at lastPos. |
| CanvasExportVideo.Sketch.PointerMove | src/pages/CanvasExportVideo/CanvasExportVideo.tsx:146-150 | Each registered handler draws from lastPos to the new position and moves lastPos there. The first draws the stroke, starting where the latest stroke ended, and any others draw dots. With no handler, nothing changes. |
| CanvasExportVideo.Sketch.PointerUp | src/pages/CanvasExportVideo/CanvasExportVideo.tsx:151-154 | All move handlers are removed and the drawing is unchanged. |
| ChromaKey.HexValue | src/pages/ChromaKey/ChromaKey.tsx:26-28 | A hex digit of either case is worth 0..15. |
| ChromaKey.ParsePair | src/pages/ChromaKey/ChromaKey.tsx:26-28 | A two-digit parse is in 0..255. Its high and low nibbles are the digits' values. |
| ChromaKey.StripHash | src/pages/ChromaKey/ChromaKey.tsx:18 | Exactly one leading '#' is removed, when there is one. |
| ChromaKey.HexToRgb | src/pages/ChromaKey/ChromaKey.tsx:16-31 | null iff the stripped string's length is not 6. Otherwise the components are the base-16 values of characters [0,2), [2,4) and [4,6), each in 0..255. |
| ChromaKey.ColorKey | src/pages/ChromaKey/ChromaKey.tsx:52 | The key colour is the parse, or [0, 255, 0] when it is null. |
| ChromaKey.HashOptional | src/pages/ChromaKey/ChromaKey.tsx:18 | 'rrggbb' and '#rrggbb' parse the same. |
| ChromaKey.LowerHex | src/pages/ChromaKey/ChromaKey.tsx:26-28 | Lower-casing a digit keeps its value. |
| ChromaKey.LowerAll | src/pages/ChromaKey/ChromaKey.tsx:26-28 | Lower-casing a string of digits keeps each digit's value. |
| ChromaKey.CaseInsensitive | src/pages/ChromaKey/ChromaKey.tsx:26-28 | Upper- and lower-case digits, with or without '#', give the same colour. |
| ChromaKey.HexDigit | src/pages/ChromaKey/ChromaKey.tsx:26-28 | The lower-case digit of v parses back as v. |
| ChromaKey.RgbToHex | src/pages/ChromaKey/ChromaKey.tsx:16-31 | The `#rrggbb` text of a colour is '#' and six hex digits. |
| ChromaKey.RgbToHexRoundTrip | src/pages/ChromaKey/ChromaKey.tsx:16-31 | '#' plus the two-digit hex of r, g and b parses back to [r, g, b]. |
| ChromaKey.HexToRgbRoundTrip | src/pages/ChromaKey/ChromaKey.tsx:16-31 | A lower-case '#rrggbb' parses to a colour that formats back to the same text. |
| ChromaKey.VideoFrames | src/pages/ChromaKey/ChromaKey.tsx:66-84 | Reference definition of the video frames among the samples, in order; no contract of its own, EverySampleKept and KeyAll state its properties. |
| ChromaKey.AudioBlocks | src/pages/ChromaKey/ChromaKey.tsx:66-84 | Reference definition of the audio blocks among the samples, in order; no contract of its own, EverySampleKept and KeyAll state its properties. |
| ChromaKey.EverySampleKept | src/pages/ChromaKey/ChromaKey.tsx:66-84 | The video frames and the audio blocks together are exactly as many as the samples; their contents are stated by KeyAll. |
| ChromaKey.KeyingSession.constructor | src/pages/ChromaKey/ChromaKey.tsx:63-64 | Both lists start empty. |
| ChromaKey.KeyingSession.OnSamples | src/pages/ChromaKey/ChromaKey.tsx:66-84 | A video frame is redrawn keyed, with its timestamp and duration, and closed. Audio is pushed unchanged. |
| ChromaKey.Keyed | src/pages/ChromaKey/ChromaKey.tsx:73-77 | A keyed frame is drawn from its source with the key colour, and it keeps the source's timestamp and duration. |
| ChromaKey.KeyAll | src/pages/ChromaKey/ChromaKey.tsx:66-84 | Over a run: one keyed frame per decoded frame, in order, with its timestamp and duration. Every decoded frame is closed and the audio passes through in order. |
| SupportedCodec.GetConfigs | src/pages/SupportedCodec/SupportedCodec.tsx:32-62 | 5 × 2 = 10 configs, codec-major: config k has CODECS[k/2] and ACCELERATIONS[k%2]. Decode configs carry codedWidth/codedHeight and no framerate. Encode configs carry width/height and framerate 30 and no coded size. |
| SupportedCodec.EveryPairOnce | src/pages/SupportedCodec/SupportedCodec.tsx:34-38 | Each codec/acceleration pair is config 2i+j and appears nowhere else. |
| SupportedCodec.KeysDistinct | src/pages/SupportedCodec/SupportedCodec.tsx:70-72 | The texts of different indices differ. |
| SupportedCodec.SupportRows | src/pages/SupportedCodec/SupportedCodec.tsx:67-91 | Row i holds config i with its answer and key String(i). Keys are pairwise different and each reads back as its row's index. |
| SupportedCodec.AccelerationLabel | src/pages/SupportedCodec/SupportedCodec.tsx:130-135 | 'prefer-hardware' is labelled 硬解/硬编. Every other value is labelled 软解/软编. |
| SupportedCodec.HardwareLabelIff | src/pages/SupportedCodec/SupportedCodec.tsx:172-177 | The hardware label is shown iff the value is 'prefer-hardware'. |
| SupportedCodec.SizeState.constructor | src/pages/SupportedCodec/SupportedCodec.tsx:29-30 | The size starts at 720 × 1280. |
| SupportedCodec.SizeState.ChangeWidth | src/pages/SupportedCodec/SupportedCodec.tsx:93-97 | null is ignored. Otherwise the width is stored and the height is untouched. |
| SupportedCodec.SizeState.ChangeHeight | src/pages/SupportedCodec/SupportedCodec.tsx:98-102 | null is ignored. Otherwise the height is stored and the width is untouched. |
| SupportedCodec.SizeState.Configs | src/pages/SupportedCodec/SupportedCodec.tsx:67-68 | The configs asked about use the current width and height. |

## Left out

- The external libraries are not modelled. What the glue passes them and
  gets back is modelled as values and parameters. This covers:
  - mp4box parsing, whose `info` is a parameter;
  - the WebCodecs decoders and encoders, whose outputs are callbacks the
    model receives as method calls;
  - mp4-muxer;
  - the ffmpeg.wasm worker: `loadResource`, `checkLoaded`, `writeFile`,
    `exec`, `readFile`, `deleteFile`, progress events and `cancel`, whose
    outcomes arrive as a `RunEnvironment`;
  - `fileTypeFromBuffer`.
- `randomString` is not modelled; its result is a parameter. The same goes
  for `document.timeline` times (elapsed times are a parameter),
  `getBoundingClientRect` and `isConfigSupported` (its answers are
  parameters).
- Canvas drawing, WebGL keying (`src/pages/ChromaKey/WebGl.ts`), MediaInfo,
  `fileToBase64Url`, the React UI, `setInterval` timing and MediaSource
  appending are not modelled. A redrawn frame is modelled by what it is
  drawn from and with.
- The ffmpeg `run` wrapper is modelled as one atomic call. A second `run`
  that starts while `exec` of the first is still in progress, after a
  'Conversion failed!' log has already cleared `isWorked`, is not modelled.
- Codecs.Parse: a chunk is taken to be its whole underlying buffer.
  `value.buffer` of a view into a larger buffer is not modelled.
- Codecs.ParseVideoCodecDesc: config boxes of 2^32 − 8 bytes or more (the
  64-bit `largesize` header) are not modelled; this is the `WellSized`
  requirement.
- Codecs.DecodeSession.OnReady: the source parses the description twice,
  once for `config` and once for `configure`. The model parses it once,
  since the parse is deterministic. A track id that is not a number is not
  modelled.
- Codecs.EncoderHandle: the audio encoder is never flushed, as in the
  source. Encoding audio on an encoder never configured (no audio config)
  raises an error in the browser; the model records the calls only.
- Codecs.Micros: a timescale of 0, for which the source's division gives
  Infinity or NaN and the chunk constructor throws, is excluded by the
  `Timescale` type; mp4box reports positive timescales.
- Codecs.Micros: microsecond timestamps are exact reals. JavaScript's
  floating-point rounding and WebCodecs' conversion of timestamps to
  integers are not modelled.
- FFmpeg.TransformCommands: numeric options (time range, crop, scale, fps,
  bitrate) are integers. JavaScript's formatting of fractions and of
  numbers of 10^21 or more is not modelled.
- VideoWatermark.CanvasSide: the canvas's unsigned-integer conversion of a
  negative coded size is not modelled.
- ChromaKey.HexToRgb: `parseInt`'s NaN and prefix behaviour on non-hex
  characters is not modelled. Six remaining characters must be hex digits;
  the colour input always supplies them. Lengths count characters, not
  UTF-16 code units: a string of astral-plane characters such as
  `#😀😀😀` is 6 long in the source (giving `[NaN, NaN, NaN]`) but 3
  long here (giving none); the colour input never produces one.
- CanvasExportVideo.Record: the muxer's options and its stream target are
  not modelled.
- `src/pages/ChromaKey/ChromaKey.tsx:86` and the `./Codecs` import of
  `src/pages/VideoWatermark/VideoWatermark.tsx:4` refer to code that does
  not fit or is not present. The pages' calls into `decoderHandle` and
  `encoderHandle` are therefore modelled per stage only.

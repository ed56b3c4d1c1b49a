/** The ffmpeg.wasm front end: the argument lists built for its three
    operations, and the `run` wrapper that guards the single wasm worker
    with the `isWorked` flag.

    Loading the wasm core, the worker's file system, `exec` itself, the
    progress events and MIME sniffing are outside the model: what they do
    during one run arrives as a `RunEnvironment`. */
module FFmpeg {
  import opened Wrappers
  import opened Media
  import opened Decimal

  const BUSY_MESSAGE: string := "FFmpeg正在工作中"
  const INTERRUPTED_MESSAGE: string := "FFmpeg意外中断"
  const FAILED_MESSAGE: string := "FFmpeg转换失败"
  /** The id of the console-logging progress listener the constructor registers. */
  const CONSOLE_PROGRESS: nat := 0
  /** The log line ffmpeg prints when a conversion aborts. */
  const CONVERSION_FAILED_LOG: string := "Conversion failed!"
  const DEFAULT_MIME: string := "video/mp4"
  const DEFAULT_FORMAT: string := "mp4"
  const DEFAULT_FRAME_TIME: string := "00:00:01"
  const FRAME_FILE: string := "output.jpg"
  const FRAME_SCALE: string := "scale=100:-1"

  // ---------------------------------------------------------------------
  // Strings: `split` and `join` on one separator character
  // ---------------------------------------------------------------------

  /** `parts.join(sep)`. */
  function Join(parts: seq<string>, sep: char): string {
    if parts == [] then ""
    else if |parts| == 1 then parts[0]
    else parts[0] + [sep] + Join(parts[1..], sep)
  }

  /** `s.split(sep)`: always at least one part, none containing `sep`. */
  function Split(s: string, sep: char): (r: seq<string>)
    ensures |r| >= 1
    ensures forall i | 0 <= i < |r| :: sep !in r[i]
  {
    if s == [] then [""]
    else
      var rest := Split(s[1..], sep);
      if s[0] == sep then [""] + rest
      else
        assert sep !in [s[0]] + rest[0];
        [[s[0]] + rest[0]] + rest[1..]
  }

  lemma {:induction false} SplitAfterPart(p: string, sep: char, tail: string)
    requires sep !in p
    ensures Split(p + tail, sep) == if tail == [] then [p] else
              var r := Split(tail, sep); [p + r[0]] + r[1..]
  {
    if p == [] {
      assert p + tail == tail;
      if tail != [] {
        var r := Split(tail, sep);
        assert p + r[0] == r[0];
        assert [p + r[0]] + r[1..] == r;
      }
    } else {
      var whole := p + tail;
      assert whole[0] == p[0] && whole[0] != sep;
      assert whole[1..] == p[1..] + tail;
      SplitAfterPart(p[1..], sep, tail);
      var rest := Split(whole[1..], sep);
      assert Split(whole, sep) == [[p[0]] + rest[0]] + rest[1..];
      if tail == [] {
        assert rest == [p[1..]];
        assert [p[0]] + p[1..] == p;
      } else {
        var r := Split(tail, sep);
        assert rest == [p[1..] + r[0]] + r[1..];
        assert [p[0]] + (p[1..] + r[0]) == p + r[0];
      }
    }
  }

  /** Splitting a join gives the parts back when no part holds the separator. */
  lemma {:induction false} SplitJoin(parts: seq<string>, sep: char)
    requires |parts| >= 1
    requires forall i | 0 <= i < |parts| :: sep !in parts[i]
    ensures Split(Join(parts, sep), sep) == parts
  {
    if |parts| == 1 {
      SplitAfterPart(parts[0], sep, []);
      assert parts[0] + [] == parts[0];
    } else {
      var tail := [sep] + Join(parts[1..], sep);
      assert Join(parts, sep) == parts[0] + tail;
      SplitAfterPart(parts[0], sep, tail);
      SplitJoin(parts[1..], sep);
      var r := Split(tail, sep);
      assert r == [""] + parts[1..] by {
        assert tail[1..] == Join(parts[1..], sep);
      }
      assert parts[0] + r[0] == parts[0];
      assert r[1..] == parts[1..];
      assert parts == [parts[0]] + parts[1..];
    }
  }

  /** `name.split('.').pop() || ''`: the text after the last '.', or the
      whole name when it has none. */
  function Extension(name: string): (ext: string)
    ensures |ext| <= |name| && ext == name[|name| - |ext|..]
    ensures '.' !in ext
    ensures '.' in name ==> name[|name| - |ext| - 1] == '.'
    ensures '.' !in name ==> ext == name
  {
    if name == [] then ""
    else if name[|name| - 1] == '.' then ""
    else
      var init := name[..|name| - 1];
      var e := Extension(init);
      assert name == init + [name[|name| - 1]];
      assert '.' in name ==> '.' in init;
      e + [name[|name| - 1]]
  }

  // ---------------------------------------------------------------------
  // Argument lists
  // ---------------------------------------------------------------------

  /** `addMediaFileMeta`: copy every stream into a file with a random name
      and the input's extension. */
  function MediaMetaCommands(inputName: string, random: string): (r: (seq<string>, string))
    ensures r.1 == random + "." + Extension(inputName)
    ensures r.0 == ["-i", inputName, "-c", "copy", "-map", "0", r.1]
  {
    var newName := random + "." + Extension(inputName);
    (["-i", inputName, "-c", "copy", "-map", "0", newName], newName)
  }

  /** The extension of a name that ends in '.' and a dot-free `ext` is `ext`. */
  lemma {:induction false} ExtensionAfterDot(stem: string, ext: string)
    requires '.' !in ext
    ensures Extension(stem + "." + ext) == ext
  {
    var name := stem + "." + ext;
    if ext == [] {
      assert name[|name| - 1] == '.';
    } else {
      var init := ext[..|ext| - 1];
      assert name[..|name| - 1] == stem + "." + init;
      assert name[|name| - 1] == ext[|ext| - 1];
      ExtensionAfterDot(stem, init);
      assert init + [ext[|ext| - 1]] == ext;
    }
  }

  /** The last part of a split is a suffix free of the separator, and it
      is either the whole string or comes right after a separator. */
  lemma {:induction false} SplitLast(s: string, sep: char)
    ensures var r := Split(s, sep); var l := r[|r| - 1];
      && |l| <= |s| && l == s[|s| - |l|..]
      && (|l| < |s| ==> s[|s| - |l| - 1] == sep)
      && (|r| == 1 ==> l == s) && (|r| > 1 ==> |l| < |s|)
  {
    if s != [] {
      SplitLast(s[1..], sep);
      var rest := Split(s[1..], sep);
      var l := rest[|rest| - 1];
      assert s[1..][|s[1..]| - |l|..] == s[|s| - |l|..];
      if |l| < |s[1..]| {
        assert s[|s| - |l| - 1] == s[1..][|s[1..]| - |l| - 1];
      }
      var r := Split(s, sep);
      if s[0] == sep {
        assert r == [""] + rest && r[|r| - 1] == l;
      } else if |rest| > 1 {
        assert r == [[s[0]] + rest[0]] + rest[1..] && r[|r| - 1] == l;
      } else {
        assert r == [[s[0]] + s[1..]];
        assert [s[0]] + s[1..] == s;
      }
    }
  }

  /** `Extension` is the source's own formulation: the last part of the
      name split on '.'. */
  lemma ExtensionIsLastPart(name: string)
    ensures var r := Split(name, '.'); Extension(name) == r[|r| - 1]
  {
    SplitLast(name, '.');
    var r := Split(name, '.');
    var e1, e2 := Extension(name), r[|r| - 1];
    assert '.' !in e2;
  }

  /** The copy keeps the input's extension. */
  lemma MediaMetaKeepsExtension(inputName: string, random: string)
    ensures Extension(MediaMetaCommands(inputName, random).1) == Extension(inputName)
  {
    ExtensionAfterDot(random, Extension(inputName));
  }

  datatype Crop = Crop(x: int, y: int, width: int, height: int)
  datatype Scale = Scale(iw: int, ih: int)
  datatype TimeRange = TimeRange(start: int, end: int)

  /** `CustomTransformVideoOptions`: every field optional. */
  datatype TransformOptions = TransformOptions(
    format: Option<string>,
    crop: Option<Crop>,
    fps: Option<int>,
    timeRange: Option<TimeRange>,
    scale: Option<Scale>,
    flipH: Option<bool>,
    bitrate: Option<int>,
    copy: Option<bool>)

  /** JavaScript truthiness of an optional number: present and not 0. */
  predicate NumberSet(n: Option<int>) {
    n.Some? && n.value != 0
  }

  /** JavaScript truthiness of an optional flag. */
  predicate FlagSet(b: Option<bool>) {
    b == Some(true)
  }

  predicate HasFilter(o: TransformOptions) {
    o.crop.Some? || FlagSet(o.flipH) || o.scale.Some?
  }

  /** `format || 'mp4'`. */
  function FormatOf(format: Option<string>): (f: string)
    ensures f != []
  {
    if format.Some? && format.value != "" then format.value else DEFAULT_FORMAT
  }

  lemma NoCommaInNumber(n: int)
    ensures ',' !in IntToString(n)
  {
  }

  function ScaleFilter(s: Scale): (f: string)
    ensures ',' !in f
  {
    NoCommaInNumber(s.iw);
    NoCommaInNumber(s.ih);
    "scale=iw*" + IntToString(s.iw) + ":ih*" + IntToString(s.ih)
  }

  function CropFilter(c: Crop): (f: string)
    ensures ',' !in f
  {
    NoCommaInNumber(c.width);
    NoCommaInNumber(c.height);
    NoCommaInNumber(c.x);
    NoCommaInNumber(c.y);
    "crop=" + IntToString(c.width) + ":" + IntToString(c.height) + ":"
      + IntToString(c.x) + ":" + IntToString(c.y)
  }

  /** The video filters in the order they are applied: scale, crop, hflip. */
  function Filters(o: TransformOptions): (r: seq<string>)
    ensures |r| >= 1 <==> HasFilter(o)
    ensures forall i | 0 <= i < |r| :: ',' !in r[i]
  {
    (if o.scale.Some? then [ScaleFilter(o.scale.value)] else [])
      + (if o.crop.Some? then [CropFilter(o.crop.value)] else [])
      + (if FlagSet(o.flipH) then ["hflip"] else [])
  }

  /** The filter argument splits back into the filters, in order. */
  lemma FilterArgumentSplits(o: TransformOptions)
    requires HasFilter(o)
    ensures Split(Join(Filters(o), ','), ',') == Filters(o)
  {
    SplitJoin(Filters(o), ',');
  }

  /** Where each optional group of `customTransformVideo`'s arguments
      starts: after the input (and the time range), the filter, the frame
      rate, the video copy flag, the audio copy pair, the bitrate. */
  function FilterAt(o: TransformOptions): nat {
    if o.timeRange.Some? then 6 else 2
  }

  function RateAt(o: TransformOptions): nat {
    FilterAt(o) + (if HasFilter(o) then 2 else 0)
  }

  function VideoCopyAt(o: TransformOptions): nat {
    RateAt(o) + (if NumberSet(o.fps) then 2 else 0)
  }

  function AudioCopyAt(o: TransformOptions): nat {
    VideoCopyAt(o) + (if FlagSet(o.copy) then 2 else 0)
  }

  function BitrateAt(o: TransformOptions): nat {
    AudioCopyAt(o) + 2
  }

  /** The argument groups of `customTransformVideo`, each present only
      when its option is set (the audio copy pair always is). */
  function TimeArgs(o: TransformOptions, inputName: string): seq<string> {
    if o.timeRange.Some? then
      ["-ss", IntToString(o.timeRange.value.start), "-i", inputName,
       "-t", IntToString(o.timeRange.value.end - o.timeRange.value.start)]
    else ["-i", inputName]
  }

  function FilterArgs(o: TransformOptions): seq<string> {
    if HasFilter(o) then ["-vf", Join(Filters(o), ',')] else []
  }

  function RateArgs(o: TransformOptions): seq<string> {
    if NumberSet(o.fps) then ["-r", IntToString(o.fps.value)] else []
  }

  function VideoCopyArgs(o: TransformOptions): seq<string> {
    if FlagSet(o.copy) then ["-c:v", "copy"] else []
  }

  function BitrateArgs(o: TransformOptions): seq<string> {
    if NumberSet(o.bitrate) then ["-b:v", IntToString(o.bitrate.value) + "k"] else []
  }

  function OutputName(o: TransformOptions, random: string): (name: string)
    ensures '.' in name
  {
    var name := random + "." + FormatOf(o.format);
    assert name[|random|] == '.';
    name
  }

  /** The whole argument list of `customTransformVideo`. */
  function TransformArgs(o: TransformOptions, inputName: string, random: string): seq<string> {
    TimeArgs(o, inputName) + FilterArgs(o) + RateArgs(o) + VideoCopyArgs(o)
      + ["-c:a", "copy"] + BitrateArgs(o) + [OutputName(o, random)]
  }

  /** The front of `customTransformVideo`'s argument list: the time range,
      when given, wraps the input as `-ss start -i input -t length`;
      otherwise the list opens with `-i input`. Its length counts two
      arguments for `-i input`, four more for a time range, two per other
      set option, plus the audio copy pair and the output. */
  lemma TransformArgsFront(o: TransformOptions, inputName: string, random: string)
    ensures var args := TransformArgs(o, inputName, random);
      && |args| == BitrateAt(o) + (if NumberSet(o.bitrate) then 2 else 0) + 1
      && (args[0] == "-ss" <==> o.timeRange.Some?)
      && (o.timeRange.Some? ==>
            args[..6] == ["-ss", IntToString(o.timeRange.value.start), "-i", inputName,
                          "-t", IntToString(o.timeRange.value.end - o.timeRange.value.start)])
      && (o.timeRange.None? ==> args[..2] == ["-i", inputName])
  {
    var t, f, r, v := TimeArgs(o, inputName), FilterArgs(o), RateArgs(o), VideoCopyArgs(o);
    var b, out := BitrateArgs(o), OutputName(o, random);
    var args := TransformArgs(o, inputName, random);
    assert args == t + f + r + v + ["-c:a", "copy"] + b + [out];
    SegmentSuffixes(t, f, r, v, ["-c:a", "copy"], b, out);
    assert args[0] == t[0];
  }

  /** The optional video arguments: the filter, frame rate and video copy
      pairs appear exactly when their options are set (0 counting as
      unset), in that order, right after the input. */
  lemma TransformArgsVideo(o: TransformOptions, inputName: string, random: string)
    ensures var args := TransformArgs(o, inputName, random);
      && BitrateAt(o) < |args|
      && (args[FilterAt(o)] == "-vf" <==> HasFilter(o))
      && (HasFilter(o) ==> args[FilterAt(o) + 1] == Join(Filters(o), ','))
      && (args[RateAt(o)] == "-r" <==> NumberSet(o.fps))
      && (NumberSet(o.fps) ==> args[RateAt(o) + 1] == IntToString(o.fps.value))
      && (args[VideoCopyAt(o)] == "-c:v" <==> FlagSet(o.copy))
      && (FlagSet(o.copy) ==> args[VideoCopyAt(o) + 1] == "copy")
  {
    var t, f, r, v := TimeArgs(o, inputName), FilterArgs(o), RateArgs(o), VideoCopyArgs(o);
    var b, out := BitrateArgs(o), OutputName(o, random);
    var args := TransformArgs(o, inputName, random);
    assert args == t + f + r + v + ["-c:a", "copy"] + b + [out];
    SegmentSuffixes(t, f, r, v, ["-c:a", "copy"], b, out);
    assert |t| == FilterAt(o) && |t| + |f| == RateAt(o) && |t| + |f| + |r| == VideoCopyAt(o);
    assert |t| + |f| + |r| + |v| == AudioCopyAt(o);
  }

  /** The end of the list: the audio copy pair always, then the bitrate
      pair exactly when a non-zero bitrate is set, then the output name. */
  lemma TransformArgsTail(o: TransformOptions, inputName: string, random: string)
    ensures var args := TransformArgs(o, inputName, random);
      && BitrateAt(o) < |args|
      && args[AudioCopyAt(o)..BitrateAt(o)] == ["-c:a", "copy"]
      && (args[BitrateAt(o)] == "-b:v" <==> NumberSet(o.bitrate))
      && (NumberSet(o.bitrate) ==> args[BitrateAt(o) + 1] == IntToString(o.bitrate.value) + "k")
      && args[|args| - 1] == OutputName(o, random)
  {
    var t, f, r, v := TimeArgs(o, inputName), FilterArgs(o), RateArgs(o), VideoCopyArgs(o);
    var b, out := BitrateArgs(o), OutputName(o, random);
    var args := TransformArgs(o, inputName, random);
    var front := t + f + r + v;
    assert args == front + ["-c:a", "copy"] + b + [out];
    assert |front| == AudioCopyAt(o);
    TailSegments(front, b, out);
    var tail := b + [out];
    if NumberSet(o.bitrate) {
      assert tail[0] == "-b:v";
    } else {
      assert tail[0] == out;
      assert '.' !in "-b:v";
    }
  }

  /** The segments after a front part of a list ending in the audio copy
      pair, the bitrate arguments and the output name. */
  lemma TailSegments(front: seq<string>, b: seq<string>, out: string)
    ensures var args := front + ["-c:a", "copy"] + b + [out];
      && |args| == |front| + 2 + |b| + 1
      && args[|front|..|front| + 2] == ["-c:a", "copy"]
      && args[|front| + 2..] == b + [out]
      && args[|args| - 1] == out
  {
    var args := front + ["-c:a", "copy"] + b + [out];
    assert args == front + (["-c:a", "copy"] + (b + [out]));
  }

  /** Where each segment of a concatenation starts. */
  lemma SegmentSuffixes(t: seq<string>, f: seq<string>, r: seq<string>, v: seq<string>,
                        a: seq<string>, b: seq<string>, out: string)
    ensures var args := t + f + r + v + a + b + [out];
      && args[..|t|] == t
      && args[|t|..] == f + (r + (v + (a + (b + [out]))))
      && args[|t| + |f|..] == r + (v + (a + (b + [out])))
      && args[|t| + |f| + |r|..] == v + (a + (b + [out]))
      && args[|t| + |f| + |r| + |v|..] == a + (b + [out])
      && args[|t| + |f| + |r| + |v| + |a|..] == b + [out]
  {
    var args := t + f + r + v + a + b + [out];
    assert args == t + (f + (r + (v + (a + (b + [out])))));
  }

  /** `customTransformVideo`'s argument list, built push by push. */
  method TransformCommands(inputName: string, o: TransformOptions, random: string)
    returns (commands: seq<string>, outputName: string)
    ensures outputName == random + "." + FormatOf(o.format)
    ensures commands == TransformArgs(o, inputName, random)
  {
    commands := [];
    if o.timeRange.Some? {
      commands := commands + ["-ss", IntToString(o.timeRange.value.start)];
    }
    commands := commands + ["-i", inputName];
    if o.timeRange.Some? {
      commands := commands + ["-t", IntToString(o.timeRange.value.end - o.timeRange.value.start)];
    }
    assert commands == TimeArgs(o, inputName);
    if o.crop.Some? || FlagSet(o.flipH) || o.scale.Some? {
      commands := commands + ["-vf"];
      var cmds: seq<string> := [];
      if o.scale.Some? {
        cmds := cmds + [ScaleFilter(o.scale.value)];
      }
      if o.crop.Some? {
        cmds := cmds + [CropFilter(o.crop.value)];
      }
      if FlagSet(o.flipH) {
        cmds := cmds + ["hflip"];
      }
      assert cmds == Filters(o);
      commands := commands + [Join(cmds, ',')];
    }
    ghost var upToFilter := TimeArgs(o, inputName) + FilterArgs(o);
    assert commands == upToFilter;
    if NumberSet(o.fps) {
      commands := commands + ["-r", IntToString(o.fps.value)];
    }
    ghost var upToRate := upToFilter + RateArgs(o);
    assert commands == upToRate;
    if FlagSet(o.copy) {
      commands := commands + ["-c:v", "copy"];
    }
    ghost var upToCopy := upToRate + VideoCopyArgs(o);
    assert commands == upToCopy;
    commands := commands + ["-c:a", "copy"];
    if NumberSet(o.bitrate) {
      commands := commands + ["-b:v", IntToString(o.bitrate.value) + "k"];
    }
    assert commands == upToCopy + ["-c:a", "copy"] + BitrateArgs(o);
    outputName := random + "." + FormatOf(o.format);
    assert outputName == OutputName(o, random);
    commands := commands + [outputName];
  }

  /** `VideoFrameOptions`. */
  datatype FrameOptions = FrameOptions(flipH: Option<bool>, time: Option<string>)

  /** The time `videoFrame` grabs at: `time`, one second in by default. */
  function FrameTime(options: Option<FrameOptions>): (time: string)
    ensures options.Some? && options.value.time.Some? ==> time == options.value.time.value
    ensures !(options.Some? && options.value.time.Some?) ==> time == DEFAULT_FRAME_TIME
  {
    if options.Some? && options.value.time.Some? then options.value.time.value else DEFAULT_FRAME_TIME
  }

  /** The filters of the frame grab: scaled to 100 pixels wide, then
      mirrored when `flipH` is set. */
  function FrameFilters(options: Option<FrameOptions>): seq<string> {
    [FRAME_SCALE] + (if options.Some? && FlagSet(options.value.flipH) then ["hflip"] else [])
  }

  lemma FrameFilterSplits(options: Option<FrameOptions>)
    ensures Split(Join(FrameFilters(options), ','), ',') == FrameFilters(options)
    ensures |FrameFilters(options)| == (if options.Some? && FlagSet(options.value.flipH) then 2 else 1)
  {
    var filters := FrameFilters(options);
    assert ',' !in FRAME_SCALE && ',' !in "hflip";
    assert forall i | 0 <= i < |filters| :: filters[i] == FRAME_SCALE || filters[i] == "hflip";
    SplitJoin(filters, ',');
  }

  /** `videoFrame`'s argument list: one frame at the requested time from
      `inputName`, through the frame filters, into output.jpg. The `-vf`
      argument splits back into exactly those filters. */
  function FrameArgs(inputName: string, options: Option<FrameOptions>): (args: seq<string>)
    ensures |args| == 9
    ensures args[..4] == ["-i", inputName, "-ss", FrameTime(options)]
    ensures args[4] == "-vf"
    ensures Split(args[5], ',') == FrameFilters(options)
    ensures (options.Some? && FlagSet(options.value.flipH)) <==> |Split(args[5], ',')| == 2
    ensures args[6..] == ["-frames:v", "1", FRAME_FILE]
  {
    var filters := FrameFilters(options);
    FrameFilterSplits(options);
    var args := ["-i", inputName, "-ss", FrameTime(options), "-vf", Join(filters, ','),
                 "-frames:v", "1", FRAME_FILE];
    assert args[6..] == ["-frames:v", "1", FRAME_FILE];
    args
  }

  /** `videoFrame`'s construction of the argument list, push by push. */
  method FrameCommands(inputName: string, options: Option<FrameOptions>)
    returns (commands: seq<string>, newName: string)
    ensures newName == FRAME_FILE
    ensures commands == FrameArgs(inputName, options)
  {
    var time := DEFAULT_FRAME_TIME;
    var flipH := None;
    if options.Some? {
      flipH := options.value.flipH;
      if options.value.time.Some? {
        time := options.value.time.value;
      }
    }
    newName := FRAME_FILE;
    commands := ["-i", inputName, "-ss", time];
    var scaleCmd := FRAME_SCALE;
    if FlagSet(flipH) {
      scaleCmd := scaleCmd + ",hflip";
      assert FrameFilters(options) == [FRAME_SCALE, "hflip"];
      assert [FRAME_SCALE, "hflip"][1..] == ["hflip"];
    } else {
      assert FrameFilters(options) == [FRAME_SCALE];
    }
    assert scaleCmd == Join(FrameFilters(options), ',');
    assert time == FrameTime(options);
    commands := commands + ["-vf", scaleCmd, "-frames:v", "1", newName];
    assert commands == ["-i", inputName, "-ss", time, "-vf", scaleCmd, "-frames:v", "1", FRAME_FILE];
  }

  // ---------------------------------------------------------------------
  // The run wrapper
  // ---------------------------------------------------------------------

  datatype InputFile = InputFile(name: string, data: seq<byte>)
  datatype OutputFile = OutputFile(name: string, data: seq<byte>, mime: string)

  /** What the wasm side does during one run. */
  datatype RunEnvironment = RunEnvironment(
    /** `checkLoaded` (loading the core when needed) resolves. */
    loaded: bool,
    /** `writeFile` of the input resolves. */
    written: bool,
    /** The log messages ffmpeg emits while `exec` runs, in order. */
    execLogs: seq<string>,
    /** `exec` resolves (rather than rejects). */
    execResolved: bool,
    /** What `readFile(newName)` resolves to; `None` when it rejects. */
    output: Option<seq<byte>>,
    /** `fileTypeFromBuffer(data)?.mime`. */
    sniffedMime: Option<string>)

  /** The conditions under which a started run returns a file. */
  predicate ConversionSucceeds(env: RunEnvironment) {
    && env.loaded && env.written && env.execResolved
    && CONVERSION_FAILED_LOG !in env.execLogs
    && env.output.Some?
  }

  /** `res?.mime || 'video/mp4'`. */
  function MimeOf(sniffed: Option<string>): string {
    if sniffed.Some? && sniffed.value != "" then sniffed.value else DEFAULT_MIME
  }

  class FFmpeg {
    var isWorked: bool
    /** The progress callbacks registered on the wasm instance, by id. */
    var progressListeners: multiset<nat>
    /** The argument lists passed to `exec`, in order. */
    var executed: seq<seq<string>>
    /** The names passed to `deleteFile`, in order. */
    var deletedFiles: seq<string>

    constructor ()
      ensures !isWorked && progressListeners == multiset{CONSOLE_PROGRESS} && executed == [] && deletedFiles == []
    {
      isWorked := false;
      progressListeners := multiset{CONSOLE_PROGRESS};
      executed := [];
      deletedFiles := [];
    }

    /** The log listener: the conversion-failed line clears `isWorked`. */
    method OnLog(message: string)
      modifies this`isWorked
      ensures isWorked == (old(isWorked) && message != CONVERSION_FAILED_LOG)
    {
      if message == CONVERSION_FAILED_LOG {
        isWorked := false;
      }
    }

    /** The log listener receiving, in order, the messages one `exec` prints. */
    method DeliverLogs(messages: seq<string>)
      modifies this`isWorked
      ensures isWorked == (old(isWorked) && CONVERSION_FAILED_LOG !in messages)
    {
      var i := 0;
      while i < |messages|
        invariant 0 <= i <= |messages|
        invariant isWorked == (old(isWorked) && CONVERSION_FAILED_LOG !in messages[..i])
      {
        OnLog(messages[i]);
        assert messages[..i + 1] == messages[..i] + [messages[i]];
        i := i + 1;
      }
      assert messages[..i] == messages;
    }

    /** `run`: rejected without any effect while a run is in progress;
        otherwise `isWorked` is held for the run and cleared on every exit,
        the output file is deleted on every exit, the progress callback is
        removed again, and every failure, the interruption error
        INTERRUPTED_MESSAGE included, is reported as the one
        conversion-failed error FAILED_MESSAGE. */
    method Run(commands: seq<string>, newName: string, inputFile: InputFile,
               progress: Option<nat>, env: RunEnvironment)
      returns (r: Result<OutputFile, string>)
      modifies this
      ensures old(isWorked) ==>
                && r == Failure(BUSY_MESSAGE)
                && isWorked && progressListeners == old(progressListeners)
                && executed == old(executed) && deletedFiles == old(deletedFiles)
      ensures !old(isWorked) ==>
                && !isWorked
                && progressListeners == old(progressListeners)
                && deletedFiles == old(deletedFiles) + [newName]
                && executed == old(executed) + (if env.loaded && env.written then [commands] else [])
                && (r.Success? <==> ConversionSucceeds(env))
                && (r.Success? ==> r.value == OutputFile(newName, env.output.value, MimeOf(env.sniffedMime)))
                && (r.Failure? ==> r.error == FAILED_MESSAGE)
    {
      if isWorked {
        return Failure(BUSY_MESSAGE);
      }
      if progress.Some? {
        progressListeners := progressListeners + multiset{progress.value};
      }
      isWorked := true;
      // The try block: every exception ends in the catch.
      var ok := env.loaded && env.written;
      if ok {
        executed := executed + [commands];
        DeliverLogs(env.execLogs);
        // exec rejected; interrupted (INTERRUPTED_MESSAGE); readFile rejected.
        ok := env.execResolved && isWorked && env.output.Some?;
      }
      if ok {
        r := Success(OutputFile(newName, env.output.value, MimeOf(env.sniffedMime)));
      } else {
        r := Failure(FAILED_MESSAGE);
      }
      // The finally block.
      isWorked := false;
      if progress.Some? {
        progressListeners := progressListeners - multiset{progress.value};
      }
      deletedFiles := deletedFiles + [newName];
    }

    /** `addMediaFileMeta`: runs the stream-copy command. */
    method AddMediaFileMeta(inputFile: InputFile, progress: Option<nat>, random: string, env: RunEnvironment)
      returns (r: Result<OutputFile, string>)
      modifies this
      ensures old(isWorked) ==>
                && r == Failure(BUSY_MESSAGE)
                && isWorked && progressListeners == old(progressListeners)
                && executed == old(executed) && deletedFiles == old(deletedFiles)
      ensures !old(isWorked) ==>
                && !isWorked
                && progressListeners == old(progressListeners)
                && deletedFiles == old(deletedFiles) + [MediaMetaCommands(inputFile.name, random).1]
                && executed == old(executed) + (if env.loaded && env.written then [MediaMetaCommands(inputFile.name, random).0] else [])
                && (r.Success? <==> ConversionSucceeds(env))
                && (r.Success? ==> r.value == OutputFile(MediaMetaCommands(inputFile.name, random).1, env.output.value, MimeOf(env.sniffedMime)))
                && (r.Failure? ==> r.error == FAILED_MESSAGE)
    {
      var (commands, newName) := MediaMetaCommands(inputFile.name, random);
      r := Run(commands, newName, inputFile, progress, env);
    }

    /** `customTransformVideo`: runs the argument list the options give. */
    method CustomTransformVideo(inputFile: InputFile, o: TransformOptions, progress: Option<nat>,
                                random: string, env: RunEnvironment)
      returns (r: Result<OutputFile, string>)
      modifies this
      ensures old(isWorked) ==>
                && r == Failure(BUSY_MESSAGE)
                && isWorked && progressListeners == old(progressListeners)
                && executed == old(executed) && deletedFiles == old(deletedFiles)
      ensures !old(isWorked) ==>
                && !isWorked
                && progressListeners == old(progressListeners)
                && deletedFiles == old(deletedFiles) + [random + "." + FormatOf(o.format)]
                && executed == old(executed) + (if env.loaded && env.written then [TransformArgs(o, inputFile.name, random)] else [])
                && (r.Success? <==> ConversionSucceeds(env))
                && (r.Success? ==> r.value == OutputFile(random + "." + FormatOf(o.format), env.output.value, MimeOf(env.sniffedMime)))
                && (r.Failure? ==> r.error == FAILED_MESSAGE)
    {
      var commands, outputName := TransformCommands(inputFile.name, o, random);
      r := Run(commands, outputName, inputFile, progress, env);
    }

    /** `videoFrame`: runs the frame-grab command; the JPEG file comes back
        (turning it into a data URL is not modelled). */
    method VideoFrame(inputFile: InputFile, options: Option<FrameOptions>, env: RunEnvironment)
      returns (r: Result<OutputFile, string>)
      modifies this
      ensures old(isWorked) ==>
                && r == Failure(BUSY_MESSAGE)
                && isWorked && progressListeners == old(progressListeners)
                && executed == old(executed) && deletedFiles == old(deletedFiles)
      ensures !old(isWorked) ==>
                && !isWorked
                && progressListeners == old(progressListeners)
                && deletedFiles == old(deletedFiles) + [FRAME_FILE]
                && executed == old(executed) + (if env.loaded && env.written then [FrameArgs(inputFile.name, options)] else [])
                && (r.Success? <==> ConversionSucceeds(env))
                && (r.Success? ==> r.value == OutputFile(FRAME_FILE, env.output.value, MimeOf(env.sniffedMime)))
                && (r.Failure? ==> r.error == FAILED_MESSAGE)
    {
      var commands, newName := FrameCommands(inputFile.name, options);
      r := Run(commands, newName, inputFile, None, env);
    }
  }
}

/** Recording a drawing canvas: a timer grabs the canvas thirty times a
    second and hands each grab to an H.264 encoder, asking for a key frame
    whenever half a second has passed since the last one; pointer handlers
    draw line segments that follow the pointer. */
module CanvasExportVideo {
  import opened Wrappers

  /** Frames per second of the recording. */
  const FRAME_RATE: int := 30
  /** The least time, in milliseconds, between two requested key frames. */
  const KEY_FRAME_INTERVAL: real := 500.0
  /** Microseconds per frame. */
  const FRAME_DURATION: real := 1000000.0 / 30.0

  const CODEC: string := "avc1.64001F"
  const BITRATE: int := 3000000

  // ---------------------------------------------------------------------
  // The key-frame scheduler inside `record`
  // ---------------------------------------------------------------------

  /** A canvas grab as handed to the encoder, timed in microseconds. */
  datatype Frame = Frame(timestamp: real, duration: real)

  /** What the scheduler does to the encoder, in order. */
  datatype EncoderCall =
    | Encode(frame: Frame, keyFrame: bool)
    | Close(frame: Frame)

  /** The `VideoEncoder.configure` argument. */
  datatype EncoderConfig = EncoderConfig(codec: string, width: int, height: int, bitrate: int)

  /** The `n`-th grab (from 0): stamped `n * 1e6 / 30`, one frame long. */
  function FrameAt(n: nat): (f: Frame)
    ensures f.duration == FRAME_DURATION
    ensures f.timestamp == n as real * FRAME_DURATION
  {
    Frame((n as real * 1000000.0) / 30.0, 1000000.0 / 30.0)
  }

  /** Grabs are stamped in strictly increasing order, one frame apart. */
  lemma TimestampsIncrease(n: nat, m: nat)
    requires n < m
    ensures FrameAt(n).timestamp < FrameAt(m).timestamp
    ensures FrameAt(m).timestamp - FrameAt(n).timestamp == (m - n) as real * FRAME_DURATION
  {
  }

  /** `elapsedTime - lastKeyFrame >= 500`, where no key frame yet
      (`-Infinity`) is `None`. */
  predicate NeedsKeyFrame(lastKeyFrame: Option<real>, elapsed: real) {
    lastKeyFrame.None? || elapsed - lastKeyFrame.value >= KEY_FRAME_INTERVAL
  }

  /** `lastKeyFrame` after one grab at `elapsed`. */
  function NextLastKeyFrame(lastKeyFrame: Option<real>, elapsed: real): (r: Option<real>)
    ensures NeedsKeyFrame(lastKeyFrame, elapsed) ==> r == Some(elapsed)
    ensures !NeedsKeyFrame(lastKeyFrame, elapsed) ==> r == lastKeyFrame
  {
    if NeedsKeyFrame(lastKeyFrame, elapsed) then Some(elapsed) else lastKeyFrame
  }

  /** `lastKeyFrame` after the first `n` grabs at elapsed times `times`. */
  function LastKeyFrameAt(times: seq<real>, n: nat): Option<real>
    requires n <= |times|
  {
    if n == 0 then None else NextLastKeyFrame(LastKeyFrameAt(times, n - 1), times[n - 1])
  }

  /** Whether grab `j` is requested as a key frame. */
  predicate IsKey(times: seq<real>, j: nat)
    requires j < |times|
  {
    NeedsKeyFrame(LastKeyFrameAt(times, j), times[j])
  }

  predicate NonDecreasing(times: seq<real>) {
    forall i, j :: 0 <= i < j < |times| ==> times[i] <= times[j]
  }

  /** The first grab is always a key frame. */
  lemma FirstIsKey(times: seq<real>)
    requires |times| > 0
    ensures IsKey(times, 0)
  {
  }

  /** After key frame `i`, the remembered key-frame time is never earlier
      than grab `i`'s. */
  lemma {:induction false} LastKeyFrameNotBefore(times: seq<real>, i: nat, n: nat)
    requires NonDecreasing(times)
    requires i < n <= |times|
    requires IsKey(times, i)
    ensures LastKeyFrameAt(times, n).Some?
    ensures LastKeyFrameAt(times, n).value >= times[i]
  {
    if n > i + 1 {
      LastKeyFrameNotBefore(times, i, n - 1);
    }
  }

  /** With elapsed times that never go backwards, any two key frames are
      at least 500 ms apart. */
  lemma KeyFramesApart(times: seq<real>, i: nat, j: nat)
    requires NonDecreasing(times)
    requires i < j < |times|
    requires IsKey(times, i) && IsKey(times, j)
    ensures times[j] - times[i] >= KEY_FRAME_INTERVAL
  {
    LastKeyFrameNotBefore(times, i, j);
  }

  /** A grab that comes 500 ms or more after the last key frame is always
      a key frame; one that comes sooner never is. */
  lemma KeyFrameIff(times: seq<real>, j: nat)
    requires j < |times|
    ensures IsKey(times, j) <==>
              (LastKeyFrameAt(times, j).None? || times[j] - LastKeyFrameAt(times, j).value >= KEY_FRAME_INTERVAL)
    ensures LastKeyFrameAt(times, j + 1) == (if IsKey(times, j) then Some(times[j]) else LastKeyFrameAt(times, j))
  {
  }

  /** The `encodeVideoFrame` closure with the two variables it captures. */
  class Scheduler {
    var lastKeyFrame: Option<real>
    var framesGenerated: nat
    /** The calls made on the encoder so far. */
    var calls: seq<EncoderCall>

    constructor ()
      ensures lastKeyFrame == None && framesGenerated == 0 && calls == []
    {
      lastKeyFrame := None;
      framesGenerated := 0;
      calls := [];
    }

    /** One grab at `elapsed` ms since the recording started: the frame is
        stamped from the count of earlier grabs, requested as a key frame
        when 500 ms have passed since the last one, encoded, then closed. */
    method EncodeVideoFrame(elapsed: real)
      modifies this
      ensures framesGenerated == old(framesGenerated) + 1
      ensures lastKeyFrame == NextLastKeyFrame(old(lastKeyFrame), elapsed)
      ensures calls == old(calls) + [Encode(FrameAt(old(framesGenerated)), NeedsKeyFrame(old(lastKeyFrame), elapsed)),
                                     Close(FrameAt(old(framesGenerated)))]
    {
      var frame := Frame((framesGenerated as real * 1000000.0) / 30.0, 1000000.0 / 30.0);
      framesGenerated := framesGenerated + 1;
      var needsKeyFrame := lastKeyFrame.None? || elapsed - lastKeyFrame.value >= 500.0;
      if needsKeyFrame {
        lastKeyFrame := Some(elapsed);
      }
      calls := calls + [Encode(frame, needsKeyFrame), Close(frame)];
    }
  }

  /** `record`, once the media source opens: the encoder is configured
      for the canvas size, then one grab is encoded at each of `times`
      (the first right away, the rest on the timer). Grab `n` is encoded
      as `FrameAt(n)`, as a key frame exactly when `IsKey` says so, and
      closed right after. */
  method Record(width: int, height: int, times: seq<real>)
    returns (config: EncoderConfig, calls: seq<EncoderCall>)
    ensures config == EncoderConfig(CODEC, width, height, BITRATE)
    ensures |calls| == 2 * |times|
    ensures forall k :: 0 <= k < |calls| ==>
              calls[k] == (if k % 2 == 0 then Encode(FrameAt(k / 2), IsKey(times, k / 2))
                           else Close(FrameAt(k / 2)))
  {
    config := EncoderConfig(CODEC, width, height, BITRATE);
    var scheduler := new Scheduler();
    for i := 0 to |times|
      invariant scheduler.framesGenerated == i
      invariant scheduler.lastKeyFrame == LastKeyFrameAt(times, i)
      invariant |scheduler.calls| == 2 * i
      invariant forall k :: 0 <= k < 2 * i ==>
                  scheduler.calls[k] == (if k % 2 == 0 then Encode(FrameAt(k / 2), IsKey(times, k / 2))
                                         else Close(FrameAt(k / 2)))
    {
      scheduler.EncodeVideoFrame(times[i]);
    }
    calls := scheduler.calls;
  }

  // ---------------------------------------------------------------------
  // Drawing with the pointer
  // ---------------------------------------------------------------------

  /** A point in CSS pixels. */
  datatype Position = Position(x: real, y: real)

  /** `getRelativeMousePos`: the pointer's client position seen from the
      canvas's top-left corner `rect`. */
  function RelativePos(client: Position, rect: Position): (p: Position)
    ensures p.x == client.x - rect.x && p.y == client.y - rect.y
  {
    Position(client.x - rect.x, client.y - rect.y)
  }

  /** Adding the corner back gives the client position again, and two
      client positions with the same relative position are the same. */
  lemma RelativePosRoundTrip(client: Position, other: Position, rect: Position)
    ensures var p := RelativePos(client, rect); Position(p.x + rect.x, p.y + rect.y) == client
    ensures RelativePos(client, rect) == RelativePos(other, rect) ==> client == other
  {
  }

  /** A stroke `draw` puts on the canvas. */
  datatype Segment = Segment(from: Position, to: Position)

  /** The drawing handlers and the module-level `lastPos`. Every
      `pointerdown` registers one more move handler; a `pointerup` on the
      canvas removes them all. */
  class Sketch {
    var lastPos: Position
    /** The number of `pointermove` handlers registered. */
    var moveHandlers: nat
    /** The strokes drawn, in order. */
    var segments: seq<Segment>

    /** The latest stroke ends where the pointer last was (a
        `pointerdown` starts a new stroke there, so earlier strokes need
        not join up). */
    ghost predicate Valid()
      reads this
    {
      |segments| > 0 ==> segments[|segments| - 1].to == lastPos
    }

    constructor ()
      ensures Valid()
      ensures lastPos == Position(0.0, 0.0) && moveHandlers == 0 && segments == []
    {
      lastPos := Position(0.0, 0.0);
      moveHandlers := 0;
      segments := [];
    }

    /** `pointerdown`: a dot where the pointer went down, which becomes
        `lastPos`, and one more move handler. */
    method PointerDown(client: Position, rect: Position)
      modifies this
      ensures Valid()
      ensures lastPos == RelativePos(client, rect)
      ensures segments == old(segments) + [Segment(lastPos, lastPos)]
      ensures moveHandlers == old(moveHandlers) + 1
    {
      lastPos := RelativePos(client, rect);
      segments := segments + [Segment(lastPos, lastPos)];
      moveHandlers := moveHandlers + 1;
    }

    /** `pointermove`: every registered handler runs in turn, each drawing
        from `lastPos` to the new position and then moving `lastPos` there,
        so the first draws the stroke, continuing from where the latest
        stroke ended, and the others draw dots. */
    method PointerMove(client: Position, rect: Position)
      modifies this
      requires Valid()
      ensures Valid()
      ensures moveHandlers == old(moveHandlers)
      ensures old(moveHandlers) == 0 ==> lastPos == old(lastPos) && segments == old(segments)
      ensures old(moveHandlers) > 0 ==>
                var p := RelativePos(client, rect);
                && lastPos == p
                && |segments| == |old(segments)| + old(moveHandlers)
                && segments[..|old(segments)|] == old(segments)
                && segments[|old(segments)|] == Segment(old(lastPos), p)
                && (forall k :: |old(segments)| < k < |segments| ==> segments[k] == Segment(p, p))
      ensures old(moveHandlers) > 0 && |old(segments)| > 0 ==>
                segments[|old(segments)|].from == old(segments)[|old(segments)| - 1].to
    {
      var newPos := RelativePos(client, rect);
      ghost var before := segments;
      ghost var start := lastPos;
      for h := 0 to moveHandlers
        invariant Valid()
        invariant moveHandlers == old(moveHandlers)
        invariant |segments| == |before| + h
        invariant segments[..|before|] == before
        invariant h == 0 ==> lastPos == start
        invariant h > 0 ==> lastPos == newPos && segments[|before|] == Segment(start, newPos)
        invariant forall k :: |before| < k < |segments| ==> segments[k] == Segment(newPos, newPos)
      {
        segments := segments + [Segment(lastPos, newPos)];
        lastPos := newPos;
      }
    }

    /** `pointerup` on the canvas: every move handler is removed. */
    method PointerUp()
      modifies this
      requires Valid()
      ensures Valid()
      ensures moveHandlers == 0 && lastPos == old(lastPos) && segments == old(segments)
    {
      moveHandlers := 0;
    }
  }
}

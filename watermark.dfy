/** The bouncing text watermark: every decoded frame is redrawn with a
    caption whose position moves by a velocity that flips sign whenever the
    caption leaves the canvas, like a screen saver. The velocity lives in
    module state and so carries over from one video to the next. */
module VideoWatermark {
  import opened Wrappers
  import opened Media

  const FONT_SIZE: int := 80
  const WATERMARK_TEXT: string := "闪剪智能"
  /** How wide the caption is taken to be: one font size per character. */
  const TEXT_WIDTH: int := FONT_SIZE * |WATERMARK_TEXT|
  /** The initial horizontal and vertical speeds. */
  const SPEED_X: int := 16
  const SPEED_Y: int := 10
  /** The canvas side used when the decoder config gives none (or 0). */
  const DEFAULT_CANVAS_SIZE: int := 400

  /** The caption position together with the velocity in effect. */
  datatype Motion = Motion(x: int, y: int, dx: int, dy: int)

  function Max(a: int, b: int): int {
    if a < b then b else a
  }

  /** The velocity along one axis after a step that ended at `p`: reversed
      when the caption, `extent` long on that axis, sticks out past `limit`
      or past 0. */
  function Bounce(p: int, d: int, extent: int, limit: int): (d': int)
    ensures d' == -d <==> (d == 0 || p + extent > limit || p < 0)
    ensures d' == d <==> (d == 0 || !(p + extent > limit || p < 0))
  {
    if p + extent > limit || p < 0 then -d else d
  }

  /** `movements`: one step of the caption on a `width` x `height` canvas.
      The position moves by the velocity and is returned unclamped; each
      velocity component is reversed exactly when the moved caption sticks
      out on its axis. */
  function Move(m: Motion, width: int, height: int): (n: Motion)
    ensures n.x == m.x + m.dx && n.y == m.y + m.dy
    ensures n.dx == Bounce(n.x, m.dx, TEXT_WIDTH, width)
    ensures n.dy == Bounce(n.y, m.dy, FONT_SIZE, height)
  {
    var x, y := m.x + m.dx, m.y + m.dy;
    Motion(x, y, Bounce(x, m.dx, TEXT_WIDTH, width), Bounce(y, m.dy, FONT_SIZE, height))
  }

  /** The motion after `k` frames. */
  function Iterate(m: Motion, k: nat, width: int, height: int): Motion {
    if k == 0 then m else Move(Iterate(m, k - 1, width, height), width, height)
  }

  /** Velocities have the initial magnitudes, with any signs. */
  predicate Speeds(m: Motion) {
    (m.dx == SPEED_X || m.dx == -SPEED_X) && (m.dy == SPEED_Y || m.dy == -SPEED_Y)
  }

  /** A step only ever changes the signs of the speeds. */
  lemma MoveKeepsSpeeds(m: Motion, width: int, height: int)
    requires Speeds(m)
    ensures Speeds(Move(m, width, height))
    ensures Move(m, width, height).dx == m.dx || Move(m, width, height).dx == -m.dx
    ensures Move(m, width, height).dy == m.dy || Move(m, width, height).dy == -m.dy
  {
  }

  lemma {:induction false} IterateKeepsSpeeds(m: Motion, k: nat, width: int, height: int)
    requires Speeds(m)
    ensures Speeds(Iterate(m, k, width, height))
  {
    if k > 0 {
      IterateKeepsSpeeds(m, k - 1, width, height);
      MoveKeepsSpeeds(Iterate(m, k - 1, width, height), width, height);
    }
  }

  /** Where a caption moving at speed `s` along one axis can be: while
      moving forwards, between one step behind 0 and the far edge; while
      moving back, between 0 and one step past the far edge. */
  predicate AxisInv(p: int, d: int, s: int, extent: int, limit: int) {
    && s > 0
    && (d == s || d == -s)
    && (d == s ==> -s <= p <= Max(limit - extent, 0))
    && (d == -s ==> 0 <= p <= Max(limit - extent, 0) + s)
  }

  lemma AxisStep(p: int, d: int, s: int, extent: int, limit: int)
    requires AxisInv(p, d, s, extent, limit)
    ensures AxisInv(p + d, Bounce(p + d, d, extent, limit), s, extent, limit)
  {
  }

  /** Both axes within their bounds. */
  predicate InBounds(m: Motion, width: int, height: int) {
    AxisInv(m.x, m.dx, SPEED_X, TEXT_WIDTH, width) && AxisInv(m.y, m.dy, SPEED_Y, FONT_SIZE, height)
  }

  /** The horizontal band holds after any number of frames. */
  lemma {:induction false} IterateKeepsX(m: Motion, k: nat, width: int, height: int)
    requires AxisInv(m.x, m.dx, SPEED_X, TEXT_WIDTH, width)
    ensures var n := Iterate(m, k, width, height); AxisInv(n.x, n.dx, SPEED_X, TEXT_WIDTH, width)
  {
    if k > 0 {
      IterateKeepsX(m, k - 1, width, height);
      var p := Iterate(m, k - 1, width, height);
      AxisStep(p.x, p.dx, SPEED_X, TEXT_WIDTH, width);
    }
  }

  /** The vertical band holds after any number of frames. */
  lemma {:induction false} IterateKeepsY(m: Motion, k: nat, width: int, height: int)
    requires AxisInv(m.y, m.dy, SPEED_Y, FONT_SIZE, height)
    ensures var n := Iterate(m, k, width, height); AxisInv(n.y, n.dy, SPEED_Y, FONT_SIZE, height)
  {
    if k > 0 {
      IterateKeepsY(m, k - 1, width, height);
      var p := Iterate(m, k - 1, width, height);
      AxisStep(p.y, p.dy, SPEED_Y, FONT_SIZE, height);
    }
  }

  lemma IterateInBounds(m: Motion, k: nat, width: int, height: int)
    requires InBounds(m, width, height)
    ensures InBounds(Iterate(m, k, width, height), width, height)
  {
    IterateKeepsX(m, k, width, height);
    IterateKeepsY(m, k, width, height);
  }

  /** Starting from the corner `addWatermark` uses, with any signs of the
      speeds and on a canvas of any size, the caption never sticks out
      horizontally by more than one step: it stays within
      [-16, max(width - 320, 0) + 16]. */
  lemma CaptionStaysNearCanvasX(dx: int, dy: int, k: nat, width: int, height: int)
    requires Speeds(Motion(0, FONT_SIZE, dx, dy))
    ensures var m := Iterate(Motion(0, FONT_SIZE, dx, dy), k, width, height);
      -SPEED_X <= m.x <= Max(width - TEXT_WIDTH, 0) + SPEED_X
  {
    IterateKeepsX(Motion(0, FONT_SIZE, dx, dy), k, width, height);
  }

  /** Vertically the same holds only on a canvas at least 160 high: the
      caption stays within [-10, max(height - 80, 0) + 10]. On a lower
      canvas the start at y = 80 already lies below the band (at height
      100, moving down, the first step reaches 90 > 30). */
  lemma CaptionStaysNearCanvasY(dx: int, dy: int, k: nat, width: int, height: int)
    requires Speeds(Motion(0, FONT_SIZE, dx, dy))
    requires height >= 2 * FONT_SIZE
    ensures var m := Iterate(Motion(0, FONT_SIZE, dx, dy), k, width, height);
      -SPEED_Y <= m.y <= Max(height - FONT_SIZE, 0) + SPEED_Y
  {
    IterateKeepsY(Motion(0, FONT_SIZE, dx, dy), k, width, height);
  }

  /** The low-canvas case above: at height 100, starting down from (0, 80),
      one frame takes the caption past the vertical band. */
  lemma LowCanvasLeavesBand()
    ensures var m := Iterate(Motion(0, FONT_SIZE, SPEED_X, SPEED_Y), 1, 400, 100);
      m.y > Max(100 - FONT_SIZE, 0) + SPEED_Y
  {
    assert Iterate(Motion(0, FONT_SIZE, SPEED_X, SPEED_Y), 1, 400, 100).y == 90;
  }

  /** `config?.codedWidth || 400` (and likewise for the height). */
  function CanvasSide(config: Option<VideoDecoderConfig>, coded: Option<int>): (side: int)
    ensures side == DEFAULT_CANVAS_SIZE <==> (config.None? || coded.None? || coded.value == 0 || coded.value == DEFAULT_CANVAS_SIZE)
    ensures side != DEFAULT_CANVAS_SIZE ==> coded == Some(side)
  {
    if config.Some? && coded.Some? && coded.value != 0 then coded.value else DEFAULT_CANVAS_SIZE
  }

  /** A frame `addWatermark` produces: the source frame drawn over the
      whole canvas with the caption at (`textX`, `textY`), stamped with
      the given timing. */
  datatype WatermarkedFrame = WatermarkedFrame(
    source: VideoFrame,
    textX: int,
    textY: int,
    width: int,
    height: int,
    timestamp: int,
    duration: int)

  /** The frame made from `frame` with the caption at `m`'s position. */
  function Stamp(frame: VideoFrame, m: Motion, width: int, height: int): WatermarkedFrame {
    WatermarkedFrame(frame, m.x, m.y, width, height, frame.timestamp, DurationOf(frame))
  }

  /** `frame.duration || 0`. */
  function DurationOf(frame: VideoFrame): (d: int)
    ensures frame.duration.Some? ==> d == frame.duration.value
    ensures frame.duration.None? ==> d == 0
  {
    frame.duration.GetOr(0)
  }

  /** The module state: the current velocity. */
  class Watermarker {
    var dirX: int
    var dirY: int

    constructor ()
      ensures dirX == SPEED_X && dirY == SPEED_Y
    {
      dirX := SPEED_X;
      dirY := SPEED_Y;
    }

    /** `movements`. */
    method Movements(x: int, y: int, width: int, height: int) returns (nx: int, ny: int)
      modifies this
      ensures Motion(nx, ny, dirX, dirY) == Move(Motion(x, y, old(dirX), old(dirY)), width, height)
    {
      nx := x + dirX;
      ny := y + dirY;
      if nx + FONT_SIZE * |WATERMARK_TEXT| > width || nx < 0 {
        dirX := dirX * -1;
      }
      if ny + FONT_SIZE > height || ny < 0 {
        dirY := dirY * -1;
      }
    }

    /** `addWatermark`: without a 2D context, nothing. Otherwise one
        frame out per frame in, in order, each with its input's timestamp
        and duration (0 when absent) and the caption where the motion from
        (0, 80) had brought it before that frame's step; every input frame
        is closed. The velocity carries on from where the previous call
        left it. */
    method AddWatermark(frames: seq<VideoFrame>, config: Option<VideoDecoderConfig>, hasContext: bool)
      returns (out: seq<WatermarkedFrame>, closed: seq<VideoFrame>)
      modifies this
      ensures !hasContext ==> out == [] && closed == [] && dirX == old(dirX) && dirY == old(dirY)
      ensures hasContext ==>
                var width := CanvasSide(config, if config.Some? then config.value.codedWidth else None);
                var height := CanvasSide(config, if config.Some? then config.value.codedHeight else None);
                var start := Motion(0, FONT_SIZE, old(dirX), old(dirY));
                && |out| == |frames|
                && (forall k :: 0 <= k < |out| ==> out[k] == Stamp(frames[k], Iterate(start, k, width, height), width, height))
                && closed == frames
                && dirX == Iterate(start, |frames|, width, height).dx
                && dirY == Iterate(start, |frames|, width, height).dy
    {
      var width := CanvasSide(config, if config.Some? then config.value.codedWidth else None);
      var height := CanvasSide(config, if config.Some? then config.value.codedHeight else None);
      out, closed := [], [];
      if !hasContext {
        return;
      }
      var x, y := 0, FONT_SIZE;
      ghost var start := Motion(0, FONT_SIZE, dirX, dirY);
      for i := 0 to |frames|
        invariant Motion(x, y, dirX, dirY) == Iterate(start, i, width, height)
        invariant |out| == i && closed == frames[..i]
        invariant forall k {:trigger out[k]} :: 0 <= k < i ==> out[k] == Stamp(frames[k], Iterate(start, k, width, height), width, height)
      {
        var frame := frames[i];
        var textX, textY := x, y;
        x, y := Movements(x, y, width, height);
        var newFrame := WatermarkedFrame(frame, textX, textY, width, height,
                                         frame.timestamp, DurationOf(frame));
        assert newFrame == Stamp(frame, Iterate(start, i, width, height), width, height);
        closed := closed + [frame];
        ghost var before := out;
        out := out + [newFrame];
        assert closed == frames[..i + 1];
        assert forall k :: 0 <= k < i ==> out[k] == before[k];
      }
    }
  }
}

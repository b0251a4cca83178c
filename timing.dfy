/**
 * The two self-reposting animations of the view, as pure functions of the
 * elapsed milliseconds: the ease-out fling of scrollBy and the linear zoom of
 * the timed zoomTo. Each runnable is a value; one run of it is a function of
 * the runnable and the clock reading `now`.
 */
module Timing {
  import opened Num

  /** easeOut(time, start, end, duration): a cubic that decelerates to `end + start` at `duration`. */
  function EaseOut(time: real, start: real, end: real, duration: real): real
    requires duration != 0.0
  {
    var u := time / duration - 1.0;
    end * (u * u * u + 1.0) + start
  }

  /** The curve starts at 0 and ends at the full distance. */
  lemma EaseOutEndpoints(end: real, duration: real)
    requires duration != 0.0
    ensures EaseOut(0.0, 0.0, end, duration) == 0.0
    ensures EaseOut(duration, 0.0, end, duration) == end
  {
  }

  lemma CubeMonotone(a: real, b: real)
    requires a <= b
    ensures a * a * a <= b * b * b
  {
    var h := a + b / 2.0;
    assert a * a + a * b + b * b == h * h + 3.0 * b * b / 4.0;
    var q := a * a + a * b + b * b;
    assert q >= 0.0;
    assert (b - a) * q >= 0.0;
    assert b * b * b - a * a * a == (b - a) * q;
  }

  /** The curve moves only in the direction of `end`. */
  lemma EaseOutMonotone(end: real, duration: real, t1: real, t2: real)
    requires duration > 0.0 && t1 <= t2
    ensures end >= 0.0 ==> EaseOut(t1, 0.0, end, duration) <= EaseOut(t2, 0.0, end, duration)
    ensures end <= 0.0 ==> EaseOut(t1, 0.0, end, duration) >= EaseOut(t2, 0.0, end, duration)
  {
    var u1, u2 := t1 / duration - 1.0, t2 / duration - 1.0;
    assert u1 <= u2;
    CubeMonotone(u1, u2);
    var c1, c2 := u1 * u1 * u1 + 1.0, u2 * u2 * u2 + 1.0;
    assert end * c2 - end * c1 == end * (c2 - c1);
  }

  /** On [0, duration] the fling covers between none and all of the distance. */
  lemma EaseOutBounded(end: real, duration: real, t: real)
    requires duration > 0.0 && 0.0 <= t <= duration
    ensures end >= 0.0 ==> 0.0 <= EaseOut(t, 0.0, end, duration) <= end
    ensures end <= 0.0 ==> end <= EaseOut(t, 0.0, end, duration) <= 0.0
  {
    EaseOutEndpoints(end, duration);
    EaseOutMonotone(end, duration, 0.0, t);
    EaseOutMonotone(end, duration, t, duration);
  }

  /** The scrollBy runnable: distance, duration, start time and the offsets old_x, old_y reached so far. */
  datatype FlingTask = FlingTask(id: nat, dx: real, dy: real, durationMs: real, startTime: int,
                                 oldX: real, oldY: real)

  /** min(durationMs, now - startTime) */
  function FlingElapsed(t: FlingTask, now: int): real {
    Min(t.durationMs, (now - t.startTime) as real)
  }

  /** One run: the runnable with old_x, old_y advanced, the translation it posts, and whether it re-posts. */
  datatype FlingRun = FlingRun(task: FlingTask, moveX: real, moveY: real, again: bool)

  function FlingTick(t: FlingTask, now: int): (r: FlingRun)
    requires t.durationMs != 0.0
    ensures r.task == t.(oldX := r.task.oldX, oldY := r.task.oldY)
    ensures r.task.oldX == t.oldX + r.moveX && r.task.oldY == t.oldY + r.moveY
    ensures r.again <==> FlingElapsed(t, now) < t.durationMs
  {
    var currentMs := FlingElapsed(t, now);
    var x := EaseOut(currentMs, 0.0, t.dx, t.durationMs);
    var y := EaseOut(currentMs, 0.0, t.dy, t.durationMs);
    FlingRun(t.(oldX := x, oldY := y), x - t.oldX, y - t.oldY, currentMs < t.durationMs)
  }

  /** The translations a fling posts when it runs at the successive clock readings `nows`. */
  function FlingMoves(t: FlingTask, nows: seq<int>): (moves: seq<(real, real)>)
    requires t.durationMs != 0.0
    ensures |moves| == |nows|
    decreases nows
  {
    if nows == [] then []
    else
      var run := FlingTick(t, nows[0]);
      [(run.moveX, run.moveY)] + FlingMoves(run.task, nows[1..])
  }

  function SumX(moves: seq<(real, real)>): real {
    if moves == [] then 0.0 else moves[0].0 + SumX(moves[1..])
  }

  function SumY(moves: seq<(real, real)>): real {
    if moves == [] then 0.0 else moves[0].1 + SumY(moves[1..])
  }

  /**
   * The per-run translations telescope: however the runs are spaced, together
   * they move the image by the ease-out offset of the last run, less what the
   * runnable had already covered.
   */
  lemma {:induction false} FlingMovesTelescope(t: FlingTask, nows: seq<int>)
    requires t.durationMs != 0.0 && nows != []
    ensures SumX(FlingMoves(t, nows)) == EaseOut(FlingElapsed(t, nows[|nows| - 1]), 0.0, t.dx, t.durationMs) - t.oldX
    ensures SumY(FlingMoves(t, nows)) == EaseOut(FlingElapsed(t, nows[|nows| - 1]), 0.0, t.dy, t.durationMs) - t.oldY
    decreases nows
  {
    var run := FlingTick(t, nows[0]);
    var moves := FlingMoves(t, nows);
    if |nows| > 1 {
      FlingMovesTelescope(run.task, nows[1..]);
      assert FlingElapsed(run.task, nows[|nows| - 1]) == FlingElapsed(t, nows[|nows| - 1]);
    }
    assert moves[1..] == FlingMoves(run.task, nows[1..]);
  }

  /** A fresh fling whose last run comes at or after its duration has moved by exactly (dx, dy). */
  lemma FlingCoversDistance(t: FlingTask, nows: seq<int>)
    requires t.durationMs > 0.0 && t.oldX == 0.0 && t.oldY == 0.0
    requires nows != [] && (nows[|nows| - 1] - t.startTime) as real >= t.durationMs
    ensures SumX(FlingMoves(t, nows)) == t.dx && SumY(FlingMoves(t, nows)) == t.dy
  {
    FlingMovesTelescope(t, nows);
    EaseOutEndpoints(t.dx, t.durationMs);
    EaseOutEndpoints(t.dy, t.durationMs);
  }

  /** The timed zoomTo runnable: start scale, increment per ms, start time, duration and fixed focus. */
  datatype ZoomTask = ZoomTask(oldScale: real, incrementPerMs: real, startTime: int, durationMs: real,
                               centerX: real, centerY: real)

  /** The runnable zoomTo(scale, centerX, centerY, durationMs) posts when the current scale is `current`. */
  function NewZoomTask(current: real, scale: real, centerX: real, centerY: real, durationMs: real,
                       now: int): (t: ZoomTask)
    requires durationMs != 0.0
    ensures t.oldScale == current && t.startTime == now && t.durationMs == durationMs
    ensures t.centerX == centerX && t.centerY == centerY
    ensures t.incrementPerMs * durationMs == scale - current
  {
    ZoomTask(current, (scale - current) / durationMs, now, durationMs, centerX, centerY)
  }

  /** min(durationMs, now - startTime) */
  function ZoomElapsed(t: ZoomTask, now: int): real {
    Min(t.durationMs, (now - t.startTime) as real)
  }

  /** The scale one run of the timed zoom asks zoomTo for. */
  function ZoomTarget(t: ZoomTask, now: int): real {
    t.oldScale + t.incrementPerMs * ZoomElapsed(t, now)
  }

  /**
   * The timed zoom interpolates linearly from the scale it started at to the
   * requested scale, and asks for exactly that scale once the duration is over.
   */
  lemma ZoomTargetInterpolates(current: real, scale: real, centerX: real, centerY: real,
                               durationMs: real, start: int, now: int)
    requires durationMs != 0.0
    ensures var t := NewZoomTask(current, scale, centerX, centerY, durationMs, start);
            ZoomTarget(t, now) == current + (scale - current) * ZoomElapsed(t, now) / durationMs
    ensures (now - start) as real >= durationMs ==>
            ZoomTarget(NewZoomTask(current, scale, centerX, centerY, durationMs, start), now) == scale
  {
    var t := NewZoomTask(current, scale, centerX, centerY, durationMs, start);
    var e := ZoomElapsed(t, now);
    assert ((scale - current) / durationMs) * e == (scale - current) * e / durationMs;
    if (now - start) as real >= durationMs {
      assert e == durationMs;
      DivMulCancel(scale - current, durationMs);
    }
  }

  /** Zooming in over time, each later run asks for a scale at least as large, never past the target. */
  lemma ZoomTargetMonotone(current: real, scale: real, centerX: real, centerY: real,
                           durationMs: real, start: int, now1: int, now2: int)
    requires durationMs > 0.0 && current <= scale && start <= now1 <= now2
    ensures var t := NewZoomTask(current, scale, centerX, centerY, durationMs, start);
            current <= ZoomTarget(t, now1) <= ZoomTarget(t, now2) <= scale
  {
    var t := NewZoomTask(current, scale, centerX, centerY, durationMs, start);
    var e1, e2 := ZoomElapsed(t, now1), ZoomElapsed(t, now2);
    assert 0.0 <= e1 <= e2 <= durationMs;
    assert t.incrementPerMs >= 0.0;
    MulMonotone(t.incrementPerMs, 0.0, e1);
    MulMonotone(t.incrementPerMs, e1, e2);
    MulMonotone(t.incrementPerMs, e2, durationMs);
  }
}

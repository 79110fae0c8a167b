/**
 * The decisions in main/lvgl_utils.c around the LVGL port: the timeout with
 * which lvgl_lock takes the API mutex, what the touch callback reports, and
 * how the render task bounds the delay LVGL asks for between passes.
 */
module LvglUtils {
  import opened Wrappers
  import opened CTypes

  const TaskMaxDelayMs: uint32 := 500
  const TaskMinDelayMs: uint32 := 1

  /** portMAX_DELAY for a 32-bit TickType_t. */
  const MaxDelay: uint32 := 0xFFFF_FFFF

  /**
   * pdMS_TO_TICKS(ms): milliseconds to ticks at `tickRateHz`, computed in the
   * 32-bit TickType_t, so the cast of a negative `ms` and the product both wrap.
   */
  function MsToTicks(ms: int, tickRateHz: uint32): (t: uint32)
    ensures 0 <= ms && ms * tickRateHz < 0x1_0000_0000 ==> t == ms * tickRateHz / 1000
  {
    ToUint32(ToUint32(ms) * tickRateHz) / 1000
  }

  /**
   * The tick count lvgl_lock passes to xSemaphoreTakeRecursive: a timeout of
   * -1 waits forever, any other is converted from milliseconds.
   */
  function LockTimeout(timeoutMs: int, tickRateHz: uint32): uint32 {
    if timeoutMs == -1 then MaxDelay else MsToTicks(timeoutMs, tickRateHz)
  }

  /**
   * -1 is the only way to wait forever when the tick rate is at most 1000 Hz:
   * every other timeout converts to a bounded tick count.
   */
  lemma LockTimeoutMeaning(timeoutMs: int, tickRateHz: uint32)
    requires tickRateHz <= 1000
    ensures timeoutMs == -1 ==> LockTimeout(timeoutMs, tickRateHz) == MaxDelay
    ensures timeoutMs != -1 ==> LockTimeout(timeoutMs, tickRateHz) < MaxDelay
    ensures 0 <= timeoutMs && timeoutMs * tickRateHz < 0x1_0000_0000 ==>
      LockTimeout(timeoutMs, tickRateHz) == timeoutMs * tickRateHz / 1000
  {
    if timeoutMs != -1 {
      var product := ToUint32(ToUint32(timeoutMs) * tickRateHz);
      assert product / 1000 <= product;
      assert product / 1000 < MaxDelay by {
        assert product < 0x1_0000_0000;
      }
    }
  }

  /** lv_indev_state_t. */
  datatype IndevState = Released | Pressed

  /** The lv_indev_data_t the touch callback fills in. */
  class IndevData {
    var pointX: int
    var pointY: int
    var state: IndevState

    constructor ()
      ensures pointX == 0 && pointY == 0 && state == Released
    {
      pointX := 0;
      pointY := 0;
      state := Released;
    }
  }

  /** The touch reading lvgl_touch_cb reports: the first point when the controller reports a press with at least one point. */
  function TouchPoint(pressed: bool, count: uint8, xs: seq<uint16>, ys: seq<uint16>): Option<(uint16, uint16)>
    requires |xs| >= 1 && |ys| >= 1
  {
    if pressed && count > 0 then Some((xs[0], ys[0])) else None
  }

  /**
   * A reading is reported exactly when the controller says pressed with a
   * point, and it is the first point it returned.
   */
  lemma TouchPointMeaning(pressed: bool, count: uint8, xs: seq<uint16>, ys: seq<uint16>)
    requires |xs| >= 1 && |ys| >= 1
    ensures TouchPoint(pressed, count, xs, ys).Some? <==> pressed && count > 0
    ensures TouchPoint(pressed, count, xs, ys).Some? ==> TouchPoint(pressed, count, xs, ys).value == (xs[0], ys[0])
  {
  }

  /**
   * lvgl_touch_cb, given what esp_lcd_touch_get_coordinates returned: a press
   * with a point writes its coordinates and PRESSED; anything else writes
   * RELEASED and leaves the point as it was.
   */
  method TouchCb(data: IndevData, pressed: bool, count: uint8, xs: seq<uint16>, ys: seq<uint16>)
    requires |xs| >= 1 && |ys| >= 1
    modifies data
    ensures data.state == if TouchPoint(pressed, count, xs, ys).Some? then Pressed else Released
    ensures match TouchPoint(pressed, count, xs, ys)
      case Some(p) => data.pointX == p.0 && data.pointY == p.1
      case None => data.pointX == old(data.pointX) && data.pointY == old(data.pointY)
  {
    if pressed && count > 0 {
      data.pointX := xs[0];
      data.pointY := ys[0];
      data.state := Pressed;
    } else {
      data.state := Released;
    }
  }

  /** The render task's bound on the delay LVGL asks for: [LVGL_TASK_MIN_DELAY_MS, LVGL_TASK_MAX_DELAY_MS]. */
  function Clamp(delayMs: uint32): (r: uint32)
    ensures TaskMinDelayMs <= r <= TaskMaxDelayMs
    ensures TaskMinDelayMs <= delayMs <= TaskMaxDelayMs ==> r == delayMs
    ensures delayMs > TaskMaxDelayMs ==> r == TaskMaxDelayMs
    ensures delayMs < TaskMinDelayMs ==> r == TaskMinDelayMs
  {
    if delayMs > TaskMaxDelayMs then TaskMaxDelayMs
    else if delayMs < TaskMinDelayMs then TaskMinDelayMs
    else delayMs
  }

  /**
   * The delays the render task sleeps for, one per pass: a pass that takes the
   * lock uses what lv_timer_handler returned, one that does not reuses the
   * previous delay; either way it is bounded.
   */
  function Delays(previous: uint32, handled: seq<Option<uint32>>): seq<uint32>
    decreases |handled|
  {
    if handled == [] then []
    else
      var next := Clamp(handled[0].UnwrapOr(previous));
      [next] + Delays(next, handled[1..])
  }

  /**
   * Every delay the render task sleeps for lies in [1, 500], and a pass that
   * does not get the lock repeats the delay of the pass before it.
   */
  lemma {:induction false} DelaysBounded(previous: uint32, handled: seq<Option<uint32>>)
    requires TaskMinDelayMs <= previous <= TaskMaxDelayMs
    ensures |Delays(previous, handled)| == |handled|
    ensures forall k :: 0 <= k < |handled| ==> TaskMinDelayMs <= Delays(previous, handled)[k] <= TaskMaxDelayMs
    ensures forall k :: 0 <= k < |handled| && handled[k].None? ==>
      Delays(previous, handled)[k] == if k == 0 then previous else Delays(previous, handled)[k - 1]
    decreases |handled|
  {
    if handled != [] {
      var next := Clamp(handled[0].UnwrapOr(previous));
      DelaysBounded(next, handled[1..]);
      var ds := Delays(previous, handled);
      assert ds == [next] + Delays(next, handled[1..]);
      forall k | 0 <= k < |handled| && handled[k].None?
        ensures ds[k] == if k == 0 then previous else ds[k - 1]
      {
        if k > 0 {
          assert handled[1..][k - 1] == handled[k];
          assert ds[k] == Delays(next, handled[1..])[k - 1];
          if k > 1 {
            assert ds[k - 1] == Delays(next, handled[1..])[k - 2];
          }
        }
      }
    }
  }

  /** One pass of the render task, as Delays takes it. */
  lemma DelaysStep(previous: uint32, handled: seq<Option<uint32>>, i: nat)
    requires i < |handled|
    ensures Delays(previous, handled[i..]) ==
      [Clamp(handled[i].UnwrapOr(previous))] + Delays(Clamp(handled[i].UnwrapOr(previous)), handled[i + 1..])
  {
    assert handled[i..][1..] == handled[i + 1..];
  }

  /** The render task of `task`, with task_delay_ms carried from pass to pass. */
  class RenderTask {
    var taskDelayMs: uint32

    /** Each run of the outer loop starts from LVGL_TASK_MAX_DELAY_MS. */
    constructor ()
      ensures taskDelayMs == TaskMaxDelayMs
    {
      taskDelayMs := TaskMaxDelayMs;
    }

    /**
     * A run of passes of the inner loop: for each, `handled` holds what
     * lv_timer_handler returned, or None when the lock was not taken. Returns
     * the delay each pass sleeps for.
     */
    method Run(handled: seq<Option<uint32>>) returns (slept: seq<uint32>)
      modifies this
      ensures slept == Delays(old(taskDelayMs), handled)
      ensures handled != [] ==> taskDelayMs == slept[|slept| - 1]
      ensures handled == [] ==> taskDelayMs == old(taskDelayMs)
    {
      slept := [];
      ghost var start := taskDelayMs;
      AppendEmpty(Delays(start, handled));
      for i := 0 to |handled|
        invariant slept + Delays(taskDelayMs, handled[i..]) == Delays(start, handled)
        invariant i > 0 ==> |slept| == i && taskDelayMs == slept[i - 1]
        invariant i == 0 ==> slept == [] && taskDelayMs == start
      {
        ghost var previous := taskDelayMs;
        if handled[i].Some? {
          taskDelayMs := handled[i].value;
        }
        if taskDelayMs > TaskMaxDelayMs {
          taskDelayMs := TaskMaxDelayMs;
        } else if taskDelayMs < TaskMinDelayMs {
          taskDelayMs := TaskMinDelayMs;
        }
        DelaysStep(previous, handled, i);
        AppendAssoc(slept, [taskDelayMs], Delays(taskDelayMs, handled[i + 1..]));
        slept := slept + [taskDelayMs];
      }
      assert handled[|handled|..] == [];
      AppendEmpty(slept);
    }
  }
}

/** The LVGL port of main/gui/gui.c: the refresh task loop, the tick timer
    callback, the panel's transfer-done callback and the flush callback, on
    one context object. Interrupts are discrete events delivered while the
    task sleeps; the API lock is a ghost flag that the sleep point requires
    to be free. */
module GuiPort {
  import opened CTypes
  import opened SystemConfig
  import opened RefreshScheduler
  import opened FlushRegion

  /** An interrupt arriving while the refresh task sleeps: a firing of the periodic
      tick timer, or the panel IO's colour-transfer-done event. */
  datatype Irq = TickIrq | TransDoneIrq

  /** One pass of the refresh task's `while (1)` body, as seen from outside: the
      areas the render engine flushes during lv_timer_handler, the delay it
      returns, and the interrupts that arrive during the following sleep. */
  datatype Step = Step(flushes: seq<Area>, ret: uint32, irqs: seq<Irq>)

  /** The observable actions of the port, in order. */
  datatype Op =
    | LockAcquire
    | LockRelease
    | HandlerReturned(ret: uint32) // lv_timer_handler returned `ret`
    | RgbSwap(count: int)         // lv_draw_sw_rgb565_swap over `count` pixels
    | DrawBitmap(rect: Rect)      // esp_lcd_panel_draw_bitmap started a transfer
    | Sleep(us: uint32)           // usleep(us)
    | TickInc(ms: nat)            // lv_tick_inc from the timer callback
    | FlushReady                  // lv_display_flush_ready from the IO callback

  // ---------------------------------------------------------------------
  // Specification of the traces
  // ---------------------------------------------------------------------

  function FlushOps(a: Area): seq<Op>
  {
    [RgbSwap(SwapCount(a)), DrawBitmap(PanelRect(a))]
  }

  /** What the flush callback does for each area, in order. */
  function FlushesOps(areas: seq<Area>): (r: seq<Op>)
    ensures |r| == 2 * |areas|
    ensures forall k :: 0 <= k < |areas| ==> r[2 * k] == RgbSwap(SwapCount(areas[k])) && r[2 * k + 1] == DrawBitmap(PanelRect(areas[k]))
  {
    if areas == [] then [] else FlushesOps(areas[..|areas| - 1]) + FlushOps(areas[|areas| - 1])
  }

  function IrqOp(i: Irq): Op
  {
    match i
    case TickIrq => TickInc(LVGL_TICK_PERIOD_MS)
    case TransDoneIrq => FlushReady
  }

  function IrqOps(irqs: seq<Irq>): (r: seq<Op>)
    ensures |r| == |irqs|
    ensures forall k :: 0 <= k < |irqs| ==> r[k] == IrqOp(irqs[k])
  {
    if irqs == [] then [] else IrqOps(irqs[..|irqs| - 1]) + [IrqOp(irqs[|irqs| - 1])]
  }

  /** The trace of one loop iteration. */
  function StepOps(s: Step, freertosHz: nat): (r: seq<Op>)
    requires freertosHz > 0
    ensures |r| == 2 * |s.flushes| + 4 + |s.irqs|
    ensures r[0] == LockAcquire
    ensures r[1..2 * |s.flushes| + 1] == FlushesOps(s.flushes)
    ensures r[2 * |s.flushes| + 1] == HandlerReturned(s.ret)
    ensures r[2 * |s.flushes| + 2] == LockRelease
    ensures r[2 * |s.flushes| + 3] == Sleep(1000 * Clamp(s.ret, freertosHz))
    ensures r[2 * |s.flushes| + 3].us <= 1000 * LVGL_TASK_MAX_DELAY_MS
    ensures r[2 * |s.flushes| + 4..] == IrqOps(s.irqs)
  {
    [LockAcquire] + FlushesOps(s.flushes) + [HandlerReturned(s.ret), LockRelease]
    + [Sleep(SleepMicros(Clamp(s.ret, freertosHz)))] + IrqOps(s.irqs)
  }

  /** The trace of a run of iterations. */
  function TaskOps(steps: seq<Step>, freertosHz: nat): seq<Op>
    requires freertosHz > 0
  {
    if steps == [] then []
    else TaskOps(steps[..|steps| - 1], freertosHz) + StepOps(steps[|steps| - 1], freertosHz)
  }

  function CountTicks(irqs: seq<Irq>): nat
  {
    if irqs == [] then 0
    else CountTicks(irqs[..|irqs| - 1]) + (if irqs[|irqs| - 1] == TickIrq then 1 else 0)
  }

  /** Milliseconds the ticks among `irqs` add to the logical clock. */
  function TickMs(irqs: seq<Irq>): nat
  {
    if irqs == [] then 0
    else TickMs(irqs[..|irqs| - 1]) + (if irqs[|irqs| - 1] == TickIrq then LVGL_TICK_PERIOD_MS else 0)
  }

  /** All interrupts of a run, in arrival order. */
  function AllIrqs(steps: seq<Step>): seq<Irq>
  {
    if steps == [] then [] else AllIrqs(steps[..|steps| - 1]) + steps[|steps| - 1].irqs
  }

  /** The flushing flag after a run of interrupts: a transfer-done event
      clears it and nothing in an interrupt sets it. */
  function FlushingAfterIrqs(flushing: bool, irqs: seq<Irq>): bool
  {
    flushing && TransDoneIrq !in irqs
  }

  /** The flushing flag after a run of passes: each pass's flushes set it
      and its interrupts may then clear it. */
  function FlushingAfterSteps(flushing: bool, steps: seq<Step>): bool
  {
    if steps == [] then flushing
    else
      var last := steps[|steps| - 1];
      FlushingAfterIrqs(FlushingAfterSteps(flushing, steps[..|steps| - 1]) || last.flushes != [], last.irqs)
  }

  // ---------------------------------------------------------------------
  // The port state and its operations
  // ---------------------------------------------------------------------

  class Port {
    /** CONFIG_FREERTOS_HZ of the build. */
    const freertosHz: nat
    /** Whether the LVGL API lock is held. */
    ghost var locked: bool
    /** LVGL's logical clock, in milliseconds, advanced only by lv_tick_inc. */
    var tickMs: nat
    /** Whether a transfer started by the flush callback awaits its
        transfer-done event. */
    var flushing: bool
    /** Everything the port has done so far. */
    ghost var trace: seq<Op>

    ghost predicate Valid()
      reads this
    {
      freertosHz > 0
    }

    constructor (freertosHz: nat)
      requires freertosHz > 0
      ensures Valid() && this.freertosHz == freertosHz
      ensures !locked && tickMs == 0 && !flushing && trace == []
    {
      this.freertosHz := freertosHz;
      locked := false;
      tickMs := 0;
      flushing := false;
      trace := [];
    }

    /** increase_lvgl_tick: the periodic timer callback adds one tick
        period to the logical clock and touches nothing else; it does not
        take the lock. */
    method IncreaseLvglTick()
      modifies this`tickMs, this`trace
      ensures tickMs == old(tickMs) + LVGL_TICK_PERIOD_MS
      ensures trace == old(trace) + [TickInc(LVGL_TICK_PERIOD_MS)]
    {
      tickMs := tickMs + LVGL_TICK_PERIOD_MS;
      trace := trace + [TickInc(LVGL_TICK_PERIOD_MS)];
    }

    /** notify_lvgl_flush_ready: marks the display flush-ready and asks for
        no context switch (returns false). */
    method NotifyLvglFlushReady() returns (needYield: bool)
      modifies this`flushing, this`trace
      ensures !flushing && !needYield
      ensures trace == old(trace) + [FlushReady]
    {
      flushing := false;
      trace := trace + [FlushReady];
      needYield := false;
    }

    /** lvgl_flush_cb: byte-swaps the area's pixels and starts the panel
        transfer; completion is left to the transfer-done event. */
    method LvglFlushCb(a: Area)
      requires locked
      modifies this`flushing, this`trace
      ensures flushing
      ensures trace == old(trace) + FlushOps(a)
    {
      trace := trace + [RgbSwap(SwapCount(a))];
      trace := trace + [DrawBitmap(PanelRect(a))];
      flushing := true;
    }

    method AcquireLock()
      requires !locked
      modifies this`locked, this`trace
      ensures locked && trace == old(trace) + [LockAcquire]
    {
      locked := true;
      trace := trace + [LockAcquire];
    }

    method ReleaseLock()
      requires locked
      modifies this`locked, this`trace
      ensures !locked && trace == old(trace) + [LockRelease]
    {
      locked := false;
      trace := trace + [LockRelease];
    }

    /** One call of lv_timer_handler, seen from the port: the render engine
        calls the flush callback once per area, in order, and returns `ret`. */
    method TimerHandler(areas: seq<Area>, ret: uint32) returns (d: uint32)
      requires locked
      modifies this`flushing, this`trace
      ensures d == ret
      ensures flushing == (old(flushing) || areas != [])
      ensures trace == old(trace) + FlushesOps(areas) + [HandlerReturned(ret)]
    {
      var i := 0;
      while i < |areas|
        invariant 0 <= i <= |areas|
        invariant flushing == (old(flushing) || i > 0)
        invariant trace == old(trace) + FlushesOps(areas[..i])
      {
        assert areas[..i + 1][..i] == areas[..i];
        LvglFlushCb(areas[i]);
        i := i + 1;
      }
      assert areas[..i] == areas;
      trace := trace + [HandlerReturned(ret)];
      d := ret;
    }

    /** usleep: the only suspension point, where the interrupts of this
        iteration are delivered. It requires the lock to be free. */
    method Usleep(us: uint32, irqs: seq<Irq>)
      requires !locked
      modifies this`tickMs, this`flushing, this`trace
      ensures tickMs == old(tickMs) + TickMs(irqs)
      ensures flushing == FlushingAfterIrqs(old(flushing), irqs)
      ensures trace == old(trace) + [Sleep(us)] + IrqOps(irqs)
    {
      trace := trace + [Sleep(us)];
      var i := 0;
      while i < |irqs|
        invariant 0 <= i <= |irqs|
        invariant tickMs == old(tickMs) + TickMs(irqs[..i])
        invariant flushing == FlushingAfterIrqs(old(flushing), irqs[..i])
        invariant trace == old(trace) + [Sleep(us)] + IrqOps(irqs[..i])
      {
        assert irqs[..i + 1][..i] == irqs[..i];
        if irqs[i] == TickIrq {
          IncreaseLvglTick();
        } else {
          var _ := NotifyLvglFlushReady();
        }
        i := i + 1;
      }
      assert irqs[..i] == irqs;
    }

    /** One pass of the `while (1)` body of lvgl_port_task. */
    method PortTaskStep(s: Step)
      requires Valid() && !locked
      modifies this`locked, this`tickMs, this`flushing, this`trace
      ensures !locked
      ensures tickMs == old(tickMs) + TickMs(s.irqs)
      ensures flushing == FlushingAfterIrqs(old(flushing) || s.flushes != [], s.irqs)
      ensures trace == old(trace) + StepOps(s, freertosHz)
    {
      ghost var t0 := trace;
      AcquireLock();
      var timeTillNextMs := TimerHandler(s.flushes, s.ret);
      ReleaseLock();
      timeTillNextMs := Max(timeTillNextMs, LvglTaskMinDelayMs(freertosHz));
      timeTillNextMs := Min(timeTillNextMs, LVGL_TASK_MAX_DELAY_MS);
      assert timeTillNextMs == Clamp(s.ret, freertosHz);
      Usleep(MulU32(1000, timeTillNextMs), s.irqs);
      StepOpsTrace(s, freertosHz, t0, trace);
    }

    /** lvgl_port_task, over the first |steps| passes of its endless loop. */
    method LvglPortTask(steps: seq<Step>)
      requires Valid() && !locked
      modifies this`locked, this`tickMs, this`flushing, this`trace
      ensures !locked
      ensures tickMs == old(tickMs) + TickMs(AllIrqs(steps))
      ensures trace == old(trace) + TaskOps(steps, freertosHz)
      ensures flushing == FlushingAfterSteps(old(flushing), steps)
    {
      var i := 0;
      while i < |steps|
        invariant 0 <= i <= |steps|
        invariant !locked
        invariant tickMs == old(tickMs) + TickMs(AllIrqs(steps[..i]))
        invariant trace == old(trace) + TaskOps(steps[..i], freertosHz)
        invariant flushing == FlushingAfterSteps(old(flushing), steps[..i])
      {
        ghost var traceBefore, ticksBefore, flushingBefore := trace, tickMs, flushing;
        PortTaskStep(steps[i]);
        FlushingExtend(steps, i, old(flushing), flushingBefore, flushing);
        TaskOpsExtend(steps, i, freertosHz, old(trace), traceBefore, trace);
        TickMsExtend(steps, i, old(tickMs), ticksBefore, tickMs);
        i := i + 1;
      }
      assert steps[..i] == steps;
    }
  }

  // ---------------------------------------------------------------------
  // Properties of the traces
  // ---------------------------------------------------------------------

  /** The events of one pass, in order, make up its StepOps. */
  lemma StepOpsTrace(s: Step, freertosHz: nat, t0: seq<Op>, t: seq<Op>)
    requires freertosHz > 0
    requires t == t0 + [LockAcquire] + FlushesOps(s.flushes) + [HandlerReturned(s.ret)] + [LockRelease]
      + [Sleep(SleepMicros(Clamp(s.ret, freertosHz)))] + IrqOps(s.irqs)
    ensures t == t0 + StepOps(s, freertosHz)
  {
  }

  /** One more pass extends the trace of a run by that pass's trace. */
  lemma TaskOpsExtend(steps: seq<Step>, i: nat, freertosHz: nat, t0: seq<Op>, t1: seq<Op>, t2: seq<Op>)
    requires i < |steps| && freertosHz > 0
    requires t1 == t0 + TaskOps(steps[..i], freertosHz)
    requires t2 == t1 + StepOps(steps[i], freertosHz)
    ensures t2 == t0 + TaskOps(steps[..i + 1], freertosHz)
  {
    var prefix := steps[..i + 1];
    assert prefix[..i] == steps[..i] && prefix[i] == steps[i];
    AppendRegroup(t0, t1, t2, TaskOps(steps[..i], freertosHz), StepOps(steps[i], freertosHz));
  }

  lemma AppendRegroup(t0: seq<Op>, t1: seq<Op>, t2: seq<Op>, a: seq<Op>, b: seq<Op>)
    requires t1 == t0 + a && t2 == t1 + b
    ensures t2 == t0 + (a + b)
  {
  }

  /** One more pass advances the clock of a run by that pass's ticks. */
  lemma TickMsExtend(steps: seq<Step>, i: nat, c0: nat, c1: nat, c2: nat)
    requires i < |steps|
    requires c1 == c0 + TickMs(AllIrqs(steps[..i]))
    requires c2 == c1 + TickMs(steps[i].irqs)
    ensures c2 == c0 + TickMs(AllIrqs(steps[..i + 1]))
  {
    assert steps[..i + 1][..i] == steps[..i];
    TickMsAppend(AllIrqs(steps[..i]), steps[i].irqs);
  }

  /** One more pass moves the flushing flag of a run on by that pass. */
  lemma FlushingExtend(steps: seq<Step>, i: nat, f0: bool, f1: bool, f2: bool)
    requires i < |steps|
    requires f1 == FlushingAfterSteps(f0, steps[..i])
    requires f2 == FlushingAfterIrqs(f1 || steps[i].flushes != [], steps[i].irqs)
    ensures f2 == FlushingAfterSteps(f0, steps[..i + 1])
  {
    assert steps[..i + 1][..i] == steps[..i];
  }

  /** The flag is never raised without a flush: if it is set after a run, it
      was set before or some pass flushed an area. */
  lemma {:induction false} FlushingNeedsFlush(f: bool, steps: seq<Step>)
    ensures FlushingAfterSteps(f, steps) ==> f || exists k :: 0 <= k < |steps| && steps[k].flushes != []
    decreases |steps|
  {
    if steps != [] && FlushingAfterSteps(f, steps) {
      var n := |steps| - 1;
      if steps[n].flushes == [] {
        FlushingNeedsFlush(f, steps[..n]);
        if !f {
          var k :| 0 <= k < n && steps[..n][k].flushes != [];
          assert steps[k].flushes != [];
        }
      }
    }
  }

  /** A pass whose interrupts include a transfer-done event leaves the flag
      clear, and a pass that flushes without one leaves it set. */
  lemma FlushingAfterLastPass(f: bool, steps: seq<Step>)
    requires steps != []
    ensures TransDoneIrq in steps[|steps| - 1].irqs ==> !FlushingAfterSteps(f, steps)
    ensures steps[|steps| - 1].flushes != [] && TransDoneIrq !in steps[|steps| - 1].irqs ==> FlushingAfterSteps(f, steps)
  {
  }

  lemma {:induction false} CountTicksAppend(a: seq<Irq>, b: seq<Irq>)
    ensures CountTicks(a + b) == CountTicks(a) + CountTicks(b)
    decreases |b|
  {
    if b != [] {
      assert (a + b)[..|a + b| - 1] == a + b[..|b| - 1];
      CountTicksAppend(a, b[..|b| - 1]);
    } else {
      assert a + b == a;
    }
  }

  lemma {:induction false} TickMsAppend(a: seq<Irq>, b: seq<Irq>)
    ensures TickMs(a + b) == TickMs(a) + TickMs(b)
    decreases |b|
  {
    if b != [] {
      assert (a + b)[..|a + b| - 1] == a + b[..|b| - 1];
      TickMsAppend(a, b[..|b| - 1]);
    } else {
      assert a + b == a;
    }
  }

  /** Each tick firing adds exactly one tick period to the clock. */
  lemma {:induction false} TickMsPerFiring(irqs: seq<Irq>)
    ensures TickMs(irqs) == LVGL_TICK_PERIOD_MS * CountTicks(irqs)
  {
    if irqs != [] {
      TickMsPerFiring(irqs[..|irqs| - 1]);
    }
  }

  /** The lock discipline as a state machine over a trace: `held` is whether
      the API lock is held before the trace, `heldAfter` whether it is held
      after. The lock is taken only when free and released only when held;
      the handler and the flush path run only under it; the sleep happens
      only without it; interrupts may arrive either way. */
  predicate LockDisciplined(t: seq<Op>, held: bool, heldAfter: bool)
    decreases |t|
  {
    if t == [] then held == heldAfter
    else match t[0]
      case LockAcquire => !held && LockDisciplined(t[1..], true, heldAfter)
      case LockRelease => held && LockDisciplined(t[1..], false, heldAfter)
      case HandlerReturned(_) => held && LockDisciplined(t[1..], held, heldAfter)
      case RgbSwap(_) => held && LockDisciplined(t[1..], held, heldAfter)
      case DrawBitmap(_) => held && LockDisciplined(t[1..], held, heldAfter)
      case Sleep(_) => !held && LockDisciplined(t[1..], held, heldAfter)
      case TickInc(_) => LockDisciplined(t[1..], held, heldAfter)
      case FlushReady => LockDisciplined(t[1..], held, heldAfter)
  }

  lemma {:induction false} LockDisciplinedAppend(a: seq<Op>, b: seq<Op>, h0: bool, h1: bool, h2: bool)
    requires LockDisciplined(a, h0, h1) && LockDisciplined(b, h1, h2)
    ensures LockDisciplined(a + b, h0, h2)
    decreases |a|
  {
    if a != [] {
      assert (a + b)[1..] == a[1..] + b;
      var h := match a[0]
        case LockAcquire => true
        case LockRelease => false
        case _ => h0;
      LockDisciplinedAppend(a[1..], b, h, h1, h2);
    } else {
      assert a + b == b;
    }
  }

  lemma {:induction false} FlushesOpsLocked(areas: seq<Area>)
    ensures LockDisciplined(FlushesOps(areas), true, true)
  {
    if areas != [] {
      var a := areas[|areas| - 1];
      FlushesOpsLocked(areas[..|areas| - 1]);
      assert LockDisciplined(FlushOps(a), true, true) by {
        assert FlushOps(a)[1..][1..] == [];
      }
      LockDisciplinedAppend(FlushesOps(areas[..|areas| - 1]), FlushOps(a), true, true, true);
    }
  }

  lemma {:induction false} IrqOpsAnyLock(irqs: seq<Irq>, held: bool)
    ensures LockDisciplined(IrqOps(irqs), held, held)
  {
    if irqs != [] {
      IrqOpsAnyLock(irqs[..|irqs| - 1], held);
      var o := [IrqOp(irqs[|irqs| - 1])];
      assert LockDisciplined(o, held, held) by { assert o[1..] == []; }
      LockDisciplinedAppend(IrqOps(irqs[..|irqs| - 1]), o, held, held, held);
    }
  }

  lemma StepOpsDisciplined(s: Step, freertosHz: nat)
    requires freertosHz > 0
    ensures LockDisciplined(StepOps(s, freertosHz), false, false)
  {
    var us := Sleep(SleepMicros(Clamp(s.ret, freertosHz)));
    var tail := [HandlerReturned(s.ret), LockRelease];
    assert LockDisciplined(tail, true, false) by { assert tail[1..][1..] == []; }
    assert LockDisciplined([us], false, false) by { assert [us][1..] == []; }
    assert LockDisciplined([LockAcquire], false, true) by { assert [LockAcquire][1..] == []; }
    FlushesOpsLocked(s.flushes);
    IrqOpsAnyLock(s.irqs, false);
    LockDisciplinedAppend([LockAcquire], FlushesOps(s.flushes), false, true, true);
    LockDisciplinedAppend([LockAcquire] + FlushesOps(s.flushes), tail, false, true, false);
    LockDisciplinedAppend([LockAcquire] + FlushesOps(s.flushes) + tail, [us], false, false, false);
    LockDisciplinedAppend([LockAcquire] + FlushesOps(s.flushes) + tail + [us], IrqOps(s.irqs), false, false, false);
  }

  /** Every run of the refresh task keeps the lock discipline: the lock is free at
      every sleep, and it is free again at the end of each iteration. */
  lemma {:induction false} TaskOpsDisciplined(steps: seq<Step>, freertosHz: nat)
    requires freertosHz > 0
    ensures LockDisciplined(TaskOps(steps, freertosHz), false, false)
  {
    if steps != [] {
      TaskOpsDisciplined(steps[..|steps| - 1], freertosHz);
      StepOpsDisciplined(steps[|steps| - 1], freertosHz);
      LockDisciplinedAppend(TaskOps(steps[..|steps| - 1], freertosHz), StepOps(steps[|steps| - 1], freertosHz), false, false, false);
    }
  }

  /** Number of lv_timer_handler calls in a trace. */
  function HandlerCalls(t: seq<Op>): nat
  {
    if t == [] then 0 else HandlerCalls(t[..|t| - 1]) + (if t[|t| - 1].HandlerReturned? then 1 else 0)
  }

  /** Milliseconds added to the logical clock by the ticks of a trace. */
  function TickTotal(t: seq<Op>): nat
  {
    if t == [] then 0 else TickTotal(t[..|t| - 1]) + (if t[|t| - 1].TickInc? then t[|t| - 1].ms else 0)
  }

  lemma {:induction false} TallyAppend(a: seq<Op>, b: seq<Op>)
    ensures HandlerCalls(a + b) == HandlerCalls(a) + HandlerCalls(b)
    ensures TickTotal(a + b) == TickTotal(a) + TickTotal(b)
    decreases |b|
  {
    if b != [] {
      assert (a + b)[..|a + b| - 1] == a + b[..|b| - 1];
      TallyAppend(a, b[..|b| - 1]);
    } else {
      assert a + b == a;
    }
  }

  lemma {:induction false} FlushesOpsTally(areas: seq<Area>)
    ensures HandlerCalls(FlushesOps(areas)) == 0 && TickTotal(FlushesOps(areas)) == 0
  {
    if areas != [] {
      var a := areas[|areas| - 1];
      var f := FlushOps(a);
      FlushesOpsTally(areas[..|areas| - 1]);
      assert f[..1] == [RgbSwap(SwapCount(a))] && f[..1][..0] == [];
      assert HandlerCalls(f[..1]) == 0 && TickTotal(f[..1]) == 0;
      assert FlushesOps(areas) == FlushesOps(areas[..|areas| - 1]) + f;
      TallyAppend(FlushesOps(areas[..|areas| - 1]), f);
    }
  }

  lemma {:induction false} IrqOpsTally(irqs: seq<Irq>)
    ensures HandlerCalls(IrqOps(irqs)) == 0
    ensures TickTotal(IrqOps(irqs)) == LVGL_TICK_PERIOD_MS * CountTicks(irqs)
  {
    if irqs != [] {
      IrqOpsTally(irqs[..|irqs| - 1]);
      TallyAppend(IrqOps(irqs[..|irqs| - 1]), [IrqOp(irqs[|irqs| - 1])]);
      assert [IrqOp(irqs[|irqs| - 1])][..0] == [];
    }
  }

  lemma StepOpsTally(s: Step, freertosHz: nat)
    requires freertosHz > 0
    ensures HandlerCalls(StepOps(s, freertosHz)) == 1
    ensures TickTotal(StepOps(s, freertosHz)) == LVGL_TICK_PERIOD_MS * CountTicks(s.irqs)
  {
    var head := [LockAcquire];
    var tail := [HandlerReturned(s.ret), LockRelease];
    var sl := [Sleep(SleepMicros(Clamp(s.ret, freertosHz)))];
    assert head[..0] == [] && sl[..0] == [] && tail[..1] == [HandlerReturned(s.ret)] && tail[..1][..0] == [];
    FlushesOpsTally(s.flushes);
    IrqOpsTally(s.irqs);
    TallyAppend(head, FlushesOps(s.flushes));
    TallyAppend(head + FlushesOps(s.flushes), tail);
    TallyAppend(head + FlushesOps(s.flushes) + tail, sl);
    TallyAppend(head + FlushesOps(s.flushes) + tail + sl, IrqOps(s.irqs));
  }

  /** Each iteration calls lv_timer_handler exactly once, and the logical
      clock advances by one tick period per timer firing, whatever the number
      of iterations those firings were spread over. */
  lemma {:induction false} TaskOpsTally(steps: seq<Step>, freertosHz: nat)
    requires freertosHz > 0
    ensures HandlerCalls(TaskOps(steps, freertosHz)) == |steps|
    ensures TickTotal(TaskOps(steps, freertosHz)) == LVGL_TICK_PERIOD_MS * CountTicks(AllIrqs(steps))
  {
    if steps != [] {
      var init := steps[..|steps| - 1];
      var last := steps[|steps| - 1];
      TaskOpsTally(init, freertosHz);
      StepOpsTally(last, freertosHz);
      TallyAppend(TaskOps(init, freertosHz), StepOps(last, freertosHz));
      CountTicksAppend(AllIrqs(init), last.irqs);
    }
  }

  /** A sleep seen in a trace is a clamped delay in milliseconds, converted to
      microseconds without wrap-around. */
  predicate SleepInBand(o: Op, freertosHz: nat)
    requires freertosHz > 0
  {
    o.Sleep? ==>
      && o.us % 1000 == 0
      && o.us <= 1000 * LVGL_TASK_MAX_DELAY_MS
      && (LvglTaskMinDelayMs(freertosHz) <= LVGL_TASK_MAX_DELAY_MS ==> 1000 * LvglTaskMinDelayMs(freertosHz) <= o.us)
  }

  predicate SleepsInBand(t: seq<Op>, freertosHz: nat)
    requires freertosHz > 0
  {
    forall k :: 0 <= k < |t| ==> SleepInBand(t[k], freertosHz)
  }

  lemma {:induction false} FlushesOpsNoSleep(areas: seq<Area>, freertosHz: nat)
    requires freertosHz > 0
    ensures SleepsInBand(FlushesOps(areas), freertosHz)
  {
    if areas != [] {
      FlushesOpsNoSleep(areas[..|areas| - 1], freertosHz);
    }
  }

  lemma {:induction false} IrqOpsNoSleep(irqs: seq<Irq>, freertosHz: nat)
    requires freertosHz > 0
    ensures SleepsInBand(IrqOps(irqs), freertosHz)
  {
    if irqs != [] {
      IrqOpsNoSleep(irqs[..|irqs| - 1], freertosHz);
    }
  }

  /** Every sleep of every run lies in the clamp band, as microseconds that
      fit in 32 bits. */
  lemma {:induction false} TaskOpsSleepsInBand(steps: seq<Step>, freertosHz: nat)
    requires freertosHz > 0
    ensures SleepsInBand(TaskOps(steps, freertosHz), freertosHz)
  {
    if steps != [] {
      var s := steps[|steps| - 1];
      TaskOpsSleepsInBand(steps[..|steps| - 1], freertosHz);
      FlushesOpsNoSleep(s.flushes, freertosHz);
      IrqOpsNoSleep(s.irqs, freertosHz);
      ClampedSleepDoesNotWrap(s.ret, freertosHz);
    }
  }

  /** The scenario of an idle iteration during whose sleep a tick and a
      transfer-done event arrive: the next handler call sees the advanced
      clock and no pending transfer. */
  method IdleThenEventsScenario(a: Area, freertosHz: nat)
    requires freertosHz > 0
  {
    var port := new Port(freertosHz);
    port.PortTaskStep(Step([a], UINT32_MAX, [TickIrq, TransDoneIrq]));
    assert port.tickMs == 2 && !port.flushing;
    port.AcquireLock();
    var delay := port.TimerHandler([], 0);
    assert delay == 0;
    assert port.tickMs == 2 && !port.flushing;
    port.ReleaseLock();
  }
}

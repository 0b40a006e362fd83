/** The desktop simulator's main loop (sim/main_sim.c): unlike the firmware's
    refresh task it takes no lock and applies no clamp; it only replaces
    LVGL's "no timer ready" value by the default refresh period. */
module SimLoop {
  import opened CTypes
  import opened RefreshScheduler

  /** The LVGL constants the loop uses, which the modelled files do not
      define. */
  datatype LvglConsts = LvglConsts(noTimerReady: uint32, defRefrPeriod: uint32)

  /** The milliseconds slept after the handler returned `ret`. */
  function SimSleepMs(ret: uint32, c: LvglConsts): (ms: uint32)
    ensures ret == c.noTimerReady ==> ms == c.defRefrPeriod
    ensures ret != c.noTimerReady ==> ms == ret
  {
    if ret == c.noTimerReady then c.defRefrPeriod else ret
  }

  /** The argument of `usleep(sleep_time_ms * 1000)`, in `uint32_t`. */
  function SimSleepMicros(ms: uint32): (us: uint32)
    ensures ms <= 4294967 ==> us == ms * 1000
    ensures (ms * 1000 - us) % UINT32_LIMIT == 0
  {
    MulU32(ms, 1000)
  }

  /** The microsecond product is exact up to 4294967 ms and wraps above. */
  lemma SimSleepMicrosWraps(ms: uint32)
    ensures SimSleepMicros(ms) == ms * 1000 <==> ms <= 4294967
  {
  }

  /** A concrete wrap: a 4294968 ms suggestion sleeps 704 microseconds. */
  lemma SimSleepWrapExample()
    ensures SimSleepMicros(4294968) == 704
  {
  }

  /** The simulator sleeps a zero suggestion for zero milliseconds where the
      firmware task sleeps at least one tick, and it sleeps long suggestions
      unclamped. */
  lemma SimDiffersFromFirmware(c: LvglConsts, freertosHz: nat)
    requires 0 < freertosHz <= 1000 && c.noTimerReady != 0 && c.noTimerReady != 10000
    ensures SimSleepMs(0, c) == 0 < Clamp(0, freertosHz)
    ensures SimSleepMs(10000, c) == 10000 > Clamp(10000, freertosHz)
  {
  }

  /** The calls the simulator makes, in order. */
  datatype SimOp =
    | LvInit
    | SdlHalInit(w: int, h: int)
    | CreateUi
    | HandlerReturned(ret: uint32)
    | Sleep(us: uint32)

  function IterationOps(ret: uint32, c: LvglConsts): seq<SimOp>
  {
    [HandlerReturned(ret), Sleep(SimSleepMicros(SimSleepMs(ret, c)))]
  }

  function LoopOps(rets: seq<uint32>, c: LvglConsts): seq<SimOp>
  {
    if rets == [] then [] else LoopOps(rets[..|rets| - 1], c) + IterationOps(rets[|rets| - 1], c)
  }

  /** The loop alternates one handler call with one sleep. */
  lemma {:induction false} LoopOpsShape(rets: seq<uint32>, c: LvglConsts)
    ensures |LoopOps(rets, c)| == 2 * |rets|
    ensures forall i :: 0 <= i < |rets| ==>
      LoopOps(rets, c)[2 * i] == HandlerReturned(rets[i]) &&
      LoopOps(rets, c)[2 * i + 1] == Sleep(SimSleepMicros(SimSleepMs(rets[i], c)))
  {
    if rets != [] {
      LoopOpsShape(rets[..|rets| - 1], c);
    }
  }

  class Simulator {
    const lvgl: LvglConsts
    ghost var trace: seq<SimOp>

    constructor (lvgl: LvglConsts)
      ensures this.lvgl == lvgl && trace == []
    {
      this.lvgl := lvgl;
      trace := [];
    }

    /** main() of sim/main_sim.c over the first |rets| passes of its endless
        loop: initialisation in fixed order, then one handler call and one
        sleep per pass. */
    method RunSimulator(rets: seq<uint32>)
      modifies this
      ensures trace == old(trace) + [LvInit, SdlHalInit(240, 320), CreateUi] + LoopOps(rets, lvgl)
    {
      trace := trace + [LvInit];
      trace := trace + [SdlHalInit(240, 320)];
      trace := trace + [CreateUi];
      ghost var start := trace;
      var i := 0;
      while i < |rets|
        invariant 0 <= i <= |rets|
        invariant trace == start + LoopOps(rets[..i], lvgl)
      {
        assert rets[..i + 1][..i] == rets[..i];
        var sleepTimeMs := rets[i];
        trace := trace + [HandlerReturned(sleepTimeMs)];
        if sleepTimeMs == lvgl.noTimerReady {
          sleepTimeMs := lvgl.defRefrPeriod;
        }
        trace := trace + [Sleep(MulU32(sleepTimeMs, 1000))];
        i := i + 1;
      }
      assert rets[..i] == rets;
    }
  }
}

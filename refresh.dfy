/** The delay rule of the LVGL refresh task (main/gui/gui.c, lvgl_port_task):
    the render engine's suggested delay is raised to the minimum and then
    lowered to the maximum before the refresh task sleeps. */
module RefreshScheduler {
  import opened CTypes
  import opened SystemConfig

  /** The MAX and MIN macros of <sys/param.h>. */
  function Max(a: int, b: int): int { if a > b then a else b }
  function Min(a: int, b: int): int { if a < b then a else b }

  /** The sleep, in milliseconds, chosen for a suggested delay `d` on a
      FreeRTOS build ticking at `freertosHz`. */
  function Clamp(d: uint32, freertosHz: nat): (r: uint32)
    requires freertosHz > 0
    ensures r <= LVGL_TASK_MAX_DELAY_MS
    ensures LvglTaskMinDelayMs(freertosHz) <= LVGL_TASK_MAX_DELAY_MS ==> LvglTaskMinDelayMs(freertosHz) <= r
    ensures LvglTaskMinDelayMs(freertosHz) > LVGL_TASK_MAX_DELAY_MS ==> r == LVGL_TASK_MAX_DELAY_MS
    ensures LvglTaskMinDelayMs(freertosHz) <= d <= LVGL_TASK_MAX_DELAY_MS ==> r == d
  {
    Min(Max(d, LvglTaskMinDelayMs(freertosHz)), LVGL_TASK_MAX_DELAY_MS)
  }

  /** Clamping twice is clamping once. */
  lemma ClampIdempotent(d: uint32, freertosHz: nat)
    requires freertosHz > 0
    ensures Clamp(Clamp(d, freertosHz), freertosHz) == Clamp(d, freertosHz)
  {
  }

  /** When the band [MIN, MAX] is non-empty, exactly the delays inside it pass
      through unchanged. */
  lemma ClampFixedPoints(d: uint32, freertosHz: nat)
    requires freertosHz > 0
    requires LvglTaskMinDelayMs(freertosHz) <= LVGL_TASK_MAX_DELAY_MS
    ensures Clamp(d, freertosHz) == d <==> LvglTaskMinDelayMs(freertosHz) <= d <= LVGL_TASK_MAX_DELAY_MS
  {
  }

  /** Independent characterisation: with a non-empty band, the clamped delay
      is the point of the band nearest to the suggestion. */
  lemma ClampIsNearestInBand(d: uint32, freertosHz: nat, x: int)
    requires freertosHz > 0
    requires LvglTaskMinDelayMs(freertosHz) <= x <= LVGL_TASK_MAX_DELAY_MS
    ensures Dist(Clamp(d, freertosHz), d) <= Dist(x, d)
  {
  }

  function Dist(a: int, b: int): nat { if a <= b then b - a else a - b }

  /** A zero suggestion sleeps the minimum (when the minimum is within the
      maximum); any suggestion of the maximum or more, including LVGL's
      all-ones "no timer ready" value, sleeps exactly the maximum. */
  lemma ClampEdgeValues(freertosHz: nat)
    requires freertosHz > 0
    ensures LvglTaskMinDelayMs(freertosHz) <= LVGL_TASK_MAX_DELAY_MS ==> Clamp(0, freertosHz) == LvglTaskMinDelayMs(freertosHz)
    ensures forall d: uint32 :: d >= LVGL_TASK_MAX_DELAY_MS ==> Clamp(d, freertosHz) == LVGL_TASK_MAX_DELAY_MS
    ensures Clamp(UINT32_MAX, freertosHz) == LVGL_TASK_MAX_DELAY_MS
  {
  }

  /** With a tick rate of 1 Hz the minimum (1000 ms) exceeds the maximum, and
      the max-then-min order makes every sleep exactly 500 ms. */
  lemma ClampAtOneHertz(d: uint32)
    ensures LvglTaskMinDelayMs(1) == 1000
    ensures Clamp(d, 1) == LVGL_TASK_MAX_DELAY_MS
  {
  }

  /** The argument of `usleep(1000 * time_till_next_ms)`, computed in
      `uint32_t` arithmetic. */
  function SleepMicros(ms: uint32): (us: uint32)
    ensures ms <= 4294967 ==> us == 1000 * ms
    ensures (1000 * ms - us) % UINT32_LIMIT == 0
  {
    MulU32(1000, ms)
  }

  /** A clamped delay never makes the microsecond product wrap: the argument
      handed to usleep is exactly 1000 times the sleep and at most 500000. */
  lemma ClampedSleepDoesNotWrap(d: uint32, freertosHz: nat)
    requires freertosHz > 0
    ensures SleepMicros(Clamp(d, freertosHz)) == 1000 * Clamp(d, freertosHz)
    ensures SleepMicros(Clamp(d, freertosHz)) <= 1000 * LVGL_TASK_MAX_DELAY_MS
  {
  }
}

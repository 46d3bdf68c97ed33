/**
 * The pure parts of the engine's once-a-second timer: when it should run, and how
 * long to wait until the next tick so that ticks land on whole seconds.
 */
module UpdateTimer {

  /** One second, in milliseconds. */
  const INTERACTIVE_UPDATE_RATE_MS: int := 1000

  /**
   * Java's `timeMs % INTERACTIVE_UPDATE_RATE_MS` on a long: the remainder takes the sign
   * of the dividend (Dafny's own `%` is never negative).
   */
  function JavaRemRate(a: int): (r: int)
    ensures a >= 0 ==> 0 <= r < INTERACTIVE_UPDATE_RATE_MS
    ensures a < 0 ==> -INTERACTIVE_UPDATE_RATE_MS < r <= 0
    ensures (a - r) % INTERACTIVE_UPDATE_RATE_MS == 0
  {
    if a >= 0 then a % INTERACTIVE_UPDATE_RATE_MS
    else -((-a) % INTERACTIVE_UPDATE_RATE_MS)
  }

  /** The timer runs only while the face is visible and interactive. */
  predicate ShouldTimerBeRunning(visible: bool, ambient: bool) {
    visible && !ambient
  }

  /** The delay before the next tick, computed from the wall clock `now` (ms since the epoch). */
  function TickDelay(now: int): (delay: int)
    ensures 1 <= delay < 2 * INTERACTIVE_UPDATE_RATE_MS
    ensures (now + delay) % INTERACTIVE_UPDATE_RATE_MS == 0
    ensures now >= 0 ==> delay <= INTERACTIVE_UPDATE_RATE_MS
  {
    INTERACTIVE_UPDATE_RATE_MS - JavaRemRate(now)
  }

  /**
   * For a clock at or after the epoch the next tick falls on the NEXT second boundary:
   * no whole second lies strictly between `now` and `now + TickDelay(now)`.
   */
  lemma TickIsNextSecond(now: int, d: int)
    requires now >= 0 && 1 <= d < TickDelay(now)
    ensures (now + d) % INTERACTIVE_UPDATE_RATE_MS != 0
  {
    var r := now % INTERACTIVE_UPDATE_RATE_MS;
    var q := now / INTERACTIVE_UPDATE_RATE_MS;
    assert now == q * INTERACTIVE_UPDATE_RATE_MS + r;
    assert r + d < INTERACTIVE_UPDATE_RATE_MS;
    assert now + d == q * INTERACTIVE_UPDATE_RATE_MS + (r + d);
  }
}

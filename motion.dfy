/** The fixed-step ramp that paces every motion of the hand. */
module Motion {

  /** Every motion is split into this many equal steps. */
  const MOVE_STEPS := 25

  /**
   * The stepping loop of a motion: MOVE_STEPS iterations, each writing one intermediate posture
   * and then pausing for durationMs / MOVE_STEPS milliseconds. Returns how many steps ran and
   * for how long the loop blocked in total. The pause truncates, so the loop blocks for at most
   * durationMs and falls short of it by less than one millisecond per step; a duration shorter
   * than MOVE_STEPS gives no pacing at all, but still all the steps.
   */
  method PaceMotion(durationMs: int) returns (steps: nat, blockedMs: int)
    requires durationMs >= 0
    ensures steps == MOVE_STEPS
    ensures blockedMs == MOVE_STEPS * (durationMs / MOVE_STEPS)
    ensures 0 <= durationMs - blockedMs < MOVE_STEPS
    ensures durationMs < MOVE_STEPS ==> blockedMs == 0
  {
    var sleepTime := durationMs / MOVE_STEPS;
    steps, blockedMs := 0, 0;
    for s := 1 to MOVE_STEPS + 1
      invariant steps == s - 1
      invariant blockedMs == steps * sleepTime
    {
      // The intermediate posture written here is computed in floating point; it is not modelled.
      blockedMs := blockedMs + sleepTime;
      steps := steps + 1;
    }
  }
}

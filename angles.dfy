/** Servo angles, hand postures and the fixed posture each operating mode drives the hand to. */
module Angles {

  const MIN_ANGLE := 0
  const MAX_ANGLE := 180

  // Per-mode default angles (thumb, index, fingers).
  const DEFAULT_RELAX_T := 180
  const DEFAULT_RELAX_I := 180
  const DEFAULT_RELAX_F := 180

  const DEFAULT_PINCH_T := 30
  const DEFAULT_PINCH_I := 40
  const DEFAULT_PINCH_F := 120

  /** The thumb is held at this angle throughout a grasp. */
  const DEFAULT_GRASP_T := 0
  const DEFAULT_GRASP_I := 60
  const DEFAULT_GRASP_F := 45

  const DEFAULT_POINT_T := 120
  const DEFAULT_POINT_I := 180
  const DEFAULT_POINT_F := 0

  /** Motion durations: every mode change and adjustment ramps over MOVE_DURATION_MS, except Relax. */
  const MOVE_DURATION_MS := 500
  const RELAX_DURATION_MS := 400

  datatype Mode = Relax | Pinch | Grasp | Pointing

  /** The three servo angles that make up one hand shape. */
  datatype Posture = Posture(thumb: int, index: int, fingers: int)

  predicate AngleInRange(a: int) {
    MIN_ANGLE <= a <= MAX_ANGLE
  }

  predicate InRange(p: Posture) {
    AngleInRange(p.thumb) && AngleInRange(p.index) && AngleInRange(p.fingers)
  }

  function Dist(a: int, b: int): nat {
    if a <= b then b - a else a - b
  }

  /** Saturates `a` into [lo, hi]; values already inside are kept. */
  function ClampTo(a: int, lo: int, hi: int): (r: int)
    requires lo <= hi
    ensures lo <= r <= hi
    ensures lo <= a <= hi ==> r == a
  {
    if a < lo then lo
    else if a > hi then hi
    else a
  }

  /** clampAngle: every angle handed to a servo lies in [0, 180]; in-range angles pass unchanged. */
  function ClampAngle(a: int): (r: int)
    ensures AngleInRange(r)
    ensures AngleInRange(a) ==> r == a
    ensures a < MIN_ANGLE ==> r == MIN_ANGLE
    ensures a > MAX_ANGLE ==> r == MAX_ANGLE
  {
    ClampTo(a, MIN_ANGLE, MAX_ANGLE)
  }

  /** The final saturation of the battery percentage into [0, 100]. */
  function ClampPercent(p: int): (r: int)
    ensures 0 <= r <= 100
    ensures 0 <= p <= 100 ==> r == p
    ensures p < 0 ==> r == 0
    ensures p > 100 ==> r == 100
  {
    ClampTo(p, 0, 100)
  }

  /** The posture a mode change loads as the new target. */
  function DefaultPosture(m: Mode): (p: Posture)
    ensures InRange(p)
    ensures m == Grasp <==> p.thumb == DEFAULT_GRASP_T
  {
    match m
    case Relax => Posture(DEFAULT_RELAX_T, DEFAULT_RELAX_I, DEFAULT_RELAX_F)
    case Pinch => Posture(DEFAULT_PINCH_T, DEFAULT_PINCH_I, DEFAULT_PINCH_F)
    case Grasp => Posture(DEFAULT_GRASP_T, DEFAULT_GRASP_I, DEFAULT_GRASP_F)
    case Pointing => Posture(DEFAULT_POINT_T, DEFAULT_POINT_I, DEFAULT_POINT_F)
  }

  /** The ramp duration a mode change uses: Relax is the quicker "reset" motion. */
  function MoveDuration(m: Mode): (d: int)
    ensures 0 < d <= MOVE_DURATION_MS
    ensures d < MOVE_DURATION_MS <==> m == Relax
    ensures m == Relax ==> d == RELAX_DURATION_MS
  {
    if m == Relax then RELAX_DURATION_MS else MOVE_DURATION_MS
  }

  /** The clamped value is the point of [lo, hi] nearest to `a`. */
  lemma ClampIsNearest(a: int, lo: int, hi: int, b: int)
    requires lo <= hi && lo <= b <= hi
    ensures Dist(a, ClampTo(a, lo, hi)) <= Dist(a, b)
  {
  }

  /**
   * Two shifts in the same direction, each followed by a clamp, equal one clamped shift by the sum:
   * once an angle has saturated at a bound, further shifts the same way leave it there.
   */
  lemma ClampShiftTwice(x: int, a: int, b: int)
    requires AngleInRange(x)
    requires (a >= 0 && b >= 0) || (a <= 0 && b <= 0)
    ensures ClampAngle(ClampAngle(x + a) + b) == ClampAngle(x + a + b)
  {
  }
}

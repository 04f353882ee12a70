/** Properties of the controller that relate several operations or whole runs of inputs. */
module Properties {
  import opened Angles
  import opened Controller

  // ---------------------------------------------------------------- the state invariant

  /**
   * Whatever sequence of button passes, wireless messages and link changes arrives, every target
   * stays in [0, 180], the thumb stays at its grasp angle for as long as the hand is in Grasp, and
   * between operations the hand rests on its target.
   */
  lemma {:induction false} RunKeepsInvariant(s: State, inputs: seq<Input>)
    requires Invariant(s)
    ensures Invariant(Run(s, inputs))
    decreases |inputs|
  {
    if inputs != [] {
      RunKeepsInvariant(Step(s, inputs[0]), inputs[1..]);
    }
  }

  /** From power-up on, every reachable state satisfies the invariant. */
  lemma ReachableStatesAreSafe(levels: Buttons, inputs: seq<Input>)
    ensures var r := Run(Initial(levels), inputs);
      InRange(r.current) && InRange(r.target) && r.current == r.target &&
      (r.mode == Grasp ==> r.target.thumb == DEFAULT_GRASP_T)
  {
    RunKeepsInvariant(Initial(levels), inputs);
  }

  // ---------------------------------------------------------------- adjustments

  /** Any number of adjustments in Grasp, by any delta, leave the mode and the thumb target alone. */
  lemma {:induction false} GraspThumbFixed(s: State, delta: int, n: nat)
    requires s.mode == Grasp && n > 0
    ensures var r := AdjustedTimes(s, delta, n);
      r.mode == Grasp && r.target.thumb == DEFAULT_GRASP_T && r.current.thumb == DEFAULT_GRASP_T
  {
    if n > 1 {
      GraspThumbFixed(s, delta, n - 1);
    }
  }

  /** `n` clamped shifts of one angle by `delta`, one after the other. */
  function ClampedShifts(x: int, delta: int, n: nat): int {
    if n == 0 then x else ClampAngle(ClampedShifts(x, delta, n - 1) + delta)
  }

  /** Repeated adjustment outside Relax shifts each adjustable target on its own; the mode is kept. */
  lemma {:induction false} AdjustedTimesShifts(s: State, delta: int, n: nat)
    requires TargetSafe(s) && s.mode != Relax
    ensures var r := AdjustedTimes(s, delta, n);
      r.mode == s.mode &&
      r.target.index == ClampedShifts(s.target.index, delta, n) &&
      r.target.fingers == ClampedShifts(s.target.fingers, delta, n) &&
      r.target.thumb == (if s.mode == Grasp then DEFAULT_GRASP_T else ClampedShifts(s.target.thumb, delta, n))
  {
    if n > 0 {
      AdjustedTimesShifts(s, delta, n - 1);
      var p := AdjustedTimes(s, delta, n - 1);
      assert AdjustedTimes(s, delta, n) == Adjusted(p, delta);
    }
  }

  /** Shifting an in-range angle `n` times by `delta` with a clamp each time clamps once at the end. */
  lemma {:induction false} ClampedShiftsClosedForm(x: int, delta: int, n: nat)
    requires AngleInRange(x)
    ensures ClampedShifts(x, delta, n) == ClampAngle(x + n * delta)
  {
    if n > 0 {
      ClampedShiftsClosedForm(x, delta, n - 1);
      ClampStep(x, delta, n);
    }
  }

  /**
   * Closed form of repeated INC or repeated DEC outside Relax: after `n` shifts by `delta` every
   * adjustable target is its starting value shifted by n * delta and clamped once, so a target that
   * saturates at 0 or 180 stays there. In Grasp the thumb stays at its grasp angle.
   */
  lemma AdjustedTimesClosedForm(s: State, delta: int, n: nat)
    requires TargetSafe(s) && s.mode != Relax
    ensures var r := AdjustedTimes(s, delta, n);
      r.mode == s.mode &&
      r.target.index == ClampAngle(s.target.index + n * delta) &&
      r.target.fingers == ClampAngle(s.target.fingers + n * delta) &&
      r.target.thumb == (if s.mode == Grasp then DEFAULT_GRASP_T else ClampAngle(s.target.thumb + n * delta))
  {
    AdjustedTimesShifts(s, delta, n);
    ClampedShiftsClosedForm(s.target.index, delta, n);
    ClampedShiftsClosedForm(s.target.fingers, delta, n);
    ClampedShiftsClosedForm(s.target.thumb, delta, n);
  }

  /** One more clamped shift by `delta` after m - 1 of them is one clamped shift by m * delta. */
  lemma ClampStep(x: int, delta: int, m: nat)
    requires AngleInRange(x) && m > 0
    ensures ClampAngle(ClampAngle(x + (m - 1) * delta) + delta) == ClampAngle(x + m * delta)
  {
    var a := (m - 1) * delta;
    MulStep(m, delta);
    MulSign(m - 1, delta);
    ClampShiftTwice(x, a, delta);
  }

  lemma MulStep(m: int, d: int)
    ensures (m - 1) * d + d == m * d
  {
  }

  lemma MulSign(k: nat, d: int)
    ensures d >= 0 ==> k * d >= 0
    ensures d <= 0 ==> k * d <= 0
  {
  }

  /**
   * From the Pointing posture {120, 180, 0}, repeated DEC keeps the fingers at 0, and from the
   * eighth press on every target is 0 and stays there.
   */
  lemma PointingDecreaseSaturates(s: State, n: nat)
    requires s.mode == Pointing && s.target == DefaultPosture(Pointing)
    ensures AdjustedTimes(s, -ADJUST_STEP, n).target.fingers == 0
    ensures n >= 8 ==> AdjustedTimes(s, -ADJUST_STEP, n).target == Posture(0, 0, 0)
  {
    AdjustedTimesClosedForm(s, -ADJUST_STEP, n);
  }

  /** The worked scenarios: GRASP from power-up, then INC in Grasp. */
  lemma GraspScenario(levels: Buttons)
    ensures var g := Handled(Initial(levels), ParseCommand("GRASP"));
      g.target == Posture(0, 60, 45) && g.current == Posture(0, 60, 45) &&
      Handled(g, ParseCommand("INC")).target == Posture(0, 85, 70)
  {
  }

  // ---------------------------------------------------------------- buttons

  /** A second poll pass with unchanged levels fires nothing and changes nothing. */
  lemma PollIdempotent(s: State, cur: Buttons)
    ensures Polled(Polled(s, cur), cur) == Polled(s, cur)
  {
  }

  /**
   * Levels held unchanged over any number of poll passes act exactly as the first pass:
   * a held button fires once, on the pass that saw its falling edge.
   */
  lemma {:induction false} HeldLevelsActOnce(s: State, cur: Buttons, samples: seq<Buttons>)
    requires samples != []
    requires forall i :: 0 <= i < |samples| ==> samples[i] == cur
    ensures PolledAll(s, samples) == Polled(s, cur)
    decreases |samples|
  {
    if |samples| > 1 {
      HeldLevelsActOnce(Polled(s, cur), cur, samples[1..]);
      PollIdempotent(s, cur);
    }
  }

  datatype ButtonId = RelaxButton | PinchButton | GraspButton | PointButton | IncButton | DecButton

  function LevelOf(b: Buttons, k: ButtonId): Level {
    match k
    case RelaxButton => b.relax
    case PinchButton => b.pinch
    case GraspButton => b.grasp
    case PointButton => b.point
    case IncButton => b.inc
    case DecButton => b.dec
  }

  /** The command a button press stands for. */
  function ButtonCommand(k: ButtonId): Command {
    match k
    case RelaxButton => Select(Relax)
    case PinchButton => Select(Pinch)
    case GraspButton => Select(Grasp)
    case PointButton => Select(Pointing)
    case IncButton => Increase
    case DecButton => Decrease
  }

  /**
   * A lone button edge does exactly what the matching wireless command does: both inputs feed
   * the same mode and adjustment operations.
   */
  lemma ButtonMatchesCommand(s: State, cur: Buttons, k: ButtonId)
    requires Edge(LevelOf(s.prev, k), LevelOf(cur, k))
    requires forall j: ButtonId :: j != k ==> !Edge(LevelOf(s.prev, j), LevelOf(cur, j))
    ensures Polled(s, cur) == Handled(s, ButtonCommand(k)).(prev := cur)
  {
    assert RelaxButton != k ==> !Edge(LevelOf(s.prev, RelaxButton), LevelOf(cur, RelaxButton));
    assert PinchButton != k ==> !Edge(LevelOf(s.prev, PinchButton), LevelOf(cur, PinchButton));
    assert GraspButton != k ==> !Edge(LevelOf(s.prev, GraspButton), LevelOf(cur, GraspButton));
    assert PointButton != k ==> !Edge(LevelOf(s.prev, PointButton), LevelOf(cur, PointButton));
    assert IncButton != k ==> !Edge(LevelOf(s.prev, IncButton), LevelOf(cur, IncButton));
    assert DecButton != k ==> !Edge(LevelOf(s.prev, DecButton), LevelOf(cur, DecButton));
  }

  /** How many times button `k` fires over successive samples, starting from level `prev`. */
  function Firings(prev: Level, samples: seq<Buttons>, k: ButtonId): nat
    decreases |samples|
  {
    if samples == [] then 0
    else (if Edge(prev, LevelOf(samples[0], k)) then 1 else 0) + Firings(LevelOf(samples[0], k), samples[1..], k)
  }

  /** How many samples see button `k` released. */
  function Releases(samples: seq<Buttons>, k: ButtonId): nat
    decreases |samples|
  {
    if samples == [] then 0
    else (if LevelOf(samples[0], k) == High then 1 else 0) + Releases(samples[1..], k)
  }

  /**
   * How many of the poll passes over `samples`, starting in state `s`, fire button `k`: each pass
   * compares the level the controller remembers with the sample, exactly as `Polled` does.
   */
  function PassFirings(s: State, samples: seq<Buttons>, k: ButtonId): nat
    decreases |samples|
  {
    if samples == [] then 0
    else (if Edge(LevelOf(s.prev, k), LevelOf(samples[0], k)) then 1 else 0) + PassFirings(Polled(s, samples[0]), samples[1..], k)
  }

  /** The controller's poll passes fire a button exactly as often as its edges over the samples. */
  lemma {:induction false} PassFiringsAreFirings(s: State, samples: seq<Buttons>, k: ButtonId)
    ensures PassFirings(s, samples, k) == Firings(LevelOf(s.prev, k), samples, k)
    decreases |samples|
  {
    if samples != [] {
      PassFiringsAreFirings(Polled(s, samples[0]), samples[1..], k);
    }
  }

  lemma {:induction false} HeldLevelFiresOnce(samples: seq<Buttons>, k: ButtonId)
    requires samples != []
    requires forall i :: 0 <= i < |samples| ==> LevelOf(samples[i], k) == Low
    ensures Firings(High, samples, k) == 1
  {
    HeldLevelStaysQuiet(samples[1..], k);
  }

  lemma {:induction false} HeldLevelStaysQuiet(samples: seq<Buttons>, k: ButtonId)
    requires forall i :: 0 <= i < |samples| ==> LevelOf(samples[i], k) == Low
    ensures Firings(Low, samples, k) == 0
    decreases |samples|
  {
    if samples != [] {
      HeldLevelStaysQuiet(samples[1..], k);
    }
  }

  lemma {:induction false} EdgesNeedReleases(prev: Level, samples: seq<Buttons>, k: ButtonId)
    ensures Firings(prev, samples, k) <= (if prev == High then 1 else 0) + Releases(samples, k)
    decreases |samples|
  {
    if samples != [] {
      EdgesNeedReleases(LevelOf(samples[0], k), samples[1..], k);
    }
  }

  /**
   * A button that was up at the last poll, then pressed and held down over any number of poll
   * passes, fires exactly once.
   */
  lemma HeldButtonFiresOnce(s: State, samples: seq<Buttons>, k: ButtonId)
    requires LevelOf(s.prev, k) == High && samples != []
    requires forall i :: 0 <= i < |samples| ==> LevelOf(samples[i], k) == Low
    ensures PassFirings(s, samples, k) == 1
  {
    PassFiringsAreFirings(s, samples, k);
    HeldLevelFiresOnce(samples, k);
  }

  /** A button that was already down at the last poll and stays down never fires again. */
  lemma HeldButtonStaysQuiet(s: State, samples: seq<Buttons>, k: ButtonId)
    requires LevelOf(s.prev, k) == Low
    requires forall i :: 0 <= i < |samples| ==> LevelOf(samples[i], k) == Low
    ensures PassFirings(s, samples, k) == 0
  {
    PassFiringsAreFirings(s, samples, k);
    HeldLevelStaysQuiet(samples, k);
  }

  /**
   * Over any poll passes a button fires at most once more than the number of passes that saw it
   * released: every further firing needs a release in between.
   */
  lemma FiringsNeedReleases(s: State, samples: seq<Buttons>, k: ButtonId)
    ensures PassFirings(s, samples, k) <= (if LevelOf(s.prev, k) == High then 1 else 0) + Releases(samples, k)
  {
    PassFiringsAreFirings(s, samples, k);
    EdgesNeedReleases(LevelOf(s.prev, k), samples, k);
  }

  // ---------------------------------------------------------------- wireless commands

  /** Every recognised command is recovered from its own token. */
  lemma ParseTokenRoundTrip(c: Command)
    requires !c.Unknown?
    ensures ParseCommand(TokenOf(c)) == c
  {
  }

  // ---------------------------------------------------------------- telemetry

  /** The unsigned subtraction measures elapsed time correctly even when the clock wraps past 2^32. */
  lemma ElapsedAcrossWrap(last: U32, d: int)
    requires 0 <= d < U32_MODULUS
    ensures Elapsed((last + d) % U32_MODULUS, last) == d
  {
  }

  /** While no peer is connected, no timer check sends anything and the timer state is untouched. */
  lemma {:induction false} DisconnectedNeverNotifies(s: State, times: seq<U32>)
    requires !s.connected
    ensures Notifications(s, times) == 0 && TickedAll(s, times) == s
    decreases |times|
  {
    if times != [] {
      DisconnectedNeverNotifies(Ticked(s, times[0]), times[1..]);
    }
  }

  /** After a notification at `t1`, the next one needs more than 5 s to pass since `t1`. */
  lemma NotificationsSpaced(s: State, t1: U32, t2: U32)
    requires BatteryDue(s, t1)
    ensures BatteryDue(Ticked(s, t1), t2) <==> Elapsed(t2, t1) > BATTERY_PERIOD_MS
  {
  }
}

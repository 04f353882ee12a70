/**
 * The controller as pure transitions on a snapshot of its state: mode changes, adjustments,
 * motion, button polling, wireless command dispatch and the battery-notification timer.
 * The transition functions specify the methods of Firmware.Hand; the functions over runs of
 * inputs (Run, PolledAll, TickedAll, AdjustedTimes, Notifications) are what the lemmas in
 * Properties speak about.
 */
module Controller {
  import opened Angles

  /** INC and DEC shift the adjustable targets by this many degrees. */
  const ADJUST_STEP := 25
  /** A battery notification is due once more than this many milliseconds have passed. */
  const BATTERY_PERIOD_MS := 5000
  /** Millisecond timestamps are 32-bit unsigned and wrap around. */
  const U32_MODULUS := 0x1_0000_0000

  type U32 = x: int | 0 <= x < U32_MODULUS

  datatype Option<T> = None | Some(value: T)

  /** The level of one button; the buttons are active-low, so Low means pressed. */
  datatype Level = Low | High

  /** One sample of the six buttons, in the order the poll loop checks them. */
  datatype Buttons = Buttons(relax: Level, pinch: Level, grasp: Level, point: Level, inc: Level, dec: Level)

  /**
   * Everything the control loop keeps between passes: the mode, the current and target postures,
   * the previous level of every button, the connection flag and the time of the last
   * battery notification.
   */
  datatype State = State(
    mode: Mode,
    current: Posture,
    target: Posture,
    prev: Buttons,
    connected: bool,
    lastBattery: U32)

  /** The target is a safe posture, and during a grasp the thumb is held at its grasp angle. */
  predicate TargetSafe(s: State) {
    InRange(s.target) && (s.mode == Grasp ==> s.target.thumb == DEFAULT_GRASP_T)
  }

  /** What holds between operations: a safe target, and the hand at rest on it. */
  predicate Invariant(s: State) {
    TargetSafe(s) && s.current == s.target
  }

  /** The state after start-up: Relax, every angle at 180, buttons sampled, no peer, timer at 0. */
  function Initial(levels: Buttons): (r: State)
    ensures Invariant(r) && r.mode == Relax && r.current == DefaultPosture(Relax)
    ensures r.prev == levels && !r.connected && r.lastBattery == 0
  {
    State(Relax, DefaultPosture(Relax), DefaultPosture(Relax), levels, false, 0)
  }

  // ---------------------------------------------------------------- motion and modes

  /** The end state of a motion: the hand reaches the target and nothing else changes. */
  function Moved(s: State): (r: State)
    ensures r.current == s.target && r.target == s.target && r.mode == s.mode
    ensures r.prev == s.prev && r.connected == s.connected && r.lastBattery == s.lastBattery
    ensures TargetSafe(s) <==> Invariant(r)
  {
    s.(current := s.target)
  }

  /** Selecting mode `m` loads its posture as the target and moves there. */
  function ModeChanged(s: State, m: Mode): (r: State)
    ensures r.mode == m && r.target == DefaultPosture(m) && r.current == r.target
    ensures r.prev == s.prev && r.connected == s.connected && r.lastBattery == s.lastBattery
    ensures Invariant(r)
  {
    Moved(s.(mode := m, target := DefaultPosture(m)))
  }

  /** `after` is `before` moved by exactly `delta` when that stays in [0, 180], and the bound it overshot otherwise. */
  predicate ShiftSaturated(before: int, delta: int, after: int) {
    (AngleInRange(before + delta) ==> after == before + delta) &&
    (before + delta < MIN_ANGLE ==> after == MIN_ANGLE) &&
    (before + delta > MAX_ANGLE ==> after == MAX_ANGLE)
  }

  /**
   * The targets after shifting by `delta` in mode `m`: during a grasp the thumb returns to its grasp
   * angle whatever `delta` is, every other angle is shifted and clamped.
   */
  function AdjustedTarget(m: Mode, t: Posture, delta: int): (r: Posture)
    ensures InRange(r)
    ensures m == Grasp ==> r.thumb == DEFAULT_GRASP_T
    ensures m != Grasp ==> ShiftSaturated(t.thumb, delta, r.thumb)
    ensures ShiftSaturated(t.index, delta, r.index) && ShiftSaturated(t.fingers, delta, r.fingers)
  {
    var thumb := if m == Grasp then DEFAULT_GRASP_T else ClampAngle(t.thumb + delta);
    Posture(thumb, ClampAngle(t.index + delta), ClampAngle(t.fingers + delta))
  }

  /** An adjustment: shift the targets, then move there. The mode is kept. */
  function Adjusted(s: State, delta: int): (r: State)
    ensures r.mode == s.mode && r.target == AdjustedTarget(s.mode, s.target, delta)
    ensures r.prev == s.prev && r.connected == s.connected && r.lastBattery == s.lastBattery
    ensures Invariant(r)
  {
    Moved(s.(target := AdjustedTarget(s.mode, s.target, delta)))
  }

  /** INC and DEC, from a button or a command: ignored in Relax, an adjustment otherwise. */
  function GatedAdjust(s: State, delta: int): (r: State)
    ensures s.mode == Relax ==> r == s
    ensures s.mode != Relax ==> r == Adjusted(s, delta)
    ensures r.mode == s.mode
    ensures Invariant(s) ==> Invariant(r)
  {
    if s.mode != Relax then Adjusted(s, delta) else s
  }

  // ---------------------------------------------------------------- buttons

  /** A button fires on the falling edge only: it was up at the previous poll and is down now. */
  predicate Edge(prev: Level, cur: Level) {
    prev == High && cur == Low
  }

  predicate NoEdge(prev: Buttons, cur: Buttons) {
    !Edge(prev.relax, cur.relax) && !Edge(prev.pinch, cur.pinch) && !Edge(prev.grasp, cur.grasp) &&
    !Edge(prev.point, cur.point) && !Edge(prev.inc, cur.inc) && !Edge(prev.dec, cur.dec)
  }

  /** A mode button's action in one pass: when it fired, its mode is entered. */
  function ModePressed(s: State, fired: bool, m: Mode): (r: State)
    ensures fired ==> r == ModeChanged(s, m)
    ensures !fired ==> r == s
    ensures r.prev == s.prev && r.connected == s.connected && r.lastBattery == s.lastBattery
    ensures Invariant(s) ==> Invariant(r)
  {
    if fired then ModeChanged(s, m) else s
  }

  /** An INC or DEC button's action in one pass: when it fired, the gated adjustment runs. */
  function AdjustPressed(s: State, fired: bool, delta: int): (r: State)
    ensures fired ==> r == GatedAdjust(s, delta)
    ensures !fired ==> r == s
    ensures r.prev == s.prev && r.connected == s.connected && r.lastBattery == s.lastBattery
    ensures Invariant(s) ==> Invariant(r)
  {
    if fired then GatedAdjust(s, delta) else s
  }

  /**
   * One pass of the button poll: every button with a falling edge fires its action, in the fixed
   * order Relax, Pinch, Grasp, Point, Inc, Dec, and then every previous level is overwritten.
   */
  function Polled(s: State, cur: Buttons): (r: State)
    ensures r.prev == cur && r.connected == s.connected && r.lastBattery == s.lastBattery
    ensures Invariant(s) ==> Invariant(r)
    ensures NoEdge(s.prev, cur) ==> r == s.(prev := cur)
  {
    var p := s.prev;
    var s1 := ModePressed(s, Edge(p.relax, cur.relax), Relax);
    var s2 := ModePressed(s1, Edge(p.pinch, cur.pinch), Pinch);
    var s3 := ModePressed(s2, Edge(p.grasp, cur.grasp), Grasp);
    var s4 := ModePressed(s3, Edge(p.point, cur.point), Pointing);
    var s5 := AdjustPressed(s4, Edge(p.inc, cur.inc), ADJUST_STEP);
    var s6 := AdjustPressed(s5, Edge(p.dec, cur.dec), -ADJUST_STEP);
    s6.(prev := cur)
  }

  // ---------------------------------------------------------------- wireless commands

  /** A wireless command, parsed from an already trimmed, non-empty text token. */
  datatype Command = Select(mode: Mode) | Increase | Decrease | EmergencyStop | Unknown(token: string)

  const KNOWN_TOKENS: set<string> := {"RELAX", "PINCH", "GRASP", "POINTING", "INC", "DEC", "EMERGENCY_STOP"}

  /** The token that selects each mode. */
  function ModeToken(m: Mode): string {
    match m
    case Relax => "RELAX"
    case Pinch => "PINCH"
    case Grasp => "GRASP"
    case Pointing => "POINTING"
  }

  /** The token of a recognised command. */
  function TokenOf(c: Command): (t: string)
    requires !c.Unknown?
    ensures t in KNOWN_TOKENS
  {
    match c
    case Select(m) => ModeToken(m)
    case Increase => "INC"
    case Decrease => "DEC"
    case EmergencyStop => "EMERGENCY_STOP"
  }

  /**
   * Case-sensitive exact matching of a token: the seven known tokens map to their commands,
   * anything else is Unknown and keeps its text.
   */
  function ParseCommand(token: string): (c: Command)
    ensures c.Unknown? <==> token !in KNOWN_TOKENS
    ensures c.Unknown? ==> c.token == token
    ensures !c.Unknown? ==> TokenOf(c) == token
  {
    if token == "RELAX" then Select(Relax)
    else if token == "PINCH" then Select(Pinch)
    else if token == "GRASP" then Select(Grasp)
    else if token == "POINTING" then Select(Pointing)
    else if token == "INC" then Increase
    else if token == "DEC" then Decrease
    else if token == "EMERGENCY_STOP" then EmergencyStop
    else Unknown(token)
  }

  /**
   * Executes a command. An emergency stop is an acknowledgement only and moves nothing; an unknown
   * command is ignored; INC and DEC are ignored in Relax.
   */
  function Handled(s: State, c: Command): (r: State)
    ensures c.EmergencyStop? || c.Unknown? ==> r == s
    ensures (c.Increase? || c.Decrease?) && s.mode == Relax ==> r == s
    ensures c.Select? ==> r.mode == c.mode && r.target == DefaultPosture(c.mode) && r.current == r.target
    ensures c.Increase? && s.mode != Relax ==> r == Adjusted(s, ADJUST_STEP)
    ensures c.Decrease? && s.mode != Relax ==> r == Adjusted(s, -ADJUST_STEP)
    ensures !c.Select? ==> r.mode == s.mode
    ensures r.prev == s.prev && r.connected == s.connected && r.lastBattery == s.lastBattery
    ensures Invariant(s) ==> Invariant(r)
  {
    match c
    case Select(m) => ModeChanged(s, m)
    case Increase => GatedAdjust(s, ADJUST_STEP)
    case Decrease => GatedAdjust(s, -ADJUST_STEP)
    case EmergencyStop => s
    case Unknown(_) => s
  }

  // ---------------------------------------------------------------- telemetry

  /** Unsigned 32-bit `now - last`: the milliseconds since `last`, correct across a wrap of the clock. */
  function Elapsed(now: U32, last: U32): (d: U32)
    ensures now >= last ==> d == now - last
    ensures now < last ==> d == U32_MODULUS - (last - now)
  {
    (now - last) % U32_MODULUS
  }

  /** A battery notification is due only with a peer connected and more than 5 s since the last one. */
  predicate BatteryDue(s: State, now: U32) {
    s.connected && Elapsed(now, s.lastBattery) > BATTERY_PERIOD_MS
  }

  /** The battery timer: when a notification is due its time is recorded, otherwise nothing changes. */
  function Ticked(s: State, now: U32): (r: State)
    ensures BatteryDue(s, now) ==> r == s.(lastBattery := now) && r != s
    ensures !BatteryDue(s, now) ==> r == s
    ensures Invariant(s) ==> Invariant(r)
  {
    if BatteryDue(s, now) then s.(lastBattery := now) else s
  }

  /** The peer attaches or detaches; only the connection flag changes. */
  function Connected(s: State, up: bool): (r: State)
    ensures r.connected == up && r == s.(connected := up)
  {
    s.(connected := up)
  }

  // ---------------------------------------------------------------- runs of inputs

  /** One input to the controller: a pass of the poll loop, a wireless message, or a link change. */
  datatype Input = Pass(levels: Buttons, now: U32) | Message(token: string) | Link(up: bool)

  function Step(s: State, i: Input): (r: State)
    ensures Invariant(s) ==> Invariant(r)
  {
    match i
    case Pass(levels, now) => Ticked(Polled(s, levels), now)
    case Message(token) => Handled(s, ParseCommand(token))
    case Link(up) => Connected(s, up)
  }

  function Run(s: State, inputs: seq<Input>): State
    decreases |inputs|
  {
    if inputs == [] then s else Run(Step(s, inputs[0]), inputs[1..])
  }

  /** `n` adjustments by the same `delta`, as repeated INC or repeated DEC produce. */
  function AdjustedTimes(s: State, delta: int, n: nat): State {
    if n == 0 then s else GatedAdjust(AdjustedTimes(s, delta, n - 1), delta)
  }

  /** Successive poll passes, one per sample. */
  function PolledAll(s: State, samples: seq<Buttons>): State
    decreases |samples|
  {
    if samples == [] then s else PolledAll(Polled(s, samples[0]), samples[1..])
  }

  /** Successive timer checks, one per timestamp. */
  function TickedAll(s: State, times: seq<U32>): State
    decreases |times|
  {
    if times == [] then s else TickedAll(Ticked(s, times[0]), times[1..])
  }

  /** How many of those timer checks send a notification. */
  function Notifications(s: State, times: seq<U32>): nat
    decreases |times|
  {
    if times == [] then 0
    else (if BatteryDue(s, times[0]) then 1 else 0) + Notifications(Ticked(s, times[0]), times[1..])
  }
}

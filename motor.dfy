/** The stepper motor: four coil lines a-d, a running flag, a phase counter and
    the time of the last step. */
module Motor {
  import opened Units

  /** Minimum milliseconds between two steps. */
  const STEP_INTERVAL: nat := 10

  /** Positions of the coil lines a, b, c and d in a coil vector. */
  const COIL_A: nat := 0
  const COIL_B: nat := 1
  const COIL_C: nat := 2
  const COIL_D: nat := 3

  const LOW: bool := false
  const HIGH: bool := true

  const ALL_LOW: seq<bool> := [LOW, LOW, LOW, LOW]

  predicate AllLow(coils: seq<bool>)
  {
    forall i :: 0 <= i < |coils| ==> coils[i] == LOW
  }

  /** The levels written to a, b, c, d for a phase: d alone, then c alone, then
      b alone, then nothing. Coil a is never driven high. */
  function Pattern(phase: nat): (levels: seq<bool>)
    ensures |levels| == 4 && levels[COIL_A] == LOW
    ensures phase % 4 == 3 <==> AllLow(levels)
    ensures phase % 4 < 3 ==> forall i :: 0 <= i < 4 ==> (levels[i] == HIGH <==> i == COIL_D - phase % 4)
  {
    var levels :=
      match phase % 4
      case 0 => [LOW, LOW, LOW, HIGH]
      case 1 => [LOW, LOW, HIGH, LOW]
      case 2 => [LOW, HIGH, LOW, LOW]
      case _ => ALL_LOW;
    assert phase % 4 < 3 ==> levels[COIL_D - phase % 4] == HIGH;
    levels
  }

  /** The globals `motorRunning`, `motorPhase`, `motorLastStep` and the levels
      last written to the coil pins. */
  datatype MotorState = MotorState(running: bool, phase: nat, lastStep: U32, coils: seq<bool>)

  /** `rotate()`: arm the motor from phase 0 with the step timer reset. */
  function Rotate(m: MotorState): MotorState
  {
    m.(running := true, lastStep := 0, phase := 0)
  }

  /** `stop()`: disarm the motor and drive every coil low. */
  function Stop(m: MotorState): MotorState
  {
    m.(running := false, coils := ALL_LOW)
  }

  /** `updateMotor()` at time `now`. */
  function Step(m: MotorState, now: U32): MotorState
  {
    if Elapsed(now, m.lastStep) < STEP_INTERVAL then m
    else m.(coils := Pattern(m.phase), phase := m.phase + 1, lastStep := now)
  }

  /** `updateMotor()` called at each of the times `nows` in turn. */
  function Steps(m: MotorState, nows: seq<U32>): MotorState
    decreases |nows|
  {
    if nows == [] then m else Steps(Step(m, nows[0]), nows[1..])
  }

  /** Each time in `nows` is at least one step interval after the one before it
      (the first after `last`). */
  predicate Spaced(last: U32, nows: seq<U32>)
    decreases |nows|
  {
    nows == [] || (Elapsed(nows[0], last) >= STEP_INTERVAL && Spaced(nows[0], nows[1..]))
  }

  /** Stopping is a safety action that can be repeated: a second `stop()` changes
      nothing, and after one every coil is low and the motor is disarmed. */
  lemma StopIdempotent(m: MotorState)
    ensures Stop(Stop(m)) == Stop(m)
    ensures AllLow(Stop(m).coils) && |Stop(m).coils| == 4 && !Stop(m).running
  {
  }

  /** Before the step interval has passed since the last step, `updateMotor()`
      changes nothing; once it has, it writes the pattern of the current phase,
      advances the phase by one and restarts the timer at `now`. */
  lemma StepGate(m: MotorState, now: U32)
    ensures Elapsed(now, m.lastStep) < STEP_INTERVAL ==> Step(m, now) == m
    ensures Elapsed(now, m.lastStep) >= STEP_INTERVAL ==>
      Step(m, now).coils == Pattern(m.phase) && Step(m, now).phase == m.phase + 1 && Step(m, now).lastStep == now
    ensures Step(m, now).running == m.running
  {
  }

  /** Successive firings walk the phases one by one: after `n` well-spaced calls
      the phase has advanced by `n` and the coils show the pattern of the last
      phase fired, so the output cycles d, c, b, (none), d, ... */
  lemma {:induction false} SteadyStepping(m: MotorState, nows: seq<U32>)
    requires Spaced(m.lastStep, nows)
    ensures Steps(m, nows).phase == m.phase + |nows|
    ensures Steps(m, nows).running == m.running
    ensures nows != [] ==> Steps(m, nows).coils == Pattern(m.phase + |nows| - 1)
    ensures nows != [] ==> Steps(m, nows).lastStep == nows[|nows| - 1]
    decreases |nows|
  {
    if nows != [] {
      var m' := Step(m, nows[0]);
      SteadyStepping(m', nows[1..]);
      if nows[1..] != [] {
        assert nows[1..][|nows[1..]| - 1] == nows[|nows| - 1];
      }
    }
  }

  /** The pattern repeats every four phases. */
  lemma PatternPeriodic(phase: nat)
    ensures Pattern(phase + 4) == Pattern(phase)
  {
    assert (phase + 4) % 4 == phase % 4;
  }
}

/** The whole device as one state: the motor, the strips, the last BLE message,
    the recognizer mode and the audio requests, with the two command callbacks
    and one iteration of the main loop as transitions over it. */
module Device {
  import opened Units
  import opened Commands
  import Motor
  import Leds

  /** The two detection modes of the voice recognizer. */
  datatype SrMode = WakewordMode | CommandMode

  /** The events the recognizer reports; `UnknownEvent` stands for any other
      value of the event enumeration. */
  datatype SrEvent = WakewordDetected | WakewordChannel | Timeout | CommandDetected | UnknownEvent

  datatype State = State(
    motor: Motor.MotorState, leds: Leds.LedState, msg: string, srMode: SrMode, audioRequests: nat)

  /** The shapes every reachable state has, and the exclusivity of the two
      LED effects. */
  predicate Wellformed(s: State)
  {
    |s.motor.coils| == 4 &&
    |s.leds.buffer1| == Leds.LED_NUM && |s.leds.buffer2| == Leds.LED_NUM &&
    |s.leds.shown1| == Leds.LED_NUM && |s.leds.shown2| == Leds.LED_NUM &&
    Leds.Exclusive(s.leds)
  }

  /** The globals' initial values after `setup()` has stopped the motor and
      cleared and shown both strips. */
  function Init(): State
  {
    State(
      Motor.MotorState(false, 0, 0, Motor.ALL_LOW),
      Leds.LedState(false, false, Leds.BLACK, 0,
        Leds.Fill(Leds.BLACK), Leds.Fill(Leds.BLACK), Leds.Fill(Leds.BLACK), Leds.Fill(Leds.BLACK)),
      "", WakewordMode, 0)
  }

  /** The task function a recognised command calls. */
  function Execute(s: State, c: Command): State
  {
    match c
    case SolidColour(n) => s.(leds := Leds.Solid(s.leds, Leds.Colour(n)))
    case Water => s.(leds := Leds.Water(s.leds))
    case Off => s.(leds := Leds.Off(s.leds))
    case BT => s.(audioRequests := s.audioRequests + 1)
    case Rotate => s.(motor := Motor.Rotate(s.motor))
    case Stop => s.(motor := Motor.Stop(s.motor))
  }

  /** The BLE write handler: a non-empty payload replaces the message with its
      printable characters; then the message, new or previous, is dispatched. */
  function OnWrite(s: State, payload: seq<Byte>): State
  {
    Dispatch(s.(msg := if payload == [] then s.msg else Printable(payload)))
  }

  /** The comparison chain on `MSG` at the end of the BLE write handler. */
  function Dispatch(s: State): State
  {
    match Parse(s.msg)
    case None => s
    case Some(c) => Execute(s, c)
  }

  /** The voice-recognition callback (`phrase_id` only feeds a log line). */
  function OnSrEvent(s: State, event: SrEvent, commandId: int): State
  {
    match event
    case WakewordDetected => s
    case WakewordChannel => s.(srMode := CommandMode)
    case Timeout => s.(srMode := WakewordMode)
    case CommandDetected =>
      var s' := match VoiceCommand(commandId) case None => s case Some(c) => Execute(s, c);
      s'.(srMode := CommandMode)
    case UnknownEvent => s
  }

  /** One iteration of `loop()` at time `now`, with `rgb` the triple the water
      effect would draw. */
  function Loop(s: State, now: U32, rgb: Leds.Rgb): State
  {
    var s' := if s.motor.running then s.(motor := Motor.Step(s.motor, now)) else s;
    if s'.leds.colorAnimating || s'.leds.waterEffect
    then s'.(leds := Leds.Update(s'.leds, now, rgb))
    else s'
  }

  /** Anything that can happen to the device, in the order it happens. */
  datatype Input = BleWrite(payload: seq<Byte>) | Voice(event: SrEvent, commandId: int) | Tick(now: U32, rgb: Leds.Rgb)

  function Apply(s: State, input: Input): State
  {
    match input
    case BleWrite(payload) => OnWrite(s, payload)
    case Voice(event, commandId) => OnSrEvent(s, event, commandId)
    case Tick(now, rgb) => Loop(s, now, rgb)
  }

  function Run(s: State, inputs: seq<Input>): State
    decreases |inputs|
  {
    if inputs == [] then s else Run(Apply(s, inputs[0]), inputs[1..])
  }

  predicate OnlyTicks(inputs: seq<Input>)
  {
    forall i :: 0 <= i < |inputs| ==> inputs[i].Tick?
  }

  /** Every task function keeps the state well formed. */
  lemma ExecuteWellformed(s: State, c: Command)
    requires Wellformed(s)
    ensures Wellformed(Execute(s, c))
    ensures c.SolidColour? ==>
      Execute(s, c).leds.colorAnimating && !Execute(s, c).leds.waterEffect &&
      Execute(s, c).leds.color == Leds.Colour(c.name)
    ensures c == Water ==> Execute(s, c).leds.waterEffect && !Execute(s, c).leds.colorAnimating
  {
  }

  /** Every single input keeps the state well formed. */
  lemma ApplyWellformed(s: State, input: Input)
    requires Wellformed(s)
    ensures Wellformed(Apply(s, input))
  {
    match input
    case BleWrite(payload) =>
      var s' := s.(msg := if payload == [] then s.msg else Printable(payload));
      var p := Parse(s'.msg);
      if p.Some? {
        ExecuteWellformed(s', p.value);
      }
    case Voice(event, commandId) =>
      var v := VoiceCommand(commandId);
      if v.Some? {
        ExecuteWellformed(s, v.value);
      }
    case Tick(now, rgb) =>
      Leds.ExclusiveKept(s.leds, s.leds.color, now, rgb);
  }

  /** Whatever arrives, in whatever order, the device never has both LED effects
      armed at once. */
  lemma {:induction false} RunWellformed(s: State, inputs: seq<Input>)
    requires Wellformed(s)
    ensures Wellformed(Run(s, inputs))
    ensures !(Run(s, inputs).leds.colorAnimating && Run(s, inputs).leds.waterEffect)
    decreases |inputs|
  {
    if inputs != [] {
      ApplyWellformed(s, inputs[0]);
      RunWellformed(Apply(s, inputs[0]), inputs[1..]);
    }
  }

  lemma ReachableWellformed(inputs: seq<Input>)
    ensures Wellformed(Run(Init(), inputs))
  {
    RunWellformed(Init(), inputs);
  }

  /** A disarmed motor has every coil low. */
  predicate StoppedIsLow(s: State)
  {
    !s.motor.running ==> Motor.AllLow(s.motor.coils)
  }

  /** Every input keeps a disarmed motor de-energised: only `stop()` disarms it,
      and the loop steps the motor only while it is armed. */
  lemma ApplyStoppedIsLow(s: State, input: Input)
    requires StoppedIsLow(s)
    ensures StoppedIsLow(Apply(s, input))
  {
    match input
    case BleWrite(payload) =>
      var s' := s.(msg := if payload == [] then s.msg else Printable(payload));
      assert StoppedIsLow(s');
    case Voice(event, commandId) =>
    case Tick(now, rgb) =>
  }

  /** In every state reachable from the one `setup()` leaves, a disarmed motor
      has every coil low. */
  lemma {:induction false} RunStoppedIsLow(s: State, inputs: seq<Input>)
    requires StoppedIsLow(s)
    ensures StoppedIsLow(Run(s, inputs))
    decreases |inputs|
  {
    if inputs != [] {
      ApplyStoppedIsLow(s, inputs[0]);
      RunStoppedIsLow(Apply(s, inputs[0]), inputs[1..]);
    }
  }

  lemma ReachableStoppedIsLow(inputs: seq<Input>)
    ensures var r := Run(Init(), inputs); !r.motor.running ==> Motor.AllLow(r.motor.coils)
  {
    RunStoppedIsLow(Init(), inputs);
  }

  /** A message that is none of the fourteen tokens is recorded and does
      nothing else: the motor, the strips, the mode and the audio are as before. */
  lemma UnknownMessageIgnored(s: State, payload: seq<Byte>)
    requires payload != [] && Parse(Printable(payload)).None?
    ensures OnWrite(s, payload) == s.(msg := Printable(payload))
  {
  }

  /** An empty write dispatches the previous message again: it acts exactly like
      sending the last non-empty payload once more. */
  lemma EmptyWriteRepeats(s: State, payload: seq<Byte>)
    requires payload != []
    ensures OnWrite(OnWrite(s, payload), []) == OnWrite(OnWrite(s, payload), payload)
  {
    var s' := OnWrite(s, payload);
    DispatchKeepsMsg(s.(msg := Printable(payload)));
    assert s'.(msg := Printable(payload)) == s'.(msg := s'.msg);
  }

  /** Dispatching never changes the message itself. */
  lemma DispatchKeepsMsg(s: State)
    ensures Dispatch(s).msg == s.msg
  {
  }

  /** A token followed by control bytes (a line ending, say) acts as the bare
      token. */
  lemma LineEndingIgnored(s: State, c: Command)
    ensures OnWrite(s, Ascii(Token(c)) + [13, 10]) == Execute(s.(msg := Token(c)), c)
  {
    var t := Token(c);
    TokenPrintable(c);
    ParseToken(c);
    var p := Ascii(t);
    ControlBytesDropped(p, [13, 10]);
    PrintableAscii(t);
    assert Printable(p + [13, 10]) == t;
    assert p + [13, 10] != [];
  }

  /** `rotate()` arms the motor from phase 0 with the step timer at 0, and
      touches neither the coils nor anything of the strips. */
  lemma RotateArms(s: State)
    ensures var r := Execute(s, Rotate);
      r.motor.running && r.motor.phase == 0 && r.motor.lastStep == 0 &&
      r.motor.coils == s.motor.coils && r.leds == s.leds
  {
  }

  /** The first loop after `rotate()` drives coil d alone and moves to phase 1,
      unless the millisecond counter reads less than the step interval (just
      after boot or a wrap), in which case that loop leaves the motor alone. */
  lemma RotateFirstStep(s: State, now: U32, rgb: Leds.Rgb)
    ensures var r := Loop(Execute(s, Rotate), now, rgb);
      if now >= Motor.STEP_INTERVAL
      then r.motor.coils == [Motor.LOW, Motor.LOW, Motor.LOW, Motor.HIGH] && r.motor.phase == 1
      else r.motor == Execute(s, Rotate).motor
  {
  }

  /** A loop iteration leaves a disarmed motor exactly as it is. */
  lemma LoopKeepsStoppedMotor(s: State, now: U32, rgb: Leds.Rgb)
    requires !s.motor.running
    ensures Loop(s, now, rgb).motor == s.motor
  {
  }

  /** `loop()` calls `updateLEDs()` only while an effect is armed: with both
      disarmed, a loop iteration leaves the strips as they are. */
  lemma LoopKeepsIdleLeds(s: State, now: U32, rgb: Leds.Rgb)
    requires !s.leds.colorAnimating && !s.leds.waterEffect
    ensures Loop(s, now, rgb).leds == s.leds
  {
  }

  /** Once the motor is stopped, no number of loop iterations energises a coil. */
  lemma {:induction false} StoppedStaysLow(s: State, inputs: seq<Input>)
    requires OnlyTicks(inputs)
    requires !s.motor.running
    ensures !Run(s, inputs).motor.running && Run(s, inputs).motor.coils == s.motor.coils
    decreases |inputs|
  {
    if inputs != [] {
      assert inputs[0].Tick?;
      LoopKeepsStoppedMotor(s, inputs[0].now, inputs[0].rgb);
      StoppedStaysLow(Apply(s, inputs[0]), inputs[1..]);
    }
  }

  /** `stop()` leaves every coil low from then on, while only the loop runs,
      whatever state it was called in. */
  lemma StopDeEnergises(s: State, inputs: seq<Input>)
    requires OnlyTicks(inputs)
    ensures Motor.AllLow(Run(Execute(s, Stop), inputs).motor.coils)
  {
    StoppedStaysLow(Execute(s, Stop), inputs);
  }

  /** The BLE text "stop" stops the motor and drives every coil low. */
  lemma StopWriteStops(s: State)
    ensures var r := OnWrite(s, Ascii("stop"));
      !r.motor.running && r.motor.coils == Motor.ALL_LOW && r.leds == s.leds
  {
    PrintableAscii("stop");
    assert OnWrite(s, Ascii("stop")) == Execute(s.(msg := "stop"), Stop);
  }

  /** The BLE text "rotate" followed by "stop" leaves every coil low, however
      many loop iterations follow. */
  lemma RotateThenStop(s: State, inputs: seq<Input>)
    requires OnlyTicks(inputs)
    ensures Motor.AllLow(Run(OnWrite(OnWrite(s, Ascii("rotate")), Ascii("stop")), inputs).motor.coils)
  {
    var s1 := OnWrite(s, Ascii("rotate"));
    StopWriteStops(s1);
    StoppedStaysLow(OnWrite(s1, Ascii("stop")), inputs);
  }

  /** A colour command followed by a due loop shows that colour on all pixels of
      both strips; the loop after that renders nothing new. */
  lemma SolidFlashesOnce(s: State, n: Leds.ColourName, now: U32, rgb: Leds.Rgb, later: U32, rgb': Leds.Rgb)
    requires Elapsed(now, s.leds.lastUpdate) >= Leds.UPDATE_INTERVAL
    ensures var r := Loop(Execute(s, SolidColour(n)), now, rgb);
      Leds.AllPixels(r.leds.shown1, Leds.Colour(n)) && Leds.AllPixels(r.leds.shown2, Leds.Colour(n)) &&
      !r.leds.colorAnimating && !r.leds.waterEffect &&
      Loop(r, later, rgb').leds == r.leds
  {
    Leds.SolidRender(Execute(s, SolidColour(n)).leds, now, rgb);
  }

  /** While the water effect is armed, each due loop shows the one triple drawn
      for it on all pixels of both strips. */
  lemma WaterFlashesEachTick(s: State, now: U32, rgb: Leds.Rgb)
    requires s.leds.waterEffect
    requires Elapsed(now, s.leds.lastUpdate) >= Leds.UPDATE_INTERVAL
    ensures var r := Loop(s, now, rgb);
      Leds.AllPixels(r.leds.shown1, rgb) && Leds.AllPixels(r.leds.shown2, rgb) && r.leds.waterEffect
  {
    Leds.WaterRender(s.leds, now, rgb);
  }

  /** "off" clears and shows both strips at once, without waiting for the loop,
      and later loops leave them dark. */
  lemma OffIsImmediate(s: State, now: U32, rgb: Leds.Rgb)
    ensures var r := Execute(s, Off);
      Leds.AllPixels(r.leds.shown1, Leds.BLACK) && Leds.AllPixels(r.leds.shown2, Leds.BLACK) &&
      Loop(r, now, rgb).leds == r.leds
  {
    Leds.OffClears(s.leds);
  }

  /** A detected voice command leaves the recognizer in command mode; an id
      outside 0-3 changes nothing else. The channel-verified event selects
      command mode and the timeout wake-word mode. */
  lemma VoiceModes(s: State, commandId: int)
    ensures OnSrEvent(s, CommandDetected, commandId).srMode == CommandMode
    ensures !(0 <= commandId <= 3) ==> OnSrEvent(s, CommandDetected, commandId) == s.(srMode := CommandMode)
    ensures OnSrEvent(s, WakewordChannel, commandId).srMode == CommandMode
    ensures OnSrEvent(s, Timeout, commandId).srMode == WakewordMode
  {
  }

  /** A voice command id does what the BLE token of the same meaning does. */
  lemma VoiceMatchesBle(s: State, commandId: int)
    requires 0 <= commandId < |VOICE_TOKENS|
    ensures OnSrEvent(s, CommandDetected, commandId)
         == OnWrite(s, Ascii(VOICE_TOKENS[commandId])).(msg := s.msg, srMode := CommandMode)
  {
    PrintableAscii(VOICE_TOKENS[commandId]);
  }
}

/** The firmware's globals and task functions as one object: coil pins, pixel
    buffers and latched strip frames are arrays written in place, and every
    method is proved to move the object's abstract state exactly as the
    corresponding transition of module Device does. */
module Firmware {
  import opened Units
  import Commands
  import Device
  import Motor
  import Leds

  /** `clear()` of the strip library: every pixel of the buffer back to black. */
  method Clear(strip: array<Leds.Rgb>)
    requires strip.Length == Leds.LED_NUM
    modifies strip
    ensures strip[..] == Leds.Fill(Leds.BLACK)
  {
    forall i | 0 <= i < strip.Length {
      strip[i] := Leds.BLACK;
    }
  }

  /** `show()` of the strip library: latch the buffer onto the strip. */
  method Show(buffer: array<Leds.Rgb>, shown: array<Leds.Rgb>)
    requires buffer.Length == shown.Length && buffer != shown
    modifies shown
    ensures shown[..] == buffer[..] && buffer[..] == old(buffer[..])
  {
    forall i | 0 <= i < shown.Length {
      shown[i] := buffer[i];
    }
  }

  class Tower {
    /** Levels last written to the pins of coils a, b, c, d. */
    const coils: array<bool>
    /** Pixel buffers of the two strips (`np1`, `np2`). */
    const np1: array<Leds.Rgb>
    const np2: array<Leds.Rgb>
    /** The frames the strips display, as last latched by `show()`. */
    const shown1: array<Leds.Rgb>
    const shown2: array<Leds.Rgb>

    var motorRunning: bool
    var motorPhase: nat
    var motorLastStep: U32

    var colorAnimating: bool
    var waterEffect: bool
    var currentColor: Leds.Rgb
    var ledLastUpdate: U32

    var msg: string
    var srMode: Device.SrMode
    var audioRequests: nat

    ghost function MotorAbs(): Motor.MotorState
      reads this, coils
    {
      Motor.MotorState(motorRunning, motorPhase, motorLastStep, coils[..])
    }

    ghost function LedAbs(): Leds.LedState
      reads this, np1, np2, shown1, shown2
    {
      Leds.LedState(colorAnimating, waterEffect, currentColor, ledLastUpdate,
        np1[..], np2[..], shown1[..], shown2[..])
    }

    ghost function Abs(): Device.State
      reads this, coils, np1, np2, shown1, shown2
    {
      Device.State(MotorAbs(), LedAbs(), msg, srMode, audioRequests)
    }

    ghost predicate Valid()
      reads this, coils, np1, np2, shown1, shown2
    {
      np1 != np2 && np1 != shown1 && np1 != shown2 &&
      np2 != shown1 && np2 != shown2 && shown1 != shown2 &&
      coils.Length == 4 &&
      np1.Length == Leds.LED_NUM && np2.Length == Leds.LED_NUM &&
      shown1.Length == Leds.LED_NUM && shown2.Length == Leds.LED_NUM &&
      !(colorAnimating && waterEffect)
    }

    /** The object invariant is the well-formedness of the abstract state. */
    lemma ValidWellformed()
      requires Valid()
      ensures Device.Wellformed(Abs())
    {
    }

    /** The globals' initial values, then what `setup()` does to them: stop the
        motor, clear and show both strips. */
    constructor ()
      ensures Valid() && Abs() == Device.Init()
      ensures fresh(coils) && fresh(np1) && fresh(np2) && fresh(shown1) && fresh(shown2)
    {
      coils := new bool[4];
      np1 := new Leds.Rgb[Leds.LED_NUM];
      np2 := new Leds.Rgb[Leds.LED_NUM];
      shown1 := new Leds.Rgb[Leds.LED_NUM];
      shown2 := new Leds.Rgb[Leds.LED_NUM];
      motorRunning, motorPhase, motorLastStep := false, 0, 0;
      colorAnimating, waterEffect, currentColor, ledLastUpdate := false, false, Leds.BLACK, 0;
      msg, srMode, audioRequests := "", Device.WakewordMode, 0;
      new;
      coils[Motor.COIL_A] := Motor.LOW;
      coils[Motor.COIL_B] := Motor.LOW;
      coils[Motor.COIL_C] := Motor.LOW;
      coils[Motor.COIL_D] := Motor.LOW;
      assert MotorAbs() == Device.Init().motor;
      Clear(np1);
      Clear(np2);
      Show(np1, shown1);
      Show(np2, shown2);
      assert LedAbs() == Device.Init().leds;
    }

    /** `rotate()`. */
    method Rotate()
      requires Valid()
      modifies this
      ensures Valid() && Abs() == Device.Execute(old(Abs()), Commands.Rotate)
    {
      motorRunning := true;
      motorLastStep := 0;
      motorPhase := 0;
    }

    /** `stop()`: every coil is low afterwards, whatever the state before. */
    method Stop()
      requires Valid()
      modifies this, coils
      ensures Valid() && Abs() == Device.Execute(old(Abs()), Commands.Stop)
      ensures !motorRunning && Motor.AllLow(coils[..])
    {
      motorRunning := false;
      coils[Motor.COIL_A] := Motor.LOW;
      coils[Motor.COIL_B] := Motor.LOW;
      coils[Motor.COIL_C] := Motor.LOW;
      coils[Motor.COIL_D] := Motor.LOW;
    }

    /** The nine colour setters `white_led()` ... `pink_led()`. */
    method SolidLed(n: Leds.ColourName)
      requires Valid()
      modifies this
      ensures Valid() && Abs() == Device.Execute(old(Abs()), Commands.SolidColour(n))
    {
      currentColor := Leds.Colour(n);
      colorAnimating := true;
      waterEffect := false;
    }

    /** `water_led()`. */
    method WaterLed()
      requires Valid()
      modifies this
      ensures Valid() && Abs() == Device.Execute(old(Abs()), Commands.Water)
    {
      waterEffect := true;
      colorAnimating := false;
    }

    /** `off_led()`: both strips dark and shown before it returns. */
    method OffLed()
      requires Valid()
      modifies this, np1, np2, shown1, shown2
      ensures Valid() && Abs() == Device.Execute(old(Abs()), Commands.Off)
      ensures Leds.AllPixels(shown1[..], Leds.BLACK) && Leds.AllPixels(shown2[..], Leds.BLACK)
    {
      colorAnimating := false;
      waterEffect := false;
      Clear(np1);
      Clear(np2);
      Show(np1, shown1);
      Show(np2, shown2);
    }

    /** `bt_on()`: one more request to start and reconnect the audio sink. */
    method BtOn()
      requires Valid()
      modifies this
      ensures Valid() && Abs() == Device.Execute(old(Abs()), Commands.BT)
    {
      audioRequests := audioRequests + 1;
    }

    /** `updateMotor()` at time `now`. */
    method UpdateMotor(now: U32)
      requires Valid()
      modifies this, coils
      ensures Valid() && Abs() == old(Abs()).(motor := Motor.Step(old(Abs()).motor, now))
    {
      if Elapsed(now, motorLastStep) < Motor.STEP_INTERVAL {
        return;
      }
      match motorPhase % 4 {
        case 0 =>
          coils[Motor.COIL_A] := Motor.LOW;
          coils[Motor.COIL_B] := Motor.LOW;
          coils[Motor.COIL_C] := Motor.LOW;
          coils[Motor.COIL_D] := Motor.HIGH;
        case 1 =>
          coils[Motor.COIL_A] := Motor.LOW;
          coils[Motor.COIL_B] := Motor.LOW;
          coils[Motor.COIL_C] := Motor.HIGH;
          coils[Motor.COIL_D] := Motor.LOW;
        case 2 =>
          coils[Motor.COIL_A] := Motor.LOW;
          coils[Motor.COIL_B] := Motor.HIGH;
          coils[Motor.COIL_C] := Motor.LOW;
          coils[Motor.COIL_D] := Motor.LOW;
        case _ =>
          coils[Motor.COIL_A] := Motor.LOW;
          coils[Motor.COIL_B] := Motor.LOW;
          coils[Motor.COIL_C] := Motor.LOW;
          coils[Motor.COIL_D] := Motor.LOW;
      }
      assert coils[..] == Motor.Pattern(motorPhase);
      motorPhase := motorPhase + 1;
      motorLastStep := now;
      assert MotorAbs() == Motor.Step(old(MotorAbs()), now);
      assert LedAbs() == old(LedAbs());
    }

    /** `updateLEDs()` at time `now`; `rgb` is what `random(256)` draws for the
        water effect. */
    method UpdateLeds(now: U32, rgb: Leds.Rgb)
      requires Valid()
      modifies this, np1, np2, shown1, shown2
      ensures Valid() && Abs() == old(Abs()).(leds := Leds.Update(old(Abs()).leds, now, rgb))
    {
      if Elapsed(now, ledLastUpdate) < Leds.UPDATE_INTERVAL {
        return;
      }
      if colorAnimating {
        Clear(np1);
        Clear(np2);
        for i := 0 to Leds.LED_NUM
          modifies np1, np2
          invariant forall k :: 0 <= k < i ==> np1[k] == currentColor && np2[k] == currentColor
        {
          np1[i] := currentColor;
          np2[i] := currentColor;
        }
        assert np1[..] == Leds.Fill(currentColor) && np2[..] == Leds.Fill(currentColor);
        colorAnimating := false;
      }
      if waterEffect {
        for i := 0 to Leds.LED_NUM
          modifies np1, np2
          invariant forall k :: 0 <= k < i ==> np1[k] == rgb && np2[k] == rgb
        {
          np1[i] := rgb;
          np2[i] := rgb;
        }
        for i := Leds.LED_NUM downto 0
          modifies np1, np2
          invariant forall k :: 0 <= k < Leds.LED_NUM ==> np1[k] == rgb && np2[k] == rgb
        {
          np1[i] := rgb;
          np2[i] := rgb;
        }
        assert np1[..] == Leds.Fill(rgb) && np2[..] == Leds.Fill(rgb);
      }
      Show(np1, shown1);
      Show(np2, shown2);
      ledLastUpdate := now;
      assert LedAbs() == Leds.Update(old(LedAbs()), now, rgb);
      assert MotorAbs() == old(MotorAbs());
    }

    /** The task function of a recognised command. */
    method Execute(c: Commands.Command)
      requires Valid()
      modifies this, coils, np1, np2, shown1, shown2
      ensures Valid() && Abs() == Device.Execute(old(Abs()), c)
    {
      match c
      case SolidColour(n) => SolidLed(n);
      case Water => WaterLed();
      case Off => OffLed();
      case BT => BtOn();
      case Rotate => Rotate();
      case Stop => Stop();
    }

    /** The BLE characteristic's write callback. */
    method OnWrite(value: seq<Byte>)
      requires Valid()
      modifies this, coils, np1, np2, shown1, shown2
      ensures Valid() && Abs() == Device.OnWrite(old(Abs()), value)
    {
      if value != [] {
        msg := Commands.KeepPrintable(value);
      }
      var command := Commands.Parse(msg);
      if command.Some? {
        Execute(command.value);
      }
    }

    /** The voice recognizer's event callback. */
    method OnSrEvent(event: Device.SrEvent, commandId: int)
      requires Valid()
      modifies this, coils, np1, np2, shown1, shown2
      ensures Valid() && Abs() == Device.OnSrEvent(old(Abs()), event, commandId)
    {
      match event
      case WakewordDetected =>
      case WakewordChannel =>
        srMode := Device.CommandMode;
      case Timeout =>
        srMode := Device.WakewordMode;
      case CommandDetected =>
        var command := Commands.VoiceCommand(commandId);
        if command.Some? {
          Execute(command.value);
        }
        srMode := Device.CommandMode;
      case UnknownEvent =>
    }

    /** One iteration of `loop()` at time `now`. */
    method Loop(now: U32, rgb: Leds.Rgb)
      requires Valid()
      modifies this, coils, np1, np2, shown1, shown2
      ensures Valid() && Abs() == Device.Loop(old(Abs()), now, rgb)
    {
      if motorRunning {
        UpdateMotor(now);
      }
      if colorAnimating || waterEffect {
        UpdateLeds(now, rgb);
      }
    }
  }

  /** Loop iterations leave a stopped motor stopped, with every coil low. */
  method LoopWhileStopped(t: Tower, nows: seq<U32>, rgbs: seq<Leds.Rgb>)
    requires t.Valid() && |nows| == |rgbs|
    requires !t.motorRunning && Motor.AllLow(t.coils[..])
    modifies t, t.coils, t.np1, t.np2, t.shown1, t.shown2
    ensures t.Valid() && !t.motorRunning && Motor.AllLow(t.coils[..])
  {
    for i := 0 to |nows|
      invariant t.Valid() && !t.motorRunning && Motor.AllLow(t.coils[..])
    {
      ghost var before := t.Abs();
      t.Loop(nows[i], rgbs[i]);
      Device.LoopKeepsStoppedMotor(before, nows[i], rgbs[i]);
    }
  }

  /** Sending "rotate" and then "stop" over BLE, whatever loop iterations come
      after, leaves every coil low. */
  method RotateStopScenario(t: Tower, nows: seq<U32>, rgbs: seq<Leds.Rgb>)
    requires t.Valid() && |nows| == |rgbs|
    modifies t, t.coils, t.np1, t.np2, t.shown1, t.shown2
    ensures t.Valid() && Motor.AllLow(t.coils[..])
  {
    t.OnWrite(Commands.Ascii("rotate"));
    StopOverBle(t);
    LoopWhileStopped(t, nows, rgbs);
  }

  /** The BLE text "stop" leaves the motor stopped with every coil low. */
  method StopOverBle(t: Tower)
    requires t.Valid()
    modifies t, t.coils, t.np1, t.np2, t.shown1, t.shown2
    ensures t.Valid() && !t.motorRunning && Motor.AllLow(t.coils[..])
  {
    ghost var before := t.Abs();
    t.OnWrite(Commands.Ascii("stop"));
    Device.StopWriteStops(before);
  }
}

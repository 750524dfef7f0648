# TOWER V0.2 firmware: motor, LED and command state machine

This project models the deterministic core of the TOWER V0.2 ESP32 firmware
(`TOWER_V0.2/src/main.cpp`). The vendor set-up underneath it is not modelled.
The core has these parts:

- **Stepper motor.** It has four coil lines a–d. `rotate()` arms it and
  `stop()` disarms it and drives every coil low. `updateMotor()` is gated at
  10 ms. It steps through an asymmetric pattern: d alone, c alone, b alone, then
  no coil. Coil a is never driven high.
- **Two 14-pixel NeoPixel strips.** Nine colour setters arm a one-shot solid
  fill. `water_led()` arms a fill with a random colour that repeats on every
  render. `off_led()` clears and shows both strips at once. `updateLEDs()` is
  gated at 200 ms and consumes the one-shot flag.
- **Two command sources.**
  - The BLE characteristic's write callback keeps the printable characters of
    the payload in `MSG`. It then compares `MSG` with fourteen tokens.
  - The voice recognizer's callback maps command ids 0–3 to white, off, rotate
    and stop. It also switches the recognizer between wake-word mode and
    command mode.
- **The main loop.** `loop()` runs each gated update while its flag is set.

The model is split into these modules:

- `Units` (`units.dfy`): 32-bit `unsigned long` time. `Elapsed` is the
  wrap-around subtraction used by both gates.
- `Motor` (`motor.dfy`): the coil pattern, plus motor transitions as functions.
- `Leds` (`leds.dfy`): RGB colours, the nine named colours, and LED transitions
  as functions.
- `Commands` (`commands.dfy`): the `isprint` filter and the loop that applies
  it, the BLE token table, the voice id table and the recognizer's phrase table.
- `Device` (`device.dfy`): the whole state, the two callbacks, one loop
  iteration, and runs over any sequence of inputs. The lemmas about behaviour
  over several steps live here.
- `Firmware` (`firmware.dfy`): class `Tower` holds the globals.
  - The coil levels, the two pixel buffers and the two frames latched by
    `show()` are arrays that are written in place.
  - Each method of `Tower` is proved to change the object's abstract state
    (`Abs()`) exactly as the matching `Device` transition does.
  - Its invariant `Valid()` includes "never both LED effects armed".

Time (`millis()`) and the random colour (`random(256)`) are method parameters.
`rotate()` sets `motorLastStep` to 0, not to a time long past. So if
`millis()` reads 0–9 (modulo 2^32), the first step after `rotate()` waits for
a later loop (`Device.RotateFirstStep`).

The LED effects are the two flags `colorAnimating` and `waterEffect`. That
they are never both set is proved, not assumed (`Device.RunWellformed`).

The `setup()` in this source never starts the recognizer and never registers
its callback. The model describes the callback as written, as if it were
registered. The recognizer is assumed to start in wake-word mode.

## Model

| member | source | states |
|---|---|---|
| `Units.Elapsed` | TOWER_V0.2/src/main.cpp:171 | the gate's `millis() - last` is the elapsed time: `now - last` without wrap, `2^32 - last + now` across a wrap |
| `Units.ElapsedAfter` | TOWER_V0.2/src/main.cpp:207 | `k` ms after `last` a gate measures exactly `k`, even when the counter wrapped |
| `Motor.Pattern` | TOWER_V0.2/src/main.cpp:174-199 | coil a is always low; phase mod 4 = 3 is exactly the all-low pattern; phases 0, 1, 2 drive exactly one coil high, which is d, c, b respectively |
| `Motor.Rotate` | TOWER_V0.2/src/main.cpp:81-85 | `rotate()` as a function on the motor state; its meaning is stated by `Device.RotateArms` and `Device.RotateFirstStep` |
| `Motor.Stop` | TOWER_V0.2/src/main.cpp:87-94 | `stop()` as a function on the motor state; its meaning is stated by `Motor.StopIdempotent` |
| `Motor.Step` | TOWER_V0.2/src/main.cpp:169-203 | `updateMotor()` as a function of the motor state and `now`; its meaning is stated by `Motor.StepGate` and `Motor.SteadyStepping` |
| `Motor.PatternPeriodic` | TOWER_V0.2/src/main.cpp:174 | the pattern depends only on the phase modulo 4 |
| `Motor.StopIdempotent` | TOWER_V0.2/src/main.cpp:87-94 | after `stop()` the motor is disarmed with all four coils low; a second `stop()` changes nothing |
| `Motor.StepGate` | TOWER_V0.2/src/main.cpp:169-203 | below 10 ms elapsed `updateMotor` changes nothing; otherwise it writes the current phase's pattern, increments the phase and records `now`; it never changes the running flag |
| `Motor.SteadyStepping` | TOWER_V0.2/src/main.cpp:169-203 | n calls each at least 10 ms apart advance the phase by exactly n, and leave the pattern of the last phase fired, so the output cycles d, c, b, none |
| `Leds.ExclusiveKept` | TOWER_V0.2/src/main.cpp:96-157 | every colour setter, `water_led` and `off_led` leaves at most one effect armed; so does a render from such a state |
| `Leds.Colour` | TOWER_V0.2/src/main.cpp:96-151 | the fixed RGB of each of the nine colour setters, e.g. purple (128,0,128) and pink (255,192,203) |
| `Leds.Solid` | TOWER_V0.2/src/main.cpp:96-151 | a colour setter as a function on the LED state; its meaning is stated by `Device.ExecuteWellformed` and `Leds.SolidRender` |
| `Leds.Water` | TOWER_V0.2/src/main.cpp:153-157 | `water_led()` as a function on the LED state; its meaning is stated by `Device.ExecuteWellformed` and `Leds.WaterRender` |
| `Leds.Off` | TOWER_V0.2/src/main.cpp:159-166 | `off_led()` as a function on the LED state; its meaning is stated by `Leds.OffClears` |
| `Leds.Update` | TOWER_V0.2/src/main.cpp:205-255 | `updateLEDs()` as a function of the LED state, `now` and the drawn triple; its meaning is stated by `Leds.LedGate`, `Leds.SolidRender` and `Leds.WaterRender` |
| `Leds.LedGate` | TOWER_V0.2/src/main.cpp:207 | below 200 ms since the last render, `updateLEDs()` changes nothing at all |
| `Leds.SolidRender` | TOWER_V0.2/src/main.cpp:222-232 | a due render with a solid colour armed shows that colour on every pixel of both strips and clears the arming |
| `Leds.WaterRender` | TOWER_V0.2/src/main.cpp:235-250 | a due render with water armed shows the single triple drawn for that tick on every pixel of both strips; the effect stays armed |
| `Leds.OffClears` | TOWER_V0.2/src/main.cpp:159-166 | `off_led` disarms both effects and leaves both buffers and both shown frames black, whatever the prior state |
| `Commands.Printable` | TOWER_V0.2/src/main.cpp:265-269 | the filtered message is no longer than the payload and holds only printable ASCII |
| `Commands.PrintableConcat` | TOWER_V0.2/src/main.cpp:267-268 | filtering a concatenation is concatenating the filtered parts (bytes are kept or dropped one by one, in order) |
| `Commands.PrintableAscii` | TOWER_V0.2/src/main.cpp:267-268 | a printable text sent as bytes comes out of the filter unchanged |
| `Commands.ControlBytesDropped` | TOWER_V0.2/src/main.cpp:267-268 | appending non-printable bytes to a payload does not change the filtered message |
| `Commands.KeepPrintable` | TOWER_V0.2/src/main.cpp:266-269 | the character-by-character loop builds exactly the filtered message |
| `Commands.Parse` | TOWER_V0.2/src/main.cpp:276-289 | a message selects a command iff it equals that command's token; every other message selects nothing |
| `Commands.ParseToken` | TOWER_V0.2/src/main.cpp:276-289 | each of the fourteen commands is selected by its own token |
| `Commands.Token` | TOWER_V0.2/src/main.cpp:276-289 | the BLE text of each of the fourteen commands; `Commands.Parse` and `Commands.ParseToken` show it is the inverse of the comparison chain |
| `Commands.VoiceCommand` | TOWER_V0.2/src/main.cpp:338-344 | ids 0–3 and only they select a command; each selects what the BLE token "white", "off", "rotate", "stop" selects |
| `Commands.SrCommandsCovered` | TOWER_V0.2/src/main.cpp:312-320 | every phrase of the recognizer table has an id the callback handles, and each handled id has a phrase |
| `Device.Init` | TOWER_V0.2/src/main.cpp:354-370 | the globals after `setup()`: motor stopped, all coils low, both strips cleared and shown, empty `MSG` |
| `Device.Execute` | TOWER_V0.2/src/main.cpp:81-166 | the task function each command calls, on the whole state; its meaning is stated by `Device.ExecuteWellformed`, `Device.RotateArms`, `Device.StopDeEnergises` and `Device.OffIsImmediate` |
| `Device.OnWrite` | TOWER_V0.2/src/main.cpp:261-290 | the BLE write handler: filter when the payload is non-empty, then dispatch `MSG`; its meaning is stated by `Device.UnknownMessageIgnored`, `Device.EmptyWriteRepeats` and `Device.LineEndingIgnored` |
| `Device.Dispatch` | TOWER_V0.2/src/main.cpp:276-289 | the comparison chain on `MSG`; its meaning is stated by `Commands.Parse` and `Device.UnknownMessageIgnored` |
| `Device.OnSrEvent` | TOWER_V0.2/src/main.cpp:323-350 | the voice callback; its meaning is stated by `Device.VoiceModes` and `Device.VoiceMatchesBle` |
| `Device.Loop` | TOWER_V0.2/src/main.cpp:400-412 | one `loop()`; its meaning is stated by `Device.StoppedStaysLow`, `Device.LoopKeepsIdleLeds` and `Device.SolidFlashesOnce` |
| `Device.ExecuteWellformed` | TOWER_V0.2/src/main.cpp:81-166 | every task function keeps the state well formed; a colour setter stores its fixed RGB, arms the solid fill and disarms water; `water_led` arms water and disarms the solid fill |
| `Device.ApplyWellformed` | TOWER_V0.2/src/main.cpp:96-166 | any single input (BLE write, voice event, loop) keeps the state's shapes and the exclusivity of the two effects |
| `Device.RunWellformed` | TOWER_V0.2/src/main.cpp:400-412 | after any sequence of inputs the colour flag and the water flag are never both set |
| `Device.ReachableWellformed` | TOWER_V0.2/src/main.cpp:354-370 | every state reachable from the post-`setup()` state is well formed |
| `Device.UnknownMessageIgnored` | TOWER_V0.2/src/main.cpp:265-290 | a payload whose filtered text is no token only records `MSG`; motor, strips, mode and audio are unchanged |
| `Device.EmptyWriteRepeats` | TOWER_V0.2/src/main.cpp:265-276 | an empty write re-dispatches the previous message: it acts exactly like resending the last non-empty payload |
| `Device.LineEndingIgnored` | TOWER_V0.2/src/main.cpp:265-289 | a token followed by CR LF runs that token's command |
| `Device.RotateArms` | TOWER_V0.2/src/main.cpp:81-85 | `rotate()` sets running, phase 0 and step time 0, and changes neither the coils nor any LED state |
| `Device.RotateFirstStep` | TOWER_V0.2/src/main.cpp:81-85 | the loop after `rotate()` drives d alone and moves to phase 1 when `now` ≥ 10; for `now` < 10 it leaves the motor untouched |
| `Device.StoppedStaysLow` | TOWER_V0.2/src/main.cpp:400-404 | with the motor disarmed, loop iterations never change the coils |
| `Device.LoopKeepsIdleLeds` | TOWER_V0.2/src/main.cpp:407-409 | with neither effect armed, a loop iteration leaves every LED buffer and frame as it is |
| `Device.ApplyStoppedIsLow` | TOWER_V0.2/src/main.cpp:87-94 | every input keeps "a disarmed motor has all coils low" |
| `Device.RunStoppedIsLow` | TOWER_V0.2/src/main.cpp:400-404 | after any sequence of inputs from such a state, a disarmed motor has all coils low |
| `Device.ReachableStoppedIsLow` | TOWER_V0.2/src/main.cpp:354-362 | in every state reachable from the post-`setup()` state, a disarmed motor has all coils low |
| `Device.LoopKeepsStoppedMotor` | TOWER_V0.2/src/main.cpp:402-404 | a loop iteration never touches a disarmed motor, coils included |
| `Device.StopDeEnergises` | TOWER_V0.2/src/main.cpp:87-94 | after `stop()` from any state, any number of loop iterations leave every coil low |
| `Device.StopWriteStops` | TOWER_V0.2/src/main.cpp:289 | the BLE text "stop" disarms the motor, drives all coils low and leaves the strips alone |
| `Device.RotateThenStop` | TOWER_V0.2/src/main.cpp:288-289 | BLE "rotate" then "stop", followed by any loop iterations, leaves every coil low |
| `Device.SolidFlashesOnce` | TOWER_V0.2/src/main.cpp:222-232 | a colour command then a due loop shows the colour on all pixels of both strips, and the next loop leaves the LEDs as they are |
| `Device.WaterFlashesEachTick` | TOWER_V0.2/src/main.cpp:235-250 | with water armed, each due loop shows the triple drawn for it on all pixels of both strips |
| `Device.OffIsImmediate` | TOWER_V0.2/src/main.cpp:159-166 | "off" makes both shown frames black at once, and the next loop leaves the LEDs as they are |
| `Device.VoiceModes` | TOWER_V0.2/src/main.cpp:323-350 | a command event ends in command mode; an unknown id only sets that mode; the channel-verified event selects command mode; the timeout selects wake-word mode |
| `Device.VoiceMatchesBle` | TOWER_V0.2/src/main.cpp:336-344 | voice id k changes motor and LEDs exactly as the BLE token of the same meaning does |
| `Firmware.Clear` | TOWER_V0.2/src/main.cpp:162-163 | `clear()` leaves every pixel of a buffer black |
| `Firmware.Show` | TOWER_V0.2/src/main.cpp:164-165 | `show()` latches the buffer onto the strip and leaves the buffer as it was |
| `Firmware.Tower.ValidWellformed` | TOWER_V0.2/src/main.cpp:56-69 | the object invariant (array sizes 4 and 14, distinct buffers, never both effects armed) makes the abstract state well formed |
| `Firmware.Tower.constructor` | TOWER_V0.2/src/main.cpp:354-370 | the globals after `setup()` are the initial state: motor stopped, all coils low, both strips cleared and shown |
| `Firmware.Tower.Rotate` | TOWER_V0.2/src/main.cpp:81-85 | the object changes as `rotate()` does, and keeps its invariant |
| `Firmware.Tower.Stop` | TOWER_V0.2/src/main.cpp:87-94 | the object changes as `stop()` does; afterwards the motor is disarmed and every coil pin is low |
| `Firmware.Tower.SolidLed` | TOWER_V0.2/src/main.cpp:96-151 | each of the nine setters stores its fixed RGB, arms the solid fill and disarms water |
| `Firmware.Tower.WaterLed` | TOWER_V0.2/src/main.cpp:153-157 | `water_led()` arms water and disarms the solid fill |
| `Firmware.Tower.OffLed` | TOWER_V0.2/src/main.cpp:159-166 | `off_led()` disarms both effects; both shown frames are black when it returns |
| `Firmware.Tower.BtOn` | TOWER_V0.2/src/main.cpp:293-296 | "BT" records one more audio start request and changes nothing else |
| `Firmware.Tower.UpdateMotor` | TOWER_V0.2/src/main.cpp:169-203 | the coil pins written one by one equal `Motor.Step`, so `Motor.StepGate` and `Motor.SteadyStepping` hold of the pins |
| `Firmware.Tower.UpdateLeds` | TOWER_V0.2/src/main.cpp:205-255 | the clear, forward fill, backward fill and show equal `Leds.Update`, so `Leds.SolidRender` and `Leds.WaterRender` hold of the arrays |
| `Firmware.Tower.Execute` | TOWER_V0.2/src/main.cpp:276-289 | running a command's task function equals `Device.Execute` |
| `Firmware.Tower.OnWrite` | TOWER_V0.2/src/main.cpp:261-290 | the write callback equals `Device.OnWrite`: filter when non-empty, then dispatch `MSG` |
| `Firmware.Tower.OnSrEvent` | TOWER_V0.2/src/main.cpp:323-350 | the voice callback equals `Device.OnSrEvent` |
| `Firmware.Tower.Loop` | TOWER_V0.2/src/main.cpp:400-412 | one `loop()` equals `Device.Loop`: motor update only while running, LED update only while an effect is armed |
| `Firmware.LoopWhileStopped` | TOWER_V0.2/src/main.cpp:400-412 | on the object, loop iterations keep a stopped motor stopped with every coil pin low |
| `Firmware.StopOverBle` | TOWER_V0.2/src/main.cpp:289 | on the object, the BLE text "stop" leaves the motor stopped with every coil pin low |
| `Firmware.RotateStopScenario` | TOWER_V0.2/src/main.cpp:400-412 | on the object, BLE "rotate" then "stop" followed by any loop iterations leaves every coil pin low |

## Left out

- The Bluetooth controller and stack initialisation in `initBluetoothDualMode` are not modelled. They are vendor calls whose failures are only logged.
- The BLE server, service and characteristic set-up is not modelled. Nor are I2C and I2S, the audio codec, the volume, `pinMode` or GPIO 15. They are vendor set-up. Of `setup()`, the model keeps only `stop()` and clearing and showing both strips.
- The audio calls `audio.begin()` and `audio.reconnect()` of `bt_on()` are foreign. They are recorded as a count of audio requests.
- `Serial` logging is not modelled. Neither is the index `sr_commands[phrase_id]` that feeds only a log line, so `phrase_id` is not a parameter.
- `delay(10)` is not modelled. It only sets the loop rate.
- `ESP_SR.setMode` is a library call. The recognizer mode is a plain field.
- `millis()` and `random(256)` become parameters.
- `updateMotor` reads `millis()` twice, at the gate (main.cpp:171) and for the new step time (main.cpp:202). The model uses one `now` for both.
- `updateLEDs` also reads `millis()` twice, at the gate (main.cpp:207) and after both `show()` calls (main.cpp:254). The model stores the gate's `now` as `ledLastUpdate`.
- Each update inside one `loop()` reads the clock itself. `Device.Loop` and `Firmware.Tower.Loop` pass the same `now` to both updates.
- NeoPixel internals are not modelled: `Color()` packing, brightness and the wire protocol. Colours are RGB triples. A strip is an array of pixels, plus the frame latched by `show()`.
- Concurrency is not modelled. On the ESP32 the BLE and recognizer callbacks run in their own FreeRTOS tasks, possibly on the other core, with no lock around the globals. The model treats BLE writes, voice events and loop iterations as sequential, atomic steps.
- `Device.StopDeEnergises`, `Device.RotateThenStop` and `Firmware.RotateStopScenario` hold only under that sequential abstraction. For example, a `stop()` that lands between `updateMotor`'s gate (main.cpp:171) and its pin writes (main.cpp:176-197) could leave a coil high with the motor disarmed.
- `motorPhase` is an unbounded natural number. The overflow of the C `int` after 2^31 steps is not modelled.
- `ledPosition` is not modelled. It is reset by `water_led()` and otherwise used only by code that is commented out.
- `isprint` is taken in the C locale: bytes 0x20–0x7E are printable. Bytes from 0x80 up, which are negative as a signed `char`, count as non-printable.

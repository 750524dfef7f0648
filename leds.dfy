/** The two NeoPixel strips: a solid-colour one-shot, a repeating random-colour
    "water" effect, and the 200 ms render gate. */
module Leds {
  import opened Units

  /** Pixels per strip. */
  const LED_NUM: nat := 14

  /** Minimum milliseconds between two renders. */
  const UPDATE_INTERVAL: nat := 200

  /** A pixel colour as the (r, g, b) triple handed to the strip library. */
  datatype Rgb = Rgb(r: Byte, g: Byte, b: Byte)

  /** The colour a cleared pixel holds (also the initial `currentColor`). */
  const BLACK: Rgb := Rgb(0, 0, 0)

  /** The nine named colours of the colour commands. */
  datatype ColourName = White | Red | Orange | Yellow | Green | Cyan | Blue | Purple | Pink

  function Colour(n: ColourName): Rgb
  {
    match n
    case White => Rgb(255, 255, 255)
    case Red => Rgb(255, 0, 0)
    case Orange => Rgb(255, 165, 0)
    case Yellow => Rgb(255, 255, 0)
    case Green => Rgb(0, 255, 0)
    case Cyan => Rgb(0, 255, 255)
    case Blue => Rgb(0, 0, 255)
    case Purple => Rgb(128, 0, 128)
    case Pink => Rgb(255, 192, 203)
  }

  /** A whole strip of one colour. */
  function Fill(c: Rgb): seq<Rgb>
  {
    seq(LED_NUM, _ => c)
  }

  /** Every pixel of `strip` is `c` (and the strip has its full length). */
  predicate AllPixels(strip: seq<Rgb>, c: Rgb)
  {
    |strip| == LED_NUM && forall i :: 0 <= i < |strip| ==> strip[i] == c
  }

  /** The globals `colorAnimating`, `waterEffect`, `currentColor`,
      `ledLastUpdate`, the pixel buffers of both strips, and the frames last
      latched onto the strips by `show()`. */
  datatype LedState = LedState(
    colorAnimating: bool, waterEffect: bool, color: Rgb, lastUpdate: U32,
    buffer1: seq<Rgb>, buffer2: seq<Rgb>, shown1: seq<Rgb>, shown2: seq<Rgb>)

  /** At most one effect is armed. */
  predicate Exclusive(l: LedState)
  {
    !(l.colorAnimating && l.waterEffect)
  }

  /** Any of the nine colour setters: arm a one-shot fill with `c`. */
  function Solid(l: LedState, c: Rgb): LedState
  {
    l.(color := c, colorAnimating := true, waterEffect := false)
  }

  /** `water_led()`: arm the repeating random-colour effect. */
  function Water(l: LedState): LedState
  {
    l.(waterEffect := true, colorAnimating := false)
  }

  /** `off_led()`: disarm both effects, clear both buffers and show them at once. */
  function Off(l: LedState): LedState
  {
    l.(colorAnimating := false, waterEffect := false,
       buffer1 := Fill(BLACK), buffer2 := Fill(BLACK), shown1 := Fill(BLACK), shown2 := Fill(BLACK))
  }

  /** `updateLEDs()` at time `now`, where `rgb` is the triple `random(256)` would
      draw if the water effect renders. */
  function Update(l: LedState, now: U32, rgb: Rgb): LedState
  {
    if Elapsed(now, l.lastUpdate) < UPDATE_INTERVAL then l
    else
      var solid := if l.colorAnimating
        then l.(buffer1 := Fill(l.color), buffer2 := Fill(l.color), colorAnimating := false)
        else l;
      var water := if solid.waterEffect
        then solid.(buffer1 := Fill(rgb), buffer2 := Fill(rgb))
        else solid;
      water.(shown1 := water.buffer1, shown2 := water.buffer2, lastUpdate := now)
  }

  /** Every operation keeps at most one effect armed, so the LEDs are always
      idle, showing a solid colour, or running water. */
  lemma ExclusiveKept(l: LedState, c: Rgb, now: U32, rgb: Rgb)
    ensures Exclusive(Solid(l, c)) && Exclusive(Water(l)) && Exclusive(Off(l))
    ensures Exclusive(l) ==> Exclusive(Update(l, now, rgb))
  {
  }

  /** Before the render interval has passed since the last render,
      `updateLEDs()` changes nothing at all. */
  lemma LedGate(l: LedState, now: U32, rgb: Rgb)
    requires Elapsed(now, l.lastUpdate) < UPDATE_INTERVAL
    ensures Update(l, now, rgb) == l
  {
  }

  /** A render of an armed solid colour puts that colour on every pixel of both
      strips and consumes the arming; the water effect stays disarmed. */
  lemma SolidRender(l: LedState, now: U32, rgb: Rgb)
    requires l.colorAnimating && !l.waterEffect
    requires Elapsed(now, l.lastUpdate) >= UPDATE_INTERVAL
    ensures var r := Update(l, now, rgb);
      AllPixels(r.shown1, l.color) && AllPixels(r.shown2, l.color) &&
      !r.colorAnimating && !r.waterEffect && r.lastUpdate == now
  {
  }

  /** A render of the water effect puts the one triple drawn for this tick on
      every pixel of both strips, and the effect stays armed. */
  lemma WaterRender(l: LedState, now: U32, rgb: Rgb)
    requires l.waterEffect
    requires Elapsed(now, l.lastUpdate) >= UPDATE_INTERVAL
    ensures var r := Update(l, now, rgb);
      AllPixels(r.shown1, rgb) && AllPixels(r.shown2, rgb) && r.waterEffect && r.lastUpdate == now
  {
  }

  /** `off_led()` leaves every pixel of both strips cleared and shown, whatever
      was armed or displayed before. */
  lemma OffClears(l: LedState)
    ensures var r := Off(l);
      AllPixels(r.buffer1, BLACK) && AllPixels(r.buffer2, BLACK) &&
      AllPixels(r.shown1, BLACK) && AllPixels(r.shown2, BLACK) &&
      !r.colorAnimating && !r.waterEffect
  {
  }
}

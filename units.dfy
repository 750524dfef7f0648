/** Fixed-width quantities of the firmware: the 32-bit `unsigned long` that
    `millis()` returns on the ESP32, and the 8-bit values of colour channels and
    of the bytes of a BLE payload. */
module Units {
  const TWO_TO_THE_32: int := 0x1_0000_0000

  /** An `unsigned long` of the ESP32 toolchain (32 bits). */
  type U32 = x: int | 0 <= x < TWO_TO_THE_32

  /** A `uint8_t`, or a `char` of a payload read as unsigned. */
  type Byte = x: int | 0 <= x < 256

  /** `now - last` computed in unsigned 32-bit arithmetic, as both gates of the
      firmware compute it: the time since `last`, also when the millisecond
      counter has wrapped around in between. */
  function Elapsed(now: U32, last: U32): (d: U32)
    ensures last <= now ==> d == now - last
    ensures now < last ==> d == TWO_TO_THE_32 - last + now
  {
    (now - last) % TWO_TO_THE_32
  }

  /** `k` milliseconds after `last` the gate measures exactly `k`, whether or not
      the counter wrapped in between. */
  lemma ElapsedAfter(last: U32, k: nat)
    requires k < TWO_TO_THE_32
    ensures Elapsed((last + k) % TWO_TO_THE_32, last) == k
  {
  }
}

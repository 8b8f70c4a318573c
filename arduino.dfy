/** The Arduino core as the adapters see it: fixed-width integers, digital pins,
    the millisecond clock and `delay`. The board is a mock: the level presented on
    an input pin at a given time is chosen by the environment, and every call is
    appended to a log so that the order of pin and clock accesses can be stated. */
module Arduino {

  newtype uint8 = x: int | 0 <= x < 0x100
  newtype uint16 = x: int | 0 <= x < 0x1_0000
  newtype uint32 = x: int | 0 <= x < 0x1_0000_0000
  newtype int8 = x: int | -0x80 <= x < 0x80

  /** `uint8_t` as the buffers hold it. */
  type byte = uint8

  /** C's `min` on sizes. */
  function Min(a: nat, b: nat): (m: nat)
    ensures m <= a && m <= b && (m == a || m == b)
  {
    if a < b then a else b
  }

  /** The cast `(uint8_t)x`: the low eight bits of `x`. */
  function ToByte(x: int): (b: byte)
    ensures 0 <= x < 0x100 ==> b as int == x
  {
    (x % 0x100) as byte
  }

  /** Casting a byte read back as an `int` gives the byte itself. */
  lemma ToByteOfByte(x: byte)
    ensures ToByte(x as int) == x
  {
  }

  const Modulus32: int := 0x1_0000_0000

  /** `a + b` on `uint32`: the sum wraps past the top of the counter. */
  function Add32(a: uint32, b: uint32): (sum: uint32)
  {
    if a as int + b as int < Modulus32 then a + b else (a as int + b as int - Modulus32) as uint32
  }

  /** `now - start` on `uint32`: the time elapsed since `start`, across a wrap of the counter. */
  function Elapsed(now: uint32, start: uint32): (d: uint32)
    ensures Add32(start, d) == now
  {
    if now >= start then now - start else (now as int - start as int + Modulus32) as uint32
  }

  /** The clock reading `k` milliseconds after `start`. */
  function PollTime(start: uint32, k: nat): (t: uint32)
    requires k < Modulus32
  {
    Add32(start, k as uint32)
  }

  /** Measuring `k` milliseconds with wrap-around subtraction gives back `k`,
      whatever the starting reading, as long as `k` fits in the counter. */
  lemma ElapsedPollTime(start: uint32, k: nat)
    requires k < Modulus32
    ensures Elapsed(PollTime(start, k), start) == k as uint32
  {
    if start as int + k >= Modulus32 {
      assert PollTime(start, k) as int == start as int + k - Modulus32;
    }
  }

  /** One more millisecond after the `k`-th one. */
  lemma PollTimeNext(start: uint32, k: nat)
    requires k + 1 < Modulus32
    ensures Add32(PollTime(start, k), 1) == PollTime(start, k + 1)
  {
  }

  datatype Level = Low | High
  datatype PinMode = Input | Output

  datatype BoardCall =
    | SetPinMode(pin: nat, mode: PinMode)
    | DigitalWrite(pin: nat, level: Level)
    | DigitalRead(pin: nat)
    | Millis
    | Delay(ms: uint32)

  class Board {
    /** The value `millis()` reports. */
    var clock: uint32
    /** The level the outside world presents on each input pin at each clock reading. */
    var inputLevel: (nat, uint32) -> Level
    var log: seq<BoardCall>

    constructor (start: uint32, inputLevel: (nat, uint32) -> Level)
      ensures clock == start && this.inputLevel == inputLevel && log == []
    {
      clock := start;
      this.inputLevel := inputLevel;
      log := [];
    }

    method PinModeSet(pin: nat, mode: PinMode)
      modifies this`log
      ensures log == old(log) + [SetPinMode(pin, mode)]
    {
      log := log + [SetPinMode(pin, mode)];
    }

    method Write(pin: nat, level: Level)
      modifies this`log
      ensures log == old(log) + [DigitalWrite(pin, level)]
    {
      log := log + [DigitalWrite(pin, level)];
    }

    method Read(pin: nat) returns (level: Level)
      modifies this`log
      ensures level == inputLevel(pin, clock)
      ensures log == old(log) + [DigitalRead(pin)]
    {
      level := inputLevel(pin, clock);
      log := log + [DigitalRead(pin)];
    }

    method Now() returns (t: uint32)
      modifies this`log
      ensures t == clock
      ensures log == old(log) + [Millis]
    {
      t := clock;
      log := log + [Millis];
    }

    /** `delay(ms)`: exactly `ms` milliseconds pass. */
    method Delay(ms: uint32)
      modifies this`clock, this`log
      ensures clock == Add32(old(clock), ms)
      ensures log == old(log) + [BoardCall.Delay(ms)]
    {
      clock := Add32(clock, ms);
      log := log + [BoardCall.Delay(ms)];
    }
  }
}

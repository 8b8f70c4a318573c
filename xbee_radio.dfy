/** `XBeeRadio`: the radio contract over a serial `Stream` in transparent mode, with
    two optional pins for sleep: a request output and a confirmation input. A pin
    number below 0 means the pin is not wired. */
module XBee {
  import opened Arduino
  import opened RadioContract
  import opened StreamLib

  /** How long `dormir` and `despertar` wait for the confirmation pin, in ms. */
  const ConfirmTimeoutMs: uint16 := 200

  /** The poll, counted from `from`, at which `pin` first shows `desired` when the
      pin is read once per millisecond from `start` on; `timeout` if none does. */
  function FirstPoll(inputLevel: (nat, uint32) -> Level, pin: nat, desired: Level,
                     start: uint32, from: nat, timeout: nat): (k: nat)
    requires from <= timeout < Modulus32
    ensures from <= k <= timeout
    ensures k < timeout ==> inputLevel(pin, PollTime(start, k)) == desired
    decreases timeout - from
  {
    if from == timeout then timeout
    else if inputLevel(pin, PollTime(start, from)) == desired then from
    else FirstPoll(inputLevel, pin, desired, start, from + 1, timeout)
  }

  /** Every poll before the one `FirstPoll` picks shows the other level. */
  lemma {:induction false} FirstPollMisses(inputLevel: (nat, uint32) -> Level, pin: nat, desired: Level,
                                           start: uint32, from: nat, timeout: nat, j: nat)
    requires from <= timeout < Modulus32
    requires from <= j < FirstPoll(inputLevel, pin, desired, start, from, timeout)
    ensures inputLevel(pin, PollTime(start, j)) != desired
    decreases timeout - from
  {
    if j > from {
      FirstPollMisses(inputLevel, pin, desired, start, from + 1, timeout, j);
    }
  }

  /** The board calls of the wait loop when its condition is evaluated for the
      `k+1`-th time: the start reading, the first test, then per unsuccessful poll a
      read, a 1 ms delay and the next test. */
  function LoopCalls(pin: nat, k: nat): (calls: seq<BoardCall>)
  {
    if k == 0 then [Millis, Millis] else LoopCalls(pin, k - 1) + [DigitalRead(pin), Delay(1), Millis]
  }

  /** What a pin operation returns, the board calls it makes, and the clock reading
      at which it returns. */
  datatype Outcome = Outcome(ok: bool, calls: seq<BoardCall>, end: uint32)

  /** `_esperarEstadoPin(pin, desired, timeout)` started at clock reading `start`. */
  function PinWait(inputLevel: (nat, uint32) -> Level, pin: nat, desired: Level,
                   start: uint32, timeout: uint16): (w: Outcome)
  {
    var k := FirstPoll(inputLevel, pin, desired, start, 0, timeout as nat);
    var ok := k < timeout as nat;
    Outcome(ok, LoopCalls(pin, k) + (if ok then [DigitalRead(pin)] else []),
            PollTime(start, k))
  }

  /** The state of the wait loop of `PinWait` each time its condition is about to be
      tested: `k` unsuccessful polls are behind it, the clock reads `now` and the
      board has seen `log0 + LoopCalls(pin, k)`. */
  ghost predicate Polled(inputLevel: (nat, uint32) -> Level, pin: nat, desired: Level,
                         start: uint32, timeout: uint16, k: nat, now: uint32,
                         log0: seq<BoardCall>, log: seq<BoardCall>)
  {
    && k <= timeout as nat
    && now == PollTime(start, k)
    && Elapsed(now, start) as nat == k
    && FirstPoll(inputLevel, pin, desired, start, 0, timeout as nat)
       == FirstPoll(inputLevel, pin, desired, start, k, timeout as nat)
    && log == log0 + LoopCalls(pin, k)
  }

  /** Before the first test: two clock readings, no poll. */
  lemma PolledStart(inputLevel: (nat, uint32) -> Level, pin: nat, desired: Level,
                    start: uint32, timeout: uint16, log0: seq<BoardCall>)
    ensures Polled(inputLevel, pin, desired, start, timeout, 0, start, log0, log0 + [Millis, Millis])
  {
    ElapsedPollTime(start, 0);
  }

  /** An unsuccessful poll before the timeout: read, wait 1 ms, read the clock. */
  lemma PolledStep(inputLevel: (nat, uint32) -> Level, pin: nat, desired: Level,
                   start: uint32, timeout: uint16, k: nat, now: uint32,
                   log0: seq<BoardCall>, log: seq<BoardCall>)
    requires Polled(inputLevel, pin, desired, start, timeout, k, now, log0, log)
    requires Elapsed(now, start) < timeout as uint32
    requires inputLevel(pin, now) != desired
    ensures Polled(inputLevel, pin, desired, start, timeout, k + 1, Add32(now, 1),
                   log0, log + [DigitalRead(pin), Delay(1), Millis])
  {
    PollTimeNext(start, k);
    ElapsedPollTime(start, k + 1);
    assert log + [DigitalRead(pin), Delay(1), Millis] == log0 + LoopCalls(pin, k + 1);
  }

  /** A successful poll before the timeout ends the wait as `PinWait` says. */
  lemma PolledFound(inputLevel: (nat, uint32) -> Level, pin: nat, desired: Level,
                    start: uint32, timeout: uint16, k: nat, now: uint32,
                    log0: seq<BoardCall>, log: seq<BoardCall>)
    requires Polled(inputLevel, pin, desired, start, timeout, k, now, log0, log)
    requires Elapsed(now, start) < timeout as uint32
    requires inputLevel(pin, now) == desired
    ensures var w := PinWait(inputLevel, pin, desired, start, timeout);
            w.ok && log0 + w.calls == log + [DigitalRead(pin)] && w.end == now
  {
  }

  /** Reaching the timeout ends the wait unsuccessfully, as `PinWait` says. */
  lemma PolledTimedOut(inputLevel: (nat, uint32) -> Level, pin: nat, desired: Level,
                       start: uint32, timeout: uint16, k: nat, now: uint32,
                       log0: seq<BoardCall>, log: seq<BoardCall>)
    requires Polled(inputLevel, pin, desired, start, timeout, k, now, log0, log)
    requires Elapsed(now, start) >= timeout as uint32
    ensures var w := PinWait(inputLevel, pin, desired, start, timeout);
            !w.ok && log0 + w.calls == log && w.end == now
  {
  }

  /** The wait succeeds only on a reading that shows the desired level, and fails
      only once exactly `timeout` ms have elapsed by wrap-around subtraction, every
      reading before then having shown the other level. */
  lemma PinWaitOutcome(inputLevel: (nat, uint32) -> Level, pin: nat, desired: Level,
                       start: uint32, timeout: uint16)
    ensures var w := PinWait(inputLevel, pin, desired, start, timeout);
            && (w.ok ==> inputLevel(pin, w.end) == desired && Elapsed(w.end, start) < timeout as uint32)
            && (!w.ok ==> Elapsed(w.end, start) == timeout as uint32)
            && forall j :: 0 <= j < Elapsed(w.end, start) as int ==> inputLevel(pin, PollTime(start, j)) != desired
  {
    var k := FirstPoll(inputLevel, pin, desired, start, 0, timeout as nat);
    ElapsedPollTime(start, k);
    forall j | 0 <= j < k ensures inputLevel(pin, PollTime(start, j)) != desired {
      FirstPollMisses(inputLevel, pin, desired, start, 0, timeout as nat, j);
    }
  }

  /** A pin that never shows the desired level: the wait fails after exactly
      `timeout` ms, having polled it once per millisecond. */
  lemma PinWaitNeverReached(inputLevel: (nat, uint32) -> Level, pin: nat, desired: Level,
                            start: uint32, timeout: uint16)
    requires forall t :: inputLevel(pin, t) != desired
    ensures var w := PinWait(inputLevel, pin, desired, start, timeout);
            !w.ok && Elapsed(w.end, start) == timeout as uint32 && w.calls == LoopCalls(pin, timeout as nat)
  {
    PinWaitOutcome(inputLevel, pin, desired, start, timeout);
  }

  /** The sleep-pin protocol shared by `dormir` (level `Low`) and `despertar` (level
      `High`): nothing without a request pin; drive it and succeed without a
      confirmation pin; with both, drive it and wait for the confirmation. */
  function Handshake(request: int8, confirm: int8, level: Level,
                     inputLevel: (nat, uint32) -> Level, start: uint32): (h: Outcome)
  {
    if request < 0 then Outcome(true, [], start)
    else if confirm < 0 then Outcome(true, [DigitalWrite(request as int, level)], start)
    else
      var w := PinWait(inputLevel, confirm as int, level, start, ConfirmTimeoutMs);
      Outcome(w.ok, [DigitalWrite(request as int, level)] + w.calls, w.end)
  }

  lemma HandshakeCases(request: int8, confirm: int8, level: Level,
                       inputLevel: (nat, uint32) -> Level, start: uint32)
    ensures var h := Handshake(request, confirm, level, inputLevel, start);
            && (request < 0 ==> h.ok && h.calls == [] && h.end == start)
            && (0 <= request && confirm < 0 ==>
                  h.ok && h.calls == [DigitalWrite(request as int, level)] && h.end == start)
            && (0 <= request && 0 <= confirm ==>
                  h.calls[0] == DigitalWrite(request as int, level)
                  && (h.ok ==> inputLevel(confirm as int, h.end) == level)
                  && (!h.ok ==> Elapsed(h.end, start) == ConfirmTimeoutMs as uint32))
  {
    if 0 <= request && 0 <= confirm {
      PinWaitOutcome(inputLevel, confirm as int, level, start, ConfirmTimeoutMs);
    }
  }

  /** The `pinMode` calls of `iniciar`: only for wired pins. */
  function ModeCalls(request: int8, confirm: int8): (calls: seq<BoardCall>)
  {
    (if request >= 0 then [SetPinMode(request as int, Output)] else [])
    + (if confirm >= 0 then [SetPinMode(confirm as int, Input)] else [])
  }

  class XBeeRadio {
    const serial: Stream
    const board: Board
    /** Informational only: the port is opened by the caller. */
    const baudios: int
    const pinSleepRq: int8
    const pinOnSleep: int8

    constructor (serial: Stream, board: Board, baudios: int, pinSleepRq: int8, pinOnSleep: int8)
      ensures this.serial == serial && this.board == board && this.baudios == baudios
      ensures this.pinSleepRq == pinSleepRq && this.pinOnSleep == pinOnSleep
    {
      this.serial, this.board, this.baudios := serial, board, baudios;
      this.pinSleepRq, this.pinOnSleep := pinSleepRq, pinOnSleep;
    }

    /** The bytes the next `leer` delivers: everything received so far. */
    ghost function Pending(): seq<byte>
      reads serial
    {
      serial.rx
    }

    /** `_esperarEstadoPin`: polls `pin` once per millisecond until it shows
        `estadoDeseado` or `timeoutMs` have elapsed on the wrapping clock. */
    method EsperarEstadoPin(pin: nat, estadoDeseado: Level, timeoutMs: uint16) returns (ok: bool)
      modifies board`clock, board`log
      ensures var w := PinWait(board.inputLevel, pin, estadoDeseado, old(board.clock), timeoutMs);
              ok == w.ok && board.log == old(board.log) + w.calls && board.clock == w.end
    {
      ghost var lvl, log0 := board.inputLevel, board.log;
      var tiempoInicio := board.Now();
      ghost var k: nat := 0;
      var now := board.Now();
      PolledStart(lvl, pin, estadoDeseado, tiempoInicio, timeoutMs, log0);
      while Elapsed(now, tiempoInicio) < timeoutMs as uint32
        invariant now == board.clock && k <= timeoutMs as nat
        invariant Polled(lvl, pin, estadoDeseado, tiempoInicio, timeoutMs, k, now, log0, board.log)
        decreases timeoutMs as nat - k
      {
        ghost var log := board.log;
        var level := board.Read(pin);
        if level == estadoDeseado {
          PolledFound(lvl, pin, estadoDeseado, tiempoInicio, timeoutMs, k, now, log0, log);
          return true;
        }
        PolledStep(lvl, pin, estadoDeseado, tiempoInicio, timeoutMs, k, now, log0, log);
        board.Delay(1);
        k := k + 1;
        now := board.Now();
      }
      PolledTimedOut(lvl, pin, estadoDeseado, tiempoInicio, timeoutMs, k, now, log0, board.log);
      return false;
    }

    /** `iniciar`: sets the direction of the wired pins, wakes the module and
        reports success whatever the wake-up gave. */
    method Iniciar() returns (ok: bool)
      modifies board`clock, board`log
      ensures ok
      ensures var h := Handshake(pinSleepRq, pinOnSleep, High, board.inputLevel, old(board.clock));
              board.log == old(board.log) + ModeCalls(pinSleepRq, pinOnSleep) + h.calls
              && board.clock == h.end
    {
      if pinSleepRq >= 0 {
        board.PinModeSet(pinSleepRq as int, Output);
      }
      if pinOnSleep >= 0 {
        board.PinModeSet(pinOnSleep as int, Input);
      }
      var awake := Despertar();
      return true;
    }

    /** `dormir`: requests sleep with the request pin low and, when the confirmation
        pin is wired, waits for it to go low. */
    method Dormir() returns (ok: bool)
      modifies board`clock, board`log
      ensures var h := Handshake(pinSleepRq, pinOnSleep, Low, board.inputLevel, old(board.clock));
              ok == h.ok && board.log == old(board.log) + h.calls && board.clock == h.end
    {
      if pinSleepRq < 0 {
        return true;
      }
      board.Write(pinSleepRq as int, Low);
      if pinOnSleep < 0 {
        return true;
      }
      ok := EsperarEstadoPin(pinOnSleep as int, Low, ConfirmTimeoutMs);
    }

    /** `despertar`: requests wake-up with the request pin high and, when the
        confirmation pin is wired, waits for it to go high. */
    method Despertar() returns (ok: bool)
      modifies board`clock, board`log
      ensures var h := Handshake(pinSleepRq, pinOnSleep, High, board.inputLevel, old(board.clock));
              ok == h.ok && board.log == old(board.log) + h.calls && board.clock == h.end
    {
      if pinSleepRq < 0 {
        return true;
      }
      board.Write(pinSleepRq as int, High);
      if pinOnSleep < 0 {
        return true;
      }
      ok := EsperarEstadoPin(pinOnSleep as int, High, ConfirmTimeoutMs);
    }

    /** `enviar`: writes, always flushes, and succeeds exactly when every byte was
        accepted. */
    method Enviar(data: seq<byte>) returns (ok: bool)
      modifies serial`log, serial`writeRoom, serial`sent
      ensures ok <==> |data| <= old(serial.writeRoom)
      ensures ok <==> serial.sent == old(serial.sent) + data
      ensures serial.sent == old(serial.sent) + data[..Min(|data|, old(serial.writeRoom))]
      ensures serial.writeRoom == old(serial.writeRoom) - Min(|data|, old(serial.writeRoom))
      ensures serial.log == old(serial.log) + [Write(data), Flush]
    {
      var bytesEscritos := serial.WriteCall(data);
      serial.FlushCall();
      ok := bytesEscritos == |data|;
    }

    /** `hayDatosDisponibles`: the count of received bytes, unchanged. */
    method HayDatosDisponibles() returns (count: int)
      modifies serial`log
      ensures count == |Pending()|
      ensures serial.log == old(serial.log) + [Available]
    {
      count := serial.AvailableCall();
    }

    /** `leer`: nothing when `maxLongitud` is 0 or nothing has arrived; otherwise
        `min(available, maxLongitud)` bytes, without waiting for more. */
    method Leer(buffer: array<byte>, maxLongitud: nat) returns (n: nat)
      requires maxLongitud <= buffer.Length
      modifies serial`log, serial`rx, buffer
      ensures ReadsPending(old(Pending()), maxLongitud, n, old(buffer[..]), buffer[..])
      ensures Pending() == old(Pending())[n..]
      ensures maxLongitud == 0 ==> serial.log == old(serial.log)
      ensures maxLongitud != 0 && old(Pending()) == [] ==> serial.log == old(serial.log) + [Available]
      ensures maxLongitud != 0 && old(Pending()) != [] ==>
                serial.log == old(serial.log) + [Available, ReadBytes(n)]
    {
      if maxLongitud == 0 {
        return 0;
      }
      var bytesDisponibles := serial.AvailableCall();
      if bytesDisponibles > 0 {
        var bytesALeer := Min(bytesDisponibles, maxLongitud);
        n := serial.ReadBytesCall(buffer, bytesALeer);
        return n;
      }
      return 0;
    }

    /** `obtenerRSSI` is not overridden: the default applies. */
    method ObtenerRSSI() returns (rssi: int)
      ensures rssi == 0
    {
      rssi := DefaultObtenerRSSI();
    }
  }
}

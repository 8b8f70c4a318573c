/** A mock of the RF24 driver (`RF24` class) for the nRF24L01+. The environment
    decides whether `begin` finds the chip, whether the next `write` is
    acknowledged, and which payloads sit in the receive FIFO. */
module RF24Lib {
  import opened Arduino

  /** `rf24_datarate_e`. */
  datatype DataRate = Rate1Mbps | Rate2Mbps | Rate250Kbps

  datatype RF24Call =
    | Begin
    | SetChannel(channel: uint8)
    | SetDataRate(rate: DataRate)
    | SetPALevel(level: int)
    | EnableDynamicPayloads
    | OpenWritingPipe(address: seq<byte>)
    | OpenReadingPipe(pipe: nat, address: seq<byte>)
    | StartListening
    | StopListening
    | Write(data: seq<byte>)
    | Available
    | GetDynamicPayloadSize
    | Read(len: nat)
    | PowerDown
    | PowerUp

  class RF24 {
    var log: seq<RF24Call>
    /** Whether `begin` finds a responding chip. */
    var beginOk: bool
    /** Whether the peer acknowledges the next payload written. */
    var ackNext: bool
    /** Received payloads not yet read, oldest first. */
    var rxFifo: seq<seq<byte>>
    /** Payloads put on the air by `write`, oldest first. */
    var transmitted: seq<seq<byte>>
    var listening: bool
    var poweredUp: bool

    constructor (beginOk: bool, ackNext: bool, rxFifo: seq<seq<byte>>)
      ensures this.beginOk == beginOk && this.ackNext == ackNext && this.rxFifo == rxFifo
      ensures log == [] && transmitted == [] && !listening && !poweredUp
    {
      this.beginOk, this.ackNext, this.rxFifo := beginOk, ackNext, rxFifo;
      log, transmitted, listening, poweredUp := [], [], false, false;
    }

    /** The chip comes up powered and in standby. */
    method BeginCall() returns (ok: bool)
      modifies this`log, this`listening, this`poweredUp
      ensures ok == beginOk && log == old(log) + [Begin]
      ensures ok ==> poweredUp && !listening
      ensures !ok ==> poweredUp == old(poweredUp) && listening == old(listening)
    {
      ok := beginOk;
      if ok { poweredUp, listening := true, false; }
      log := log + [Begin];
    }

    /** The configuration calls only record what they were given. */
    method Setter(call: RF24Call)
      requires call.SetChannel? || call.SetDataRate? || call.SetPALevel? || call.EnableDynamicPayloads?
            || call.OpenWritingPipe? || call.OpenReadingPipe?
      modifies this`log
      ensures log == old(log) + [call]
    {
      log := log + [call];
    }

    method StartListeningCall()
      modifies this`log, this`listening
      ensures listening && log == old(log) + [StartListening]
    {
      listening := true;
      log := log + [StartListening];
    }

    method StopListeningCall()
      modifies this`log, this`listening
      ensures !listening && log == old(log) + [StopListening]
    {
      listening := false;
      log := log + [StopListening];
    }

    /** Transmits one payload and reports whether it was acknowledged. */
    method WriteCall(data: seq<byte>) returns (ack: bool)
      modifies this`log, this`transmitted
      ensures ack == ackNext
      ensures transmitted == old(transmitted) + [data] && log == old(log) + [Write(data)]
    {
      ack := ackNext;
      transmitted := transmitted + [data];
      log := log + [Write(data)];
    }

    method AvailableCall() returns (any: bool)
      modifies this`log
      ensures any == (rxFifo != []) && log == old(log) + [Available]
    {
      any := rxFifo != [];
      log := log + [Available];
    }

    /** The width of the payload at the head of the receive FIFO, 0 when it is empty. */
    method GetDynamicPayloadSizeCall() returns (size: nat)
      modifies this`log
      ensures size == if rxFifo == [] then 0 else |rxFifo[0]|
      ensures log == old(log) + [GetDynamicPayloadSize]
    {
      size := if rxFifo == [] then 0 else |rxFifo[0]|;
      log := log + [GetDynamicPayloadSize];
    }

    /** Copies the first `len` bytes of the head payload and pops the whole payload
        from the FIFO: the bytes not copied are gone. */
    method ReadCall(buffer: array<byte>, len: nat)
      requires rxFifo != [] && len <= |rxFifo[0]| && len <= buffer.Length
      modifies this`log, this`rxFifo, buffer
      ensures buffer[..len] == old(rxFifo[0])[..len]
      ensures buffer[len..] == old(buffer[len..])
      ensures rxFifo == old(rxFifo)[1..]
      ensures log == old(log) + [Read(len)]
    {
      ghost var before := buffer[..];
      var head := rxFifo[0];
      var i := 0;
      while i < len
        modifies buffer
        invariant i <= len
        invariant forall j :: 0 <= j < i ==> buffer[j] == head[j]
        invariant forall j :: i <= j < buffer.Length ==> buffer[j] == before[j]
      {
        buffer[i] := head[i];
        i := i + 1;
      }
      assert buffer[..len] == head[..len];
      assert buffer[len..] == before[len..];
      rxFifo := rxFifo[1..];
      log := log + [Read(len)];
    }

    method PowerDownCall()
      modifies this`log, this`poweredUp
      ensures !poweredUp && log == old(log) + [PowerDown]
    {
      poweredUp := false;
      log := log + [PowerDown];
    }

    method PowerUpCall()
      modifies this`log, this`poweredUp
      ensures poweredUp && log == old(log) + [PowerUp]
    {
      poweredUp := true;
      log := log + [PowerUp];
    }
  }
}

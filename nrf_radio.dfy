/** `NrfRadio`: the radio contract over the RF24 driver for the nRF24L01+. */
module Nrf {
  import opened Arduino
  import opened RadioContract
  import opened RF24Lib

  /** `NrfConfig`. The pins CE and CSN are consumed when the driver object is built,
      so they do not appear here; the addresses are the bytes the `uint8_t*` arguments refer to. */
  datatype NrfConfig = NrfConfig(
    writeAddress: seq<byte>,
    readAddress: seq<byte>,
    channel: uint8,
    dataRate: uint16,
    paLevel: int8)

  /** The generic data rate translated to the driver's: 250 and 2 are recognised,
      every other value means 1 Mbps. */
  function DataRateOf(dataRate: uint16): (rate: DataRate)
    ensures rate == Rate250Kbps <==> dataRate == 250
    ensures rate == Rate2Mbps <==> dataRate == 2
    ensures rate == Rate1Mbps <==> dataRate != 250 && dataRate != 2
  {
    if dataRate == 250 then Rate250Kbps
    else if dataRate == 2 then Rate2Mbps
    else Rate1Mbps
  }

  /** The calls `iniciar` makes once `begin` has succeeded, in order. */
  function SetupCalls(c: NrfConfig): (calls: seq<RF24Call>)
  {
    [SetChannel(c.channel), SetDataRate(DataRateOf(c.dataRate)), SetPALevel(c.paLevel as int),
     EnableDynamicPayloads, OpenWritingPipe(c.writeAddress), OpenReadingPipe(1, c.readAddress),
     StartListening]
  }

  /** The milliseconds `despertar` waits for the oscillator to settle. */
  const WakeSettleMs: uint32 := 5

  class NrfRadio {
    const radio: RF24
    const board: Board
    const config: NrfConfig

    constructor (radio: RF24, board: Board, config: NrfConfig)
      ensures this.radio == radio && this.board == board && this.config == config
    {
      this.radio, this.board, this.config := radio, board, config;
    }

    /** The bytes the next `leer` delivers: the payload at the head of the FIFO. */
    ghost function Pending(): seq<byte>
      reads radio
    {
      if radio.rxFifo == [] then [] else radio.rxFifo[0]
    }

    /** `iniciar`: nothing but `begin` when it fails; otherwise the whole
        configuration in a fixed order, ending in listening mode. */
    method Iniciar() returns (ok: bool)
      modifies radio`log, radio`listening, radio`poweredUp
      ensures ok == radio.beginOk
      ensures !ok ==>
                radio.log == old(radio.log) + [Begin]
                && radio.listening == old(radio.listening) && radio.poweredUp == old(radio.poweredUp)
      ensures ok ==>
                radio.log == old(radio.log) + [Begin] + SetupCalls(config)
                && radio.listening && radio.poweredUp
    {
      var begun := radio.BeginCall();
      if !begun {
        return false;
      }
      radio.Setter(SetChannel(config.channel));
      if config.dataRate == 250 {
        radio.Setter(SetDataRate(Rate250Kbps));
      } else if config.dataRate == 2 {
        radio.Setter(SetDataRate(Rate2Mbps));
      } else {
        radio.Setter(SetDataRate(Rate1Mbps));
      }
      radio.Setter(SetPALevel(config.paLevel as int));
      radio.Setter(EnableDynamicPayloads);
      radio.Setter(OpenWritingPipe(config.writeAddress));
      radio.Setter(OpenReadingPipe(1, config.readAddress));
      radio.StartListeningCall();
      return true;
    }

    /** `enviar`: leaves listening mode, writes, and goes back to listening whether
        or not the write was acknowledged; the result is the acknowledgement. */
    method Enviar(data: seq<byte>) returns (ok: bool)
      modifies radio`log, radio`listening, radio`transmitted
      ensures ok == radio.ackNext
      ensures radio.listening
      ensures radio.log == old(radio.log) + [StopListening, Write(data), StartListening]
      ensures radio.transmitted == old(radio.transmitted) + [data]
    {
      radio.StopListeningCall();
      ok := radio.WriteCall(data);
      radio.StartListeningCall();
    }

    /** `hayDatosDisponibles`: the width of the pending payload, 0 when none is pending. */
    method HayDatosDisponibles() returns (size: int)
      modifies radio`log
      ensures size == |Pending()|
      ensures radio.log == old(radio.log) + [Available]
                           + (if radio.rxFifo == [] then [] else [GetDynamicPayloadSize])
    {
      var any := radio.AvailableCall();
      if any {
        var width := radio.GetDynamicPayloadSizeCall();
        return width;
      }
      return 0;
    }

    /** `leer`: copies `min(payload width, maxLongitud)` bytes of the pending payload
        and drops the whole payload; with no payload it reads nothing. */
    method Leer(buffer: array<byte>, maxLongitud: nat) returns (n: nat)
      requires maxLongitud <= buffer.Length
      modifies radio`log, radio`rxFifo, buffer
      ensures ReadsPending(old(Pending()), maxLongitud, n, old(buffer[..]), buffer[..])
      ensures old(Pending()) == [] ==>
                radio.rxFifo == old(radio.rxFifo) && radio.log == old(radio.log) + [GetDynamicPayloadSize]
      ensures old(Pending()) != [] ==>
                radio.rxFifo == old(radio.rxFifo)[1..]
                && radio.log == old(radio.log) + [GetDynamicPayloadSize, Read(n)]
    {
      var payloadSize := radio.GetDynamicPayloadSizeCall();
      if payloadSize == 0 {
        return 0;
      }
      var bytesALeer := Min(payloadSize, maxLongitud);
      radio.ReadCall(buffer, bytesALeer);
      return bytesALeer;
    }

    /** `obtenerRSSI` is not overridden: the default applies. */
    method ObtenerRSSI() returns (rssi: int)
      ensures rssi == 0
    {
      rssi := DefaultObtenerRSSI();
    }

    /** `dormir`: powers the chip down and always reports success. */
    method Dormir() returns (ok: bool)
      modifies radio`log, radio`poweredUp
      ensures ok && !radio.poweredUp && radio.log == old(radio.log) + [PowerDown]
    {
      radio.PowerDownCall();
      return true;
    }

    /** `despertar`: powers the chip up, waits 5 ms and always reports success. */
    method Despertar() returns (ok: bool)
      modifies radio`log, radio`poweredUp, board`clock, board`log
      ensures ok && radio.poweredUp && radio.log == old(radio.log) + [PowerUp]
      ensures board.log == old(board.log) + [Delay(WakeSettleMs)]
      ensures board.clock == Add32(old(board.clock), WakeSettleMs)
    {
      radio.PowerUpCall();
      board.Delay(WakeSettleMs);
      return true;
    }
  }
}

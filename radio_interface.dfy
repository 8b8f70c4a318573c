/** `RadioInterface` as the program uses it: a radio of one of the three kinds, the
    two pure virtual operations the convenience overloads call, and the overloads
    `enviar(const String&)` and `leerComoString` written once for every kind. */
module RadioInterface {
  import opened Arduino
  import opened RadioContract
  import LoRaLib
  import RF24Lib
  import StreamLib
  import Lora
  import Nrf
  import XBee

  /** The dynamic type behind a `RadioInterface*`. */
  datatype Radio =
    | OfLora(lora: Lora.LoraRadio)
    | OfNrf(nrf: Nrf.NrfRadio)
    | OfXBee(xbee: XBee.XBeeRadio)
  {
    /** The driver objects the radio's operations act on. */
    function Objects(): set<object>
    {
      match this
      case OfLora(r) => {r.drv}
      case OfNrf(r) => {r.radio}
      case OfXBee(r) => {r.serial}
    }

    /** The bytes the next `leer` delivers. */
    ghost function Pending(): seq<byte>
      reads Objects()
    {
      match this
      case OfLora(r) => r.Pending()
      case OfNrf(r) => r.Pending()
      case OfXBee(r) => r.Pending()
    }

    /** What a send of `data` that returned `ok` did to the driver: the result, the
        bytes put on the air and the calls made; the receive side and the oracles
        are left as they were. */
    twostate predicate Sent(data: seq<byte>, ok: bool)
      reads Objects()
    {
      match this
      case OfLora(r) =>
        && ok == old(r.drv.channelFree)
        && r.drv.transmitted == old(r.drv.transmitted) + (if ok then [data] else [])
        && r.drv.log == old(r.drv.log)
                        + (if ok then [LoRaLib.BeginPacket, LoRaLib.Write(data), LoRaLib.EndPacket]
                           else [LoRaLib.BeginPacket])
        && unchanged(r.drv`fifo, r.drv`air, r.drv`rssi, r.drv`beginOk, r.drv`channelFree)
      case OfNrf(r) =>
        && ok == old(r.radio.ackNext)
        && r.radio.listening
        && r.radio.transmitted == old(r.radio.transmitted) + [data]
        && r.radio.log == old(r.radio.log)
                          + [RF24Lib.StopListening, RF24Lib.Write(data), RF24Lib.StartListening]
        && unchanged(r.radio`rxFifo, r.radio`beginOk, r.radio`ackNext, r.radio`poweredUp)
      case OfXBee(r) =>
        && (ok <==> |data| <= old(r.serial.writeRoom))
        && r.serial.sent == old(r.serial.sent) + data[..Min(|data|, old(r.serial.writeRoom))]
        && r.serial.writeRoom == old(r.serial.writeRoom) - Min(|data|, old(r.serial.writeRoom))
        && r.serial.log == old(r.serial.log) + [StreamLib.Write(data), StreamLib.Flush]
        && unchanged(r.serial`rx)
    }

    /** What a `leer(buffer, maxLongitud)` that returned `n` did to the driver:
        LoRa and XBee keep the pending bytes after the first `n`, nRF24 drops the
        whole pending payload; the calls made are each kind's own, and the send side
        and the oracles are left as they were. */
    twostate predicate Consumed(maxLongitud: nat, n: nat)
      reads Objects()
    {
      match this
      case OfLora(r) =>
        && n <= |old(r.drv.fifo)| && r.drv.fifo == old(r.drv.fifo)[n..]
        && r.drv.log == old(r.drv.log) + Lora.DrainCalls(n)
        && unchanged(r.drv`air, r.drv`rssi, r.drv`beginOk, r.drv`channelFree,
                     r.drv`txPacket, r.drv`transmitted)
      case OfNrf(r) =>
        && r.radio.rxFifo == (if old(r.radio.rxFifo) == [] || old(r.radio.rxFifo[0]) == [] then old(r.radio.rxFifo)
                              else old(r.radio.rxFifo)[1..])
        && r.radio.log == old(r.radio.log) + [RF24Lib.GetDynamicPayloadSize]
                          + (if old(r.radio.rxFifo) == [] || old(r.radio.rxFifo[0]) == [] then []
                             else [RF24Lib.Read(n)])
        && unchanged(r.radio`beginOk, r.radio`ackNext, r.radio`transmitted,
                     r.radio`listening, r.radio`poweredUp)
      case OfXBee(r) =>
        && n <= |old(r.serial.rx)| && r.serial.rx == old(r.serial.rx)[n..]
        && r.serial.log == old(r.serial.log)
                           + (if maxLongitud == 0 then []
                              else [StreamLib.Available]
                                   + (if old(r.serial.rx) == [] then [] else [StreamLib.ReadBytes(n)]))
        && unchanged(r.serial`writeRoom, r.serial`sent)
    }

    /** `enviar(buffer, longitud)`, dispatched to the radio's own implementation. */
    method Enviar(data: seq<byte>) returns (ok: bool)
      modifies Objects()
      ensures Sent(data, ok)
    {
      match this
      case OfLora(r) => ok := r.Enviar(data);
      case OfNrf(r) => ok := r.Enviar(data);
      case OfXBee(r) => ok := r.Enviar(data);
    }

    /** `leer(buffer, maxLongitud)`, dispatched; every kind keeps the common contract. */
    method Leer(buffer: array<byte>, maxLongitud: nat) returns (n: nat)
      requires maxLongitud <= buffer.Length
      modifies Objects(), buffer
      ensures ReadsPending(old(Pending()), maxLongitud, n, old(buffer[..]), buffer[..])
      ensures Consumed(maxLongitud, n)
    {
      match this
      case OfLora(r) => n := r.Leer(buffer, maxLongitud);
      case OfNrf(r) => n := r.Leer(buffer, maxLongitud);
      case OfXBee(r) => n := r.Leer(buffer, maxLongitud);
    }

    /** `enviar(const String&)`: sends exactly the bytes of the string, all
        `length()` of them, and returns what that send returned. */
    method EnviarString(data: Text) returns (ok: bool)
      modifies Objects()
      ensures Sent(data, ok)
    {
      ok := Enviar(data);
    }

    /** `leerComoString`: reads at most 255 bytes into a 256-byte buffer, terminates
        them with a zero byte and builds the `String` up to the first zero byte. */
    method LeerComoString() returns (s: Text)
      modifies Objects()
      ensures s == CString(old(Pending())[..Min(|old(Pending())|, 255)])
      ensures |s| <= 255 && s <= old(Pending())
      ensures old(Pending()) == [] ==> s == []
      ensures Consumed(255, Min(|old(Pending())|, 255))
    {
      ghost var pending := Pending();
      var buffer := new byte[256];
      ghost var before := buffer[..];
      var longitud := Leer(buffer, 255);
      TerminatedRead(pending, 255, longitud, before, buffer[..]);
      buffer[longitud] := 0;
      s := CString(buffer[..]);
    }
  }
}

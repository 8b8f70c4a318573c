/** End-to-end uses of the adapters over fresh mock drivers: what one radio sends,
    delivered unchanged to a second radio of the same kind, comes out of
    `hayDatosDisponibles` and `leer` byte for byte. */
module Scenarios {
  import opened Arduino
  import opened RadioContract
  import LoRaLib
  import RF24Lib
  import StreamLib
  import Lora
  import Nrf
  import XBee
  import RadioInterface

  /** A LoRa packet sent by one radio and received by another: the size announced
      is the packet's, and `leer` copies as much of it as fits. */
  method LoraRoundTrip(config: Lora.LoRaConfig, data: seq<byte>, rssi: int, maxLongitud: nat)
    returns (sent: bool, size: int, received: seq<byte>, signal: int)
    ensures sent && size == |data| && signal == rssi
    ensures received == data[..Min(|data|, maxLongitud)]
    ensures |data| <= maxLongitud ==> received == data
  {
    var tx := new LoRaLib.LoRaClass(true, true, []);
    var sender := new Lora.LoraRadio(tx, config);
    sent := sender.Enviar(data);
    var rx := new LoRaLib.LoRaClass(true, true, [LoRaLib.Packet(tx.transmitted[0], rssi)]);
    var receiver := new Lora.LoraRadio(rx, config);
    size := receiver.HayDatosDisponibles();
    var buffer := new byte[maxLongitud];
    var n := receiver.Leer(buffer, maxLongitud);
    received := buffer[..n];
    signal := receiver.ObtenerRSSI();
  }

  /** An acknowledged nRF24 payload: the receiver announces its width and `leer`
      copies as much of it as fits. */
  method NrfRoundTrip(config: Nrf.NrfConfig, data: seq<byte>, maxLongitud: nat)
    returns (sent: bool, size: int, received: seq<byte>)
    ensures sent && size == |data|
    ensures received == data[..Min(|data|, maxLongitud)]
    ensures |data| <= maxLongitud ==> received == data
  {
    var board := new Board(0, (pin: nat, t: uint32) => Low);
    var tx := new RF24Lib.RF24(true, true, []);
    var sender := new Nrf.NrfRadio(tx, board, config);
    sent := sender.Enviar(data);
    var rx := new RF24Lib.RF24(true, true, [tx.transmitted[0]]);
    var receiver := new Nrf.NrfRadio(rx, board, config);
    size := receiver.HayDatosDisponibles();
    var buffer := new byte[maxLongitud];
    var n := receiver.Leer(buffer, maxLongitud);
    received := buffer[..n];
  }

  /** Bytes written to a serial port with room for all of them, arriving at the
      other end: the count announced is theirs, and `leer` copies as many as fit. */
  method XBeeRoundTrip(data: seq<byte>, maxLongitud: nat)
    returns (sent: bool, size: int, received: seq<byte>)
    ensures sent && size == |data|
    ensures received == data[..Min(|data|, maxLongitud)]
    ensures |data| <= maxLongitud ==> received == data
  {
    var board := new Board(0, (pin: nat, t: uint32) => Low);
    var txPort := new StreamLib.Stream(|data|, []);
    var sender := new XBee.XBeeRadio(txPort, board, 9600, -1, -1);
    sent := sender.Enviar(data);
    var rxPort := new StreamLib.Stream(0, txPort.sent);
    var receiver := new XBee.XBeeRadio(rxPort, board, 9600, -1, -1);
    size := receiver.HayDatosDisponibles();
    var buffer := new byte[maxLongitud];
    var n := receiver.Leer(buffer, maxLongitud);
    received := buffer[..n];
  }

  /** A `String` sent over LoRa and read back with `leerComoString`: it arrives
      whole when it has at most 255 bytes and no zero byte. */
  method TextRoundTrip(config: Lora.LoRaConfig, text: Text, rssi: int) returns (sent: bool, back: Text)
    ensures sent
    ensures back == CString(text[..Min(|text|, 255)])
    ensures |text| <= 255 && (forall i :: 0 <= i < |text| ==> text[i] != 0) ==> back == text
  {
    var tx := new LoRaLib.LoRaClass(true, true, []);
    var loraTx := new Lora.LoraRadio(tx, config);
    var sender := RadioInterface.OfLora(loraTx);
    sent := sender.EnviarString(text);
    assert tx.transmitted == [text];
    var rx := new LoRaLib.LoRaClass(true, true, [LoRaLib.Packet(tx.transmitted[0], rssi)]);
    var lora := new Lora.LoraRadio(rx, config);
    var size := lora.HayDatosDisponibles();
    var receiver := RadioInterface.OfLora(lora);
    back := receiver.LeerComoString();
    if |text| <= 255 && (forall i :: 0 <= i < |text| ==> text[i] != 0) {
      CStringWhole(text);
    }
  }

  /** A string of non-zero bytes is its own `String`. */
  lemma CStringWhole(text: Text)
    requires forall i :: 0 <= i < |text| ==> text[i] != 0
    ensures CString(text) == text
  {
  }

  /** Whatever packet arrives first, `leer` right after `hayDatosDisponibles`
      returns `min(size, maxLongitud)`: in particular 0 after a size of 0. */
  method LoraAnnouncedRead(air: seq<LoRaLib.Packet>, config: Lora.LoRaConfig, maxLongitud: nat)
    returns (size: int, n: nat)
    ensures 0 <= size && n == Min(size, maxLongitud)
    ensures size == 0 ==> n == 0
  {
    var drv := new LoRaLib.LoRaClass(true, true, air);
    var radio := new Lora.LoraRadio(drv, config);
    size := radio.HayDatosDisponibles();
    var buffer := new byte[maxLongitud];
    n := radio.Leer(buffer, maxLongitud);
  }

  /** Whatever payloads are queued, `leer` right after `hayDatosDisponibles`
      returns `min(size, maxLongitud)`: in particular 0 after a size of 0. */
  method NrfAnnouncedRead(rxFifo: seq<seq<byte>>, config: Nrf.NrfConfig, maxLongitud: nat)
    returns (size: int, n: nat)
    ensures 0 <= size && n == Min(size, maxLongitud)
    ensures size == 0 ==> n == 0
  {
    var board := new Board(0, (pin: nat, t: uint32) => Low);
    var drv := new RF24Lib.RF24(true, true, rxFifo);
    var radio := new Nrf.NrfRadio(drv, board, config);
    size := radio.HayDatosDisponibles();
    var buffer := new byte[maxLongitud];
    n := radio.Leer(buffer, maxLongitud);
  }

  /** Whatever bytes have arrived, `leer` right after `hayDatosDisponibles`
      returns `min(count, maxLongitud)`: in particular 0 after a count of 0. */
  method XBeeAnnouncedRead(rx: seq<byte>, maxLongitud: nat) returns (size: int, n: nat)
    ensures 0 <= size && n == Min(size, maxLongitud)
    ensures size == 0 ==> n == 0
  {
    var board := new Board(0, (pin: nat, t: uint32) => Low);
    var port := new StreamLib.Stream(0, rx);
    var radio := new XBee.XBeeRadio(port, board, 9600, -1, -1);
    size := radio.HayDatosDisponibles();
    var buffer := new byte[maxLongitud];
    n := radio.Leer(buffer, maxLongitud);
  }

  /** "`leer` after a size of 0 reads 0" fails for LoRa after a partial read: a
      2-byte packet read one byte at a time leaves a byte that the next
      `hayDatosDisponibles` does not announce and the next `leer` still delivers. */
  method LoraLeftoverAfterEmptyPoll(config: Lora.LoRaConfig, a: byte, b: byte, rssi: int)
    returns (size1: int, first: nat, size2: int, second: nat, late: byte)
    ensures size1 == 2 && first == 1
    ensures size2 == 0 && second == 1 && late == b
  {
    var drv := new LoRaLib.LoRaClass(true, true, [LoRaLib.Packet([a, b], rssi)]);
    var radio := new Lora.LoraRadio(drv, config);
    size1 := radio.HayDatosDisponibles();
    var buffer := new byte[1];
    first := radio.Leer(buffer, 1);
    size2 := radio.HayDatosDisponibles();
    second := radio.Leer(buffer, 1);
    late := buffer[0];
  }

  /** `leerComoString` on a LoRa packet keeps what it did not read: the next `leer`
      delivers the bytes past the first 255. */
  method LoraTextRemainder(config: Lora.LoRaConfig, data: seq<byte>, rssi: int)
    returns (back: Text, rest: seq<byte>)
    ensures back == CString(data[..Min(|data|, 255)])
    ensures rest == data[Min(|data|, 255)..]
  {
    var drv := new LoRaLib.LoRaClass(true, true, [LoRaLib.Packet(data, rssi)]);
    var lora := new Lora.LoraRadio(drv, config);
    var size := lora.HayDatosDisponibles();
    var radio := RadioInterface.OfLora(lora);
    back := radio.LeerComoString();
    var buffer := new byte[|data|];
    var n := radio.Leer(buffer, |data|);
    rest := buffer[..n];
  }

  /** `leerComoString` on an nRF24 payload drops what it did not read: with no
      other payload queued, the next `leer` delivers nothing. */
  method NrfTextRemainder(config: Nrf.NrfConfig, data: seq<byte>) returns (back: Text, n: nat)
    ensures back == CString(data[..Min(|data|, 255)])
    ensures n == 0
  {
    var board := new Board(0, (pin: nat, t: uint32) => Low);
    var drv := new RF24Lib.RF24(true, true, [data]);
    var nrf := new Nrf.NrfRadio(drv, board, config);
    var radio := RadioInterface.OfNrf(nrf);
    back := radio.LeerComoString();
    var buffer := new byte[|data|];
    n := radio.Leer(buffer, |data|);
  }
}

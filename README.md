# UniversalRadioWSN in Dafny

UniversalRadioWSN is a small hardware-abstraction layer for the radios of an
Arduino wireless sensor network. It defines a base class, `RadioInterface`, with
these operations:

- mandatory: `iniciar`, `enviar`, `hayDatosDisponibles`, `leer`;
- optional, with defaults: `obtenerRSSI`, `dormir`, `despertar`;
- convenience overloads: `enviar(const String&)`, `leerComoString`.

Three adapters implement it:

- `LoraRadio`, over the sandeepmistry LoRa driver;
- `NrfRadio`, over the RF24 driver for the nRF24L01+;
- `XBeeRadio`, over a serial `Stream`, with two optional pins for sleep control.

This project models those four headers. The drivers they call are not part of the
repository, so each one becomes a mock class:

- `LoRaLib.LoRaClass`, `RF24Lib.RF24` and `StreamLib.Stream` for the three drivers;
- `Arduino.Board` for the pins, `millis` and `delay`.

Each mock holds the state the adapter can observe: receive FIFOs, the listening and
power flags, a 32-bit millisecond clock, and an append-only log of every call it
received. Whatever the real library decides is an oracle field that the environment
sets:

- the result of `begin` and of `beginPacket`;
- the acknowledgement of the next `write`;
- how many bytes the serial port accepts;
- the level a pin shows at a given clock reading.

Each adapter is a class over its mock. Its methods do what the header does, in the
same order. Their contracts state:

- the result;
- the exact call sequence the driver sees;
- the new driver state.

Modules follow the headers:

| file | module | models |
|---|---|---|
| `arduino.dfy` | `Arduino` | integer widths, wrap-around clock arithmetic, pins and clock |
| `radio_contract.dfy` | `RadioContract` | `RadioInterface`'s defaults, the `leer` contract, `String` from a buffer |
| `lora_lib.dfy`, `rf24_lib.dfy`, `stream_lib.dfy` | `LoRaLib`, `RF24Lib`, `StreamLib` | the driver mocks |
| `lora_radio.dfy` | `Lora` | `LoraRadio` |
| `nrf_radio.dfy` | `Nrf` | `NrfRadio` |
| `xbee_radio.dfy` | `XBee` | `XBeeRadio`: the pin wait, sleep handshake, send, read |
| `radio_interface.dfy` | `RadioInterface` | a radio of any kind; `enviar(const String&)` and `leerComoString` |
| `scenarios.dfy` | `Scenarios` | end-to-end round trips over fresh mocks |

Every adapter states `leer` through one predicate, `RadioContract.ReadsPending`. It
uses `Pending()`, the bytes the next read delivers:

- for LoRa, what is left of the last parsed packet;
- for nRF24, the payload at the head of the FIFO;
- for XBee, every byte received so far.

The predicate says that `leer` returns `n == min(|Pending()|, maxLongitud)`. The
first `n` cells of the buffer then hold the first `n` pending bytes, and no other
cell changes.

The polling loop `_esperarEstadoPin` is specified by `XBee.PinWait`. The lemma
`XBee.PinWaitOutcome`, with `XBee.FirstPollMisses` beneath it, proves what that
outcome means:

- it succeeds only on a reading that shows the desired level, before the timeout;
- it fails only when the uint32 wrap-around difference `millis() - tiempoInicio`
  equals the timeout exactly;
- every earlier reading showed the other level.

## Model

| member | source | states |
|---|---|---|
| RadioContract.DefaultObtenerRSSI | src/RadioInterface.h:80 | a radio without RSSI support reports 0 |
| RadioContract.DefaultDormir | src/RadioInterface.h:88 | the default `dormir` succeeds |
| RadioContract.DefaultDespertar | src/RadioInterface.h:95 | the default `despertar` succeeds |
| RadioContract.ReadsPendingBounded | src/RadioInterface.h:62-69 | any `leer` that keeps the common contract returns at most `maxLongitud` and at most the pending count, and leaves every cell from `n` on untouched |
| RadioContract.CString | src/RadioInterface.h:131 | the `String` built from a buffer is a prefix of it, has no zero byte, and stops at a zero byte whenever it is shorter than the buffer |
| RadioContract.TerminatedRead | src/RadioInterface.h:123-131 | whatever a `leer(buffer, 255)` keeping the common contract copied into a 256-byte buffer, the zero goes at an index inside the buffer and the buffer then reads as the `String` of the copied bytes |
| RadioContract.CStringAtTerminator | src/RadioInterface.h:128-131 | a zero written right after the data ends the string there, whatever the rest of the buffer holds |
| RadioInterface.Radio.Enviar | src/RadioInterface.h:50 | dispatch of `enviar` to the radio's kind: the result, the bytes put on the air and the calls made are each kind's own; the received bytes and the oracles are untouched |
| RadioInterface.Radio.Leer | src/RadioInterface.h:62-69 | whatever the kind, `leer` keeps the common contract: `n == min(pending, maxLongitud)`, the pending bytes in `buffer[0..n)`, nothing else written; LoRa and XBee keep the pending bytes after `n`, nRF24 drops the whole payload, and the send side is untouched |
| RadioInterface.Radio.EnviarString | src/RadioInterface.h:107-110 | exactly the string's bytes, all of them, are sent, and the result and the driver's new state are that send's |
| RadioInterface.Radio.LeerComoString | src/RadioInterface.h:122-132 | the terminator index is at most 255, inside the 256-byte buffer; the result is the `String` of the first `min(pending, 255)` pending bytes, so it has at most 255 bytes, is a prefix of what was pending, and is empty when nothing was; what is left pending afterwards is that of a `leer` of 255 bytes |
| Lora.DrainCalls | src/LoraRadio.h:113-116 | a copy of `n` bytes makes `2n + 1` calls, starting and ending with `available()` |
| Lora.DrainCallsAlternate | src/LoraRadio.h:113-116 | the calls alternate `available()`, `read()`, …, `available()`: `n` reads between `n + 1` availability checks |
| Lora.LoraRadio.Iniciar | src/LoraRadio.h:56-73 | `setPins(cs, reset, irq)` then `begin(frequency)`; when it fails, false and no setter; otherwise the five setters in order and true |
| Lora.LoraRadio.Enviar | src/LoraRadio.h:83-90 | true exactly when a packet could be started; only then `write(data)` and `endPacket`, which puts exactly `data` on the air |
| Lora.LoraRadio.HayDatosDisponibles | src/LoraRadio.h:98-100 | exactly what `parsePacket` returns: the next packet's size, its bytes pending and its RSSI current; or 0 with the pending bytes and the RSSI unchanged |
| Lora.LoraRadio.Leer | src/LoraRadio.h:111-118 | the common `leer` contract; the FIFO loses exactly the `n` bytes copied, so the rest stays for the next call; `available()` asked before each copy and once more |
| Lora.LoraRadio.ObtenerRSSI | src/LoraRadio.h:124-126 | exactly `packetRssi()` |
| Lora.LoraRadio.Dormir | src/LoraRadio.h:134-137 | one `sleep` call, then true |
| Lora.LoraRadio.Despertar | src/LoraRadio.h:145-148 | one `idle` call, then true |
| Nrf.DataRateOf | src/NrfRadio.h:75-81 | 250 gives 250 kbps, 2 gives 2 Mbps, and exactly every other value gives 1 Mbps |
| Nrf.NrfRadio.Iniciar | src/NrfRadio.h:67-97 | when `begin` fails, false and no other call; otherwise channel, translated rate, PA level, dynamic payloads, writing pipe, reading pipe 1, start listening, in that order, then true, listening and powered |
| Nrf.NrfRadio.Enviar | src/NrfRadio.h:107-114 | stop listening, write, start listening, in that order; the result is the acknowledgement, and the radio is listening afterwards whatever it was |
| Nrf.NrfRadio.HayDatosDisponibles | src/NrfRadio.h:122-127 | the width of the pending payload, 0 when none is pending |
| Nrf.NrfRadio.Leer | src/NrfRadio.h:137-150 | the common `leer` contract; with no payload nothing is read or popped; otherwise `read(min(width, max))` and the whole payload leaves the FIFO |
| Nrf.NrfRadio.ObtenerRSSI | src/RadioInterface.h:80 | not overridden: 0 |
| Nrf.NrfRadio.Dormir | src/NrfRadio.h:157-160 | `powerDown`, then true, with the chip powered down |
| Nrf.NrfRadio.Despertar | src/NrfRadio.h:169-176 | `powerUp`, then a 5 ms `delay` that advances the clock by 5, then true |
| XBee.FirstPoll | src/XbeeRadio.h:39-44 | the poll the wait stops at lies within the timeout, and shows the desired level unless it is the timeout |
| XBee.FirstPollMisses | src/XbeeRadio.h:40-43 | every poll before that one shows the other level |
| XBee.PolledStart | src/XbeeRadio.h:38-39 | before the first test the loop has read the clock twice and polled nothing |
| XBee.PolledStep | src/XbeeRadio.h:39-44 | a poll that misses before the timeout reads the pin, waits 1 ms and tests again one millisecond later |
| XBee.PolledFound | src/XbeeRadio.h:40-41 | a poll that matches before the timeout ends the wait with true at that reading |
| XBee.PolledTimedOut | src/XbeeRadio.h:39-45 | a test that finds the timeout elapsed ends the wait with false |
| XBee.PinWaitOutcome | src/XbeeRadio.h:37-46 | true only on a reading that shows the desired level with less than the timeout elapsed; false only when the wrap-around difference equals the timeout; every earlier reading showed the other level |
| XBee.PinWaitNeverReached | src/XbeeRadio.h:37-46 | a pin that never shows the level makes the wait return false after exactly the timeout, having polled once per millisecond |
| XBee.HandshakeCases | src/XbeeRadio.h:90-117 | without a request pin, true with no pin call and no time spent; with a request pin only, the pin driven and true at once; with both, the pin driven and the wait's result for the confirmation pin |
| XBee.XBeeRadio.EsperarEstadoPin | src/XbeeRadio.h:37-46 | the result, the board calls and the final clock are those of `PinWait` from the clock at entry |
| XBee.XBeeRadio.Iniciar | src/XbeeRadio.h:71-81 | `pinMode` only for wired pins, then the wake-up handshake, then true whatever the handshake gave |
| XBee.XBeeRadio.Dormir | src/XbeeRadio.h:90-99 | the sleep handshake with level LOW and a 200 ms wait |
| XBee.XBeeRadio.Despertar | src/XbeeRadio.h:108-117 | the wake handshake with level HIGH and a 200 ms wait |
| XBee.XBeeRadio.Enviar | src/XbeeRadio.h:127-135 | `write` then always `flush`; true exactly when every byte was accepted, so exactly when all of `data` was sent |
| XBee.XBeeRadio.HayDatosDisponibles | src/XbeeRadio.h:141-143 | the stream's `available()` count, unchanged |
| XBee.XBeeRadio.Leer | src/XbeeRadio.h:153-166 | the common `leer` contract; with `maxLongitud == 0` no call at all; with nothing available only `available()`; otherwise `readBytes(min(available, max))` |
| XBee.XBeeRadio.ObtenerRSSI | src/RadioInterface.h:80 | not overridden: 0 |
| Scenarios.LoraRoundTrip | src/LoraRadio.h:83-126 | a packet sent and delivered to a second LoRa radio is announced with its size, `leer` gives back its first `min(size, max)` bytes, all of it when it fits, and `obtenerRSSI` gives the packet's RSSI |
| Scenarios.LoraLeftoverAfterEmptyPoll | src/LoraRadio.h:98-118 | after a 2-byte packet is read one byte at a time, `hayDatosDisponibles` reports 0 and yet the next `leer` delivers the second byte |
| Scenarios.LoraTextRemainder | src/RadioInterface.h:122-132 | `leerComoString` on a LoRa packet leaves the bytes past the first 255 for the next `leer` |
| Scenarios.NrfTextRemainder | src/RadioInterface.h:122-132 | `leerComoString` on an nRF24 payload drops the rest of it: the next `leer` delivers nothing |
| Scenarios.NrfRoundTrip | src/NrfRadio.h:107-150 | the same round trip for an acknowledged nRF24 payload |
| Scenarios.XBeeRoundTrip | src/XbeeRadio.h:127-166 | the same round trip over a serial link with room for every byte |
| Scenarios.TextRoundTrip | src/RadioInterface.h:107-132 | a `String` sent and read back with `leerComoString` is the `String` of its first 255 bytes: the whole of it when it is at most 255 bytes without a zero byte |
| Scenarios.CStringWhole | src/RadioInterface.h:131 | bytes without a zero are their own `String` |
| Scenarios.LoraAnnouncedRead | src/LoraRadio.h:98-118 | right after `hayDatosDisponibles`, `leer` returns `min(size, max)`, so 0 after a size of 0 |
| Scenarios.NrfAnnouncedRead | src/NrfRadio.h:122-150 | the same for the nRF24 radio |
| Scenarios.XBeeAnnouncedRead | src/XbeeRadio.h:141-166 | the same for the XBee radio |

## Left out

- The LoRa, RF24 and `Stream` libraries, SPI and the UART are not part of this model.
  They are mocks whose undetermined outcomes are oracle fields.
- The ack wait of RF24 `write` is left out, and so are its 32-byte payload limit and
  its flushing of a FIFO whose head payload is wider than that.
- The 255-byte FIFO of the LoRa chip is left out. The mock keeps whatever the next
  packet holds.
- A new `parsePacket` replaces unread LoRa bytes. Bytes that `leer` leaves behind stay
  visible to the next `leer` while no other packet is parsed. So "`leer` after a size
  of 0 reads 0" holds only for a radio whose last packet was drained.
  `Scenarios.LoraAnnouncedRead` shows it from a fresh driver, and
  `Scenarios.LoraLeftoverAfterEmptyPoll` shows it failing after a partial read.
- The `Stream` mock's `readBytes` has no timeout, because the adapter only asks for
  bytes already available.
- Real time is not modelled:
  - `millis` and `digitalRead` take no time;
  - each `delay(ms)` advances the 32-bit clock by exactly `ms`, wrapping at 2^32;
  - after that the pin levels are a function of pin and clock reading.
- `src/UniversalRadioWSN.h` holds only `#include` lines and is not part of this model.
- Virtual dispatch is a closed sum, `RadioInterface.Radio`, over the three adapters.
  Destructors are not modelled.
- Only `enviar` and `leer` are dispatched through it, because they are the only ones
  the convenience overloads call.
- The informational `_baudios` value is kept, but nothing reads it.
- RSSI values, PA ordinals and the LoRa radio parameters are passed through as plain
  integers, without their physical meaning. The cast to `rf24_pa_dbm_e` is the
  identity on the `int8_t` value.
- A `String` is its bytes. `c_str()`/`length()` are not modelled separately, and
  `String(const char*)` is modelled as the bytes before the first zero byte.
- The C++ integer widths of `size_t` and `int` results are not modelled. Counts are
  unbounded naturals, and only the clock wraps at 2^32.
- The data-rate translation is the if-chain of src/NrfRadio.h:75-81. The field's
  comment (src/NrfRadio.h:27) lists 250, 1 and 2. The code maps 250 to 250 kbps and 2
  to 2 Mbps, and every other value, not only 1, to 1 Mbps.
- When nRF24 `leer` gets `maxLongitud == 0` with a payload pending, it calls
  `read(buffer, 0)`. The mock pops the payload on every `read`, whatever its length.
- The RF24 mock answers `getDynamicPayloadSize()` with 0 when the receive FIFO is
  empty. On the real chip that value is the driver's, and `NrfRadio::leer` asks for it
  without calling `available()` first (src/NrfRadio.h:140-141). That mock choice is why
  `Nrf.NrfRadio.Leer` with no payload reads and pops nothing, and why
  `Scenarios.NrfAnnouncedRead` reads 0 after a size of 0.
- The RF24 mock also accepts a zero-width payload at the head of the FIFO, which the
  chip's dynamic payloads (1 to 32 bytes) never produce. The adapter reports such a
  payload as size 0 and never pops it.

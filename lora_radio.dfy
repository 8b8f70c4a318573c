/** `LoraRadio`: the radio contract over the sandeepmistry LoRa driver. */
module Lora {
  import opened Arduino
  import opened RadioContract
  import opened LoRaLib

  /** `LoRaConfig`: the parameters handed to the driver, passed through unchanged. */
  datatype LoRaConfig = LoRaConfig(
    frequency: int,
    txPower: int,
    spreadingFactor: int,
    signalBandwidth: int,
    codingRate: int,
    syncWord: int,
    csPin: int,
    resetPin: int,
    irqPin: int)

  /** The calls `iniciar` makes once `begin` has succeeded, in order. */
  function SettingsCalls(c: LoRaConfig): (calls: seq<LoRaCall>)
  {
    [SetTxPower(c.txPower), SetSpreadingFactor(c.spreadingFactor),
     SetSignalBandwidth(c.signalBandwidth), SetCodingRate4(c.codingRate), SetSyncWord(c.syncWord)]
  }

  /** The calls `leer` makes when it copies `n` bytes: `available()` is asked
      before every copy and once more before it stops. */
  function DrainCalls(n: nat): (calls: seq<LoRaCall>)
    ensures |calls| == 2 * n + 1
    ensures calls[0] == Available && calls[|calls| - 1] == Available
  {
    if n == 0 then [Available] else DrainCalls(n - 1) + [Read, Available]
  }

  /** Those calls alternate: `available()` at every even position, `read()` at every
      odd one, so `n` reads sit between `n + 1` availability checks. */
  lemma {:induction false} DrainCallsAlternate(n: nat)
    ensures forall i :: 0 <= i < 2 * n + 1 ==> DrainCalls(n)[i] == if i % 2 == 0 then Available else Read
  {
    if n > 0 {
      DrainCallsAlternate(n - 1);
      assert forall i :: 0 <= i < 2 * n - 1 ==> DrainCalls(n)[i] == DrainCalls(n - 1)[i];
    }
  }

  class LoraRadio {
    const drv: LoRaClass
    const config: LoRaConfig

    constructor (drv: LoRaClass, config: LoRaConfig)
      ensures this.drv == drv && this.config == config
    {
      this.drv, this.config := drv, config;
    }

    /** The bytes the next `leer` delivers: what is left of the last parsed packet. */
    ghost function Pending(): seq<byte>
      reads drv
    {
      drv.fifo
    }

    /** `iniciar`: pins first, then `begin`; it stops as soon as `begin` fails and
        otherwise applies the five settings in a fixed order. */
    method Iniciar() returns (ok: bool)
      modifies drv`log
      ensures ok == drv.beginOk
      ensures !ok ==> drv.log == old(drv.log)
                                + [SetPins(config.csPin, config.resetPin, config.irqPin), Begin(config.frequency)]
      ensures ok ==> drv.log == old(drv.log)
                               + [SetPins(config.csPin, config.resetPin, config.irqPin), Begin(config.frequency)]
                               + SettingsCalls(config)
    {
      drv.SetPinsCall(config.csPin, config.resetPin, config.irqPin);
      var begun := drv.BeginCall(config.frequency);
      if !begun {
        return false;
      }
      drv.Setter(SetTxPower(config.txPower));
      drv.Setter(SetSpreadingFactor(config.spreadingFactor));
      drv.Setter(SetSignalBandwidth(config.signalBandwidth));
      drv.Setter(SetCodingRate4(config.codingRate));
      drv.Setter(SetSyncWord(config.syncWord));
      return true;
    }

    /** `enviar`: succeeds exactly when a packet could be started; only then are the
        bytes written and the packet closed, which puts it on the air. */
    method Enviar(data: seq<byte>) returns (ok: bool)
      modifies drv`log, drv`txPacket, drv`transmitted
      ensures ok == drv.channelFree
      ensures !ok ==> drv.log == old(drv.log) + [BeginPacket] && drv.transmitted == old(drv.transmitted)
      ensures ok ==>
                drv.log == old(drv.log) + [BeginPacket, Write(data), EndPacket]
                && drv.transmitted == old(drv.transmitted) + [data]
    {
      var started := drv.BeginPacketCall();
      if started {
        drv.WriteCall(data);
        assert drv.txPacket == data;
        drv.EndPacketCall();
        return true;
      }
      return false;
    }

    /** `hayDatosDisponibles`: exactly what `parsePacket` returns. */
    method HayDatosDisponibles() returns (size: int)
      modifies drv`log, drv`air, drv`fifo, drv`rssi
      ensures old(drv.air) == [] ==> size == 0 && Pending() == old(Pending()) && drv.rssi == old(drv.rssi)
      ensures old(drv.air) != [] ==>
                size == |old(drv.air)[0].payload| && Pending() == old(drv.air)[0].payload
                && drv.rssi == old(drv.air)[0].rssi
      ensures drv.air == if old(drv.air) == [] then [] else old(drv.air)[1..]
      ensures drv.log == old(drv.log) + [ParsePacket]
    {
      size := drv.ParsePacketCall();
    }

    /** `leer`: copies bytes while the driver has some and the buffer has room; the
        bytes that do not fit stay in the driver for the next call. */
    method Leer(buffer: array<byte>, maxLongitud: nat) returns (n: nat)
      requires maxLongitud <= buffer.Length
      modifies drv`log, drv`fifo, buffer
      ensures ReadsPending(old(Pending()), maxLongitud, n, old(buffer[..]), buffer[..])
      ensures Pending() == old(Pending())[n..]
      ensures drv.log == old(drv.log) + DrainCalls(n)
    {
      ghost var data, before := drv.fifo, buffer[..];
      n := 0;
      var avail := drv.AvailableCall();
      while avail != 0 && n < maxLongitud
        invariant n <= maxLongitud && n <= |data|
        invariant drv.fifo == data[n..] && avail == |drv.fifo|
        invariant forall i :: 0 <= i < n ==> buffer[i] == data[i]
        invariant forall i :: n <= i < buffer.Length ==> buffer[i] == before[i]
        invariant drv.log == old(drv.log) + DrainCalls(n)
      {
        ghost var head := drv.fifo[0];
        var b := drv.ReadCall();
        ToByteOfByte(head);
        buffer[n] := ToByte(b);
        n := n + 1;
        avail := drv.AvailableCall();
      }
      assert buffer[..n] == data[..n];
      assert buffer[n..] == before[n..];
    }

    /** `obtenerRSSI`: the signal strength of the last parsed packet. */
    method ObtenerRSSI() returns (rssi: int)
      modifies drv`log
      ensures rssi == drv.rssi && drv.log == old(drv.log) + [PacketRssi]
    {
      rssi := drv.PacketRssiCall();
    }

    /** `dormir`: puts the chip to sleep and always reports success. */
    method Dormir() returns (ok: bool)
      modifies drv`log
      ensures ok && drv.log == old(drv.log) + [Sleep]
    {
      drv.SleepCall();
      return true;
    }

    /** `despertar`: puts the chip in standby and always reports success. */
    method Despertar() returns (ok: bool)
      modifies drv`log
      ensures ok && drv.log == old(drv.log) + [Idle]
    {
      drv.IdleCall();
      return true;
    }
  }
}

/** A mock of the sandeepmistry LoRa driver (the global `LoRa` object). The outcomes
    the chip decides are fields the environment sets: whether `begin` finds the chip,
    whether `beginPacket` finds the radio free, and the packets that arrive over the
    air. Every call is appended to `log`. */
module LoRaLib {
  import opened Arduino

  /** A packet received by the chip, with the signal strength it arrived at. */
  datatype Packet = Packet(payload: seq<byte>, rssi: int)

  datatype LoRaCall =
    | SetPins(ss: int, reset: int, dio0: int)
    | Begin(frequency: int)
    | SetTxPower(level: int)
    | SetSpreadingFactor(sf: int)
    | SetSignalBandwidth(sbw: int)
    | SetCodingRate4(denominator: int)
    | SetSyncWord(sw: int)
    | BeginPacket
    | Write(data: seq<byte>)
    | EndPacket
    | ParsePacket
    | Available
    | Read
    | PacketRssi
    | Sleep
    | Idle

  class LoRaClass {
    var log: seq<LoRaCall>
    /** Whether `begin` finds a responding chip. */
    var beginOk: bool
    /** Whether `beginPacket` finds the radio idle rather than still transmitting. */
    var channelFree: bool
    /** Packets received by the chip and not yet parsed, oldest first. */
    var air: seq<Packet>
    /** The unread bytes of the last parsed packet. */
    var fifo: seq<byte>
    /** RSSI of the last parsed packet. */
    var rssi: int
    /** The packet being assembled between `beginPacket` and `endPacket`. */
    var txPacket: seq<byte>
    /** Payloads handed to the air by `endPacket`, oldest first. */
    var transmitted: seq<seq<byte>>

    constructor (beginOk: bool, channelFree: bool, air: seq<Packet>)
      ensures this.beginOk == beginOk && this.channelFree == channelFree && this.air == air
      ensures log == [] && fifo == [] && rssi == 0 && txPacket == [] && transmitted == []
    {
      this.beginOk, this.channelFree, this.air := beginOk, channelFree, air;
      log, fifo, rssi, txPacket, transmitted := [], [], 0, [], [];
    }

    method SetPinsCall(ss: int, reset: int, dio0: int)
      modifies this`log
      ensures log == old(log) + [SetPins(ss, reset, dio0)]
    {
      log := log + [SetPins(ss, reset, dio0)];
    }

    method BeginCall(frequency: int) returns (ok: bool)
      modifies this`log
      ensures ok == beginOk && log == old(log) + [Begin(frequency)]
    {
      ok := beginOk;
      log := log + [Begin(frequency)];
    }

    /** The five setters only record what they were given. */
    method Setter(call: LoRaCall)
      requires call.SetTxPower? || call.SetSpreadingFactor? || call.SetSignalBandwidth?
            || call.SetCodingRate4? || call.SetSyncWord?
      modifies this`log
      ensures log == old(log) + [call]
    {
      log := log + [call];
    }

    method BeginPacketCall() returns (ok: bool)
      modifies this`log, this`txPacket
      ensures ok == channelFree && log == old(log) + [BeginPacket]
      ensures txPacket == if ok then [] else old(txPacket)
    {
      ok := channelFree;
      if ok { txPacket := []; }
      log := log + [BeginPacket];
    }

    method WriteCall(data: seq<byte>)
      modifies this`log, this`txPacket
      ensures txPacket == old(txPacket) + data && log == old(log) + [Write(data)]
    {
      txPacket := txPacket + data;
      log := log + [Write(data)];
    }

    method EndPacketCall()
      modifies this`log, this`transmitted
      ensures transmitted == old(transmitted) + [txPacket] && log == old(log) + [EndPacket]
    {
      transmitted := transmitted + [txPacket];
      log := log + [EndPacket];
    }

    /** Returns the length of a newly received packet, making it the one `read`
        drains, or 0 when none arrived; the unread bytes of the previous packet then
        stay where they were. */
    method ParsePacketCall() returns (size: int)
      modifies this`log, this`air, this`fifo, this`rssi
      ensures old(air) == [] ==> size == 0 && air == [] && fifo == old(fifo) && rssi == old(rssi)
      ensures old(air) != [] ==>
                size == |old(air)[0].payload| && air == old(air)[1..]
                && fifo == old(air)[0].payload && rssi == old(air)[0].rssi
      ensures log == old(log) + [ParsePacket]
    {
      if air == [] {
        size := 0;
      } else {
        size := |air[0].payload|;
        fifo, rssi := air[0].payload, air[0].rssi;
        air := air[1..];
      }
      log := log + [ParsePacket];
    }

    method AvailableCall() returns (count: int)
      modifies this`log
      ensures count == |fifo| && log == old(log) + [Available]
    {
      count := |fifo|;
      log := log + [Available];
    }

    /** The next unread byte, or -1 when the packet is exhausted. */
    method ReadCall() returns (b: int)
      modifies this`log, this`fifo
      ensures old(fifo) == [] ==> b == -1 && fifo == []
      ensures old(fifo) != [] ==> b == old(fifo)[0] as int && fifo == old(fifo)[1..]
      ensures log == old(log) + [Read]
    {
      if fifo == [] {
        b := -1;
      } else {
        b := fifo[0] as int;
        fifo := fifo[1..];
      }
      log := log + [Read];
    }

    method PacketRssiCall() returns (r: int)
      modifies this`log
      ensures r == rssi && log == old(log) + [PacketRssi]
    {
      r := rssi;
      log := log + [PacketRssi];
    }

    method SleepCall()
      modifies this`log
      ensures log == old(log) + [Sleep]
    {
      log := log + [Sleep];
    }

    method IdleCall()
      modifies this`log
      ensures log == old(log) + [Idle]
    {
      log := log + [Idle];
    }
  }
}

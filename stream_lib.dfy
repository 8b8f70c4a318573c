/** A mock of an Arduino `Stream` (a serial port). The environment decides how many
    bytes the port accepts on `write` and which bytes have arrived for reading. */
module StreamLib {
  import opened Arduino

  datatype StreamCall =
    | Write(data: seq<byte>)
    | Flush
    | Available
    | ReadBytes(length: nat)

  class Stream {
    var log: seq<StreamCall>
    /** How many more bytes the port accepts before a write comes up short. */
    var writeRoom: nat
    /** Bytes accepted for transmission, oldest first. */
    var sent: seq<byte>
    /** Bytes received and not yet read, oldest first. */
    var rx: seq<byte>

    constructor (writeRoom: nat, rx: seq<byte>)
      ensures this.writeRoom == writeRoom && this.rx == rx && log == [] && sent == []
    {
      this.writeRoom, this.rx := writeRoom, rx;
      log, sent := [], [];
    }

    /** Writes as many leading bytes of `data` as the port accepts and says how many. */
    method WriteCall(data: seq<byte>) returns (written: nat)
      modifies this`log, this`writeRoom, this`sent
      ensures written == Min(|data|, old(writeRoom))
      ensures sent == old(sent) + data[..written] && writeRoom == old(writeRoom) - written
      ensures log == old(log) + [Write(data)]
    {
      written := Min(|data|, writeRoom);
      sent := sent + data[..written];
      writeRoom := writeRoom - written;
      log := log + [Write(data)];
    }

    method FlushCall()
      modifies this`log
      ensures log == old(log) + [Flush]
    {
      log := log + [Flush];
    }

    method AvailableCall() returns (count: int)
      modifies this`log
      ensures count == |rx| && log == old(log) + [Available]
    {
      count := |rx|;
      log := log + [Available];
    }

    /** Moves up to `length` received bytes into `buffer` and says how many; no byte
        arrives while it runs. */
    method ReadBytesCall(buffer: array<byte>, length: nat) returns (count: nat)
      requires length <= buffer.Length
      modifies this`log, this`rx, buffer
      ensures count == Min(|old(rx)|, length)
      ensures buffer[..count] == old(rx)[..count] && buffer[count..] == old(buffer[count..])
      ensures rx == old(rx)[count..]
      ensures log == old(log) + [ReadBytes(length)]
    {
      ghost var data, before := rx, buffer[..];
      count := 0;
      while count < length && rx != []
        modifies this`rx, buffer
        invariant count <= length && count <= |data| && rx == data[count..]
        invariant forall j :: 0 <= j < count ==> buffer[j] == data[j]
        invariant forall j :: count <= j < buffer.Length ==> buffer[j] == before[j]
      {
        buffer[count] := rx[0];
        rx := rx[1..];
        count := count + 1;
      }
      assert buffer[..count] == data[..count];
      assert buffer[count..] == before[count..];
      log := log + [ReadBytes(length)];
    }
  }
}

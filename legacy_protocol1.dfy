/**
 * The first Protocol 1 codec of the library (`dynamixel::Protocol1` in
 * `protocol1.hpp` at the top of the source tree): a three-argument encoder, one-
 * and two-byte packing, and a status decoder that never inspects the error
 * byte. The checksum it computes is the one of `Protocol1.ChecksumOf`.
 */
module LegacyProtocol1 {
  import opened Bytes
  import opened Errors
  import Protocol1

  const PingCode: uint8 := 0x01
  const ReadCode: uint8 := 0x02
  const WriteCode: uint8 := 0x03
  const RegWriteCode: uint8 := 0x04
  const ActionCode: uint8 := 0x05
  const FactoryResetCode: uint8 := 0x06
  const SyncWriteCode: uint8 := 0x83

  /** `_checksum`: asserts a non-empty packet, sums bytes 2 .. size-2 and complements the low byte. */
  method Checksum(packet: seq<uint8>) returns (r: uint8)
    requires |packet| > 0
    ensures r == Protocol1.ChecksumOf(packet)
    ensures (Protocol1.Sum(Protocol1.Covered(packet)) + r) % 0x100 == 0xFF
  {
    var sum: nat := 0;
    if |packet| >= 3 {
      var i := 2;
      while i < |packet| - 1
        invariant 2 <= i <= |packet| - 1
        invariant sum == Protocol1.Sum(packet[2..i])
      {
        assert packet[2..i + 1][..i - 2] == packet[2..i];
        sum := sum + packet[i];
        i := i + 1;
      }
      assert packet[2..i] == Protocol1.Covered(packet);
    }
    var checksum := sum % 0x100;
    // the assert of the source holds for every sum
    assert sum > 255 || sum == checksum;
    r := 0xFF - checksum;
  }

  /**
   * `pack_instruction(id, instr, parameters)`: FF FF, id, the length byte
   * `(uint8_t)(|parameters| + 2)`, the instruction, the parameters and the
   * checksum; the same bytes as the newer encoder.
   */
  method PackInstruction(id: uint8, instr: uint8, parameters: seq<uint8>) returns (packet: seq<uint8>)
    ensures |packet| == 6 + |parameters|
    ensures packet[..5] == [0xFF, 0xFF, id, Low(|parameters| + 2), instr]
    ensures packet[5..5 + |parameters|] == parameters
    ensures Protocol1.Sum(packet[2..]) % 0x100 == 0xFF
    ensures packet == Protocol1.Packet(id, instr, parameters)
  {
    var size := 6 + |parameters|;
    ghost var frame := Protocol1.Frame(id, instr, parameters);
    packet := seq(size, _ => 0);
    packet := packet[0 := 0xFF][1 := 0xFF][2 := id][3 := Low(|parameters| + 2)][4 := instr];
    assert packet[..5] == frame[..5];
    for i := 0 to |parameters|
      invariant |packet| == size
      invariant packet[..5 + i] == frame[..5 + i]
      invariant packet[size - 1] == 0
    {
      packet := packet[5 + i := parameters[i]];
      assert packet[..5 + i + 1] == packet[..5 + i] + [packet[5 + i]];
      assert frame[..5 + i + 1] == frame[..5 + i] + [parameters[i]];
    }
    assert packet == frame + [0] by {
      assert packet == packet[..size - 1] + [packet[size - 1]];
    }
    var checksum := Checksum(packet);
    packet := packet[size - 1 := checksum];
    assert packet == packet[..size - 1] + [packet[size - 1]];
    Protocol1.PacketLayout(id, instr, parameters);
  }

  /** `pack_data(uint8_t)`: the byte itself. */
  function PackData8(data: uint8): (r: seq<uint8>)
    ensures |r| == 1 && FromLittleEndian(r) == data
  {
    assert [data][1..] == [];
    [data]
  }

  /** `pack_data(uint16_t)`: low byte, then high byte. */
  function PackData16(data: uint16): (r: seq<uint8>)
    ensures |r| == 2 && FromLittleEndian(r) == data
    ensures r == Protocol1.PackData16(data)
  {
    FromLittleEndianPair(Low(data), High(data));
    [Low(data), High(data)]
  }

  /** The return value (or exception) of `unpack_status` and its `id` and `parameters` afterwards. */
  datatype Unpacked = Unpacked(result: Result<bool>, id: uint8, parameters: seq<uint8>)

  /** `unpack_status(packet, id, parameters)`. */
  function Unpack(packet: seq<uint8>, id: uint8, parameters: seq<uint8>): Unpacked
  {
    if |packet| < 6 then Unpacked(Success(false), id, parameters)
    else if packet[0] != 0xFF || packet[1] != 0xFF then Unpacked(Failure(Error(BadHeader)), id, parameters)
    else if packet[3] != |packet| - 4 then Unpacked(Success(false), id, parameters)
    else
      // id and parameters are written before the checksum is compared
      var received := packet[5..5 + packet[3] as int - 2];
      if Protocol1.ChecksumOf(packet) != packet[|packet| - 1] then
        Unpacked(Failure(Error(ChecksumMismatch)), packet[2], received)
      else Unpacked(Success(true), packet[2], received)
  }

  /** `unpack_status(packet, id, parameters)`, with its references as in-out values. */
  method UnpackStatus(packet: seq<uint8>, id: uint8, parameters: seq<uint8>)
    returns (r: Result<bool>, id': uint8, parameters': seq<uint8>)
    ensures Unpacked(r, id', parameters') == Unpack(packet, id, parameters)
  {
    id', parameters' := id, parameters;
    if |packet| < 6 {
      return Success(false), id', parameters';
    }
    if packet[0] != 0xFF || packet[1] != 0xFF {
      return Failure(Error(BadHeader)), id', parameters';
    }
    if packet[3] != |packet| - 4 {
      return Success(false), id', parameters';
    }
    id' := packet[2];
    var length := packet[3];
    var error := packet[4];
    parameters' := [];
    for i := 0 to length as int - 2
      invariant parameters' == packet[5..5 + i]
    {
      parameters' := parameters' + [packet[5 + i]];
    }
    var checksum := Checksum(packet);
    if checksum != packet[|packet| - 1] {
      return Failure(Error(ChecksumMismatch)), id', parameters';
    }
    // the error byte is read but never inspected
    return Success(true), id', parameters';
  }

  /**
   * `unpack_status` reports an incomplete packet (false) exactly when it has
   * fewer than 6 bytes or, with a good header, a length byte other than
   * size - 4; it then leaves `id` and `parameters` alone, as it does for a bad
   * header.
   */
  lemma UnpackIncomplete(packet: seq<uint8>, id: uint8, parameters: seq<uint8>)
    ensures var u := Unpack(packet, id, parameters);
      && (u.result == Success(false) <==>
            |packet| < 6 || (packet[..2] == [0xFF, 0xFF] && packet[3] != |packet| - 4))
      && (u.result == Failure(Error(BadHeader)) <==> |packet| >= 6 && packet[..2] != [0xFF, 0xFF])
      && (u.result == Success(false) || u.result == Failure(Error(BadHeader)) ==>
            u.id == id && u.parameters == parameters)
  {
    if |packet| >= 6 {
      assert packet[..2] == [packet[0], packet[1]];
    }
  }

  /**
   * `unpack_status` accepts a complete packet exactly when its checksum
   * matches, whatever its error byte, and then (as on a checksum mismatch)
   * the id is byte 2 and the parameters are the bytes between the error byte
   * and the checksum.
   */
  lemma UnpackAccepts(packet: seq<uint8>, id: uint8, parameters: seq<uint8>)
    ensures var u := Unpack(packet, id, parameters);
      && (u.result == Success(true) <==>
            |packet| >= 6 && packet[..2] == [0xFF, 0xFF] && packet[3] == |packet| - 4
            && Protocol1.ChecksumOf(packet) == packet[|packet| - 1])
      && (u.result == Success(true) || u.result == Failure(Error(ChecksumMismatch)) ==>
            u.id == packet[2] && u.parameters == packet[5..|packet| - 1])
  {
    if |packet| >= 6 {
      assert packet[..2] == [packet[0], packet[1]];
    }
  }

  /**
   * Round trip: a packet laid out by the encoder, with any byte in the
   * instruction slot (where a status packet carries its error byte), unpacks
   * to its id and parameters and is accepted.
   */
  lemma UnpackPacket(id: uint8, error: uint8, parameters: seq<uint8>, id0: uint8, params0: seq<uint8>)
    requires |parameters| <= 253
    ensures Unpack(Protocol1.Packet(id, error, parameters), id0, params0) == Unpacked(Success(true), id, parameters)
  {
    Protocol1.PacketLayout(id, error, parameters);
    Protocol1.PacketChecksum(id, error, parameters);
  }
}

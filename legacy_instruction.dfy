/**
 * The first instruction type of the library: `Instruction` owns a heap
 * buffer holding one Protocol 1 instruction packet, filled by `_build_packet`
 * and completed with `compute_checksum`. `rebuild_packet` replaces the
 * parameters and keeps the id and instruction given at construction; the
 * buffer is reallocated only when the packet size changes.
 */
module LegacyInstructions {
  import opened Bytes
  import Protocol1

  /**
   * `compute_checksum(packet, packet_size)`: the buffer must exist, be
   * non-empty and start with FF FF; the bytes 2 .. size-2 are summed and the
   * low byte of the sum is complemented.
   */
  method ComputeChecksum(packet: array<uint8>, size: int) returns (r: uint8)
    requires 0 < size <= packet.Length
    requires packet.Length >= 2 && packet[0] == 0xFF && packet[1] == 0xFF
    ensures r == Protocol1.ChecksumOf(packet[..size])
    ensures (Protocol1.Sum(Protocol1.Covered(packet[..size])) + r) % 0x100 == 0xFF
  {
    var sum: nat := 0;
    if size >= 3 {
      var i := 2;
      while i < size - 1
        invariant 2 <= i <= size - 1
        invariant sum == Protocol1.Sum(packet[2..i])
      {
        assert packet[2..i + 1][..i - 2] == packet[2..i];
        sum := sum + packet[i];
        i := i + 1;
      }
      assert packet[2..i] == Protocol1.Covered(packet[..size]);
    }
    var checksum := sum % 0x100;
    // the assert of the source holds for every sum
    assert sum > 255 || sum == checksum;
    r := 0xFF - checksum;
  }

  /**
   * Lines 23-30 of `_build_packet`: FF FF, id, the length byte
   * `(byte_t)(|params| + 2)`, the instruction and the parameters are written
   * into the buffer, then its last byte is set to `compute_checksum` of it.
   */
  method FillPacket(packet: array<uint8>, id: uint8, instruction: uint8, params: seq<uint8>)
    requires packet.Length == 6 + |params|
    modifies packet
    ensures packet[..] == Protocol1.Packet(id, instruction, params)
  {
    ghost var frame := Protocol1.Frame(id, instruction, params);
    var size := packet.Length;
    packet[0] := 0xFF;
    packet[1] := 0xFF;
    packet[2] := id;
    packet[3] := Low(|params| + 2);
    packet[4] := instruction;
    for i := 0 to |params|
      invariant forall k :: 0 <= k < 5 + i ==> packet[k] == frame[k]
    {
      packet[5 + i] := params[i];
    }
    assert packet[..size - 1] == frame;
    var checksum := ComputeChecksum(packet, size);
    assert Protocol1.Covered(packet[..size]) == frame[2..] == Protocol1.Covered(frame + [0]) by {
      assert packet[..size][2..size - 1] == packet[..size - 1][2..];
    }
    packet[size - 1] := checksum;
    assert packet[..] == packet[..size - 1] + [checksum];
  }

  class Instruction {
    /** `_packet`; the null pointer before the first build is an empty array. */
    var buffer: array<uint8>
    /** `_packet_size`; -1 before the first build. */
    var packetSize: int
    /** `_id` and `_instruction`, set by every constructor and never changed. */
    const id: uint8
    const instruction: uint8

    /**
     * A built instruction: the buffer holds `packetSize` bytes, FF FF, the
     * stored id, a length byte of size - 4, the stored instruction and, last,
     * the checksum of the packet.
     */
    predicate Valid()
      reads this, buffer
    {
      && packetSize == buffer.Length >= 6
      && buffer[0] == 0xFF && buffer[1] == 0xFF
      && buffer[2] == id && buffer[3] == Low(packetSize - 4) && buffer[4] == instruction
      && buffer[packetSize - 1] == Protocol1.ChecksumOf(buffer[..])
    }

    /** The buffer holds the packet of the stored id and instruction with parameters `params`. */
    predicate Holds(params: seq<uint8>)
      reads this, buffer
    {
      buffer[..] == Protocol1.Packet(id, instruction, params)
    }

    /** Holding the packet of some parameters is a valid instruction whose size counts them. */
    lemma HoldsIsValid(params: seq<uint8>)
      requires Holds(params) && packetSize == buffer.Length
      ensures Valid() && packetSize == 6 + |params|
    {
      Protocol1.PacketLayout(id, instruction, params);
      Protocol1.PacketChecksum(id, instruction, params);
    }

    /** `Instruction(id, instruction)`. */
    constructor (id: uint8, instruction: uint8)
      ensures this.id == id && this.instruction == instruction
      ensures Valid() && Holds([]) && fresh(buffer)
    {
      this.id := id;
      this.instruction := instruction;
      buffer := new uint8[0];
      packetSize := -1;
      new;
      BuildPacket(id, instruction, []);
      HoldsIsValid([]);
    }

    /** `Instruction(id, instruction, param)`. */
    constructor One(id: uint8, instruction: uint8, param: uint8)
      ensures this.id == id && this.instruction == instruction
      ensures Valid() && Holds([param]) && fresh(buffer)
    {
      this.id := id;
      this.instruction := instruction;
      buffer := new uint8[0];
      packetSize := -1;
      new;
      BuildPacket(id, instruction, [param]);
      HoldsIsValid([param]);
    }

    /** `Instruction(id, instruction, p1, p2)`. */
    constructor Two(id: uint8, instruction: uint8, p1: uint8, p2: uint8)
      ensures this.id == id && this.instruction == instruction
      ensures Valid() && Holds([p1, p2]) && fresh(buffer)
    {
      this.id := id;
      this.instruction := instruction;
      buffer := new uint8[0];
      packetSize := -1;
      new;
      BuildPacket(id, instruction, [p1, p2]);
      HoldsIsValid([p1, p2]);
    }

    /** `Instruction(id, instruction, p1, p2, p3)`. */
    constructor Three(id: uint8, instruction: uint8, p1: uint8, p2: uint8, p3: uint8)
      ensures this.id == id && this.instruction == instruction
      ensures Valid() && Holds([p1, p2, p3]) && fresh(buffer)
    {
      this.id := id;
      this.instruction := instruction;
      buffer := new uint8[0];
      packetSize := -1;
      new;
      BuildPacket(id, instruction, [p1, p2, p3]);
      HoldsIsValid([p1, p2, p3]);
    }

    /** `Instruction(id, instruction, params)`. */
    constructor WithParams(id: uint8, instruction: uint8, params: seq<uint8>)
      ensures this.id == id && this.instruction == instruction
      ensures Valid() && Holds(params) && fresh(buffer)
    {
      this.id := id;
      this.instruction := instruction;
      buffer := new uint8[0];
      packetSize := -1;
      new;
      BuildPacket(id, instruction, params);
      HoldsIsValid(params);
    }

    /**
     * `_build_packet(id, instruction, params)`: a fresh buffer when the size
     * changes, the same buffer overwritten in place otherwise; the old
     * contents of a reused buffer, checksum slot included, do not matter.
     */
    method BuildPacket(id: uint8, instruction: uint8, params: seq<uint8>)
      requires packetSize == -1 || packetSize == buffer.Length
      modifies this, buffer
      ensures packetSize == buffer.Length == 6 + |params|
      ensures buffer[..] == Protocol1.Packet(id, instruction, params)
      ensures old(packetSize) == 6 + |params| ==> buffer == old(buffer)
      ensures old(packetSize) != 6 + |params| ==> fresh(buffer)
    {
      var oldSize := packetSize;
      packetSize := 6 + |params|;
      if oldSize != packetSize {
        buffer := new uint8[packetSize];
      }
      FillPacket(buffer, id, instruction, params);
    }

    /** `packet()`: the bytes of a buffer that starts with FF FF. */
    function Packet(): (r: seq<uint8>)
      reads this, buffer
      requires Valid()
      ensures |r| == packetSize && r[..2] == [0xFF, 0xFF]
      ensures Protocol1.ChecksumOf(r) == r[|r| - 1]
    {
      buffer[..]
    }

    /** `id()`: buffer byte 2, the id given at construction. */
    function Id(): (r: uint8)
      reads this, buffer
      requires Valid()
      ensures r == id
    {
      buffer[2]
    }

    /** `instruction()`: buffer byte 4, the instruction given at construction. */
    function InstructionCode(): (r: uint8)
      reads this, buffer
      requires Valid()
      ensures r == instruction
    {
      buffer[4]
    }

    /** `packet_size()`: the stored size, four more than the length byte modulo 256. */
    function PacketSize(): (r: int)
      reads this, buffer
      requires Valid()
      ensures r >= 6 && r % 0x100 == (buffer[3] as int + 4) % 0x100
    {
      packetSize
    }

    /** `rebuild_packet(params)`: the same id and instruction with new parameters. */
    method RebuildPacket(params: seq<uint8>)
      requires Valid()
      modifies this, buffer
      ensures Valid() && Holds(params)
      ensures packetSize == 6 + |params|
      ensures Id() == old(Id()) && InstructionCode() == old(InstructionCode())
      ensures old(packetSize) == 6 + |params| ==> buffer == old(buffer)
      ensures old(packetSize) != 6 + |params| ==> fresh(buffer)
    {
      BuildPacket(id, instruction, params);
      HoldsIsValid(params);
    }
  }
}

/**
 * `InstructionPacket<Protocol>`: the bytes of one encoded instruction, fixed at
 * construction. The protocol template parameter becomes a `Protocol` value.
 */
module InstructionPackets {
  import opened Bytes
  import Protocol1
  import Protocol2

  datatype Protocol = P1 | P2

  /** One more than the largest `address_t` / `length_t` of the protocol. */
  function FieldBound(protocol: Protocol): pos
  {
    if protocol.P1? then 0x100 else 0x1_0000
  }

  /** The number of bytes an `address_t` / `length_t` takes on the wire. */
  function FieldWidth(protocol: Protocol): nat
  {
    if protocol.P1? then 1 else 2
  }

  /**
   * An address or length converted to the protocol's `address_t` / `length_t`
   * and written low byte first: `(uint8_t)x` for Protocol 1,
   * `x & 0xFF, (x >> 8) & 0xFF` for Protocol 2.
   */
  function Field(protocol: Protocol, x: int): (r: seq<uint8>)
    ensures |r| == FieldWidth(protocol)
  {
    if protocol.P1? then [Low(x)] else [Low(x), High(x)]
  }

  /** A field is the little-endian split of the value at the protocol's width. */
  lemma FieldIsLittleEndian(protocol: Protocol, x: int)
    ensures Field(protocol, x) == LittleEndian(x, FieldWidth(protocol))
  {
    assert LittleEndian(x / 0x100, 0) == [];
    if protocol.P2? {
      assert LittleEndian(x / 0x100, 1) == [Low(x / 0x100)];
    }
  }

  /** Decoding a field gives the value back, reduced to the protocol's width. */
  lemma FieldRoundTrip(protocol: Protocol, x: int)
    ensures FromLittleEndian(Field(protocol, x)) == x % FieldBound(protocol)
  {
    FieldIsLittleEndian(protocol, x);
    LittleEndianRoundTrip(x, FieldWidth(protocol));
    assert Pow256(0) == 1;
    assert Pow256(1) == 0x100;
    assert Pow256(2) == 0x1_0000;
  }

  // ------------------------------------------------------------ wire layout

  /** Index of the id byte. */
  function IdOffset(protocol: Protocol): nat
  {
    if protocol.P1? then 2 else 4
  }

  /** Index of the instruction byte. */
  function InstructionOffset(protocol: Protocol): nat
  {
    if protocol.P1? then 4 else 7
  }

  /** Index of the first parameter. */
  function ParametersOffset(protocol: Protocol): nat
  {
    if protocol.P1? then 5 else 8
  }

  /** Bytes of checksum or CRC at the end of a packet. */
  function ChecksumWidth(protocol: Protocol): nat
  {
    if protocol.P1? then 1 else 2
  }

  /** Bytes of a packet without parameters. */
  function Overhead(protocol: Protocol): nat
  {
    ParametersOffset(protocol) + ChecksumWidth(protocol)
  }

  /** What the length field counts besides the parameters (instruction and checksum). */
  function LengthExtra(protocol: Protocol): nat
  {
    1 + ChecksumWidth(protocol)
  }

  /** `Protocol::pack_instruction(id, instr, parameters)`. */
  function Encode(protocol: Protocol, id: uint8, instr: uint8, parameters: seq<uint8>): seq<uint8>
  {
    match protocol
    case P1 => Protocol1.Packet(id, instr, parameters)
    case P2 => Protocol2.Packet(id, instr, parameters)
  }

  /** `Protocol::pack_instruction(id, instr)`. */
  function EncodeNoParams(protocol: Protocol, id: uint8, instr: uint8): seq<uint8>
  {
    match protocol
    case P1 => Protocol1.PacketNoParams(id, instr)
    case P2 => Protocol2.PacketNoParams(id, instr)
  }

  datatype InstructionPacket = InstructionPacket(protocol: Protocol, bytes: seq<uint8>)
  {
    /** `size()`. */
    function Size(): nat
    {
      |bytes|
    }

    /** `operator[](pos)`: the access is only defined inside the packet. */
    function At(pos: nat): uint8
      requires pos < Size()
    {
      bytes[pos]
    }

    predicate WellFormed()
    {
      Size() >= Overhead(protocol)
    }

    function Id(): uint8
      requires WellFormed()
    {
      bytes[IdOffset(protocol)]
    }

    function Instruction(): uint8
      requires WellFormed()
    {
      bytes[InstructionOffset(protocol)]
    }

    function Parameters(): seq<uint8>
      requires WellFormed()
    {
      bytes[ParametersOffset(protocol)..Size() - ChecksumWidth(protocol)]
    }

    /** The value of the length field: byte 3, or bytes 5 and 6 low byte first. */
    function LengthField(): nat
      requires WellFormed()
    {
      if protocol.P1? then bytes[3] else FromLittleEndian(bytes[5..7])
    }

    /** The checksum (Protocol 1) or CRC (Protocol 2) in the trailer is the one of the packet. */
    predicate Intact()
      requires WellFormed()
    {
      if protocol.P1? then Protocol1.ChecksumOf(bytes) == bytes[Size() - 1]
      else Protocol2.ReceivedChecksum(bytes) == Protocol2.ChecksumOf(bytes)
    }
  }

  /** The three-argument constructor: the stored bytes are the protocol's encoding. */
  function Make(protocol: Protocol, id: uint8, instr: uint8, parameters: seq<uint8>): (r: InstructionPacket)
    ensures r.protocol == protocol && r.WellFormed()
    ensures r.Size() == Overhead(protocol) + |parameters|
    ensures r.Id() == id && r.Instruction() == instr && r.Parameters() == parameters
    ensures r.LengthField() == (|parameters| + LengthExtra(protocol)) % FieldBound(protocol)
  {
    EncodeLayout(protocol, id, instr, parameters);
    InstructionPacket(protocol, Encode(protocol, id, instr, parameters))
  }

  lemma EncodeLayout(protocol: Protocol, id: uint8, instr: uint8, parameters: seq<uint8>)
    ensures var r := InstructionPacket(protocol, Encode(protocol, id, instr, parameters));
      && r.WellFormed()
      && r.Size() == Overhead(protocol) + |parameters|
      && r.Id() == id && r.Instruction() == instr && r.Parameters() == parameters
      && r.LengthField() == (|parameters| + LengthExtra(protocol)) % FieldBound(protocol)
  {
    match protocol
    case P1 =>
      Protocol1.PacketLayout(id, instr, parameters);
    case P2 =>
      Encode2Layout(id, instr, parameters);
  }

  /** Every constructed packet carries the checksum (Protocol 1) or CRC (Protocol 2) of its own bytes. */
  lemma MakeIntact(protocol: Protocol, id: uint8, instr: uint8, parameters: seq<uint8>)
    ensures Make(protocol, id, instr, parameters).Intact()
  {
    match protocol
    case P1 =>
      Protocol1.PacketChecksum(id, instr, parameters);
    case P2 =>
      Protocol2.PacketChecksum(id, instr, parameters);
  }

  lemma Encode2Layout(id: uint8, instr: uint8, parameters: seq<uint8>)
    ensures var p := Protocol2.Packet(id, instr, parameters);
      && |p| == 10 + |parameters|
      && p[4] == id && p[7] == instr && p[8..|p| - 2] == parameters
      && FromLittleEndian(p[5..7]) == (|parameters| + 3) % 0x1_0000
  {
    var p := Protocol2.Packet(id, instr, parameters);
    Protocol2.PacketLayout(id, instr, parameters);
    assert p[5..7] == [p[5], p[6]];
    FromLittleEndianPair(p[5], p[6]);
  }

  /** The two-argument constructor stores the same bytes as the three-argument one with no parameters. */
  function MakeNoParams(protocol: Protocol, id: uint8, instr: uint8): (r: InstructionPacket)
    ensures r == Make(protocol, id, instr, [])
    ensures r.WellFormed() && r.Size() == Overhead(protocol)
    ensures r.Id() == id && r.Instruction() == instr && r.Parameters() == []
    ensures r.LengthField() == LengthExtra(protocol)
  {
    match protocol
    case P1 =>
      Protocol1.NoParamsIsEmptyParams(id, instr);
      InstructionPacket(protocol, EncodeNoParams(protocol, id, instr))
    case P2 =>
      Protocol2.NoParamsIsEmptyParams(id, instr);
      InstructionPacket(protocol, EncodeNoParams(protocol, id, instr))
  }

  /** The stored bytes determine the instruction: two encodings are equal only for equal arguments. */
  lemma MakeInjective(protocol: Protocol, id: uint8, instr: uint8, parameters: seq<uint8>,
                      id': uint8, instr': uint8, parameters': seq<uint8>)
    requires Make(protocol, id, instr, parameters) == Make(protocol, id', instr', parameters')
    ensures id == id' && instr == instr' && parameters == parameters'
  {
  }

  /**
   * Two encodings that differ only in the instruction agree on every byte but the
   * instruction byte and the checksum trailer.
   */
  lemma InstructionOnlyDiffers(protocol: Protocol, id: uint8, instr: uint8, instr': uint8, parameters: seq<uint8>,
                               i: nat)
    requires i < Overhead(protocol) + |parameters| - ChecksumWidth(protocol)
    requires i != InstructionOffset(protocol)
    ensures Make(protocol, id, instr, parameters).At(i) == Make(protocol, id, instr', parameters).At(i)
  {
    var n := |parameters|;
    match protocol
    case P1 =>
      assert Make(protocol, id, instr, parameters).bytes[..5 + n] == Protocol1.Frame(id, instr, parameters);
      assert Make(protocol, id, instr', parameters).bytes[..5 + n] == Protocol1.Frame(id, instr', parameters);
    case P2 =>
      assert Make(protocol, id, instr, parameters).bytes[..8 + n] == Protocol2.Frame(id, instr, parameters);
      assert Make(protocol, id, instr', parameters).bytes[..8 + n] == Protocol2.Frame(id, instr', parameters);
  }
}

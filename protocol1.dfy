/** Dynamixel Protocol 1.0 framing: FF FF id length instruction/error params checksum. */
module Protocol1 {
  import opened Bytes
  import opened Errors

  const Version: uint8 := 1
  const BroadcastId: uint8 := 0xFE

  // Instruction codes.
  const PingCode: uint8 := 0x01
  const ReadCode: uint8 := 0x02
  const WriteCode: uint8 := 0x03
  const RegWriteCode: uint8 := 0x04
  const ActionCode: uint8 := 0x05
  const FactoryResetCode: uint8 := 0x06
  const SyncWriteCode: uint8 := 0x83
  const BulkReadCode: uint8 := 0x92

  /** Progress of the incremental status decoder. */
  datatype DecodeState = Invalid | Ongoing | Done

  // ---------------------------------------------------------------- checksum

  function Sum(s: seq<uint8>): nat
  {
    if s == [] then 0 else Sum(s[..|s| - 1]) + s[|s| - 1]
  }

  lemma {:induction false} SumAppend(s: seq<uint8>, t: seq<uint8>)
    ensures Sum(s + t) == Sum(s) + Sum(t)
    decreases |t|
  {
    if t == [] {
      assert s + t == s;
    } else {
      assert (s + t)[..|s + t| - 1] == s + t[..|t| - 1];
      SumAppend(s, t[..|t| - 1]);
    }
  }

  /** The bytes the checksum covers: from the id to the byte before the last. */
  function Covered(packet: seq<uint8>): seq<uint8>
  {
    if |packet| < 3 then [] else packet[2..|packet| - 1]
  }

  /** `~(sum & 0xFF)` truncated to a byte, for the covered bytes of `packet`. */
  function ChecksumOf(packet: seq<uint8>): (r: uint8)
    ensures (Sum(Covered(packet)) + r) % 0x100 == 0xFF
  {
    0xFF - Sum(Covered(packet)) % 0x100
  }

  /** `_checksum`: the one's-complement checksum, an error for an empty packet. */
  method Checksum(packet: seq<uint8>) returns (r: Result<uint8>)
    ensures r == if |packet| == 0 then Failure(Error(EmptyPacket)) else Success(ChecksumOf(packet))
  {
    if |packet| == 0 {
      return Failure(Error(EmptyPacket));
    }
    var sum: nat := 0;
    if |packet| >= 3 {
      var i := 2;
      while i < |packet| - 1
        invariant 2 <= i <= |packet| - 1
        invariant sum == Sum(packet[2..i])
      {
        assert packet[2..i + 1][..i - 2] == packet[2..i];
        sum := sum + packet[i];
        i := i + 1;
      }
      assert packet[2..i] == Covered(packet);
    }
    var checksum := sum % 0x100;
    // the CrcError guard of the source can never fire
    assert sum > 255 || sum == checksum;
    return Success(0xFF - checksum);
  }

  // ---------------------------------------------------------------- packing

  /** Header, id, truncated length byte, instruction and parameters. */
  function Frame(id: uint8, instr: uint8, parameters: seq<uint8>): seq<uint8>
  {
    [0xFF, 0xFF, id, Low(|parameters| + 2), instr] + parameters
  }

  /** The instruction packet; the checksum is taken while the last slot still holds 0. */
  function Packet(id: uint8, instr: uint8, parameters: seq<uint8>): seq<uint8>
  {
    var frame := Frame(id, instr, parameters);
    frame + [ChecksumOf(frame + [0])]
  }

  /** The packet of the two-argument `pack_instruction`, as that overload writes it. */
  function PacketNoParams(id: uint8, instr: uint8): seq<uint8>
  {
    [0xFF, 0xFF, id, 2, instr, ChecksumOf([0xFF, 0xFF, id, 2, instr, 0])]
  }

  lemma PacketLayout(id: uint8, instr: uint8, parameters: seq<uint8>)
    ensures var p := Packet(id, instr, parameters);
      && |p| == 6 + |parameters|
      && p[0] == 0xFF && p[1] == 0xFF && p[2] == id && p[4] == instr
      && p[3] == (|parameters| + 2) % 0x100
      && p[5..5 + |parameters|] == parameters
      && (forall i :: 0 <= i < |parameters| ==> p[5 + i] == parameters[i])
      && (Sum(p[2..]) % 0x100 == 0xFF)
  {
    var frame := Frame(id, instr, parameters);
    var p := Packet(id, instr, parameters);
    assert Covered(frame + [0]) == frame[2..];
    assert p[2..] == frame[2..] + [p[|p| - 1]];
    SumAppend(frame[2..], [p[|p| - 1]]);
    assert Sum([p[|p| - 1]]) == p[|p| - 1] by {
      assert [p[|p| - 1]][..0] == [];
    }
  }

  /** The packet is accepted by its own checksum. */
  lemma PacketChecksum(id: uint8, instr: uint8, parameters: seq<uint8>)
    ensures var p := Packet(id, instr, parameters);
      ChecksumOf(p) == p[|p| - 1]
  {
    var frame := Frame(id, instr, parameters);
    var p := Packet(id, instr, parameters);
    assert Covered(p) == frame[2..] == Covered(frame + [0]);
  }

  lemma NoParamsIsEmptyParams(id: uint8, instr: uint8)
    ensures PacketNoParams(id, instr) == Packet(id, instr, [])
  {
    var frame := Frame(id, instr, []);
    assert frame == [0xFF, 0xFF, id, 2, instr];
    assert frame + [0] == [0xFF, 0xFF, id, 2, instr, 0];
    assert Packet(id, instr, []) == frame + [ChecksumOf(frame + [0])];
  }

  /** Ping, Action, ...: FF FF id 02 instr ~(id + 2 + instr). */
  lemma NoParamsBytes(id: uint8, instr: uint8)
    ensures PacketNoParams(id, instr) == [0xFF, 0xFF, id, 2, instr, 0xFF - (id as int + 2 + instr as int) % 0x100]
  {
    var p := [0xFF, 0xFF, id, 2, instr, 0];
    assert Covered(p) == [id, 2, instr];
    var s: seq<uint8> := [id, 2, instr];
    assert Sum(s[..1]) == id by {
      assert s[..1][..0] == [];
    }
    assert Sum(s[..2]) == id as int + 2 by {
      assert s[..2][..1] == s[..1];
    }
    assert Sum(s) == id as int + 2 + instr as int by {
      assert s[..2] == s[..|s| - 1];
    }
  }

  /** `pack_instruction(id, instr)`: writes a zeroed 6-byte vector by index. */
  method PackInstructionNoParams(id: uint8, instr: uint8) returns (packet: seq<uint8>)
    ensures packet == PacketNoParams(id, instr)
  {
    packet := seq(6, _ => 0);
    packet := packet[0 := 0xFF][1 := 0xFF][2 := id][3 := 2][4 := instr];
    assert packet == [0xFF, 0xFF, id, 2, instr, 0];
    var checksum := Checksum(packet);
    packet := packet[5 := checksum.value];
  }

  /** `pack_instruction(id, instr, parameters)`: writes a zeroed vector by index. */
  method PackInstruction(id: uint8, instr: uint8, parameters: seq<uint8>) returns (packet: seq<uint8>)
    ensures packet == Packet(id, instr, parameters)
  {
    var size := 6 + |parameters|;
    ghost var frame := Frame(id, instr, parameters);
    packet := seq(size, _ => 0);
    packet := packet[0 := 0xFF][1 := 0xFF][2 := id][3 := Low(|parameters| + 2)][4 := instr];
    assert packet[..5] == frame[..5];
    for i := 0 to |parameters|
      invariant |packet| == size
      invariant packet[..5 + i] == frame[..5 + i]
      invariant packet[size - 1] == 0
    {
      packet := packet[5 + i := parameters[i]];
      assert packet[..5 + i + 1] == packet[..5 + i] + [packet[5 + i]];
      assert frame[..5 + i + 1] == frame[..5 + i] + [parameters[i]];
    }
    assert packet == frame + [0] by {
      assert packet == packet[..size - 1] + [packet[size - 1]];
    }
    var checksum := Checksum(packet);
    packet := packet[size - 1 := checksum.value];
    assert packet == packet[..size - 1] + [packet[size - 1]];
  }

  // ---------------------------------------------------------------- data

  function PackData8(data: uint8): seq<uint8>
  {
    [data]
  }

  function PackData16(data: uint16): seq<uint8>
  {
    [Low(data), High(data)]
  }

  /** 32-bit values (unsigned or signed) are not supported by Protocol 1. */
  function PackData32(data: int): (r: Result<seq<uint8>>)
    ensures r == Failure(Error(NotImplemented))
  {
    Failure(Error(NotImplemented))
  }

  function UnpackData8(packet: seq<uint8>): Result<uint8>
  {
    if |packet| != 1 then Failure(UnpackError(1, |packet|, 1)) else Success(packet[0])
  }

  function UnpackData16(packet: seq<uint8>): Result<uint16>
  {
    if |packet| != 2 then Failure(UnpackError(1, |packet|, 2))
    else Success(packet[1] as int * 0x100 + packet[0] as int)
  }

  function UnpackData32(packet: seq<uint8>): (r: Result<int>)
    ensures r == Failure(Error(NotImplemented))
  {
    Failure(Error(NotImplemented))
  }

  lemma UnpackPack8(v: uint8)
    ensures UnpackData8(PackData8(v)) == Success(v)
  {
  }

  /** `unpack_data` inverts `pack_data` for 16-bit values, low byte first. */
  lemma UnpackPack16(v: uint16)
    ensures UnpackData16(PackData16(v)) == Success(v)
  {
  }

  /** Conversely, a successful unpack re-packs to the same bytes; any other size is an UnpackError. */
  lemma PackUnpack16(packet: seq<uint8>)
    ensures UnpackData16(packet).Success? <==> |packet| == 2
    ensures UnpackData16(packet).Success? ==> PackData16(UnpackData16(packet).value) == packet
    ensures UnpackData16(packet).Failure? ==> UnpackData16(packet).error == UnpackError(1, |packet|, 2)
  {
    if |packet| == 2 {
      var v := packet[1] as int * 0x100 + packet[0] as int;
      assert v % 0x100 == packet[0];
      assert v / 0x100 == packet[1];
    }
  }

  /** The vector overload as written: a vector pre-sized with `n` empty entries, then appended to. */
  function PackedVectorAsWritten<T>(data: seq<T>, pack: T -> seq<uint8>): (r: seq<seq<uint8>>)
  {
    seq(|data|, _ => []) + seq(|data|, i requires 0 <= i < |data| => pack(data[i]))
  }

  /** `pack_data(const std::vector<uint8_t>&)`. */
  method PackDataVector8(data: seq<uint8>) returns (r: Result<seq<seq<uint8>>>)
    ensures r == if |data| == 0 then Failure(Error(EmptyVector)) else Success(PackedVectorAsWritten(data, PackData8))
  {
    if |data| == 0 {
      return Failure(Error(EmptyVector));
    }
    var packed: seq<seq<uint8>> := seq(|data|, _ => []);
    ghost var empties := packed;
    for k := 0 to |data|
      invariant |packed| == |data| + k
      invariant packed[..|data|] == empties
      invariant forall i | 0 <= i < k :: packed[|data| + i] == PackData8(data[i])
    {
      packed := packed + [PackData8(data[k])];
    }
    ghost var intended := PackedVectorAsWritten(data, PackData8);
    assert forall i | 0 <= i < |data| :: packed[i] == [] == intended[i];
    assert forall i | |data| <= i < |packed| :: packed[i] == intended[i];
    assert |intended| == |packed| && packed == intended;
    return Success(packed);
  }

  /** `pack_data(const std::vector<uint16_t>&)`. */
  method PackDataVector16(data: seq<uint16>) returns (r: Result<seq<seq<uint8>>>)
    ensures r == if |data| == 0 then Failure(Error(EmptyVector)) else Success(PackedVectorAsWritten(data, PackData16))
  {
    if |data| == 0 {
      return Failure(Error(EmptyVector));
    }
    var packed: seq<seq<uint8>> := seq(|data|, _ => []);
    ghost var empties := packed;
    for k := 0 to |data|
      invariant |packed| == |data| + k
      invariant packed[..|data|] == empties
      invariant forall i | 0 <= i < k :: packed[|data| + i] == PackData16(data[i])
    {
      packed := packed + [PackData16(data[k])];
    }
    ghost var intended := PackedVectorAsWritten(data, PackData16);
    assert forall i | 0 <= i < |data| :: packed[i] == [] == intended[i];
    assert forall i | |data| <= i < |packed| :: packed[i] == intended[i];
    assert |intended| == |packed| && packed == intended;
    return Success(packed);
  }

  /** The evident intent of the vector overloads: one packed entry per value. */
  function PackValues<T>(data: seq<T>, pack: T -> seq<uint8>): (r: Result<seq<seq<uint8>>>)
    ensures r.Success? <==> |data| > 0
    ensures r.Success? ==> |r.value| == |data| && forall i :: 0 <= i < |data| ==> r.value[i] == pack(data[i])
  {
    if |data| == 0 then Failure(Error(EmptyVector)) else Success(seq(|data|, i requires 0 <= i < |data| => pack(data[i])))
  }

  /** As written, the result is twice as long as intended: `n` empty entries come first. */
  lemma PackedVectorAsWrittenPrefix<T>(data: seq<T>, pack: T -> seq<uint8>)
    requires |data| > 0
    ensures PackedVectorAsWritten(data, pack) == seq(|data|, _ => []) + PackValues(data, pack).value
    ensures |PackedVectorAsWritten(data, pack)| == 2 * |PackValues(data, pack).value|
  {
  }

  /** The concrete input [0x01] packs to [[], [0x01]] instead of [[0x01]]. */
  lemma PackedVectorAsWrittenExample()
    ensures PackedVectorAsWritten([1 as uint8], PackData8) == [[], [1]]
    ensures PackValues([1 as uint8], PackData8) == Success([[1]])
  {
    assert PackedVectorAsWritten([1 as uint8], PackData8)[1] == [1];
    var r := PackValues([1 as uint8], PackData8);
    assert r.value[0] == PackData8(1) == [1];
    assert r.value == [[1]];
  }

  /** Each intended entry unpacks back to its value. */
  lemma PackValuesRoundTrip16(data: seq<uint16>, i: nat)
    requires i < |data|
    ensures UnpackData16(PackValues(data, PackData16).value[i]) == Success(data[i])
  {
    UnpackPack16(data[i]);
  }

  // ---------------------------------------------------------------- status

  /** True when `packet` is a non-empty prefix of, or starts with, FF FF. */
  predicate DetectStatusHeader(packet: seq<uint8>)
  {
    if |packet| == 0 then false
    else if |packet| >= 1 && packet[0] != 0xFF then false
    else if |packet| >= 2 && packet[1] != 0xFF then false
    else true
  }

  lemma DetectStatusHeaderMeaning(packet: seq<uint8>)
    ensures DetectStatusHeader(packet) <==>
      0 < |packet| && (|packet| <= 2 ==> packet == [0xFF, 0xFF][..|packet|])
                   && (|packet| > 2 ==> packet[..2] == [0xFF, 0xFF])
  {
  }

  /** The decoder's return state together with the values of its reference parameters afterwards. */
  datatype Unpacked = Unpacked(state: Result<DecodeState>, id: uint8, parameters: seq<uint8>, length: uint8)

  /** `unpack_status`, as a function of the packet, the incoming reference values and the flag. */
  function Unpack(packet: seq<uint8>, id: uint8, parameters: seq<uint8>, length: uint8, throwExceptions: bool): Unpacked
  {
    if !DetectStatusHeader(packet) then
      Unpacked(if throwExceptions then Failure(BadPacket(packet)) else Success(Invalid), id, parameters, length)
    else if |packet| < 6 then
      Unpacked(Success(Ongoing), id, parameters, length)
    else
      var id' := packet[2];
      var length' := packet[3];
      if length' < 2 then
        Unpacked(if throwExceptions then Failure(BadPacket(packet)) else Success(Invalid), id', parameters, length')
      else if length' > |packet| - 4 then
        Unpacked(Success(Ongoing), id', parameters, length')
      else if ChecksumOf(packet) != packet[|packet| - 1] then
        Unpacked(if throwExceptions then Failure(CrcError(id', 1, ChecksumOf(packet), packet[|packet| - 1]))
                 else Success(Invalid), id', parameters, length')
      else if packet[4] != 0 then
        // a reported error is raised whatever throwExceptions says
        Unpacked(Failure(StatusError(id', 1, packet[4])), id', parameters, length')
      else
        Unpacked(Success(Done), id', packet[5..5 + length' as int - 2], length')
  }

  /** `unpack_status(packet, id, parameters, length, throw_exceptions)`. */
  method UnpackStatus(packet: seq<uint8>, id: uint8, parameters: seq<uint8>, length: uint8, throwExceptions: bool)
    returns (state: Result<DecodeState>, id': uint8, parameters': seq<uint8>, length': uint8)
    ensures Unpacked(state, id', parameters', length') == Unpack(packet, id, parameters, length, throwExceptions)
  {
    id', parameters', length' := id, parameters, length;
    if !DetectStatusHeader(packet) {
      if throwExceptions {
        return Failure(BadPacket(packet)), id', parameters', length';
      }
      return Success(Invalid), id', parameters', length';
    }
    if |packet| < 6 {
      return Success(Ongoing), id', parameters', length';
    }
    id' := packet[2];
    length' := packet[3];
    if length' < 2 {
      if throwExceptions {
        return Failure(BadPacket(packet)), id', parameters', length';
      }
      return Success(Invalid), id', parameters', length';
    }
    if length' > |packet| - 4 {
      return Success(Ongoing), id', parameters', length';
    }
    var checksum := Checksum(packet);
    if checksum.value != packet[|packet| - 1] {
      if throwExceptions {
        return Failure(CrcError(id', 1, checksum.value, packet[|packet| - 1])), id', parameters', length';
      }
      return Success(Invalid), id', parameters', length';
    }
    var error := packet[4];
    if error != 0 {
      return Failure(StatusError(id', 1, error)), id', parameters', length';
    }
    parameters' := [];
    for i := 0 to length' as int - 2
      invariant parameters' == packet[5..5 + i]
    {
      parameters' := parameters' + [packet[5 + i]];
    }
    return Success(Done), id', parameters', length';
  }

  /** Early exits: a bad header never reaches the id; a short packet is still ongoing. */
  lemma UnpackEarlyExits(packet: seq<uint8>, id: uint8, parameters: seq<uint8>, length: uint8, throwExceptions: bool)
    ensures var u := Unpack(packet, id, parameters, length, throwExceptions);
      && (!DetectStatusHeader(packet) ==>
            u == Unpacked(if throwExceptions then Failure(BadPacket(packet)) else Success(Invalid), id, parameters, length))
      && (DetectStatusHeader(packet) && |packet| < 6 ==> u == Unpacked(Success(Ongoing), id, parameters, length))
      && (DetectStatusHeader(packet) && |packet| >= 6 && packet[3] >= 2 && packet[3] > |packet| - 4 ==>
            u.state == Success(Ongoing))
      && (DetectStatusHeader(packet) && |packet| >= 6 && packet[3] < 2 ==>
            u.state == if throwExceptions then Failure(BadPacket(packet)) else Success(Invalid))
  {
  }

  /** DONE exactly when the frame is complete, consistent and error-free; only DONE touches the parameters. */
  lemma UnpackDone(packet: seq<uint8>, id: uint8, parameters: seq<uint8>, length: uint8, throwExceptions: bool)
    ensures var u := Unpack(packet, id, parameters, length, throwExceptions);
      && (u.state == Success(Done) <==>
            |packet| >= 6 && packet[..2] == [0xFF, 0xFF] && 2 <= packet[3] <= |packet| - 4
            && ChecksumOf(packet) == packet[|packet| - 1] && packet[4] == 0)
      && (u.state == Success(Done) ==> u.parameters == packet[5..5 + packet[3] as int - 2] && u.id == packet[2])
      && (u.state != Success(Done) ==> u.parameters == parameters)
  {
  }

  /** A non-zero error byte in a well-formed reply always raises StatusError. */
  lemma UnpackStatusError(packet: seq<uint8>, id: uint8, parameters: seq<uint8>, length: uint8, throwExceptions: bool)
    requires |packet| >= 6 && packet[..2] == [0xFF, 0xFF] && 2 <= packet[3] <= |packet| - 4
    requires ChecksumOf(packet) == packet[|packet| - 1] && packet[4] != 0
    ensures Unpack(packet, id, parameters, length, throwExceptions).state == Failure(StatusError(packet[2], 1, packet[4]))
  {
  }

  /** Round trip: a packet built with error byte 0 in the instruction slot decodes to its id and parameters. */
  lemma UnpackPacket(id: uint8, parameters: seq<uint8>, id0: uint8, params0: seq<uint8>, length0: uint8, throwExceptions: bool)
    requires |parameters| <= 253
    ensures Unpack(Packet(id, 0, parameters), id0, params0, length0, throwExceptions)
         == Unpacked(Success(Done), id, parameters, (|parameters| + 2) as uint8)
  {
    PacketLayout(id, 0, parameters);
    PacketChecksum(id, 0, parameters);
  }

  /** The error bits named in a StatusError message, bit 0 first. */
  datatype ErrorFlag = InputVoltage | AngleLimit | Overheating | Range | ChecksumFlag | Overload | InstructionFlag

  /** `error & mask != 0` for a single-bit mask. */
  predicate HasBit(error: uint8, mask: pos)
  {
    (error / mask) % 2 == 1
  }

  /** The single-bit mask the message tests for a flag: bit 0 for the input voltage up to bit 6 for the instruction. */
  function Mask(f: ErrorFlag): pos
  {
    match f
    case InputVoltage => 1
    case AngleLimit => 2
    case Overheating => 4
    case Range => 8
    case ChecksumFlag => 16
    case Overload => 32
    case InstructionFlag => 64
  }

  /** The flags named in the message, in the order the message lists them. */
  function ErrorFlags(error: uint8): (r: seq<ErrorFlag>)
    ensures error == 0 ==> r == []
  {
    (if HasBit(error, 1) then [InputVoltage] else [])
    + ((if HasBit(error, 2) then [AngleLimit] else [])
    + ((if HasBit(error, 4) then [Overheating] else [])
    + ((if HasBit(error, 8) then [Range] else [])
    + ((if HasBit(error, 16) then [ChecksumFlag] else [])
    + ((if HasBit(error, 32) then [Overload] else [])
    + (if HasBit(error, 64) then [InstructionFlag] else []))))))
  }

  /** The test vector FF FF 04 02 24 D5: id 4 reports overheating and overload. */
  lemma OverheatingOverloadVector(id0: uint8, params0: seq<uint8>, length0: uint8, throwExceptions: bool)
    ensures Unpack([0xFF, 0xFF, 0x04, 0x02, 0x24, 0xD5], id0, params0, length0, throwExceptions).state
         == Failure(StatusError(4, 1, 0x24))
  {
    var p: seq<uint8> := [0xFF, 0xFF, 0x04, 0x02, 0x24, 0xD5];
    assert Covered(p) == [0x04, 0x02, 0x24];
    assert Sum([0x04, 0x02, 0x24]) == 0x2A by {
      assert [0x04, 0x02, 0x24][..2] == [0x04, 0x02];
      assert [0x04, 0x02][..1] == [0x04];
      assert [0x04 as uint8][..0] == [];
    }
  }

  /** Every flag, in increasing bit order: the order of the tests in the message. */
  const AllFlags: seq<ErrorFlag> := [InputVoltage, AngleLimit, Overheating, Range, ChecksumFlag, Overload, InstructionFlag]

  /** The flags of `flags` whose bit is set in `error`, in the order of `flags`. */
  function Named(error: uint8, flags: seq<ErrorFlag>): (r: seq<ErrorFlag>)
    ensures |r| <= |flags|
  {
    if flags == [] then []
    else (if HasBit(error, Mask(flags[0])) then [flags[0]] else []) + Named(error, flags[1..])
  }

  /** The masks of `flags` strictly increase: each flag at most once, in bit order. */
  predicate MaskIncreasing(flags: seq<ErrorFlag>)
  {
    forall i, j :: 0 <= i < j < |flags| ==> Mask(flags[i]) < Mask(flags[j])
  }

  /** One step of the filter: the first flag, if its bit is set, then the filtered rest. */
  lemma NamedCons(error: uint8, f: ErrorFlag, rest: seq<ErrorFlag>)
    ensures Named(error, [f] + rest) == (if HasBit(error, Mask(f)) then [f] else []) + Named(error, rest)
  {
    assert ([f] + rest)[1..] == rest;
  }

  /** The message's seven tests are the flags of `AllFlags` whose bit is set. */
  lemma ErrorFlagsAreNamed(error: uint8)
    ensures ErrorFlags(error) == Named(error, AllFlags)
  {
    var t6: seq<ErrorFlag> := [InstructionFlag];
    var t5 := [Overload] + t6;
    var t4 := [ChecksumFlag] + t5;
    var t3 := [Range] + t4;
    var t2 := [Overheating] + t3;
    var t1 := [AngleLimit] + t2;
    assert AllFlags == [InputVoltage] + t1;
    NamedCons(error, InstructionFlag, []);
    assert [InstructionFlag] + [] == t6;
    NamedCons(error, Overload, t6);
    NamedCons(error, ChecksumFlag, t5);
    NamedCons(error, Range, t4);
    NamedCons(error, Overheating, t3);
    NamedCons(error, AngleLimit, t2);
    NamedCons(error, InputVoltage, t1);
  }

  /** A flag is named exactly when it is one of `flags` and its bit is set. */
  lemma {:induction false} NamedMembers(error: uint8, flags: seq<ErrorFlag>, f: ErrorFlag)
    ensures f in Named(error, flags) <==> f in flags && HasBit(error, Mask(f))
    decreases |flags|
  {
    if flags != [] {
      NamedMembers(error, flags[1..], f);
      assert flags == [flags[0]] + flags[1..];
    }
  }

  /** Filtering keeps the increasing bit order. */
  lemma {:induction false} NamedIncreasing(error: uint8, flags: seq<ErrorFlag>)
    requires MaskIncreasing(flags)
    ensures MaskIncreasing(Named(error, flags))
    decreases |flags|
  {
    if flags != [] {
      var tail := Named(error, flags[1..]);
      NamedIncreasing(error, flags[1..]);
      forall k | 0 <= k < |tail|
        ensures Mask(flags[0]) < Mask(tail[k])
      {
        NamedMembers(error, flags[1..], tail[k]);
        var j :| 0 <= j < |flags[1..]| && flags[1..][j] == tail[k];
        assert flags[j + 1] == tail[k];
      }
    }
  }

  /** Nothing is named exactly when no flag of `flags` has its bit set. */
  lemma {:induction false} NamedEmpty(error: uint8, flags: seq<ErrorFlag>)
    ensures Named(error, flags) == [] <==> forall k :: 0 <= k < |flags| ==> !HasBit(error, Mask(flags[k]))
    decreases |flags|
  {
    if flags != [] {
      NamedEmpty(error, flags[1..]);
      assert forall k :: 1 <= k < |flags| ==> flags[k] == flags[1..][k - 1];
    }
  }

  /** Helper: the remainder modulo `2 m` adds bit `m` to the remainder modulo `m`. */
  lemma BitSplit(x: nat, m: pos)
    ensures x % (2 * m) == x % m + m * ((x / m) % 2)
  {
    var q := x / m;
    assert x == m * q + x % m;
    assert q == 2 * (q / 2) + q % 2;
    assert m * q == (2 * m) * (q / 2) + m * (q % 2) by {
      assert m * (2 * (q / 2)) == (2 * m) * (q / 2);
    }
    assert m * (q % 2) <= m by {
      assert q % 2 <= 1;
    }
    ModUnique(x, 2 * m, q / 2, x % m + m * (q % 2));
  }

  /** The low seven bits are clear exactly when none of the seven masks is set. */
  lemma LowSevenBits(error: uint8)
    ensures error % 0x80 == 0 <==> forall f :: !HasBit(error, Mask(f))
  {
    BitSplit(error, 1);
    BitSplit(error, 2);
    BitSplit(error, 4);
    BitSplit(error, 8);
    BitSplit(error, 16);
    BitSplit(error, 32);
    BitSplit(error, 64);
    assert error % 1 == 0;
    if forall f :: !HasBit(error, Mask(f)) {
      assert !HasBit(error, Mask(InputVoltage)) && !HasBit(error, Mask(AngleLimit)) && !HasBit(error, Mask(Overheating));
      assert !HasBit(error, Mask(Range)) && !HasBit(error, Mask(ChecksumFlag)) && !HasBit(error, Mask(Overload));
      assert !HasBit(error, Mask(InstructionFlag));
    }
  }

  /**
   * The message of a StatusError names exactly the flags whose bit is set, each
   * once, in increasing bit order; bit 7 names none, so the list is empty exactly
   * when the low seven bits are clear.
   */
  lemma ErrorFlagsMeaning(error: uint8)
    ensures forall f :: f in ErrorFlags(error) <==> HasBit(error, Mask(f))
    ensures MaskIncreasing(ErrorFlags(error))
    ensures ErrorFlags(error) == [] <==> error % 0x80 == 0
  {
    ErrorFlagsAreNamed(error);
    forall f
      ensures f in ErrorFlags(error) <==> HasBit(error, Mask(f))
    {
      NamedMembers(error, AllFlags, f);
      assert f in AllFlags by {
        match f
        case InputVoltage => assert AllFlags[0] == f;
        case AngleLimit => assert AllFlags[1] == f;
        case Overheating => assert AllFlags[2] == f;
        case Range => assert AllFlags[3] == f;
        case ChecksumFlag => assert AllFlags[4] == f;
        case Overload => assert AllFlags[5] == f;
        case InstructionFlag => assert AllFlags[6] == f;
      }
    }
    NamedIncreasing(error, AllFlags);
    NamedEmpty(error, AllFlags);
    LowSevenBits(error);
    if error % 0x80 != 0 {
      var f :| HasBit(error, Mask(f));
      assert f in ErrorFlags(error);
    }
  }

  /** An error byte with only bit 7 set still raises StatusError, but its message names no flag. */
  lemma HighBitNamesNoFlag()
    ensures ErrorFlags(0x80) == []
  {
  }

  /** Error byte 0x24 of that reply names bits 2 and 5. */
  lemma OverheatingOverloadFlags()
    ensures ErrorFlags(0x24) == [Overheating, Overload]
  {
  }
}

/**
 * The instruction builders of the `instructions` directory and `write.hpp`. Each builder
 * computes the parameter vector of its instruction and stores the protocol's
 * encoding of it, as `InstructionPacket` does.
 */
module Instructions {
  import opened Bytes
  import opened Errors
  import opened InstructionPackets
  import opened Records
  import Protocol1
  import Protocol2

  datatype Instruction =
    | Ping | Read | Write | RegWrite | Action | FactoryReset | Reboot
    | SyncRead | SyncWrite | BulkRead | BulkWrite

  /** `T::Instructions::name`; `None` where the protocol's table has no such entry. */
  function Code(protocol: Protocol, instruction: Instruction): (r: Option<uint8>)
    ensures r.None? <==> protocol.P1? && instruction in {Reboot, SyncRead, BulkWrite}
  {
    match protocol
    case P1 => (
      match instruction
      case Ping => Some(Protocol1.PingCode)
      case Read => Some(Protocol1.ReadCode)
      case Write => Some(Protocol1.WriteCode)
      case RegWrite => Some(Protocol1.RegWriteCode)
      case Action => Some(Protocol1.ActionCode)
      case FactoryReset => Some(Protocol1.FactoryResetCode)
      case SyncWrite => Some(Protocol1.SyncWriteCode)
      case BulkRead => Some(Protocol1.BulkReadCode)
      case _ => None)
    case P2 => (
      match instruction
      case Ping => Some(Protocol2.PingCode)
      case Read => Some(Protocol2.ReadCode)
      case Write => Some(Protocol2.WriteCode)
      case RegWrite => Some(Protocol2.RegWriteCode)
      case Action => Some(Protocol2.ActionCode)
      case FactoryReset => Some(Protocol2.FactoryResetCode)
      case Reboot => Some(Protocol2.RebootCode)
      case SyncRead => Some(Protocol2.SyncReadCode)
      case SyncWrite => Some(Protocol2.SyncWriteCode)
      case BulkRead => Some(Protocol2.BulkReadCode)
      case BulkWrite => Some(Protocol2.BulkWriteCode))
  }

  /** An instruction both tables define has the same code in both, and the codes are distinct. */
  lemma CodesAgree(instruction: Instruction, other: Instruction)
    ensures Code(P1, instruction).Some? ==> Code(P1, instruction) == Code(P2, instruction)
    ensures Code(P2, instruction) == Code(P2, other) ==> instruction == other
  {
  }

  /** `T::broadcast_id`, the same in both protocols. */
  function BroadcastId(protocol: Protocol): uint8
  {
    if protocol.P1? then Protocol1.BroadcastId else Protocol2.BroadcastId
  }

  // ------------------------------------------------------------ no parameters

  /** `Ping(id)`: the two-argument encoding with the ping code. */
  function PingPacket(protocol: Protocol, id: uint8): (r: InstructionPacket)
    ensures r.WellFormed() && r.Size() == Overhead(protocol)
    ensures r.Id() == id && r.Instruction() == 0x01 && r.Parameters() == []
    ensures r.LengthField() == LengthExtra(protocol)
  {
    MakeNoParams(protocol, id, Code(protocol, Ping).value)
  }

  /** `Action(id)`. */
  function ActionPacket(protocol: Protocol, id: uint8): (r: InstructionPacket)
    ensures r.WellFormed() && r.Size() == Overhead(protocol)
    ensures r.Id() == id && r.Instruction() == 0x05 && r.Parameters() == []
    ensures r.LengthField() == LengthExtra(protocol)
  {
    MakeNoParams(protocol, id, Code(protocol, Action).value)
  }

  /** `FactoryReset(id)`. */
  function FactoryResetPacket(protocol: Protocol, id: uint8): (r: InstructionPacket)
    ensures r.WellFormed() && r.Size() == Overhead(protocol)
    ensures r.Id() == id && r.Instruction() == 0x06 && r.Parameters() == []
    ensures r.LengthField() == LengthExtra(protocol)
  {
    MakeNoParams(protocol, id, Code(protocol, FactoryReset).value)
  }

  /** `Reboot(id)`: only Protocol 2 has a reboot code. */
  function RebootPacket(id: uint8): (r: InstructionPacket)
    ensures r.WellFormed() && r.Size() == 10
    ensures r.Id() == id && r.Instruction() == 0x08 && r.Parameters() == []
    ensures r.LengthField() == 3
  {
    MakeNoParams(P2, id, Code(P2, Reboot).value)
  }

  /** Protocol 1 ping: FF FF id 02 01 ~(id + 3). */
  lemma PingBytes(id: uint8)
    ensures PingPacket(P1, id).bytes == [0xFF, 0xFF, id, 0x02, 0x01, 0xFF - (id as int + 3) % 0x100]
  {
    Protocol1.NoParamsBytes(id, 0x01);
  }

  /** The broadcast Action of Protocol 1 is FF FF FE 02 05 FA. */
  lemma BroadcastActionBytes()
    ensures ActionPacket(P1, BroadcastId(P1)).bytes == [0xFF, 0xFF, 0xFE, 0x02, 0x05, 0xFA]
  {
    Protocol1.NoParamsBytes(0xFE, 0x05);
  }

  /** Reboot is FF FF FD 00 id 03 00 08 followed by the CRC. */
  lemma RebootBytes(id: uint8)
    ensures RebootPacket(id).bytes[..8] == [0xFF, 0xFF, 0xFD, 0x00, id, 0x03, 0x00, 0x08]
  {
    Protocol2.NoParamsIsEmptyParams(id, 0x08);
  }

  // ------------------------------------------------------------ read

  /** `Read::_get_parameters`: the address field, then the length field. */
  function ReadParameters(protocol: Protocol, address: uint16, length: uint16): (r: seq<uint8>)
    ensures |r| == 2 * FieldWidth(protocol)
    ensures FromLittleEndian(r[..FieldWidth(protocol)]) == address % FieldBound(protocol)
    ensures FromLittleEndian(r[FieldWidth(protocol)..]) == length % FieldBound(protocol)
  {
    FieldRoundTrip(protocol, address);
    FieldRoundTrip(protocol, length);
    var r := Field(protocol, address) + Field(protocol, length);
    assert r[..FieldWidth(protocol)] == Field(protocol, address);
    assert r[FieldWidth(protocol)..] == Field(protocol, length);
    r
  }

  /** `Read(id, address, length)`. */
  function ReadPacket(protocol: Protocol, id: uint8, address: uint16, length: uint16): (r: InstructionPacket)
    ensures r.WellFormed() && r.Size() == Overhead(protocol) + 2 * FieldWidth(protocol)
    ensures r.Id() == id && r.Instruction() == 0x02
    ensures r.Parameters() == ReadParameters(protocol, address, length)
  {
    Make(protocol, id, Code(protocol, Read).value, ReadParameters(protocol, address, length))
  }

  /** The model-number probe `Read(id, 0, 2)` of Protocol 1 is the 8-byte packet FF FF id 04 02 00 02 cks. */
  lemma ModelNumberProbe(id: uint8)
    ensures var p := ReadPacket(P1, id, 0, 2);
      p.Size() == 8 && p.bytes[..7] == [0xFF, 0xFF, id, 0x04, 0x02, 0x00, 0x02]
  {
    Protocol1.PacketLayout(id, 0x02, [0, 2]);
  }

  // ------------------------------------------------------------ write, reg_write

  /**
   * `_get_parameters(address, data)` of Write and of RegWrite (the two are the
   * same code): the address field, then the data bytes copied in order.
   */
  method AddressedData(protocol: Protocol, address: uint16, data: seq<uint8>) returns (parameters: seq<uint8>)
    ensures parameters == Field(protocol, address) + data
  {
    var offset := FieldWidth(protocol);
    ghost var expected := Field(protocol, address) + data;
    parameters := seq(offset + |data|, _ => 0);
    if protocol.P1? {
      parameters := parameters[0 := Low(address)];
    } else {
      parameters := parameters[0 := Low(address)][1 := High(address)];
    }
    assert parameters[..offset] == expected[..offset];
    for i := 0 to |data|
      invariant |parameters| == offset + |data|
      invariant parameters[..offset + i] == expected[..offset + i]
    {
      parameters := parameters[offset + i := data[i]];
      assert parameters[..offset + i + 1] == parameters[..offset + i] + [data[i]];
      assert expected[..offset + i + 1] == expected[..offset + i] + [data[i]];
    }
    assert parameters == parameters[..offset + |data|];
  }

  /** `Write(id, address, data)`. */
  method WritePacket(protocol: Protocol, id: uint8, address: uint16, data: seq<uint8>) returns (packet: InstructionPacket)
    ensures packet == Make(protocol, id, 0x03, Field(protocol, address) + data)
  {
    var parameters := AddressedData(protocol, address, data);
    packet := Make(protocol, id, Code(protocol, Write).value, parameters);
  }

  /** `RegWrite(id, address, data)`. */
  method RegWritePacket(protocol: Protocol, id: uint8, address: uint16, data: seq<uint8>) returns (packet: InstructionPacket)
    ensures packet == Make(protocol, id, 0x04, Field(protocol, address) + data)
  {
    var parameters := AddressedData(protocol, address, data);
    packet := Make(protocol, id, Code(protocol, RegWrite).value, parameters);
  }

  /** The address of a write is recovered from the parameters, and the data follows it unchanged. */
  lemma AddressedDataDecodes(protocol: Protocol, address: uint16, data: seq<uint8>)
    ensures var p := Field(protocol, address) + data;
      && FromLittleEndian(p[..FieldWidth(protocol)]) == address % FieldBound(protocol)
      && p[FieldWidth(protocol)..] == data
  {
    var p := Field(protocol, address) + data;
    assert p[..FieldWidth(protocol)] == Field(protocol, address);
    FieldRoundTrip(protocol, address);
  }

  // ------------------------------------------------------------ sync_write

  /** Every vector of `data` has `length` bytes. */
  predicate Uniform(data: seq<seq<uint8>>, length: nat)
  {
    forall i :: 0 <= i < |data| ==> |data[i]| == length
  }

  /** One record per id: the id, then its data. */
  function SyncRecordList(ids: seq<uint8>, data: seq<seq<uint8>>): (r: seq<seq<uint8>>)
    requires |ids| == |data|
    ensures |r| == |ids|
  {
    seq(|ids|, k requires 0 <= k < |ids| => [ids[k]] + data[k])
  }

  /** The records of a SyncWrite, end to end. */
  function SyncRecords(ids: seq<uint8>, data: seq<seq<uint8>>): seq<uint8>
    requires |ids| == |data|
  {
    Concat(SyncRecordList(ids, data))
  }

  /** With uniform data every SyncWrite record has `length + 1` bytes. */
  lemma SyncRecordsWidth(ids: seq<uint8>, data: seq<seq<uint8>>, length: nat)
    requires |ids| == |data| && Uniform(data, length)
    ensures AllWidth(SyncRecordList(ids, data), length + 1)
    ensures |SyncRecords(ids, data)| == (length + 1) * |ids|
  {
    ConcatLength(SyncRecordList(ids, data), length + 1);
  }

  /** One step of the record loop: record `i` is appended, and it still fits. */
  lemma SyncRecordsStep(ids: seq<uint8>, data: seq<seq<uint8>>, length: nat, i: nat)
    requires |ids| == |data| && Uniform(data, length) && i < |ids|
    ensures var records := SyncRecordList(ids, data);
      && Concat(records[..i + 1]) == Concat(records[..i]) + [ids[i]] + data[i]
      && |Concat(records[..i])| + 1 + length <= |SyncRecords(ids, data)|
  {
    var records := SyncRecordList(ids, data);
    SyncRecordsWidth(ids, data, length);
    AllWidthPrefix(records, length + 1, i);
    ConcatStep(records, length + 1, i);
    assert records[i] == [ids[i]] + data[i];
  }

  /** Record `i` sits at offset `(length + 1) * i`: the id, then its data. */
  lemma SyncRecordAt(ids: seq<uint8>, data: seq<seq<uint8>>, length: nat, i: nat)
    requires |ids| == |data| && Uniform(data, length) && i < |ids|
    ensures (length + 1) * i + length + 1 <= |SyncRecords(ids, data)|
    ensures SyncRecords(ids, data)[(length + 1) * i] == ids[i]
    ensures SyncRecords(ids, data)[(length + 1) * i + 1..(length + 1) * i + length + 1] == data[i]
  {
    var w := length + 1;
    SyncRecordsWidth(ids, data, length);
    ConcatAt(SyncRecordList(ids, data), w, i);
    var record := SyncRecords(ids, data)[w * i..w * i + w];
    assert record == [ids[i]] + data[i];
    assert record[0] == ids[i] && record[1..] == data[i];
  }

  /** `SyncWrite::_get_parameters`: header fields, then one record per id, written with a cursor. */
  method SyncWriteParameters(protocol: Protocol, address: uint16, ids: seq<uint8>, data: seq<seq<uint8>>)
    returns (parameters: seq<uint8>)
    requires |ids| > 0 && |ids| == |data|
    requires |data[0]| < FieldBound(protocol) && Uniform(data, |data[0]|)
    ensures parameters == Field(protocol, address) + Field(protocol, |data[0]|) + SyncRecords(ids, data)
  {
    var length := |data[0]|;
    var headerSize := 2 * FieldWidth(protocol);
    var size := (length + 1) * |ids| + headerSize;
    SyncRecordsWidth(ids, data, length);
    parameters := seq(size, _ => 0);
    if protocol.P1? {
      parameters := parameters[0 := Low(address)][1 := Low(length)];
    } else {
      parameters := parameters[0 := Low(address)][1 := High(address)][2 := Low(length)][3 := High(length)];
    }
    assert parameters[..headerSize] == Field(protocol, address) + Field(protocol, length);
    parameters := FillSyncRecords(parameters, headerSize, ids, data, length);
  }

  /** The record loop of `SyncWrite::_get_parameters`, from cursor `start` to the end of the buffer. */
  method FillSyncRecords(buffer: seq<uint8>, start: nat, ids: seq<uint8>, data: seq<seq<uint8>>, length: nat)
    returns (parameters: seq<uint8>)
    requires |ids| == |data| && Uniform(data, length)
    requires |buffer| == start + |SyncRecords(ids, data)|
    ensures parameters == buffer[..start] + SyncRecords(ids, data)
  {
    ghost var records := SyncRecordList(ids, data);
    SyncRecordsWidth(ids, data, length);
    parameters := buffer;
    var curr := start;
    for i := 0 to |ids|
      invariant |parameters| == |buffer|
      invariant curr == start + |Concat(records[..i])| <= |buffer|
      invariant parameters[..curr] == buffer[..start] + Concat(records[..i])
    {
      SyncRecordsStep(ids, data, length, i);
      ghost var done := parameters[..curr];
      parameters := parameters[curr := ids[i]];
      curr := curr + 1;
      assert parameters[..curr] == done + [ids[i]];
      parameters := CopyAt(parameters, curr, data[i]);
      curr := curr + length;
      assert parameters[..curr] == done + [ids[i]] + data[i];
    }
    assert records[..|ids|] == records;
    assert parameters == parameters[..curr];
  }

  /** `SyncWrite(address, ids, data)`: broadcast, code 0x83. */
  method SyncWritePacket(protocol: Protocol, address: uint16, ids: seq<uint8>, data: seq<seq<uint8>>)
    returns (packet: InstructionPacket)
    requires |ids| > 0 && |ids| == |data|
    requires |data[0]| < FieldBound(protocol) && Uniform(data, |data[0]|)
    ensures packet == Make(protocol, 0xFE, 0x83,
      Field(protocol, address) + Field(protocol, |data[0]|) + SyncRecords(ids, data))
  {
    var parameters := SyncWriteParameters(protocol, address, ids, data);
    assert BroadcastId(protocol) == 0xFE && Code(protocol, SyncWrite) == Some(0x83);
    packet := Make(protocol, BroadcastId(protocol), Code(protocol, SyncWrite).value, parameters);
  }

  /** The header of a SyncWrite gives back its address and the common data length. */
  lemma SyncWriteHeaderDecodes(protocol: Protocol, address: uint16, length: nat, records: seq<uint8>)
    requires length < FieldBound(protocol)
    ensures var p := Field(protocol, address) + Field(protocol, length) + records;
      var f := FieldWidth(protocol);
      && FromLittleEndian(p[..f]) == address % FieldBound(protocol)
      && FromLittleEndian(p[f..2 * f]) == length
      && p[2 * f..] == records
  {
    var f := FieldWidth(protocol);
    var p := Field(protocol, address) + Field(protocol, length) + records;
    assert p[..f] == Field(protocol, address);
    assert p[f..2 * f] == Field(protocol, length);
    FieldRoundTrip(protocol, address);
    FieldRoundTrip(protocol, length);
  }

  // ------------------------------------------------------------ bulk_read

  /** Bytes of one BulkRead record: length field, id, address field. */
  function BulkRecordWidth(protocol: Protocol): nat
  {
    2 * FieldWidth(protocol) + 1
  }

  function BulkRecord(protocol: Protocol, id: uint8, address: uint16, length: uint16): (r: seq<uint8>)
    ensures |r| == BulkRecordWidth(protocol)
  {
    Field(protocol, length) + [id] + Field(protocol, address)
  }

  function BulkReadRecordList(protocol: Protocol, ids: seq<uint8>, addresses: seq<uint16>, lengths: seq<uint16>)
    : (r: seq<seq<uint8>>)
    requires |ids| == |addresses| == |lengths|
    ensures |r| == |ids|
  {
    seq(|ids|, k requires 0 <= k < |ids| => BulkRecord(protocol, ids[k], addresses[k], lengths[k]))
  }

  /** One record per id: (length, id, address), each field at the protocol's width. */
  function BulkReadRecords(protocol: Protocol, ids: seq<uint8>, addresses: seq<uint16>, lengths: seq<uint16>): seq<uint8>
    requires |ids| == |addresses| == |lengths|
  {
    Concat(BulkReadRecordList(protocol, ids, addresses, lengths))
  }

  lemma BulkReadRecordsWidth(protocol: Protocol, ids: seq<uint8>, addresses: seq<uint16>, lengths: seq<uint16>)
    requires |ids| == |addresses| == |lengths|
    ensures AllWidth(BulkReadRecordList(protocol, ids, addresses, lengths), BulkRecordWidth(protocol))
    ensures |BulkReadRecords(protocol, ids, addresses, lengths)| == BulkRecordWidth(protocol) * |ids|
  {
    ConcatLength(BulkReadRecordList(protocol, ids, addresses, lengths), BulkRecordWidth(protocol));
  }

  /** One step of the record loop: record `i` is appended, and it still fits. */
  lemma BulkReadStep(protocol: Protocol, ids: seq<uint8>, addresses: seq<uint16>, lengths: seq<uint16>, i: nat)
    requires |ids| == |addresses| == |lengths| && i < |ids|
    ensures var records := BulkReadRecordList(protocol, ids, addresses, lengths);
      && Concat(records[..i + 1]) == Concat(records[..i]) + BulkRecord(protocol, ids[i], addresses[i], lengths[i])
      && |Concat(records[..i])| + BulkRecordWidth(protocol) <= |Concat(records)|
  {
    var records := BulkReadRecordList(protocol, ids, addresses, lengths);
    BulkReadRecordsWidth(protocol, ids, addresses, lengths);
    AllWidthPrefix(records, BulkRecordWidth(protocol), i);
    ConcatStep(records, BulkRecordWidth(protocol), i);
  }

  /** `_check_arguments`: a non-empty id list and one address and one length per id. */
  function CheckArguments<A, B, C>(ids: seq<A>, addresses: seq<B>, lengths: seq<C>): (r: Outcome)
    ensures r.Pass? <==> |ids| > 0 && |ids| == |addresses| && |ids| == |lengths|
    ensures r.Fail? ==> r.error.Error? && (r.error.reason == EmptyVector <==> |ids| == 0)
  {
    if |ids| == 0 then Fail(Error(EmptyVector))
    else if |ids| != |addresses| then Fail(Error(SizeMismatch))
    else if |ids| != |lengths| then Fail(Error(SizeMismatch))
    else Pass
  }

  /** The record loop shared by the four `_get_parameters` overloads: a leading 0, then the records with a cursor. */
  method FillBulkRead(protocol: Protocol, ids: seq<uint8>, addresses: seq<uint16>, lengths: seq<uint16>)
    returns (parameters: seq<uint8>)
    requires |ids| == |addresses| == |lengths|
    ensures parameters == [0] + BulkReadRecords(protocol, ids, addresses, lengths)
  {
    ghost var records := BulkReadRecordList(protocol, ids, addresses, lengths);
    ghost var total := |Concat(records)|;
    var w := BulkRecordWidth(protocol);
    BulkReadRecordsWidth(protocol, ids, addresses, lengths);
    var size := 1 + w * |ids|;
    assert size == 1 + total;
    parameters := seq(size, _ => 0);
    var curr := 1;
    for i := 0 to |ids|
      invariant |parameters| == 1 + total
      invariant curr == 1 + |Concat(records[..i])| <= 1 + total
      invariant parameters[..curr] == [0] + Concat(records[..i])
    {
      BulkReadStep(protocol, ids, addresses, lengths, i);
      ghost var before := parameters;
      parameters := FillBulkRecord(parameters, curr, protocol, ids[i], addresses[i], lengths[i]);
      CursorAdvance(before, parameters, curr, Concat(records[..i]), BulkRecord(protocol, ids[i], addresses[i], lengths[i]));
      curr := curr + w;
    }
    assert records[..|ids|] == records;
    assert parameters == parameters[..curr];
  }

  /** A record written at the cursor extends the prefix already filled. */
  lemma CursorAdvance(before: seq<uint8>, after: seq<uint8>, curr: nat, done: seq<uint8>, record: seq<uint8>)
    requires curr <= |before| && before[..curr] == [0] + done
    requires curr + |record| <= |after| && after[..curr + |record|] == before[..curr] + record
    ensures after[..curr + |record|] == [0] + (done + record)
  {
  }

  /** One iteration of the BulkRead record loop: the fields written at the cursor. */
  method FillBulkRecord(buffer: seq<uint8>, curr: nat, protocol: Protocol, id: uint8, address: uint16, length: uint16)
    returns (parameters: seq<uint8>)
    requires curr + BulkRecordWidth(protocol) <= |buffer|
    ensures |parameters| == |buffer|
    ensures parameters[..curr + BulkRecordWidth(protocol)] == buffer[..curr] + BulkRecord(protocol, id, address, length)
  {
    if protocol.P1? {
      parameters := buffer[curr := Low(length)][curr + 1 := id][curr + 2 := Low(address)];
      assert parameters[..curr + 3] == buffer[..curr] + [Low(length), id, Low(address)];
    } else {
      parameters := buffer[curr := Low(length)][curr + 1 := High(length)][curr + 2 := id]
                          [curr + 3 := Low(address)][curr + 4 := High(address)];
      assert parameters[..curr + 5]
          == buffer[..curr] + [Low(length), High(length), id, Low(address), High(address)];
    }
  }

  /** `_get_parameters(ids, addresses, lengths)`: the checked per-servo form. */
  method BulkReadParameters(protocol: Protocol, ids: seq<uint8>, addresses: seq<uint16>, lengths: seq<uint16>)
    returns (r: Result<seq<uint8>>)
    ensures CheckArguments(ids, addresses, lengths).Fail? ==> r == Failure(CheckArguments(ids, addresses, lengths).error)
    ensures CheckArguments(ids, addresses, lengths).Pass? ==> r == Success([0] + BulkReadRecords(protocol, ids, addresses, lengths))
  {
    var check := CheckArguments(ids, addresses, lengths);
    if check.Fail? {
      return Failure(check.error);
    }
    var parameters := FillBulkRead(protocol, ids, addresses, lengths);
    return Success(parameters);
  }

  /** `n` copies of `x`. */
  function Repeat<T>(x: T, n: nat): (r: seq<T>)
    ensures |r| == n && forall i :: 0 <= i < n ==> r[i] == x
  {
    seq(n, _ => x)
  }

  /** `_get_parameters(ids, address, length)`: the same field from every servo. */
  method BulkReadUniformParameters(protocol: Protocol, ids: seq<uint8>, address: uint16, length: uint16)
    returns (r: Result<seq<uint8>>)
    ensures ids == [] ==> r == Failure(Error(EmptyVector))
    ensures ids != [] ==> r == Success([0] + BulkReadRecords(protocol, ids, Repeat(address, |ids|), Repeat(length, |ids|)))
  {
    if |ids| == 0 {
      return Failure(Error(EmptyVector));
    }
    var parameters := FillBulkRead(protocol, ids, Repeat(address, |ids|), Repeat(length, |ids|));
    return Success(parameters);
  }

  /** `BulkRead(ids, addresses, lengths)`: broadcast, code 0x92. */
  method BulkReadPacket(protocol: Protocol, ids: seq<uint8>, addresses: seq<uint16>, lengths: seq<uint16>)
    returns (r: Result<InstructionPacket>)
    ensures CheckArguments(ids, addresses, lengths).Fail? ==> r == Failure(CheckArguments(ids, addresses, lengths).error)
    ensures CheckArguments(ids, addresses, lengths).Pass? ==>
      r == Success(Make(protocol, 0xFE, 0x92, [0] + BulkReadRecords(protocol, ids, addresses, lengths)))
  {
    var parameters :- BulkReadParameters(protocol, ids, addresses, lengths);
    assert BroadcastId(protocol) == 0xFE && Code(protocol, BulkRead).value == 0x92;
    return Success(Make(protocol, BroadcastId(protocol), Code(protocol, BulkRead).value, parameters));
  }

  /** `BulkRead(ids, address, length)`. */
  method BulkReadUniformPacket(protocol: Protocol, ids: seq<uint8>, address: uint16, length: uint16)
    returns (r: Result<InstructionPacket>)
    ensures ids == [] ==> r == Failure(Error(EmptyVector))
    ensures ids != [] ==>
      r == Success(Make(protocol, 0xFE, 0x92, [0] + BulkReadRecords(protocol, ids, Repeat(address, |ids|), Repeat(length, |ids|))))
  {
    var parameters :- BulkReadUniformParameters(protocol, ids, address, length);
    assert BroadcastId(protocol) == 0xFE && Code(protocol, BulkRead).value == 0x92;
    return Success(Make(protocol, BroadcastId(protocol), Code(protocol, BulkRead).value, parameters));
  }

  /**
   * The BulkRead records are `n` records of the protocol's width; record `i`
   * sits at `width * i` and gives back its length, id and address.
   */
  lemma BulkReadLayout(protocol: Protocol, ids: seq<uint8>, addresses: seq<uint16>, lengths: seq<uint16>, i: nat)
    requires |ids| == |addresses| == |lengths| && i < |ids|
    ensures var p := BulkReadRecords(protocol, ids, addresses, lengths);
      var w := BulkRecordWidth(protocol);
      var f := FieldWidth(protocol);
      && |p| == w * |ids|
      && w * i + w <= |p|
      && FromLittleEndian(p[w * i..w * i + f]) == lengths[i] % FieldBound(protocol)
      && p[w * i + f] == ids[i]
      && FromLittleEndian(p[w * i + f + 1..w * i + w]) == addresses[i] % FieldBound(protocol)
  {
    var w := BulkRecordWidth(protocol);
    var f := FieldWidth(protocol);
    var p := BulkReadRecords(protocol, ids, addresses, lengths);
    BulkReadRecordsWidth(protocol, ids, addresses, lengths);
    ConcatAt(BulkReadRecordList(protocol, ids, addresses, lengths), w, i);
    var at := w * i;
    MulMonotone(0, i, w);
    BulkRecordFields(protocol, ids[i], addresses[i], lengths[i]);
    SliceOfSlice(p, at, w, 0, f);
    SliceOfSlice(p, at, w, f + 1, w);
  }

  /** The fields of one BulkRead record decode to its length, id and address. */
  lemma BulkRecordFields(protocol: Protocol, id: uint8, address: uint16, length: uint16)
    ensures var r := BulkRecord(protocol, id, address, length);
      var f := FieldWidth(protocol);
      && FromLittleEndian(r[..f]) == length % FieldBound(protocol)
      && r[f] == id
      && FromLittleEndian(r[f + 1..]) == address % FieldBound(protocol)
  {
    var r := BulkRecord(protocol, id, address, length);
    var f := FieldWidth(protocol);
    assert r[..f] == Field(protocol, length);
    assert r[f + 1..] == Field(protocol, address);
    FieldRoundTrip(protocol, length);
    FieldRoundTrip(protocol, address);
  }

  // ------------------------------------------------------------ bulk_write

  /** One BulkWrite record: id, address and length low byte first, then the data. */
  function BulkWriteRecord(id: uint8, address: uint16, length: uint16, data: seq<uint8>): seq<uint8>
  {
    [id, Low(address), High(address), Low(length), High(length)] + data
  }

  function BulkWriteRecordList(ids: seq<uint8>, address: uint16, length: uint16, data: seq<seq<uint8>>)
    : (r: seq<seq<uint8>>)
    requires |data| >= |ids|
    ensures |r| == |ids|
  {
    seq(|ids|, k requires 0 <= k < |ids| => BulkWriteRecord(ids[k], address, length, data[k]))
  }

  /** The records for every id, `data[m]` going with `ids[m]`. */
  function BulkWriteRecords(ids: seq<uint8>, address: uint16, length: uint16, data: seq<seq<uint8>>): seq<uint8>
    requires |data| >= |ids|
  {
    Concat(BulkWriteRecordList(ids, address, length, data))
  }

  /** The first `m` ids have data vectors of the declared length. */
  predicate MatchingUpTo(ids: seq<uint8>, length: uint16, data: seq<seq<uint8>>, m: nat)
    requires m <= |ids| <= |data|
  {
    forall k :: 0 <= k < m ==> |data[k]| == length
  }

  /** Every id has a data vector of the declared length. */
  predicate Matching(ids: seq<uint8>, length: uint16, data: seq<seq<uint8>>)
    requires |data| >= |ids|
  {
    MatchingUpTo(ids, length, data, |ids|)
  }

  /** The first `m` records have width `5 + length` exactly when their data vectors have `length` bytes. */
  lemma BulkWriteWidth(ids: seq<uint8>, address: uint16, length: uint16, data: seq<seq<uint8>>, m: nat)
    requires m <= |ids| <= |data|
    ensures AllWidth(BulkWriteRecordList(ids, address, length, data)[..m], 5 + length) <==> MatchingUpTo(ids, length, data, m)
  {
    var records: seq<seq<uint8>> := BulkWriteRecordList(ids, address, length, data);
    forall k: int | 0 <= k < m
      ensures (|records[..m][k]| == 5 + length as int) == (|data[k]| == length as int)
    {
      assert records[..m][k] == records[k] == BulkWriteRecord(ids[k], address, length, data[k]);
    }
  }

  /** One step of the record loop: record `m` is appended, and it still fits. */
  lemma BulkWriteStep(ids: seq<uint8>, address: uint16, length: uint16, data: seq<seq<uint8>>, m: nat)
    requires m < |ids| <= |data| && MatchingUpTo(ids, length, data, m)
    ensures var records := BulkWriteRecordList(ids, address, length, data);
      && Concat(records[..m + 1]) == Concat(records[..m]) + BulkWriteRecord(ids[m], address, length, data[m])
      && |Concat(records[..m])| + 5 + length <= (5 + length) * |ids|
  {
    var records := BulkWriteRecordList(ids, address, length, data);
    BulkWriteWidth(ids, address, length, data, m);
    ConcatStep(records, 5 + length as int, m);
  }

  /**
   * The record loop of `BulkWrite::_get_parameters` over a zeroed buffer of
   * `(5 + length) * n + trailer` bytes, stopping at the first data vector of the
   * wrong length.
   */
  method FillBulkWrite(ids: seq<uint8>, address: uint16, length: uint16, data: seq<seq<uint8>>, trailer: nat)
    returns (r: Result<seq<uint8>>)
    requires |data| >= |ids|
    ensures !Matching(ids, length, data) ==> r == Failure(Error(SizeMismatch))
    ensures Matching(ids, length, data) ==>
      r == Success(BulkWriteRecords(ids, address, length, data) + Repeat<uint8>(0, trailer))
  {
    ghost var records := BulkWriteRecordList(ids, address, length, data);
    var w := 5 + length as int;
    var size := w * |ids| + trailer;
    var parameters: seq<uint8> := seq(size, _ => 0);
    var curr := 0;
    for m := 0 to |ids|
      invariant |parameters| == size
      invariant MatchingUpTo(ids, length, data, m)
      invariant curr == |Concat(records[..m])| <= size
      invariant parameters[..curr] == Concat(records[..m])
      invariant forall j | curr <= j < size :: parameters[j] == 0
    {
      BulkWriteStep(ids, address, length, data, m);
      ghost var done := parameters[..curr];
      parameters := WriteBulkWriteHeader(parameters, curr, ids[m], address, length);
      curr := curr + 5;
      if |data[m]| != length as int {
        assert !Matching(ids, length, data);
        return Failure(Error(SizeMismatch));
      }
      parameters := CopyAt(parameters, curr, data[m]);
      curr := curr + |data[m]|;
      assert parameters[..curr] == done + BulkWriteRecord(ids[m], address, length, data[m]);
    }
    assert records[..|ids|] == records;
    BulkWriteWidth(ids, address, length, data, |ids|);
    ConcatLength(records, w);
    assert parameters == parameters[..curr] + parameters[curr..];
    assert parameters[curr..] == Repeat<uint8>(0, trailer);
    return Success(parameters);
  }

  /** The five header bytes of one BulkWrite record, written at the cursor. */
  method WriteBulkWriteHeader(buffer: seq<uint8>, curr: nat, id: uint8, address: uint16, length: uint16)
    returns (parameters: seq<uint8>)
    requires curr + 5 <= |buffer|
    ensures |parameters| == |buffer|
    ensures parameters[..curr + 5] == buffer[..curr] + [id, Low(address), High(address), Low(length), High(length)]
    ensures parameters[curr + 5..] == buffer[curr + 5..]
    ensures forall j | curr + 5 <= j < |buffer| :: parameters[j] == buffer[j]
  {
    parameters := buffer[curr := id][curr + 1 := Low(address)][curr + 2 := High(address)]
                        [curr + 3 := Low(length)][curr + 4 := High(length)];
    assert parameters[..curr + 5] == buffer[..curr] + [id, Low(address), High(address), Low(length), High(length)];
  }

  /**
   * `BulkWrite::_get_parameters` as written: the buffer has five bytes more than
   * the records fill, and they go out as zeros.
   */
  method BulkWriteParametersAsWritten(ids: seq<uint8>, address: uint16, length: uint16, data: seq<seq<uint8>>)
    returns (r: Result<seq<uint8>>)
    requires |data| >= |ids|
    ensures ids == [] ==> r == Failure(VectorEmptyError)
    ensures ids != [] && !Matching(ids, length, data) ==> r == Failure(Error(SizeMismatch))
    ensures ids != [] && Matching(ids, length, data) ==>
      r == Success(BulkWriteRecords(ids, address, length, data) + [0, 0, 0, 0, 0])
  {
    if |ids| == 0 {
      return Failure(VectorEmptyError);
    }
    r := FillBulkWrite(ids, address, length, data, 5);
    assert Repeat<uint8>(0, 5) == [0, 0, 0, 0, 0];
  }

  /** `BulkWrite::_get_parameters` with the buffer sized to the records. */
  method BulkWriteParameters(ids: seq<uint8>, address: uint16, length: uint16, data: seq<seq<uint8>>)
    returns (r: Result<seq<uint8>>)
    requires |data| >= |ids|
    ensures ids == [] ==> r == Failure(VectorEmptyError)
    ensures ids != [] && !Matching(ids, length, data) ==> r == Failure(Error(SizeMismatch))
    ensures ids != [] && Matching(ids, length, data) ==> r == Success(BulkWriteRecords(ids, address, length, data))
  {
    if |ids| == 0 {
      return Failure(VectorEmptyError);
    }
    r := FillBulkWrite(ids, address, length, data, 0);
    assert BulkWriteRecords(ids, address, length, data) + Repeat<uint8>(0, 0) == BulkWriteRecords(ids, address, length, data);
  }

  /** `BulkWrite(ids, address, length, data)`: Protocol 2 only, broadcast, code 0x93. */
  method BulkWritePacket(ids: seq<uint8>, address: uint16, length: uint16, data: seq<seq<uint8>>)
    returns (r: Result<InstructionPacket>)
    requires |data| >= |ids|
    ensures ids == [] ==> r == Failure(VectorEmptyError)
    ensures ids != [] && !Matching(ids, length, data) ==> r == Failure(Error(SizeMismatch))
    ensures ids != [] && Matching(ids, length, data) ==>
      r == Success(Make(P2, 0xFE, 0x93, BulkWriteRecords(ids, address, length, data)))
  {
    var parameters :- BulkWriteParameters(ids, address, length, data);
    return Success(Make(P2, BroadcastId(P2), Code(P2, BulkWrite).value, parameters));
  }

  /**
   * The corrected parameters are exactly the `n` records: `(5 + length) * n` bytes,
   * record `m` at `(5 + length) * m`, each giving back its id, address, length and data.
   */
  lemma BulkWriteLayout(ids: seq<uint8>, address: uint16, length: uint16, data: seq<seq<uint8>>, m: nat)
    requires |data| >= |ids| && Matching(ids, length, data) && m < |ids|
    ensures var p := BulkWriteRecords(ids, address, length, data);
      var w := 5 + length as int;
      && |p| == w * |ids|
      && w * m + w <= |p|
      && p[w * m] == ids[m]
      && FromLittleEndian(p[w * m + 1..w * m + 3]) == address
      && FromLittleEndian(p[w * m + 3..w * m + 5]) == length
      && p[w * m + 5..w * m + w] == data[m]
  {
    var w := 5 + length as int;
    var records := BulkWriteRecordList(ids, address, length, data);
    BulkWriteWidth(ids, address, length, data, |ids|);
    assert records[..|ids|] == records;
    ConcatLength(records, w);
    ConcatAt(records, w, m);
    var p := BulkWriteRecords(ids, address, length, data);
    var off := w * m;
    MulMonotone(0, m, w);
    BulkWriteRecordFields(ids[m], address, length, data[m]);
    SliceOfSlice(p, off, w, 1, 3);
    SliceOfSlice(p, off, w, 3, 5);
    SliceOfSlice(p, off, w, 5, w);
  }

  /** A slice of the slice at `off` is the slice of the whole shifted by `off`. */
  lemma SliceOfSlice(p: seq<uint8>, off: nat, w: nat, i: nat, j: nat)
    requires off + w <= |p| && i <= j <= w
    ensures p[off..off + w][i..j] == p[off + i..off + j]
  {
    var q := p[off..off + w][i..j];
    forall k | 0 <= k < j - i
      ensures q[k] == p[off + i..off + j][k]
    {
      assert q[k] == p[off + i + k];
    }
  }

  /** The fields of one BulkWrite record decode to its id, address, length and data. */
  lemma BulkWriteRecordFields(id: uint8, address: uint16, length: uint16, data: seq<uint8>)
    ensures var r := BulkWriteRecord(id, address, length, data);
      && r[0] == id
      && FromLittleEndian(r[1..3]) == address
      && FromLittleEndian(r[3..5]) == length
      && r[5..] == data
  {
    var r := BulkWriteRecord(id, address, length, data);
    assert r[1..3] == [Low(address), High(address)];
    assert r[3..5] == [Low(length), High(length)];
    FromLittleEndianPair(Low(address), High(address));
    FromLittleEndianPair(Low(length), High(length));
    SplitUint16(address);
    SplitUint16(length);
  }

  /**
   * As written, a single servo's write of one byte sends 11 parameter bytes: the
   * 6-byte record, then what reads as a trailing record for id 0, address 0, length 0.
   */
  lemma BulkWriteTrailerExample()
    ensures BulkWriteRecords([1], 0x74, 1, [[7]]) == [1, 0x74, 0, 1, 0, 7]
    ensures BulkWriteRecords([1], 0x74, 1, [[7]]) + [0, 0, 0, 0, 0]
         == [1, 0x74, 0, 1, 0, 7] + BulkWriteRecord(0, 0, 0, [])
  {
    var records := BulkWriteRecordList([1], 0x74, 1, [[7]]);
    assert records[0] == [1, 0x74, 0, 1, 0, 7];
    assert records[..0] == [];
    assert Concat(records) == Concat(records[..0]) + records[0];
  }
}

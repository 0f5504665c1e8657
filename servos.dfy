/**
 * The per-field builders that the `READ_FIELD` / `WRITE_FIELD` macros of
 * `servos/servo.hpp` generate for every control-table entry, the id
 * accessors of a `Servo`, and the bulk setters that turn a vector of values
 * into one SyncWrite. A control-table entry (`CT::NAME` and `NAME_t`) is a
 * `ControlField` value: its address and its C++ integer type.
 */
module Servos {
  import opened Bytes
  import opened Errors
  import opened InstructionPackets
  import opened Instructions
  import opened Records
  import Protocol1
  import Protocol2

  /** The integer types control-table entries are declared with. */
  datatype FieldType = U8 | U16 | U32 | I32

  /** `sizeof(NAME_t)`. */
  function Width(ty: FieldType): (r: nat)
    ensures 1 <= r <= 4
  {
    match ty
    case U8 => 1
    case U16 => 2
    case U32 => 4
    case I32 => 4
  }

  /** The values a field of type `ty` holds. */
  predicate InRange(ty: FieldType, v: int)
  {
    match ty
    case U8 => 0 <= v < 0x100
    case U16 => 0 <= v < 0x1_0000
    case U32 => 0 <= v < 0x1_0000_0000
    case I32 => -0x8000_0000 <= v < 0x8000_0000
  }

  lemma Pow256Widths()
    ensures Pow256(1) == 0x100 && Pow256(2) == 0x1_0000 && Pow256(4) == 0x1_0000_0000
  {
    assert Pow256(2) == 0x1_0000;
    assert Pow256(3) == 0x100_0000;
  }

  /**
   * `static_cast<NAME_t>(value)` of a `long long`: the value of the field type
   * that agrees with `value` modulo 2^(8 sizeof(NAME_t)).
   */
  function Cast(ty: FieldType, value: int): (r: int)
    ensures InRange(ty, r)
    ensures (r - value) % Pow256(Width(ty)) == 0
  {
    Pow256Widths();
    match ty
    case U8 => value % 0x100
    case U16 => value % 0x1_0000
    case U32 => value % 0x1_0000_0000
    case I32 => (value + 0x8000_0000) % 0x1_0000_0000 - 0x8000_0000
  }

  /** A value that already has the field type is left alone by the cast. */
  lemma CastKeeps(ty: FieldType, value: int)
    requires InRange(ty, value)
    ensures Cast(ty, value) == value
  {
    Pow256Widths();
    var r := Cast(ty, value);
    var m := Pow256(Width(ty));
    ModUnique(r - value, m, (r - value) / m, 0);
    assert -m < r - value < m;
    MulAwayFromZero(m, (r - value) / m);
  }

  /** A field width is a valid `length_t` of either protocol. */
  lemma WidthFits(protocol: Protocol, ty: FieldType)
    ensures Width(ty) < FieldBound(protocol) && Width(ty) % FieldBound(protocol) == Width(ty)
  {
    var w := Width(ty);
    if protocol.P1? {
      assert w % 0x100 == w;
    } else {
      assert w % 0x1_0000 == w;
    }
  }

  /** A control-table entry: `CT::NAME` and `NAME_t`. */
  datatype ControlField = ControlField(address: uint16, ty: FieldType)

  /** Protocol 1 has no 32-bit `pack_data` / `unpack_data`. */
  predicate Supported(protocol: Protocol, ty: FieldType)
  {
    !(protocol.P1? && (ty.U32? || ty.I32?))
  }

  /** `protocol_t::pack_data(value)` at the field's type. */
  function PackField(protocol: Protocol, ty: FieldType, value: int): (r: Result<seq<uint8>>)
    requires InRange(ty, value)
    ensures r.Success? <==> Supported(protocol, ty)
    ensures r.Failure? ==> r.error == Error(NotImplemented)
    ensures r.Success? ==> r.value == LittleEndian(value, Width(ty))
  {
    Protocol2.Split32IsLittleEndian(value);
    assert LittleEndian(value / 0x100, 0) == [];
    assert LittleEndian(value / 0x100, 1) == [Low(value / 0x100)];
    match (protocol, ty)
    case (P1, U8) => Success(Protocol1.PackData8(value))
    case (P1, U16) => Success(Protocol1.PackData16(value))
    case (P1, U32) => Protocol1.PackData32(value)
    case (P1, I32) => Protocol1.PackData32(value)
    case (P2, U8) => Success(Protocol2.PackData8(value))
    case (P2, U16) => Success(Protocol2.PackData16(value))
    case (P2, U32) => Success(Protocol2.PackDataU32(value))
    case (P2, I32) => Success(Protocol2.PackDataI32(value))
  }

  /**
   * What Protocol 2's `unpack_data` asserts of the buffer: a non-empty one for
   * 8-bit values, exactly `sizeof(NAME_t)` bytes otherwise.
   */
  predicate Unpackable(ty: FieldType, parameters: seq<uint8>)
  {
    if ty.U8? then |parameters| > 0 else |parameters| == Width(ty)
  }

  /**
   * `parse_NAME(id, st)`: `unpack_data(st.parameters(), res)` at the field's
   * type. `st.parameters()` is the status packet's own `Result`, which fails
   * while the packet is not valid.
   */
  function ParseField(protocol: Protocol, ty: FieldType, parameters: Result<seq<uint8>>): (r: Result<int>)
    requires parameters.Success? && protocol.P2? ==> Unpackable(ty, parameters.value)
    ensures parameters.Failure? ==> r == Failure(parameters.error)
    ensures parameters.Success? && !Supported(protocol, ty) ==> r == Failure(Error(NotImplemented))
    ensures r.Success? ==> InRange(ty, r.value)
  {
    var p :- parameters;
    match (protocol, ty)
    case (P1, U8) => var v :- Protocol1.UnpackData8(p); Success(v)
    case (P1, U16) => var v :- Protocol1.UnpackData16(p); Success(v)
    case (P1, U32) => Protocol1.UnpackData32(p)
    case (P1, I32) => Protocol1.UnpackData32(p)
    case (P2, U8) => Success(Protocol2.UnpackData8(p))
    case (P2, U16) => Success(Protocol2.UnpackData16(p))
    case (P2, U32) => Success(Protocol2.UnpackDataU32(p))
    case (P2, I32) => Success(Protocol2.UnpackDataI32(p))
  }

  /** Parsing a reply whose parameters are `pack_data(v)` gives `v` back. */
  lemma ParsePack(protocol: Protocol, ty: FieldType, value: int)
    requires InRange(ty, value) && Supported(protocol, ty)
    ensures ParseField(protocol, ty, PackField(protocol, ty, value)) == Success(value)
  {
    match (protocol, ty)
    case (P1, U8) => Protocol1.UnpackPack8(value);
    case (P1, U16) => Protocol1.UnpackPack16(value);
    case (P2, U8) => Protocol2.UnpackPack8(value);
    case (P2, U16) => Protocol2.UnpackPack16(value);
    case (P2, U32) => Protocol2.UnpackPackU32(value);
    case (P2, I32) => Protocol2.UnpackPackI32(value);
  }

  /** Protocol 1 only accepts a reply of exactly the field's width. */
  lemma ParseFieldWidth(ty: FieldType, parameters: seq<uint8>)
    requires Supported(P1, ty)
    ensures ParseField(P1, ty, Success(parameters)).Success? <==> |parameters| == Width(ty)
    ensures |parameters| != Width(ty) ==>
      ParseField(P1, ty, Success(parameters)) == Failure(UnpackError(1, |parameters|, Width(ty)))
  {
  }

  // ------------------------------------------------------------ get_ / set_ / reg_

  /** `get_NAME(id)`: `Read(id, CT::NAME, sizeof(NAME_t))`. */
  function GetField(protocol: Protocol, id: uint8, field: ControlField): (r: InstructionPacket)
    ensures r.WellFormed() && r.Id() == id && r.Instruction() == 0x02
    ensures |r.Parameters()| == 2 * FieldWidth(protocol)
    ensures FromLittleEndian(r.Parameters()[..FieldWidth(protocol)]) == field.address % FieldBound(protocol)
    ensures FromLittleEndian(r.Parameters()[FieldWidth(protocol)..]) == Width(field.ty)
  {
    var r := ReadPacket(protocol, id, field.address, Width(field.ty));
    assert r.Parameters() == ReadParameters(protocol, field.address, Width(field.ty));
    WidthFits(protocol, field.ty);
    r
  }

  /**
   * The packet `set_NAME(id, value)` (instruction 0x03) or `reg_NAME(id, value)`
   * (instruction 0x04) holds: `pack_data(value)` written at `CT::NAME`, or the
   * error `pack_data` raises.
   */
  function FieldWrite(protocol: Protocol, id: uint8, instr: uint8, field: ControlField, value: int)
    : Result<InstructionPacket>
    requires InRange(field.ty, value)
  {
    var data :- PackField(protocol, field.ty, value);
    Success(Make(protocol, id, instr, Field(protocol, field.address) + data))
  }

  /**
   * A written field decodes back: the packet goes to `id` with the given
   * instruction, its parameters start with the address and continue with bytes
   * that parse to `value`; it fails exactly for a 32-bit field of Protocol 1.
   */
  lemma FieldWriteDecodes(protocol: Protocol, id: uint8, instr: uint8, field: ControlField, value: int)
    requires InRange(field.ty, value)
    ensures var r := FieldWrite(protocol, id, instr, field, value);
      && (r.Success? <==> Supported(protocol, field.ty))
      && (r.Failure? ==> r.error == Error(NotImplemented))
      && (r.Success? ==>
            && r.value.Id() == id && r.value.Instruction() == instr
            && FromLittleEndian(r.value.Parameters()[..FieldWidth(protocol)]) == field.address % FieldBound(protocol)
            && ParseField(protocol, field.ty, Success(r.value.Parameters()[FieldWidth(protocol)..])) == Success(value))
  {
    var r := FieldWrite(protocol, id, instr, field, value);
    if r.Success? {
      var data := PackField(protocol, field.ty, value).value;
      AddressedDataDecodes(protocol, field.address, data);
      ParsePack(protocol, field.ty, value);
    }
  }

  /** `set_NAME(id, value)`. */
  method SetField(protocol: Protocol, id: uint8, field: ControlField, value: int)
    returns (r: Result<InstructionPacket>)
    requires InRange(field.ty, value)
    ensures r == FieldWrite(protocol, id, 0x03, field, value)
  {
    var data :- PackField(protocol, field.ty, value);
    var packet := WritePacket(protocol, id, field.address, data);
    r := Success(packet);
  }

  /** `reg_NAME(id, value)`. */
  method RegField(protocol: Protocol, id: uint8, field: ControlField, value: int)
    returns (r: Result<InstructionPacket>)
    requires InRange(field.ty, value)
    ensures r == FieldWrite(protocol, id, 0x04, field, value)
  {
    var data :- PackField(protocol, field.ty, value);
    var packet := RegWritePacket(protocol, id, field.address, data);
    r := Success(packet);
  }

  // ------------------------------------------------------------ bulk setters

  /** `_get_typed<id_t>(ids)`: every element cast to `uint8_t`, in order. */
  method GetTyped(values: seq<int>) returns (r: seq<uint8>)
    ensures |r| == |values|
    ensures forall i :: 0 <= i < |values| ==> r[i] == Low(values[i])
  {
    r := seq(|values|, _ => 0);
    var i := 0;
    while i < |values|
      invariant 0 <= i <= |values| && |r| == |values|
      invariant forall k :: 0 <= k < i ==> r[k] == Low(values[k])
    {
      r := r[i := Low(values[i])];
      i := i + 1;
    }
  }

  /** The ids of a bulk setter, cast to `id_t`. */
  function TypedIds(ids: seq<int>): seq<uint8>
  {
    seq(|ids|, i requires 0 <= i < |ids| => Low(ids[i]))
  }

  /** `pack_data((NAME_t)values[i])` for every value, in order. */
  function PackedValues(ty: FieldType, values: seq<int>): seq<seq<uint8>>
  {
    seq(|values|, i requires 0 <= i < |values| => LittleEndian(Cast(ty, values[i]), Width(ty)))
  }

  /** The packing loop of the bulk setters; the first value Protocol 1 cannot pack raises. */
  method PackAll(protocol: Protocol, ty: FieldType, values: seq<int>) returns (r: Result<seq<seq<uint8>>>)
    ensures r == if |values| > 0 && !Supported(protocol, ty) then Failure(Error(NotImplemented))
                 else Success(PackedValues(ty, values))
  {
    var packed: seq<seq<uint8>> := seq(|values|, _ => []);
    var i := 0;
    while i < |values|
      invariant 0 <= i <= |values| && |packed| == |values|
      invariant i > 0 ==> Supported(protocol, ty)
      invariant forall k :: 0 <= k < i ==> packed[k] == LittleEndian(Cast(ty, values[k]), Width(ty))
    {
      var data :- PackField(protocol, ty, Cast(ty, values[i]));
      packed := packed[i := data];
      i := i + 1;
    }
    assert packed == PackedValues(ty, values);
    r := Success(packed);
  }

  /**
   * `set_goal_positions`, `set_moving_speeds` and `set_torque_limits`: one
   * SyncWrite of `field` whose record `i` is `ids[i]` followed by `values[i]`,
   * both cast and packed.
   */
  function SyncFieldWrite(protocol: Protocol, field: ControlField, ids: seq<int>, values: seq<int>)
    : Result<InstructionPacket>
  {
    if |ids| != |values| then Failure(Error(SizeMismatch))
    else if |values| > 0 && !Supported(protocol, field.ty) then Failure(Error(NotImplemented))
    else Success(Make(protocol, 0xFE, 0x83, SyncFieldParameters(protocol, field, ids, values)))
  }

  /** The parameters of a bulk setter's SyncWrite: address, width, then the records. */
  function SyncFieldParameters(protocol: Protocol, field: ControlField, ids: seq<int>, values: seq<int>): seq<uint8>
    requires |ids| == |values|
  {
    Field(protocol, field.address) + Field(protocol, Width(field.ty))
    + SyncRecords(TypedIds(ids), PackedValues(field.ty, values))
  }

  /** The bulk setter for `field`; SyncWrite asserts a non-empty id list. */
  method SetFieldForAll(protocol: Protocol, field: ControlField, ids: seq<int>, values: seq<int>)
    returns (r: Result<InstructionPacket>)
    requires |ids| == |values| ==> |ids| > 0
    ensures r == SyncFieldWrite(protocol, field, ids, values)
  {
    if |ids| != |values| {
      return Failure(Error(SizeMismatch));
    }
    var packed :- PackAll(protocol, field.ty, values);
    var typed := GetTyped(ids);
    assert typed == TypedIds(ids);
    assert |packed[0]| == Width(field.ty) < FieldBound(protocol);
    var packet := SyncWritePacket(protocol, field.address, typed, packed);
    r := Success(packet);
  }

  /**
   * Record `i` of a bulk setter's SyncWrite, after the header of address and
   * width, is `ids[i]` cast to `id_t` followed by `values[i]`, cast to the
   * field type and packed low byte first (which `ParsePack` parses back).
   */
  lemma SyncFieldRecord(protocol: Protocol, field: ControlField, ids: seq<int>, values: seq<int>, i: nat)
    requires |ids| == |values| && i < |ids|
    ensures var p := SyncFieldParameters(protocol, field, ids, values);
      var w := Width(field.ty);
      var at := 2 * FieldWidth(protocol) + (w + 1) * i;
      && at + w + 1 <= |p|
      && p[at] == Low(ids[i])
      && p[at + 1..at + w + 1] == LittleEndian(Cast(field.ty, values[i]), w)
  {
    var w := Width(field.ty);
    var typed := TypedIds(ids);
    var packed := PackedValues(field.ty, values);
    assert Uniform(packed, w);
    SyncRecordAt(typed, packed, w, i);
    var header := Field(protocol, field.address) + Field(protocol, Width(field.ty));
    var records := SyncRecords(typed, packed);
    var at := (w + 1) * i;
    MulNat(w + 1, i);
    ShiftedSlice(header, records, at, w);
    assert SyncFieldParameters(protocol, field, ids, values) == header + records;
    assert typed[i] == Low(ids[i]);
  }

  /** Helper: the offset of a record is a natural number. */
  lemma MulNat(a: nat, b: nat)
    ensures a * b >= 0
  {
  }

  /** The bytes of `records` after a header sit `|header|` further on. */
  lemma ShiftedSlice(header: seq<uint8>, records: seq<uint8>, at: nat, w: nat)
    requires at + w + 1 <= |records|
    ensures (header + records)[|header| + at] == records[at]
    ensures (header + records)[|header| + at + 1..|header| + at + w + 1] == records[at + 1..at + w + 1]
  {
  }

  /** The bulk setters reject vectors of different lengths. */
  lemma SyncFieldMismatch(protocol: Protocol, field: ControlField, ids: seq<int>, values: seq<int>)
    ensures SyncFieldWrite(protocol, field, ids, values).Failure? <==>
      |ids| != |values| || (|values| > 0 && !Supported(protocol, field.ty))
    ensures |ids| != |values| ==> SyncFieldWrite(protocol, field, ids, values) == Failure(Error(SizeMismatch))
  {
  }

  // ------------------------------------------------------------ the servo object

  /** A `Servo<Model>`: the protocol of its model and the id it is addressed by. */
  class Servo {
    const protocol: Protocol
    var id: uint8

    constructor(protocol: Protocol, id: uint8)
      ensures this.protocol == protocol && this.id == id
    {
      this.protocol := protocol;
      this.id := id;
    }

    /** `id(x)`: the new id is `x` cast to `id_t`. */
    method SetId(x: int)
      modifies this
      ensures id == Low(x)
      ensures 0 <= x < 0x100 ==> id == x
    {
      id := Low(x);
    }

    /** The instance `get_NAME()`: the read is addressed to the stored id. */
    method Get(field: ControlField) returns (r: InstructionPacket)
      ensures r == GetField(protocol, id, field)
    {
      r := GetField(protocol, id, field);
    }

    /** The instance `set_NAME(long long)`: the value is cast to the field type first. */
    method Set(field: ControlField, value: int) returns (r: Result<InstructionPacket>)
      ensures r == FieldWrite(protocol, id, 0x03, field, Cast(field.ty, value))
    {
      r := SetField(protocol, id, field, Cast(field.ty, value));
    }

    /** The instance `reg_NAME(long long)`. */
    method Reg(field: ControlField, value: int) returns (r: Result<InstructionPacket>)
      ensures r == FieldWrite(protocol, id, 0x04, field, Cast(field.ty, value))
    {
      r := RegField(protocol, id, field, Cast(field.ty, value));
    }

    /** The instance `ping()`. */
    method Ping() returns (r: InstructionPacket)
      ensures r == PingPacket(protocol, id)
    {
      r := PingPacket(protocol, id);
    }
  }

  // ------------------------------------------------------------ the AX-12 table

  const Ax12ModelNumber := ControlField(0, U16)
  const Ax12Id := ControlField(3, U8)
  const Ax12Baudrate := ControlField(4, U8)
  const Ax12TorqueEnable := ControlField(24, U8)
  const Ax12Led := ControlField(25, U8)
  const Ax12GoalPosition := ControlField(30, U16)
  const Ax12MovingSpeed := ControlField(32, U16)
  const Ax12TorqueLimit := ControlField(34, U16)
  const Ax12PresentPosition := ControlField(36, U16)

  /** `Ax12::get_present_position(id)` is `Read(id, 36, 2)`. */
  lemma Ax12PresentPositionRead(id: uint8)
    ensures GetField(P1, id, Ax12PresentPosition).Parameters() == [36, 2]
    ensures GetField(P1, id, Ax12PresentPosition) == ReadPacket(P1, id, 36, 2)
  {
  }

  /** `Ax12::set_goal_positions` for one servo has parameters 1E 02 id lo hi, as `ax12::SetPositions`. */
  lemma Ax12GoalPositionsLayout(id: uint8, position: uint16)
    ensures var r := SyncFieldWrite(P1, Ax12GoalPosition, [id], [position]);
      && r.Success? && r.value.Id() == 0xFE && r.value.Instruction() == 0x83
      && r.value.Parameters() == [0x1E, 2, id, Low(position), High(position)]
  {
    CastKeeps(U16, position);
    var packed := PackedValues(U16, [position]);
    assert packed[0] == [Low(position), High(position)] by {
      assert LittleEndian(position / 0x100, 1) == [High(position)];
    }
    var typed := TypedIds([id]);
    assert typed == [id];
    var records := SyncRecordList(typed, packed);
    assert records[0] == [id] + packed[0] == [id, Low(position), High(position)];
    assert |records| == 1;
    assert records[..0] == [];
    assert Concat(records) == Concat(records[..0]) + records[0];
    assert SyncRecords(typed, packed) == [id, Low(position), High(position)];
    assert SyncFieldParameters(P1, Ax12GoalPosition, [id], [position]) == [0x1E, 2, id, Low(position), High(position)];
  }
}

/**
 * The builders the macros of `models/servo_model.hpp` generate. They differ from
 * the ones of `servos/servo.hpp` in three ways: one `set_NAME` takes a `reg`
 * flag choosing RegWrite over Write, boolean fields write the model's `_on` /
 * `_off` constants, and the bulk setters assert rather than raise on a length
 * mismatch. Field types, packing and parsing are those of `Servos`.
 */
module ServoModels {
  import opened Bytes
  import opened Errors
  import opened InstructionPackets
  import opened Servos

  /** The instruction `set_NAME(id, value, reg)` sends. */
  function WriteInstruction(reg: bool): uint8
  {
    if reg then 0x04 else 0x03
  }

  /** `set_NAME(id, value, reg)`: a RegWrite when `reg` is set, a Write otherwise. */
  method SetModelField(protocol: Protocol, id: uint8, field: ControlField, value: int, reg: bool)
    returns (r: Result<InstructionPacket>)
    requires InRange(field.ty, value)
    ensures r == FieldWrite(protocol, id, WriteInstruction(reg), field, value)
  {
    if reg {
      r := RegField(protocol, id, field, value);
    } else {
      r := SetField(protocol, id, field, value);
    }
  }

  /**
   * Setting and registering a field build the same packet but for the
   * instruction byte: same success, same id, same parameters.
   */
  lemma RegOnlyChangesInstruction(protocol: Protocol, id: uint8, field: ControlField, value: int)
    requires InRange(field.ty, value)
    ensures var written := FieldWrite(protocol, id, WriteInstruction(false), field, value);
      var reg := FieldWrite(protocol, id, WriteInstruction(true), field, value);
      && (written.Success? <==> reg.Success?)
      && (written.Success? ==>
            && written.value.Instruction() == 0x03 && reg.value.Instruction() == 0x04
            && written.value.Id() == reg.value.Id() == id
            && written.value.Parameters() == reg.value.Parameters())
  {
  }

  /** A boolean control-table entry and the model's `NAME_on` / `NAME_off` constants. */
  datatype BoolField = BoolField(field: ControlField, on: int, off: int)

  predicate ValidBoolField(b: BoolField)
  {
    InRange(b.field.ty, b.on) && InRange(b.field.ty, b.off)
  }

  /** `set_NAME(id, value, reg)` of `WRITE_BOOL_FIELD`: `pack_data(value ? NAME_on : NAME_off)`. */
  method SetBoolField(protocol: Protocol, id: uint8, b: BoolField, value: bool, reg: bool)
    returns (r: Result<InstructionPacket>)
    requires ValidBoolField(b)
    ensures r == FieldWrite(protocol, id, WriteInstruction(reg), b.field, if value then b.on else b.off)
  {
    var constant := if value then b.on else b.off;
    r := SetModelField(protocol, id, b.field, constant, reg);
  }

  /**
   * The byte written for a boolean field parses back to `NAME_on` exactly when
   * the flag was set, provided the two constants differ.
   */
  lemma BoolFieldDecodes(protocol: Protocol, id: uint8, b: BoolField, value: bool, reg: bool)
    requires ValidBoolField(b) && b.on != b.off && Supported(protocol, b.field.ty)
    ensures var r := FieldWrite(protocol, id, WriteInstruction(reg), b.field, if value then b.on else b.off);
      && r.Success?
      && var written := ParseField(protocol, b.field.ty, Success(r.value.Parameters()[FieldWidth(protocol)..]));
      && written.Success?
      && (written.value == b.on <==> value)
  {
    FieldWriteDecodes(protocol, id, WriteInstruction(reg), b.field, if value then b.on else b.off);
  }

  /** `Mx106`'s led: address 25, one byte, on 1, off 0. */
  const Mx106Led := BoolField(ControlField(25, U8), 1, 0)

  /** `ProL54`'s led: address 563, one byte, on 255, off 0. */
  const ProL54Led := BoolField(ControlField(563, U8), 255, 0)

  /** Switching the `Mx106` led on or off writes the byte 1 or 0 at 0x19. */
  lemma Mx106LedParameters(id: uint8, value: bool)
    ensures var r := FieldWrite(P1, id, 0x03, Mx106Led.field, if value then 1 else 0);
      r.Success? && r.value.Parameters() == [0x19, if value then 1 else 0]
  {
  }

  /** Switching the `ProL54` led on writes 0xFF after the address 0x0233, low byte first. */
  lemma ProL54LedParameters(id: uint8)
    ensures var r := FieldWrite(P2, id, 0x03, ProL54Led.field, 255);
      r.Success? && r.value.Parameters() == [0x33, 0x02, 0xFF]
  {
    assert PackField(P2, U8, 255) == Success([0xFF]) by {
      assert LittleEndian(255 / 0x100, 0) == [];
    }
    assert Field(P2, 563) == [0x33, 0x02];
    assert Field(P2, 563) + [0xFF] == [0x33, 0x02, 0xFF];
  }

  /**
   * `set_goal_positions`, `set_moving_speeds` and `set_torque_limits` of a
   * `ServoModel`: the lengths must agree (an assert), and SyncWrite asserts a
   * non-empty id list.
   */
  method SetModelFieldForAll(protocol: Protocol, field: ControlField, ids: seq<int>, values: seq<int>)
    returns (r: Result<InstructionPacket>)
    requires |ids| == |values| && |ids| > 0
    ensures r == SyncFieldWrite(protocol, field, ids, values)
    ensures r.Success? <==> Supported(protocol, field.ty)
    ensures r.Failure? ==> r.error == Error(NotImplemented)
  {
    r := SetFieldForAll(protocol, field, ids, values);
  }
}

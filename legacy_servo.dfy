/**
 * The first servo API: `Ping<Protocol1>` and the static builders of
 * `Servo<Mx64>`, both packing through the first Protocol 1 codec, whose
 * encoder writes the same bytes as `Protocol1.Packet`
 * (`LegacyProtocol1.PackInstruction`).
 */
module LegacyServos {
  import opened Bytes
  import opened InstructionPackets
  import LegacyProtocol1
  import Protocol1
  import opened Servos
  import opened ServoModels
  import opened Errors

  /** `CT::led` and `CT::goal_pos` of the first `Mx64` traits, on one and two bytes. */
  const Mx64Led: uint8 := 0x19
  const Mx64GoalPosition: uint8 := 0x1E

  /**
   * `Ping<Protocol1>(id)`, also `Servo::ping(id)`: the three-argument encoder
   * with an empty parameter vector, six bytes FF FF id 02 01 ~(id + 3).
   */
  function Ping(id: uint8): (r: InstructionPacket)
    ensures r.protocol == P1 && r.WellFormed() && r.Id() == id && r.Instruction() == LegacyProtocol1.PingCode
    ensures r.bytes == [0xFF, 0xFF, id, 0x02, 0x01, 0xFF - (id as int + 3) % 0x100]
  {
    Protocol1.NoParamsIsEmptyParams(id, LegacyProtocol1.PingCode);
    Protocol1.NoParamsBytes(id, LegacyProtocol1.PingCode);
    Make(P1, id, LegacyProtocol1.PingCode, [])
  }

  /** `set_position(id, pos)`: Write of `pack_data(pos)` at the goal position. */
  function SetPosition(id: uint8, pos: uint16): (r: InstructionPacket)
    ensures r.protocol == P1 && r.WellFormed() && r.Id() == id && r.Instruction() == LegacyProtocol1.WriteCode
    ensures |r.Parameters()| == 3 && r.Parameters()[0] == Mx64GoalPosition
    ensures FromLittleEndian(r.Parameters()[1..]) == pos
  {
    var data := LegacyProtocol1.PackData16(pos);
    var packet := Make(P1, id, LegacyProtocol1.WriteCode, Field(P1, Mx64GoalPosition) + data);
    assert packet.Parameters()[1..] == data;
    packet
  }

  /** `led_on(id)`: Write of the single byte 1 at the led. */
  function LedOn(id: uint8): (r: InstructionPacket)
    ensures r.protocol == P1 && r.WellFormed() && r.Id() == id && r.Instruction() == LegacyProtocol1.WriteCode
    ensures r.Parameters() == [Mx64Led, 1]
  {
    Make(P1, id, LegacyProtocol1.WriteCode, Field(P1, Mx64Led) + LegacyProtocol1.PackData8(1))
  }

  /** `led_off(id)`: Write of the single byte 0 at the led. */
  function LedOff(id: uint8): (r: InstructionPacket)
    ensures r.protocol == P1 && r.WellFormed() && r.Id() == id && r.Instruction() == LegacyProtocol1.WriteCode
    ensures r.Parameters() == [Mx64Led, 0]
  {
    Make(P1, id, LegacyProtocol1.WriteCode, Field(P1, Mx64Led) + LegacyProtocol1.PackData8(0))
  }

  /** The first led builders send the same packets as the newer builders for the `Mx106` led. */
  lemma LedMatchesServoModel(id: uint8, on: bool)
    ensures var written := FieldWrite(P1, id, 0x03, Mx106Led.field, if on then 1 else 0);
      written.Success? && written.value == if on then LedOn(id) else LedOff(id)
  {
    var v := if on then 1 else 0;
    assert LittleEndian(v / 0x100, 0) == [];
    assert PackField(P1, U8, v) == Success([v]);
  }

  /** `set_position` sends the same packet as the newer builder for a two-byte goal position at 0x1E. */
  lemma SetPositionMatchesServo(id: uint8, pos: uint16)
    ensures var written := FieldWrite(P1, id, 0x03, ControlField(Mx64GoalPosition as uint16, U16), pos);
      written.Success? && written.value == SetPosition(id, pos)
  {
    assert LittleEndian(pos / 0x100 / 0x100, 0) == [];
    assert PackField(P1, U16, pos) == Success([Low(pos), High(pos)]);
  }
}

/**
 * The hand-built AX-12 instructions of the first API (namespace `ax12`):
 * each is an `Instruction` whose buffer holds one Protocol 1 packet. The
 * multi-servo forms keep their id list and rebuild the packet in place when
 * new values are set.
 */
module LegacyAx12 {
  import opened Bytes
  import opened Errors
  import opened Records
  import opened LegacyInstructions
  import InstructionPackets
  import Servos
  import Instructions
  import OperatingModes

  const ModelNumber: uint16 := 0x000C
  const SpeedMax: int := 0x03FF
  /** Bit 10 of a moving speed: clockwise when set, counter-clockwise (0) otherwise. */
  const CwTurnDirection: int := 0x0400
  /** `broadcast`, the id every servo obeys. */
  const Broadcast: uint8 := 0xFE
  /** The default of `SetAlarmLed` and `SetAlarmShutdown`: 0b01111010. */
  const DefaultAlarms: uint8 := 0x7A

  // action codes
  const PingCode: uint8 := 0x01
  const ReadDataCode: uint8 := 0x02
  const WriteDataCode: uint8 := 0x03
  const RegWriteCode: uint8 := 0x04
  const ActionCode: uint8 := 0x05
  const ResetCode: uint8 := 0x06
  const SyncWriteCode: uint8 := 0x83

  // control-table addresses used by the builders
  const IdAddress: uint8 := 0x03
  const BaudrateAddress: uint8 := 0x04
  const CwAngleLimitLo: uint8 := 0x06
  const AlarmLedAddress: uint8 := 0x11
  const AlarmShutdownAddress: uint8 := 0x12
  const TorqueEnableAddress: uint8 := 0x18
  const GoalPositionLo: uint8 := 0x1E
  const MovingSpeedLo: uint8 := 0x20
  const TorqueLimitLo: uint8 := 0x22
  const PresentPosLo: uint8 := 0x24
  const PresentLoadLo: uint8 := 0x28
  const PresentVoltage: uint8 := 0x2A

  /** `r` is a built instruction to `id` with code `code` and parameters `params`. */
  predicate Built(r: Instruction, id: uint8, code: uint8, params: seq<uint8>)
    reads r, r.buffer
  {
    r.id == id && r.instruction == code && r.Valid() && r.Holds(params)
  }

  // ---------------------------------------------------------------- low level

  /** `Ping(id)`. */
  method Ping(id: uint8) returns (r: Instruction)
    ensures fresh(r) && fresh(r.buffer) && Built(r, id, PingCode, [])
  {
    r := new Instruction(id, PingCode);
  }

  /** `ReadData(id, p1, p2)`: read `p2` bytes from address `p1`. */
  method ReadData(id: uint8, p1: uint8, p2: uint8) returns (r: Instruction)
    ensures fresh(r) && fresh(r.buffer) && Built(r, id, ReadDataCode, [p1, p2])
  {
    r := new Instruction.Two(id, ReadDataCode, p1, p2);
  }

  /** `WriteData(id, params)`: the address and at least one data byte (an assert). */
  method WriteData(id: uint8, params: seq<uint8>) returns (r: Instruction)
    requires |params| >= 2
    ensures fresh(r) && fresh(r.buffer) && Built(r, id, WriteDataCode, params)
  {
    r := new Instruction.WithParams(id, WriteDataCode, params);
  }

  /** `WriteData(id, p1, p2)`. */
  method WriteData2(id: uint8, p1: uint8, p2: uint8) returns (r: Instruction)
    ensures fresh(r) && fresh(r.buffer) && Built(r, id, WriteDataCode, [p1, p2])
  {
    r := new Instruction.Two(id, WriteDataCode, p1, p2);
  }

  /** `WriteData(id, p1, p2, p3)`. */
  method WriteData3(id: uint8, p1: uint8, p2: uint8, p3: uint8) returns (r: Instruction)
    ensures fresh(r) && fresh(r.buffer) && Built(r, id, WriteDataCode, [p1, p2, p3])
  {
    r := new Instruction.Three(id, WriteDataCode, p1, p2, p3);
  }

  /** `RegWrite(id, params)`: at least two parameters (an assert). */
  method RegWrite(id: uint8, params: seq<uint8>) returns (r: Instruction)
    requires |params| >= 2
    ensures fresh(r) && fresh(r.buffer) && Built(r, id, RegWriteCode, params)
  {
    r := new Instruction.WithParams(id, RegWriteCode, params);
  }

  /** `Action(id)`. */
  method Action(id: uint8) returns (r: Instruction)
    ensures fresh(r) && fresh(r.buffer) && Built(r, id, ActionCode, [])
  {
    r := new Instruction(id, ActionCode);
  }

  /** `Reset(id)`. */
  method Reset(id: uint8) returns (r: Instruction)
    ensures fresh(r) && fresh(r.buffer) && Built(r, id, ResetCode, [])
  {
    r := new Instruction(id, ResetCode);
  }

  /** `SyncWrite(id, params)`: at least four parameters (an assert). */
  method SyncWrite(id: uint8, params: seq<uint8>) returns (r: Instruction)
    requires |params| >= 4
    ensures fresh(r) && fresh(r.buffer) && Built(r, id, SyncWriteCode, params)
  {
    r := new Instruction.WithParams(id, SyncWriteCode, params);
  }

  // ---------------------------------------------------------------- positions

  /** The SyncWrite record of one goal position: id, `pos & 0xFF`, `(pos & 0xFF00) >> 8`. */
  function PositionRecords(ids: seq<uint8>, positions: seq<int>): (r: seq<seq<uint8>>)
    requires |ids| == |positions|
    ensures |r| == |ids|
  {
    seq(|ids|, i requires 0 <= i < |ids| => [ids[i], Low(positions[i]), High(positions[i])])
  }

  /** The parameters of `SetPositions`: goal position address, 2 bytes, then the records. */
  function PositionParameters(ids: seq<uint8>, positions: seq<int>): seq<uint8>
    requires |ids| == |positions|
  {
    [GoalPositionLo, 2] + Concat(PositionRecords(ids, positions))
  }

  /** `SetPosition(id, position)`: a SyncWrite addressed to `id` with a single record. */
  method SetPosition(id: uint8, position: int) returns (r: Instruction)
    ensures fresh(r) && Built(r, id, SyncWriteCode, [GoalPositionLo, 2, id, Low(position), High(position)])
  {
    r := new Instruction(id, SyncWriteCode);
    var params := [GoalPositionLo, 2, id, Low(position), High(position)];
    r.RebuildPacket(params);
  }

  /** The record loop of `_set_positions`, one `push_back` per byte. */
  method PositionParametersLoop(ids: seq<uint8>, positions: seq<int>) returns (params: seq<uint8>)
    requires |ids| == |positions|
    ensures params == PositionParameters(ids, positions)
  {
    ghost var records := PositionRecords(ids, positions);
    params := [GoalPositionLo, 2];
    for i := 0 to |ids|
      invariant params == [GoalPositionLo, 2] + Concat(records[..i])
    {
      ConcatSnoc(records, i);
      params := params + [ids[i]];
      params := params + [Low(positions[i])];
      params := params + [High(positions[i])];
    }
    assert records[..|ids|] == records;
  }

  /** `SetPositions`: a broadcast SyncWrite of goal positions for a fixed list of ids. */
  class SetPositions {
    const ids: seq<uint8>
    const instruction: Instruction

    predicate Valid()
      reads this, instruction, instruction.buffer
    {
      instruction.Valid() && instruction.id == Broadcast && instruction.instruction == SyncWriteCode
    }

    /** `SetPositions(ids, positions)`; the lengths must agree (an assert). */
    constructor (ids: seq<uint8>, positions: seq<int>)
      requires |positions| == |ids|
      ensures this.ids == ids && Valid() && instruction.Holds(PositionParameters(ids, positions))
      ensures fresh(instruction) && fresh(instruction.buffer)
    {
      this.ids := ids;
      instruction := new Instruction(Broadcast, SyncWriteCode);
      new;
      Set(positions);
    }

    /** `set_positions(positions)`: the packet is rebuilt for the stored ids. */
    method Set(positions: seq<int>)
      requires Valid() && |positions| == |ids|
      modifies instruction, instruction.buffer
      ensures Valid() && instruction.Holds(PositionParameters(ids, positions))
      ensures instruction.buffer == old(instruction.buffer) || fresh(instruction.buffer)
    {
      var params := PositionParametersLoop(ids, positions);
      instruction.RebuildPacket(params);
    }
  }

  /** `(position & 0xFF00) >> 8` only sees the position modulo 2^16. */
  lemma HighOfLow16(position: int)
    ensures High(position % 0x1_0000) == High(position)
    ensures Low(position % 0x1_0000) == Low(position)
  {
    var q := position / 0x1_0000;
    var c := position % 0x1_0000;
    assert position == 0x1_0000 * q + c;
    assert position / 0x100 == 0x100 * q + c / 0x100;
  }

  /**
   * `SetPositions` sends the same parameters as the newer SyncWrite of the
   * AX-12 goal position (address 30, two bytes) for the same ids and values.
   */
  lemma PositionsMatchSyncWrite(ids: seq<uint8>, positions: seq<int>)
    requires |ids| == |positions|
    ensures PositionParameters(ids, positions) == Servos.SyncFieldParameters(InstructionPackets.P1, Servos.Ax12GoalPosition, ids, positions)
  {
    var typed := Servos.TypedIds(ids);
    var packed := Servos.PackedValues(Servos.U16, positions);
    assert typed == ids;
    var records := Instructions.SyncRecordList(typed, packed);
    forall i | 0 <= i < |ids|
      ensures records[i] == PositionRecords(ids, positions)[i]
    {
      var c := Servos.Cast(Servos.U16, positions[i]);
      assert c == positions[i] % 0x1_0000;
      HighOfLow16(positions[i]);
      assert LittleEndian(c / 0x100 / 0x100, 0) == [];
      assert LittleEndian(c, 2) == [Low(c), Low(c / 0x100)];
      assert packed[i] == LittleEndian(c, 2);
    }
    assert records == PositionRecords(ids, positions);
  }

  // ---------------------------------------------------------------- speeds

  /** `speed | (direction << 10)` on a two's-complement `int`: bit 10 set when `direction`. */
  function WithDirection(speed: int, direction: bool): int
  {
    if direction && (speed / CwTurnDirection) % 2 == 0 then speed + CwTurnDirection else speed
  }

  /** The SyncWrite record of one speed: id, `speed & 0xFF`, `(byte_t)((speed | direction << 10) >> 8)`. */
  function SpeedRecord(id: uint8, speed: int, direction: bool): seq<uint8>
  {
    [id, Low(speed), Low(WithDirection(speed, direction) / 0x100)]
  }

  function SpeedRecords(ids: seq<uint8>, speeds: seq<int>, directions: seq<bool>): (r: seq<seq<uint8>>)
    requires |ids| == |speeds| == |directions|
    ensures |r| == |ids|
  {
    seq(|ids|, i requires 0 <= i < |ids| => SpeedRecord(ids[i], speeds[i], directions[i]))
  }

  /** No speed above 1023: what the `CHECK` of every record asks. */
  predicate SpeedsInRange(speeds: seq<int>)
  {
    forall i :: 0 <= i < |speeds| ==> speeds[i] <= SpeedMax
  }

  /** The parameters of `SetSpeeds`, or the error the first speed above 1023 raises. */
  function SpeedParameters(ids: seq<uint8>, speeds: seq<int>, directions: seq<bool>): Result<seq<uint8>>
    requires |ids| == |speeds| == |directions|
  {
    if SpeedsInRange(speeds) then Success([MovingSpeedLo, 2] + Concat(SpeedRecords(ids, speeds, directions)))
    else Failure(Error(OutOfRange))
  }

  /** Every direction counter-clockwise: what the overloads without directions send. */
  function CounterClockwise(n: nat): (r: seq<bool>)
    ensures |r| == n && forall i :: 0 <= i < n ==> !r[i]
  {
    seq(n, _ => false)
  }

  /**
   * For a speed the `CHECK` lets through and is not negative, the record
   * carries the speed in its low 10 bits and the direction in bit 10.
   */
  lemma SpeedRecordValue(id: uint8, speed: int, direction: bool)
    requires 0 <= speed <= SpeedMax
    ensures var r := SpeedRecord(id, speed, direction);
      && r[2] == speed / 0x100 + (if direction then 4 else 0)
      && FromLittleEndian(r[1..]) == speed + (if direction then CwTurnDirection else 0)
  {
    var r := SpeedRecord(id, speed, direction);
    assert r[1..] == [r[1], r[2]];
    FromLittleEndianPair(r[1], r[2]);
  }

  /** `SetSpeed(id, speed, direction)`: a SyncWrite to `id`; a speed above 1023 raises. */
  method SetSpeed(id: uint8, speed: int, direction: bool := false) returns (r: Result<Instruction>)
    ensures r.Success? <==> speed <= SpeedMax
    ensures r.Failure? ==> r.error == Error(OutOfRange)
    ensures r.Success? ==>
      fresh(r.value) && Built(r.value, id, SyncWriteCode, [MovingSpeedLo, 2] + SpeedRecord(id, speed, direction))
  {
    var packet := new Instruction(id, SyncWriteCode);
    var params := [MovingSpeedLo, 2];
    if speed > SpeedMax {
      return Failure(Error(OutOfRange));
    }
    params := params + [id];
    params := params + [Low(speed)];
    var s := WithDirection(speed, direction);
    params := params + [Low(s / 0x100)];
    assert params == [MovingSpeedLo, 2] + SpeedRecord(id, speed, direction);
    packet.RebuildPacket(params);
    return Success(packet);
  }

  /** The record loop of `_set_speeds(speeds, directions)`; the `CHECK` of a record comes before its bytes. */
  method SpeedParametersLoop(ids: seq<uint8>, speeds: seq<int>, directions: seq<bool>) returns (r: Result<seq<uint8>>)
    requires |ids| == |speeds| == |directions|
    ensures r == SpeedParameters(ids, speeds, directions)
  {
    ghost var records := SpeedRecords(ids, speeds, directions);
    var params := [MovingSpeedLo, 2];
    for i := 0 to |ids|
      invariant params == [MovingSpeedLo, 2] + Concat(records[..i])
      invariant forall k :: 0 <= k < i ==> speeds[k] <= SpeedMax
    {
      if speeds[i] > SpeedMax {
        return Failure(Error(OutOfRange));
      }
      ConcatSnoc(records, i);
      params := params + [ids[i]];
      params := params + [Low(speeds[i])];
      var s := WithDirection(speeds[i], directions[i]);
      params := params + [Low(s / 0x100)];
    }
    assert records[..|ids|] == records;
    return Success(params);
  }

  /** The record loop of `_set_speeds(speeds)`: the high byte is `speeds[i] >> 8`, so bit 10 is never added. */
  method CounterClockwiseParametersLoop(ids: seq<uint8>, speeds: seq<int>) returns (r: Result<seq<uint8>>)
    requires |ids| == |speeds|
    ensures r == SpeedParameters(ids, speeds, CounterClockwise(|ids|))
  {
    ghost var records := SpeedRecords(ids, speeds, CounterClockwise(|ids|));
    var params := [MovingSpeedLo, 2];
    for i := 0 to |ids|
      invariant params == [MovingSpeedLo, 2] + Concat(records[..i])
      invariant forall k :: 0 <= k < i ==> speeds[k] <= SpeedMax
    {
      if speeds[i] > SpeedMax {
        return Failure(Error(OutOfRange));
      }
      ConcatSnoc(records, i);
      params := params + [ids[i]];
      params := params + [Low(speeds[i])];
      params := params + [Low(speeds[i] / 0x100)];
    }
    assert records[..|ids|] == records;
    return Success(params);
  }

  /** `SetSpeeds`: a broadcast SyncWrite of moving speeds for a fixed list of ids. */
  class SetSpeeds {
    const ids: seq<uint8>
    const instruction: Instruction

    predicate Valid()
      reads this, instruction, instruction.buffer
    {
      instruction.Valid() && instruction.id == Broadcast && instruction.instruction == SyncWriteCode
    }

    /** The member initialisers of both constructors: `Instruction(broadcast, sync_write)` and `_ids(ids)`. */
    constructor (ids: seq<uint8>)
      ensures this.ids == ids && Valid() && instruction.Holds([])
      ensures fresh(instruction) && fresh(instruction.buffer)
    {
      this.ids := ids;
      instruction := new Instruction(Broadcast, SyncWriteCode);
    }

    /**
     * `set_speeds(speeds, directions)`: the lengths must agree (asserts); a
     * speed above 1023 raises before the packet is rebuilt.
     */
    method Set(speeds: seq<int>, directions: seq<bool>) returns (r: Outcome)
      requires Valid() && |directions| == |ids| && |speeds| == |directions|
      modifies instruction, instruction.buffer
      ensures Valid()
      ensures var p := SpeedParameters(ids, speeds, directions);
        && (r.Pass? <==> p.Success?)
        && (r.Pass? ==> instruction.Holds(p.value))
        && (r.Fail? ==> r.error == p.error && instruction.buffer == old(instruction.buffer)
                        && instruction.buffer[..] == old(instruction.buffer[..]))
      ensures instruction.buffer == old(instruction.buffer) || fresh(instruction.buffer)
    {
      var params := SpeedParametersLoop(ids, speeds, directions);
      if params.Failure? {
        return Fail(params.error);
      }
      instruction.RebuildPacket(params.value);
      return Pass;
    }

    /** `set_speeds(speeds)`: every direction counter-clockwise. */
    method SetCounterClockwise(speeds: seq<int>) returns (r: Outcome)
      requires Valid() && |speeds| == |ids|
      modifies instruction, instruction.buffer
      ensures Valid()
      ensures var p := SpeedParameters(ids, speeds, CounterClockwise(|ids|));
        && (r.Pass? <==> p.Success?)
        && (r.Pass? ==> instruction.Holds(p.value))
        && (r.Fail? ==> r.error == p.error && instruction.buffer == old(instruction.buffer)
                        && instruction.buffer[..] == old(instruction.buffer[..]))
      ensures instruction.buffer == old(instruction.buffer) || fresh(instruction.buffer)
    {
      var params := CounterClockwiseParametersLoop(ids, speeds);
      if params.Failure? {
        return Fail(params.error);
      }
      instruction.RebuildPacket(params.value);
      return Pass;
    }
  }

  /** `SetSpeeds(ids, speeds, directions)`: the constructor raises where `set_speeds` would. */
  method NewSetSpeeds(ids: seq<uint8>, speeds: seq<int>, directions: seq<bool>) returns (r: Result<SetSpeeds>)
    requires |directions| == |ids| && |speeds| == |directions|
    ensures var p := SpeedParameters(ids, speeds, directions);
      && (r.Success? <==> p.Success?)
      && (r.Failure? ==> r.error == p.error)
      && (r.Success? ==> fresh(r.value) && r.value.ids == ids && r.value.Valid() && r.value.instruction.Holds(p.value))
  {
    var s := new SetSpeeds(ids);
    var o := s.Set(speeds, directions);
    if o.Fail? {
      return Failure(o.error);
    }
    return Success(s);
  }

  /** `SetSpeeds(ids, speeds)`. */
  method NewSetSpeedsCounterClockwise(ids: seq<uint8>, speeds: seq<int>) returns (r: Result<SetSpeeds>)
    requires |speeds| == |ids|
    ensures var p := SpeedParameters(ids, speeds, CounterClockwise(|ids|));
      && (r.Success? <==> p.Success?)
      && (r.Failure? ==> r.error == p.error)
      && (r.Success? ==> fresh(r.value) && r.value.ids == ids && r.value.Valid() && r.value.instruction.Holds(p.value))
  {
    var s := new SetSpeeds(ids);
    var o := s.SetCounterClockwise(speeds);
    if o.Fail? {
      return Failure(o.error);
    }
    return Success(s);
  }

  /**
   * The single-servo builders send one record of their multi-servo forms:
   * `SetPosition` the record of `SetPositions`, `SetSpeed` the one of
   * `SetSpeeds`.
   */
  lemma SingleRecordForms(id: uint8, position: int, speed: int, direction: bool)
    ensures [GoalPositionLo, 2, id, Low(position), High(position)] == PositionParameters([id], [position])
    ensures speed <= SpeedMax ==>
      SpeedParameters([id], [speed], [direction]) == Success([MovingSpeedLo, 2] + SpeedRecord(id, speed, direction))
  {
    var positions := PositionRecords([id], [position]);
    assert positions[..0] == [];
    ConcatSnoc(positions, 0);
    assert positions[..1] == positions;
    var speeds := SpeedRecords([id], [speed], [direction]);
    assert speed <= SpeedMax ==> SpeedsInRange([speed]);
    assert speeds[..0] == [];
    ConcatSnoc(speeds, 0);
    assert speeds[..1] == speeds;
    assert Concat(speeds) == SpeedRecord(id, speed, direction);
  }

  // ---------------------------------------------------------------- settings

  /** The angle limits of `SetContinuous`: both 0. */
  const ContinuousParameters: seq<uint8> := [CwAngleLimitLo, 0, 0, 0, 0]
  /** The angle limits of `UnsetContinuous`: cw 0 and ccw 0x3FF. */
  const JointParameters: seq<uint8> := [CwAngleLimitLo, 0, 0, 0xFF, 0x03]

  /** `SetContinuous(id)`: the cw address followed by four zero bytes. */
  method SetContinuous(id: uint8) returns (r: Instruction)
    ensures fresh(r) && Built(r, id, WriteDataCode, ContinuousParameters)
  {
    r := new Instruction(id, WriteDataCode);
    var params := [CwAngleLimitLo];
    for i := 0 to 4
      invariant params == [CwAngleLimitLo] + seq(i, _ => 0)
    {
      params := params + [0];
    }
    assert params == ContinuousParameters;
    r.RebuildPacket(params);
  }

  /** `UnsetContinuous(id)`: the cw address, two zero bytes, then 0xFF and 0x03. */
  method UnsetContinuous(id: uint8) returns (r: Instruction)
    ensures fresh(r) && Built(r, id, WriteDataCode, JointParameters)
  {
    r := new Instruction(id, WriteDataCode);
    var params := [CwAngleLimitLo];
    for i := 0 to 2
      invariant params == [CwAngleLimitLo] + seq(i, _ => 0)
    {
      params := params + [0];
    }
    params := params + [255];
    params := params + [3];
    assert params == JointParameters;
    r.RebuildPacket(params);
  }

  /** The limits `SetContinuous` writes classify as wheel mode, those of `UnsetContinuous` as joint mode. */
  lemma ContinuousModes()
    ensures FromLittleEndian(ContinuousParameters[1..3]) == 0 && FromLittleEndian(ContinuousParameters[3..5]) == 0
    ensures OperatingModes.ModeFromLimits(0, 0) == OperatingModes.Wheel
    ensures FromLittleEndian(JointParameters[1..3]) == 0 && FromLittleEndian(JointParameters[3..5]) == 0x3FF
    ensures OperatingModes.ModeFromLimits(0, 0x3FF) == OperatingModes.Joint
  {
    FromLittleEndianPair(0, 0);
    FromLittleEndianPair(0xFF, 0x03);
    assert ContinuousParameters[1..3] == [0, 0] && ContinuousParameters[3..5] == [0, 0];
    assert JointParameters[1..3] == [0, 0] && JointParameters[3..5] == [0xFF, 0x03];
  }

  /** `TorqueEnable(id, b)`: 1 or 0 at the torque-enable address. */
  method TorqueEnable(id: uint8, b: bool) returns (r: Instruction)
    ensures fresh(r) && Built(r, id, WriteDataCode, [TorqueEnableAddress, if b then 1 else 0])
  {
    r := new Instruction.Two(id, WriteDataCode, TorqueEnableAddress, if b then 1 else 0);
  }

  /** `SetAlarmLed(value)`: broadcast, one byte at 0x11. */
  method SetAlarmLed(value: uint8 := DefaultAlarms) returns (r: Instruction)
    ensures fresh(r) && Built(r, Broadcast, WriteDataCode, [AlarmLedAddress, value])
  {
    r := new Instruction.Two(Broadcast, WriteDataCode, AlarmLedAddress, value);
  }

  /** `SetAlarmShutdown(value)`: broadcast, one byte at 0x12. */
  method SetAlarmShutdown(value: uint8 := DefaultAlarms) returns (r: Instruction)
    ensures fresh(r) && Built(r, Broadcast, WriteDataCode, [AlarmShutdownAddress, value])
  {
    r := new Instruction.Two(Broadcast, WriteDataCode, AlarmShutdownAddress, value);
  }

  /** `GetPosition(id)`: read 2 bytes of present position. */
  method GetPosition(id: uint8) returns (r: Instruction)
    ensures fresh(r) && Built(r, id, ReadDataCode, [PresentPosLo, 2])
  {
    r := ReadData(id, PresentPosLo, 2);
  }

  /** `GetLoad(id)`: read 2 bytes of present load. */
  method GetLoad(id: uint8) returns (r: Instruction)
    ensures fresh(r) && Built(r, id, ReadDataCode, [PresentLoadLo, 2])
  {
    r := ReadData(id, PresentLoadLo, 2);
  }

  /** `GetVoltage(id)`: read 1 byte of present voltage. */
  method GetVoltage(id: uint8) returns (r: Instruction)
    ensures fresh(r) && Built(r, id, ReadDataCode, [PresentVoltage, 1])
  {
    r := ReadData(id, PresentVoltage, 1);
  }

  /** `ChangeBaudRate(baudrate)`: broadcast, the code at the baud-rate address. */
  method ChangeBaudRate(baudrate: uint8) returns (r: Instruction)
    ensures fresh(r) && Built(r, Broadcast, WriteDataCode, [BaudrateAddress, baudrate])
  {
    r := new Instruction.Two(Broadcast, WriteDataCode, BaudrateAddress, baudrate);
  }

  /** `ChangeId(old_id, new_id)`: sent to the old id, the new id at the id address. */
  method ChangeId(oldId: uint8, newId: uint8) returns (r: Instruction)
    ensures fresh(r) && Built(r, oldId, WriteDataCode, [IdAddress, newId])
  {
    r := new Instruction.Two(oldId, WriteDataCode, IdAddress, newId);
  }

  /** `SetMaxTorque(id, torque)`: a one-record SyncWrite to `id` at the torque-limit address. */
  method SetMaxTorque(id: uint8, torque: int) returns (r: Instruction)
    ensures fresh(r) && Built(r, id, SyncWriteCode, [TorqueLimitLo, 2, id, Low(torque), High(torque)])
  {
    r := new Instruction(id, SyncWriteCode);
    var params := [TorqueLimitLo, 2, id, Low(torque), High(torque)];
    r.RebuildPacket(params);
  }
}

/**
 * `operating_mode<Controller, Protocol>(controller, id)`: how a servo is set up to
 * move, read from its control table.
 */
module OperatingModes {
  import opened Bytes
  import opened Errors
  import opened InstructionPackets
  import opened Instructions
  import Protocol1
  import Protocol2

  datatype OperatingMode = Torque | Wheel | Joint | MultiTurn | Unknown

  /**
   * The bus seen from one request: the parameters of the valid status packet the
   * controller receives after sending the packet, or `None` when `recv` fails.
   */
  type Bus = InstructionPacket -> Option<seq<uint8>>

  /** Protocol 1 classification from the clockwise and counter-clockwise angle limits. */
  function ModeFromLimits(cw: uint16, ccw: uint16): (r: OperatingMode)
    ensures r == Wheel <==> cw == 0 && ccw == 0
    ensures r == MultiTurn <==> cw == 4095 && ccw == 4095
    ensures r != Torque && r != Unknown
  {
    if cw == 0 && ccw == 0 then Wheel
    else if cw == 4095 && ccw == 4095 then MultiTurn
    else Joint
  }

  /** Protocol 2 classification from the operating-mode byte. */
  function ModeFromByte(mode: uint8): (r: OperatingMode)
    ensures r == Torque <==> mode == 0
    ensures r == Wheel <==> mode == 1
    ensures r == Joint <==> mode == 3
    ensures r == MultiTurn <==> mode == 4
    ensures r == Unknown <==> mode !in {0, 1, 3, 4}
  {
    if mode == 0 then Torque
    else if mode == 1 then Wheel
    else if mode == 3 then Joint
    else if mode == 4 then MultiTurn
    else Unknown
  }

  /** The Protocol 1 requests: two bytes at address 6 (clockwise limit), then at address 8. */
  function ClockwiseLimitRequest(id: uint8): InstructionPacket
  {
    ReadPacket(P1, id, 6, 2)
  }

  function CounterClockwiseLimitRequest(id: uint8): InstructionPacket
  {
    ReadPacket(P1, id, 8, 2)
  }

  /** The Protocol 2 request: one byte at address 11. */
  function ModeRequest(id: uint8): InstructionPacket
  {
    ReadPacket(P2, id, 11, 1)
  }

  /**
   * `operating_mode_impl` for Protocol 1: a missing reply is an Error, a reply
   * that is not two bytes is the UnpackError of `unpack_data`.
   */
  function OperatingMode1(bus: Bus, id: uint8): Result<OperatingMode>
  {
    var cwReply := bus(ClockwiseLimitRequest(id));
    if cwReply.None? then Failure(Error(NoResponse))
    else
      var cw :- Protocol1.UnpackData16(cwReply.value);
      var ccwReply := bus(CounterClockwiseLimitRequest(id));
      if ccwReply.None? then Failure(Error(NoResponse))
      else
        var ccw :- Protocol1.UnpackData16(ccwReply.value);
        Success(ModeFromLimits(cw, ccw))
  }

  /** `operating_mode_impl` for Protocol 2; `unpack_data` asserts that the reply is not empty. */
  function OperatingMode2(bus: Bus, id: uint8): Result<OperatingMode>
    requires bus(ModeRequest(id)).Some? ==> |bus(ModeRequest(id)).value| > 0
  {
    var reply := bus(ModeRequest(id));
    if reply.None? then Failure(Error(NoResponse))
    else Success(ModeFromByte(Protocol2.UnpackData8(reply.value)))
  }

  /** `operating_mode`: the implementation is selected by the protocol alone. */
  function OperatingModeOf(protocol: Protocol, bus: Bus, id: uint8): Result<OperatingMode>
    requires protocol.P2? && bus(ModeRequest(id)).Some? ==> |bus(ModeRequest(id)).value| > 0
  {
    if protocol.P1? then OperatingMode1(bus, id) else OperatingMode2(bus, id)
  }

  /** The two limits read back from a servo that reports them packed are classified as they are. */
  lemma OperatingMode1Reads(bus: Bus, id: uint8, cw: uint16, ccw: uint16)
    requires bus(ClockwiseLimitRequest(id)) == Some(Protocol1.PackData16(cw))
    requires bus(CounterClockwiseLimitRequest(id)) == Some(Protocol1.PackData16(ccw))
    ensures OperatingMode1(bus, id) == Success(ModeFromLimits(cw, ccw))
  {
    Protocol1.UnpackPack16(cw);
    Protocol1.UnpackPack16(ccw);
  }

  /** No mode is returned when either limit does not come back, or comes back at the wrong width. */
  lemma OperatingMode1Failures(bus: Bus, id: uint8, cw: uint16)
    ensures bus(ClockwiseLimitRequest(id)).None? ==> OperatingMode1(bus, id) == Failure(Error(NoResponse))
    ensures bus(ClockwiseLimitRequest(id)) == Some(Protocol1.PackData16(cw)) && bus(CounterClockwiseLimitRequest(id)).None?
        ==> OperatingMode1(bus, id) == Failure(Error(NoResponse))
    ensures var reply := bus(ClockwiseLimitRequest(id));
      reply.Some? && |reply.value| != 2 ==> OperatingMode1(bus, id) == Failure(UnpackError(1, |reply.value|, 2))
  {
    Protocol1.UnpackPack16(cw);
  }

  /** The mode byte read back is classified as it is, and a missing reply is an Error. */
  lemma OperatingMode2Reads(bus: Bus, id: uint8, mode: uint8)
    ensures bus(ModeRequest(id)) == Some(Protocol2.PackData8(mode)) ==> OperatingMode2(bus, id) == Success(ModeFromByte(mode))
    ensures bus(ModeRequest(id)).None? ==> OperatingMode2(bus, id) == Failure(Error(NoResponse))
  {
    Protocol2.UnpackPack8(mode);
  }

  /** The requests read the registers named in the control tables, at their widths. */
  lemma Requests(id: uint8)
    ensures ClockwiseLimitRequest(id).Parameters() == [6, 2]
    ensures CounterClockwiseLimitRequest(id).Parameters() == [8, 2]
    ensures ModeRequest(id).Parameters() == [11, 0, 1, 0]
    ensures ClockwiseLimitRequest(id).Id() == id && ModeRequest(id).Instruction() == 0x02
  {
  }
}

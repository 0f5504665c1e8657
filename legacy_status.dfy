/**
 * The first status decoder of the library: a `Status` object whose `_id`,
 * `_length` and `_params` are set by `decode_packet` from a raw buffer.
 * The check on the buffer size is corrected here from 5 to 6 bytes
 * (`FiveByteStatusOverruns`); everything else follows the source.
 */
module LegacyStatus {
  import opened Bytes
  import opened Errors
  import Protocol1
  import LegacyProtocol1
  import LegacyInstructions

  /** The size guard as written: "5 is the size of the smallest packets". */
  const MinSizeAsWritten: int := 5
  /** The smallest status packet: FF FF, id, length, error and checksum. */
  const MinSize: int := 6

  /** A status packet reports an overload: bit 5 of the error byte. */
  predicate Overload(error: uint8)
  {
    (error / 32) % 2 == 1
  }

  /**
   * `decode_packet` reaches its parameter loop: the buffer passes the size
   * guard, starts with FF FF and carries a length byte of size - 4.
   */
  predicate ReachesParameters(buffer: seq<uint8>, size: int, minSize: int)
    requires size <= |buffer|
    requires minSize >= 4
  {
    size >= minSize && buffer[0] == 0xFF && buffer[1] == 0xFF && buffer[3] == size - 4
  }

  /** The bound of the parameter loop as written: `_length - 2` converted to `size_t`. */
  function ParameterCountAsWritten(length: int): (r: nat)
    ensures r < 0x1_0000_0000_0000_0000
    ensures length >= 2 && length - 2 < 0x1_0000_0000_0000_0000 ==> r == length - 2
    ensures length == 1 ==> r == 0xFFFF_FFFF_FFFF_FFFF
  {
    (length - 2) % 0x1_0000_0000_0000_0000
  }

  /**
   * As written, the five-byte buffer FF FF id 01 e passes every check before
   * the parameter loop, whose bound wraps around to 2^64 - 1: the loop reads
   * past the end of the buffer.
   */
  lemma FiveByteStatusOverruns(id: uint8, error: uint8)
    ensures var buffer := [0xFF, 0xFF, id, 1, error];
      && ReachesParameters(buffer, |buffer|, MinSizeAsWritten)
      && 5 + ParameterCountAsWritten(buffer[3]) > |buffer|
  {
  }

  /**
   * With the corrected guard, a buffer that reaches the parameter loop has a
   * length byte of at least 2 and the loop stops right before the checksum.
   */
  lemma ParametersFit(buffer: seq<uint8>, size: int)
    requires size <= |buffer| && ReachesParameters(buffer, size, MinSize)
    ensures buffer[3] >= 2
    ensures ParameterCountAsWritten(buffer[3]) == buffer[3] - 2
    ensures 5 + ParameterCountAsWritten(buffer[3]) == size - 1
  {
  }

  /** The return value (or exception) of `decode_packet` and the three fields afterwards. */
  datatype Decoded = Decoded(result: Result<bool>, id: int, length: int, params: seq<uint8>)

  /** `decode_packet(packet, packet_size)` with the corrected size guard, from the fields before the call. */
  function Decode(buffer: seq<uint8>, size: int, id: int, length: int, params: seq<uint8>): Decoded
    requires size <= |buffer|
  {
    if size < MinSize then Decoded(Success(false), id, length, params)
    else if buffer[0] != 0xFF || buffer[1] != 0xFF then Decoded(Failure(Error(BadHeader)), id, length, params)
    else if buffer[3] != size - 4 then Decoded(Success(false), -1, -1, params)
    else
      var received := buffer[5..5 + buffer[3] as int - 2];
      if Protocol1.ChecksumOf(buffer[..size]) != buffer[size - 1] then
        Decoded(Failure(Error(ChecksumMismatch)), buffer[2], buffer[3], received)
      else if buffer[4] != 0 && !Overload(buffer[4]) then
        Decoded(Failure(Error(StatusReported)), buffer[2], buffer[3], received)
      else Decoded(Success(true), buffer[2], buffer[3], received)
  }

  class Status {
    var id: int
    var length: int
    var params: seq<uint8>

    /** `Status()`: no packet yet, id and length -1. */
    constructor ()
      ensures id == -1 && length == -1 && params == []
    {
      id := -1;
      length := -1;
      params := [];
    }

    /** `decode_packet(packet, packet_size)`; false when the packet is not complete. */
    method DecodePacket(packet: array<uint8>, size: int) returns (r: Result<bool>)
      requires size <= packet.Length
      modifies this
      ensures Decoded(r, id, length, params) == Decode(packet[..], size, old(id), old(length), old(params))
    {
      if size < MinSize {
        return Success(false);
      }
      if packet[0] != 0xFF || packet[1] != 0xFF {
        return Failure(Error(BadHeader));
      }
      id := packet[2];
      length := packet[3];
      if length != size - 4 {
        length := -1;
        id := -1;
        return Success(false);
      }
      var error := packet[4];
      params := [];
      for i := 0 to length - 2
        invariant id == packet[2] && length == packet[3]
        invariant params == packet[5..5 + i]
      {
        params := params + [packet[5 + i]];
      }
      assert params == packet[..][5..5 + packet[3] as int - 2];
      var checksum := LegacyInstructions.ComputeChecksum(packet, size);
      if checksum != packet[size - 1] {
        return Failure(Error(ChecksumMismatch));
      }
      if error != 0 {
        if Overload(error) {
          return Success(true);
        }
        return Failure(Error(StatusReported));
      }
      return Success(true);
    }

    /** `get_id()`: the id as a byte; -1 (no packet) reads as 0xFF. */
    function GetId(): (r: uint8)
      reads this
      ensures 0 <= id < 0x100 ==> r == id
      ensures id == -1 ==> r == 0xFF
    {
      Low(id)
    }

    /** `get_length()`: the length as a byte; -1 (no packet) reads as 0xFF. */
    function GetLength(): (r: uint8)
      reads this
      ensures 0 <= length < 0x100 ==> r == length
      ensures length == -1 ==> r == 0xFF
    {
      Low(length)
    }

    /** `get_params()`. */
    function GetParams(): seq<uint8>
      reads this
    {
      params
    }

    /** `decode16()`: `(params[1] << 8) | params[0]`, the first two parameters low byte first. */
    function Decode16(): (r: int)
      reads this
      requires |params| >= 2
      ensures r == FromLittleEndian(params[..2])
    {
      FromLittleEndianPair(params[0], params[1]);
      assert params[..2] == [params[0], params[1]];
      params[1] as int * 0x100 + params[0] as int
    }
  }

  /**
   * `Status(packet, packet_size)`: decodes into a new object and raises when
   * `decode_packet` returns false. The source leaves the fields uninitialised;
   * every successful decode overwrites all three.
   */
  method FromBuffer(packet: array<uint8>, size: int) returns (r: Result<Status>)
    requires size <= packet.Length
    ensures var d := Decode(packet[..], size, -1, -1, []);
      && (r.Success? <==> d.result == Success(true))
      && (r.Success? ==> fresh(r.value) && r.value.id == d.id && r.value.length == d.length && r.value.params == d.params)
      && (r.Failure? ==> r.error == if d.result == Success(false) then Error(NotValid) else d.result.error)
  {
    var status := new Status();
    var decoded := status.DecodePacket(packet, size);
    if decoded.Failure? {
      return Failure(decoded.error);
    }
    if !decoded.value {
      return Failure(Error(NotValid));
    }
    return Success(status);
  }

  /**
   * `decode_packet` returns false exactly for a buffer below 6 bytes or one
   * with a good header and a length byte other than size - 4; the first
   * leaves every field alone, the second resets id and length to -1. A bad
   * header leaves every field alone too.
   */
  lemma DecodeIncomplete(buffer: seq<uint8>, size: int, id: int, length: int, params: seq<uint8>)
    requires size <= |buffer|
    ensures var d := Decode(buffer, size, id, length, params);
      && (d.result == Success(false) <==>
            size < MinSize || (buffer[0] == 0xFF && buffer[1] == 0xFF && buffer[3] != size - 4))
      && (size < MinSize ==> d == Decoded(Success(false), id, length, params))
      && (d.result == Success(false) && size >= MinSize ==> d == Decoded(Success(false), -1, -1, params))
      && (d.result == Failure(Error(BadHeader)) ==> d.id == id && d.length == length && d.params == params)
  {
  }

  /**
   * `decode_packet` returns true exactly for a complete packet whose checksum
   * matches and whose error byte is 0 or has the overload bit; every other
   * non-zero error byte raises. Once the length check passes, the fields are
   * byte 2, byte 3 and the bytes between the error byte and the checksum,
   * whatever happens next.
   */
  lemma DecodeAccepts(buffer: seq<uint8>, size: int, id: int, length: int, params: seq<uint8>)
    requires size <= |buffer|
    ensures var d := Decode(buffer, size, id, length, params);
      && (d.result == Success(true) <==>
            ReachesParameters(buffer, size, MinSize)
            && Protocol1.ChecksumOf(buffer[..size]) == buffer[size - 1]
            && (buffer[4] == 0 || Overload(buffer[4])))
      && (ReachesParameters(buffer, size, MinSize) ==>
            d.id == buffer[2] && d.length == buffer[3] && d.params == buffer[5..size - 1])
  {
  }

  /**
   * Round trip: a packet laid out by the encoder with error byte 0 decodes to
   * its id, its length byte and its parameters.
   */
  lemma DecodePacketRoundTrip(id: uint8, parameters: seq<uint8>, id0: int, length0: int, params0: seq<uint8>)
    requires |parameters| <= 253
    ensures var p := Protocol1.Packet(id, 0, parameters);
      Decode(p, |p|, id0, length0, params0) == Decoded(Success(true), id, |parameters| + 2, parameters)
  {
    var p := Protocol1.Packet(id, 0, parameters);
    Protocol1.PacketLayout(id, 0, parameters);
    Protocol1.PacketChecksum(id, 0, parameters);
    assert p[..|p|] == p;
  }

  /**
   * The two first decoders agree on a packet with error byte 0: `Status`
   * returns true exactly when `unpack_status` does, with the same id and
   * parameters.
   */
  lemma DecodersAgree(buffer: seq<uint8>, id: uint8, params: seq<uint8>)
    requires |buffer| >= MinSize && buffer[4] == 0
    ensures var d := Decode(buffer, |buffer|, id, -1, params);
      var u := LegacyProtocol1.Unpack(buffer, id, params);
      && (d.result == Success(true) <==> u.result == Success(true))
      && (d.result == Success(true) ==> d.id == u.id && d.params == u.parameters)
  {
    assert buffer[..|buffer|] == buffer;
  }

  /** `decode16` undoes the first codec's `pack_data(uint16_t)`. */
  lemma Decode16PackData16(status: Status, v: uint16)
    requires |status.params| >= 2 && status.params[..2] == LegacyProtocol1.PackData16(v)
    ensures status.Decode16() == v
  {
  }
}

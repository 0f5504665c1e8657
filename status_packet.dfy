/**
 * `StatusPacket<Protocol>`: a reply received on the bus, decoded in place. It is
 * modelled over the Protocol 1 decoder, whose `length` out-parameter is a local
 * of `decode_packet`.
 */
module StatusPackets {
  import opened Bytes
  import opened Errors
  import opened Protocol1

  /** The observable fields of a status packet. */
  datatype Fields = Fields(valid: bool, id: uint8, parameters: seq<uint8>)

  /** The fields after `decode_packet(packet, report)`, and what the call returns. */
  datatype Decoded = Decoded(state: Result<DecodeState>, fields: Fields)

  /**
   * One decode: the decoder rewrites the id and (on DONE) the parameters through its
   * reference arguments, and the packet becomes valid when the state is DONE.
   */
  function Decode(fields: Fields, packet: seq<uint8>, report: bool): (r: Decoded)
    ensures r.fields.valid <==> fields.valid || r.state == Success(Done)
    ensures r.state == Unpack(packet, fields.id, fields.parameters, 0, report).state
  {
    var u := Unpack(packet, fields.id, fields.parameters, 0, report);
    Decoded(u.state, Fields(fields.valid || u.state == Success(Done), u.id, u.parameters))
  }

  /** Decoding several packets in turn, as a reader does until it gets a reply. */
  function DecodeAll(fields: Fields, packets: seq<seq<uint8>>, report: bool): Fields
    decreases |packets|
  {
    if packets == [] then fields
    else DecodeAll(Decode(fields, packets[0], report).fields, packets[1..], report)
  }

  /** Validity is sticky: once a packet decoded to DONE, no later decode clears it. */
  lemma {:induction false} StickyValid(fields: Fields, packets: seq<seq<uint8>>, report: bool)
    requires fields.valid
    ensures DecodeAll(fields, packets, report).valid
    decreases |packets|
  {
    if packets != [] {
      StickyValid(Decode(fields, packets[0], report).fields, packets[1..], report);
    }
  }

  /** A status packet is valid after a sequence of decodes exactly when it was valid before or one of them was DONE. */
  lemma {:induction false} ValidAfter(fields: Fields, packets: seq<seq<uint8>>, report: bool)
    ensures DecodeAll(fields, packets, report).valid
        <==> fields.valid || exists k :: 0 <= k < |packets| && DoneAt(fields, packets, report, k)
    decreases |packets|
  {
    if packets != [] {
      var next := Decode(fields, packets[0], report).fields;
      ValidAfter(next, packets[1..], report);
      if next.valid && !fields.valid {
        assert DoneAt(fields, packets, report, 0);
      }
      forall k | 0 <= k < |packets| - 1
        ensures DoneAt(next, packets[1..], report, k) <==> DoneAt(fields, packets, report, k + 1)
      {
        assert packets[1..][..k] == packets[1..k + 1];
        assert packets[..k + 1] == [packets[0]] + packets[1..k + 1];
        assert DecodeAll(fields, packets[..k + 1], report) == DecodeAll(next, packets[1..k + 1], report) by {
          assert packets[..k + 1][0] == packets[0];
          assert packets[..k + 1][1..] == packets[1..k + 1];
        }
      }
      if exists k :: 0 <= k < |packets| && DoneAt(fields, packets, report, k) {
        var k :| 0 <= k < |packets| && DoneAt(fields, packets, report, k);
        if k > 0 {
          assert DoneAt(next, packets[1..], report, k - 1);
        } else {
          assert packets[..0] == [];
          StickyValid(next, packets[1..], report);
        }
      }
    }
  }

  /** The `k`-th decode of the sequence returns DONE. */
  predicate DoneAt(fields: Fields, packets: seq<seq<uint8>>, report: bool, k: nat)
    requires k < |packets|
  {
    Decode(DecodeAll(fields, packets[..k], report), packets[k], report).state == Success(Done)
  }

  class StatusPacket {
    var valid: bool
    var id: uint8
    var parameters: seq<uint8>

    function State(): Fields
      reads this
    {
      Fields(valid, id, parameters)
    }

    /** A fresh status packet is not valid and has no parameters. */
    constructor()
      ensures !valid && parameters == []
    {
      valid := false;
      id := 0;
      parameters := [];
    }

    /** `valid()`. */
    function IsValid(): (r: bool)
      reads this
      ensures r <==> State().valid
    {
      valid
    }

    /** `id()`: an Error while the packet is not valid. */
    function Id(): (r: Result<uint8>)
      reads this
      ensures r.Success? <==> valid
      ensures r.Failure? ==> r.error == Error(NotValid)
      ensures r.Success? ==> r.value == id
    {
      if !valid then Failure(Error(NotValid)) else Success(id)
    }

    /** `parameters()`: an Error while the packet is not valid. */
    function Parameters(): (r: Result<seq<uint8>>)
      reads this
      ensures r.Success? <==> valid
      ensures r.Failure? ==> r.error == Error(NotValid)
      ensures r.Success? ==> r.value == parameters
    {
      if !valid then Failure(Error(NotValid)) else Success(parameters)
    }

    /**
     * `decode_packet(packet, report_bad_packet)`: the decoder writes the id and
     * parameters in place, and the packet becomes valid on DONE. An exception
     * leaves the fields as the decoder had written them.
     */
    method DecodePacket(packet: seq<uint8>, report: bool) returns (state: Result<DecodeState>)
      modifies this
      ensures Decoded(state, State()) == Decode(old(State()), packet, report)
    {
      var length: uint8 := 0;
      var newId, newParameters, newLength;
      state, newId, newParameters, newLength := UnpackStatus(packet, id, parameters, length, report);
      id, parameters := newId, newParameters;
      if state == Success(Done) {
        valid := true;
      }
    }
  }
}

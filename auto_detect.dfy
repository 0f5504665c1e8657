/**
 * `auto_detect.hpp`: the model-number dispatch `get_servo` and the scan that
 * pings every id below the broadcast id and instantiates a servo for each
 * one that answers.
 */
module AutoDetect {
  import opened Bytes
  import opened Errors
  import opened InstructionPackets
  import opened Instructions
  import opened Servos

  /**
   * The servo classes `get_servo` instantiates whose model number the source
   * gives: Mx12, Mx106 and ProL4210S300 take theirs from the `models/`
   * control tables of the same servos.
   */
  datatype ServoKind =
    | Ax12 | Mx12 | Mx28 | Mx64 | Mx106
    | Xl320 | ProL4210S300 | ProL5450S290

  /** `CT::model_number_value` of each class. */
  function ModelNumber(kind: ServoKind): uint16
  {
    match kind
    case Ax12 => 12
    case Mx12 => 360
    case Mx28 => 29
    case Mx64 => 310
    case Mx106 => 356
    case Xl320 => 350
    case ProL4210S300 => 35072
    case ProL5450S290 => 38176
  }

  /** The classes `BaseServo<Protocol>` of a protocol has. */
  predicate SpeaksProtocol(kind: ServoKind, protocol: Protocol)
  {
    if protocol.P1? then kind in {Ax12, Mx12, Mx28, Mx64, Mx106} else kind in {Xl320, ProL4210S300, ProL5450S290}
  }

  /** `get_servo(id, model)` of the protocol: the class whose model number is `model`. */
  function GetServo(protocol: Protocol, model: uint16): (r: Result<ServoKind>)
    ensures r.Failure? ==> r.error == Error(UnrecognizedModel)
  {
    match protocol
    case P1 =>
      if model == 12 then Success(Ax12)
      else if model == 360 then Success(Mx12)
      else if model == 29 then Success(Mx28)
      else if model == 310 then Success(Mx64)
      else if model == 356 then Success(Mx106)
      else Failure(Error(UnrecognizedModel))
    case P2 =>
      if model == 350 then Success(Xl320)
      else if model == 35072 then Success(ProL4210S300)
      else if model == 38176 then Success(ProL5450S290)
      else Failure(Error(UnrecognizedModel))
  }

  /** `get_servo` finds a class exactly when one of the protocol has that model number, and it is that class. */
  lemma GetServoInverse(protocol: Protocol, model: uint16, kind: ServoKind)
    ensures GetServo(protocol, model) == Success(kind) <==>
      SpeaksProtocol(kind, protocol) && ModelNumber(kind) == model
  {
  }

  /** `get_servo` recognises a number only when some class of the protocol carries it. */
  lemma GetServoRecognises(protocol: Protocol, model: uint16)
    ensures GetServo(protocol, model).Success? <==>
      exists kind :: SpeaksProtocol(kind, protocol) && ModelNumber(kind) == model
  {
    if GetServo(protocol, model).Success? {
      GetServoInverse(protocol, model, GetServo(protocol, model).value);
    } else {
      forall kind | SpeaksProtocol(kind, protocol)
        ensures ModelNumber(kind) != model
      {
        GetServoInverse(protocol, model, kind);
      }
    }
  }

  /** What a decoded status packet gives back: its id and parameters. */
  datatype Reply = Reply(id: uint8, parameters: seq<uint8>)

  /**
   * The controller seen from the scan: `send(packet)` followed by
   * `recv(status)`; `None` where `recv` returns false.
   */
  type Link = InstructionPacket -> Option<Reply>

  /** The model-number read of the scan: `Read(id, 0, 2)`. */
  function ModelRead(protocol: Protocol, id: uint8): InstructionPacket
  {
    ReadPacket(protocol, id, 0, 2)
  }

  /**
   * What Protocol 2's `unpack_data` asserts of a reply to the model-number
   * read: exactly two parameters.
   */
  predicate ReplyFits(protocol: Protocol, read: Option<Reply>)
  {
    protocol.P2? && read.Some? ==> |read.value.parameters| == 2
  }

  /**
   * One iteration of the scan, given the reply to the ping and the reply to
   * the model-number read: the ping is answered by the same id, the read is
   * answered, its parameters unpack to a 16-bit number and `get_servo`
   * recognises it. Every error ends the iteration.
   */
  function Probe(protocol: Protocol, id: uint8, ping: Option<Reply>, read: Option<Reply>): (r: Result<ServoKind>)
    requires ReplyFits(protocol, read)
  {
    match ping
    case None => Failure(Error(NoResponse))
    case Some(pong) =>
      if pong.id != id then Failure(Error(NoResponse))
      else
        match read
        case None => Failure(Error(NoResponse))
        case Some(model) =>
          var number :- ParseField(protocol, U16, Success(model.parameters));
          GetServo(protocol, number)
  }

  /**
   * A probe succeeds exactly for a servo that answered the ping under its own
   * id and sent back two bytes, low byte first, that `get_servo` recognises.
   */
  lemma ProbeAnswered(protocol: Protocol, id: uint8, ping: Option<Reply>, read: Option<Reply>)
    requires ReplyFits(protocol, read)
    ensures Probe(protocol, id, ping, read).Success? <==>
      && ping.Some? && ping.value.id == id && read.Some?
      && var p := read.value.parameters;
        |p| == 2 && GetServo(protocol, p[0] as int + 0x100 * p[1] as int).Success?
    ensures Probe(protocol, id, ping, read).Success? ==>
      var p := read.value.parameters;
      Probe(protocol, id, ping, read) == GetServo(protocol, p[0] as int + 0x100 * p[1] as int)
  {
    if ping.Some? && ping.value.id == id && read.Some? && protocol.P1? {
      ParseFieldWidth(U16, read.value.parameters);
    }
  }

  /** A servo found by the scan: its id and its class. */
  datatype Detected = Detected(id: uint8, kind: ServoKind)

  /** The servos found from the outcomes of the probes of ids `0 .. |probes| - 1`, in order. */
  function Found(probes: seq<Result<ServoKind>>): seq<Detected>
    requires |probes| <= 0x100
  {
    if probes == [] then []
    else
      var id: uint8 := |probes| - 1;
      Found(probes[..id]) +
      match probes[id]
      case Success(kind) => [Detected(id, kind)]
      case Failure(_) => []
  }

  /** The ids found are below `|probes|` and strictly increasing (so sorted and without repeats). */
  lemma {:induction false} FoundSorted(probes: seq<Result<ServoKind>>)
    requires |probes| <= 0x100
    ensures forall k :: 0 <= k < |Found(probes)| ==> Found(probes)[k].id < |probes|
    ensures forall j, k :: 0 <= j < k < |Found(probes)| ==> Found(probes)[j].id < Found(probes)[k].id
  {
    if probes != [] {
      FoundSorted(probes[..|probes| - 1]);
    }
  }

  /**
   * An id is among those found exactly when its probe succeeded, and it is
   * found with the class that probe gave.
   */
  lemma {:induction false} FoundExactly(probes: seq<Result<ServoKind>>, id: nat)
    requires |probes| <= 0x100
    ensures (exists k :: 0 <= k < |Found(probes)| && Found(probes)[k].id == id) <==>
      id < |probes| && probes[id].Success?
    ensures forall k :: 0 <= k < |Found(probes)| && Found(probes)[k].id == id ==>
      probes[id] == Success(Found(probes)[k].kind)
  {
    if probes != [] {
      var n := |probes| - 1;
      var front := probes[..n];
      FoundExactly(front, id);
      FoundSorted(front);
      var before := Found(front);
      var found := Found(probes);
      assert found[..|before|] == before;
      forall k | 0 <= k < |before|
        ensures found[k] == before[k]
      {
      }
      if id < n {
        assert probes[id] == front[id];
      }
      if id == n && probes[id].Success? {
        assert found[|before|].id == id;
      }
    }
  }

  /** One more probe appends at most the servo it found. */
  lemma FoundSnoc(probes: seq<Result<ServoKind>>, id: nat)
    requires id < |probes| <= 0x100
    ensures Found(probes[..id + 1]) ==
      Found(probes[..id]) + if probes[id].Success? then [Detected(id, probes[id].value)] else []
  {
    assert probes[..id + 1][..id] == probes[..id];
  }

  /**
   * What Protocol 2's `unpack_data` asserts of every reply to a model-number
   * read on the link.
   */
  predicate RepliesFit(protocol: Protocol, link: Link)
  {
    forall id: uint8 :: ReplyFits(protocol, link(ModelRead(protocol, id)))
  }

  /** The probe of `id` over the link: the replies to `Ping(id)` and to `Read(id, 0, 2)`. */
  function ProbeOver(protocol: Protocol, link: Link, id: uint8): Result<ServoKind>
    requires RepliesFit(protocol, link)
  {
    Probe(protocol, id, link(PingPacket(protocol, id)), link(ModelRead(protocol, id)))
  }

  /** The outcome of the probe of every id below the broadcast id. */
  function Probes(protocol: Protocol, link: Link): (r: seq<Result<ServoKind>>)
    requires RepliesFit(protocol, link)
    ensures |r| == BroadcastId(protocol)
    ensures forall id: uint8 :: id < |r| ==> r[id] == ProbeOver(protocol, link, id)
  {
    seq(BroadcastId(protocol), id requires 0 <= id < BroadcastId(protocol) => ProbeOver(protocol, link, id))
  }

  /**
   * `auto_detect<Protocol>(controller)`: probe every id from 0 up to, but not
   * including, the broadcast id; append a servo for each probe that succeeds
   * and go on to the next id after any error.
   */
  method Scan(protocol: Protocol, link: Link) returns (res: seq<Detected>)
    requires RepliesFit(protocol, link)
    ensures res == Found(Probes(protocol, link))
  {
    var probes := Probes(protocol, link);
    res := Collect(probes);
  }

  /** The loop of `auto_detect` over the probe outcomes of ids 0 .. |probes| - 1. */
  method Collect(probes: seq<Result<ServoKind>>) returns (res: seq<Detected>)
    requires |probes| <= 0x100
    ensures res == Found(probes)
  {
    res := [];
    var id := 0;
    while id < |probes|
      invariant 0 <= id <= |probes|
      invariant res == Found(probes[..id])
    {
      var probe := probes[id];
      FoundSnoc(probes, id);
      if probe.Success? {
        res := res + [Detected(id, probe.value)];
      }
      id := id + 1;
    }
    assert probes[..id] == probes;
  }

  /** The scan never reaches the broadcast id 0xFE. */
  lemma ScanSkipsBroadcast(protocol: Protocol, link: Link)
    requires RepliesFit(protocol, link)
    ensures forall k :: 0 <= k < |Found(Probes(protocol, link))| ==> Found(Probes(protocol, link))[k].id < 0xFE
  {
    FoundSorted(Probes(protocol, link));
  }
}

/** `get_baudrate_id<Protocol>`: the servo's code for a serial baud rate. */
module Baudrates {
  import opened Bytes
  import opened Errors
  import opened InstructionPackets

  /** The template for a protocol without a table: it always fails. */
  function GenericBaudrateId(baudrate: uint32): (r: Result<uint8>)
    ensures r.Failure? && r.error.Error? && r.error.reason == NoBaudrateTable
  {
    Failure(Error(NoBaudrateTable))
  }

  /** The Protocol 1 switch. */
  function BaudrateId1(baudrate: uint32): Result<uint8>
  {
    match baudrate
    case 9600 => Success(207)
    case 19200 => Success(103)
    case 57600 => Success(34)
    case 115200 => Success(16)
    case 200000 => Success(9)
    case 250000 => Success(7)
    case 400000 => Success(4)
    case 500000 => Success(3)
    case 1000000 => Success(1)
    case _ => Failure(Error(InvalidBaudrate))
  }

  /** The Protocol 2 switch. */
  function BaudrateId2(baudrate: uint32): Result<uint8>
  {
    match baudrate
    case 9600 => Success(0)
    case 57600 => Success(1)
    case 115200 => Success(2)
    case 1000000 => Success(3)
    case 2000000 => Success(4)
    case 3000000 => Success(5)
    case 4000000 => Success(6)
    case 4500000 => Success(7)
    case 10500000 => Success(8)
    case _ => Failure(Error(InvalidBaudrate))
  }

  /** The specialisation chosen by the protocol. */
  function BaudrateId(protocol: Protocol, baudrate: uint32): Result<uint8>
  {
    if protocol.P1? then BaudrateId1(baudrate) else BaudrateId2(baudrate)
  }

  /** The rates each table knows, slowest first. */
  const Rates1: seq<uint32> := [9600, 19200, 57600, 115200, 200000, 250000, 400000, 500000, 1000000]
  const Rates2: seq<uint32> := [9600, 57600, 115200, 1000000, 2000000, 3000000, 4000000, 4500000, 10500000]

  /** The Protocol 1 codes, in the order of `Rates1`. */
  const Codes1: seq<uint8> := [207, 103, 34, 16, 9, 7, 4, 3, 1]

  /** Exactly the rates of the table are accepted; every other rate is an invalid-baud-rate Error. */
  lemma BaudrateDomain(protocol: Protocol, baudrate: uint32)
    ensures var rates := if protocol.P1? then Rates1 else Rates2;
      && (BaudrateId(protocol, baudrate).Success? <==> baudrate in rates)
      && (BaudrateId(protocol, baudrate).Failure? ==> BaudrateId(protocol, baudrate) == Failure(Error(InvalidBaudrate)))
  {
  }

  /** Rate `k` of the Protocol 1 table has code `Codes1[k]`; rate `k` of the Protocol 2 table has code `k`. */
  lemma BaudrateCodes(k: nat)
    requires k < 9
    ensures BaudrateId1(Rates1[k]) == Success(Codes1[k])
    ensures BaudrateId2(Rates2[k]) == Success(k as uint8)
  {
  }

  /** The accepted rates of each table are in strictly increasing order. */
  lemma RatesSorted(i: nat, j: nat)
    requires i < j < 9
    ensures Rates1[i] < Rates1[j] && Rates2[i] < Rates2[j]
  {
  }

  /** Distinct rates get distinct codes, under either protocol. */
  lemma BaudrateInjective(protocol: Protocol, b: uint32, b': uint32)
    requires BaudrateId(protocol, b).Success? && BaudrateId(protocol, b').Success?
    requires BaudrateId(protocol, b).value == BaudrateId(protocol, b').value
    ensures b == b'
  {
    if b < b' {
      BaudrateMonotone(protocol, b, b');
    } else if b' < b {
      BaudrateMonotone(protocol, b', b);
    }
  }

  /** Protocol 1 codes strictly decrease as the rate rises; Protocol 2 codes strictly increase. */
  lemma BaudrateMonotone(protocol: Protocol, b: uint32, b': uint32)
    requires BaudrateId(protocol, b).Success? && BaudrateId(protocol, b').Success?
    requires b < b'
    ensures protocol.P1? ==> BaudrateId(protocol, b).value > BaudrateId(protocol, b').value
    ensures protocol.P2? ==> BaudrateId(protocol, b).value < BaudrateId(protocol, b').value
  {
    BaudrateDomain(protocol, b);
    BaudrateDomain(protocol, b');
    var rates := if protocol.P1? then Rates1 else Rates2;
    var i :| 0 <= i < 9 && rates[i] == b;
    var j :| 0 <= j < 9 && rates[j] == b';
    if j <= i {
      if j < i {
        RatesSorted(j, i);
      }
      assert false;
    }
    BaudrateCodes(i);
    BaudrateCodes(j);
    CodesDecreasing(i, j);
  }

  /** Helper of `BaudrateMonotone`: the Protocol 1 code column decreases down the table. */
  lemma CodesDecreasing(i: nat, j: nat)
    requires i < j < 9
    ensures Codes1[i] > Codes1[j]
  {
  }

  /** Example instances of `BaudrateCodes`: the rates 1M, 115200 and 57600 baud give the Protocol 1 codes 1, 16 and 34. */
  lemma CommandLineCodes()
    ensures BaudrateId1(1000000) == Success(1)
    ensures BaudrateId1(115200) == Success(16)
    ensures BaudrateId1(57600) == Success(34)
  {
  }
}

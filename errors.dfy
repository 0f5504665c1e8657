/** The exception hierarchy of the library, reduced to error values. */
module Errors {
  import opened Bytes

  /** Why a plain `errors::Error` was raised; the message text is not modelled. */
  datatype Reason =
    | NotImplemented     // a 32-bit pack or unpack in Protocol 1
    | EmptyVector        // an empty data, ids or packet vector
    | EmptyPacket        // Protocol 1 checksum of an empty packet
    | SizeMismatch       // two vectors that must have the same length do not
    | NotValid           // a StatusPacket queried before it was decoded
    | BadHeader          // a status packet that does not start with the header
    | ChecksumMismatch   // legacy decoders: received checksum differs
    | StatusReported     // legacy Status: the servo reported an error bit
    | InvalidBaudrate    // no code for the requested baud rate
    | NoBaudrateTable    // the generic get_baudrate_id template
    | UnrecognizedModel  // get_servo: unknown model number
    | NoResponse         // no viable reply from the actuator
    | OutOfRange         // CHECK(...) in the legacy AX-12 builders

  datatype Error =
    | Error(reason: Reason)
    | BadPacket(packet: seq<uint8>)
    | CrcError(id: uint8, protocol: uint8, expected: nat, received: nat)
    | StatusError(id: uint8, protocol: uint8, errorByte: uint8)
    | UnpackError(protocol: uint8, size: nat, expectedSize: nat)
    | VectorEmptyError

  datatype Result<+T> = Success(value: T) | Failure(error: Error) {
    predicate IsFailure() {
      Failure?
    }

    function PropagateFailure<U>(): Result<U>
      requires Failure?
    {
      Failure(error)
    }

    function Extract(): T
      requires Success?
    {
      value
    }
  }

  datatype Outcome = Pass | Fail(error: Error) {
    predicate IsFailure() {
      Fail?
    }

    function PropagateFailure<U>(): Result<U>
      requires Fail?
    {
      Failure(error)
    }
  }

  datatype Option<+T> = None | Some(value: T)
}

# libdynamixel in Dafny

A model of the core of libdynamixel, a C++ driver library for Robotis
Dynamixel servos, with proofs about it. Dynamixel servos share a half-duplex
bus. The host sends instruction packets and the servos answer with status
packets, framed by one of two wire protocols:

- Protocol 1.0: an FF FF header and a one's-complement checksum.
- Protocol 2.0: an FF FF FD 00 header and a CRC-16 with polynomial 0x8005,
  initial value 0 and no final xor.

The model covers five parts of the library.

- **The two protocol codecs** (`protocol1.dfy`, `protocol2.dfy`).
  - Instruction encoders, little-endian field packing and unpacking, and the checksum.
  - The Protocol 1 incremental status decoder, whose states are INVALID, ONGOING and DONE.
  - The Protocol 2 status decoder.
  - `InstructionPacket` (`instruction_packet.dfy`), an immutable packet, with one `Protocol` value `P1 | P2` standing for the template parameter.
- **The instruction builders** (`instructions.dfy`, over the record helpers of `records.dfy`).
  - Ping, Action, FactoryReset, Reboot, Read, Write, RegWrite, SyncWrite, BulkRead and BulkWrite.
  - The loops that fill the parameter vectors of SyncWrite, BulkRead and BulkWrite are proved against functions that give their records.
- **`StatusPacket`** (`status_packet.dfy`): a class whose validity becomes true once and stays true.
- **Lookups and servo builders.**
  - Baud-rate code tables (`baudrate.dfy`) and operating-mode classification (`operating_mode.dfy`).
  - The per-field builders the servo macros generate (`servos.dfy`, `servo_model.dfy`).
  - Model-number dispatch and the bus scan of auto-detection (`auto_detect.dfy`).
- **The first API of the library**, still in the source tree.
  - Its own Protocol 1 codec (`legacy_protocol1.dfy`).
  - The `Instruction` class, which owns a byte array rebuilt in place (`legacy_instruction.dfy`).
  - The `Status` decoder class (`legacy_status.dfy`) and the `Mx64` servo builders (`legacy_servo.dfy`).
  - The hand-built AX-12 instructions (`legacy_ax12.dfy`). `SetPositions` and `SetSpeeds` are classes holding an `Instruction` that they rebuild in place.

How the C++ maps onto Dafny:

- **Errors.** Exceptions become a `Result` (`errors.dfy`) whose error kinds follow the
  library's exception classes.
- **Asserts.** An `assert` in the source becomes a `requires`.
- **Serial controller.** The controller a scan or a read goes through becomes a parameter:
  a function from the packet sent to the reply received, or none.
- **Bytes.** They are the subset types `uint8`, `uint16`, `uint32` and `int32`
  of `bytes.dfy`. A C++ truncating cast is written out as `Low`, `High` or `% 2^n`.

## Model

| member | source | states |
|---|---|---|
| Protocol1.SumAppend | src/dynamixel/protocols/protocol1.hpp:302-304 | the running sum of the checksum loop splits over a concatenation, so bytes can be summed in any grouping |
| Protocol1.ChecksumOf | src/dynamixel/protocols/protocol1.hpp:298-309 | the checksum is the byte that brings the sum of the bytes from the id to the one before the last to 0xFF modulo 256 |
| Protocol1.Checksum | src/dynamixel/protocols/protocol1.hpp:298-309 | an empty packet is an error; any other packet gives the one's-complement checksum of its covered bytes, and the CrcError guard never fires |
| Protocol1.PacketLayout | src/dynamixel/protocols/protocol1.hpp:66-89 | a packet of n parameters has 6 + n bytes: FF FF, the id, the length byte (n + 2) mod 256, the instruction, parameter i at 5 + i, and its bytes from the id on sum to 0xFF modulo 256 |
| Protocol1.PacketChecksum | src/dynamixel/protocols/protocol1.hpp:86 | the last byte of every encoded packet is the checksum of the packet itself, so a decoder accepts it |
| Protocol1.NoParamsIsEmptyParams | src/dynamixel/protocols/protocol1.hpp:46-64 | the two-argument encoder gives the same bytes as the three-argument one with no parameters |
| Protocol1.NoParamsBytes | src/dynamixel/protocols/protocol1.hpp:46-64 | a packet without parameters is FF FF id 02 instr and the complement of (id + 2 + instr) mod 256 |
| Protocol1.PackInstructionNoParams | src/dynamixel/protocols/protocol1.hpp:46-64 | filling the zeroed six-byte vector by index gives the parameterless packet |
| Protocol1.PackInstruction | src/dynamixel/protocols/protocol1.hpp:66-89 | filling the zeroed vector by index gives the packet whose layout `PacketLayout` states |
| Protocol1.PackData32 | src/dynamixel/protocols/protocol1.hpp:106-116 | packing a 32-bit value, signed or unsigned, always raises "not implemented" |
| Protocol1.UnpackData32 | src/dynamixel/protocols/protocol1.hpp:177-187 | unpacking a 32-bit value, signed or unsigned, always raises "not implemented" |
| Protocol1.UnpackPack8 | src/dynamixel/protocols/protocol1.hpp:91-96 | unpacking the one-byte packing of a byte gives the byte back |
| Protocol1.UnpackPack16 | src/dynamixel/protocols/protocol1.hpp:98-104 | unpacking the low-byte-first packing of a 16-bit value gives the value back |
| Protocol1.PackUnpack16 | src/dynamixel/protocols/protocol1.hpp:170-175 | 16-bit unpacking succeeds exactly on two bytes and then re-packs to the same bytes; any other size raises UnpackError(1, size, 2) |
| Protocol1.PackDataVector8 | src/dynamixel/protocols/protocol1.hpp:118-130 | an empty vector raises; otherwise the result is the as-written vector: n empty entries followed by the n packed bytes |
| Protocol1.PackDataVector16 | src/dynamixel/protocols/protocol1.hpp:132-149 | an empty vector raises; otherwise the result is n empty entries followed by the n packed 16-bit values |
| Protocol1.PackValues | src/dynamixel/protocols/protocol1.hpp:118-149 | the intended vector packing succeeds exactly on a non-empty vector and then has one entry per value, entry i the packing of value i |
| Protocol1.PackedVectorAsWrittenPrefix | src/dynamixel/protocols/protocol1.hpp:124-128 | as written, the packed vector is n empty entries followed by the intended result, twice as long as intended |
| Protocol1.PackedVectorAsWrittenExample | src/dynamixel/protocols/protocol1.hpp:124-128 | the vector [0x01] packs to [[], [0x01]] as written and to [[0x01]] as intended |
| Protocol1.PackValuesRoundTrip16 | src/dynamixel/protocols/protocol1.hpp:132-175 | every entry of the intended 16-bit vector packing unpacks to its value |
| Protocol1.DetectStatusHeaderMeaning | src/dynamixel/protocols/protocol1.hpp:287-296 | the header test holds exactly for a non-empty packet that is a prefix of FF FF or starts with FF FF |
| Protocol1.UnpackStatus | src/dynamixel/protocols/protocol1.hpp:204-277 | the decoder returns, and leaves in its reference arguments, exactly the outcome the lemmas below characterise |
| Protocol1.UnpackEarlyExits | src/dynamixel/protocols/protocol1.hpp:209-237 | a bad header is BadPacket or INVALID with nothing written; a short packet is ONGOING with nothing written; a length byte below 2 is BadPacket or INVALID; a length beyond the bytes received is ONGOING |
| Protocol1.UnpackDone | src/dynamixel/protocols/protocol1.hpp:219-276 | DONE exactly for at least 6 bytes, FF FF, 2 <= length <= size - 4, a matching checksum and error byte 0; then the id is byte 2 and the parameters are the length - 2 bytes after the error byte; every other outcome leaves the parameters alone |
| Protocol1.UnpackStatusError | src/dynamixel/protocols/protocol1.hpp:247-270 | a complete reply with a good checksum and a non-zero error byte raises StatusError(id, 1, error) whatever the exception flag |
| Protocol1.UnpackPacket | src/dynamixel/protocols/protocol1.hpp:204-277 | round trip: an encoded packet with 0 in the instruction slot decodes to DONE, its id, its parameters and the length byte n + 2 |
| Protocol1.ErrorFlags | src/dynamixel/protocols/protocol1.hpp:249-269 | an error byte of 0 names no flag |
| Protocol1.ErrorFlagsAreNamed | src/dynamixel/protocols/protocol1.hpp:253-266 | the seven tests of the message list, in bit order, exactly the flags whose bit is set |
| Protocol1.ErrorFlagsMeaning | src/dynamixel/protocols/protocol1.hpp:249-269 | for every error byte, a flag is named exactly when its bit (bit 0 input voltage up to bit 6 instruction) is set; the flags come once each in increasing bit order; the list is empty exactly when the low seven bits are clear |
| Protocol1.HighBitNamesNoFlag | src/dynamixel/protocols/protocol1.hpp:249-269 | the error byte 0x80 still raises, with a message that names no flag, since bit 7 has no test |
| Protocol1.OverheatingOverloadVector | src/tests/generate_packets.cpp:47 | the reply FF FF 04 02 24 D5 raises StatusError(4, 1, 0x24) |
| Protocol1.OverheatingOverloadFlags | src/dynamixel/protocols/protocol1.hpp:257-264 | the error byte 0x24 names the overheating and overload bits, in that order |
| Protocol2.ChecksumIgnoresTrailer | src/dynamixel/protocols/protocol2.hpp:252-255 | the CRC never covers the last two bytes, so writing the CRC into them keeps it |
| Protocol2.Checksum | src/dynamixel/protocols/protocol2.hpp:216-258 | the table-driven loop over every byte but the last two computes the CRC-16 of those bytes |
| Protocol2.NoParamsIsEmptyParams | src/dynamixel/protocols/protocol2.hpp:37-61 | the two-argument encoder gives the same bytes as the three-argument one with no parameters |
| Protocol2.PacketLayout | src/dynamixel/protocols/protocol2.hpp:63-90 | a packet of n parameters has 10 + n bytes: FF FF FD 00, the id, the little-endian length (n + 3) mod 65536, the instruction and parameter i at 8 + i |
| Protocol2.PacketChecksum | src/dynamixel/protocols/protocol2.hpp:85-87 | the last two bytes of every encoded packet hold, low byte first, the CRC of everything before them, so a decoder accepts it |
| Protocol2.PackInstructionNoParams | src/dynamixel/protocols/protocol2.hpp:37-61 | filling the zeroed ten-byte vector by index gives the parameterless packet |
| Protocol2.PackInstruction | src/dynamixel/protocols/protocol2.hpp:63-90 | filling the zeroed vector by index gives the packet whose layout `PacketLayout` states |
| Protocol2.Split32IsLittleEndian | src/dynamixel/protocols/protocol2.hpp:107-125 | the four shifted and masked bytes of a 32-bit value are its little-endian encoding |
| Protocol2.UnpackDataU32IsLittleEndian | src/dynamixel/protocols/protocol2.hpp:139-143 | assembling four bytes with shifts reads them as a little-endian number |
| Protocol2.UnpackPack8 | src/dynamixel/protocols/protocol2.hpp:127-131 | unpacking the one-byte packing of a byte gives the byte back |
| Protocol2.UnpackPack16 | src/dynamixel/protocols/protocol2.hpp:133-137 | unpacking the low-byte-first packing of a 16-bit value gives the value back |
| Protocol2.PackUnpack16 | src/dynamixel/protocols/protocol2.hpp:99-105 | re-packing the value unpacked from two bytes gives the same two bytes |
| Protocol2.UnpackPackU32 | src/dynamixel/protocols/protocol2.hpp:139-143 | unpacking the four-byte packing of an unsigned 32-bit value gives the value back |
| Protocol2.PackUnpackU32 | src/dynamixel/protocols/protocol2.hpp:107-115 | re-packing the unsigned value unpacked from four bytes gives the same four bytes |
| Protocol2.UnpackPackI32 | src/dynamixel/protocols/protocol2.hpp:145-149 | a signed 32-bit value, negative ones included, survives packing into its two's-complement bytes and unpacking |
| Protocol2.PackUnpackI32 | src/dynamixel/protocols/protocol2.hpp:117-125 | re-packing the signed value unpacked from four bytes gives the same four bytes |
| Protocol2.UnpackStatus | src/dynamixel/protocols/protocol2.hpp:151-213 | the decoder returns, and leaves in its reference arguments, exactly the outcome the lemmas below characterise |
| Protocol2.UnpackNoProgress | src/dynamixel/protocols/protocol2.hpp:153-163 | fewer than 11 bytes is "not complete" with nothing written; a bad header raises with nothing written; every "not complete" leaves id and parameters alone |
| Protocol2.UnpackComplete | src/dynamixel/protocols/protocol2.hpp:151-213 | success exactly for at least 11 bytes, FF FF FD, a length field of size - 7, a matching CRC and error byte 0; then the id is byte 4 and the parameters are the bytes between the error byte and the CRC |
| Protocol2.UnpackCrcMismatch | src/dynamixel/protocols/protocol2.hpp:165-175 | a CRC mismatch raises CrcError(id, 2, computed, received) after the id and parameters have already been overwritten |
| Protocol2.UnpackPacket | src/dynamixel/protocols/protocol2.hpp:151-213 | round trip: an encoded packet whose first parameter is error byte 0 decodes to its id and the remaining parameters |
| Protocol2.Code | src/dynamixel/protocols/protocol2.hpp:184-207 | the low seven bits of the error byte name a code exactly when they are 1 to 7 |
| Protocol2.AlertErrorByte | src/tests/generate_packets.cpp:102 | the error byte 0x84 of the test reply is a device alert with the data range code |
| InstructionPackets.Field | src/dynamixel/instructions/read.hpp:20-36 | an address or length takes one byte under Protocol 1 and two under Protocol 2 |
| InstructionPackets.FieldIsLittleEndian | src/dynamixel/instructions/read.hpp:28-36 | the masked and shifted bytes of an address or length are its little-endian encoding at the protocol's width |
| InstructionPackets.FieldRoundTrip | src/dynamixel/instructions/read.hpp:15-17 | reading a field back gives the value reduced modulo 256 (Protocol 1) or 65536 (Protocol 2), the truncation of the conversion to `address_t` / `length_t` |
| InstructionPackets.Make | src/dynamixel/instruction_packet.hpp:21-22 | the constructed packet has the id, instruction and parameters it was given, the protocol's overhead plus one byte per parameter, and a length field counting the parameters, the instruction and the checksum, truncated to the field |
| InstructionPackets.EncodeLayout | src/dynamixel/instruction_packet.hpp:21-22 | both protocols' encoders lay out id, instruction, parameters and length field where the packet accessors read them |
| InstructionPackets.MakeIntact | src/dynamixel/instruction_packet.hpp:21-22 | every constructed packet carries the checksum (Protocol 1) or CRC (Protocol 2) of its own bytes |
| InstructionPackets.Encode2Layout | src/dynamixel/protocols/protocol2.hpp:63-90 | a Protocol 2 packet has 10 + n bytes, the id at 4, the instruction at 7, the parameters before the CRC and the length field (n + 3) mod 65536 |
| InstructionPackets.MakeNoParams | src/dynamixel/instruction_packet.hpp:24-25 | the two-argument constructor stores the same bytes as the three-argument one with no parameters: the id, the instruction, no parameters and a length field counting instruction and checksum |
| InstructionPackets.MakeInjective | src/dynamixel/instruction_packet.hpp:21-22 | equal packets were built from equal ids, instructions and parameters |
| InstructionPackets.InstructionOnlyDiffers | src/dynamixel/instruction_packet.hpp:21-22 | two packets that differ only in the instruction agree on every byte but the instruction byte and the checksum trailer |
| Instructions.Code | src/dynamixel/protocols/protocol2.hpp:23-35 | Protocol 2 names every instruction; Protocol 1 lacks exactly reboot, sync read and bulk write |
| Instructions.CodesAgree | src/dynamixel/protocols/protocol1.hpp:28-38 | an instruction both protocols define has the same code in both, and distinct instructions have distinct codes |
| Instructions.PingPacket | src/dynamixel/instructions/ping.hpp:10 | a ping is a parameterless packet for the id with code 0x01 |
| Instructions.ActionPacket | src/dynamixel/instructions/action.hpp:11 | an action is a parameterless packet for the id with code 0x05 |
| Instructions.FactoryResetPacket | src/dynamixel/instructions/factory_reset.hpp:11 | a factory reset is a parameterless packet for the id with code 0x06 |
| Instructions.RebootPacket | src/dynamixel/instructions/reboot.hpp:14-15 | a reboot is a ten-byte Protocol 2 packet for the id with code 0x08, no parameters and length field 3 |
| Instructions.PingBytes | src/dynamixel/instructions/ping.hpp:10 | a Protocol 1 ping is FF FF id 02 01 and the complement of (id + 3) mod 256 |
| Instructions.BroadcastActionBytes | src/dynamixel/instructions/action.hpp:11 | the broadcast Protocol 1 action is FF FF FE 02 05 FA |
| Instructions.RebootBytes | src/dynamixel/instructions/reboot.hpp:14-15 | a reboot starts FF FF FD 00 id 03 00 08 |
| Instructions.ReadParameters | src/dynamixel/instructions/read.hpp:20-36 | the read parameters are the address field then the length field, each decoding to its value truncated to the protocol's width |
| Instructions.ReadPacket | src/dynamixel/instructions/read.hpp:15-17 | a read is a packet for the id with code 0x02 and the address and length fields as parameters |
| Instructions.ModelNumberProbe | src/dynamixel/auto_detect.hpp:85 | the Protocol 1 model-number probe is the eight-byte packet FF FF id 04 02 00 02 and its checksum |
| Instructions.AddressedData | src/dynamixel/write.hpp:17-40 | the parameters are the address field followed by the data bytes in order |
| Instructions.WritePacket | src/dynamixel/write.hpp:12-14 | a write is a packet for the id with code 0x03 and the address field then the data as parameters |
| Instructions.RegWritePacket | src/dynamixel/instructions/reg_write.hpp:13-15 | a registered write is the same packet with code 0x04 |
| Instructions.AddressedDataDecodes | src/dynamixel/write.hpp:17-40 | the address is read back from the parameters, truncated to the protocol's width, and the data follows it unchanged |
| Instructions.SyncRecordList | src/dynamixel/instructions/sync_write.hpp:34-40 | there is one record per id |
| Instructions.SyncRecordsWidth | src/dynamixel/instructions/sync_write.hpp:26-27 | with data vectors of a common length every record has length + 1 bytes, so the records take (length + 1) * n bytes, the size the buffer is given |
| Instructions.SyncRecordsStep | src/dynamixel/instructions/sync_write.hpp:34-40 | each iteration appends the id and the data of record i, and the records written so far never run past the buffer |
| Instructions.SyncRecordAt | src/dynamixel/instructions/sync_write.hpp:34-40 | record i starts at (length + 1) * i with its id, followed by its data |
| Instructions.SyncWriteParameters | src/dynamixel/instructions/sync_write.hpp:20-75 | the parameters are the address field, the data length field, then the records |
| Instructions.FillSyncRecords | src/dynamixel/instructions/sync_write.hpp:32-40 | the cursor loop leaves the header in place and writes the records after it, filling the buffer exactly |
| Instructions.SyncWritePacket | src/dynamixel/instructions/sync_write.hpp:14-16 | a sync write is a broadcast packet with code 0x83 and those parameters |
| Instructions.SyncWriteHeaderDecodes | src/dynamixel/instructions/sync_write.hpp:29-30 | the header gives back the address, truncated to the protocol's width, and the common data length, and the records follow it unchanged |
| Instructions.BulkRecord | src/dynamixel/instructions/bulk_read.hpp:49-55 | one bulk-read record has two fields and an id: 3 bytes under Protocol 1, 5 under Protocol 2 |
| Instructions.BulkReadRecordList | src/dynamixel/instructions/bulk_read.hpp:34-38 | there is one record per id |
| Instructions.BulkReadRecordsWidth | src/dynamixel/instructions/bulk_read.hpp:32 | every record has the protocol's width, so the records take 3n or 5n bytes, the size the buffer is given |
| Instructions.BulkReadStep | src/dynamixel/instructions/bulk_read.hpp:49-55 | each iteration appends record i, and the records written so far never run past the buffer |
| Instructions.CheckArguments | src/dynamixel/instructions/bulk_read.hpp:93-103 | the arguments pass exactly when there is at least one id and one address and one length per id; the empty-ids error is reported exactly when there are no ids |
| Instructions.FillBulkRead | src/dynamixel/instructions/bulk_read.hpp:47-56 | the loop writes a leading 0 and then the records |
| Instructions.FillBulkRecord | src/dynamixel/instructions/bulk_read.hpp:50-54 | one iteration writes the record of one servo at the cursor and keeps everything before it |
| Instructions.BulkReadParameters | src/dynamixel/instructions/bulk_read.hpp:27-57 | the per-servo form raises what the argument check raises, and otherwise gives a 0 followed by one record per servo |
| Instructions.Repeat | src/dynamixel/instructions/bulk_read.hpp:67-71 | n copies of a value |
| Instructions.BulkReadUniformParameters | src/dynamixel/instructions/bulk_read.hpp:59-91 | the uniform form raises on an empty id list and otherwise gives the per-servo form's parameters with the same address and length for every servo |
| Instructions.BulkReadPacket | src/dynamixel/instructions/bulk_read.hpp:13-17 | a per-servo bulk read raises what the check raises, and otherwise is a broadcast packet with code 0x92 and those parameters |
| Instructions.BulkReadUniformPacket | src/dynamixel/instructions/bulk_read.hpp:20-24 | a uniform bulk read raises on an empty id list, and otherwise is a broadcast packet with code 0x92 and the uniform parameters |
| Instructions.BulkReadLayout | src/dynamixel/instructions/bulk_read.hpp:49-55 | the records take width * n bytes, and record i at width * i gives back the length, the id and the address of servo i, truncated to the protocol's width |
| Instructions.BulkRecordFields | src/dynamixel/instructions/bulk_read.hpp:50-54 | the fields of one record decode to its length, its id and its address |
| Instructions.BulkWriteRecordList | src/dynamixel/instructions/bulk_write.hpp:30-42 | there is one record per id |
| Instructions.BulkWriteWidth | src/dynamixel/instructions/bulk_write.hpp:36-38 | the first m records are 5 + length bytes wide exactly when their data vectors have the declared length |
| Instructions.BulkWriteStep | src/dynamixel/instructions/bulk_write.hpp:30-42 | each iteration appends record m, and the records written so far never run past (5 + length) * n bytes |
| Instructions.FillBulkWrite | src/dynamixel/instructions/bulk_write.hpp:27-44 | the loop raises on the first data vector of the wrong length, and otherwise gives the records followed by the zeros of the unused tail |
| Instructions.WriteBulkWriteHeader | src/dynamixel/instructions/bulk_write.hpp:31-35 | the five header bytes of a record are written at the cursor and nothing else changes |
| Instructions.BulkWriteParametersAsWritten | src/dynamixel/instructions/bulk_write.hpp:21-45 | as written: an empty id list raises, a data vector of the wrong length raises, and otherwise the records are followed by five zero bytes |
| Instructions.BulkWriteParameters | src/dynamixel/instructions/bulk_write.hpp:21-45 | corrected: the same errors, and otherwise exactly the records |
| Instructions.BulkWritePacket | src/dynamixel/instructions/bulk_write.hpp:16-18 | a bulk write raises as its parameters do, and otherwise is a broadcast Protocol 2 packet with code 0x93 and the records |
| Instructions.BulkWriteLayout | src/dynamixel/instructions/bulk_write.hpp:27-42 | the corrected parameters take (5 + length) * n bytes, and record m gives back the id, the address, the length and the data of servo m |
| Instructions.BulkWriteRecordFields | src/dynamixel/instructions/bulk_write.hpp:31-41 | the fields of one record decode to its id, its address, its length and its data |
| Instructions.BulkWriteTrailerExample | src/dynamixel/instructions/bulk_write.hpp:27 | as written, a one-byte write to one servo carries a trailing five bytes that read as a record for id 0, address 0 and length 0 |
| AutoDetect.GetServo | src/dynamixel/auto_detect.hpp:10-54 | an unknown model number raises "Unrecognized model number" |
| AutoDetect.GetServoInverse | src/dynamixel/auto_detect.hpp:10-54 | `get_servo` gives a class exactly when that class belongs to the protocol and carries the model number asked for |
| AutoDetect.GetServoRecognises | src/dynamixel/auto_detect.hpp:30-31 | `get_servo` raises exactly when no class of the protocol carries the model number |
| AutoDetect.ProbeAnswered | src/dynamixel/auto_detect.hpp:81-90 | an id yields a servo exactly when the ping is answered under that id, the model read is answered with two bytes, and their little-endian value is a model number `get_servo` recognises; the servo is the class of that number |
| AutoDetect.FoundSorted | src/dynamixel/auto_detect.hpp:77-96 | the ids found are in range and strictly increasing: in scan order and without repeats |
| AutoDetect.FoundExactly | src/dynamixel/auto_detect.hpp:77-96 | an id is found exactly when its probe succeeded, and with the class its probe gave |
| AutoDetect.FoundSnoc | src/dynamixel/auto_detect.hpp:89 | probing one more id appends at most the servo found there |
| AutoDetect.Probes | src/dynamixel/auto_detect.hpp:77 | one probe outcome per id from 0 to one below the broadcast id |
| AutoDetect.Scan | src/dynamixel/auto_detect.hpp:70-99 | the scan returns exactly the servos found by probing ids 0 to 0xFD over the link, swallowing every error |
| AutoDetect.Collect | src/dynamixel/auto_detect.hpp:77-96 | the loop appends one servo per successful probe, in id order |
| AutoDetect.ScanSkipsBroadcast | src/dynamixel/auto_detect.hpp:77 | no servo found has the broadcast id 0xFE |
| Baudrates.GenericBaudrateId | src/dynamixel/baudrate.hpp:20-24 | a protocol without a table always raises "no baudrate table" |
| Baudrates.BaudrateDomain | src/dynamixel/baudrate.hpp:26-82 | a rate is accepted exactly when it is in the protocol's table; every other rate raises "invalid baudrate" |
| Baudrates.BaudrateCodes | src/dynamixel/baudrate.hpp:29-76 | the k-th rate of the Protocol 1 table has the k-th code of 207, 103, 34, 16, 9, 7, 4, 3, 1; the k-th rate of the Protocol 2 table has code k |
| Baudrates.RatesSorted | src/dynamixel/baudrate.hpp:29-76 | both tables list their rates in strictly increasing order |
| Baudrates.BaudrateInjective | src/dynamixel/baudrate.hpp:26-82 | distinct accepted rates get distinct codes, under either protocol |
| Baudrates.BaudrateMonotone | src/dynamixel/baudrate.hpp:26-82 | Protocol 1 codes strictly decrease as the rate rises; Protocol 2 codes strictly increase |
| OperatingModes.ModeFromLimits | src/dynamixel/operating_mode.hpp:47-52 | Protocol 1 limits give wheel exactly when both are 0, multi-turn exactly when both are 4095, and joint otherwise; never torque or unknown |
| OperatingModes.ModeFromByte | src/dynamixel/operating_mode.hpp:79-88 | the Protocol 2 mode byte gives torque for 0, wheel for 1, joint for 3, multi-turn for 4, each exactly, and unknown for every other byte |
| OperatingModes.OperatingMode1Reads | src/dynamixel/operating_mode.hpp:17-53 | limits reported in their packed form are read back and classified as they are |
| OperatingModes.OperatingMode1Failures | src/dynamixel/operating_mode.hpp:28-45 | a missing reply for either limit raises, and a limit reply that is not two bytes raises the UnpackError of `unpack_data` |
| OperatingModes.OperatingMode2Reads | src/dynamixel/operating_mode.hpp:60-89 | the mode byte reported is classified as it is, and a missing reply raises |
| OperatingModes.Requests | src/dynamixel/operating_mode.hpp:26-69 | the requests read two bytes at 6 and at 8 under Protocol 1 and one byte at 11 under Protocol 2, from the servo asked about |
| Servos.Width | src/dynamixel/servos/servo.hpp:31 | a field type takes 1, 2 or 4 bytes |
| Servos.Cast | src/dynamixel/servos/servo.hpp:72-80 | the cast of a `long long` to a field type gives a value of that type congruent to the original modulo 2^(8 * width) |
| Servos.CastKeeps | src/dynamixel/servos/servo.hpp:72-80 | a value that already has the field type is left alone by the cast |
| Servos.WidthFits | src/dynamixel/servos/servo.hpp:31 | the byte count of every field type is a valid length under either protocol |
| Servos.PackField | src/dynamixel/servos/servo.hpp:52-60 | packing a field value succeeds exactly when the protocol packs its type (Protocol 1 raises "not implemented" for 32-bit types) and gives its little-endian bytes at the type's width |
| Servos.ParseField | src/dynamixel/servos/servo.hpp:34-39 | parsing relays the status packet's own error, raises "not implemented" for an unsupported type, and otherwise gives a value of the field type |
| Servos.ParsePack | src/dynamixel/servos/servo.hpp:34-60 | parsing a reply whose parameters are the packing of a value gives the value back |
| Servos.ParseFieldWidth | src/dynamixel/protocols/protocol1.hpp:163-175 | under Protocol 1 parsing succeeds exactly on a reply of the field's width, and any other width raises UnpackError(1, size, width) |
| Servos.GetField | src/dynamixel/servos/servo.hpp:29-32 | `get_NAME(id)` is a read addressed to the id whose parameters decode to the field's address and the field's byte count |
| Servos.FieldWriteDecodes | src/dynamixel/servos/servo.hpp:52-60 | a written field fails exactly for a 32-bit field of Protocol 1; otherwise the packet goes to the id with the instruction given, and its parameters decode to the address and a value that parses back to the one written |
| Servos.SetField | src/dynamixel/servos/servo.hpp:52-55 | `set_NAME(id, value)` is the field write with code 0x03 |
| Servos.RegField | src/dynamixel/servos/servo.hpp:57-60 | `reg_NAME(id, value)` is the field write with code 0x04 |
| Servos.GetTyped | src/dynamixel/servos/servo.hpp:234-242 | every element is cast to `id_t`, the result keeps the length and order |
| Servos.PackAll | src/dynamixel/servos/servo.hpp:200-202 | the packing loop casts and packs every value in order, and raises "not implemented" when Protocol 1 is asked for a 32-bit field |
| Servos.SetFieldForAll | src/dynamixel/servos/servo.hpp:196-229 | the bulk setter raises a size mismatch for vectors of different lengths, relays the packing error, and otherwise is one broadcast sync write of the field |
| Servos.SyncFieldRecord | src/dynamixel/servos/servo.hpp:196-205 | record i of that sync write is `ids[i]` cast to `id_t` followed by `values[i]` cast to the field type and packed low byte first |
| Servos.SyncFieldMismatch | src/dynamixel/servos/servo.hpp:198-199 | the bulk setter fails exactly for vectors of different lengths or a type the protocol cannot pack; different lengths give the size-mismatch error |
| Servos.Servo.constructor | src/dynamixel/servos/servo.hpp:232 | a servo holds its protocol and the id it was built with |
| Servos.Servo.SetId | src/dynamixel/servos/servo.hpp:107-110 | the new id is the argument cast to `id_t`, the argument itself when it fits |
| Servos.Servo.Get | src/dynamixel/servos/servo.hpp:41-44 | the instance read is the static read addressed to the stored id |
| Servos.Servo.Set | src/dynamixel/servos/servo.hpp:72-75 | the instance write casts the value to the field type and writes it to the stored id with code 0x03 |
| Servos.Servo.Reg | src/dynamixel/servos/servo.hpp:77-80 | the instance registered write casts the value and writes it with code 0x04 |
| Servos.Servo.Ping | src/dynamixel/servos/servo.hpp:137-140 | the instance ping is the ping of the stored id |
| Servos.Ax12PresentPositionRead | src/dynamixel/servos/ax12.hpp:69-70 | the AX-12 present-position read is Read(id, 36, 2) |
| Servos.Ax12GoalPositionsLayout | src/dynamixel/servos/ax12.hpp:59-60 | the AX-12 `set_goal_positions` for one servo is a broadcast sync write with parameters 1E 02 id low high |
| ServoModels.SetModelField | src/dynamixel/models/servo_model.hpp:32-39 | `set_NAME(id, value, reg)` packs the address and the value as the protocol does and sends RegWrite (0x04) when `reg` is set, Write (0x03) otherwise; it raises "not implemented" exactly when the protocol cannot pack the field's type |
| ServoModels.RegOnlyChangesInstruction | src/dynamixel/models/servo_model.hpp:32-39 | the registered and the immediate write of a field succeed together and, when they do, carry the same id and the same parameters and differ only in the instruction byte (0x04 against 0x03) |
| ServoModels.SetBoolField | src/dynamixel/models/servo_model.hpp:41-48 | a boolean field writes the model's `NAME_on` constant for true and `NAME_off` for false, with the same `reg` choice of instruction |
| ServoModels.BoolFieldDecodes | src/dynamixel/models/servo_model.hpp:41-48 | when the on and off constants differ and the protocol packs the field's type, the value packed by a boolean write parses back to `NAME_on` exactly when the flag was true |
| ServoModels.Mx106LedParameters | src/dynamixel/models/mx106.hpp:55-58 | switching the Mx106 led (address 25, on 1, off 0) writes the parameters 0x19 then 1 or 0 |
| ServoModels.ProL54LedParameters | src/dynamixel/models/pro_l54.hpp:23-26 | switching the Pro L54 led on (address 563, on 255) writes the two address bytes 0x33 0x02, low byte first, then 0xFF |
| ServoModels.SetModelFieldForAll | src/dynamixel/models/servo_model.hpp:108-139 | the bulk setters of a model send one SyncWrite of the field to all ids with their values in order; they succeed exactly when the protocol packs the field's type and otherwise raise "not implemented"; the equal-length assert and SyncWrite's non-empty assert are required of the caller |
| StatusPackets.Decode | src/dynamixel/status_packet.hpp:40-48 | one `decode_packet` returns the state of the Protocol 1 decoder on the packet and leaves the status packet valid exactly when it was valid before or the state is DONE |
| StatusPackets.StickyValid | src/dynamixel/status_packet.hpp:44-45 | `_valid` is only ever set: a valid status packet stays valid through any sequence of later decodes, whatever they return |
| StatusPackets.ValidAfter | src/dynamixel/status_packet.hpp:40-48 | after a sequence of decodes the status packet is valid exactly when it was valid to begin with or one of the decodes returned DONE |
| StatusPackets.StatusPacket.constructor | src/dynamixel/status_packet.hpp:22 | a new status packet is not valid and holds no parameters |
| StatusPackets.StatusPacket.IsValid | src/dynamixel/status_packet.hpp:24 | `valid()` reports the validity flag of the packet's state |
| StatusPackets.StatusPacket.Id | src/dynamixel/status_packet.hpp:26-31 | `id()` raises "should be valid" exactly while the packet is not valid and otherwise returns the stored id |
| StatusPackets.StatusPacket.Parameters | src/dynamixel/status_packet.hpp:33-38 | `parameters()` raises "should be valid" exactly while the packet is not valid and otherwise returns the stored parameters |
| StatusPackets.StatusPacket.DecodePacket | src/dynamixel/status_packet.hpp:40-48 | decoding in place returns what the decoder returns and leaves exactly the fields `Decode` gives from the old fields: id and parameters as the decoder wrote them, valid set on DONE |
| LegacyProtocol1.Checksum | src/dynamixel/protocol1.hpp:120-129 | the checksum of the first codec is the complement of the low byte of the sum of bytes 2 .. size-2, i.e. the newer codec's checksum, so that this sum plus the checksum is 0xFF modulo 256 |
| LegacyProtocol1.PackInstruction | src/dynamixel/protocol1.hpp:28-51 | the three-argument encoder lays out FF FF, id, the length byte (parameter count + 2 modulo 256), the instruction, the parameters and a checksum making bytes 2 onward sum to 0xFF modulo 256, byte for byte the packet of the newer encoder |
| LegacyProtocol1.PackData8 | src/dynamixel/protocol1.hpp:53-58 | one byte packs to itself: one byte whose little-endian reading is the value |
| LegacyProtocol1.PackData16 | src/dynamixel/protocol1.hpp:60-66 | a 16-bit value packs to two bytes, low byte first, that read back to the value and equal the newer codec's packing |
| LegacyProtocol1.UnpackStatus | src/dynamixel/protocol1.hpp:68-117 | the decoder's return value or exception and its id and parameters afterwards are those `Unpack` gives for the packet and the old id and parameters |
| LegacyProtocol1.UnpackIncomplete | src/dynamixel/protocol1.hpp:70-78 | the decoder returns false exactly for fewer than 6 bytes or a good header with a length byte other than size - 4, raises "bad packet header" exactly for 6 bytes or more without FF FF, and in both cases leaves id and parameters alone |
| LegacyProtocol1.UnpackAccepts | src/dynamixel/protocol1.hpp:80-116 | a complete packet is accepted exactly when its checksum matches, whatever its error byte; on acceptance and on a checksum error the id is byte 2 and the parameters are the bytes between the error byte and the checksum |
| LegacyProtocol1.UnpackPacket | src/dynamixel/protocol1.hpp:28-116 | a packet laid out by the encoder with at most 253 parameters, any byte in the instruction slot, unpacks to true with its own id and parameters |
| LegacyInstructions.ComputeChecksum | src/dynamixel/packet.cpp:5-18 | over a buffer that starts with FF FF and a non-zero size, the result is the Protocol 1 checksum of its first `size` bytes: their covered sum plus the result is 0xFF modulo 256 |
| LegacyInstructions.FillPacket | src/dynamixel/instruction.cpp:23-30 | filling a buffer of 6 + |params| bytes leaves in it exactly the Protocol 1 packet of the id, instruction and parameters, checksum included |
| LegacyInstructions.Instruction.HoldsIsValid | src/dynamixel/instruction.cpp:5-31 | a buffer holding the packet of some parameters is a valid instruction: FF FF, its id, a length byte of size - 4, its instruction and a matching checksum, with size 6 + |params| |
| LegacyInstructions.Instruction.constructor | src/dynamixel/instruction.hpp:11-19 | `Instruction(id, instruction)` keeps the id and instruction and holds the valid packet with no parameters in a fresh buffer |
| LegacyInstructions.Instruction.One | src/dynamixel/instruction.hpp:21-32 | the one-parameter constructor holds the valid packet with that single parameter |
| LegacyInstructions.Instruction.Two | src/dynamixel/instruction.hpp:34-46 | the two-parameter constructor holds the valid packet with the parameters in the order given |
| LegacyInstructions.Instruction.Three | src/dynamixel/instruction.hpp:48-61 | the three-parameter constructor holds the valid packet with the parameters in the order given |
| LegacyInstructions.Instruction.WithParams | src/dynamixel/instruction.hpp:63-72 | the vector constructor holds the valid packet with exactly those parameters |
| LegacyInstructions.Instruction.BuildPacket | src/dynamixel/instruction.cpp:5-31 | building sets the size to 6 + |params| and leaves the Protocol 1 packet in the buffer; the buffer is reused when the size is unchanged and freshly allocated otherwise |
| LegacyInstructions.Instruction.Packet | src/dynamixel/instruction.hpp:80-86 | `packet()` of a valid instruction is `packet_size` bytes starting FF FF whose last byte is their checksum |
| LegacyInstructions.Instruction.Id | src/dynamixel/instruction.hpp:88-92 | `id()` reads buffer byte 2, which is the id given at construction |
| LegacyInstructions.Instruction.InstructionCode | src/dynamixel/instruction.hpp:94-98 | `instruction()` reads buffer byte 4, which is the instruction given at construction |
| LegacyInstructions.Instruction.PacketSize | src/dynamixel/instruction.hpp:100-103 | `packet_size()` is at least 6 and four more than the length byte, modulo 256 |
| LegacyInstructions.Instruction.RebuildPacket | src/dynamixel/instruction.hpp:105-109 | rebuilding keeps the instruction valid with the same id and instruction, now holding the new parameters, at size 6 + |params|, reusing the buffer only when the size is unchanged |
| LegacyServos.Ping | src/dynamixel/ping.hpp:12 | `Ping(id)` and `Servo::ping(id)` are the six bytes FF FF id 02 01 and the complement of (id + 3) modulo 256, a well-formed Protocol 1 ping to that id |
| LegacyServos.SetPosition | src/dynamixel/servo.hpp:28-31 | `set_position(id, pos)` is a Write to the id whose parameters are the Mx64 goal position address 0x1E and two bytes that read back, low byte first, to `pos` |
| LegacyServos.LedOn | src/dynamixel/servo.hpp:33-36 | `led_on(id)` is a Write to the id with parameters 0x19 (the Mx64 led) and 1 |
| LegacyServos.LedOff | src/dynamixel/servo.hpp:38-41 | `led_off(id)` is a Write to the id with parameters 0x19 and 0 |
| LegacyServos.LedMatchesServoModel | src/dynamixel/mx64.hpp:19-20 | the first led builders send the very packets the newer builders send for the one-byte led at 25, on or off |
| LegacyServos.SetPositionMatchesServo | src/dynamixel/mx64.hpp:21-22 | `set_position` sends the very packet the newer builder sends for a two-byte field at 0x1E |
| LegacyStatus.ParameterCountAsWritten | src/dynamixel/status.cpp:28 | the loop bound `_length - 2` taken as a `size_t` lies below 2^64, is `_length - 2` for a length of at least 2 and wraps to 2^64 - 1 for a length of 1 |
| LegacyStatus.FiveByteStatusOverruns | src/dynamixel/status.cpp:9-29 | as written, the five-byte buffer FF FF id 01 e passes the size guard, the header check and the length check, and the parameter loop then reads past the end of the buffer |
| LegacyStatus.ParametersFit | src/dynamixel/status.cpp:9-29 | with the size guard at 6 bytes, a buffer that reaches the parameter loop has a length byte of at least 2 and the loop stops right before the checksum byte |
| LegacyStatus.Status.constructor | src/dynamixel/status.hpp:12-13 | a new status has id -1, length -1 and no parameters |
| LegacyStatus.Status.DecodePacket | src/dynamixel/status.cpp:7-60 | decoding returns the value or exception and leaves exactly the id, length and parameters that `Decode` gives from the old fields, with the size guard at 6 bytes |
| LegacyStatus.Status.GetId | src/dynamixel/status.hpp:24 | `get_id()` is the id as a byte: the id itself when it fits, 0xFF for -1 |
| LegacyStatus.Status.GetLength | src/dynamixel/status.hpp:25 | `get_length()` is the length as a byte: the length itself when it fits, 0xFF for -1 |
| LegacyStatus.Status.Decode16 | src/dynamixel/status.hpp:28 | `decode16()` is the little-endian reading of the first two parameters |
| LegacyStatus.FromBuffer | src/dynamixel/status.hpp:15-19 | `Status(packet, packet_size)` succeeds exactly when decoding a new status returns true, and then holds the decoded id, length and parameters; a false return raises "bad packet in constructor" and an exception of the decoder is passed on |
| LegacyStatus.DecodeIncomplete | src/dynamixel/status.cpp:9-24 | decoding returns false exactly for a buffer below 6 bytes or a good header with a length byte other than size - 4; the first leaves every field alone, the second resets id and length to -1, and a bad header leaves every field alone |
| LegacyStatus.DecodeAccepts | src/dynamixel/status.cpp:26-59 | decoding returns true exactly for a complete packet whose checksum matches and whose error byte is 0 or has the overload bit (bit 5); every other error byte raises; once the length check passes the fields are byte 2, byte 3 and the bytes between the error byte and the checksum |
| LegacyStatus.DecodePacketRoundTrip | src/dynamixel/status.cpp:7-60 | a packet laid out by the encoder with error byte 0 and at most 253 parameters decodes to true with its id, its length byte |params| + 2 and its parameters |
| LegacyStatus.DecodersAgree | src/dynamixel/status.cpp:7-60 | on a buffer of at least 6 bytes with error byte 0, `Status::decode_packet` returns true exactly when the first codec's `unpack_status` does, with the same id and parameters |
| LegacyStatus.Decode16PackData16 | src/dynamixel/status.hpp:28 | `decode16()` undoes the first codec's two-byte packing: parameters that start with the packing of v decode to v |
| LegacyAx12.Ping | src/dynamixel/ax12.hpp:89-93 | `Ping(id)` is a fresh valid instruction to the id with code 0x01 and no parameters |
| LegacyAx12.ReadData | src/dynamixel/ax12.hpp:95-102 | `ReadData(id, p1, p2)` is a valid instruction to the id with code 0x02 and parameters p1, p2 |
| LegacyAx12.WriteData | src/dynamixel/ax12.hpp:104-111 | `WriteData(id, params)` is a valid instruction to the id with code 0x03 and exactly the given parameters; its assert of at least two parameters is required of the caller |
| LegacyAx12.WriteData2 | src/dynamixel/ax12.hpp:113-117 | the two-byte `WriteData` is a valid instruction with code 0x03 and parameters p1, p2 |
| LegacyAx12.WriteData3 | src/dynamixel/ax12.hpp:119-124 | the three-byte `WriteData` is a valid instruction with code 0x03 and parameters p1, p2, p3 |
| LegacyAx12.RegWrite | src/dynamixel/ax12.hpp:127-135 | `RegWrite(id, params)` is a valid instruction with code 0x04 and the given parameters; the assert of at least two parameters is required of the caller |
| LegacyAx12.Action | src/dynamixel/ax12.hpp:137-141 | `Action(id)` is a valid instruction with code 0x05 and no parameters |
| LegacyAx12.Reset | src/dynamixel/ax12.hpp:143-147 | `Reset(id)` is a valid instruction with code 0x06 and no parameters |
| LegacyAx12.SyncWrite | src/dynamixel/ax12.hpp:149-157 | `SyncWrite(id, params)` is a valid instruction with code 0x83 and the given parameters; the assert of at least four parameters is required of the caller |
| LegacyAx12.SetPosition | src/dynamixel/ax12.hpp:159-172 | `SetPosition(id, position)` is a SyncWrite addressed to the id with parameters 0x1E, 2, the id and the low and high bytes of the position |
| LegacyAx12.PositionParametersLoop | src/dynamixel/ax12.hpp:194-209 | the record loop of `_set_positions` produces 0x1E, 2 followed by the concatenated records id, low byte, high byte of each position, in order |
| LegacyAx12.SetPositions.constructor | src/dynamixel/ax12.hpp:179-184 | `SetPositions(ids, positions)` keeps the ids and holds a valid broadcast SyncWrite whose parameters are the position records of those ids; equal lengths (an assert) are required |
| LegacyAx12.SetPositions.Set | src/dynamixel/ax12.hpp:186-189 | `set_positions` rebuilds the packet for the stored ids: still a valid broadcast SyncWrite, now holding the records of the new positions |
| LegacyAx12.PositionsMatchSyncWrite | src/dynamixel/ax12.hpp:194-209 | the parameters of `SetPositions` are the very parameters the newer SyncWrite of the AX-12 goal position (address 30, two bytes) sends for the same ids and values, for every integer position |
| LegacyAx12.SpeedRecordValue | src/dynamixel/ax12.hpp:221-224 | for a speed 0 .. 1023 the record's high byte is the speed's high byte plus 4 when the direction is set, so that its two bytes read back to the speed with bit 10 as the direction |
| LegacyAx12.SetSpeed | src/dynamixel/ax12.hpp:212-227 | `SetSpeed(id, speed, direction)` raises "speed > 1023" exactly when the speed exceeds 1023 and otherwise is a SyncWrite to the id with parameters 0x20, 2 and the speed record |
| LegacyAx12.SpeedParametersLoop | src/dynamixel/ax12.hpp:263-280 | the record loop of `_set_speeds(speeds, directions)` raises at the first speed above 1023 and otherwise produces 0x20, 2 followed by the records of every servo in order |
| LegacyAx12.CounterClockwiseParametersLoop | src/dynamixel/ax12.hpp:282-296 | the record loop of `_set_speeds(speeds)`, whose high byte is `speeds[i] >> 8`, produces what the directed loop produces with every direction false |
| LegacyAx12.SetSpeeds.constructor | src/dynamixel/ax12.hpp:232-247 | both constructors start from a valid broadcast SyncWrite with no parameters and keep the id list |
| LegacyAx12.SetSpeeds.Set | src/dynamixel/ax12.hpp:249-253 | `set_speeds(speeds, directions)` succeeds exactly when no speed exceeds 1023 and then holds the speed records; on the error the packet is left untouched; equal lengths (asserts) are required |
| LegacyAx12.SetSpeeds.SetCounterClockwise | src/dynamixel/ax12.hpp:255-258 | `set_speeds(speeds)` behaves as `set_speeds` with every direction counter-clockwise: same error condition, same records, packet untouched on error |
| LegacyAx12.NewSetSpeeds | src/dynamixel/ax12.hpp:232-239 | `SetSpeeds(ids, speeds, directions)` raises exactly when a speed exceeds 1023 and otherwise holds the speed records for the ids |
| LegacyAx12.NewSetSpeedsCounterClockwise | src/dynamixel/ax12.hpp:241-247 | `SetSpeeds(ids, speeds)` raises exactly when a speed exceeds 1023 and otherwise holds the counter-clockwise speed records |
| LegacyAx12.SingleRecordForms | src/dynamixel/ax12.hpp:159-227 | the parameters of `SetPosition` are those of `SetPositions` for the single id, and those of an accepted `SetSpeed` are those of `SetSpeeds` for the single id |
| LegacyAx12.SetContinuous | src/dynamixel/ax12.hpp:299-310 | `SetContinuous(id)` is a Write to the id of the cw angle-limit address followed by four zero bytes |
| LegacyAx12.UnsetContinuous | src/dynamixel/ax12.hpp:312-325 | `UnsetContinuous(id)` is a Write to the id of the cw angle-limit address, two zero bytes, then 0xFF and 0x03 |
| LegacyAx12.ContinuousModes | src/dynamixel/ax12.hpp:299-325 | the limits `SetContinuous` writes (both 0) read as wheel mode and those of `UnsetContinuous` (0 and 0x3FF) as joint mode |
| LegacyAx12.TorqueEnable | src/dynamixel/ax12.hpp:327-334 | `TorqueEnable(id, b)` writes 1 or 0 at the torque-enable address 0x18 |
| LegacyAx12.SetAlarmLed | src/dynamixel/ax12.hpp:350-357 | `SetAlarmLed(value)` is a broadcast Write of the value at 0x11 |
| LegacyAx12.SetAlarmShutdown | src/dynamixel/ax12.hpp:358-365 | `SetAlarmShutdown(value)` is a broadcast Write of the value at 0x12 |
| LegacyAx12.GetPosition | src/dynamixel/ax12.hpp:367-372 | `GetPosition(id)` reads 2 bytes at the present-position address 0x24 |
| LegacyAx12.GetLoad | src/dynamixel/ax12.hpp:374-379 | `GetLoad(id)` reads 2 bytes at the present-load address 0x28 |
| LegacyAx12.GetVoltage | src/dynamixel/ax12.hpp:381-386 | `GetVoltage(id)` reads 1 byte at the present-voltage address 0x2A |
| LegacyAx12.ChangeBaudRate | src/dynamixel/ax12.hpp:388-396 | `ChangeBaudRate(code)` is a broadcast Write of the code at the baud-rate address 0x04 |
| LegacyAx12.ChangeId | src/dynamixel/ax12.hpp:397-404 | `ChangeId(old, new)` is a Write sent to the old id of the new id at the id address 0x03 |
| LegacyAx12.SetMaxTorque | src/dynamixel/ax12.hpp:406-419 | `SetMaxTorque(id, torque)` is a one-record SyncWrite to the id at the torque-limit address 0x22 with the low and high bytes of the torque |

## Left out

- Serial I/O, the controllers and the clock. The termios setup, the read and write calls and the timeouts are not modelled. Where the source sends a packet and waits for the reply (the auto-detect scan, the operating-mode reads), the bus is a parameter: a function from the packet sent to the reply received, or `None` for a timeout.
- Floating-point conversions: the angle, speed and torque conversions of the servo classes and of the protocol-specific packets.
- AutoDetect.GetServo: recognises eight of the fourteen classes the two switches name. Those are Ax12, Mx12, Mx28, Mx64, Mx106, Xl320 and the Pro L42-10-S300 and L54-50-S290. Mx12, Mx106 and the Pro L42-10-S300 take the numbers 360, 356 and 35072 from the control tables of the same servos (`src/dynamixel/models/mx12.hpp`, `mx106.hpp` and `pro_l42_10_s300.hpp`, line 20 of each). The headers of Ax12W, Ax18, Ex106 and the Pro L54-30-S400, L54-30-S500 and L54-50-S500 are not part of this model, and no other file gives their model numbers. A number that matches none of the eight raises "Unrecognized model number", and that includes whatever numbers those six classes carry.
- SyncRead: its parameter builder indexes with an undeclared variable and does not compile.
- The first `read.hpp`: it derives from an undefined `Packet` class.
- The `models/servo.hpp` builders that call an undeclared `get_typed`.
- Printing: `Status::print`, `StatusPacket::print`, and the debug output of SyncWrite.
- Destructors and `delete[]`: an `Instruction` buffer that gets replaced is left to the garbage collector.
- LegacyStatus.Status.GetParams: returns the parameters by copy. It has no contract because it is a plain accessor.
- InstructionPackets.InstructionPacket.Size and InstructionPackets.InstructionPacket.At: the same holds for them. The packet is an immutable value, so nothing can change its bytes after construction.
- LegacyStatus.FromBuffer: the source leaves the fields uninitialised before the decode. The model starts from id -1, length -1 and no parameters. Every successful decode overwrites all three, so the difference is invisible after success.
- LegacyStatus.Status.DecodePacket: uses the corrected size guard of 6 bytes (see Findings). A 5-byte buffer therefore returns false without being looked at, where the source would raise on a bad header or reset id and length on a length mismatch.
- StatusPackets.StatusPacket.DecodePacket: the class is modelled over the Protocol 1 decoder with a local `length`. The call at `status_packet.hpp:42` passes four arguments, which matches neither protocol's decoder.
- StatusPackets.StatusPacket.constructor: the source leaves `_id` uninitialised. The model sets it to 0, which no accessor reveals while the packet is not valid.
- Protocol2.Checksum: the source's loop bound `size - 2` underflows for a packet of fewer than 2 bytes. The model requires at least 2. Every packet the library passes has at least 10.
- Protocol2 test vectors: the concrete CRC values in `src/tests/generate_packets.cpp` are not evaluated. The CRC is proved to be the table-driven CRC of the bytes it covers, and the round trips hold for every packet.
- Instructions.SyncWriteParameters: the `assert`s of the source (a non-empty id list, one data vector per id, every vector as long as the first) are preconditions.
- The other asserts of the source are preconditions too: the parameter counts of the AX-12 vector constructors, the length checks of the AX-12 `SetPositions` and `SetSpeeds`, and the length check of the `ServoModel` bulk setters.
- Instructions.BulkWriteParameters: requires at least as many data vectors as ids. The source indexes `data[m]` without checking.
- `ServoModel::get_typed` (`models/servo_model.hpp:141-149`) is the same cast loop as `Servo::_get_typed`. It is modelled once, as `Servos.GetTyped`.

## Findings

| source | as written | input that shows it | evidently intended | confidence | as-written member | corrected member |
|---|---|---|---|---|---|---|
| src/dynamixel/protocols/protocol1.hpp:124-128 | the vector `pack_data` overloads pre-size the result with n empty entries and then append the n packed values, giving 2n entries | the vector [0x01] packs to [[], [0x01]] | one packed entry per value, [[0x01]] | not executed | Protocol1.PackedVectorAsWrittenExample | Protocol1.PackValues |
| src/dynamixel/instructions/bulk_write.hpp:27 | the BulkWrite parameter buffer has (5 + L) * n + 5 bytes, so five zero bytes follow the records and read as an extra record for id 0 with length 0 | ids [1], address 0x74, length 1, data [[7]] sends 1 74 00 01 00 07 00 00 00 00 00 | exactly the n records, (5 + L) * n bytes | not executed | Instructions.BulkWriteTrailerExample | Instructions.BulkWriteParameters |
| src/dynamixel/status.cpp:10-11 | `Status::decode_packet` accepts buffers of 5 bytes, so a length byte of 1 passes the length check and the loop bound `_length - 2`, a `size_t`, wraps to 2^64 - 1 and the loop reads past the buffer | FF FF 05 01 00 | the smallest status packet, 6 bytes, as the other decoders require | not executed | LegacyStatus.FiveByteStatusOverruns | LegacyStatus.ParametersFit |

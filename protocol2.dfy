/** Dynamixel Protocol 2.0 framing: FF FF FD 00 id lenLo lenHi instruction params crcLo crcHi. */
module Protocol2 {
  import opened Bytes
  import opened Errors

  const Version: uint8 := 2
  const BroadcastId: uint8 := 0xFE

  // Instruction codes.
  const PingCode: uint8 := 0x01
  const ReadCode: uint8 := 0x02
  const WriteCode: uint8 := 0x03
  const RegWriteCode: uint8 := 0x04
  const ActionCode: uint8 := 0x05
  const FactoryResetCode: uint8 := 0x06
  const RebootCode: uint8 := 0x08
  const SyncReadCode: uint8 := 0x82
  const SyncWriteCode: uint8 := 0x83
  const BulkReadCode: uint8 := 0x92
  const BulkWriteCode: uint8 := 0x93

  // ---------------------------------------------------------------- CRC-16

  /** The 256-entry lookup table of the CRC-16 (polynomial 0x8005); the last case is entry 255. */
  function CrcTable(i: bv8): bv16
  {
    match i
      case 0 => 0x0000 case 1 => 0x8005 case 2 => 0x800F case 3 => 0x000A
      case 4 => 0x801B case 5 => 0x001E case 6 => 0x0014 case 7 => 0x8011
      case 8 => 0x8033 case 9 => 0x0036 case 10 => 0x003C case 11 => 0x8039
      case 12 => 0x0028 case 13 => 0x802D case 14 => 0x8027 case 15 => 0x0022
      case 16 => 0x8063 case 17 => 0x0066 case 18 => 0x006C case 19 => 0x8069
      case 20 => 0x0078 case 21 => 0x807D case 22 => 0x8077 case 23 => 0x0072
      case 24 => 0x0050 case 25 => 0x8055 case 26 => 0x805F case 27 => 0x005A
      case 28 => 0x804B case 29 => 0x004E case 30 => 0x0044 case 31 => 0x8041
      case 32 => 0x80C3 case 33 => 0x00C6 case 34 => 0x00CC case 35 => 0x80C9
      case 36 => 0x00D8 case 37 => 0x80DD case 38 => 0x80D7 case 39 => 0x00D2
      case 40 => 0x00F0 case 41 => 0x80F5 case 42 => 0x80FF case 43 => 0x00FA
      case 44 => 0x80EB case 45 => 0x00EE case 46 => 0x00E4 case 47 => 0x80E1
      case 48 => 0x00A0 case 49 => 0x80A5 case 50 => 0x80AF case 51 => 0x00AA
      case 52 => 0x80BB case 53 => 0x00BE case 54 => 0x00B4 case 55 => 0x80B1
      case 56 => 0x8093 case 57 => 0x0096 case 58 => 0x009C case 59 => 0x8099
      case 60 => 0x0088 case 61 => 0x808D case 62 => 0x8087 case 63 => 0x0082
      case 64 => 0x8183 case 65 => 0x0186 case 66 => 0x018C case 67 => 0x8189
      case 68 => 0x0198 case 69 => 0x819D case 70 => 0x8197 case 71 => 0x0192
      case 72 => 0x01B0 case 73 => 0x81B5 case 74 => 0x81BF case 75 => 0x01BA
      case 76 => 0x81AB case 77 => 0x01AE case 78 => 0x01A4 case 79 => 0x81A1
      case 80 => 0x01E0 case 81 => 0x81E5 case 82 => 0x81EF case 83 => 0x01EA
      case 84 => 0x81FB case 85 => 0x01FE case 86 => 0x01F4 case 87 => 0x81F1
      case 88 => 0x81D3 case 89 => 0x01D6 case 90 => 0x01DC case 91 => 0x81D9
      case 92 => 0x01C8 case 93 => 0x81CD case 94 => 0x81C7 case 95 => 0x01C2
      case 96 => 0x0140 case 97 => 0x8145 case 98 => 0x814F case 99 => 0x014A
      case 100 => 0x815B case 101 => 0x015E case 102 => 0x0154 case 103 => 0x8151
      case 104 => 0x8173 case 105 => 0x0176 case 106 => 0x017C case 107 => 0x8179
      case 108 => 0x0168 case 109 => 0x816D case 110 => 0x8167 case 111 => 0x0162
      case 112 => 0x8123 case 113 => 0x0126 case 114 => 0x012C case 115 => 0x8129
      case 116 => 0x0138 case 117 => 0x813D case 118 => 0x8137 case 119 => 0x0132
      case 120 => 0x0110 case 121 => 0x8115 case 122 => 0x811F case 123 => 0x011A
      case 124 => 0x810B case 125 => 0x010E case 126 => 0x0104 case 127 => 0x8101
      case 128 => 0x8303 case 129 => 0x0306 case 130 => 0x030C case 131 => 0x8309
      case 132 => 0x0318 case 133 => 0x831D case 134 => 0x8317 case 135 => 0x0312
      case 136 => 0x0330 case 137 => 0x8335 case 138 => 0x833F case 139 => 0x033A
      case 140 => 0x832B case 141 => 0x032E case 142 => 0x0324 case 143 => 0x8321
      case 144 => 0x0360 case 145 => 0x8365 case 146 => 0x836F case 147 => 0x036A
      case 148 => 0x837B case 149 => 0x037E case 150 => 0x0374 case 151 => 0x8371
      case 152 => 0x8353 case 153 => 0x0356 case 154 => 0x035C case 155 => 0x8359
      case 156 => 0x0348 case 157 => 0x834D case 158 => 0x8347 case 159 => 0x0342
      case 160 => 0x03C0 case 161 => 0x83C5 case 162 => 0x83CF case 163 => 0x03CA
      case 164 => 0x83DB case 165 => 0x03DE case 166 => 0x03D4 case 167 => 0x83D1
      case 168 => 0x83F3 case 169 => 0x03F6 case 170 => 0x03FC case 171 => 0x83F9
      case 172 => 0x03E8 case 173 => 0x83ED case 174 => 0x83E7 case 175 => 0x03E2
      case 176 => 0x83A3 case 177 => 0x03A6 case 178 => 0x03AC case 179 => 0x83A9
      case 180 => 0x03B8 case 181 => 0x83BD case 182 => 0x83B7 case 183 => 0x03B2
      case 184 => 0x0390 case 185 => 0x8395 case 186 => 0x839F case 187 => 0x039A
      case 188 => 0x838B case 189 => 0x038E case 190 => 0x0384 case 191 => 0x8381
      case 192 => 0x0280 case 193 => 0x8285 case 194 => 0x828F case 195 => 0x028A
      case 196 => 0x829B case 197 => 0x029E case 198 => 0x0294 case 199 => 0x8291
      case 200 => 0x82B3 case 201 => 0x02B6 case 202 => 0x02BC case 203 => 0x82B9
      case 204 => 0x02A8 case 205 => 0x82AD case 206 => 0x82A7 case 207 => 0x02A2
      case 208 => 0x82E3 case 209 => 0x02E6 case 210 => 0x02EC case 211 => 0x82E9
      case 212 => 0x02F8 case 213 => 0x82FD case 214 => 0x82F7 case 215 => 0x02F2
      case 216 => 0x02D0 case 217 => 0x82D5 case 218 => 0x82DF case 219 => 0x02DA
      case 220 => 0x82CB case 221 => 0x02CE case 222 => 0x02C4 case 223 => 0x82C1
      case 224 => 0x8243 case 225 => 0x0246 case 226 => 0x024C case 227 => 0x8249
      case 228 => 0x0258 case 229 => 0x825D case 230 => 0x8257 case 231 => 0x0252
      case 232 => 0x0270 case 233 => 0x8275 case 234 => 0x827F case 235 => 0x027A
      case 236 => 0x826B case 237 => 0x026E case 238 => 0x0264 case 239 => 0x8261
      case 240 => 0x0220 case 241 => 0x8225 case 242 => 0x822F case 243 => 0x022A
      case 244 => 0x823B case 245 => 0x023E case 246 => 0x0234 case 247 => 0x8231
      case 248 => 0x8213 case 249 => 0x0216 case 250 => 0x021C case 251 => 0x8219
      case 252 => 0x0208 case 253 => 0x820D case 254 => 0x8207 case _ => 0x0202
  }

  /** One table-driven step: `(crc << 8) ^ table[((crc >> 8) ^ b) & 0xFF]`; the mask is the narrowing to 8 bits. */
  function CrcStep(crc: bv16, b: uint8): bv16
  {
    (crc << 8) ^ CrcTable(((crc >> 8) as bv8) ^ (b as bv8))
  }

  /** The CRC register after feeding `bytes`, starting from 0. */
  function Crc(bytes: seq<uint8>): bv16
  {
    if bytes == [] then 0 else CrcStep(Crc(bytes[..|bytes| - 1]), bytes[|bytes| - 1])
  }

  /** `_checksum`: the CRC of every byte but the last two. */
  function ChecksumOf(packet: seq<uint8>): uint16
    requires |packet| >= 2
  {
    Crc(packet[..|packet| - 2]) as int
  }

  /** The two trailing bytes never enter the checksum, so filling them in keeps it. */
  lemma ChecksumIgnoresTrailer(packet: seq<uint8>, lo: uint8, hi: uint8)
    requires |packet| >= 2
    ensures ChecksumOf(packet[..|packet| - 2] + [lo, hi]) == ChecksumOf(packet)
  {
    assert (packet[..|packet| - 2] + [lo, hi])[..|packet| - 2] == packet[..|packet| - 2];
  }

  method Checksum(packet: seq<uint8>) returns (crc: uint16)
    requires |packet| >= 2
    ensures crc == ChecksumOf(packet)
  {
    var accum: bv16 := 0;
    for j := 0 to |packet| - 2
      invariant accum == Crc(packet[..j])
    {
      assert packet[..j + 1][..j] == packet[..j];
      accum := CrcStep(accum, packet[j]);
    }
    crc := accum as int;
  }

  // ---------------------------------------------------------------- packing

  /** Header, reserved byte, id, 16-bit length (parameters + 3), instruction and parameters. */
  function Frame(id: uint8, instr: uint8, parameters: seq<uint8>): seq<uint8>
  {
    [0xFF, 0xFF, 0xFD, 0x00, id, Low(|parameters| + 3), High(|parameters| + 3), instr] + parameters
  }

  /** The instruction packet; the CRC is taken while its two slots still hold 0. */
  function Packet(id: uint8, instr: uint8, parameters: seq<uint8>): seq<uint8>
  {
    var frame := Frame(id, instr, parameters);
    var crc := ChecksumOf(frame + [0, 0]);
    frame + [Low(crc), High(crc)]
  }

  /** The packet of the two-argument `pack_instruction`, as that overload writes it. */
  function PacketNoParams(id: uint8, instr: uint8): seq<uint8>
  {
    var crc := ChecksumOf([0xFF, 0xFF, 0xFD, 0x00, id, 3, 0, instr, 0, 0]);
    [0xFF, 0xFF, 0xFD, 0x00, id, 3, 0, instr, Low(crc), High(crc)]
  }

  lemma NoParamsIsEmptyParams(id: uint8, instr: uint8)
    ensures PacketNoParams(id, instr) == Packet(id, instr, [])
  {
    var frame := Frame(id, instr, []);
    assert frame == [0xFF, 0xFF, 0xFD, 0x00, id, 3, 0, instr];
    assert frame + [0, 0] == [0xFF, 0xFF, 0xFD, 0x00, id, 3, 0, instr, 0, 0];
    var crc := ChecksumOf(frame + [0, 0]);
    assert Packet(id, instr, []) == frame + [Low(crc), High(crc)];
  }

  lemma PacketLayout(id: uint8, instr: uint8, parameters: seq<uint8>)
    ensures var p := Packet(id, instr, parameters);
      && |p| == 10 + |parameters|
      && p[..4] == [0xFF, 0xFF, 0xFD, 0x00] && p[4] == id && p[7] == instr
      && p[6] as int * 0x100 + p[5] as int == (|parameters| + 3) % 0x1_0000
      && p[8..8 + |parameters|] == parameters
  {
    var n := |parameters| + 3;
    assert n % 0x100 + 0x100 * ((n / 0x100) % 0x100) == n % 0x1_0000 by {
      ModStep(n, 0x100);
    }
    var p := Packet(id, instr, parameters);
    assert p[..8 + |parameters|] == Frame(id, instr, parameters);
  }

  /** A built packet carries, in its last two bytes, the CRC of everything before them. */
  lemma PacketChecksum(id: uint8, instr: uint8, parameters: seq<uint8>)
    ensures var p := Packet(id, instr, parameters);
      ReceivedChecksum(p) == ChecksumOf(p)
  {
    var frame := Frame(id, instr, parameters);
    var p := Packet(id, instr, parameters);
    var crc := ChecksumOf(frame + [0, 0]);
    assert ChecksumOf(p) == crc by {
      assert p[..|p| - 2] == frame == (frame + [0, 0])[..|frame|];
    }
    assert ReceivedChecksum(p) == High(crc) * 0x100 + Low(crc);
    SplitUint16(crc);
  }

  /** `pack_instruction(id, instr)`: writes a zeroed 10-byte vector by index. */
  method PackInstructionNoParams(id: uint8, instr: uint8) returns (packet: seq<uint8>)
    ensures packet == PacketNoParams(id, instr)
  {
    packet := seq(10, _ => 0);
    packet := packet[0 := 0xFF][1 := 0xFF][2 := 0xFD][3 := 0x00][4 := id][5 := 3][6 := 0][7 := instr];
    assert packet == [0xFF, 0xFF, 0xFD, 0x00, id, 3, 0, instr, 0, 0];
    var checksum := Checksum(packet);
    packet := packet[8 := Low(checksum)][9 := High(checksum)];
  }

  /** `pack_instruction(id, instr, parameters)`: writes a zeroed vector by index. */
  method PackInstruction(id: uint8, instr: uint8, parameters: seq<uint8>) returns (packet: seq<uint8>)
    ensures packet == Packet(id, instr, parameters)
  {
    var size := 10 + |parameters|;
    ghost var frame := Frame(id, instr, parameters);
    packet := seq(size, _ => 0);
    packet := packet[0 := 0xFF][1 := 0xFF][2 := 0xFD][3 := 0x00][4 := id]
                    [5 := Low(|parameters| + 3)][6 := High(|parameters| + 3)][7 := instr];
    assert packet[..8] == frame[..8];
    for i := 0 to |parameters|
      invariant |packet| == size
      invariant packet[..8 + i] == frame[..8 + i]
      invariant packet[size - 2] == 0 && packet[size - 1] == 0
    {
      packet := packet[8 + i := parameters[i]];
      assert packet[..8 + i + 1] == packet[..8 + i] + [packet[8 + i]];
      assert frame[..8 + i + 1] == frame[..8 + i] + [parameters[i]];
    }
    assert packet == frame + [0, 0] by {
      assert packet == packet[..size - 2] + [packet[size - 2], packet[size - 1]];
    }
    var checksum := Checksum(packet);
    packet := packet[size - 2 := Low(checksum)][size - 1 := High(checksum)];
    assert packet == packet[..size - 2] + [packet[size - 2], packet[size - 1]];
  }

  // ---------------------------------------------------------------- data

  function PackData8(data: uint8): seq<uint8>
  {
    [data]
  }

  function PackData16(data: uint16): seq<uint8>
  {
    [Low(data), High(data)]
  }

  /** The four bytes `(x >> 8k) & 0xFF` of a 32-bit value, low byte first. */
  function Split32(x: int): seq<uint8>
  {
    [Low(x), High(x), Low(x / 0x1_0000), Low(x / 0x100_0000)]
  }

  function PackDataU32(data: uint32): seq<uint8>
  {
    Split32(data)
  }

  /** Signed values are split as their two's-complement bit pattern. */
  function PackDataI32(data: int32): seq<uint8>
  {
    Split32(data)
  }

  /** The explicit byte split is the 4-byte little-endian encoding. */
  lemma Split32IsLittleEndian(x: int)
    ensures Split32(x) == LittleEndian(x, 4)
  {
    assert x / 0x100 / 0x100 == x / 0x1_0000;
    assert x / 0x1_0000 / 0x100 == x / 0x100_0000;
    assert LittleEndian(x, 4)[2] == Low(x / 0x100 / 0x100);
    assert LittleEndian(x, 4)[3] == Low(x / 0x100 / 0x100 / 0x100);
  }

  function UnpackData8(packet: seq<uint8>): uint8
    requires |packet| > 0
  {
    packet[0]
  }

  function UnpackData16(packet: seq<uint8>): uint16
    requires |packet| == 2
  {
    packet[1] as int * 0x100 + packet[0] as int
  }

  function UnpackDataU32(packet: seq<uint8>): uint32
    requires |packet| == 4
  {
    packet[3] as int * 0x100_0000 + packet[2] as int * 0x1_0000 + packet[1] as int * 0x100 + packet[0] as int
  }

  /** The 32-bit pattern read back as a two's-complement integer. */
  function UnpackDataI32(packet: seq<uint8>): int32
    requires |packet| == 4
  {
    var u := UnpackDataU32(packet);
    if u < 0x8000_0000 then u else u - 0x1_0000_0000
  }

  lemma UnpackDataU32IsLittleEndian(packet: seq<uint8>)
    requires |packet| == 4
    ensures UnpackDataU32(packet) == FromLittleEndian(packet)
  {
    var t := packet[1..][1..][1..];
    assert t == [packet[3]] && t[1..] == [];
    assert FromLittleEndian(t) == packet[3];
    assert FromLittleEndian(packet[1..][1..]) == packet[2] as int + 0x100 * packet[3] as int;
    assert FromLittleEndian(packet[1..]) == packet[1] as int + 0x100 * (packet[2] as int + 0x100 * packet[3] as int);
  }

  /** Helper for the 32-bit cases: four bytes span 2^32. */
  lemma Pow256Four()
    ensures Pow256(4) == 0x1_0000_0000
  {
    assert Pow256(2) == 0x1_0000;
  }

  lemma UnpackPack8(v: uint8)
    ensures UnpackData8(PackData8(v)) == v
  {
  }

  lemma UnpackPack16(v: uint16)
    ensures UnpackData16(PackData16(v)) == v
  {
  }

  lemma PackUnpack16(packet: seq<uint8>)
    requires |packet| == 2
    ensures PackData16(UnpackData16(packet)) == packet
  {
    var v := UnpackData16(packet);
    assert v % 0x100 == packet[0];
    assert v / 0x100 == packet[1];
  }

  /** `unpack_data` inverts `pack_data` on unsigned 32-bit values... */
  lemma UnpackPackU32(v: uint32)
    ensures UnpackDataU32(PackDataU32(v)) == v
  {
    Split32IsLittleEndian(v);
    UnpackDataU32IsLittleEndian(PackDataU32(v));
    LittleEndianRoundTrip(v, 4);
    Pow256Four();
    ModUnique(v, 0x1_0000_0000, 0, v);
  }

  /** ... and, conversely, re-packing an unpacked value gives the same four bytes. */
  lemma PackUnpackU32(packet: seq<uint8>)
    requires |packet| == 4
    ensures PackDataU32(UnpackDataU32(packet)) == packet
  {
    UnpackDataU32IsLittleEndian(packet);
    Split32IsLittleEndian(UnpackDataU32(packet));
    FromLittleEndianRoundTrip(packet);
  }

  /** Negative values survive the trip through their two's-complement bytes. */
  lemma UnpackPackI32(v: int32)
    ensures UnpackDataI32(PackDataI32(v)) == v
  {
    Split32IsLittleEndian(v);
    UnpackDataU32IsLittleEndian(PackDataI32(v));
    LittleEndianRoundTrip(v, 4);
    Pow256Four();
    if v < 0 {
      ModUnique(v, 0x1_0000_0000, -1, v + 0x1_0000_0000);
    }
  }

  lemma PackUnpackI32(packet: seq<uint8>)
    requires |packet| == 4
    ensures PackDataI32(UnpackDataI32(packet)) == packet
  {
    var u := UnpackDataU32(packet);
    var v := UnpackDataI32(packet);
    UnpackDataU32IsLittleEndian(packet);
    FromLittleEndianRoundTrip(packet);
    Split32IsLittleEndian(v);
    Pow256Four();
    ModUnique(u, 0x1_0000_0000, 0, u);
    ModUnique(u as int - 0x1_0000_0000, 0x1_0000_0000, -1, u);
    LittleEndianModular(v, u, 4);
  }

  // ---------------------------------------------------------------- status

  /** The result of `unpack_status` and the values of its reference parameters afterwards. */
  datatype Unpacked = Unpacked(complete: Result<bool>, id: uint8, parameters: seq<uint8>)

  /** The received CRC, high byte last. */
  function ReceivedChecksum(packet: seq<uint8>): uint16
    requires |packet| >= 2
  {
    packet[|packet| - 1] as int * 0x100 + packet[|packet| - 2] as int
  }

  /** `unpack_status`, as a function of the packet and the incoming reference values. */
  function Unpack(packet: seq<uint8>, id: uint8, parameters: seq<uint8>): Unpacked
  {
    if |packet| < 11 then
      Unpacked(Success(false), id, parameters)
    else if packet[0] != 0xFF || packet[1] != 0xFF || packet[2] != 0xFD then
      Unpacked(Failure(Error(BadHeader)), id, parameters)
    else
      var length := packet[6] as int * 0x100 + packet[5] as int;
      if length != |packet| - 7 then
        Unpacked(Success(false), id, parameters)
      else
        // id and parameters are written before the CRC is compared
        var id' := packet[4];
        var parameters' := packet[9..9 + length - 4];
        if ChecksumOf(packet) != ReceivedChecksum(packet) then
          Unpacked(Failure(CrcError(id', 2, ChecksumOf(packet), ReceivedChecksum(packet))), id', parameters')
        else if packet[8] != 0 then
          Unpacked(Failure(StatusError(id', 2, packet[8])), id', parameters')
        else
          Unpacked(Success(true), id', parameters')
  }

  /** `unpack_status(packet, id, parameters)`. */
  method UnpackStatus(packet: seq<uint8>, id: uint8, parameters: seq<uint8>)
    returns (complete: Result<bool>, id': uint8, parameters': seq<uint8>)
    ensures Unpacked(complete, id', parameters') == Unpack(packet, id, parameters)
  {
    id', parameters' := id, parameters;
    if |packet| < 11 {
      return Success(false), id', parameters';
    }
    if packet[0] != 0xFF || packet[1] != 0xFF || packet[2] != 0xFD {
      return Failure(Error(BadHeader)), id', parameters';
    }
    var length := packet[6] as int * 0x100 + packet[5] as int;
    if length != |packet| - 7 {
      return Success(false), id', parameters';
    }
    id' := packet[4];
    var error := packet[8];
    parameters' := [];
    for i := 0 to length - 4
      invariant parameters' == packet[9..9 + i]
    {
      parameters' := parameters' + [packet[9 + i]];
    }
    var checksum := Checksum(packet);
    var received := ReceivedChecksum(packet);
    if checksum != received {
      return Failure(CrcError(id', 2, checksum, received)), id', parameters';
    }
    if error != 0 {
      return Failure(StatusError(id', 2, error)), id', parameters';
    }
    return Success(true), id', parameters';
  }

  /** Incomplete or inconsistent input leaves the reference parameters alone; a bad header raises. */
  lemma UnpackNoProgress(packet: seq<uint8>, id: uint8, parameters: seq<uint8>)
    ensures var u := Unpack(packet, id, parameters);
      && (|packet| < 11 ==> u == Unpacked(Success(false), id, parameters))
      && (|packet| >= 11 && packet[..3] != [0xFF, 0xFF, 0xFD] ==> u == Unpacked(Failure(Error(BadHeader)), id, parameters))
      && (u.complete == Success(false) ==> u.id == id && u.parameters == parameters)
  {
    if |packet| >= 11 && packet[..3] != [0xFF, 0xFF, 0xFD] {
      assert packet[0] != 0xFF || packet[1] != 0xFF || packet[2] != 0xFD;
    }
  }

  /** Success exactly for a complete, consistent, CRC-correct, error-free packet; its parameters sit between the error byte and the CRC. */
  lemma UnpackComplete(packet: seq<uint8>, id: uint8, parameters: seq<uint8>)
    ensures var u := Unpack(packet, id, parameters);
      && (u.complete == Success(true) <==>
            |packet| >= 11 && packet[..3] == [0xFF, 0xFF, 0xFD]
            && packet[6] as int * 0x100 + packet[5] as int == |packet| - 7
            && ChecksumOf(packet) == ReceivedChecksum(packet) && packet[8] == 0)
      && (u.complete == Success(true) ==> u.id == packet[4] && u.parameters == packet[9..|packet| - 2])
  {
  }

  /** A CRC mismatch is reported, but only after the id and parameters were overwritten. */
  lemma UnpackCrcMismatch(packet: seq<uint8>, id: uint8, parameters: seq<uint8>)
    requires |packet| >= 11 && packet[..3] == [0xFF, 0xFF, 0xFD]
    requires packet[6] as int * 0x100 + packet[5] as int == |packet| - 7
    requires ChecksumOf(packet) != ReceivedChecksum(packet)
    ensures Unpack(packet, id, parameters)
         == Unpacked(Failure(CrcError(packet[4], 2, ChecksumOf(packet), ReceivedChecksum(packet))),
                     packet[4], packet[9..|packet| - 2])
  {
  }

  /** Round trip: a status packet built with error byte 0 decodes to its id and parameters. */
  lemma UnpackPacket(id: uint8, instr: uint8, parameters: seq<uint8>, id0: uint8, params0: seq<uint8>)
    requires |parameters| + 4 < 0x1_0000
    ensures Unpack(Packet(id, instr, [0] + parameters), id0, params0) == Unpacked(Success(true), id, parameters)
  {
    var ps := [0] + parameters;
    var p := Packet(id, instr, ps);
    PacketLayout(id, instr, ps);
    PacketChecksum(id, instr, ps);
    assert p[..3] == p[..4][..3] == [0xFF, 0xFF, 0xFD];
    assert p[8] == 0 by {
      assert p[8..8 + |ps|][0] == ps[0];
    }
    assert p[9..|p| - 2] == parameters by {
      assert p[9..|p| - 2] == p[8..8 + |ps|][1..];
    }
    assert p[6] as int * 0x100 + p[5] as int == |p| - 7;
  }

  /** The error byte of a status: bit 7 is a hardware alert, the low seven bits a code. */
  datatype ErrorCode = ResultFail | InstructionError | CrcFailure | DataRange | DataLength | DataLimit | Access

  function DeviceAlert(error: uint8): bool
  {
    error >= 0x80
  }

  function Code(error: uint8): (r: Option<ErrorCode>)
    ensures r.None? <==> error % 0x80 == 0 || error % 0x80 > 7
  {
    match error % 0x80
    case 1 => Some(ResultFail)
    case 2 => Some(InstructionError)
    case 3 => Some(CrcFailure)
    case 4 => Some(DataRange)
    case 5 => Some(DataLength)
    case 6 => Some(DataLimit)
    case 7 => Some(Access)
    case _ => None
  }

  /** The alert reply of actuator 4 in the test frames carries error byte 0x84: a hardware alert with code 4. */
  lemma AlertErrorByte()
    ensures DeviceAlert(0x84) && Code(0x84) == Some(DataRange)
  {
  }
}

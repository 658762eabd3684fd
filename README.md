# Waveshare Modbus relay client: frame construction and CRC

`relay.py` is a command-line client for an 8-channel Waveshare relay board. The
board speaks Modbus RTU over TCP. Every request is an 8-byte frame laid out as
follows:

- byte 0: the device address, 0x01;
- byte 1: a function code;
- bytes 2-5: two 16-bit big-endian fields;
- bytes 6-7: the Modbus CRC-16 of bytes 0-5, low byte first.

This project models the part of the client that computes something:

- `bits.dfy` (module `Bits`): Python's `^`, `&`, `|`, `<<` and `>>` on
  non-negative ints. Each is defined bit by bit from the low end, which is how
  Python defines them. Lemmas give the meaning of each operator bit by bit
  and the facts the rest of the model uses.
- `crc.dfy` (module `ModbusCrc`):
  - the two 256-entry CRC tables, as lookups on the index, entry for entry as
    in the source;
  - one loop step on the register pair (`crcHigh`, `crcLow`);
  - the checksum as a left fold of that step;
  - the loop method `ModbusCRC`, proved equal to the fold.
- `frames.dfy` (module `Frames`):
  - `sign_cmd`, as a method that writes bytes 6 and 7 of an array in place;
  - the three frame builders. Each allocates an 8-entry array as the source
    does, fills it index by index, signs it and returns a copy of its contents.
- `vectors.dfy` (module `KnownVectors`): the two published example requests,
  relay 1 on (`01 05 00 00 FF 00`, signed `8C 3A`) and the state request
  (`01 01 00 00 00 08`, signed `3D CC`). Each CRC is proved one loop step at a
  time, each step from its exclusive ors and the two table entries it reads.
- `cli.dfy` (module `Cli`): the two pure pieces inside `main`. One is the
  flash-duration range check. The other decodes the state reply into eight
  relay flags; it comes with an inverse (`Pack`) and round-trip lemmas.

Bytes are `int`s restricted to 0..255 (`ModbusCrc.Byte`), as in the Python
lists the source builds. The relay number, the command code and the duration
arrive as Python ints. Their byte ranges are preconditions, because Python
raises an exception outside them.

The tables are written as 16 lines of 16 entries: line `index / 16`, column
`index % 16`, in the order of the source lists.

## Model

| member | source | states |
|---|---|---|
| Bits.Xor | relay.py:65-66 | Python's `a ^ b` on non-negative ints, computed from the lowest bit up; its meaning per bit is Bits.XorBit |
| Bits.And | relay.py:73 | Python's `a & b` on non-negative ints; its meaning per bit is Bits.AndBit |
| Bits.Or | relay.py:68 | Python's bitwise or of non-negative ints; its meaning per bit is Bits.OrBit |
| Bits.ShiftLeft | relay.py:68 | Python's `a << k`; its meaning per bit is Bits.ShiftLeftBit |
| Bits.ShiftRight | relay.py:74 | Python's `a >> k`; its meaning per bit is Bits.ShiftRightBit |
| Bits.XorBit | relay.py:65-66 | bit `i` of `a ^ b` is set exactly when it is set in one operand and not the other |
| Bits.AndBit | relay.py:73 | bit `i` of `a & b` is set exactly when it is set in both operands |
| Bits.OrBit | relay.py:68 | bit `i` of `a` or-ed with `b` is set exactly when it is set in either operand |
| Bits.ShiftLeftBit | relay.py:68 | bit `i` of `a << k` is bit `i - k` of `a` when `i >= k`, and clear below `k` |
| Bits.ShiftRightBit | relay.py:74 | bit `i` of `a >> k` is bit `i + k` of `a` |
| Bits.XorByte | relay.py:65 | `crcLow ^ byte` of two bytes is below 256, so every table index is in range |
| Bits.XorZero | relay.py:65-66 | `a ^ b == 0` exactly when `a == b` |
| Bits.JoinByte | relay.py:68 | `hi << 8` or-ed with `lo` for a byte `lo` equals `hi * 256 + lo` |
| Bits.SplitAt | relay.py:73-74 | `(a >> k) << k` plus `a & (2^k - 1)` gives `a` back |
| Bits.AndBound | relay.py:73 | `a & m` is at most `m`, so `crc & 0xFF` is a byte |
| Bits.AndSingleBit | relay.py:164 | `a & (1 << i) != 0` holds exactly when bit `i` of `a` is set |
| Bits.OrDisjoint | relay.py:68 | or-ing a value below 2^k into a value shifted left by k adds them |
| Bits.XorBound | relay.py:65-66 | two values below 2^k have their xor below 2^k |
| Bits.ShiftLeftIsMul | relay.py:68 | `a << k == a * 2^k` |
| ModbusCrc.TableHigh | relay.py:18-37 | entry `index` of `CRCTableHigh`, entry for entry as in the source list; entry 0 is 0 |
| ModbusCrc.TableLow | relay.py:40-59 | entry `index` of `CRCTableLow`, entry for entry as in the source list; entry 0 is its only zero entry |
| ModbusCrc.Step | relay.py:65-67 | one loop iteration: `index` from the old `crcLow`, new `crcLow = crcHigh ^ CRCTableHigh[index]`, new `crcHigh = CRCTableLow[index]`; the new `crcHigh` is 0 exactly when the byte equals the old `crcLow`, and then the new `crcLow` is the old `crcHigh` |
| ModbusCrc.Run | relay.py:63-67 | the registers after the loop has consumed `data`, starting from the given pair; its fold law is ModbusCrc.RunAppend |
| ModbusCrc.Word | relay.py:68 | a 16-bit value from a high and a low byte; the value is below 0x10000 and its two bytes are `hi` and `lo` |
| ModbusCrc.Crc | relay.py:62-68 | the checksum is in 0..0xFFFF, and the checksum of no bytes is 0xFFFF, the initial registers |
| ModbusCrc.RunAppend | relay.py:64-67 | the CRC loop is a left fold: running over `a + b` is running over `a`, then over `b` starting from the registers `a` left |
| ModbusCrc.RunPair | relay.py:64-67 | feeding two bytes is two loop iterations |
| ModbusCrc.CrcResidue | relay.py:62-75 | the checksum of a message with two bytes appended is 0 exactly when those bytes are the message's checksum, low byte first |
| ModbusCrc.JoinRegisters | relay.py:68 | `crcHigh << 8` or-ed with `crcLow` is the 16-bit value of the register pair |
| ModbusCrc.ModbusCRC | relay.py:62-68 | the loop with `crcHigh`/`crcLow` (new `crcHigh` from the index computed before `crcLow` changes) returns exactly the left-fold checksum `Crc(data)` |
| Frames.CrcLowByte | relay.py:73 | `crc & 0xFF` is `crc % 256` |
| Frames.CrcHighByte | relay.py:74 | `crc >> 8` is `crc / 256`, a byte for a 16-bit checksum |
| Frames.SplitCrc | relay.py:73-74 | `(crc >> 8) * 256 + (crc & 0xFF) == crc`, and the low part is a byte |
| Frames.JoinCrcBytes | relay.py:73-74 | `cmd[7] << 8` or-ed with `cmd[6]` rebuilds the checksum that `sign_cmd` split |
| Frames.JoinBytes | relay.py:73-74 | two bytes joined as `hi << 8` or-ed with `lo` give `crc` exactly when they are its high and low bytes |
| Frames.SignedJoin | relay.py:71-75 | a frame is signed exactly when `frame[7] << 8` or-ed with `frame[6]` is the CRC of bytes 0..5 |
| Frames.SignedFrameChecks | relay.py:71-75 | an 8-byte frame is signed exactly when the CRC over all 8 bytes is 0, the check a Modbus receiver makes |
| Frames.ToBytesBig | relay.py:97 | `duration.to_bytes(2, byteorder='big')` gives two bytes that read back, big-endian, as the duration |
| Frames.SignCmd | relay.py:71-75 | `cmd[6] = crc & 0xFF`, `cmd[7] = crc >> 8` for the CRC of `cmd[0:6]`; bytes 0..5 and any beyond 7 are unchanged; the first 8 bytes form a signed frame |
| Frames.RelayCmd | relay.py:78-86 | the frame is `[0x01, 0x05, 0x00, n, command, 0x00]` followed by that payload's CRC, low byte first |
| Frames.RelayFlashCmd | relay.py:89-98 | the frame is `[0x01, 0x05, command, n, duration / 256, duration % 256]` followed by its CRC, for every duration in 0..65535 |
| Frames.StateCmd | relay.py:101-109 | the frame is `[0x01, 0x01, 0x00, 0x00, 0x00, 0x08]` followed by its CRC |
| KnownVectors.RelayOnCrc | relay.py:62-68 | the CRC of the payload `01 05 00 00 FF 00` is 0x3A8C, the published value |
| KnownVectors.StateRequestCrc | relay.py:62-68 | the CRC of the payload `01 01 00 00 00 08` is 0xCC3D, the published value |
| KnownVectors.RelayOnFrame | relay.py:78-86 | a signed frame with the payload `relay_cmd(0, COM_ON)` builds is `01 05 00 00 FF 00 8C 3A` |
| KnownVectors.StateRequestFrame | relay.py:101-109 | a signed frame with the payload `state_cmd()` builds is `01 01 00 00 00 08 3D CC` |
| Cli.DurationType | relay.py:139-143 | accepts a value exactly when 1 <= value <= 65535 and returns it unchanged; otherwise fails with "Duration must be between 1 and 65535" |
| Cli.RelayStates | relay.py:164 | eight flags; flag `i` is set exactly when bit `i` of the state byte is set |
| Cli.DecodeStates | relay.py:163-164 | a reply of at least 4 bytes decodes to 8 flags, flag `i` being bit `i` of `response[3]`; a shorter reply is an error (Python's `IndexError`) |
| Cli.Pack | relay.py:164 | the state byte that reports a list of flags, relay 1 in the lowest bit, is below 2^(number of flags) |
| Cli.DecodePack | relay.py:164 | decoding the byte packed from 8 flags gives the flags back |
| Cli.PackDecode | relay.py:164 | packing the decoded flags gives the state byte back |
| Cli.DecodeExample | relay.py:163-164 | a reply with state byte 0x05 reports relays 1 and 3 on and the rest off |

## Left out

- `send_cmd` (relay.py:112-119) is left out: it writes the frame to a socket, reads
  the reply and logs both in hex. All of that is I/O.
- The rest of `main` (relay.py:122-180) is left out. That covers argument
  parsing, logging set-up, the socket connection and `json.dumps` printing. It
  also covers the two `coms` dictionaries, which map action names to the
  command constants `COM_ON`, `COM_OFF`, `COM_FLIP`, `COM_FLASH_ON` and
  `COM_FLASH_OFF` (relay.py:10-15), and the `number - 1` mapping from 1-based
  relay numbers. The constants are used nowhere else, so the model does not
  declare them: the builders accept any byte as `command` and as `n`. "All
  relays", 256 on the command line, reaches `relay_cmd` as 255 and is passed
  through like any other byte.
- Cli.DurationType takes the already-converted int. `int(value)` on a string,
  and the `ValueError` it raises on non-numeric text, is argument parsing and
  is not modelled.
- Out-of-range ints are excluded by preconditions instead of modelling the
  exceptions they raise:
  - an `n` or `command` of 256 or more, or below -256, makes the index
    `crcLow ^ byte` fall outside -256..255, so `CRCTableHigh[index]` (relay.py:66) raises `IndexError` inside
    `sign_cmd`, before `bytearray` is reached;
  - an `n` or `command` from -256 to -1 gets through `ModbusCRC`, because the
    index is then negative and Python indexes the tables from the end;
    `bytearray` (relay.py:86, 98) then raises `ValueError`;
  - a duration outside 0..65535 makes `to_bytes` (relay.py:97) raise
    `OverflowError`.
- Frames.SignCmd requires at least 8 entries, because Python raises `IndexError` on
  a shorter list. It returns nothing: `sign_cmd` returns the same list
  it was given, and the builders read the array back.
- The builders return `bytearray(...)`, a copy of the list. They are modelled
  as returning a `seq` of the array's contents.
- ModbusCrc.TableHigh, ModbusCrc.TableLow: written as lookups on the index,
  not as Python lists. A sequence literal of 256 entries costs the verifier
  too much on every symbolic lookup. No other operation on the lists exists
  in the source. Each table has 256 entries in relay.py, 17 lines of 15 plus
  one.
- The equivalence of the tables with the bitwise reflected CRC (polynomial
  0xA001) is not proved. A direct evaluation is too costly for the verifier.
  A staged proof over all 256 entries, like the one `KnownVectors` gives for
  two messages, was not written. The link to the standard CRC is the two
  published example frames (`KnownVectors`), proved step by step through the
  tables. Beyond them, frame correctness is stated against the tables as
  written, and through the receiver-side residue check
  (Frames.SignedFrameChecks).
- The state reply's function code, byte count and CRC are not checked. The
  source does not check them either; it reads `response[3]` only.

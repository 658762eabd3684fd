/** The 8-byte Modbus request frames the relay client sends: six payload
  * bytes (device address, function code, two 16-bit big-endian fields)
  * followed by the CRC of those six bytes, low byte first. */
module Frames {
  import opened Bits
  import opened ModbusCrc

  /** The board answers at device address 1. */
  const DeviceAddress: Byte := 0x01
  /** Modbus function codes: Read Coils and Write Single Coil. */
  const ReadCoils: Byte := 0x01
  const WriteSingleCoil: Byte := 0x05

  /** `crc & 0xFF`: the low byte of a 16-bit checksum. */
  function CrcLowByte(crc: int): (b: Byte)
    requires 0 <= crc <= 0xFFFF
    ensures b == crc % 256
  {
    SplitCrc(crc);
    And(crc, 0xFF)
  }

  /** `crc >> 8`: the high byte of a 16-bit checksum. */
  function CrcHighByte(crc: int): (b: Byte)
    requires 0 <= crc <= 0xFFFF
    ensures b == crc / 256
  {
    SplitCrc(crc);
    ShiftRight(crc, 8)
  }

  /** The checksum is its high byte times 256 plus its low byte. */
  lemma SplitCrc(crc: nat)
    ensures ShiftRight(crc, 8) * 256 + And(crc, 0xFF) == crc
    ensures And(crc, 0xFF) < 256
  {
    SplitAt(crc, 8);
    ShiftLeftIsMul(ShiftRight(crc, 8), 8);
    AndBound(crc, 0xFF);
  }

  /** Putting the two bytes back together, `(crc >> 8) << 8 | crc & 0xFF`,
    * gives the checksum again. */
  lemma JoinCrcBytes(crc: int)
    requires 0 <= crc <= 0xFFFF
    ensures Or(ShiftLeft(CrcHighByte(crc), 8), CrcLowByte(crc)) == crc
  {
    JoinByte(CrcHighByte(crc), CrcLowByte(crc));
  }

  /** An 8-byte frame carrying the CRC of its first six bytes in bytes 6
    * (low byte) and 7 (high byte). */
  predicate Signed(frame: seq<Byte>)
  {
    |frame| == 8 && frame[6] == Crc(frame[..6]) % 256 && frame[7] == Crc(frame[..6]) / 256
  }

  /** A frame is signed exactly when its last two bytes, read back as
    * `cmd[7] << 8 | cmd[6]`, give the CRC of its first six. */
  lemma SignedJoin(frame: seq<Byte>)
    requires |frame| == 8
    ensures Signed(frame) <==> Or(ShiftLeft(frame[7], 8), frame[6]) == Crc(frame[..6])
  {
    JoinBytes(frame[7], frame[6], Crc(frame[..6]));
  }

  /** Two bytes joined as `hi << 8 | lo` give `crc` exactly when they are its
    * high and low bytes. */
  lemma JoinBytes(hi: Byte, lo: Byte, crc: int)
    requires 0 <= crc <= 0xFFFF
    ensures Or(ShiftLeft(hi, 8), lo) == crc <==> lo == crc % 256 && hi == crc / 256
  {
    JoinByte(hi, lo);
  }

  /** A receiver that runs the CRC over a whole 8-byte frame gets 0 exactly
    * when the frame is signed. */
  lemma SignedFrameChecks(frame: seq<Byte>)
    requires |frame| == 8
    ensures Signed(frame) <==> Crc(frame) == 0
  {
    var payload := frame[..6];
    assert frame == payload + [frame[6], frame[7]];
    CrcResidue(payload, frame[6], frame[7]);
  }

  /** `duration.to_bytes(2, byteorder='big')` */
  function ToBytesBig(value: int): (bytes: seq<Byte>)
    requires 0 <= value <= 0xFFFF
    ensures |bytes| == 2 && Word(bytes[0], bytes[1]) == value
  {
    [value / 256, value % 256]
  }

  /** `sign_cmd` (relay.py:71-75): writes the CRC of `cmd[0:6]` into
    * `cmd[6]` (low byte) and `cmd[7]` (high byte) of the caller's list. */
  method SignCmd(cmd: array<Byte>)
    requires cmd.Length >= 8
    modifies cmd
    ensures cmd[..6] == old(cmd[..6])
    ensures cmd[6] == CrcLowByte(Crc(old(cmd[..6])))
    ensures cmd[7] == CrcHighByte(Crc(old(cmd[..6])))
    ensures cmd[8..] == old(cmd[8..])
    ensures Signed(cmd[..8])
  {
    var crc := ModbusCRC(cmd[..6]);
    cmd[6] := CrcLowByte(crc);
    cmd[7] := CrcHighByte(crc);
    assert cmd[..8][..6] == cmd[..6];
  }

  /** `relay_cmd` (relay.py:78-86): Write Single Coil for coil `n` with
    * `command` in the high byte of the value field. */
  method RelayCmd(n: Byte, command: Byte) returns (frame: seq<Byte>)
    ensures Signed(frame)
    ensures frame[..6] == [DeviceAddress, WriteSingleCoil, 0x00, n, command, 0x00]
  {
    var cmd := new Byte[8](_ => 0);
    cmd[0] := DeviceAddress;
    cmd[1] := WriteSingleCoil;
    cmd[2] := 0;
    cmd[3] := n;
    cmd[4] := command;
    cmd[5] := 0;
    assert cmd[..6] == [DeviceAddress, WriteSingleCoil, 0x00, n, command, 0x00];
    SignCmd(cmd);
    assert cmd[..] == cmd[..8];
    frame := cmd[..];
  }

  /** `relay_flash_cmd` (relay.py:89-98): the flash code goes in the high
    * byte of the address field and the duration, big-endian, fills the
    * value field. */
  method RelayFlashCmd(n: Byte, command: Byte, duration: int) returns (frame: seq<Byte>)
    requires 0 <= duration <= 0xFFFF
    ensures Signed(frame)
    ensures frame[..6] == [DeviceAddress, WriteSingleCoil, command, n, duration / 256, duration % 256]
  {
    var cmd := new Byte[8](_ => 0);
    cmd[0] := DeviceAddress;
    cmd[1] := WriteSingleCoil;
    cmd[2] := command;
    cmd[3] := n;
    var bytes := ToBytesBig(duration);
    cmd[4], cmd[5] := bytes[0], bytes[1];
    assert cmd[..6] == [DeviceAddress, WriteSingleCoil, command, n, duration / 256, duration % 256];
    SignCmd(cmd);
    assert cmd[..] == cmd[..8];
    frame := cmd[..];
  }

  /** `state_cmd` (relay.py:101-109): Read Coils, starting at coil 0, for
    * 8 coils. */
  method StateCmd() returns (frame: seq<Byte>)
    ensures Signed(frame)
    ensures frame[..6] == [DeviceAddress, ReadCoils, 0x00, 0x00, 0x00, 0x08]
  {
    var cmd := new Byte[8](_ => 0);
    cmd[0] := DeviceAddress;
    cmd[1] := ReadCoils;
    cmd[2] := 0;
    cmd[3] := 0;
    cmd[4] := 0;
    cmd[5] := 0x08;
    assert cmd[..6] == [DeviceAddress, ReadCoils, 0x00, 0x00, 0x00, 0x08];
    SignCmd(cmd);
    assert cmd[..] == cmd[..8];
    frame := cmd[..];
  }
}

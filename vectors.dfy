/** The two published example frames of the relay board's Modbus
  * documentation, checked against the model: the CRC of each request
  * payload, computed one loop step at a time, and the 8-byte frame it signs
  * to. Each step spells out its exclusive ors bit by bit, from the highest
  * bits down, and the two table entries it reads. */
module KnownVectors {
  import opened Bits
  import opened ModbusCrc
  import opened Frames

  // The exclusive ors the steps need, each from the bits of its operands.

  lemma XorFF01()
    ensures Xor(0xFF, 0x01) == 0xFE
  {
    assert Xor(255, 1) == 2 * Xor(127, 0) + 0 == 254;
  }

  lemma XorFF81()
    ensures Xor(0xFF, 0x81) == 0x7E
  {
    assert Xor(1, 1) == 2 * Xor(0, 0) + 0 == 0;
    assert Xor(3, 2) == 2 * Xor(1, 1) + 1 == 1;
    assert Xor(7, 4) == 2 * Xor(3, 2) + 1 == 3;
    assert Xor(15, 8) == 2 * Xor(7, 4) + 1 == 7;
    assert Xor(31, 16) == 2 * Xor(15, 8) + 1 == 15;
    assert Xor(63, 32) == 2 * Xor(31, 16) + 1 == 31;
    assert Xor(127, 64) == 2 * Xor(63, 32) + 1 == 63;
    assert Xor(255, 129) == 2 * Xor(127, 64) + 0 == 126;
  }

  lemma Xor7E05()
    ensures Xor(0x7E, 0x05) == 0x7B
  {
    assert Xor(31, 1) == 2 * Xor(15, 0) + 0 == 30;
    assert Xor(63, 2) == 2 * Xor(31, 1) + 1 == 61;
    assert Xor(126, 5) == 2 * Xor(63, 2) + 1 == 123;
  }

  lemma Xor8040()
    ensures Xor(0x80, 0x40) == 0xC0
  {
    assert Xor(2, 1) == 2 * Xor(1, 0) + 1 == 3;
    assert Xor(4, 2) == 2 * Xor(2, 1) + 0 == 6;
    assert Xor(8, 4) == 2 * Xor(4, 2) + 0 == 12;
    assert Xor(16, 8) == 2 * Xor(8, 4) + 0 == 24;
    assert Xor(32, 16) == 2 * Xor(16, 8) + 0 == 48;
    assert Xor(64, 32) == 2 * Xor(32, 16) + 0 == 96;
    assert Xor(128, 64) == 2 * Xor(64, 32) + 0 == 192;
  }

  lemma XorC000()
    ensures Xor(0xC0, 0x00) == 0xC0
  {
  }

  lemma Xor2300()
    ensures Xor(0x23, 0x00) == 0x23
  {
  }

  lemma Xor5041()
    ensures Xor(0x50, 0x41) == 0x11
  {
    assert Xor(1, 1) == 2 * Xor(0, 0) + 0 == 0;
    assert Xor(2, 2) == 2 * Xor(1, 1) + 0 == 0;
    assert Xor(5, 4) == 2 * Xor(2, 2) + 1 == 1;
    assert Xor(10, 8) == 2 * Xor(5, 4) + 0 == 2;
    assert Xor(20, 16) == 2 * Xor(10, 8) + 0 == 4;
    assert Xor(40, 32) == 2 * Xor(20, 16) + 0 == 8;
    assert Xor(80, 65) == 2 * Xor(40, 32) + 1 == 17;
  }

  lemma Xor11FF()
    ensures Xor(0x11, 0xFF) == 0xEE
  {
    assert Xor(1, 15) == 2 * Xor(0, 7) + 0 == 14;
    assert Xor(2, 31) == 2 * Xor(1, 15) + 1 == 29;
    assert Xor(4, 63) == 2 * Xor(2, 31) + 1 == 59;
    assert Xor(8, 127) == 2 * Xor(4, 63) + 1 == 119;
    assert Xor(17, 255) == 2 * Xor(8, 127) + 0 == 238;
  }

  lemma XorD980()
    ensures Xor(0xD9, 0x80) == 0x59
  {
    assert Xor(1, 1) == 2 * Xor(0, 0) + 0 == 0;
    assert Xor(3, 2) == 2 * Xor(1, 1) + 1 == 1;
    assert Xor(6, 4) == 2 * Xor(3, 2) + 0 == 2;
    assert Xor(13, 8) == 2 * Xor(6, 4) + 1 == 5;
    assert Xor(27, 16) == 2 * Xor(13, 8) + 1 == 11;
    assert Xor(54, 32) == 2 * Xor(27, 16) + 0 == 22;
    assert Xor(108, 64) == 2 * Xor(54, 32) + 0 == 44;
    assert Xor(217, 128) == 2 * Xor(108, 64) + 1 == 89;
  }

  lemma Xor5900()
    ensures Xor(0x59, 0x00) == 0x59
  {
  }

  lemma Xor4CC0()
    ensures Xor(0x4C, 0xC0) == 0x8C
  {
    assert Xor(1, 3) == 2 * Xor(0, 1) + 0 == 2;
    assert Xor(2, 6) == 2 * Xor(1, 3) + 0 == 4;
    assert Xor(4, 12) == 2 * Xor(2, 6) + 0 == 8;
    assert Xor(9, 24) == 2 * Xor(4, 12) + 1 == 17;
    assert Xor(19, 48) == 2 * Xor(9, 24) + 1 == 35;
    assert Xor(38, 96) == 2 * Xor(19, 48) + 0 == 70;
    assert Xor(76, 192) == 2 * Xor(38, 96) + 0 == 140;
  }

  lemma Xor7E01()
    ensures Xor(0x7E, 0x01) == 0x7F
  {
    assert Xor(126, 1) == 2 * Xor(63, 0) + 1 == 127;
  }

  lemma Xor8041()
    ensures Xor(0x80, 0x41) == 0xC1
  {
    assert Xor(2, 1) == 2 * Xor(1, 0) + 1 == 3;
    assert Xor(4, 2) == 2 * Xor(2, 1) + 0 == 6;
    assert Xor(8, 4) == 2 * Xor(4, 2) + 0 == 12;
    assert Xor(16, 8) == 2 * Xor(8, 4) + 0 == 24;
    assert Xor(32, 16) == 2 * Xor(16, 8) + 0 == 48;
    assert Xor(64, 32) == 2 * Xor(32, 16) + 0 == 96;
    assert Xor(128, 65) == 2 * Xor(64, 32) + 1 == 193;
  }

  lemma XorC100()
    ensures Xor(0xC1, 0x00) == 0xC1
  {
  }

  lemma XorE0C1()
    ensures Xor(0xE0, 0xC1) == 0x21
  {
    assert Xor(1, 1) == 2 * Xor(0, 0) + 0 == 0;
    assert Xor(3, 3) == 2 * Xor(1, 1) + 0 == 0;
    assert Xor(7, 6) == 2 * Xor(3, 3) + 1 == 1;
    assert Xor(14, 12) == 2 * Xor(7, 6) + 0 == 2;
    assert Xor(28, 24) == 2 * Xor(14, 12) + 0 == 4;
    assert Xor(56, 48) == 2 * Xor(28, 24) + 0 == 8;
    assert Xor(112, 96) == 2 * Xor(56, 48) + 0 == 16;
    assert Xor(224, 193) == 2 * Xor(112, 96) + 1 == 33;
  }

  lemma Xor2100()
    ensures Xor(0x21, 0x00) == 0x21
  {
  }

  lemma Xor90C0()
    ensures Xor(0x90, 0xC0) == 0x50
  {
    assert Xor(1, 1) == 2 * Xor(0, 0) + 0 == 0;
    assert Xor(2, 3) == 2 * Xor(1, 1) + 1 == 1;
    assert Xor(4, 6) == 2 * Xor(2, 3) + 0 == 2;
    assert Xor(9, 12) == 2 * Xor(4, 6) + 1 == 5;
    assert Xor(18, 24) == 2 * Xor(9, 12) + 0 == 10;
    assert Xor(36, 48) == 2 * Xor(18, 24) + 0 == 20;
    assert Xor(72, 96) == 2 * Xor(36, 48) + 0 == 40;
    assert Xor(144, 192) == 2 * Xor(72, 96) + 0 == 80;
  }

  lemma Xor5000()
    ensures Xor(0x50, 0x00) == 0x50
  {
  }

  lemma Xor1800()
    ensures Xor(0x18, 0x00) == 0x18
  {
  }

  lemma Xor1808()
    ensures Xor(0x18, 0x08) == 0x10
  {
    assert Xor(3, 1) == 2 * Xor(1, 0) + 0 == 2;
    assert Xor(6, 2) == 2 * Xor(3, 1) + 0 == 4;
    assert Xor(12, 4) == 2 * Xor(6, 2) + 0 == 8;
    assert Xor(24, 8) == 2 * Xor(12, 4) + 0 == 16;
  }

  lemma Xor3C01()
    ensures Xor(0x3C, 0x01) == 0x3D
  {
    assert Xor(60, 1) == 2 * Xor(30, 0) + 1 == 61;
  }

  // The table entries the steps read.

  lemma EntriesFE()
    ensures TableHigh(0xFE) as int == 0x81 && TableLow(0xFE) as int == 0x80
  {
  }

  lemma Entries7B()
    ensures TableHigh(0x7B) as int == 0x40 && TableLow(0x7B) as int == 0x23
  {
  }

  lemma EntriesC0()
    ensures TableHigh(0xC0) as int == 0x00 && TableLow(0xC0) as int == 0x50
  {
  }

  lemma Entries23()
    ensures TableHigh(0x23) as int == 0x41 && TableLow(0x23) as int == 0xD9
  {
  }

  lemma EntriesEE()
    ensures TableHigh(0xEE) as int == 0x80 && TableLow(0xEE) as int == 0x4C
  {
  }

  lemma Entries59()
    ensures TableHigh(0x59) as int == 0xC0 && TableLow(0x59) as int == 0x3A
  {
  }

  lemma Entries7F()
    ensures TableHigh(0x7F) as int == 0x41 && TableLow(0x7F) as int == 0xE0
  {
  }

  lemma EntriesC1()
    ensures TableHigh(0xC1) as int == 0xC1 && TableLow(0xC1) as int == 0x90
  {
  }

  lemma Entries21()
    ensures TableHigh(0x21) as int == 0xC0 && TableLow(0x21) as int == 0x18
  {
  }

  lemma Entries50()
    ensures TableHigh(0x50) as int == 0x00 && TableLow(0x50) as int == 0x3C
  {
  }

  lemma Entries10()
    ensures TableHigh(0x10) as int == 0x01 && TableLow(0x10) as int == 0xCC
  {
  }

  // One loop iteration each, in message order.

  lemma RelayOnStep0()
    ensures Step(Registers(0xFF, 0xFF), 0x01) == Registers(0x80, 0x7E)
  {
    XorFF01();
    EntriesFE();
    XorFF81();
  }

  lemma RelayOnStep1()
    ensures Step(Registers(0x80, 0x7E), 0x05) == Registers(0x23, 0xC0)
  {
    Xor7E05();
    Entries7B();
    Xor8040();
  }

  lemma RelayOnStep2()
    ensures Step(Registers(0x23, 0xC0), 0x00) == Registers(0x50, 0x23)
  {
    XorC000();
    EntriesC0();
    Xor2300();
  }

  lemma RelayOnStep3()
    ensures Step(Registers(0x50, 0x23), 0x00) == Registers(0xD9, 0x11)
  {
    Xor2300();
    Entries23();
    Xor5041();
  }

  lemma RelayOnStep4()
    ensures Step(Registers(0xD9, 0x11), 0xFF) == Registers(0x4C, 0x59)
  {
    Xor11FF();
    EntriesEE();
    XorD980();
  }

  lemma RelayOnStep5()
    ensures Step(Registers(0x4C, 0x59), 0x00) == Registers(0x3A, 0x8C)
  {
    Xor5900();
    Entries59();
    Xor4CC0();
  }

  lemma StateRequestStep0()
    ensures Step(Registers(0xFF, 0xFF), 0x01) == Registers(0x80, 0x7E)
  {
    XorFF01();
    EntriesFE();
    XorFF81();
  }

  lemma StateRequestStep1()
    ensures Step(Registers(0x80, 0x7E), 0x01) == Registers(0xE0, 0xC1)
  {
    Xor7E01();
    Entries7F();
    Xor8041();
  }

  lemma StateRequestStep2()
    ensures Step(Registers(0xE0, 0xC1), 0x00) == Registers(0x90, 0x21)
  {
    XorC100();
    EntriesC1();
    XorE0C1();
  }

  lemma StateRequestStep3()
    ensures Step(Registers(0x90, 0x21), 0x00) == Registers(0x18, 0x50)
  {
    Xor2100();
    Entries21();
    Xor90C0();
  }

  lemma StateRequestStep4()
    ensures Step(Registers(0x18, 0x50), 0x00) == Registers(0x3C, 0x18)
  {
    Xor5000();
    Entries50();
    Xor1800();
  }

  lemma StateRequestStep5()
    ensures Step(Registers(0x3C, 0x18), 0x08) == Registers(0xCC, 0x3D)
  {
    Xor1808();
    Entries10();
    Xor3C01();
  }

  // The registers after each prefix of a message.

  lemma RelayOnRun1()
    ensures Run(Initial, [0x01]) == Registers(0x80, 0x7E)
  {
    assert [0x01][..0] == [];
    RelayOnStep0();
  }

  lemma RelayOnRun2()
    ensures Run(Initial, [0x01, 0x05]) == Registers(0x23, 0xC0)
  {
    assert [0x01, 0x05][..1] == [0x01];
    RelayOnRun1();
    RelayOnStep1();
  }

  lemma RelayOnRun3()
    ensures Run(Initial, [0x01, 0x05, 0x00]) == Registers(0x50, 0x23)
  {
    assert [0x01, 0x05, 0x00][..2] == [0x01, 0x05];
    RelayOnRun2();
    RelayOnStep2();
  }

  lemma RelayOnRun4()
    ensures Run(Initial, [0x01, 0x05, 0x00, 0x00]) == Registers(0xD9, 0x11)
  {
    assert [0x01, 0x05, 0x00, 0x00][..3] == [0x01, 0x05, 0x00];
    RelayOnRun3();
    RelayOnStep3();
  }

  lemma RelayOnRun5()
    ensures Run(Initial, [0x01, 0x05, 0x00, 0x00, 0xFF]) == Registers(0x4C, 0x59)
  {
    assert [0x01, 0x05, 0x00, 0x00, 0xFF][..4] == [0x01, 0x05, 0x00, 0x00];
    RelayOnRun4();
    RelayOnStep4();
  }

  lemma RelayOnRun6()
    ensures Run(Initial, [0x01, 0x05, 0x00, 0x00, 0xFF, 0x00]) == Registers(0x3A, 0x8C)
  {
    assert [0x01, 0x05, 0x00, 0x00, 0xFF, 0x00][..5] == [0x01, 0x05, 0x00, 0x00, 0xFF];
    RelayOnRun5();
    RelayOnStep5();
  }

  lemma StateRequestRun1()
    ensures Run(Initial, [0x01]) == Registers(0x80, 0x7E)
  {
    assert [0x01][..0] == [];
    StateRequestStep0();
  }

  lemma StateRequestRun2()
    ensures Run(Initial, [0x01, 0x01]) == Registers(0xE0, 0xC1)
  {
    assert [0x01, 0x01][..1] == [0x01];
    StateRequestRun1();
    StateRequestStep1();
  }

  lemma StateRequestRun3()
    ensures Run(Initial, [0x01, 0x01, 0x00]) == Registers(0x90, 0x21)
  {
    assert [0x01, 0x01, 0x00][..2] == [0x01, 0x01];
    StateRequestRun2();
    StateRequestStep2();
  }

  lemma StateRequestRun4()
    ensures Run(Initial, [0x01, 0x01, 0x00, 0x00]) == Registers(0x18, 0x50)
  {
    assert [0x01, 0x01, 0x00, 0x00][..3] == [0x01, 0x01, 0x00];
    StateRequestRun3();
    StateRequestStep3();
  }

  lemma StateRequestRun5()
    ensures Run(Initial, [0x01, 0x01, 0x00, 0x00, 0x00]) == Registers(0x3C, 0x18)
  {
    assert [0x01, 0x01, 0x00, 0x00, 0x00][..4] == [0x01, 0x01, 0x00, 0x00];
    StateRequestRun4();
    StateRequestStep4();
  }

  lemma StateRequestRun6()
    ensures Run(Initial, [0x01, 0x01, 0x00, 0x00, 0x00, 0x08]) == Registers(0xCC, 0x3D)
  {
    assert [0x01, 0x01, 0x00, 0x00, 0x00, 0x08][..5] == [0x01, 0x01, 0x00, 0x00, 0x00];
    StateRequestRun5();
    StateRequestStep5();
  }

  /** The CRC of the payload `01 05 00 00 FF 00` is 0x3A8C. */
  lemma RelayOnCrc()
    ensures Crc([0x01, 0x05, 0x00, 0x00, 0xFF, 0x00]) == 0x3A8C
  {
    RelayOnRun6();
  }

  /** The CRC of the payload `01 01 00 00 00 08` is 0xCC3D. */
  lemma StateRequestCrc()
    ensures Crc([0x01, 0x01, 0x00, 0x00, 0x00, 0x08]) == 0xCC3D
  {
    StateRequestRun6();
  }

  /** `relay_cmd(0, COM_ON)`, relay 1 on: the frame is `01 05 00 00 FF 00 8C 3A`. */
  lemma RelayOnFrame(frame: seq<Byte>)
    requires Signed(frame) && frame[..6] == [0x01, 0x05, 0x00, 0x00, 0xFF, 0x00]
    ensures frame == [0x01, 0x05, 0x00, 0x00, 0xFF, 0x00, 0x8C, 0x3A]
  {
    RelayOnCrc();
    assert frame[6] == 0x8C && frame[7] == 0x3A;
    assert frame == frame[..6] + [frame[6], frame[7]];
  }

  /** `state_cmd()`: the frame is `01 01 00 00 00 08 3D CC`. */
  lemma StateRequestFrame(frame: seq<Byte>)
    requires Signed(frame) && frame[..6] == [0x01, 0x01, 0x00, 0x00, 0x00, 0x08]
    ensures frame == [0x01, 0x01, 0x00, 0x00, 0x00, 0x08, 0x3D, 0xCC]
  {
    StateRequestCrc();
    assert frame[6] == 0x3D && frame[7] == 0xCC;
    assert frame == frame[..6] + [frame[6], frame[7]];
  }
}

/**
  The packet monitor's table-driven CRC-32 (sim/packet_monitors/packet_mon.h), and its agreement with
  the bit-serial hardware.
 */
module PacketMon {
  import opened Crc32

  // The monitor's table of 256 words, in rows of sixteen.

  function Row0(j: nat): bv32
    requires j < 16
  {
    match j
    case 0 => 0x00000000 case 1 => 0x77073096 case 2 => 0xEE0E612C case 3 => 0x990951BA
    case 4 => 0x076DC419 case 5 => 0x706AF48F case 6 => 0xE963A535 case 7 => 0x9E6495A3
    case 8 => 0x0EDB8832 case 9 => 0x79DCB8A4 case 10 => 0xE0D5E91E case 11 => 0x97D2D988
    case 12 => 0x09B64C2B case 13 => 0x7EB17CBD case 14 => 0xE7B82D07 case _ => 0x90BF1D91
  }

  function Row1(j: nat): bv32
    requires j < 16
  {
    match j
    case 0 => 0x1DB71064 case 1 => 0x6AB020F2 case 2 => 0xF3B97148 case 3 => 0x84BE41DE
    case 4 => 0x1ADAD47D case 5 => 0x6DDDE4EB case 6 => 0xF4D4B551 case 7 => 0x83D385C7
    case 8 => 0x136C9856 case 9 => 0x646BA8C0 case 10 => 0xFD62F97A case 11 => 0x8A65C9EC
    case 12 => 0x14015C4F case 13 => 0x63066CD9 case 14 => 0xFA0F3D63 case _ => 0x8D080DF5
  }

  function Row2(j: nat): bv32
    requires j < 16
  {
    match j
    case 0 => 0x3B6E20C8 case 1 => 0x4C69105E case 2 => 0xD56041E4 case 3 => 0xA2677172
    case 4 => 0x3C03E4D1 case 5 => 0x4B04D447 case 6 => 0xD20D85FD case 7 => 0xA50AB56B
    case 8 => 0x35B5A8FA case 9 => 0x42B2986C case 10 => 0xDBBBC9D6 case 11 => 0xACBCF940
    case 12 => 0x32D86CE3 case 13 => 0x45DF5C75 case 14 => 0xDCD60DCF case _ => 0xABD13D59
  }

  function Row3(j: nat): bv32
    requires j < 16
  {
    match j
    case 0 => 0x26D930AC case 1 => 0x51DE003A case 2 => 0xC8D75180 case 3 => 0xBFD06116
    case 4 => 0x21B4F4B5 case 5 => 0x56B3C423 case 6 => 0xCFBA9599 case 7 => 0xB8BDA50F
    case 8 => 0x2802B89E case 9 => 0x5F058808 case 10 => 0xC60CD9B2 case 11 => 0xB10BE924
    case 12 => 0x2F6F7C87 case 13 => 0x58684C11 case 14 => 0xC1611DAB case _ => 0xB6662D3D
  }

  function Row4(j: nat): bv32
    requires j < 16
  {
    match j
    case 0 => 0x76DC4190 case 1 => 0x01DB7106 case 2 => 0x98D220BC case 3 => 0xEFD5102A
    case 4 => 0x71B18589 case 5 => 0x06B6B51F case 6 => 0x9FBFE4A5 case 7 => 0xE8B8D433
    case 8 => 0x7807C9A2 case 9 => 0x0F00F934 case 10 => 0x9609A88E case 11 => 0xE10E9818
    case 12 => 0x7F6A0DBB case 13 => 0x086D3D2D case 14 => 0x91646C97 case _ => 0xE6635C01
  }

  function Row5(j: nat): bv32
    requires j < 16
  {
    match j
    case 0 => 0x6B6B51F4 case 1 => 0x1C6C6162 case 2 => 0x856530D8 case 3 => 0xF262004E
    case 4 => 0x6C0695ED case 5 => 0x1B01A57B case 6 => 0x8208F4C1 case 7 => 0xF50FC457
    case 8 => 0x65B0D9C6 case 9 => 0x12B7E950 case 10 => 0x8BBEB8EA case 11 => 0xFCB9887C
    case 12 => 0x62DD1DDF case 13 => 0x15DA2D49 case 14 => 0x8CD37CF3 case _ => 0xFBD44C65
  }

  function Row6(j: nat): bv32
    requires j < 16
  {
    match j
    case 0 => 0x4DB26158 case 1 => 0x3AB551CE case 2 => 0xA3BC0074 case 3 => 0xD4BB30E2
    case 4 => 0x4ADFA541 case 5 => 0x3DD895D7 case 6 => 0xA4D1C46D case 7 => 0xD3D6F4FB
    case 8 => 0x4369E96A case 9 => 0x346ED9FC case 10 => 0xAD678846 case 11 => 0xDA60B8D0
    case 12 => 0x44042D73 case 13 => 0x33031DE5 case 14 => 0xAA0A4C5F case _ => 0xDD0D7CC9
  }

  function Row7(j: nat): bv32
    requires j < 16
  {
    match j
    case 0 => 0x5005713C case 1 => 0x270241AA case 2 => 0xBE0B1010 case 3 => 0xC90C2086
    case 4 => 0x5768B525 case 5 => 0x206F85B3 case 6 => 0xB966D409 case 7 => 0xCE61E49F
    case 8 => 0x5EDEF90E case 9 => 0x29D9C998 case 10 => 0xB0D09822 case 11 => 0xC7D7A8B4
    case 12 => 0x59B33D17 case 13 => 0x2EB40D81 case 14 => 0xB7BD5C3B case _ => 0xC0BA6CAD
  }

  function Row8(j: nat): bv32
    requires j < 16
  {
    match j
    case 0 => 0xEDB88320 case 1 => 0x9ABFB3B6 case 2 => 0x03B6E20C case 3 => 0x74B1D29A
    case 4 => 0xEAD54739 case 5 => 0x9DD277AF case 6 => 0x04DB2615 case 7 => 0x73DC1683
    case 8 => 0xE3630B12 case 9 => 0x94643B84 case 10 => 0x0D6D6A3E case 11 => 0x7A6A5AA8
    case 12 => 0xE40ECF0B case 13 => 0x9309FF9D case 14 => 0x0A00AE27 case _ => 0x7D079EB1
  }

  function Row9(j: nat): bv32
    requires j < 16
  {
    match j
    case 0 => 0xF00F9344 case 1 => 0x8708A3D2 case 2 => 0x1E01F268 case 3 => 0x6906C2FE
    case 4 => 0xF762575D case 5 => 0x806567CB case 6 => 0x196C3671 case 7 => 0x6E6B06E7
    case 8 => 0xFED41B76 case 9 => 0x89D32BE0 case 10 => 0x10DA7A5A case 11 => 0x67DD4ACC
    case 12 => 0xF9B9DF6F case 13 => 0x8EBEEFF9 case 14 => 0x17B7BE43 case _ => 0x60B08ED5
  }

  function RowA(j: nat): bv32
    requires j < 16
  {
    match j
    case 0 => 0xD6D6A3E8 case 1 => 0xA1D1937E case 2 => 0x38D8C2C4 case 3 => 0x4FDFF252
    case 4 => 0xD1BB67F1 case 5 => 0xA6BC5767 case 6 => 0x3FB506DD case 7 => 0x48B2364B
    case 8 => 0xD80D2BDA case 9 => 0xAF0A1B4C case 10 => 0x36034AF6 case 11 => 0x41047A60
    case 12 => 0xDF60EFC3 case 13 => 0xA867DF55 case 14 => 0x316E8EEF case _ => 0x4669BE79
  }

  function RowB(j: nat): bv32
    requires j < 16
  {
    match j
    case 0 => 0xCB61B38C case 1 => 0xBC66831A case 2 => 0x256FD2A0 case 3 => 0x5268E236
    case 4 => 0xCC0C7795 case 5 => 0xBB0B4703 case 6 => 0x220216B9 case 7 => 0x5505262F
    case 8 => 0xC5BA3BBE case 9 => 0xB2BD0B28 case 10 => 0x2BB45A92 case 11 => 0x5CB36A04
    case 12 => 0xC2D7FFA7 case 13 => 0xB5D0CF31 case 14 => 0x2CD99E8B case _ => 0x5BDEAE1D
  }

  function RowC(j: nat): bv32
    requires j < 16
  {
    match j
    case 0 => 0x9B64C2B0 case 1 => 0xEC63F226 case 2 => 0x756AA39C case 3 => 0x026D930A
    case 4 => 0x9C0906A9 case 5 => 0xEB0E363F case 6 => 0x72076785 case 7 => 0x05005713
    case 8 => 0x95BF4A82 case 9 => 0xE2B87A14 case 10 => 0x7BB12BAE case 11 => 0x0CB61B38
    case 12 => 0x92D28E9B case 13 => 0xE5D5BE0D case 14 => 0x7CDCEFB7 case _ => 0x0BDBDF21
  }

  function RowD(j: nat): bv32
    requires j < 16
  {
    match j
    case 0 => 0x86D3D2D4 case 1 => 0xF1D4E242 case 2 => 0x68DDB3F8 case 3 => 0x1FDA836E
    case 4 => 0x81BE16CD case 5 => 0xF6B9265B case 6 => 0x6FB077E1 case 7 => 0x18B74777
    case 8 => 0x88085AE6 case 9 => 0xFF0F6A70 case 10 => 0x66063BCA case 11 => 0x11010B5C
    case 12 => 0x8F659EFF case 13 => 0xF862AE69 case 14 => 0x616BFFD3 case _ => 0x166CCF45
  }

  function RowE(j: nat): bv32
    requires j < 16
  {
    match j
    case 0 => 0xA00AE278 case 1 => 0xD70DD2EE case 2 => 0x4E048354 case 3 => 0x3903B3C2
    case 4 => 0xA7672661 case 5 => 0xD06016F7 case 6 => 0x4969474D case 7 => 0x3E6E77DB
    case 8 => 0xAED16A4A case 9 => 0xD9D65ADC case 10 => 0x40DF0B66 case 11 => 0x37D83BF0
    case 12 => 0xA9BCAE53 case 13 => 0xDEBB9EC5 case 14 => 0x47B2CF7F case _ => 0x30B5FFE9
  }

  function RowF(j: nat): bv32
    requires j < 16
  {
    match j
    case 0 => 0xBDBDF21C case 1 => 0xCABAC28A case 2 => 0x53B39330 case 3 => 0x24B4A3A6
    case 4 => 0xBAD03605 case 5 => 0xCDD70693 case 6 => 0x54DE5729 case 7 => 0x23D967BF
    case 8 => 0xB3667A2E case 9 => 0xC4614AB8 case 10 => 0x5D681B02 case 11 => 0x2A6F2B94
    case 12 => 0xB40BBE37 case 13 => 0xC30C8EA1 case 14 => 0x5A05DF1B case _ => 0x2D02EF8D
  }

  function Row(r: nat, j: nat): bv32
    requires r < 16 && j < 16
  {
    match r
    case 0 => Row0(j)
    case 1 => Row1(j)
    case 2 => Row2(j)
    case 3 => Row3(j)
    case 4 => Row4(j)
    case 5 => Row5(j)
    case 6 => Row6(j)
    case 7 => Row7(j)
    case 8 => Row8(j)
    case 9 => Row9(j)
    case 10 => RowA(j)
    case 11 => RowB(j)
    case 12 => RowC(j)
    case 13 => RowD(j)
    case 14 => RowE(j)
    case _ => RowF(j)
  }

  /** A number below 16 as a word. */
  function Word(n: nat): bv32
    requires n < 16
  {
    match n
    case 0 => 0
    case 1 => 1
    case 2 => 2
    case 3 => 3
    case 4 => 4
    case 5 => 5
    case 6 => 6
    case 7 => 7
    case 8 => 8
    case 9 => 9
    case 10 => 10
    case 11 => 11
    case 12 => 12
    case 13 => 13
    case 14 => 14
    case _ => 15
  }

  /** The entries at powers of two: each is one step of the next higher one. */
  lemma Powers()
    ensures ByteSteps(0x01) == 0x77073096
    ensures ByteSteps(0x02) == 0xEE0E612C
    ensures ByteSteps(0x04) == 0x076DC419
    ensures ByteSteps(0x08) == 0x0EDB8832
    ensures ByteSteps(0x10) == 0x1DB71064
    ensures ByteSteps(0x20) == 0x3B6E20C8
    ensures ByteSteps(0x40) == 0x76DC4190
    ensures ByteSteps(0x80) == 0xEDB88320
  {
    assert ZeroStep(0x80) == 0x40;
    assert ZeroStep(0x40) == 0x20;
    assert ZeroStep(0x20) == 0x10;
    assert ZeroStep(0x10) == 0x08;
    assert ZeroStep(0x08) == 0x04;
    assert ZeroStep(0x04) == 0x02;
    assert ZeroStep(0x02) == 0x01;
    assert ZeroStep(0x01) == 0xEDB88320;
    assert ZeroStep(0xEDB88320) == 0x76DC4190;
    assert ZeroStep(0x76DC4190) == 0x3B6E20C8;
    assert ZeroStep(0x3B6E20C8) == 0x1DB71064;
    assert ZeroStep(0x1DB71064) == 0xEDB8832;
    assert ZeroStep(0xEDB8832) == 0x76DC419;
    assert ZeroStep(0x76DC419) == 0xEE0E612C;
    assert ZeroStep(0xEE0E612C) == 0x77073096;
    hide ZeroStep;
  }

  /** Entries add up like their indices. */
  lemma ByteStepsAdd(a: bv32, b: bv32, c: bv32)
    requires Xor(a, b) == c
    ensures ByteSteps(c) == Xor(ByteSteps(a), ByteSteps(b))
  {
    hide Xor, ZeroSteps, ByteSteps;
    StepsAreLinear(a, b, 8);
    ByteAtATime(a, 0);
    ByteAtATime(b, 0);
    ByteAtATime(c, 0);
    NoSteps(ByteSteps(a));
    NoSteps(ByteSteps(b));
    NoSteps(ByteSteps(c));
  }

  lemma NoSteps(s: bv32)
    ensures ZeroSteps(s, 0) == s
  {
  }

  lemma FirstRow(j: nat)
    requires j < 16
    ensures ByteSteps(Word(j)) == Row0(j)
  {
    hide ByteSteps;
    Powers();
    ByteStepsAdd(0, 0, 0);
    ByteStepsAdd(2, 1, 3);
    ByteStepsAdd(4, 1, 5);
    ByteStepsAdd(4, 2, 6);
    ByteStepsAdd(4, 3, 7);
    ByteStepsAdd(8, 1, 9);
    ByteStepsAdd(8, 2, 10);
    ByteStepsAdd(8, 3, 11);
    ByteStepsAdd(8, 4, 12);
    ByteStepsAdd(8, 5, 13);
    ByteStepsAdd(8, 6, 14);
    ByteStepsAdd(8, 7, 15);
  }

  lemma FirstColumn(r: nat)
    requires r < 16
    ensures ByteSteps(Word(r) << 4) == Row(r, 0)
  {
    hide ByteSteps;
    Powers();
    ByteStepsAdd(0, 0, 0);
    ByteStepsAdd(0x20, 0x10, 0x30);
    ByteStepsAdd(0x40, 0x10, 0x50);
    ByteStepsAdd(0x40, 0x20, 0x60);
    ByteStepsAdd(0x40, 0x30, 0x70);
    ByteStepsAdd(0x80, 0x10, 0x90);
    ByteStepsAdd(0x80, 0x20, 0xA0);
    ByteStepsAdd(0x80, 0x30, 0xB0);
    ByteStepsAdd(0x80, 0x40, 0xC0);
    ByteStepsAdd(0x80, 0x50, 0xD0);
    ByteStepsAdd(0x80, 0x60, 0xE0);
    ByteStepsAdd(0x80, 0x70, 0xF0);
  }

  // Each row is its first entry plus row 0.

  lemma Sum0(j: nat) requires j < 16 ensures Row0(j) == Xor(Row0(0), Row0(j)) {}
  lemma Sum1(j: nat) requires j < 16 ensures Row1(j) == Xor(Row1(0), Row0(j)) {}
  lemma Sum2(j: nat) requires j < 16 ensures Row2(j) == Xor(Row2(0), Row0(j)) {}
  lemma Sum3(j: nat) requires j < 16 ensures Row3(j) == Xor(Row3(0), Row0(j)) {}
  lemma Sum4(j: nat) requires j < 16 ensures Row4(j) == Xor(Row4(0), Row0(j)) {}
  lemma Sum5(j: nat) requires j < 16 ensures Row5(j) == Xor(Row5(0), Row0(j)) {}
  lemma Sum6(j: nat) requires j < 16 ensures Row6(j) == Xor(Row6(0), Row0(j)) {}
  lemma Sum7(j: nat) requires j < 16 ensures Row7(j) == Xor(Row7(0), Row0(j)) {}
  lemma Sum8(j: nat) requires j < 16 ensures Row8(j) == Xor(Row8(0), Row0(j)) {}
  lemma Sum9(j: nat) requires j < 16 ensures Row9(j) == Xor(Row9(0), Row0(j)) {}
  lemma SumA(j: nat) requires j < 16 ensures RowA(j) == Xor(RowA(0), Row0(j)) {}
  lemma SumB(j: nat) requires j < 16 ensures RowB(j) == Xor(RowB(0), Row0(j)) {}
  lemma SumC(j: nat) requires j < 16 ensures RowC(j) == Xor(RowC(0), Row0(j)) {}
  lemma SumD(j: nat) requires j < 16 ensures RowD(j) == Xor(RowD(0), Row0(j)) {}
  lemma SumE(j: nat) requires j < 16 ensures RowE(j) == Xor(RowE(0), Row0(j)) {}
  lemma SumF(j: nat) requires j < 16 ensures RowF(j) == Xor(RowF(0), Row0(j)) {}

  lemma EveryRow(r: nat, j: nat)
    requires r < 16 && j < 16
    ensures Row(r, j) == Xor(Row(r, 0), Row0(j))
  {
    hide Xor, Row0, Row1, Row2, Row3, Row4, Row5, Row6, Row7, Row8, Row9, RowA, RowB, RowC, RowD, RowE, RowF;
    match r
    case 0 => Sum0(j);
    case 1 => Sum1(j);
    case 2 => Sum2(j);
    case 3 => Sum3(j);
    case 4 => Sum4(j);
    case 5 => Sum5(j);
    case 6 => Sum6(j);
    case 7 => Sum7(j);
    case 8 => Sum8(j);
    case 9 => Sum9(j);
    case 10 => SumA(j);
    case 11 => SumB(j);
    case 12 => SumC(j);
    case 13 => SumD(j);
    case 14 => SumE(j);
    case _ => SumF(j);
  }

  /** A four-bit value as an index. */
  function Nibble(v: bv32): (n: nat)
    requires v < 16
    ensures n < 16 && Word(n) == v
  {
    if v == 0 then 0 else if v == 1 then 1 else if v == 2 then 2 else if v == 3 then 3
    else if v == 4 then 4 else if v == 5 then 5 else if v == 6 then 6 else if v == 7 then 7
    else if v == 8 then 8 else if v == 9 then 9 else if v == 10 then 10 else if v == 11 then 11
    else if v == 12 then 12 else if v == 13 then 13 else if v == 14 then 14 else 15
  }

  function HighNibble(v: bv32): bv32 { v >> 4 }

  function LowNibble(v: bv32): bv32 { v & 15 }

  lemma NibblesOf(v: bv32)
    requires v < 256
    ensures HighNibble(v) < 16 && LowNibble(v) < 16
  {
  }

  /** crc32_table[v]. */
  function TableEntry(v: bv32): bv32
    requires v < 256
  {
    NibblesOf(v);
    Row(Nibble(HighNibble(v)), Nibble(LowNibble(v)))
  }

  lemma NibblesJoin(v: bv32)
    requires v < 256
    ensures Xor(HighNibble(v) << 4, LowNibble(v)) == v
  {
  }

  /** Every one of the 256 entries is eight zero-input steps of its index. */
  lemma TableIsByteSteps(v: bv32)
    requires v < 256
    ensures TableEntry(v) == ByteSteps(v)
  {
    hide ByteSteps, Xor, HighNibble, LowNibble, Nibble, Row, Row0, Word;
    NibblesOf(v);
    var r, j := Nibble(HighNibble(v)), Nibble(LowNibble(v));
    EveryRow(r, j);
    FirstColumn(r);
    FirstRow(j);
    NibblesJoin(v);
    ByteStepsAdd(Word(r) << 4, Word(j), v);
  }

  // ---------------------------------------------------------------------------
  // The packet monitor
  // ---------------------------------------------------------------------------

  function LowByte(s: bv32): (v: bv32)
    ensures v < 256
  {
    s & 0xFF
  }

  function DropByte(s: bv32): bv32 { s >> 8 }

  /** One turn of the monitor's loop. */
  function TableStep(s: bv32, b: bv8): bv32 {
    Xor(TableEntry(LowByte(Xor(s, ByteWord(b)))), DropByte(s))
  }

  /** The monitor's CRC of a byte string, as a fold of the table step. */
  function TableRun(data: seq<bv8>): bv32 {
    if data == [] then INIT else TableStep(TableRun(data[..|data| - 1]), data[|data| - 1])
  }

  function TableCrc(data: seq<bv8>): bv32 {
    Xor(TableRun(data), 0xFFFF_FFFF)
  }

  function And(a: bv32, m: bv32): bv32 { a & m }

  lemma SplitByte(x: bv32)
    ensures Xor(LowByte(x), And(x, 0xFFFF_FF00)) == x
  {
  }

  lemma EvenStep(z: bv32, m: bv32)
    requires !Low(m)
    ensures ZeroStep(And(z, m)) == And(Shift(z), Shift(m))
  {
    hide And, Shift, Low;
    EvenAnd(z, m);
    ShiftAnd(z, m);
  }

  lemma EvenAnd(z: bv32, m: bv32)
    requires !Low(m)
    ensures !Low(And(z, m))
  {
  }

  lemma ShiftAnd(z: bv32, m: bv32)
    ensures Shift(And(z, m)) == And(Shift(z), Shift(m))
  {
  }

  lemma TopMasks()
    ensures Shift(0xFFFF_FF00) == 0x7FFF_FF80 && Shift(0x7FFF_FF80) == 0x3FFF_FFC0
    ensures Shift(0x3FFF_FFC0) == 0x1FFF_FFE0 && Shift(0x1FFF_FFE0) == 0x0FFF_FFF0
    ensures Shift(0x0FFF_FFF0) == 0x07FF_FFF8 && Shift(0x07FF_FFF8) == 0x03FF_FFFC
    ensures Shift(0x03FF_FFFC) == 0x01FF_FFFE && Shift(0x01FF_FFFE) == 0x00FF_FFFF
    ensures !Low(0xFFFF_FF00) && !Low(0x7FFF_FF80) && !Low(0x3FFF_FFC0) && !Low(0x1FFF_FFE0)
    ensures !Low(0x0FFF_FFF0) && !Low(0x07FF_FFF8) && !Low(0x03FF_FFFC) && !Low(0x01FF_FFFE)
  {
  }

  lemma EightShifts(x: bv32)
    ensures And(Shift(Shift(Shift(Shift(Shift(Shift(Shift(Shift(x)))))))), 0x00FF_FFFF) == DropByte(x)
  {
  }

  /** The steps only shift as long as the low bits are zero. */
  lemma HighPartShifts(x: bv32)
    ensures ByteSteps(And(x, 0xFFFF_FF00)) == DropByte(x)
  {
    hide And, Shift, Low, DropByte, ZeroStep;
    var x4 := Shift(Shift(Shift(Shift(x))));
    TopMasks();
    EvenStep(x, 0xFFFF_FF00);
    EvenStep(Shift(x), 0x7FFF_FF80);
    EvenStep(Shift(Shift(x)), 0x3FFF_FFC0);
    EvenStep(Shift(Shift(Shift(x))), 0x1FFF_FFE0);
    EvenStep(x4, 0x0FFF_FFF0);
    EvenStep(Shift(x4), 0x07FF_FFF8);
    EvenStep(Shift(Shift(x4)), 0x03FF_FFFC);
    EvenStep(Shift(Shift(Shift(x4))), 0x01FF_FFFE);
    EightShifts(x);
  }

  lemma DropMixed(s: bv32, b: bv8)
    ensures DropByte(Xor(s, ByteWord(b))) == DropByte(s)
  {
  }

  lemma PackOfByte(b: bv8)
    ensures Pack(Unpack(ByteWord(b), 8)) == ByteWord(b)
  {
    hide Within, ByteWord, Mask, Unpack, Pack;
    WholeMask();
    WithinClear(ByteWord(b), 0);
    PackOfUnpack(ByteWord(b), 8);
  }

  /** Eight serial steps over a byte are one table step. */
  lemma TableStepIsEightSteps(s: bv32, b: bv8)
    ensures TableStep(s, b) == Bits(s, Unpack(ByteWord(b), 8))
  {
    hide Xor, And, ByteWord, LowByte, DropByte, ByteSteps, TableEntry, Bits, ZeroSteps, Unpack, Pack;
    var x := Xor(s, ByteWord(b));
    Absorb(s, Unpack(ByteWord(b), 8));
    PackOfByte(b);
    ByteAtATime(x, 0);
    NoSteps(ByteSteps(x));
    SplitByte(x);
    ByteStepsAdd(LowByte(x), And(x, 0xFFFF_FF00), x);
    TableIsByteSteps(LowByte(x));
    HighPartShifts(x);
    DropMixed(s, b);
  }

  /** The table form computes the CRC of the bits. */
  lemma {:induction false} TableCrcIsCrc(data: seq<bv8>)
    ensures TableRun(data) == Bits(INIT, BitsOf(data))
    ensures TableCrc(data) == Crc(BitsOf(data))
  {
    hide TableStep, Bits, Unpack, ByteWord;
    if data == [] {
      NoBits(INIT);
    } else {
      var init, b := data[..|data| - 1], data[|data| - 1];
      TableCrcIsCrc(init);
      TableStepIsEightSteps(Bits(INIT, BitsOf(init)), b);
      BitsOfConcat(INIT, BitsOf(init), Unpack(ByteWord(b), 8));
    }
    hide TableRun, Xor, Not;
    XorOnes(TableRun(data));
  }

  /** PacketMon::crc32. */
  method MonitorCrc32(data: seq<bv8>) returns (crc: bv32)
    ensures crc == TableCrc(data) == Crc(BitsOf(data))
  {
    hide TableStep, Crc, BitsOf;
    TableCrcIsCrc(data);
    crc := INIT;
    for i := 0 to |data|
      invariant crc == TableRun(data[..i])
    {
      assert data[..i + 1][..i] == data[..i];
      crc := TableStep(crc, data[i]);
    }
    assert data[..|data|] == data;
    crc := Xor(crc, 0xFFFF_FFFF);
  }

  // ---------------------------------------------------------------------------
  // Against the hardware
  // ---------------------------------------------------------------------------

  /** For every sequence of packets of whole words, with any idle cycles, the hardware reports one value
      per packet, and it is the table-driven CRC of that packet's bytes. */
  lemma {:induction false} HardwareMatchesMonitor(run: seq<Cycle>, t: nat)
    requires t <= |run|
    ensures |Outputs(run, t)| == |Completed(run, t)|
    ensures forall i :: 0 <= i < |Outputs(run, t)| ==> Outputs(run, t)[i] == TableCrc(Completed(run, t)[i])
  {
    hide Bits, BitsOf, TableCrc, Not;
    if t > 0 {
      HardwareMatchesMonitor(run, t - 1);
      if run[t - 1].valid && run[t - 1].last {
        LastWord(run, t - 1);
      }
    }
  }

  /** At every edge crc_valid is high exactly if the last word of a packet came one edge before, and crc_out is the CRC
      of the latest packet, or 0 as long as there was none. */
  lemma {:induction false} OutIsLatest(run: seq<Cycle>, t: nat)
    requires t <= |run|
    ensures UnitAt(run, t).valid <==> t > 0 && run[t - 1].valid && run[t - 1].last
    ensures UnitAt(run, t).out ==
      if Completed(run, t) == [] then 0 else TableCrc(Completed(run, t)[|Completed(run, t)| - 1])
  {
    hide Bits, BitsOf, TableCrc, Not;
    if t > 0 {
      OutIsLatest(run, t - 1);
      if run[t - 1].valid && run[t - 1].last {
        LastWord(run, t - 1);
      }
    }
  }

  lemma RunOfMore(data: seq<bv8>, b: bv8)
    ensures TableRun(data + [b]) == TableStep(TableRun(data), b)
  {
    assert (data + [b])[..|data|] == data;
    hide TableStep;
  }

  lemma RunOfFour(data: seq<bv8>, a: bv8, b: bv8, c: bv8, d: bv8)
    ensures TableRun(data + [a, b, c, d])
      == TableStep(TableStep(TableStep(TableStep(TableRun(data), a), b), c), d)
  {
    hide TableRun, TableStep;
    RunOfMore(data, a);
    RunOfMore(data + [a], b);
    RunOfMore(data + [a] + [b], c);
    RunOfMore(data + [a] + [b] + [c], d);
    assert data + [a] + [b] + [c] + [d] == data + [a, b, c, d];
  }

  /** A step through the entry e at row hi, column lo of the table. */
  lemma StepValue(s: bv32, b: bv8, w: bv32, hi: nat, lo: nat, e: bv32)
    requires hi < 16 && lo < 16 && ByteWord(b) == w && LowByte(Xor(s, w)) == Xor(Word(hi) << 4, Word(lo))
    requires Row(hi, lo) == e
    ensures TableStep(s, b) == Xor(e, DropByte(s))
  {
    var v := LowByte(Xor(s, ByteWord(b)));
    SmallWord(hi);
    SmallWord(lo);
    NibblesOfJoin(Word(hi), Word(lo));
    NibblesOf(v);
    assert Nibble(HighNibble(v)) == hi && Nibble(LowNibble(v)) == lo;
    hide LowByte, Xor, ByteWord, DropByte, Row, Word, Nibble, HighNibble, LowNibble;
  }

  lemma SmallWord(n: nat)
    requires n < 16
    ensures Word(n) < 16 && Nibble(Word(n)) == n
  {
  }

  lemma NibblesOfJoin(a: bv32, b: bv32)
    requires a < 16 && b < 16
    ensures HighNibble(Xor(a << 4, b)) == a && LowNibble(Xor(a << 4, b)) == b
  {
  }

  lemma Digit1()
    ensures TableStep(0xFFFF_FFFF, 0x31) == 0x7C23_1048
  {
    hide TableStep;
    StepValue(0xFFFF_FFFF, 0x31, 0x31, 12, 14, 0x7CDC_EFB7);
  }

  lemma Digit2()
    ensures TableStep(0x7C23_1048, 0x32) == 0xB0AC_BB32
  {
    hide TableStep;
    StepValue(0x7C23_1048, 0x32, 0x32, 7, 10, 0xB0D0_9822);
  }

  lemma Digit3()
    ensures TableStep(0xB0AC_BB32, 0x33) == 0x77B7_9C2D
  {
    hide TableStep;
    StepValue(0xB0AC_BB32, 0x33, 0x33, 0, 1, 0x7707_3096);
  }

  lemma Digit4()
    ensures TableStep(0x77B7_9C2D, 0x34) == 0x641C_1F5C
  {
    hide TableStep;
    StepValue(0x77B7_9C2D, 0x34, 0x34, 1, 9, 0x646B_A8C0);
  }

  lemma Digit5()
    ensures TableStep(0x641C_1F5C, 0x35) == 0x340A_C5E3
  {
    hide TableStep;
    StepValue(0x641C_1F5C, 0x35, 0x35, 6, 9, 0x346E_D9FC);
  }

  lemma Digit6()
    ensures TableStep(0x340A_C5E3, 0x36) == 0xF68D_2C9E
  {
    hide TableStep;
    StepValue(0x340A_C5E3, 0x36, 0x36, 13, 5, 0xF6B9_265B);
  }

  lemma Digit7()
    ensures TableStep(0xF68D_2C9E, 0x37) == 0xAFFC_9660
  {
    hide TableStep;
    StepValue(0xF68D_2C9E, 0x37, 0x37, 10, 9, 0xAF0A_1B4C);
  }

  lemma Digit8()
    ensures TableStep(0xAFFC_9660, 0x38) == 0x651F_2550
  {
    hide TableStep;
    StepValue(0xAFFC_9660, 0x38, 0x38, 5, 8, 0x65B0_D9C6);
  }

  lemma FirstDigits()
    ensures TableRun([0x31, 0x32, 0x33, 0x34]) == 0x641C_1F5C
  {
    hide TableStep;
    Digit1();
    Digit2();
    Digit3();
    Digit4();
    var none: seq<bv8>, four: seq<bv8> := [], [0x31, 0x32, 0x33, 0x34];
    RunOfFour(none, 0x31, 0x32, 0x33, 0x34);
    assert TableRun(none) == INIT;
    hide TableRun;
    assert none + four == four;
    assert TableRun(none + four) == 0x641C_1F5C;
  }

  lemma MoreDigits()
    ensures TableRun([0x31, 0x32, 0x33, 0x34] + [0x35, 0x36, 0x37, 0x38]) == 0x651F_2550
  {
    hide TableStep, TableRun;
    FirstDigits();
    Digit5();
    Digit6();
    Digit7();
    Digit8();
    RunOfFour([0x31, 0x32, 0x33, 0x34], 0x35, 0x36, 0x37, 0x38);
  }

  /** One packet of one word, or of two. */
  lemma ShortPackets(a: seq<bv8>, b: seq<bv8>)
    ensures var run := [Cycle(a, true, true)]; UnitAt(run, 1).valid && UnitAt(run, 1).out == TableCrc(a)
    ensures var run := [Cycle(a, true, false), Cycle(b, true, true)];
      UnitAt(run, 2).valid && UnitAt(run, 2).out == TableCrc(a + b)
  {
    var one, two := [Cycle(a, true, true)], [Cycle(a, true, false), Cycle(b, true, true)];
    hide TableCrc, Bits, BitsOf, UnitAt, Not;
    OutIsLatest(one, 1);
    OutIsLatest(two, 2);
    assert Open(one, 0) + a == a && Completed(one, 1) == [a];
    assert Open(two, 1) == [] + a == a && Completed(two, 1) == [];
    assert Completed(two, 2) == [] + [a + b];
  }

  /** The two values that the repository's own testbench expects of the hardware: for "1234" in one word, and for
      "12345678" in two. */
  lemma KnownValues(a: seq<bv8>, b: seq<bv8>)
    requires a == [0x31, 0x32, 0x33, 0x34] && b == [0x35, 0x36, 0x37, 0x38]
    ensures UnitAt([Cycle(a, true, true)], 1).out == 0x9BE3_E0A3
    ensures UnitAt([Cycle(a, true, false), Cycle(b, true, true)], 2).out == 0x9AE0_DAAF
  {
    FirstDigits();
    MoreDigits();
    assert Xor(0x641C_1F5C, 0xFFFF_FFFF) == 0x9BE3_E0A3 && Xor(0x651F_2550, 0xFFFF_FFFF) == 0x9AE0_DAAF;
    hide Xor, TableRun, UnitAt;
    ShortPackets(a, b);
  }

  lemma LastWord(run: seq<Cycle>, t: nat)
    requires t < |run| && run[t].valid && run[t].last
    ensures UnitAt(run, t + 1).out == TableCrc(Open(run, t) + run[t].word)
  {
    hide Bits, BitsOf, Open, TableCrc, Not;
    StateIsOpenPacket(run, t);
    WordAdds(Open(run, t), run[t].word);
    TableCrcIsCrc(Open(run, t) + run[t].word);
  }
}

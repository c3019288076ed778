// CRC_32 of a PSI section: the table-driven loop, the shift register it
// stands for (Annex A of ISO/IEC 13818-1), and what a zero result means.

module Crc32 {
  import opened Bytes

  const POLYNOMIAL: word := 0x04C11DB7
  const INITIAL: word := 0xffffffff

  // ---------------------------------------------------------------- the code

  /** One row of sixteen entries of the 256-entry table. */
  function Row(i: int): (row: seq<word>)
    requires 0 <= i < 16
    ensures |row| == 16
  {
    match i
    case 0 =>
      [0x00000000, 0x04C11DB7, 0x09823B6E, 0x0D4326D9, 0x130476DC, 0x17C56B6B, 0x1A864DB2, 0x1E475005,
       0x2608EDB8, 0x22C9F00F, 0x2F8AD6D6, 0x2B4BCB61, 0x350C9B64, 0x31CD86D3, 0x3C8EA00A, 0x384FBDBD]
    case 1 =>
      [0x4C11DB70, 0x48D0C6C7, 0x4593E01E, 0x4152FDA9, 0x5F15ADAC, 0x5BD4B01B, 0x569796C2, 0x52568B75,
       0x6A1936C8, 0x6ED82B7F, 0x639B0DA6, 0x675A1011, 0x791D4014, 0x7DDC5DA3, 0x709F7B7A, 0x745E66CD]
    case 2 =>
      [0x9823B6E0, 0x9CE2AB57, 0x91A18D8E, 0x95609039, 0x8B27C03C, 0x8FE6DD8B, 0x82A5FB52, 0x8664E6E5,
       0xBE2B5B58, 0xBAEA46EF, 0xB7A96036, 0xB3687D81, 0xAD2F2D84, 0xA9EE3033, 0xA4AD16EA, 0xA06C0B5D]
    case 3 =>
      [0xD4326D90, 0xD0F37027, 0xDDB056FE, 0xD9714B49, 0xC7361B4C, 0xC3F706FB, 0xCEB42022, 0xCA753D95,
       0xF23A8028, 0xF6FB9D9F, 0xFBB8BB46, 0xFF79A6F1, 0xE13EF6F4, 0xE5FFEB43, 0xE8BCCD9A, 0xEC7DD02D]
    case 4 =>
      [0x34867077, 0x30476DC0, 0x3D044B19, 0x39C556AE, 0x278206AB, 0x23431B1C, 0x2E003DC5, 0x2AC12072,
       0x128E9DCF, 0x164F8078, 0x1B0CA6A1, 0x1FCDBB16, 0x018AEB13, 0x054BF6A4, 0x0808D07D, 0x0CC9CDCA]
    case 5 =>
      [0x7897AB07, 0x7C56B6B0, 0x71159069, 0x75D48DDE, 0x6B93DDDB, 0x6F52C06C, 0x6211E6B5, 0x66D0FB02,
       0x5E9F46BF, 0x5A5E5B08, 0x571D7DD1, 0x53DC6066, 0x4D9B3063, 0x495A2DD4, 0x44190B0D, 0x40D816BA]
    case 6 =>
      [0xACA5C697, 0xA864DB20, 0xA527FDF9, 0xA1E6E04E, 0xBFA1B04B, 0xBB60ADFC, 0xB6238B25, 0xB2E29692,
       0x8AAD2B2F, 0x8E6C3698, 0x832F1041, 0x87EE0DF6, 0x99A95DF3, 0x9D684044, 0x902B669D, 0x94EA7B2A]
    case 7 =>
      [0xE0B41DE7, 0xE4750050, 0xE9362689, 0xEDF73B3E, 0xF3B06B3B, 0xF771768C, 0xFA325055, 0xFEF34DE2,
       0xC6BCF05F, 0xC27DEDE8, 0xCF3ECB31, 0xCBFFD686, 0xD5B88683, 0xD1799B34, 0xDC3ABDED, 0xD8FBA05A]
    case 8 =>
      [0x690CE0EE, 0x6DCDFD59, 0x608EDB80, 0x644FC637, 0x7A089632, 0x7EC98B85, 0x738AAD5C, 0x774BB0EB,
       0x4F040D56, 0x4BC510E1, 0x46863638, 0x42472B8F, 0x5C007B8A, 0x58C1663D, 0x558240E4, 0x51435D53]
    case 9 =>
      [0x251D3B9E, 0x21DC2629, 0x2C9F00F0, 0x285E1D47, 0x36194D42, 0x32D850F5, 0x3F9B762C, 0x3B5A6B9B,
       0x0315D626, 0x07D4CB91, 0x0A97ED48, 0x0E56F0FF, 0x1011A0FA, 0x14D0BD4D, 0x19939B94, 0x1D528623]
    case 10 =>
      [0xF12F560E, 0xF5EE4BB9, 0xF8AD6D60, 0xFC6C70D7, 0xE22B20D2, 0xE6EA3D65, 0xEBA91BBC, 0xEF68060B,
       0xD727BBB6, 0xD3E6A601, 0xDEA580D8, 0xDA649D6F, 0xC423CD6A, 0xC0E2D0DD, 0xCDA1F604, 0xC960EBB3]
    case 11 =>
      [0xBD3E8D7E, 0xB9FF90C9, 0xB4BCB610, 0xB07DABA7, 0xAE3AFBA2, 0xAAFBE615, 0xA7B8C0CC, 0xA379DD7B,
       0x9B3660C6, 0x9FF77D71, 0x92B45BA8, 0x9675461F, 0x8832161A, 0x8CF30BAD, 0x81B02D74, 0x857130C3]
    case 12 =>
      [0x5D8A9099, 0x594B8D2E, 0x5408ABF7, 0x50C9B640, 0x4E8EE645, 0x4A4FFBF2, 0x470CDD2B, 0x43CDC09C,
       0x7B827D21, 0x7F436096, 0x7200464F, 0x76C15BF8, 0x68860BFD, 0x6C47164A, 0x61043093, 0x65C52D24]
    case 13 =>
      [0x119B4BE9, 0x155A565E, 0x18197087, 0x1CD86D30, 0x029F3D35, 0x065E2082, 0x0B1D065B, 0x0FDC1BEC,
       0x3793A651, 0x3352BBE6, 0x3E119D3F, 0x3AD08088, 0x2497D08D, 0x2056CD3A, 0x2D15EBE3, 0x29D4F654]
    case 14 =>
      [0xC5A92679, 0xC1683BCE, 0xCC2B1D17, 0xC8EA00A0, 0xD6AD50A5, 0xD26C4D12, 0xDF2F6BCB, 0xDBEE767C,
       0xE3A1CBC1, 0xE760D676, 0xEA23F0AF, 0xEEE2ED18, 0xF0A5BD1D, 0xF464A0AA, 0xF9278673, 0xFDE69BC4]
    case _ =>
      [0x89B8FD09, 0x8D79E0BE, 0x803AC667, 0x84FBDBD0, 0x9ABC8BD5, 0x9E7D9662, 0x933EB0BB, 0x97FFAD0C,
       0xAFB010B1, 0xAB710D06, 0xA6322BDF, 0xA2F33668, 0xBCB4666D, 0xB8757BDA, 0xB5365D03, 0xB1F740B4]
  }

  function Table(i: byte): word {
    Row(i as int / 16)[i as int % 16]
  }

  function Top(w: word): byte {
    (w >> 24) as byte
  }

  function Step(crc: word, b: byte): word {
    Xor(crc << 8, Table(Xor8(Top(crc), b)))
  }

  function CrcFrom(crc: word, s: seq<byte>): word
    decreases |s|
  {
    if s == [] then crc else CrcFrom(Step(crc, s[0]), s[1..])
  }

  function Crc(s: seq<byte>): word {
    CrcFrom(INITIAL, s)
  }

  /** crc32(head, tail): the loop over the bytes. */
  method Crc32(raw: array<byte>, tail: nat) returns (crc: word)
    requires tail <= raw.Length
    ensures crc == Crc(raw[..tail])
  {
    crc := INITIAL;
    var p := 0;
    while p < tail
      invariant p <= tail
      invariant Crc(raw[..tail]) == CrcFrom(crc, raw[p..tail])
    {
      assert raw[p..tail][1..] == raw[p + 1..tail];
      crc := Step(crc, raw[p]);
      p := p + 1;
    }
  }

  // ------------------------------------------------- the shift register

  predicate Msb(r: word) {
    r & 0x80000000 != 0
  }

  /** One clock of the 32-bit register of Annex A: the incoming bit is added
      to the bit shifted out, and the sum is fed back through the polynomial. */
  function Shift(r: word, bit: bool): word {
    if Msb(r) != bit then Xor(r << 1, POLYNOMIAL) else r << 1
  }

  /** The top k bits of b, most significant first. */
  function ShiftBits(r: word, b: byte, k: nat): word
    decreases k
  {
    if k == 0 then r else ShiftBits(Shift(r, b & 0x80 != 0), b << 1, k - 1)
  }

  function Register(r: word, s: seq<byte>): word
    decreases |s|
  {
    if s == [] then r else Register(ShiftBits(r, s[0], 8), s[1..])
  }

  /** k clocks with no input. */
  function Clocks(r: word, k: nat): word
    decreases k
  {
    if k == 0 then r else Clocks(Shift(r, false), k - 1)
  }

  // ------------------------------------------------- one clock, on its bits

  lemma MsbOfXor(a: word, b: word)
    ensures Msb(Xor(a, b)) == (Msb(a) != Msb(b))
  {
  }

  lemma DoubleXorBits(a: word, b: word, s: word, d: word)
    requires s == a ^ b && d == (a << 1) ^ (b << 1)
    ensures s << 1 == d
  {
  }

  lemma DoubleXor(a: word, b: word)
    ensures Xor(a, b) << 1 == Xor(a << 1, b << 1)
  {
    DoubleXorBits(a, b, Xor(a, b), Xor(a << 1, b << 1));
  }

  /** Adding w to the register before a clock is feeding its top bit in, and
      adding the rest one place higher. */
  lemma AddThenClock(r: word, w: word)
    ensures Shift(Xor(r, w), false) == Xor(Shift(r, Msb(w)), w << 1)
  {
    hide Xor, Msb;
    MsbOfXor(r, w);
    DoubleXor(r, w);
    XorSwap(r << 1, w << 1, POLYNOMIAL);
  }

  /** The polynomial is odd, so the lowest bit tells whether it was fed back. */
  lemma LowBitOfShift(r: word, bit: bool)
    ensures (Shift(r, bit) & 1 != 0) == (Msb(r) != bit)
  {
  }

  lemma SameRestSameMsb(x: word, y: word)
    requires x << 1 == y << 1 && Msb(x) == Msb(y)
    ensures x == y
  {
  }

  lemma ShiftInjective(x: word, y: word, bit: bool)
    requires Shift(x, bit) == Shift(y, bit)
    ensures x == y
  {
    hide Xor, Msb;
    LowBitOfShift(x, bit);
    LowBitOfShift(y, bit);
    if Msb(x) != bit {
      XorInjective(x << 1, y << 1, POLYNOMIAL);
    }
    SameRestSameMsb(x, y);
  }

  lemma {:induction false} ClocksInjective(x: word, y: word, k: nat)
    requires Clocks(x, k) == Clocks(y, k)
    ensures x == y
    decreases k
  {
    hide Shift;
    if k > 0 {
      ClocksInjective(Shift(x, false), Shift(y, false), k - 1);
      ShiftInjective(x, y, false);
    }
  }

  lemma {:induction false} ClocksCompose(r: word, j: nat, k: nat)
    ensures Clocks(Clocks(r, j), k) == Clocks(r, j + k)
    decreases j
  {
    hide Shift;
    if j > 0 {
      ClocksCompose(Shift(r, false), j - 1, k);
    }
  }

  lemma {:induction false} ZeroStaysZero(k: nat)
    ensures Clocks(0, k) == 0
  {
    if k > 0 {
      ZeroStaysZero(k - 1);
      assert Shift(0, false) == 0;
    }
  }

  // ------------------------------------ the table holds eight clocks of a byte

  lemma Row0(i: byte)
    requires 0x00 <= i < 0x10
    ensures Table(i) == Clocks(i as word << 24, 8)
  {
  }

  lemma Row1(i: byte)
    requires 0x10 <= i < 0x20
    ensures Table(i) == Clocks(i as word << 24, 8)
  {
  }

  lemma Row2(i: byte)
    requires 0x20 <= i < 0x30
    ensures Table(i) == Clocks(i as word << 24, 8)
  {
  }

  lemma Row3(i: byte)
    requires 0x30 <= i < 0x40
    ensures Table(i) == Clocks(i as word << 24, 8)
  {
  }

  lemma Row4(i: byte)
    requires 0x40 <= i < 0x50
    ensures Table(i) == Clocks(i as word << 24, 8)
  {
  }

  lemma Row5(i: byte)
    requires 0x50 <= i < 0x60
    ensures Table(i) == Clocks(i as word << 24, 8)
  {
  }

  lemma Row6(i: byte)
    requires 0x60 <= i < 0x70
    ensures Table(i) == Clocks(i as word << 24, 8)
  {
  }

  lemma Row7(i: byte)
    requires 0x70 <= i < 0x80
    ensures Table(i) == Clocks(i as word << 24, 8)
  {
  }

  lemma Row8(i: byte)
    requires 0x80 <= i < 0x90
    ensures Table(i) == Clocks(i as word << 24, 8)
  {
  }

  lemma Row9(i: byte)
    requires 0x90 <= i < 0xA0
    ensures Table(i) == Clocks(i as word << 24, 8)
  {
  }

  lemma RowA(i: byte)
    requires 0xA0 <= i < 0xB0
    ensures Table(i) == Clocks(i as word << 24, 8)
  {
  }

  lemma RowB(i: byte)
    requires 0xB0 <= i < 0xC0
    ensures Table(i) == Clocks(i as word << 24, 8)
  {
  }

  lemma RowC(i: byte)
    requires 0xC0 <= i < 0xD0
    ensures Table(i) == Clocks(i as word << 24, 8)
  {
  }

  lemma RowD(i: byte)
    requires 0xD0 <= i < 0xE0
    ensures Table(i) == Clocks(i as word << 24, 8)
  {
  }

  lemma RowE(i: byte)
    requires 0xE0 <= i < 0xF0
    ensures Table(i) == Clocks(i as word << 24, 8)
  {
  }

  lemma RowF(i: byte)
    requires 0xF0 <= i
    ensures Table(i) == Clocks(i as word << 24, 8)
  {
  }

  lemma TableIsEightClocks(i: byte)
    ensures Table(i) == Clocks(i as word << 24, 8)
  {
    if i < 0x10 {
      Row0(i);
    } else if i < 0x20 {
      Row1(i);
    } else if i < 0x30 {
      Row2(i);
    } else if i < 0x40 {
      Row3(i);
    } else if i < 0x50 {
      Row4(i);
    } else if i < 0x60 {
      Row5(i);
    } else if i < 0x70 {
      Row6(i);
    } else if i < 0x80 {
      Row7(i);
    } else if i < 0x90 {
      Row8(i);
    } else if i < 0xA0 {
      Row9(i);
    } else if i < 0xB0 {
      RowA(i);
    } else if i < 0xC0 {
      RowB(i);
    } else if i < 0xD0 {
      RowC(i);
    } else if i < 0xE0 {
      RowD(i);
    } else if i < 0xF0 {
      RowE(i);
    } else {
      RowF(i);
    }
  }

  // --------------------------- eight shifts of a byte are one table step

  function Left(w: word, k: nat): word
    decreases k
  {
    if k == 0 then w else Left(w << 1, k - 1)
  }

  predicate NoFeedback(w: word, k: nat)
    decreases k
  {
    k == 0 || (!Msb(w) && NoFeedback(w << 1, k - 1))
  }

  /** A word with no bit that reaches the top in k clocks is only moved up. */
  lemma {:induction false} LowBitsMoveUp(r: word, w: word, k: nat)
    requires NoFeedback(w, k)
    ensures Clocks(Xor(r, w), k) == Xor(Clocks(r, k), Left(w, k))
    decreases k
  {
    hide Shift, Xor, Msb;
    if k > 0 {
      AddThenClock(r, w);
      LowBitsMoveUp(Shift(r, false), w << 1, k - 1);
    }
  }

  lemma TopBitOfByte(b: byte)
    ensures Msb(b as word << 24) == (b & 0x80 != 0)
    ensures (b as word << 24) << 1 == (b << 1) as word << 24
  {
  }

  /** The bits of b enter at the top of the register, which takes in b whole. */
  lemma {:induction false} BitsEnterAtTop(r: word, b: byte, k: nat)
    ensures Xor(ShiftBits(r, b, k), Left(b as word << 24, k)) == Clocks(Xor(r, b as word << 24), k)
    decreases k
  {
    hide Shift, Xor, Msb;
    if k > 0 {
      AddThenClock(r, b as word << 24);
      TopBitOfByte(b);
      BitsEnterAtTop(Shift(r, b & 0x80 != 0), b << 1, k - 1);
    }
  }

  lemma EightLefts(w: word)
    ensures Left(w, 8) == w << 8
  {
  }

  lemma ThreeBytesFeedNothing(w: word)
    requires w < 0x1000000
    ensures NoFeedback(w, 8)
  {
  }

  function Up(w: word): word {
    w << 8
  }

  lemma TopOfXor(a: word, b: word)
    ensures Top(Xor(a, b)) == Xor8(Top(a), Top(b))
  {
  }

  lemma SplitTop(w: word)
    ensures w == Xor(Top(w) as word << 24, w & 0xffffff)
  {
  }

  lemma LowBytesBits(crc: word, w: word, sum: word, d: word)
    requires sum == crc ^ w && d == (crc << 8) ^ (w << 8)
    ensures (sum & 0xffffff) << 8 == d && sum & 0xffffff < 0x1000000
  {
  }

  lemma LowBytes(crc: word, w: word)
    ensures Xor(crc, w) & 0xffffff < 0x1000000
    ensures (Xor(crc, w) & 0xffffff) << 8 == Xor(crc << 8, w << 8)
  {
    LowBytesBits(crc, w, Xor(crc, w), Xor(crc << 8, w << 8));
  }

  /** Eight clocks take in the top byte of a word w added to the register, and
      leave the rest of w one byte higher. */
  lemma TopByteEnters(crc: word, w: word)
    ensures Clocks(Xor(crc, w), 8) == Xor(Step(crc, Top(w)), Up(w))
  {
    hide Xor, Xor8, Clocks, Table, Top;
    var b := Xor8(Top(crc), Top(w));
    var low := Xor(crc, w) & 0xffffff;
    TopOfXor(crc, w);
    SplitTop(Xor(crc, w));
    LowBytes(crc, w);
    TableIsEightClocks(b);
    ThreeBytesFeedNothing(low);
    LowBitsMoveUp(b as word << 24, low, 8);
    EightLefts(low);
    XorAssociates(Table(b), crc << 8, w << 8);
    XorCommutes(Table(b), crc << 8);
  }

  lemma ByteAtTop(b: byte)
    ensures Top(b as word << 24) == b && Up(b as word << 24) == 0
  {
  }

  lemma StepIsEightShifts(crc: word, b: byte)
    ensures Step(crc, b) == ShiftBits(crc, b, 8)
  {
    hide Xor, Step, ShiftBits, Clocks, Top, Left;
    TopByteEnters(crc, b as word << 24);
    BitsEnterAtTop(crc, b, 8);
    ByteAtTop(b);
    EightLefts(b as word << 24);
    XorWithZero(Step(crc, b));
    XorWithZero(ShiftBits(crc, b, 8));
  }

  /** The table-driven loop is the shift register, from any register value. */
  lemma {:induction false} CrcIsShiftRegister(crc: word, s: seq<byte>)
    ensures CrcFrom(crc, s) == Register(crc, s)
    decreases |s|
  {
    hide Step, ShiftBits;
    if s != [] {
      StepIsEightShifts(crc, s[0]);
      CrcIsShiftRegister(Step(crc, s[0]), s[1..]);
    }
  }

  /** So the CRC of a section is what the register holds that starts with all bits
      set, in the polynomial whose low coefficients are 0x04C11DB7. */
  lemma CrcIsRegister(s: seq<byte>)
    ensures Crc(s) == Register(0xffffffff, s) && Shift(0x80000000, false) == 0x04C11DB7
  {
    hide CrcFrom, Register;
    CrcIsShiftRegister(INITIAL, s);
  }

  // --------------------------------------------- what a zero result means

  lemma {:induction false} CrcFromConcat(crc: word, s: seq<byte>, t: seq<byte>)
    ensures CrcFrom(crc, s + t) == CrcFrom(CrcFrom(crc, s), t)
    decreases |s|
  {
    hide Step;
    if s == [] {
      assert s + t == t;
    } else {
      assert (s + t)[0] == s[0] && (s + t)[1..] == s[1..] + t;
      CrcFromConcat(Step(crc, s[0]), s[1..], t);
    }
  }

  lemma BytesOfWord(b0: byte, b1: byte, b2: byte, b3: byte)
    ensures var w := Be32(b0, b1, b2, b3);
      && Top(w) == b0 && Top(Up(w)) == b1 && Top(Up(Up(w))) == b2 && Top(Up(Up(Up(w)))) == b3
      && Up(Up(Up(Up(w)))) == 0
  {
  }

  /** Four bytes act on the register as one word, added before 32 clocks. */
  lemma FourBytesAreOneWord(crc: word, b0: byte, b1: byte, b2: byte, b3: byte)
    ensures CrcFrom(crc, [b0, b1, b2, b3]) == Clocks(Xor(crc, Be32(b0, b1, b2, b3)), 32)
  {
    hide Xor, Be32, Step, Clocks, CrcFrom, Top, Up;
    var w := Be32(b0, b1, b2, b3);
    BytesOfWord(b0, b1, b2, b3);
    var c1 := Step(crc, b0);
    var c2 := Step(c1, b1);
    var c3 := Step(c2, b2);
    TopByteEnters(crc, w);
    TopByteEnters(c1, Up(w));
    TopByteEnters(c2, Up(Up(w)));
    TopByteEnters(c3, Up(Up(Up(w))));
    XorWithZero(Step(c3, b3));
    ClocksCompose(Xor(crc, w), 8, 24);
    ClocksCompose(Xor(c1, Up(w)), 8, 16);
    ClocksCompose(Xor(c2, Up(Up(w))), 8, 8);
    FourSteps(crc, b0, b1, b2, b3);
  }

  lemma OneStep(crc: word, b: byte, s: seq<byte>)
    ensures CrcFrom(crc, [b] + s) == CrcFrom(Step(crc, b), s)
  {
    assert ([b] + s)[1..] == s;
  }

  lemma FourSteps(crc: word, b0: byte, b1: byte, b2: byte, b3: byte)
    ensures CrcFrom(crc, [b0, b1, b2, b3]) == Step(Step(Step(Step(crc, b0), b1), b2), b3)
  {
    hide Step;
    OneStep(crc, b0, [b1, b2, b3]);
    OneStep(Step(crc, b0), b1, [b2, b3]);
    OneStep(Step(Step(crc, b0), b1), b2, [b3]);
    OneStep(Step(Step(Step(crc, b0), b1), b2), b3, []);
    assert [b0] + [b1, b2, b3] == [b0, b1, b2, b3] && [b1] + [b2, b3] == [b1, b2, b3];
    assert [b2] + [b3] == [b2, b3] && [b3] + [] == [b3];
  }

  lemma FourBytesGiveZero(crc: word, s: seq<byte>)
    requires |s| == 4
    ensures CrcFrom(crc, s) == 0 <==> Be32(s[0], s[1], s[2], s[3]) == crc
  {
    hide Xor, Be32, Clocks, CrcFrom;
    var w := Be32(s[0], s[1], s[2], s[3]);
    assert s == [s[0], s[1], s[2], s[3]];
    FourBytesAreOneWord(crc, s[0], s[1], s[2], s[3]);
    ZeroStaysZero(32);
    XorWithZero(w);
    if CrcFrom(crc, s) == 0 {
      ClocksInjective(Xor(crc, w), 0, 32);
      XorInjective(crc, w, w);
    }
  }

  /** A section passes exactly when its last four bytes are the CRC of the rest. */
  lemma ZeroMeansTrailerMatches(s: seq<byte>)
    requires |s| >= 4
    ensures var n := |s| - 4;
      Crc(s) == 0 <==> Be32(s[n], s[n + 1], s[n + 2], s[n + 3]) == Crc(s[..n])
  {
    hide CrcFrom;
    var n := |s| - 4;
    assert s == s[..n] + s[n..];
    CrcFromConcat(INITIAL, s[..n], s[n..]);
    FourBytesGiveZero(Crc(s[..n]), s[n..]);
  }

  // ------------------------------------------------------ burst detection

  lemma StepInjective(c: word, d: word, b: byte)
    requires Step(c, b) == Step(d, b)
    ensures c == d
  {
    hide Xor, Step, Clocks, Top, Up;
    var w := b as word << 24;
    ByteAtTop(b);
    TopByteEnters(c, w);
    TopByteEnters(d, w);
    ClocksInjective(Xor(c, w), Xor(d, w), 8);
    XorInjective(c, d, w);
  }

  lemma {:induction false} CrcInjectiveInState(c: word, d: word, s: seq<byte>)
    requires CrcFrom(c, s) == CrcFrom(d, s)
    ensures c == d
    decreases |s|
  {
    hide Step;
    if s != [] {
      CrcInjectiveInState(Step(c, s[0]), Step(d, s[0]), s[1..]);
      StepInjective(c, d, s[0]);
    }
  }

  lemma CrcInjectiveInFourBytes(c: word, s: seq<byte>, t: seq<byte>)
    requires |s| == |t| == 4 && CrcFrom(c, s) == CrcFrom(c, t)
    ensures s == t
  {
    hide Xor, Be32, Clocks, CrcFrom;
    var v, w := Be32(s[0], s[1], s[2], s[3]), Be32(t[0], t[1], t[2], t[3]);
    assert s == [s[0], s[1], s[2], s[3]] && t == [t[0], t[1], t[2], t[3]];
    FourBytesAreOneWord(c, s[0], s[1], s[2], s[3]);
    FourBytesAreOneWord(c, t[0], t[1], t[2], t[3]);
    ClocksInjective(Xor(c, v), Xor(c, w), 32);
    XorCommutes(c, v);
    XorCommutes(c, w);
    XorInjective(v, w, c);
    Be32Injective(s[0], s[1], s[2], s[3], t[0], t[1], t[2], t[3]);
  }

  lemma CrcInjectiveInShortBurst(c: word, s: seq<byte>, t: seq<byte>)
    requires |s| == |t| <= 4 && CrcFrom(c, s) == CrcFrom(c, t)
    ensures s == t
  {
    hide CrcFrom;
    var pad := seq(4 - |s|, _ => 0);
    CrcFromConcat(c, s, pad);
    CrcFromConcat(c, t, pad);
    CrcInjectiveInFourBytes(c, s + pad, t + pad);
    assert s == (s + pad)[..|s|] && t == (t + pad)[..|s|];
  }

  /** Strings that differ, but only inside some window of four consecutive
      bytes (which may reach past the end), never have the same CRC. */
  lemma BurstDetected(s: seq<byte>, t: seq<byte>, at: nat)
    requires |s| == |t| && s != t && at <= |s|
    requires forall k | 0 <= k < |s| && !(at <= k < at + 4) :: s[k] == t[k]
    ensures Crc(s) != Crc(t)
  {
    hide CrcFrom;
    var to := if at + 4 <= |s| then at + 4 else |s|;
    assert s == s[..at] + s[at..to] + s[to..] && t == t[..at] + t[at..to] + t[to..];
    assert s[..at] == t[..at] && s[to..] == t[to..];
    CrcFromConcat(INITIAL, s[..at] + s[at..to], s[to..]);
    CrcFromConcat(INITIAL, t[..at] + t[at..to], t[to..]);
    CrcFromConcat(INITIAL, s[..at], s[at..to]);
    CrcFromConcat(INITIAL, t[..at], t[at..to]);
    if Crc(s) == Crc(t) {
      var c := Crc(s[..at]);
      CrcInjectiveInState(CrcFrom(c, s[at..to]), CrcFrom(c, t[at..to]), s[to..]);
      CrcInjectiveInShortBurst(c, s[at..to], t[at..to]);
    }
  }
}

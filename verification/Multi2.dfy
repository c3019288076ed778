// The MULTI2 block cipher (register entry 0009 of ISO/IEC 9979): its four
// elementary functions, the key schedule, and cipher block chaining over a
// buffer in place, with a feedback-mode tail.

module Multi2 {
  import opened Bytes

  datatype Block = Block(l: word, r: word)

  type Key = k: seq<word> | |k| == 8 witness [0, 0, 0, 0, 0, 0, 0, 0]

  const ERROR_INVALID_PARAMETER := -1
  const ERROR_UNSET_SYSTEM_KEY := -2
  const ERROR_UNSET_CBC_INIT := -3
  const ERROR_UNSET_SCRAMBLE_KEY := -4

  const CBC_INIT_SET: word := 1
  const SYSTEM_KEY_SET: word := 2
  const SCRAMBLE_KEY_SET: word := 4

  // ------------------------------------------------ the elementary functions

  function Rotate(w: word, count: word): word
    requires 0 < count < 32
  {
    (w << count) | (w >> (32 - count))
  }

  // Words are the integers modulo 2^32, and so are their sums, differences,
  // products and quotients; proofs hide these where the values do not matter.

  function Plus(a: word, b: word): word { a + b }

  function Minus(a: word, b: word): word { a - b }

  function Or(a: word, b: word): word { a | b }

  /** What core_pi2 adds to the left half. */
  function Mix2(r: word, a: word): word {
    var t0 := Plus(r, a);
    var t1 := Minus(Plus(Rotate(t0, 1), t0), 1);
    Xor(Rotate(t1, 4), t1)
  }

  /** What core_pi3 adds to the right half. */
  function Mix3(l: word, a: word, b: word): word {
    var t0 := Plus(l, a);
    var t1 := Plus(Plus(Rotate(t0, 2), t0), 1);
    var t2 := Xor(Rotate(t1, 8), t1);
    var t3 := Plus(t2, b);
    var t4 := Minus(Rotate(t3, 1), t3);
    Xor(Rotate(t4, 16), Or(t4, l))
  }

  /** What core_pi4 adds to the left half. */
  function Mix4(r: word, a: word): word {
    var t0 := Plus(r, a);
    Plus(Plus(Rotate(t0, 2), t0), 1)
  }

  function Pi1(s: Block): Block {
    Block(s.l, Xor(s.r, s.l))
  }

  function Pi2(s: Block, a: word): Block {
    Block(Xor(s.l, Mix2(s.r, a)), s.r)
  }

  function Pi3(s: Block, a: word, b: word): Block {
    Block(s.l, Xor(s.r, Mix3(s.l, a, b)))
  }

  function Pi4(s: Block, a: word): Block {
    Block(Xor(s.l, Mix4(s.r, a)), s.r)
  }

  // In arithmetic a rotation is a multiplication and a division.

  function Times(a: word, b: word): word { a * b }

  function Over(a: word, b: word): word
    requires b != 0
  {
    a / b
  }

  function Turned(w: word, up: word, down: word): word
    requires down != 0
  {
    Plus(Times(w, up), Over(w, down))
  }

  /** A rotation in two parts. */
  lemma TurnedParts(w: word, up: word, down: word, high: word, low: word)
    requires down != 0 && Times(w, up) == high && Over(w, down) == low
    ensures Turned(w, up, down) == Plus(high, low)
  {
    hide Times, Over, Plus;
  }

  lemma TurnedByOne(w: word)
    ensures Rotate(w, 1) == Turned(w, 2, 0x8000_0000)
  {
    hide Turned;
    TurnedParts(w, 2, 0x8000_0000, w << 1, w >> 31);
  }

  lemma TurnedByTwo(w: word)
    ensures Rotate(w, 2) == Turned(w, 4, 0x4000_0000)
  {
    hide Turned;
    TurnedParts(w, 4, 0x4000_0000, w << 2, w >> 30);
  }

  lemma TurnedByFour(w: word)
    ensures Rotate(w, 4) == Turned(w, 16, 0x1000_0000)
  {
    hide Turned;
    TurnedParts(w, 16, 0x1000_0000, w << 4, w >> 28);
  }

  lemma TurnedByEight(w: word)
    ensures Rotate(w, 8) == Turned(w, 256, 0x100_0000)
  {
    hide Turned;
    TurnedParts(w, 256, 0x100_0000, w << 8, w >> 24);
  }

  lemma TurnedBySixteen(w: word)
    ensures Rotate(w, 16) == Turned(w, 0x1_0000, 0x1_0000)
  {
    hide Turned;
    TurnedParts(w, 0x1_0000, 0x1_0000, w << 16, w >> 16);
  }

  /** What core_pi2, core_pi3 and core_pi4 compute, in arithmetic. */
  lemma Pi2Arithmetic(s: Block, a: word)
    ensures var t0 := Plus(s.r, a);
      var t1 := Minus(Plus(Turned(t0, 2, 0x8000_0000), t0), 1);
      Pi2(s, a) == Block(Xor(s.l, Xor(Turned(t1, 16, 0x1000_0000), t1)), s.r)
  {
    hide Rotate, Turned, Xor, Plus, Minus;
    var t0 := Plus(s.r, a);
    TurnedByOne(t0);
    TurnedByFour(Minus(Plus(Rotate(t0, 1), t0), 1));
  }

  lemma Pi3Arithmetic(s: Block, a: word, b: word)
    ensures var t0 := Plus(s.l, a);
      var t1 := Plus(Plus(Turned(t0, 4, 0x4000_0000), t0), 1);
      var t3 := Plus(Xor(Turned(t1, 256, 0x100_0000), t1), b);
      var t4 := Minus(Turned(t3, 2, 0x8000_0000), t3);
      Pi3(s, a, b) == Block(s.l, Xor(s.r, Xor(Turned(t4, 0x1_0000, 0x1_0000), Or(t4, s.l))))
  {
    hide Rotate, Turned, Xor, Plus, Minus, Or;
    var t0 := Plus(s.l, a);
    TurnedByTwo(t0);
    var t1 := Plus(Plus(Rotate(t0, 2), t0), 1);
    TurnedByEight(t1);
    var t3 := Plus(Xor(Rotate(t1, 8), t1), b);
    TurnedByOne(t3);
    TurnedBySixteen(Minus(Rotate(t3, 1), t3));
  }

  lemma Pi4Arithmetic(s: Block, a: word)
    ensures var t0 := Plus(s.r, a);
      Pi4(s, a) == Block(Xor(s.l, Plus(Plus(Turned(t0, 4, 0x4000_0000), t0), 1)), s.r)
  {
    hide Rotate, Turned, Xor, Plus, Minus;
    TurnedByTwo(Plus(s.r, a));
  }

  lemma PiInvolutions(s: Block, a: word, b: word)
    ensures Pi1(Pi1(s)) == s
    ensures Pi2(Pi2(s, a), a) == s
    ensures Pi3(Pi3(s, a, b), a, b) == s
    ensures Pi4(Pi4(s, a), a) == s
  {
    hide Xor, Mix2, Mix3, Mix4;
    XorCancel(s.r, s.l);
    XorCancel(s.l, Mix2(s.r, a));
    XorCancel(s.r, Mix3(s.l, a, b));
    XorCancel(s.l, Mix4(s.r, a));
  }

  // ------------------------------------------------------------ the rounds

  function EncryptRound(s: Block, w: Key): Block {
    var half := Pi4(Pi3(Pi2(Pi1(s), w[0]), w[1], w[2]), w[3]);
    Pi4(Pi3(Pi2(Pi1(half), w[4]), w[5], w[6]), w[7])
  }

  function DecryptRound(s: Block, w: Key): Block {
    var half := Pi1(Pi2(Pi3(Pi4(s, w[7]), w[5], w[6]), w[4]));
    Pi1(Pi2(Pi3(Pi4(half, w[3]), w[1], w[2]), w[0]))
  }

  /** A count below one leaves the block as it is. */
  function EncryptRounds(s: Block, w: Key, round: int): Block
    decreases round
  {
    if round <= 0 then s else EncryptRound(EncryptRounds(s, w, round - 1), w)
  }

  function DecryptRounds(s: Block, w: Key, round: int): Block
    decreases round
  {
    if round <= 0 then s else DecryptRound(DecryptRounds(s, w, round - 1), w)
  }

  method CoreEncrypt(src: Block, w: Key, round: int) returns (dst: Block)
    ensures dst == EncryptRounds(src, w, round)
  {
    hide Pi1, Pi2, Pi3, Pi4;
    dst := src;
    var i := 0;
    while i < round
      invariant 0 <= i && (i == 0 || i <= round)
      invariant dst == EncryptRounds(src, w, i)
    {
      var tmp := Pi1(dst);
      dst := Pi2(tmp, w[0]);
      tmp := Pi3(dst, w[1], w[2]);
      dst := Pi4(tmp, w[3]);
      tmp := Pi1(dst);
      dst := Pi2(tmp, w[4]);
      tmp := Pi3(dst, w[5], w[6]);
      dst := Pi4(tmp, w[7]);
      i := i + 1;
    }
  }

  method CoreDecrypt(src: Block, w: Key, round: int) returns (dst: Block)
    ensures dst == DecryptRounds(src, w, round)
  {
    hide Pi1, Pi2, Pi3, Pi4;
    dst := src;
    var i := 0;
    while i < round
      invariant 0 <= i && (i == 0 || i <= round)
      invariant dst == DecryptRounds(src, w, i)
    {
      var tmp := Pi4(dst, w[7]);
      dst := Pi3(tmp, w[5], w[6]);
      tmp := Pi2(dst, w[4]);
      dst := Pi1(tmp);
      tmp := Pi4(dst, w[3]);
      dst := Pi3(tmp, w[1], w[2]);
      tmp := Pi2(dst, w[0]);
      dst := Pi1(tmp);
      i := i + 1;
    }
  }

  lemma RoundInverse(s: Block, w: Key)
    ensures DecryptRound(EncryptRound(s, w), w) == s
    ensures EncryptRound(DecryptRound(s, w), w) == s
  {
    hide Pi1, Pi2, Pi3, Pi4;
    var e1 := Pi1(s);
    var e2 := Pi2(e1, w[0]);
    var e3 := Pi3(e2, w[1], w[2]);
    var e4 := Pi4(e3, w[3]);
    var e5 := Pi1(e4);
    var e6 := Pi2(e5, w[4]);
    var e7 := Pi3(e6, w[5], w[6]);
    PiInvolutions(s, 0, 0);
    PiInvolutions(e1, w[0], 0);
    PiInvolutions(e2, w[1], w[2]);
    PiInvolutions(e3, w[3], 0);
    PiInvolutions(e4, 0, 0);
    PiInvolutions(e5, w[4], 0);
    PiInvolutions(e6, w[5], w[6]);
    PiInvolutions(e7, w[7], 0);
    var d1 := Pi4(s, w[7]);
    var d2 := Pi3(d1, w[5], w[6]);
    var d3 := Pi2(d2, w[4]);
    var d4 := Pi1(d3);
    var d5 := Pi4(d4, w[3]);
    var d6 := Pi3(d5, w[1], w[2]);
    var d7 := Pi2(d6, w[0]);
    PiInvolutions(s, w[7], 0);
    PiInvolutions(d1, w[5], w[6]);
    PiInvolutions(d2, w[4], 0);
    PiInvolutions(d3, 0, 0);
    PiInvolutions(d4, w[3], 0);
    PiInvolutions(d5, w[1], w[2]);
    PiInvolutions(d6, w[0], 0);
    PiInvolutions(d7, 0, 0);
  }

  lemma {:induction false} RoundsCommute(s: Block, w: Key, round: int)
    ensures EncryptRounds(EncryptRound(s, w), w, round) == EncryptRound(EncryptRounds(s, w, round), w)
    ensures DecryptRounds(DecryptRound(s, w), w, round) == DecryptRound(DecryptRounds(s, w, round), w)
    decreases round
  {
    hide EncryptRound, DecryptRound;
    if round > 0 {
      RoundsCommute(s, w, round - 1);
    }
  }

  /** Encryption and decryption undo each other, for every key and round count. */
  lemma {:induction false} RoundsInverse(s: Block, w: Key, round: int)
    ensures DecryptRounds(EncryptRounds(s, w, round), w, round) == s
    ensures EncryptRounds(DecryptRounds(s, w, round), w, round) == s
    decreases round
  {
    hide EncryptRound, DecryptRound;
    if round > 0 {
      var e, d := EncryptRounds(s, w, round - 1), DecryptRounds(s, w, round - 1);
      RoundsCommute(EncryptRound(e, w), w, round - 1);
      RoundsCommute(DecryptRound(d, w), w, round - 1);
      RoundInverse(e, w);
      RoundInverse(d, w);
      RoundsInverse(s, w, round - 1);
    }
  }

  // ------------------------------------------------------- the key schedule

  function Schedule(skey: Key, dkey: Block): Key {
    var b2 := Pi2(Pi1(dkey), skey[0]);
    var b3 := Pi3(b2, skey[1], skey[2]);
    var b4 := Pi4(b3, skey[3]);
    var b5 := Pi1(b4);
    var b6 := Pi2(b5, skey[4]);
    var b7 := Pi3(b6, skey[5], skey[6]);
    var b8 := Pi4(b7, skey[7]);
    var b9 := Pi1(b8);
    [b2.l, b3.r, b4.l, b5.r, b6.l, b7.r, b8.l, b9.r]
  }

  /** The schedule is one round under the system key, whose result can be read
      off the last two words of the work key; so one round of decryption gives
      the scramble key back. */
  lemma ScheduleIsOneRound(skey: Key, dkey: Block)
    ensures var w := Schedule(skey, dkey);
      && EncryptRound(dkey, skey) == Block(w[6], Xor(w[6], w[7]))
      && DecryptRound(Block(w[6], Xor(w[6], w[7])), skey) == dkey
  {
    var w := Schedule(skey, dkey);
    var b := EncryptRound(dkey, skey);
    assert w[6] == b.l && w[7] == Xor(b.r, b.l) by {
      hide Xor, Mix2, Mix3, Mix4;
    }
    hide Schedule, EncryptRound, DecryptRound, Xor;
    XorCommutes(b.l, w[7]);
    XorCancel(b.r, b.l);
    RoundInverse(dkey, skey);
  }

  lemma ScheduleInjective(skey: Key, d1: Block, d2: Block)
    requires Schedule(skey, d1) == Schedule(skey, d2)
    ensures d1 == d2
  {
    hide Schedule, DecryptRound, EncryptRound, Xor;
    ScheduleIsOneRound(skey, d1);
    ScheduleIsOneRound(skey, d2);
  }

  // ------------------------------------------------- blocks in a byte string

  function LoadBlock(s: seq<byte>): Block
    requires |s| >= 8
  {
    Block(Be32(s[0], s[1], s[2], s[3]), Be32(s[4], s[5], s[6], s[7]))
  }

  function SaveBlock(b: Block): (s: seq<byte>)
    ensures |s| == 8
  {
    Split32(b.l) + Split32(b.r)
  }

  lemma LoadSave(b: Block, s: seq<byte>)
    ensures LoadBlock(SaveBlock(b) + s) == b
    ensures (SaveBlock(b) + s)[8..] == s
  {
    hide Be32;
    var l, r := Split32(b.l), Split32(b.r);
    var t := SaveBlock(b) + s;
    assert t[0] == l[0] && t[1] == l[1] && t[2] == l[2] && t[3] == l[3];
    assert t[4] == r[0] && t[5] == r[1] && t[6] == r[2] && t[7] == r[3];
  }

  lemma SaveLoad(s: seq<byte>)
    requires |s| >= 8
    ensures SaveBlock(LoadBlock(s)) == s[..8]
  {
    hide Be32;
    var b := LoadBlock(s);
    var l, r := Split32(b.l), Split32(b.r);
    Be32Injective(l[0], l[1], l[2], l[3], s[0], s[1], s[2], s[3]);
    Be32Injective(r[0], r[1], r[2], r[3], s[4], s[5], s[6], s[7]);
  }

  function XorBlock(a: Block, b: Block): Block {
    Block(Xor(a.l, b.l), Xor(a.r, b.r))
  }

  lemma XorBlockCancel(a: Block, b: Block)
    ensures XorBlock(XorBlock(a, b), b) == a
  {
    hide Xor;
    XorCancel(a.l, b.l);
    XorCancel(a.r, b.r);
  }

  function XorBytes(s: seq<byte>, t: seq<byte>): (u: seq<byte>)
    requires |s| <= |t|
    ensures |u| == |s|
  {
    seq(|s|, i requires 0 <= i < |s| => Xor8(s[i], t[i]))
  }

  lemma XorBytesCancel(s: seq<byte>, t: seq<byte>)
    requires |s| <= |t|
    ensures XorBytes(XorBytes(s, t), t) == s
  {
    hide Xor8;
    forall i | 0 <= i < |s| {
      Xor8Cancel(s[i], t[i]);
    }
  }

  // ------------------------------------------------------ chaining, as values

  /** The result of encrypting s when the previous cipher block is fb. */
  function CbcEncrypt(s: seq<byte>, fb: Block, w: Key, round: int): (c: seq<byte>)
    ensures |c| == |s|
    decreases |s|
  {
    if |s| >= 8 then
      var d := EncryptRounds(XorBlock(LoadBlock(s), fb), w, round);
      SaveBlock(d) + CbcEncrypt(s[8..], d, w, round)
    else
      XorBytes(s, SaveBlock(EncryptRounds(fb, w, round)))
  }

  function CbcDecrypt(s: seq<byte>, fb: Block, w: Key, round: int): (c: seq<byte>)
    ensures |c| == |s|
    decreases |s|
  {
    if |s| >= 8 then
      var d := XorBlock(DecryptRounds(LoadBlock(s), w, round), fb);
      SaveBlock(d) + CbcDecrypt(s[8..], LoadBlock(s), w, round)
    else
      XorBytes(s, SaveBlock(EncryptRounds(fb, w, round)))
  }

  lemma {:induction false} DecryptUndoesEncrypt(s: seq<byte>, fb: Block, w: Key, round: int)
    ensures CbcDecrypt(CbcEncrypt(s, fb, w, round), fb, w, round) == s
    decreases |s|
  {
    hide XorBlock, LoadBlock, SaveBlock, EncryptRounds, DecryptRounds, XorBytes;
    if |s| >= 8 {
      var x := XorBlock(LoadBlock(s), fb);
      var d := EncryptRounds(x, w, round);
      LoadSave(d, CbcEncrypt(s[8..], d, w, round));
      RoundsInverse(x, w, round);
      XorBlockCancel(LoadBlock(s), fb);
      SaveLoad(s);
      DecryptUndoesEncrypt(s[8..], d, w, round);
      assert s == s[..8] + s[8..];
    } else {
      XorBytesCancel(s, SaveBlock(EncryptRounds(fb, w, round)));
    }
  }

  lemma {:induction false} EncryptUndoesDecrypt(s: seq<byte>, fb: Block, w: Key, round: int)
    ensures CbcEncrypt(CbcDecrypt(s, fb, w, round), fb, w, round) == s
    decreases |s|
  {
    hide XorBlock, LoadBlock, SaveBlock, EncryptRounds, DecryptRounds, XorBytes;
    if |s| >= 8 {
      var x := DecryptRounds(LoadBlock(s), w, round);
      var d := XorBlock(x, fb);
      LoadSave(d, CbcDecrypt(s[8..], LoadBlock(s), w, round));
      RoundsInverse(LoadBlock(s), w, round);
      XorBlockCancel(x, fb);
      SaveLoad(s);
      EncryptUndoesDecrypt(s[8..], LoadBlock(s), w, round);
      assert s == s[..8] + s[8..];
    } else {
      XorBytesCancel(s, SaveBlock(EncryptRounds(fb, w, round)));
    }
  }

  // ----------------------------------------------------------- the key state

  /** The private data of a cipher object, apart from its reference count. */
  datatype Keys = Keys(
    cbcInit: Block,
    sys: Key,
    odd: Block,
    even: Block,
    oddWork: Key,
    evenWork: Key,
    round: int,
    state: word)
  {
    /** A type of 2 selects the even key, any other the odd one. */
    function Work(kind: int): Key {
      if kind == 2 then evenWork else oddWork
    }

    predicate Has(bit: word) {
      state & bit != 0
    }

    /** The code returned before the buffer is touched; 0 means go on. */
    function Check(size: int): int {
      if size < 1 then ERROR_INVALID_PARAMETER
      else if state == CBC_INIT_SET | SYSTEM_KEY_SET | SCRAMBLE_KEY_SET then 0
      else if !Has(CBC_INIT_SET) then ERROR_UNSET_CBC_INIT
      else if !Has(SYSTEM_KEY_SET) then ERROR_UNSET_SYSTEM_KEY
      else if !Has(SCRAMBLE_KEY_SET) then ERROR_UNSET_SCRAMBLE_KEY
      else 0
    }

    function Encrypted(kind: int, s: seq<byte>): (c: seq<byte>)
      ensures |c| == |s|
    {
      if Check(|s|) < 0 then s else CbcEncrypt(s, cbcInit, Work(kind), round)
    }

    function Decrypted(kind: int, s: seq<byte>): (c: seq<byte>)
      ensures |c| == |s|
    {
      if Check(|s|) < 0 then s else CbcDecrypt(s, cbcInit, Work(kind), round)
    }

    function WithSystemKey(val: seq<byte>): Keys
      requires |val| == 32
    {
      this.(sys := LoadKey(val), state := state | SYSTEM_KEY_SET)
    }

    function WithInitCbc(val: seq<byte>): Keys
      requires |val| == 8
    {
      this.(cbcInit := LoadBlock(val), state := state | CBC_INIT_SET)
    }

    function WithScrambleKey(val: seq<byte>): Keys
      requires |val| == 16
    {
      var o, e := LoadBlock(val), LoadBlock(val[8..]);
      this.(odd := o, even := e, oddWork := Schedule(sys, o), evenWork := Schedule(sys, e),
            state := state | SCRAMBLE_KEY_SET)
    }

    function WithoutScrambleKey(): Keys {
      this.(odd := ZERO_BLOCK, even := ZERO_BLOCK, oddWork := ZERO_KEY, evenWork := ZERO_KEY,
            state := state & !SCRAMBLE_KEY_SET)
    }
  }

  const ZERO_BLOCK := Block(0, 0)
  const ZERO_KEY: Key := [0, 0, 0, 0, 0, 0, 0, 0]

  /** create_multi2 */
  const NEW_KEYS := Keys(ZERO_BLOCK, ZERO_KEY, ZERO_BLOCK, ZERO_BLOCK, ZERO_KEY, ZERO_KEY, 4, 0)

  function LoadKey(val: seq<byte>): Key
    requires |val| == 32
  {
    seq(8, i requires 0 <= i < 8 => Be32(val[4 * i], val[4 * i + 1], val[4 * i + 2], val[4 * i + 3]))
  }

  /** A buffer goes through unchanged with a negative code, or both ways with
      code 0; which of the two depends on the key bits and the size alone. */
  lemma BufferRoundTrip(k: Keys, kind: int, s: seq<byte>)
    ensures k.Decrypted(kind, k.Encrypted(kind, s)) == s
    ensures k.Encrypted(kind, k.Decrypted(kind, s)) == s
  {
    hide CbcEncrypt, CbcDecrypt;
    DecryptUndoesEncrypt(s, k.cbcInit, k.Work(kind), k.round);
    EncryptUndoesDecrypt(s, k.cbcInit, k.Work(kind), k.round);
  }

  /** The cipher works exactly when all three keys have been set. */
  lemma ReadyMeansAllKeysSet(k: Keys, size: int)
    ensures k.Check(size) == 0 <==>
      size >= 1 && k.Has(CBC_INIT_SET) && k.Has(SYSTEM_KEY_SET) && k.Has(SCRAMBLE_KEY_SET)
  {
    var s := k.state;
    if s == 7 {
      assert s & 1 != 0 && s & 2 != 0 && s & 4 != 0;
    }
  }

  /** The code that a buffer is refused with: an empty one, then the keys in the
      order in which they are looked for. */
  lemma RefusalCode(k: Keys, size: int)
    ensures k.Check(size) ==
      if size < 1 then -1
      else if k.state & 1 == 0 then -3
      else if k.state & 2 == 0 then -2
      else if k.state & 4 == 0 then -4
      else 0
  {
    var s := k.state;
    if s == 7 {
      assert s & 1 != 0 && s & 2 != 0 && s & 4 != 0;
    }
  }

  // ------------------------------------------------------ chaining, in place

  method SaveBlockAt(buf: array<byte>, p: nat, b: Block)
    requires p + 8 <= buf.Length
    modifies buf
    ensures buf[..] == old(buf[..p]) + SaveBlock(b) + old(buf[p + 8..])
  {
    var s := SaveBlock(b);
    forall i | 0 <= i < 8 {
      buf[p + i] := s[i];
    }
  }

  /** Adds a key stream to the last size < 8 bytes of a chain. */
  method XorTail(buf: array<byte>, p: nat, size: nat, tmp: seq<byte>)
    requires p + size <= buf.Length && size <= |tmp|
    modifies buf
    ensures buf[..] == old(buf[..p]) + XorBytes(old(buf[p..p + size]), tmp) + old(buf[p + size..])
  {
    hide Xor8;
    var i := 0;
    while i < size
      invariant i <= size
      invariant forall j :: 0 <= j < i ==> buf[p + j] == Xor8(old(buf[p + j]), tmp[j])
      invariant forall j :: 0 <= j < buf.Length && !(p <= j < p + i) ==> buf[j] == old(buf[j])
    {
      buf[p + i] := Xor8(buf[p + i], tmp[i]);
      i := i + 1;
    }
  }

  /** The buffer while a chain runs: what is done, what is left, what follows. */
  ghost predicate Layout(whole: seq<byte>, done: seq<byte>, left: seq<byte>, post: seq<byte>) {
    whole == done + left + post
  }

  lemma LayoutStart(whole: seq<byte>, from: nat, size: nat)
    requires from + size <= |whole|
    ensures Layout(whole, whole[..from], whole[from..from + size], whole[from + size..])
  {
  }

  lemma LayoutAt(whole: seq<byte>, done: seq<byte>, left: seq<byte>, post: seq<byte>)
    requires Layout(whole, done, left, post)
    ensures var p := |done|;
      && p + |left| <= |whole|
      && whole[p..p + |left|] == left && whole[..p] == done && whole[p + |left|..] == post
      && (|left| >= 8 ==> LoadBlock(whole[p..p + 8]) == LoadBlock(left))
  {
    hide Be32;
    if |left| >= 8 {
      assert whole[|done|..|done| + 8] == left[..8];
    }
  }

  /** Writing a block over the first eight bytes that are left. */
  lemma LayoutStep(whole: seq<byte>, done: seq<byte>, left: seq<byte>, post: seq<byte>, block: seq<byte>,
      whole': seq<byte>, rest: seq<byte>)
    requires Layout(whole, done, left, post) && |left| >= 8 == |block|
    requires whole' == whole[..|done|] + block + whole[|done| + 8..]
    ensures Layout(whole', done + block, left[8..], post)
    ensures done + (block + rest) == done + block + rest
  {
  }

  /** Writing over all that is left. */
  lemma LayoutEnd(whole: seq<byte>, done: seq<byte>, left: seq<byte>, post: seq<byte>, end: seq<byte>, whole': seq<byte>)
    requires Layout(whole, done, left, post) && |end| == |left|
    requires whole' == whole[..|done|] + end + whole[|done| + |left|..]
    ensures whole' == done + end + post
  {
  }

  lemma EncryptUnfolds(s: seq<byte>, fb: Block, w: Key, round: int)
    ensures CbcEncrypt(s, fb, w, round) ==
      if |s| >= 8 then
        var d := EncryptRounds(XorBlock(LoadBlock(s), fb), w, round);
        SaveBlock(d) + CbcEncrypt(s[8..], d, w, round)
      else XorBytes(s, SaveBlock(EncryptRounds(fb, w, round)))
    ensures s == [] ==> CbcEncrypt(s, fb, w, round) == []
  {
    hide EncryptRounds, LoadBlock, SaveBlock, XorBlock;
  }

  lemma DecryptUnfolds(s: seq<byte>, fb: Block, w: Key, round: int)
    ensures CbcDecrypt(s, fb, w, round) ==
      if |s| >= 8 then
        var d := XorBlock(DecryptRounds(LoadBlock(s), w, round), fb);
        SaveBlock(d) + CbcDecrypt(s[8..], LoadBlock(s), w, round)
      else XorBytes(s, SaveBlock(EncryptRounds(fb, w, round)))
    ensures s == [] ==> CbcDecrypt(s, fb, w, round) == []
  {
    hide EncryptRounds, DecryptRounds, LoadBlock, SaveBlock, XorBlock;
  }

  /** The end of both chains: to fewer than eight bytes the enciphered last cipher
      block is added. */
  method ChainTail(buf: array<byte>, p: nat, left: nat, fb: Block, w: Key, round: int, ghost done: seq<byte>,
      ghost todo: seq<byte>, ghost post: seq<byte>)
    requires Layout(buf[..], done, todo, post) && |done| == p && |todo| == left < 8
    modifies buf
    ensures buf[..] == done + XorBytes(todo, SaveBlock(EncryptRounds(fb, w, round))) + post
  {
    hide EncryptRounds, SaveBlock, XorBytes, Layout;
    ghost var whole := buf[..];
    LayoutAt(whole, done, todo, post);
    ghost var end := XorBytes(todo, SaveBlock(EncryptRounds(fb, w, round)));
    if left > 0 {
      var dst := CoreEncrypt(fb, w, round);
      XorTail(buf, p, left, SaveBlock(dst));
    }
    LayoutEnd(whole, done, todo, post, end, buf[..]);
  }

  /** encrypt_multi2 on the bytes buf[from..from + size]. */
  method EncryptBuffer(k: Keys, kind: int, buf: array<byte>, from: nat, size: int) returns (code: int)
    requires from + size <= buf.Length
    modifies buf
    ensures code == k.Check(size)
    ensures size < 1 ==> buf[..] == old(buf[..])
    ensures size >= 1 ==>
      buf[..] == old(buf[..from]) + k.Encrypted(kind, old(buf[from..from + size])) + old(buf[from + size..])
  {
    hide CbcEncrypt;
    code := k.Check(size);
    if code < 0 {
      assert size >= 1 ==> buf[..] == buf[..from] + buf[from..from + size] + buf[from + size..];
      return;
    }
    EncryptChain(buf, from, size, k.cbcInit, k.Work(kind), k.round);
  }

  /** One block of the chain, in place. */
  method EncryptAt(buf: array<byte>, p: nat, fb: Block, w: Key, round: int, ghost done: seq<byte>, ghost todo: seq<byte>,
      ghost post: seq<byte>) returns (dst: Block)
    requires Layout(buf[..], done, todo, post) && |done| == p && |todo| >= 8
    modifies buf
    ensures Layout(buf[..], done + SaveBlock(dst), todo[8..], post)
    ensures done + CbcEncrypt(todo, fb, w, round) == done + SaveBlock(dst) + CbcEncrypt(todo[8..], dst, w, round)
  {
    hide EncryptRounds, LoadBlock, SaveBlock, XorBlock, CbcEncrypt, Layout;
    ghost var whole := buf[..];
    LayoutAt(whole, done, todo, post);
    EncryptUnfolds(todo, fb, w, round);
    var src := XorBlock(LoadBlock(buf[p..p + 8]), fb);
    dst := CoreEncrypt(src, w, round);
    SaveBlockAt(buf, p, dst);
    LayoutStep(whole, done, todo, post, SaveBlock(dst), buf[..], CbcEncrypt(todo[8..], dst, w, round));
  }

  method EncryptChain(buf: array<byte>, from: nat, size: nat, fb: Block, w: Key, round: int)
    requires from + size <= buf.Length
    modifies buf
    ensures buf[..] == old(buf[..from]) + CbcEncrypt(old(buf[from..from + size]), fb, w, round) + old(buf[from + size..])
  {
    hide EncryptRounds, DecryptRounds, LoadBlock, SaveBlock, XorBlock, XorBytes, Layout, CbcEncrypt;
    ghost var text := buf[from..from + size];
    ghost var result := buf[..from] + CbcEncrypt(text, fb, w, round);
    ghost var done, todo, post := buf[..from], text, buf[from + size..];
    LayoutStart(buf[..], from, size);
    var dst := fb;
    var p, left := from, size;
    while left >= 8
      invariant |done| == p && |todo| == left && p + left <= buf.Length
      invariant Layout(buf[..], done, todo, post)
      invariant result == done + CbcEncrypt(todo, dst, w, round)
    {
      dst := EncryptAt(buf, p, dst, w, round, done, todo, post);
      done, todo := done + SaveBlock(dst), todo[8..];
      p, left := p + 8, left - 8;
    }
    EncryptUnfolds(todo, dst, w, round);
    ChainTail(buf, p, left, dst, w, round, done, todo, post);
  }

  /** decrypt_multi2 on the bytes buf[from..from + size]. */
  method DecryptBuffer(k: Keys, kind: int, buf: array<byte>, from: nat, size: int) returns (code: int)
    requires from + size <= buf.Length
    modifies buf
    ensures code == k.Check(size)
    ensures size < 1 ==> buf[..] == old(buf[..])
    ensures size >= 1 ==>
      buf[..] == old(buf[..from]) + k.Decrypted(kind, old(buf[from..from + size])) + old(buf[from + size..])
  {
    hide CbcDecrypt;
    code := k.Check(size);
    if code < 0 {
      assert size >= 1 ==> buf[..] == buf[..from] + buf[from..from + size] + buf[from + size..];
      return;
    }
    DecryptChain(buf, from, size, k.cbcInit, k.Work(kind), k.round);
  }

  /** One block of the chain, in place; cbc is what the next one is chained to. */
  method DecryptAt(buf: array<byte>, p: nat, fb: Block, w: Key, round: int, ghost done: seq<byte>, ghost todo: seq<byte>,
      ghost post: seq<byte>) returns (cbc: Block, dst: Block)
    requires Layout(buf[..], done, todo, post) && |done| == p && |todo| >= 8
    modifies buf
    ensures Layout(buf[..], done + SaveBlock(dst), todo[8..], post)
    ensures done + CbcDecrypt(todo, fb, w, round) == done + SaveBlock(dst) + CbcDecrypt(todo[8..], cbc, w, round)
  {
    hide DecryptRounds, LoadBlock, SaveBlock, XorBlock, CbcDecrypt, Layout;
    ghost var whole := buf[..];
    LayoutAt(whole, done, todo, post);
    DecryptUnfolds(todo, fb, w, round);
    cbc := LoadBlock(buf[p..p + 8]);
    dst := CoreDecrypt(cbc, w, round);
    dst := XorBlock(dst, fb);
    SaveBlockAt(buf, p, dst);
    LayoutStep(whole, done, todo, post, SaveBlock(dst), buf[..], CbcDecrypt(todo[8..], cbc, w, round));
  }

  method DecryptChain(buf: array<byte>, from: nat, size: nat, fb: Block, w: Key, round: int)
    requires from + size <= buf.Length
    modifies buf
    ensures buf[..] == old(buf[..from]) + CbcDecrypt(old(buf[from..from + size]), fb, w, round) + old(buf[from + size..])
  {
    hide EncryptRounds, DecryptRounds, LoadBlock, SaveBlock, XorBlock, XorBytes, Layout, CbcDecrypt;
    ghost var text := buf[from..from + size];
    ghost var result := buf[..from] + CbcDecrypt(text, fb, w, round);
    ghost var done, todo, post := buf[..from], text, buf[from + size..];
    LayoutStart(buf[..], from, size);
    var cbc := fb;
    var p, left := from, size;
    while left >= 8
      invariant |done| == p && |todo| == left && p + left <= buf.Length
      invariant Layout(buf[..], done, todo, post)
      invariant result == done + CbcDecrypt(todo, cbc, w, round)
    {
      var dst;
      cbc, dst := DecryptAt(buf, p, cbc, w, round, done, todo, post);
      done, todo := done + SaveBlock(dst), todo[8..];
      p, left := p + 8, left - 8;
    }
    DecryptUnfolds(todo, cbc, w, round);
    ChainTail(buf, p, left, cbc, w, round, done, todo, post);
  }

  // ----------------------------------------------------- the cipher object

  class Cipher {
    var refCount: int
    var cbcInit: Block
    var sys: Key
    var odd: Block
    var even: Block
    var oddWork: Key
    var evenWork: Key
    var round: int
    var state: word

    function State(): Keys
      reads this
    {
      Keys(cbcInit, sys, odd, even, oddWork, evenWork, round, state)
    }

    constructor ()
      ensures State() == NEW_KEYS && refCount == 1
    {
      refCount, round, state := 1, 4, 0;
      cbcInit, sys, odd, even := ZERO_BLOCK, ZERO_KEY, ZERO_BLOCK, ZERO_BLOCK;
      oddWork, evenWork := ZERO_KEY, ZERO_KEY;
    }

    method AddRef()
      modifies this`refCount
      ensures refCount == old(refCount) + 1
    {
      refCount := refCount + 1;
    }

    /** True when the last reference is gone and the object is freed. */
    method Release() returns (freed: bool)
      modifies this`refCount
      ensures refCount == old(refCount) - 1
      ensures freed <==> old(refCount) == 1
    {
      refCount := refCount - 1;
      freed := refCount == 0;
    }

    method SetRound(val: int)
      modifies this`round
      ensures State() == old(State()).(round := val)
    {
      round := val;
    }

    method SetSystemKey(val: seq<byte>)
      requires |val| == 32
      modifies this`sys, this`state
      ensures State() == old(State()).WithSystemKey(val)
    {
      sys := LoadKey(val);
      state := state | SYSTEM_KEY_SET;
    }

    method SetInitCbc(val: seq<byte>)
      requires |val| == 8
      modifies this`cbcInit, this`state
      ensures State() == old(State()).WithInitCbc(val)
    {
      cbcInit := LoadBlock(val);
      state := state | CBC_INIT_SET;
    }

    method SetScrambleKey(val: seq<byte>)
      requires |val| == 16
      modifies this`odd, this`even, this`oddWork, this`evenWork, this`state
      ensures State() == old(State()).WithScrambleKey(val)
    {
      hide Schedule;
      odd, even := LoadBlock(val), LoadBlock(val[8..]);
      oddWork := Schedule(sys, odd);
      evenWork := Schedule(sys, even);
      state := state | SCRAMBLE_KEY_SET;
    }

    method ClearScrambleKey()
      modifies this`odd, this`even, this`oddWork, this`evenWork, this`state
      ensures State() == old(State()).WithoutScrambleKey()
    {
      odd, even, oddWork, evenWork := ZERO_BLOCK, ZERO_BLOCK, ZERO_KEY, ZERO_KEY;
      state := state & !SCRAMBLE_KEY_SET;
    }

    /** Encrypting a buffer and decrypting it again, in place. */
    method EncryptThenDecrypt(kind: int, buf: array<byte>) returns (code: int)
      modifies buf
      ensures buf[..] == old(buf[..])
      ensures code == State().Check(buf.Length)
    {
      hide CbcEncrypt, CbcDecrypt;
      BufferRoundTrip(State(), kind, buf[..]);
      assert buf[0..buf.Length] == buf[..];
      code := EncryptBuffer(State(), kind, buf, 0, buf.Length);
      assert buf[0..buf.Length] == buf[..];
      code := DecryptBuffer(State(), kind, buf, 0, buf.Length);
    }
  }
}

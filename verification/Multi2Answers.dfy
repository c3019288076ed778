// What the cipher computes, apart from its own terms: literal answers, and the
// chain block by block.

module Multi2Answers {
  import opened Bytes
  import opened Multi2

  // ------------------------------------------------- the elementary functions

  lemma Pi1Answer()
    ensures Pi1(Block(0x01234567, 0x89abcdef)) == Block(0x01234567, 0x88888888)
  {
  }

  lemma Pi2Steps()
    ensures Plus(0x89abcdef, 0x0f1e2d3c) == 0x98c9fb2b && Rotate(0x98c9fb2b, 1) == 0x3193f657
    ensures Minus(Plus(0x3193f657, 0x98c9fb2b), 1) == 0xca5df181 && Rotate(0xca5df181, 4) == 0xa5df181c
    ensures Xor(0x01234567, Xor(0xa5df181c, 0xca5df181)) == 0x6ea1acfa
  {
  }

  lemma Pi2Answer()
    ensures Pi2(Block(0x01234567, 0x89abcdef), 0x0f1e2d3c) == Block(0x6ea1acfa, 0x89abcdef)
  {
    hide Plus, Minus, Rotate, Xor;
    Pi2Steps();
  }

  lemma Pi3Steps()
    ensures Plus(0x01234567, 0x0f1e2d3c) == 0x104172a3 && Rotate(0x104172a3, 2) == 0x4105ca8c
    ensures Plus(0x4105ca8c, 0x104172a3) == 0x51473d2f && Plus(0x51473d2f, 1) == 0x51473d30
    ensures Rotate(0x51473d30, 8) == 0x473d3051 && Xor(0x473d3051, 0x51473d30) == 0x167a0d61
    ensures Plus(0x167a0d61, 0x4b5a6978) == 0x61d476d9 && Rotate(0x61d476d9, 1) == 0xc3a8edb2
    ensures Minus(0xc3a8edb2, 0x61d476d9) == 0x61d476d9 && Rotate(0x61d476d9, 16) == 0x76d961d4
    ensures Xor(0x76d961d4, Or(0x61d476d9, 0x01234567)) == 0x172e162b && Xor(0x89abcdef, 0x172e162b) == 0x9e85dbc4
  {
  }

  lemma Pi3Answer()
    ensures Pi3(Block(0x01234567, 0x89abcdef), 0x0f1e2d3c, 0x4b5a6978) == Block(0x01234567, 0x9e85dbc4)
  {
    hide Plus, Minus, Rotate, Xor, Or;
    Pi3Steps();
  }

  lemma Pi4Answer()
    ensures Pi4(Block(0x01234567, 0x89abcdef), 0x0f1e2d3c) == Block(0xfad2a2bd, 0x89abcdef)
  {
  }

  // --------------------------------------------------------- a whole ciphering

  const SYSTEM: Key := [
    0x00010203, 0x04050607, 0x08090a0b, 0x0c0d0e0f, 0x10111213, 0x14151617, 0x18191a1b, 0x1c1d1e1f]

  const ODD_WORK: Key := [
    0xfccf0167, 0xf4e52161, 0xf875ec56, 0x0c90cd37, 0xf3c9ac5e, 0x5bf6f746, 0xabadc6a5, 0xf05b31e3]

  const EVEN_WORK: Key := [
    0xf4c7096f, 0xd26f0241, 0xacab58fb, 0x7ec45aba, 0xc82f78e6, 0xdca810f8, 0x13f69391, 0xcf5e8369]

  lemma OddScheduleAnswer()
    ensures Schedule(SYSTEM, Block(0x30313233, 0x34353637)) == ODD_WORK
  {
  }

  lemma EvenScheduleAnswer()
    ensures Schedule(SYSTEM, Block(0x38393a3b, 0x3c3d3e3f)) == EVEN_WORK
  {
  }

  lemma OddRoundAnswers()
    ensures EncryptRound(Block(0xa0a0a0a0, 0xa0a0a0a0), ODD_WORK) == Block(0xa3f582ca, 0xc2712550)
    ensures EncryptRound(Block(0xa3f582ca, 0xc2712550), ODD_WORK) == Block(0x471cd4ed, 0x2d7dffd3)
  {
  }

  lemma OddTailAnswers()
    ensures EncryptRound(Block(0x471cd4ed, 0x2d7dffd3), ODD_WORK) == Block(0x02692f92, 0x116b6233)
    ensures EncryptRound(Block(0x02692f92, 0x116b6233), ODD_WORK) == Block(0x441d9f22, 0x04a3de53)
  {
  }

  lemma EvenRoundAnswers()
    ensures EncryptRound(Block(0xa0a0a0a0, 0xa0a0a0a0), EVEN_WORK) == Block(0x50c43b23, 0x794bc26d)
    ensures EncryptRound(Block(0x50c43b23, 0x794bc26d), EVEN_WORK) == Block(0x0d937517, 0xe1a657cd)
  {
  }

  lemma EvenTailAnswers()
    ensures EncryptRound(Block(0x0d937517, 0xe1a657cd), EVEN_WORK) == Block(0x175123ea, 0x62aa2695)
    ensures EncryptRound(Block(0x175123ea, 0x62aa2695), EVEN_WORK) == Block(0x9eddb245, 0x1ba01163)
  {
  }

  lemma TwoRounds(s: Block, w: Key)
    ensures EncryptRounds(s, w, 2) == EncryptRound(EncryptRound(s, w), w)
  {
    hide EncryptRound;
  }

  // The keys as the card gives them, and eleven bytes to encipher.

  const SYSTEM_BYTES: seq<byte> := [
    0x00, 0x01, 0x02, 0x03, 0x04, 0x05, 0x06, 0x07, 0x08, 0x09, 0x0a, 0x0b, 0x0c, 0x0d, 0x0e, 0x0f,
    0x10, 0x11, 0x12, 0x13, 0x14, 0x15, 0x16, 0x17, 0x18, 0x19, 0x1a, 0x1b, 0x1c, 0x1d, 0x1e, 0x1f]

  const INIT_BYTES: seq<byte> := [0xa0, 0xa1, 0xa2, 0xa3, 0xa4, 0xa5, 0xa6, 0xa7]

  const SCRAMBLE_BYTES: seq<byte> := [
    0x30, 0x31, 0x32, 0x33, 0x34, 0x35, 0x36, 0x37, 0x38, 0x39, 0x3a, 0x3b, 0x3c, 0x3d, 0x3e, 0x3f]

  const CLEAR_BYTES: seq<byte> := [0, 1, 2, 3, 4, 5, 6, 7, 8, 9, 10]

  lemma LoadedWord(val: seq<byte>, i: nat)
    requires |val| == 32 && i < 8
    ensures LoadKey(val)[i] == Be32(val[4 * i], val[4 * i + 1], val[4 * i + 2], val[4 * i + 3])
  {
    hide Be32;
  }

  lemma WordAnswers()
    ensures Be32(0x00, 0x01, 0x02, 0x03) == 0x00010203 && Be32(0x04, 0x05, 0x06, 0x07) == 0x04050607
    ensures Be32(0x08, 0x09, 0x0a, 0x0b) == 0x08090a0b && Be32(0x0c, 0x0d, 0x0e, 0x0f) == 0x0c0d0e0f
    ensures Be32(0x10, 0x11, 0x12, 0x13) == 0x10111213 && Be32(0x14, 0x15, 0x16, 0x17) == 0x14151617
    ensures Be32(0x18, 0x19, 0x1a, 0x1b) == 0x18191a1b && Be32(0x1c, 0x1d, 0x1e, 0x1f) == 0x1c1d1e1f
  {
  }

  lemma SystemIsLoaded()
    ensures LoadKey(SYSTEM_BYTES) == SYSTEM
  {
    hide Be32, LoadKey;
    WordAnswers();
    LoadedWord(SYSTEM_BYTES, 0);
    LoadedWord(SYSTEM_BYTES, 1);
    LoadedWord(SYSTEM_BYTES, 2);
    LoadedWord(SYSTEM_BYTES, 3);
    LoadedWord(SYSTEM_BYTES, 4);
    LoadedWord(SYSTEM_BYTES, 5);
    LoadedWord(SYSTEM_BYTES, 6);
    LoadedWord(SYSTEM_BYTES, 7);
  }

  lemma InitIsLoaded()
    ensures LoadBlock(INIT_BYTES) == Block(0xa0a1a2a3, 0xa4a5a6a7)
  {
  }

  lemma HalvesAreLoaded()
    ensures LoadBlock(SCRAMBLE_BYTES) == Block(0x30313233, 0x34353637)
    ensures LoadBlock(SCRAMBLE_BYTES[8..]) == Block(0x38393a3b, 0x3c3d3e3f)
  {
  }

  /** The keys given to a new cipher, with two rounds. */
  function SampleKeys(): Keys {
    NEW_KEYS.WithSystemKey(SYSTEM_BYTES).WithInitCbc(INIT_BYTES).WithScrambleKey(SCRAMBLE_BYTES).(round := 2)
  }

  lemma SampleWork(kind: int)
    ensures var k := SampleKeys();
      && k.Check(11) == 0 && k.round == 2 && k.cbcInit == Block(0xa0a1a2a3, 0xa4a5a6a7)
      && k.Work(kind) == if kind == 2 then EVEN_WORK else ODD_WORK
  {
    hide Schedule, LoadBlock, LoadKey;
    SystemIsLoaded();
    InitIsLoaded();
    HalvesAreLoaded();
    OddScheduleAnswer();
    EvenScheduleAnswer();
  }

  lemma ChainOfEleven(s: seq<byte>, fb: Block, w: Key, x: Block, y: Block)
    requires |s| == 11 && x == EncryptRounds(XorBlock(LoadBlock(s), fb), w, 2) && y == EncryptRounds(x, w, 2)
    ensures CbcEncrypt(s, fb, w, 2) == SaveBlock(x) + XorBytes(s[8..], SaveBlock(y))
  {
    hide EncryptRounds, XorBlock, LoadBlock, SaveBlock, XorBytes;
  }

  lemma ElevenBytes()
    ensures XorBlock(LoadBlock(CLEAR_BYTES), Block(0xa0a1a2a3, 0xa4a5a6a7)) == Block(0xa0a0a0a0, 0xa0a0a0a0)
    ensures CLEAR_BYTES[8..] == [8, 9, 10]
  {
  }

  lemma OddBytes()
    ensures SaveBlock(Block(0x471cd4ed, 0x2d7dffd3)) == [0x47, 0x1c, 0xd4, 0xed, 0x2d, 0x7d, 0xff, 0xd3]
    ensures XorBytes([8, 9, 10], SaveBlock(Block(0x441d9f22, 0x04a3de53))) == [0x4c, 0x14, 0x95]
  {
  }

  lemma EvenBytes()
    ensures SaveBlock(Block(0x0d937517, 0xe1a657cd)) == [0x0d, 0x93, 0x75, 0x17, 0xe1, 0xa6, 0x57, 0xcd]
    ensures XorBytes([8, 9, 10], SaveBlock(Block(0x9eddb245, 0x1ba01163))) == [0x96, 0xd4, 0xb8]
  {
  }

  /** Eleven bytes enciphered with given keys: a selector of 2 takes the second half
      of the scramble key, every other one the first. */
  lemma CipherAnswer(kind: int)
    ensures SampleKeys().Encrypted(kind, CLEAR_BYTES) ==
      if kind == 2 then [0x0d, 0x93, 0x75, 0x17, 0xe1, 0xa6, 0x57, 0xcd, 0x96, 0xd4, 0xb8]
      else [0x47, 0x1c, 0xd4, 0xed, 0x2d, 0x7d, 0xff, 0xd3, 0x4c, 0x14, 0x95]
  {
    hide SampleKeys, EncryptRounds, EncryptRound, XorBlock, LoadBlock, SaveBlock, XorBytes, CbcEncrypt, Keys.Check, Keys.Work;
    var s, fb, a := CLEAR_BYTES, Block(0xa0a1a2a3, 0xa4a5a6a7), Block(0xa0a0a0a0, 0xa0a0a0a0);
    SampleWork(kind);
    ElevenBytes();
    if kind == 2 {
      var x, y := Block(0x0d937517, 0xe1a657cd), Block(0x9eddb245, 0x1ba01163);
      EvenRoundAnswers();
      EvenTailAnswers();
      TwoRounds(a, EVEN_WORK);
      TwoRounds(x, EVEN_WORK);
      ChainOfEleven(s, fb, EVEN_WORK, x, y);
      EvenBytes();
    } else {
      var x, y := Block(0x471cd4ed, 0x2d7dffd3), Block(0x441d9f22, 0x04a3de53);
      OddRoundAnswers();
      OddTailAnswers();
      TwoRounds(a, ODD_WORK);
      TwoRounds(x, ODD_WORK);
      ChainOfEleven(s, fb, ODD_WORK, x, y);
      OddBytes();
    }
  }

  /** A new cipher has four rounds and no key. */
  lemma NewCipher()
    ensures NEW_KEYS.round == 4 && NEW_KEYS.Check(1) == -3
  {
  }

  // ------------------------------------------------------- the chain by blocks

  /** Block number i of a byte string. */
  function BlockAt(s: seq<byte>, i: nat): Block
    requires 8 * i + 8 <= |s|
  {
    LoadBlock(s[8 * i..])
  }

  /** What is added to block number i before it is enciphered. */
  function Before(c: seq<byte>, fb: Block, i: nat): Block
    requires 8 * i <= |c|
  {
    if i == 0 then fb else BlockAt(c, i - 1)
  }

  /** Every whole block is enciphered after the cipher block before it was added;
      to the bytes left over the enciphered last cipher block is added. */
  lemma {:induction false} ChainedBlocks(s: seq<byte>, fb: Block, w: Key, round: int, i: nat)
    requires 8 * i <= |s|
    ensures var c := CbcEncrypt(s, fb, w, round);
      && (8 * i + 8 <= |s| ==> BlockAt(c, i) == EncryptRounds(XorBlock(BlockAt(s, i), Before(c, fb, i)), w, round))
      && (8 * i + 8 > |s| ==> c[8 * i..] == XorBytes(s[8 * i..], SaveBlock(EncryptRounds(Before(c, fb, i), w, round))))
    decreases |s|
  {
    hide EncryptRounds, XorBlock, LoadBlock, SaveBlock, XorBytes;
    var c := CbcEncrypt(s, fb, w, round);
    if |s| >= 8 {
      var d := EncryptRounds(XorBlock(LoadBlock(s), fb), w, round);
      var rest := CbcEncrypt(s[8..], d, w, round);
      LoadSave(d, rest);
      if i == 0 {
        assert c[0..] == c && s[0..] == s;
      } else {
        ChainedBlocks(s[8..], d, w, round, i - 1);
        assert s[8..][8 * (i - 1)..] == s[8 * i..] && c[8..][8 * (i - 1)..] == c[8 * i..];
        if i == 1 {
          assert c[0..] == c;
        } else {
          assert c[8..][8 * (i - 2)..] == c[8 * (i - 1)..];
        }
      }
    } else {
      assert c[0..] == c && s[0..] == s;
    }
  }
}

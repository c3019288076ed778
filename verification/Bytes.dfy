// Bytes, and the words the sources build from them. The C code works on
// uint8_t buffers and 32-bit words; lengths and PIDs are extracted into int.

module Bytes {

  type byte = bv8

  type word = bv32

  /** The first byte of every transport packet. */
  const SYNC: byte := 0x47

  function One(b: bool): nat {
    if b then 1 else 0
  }

  /** The value of two bytes, most significant first: (p[0] << 8) | p[1]. */
  function Be16(hi: byte, lo: byte): (v: int)
    ensures 0 <= v < 0x10000
  {
    hi as int * 256 + lo as int
  }

  /** A number in base 256, most significant byte first. */
  function Number(s: seq<byte>): nat {
    if s == [] then 0 else Number(s[..|s| - 1]) * 256 + s[|s| - 1] as int
  }

  lemma NumberOfTwo(hi: byte, lo: byte)
    ensures Number([hi, lo]) == Be16(hi, lo)
  {
    assert [hi, lo][..1] == [hi] && [hi][..0] == [];
    assert Number([hi]) == hi as int;
  }

  lemma NumberOfSix(a: byte, b: byte, c: byte, d: byte, e: byte, f: byte)
    ensures Number([a, b, c, d, e, f]) == Be16(a, b) * 0x100000000 + Be16(c, d) * 0x10000 + Be16(e, f)
  {
    NumberOfTwo(a, b);
    assert [a, b, c, d, e, f][..5] == [a, b, c, d, e] && [a, b, c, d, e][..4] == [a, b, c, d];
    assert [a, b, c, d][..3] == [a, b, c] && [a, b, c][..2] == [a, b];
    assert Number([a, b, c]) == Number([a, b]) * 256 + c as int;
    assert Number([a, b, c, d]) == Number([a, b, c]) * 256 + d as int;
    assert Number([a, b, c, d, e]) == Number([a, b, c, d]) * 256 + e as int;
  }

  /** load_be_uint32 */
  function Be32(b0: byte, b1: byte, b2: byte, b3: byte): word {
    (b0 as word << 24) | (b1 as word << 16) | (b2 as word << 8) | b3 as word
  }

  /** save_be_uint32 */
  function Split32(w: word): (s: seq<byte>)
    ensures |s| == 4 && Be32(s[0], s[1], s[2], s[3]) == w
  {
    [((w >> 24) & 0xff) as byte, ((w >> 16) & 0xff) as byte, ((w >> 8) & 0xff) as byte, (w & 0xff) as byte]
  }

  lemma Be32Injective(a0: byte, a1: byte, a2: byte, a3: byte, b0: byte, b1: byte, b2: byte, b3: byte)
    requires Be32(a0, a1, a2, a3) == Be32(b0, b1, b2, b3)
    ensures a0 == b0 && a1 == b1 && a2 == b2 && a3 == b3
  {
  }

  // ------------------------------------------------------------ exclusive or

  // The laws below are all that the ciphers and the CRC need; their proofs
  // hide Xor where the bits do not matter.

  function Xor(a: word, b: word): word {
    a ^ b
  }

  function Xor8(a: byte, b: byte): byte {
    a ^ b
  }

  lemma XorCancel(a: word, b: word)
    ensures Xor(Xor(a, b), b) == a
  {
  }

  lemma Xor8Cancel(a: byte, b: byte)
    ensures Xor8(Xor8(a, b), b) == a
  {
  }

  lemma XorCommutes(a: word, b: word)
    ensures Xor(a, b) == Xor(b, a)
  {
  }

  lemma XorAssociates(a: word, b: word, c: word)
    ensures Xor(Xor(a, b), c) == Xor(a, Xor(b, c))
  {
  }

  lemma XorWithZero(a: word)
    ensures Xor(a, 0) == a && Xor(0, a) == a && Xor(a, a) == 0
  {
  }

  lemma XorSwap(a: word, b: word, c: word)
    ensures Xor(Xor(a, b), c) == Xor(Xor(a, c), b)
  {
    hide Xor;
    XorAssociates(a, b, c);
    XorAssociates(a, c, b);
    XorCommutes(b, c);
  }

  lemma XorInjective(a: word, b: word, c: word)
    requires Xor(a, c) == Xor(b, c)
    ensures a == b
  {
    hide Xor;
    XorCancel(a, c);
    XorCancel(b, c);
  }

  // ---------------------------------------------------------------- slices

  lemma SliceOfSlice<T>(s: seq<T>, a: nat, b: nat, i: nat, j: nat)
    requires i <= j && a + j <= b <= |s|
    ensures s[a..b][i..j] == s[a + i..a + j]
  {
    var x, y := s[a..b][i..j], s[a + i..a + j];
    assert |x| == |y|;
    forall k | 0 <= k < |x| ensures x[k] == y[k] {
    }
  }

  /** From the same place on, the same bytes up to any end. */
  lemma SameLater<T>(s: seq<T>, t: seq<T>, from: nat, k: nat, to: nat)
    requires |s| == |t| && from <= k <= to <= |s| && s[from..] == t[from..]
    ensures s[k..to] == t[k..to]
  {
    forall i | k <= i < to ensures s[i] == t[i] {
      assert s[i] == s[from..][i - from] == t[from..][i - from] == t[i];
    }
  }
}

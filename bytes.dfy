/** Bytes and 16-bit words of the 6502 address space: the little-endian word
    layout, 256-byte pages, the signed branch displacement and the bitwise
    operators. Bytes and words are integer ranges; every register update that
    wraps in the source goes through `Wrap8` or `Wrap16`, so the wrap-around is
    written out where it happens. A byte's bits are its little-endian binary
    numeral, `Bits`, from which the bitwise operators are built. */
module Bytes {

  newtype byte = x: int | 0 <= x < 0x100
  newtype word = x: int | 0 <= x < 0x1_0000

  /** Truncation to 8 bits, as a `u8`/`uint8_t` result keeps it, for the sums
      and differences the processor forms, which never leave -256..511. */
  function Wrap8(x: int): byte
    requires -0x100 <= x < 0x200
  {
    if x < 0 then (x + 0x100) as byte else if x < 0x100 then x as byte else (x - 0x100) as byte
  }

  /** Truncation to 16 bits, as a `u16`/`uint16_t` result keeps it, for
      addresses within one turn of the 16-bit space on either side. */
  function Wrap16(x: int): word
    requires -0x1_0000 <= x < 0x2_0000
  {
    if x < 0 then (x + 0x1_0000) as word else if x < 0x1_0000 then x as word else (x - 0x1_0000) as word
  }

  /** Wrapping twice is wrapping once: offsets taken modulo 256 add up. */
  lemma Wrap8Shift(b: byte, j: int, k: int)
    requires -0x100 <= j <= 0x100 && -0x100 <= k <= 0x100 && -0x100 <= j + k <= 0x100
    ensures Wrap8(Wrap8(b as int + j) as int + k) == Wrap8(b as int + j + k)
  {
  }

  /** Offsets taken modulo 65536 add up. */
  lemma Wrap16Shift(w: word, j: int, k: int)
    requires -0x1_0000 <= j <= 0x1_0000 && -0x1_0000 <= k <= 0x1_0000 && -0x1_0000 <= j + k <= 0x1_0000
    ensures Wrap16(Wrap16(w as int + j) as int + k) == Wrap16(w as int + j + k)
  {
  }

  /** Low byte of a word. */
  function Lo(w: word): byte { (w % 0x100) as byte }

  /** High byte of a word: the number of its 256-byte page. */
  function Hi(w: word): byte { (w / 0x100) as byte }

  /** The little-endian word `lo | hi << 8` that both implementations build
      from two consecutive bus reads. */
  function MakeWord(lo: byte, hi: byte): word
  {
    (hi as int * 0x100 + lo as int) as word
  }

  /** Splitting a word built from two bytes gives those bytes back. */
  lemma MakeWordBytes(lo: byte, hi: byte)
    ensures Lo(MakeWord(lo, hi)) == lo && Hi(MakeWord(lo, hi)) == hi
  {
  }

  /** A word is determined by its two bytes, so splitting and rebuilding it is the identity. */
  lemma WordRoundTrip(w: word)
    ensures MakeWord(Lo(w), Hi(w)) == w
  {
  }

  /** `is_page_crossed`: `a1 & 0xFF00 != a2 & 0xFF00`, i.e. the two addresses
      lie in different 256-byte pages. */
  predicate PageCrossed(a1: word, a2: word)
  {
    Hi(a1) != Hi(a2)
  }

  /** Adding an index byte to a base address moves it to another page exactly
      when the low byte carries out: the case in which the indexed modes and
      a taken forward branch charge one more cycle. */
  lemma IndexCrossesPage(base: word, index: byte)
    ensures PageCrossed(base, Wrap16(base as int + index as int))
        <==> Lo(base) as int + index as int >= 0x100
  {
    var sum := base as int + index as int;
    assert base as int == Hi(base) as int * 0x100 + Lo(base) as int;
    if Lo(base) as int + index as int >= 0x100 {
      assert sum == (Hi(base) as int + 1) * 0x100 + (Lo(base) as int + index as int - 0x100);
      if sum < 0x1_0000 {
        assert Hi(Wrap16(sum)) as int == Hi(base) as int + 1;
      } else {
        assert Hi(base) == 0xFF && Hi(Wrap16(sum)) == 0;
      }
    } else {
      assert Hi(Wrap16(sum)) == Hi(base);
    }
  }

  /** Bit 7 of a byte, the sign bit. */
  predicate Bit7(b: byte) { b >= 0x80 }

  /** Two's-complement reading of a byte. */
  function Signed(b: byte): int
  {
    if Bit7(b) then b as int - 0x100 else b as int
  }

  function Bit(c: bool): nat { if c then 1 else 0 }

  /** `1 << k` for a bit position of a byte. */
  function BitMask(k: nat): nat
    requires k < 8
  {
    [1, 2, 4, 8, 16, 32, 64, 128][k]
  }

  /** `b & (1 << k) != 0`: bit `k` of `b` is set. */
  predicate HasBit(b: byte, k: nat)
    requires k < 8
  {
    b as int / BitMask(k) % 2 == 1
  }

  function Pow2(n: nat): nat { if n == 0 then 1 else 2 * Pow2(n - 1) }

  lemma Pow2Of8()
    ensures Pow2(8) == 0x100
  {
    assert Pow2(2) == 4;
    assert Pow2(4) == 16;
    assert Pow2(6) == 64;
  }

  /** The number whose little-endian binary numeral is `bits` (`bits[0]` is bit 0). */
  function Encode(bits: seq<bool>): (x: nat)
    ensures x < Pow2(|bits|)
  {
    if |bits| == 0 then 0 else Bit(bits[0]) + 2 * Encode(bits[1..])
  }

  /** The lowest `n` bits of `x`, least significant first. */
  function Decode(x: nat, n: nat): (bits: seq<bool>)
    ensures |bits| == n
  {
    if n == 0 then [] else [x % 2 == 1] + Decode(x / 2, n - 1)
  }

  /** Reading a numeral back gives the bits it was written from. */
  lemma {:induction false} DecodeEncode(bits: seq<bool>)
    ensures Decode(Encode(bits), |bits|) == bits
  {
    if |bits| > 0 {
      var x := Encode(bits);
      assert x % 2 == Bit(bits[0]) && x / 2 == Encode(bits[1..]);
      DecodeEncode(bits[1..]);
      assert bits == [bits[0]] + bits[1..];
    }
  }

  /** A number below 2^n is the numeral of its lowest n bits. */
  lemma {:induction false} EncodeDecode(x: nat, n: nat)
    requires x < Pow2(n)
    ensures Encode(Decode(x, n)) == x
  {
    if n > 0 {
      var d := Decode(x, n);
      assert d[1..] == Decode(x / 2, n - 1);
      EncodeDecode(x / 2, n - 1);
    }
  }

  /** The eight bits of a byte, bit 0 first. */
  function Bits(b: byte): (s: seq<bool>)
    ensures |s| == 8
  {
    Decode(b as nat, 8)
  }

  /** The byte with the given eight bits, `s[0]` the least significant. */
  function FromBits(s: seq<bool>): byte
    requires |s| == 8
  {
    (Bit(s[0]) + 0x02 * Bit(s[1]) + 0x04 * Bit(s[2]) + 0x08 * Bit(s[3])
     + 0x10 * Bit(s[4]) + 0x20 * Bit(s[5]) + 0x40 * Bit(s[6]) + 0x80 * Bit(s[7])) as byte
  }

  /** `FromBits` is the numeral's value, written out for eight bits. */
  lemma FromBitsEncode(s: seq<bool>)
    requires |s| == 8
    ensures FromBits(s) as int == Encode(s)
  {
    assert Encode(s[7..]) == Bit(s[7]) by { assert s[7..][1..] == []; }
    assert Encode(s[6..]) == Bit(s[6]) + 2 * Encode(s[7..]) by { assert s[6..][1..] == s[7..]; }
    assert Encode(s[5..]) == Bit(s[5]) + 2 * Encode(s[6..]) by { assert s[5..][1..] == s[6..]; }
    assert Encode(s[4..]) == Bit(s[4]) + 2 * Encode(s[5..]) by { assert s[4..][1..] == s[5..]; }
    assert Encode(s[3..]) == Bit(s[3]) + 2 * Encode(s[4..]) by { assert s[3..][1..] == s[4..]; }
    assert Encode(s[2..]) == Bit(s[2]) + 2 * Encode(s[3..]) by { assert s[2..][1..] == s[3..]; }
    assert Encode(s[1..]) == Bit(s[1]) + 2 * Encode(s[2..]) by { assert s[1..][1..] == s[2..]; }
  }

  /** A byte is determined by its bits, and every eight bits are some byte's. */
  lemma BitsRoundTrip(b: byte, s: seq<bool>)
    requires |s| == 8
    ensures FromBits(Bits(b)) == b
    ensures Bits(FromBits(s)) == s
  {
    Pow2Of8();
    EncodeDecode(b as nat, 8);
    DecodeEncode(s);
    FromBitsEncode(s);
    FromBitsEncode(Bits(b));
  }

  /** The bitwise operators of ORA, AND, EOR and BIT. */
  datatype BitOp = And | Or | Xor

  function Apply(op: BitOp, p: bool, q: bool): bool
  {
    match op
    case And => p && q
    case Or => p || q
    case Xor => p != q
  }

  /** `a & b`, `a | b` and `a ^ b` on bytes: the operator applied bit by bit. */
  function Bitwise(op: BitOp, a: byte, b: byte): byte
  {
    FromBits(seq(8, i requires 0 <= i < 8 => Apply(op, Bits(a)[i], Bits(b)[i])))
  }

  /** Bit i of the result is the operator applied to bit i of each operand. */
  lemma BitwiseBits(op: BitOp, a: byte, b: byte)
    ensures forall i :: 0 <= i < 8 ==> Bits(Bitwise(op, a, b))[i] == Apply(op, Bits(a)[i], Bits(b)[i])
  {
    BitsRoundTrip(0, seq(8, i requires 0 <= i < 8 => Apply(op, Bits(a)[i], Bits(b)[i])));
  }

  /** EOR with the same operand twice restores the accumulator. */
  lemma XorInvolution(a: byte, m: byte)
    ensures Bitwise(Xor, Bitwise(Xor, a, m), m) == a
  {
    BitwiseBits(Xor, a, m);
    BitwiseBits(Xor, Bitwise(Xor, a, m), m);
    var r := Bitwise(Xor, Bitwise(Xor, a, m), m);
    assert Bits(r) == Bits(a);
    BitsRoundTrip(r, Bits(a));
    BitsRoundTrip(a, Bits(a));
  }
}

/** The arithmetic and flag rules of the instruction handlers, shared by both
    implementations: the 9-bit add of ADC and its ones'-complement use by SBC,
    the shifts and rotates, the compare family and BIT. Each contract states
    the rule against plain integer arithmetic, independently of the formula
    the source uses to compute it. */
module Alu {
  import opened Bytes
  import opened Status

  /** The outcome of the 9-bit addition of ADC: the low byte, the carry out and
      the signed-overflow indication. */
  datatype Sum = Sum(value: byte, carry: bool, overflow: bool)

  /** `adc_`: r = A + M + C computed without truncation; Carry is r > 0xFF, the
      new A is r mod 256, and Overflow is bit 7 of `(A ^ r) & (M ^ r)`, i.e. A and
      M agree in sign and r does not. */
  function AddWithCarry(a: byte, m: byte, carryIn: bool): Sum
  {
    var sum := a as int + m as int + Bit(carryIn);
    var v := Wrap8(sum);
    Sum(v, sum > 0xFF, Bit7(a) != Bit7(v) && Bit7(m) != Bit7(v))
  }

  /** ADC read as integer arithmetic: the result is the unsigned sum modulo 256,
      Carry reports that the unsigned sum exceeded 0xFF and Overflow that the
      signed sum left -128..127. */
  lemma AddWithCarrySpec(a: byte, m: byte, carryIn: bool)
    ensures var r := AddWithCarry(a, m, carryIn);
      && r.value as int == (a as int + m as int + Bit(carryIn)) % 0x100
      && (r.carry <==> a as int + m as int + Bit(carryIn) > 0xFF)
      && (r.overflow <==> !(-128 <= Signed(a) + Signed(m) + Bit(carryIn) <= 127))
  {
  }

  /** `m ^ 0xFF`, the operand SBC hands to `adc_`. */
  function OnesComplement(m: byte): byte
  {
    Bitwise(Xor, m, 0xFF)
  }

  /** The ones'-complement of a byte, read unsigned and signed. */
  lemma OnesComplementValue(m: byte)
    ensures OnesComplement(m) as int == 0xFF - m as int
    ensures Signed(OnesComplement(m)) == -Signed(m) - 1
  {
    var c := OnesComplement(m);
    BitwiseBits(Xor, m, 0xFF);
    AllOnesBits();
    ComplementBits(c, m);
  }

  /** Two bytes whose bits are pairwise opposite add up to 0xFF. */
  lemma ComplementBits(x: byte, y: byte)
    requires forall i :: 0 <= i < 8 ==> Bits(x)[i] == !Bits(y)[i]
    ensures x as int == 0xFF - y as int
  {
    BitsRoundTrip(x, Bits(x));
    BitsRoundTrip(y, Bits(y));
    var xs, ys := Bits(x), Bits(y);
    assert xs[0] == !ys[0] && xs[1] == !ys[1] && xs[2] == !ys[2] && xs[3] == !ys[3];
    assert xs[4] == !ys[4] && xs[5] == !ys[5] && xs[6] == !ys[6] && xs[7] == !ys[7];
  }

  /** Every bit of 0xFF is set. */
  lemma AllOnesBits()
    ensures forall i :: 0 <= i < 8 ==> Bits(0xFF)[i]
  {
    assert Bits(0xFF) == [true, true, true, true, true, true, true, true];
  }

  /** `sbc`: ADC of the operand's ones'-complement. */
  function SubtractWithBorrow(a: byte, m: byte, carryIn: bool): Sum
  {
    AddWithCarry(a, OnesComplement(m), carryIn)
  }

  /** SBC read as integer arithmetic, with the incoming Carry meaning "no
      borrow": the result is A - M - (1 - C) modulo 256, Carry out means no
      borrow was needed, and Overflow means the signed difference left -128..127. */
  lemma SubtractWithBorrowSpec(a: byte, m: byte, carryIn: bool)
    ensures var r := SubtractWithBorrow(a, m, carryIn);
      && r.value as int == (a as int - m as int - 1 + Bit(carryIn)) % 0x100
      && (r.carry <==> a as int >= m as int + 1 - Bit(carryIn))
      && (r.overflow <==> !(-128 <= Signed(a) - Signed(m) - 1 + Bit(carryIn) <= 127))
  {
    OnesComplementValue(m);
    AddWithCarrySpec(a, OnesComplement(m), carryIn);
  }

  /** The value a shift or rotate produces and the bit it moves into Carry. */
  datatype Shifted = Shifted(value: byte, carry: bool)

  /** ASL, `operand << 1` truncated to 8 bits; bit 7 goes to Carry. */
  function ShiftLeft(v: byte): Shifted
  {
    Shifted(Wrap8(2 * v as int), Bit7(v))
  }

  /** LSR, `operand >> 1`; bit 0 goes to Carry. */
  function ShiftRight(v: byte): Shifted
  {
    Shifted(v / 2, v % 2 == 1)
  }

  /** ROL, `operand << 1 | C`: like ASL, with the old Carry shifted into bit 0. */
  function RotateLeft(v: byte, carryIn: bool): Shifted
  {
    Shifted(Wrap8(2 * v as int + Bit(carryIn)), Bit7(v))
  }

  /** ROR, `operand >> 1 | C << 7`: like LSR, with the old Carry shifted into bit 7. */
  function RotateRight(v: byte, carryIn: bool): Shifted
  {
    Shifted((v as int / 2 + 0x80 * Bit(carryIn)) as byte, v % 2 == 1)
  }

  /** Rotating through Carry loses no bit: ROR undoes ROL, the nine bits
      (eight of the byte and Carry) coming back unchanged. */
  lemma RotateLeftThenRight(v: byte, c: bool)
    ensures var l := RotateLeft(v, c); RotateRight(l.value, l.carry) == Shifted(v, c)
  {
    var n := 2 * v as int + Bit(c);
    if Bit7(v) {
      assert Wrap8(n) as int == n - 0x100;
    } else {
      assert Wrap8(n) as int == n;
    }
  }

  /** ROL undoes ROR in the same way. */
  lemma RotateRightThenLeft(v: byte, c: bool)
    ensures var r := RotateRight(v, c); RotateLeft(r.value, r.carry) == Shifted(v, c)
  {
    var h := v as int / 2 + 0x80 * Bit(c);
    assert Bit7(h as byte) == c;
    assert 2 * h + v as int % 2 == v as int + 0x100 * Bit(c);
  }

  /** ASL and LSR are ROL and ROR with a clear Carry coming in: the shifts are
      the rotates that feed in a zero bit. */
  lemma ShiftsAreRotatesOfZero(v: byte)
    ensures ShiftLeft(v) == RotateLeft(v, false)
    ensures ShiftRight(v) == RotateRight(v, false)
  {
  }

  /** `cmp_` (and CPX, CPY): Carry is register >= operand, and Zero and Negative
      come from the wrapped difference. */
  function Compare(f: Flags, register: byte, m: byte): Flags
  {
    SetNZ(f.(carry := register >= m), Wrap8(register as int - m as int))
  }

  /** Reading the compare flags back: Zero is equality, Carry is "greater or
      equal", Carry without Zero is "greater than", Negative is bit 7 of the
      difference, and the other flags are kept. */
  lemma CompareSpec(f: Flags, register: byte, m: byte)
    ensures var r := Compare(f, register, m);
      && (r.zero <==> register == m)
      && (r.carry <==> register >= m)
      && (r.carry && !r.zero <==> register > m)
      && (r.negative <==> Bit7(Wrap8(register as int - m as int)))
      && r.(carry := f.carry, zero := f.zero, negative := f.negative) == f
  {
  }

  /** BIT: Zero reports whether A and the operand share no set bit; Overflow and
      Negative copy bits 6 and 7 of the operand. */
  function BitTest(f: Flags, a: byte, m: byte): Flags
  {
    f.(zero := Bitwise(And, a, m) == 0, overflow := Bits(m)[6], negative := Bit7(m))
  }

  /** Zero is set exactly when no bit position is set in both A and the
      operand; the flags other than Zero, Overflow and Negative are kept. */
  lemma BitTestSpec(f: Flags, a: byte, m: byte)
    ensures var r := BitTest(f, a, m);
      && (r.zero <==> forall i :: 0 <= i < 8 ==> !(Bits(a)[i] && Bits(m)[i]))
      && r.overflow == Bits(m)[6] && r.negative == Bit7(m)
      && r.(zero := f.zero, overflow := f.overflow, negative := f.negative) == f
  {
    var and := Bitwise(And, a, m);
    BitwiseBits(And, a, m);
    assert and == 0 <==> Bits(and) == Bits(0) by {
      BitsRoundTrip(and, Bits(and));
      BitsRoundTrip(0, Bits(0));
    }
    assert Bits(0) == [false, false, false, false, false, false, false, false];
  }
}

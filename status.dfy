/** The processor status register P. Both implementations keep it as one byte
    and update it with `set_flag`, `|=` and `&= !flag`; the model keeps the
    eight bits as named flags, with an exact encoding to and from the byte that
    PHP and BRK push and PLP and RTI pull. The bit layout is that of the `Flag`
    enumeration: Carry 0, Zero 1, Interrupt 2, Decimal 3, Break 4, Unused 5,
    Overflow 6, Negative 7. */
module Status {
  import opened Bytes

  datatype Flags = Flags(carry: bool, zero: bool, interrupt: bool, decimal: bool,
                         brk: bool, unused: bool, overflow: bool, negative: bool)

  function FlagBits(f: Flags): (s: seq<bool>)
    ensures |s| == 8
  {
    [f.carry, f.zero, f.interrupt, f.decimal, f.brk, f.unused, f.overflow, f.negative]
  }

  /** The byte value of P. */
  function ToByte(f: Flags): byte
  {
    FromBits(FlagBits(f))
  }

  /** The flags a byte pulled from the stack denotes. */
  function FromByte(b: byte): Flags
  {
    var s := Bits(b);
    Flags(s[0], s[1], s[2], s[3], s[4], s[5], s[6], s[7])
  }

  /** The encoding is a bijection: every P has one byte and every byte one P. */
  lemma FlagsRoundTrip(f: Flags)
    ensures FromByte(ToByte(f)) == f
  {
    BitsRoundTrip(0, FlagBits(f));
    assert Bits(ToByte(f)) == FlagBits(f);
  }

  lemma ByteRoundTrip(b: byte)
    ensures ToByte(FromByte(b)) == b
  {
    assert FlagBits(FromByte(b)) == Bits(b);
    BitsRoundTrip(b, Bits(b));
  }

  /** `INTERRUPT | UNUSED`, the value both `reset` functions give P. */
  const ResetFlags := Flags(false, false, true, false, false, true, false, false)

  lemma ResetFlagsByte()
    ensures ToByte(ResetFlags) == 0x24
  {
    assert Bits(0x24) == FlagBits(ResetFlags);
    assert FromByte(0x24) == ResetFlags;
    ByteRoundTrip(0x24);
  }

  /** `set_nz_flags`: Zero holds exactly when the value is 0 and Negative is
      its bit 7; the six other flags are kept. */
  function SetNZ(f: Flags, v: byte): Flags
  {
    f.(zero := v == 0, negative := Bit7(v))
  }

  /** On the byte of P, `set_nz_flags` sets bit 1 (Zero) exactly when the
      value is 0 and bit 7 (Negative) to the value's bit 7, and keeps the six
      other bits. */
  lemma SetNZByte(f: Flags, v: byte)
    ensures Bits(ToByte(SetNZ(f, v)))[1] == (v == 0)
    ensures Bits(ToByte(SetNZ(f, v)))[7] == (v >= 0x80)
    ensures forall i :: 0 <= i < 8 && i != 1 && i != 7 ==> Bits(ToByte(SetNZ(f, v)))[i] == Bits(ToByte(f))[i]
  {
    var g := SetNZ(f, v);
    BitsRoundTrip(0, FlagBits(f));
    BitsRoundTrip(0, FlagBits(g));
    assert Bits(ToByte(f)) == FlagBits(f);
    assert Bits(ToByte(g)) == FlagBits(g);
  }
}

/** Properties of the processor semantics: what one `step` of the control-flow
    and stack instructions does, the pairs of instructions that undo each other
    (JSR/RTS, BRK/RTI, PHA/PLA, PHP/PLP), branch timing, the cycle accounting of
    `step`, the addressing-mode facts and `reset`. */
module CpuProperties {
  import opened Bytes
  import opened Status
  import opened Opcodes
  import opened Results
  import opened Semantics
  import opened Stack

  /** The registers A, X, Y and P agree. */
  predicate SameRegisters(s: Machine, m: Machine)
  {
    s.a == m.a && s.x == m.x && s.y == m.y && s.p == m.p
  }

  /** `step` on a decodable opcode is the fetch followed by the entry's
      resolution, handler and cycle charge. */
  lemma StepDecoded(v: Variant, m: Machine, e: Entry)
    requires Opcodes.Decode(v, Read(m, m.pc)) == Some(e)
    ensures Step(v, m) == Stepped(Perform(Fetch(m), e), Perform(Fetch(m), e).currCycles)
  {
  }

  /** An implied-mode entry without the page-crossing penalty runs its handler
      on the machine as fetched and charges its base cycles. */
  lemma PerformImplied(m: Machine, e: Entry)
    requires e.mode == Implied && !e.checkPageCross
    ensures var d := Execute(e.op, m, NoTarget);
            Perform(m, e) == d.(currCycles := d.currCycles + e.cycles,
                                totalCycles := d.totalCycles + d.currCycles + e.cycles)
  {
  }

  /** The handler JSR runs. */
  lemma JsrExecutes(m: Machine, t: Target)
    ensures Execute(JSR, m, t) == Jsr(m, t)
  {
    assert FamilyOf(JSR) == JumpFamily;
    assert !OperandFamily(JumpFamily);
    assert ExecuteControl(JSR, m, t) == JumpOps(JSR, m, t);
  }

  /** The handler BRK runs. */
  lemma BrkExecutes(m: Machine)
    ensures Execute(BRK, m, NoTarget) == Brk(m)
  {
    assert FamilyOf(BRK) == InterruptFamily;
    assert !OperandFamily(InterruptFamily);
    assert ExecuteControl(BRK, m, NoTarget) == InterruptOps(BRK, m);
  }

  /** The handler RTI runs. */
  lemma RtiExecutes(m: Machine)
    ensures Execute(RTI, m, NoTarget) == Rti(m)
  {
    assert FamilyOf(RTI) == InterruptFamily;
    assert !OperandFamily(InterruptFamily);
    assert ExecuteControl(RTI, m, NoTarget) == InterruptOps(RTI, m);
  }

  /** The handler PHA runs. */
  lemma PhaExecutes(m: Machine)
    ensures Execute(PHA, m, NoTarget) == Push(m, m.a)
  {
    assert FamilyOf(PHA) == StackFamily;
    assert !OperandFamily(StackFamily);
    assert ExecuteControl(PHA, m, NoTarget) == StackOps(PHA, m);
  }

  /** The handler PHP runs. */
  lemma PhpExecutes(m: Machine)
    ensures Execute(PHP, m, NoTarget) == Push(m, ToByte(m.p.(brk := true)))
  {
    assert FamilyOf(PHP) == StackFamily;
    assert !OperandFamily(StackFamily);
    assert ExecuteControl(PHP, m, NoTarget) == StackOps(PHP, m);
  }

  /** The handler RTS runs. */
  lemma RtsExecutes(m: Machine)
    ensures Execute(RTS, m, NoTarget) == Rts(m)
  {
    assert FamilyOf(RTS) == JumpFamily;
    assert !OperandFamily(JumpFamily);
    assert ExecuteControl(RTS, m, NoTarget) == JumpOps(RTS, m, NoTarget);
  }

  /** The handler PLA runs. */
  lemma PlaExecutes(m: Machine)
    ensures Execute(PLA, m, NoTarget) == Pla(m)
  {
    assert FamilyOf(PLA) == StackFamily;
    assert !OperandFamily(StackFamily);
    assert ExecuteControl(PLA, m, NoTarget) == StackOps(PLA, m);
  }

  /** The handler PLP runs. */
  lemma PlpExecutes(m: Machine)
    ensures Execute(PLP, m, NoTarget) == Plp(m)
  {
    assert FamilyOf(PLP) == StackFamily;
    assert !OperandFamily(StackFamily);
    assert ExecuteControl(PLP, m, NoTarget) == StackOps(PLP, m);
  }

  /** The opcode fetch moves PC past the opcode and changes nothing else
      but the per-step cycle count. */
  lemma FetchFacts(m: Machine)
    ensures Fetch(m).pc == Wrap16(m.pc as int + 1) && Fetch(m).currCycles == 0
    ensures Fetch(m).mem == m.mem && Fetch(m).sp == m.sp && SameRegisters(Fetch(m), m)
    ensures Fetch(m).totalCycles == m.totalCycles && Fetch(m).pageCrossed == m.pageCrossed
  {
  }

  /** Absolute addressing: the target is the operand word, PC moves past it,
      and the page-crossed flag is cleared (base and target coincide). */
  lemma AbsoluteFacts(m: Machine)
    ensures Resolve(m, Absolute).target == At(ReadWord(m, m.pc))
    ensures Resolve(m, Absolute).m.pc == Wrap16(m.pc as int + 2)
    ensures !Resolve(m, Absolute).m.pageCrossed
    ensures Resolve(m, Absolute).m.mem == m.mem && Resolve(m, Absolute).m.sp == m.sp
    ensures SameRegisters(Resolve(m, Absolute).m, m)
    ensures Resolve(m, Absolute).m.currCycles == m.currCycles
    ensures Resolve(m, Absolute).m.totalCycles == m.totalCycles
  {
    var base := ReadWord(m, m.pc);
    assert Wrap16(base as int + 0) == base;
  }

  /** The JSR handler: pushes PC - 1 high byte first and jumps; only the two
      slots below SP change in memory. */
  lemma JsrHandler(m: Machine, target: word, addr: word)
    ensures Jsr(m, At(target)).pc == target
    ensures Jsr(m, At(target)).sp == Wrap8(m.sp as int - 2)
    ensures Read(Jsr(m, At(target)), Slot(m.sp)) == Hi(Wrap16(m.pc as int - 1))
    ensures Read(Jsr(m, At(target)), Slot(Wrap8(m.sp as int - 1))) == Lo(Wrap16(m.pc as int - 1))
    ensures !Pushed(m.sp, 2, addr) ==> Read(Jsr(m, At(target)), addr) == Read(m, addr)
    ensures SameRegisters(Jsr(m, At(target)), m)
    ensures Jsr(m, At(target)).currCycles == m.currCycles
    ensures Jsr(m, At(target)).totalCycles == m.totalCycles
    ensures Jsr(m, At(target)).pageCrossed == m.pageCrossed
  {
    var m1 := Push(m, Hi(Wrap16(m.pc as int - 1)));
    assert m1.sp == Wrap8(m.sp as int - 1);
    Wrap8Shift(m.sp, -1, -1);
    SlotAboveNotPushed(m.sp, 1);
    if !Pushed(m.sp, 2, addr) {
      NotPushedBelow(m.sp, 2, addr);
      NotPushedBelow(m1.sp, 1, addr);
    }
  }

  /** The table entry of opcode 0x20 in both variants. */
  const JsrEntry := Entry(JSR, Absolute, 6, false)

  /** JSR absolute after the opcode fetch: jumps to the operand word, pushes
      the address of the operand's last byte high byte first, and charges 6
      cycles. */
  lemma JsrPerform(m: Machine, addr: word)
    ensures Perform(m, JsrEntry).currCycles == 6 + m.currCycles
    ensures Perform(m, JsrEntry).pc == ReadWord(m, m.pc)
    ensures Perform(m, JsrEntry).sp == Wrap8(m.sp as int - 2)
    ensures Read(Perform(m, JsrEntry), Slot(m.sp)) == Hi(Wrap16(Wrap16(m.pc as int + 2) as int - 1))
    ensures Read(Perform(m, JsrEntry), Slot(Wrap8(m.sp as int - 1))) == Lo(Wrap16(Wrap16(m.pc as int + 2) as int - 1))
    ensures !Pushed(m.sp, 2, addr) ==> Read(Perform(m, JsrEntry), addr) == Read(m, addr)
    ensures SameRegisters(Perform(m, JsrEntry), m)
  {
    AbsoluteFacts(m);
    JsrExecutes(Resolve(m, Absolute).m, At(ReadWord(m, m.pc)));
    JsrHandler(Resolve(m, Absolute).m, ReadWord(m, m.pc), addr);
  }

  /** JSR absolute as one `step`: jumps to the operand word in 6 cycles and
      pushes the address of its own last byte (PC + 2), high byte into the
      slot SP named and low byte below it; SP goes down by two, no other
      memory byte changes, and the registers and flags are kept. */
  lemma JsrStep(v: Variant, m: Machine, addr: word)
    requires Read(m, m.pc) == 0x20
    ensures Step(v, m).Stepped? && Step(v, m).cycles == 6
    ensures Step(v, m).m.pc == ReadWord(m, Wrap16(m.pc as int + 1))
    ensures Step(v, m).m.sp == Wrap8(m.sp as int - 2)
    ensures Read(Step(v, m).m, Slot(m.sp)) == Hi(Wrap16(m.pc as int + 2))
    ensures Read(Step(v, m).m, Slot(Wrap8(m.sp as int - 1))) == Lo(Wrap16(m.pc as int + 2))
    ensures !Pushed(m.sp, 2, addr) ==> Read(Step(v, m).m, addr) == Read(m, addr)
    ensures SameRegisters(Step(v, m).m, m)
  {
    assert Opcodes.Decode(v, 0x20) == Some(JsrEntry);
    StepDecoded(v, m, JsrEntry);
    FetchFacts(m);
    JsrPerform(Fetch(m), addr);
    Wrap16Shift(m.pc, 1, 2);
    Wrap16Shift(m.pc, 3, -1);
  }

  /** The RTS handler: pulls the low and then the high byte of the return
      address from the two slots above SP and resumes one past it. */
  lemma RtsHandler(m: Machine)
    ensures Rts(m).pc == Wrap16(MakeWord(Read(m, Slot(Wrap8(m.sp as int + 1))),
                                         Read(m, Slot(Wrap8(m.sp as int + 2)))) as int + 1)
    ensures Rts(m).sp == Wrap8(m.sp as int + 2) && Rts(m).mem == m.mem
    ensures SameRegisters(Rts(m), m)
    ensures Rts(m).currCycles == m.currCycles && Rts(m).totalCycles == m.totalCycles
    ensures Rts(m).pageCrossed == m.pageCrossed
  {
    var lo := Pop(m);
    var hi := Pop(lo.m);
    assert lo.m.sp == Wrap8(m.sp as int + 1);
    Wrap8Shift(m.sp, 1, 1);
    assert hi.m.sp == Wrap8(m.sp as int + 2);
    assert lo.value == Read(m, Slot(Wrap8(m.sp as int + 1)));
    assert hi.value == Read(m, Slot(Wrap8(m.sp as int + 2)));
  }

  /** The table entry of opcode 0x60 in both variants. */
  const RtsEntry := Entry(RTS, Implied, 6, false)

  /** RTS after the opcode fetch: the return address from the two slots above
      SP, plus one, in 6 cycles. */
  lemma RtsPerform(m: Machine)
    ensures Perform(m, RtsEntry).currCycles == 6 + m.currCycles
    ensures Perform(m, RtsEntry).pc == Wrap16(MakeWord(Read(m, Slot(Wrap8(m.sp as int + 1))),
                                                       Read(m, Slot(Wrap8(m.sp as int + 2)))) as int + 1)
    ensures Perform(m, RtsEntry).sp == Wrap8(m.sp as int + 2)
    ensures Perform(m, RtsEntry).mem == m.mem
    ensures SameRegisters(Perform(m, RtsEntry), m)
  {
    PerformImplied(m, RtsEntry);
    RtsExecutes(m);
    RtsHandler(m);
  }

  /** RTS as one `step`: 6 cycles, SP up by two, memory unchanged. */
  lemma RtsStep(v: Variant, m: Machine)
    requires Read(m, m.pc) == 0x60
    ensures Step(v, m).Stepped? && Step(v, m).cycles == 6
    ensures Step(v, m).m.pc == Wrap16(MakeWord(Read(m, Slot(Wrap8(m.sp as int + 1))),
                                               Read(m, Slot(Wrap8(m.sp as int + 2)))) as int + 1)
    ensures Step(v, m).m.sp == Wrap8(m.sp as int + 2)
    ensures Step(v, m).m.mem == m.mem
    ensures SameRegisters(Step(v, m).m, m)
  {
    assert Opcodes.Decode(v, 0x60) == Some(RtsEntry);
    StepDecoded(v, m, RtsEntry);
    FetchFacts(m);
    RtsPerform(Fetch(m));
  }

  /** The BRK handler: pushes PC + 1 high byte first and then P with Break
      set, sets Interrupt and jumps through the vector at 0xFFFE, which the
      pushes (all in page 1) cannot overwrite; only the three slots below SP
      change in memory. */
  lemma BrkHandler(m: Machine, addr: word)
    ensures Brk(m).pc == ReadWord(m, IrqVector)
    ensures Brk(m).sp == Wrap8(m.sp as int - 3)
    ensures Read(Brk(m), Slot(m.sp)) == Hi(Wrap16(m.pc as int + 1))
    ensures Read(Brk(m), Slot(Wrap8(m.sp as int - 1))) == Lo(Wrap16(m.pc as int + 1))
    ensures Read(Brk(m), Slot(Wrap8(m.sp as int - 2))) == ToByte(m.p.(brk := true))
    ensures !Pushed(m.sp, 3, addr) ==> Read(Brk(m), addr) == Read(m, addr)
    ensures Brk(m).p == m.p.(interrupt := true)
    ensures Brk(m).a == m.a && Brk(m).x == m.x && Brk(m).y == m.y
    ensures Brk(m).currCycles == m.currCycles && Brk(m).totalCycles == m.totalCycles
    ensures Brk(m).pageCrossed == m.pageCrossed
  {
    var ret := Wrap16(m.pc as int + 1);
    var vs := [Hi(ret), Lo(ret), ToByte(m.p.(brk := true))];
    PushThree(m, vs[0], vs[1], vs[2]);
    PushAllSlots(m, vs, 0);
    PushAllSlots(m, vs, 1);
    PushAllSlots(m, vs, 2);
    PushAllFrame(m, vs, IrqVector);
    PushAllFrame(m, vs, 0xFFFF);
    if !Pushed(m.sp, 3, addr) {
      PushAllFrame(m, vs, addr);
    }
  }

  /** The RTI handler: pulls P (Unused forced on, Break as pulled), then the
      PC low and high bytes, from the three slots above SP. */
  lemma RtiHandler(m: Machine)
    ensures Rti(m).p == FromByte(Read(m, Slot(Wrap8(m.sp as int + 1)))).(unused := true)
    ensures Rti(m).pc == MakeWord(Read(m, Slot(Wrap8(m.sp as int + 2))),
                                  Read(m, Slot(Wrap8(m.sp as int + 3))))
    ensures Rti(m).sp == Wrap8(m.sp as int + 3) && Rti(m).mem == m.mem
    ensures Rti(m).a == m.a && Rti(m).x == m.x && Rti(m).y == m.y
    ensures Rti(m).currCycles == m.currCycles && Rti(m).totalCycles == m.totalCycles
    ensures Rti(m).pageCrossed == m.pageCrossed
  {
    var status := Pop(m);
    var lo := Pop(status.m);
    var hi := Pop(lo.m);
    assert status.m.sp == Wrap8(m.sp as int + 1);
    Wrap8Shift(m.sp, 1, 1);
    assert lo.m.sp == Wrap8(m.sp as int + 2);
    Wrap8Shift(m.sp, 2, 1);
    assert hi.m.sp == Wrap8(m.sp as int + 3);
    assert status.value == Read(m, Slot(Wrap8(m.sp as int + 1)));
    assert lo.value == Read(m, Slot(Wrap8(m.sp as int + 2)));
    assert hi.value == Read(m, Slot(Wrap8(m.sp as int + 3)));
  }

  /** The table entry of opcode 0x00, whose cycles differ between the variants. */
  function BrkEntry(v: Variant): Entry
  {
    Entry(BRK, Implied, BrkCycles(v), false)
  }

  /** BRK after the opcode fetch. */
  lemma BrkPerform(v: Variant, m: Machine, addr: word)
    ensures Perform(m, BrkEntry(v)).currCycles == BrkCycles(v) + m.currCycles
    ensures Perform(m, BrkEntry(v)).pc == ReadWord(m, IrqVector)
    ensures Perform(m, BrkEntry(v)).sp == Wrap8(m.sp as int - 3)
    ensures Read(Perform(m, BrkEntry(v)), Slot(m.sp)) == Hi(Wrap16(m.pc as int + 1))
    ensures Read(Perform(m, BrkEntry(v)), Slot(Wrap8(m.sp as int - 1))) == Lo(Wrap16(m.pc as int + 1))
    ensures Read(Perform(m, BrkEntry(v)), Slot(Wrap8(m.sp as int - 2))) == ToByte(m.p.(brk := true))
    ensures !Pushed(m.sp, 3, addr) ==> Read(Perform(m, BrkEntry(v)), addr) == Read(m, addr)
    ensures Perform(m, BrkEntry(v)).p == m.p.(interrupt := true)
    ensures Perform(m, BrkEntry(v)).a == m.a && Perform(m, BrkEntry(v)).x == m.x
    ensures Perform(m, BrkEntry(v)).y == m.y
  {
    PerformImplied(m, BrkEntry(v));
    BrkExecutes(m);
    BrkHandler(m, addr);
  }

  /** BRK as one `step`: pushes the address two past the opcode (the byte
      after BRK is skipped), high byte first, then P with Break set; sets
      Interrupt; continues at the vector at 0xFFFE; takes 8 cycles in the Rust
      table and 7 in the C++ one. Only the three slots below SP change. */
  lemma BrkStep(v: Variant, m: Machine, addr: word)
    requires Read(m, m.pc) == 0x00
    ensures Step(v, m).Stepped? && Step(v, m).cycles == BrkCycles(v)
    ensures Step(v, m).m.pc == ReadWord(m, IrqVector)
    ensures Step(v, m).m.sp == Wrap8(m.sp as int - 3)
    ensures Read(Step(v, m).m, Slot(m.sp)) == Hi(Wrap16(m.pc as int + 2))
    ensures Read(Step(v, m).m, Slot(Wrap8(m.sp as int - 1))) == Lo(Wrap16(m.pc as int + 2))
    ensures Read(Step(v, m).m, Slot(Wrap8(m.sp as int - 2))) == ToByte(m.p.(brk := true))
    ensures !Pushed(m.sp, 3, addr) ==> Read(Step(v, m).m, addr) == Read(m, addr)
    ensures Step(v, m).m.p == m.p.(interrupt := true)
    ensures Step(v, m).m.a == m.a && Step(v, m).m.x == m.x && Step(v, m).m.y == m.y
  {
    assert Opcodes.Decode(v, 0x00) == Some(BrkEntry(v));
    StepDecoded(v, m, BrkEntry(v));
    FetchFacts(m);
    BrkPerform(v, Fetch(m), addr);
    Wrap16Shift(m.pc, 1, 1);
  }

  /** The table entry of opcode 0x40 in both variants. */
  const RtiEntry := Entry(RTI, Implied, 6, false)

  /** RTI after the opcode fetch. */
  lemma RtiPerform(m: Machine)
    ensures Perform(m, RtiEntry).currCycles == 6 + m.currCycles
    ensures Perform(m, RtiEntry).p == FromByte(Read(m, Slot(Wrap8(m.sp as int + 1)))).(unused := true)
    ensures Perform(m, RtiEntry).pc == MakeWord(Read(m, Slot(Wrap8(m.sp as int + 2))),
                                                Read(m, Slot(Wrap8(m.sp as int + 3))))
    ensures Perform(m, RtiEntry).sp == Wrap8(m.sp as int + 3)
    ensures Perform(m, RtiEntry).mem == m.mem
    ensures Perform(m, RtiEntry).a == m.a && Perform(m, RtiEntry).x == m.x
    ensures Perform(m, RtiEntry).y == m.y
  {
    PerformImplied(m, RtiEntry);
    RtiExecutes(m);
    RtiHandler(m);
  }

  /** RTI as one `step`: P from the slot above SP with Unused set (Break is
      kept as pulled), PC from the next two slots without the `+ 1` of RTS, SP
      up by three, 6 cycles. */
  lemma RtiStep(v: Variant, m: Machine)
    requires Read(m, m.pc) == 0x40
    ensures Step(v, m).Stepped? && Step(v, m).cycles == 6
    ensures Step(v, m).m.p == FromByte(Read(m, Slot(Wrap8(m.sp as int + 1)))).(unused := true)
    ensures Step(v, m).m.pc == MakeWord(Read(m, Slot(Wrap8(m.sp as int + 2))),
                                        Read(m, Slot(Wrap8(m.sp as int + 3))))
    ensures Step(v, m).m.sp == Wrap8(m.sp as int + 3)
    ensures Step(v, m).m.mem == m.mem
    ensures Step(v, m).m.a == m.a && Step(v, m).m.x == m.x && Step(v, m).m.y == m.y
  {
    assert Opcodes.Decode(v, 0x40) == Some(RtiEntry);
    StepDecoded(v, m, RtiEntry);
    FetchFacts(m);
    RtiPerform(Fetch(m));
  }

  /** A BRK whose vector leads straight to an RTI comes back two bytes past
      the BRK with SP, A, X and Y as they were, and with P as it was except
      that Break and Unused are now set (RTI keeps the Break bit BRK pushed),
      provided the RTI does not sit in the three slots BRK writes. */
  lemma BrkThenRti(v: Variant, m: Machine)
    requires Read(m, m.pc) == 0x00
    requires Read(m, ReadWord(m, IrqVector)) == 0x40
    requires !Pushed(m.sp, 3, ReadWord(m, IrqVector))
    ensures Step(v, m).Stepped? && Step(v, Step(v, m).m).Stepped?
    ensures Step(v, Step(v, m).m).m.pc == Wrap16(m.pc as int + 2)
    ensures Step(v, Step(v, m).m).m.sp == m.sp
    ensures Step(v, Step(v, m).m).m.p == m.p.(brk := true, unused := true)
    ensures Step(v, Step(v, m).m).m.a == m.a && Step(v, Step(v, m).m).m.x == m.x
    ensures Step(v, Step(v, m).m).m.y == m.y
    ensures Step(v, m).cycles + Step(v, Step(v, m).m).cycles == BrkCycles(v) + 6
  {
    var target := ReadWord(m, IrqVector);
    BrkStep(v, m, target);
    var s1 := Step(v, m).m;
    RtiStep(v, s1);
    Wrap8Shift(m.sp, -3, 1);
    Wrap8Shift(m.sp, -3, 2);
    Wrap8Shift(m.sp, -3, 3);
    assert Wrap8(s1.sp as int + 1) == Wrap8(m.sp as int - 2);
    assert Wrap8(s1.sp as int + 2) == Wrap8(m.sp as int - 1);
    assert Wrap8(s1.sp as int + 3) == m.sp;
    FlagsRoundTrip(m.p.(brk := true));
    WordRoundTrip(Wrap16(m.pc as int + 2));
  }

  /** The table entries of PHA (0x48), PLA (0x68), PHP (0x08) and PLP (0x28). */
  const PhaEntry := Entry(PHA, Implied, 3, false)
  const PlaEntry := Entry(PLA, Implied, 4, false)
  const PhpEntry := Entry(PHP, Implied, 3, false)
  const PlpEntry := Entry(PLP, Implied, 4, false)

  /** PHA after the opcode fetch: A goes to the slot SP names. */
  lemma PhaPerform(m: Machine, addr: word)
    ensures Perform(m, PhaEntry).currCycles == 3 + m.currCycles
    ensures Perform(m, PhaEntry).pc == m.pc
    ensures Perform(m, PhaEntry).sp == Wrap8(m.sp as int - 1)
    ensures Read(Perform(m, PhaEntry), Slot(m.sp)) == m.a
    ensures addr != Slot(m.sp) ==> Read(Perform(m, PhaEntry), addr) == Read(m, addr)
    ensures SameRegisters(Perform(m, PhaEntry), m)
  {
    PerformImplied(m, PhaEntry);
    PhaExecutes(m);
  }

  /** PHA as one `step`: 3 cycles, A pushed, SP down by one, nothing else but
      the slot SP named changes. */
  lemma PhaStep(v: Variant, m: Machine, addr: word)
    requires Read(m, m.pc) == 0x48
    ensures Step(v, m).Stepped? && Step(v, m).cycles == 3
    ensures Step(v, m).m.pc == Wrap16(m.pc as int + 1)
    ensures Step(v, m).m.sp == Wrap8(m.sp as int - 1)
    ensures Read(Step(v, m).m, Slot(m.sp)) == m.a
    ensures addr != Slot(m.sp) ==> Read(Step(v, m).m, addr) == Read(m, addr)
    ensures SameRegisters(Step(v, m).m, m)
  {
    assert Opcodes.Decode(v, 0x48) == Some(PhaEntry);
    StepDecoded(v, m, PhaEntry);
    FetchFacts(m);
    PhaPerform(Fetch(m), addr);
  }

  /** PLA after the opcode fetch: A from the slot above SP, Zero and Negative from it. */
  lemma PlaPerform(m: Machine)
    ensures Perform(m, PlaEntry).currCycles == 4 + m.currCycles
    ensures Perform(m, PlaEntry).pc == m.pc
    ensures Perform(m, PlaEntry).sp == Wrap8(m.sp as int + 1)
    ensures Perform(m, PlaEntry).a == Read(m, Slot(Wrap8(m.sp as int + 1)))
    ensures Perform(m, PlaEntry).p == SetNZ(m.p, Read(m, Slot(Wrap8(m.sp as int + 1))))
    ensures Perform(m, PlaEntry).mem == m.mem
    ensures Perform(m, PlaEntry).x == m.x && Perform(m, PlaEntry).y == m.y
  {
    PerformImplied(m, PlaEntry);
    PlaExecutes(m);
  }

  /** PLA as one `step`: 4 cycles, A pulled with Zero and Negative set from it,
      SP up by one, memory unchanged. */
  lemma PlaStep(v: Variant, m: Machine)
    requires Read(m, m.pc) == 0x68
    ensures Step(v, m).Stepped? && Step(v, m).cycles == 4
    ensures Step(v, m).m.pc == Wrap16(m.pc as int + 1)
    ensures Step(v, m).m.sp == Wrap8(m.sp as int + 1)
    ensures Step(v, m).m.a == Read(m, Slot(Wrap8(m.sp as int + 1)))
    ensures Step(v, m).m.p == SetNZ(m.p, Read(m, Slot(Wrap8(m.sp as int + 1))))
    ensures Step(v, m).m.mem == m.mem
    ensures Step(v, m).m.x == m.x && Step(v, m).m.y == m.y
  {
    assert Opcodes.Decode(v, 0x68) == Some(PlaEntry);
    StepDecoded(v, m, PlaEntry);
    FetchFacts(m);
    PlaPerform(Fetch(m));
  }

  /** PHP after the opcode fetch: P with Break set goes to the slot SP names. */
  lemma PhpPerform(m: Machine, addr: word)
    ensures Perform(m, PhpEntry).currCycles == 3 + m.currCycles
    ensures Perform(m, PhpEntry).pc == m.pc
    ensures Perform(m, PhpEntry).sp == Wrap8(m.sp as int - 1)
    ensures Read(Perform(m, PhpEntry), Slot(m.sp)) == ToByte(m.p.(brk := true))
    ensures addr != Slot(m.sp) ==> Read(Perform(m, PhpEntry), addr) == Read(m, addr)
    ensures SameRegisters(Perform(m, PhpEntry), m)
  {
    PerformImplied(m, PhpEntry);
    PhpExecutes(m);
  }

  /** PHP as one `step`: 3 cycles, `P | BREAK` pushed, P itself unchanged. */
  lemma PhpStep(v: Variant, m: Machine, addr: word)
    requires Read(m, m.pc) == 0x08
    ensures Step(v, m).Stepped? && Step(v, m).cycles == 3
    ensures Step(v, m).m.pc == Wrap16(m.pc as int + 1)
    ensures Step(v, m).m.sp == Wrap8(m.sp as int - 1)
    ensures Read(Step(v, m).m, Slot(m.sp)) == ToByte(m.p.(brk := true))
    ensures addr != Slot(m.sp) ==> Read(Step(v, m).m, addr) == Read(m, addr)
    ensures SameRegisters(Step(v, m).m, m)
  {
    assert Opcodes.Decode(v, 0x08) == Some(PhpEntry);
    StepDecoded(v, m, PhpEntry);
    FetchFacts(m);
    PhpPerform(Fetch(m), addr);
  }

  /** PLP after the opcode fetch: P from the slot above SP, Break cleared and Unused set. */
  lemma PlpPerform(m: Machine)
    ensures Perform(m, PlpEntry).currCycles == 4 + m.currCycles
    ensures Perform(m, PlpEntry).pc == m.pc
    ensures Perform(m, PlpEntry).sp == Wrap8(m.sp as int + 1)
    ensures Perform(m, PlpEntry).p
            == FromByte(Read(m, Slot(Wrap8(m.sp as int + 1)))).(brk := false, unused := true)
    ensures Perform(m, PlpEntry).mem == m.mem
    ensures Perform(m, PlpEntry).a == m.a && Perform(m, PlpEntry).x == m.x
    ensures Perform(m, PlpEntry).y == m.y
  {
    PerformImplied(m, PlpEntry);
    PlpExecutes(m);
  }

  /** PLP as one `step`: 4 cycles, P pulled with Break cleared and Unused set,
      SP up by one, memory unchanged. */
  lemma PlpStep(v: Variant, m: Machine)
    requires Read(m, m.pc) == 0x28
    ensures Step(v, m).Stepped? && Step(v, m).cycles == 4
    ensures Step(v, m).m.pc == Wrap16(m.pc as int + 1)
    ensures Step(v, m).m.sp == Wrap8(m.sp as int + 1)
    ensures Step(v, m).m.p
            == FromByte(Read(m, Slot(Wrap8(m.sp as int + 1)))).(brk := false, unused := true)
    ensures Step(v, m).m.mem == m.mem
    ensures Step(v, m).m.a == m.a && Step(v, m).m.x == m.x && Step(v, m).m.y == m.y
  {
    assert Opcodes.Decode(v, 0x28) == Some(PlpEntry);
    StepDecoded(v, m, PlpEntry);
    FetchFacts(m);
    PlpPerform(Fetch(m));
  }

  /** PHA then PLA leaves A and SP as they were and sets Zero and Negative
      from A, in 7 cycles, provided the PLA does not sit in the slot PHA writes. */
  lemma PhaThenPla(v: Variant, m: Machine)
    requires Read(m, m.pc) == 0x48
    requires Read(m, Wrap16(m.pc as int + 1)) == 0x68
    requires Wrap16(m.pc as int + 1) != Slot(m.sp)
    ensures Step(v, m).Stepped? && Step(v, Step(v, m).m).Stepped?
    ensures Step(v, Step(v, m).m).m.a == m.a
    ensures Step(v, Step(v, m).m).m.p == SetNZ(m.p, m.a)
    ensures Step(v, Step(v, m).m).m.sp == m.sp
    ensures Step(v, Step(v, m).m).m.pc == Wrap16(m.pc as int + 2)
    ensures Step(v, m).cycles + Step(v, Step(v, m).m).cycles == 7
  {
    var s1 := PhaBeforePla(v, m);
    PlaStep(v, s1);
    Wrap8Shift(m.sp, -1, 1);
    Wrap16Shift(m.pc, 1, 1);
    assert Wrap8(s1.sp as int + 1) == m.sp;
    assert Read(s1, Slot(Wrap8(s1.sp as int + 1))) == m.a;
  }

  /** The machine after the PHA of `PhaThenPla`, with the PLA opcode at its
      PC and A in the slot the PLA pulls from. */
  lemma PhaBeforePla(v: Variant, m: Machine) returns (s1: Machine)
    requires Read(m, m.pc) == 0x48
    requires Read(m, Wrap16(m.pc as int + 1)) == 0x68
    requires Wrap16(m.pc as int + 1) != Slot(m.sp)
    ensures Step(v, m) == Stepped(s1, 3)
    ensures s1.pc == Wrap16(m.pc as int + 1) && Read(s1, s1.pc) == 0x68
    ensures s1.sp == Wrap8(m.sp as int - 1) && Read(s1, Slot(m.sp)) == m.a
    ensures SameRegisters(s1, m)
  {
    PhaStep(v, m, Wrap16(m.pc as int + 1));
    s1 := Step(v, m).m;
  }

  /** PHP then PLP gives P back with Break clear and Unused set, whatever they
      were, SP as it was, in 7 cycles, provided the PLP does not sit in the
      slot PHP writes. */
  lemma PhpThenPlp(v: Variant, m: Machine)
    requires Read(m, m.pc) == 0x08
    requires Read(m, Wrap16(m.pc as int + 1)) == 0x28
    requires Wrap16(m.pc as int + 1) != Slot(m.sp)
    ensures Step(v, m).Stepped? && Step(v, Step(v, m).m).Stepped?
    ensures Step(v, Step(v, m).m).m.p == m.p.(brk := false, unused := true)
    ensures Step(v, Step(v, m).m).m.sp == m.sp
    ensures Step(v, Step(v, m).m).m.pc == Wrap16(m.pc as int + 2)
    ensures Step(v, m).cycles + Step(v, Step(v, m).m).cycles == 7
  {
    PhpStep(v, m, Wrap16(m.pc as int + 1));
    var s1 := Step(v, m).m;
    PlpStep(v, s1);
    Wrap8Shift(m.sp, -1, 1);
    Wrap16Shift(m.pc, 1, 1);
    FlagsRoundTrip(m.p.(brk := true));
  }

  /** A branch after the opcode fetch: PC moves past the offset byte and, when
      the condition holds, by the signed offset from there, with one more
      cycle; the page-crossed flag records whether the jump left the page but
      costs nothing, because no branch entry asks for the penalty. */
  lemma BranchPerform(m: Machine, e: Entry)
    requires IsBranch(e.op) && WellFormed(e)
    ensures BranchCondition(e.op, m.p) ==>
      && Perform(m, e).pc == Wrap16(Wrap16(m.pc as int + 1) as int + Signed(Read(m, m.pc)))
      && Perform(m, e).currCycles == 3 + m.currCycles
      && Perform(m, e).pageCrossed
         == PageCrossed(Wrap16(m.pc as int + 1), Wrap16(Wrap16(m.pc as int + 1) as int + Signed(Read(m, m.pc))))
    ensures !BranchCondition(e.op, m.p) ==>
      && Perform(m, e).pc == Wrap16(m.pc as int + 1)
      && Perform(m, e).currCycles == 2 + m.currCycles
      && Perform(m, e).pageCrossed == m.pageCrossed
    ensures Perform(m, e).mem == m.mem && Perform(m, e).sp == m.sp
    ensures SameRegisters(Perform(m, e), m)
  {
  }

  /** A conditional branch as one `step`: 2 cycles and on to the next
      instruction when the condition fails; 3 cycles and a jump by the signed
      offset, counted from the next instruction, when it holds, whether or not
      the jump leaves the page. Nothing else changes. */
  lemma BranchStep(v: Variant, m: Machine)
    requires Opcodes.Decode(v, Read(m, m.pc)).Some?
    requires IsBranch(Opcodes.Decode(v, Read(m, m.pc)).value.op)
    ensures Step(v, m).Stepped?
    ensures BranchCondition(Opcodes.Decode(v, Read(m, m.pc)).value.op, m.p) ==>
      && Step(v, m).cycles == 3
      && Step(v, m).m.pc == Wrap16(Wrap16(m.pc as int + 2) as int + Signed(Read(m, Wrap16(m.pc as int + 1))))
    ensures !BranchCondition(Opcodes.Decode(v, Read(m, m.pc)).value.op, m.p) ==>
      && Step(v, m).cycles == 2
      && Step(v, m).m.pc == Wrap16(m.pc as int + 2)
    ensures Step(v, m).m.mem == m.mem && Step(v, m).m.sp == m.sp
    ensures SameRegisters(Step(v, m).m, m)
  {
    var e := Opcodes.Decode(v, Read(m, m.pc)).value;
    TableWellFormed(v, Read(m, m.pc));
    StepDecoded(v, m, e);
    FetchFacts(m);
    BranchPerform(Fetch(m), e);
    Wrap16Shift(m.pc, 1, 1);
  }

  /** The per-step cycles, the running total and the page-crossed flag agree. */
  predicate SameCounters(s: Machine, m: Machine)
  {
    s.currCycles == m.currCycles && s.totalCycles == m.totalCycles && s.pageCrossed == m.pageCrossed
  }

  /** Only the branches touch the cycle counters and the page-crossed flag:
      every other handler leaves them, and the running total, as resolution
      left them. */
  lemma ExecuteKeepsCounters(op: Op, m: Machine, t: Target)
    requires !IsBranch(op)
    ensures SameCounters(Execute(op, m, t), m)
  {
    if OperandFamily(FamilyOf(op)) {
      OperandFamilyKeepsCounters(op, m, t);
    } else {
      ControlFamilyKeepsCounters(op, m, t);
    }
  }

  lemma OperandFamilyKeepsCounters(op: Op, m: Machine, t: Target)
    requires OperandFamily(FamilyOf(op))
    ensures SameCounters(ExecuteOnOperand(op, m, t), m)
  {
    match FamilyOf(op)
    case ArithmeticFamily => ArithmeticKeepsCounters(op, m, t);
    case LogicFamily => LogicKeepsCounters(op, m, t);
    case CompareFamily => CompareKeepsCounters(op, m, t);
    case ShiftFamily => ShiftKeepsCounters(op, m, t);
    case CountFamily => CountKeepsCounters(op, m, t);
    case LoadFamily => LoadKeepsCounters(op, m, t);
    case StoreFamily => StoreKeepsCounters(op, m, t);
  }

  lemma ControlFamilyKeepsCounters(op: Op, m: Machine, t: Target)
    requires !OperandFamily(FamilyOf(op)) && !IsBranch(op)
    ensures SameCounters(ExecuteControl(op, m, t), m)
  {
    match FamilyOf(op)
    case TransferFamily => TransferKeepsCounters(op, m, t);
    case FlagFamily => FlagKeepsCounters(op, m, t);
    case StackFamily => StackKeepsCounters(op, m, t);
    case JumpFamily => JumpKeepsCounters(op, m, t);
    case InterruptFamily => InterruptKeepsCounters(op, m, t);
    case NopFamily =>
  }

  lemma ArithmeticKeepsCounters(op: Op, m: Machine, t: Target)
    requires FamilyOf(op) == ArithmeticFamily
    ensures SameCounters(ArithmeticOps(op, m, t), m)
  {
  }

  lemma LogicKeepsCounters(op: Op, m: Machine, t: Target)
    requires FamilyOf(op) == LogicFamily
    ensures SameCounters(LogicOps(op, m, t), m)
  {
  }

  lemma CompareKeepsCounters(op: Op, m: Machine, t: Target)
    requires FamilyOf(op) == CompareFamily
    ensures SameCounters(CompareOps(op, m, t), m)
  {
  }

  lemma ShiftKeepsCounters(op: Op, m: Machine, t: Target)
    requires FamilyOf(op) == ShiftFamily
    ensures SameCounters(ShiftOps(op, m, t), m)
  {
  }

  lemma CountKeepsCounters(op: Op, m: Machine, t: Target)
    requires FamilyOf(op) == CountFamily
    ensures SameCounters(CountOps(op, m, t), m)
  {
  }

  lemma LoadKeepsCounters(op: Op, m: Machine, t: Target)
    requires FamilyOf(op) == LoadFamily
    ensures SameCounters(LoadOps(op, m, t), m)
  {
  }

  lemma StoreKeepsCounters(op: Op, m: Machine, t: Target)
    requires FamilyOf(op) == StoreFamily
    ensures SameCounters(StoreOps(op, m, t), m)
  {
  }

  lemma TransferKeepsCounters(op: Op, m: Machine, t: Target)
    requires FamilyOf(op) == TransferFamily
    ensures SameCounters(TransferOps(op, m), m)
  {
  }

  lemma FlagKeepsCounters(op: Op, m: Machine, t: Target)
    requires FamilyOf(op) == FlagFamily
    ensures SameCounters(FlagOps(op, m), m)
  {
  }

  lemma StackKeepsCounters(op: Op, m: Machine, t: Target)
    requires FamilyOf(op) == StackFamily
    ensures SameCounters(StackOps(op, m), m)
  {
  }

  lemma JumpKeepsCounters(op: Op, m: Machine, t: Target)
    requires FamilyOf(op) == JumpFamily
    ensures SameCounters(JumpOps(op, m, t), m)
  {
  }

  lemma InterruptKeepsCounters(op: Op, m: Machine, t: Target)
    requires FamilyOf(op) == InterruptFamily
    ensures SameCounters(InterruptOps(op, m), m)
  {
  }

  /** The extra cycle the page-crossing penalty adds: the entry asks for it
      and resolution set the flag. */
  function Penalty(m: Machine, e: Entry): nat
  {
    Bit(e.checkPageCross && Resolve(m, e.mode).m.pageCrossed)
  }

  /** The extra cycle of a taken branch. */
  function TakenBranch(m: Machine, e: Entry): nat
  {
    if IsBranch(e.op) then Bit(BranchCondition(e.op, m.p)) else 0
  }

  /** The cycles an entry costs after the fetch: its base cycles, one more when
      it asks for the page-crossing penalty and resolution crossed a page, and
      one more for a taken branch. */
  lemma PerformCycles(m: Machine, e: Entry)
    requires WellFormed(e)
    ensures Perform(m, e).currCycles == m.currCycles + e.cycles + Penalty(m, e) + TakenBranch(m, e)
  {
    var r := Resolve(m, e.mode);
    if IsBranch(e.op) {
      BranchPerform(m, e);
    } else {
      ExecuteKeepsCounters(e.op, r.m, r.target);
    }
  }

  /** `step` adds the cycles of the instruction to the running total. */
  lemma PerformTotal(m: Machine, e: Entry)
    ensures Perform(m, e).totalCycles == m.totalCycles + Perform(m, e).currCycles
  {
    var r := Resolve(m, e.mode);
    assert r.m.totalCycles == m.totalCycles;
    if IsBranch(e.op) {
      assert Execute(e.op, r.m, r.target).totalCycles == r.m.totalCycles;
    } else {
      ExecuteKeepsCounters(e.op, r.m, r.target);
    }
  }

  /** `step` returns the entry's base cycles plus the page-crossing penalty
      plus the taken-branch cycle, and adds the same number to the total. */
  lemma StepCycles(v: Variant, m: Machine)
    requires Opcodes.Decode(v, Read(m, m.pc)).Some?
    ensures Step(v, m).Stepped?
    ensures Step(v, m).cycles
            == Opcodes.Decode(v, Read(m, m.pc)).value.cycles
               + Penalty(Fetch(m), Opcodes.Decode(v, Read(m, m.pc)).value)
               + TakenBranch(Fetch(m), Opcodes.Decode(v, Read(m, m.pc)).value)
    ensures Step(v, m).m.totalCycles == m.totalCycles + Step(v, m).cycles
  {
    var e := Opcodes.Decode(v, Read(m, m.pc)).value;
    TableWellFormed(v, Read(m, m.pc));
    StepDecoded(v, m, e);
    FetchFacts(m);
    PerformCycles(Fetch(m), e);
    PerformTotal(Fetch(m), e);
  }

  /** The indexed modes compute the page-crossed flag afresh from the operand,
      PC and the index registers, so whatever the flag held before resolution
      does not matter. */
  lemma IndexedResolveIgnoresFlag(m1: Machine, m2: Machine, mode: Mode)
    requires IsIndexedMode(mode)
    requires m1.mem == m2.mem && m1.pc == m2.pc && m1.x == m2.x && m1.y == m2.y
    ensures Resolve(m1, mode).m.pageCrossed == Resolve(m2, mode).m.pageCrossed
  {
    assert Read(m1, m1.pc) == Read(m2, m2.pc);
  }

  /** A page-crossed flag left set by an earlier instruction (a taken branch
      across a page, or an indexed store, which never charges it) is never
      charged to a later one: the cycles of a `step` do not depend on it. */
  lemma StaleFlagNeverCharged(v: Variant, m: Machine, stale: bool)
    requires Opcodes.Decode(v, Read(m, m.pc)).Some?
    ensures Step(v, m.(pageCrossed := stale)).Stepped?
    ensures Step(v, m.(pageCrossed := stale)).cycles == Step(v, m).cycles
  {
    var m' := m.(pageCrossed := stale);
    var e := Opcodes.Decode(v, Read(m, m.pc)).value;
    assert Read(m', m'.pc) == Read(m, m.pc);
    TableWellFormed(v, Read(m, m.pc));
    StepCycles(v, m);
    StepCycles(v, m');
    FetchFacts(m);
    FetchFacts(m');
    if e.checkPageCross {
      IndexedResolveIgnoresFlag(Fetch(m), Fetch(m'), e.mode);
    }
  }

  /** Absolute,X resolution: the target is the operand word plus X modulo
      65536, PC moves past the operand, and the flag records whether the
      index carried into the high byte. */
  lemma AbsoluteXFacts(m: Machine)
    ensures Resolve(m, AbsoluteX).target == At(Wrap16(ReadWord(m, m.pc) as int + m.x as int))
    ensures Resolve(m, AbsoluteX).m.pageCrossed
            == PageCrossed(ReadWord(m, m.pc), Wrap16(ReadWord(m, m.pc) as int + m.x as int))
    ensures Resolve(m, AbsoluteX).m.pc == Wrap16(m.pc as int + 2)
    ensures Resolve(m, AbsoluteX).m.mem == m.mem && SameRegisters(Resolve(m, AbsoluteX).m, m)
  {
  }

  /** The table entry of opcode 0xBD, LDA absolute,X. */
  const LdaAbsoluteXEntry := Entry(LDA, AbsoluteX, 4, true)

  /** LDA absolute,X after the opcode fetch. */
  lemma LdaAbsoluteXPerform(m: Machine)
    ensures Perform(m, LdaAbsoluteXEntry).a == Read(m, Wrap16(ReadWord(m, m.pc) as int + m.x as int))
    ensures Perform(m, LdaAbsoluteXEntry).currCycles
            == m.currCycles + 4 + Bit(PageCrossed(ReadWord(m, m.pc), Wrap16(ReadWord(m, m.pc) as int + m.x as int)))
    ensures !Perform(m, LdaAbsoluteXEntry).pageCrossed
  {
    AbsoluteXFacts(m);
  }

  /** LDA absolute,X as one `step`: A is loaded from the operand word plus X,
      and the instruction costs 4 cycles, or 5 when the index carries into
      the next page (LDA $10FF,X with X = 1 reads 0x1100 in 5 cycles). The
      flag is cleared once charged. */
  lemma LdaAbsoluteXStep(v: Variant, m: Machine)
    requires Read(m, m.pc) == 0xBD
    ensures Step(v, m).Stepped?
    ensures Step(v, m).m.a
            == Read(m, Wrap16(ReadWord(m, Wrap16(m.pc as int + 1)) as int + m.x as int))
    ensures Step(v, m).cycles
            == 4 + Bit(PageCrossed(ReadWord(m, Wrap16(m.pc as int + 1)),
                                   Wrap16(ReadWord(m, Wrap16(m.pc as int + 1)) as int + m.x as int)))
    ensures !Step(v, m).m.pageCrossed
  {
    assert Opcodes.Decode(v, 0xBD) == Some(LdaAbsoluteXEntry);
    StepDecoded(v, m, LdaAbsoluteXEntry);
    FetchFacts(m);
    LdaAbsoluteXPerform(Fetch(m));
  }

  /** `step` reports an illegal opcode exactly when the table has no entry for
      the byte at PC, and then names that byte. */
  lemma StepIllegal(v: Variant, m: Machine)
    ensures Step(v, m).IllegalOpcode? <==> Opcodes.Decode(v, Read(m, m.pc)).None?
    ensures Step(v, m).IllegalOpcode? ==> Step(v, m).opcode == Read(m, m.pc)
  {
  }

  /** What `reset` leaves: A, X and Y zero, SP 0xFD, P the byte 0x24, PC from
      the caller or else the vector at 0xFFFC, memory untouched, and a cycle
      total of 7 (Rust) or 7 more than before (C++). */
  lemma ResetState(v: Variant, m: Machine, start: Option<word>)
    requires v == Cpp ==> start.None?
    ensures Reset(v, m, start).a == 0 && Reset(v, m, start).x == 0 && Reset(v, m, start).y == 0
    ensures Reset(v, m, start).sp == 0xFD && ToByte(Reset(v, m, start).p) == 0x24
    ensures Reset(v, m, start).pc == if start.Some? then start.value else ReadWord(m, ResetVector)
    ensures Reset(v, m, start).mem == m.mem
    ensures Reset(v, m, start).totalCycles == if v == Rust then 7 else m.totalCycles + 7
  {
    ResetFlagsByte();
  }

  /** Zero-page indexing wraps within page 0: the target is the operand byte
      plus the index modulo 256, never an address of page 1. */
  lemma ZeroPageIndexedStaysInPageZero(m: Machine)
    ensures Resolve(m, ZeroPageX).target == At(Wrap8(Read(m, m.pc) as int + m.x as int) as word)
    ensures Resolve(m, ZeroPageY).target == At(Wrap8(Read(m, m.pc) as int + m.y as int) as word)
    ensures Hi(TargetAddress(Resolve(m, ZeroPageX).target)) == 0
    ensures Hi(TargetAddress(Resolve(m, ZeroPageY).target)) == 0
  {
  }

  /** The high byte of a pointer is fetched from the next address within the
      same page: at a page's last byte it comes from that page's first byte
      (the indirect JMP page-wrap of the 6502). */
  lemma PointerHighAddressSamePage(addr: word)
    ensures Hi(PointerHighAddress(addr)) == Hi(addr)
    ensures Lo(PointerHighAddress(addr)) == Wrap8(Lo(addr) as int + 1)
  {
    MakeWordBytes(0, Hi(addr));
  }

  /** A subroutine call followed by a return resumes at the instruction after
      the JSR with SP, the registers and the flags as they were, in 12 cycles,
      provided the subroutine's RTS does not sit in the two stack slots the
      call writes. */
  lemma JsrThenRts(v: Variant, m: Machine)
    requires Read(m, m.pc) == 0x20
    requires Read(m, ReadWord(m, Wrap16(m.pc as int + 1))) == 0x60
    requires !Pushed(m.sp, 2, ReadWord(m, Wrap16(m.pc as int + 1)))
    ensures Step(v, m).Stepped? && Step(v, m).m.pc == ReadWord(m, Wrap16(m.pc as int + 1))
    ensures Step(v, Step(v, m).m).Stepped?
    ensures Step(v, Step(v, m).m).m.pc == Wrap16(m.pc as int + 3)
    ensures Step(v, Step(v, m).m).m.sp == m.sp
    ensures SameRegisters(Step(v, Step(v, m).m).m, m)
    ensures Step(v, m).cycles + Step(v, Step(v, m).m).cycles == 12
  {
    var target := ReadWord(m, Wrap16(m.pc as int + 1));
    JsrStep(v, m, target);
    var s1 := Step(v, m).m;
    RtsStep(v, s1);
    Wrap8Shift(m.sp, -2, 1);
    Wrap8Shift(m.sp, -2, 2);
    WordRoundTrip(Wrap16(m.pc as int + 2));
    Wrap16Shift(m.pc, 2, 1);
  }

  // ---- Several steps ----

  /** A run of `n + 1` steps whose first step succeeds is that step followed
      by a run of `n`: same end, cycles added. */
  lemma RunCons(v: Variant, m: Machine, n: nat, next: Machine, cycles: nat)
    requires Step(v, m) == Stepped(next, cycles)
    ensures Run(v, m, n + 1).Stepped? == Run(v, next, n).Stepped?
    ensures Run(v, next, n).Stepped? ==> Run(v, m, n + 1).m == Run(v, next, n).m
    ensures Run(v, next, n).Stepped? ==> Run(v, m, n + 1).cycles == cycles + Run(v, next, n).cycles
  {
    var step := x => Step(v, x);
    assert step(m) == Stepped(next, cycles);
  }

  /** Iterating a step function that adds the cycles it returns to the total
      adds the sum of all the returned cycles to the total. */
  lemma {:induction false} IterateTotal(step: Machine -> Outcome, m: Machine, n: nat)
    requires forall x :: step(x).Stepped? ==> step(x).m.totalCycles == x.totalCycles + step(x).cycles
    ensures Iterate(step, m, n).Stepped?
            ==> Iterate(step, m, n).m.totalCycles == m.totalCycles + Iterate(step, m, n).cycles
    decreases n
  {
    if n > 0 && step(m).Stepped? {
      IterateTotal(step, step(m).m, n - 1);
    }
  }

  /** Over any number of steps the running total grows by exactly the
      cycles the steps returned. */
  lemma RunTotal(v: Variant, m: Machine, n: nat)
    ensures Run(v, m, n).Stepped? ==> Run(v, m, n).m.totalCycles == m.totalCycles + Run(v, m, n).cycles
  {
    forall x | Step(v, x).Stepped?
      ensures Step(v, x).m.totalCycles == x.totalCycles + Step(v, x).cycles
    {
      StepTotal(v, x);
    }
    IterateTotal(x => Step(v, x), m, n);
  }

  /** A step that succeeds adds the cycles it returns to the total. */
  lemma StepTotal(v: Variant, m: Machine)
    requires Step(v, m).Stepped?
    ensures Step(v, m).m.totalCycles == m.totalCycles + Step(v, m).cycles
  {
    StepIllegal(v, m);
    StepCycles(v, m);
  }

  /** The handler LDA runs. */
  lemma LdaExecutes(m: Machine, t: Target)
    ensures Execute(LDA, m, t) == LoadA(m, Operand(m, t))
  {
    assert FamilyOf(LDA) == LoadFamily;
    assert OperandFamily(LoadFamily);
    assert ExecuteOnOperand(LDA, m, t) == LoadOps(LDA, m, t);
  }

  /** The handler STA runs. */
  lemma StaExecutes(m: Machine, t: Target)
    ensures Execute(STA, m, t) == Store(m, t, m.a)
  {
    assert FamilyOf(STA) == StoreFamily;
    assert OperandFamily(StoreFamily);
    assert ExecuteOnOperand(STA, m, t) == StoreOps(STA, m, t);
  }

  /** The table entries of opcodes 0xA9 (LDA immediate), 0x85 (STA zero
      page) and 0xA5 (LDA zero page). */
  const LdaImmediateEntry := Entry(LDA, Immediate, 2, false)
  const StaZeroPageEntry := Entry(STA, ZeroPage, 3, false)
  const LdaZeroPageEntry := Entry(LDA, ZeroPage, 3, false)

  /** LDA immediate as one `step`: A is the byte after the opcode, 2 cycles,
      memory kept. */
  lemma LdaImmediateStep(v: Variant, m: Machine)
    requires Read(m, m.pc) == 0xA9
    ensures Step(v, m).Stepped? && Step(v, m).cycles == 2
    ensures Step(v, m).m.a == Read(m, Wrap16(m.pc as int + 1))
    ensures Step(v, m).m.pc == Wrap16(Wrap16(m.pc as int + 1) as int + 1)
    ensures Step(v, m).m.mem == m.mem
    ensures Step(v, m).m.totalCycles == m.totalCycles + 2
  {
    assert Opcodes.Decode(v, 0xA9) == Some(LdaImmediateEntry);
    StepDecoded(v, m, LdaImmediateEntry);
    var f := Fetch(m);
    FetchFacts(m);
    LdaExecutes(NextPc(f, 1), At(f.pc));
  }

  /** STA zero page as one `step`: A is written at the address the byte after
      the opcode names, 3 cycles, registers kept. */
  lemma StaZeroPageStep(v: Variant, m: Machine)
    requires Read(m, m.pc) == 0x85
    ensures Step(v, m).Stepped? && Step(v, m).cycles == 3
    ensures Step(v, m).m.mem == m.mem[Read(m, Wrap16(m.pc as int + 1)) as word := m.a]
    ensures Step(v, m).m.pc == Wrap16(Wrap16(m.pc as int + 1) as int + 1)
    ensures Step(v, m).m.a == m.a
    ensures Step(v, m).m.totalCycles == m.totalCycles + 3
  {
    assert Opcodes.Decode(v, 0x85) == Some(StaZeroPageEntry);
    StepDecoded(v, m, StaZeroPageEntry);
    var f := Fetch(m);
    FetchFacts(m);
    var zp := Read(f, f.pc);
    assert Wrap8(zp as int + 0) == zp;
    StaExecutes(NextPc(f, 1), At(zp as word));
  }

  /** LDA zero page as one `step`: A is the byte at the address the byte
      after the opcode names, 3 cycles, memory kept. */
  lemma LdaZeroPageStep(v: Variant, m: Machine)
    requires Read(m, m.pc) == 0xA5
    ensures Step(v, m).Stepped? && Step(v, m).cycles == 3
    ensures Step(v, m).m.a == Read(m, Read(m, Wrap16(m.pc as int + 1)) as word)
    ensures Step(v, m).m.pc == Wrap16(Wrap16(m.pc as int + 1) as int + 1)
    ensures Step(v, m).m.mem == m.mem
    ensures Step(v, m).m.totalCycles == m.totalCycles + 3
  {
    assert Opcodes.Decode(v, 0xA5) == Some(LdaZeroPageEntry);
    StepDecoded(v, m, LdaZeroPageEntry);
    var f := Fetch(m);
    FetchFacts(m);
    var zp := Read(f, f.pc);
    assert Wrap8(zp as int + 0) == zp;
    LdaExecutes(NextPc(f, 1), At(zp as word));
  }

  /** The program `LDA #$05; STA $10; LDA $10` (0xA9 0x05 0x85 0x10 0xA5
      0x10) at PC, clear of address 0x0010 and of the end of memory. */
  predicate LoadStoreLoadAt(m: Machine)
  {
    && 0x10 < m.pc <= 0xFFF9
    && Read(m, m.pc) == 0xA9 && Read(m, m.pc + 1) == 0x05
    && Read(m, m.pc + 2) == 0x85 && Read(m, m.pc + 3) == 0x10
    && Read(m, m.pc + 4) == 0xA5 && Read(m, m.pc + 5) == 0x10
  }

  /** Three steps of `LDA #$05; STA $10; LDA $10` take 2 + 3 + 3 = 8 cycles,
      all added to the total, and leave A = 0x05, the byte at 0x0010 = 0x05
      and PC past the program. */
  lemma LoadStoreLoad(v: Variant, m: Machine)
    requires LoadStoreLoadAt(m)
    ensures Run(v, m, 3).Stepped? && Run(v, m, 3).cycles == 8
    ensures Run(v, m, 3).m.a == 0x05 && Read(Run(v, m, 3).m, 0x0010) == 0x05
    ensures Run(v, m, 3).m.pc == m.pc + 6
    ensures Run(v, m, 3).m.totalCycles == m.totalCycles + 8
  {
    var m1, m2, m3 := LoadStoreLoadSteps(v, m);
    assert Run(v, m3, 0) == Stepped(m3, 0);
    RunCons(v, m2, 0, m3, 3);
    RunCons(v, m1, 1, m2, 3);
    RunCons(v, m, 2, m1, 2);
    RunTotal(v, m, 3);
  }

  /** The three machines the program passes through, one `step` apart. */
  lemma LoadStoreLoadSteps(v: Variant, m: Machine) returns (m1: Machine, m2: Machine, m3: Machine)
    requires LoadStoreLoadAt(m)
    ensures Step(v, m) == Stepped(m1, 2) && Step(v, m1) == Stepped(m2, 3) && Step(v, m2) == Stepped(m3, 3)
    ensures m3.a == 0x05 && Read(m3, 0x0010) == 0x05 && m3.pc == m.pc + 6
  {
    m1 := ProgramFirstStep(v, m);
    m2 := ProgramSecondStep(v, m, m1);
    m3 := ProgramThirdStep(v, m, m2);
  }

  /** `LDA #$05`: A = 0x05, PC two bytes on, memory kept. */
  lemma ProgramFirstStep(v: Variant, m: Machine) returns (m1: Machine)
    requires LoadStoreLoadAt(m)
    ensures Step(v, m) == Stepped(m1, 2)
    ensures m1.a == 0x05 && m1.pc == m.pc + 2 && m1.mem == m.mem
  {
    LdaImmediateStep(v, m);
    m1 := Step(v, m).m;
    assert Wrap16(m.pc as int + 1) == m.pc + 1;
  }

  /** `STA $10`: the byte at 0x0010 becomes 0x05, PC two bytes on. */
  lemma ProgramSecondStep(v: Variant, m: Machine, m1: Machine) returns (m2: Machine)
    requires LoadStoreLoadAt(m)
    requires m1.a == 0x05 && m1.pc == m.pc + 2 && m1.mem == m.mem
    ensures Step(v, m1) == Stepped(m2, 3)
    ensures m2.pc == m.pc + 4 && m2.mem == m.mem[0x10 := 0x05]
  {
    assert Read(m1, m1.pc) == 0x85;
    assert Wrap16(m1.pc as int + 1) == m.pc + 3;
    assert Read(m1, Wrap16(m1.pc as int + 1)) == 0x10;
    StaZeroPageStep(v, m1);
    m2 := Step(v, m1).m;
  }

  /** `LDA $10`: A = 0x05 read back, PC past the program. */
  lemma ProgramThirdStep(v: Variant, m: Machine, m2: Machine) returns (m3: Machine)
    requires LoadStoreLoadAt(m)
    requires m2.pc == m.pc + 4 && m2.mem == m.mem[0x10 := 0x05]
    ensures Step(v, m2) == Stepped(m3, 3)
    ensures m3.a == 0x05 && Read(m3, 0x0010) == 0x05 && m3.pc == m.pc + 6
  {
    assert Read(m2, m2.pc) == 0xA5;
    assert Wrap16(m2.pc as int + 1) == m.pc + 5;
    assert Read(m2, m.pc + 5) == 0x10;
    LdaZeroPageStep(v, m2);
    m3 := Step(v, m2).m;
  }

  /** The same program from the Rust `reset(Some(start))`: the total starts
      at 7 and ends at 15. */
  lemma LoadStoreLoadFromReset(m: Machine, start: word)
    requires LoadStoreLoadAt(m.(pc := start))
    ensures Run(Rust, Reset(Rust, m, Some(start)), 3).Stepped?
    ensures Run(Rust, Reset(Rust, m, Some(start)), 3).m.a == 0x05
    ensures Read(Run(Rust, Reset(Rust, m, Some(start)), 3).m, 0x0010) == 0x05
    ensures Run(Rust, Reset(Rust, m, Some(start)), 3).m.totalCycles == 15
  {
    var r := Reset(Rust, m, Some(start));
    assert r.mem == m.mem && r.pc == start && r.totalCycles == 7;
    LoadStoreLoad(Rust, r);
  }
}

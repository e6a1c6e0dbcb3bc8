/** The processor as the source keeps it: an object whose register fields,
    counters and page-crossed flag every handler updates in place, over a
    64 KiB memory array that stores and stack pushes write into. Each method
    is proved to leave the object in the state the corresponding function of
    `Semantics` describes, so every property proved in `CpuProperties` about
    those functions holds of the object. */
module Processor {
  import opened Bytes
  import opened Status
  import opened Alu
  import opened Opcodes
  import opened Results
  import opened Semantics

  class Cpu {
    var a: byte
    var x: byte
    var y: byte
    var p: Flags
    var sp: byte
    var pc: word
    /** The flat memory the processor reads and writes through its bus. */
    const mem: array<byte>
    var currCycles: nat
    var totalCycles: nat
    var pageCrossed: bool

    predicate Valid()
    {
      mem.Length == 0x1_0000
    }

    /** The object read as a `Semantics.Machine` value. */
    function State(): Machine
      reads this, mem
      requires Valid()
    {
      Machine(a, x, y, p, sp, pc, mem[..], currCycles, totalCycles, pageCrossed)
    }

    /** `Cpu::new`: every register, counter and flag zero, over the given memory. */
    constructor (init: Memory)
      ensures Valid() && fresh(mem)
      ensures State() == Machine(0, 0, 0, FromByte(0), 0, 0, init, 0, 0, false)
    {
      a, x, y, sp, pc := 0, 0, 0, 0, 0;
      p := FromByte(0);
      currCycles, totalCycles, pageCrossed := 0, 0, false;
      mem := new byte[0x1_0000](i requires 0 <= i < 0x1_0000 => init[i]);
      new;
      assert mem[..] == init;
    }

    /** The byte at an address. */
    method ReadByte(addr: word) returns (v: byte)
      requires Valid()
      ensures v == Read(State(), addr)
    {
      v := mem[addr];
    }

    /** Two consecutive bytes as a little-endian word. */
    method ReadWordAt(addr: word) returns (w: word)
      requires Valid()
      ensures w == ReadWord(State(), addr)
    {
      var lo := mem[addr];
      var hi := mem[Wrap16(addr as int + 1)];
      w := MakeWord(lo, hi);
    }

    /** `read_address_around_page`: the high byte comes from the start of the
        same page when the pointer's second byte would be on the next one. */
    method ReadAroundPage(addr: word) returns (w: word)
      requires Valid()
      ensures w == ReadWrapped(State(), addr)
    {
      var lo := mem[addr];
      var hi: byte;
      if PageCrossed(addr, Wrap16(addr as int + 1)) {
        hi := mem[MakeWord(0, Hi(addr))];
      } else {
        hi := mem[Wrap16(addr as int + 1)];
      }
      w := MakeWord(lo, hi);
    }

    /** `push_stack`. */
    method PushStack(v: byte)
      requires Valid()
      modifies this, mem
      ensures State() == Semantics.Push(old(State()), v)
    {
      mem[StackBase + sp as word] := v;
      sp := Wrap8(sp as int - 1);
    }

    /** `pop_stack`. */
    method PopStack() returns (v: byte)
      requires Valid()
      modifies this
      ensures Popped(State(), v) == Semantics.Pop(old(State()))
    {
      sp := Wrap8(sp as int + 1);
      v := mem[StackBase + sp as word];
    }

    /** `get_operand`. */
    method GetOperand(t: Target) returns (v: byte)
      requires Valid()
      ensures v == Operand(State(), t)
    {
      match t
      case InA => v := a;
      case At(addr) => v := mem[addr];
      case NoTarget => v := 0;
    }

    /** `store`. */
    method StoreTo(t: Target, v: byte)
      requires Valid()
      modifies this, mem
      ensures State() == Semantics.Store(old(State()), t, v)
    {
      match t
      case InA => a := v;
      case At(addr) => mem[addr] := v;
      case NoTarget =>
    }

    /** `resolve_zeropage`: the operand byte plus the index, within page zero. */
    method ResolveZeroPage(index: byte) returns (t: Target)
      requires Valid()
      modifies this
      ensures Resolved(State(), t) == Semantics.ResolveZeroPage(old(State()), index)
    {
      var base := mem[pc];
      pc := Wrap16(pc as int + 1);
      t := At(Wrap8(base as int + index as int) as word);
    }

    /** `resolve_absolute`: the operand word plus the index, recording a page crossing. */
    method ResolveAbsolute(index: byte) returns (t: Target)
      requires Valid()
      modifies this
      ensures Resolved(State(), t) == Semantics.ResolveAbsolute(old(State()), index)
    {
      var base := ReadWordAt(pc);
      pc := Wrap16(pc as int + 2);
      var effective := Wrap16(base as int + index as int);
      pageCrossed := PageCrossed(base, effective);
      t := At(effective);
    }

    /** `resolve_indirect`. */
    method ResolveIndirect() returns (t: Target)
      requires Valid()
      modifies this
      ensures Resolved(State(), t) == Semantics.ResolveIndirect(old(State()))
    {
      var pointer := ReadWordAt(pc);
      pc := Wrap16(pc as int + 2);
      var effective := ReadAroundPage(pointer);
      t := At(effective);
    }

    /** `resolve_indirect_x`. */
    method ResolveIndirectX() returns (t: Target)
      requires Valid()
      modifies this
      ensures Resolved(State(), t) == Semantics.ResolveIndirectX(old(State()))
    {
      var base := mem[pc];
      pc := Wrap16(pc as int + 1);
      var effective := ReadAroundPage(Wrap8(base as int + x as int) as word);
      t := At(effective);
    }

    /** `resolve_indirect_y`. */
    method ResolveIndirectY() returns (t: Target)
      requires Valid()
      modifies this
      ensures Resolved(State(), t) == Semantics.ResolveIndirectY(old(State()))
    {
      var pointer := mem[pc];
      pc := Wrap16(pc as int + 1);
      var base := ReadAroundPage(pointer as word);
      var effective := Wrap16(base as int + y as int);
      pageCrossed := PageCrossed(base, effective);
      t := At(effective);
    }

    /** The resolution `step` runs for the entry's addressing mode. */
    method ResolveOperand(mode: Mode) returns (t: Target)
      requires Valid()
      modifies this
      ensures Resolved(State(), t) == Semantics.Resolve(old(State()), mode)
    {
      match mode
      case Accumulator => t := InA;
      case Implied => t := NoTarget;
      case Immediate =>
        t := At(pc);
        pc := Wrap16(pc as int + 1);
      case Relative =>
        t := At(pc);
        pc := Wrap16(pc as int + 1);
      case ZeroPage => t := ResolveZeroPage(0);
      case ZeroPageX => t := ResolveZeroPage(x);
      case ZeroPageY => t := ResolveZeroPage(y);
      case Absolute => t := ResolveAbsolute(0);
      case AbsoluteX => t := ResolveAbsolute(x);
      case AbsoluteY => t := ResolveAbsolute(y);
      case Indirect => t := ResolveIndirect();
      case IndirectX => t := ResolveIndirectX();
      case IndirectY => t := ResolveIndirectY();
    }
    /** `adc_`: the 9-bit sum of A, the operand and Carry sets Carry,
        Overflow, Zero and Negative and its low byte becomes A. */
    method AddWithCarryToA(operand: byte)
      requires Valid()
      modifies this
      ensures State() == AddToA(old(State()), AddWithCarry(old(a), operand, old(p).carry))
    {
      var s := AddWithCarry(a, operand, p.carry);
      p := SetNZ(p.(carry := s.carry, overflow := s.overflow), s.value);
      a := s.value;
    }

    /** `adc`: `adc_` of the operand. */
    method Adc(t: Target)
      requires Valid()
      modifies this
      ensures State() == AddToA(old(State()), AddWithCarry(old(a), Operand(old(State()), t), old(p).carry))
    {
      var operand := GetOperand(t);
      AddWithCarryToA(operand);
    }

    /** `sbc`: `adc_` of the operand's ones' complement. */
    method Sbc(t: Target)
      requires Valid()
      modifies this
      ensures State() == AddToA(old(State()), SubtractWithBorrow(old(a), Operand(old(State()), t), old(p).carry))
    {
      var operand := GetOperand(t);
      AddWithCarryToA(OnesComplement(operand));
    }

    /** `and`: `A &= operand`, then Zero and Negative from A. */
    method And(t: Target)
      requires Valid()
      modifies this
      ensures State() == Logic(old(State()), BitOp.And, t)
    {
      var operand := GetOperand(t);
      a := Bitwise(BitOp.And, a, operand);
      p := SetNZ(p, a);
    }

    /** `ora`: `A |= operand`, then Zero and Negative from A. */
    method Ora(t: Target)
      requires Valid()
      modifies this
      ensures State() == Logic(old(State()), BitOp.Or, t)
    {
      var operand := GetOperand(t);
      a := Bitwise(BitOp.Or, a, operand);
      p := SetNZ(p, a);
    }

    /** `eor`: `A ^= operand`, then Zero and Negative from A. */
    method Eor(t: Target)
      requires Valid()
      modifies this
      ensures State() == Logic(old(State()), BitOp.Xor, t)
    {
      var operand := GetOperand(t);
      a := Bitwise(BitOp.Xor, a, operand);
      p := SetNZ(p, a);
    }

    /** `bit`. */
    method Bit(t: Target)
      requires Valid()
      modifies this
      ensures State() == old(State()).(p := BitTest(old(p), old(a), Operand(old(State()), t)))
    {
      var operand := GetOperand(t);
      p := BitTest(p, a, operand);
    }

    /** `asl`: Carry from the bit shifted out, Zero and Negative from the result, which is stored back. */
    method Asl(t: Target)
      requires Valid()
      modifies this, mem
      ensures State() == ShiftOp(old(State()), t, ShiftLeft(Operand(old(State()), t)))
    {
      var operand := GetOperand(t);
      var s := ShiftLeft(operand);
      p := SetNZ(p.(carry := s.carry), s.value);
      StoreTo(t, s.value);
    }

    /** `lsr`: Carry from the bit shifted out, Zero and Negative from the result, which is stored back. */
    method Lsr(t: Target)
      requires Valid()
      modifies this, mem
      ensures State() == ShiftOp(old(State()), t, ShiftRight(Operand(old(State()), t)))
    {
      var operand := GetOperand(t);
      var s := ShiftRight(operand);
      p := SetNZ(p.(carry := s.carry), s.value);
      StoreTo(t, s.value);
    }

    /** `rol`: Carry from the bit shifted out, Zero and Negative from the result, which is stored back. */
    method Rol(t: Target)
      requires Valid()
      modifies this, mem
      ensures State() == ShiftOp(old(State()), t, RotateLeft(Operand(old(State()), t), old(p).carry))
    {
      var operand := GetOperand(t);
      var s := RotateLeft(operand, p.carry);
      p := SetNZ(p.(carry := s.carry), s.value);
      StoreTo(t, s.value);
    }

    /** `ror`: Carry from the bit shifted out, Zero and Negative from the result, which is stored back. */
    method Ror(t: Target)
      requires Valid()
      modifies this, mem
      ensures State() == ShiftOp(old(State()), t, RotateRight(Operand(old(State()), t), old(p).carry))
    {
      var operand := GetOperand(t);
      var s := RotateRight(operand, p.carry);
      p := SetNZ(p.(carry := s.carry), s.value);
      StoreTo(t, s.value);
    }

    /** `cmp`: `cmp_` with A. */
    method Cmp(t: Target)
      requires Valid()
      modifies this
      ensures State() == old(State()).(p := Compare(old(p), old(a), Operand(old(State()), t)))
    {
      var operand := GetOperand(t);
      p := SetNZ(p.(carry := a >= operand), Wrap8(a as int - operand as int));
    }

    /** `cpx`: `cmp_` with X. */
    method Cpx(t: Target)
      requires Valid()
      modifies this
      ensures State() == old(State()).(p := Compare(old(p), old(x), Operand(old(State()), t)))
    {
      var operand := GetOperand(t);
      p := SetNZ(p.(carry := x >= operand), Wrap8(x as int - operand as int));
    }

    /** `cpy`: `cmp_` with Y. */
    method Cpy(t: Target)
      requires Valid()
      modifies this
      ensures State() == old(State()).(p := Compare(old(p), old(y), Operand(old(State()), t)))
    {
      var operand := GetOperand(t);
      p := SetNZ(p.(carry := y >= operand), Wrap8(y as int - operand as int));
    }

    /** `inc`: the operand plus one modulo 256, stored back. */
    method Inc(t: Target)
      requires Valid()
      modifies this, mem
      ensures State() == StepMemory(old(State()), t, 1)
    {
      var operand := GetOperand(t);
      var result := Wrap8(operand as int + 1);
      p := SetNZ(p, result);
      StoreTo(t, result);
    }

    /** `dec`: the operand minus one modulo 256, stored back. */
    method Dec(t: Target)
      requires Valid()
      modifies this, mem
      ensures State() == StepMemory(old(State()), t, -1)
    {
      var operand := GetOperand(t);
      var result := Wrap8(operand as int - 1);
      p := SetNZ(p, result);
      StoreTo(t, result);
    }

    /** `inx`. */
    method Inx()
      requires Valid()
      modifies this
      ensures State() == LoadX(old(State()), Wrap8(old(x) as int + 1))
    {
      x := Wrap8(x as int + 1);
      p := SetNZ(p, x);
    }

    /** `dex`. */
    method Dex()
      requires Valid()
      modifies this
      ensures State() == LoadX(old(State()), Wrap8(old(x) as int - 1))
    {
      x := Wrap8(x as int - 1);
      p := SetNZ(p, x);
    }

    /** `iny`. */
    method Iny()
      requires Valid()
      modifies this
      ensures State() == LoadY(old(State()), Wrap8(old(y) as int + 1))
    {
      y := Wrap8(y as int + 1);
      p := SetNZ(p, y);
    }

    /** `dey`. */
    method Dey()
      requires Valid()
      modifies this
      ensures State() == LoadY(old(State()), Wrap8(old(y) as int - 1))
    {
      y := Wrap8(y as int - 1);
      p := SetNZ(p, y);
    }

    /** `lda`. */
    method Lda(t: Target)
      requires Valid()
      modifies this
      ensures State() == LoadA(old(State()), Operand(old(State()), t))
    {
      a := GetOperand(t);
      p := SetNZ(p, a);
    }

    /** `ldx`. */
    method Ldx(t: Target)
      requires Valid()
      modifies this
      ensures State() == LoadX(old(State()), Operand(old(State()), t))
    {
      x := GetOperand(t);
      p := SetNZ(p, x);
    }

    /** `ldy`. */
    method Ldy(t: Target)
      requires Valid()
      modifies this
      ensures State() == LoadY(old(State()), Operand(old(State()), t))
    {
      y := GetOperand(t);
      p := SetNZ(p, y);
    }

    /** `sta`. */
    method Sta(t: Target)
      requires Valid()
      modifies this, mem
      ensures State() == Semantics.Store(old(State()), t, old(a))
    {
      StoreTo(t, a);
    }

    /** `stx`. */
    method Stx(t: Target)
      requires Valid()
      modifies this, mem
      ensures State() == Semantics.Store(old(State()), t, old(x))
    {
      StoreTo(t, x);
    }

    /** `sty`. */
    method Sty(t: Target)
      requires Valid()
      modifies this, mem
      ensures State() == Semantics.Store(old(State()), t, old(y))
    {
      StoreTo(t, y);
    }

    /** `tax`. */
    method Tax()
      requires Valid()
      modifies this
      ensures State() == LoadX(old(State()), old(a))
    {
      x := a;
      p := SetNZ(p, x);
    }

    /** `tay`. */
    method Tay()
      requires Valid()
      modifies this
      ensures State() == LoadY(old(State()), old(a))
    {
      y := a;
      p := SetNZ(p, y);
    }

    /** `tsx`. */
    method Tsx()
      requires Valid()
      modifies this
      ensures State() == LoadX(old(State()), old(sp))
    {
      x := sp;
      p := SetNZ(p, x);
    }

    /** `txa`. */
    method Txa()
      requires Valid()
      modifies this
      ensures State() == LoadA(old(State()), old(x))
    {
      a := x;
      p := SetNZ(p, a);
    }

    /** `tya`. */
    method Tya()
      requires Valid()
      modifies this
      ensures State() == LoadA(old(State()), old(y))
    {
      a := y;
      p := SetNZ(p, a);
    }

    /** `txs`: the one transfer that leaves the flags alone. */
    method Txs()
      requires Valid()
      modifies this
      ensures State() == old(State()).(sp := old(x))
    {
      sp := x;
    }

    /** `clc`. */
    method Clc()
      requires Valid()
      modifies this
      ensures State() == old(State()).(p := old(p).(carry := false))
    {
      p := p.(carry := false);
    }

    /** `sec`. */
    method Sec()
      requires Valid()
      modifies this
      ensures State() == old(State()).(p := old(p).(carry := true))
    {
      p := p.(carry := true);
    }

    /** `cli`. */
    method Cli()
      requires Valid()
      modifies this
      ensures State() == old(State()).(p := old(p).(interrupt := false))
    {
      p := p.(interrupt := false);
    }

    /** `sei`. */
    method Sei()
      requires Valid()
      modifies this
      ensures State() == old(State()).(p := old(p).(interrupt := true))
    {
      p := p.(interrupt := true);
    }

    /** `clv`. */
    method Clv()
      requires Valid()
      modifies this
      ensures State() == old(State()).(p := old(p).(overflow := false))
    {
      p := p.(overflow := false);
    }

    /** `cld`. */
    method Cld()
      requires Valid()
      modifies this
      ensures State() == old(State()).(p := old(p).(decimal := false))
    {
      p := p.(decimal := false);
    }

    /** `sed`. */
    method Sed()
      requires Valid()
      modifies this
      ensures State() == old(State()).(p := old(p).(decimal := true))
    {
      p := p.(decimal := true);
    }

    /** `pha`. */
    method Pha()
      requires Valid()
      modifies this, mem
      ensures State() == Semantics.Push(old(State()), old(a))
    {
      PushStack(a);
    }

    /** `php`: P is pushed with Break set. */
    method Php()
      requires Valid()
      modifies this, mem
      ensures State() == Semantics.Push(old(State()), ToByte(old(p).(brk := true)))
    {
      PushStack(ToByte(p.(brk := true)));
    }

    /** `pla`. */
    method Pla()
      requires Valid()
      modifies this
      ensures State() == Semantics.Pla(old(State()))
    {
      a := PopStack();
      p := SetNZ(p, a);
    }

    /** `plp`: the pulled byte with Break cleared and Unused set. */
    method Plp()
      requires Valid()
      modifies this
      ensures State() == Semantics.Plp(old(State()))
    {
      var v := PopStack();
      p := FromByte(v).(brk := false, unused := true);
    }

    /** `jmp`. */
    method Jmp(t: Target)
      requires Valid()
      modifies this
      ensures State() == old(State()).(pc := TargetAddress(t))
    {
      pc := TargetAddress(t);
    }

    /** `jsr`: push PC - 1, high byte first, then jump. */
    method Jsr(t: Target)
      requires Valid()
      modifies this, mem
      ensures State() == Semantics.Jsr(old(State()), t)
    {
      var ret := Wrap16(pc as int - 1);
      PushStack(Hi(ret));
      PushStack(Lo(ret));
      pc := TargetAddress(t);
    }

    /** `rts`: pull the low and high bytes and resume one past them. */
    method Rts()
      requires Valid()
      modifies this
      ensures State() == Semantics.Rts(old(State()))
    {
      var lo := PopStack();
      var hi := PopStack();
      pc := Wrap16(MakeWord(lo, hi) as int + 1);
    }

    /** `brk`: push PC + 1 and P with Break set, set Interrupt and jump through the vector at 0xFFFE. */
    method Brk()
      requires Valid()
      modifies this, mem
      ensures State() == Semantics.Brk(old(State()))
    {
      var ret := Wrap16(pc as int + 1);
      PushStack(Hi(ret));
      PushStack(Lo(ret));
      PushStack(ToByte(p.(brk := true)));
      p := p.(interrupt := true);
      pc := ReadWordAt(IrqVector);
    }

    /** `rti`: pull P with Unused set, then PC low and high. */
    method Rti()
      requires Valid()
      modifies this
      ensures State() == Semantics.Rti(old(State()))
    {
      var status := PopStack();
      p := FromByte(status).(unused := true);
      var lo := PopStack();
      var hi := PopStack();
      pc := MakeWord(lo, hi);
    }

    /** `branch`: when the condition holds, one more cycle, the PC moves by the signed operand and the page-crossed flag records whether it left the page. */
    method BranchOn(t: Target, condition: bool)
      requires Valid()
      modifies this
      ensures State() == Semantics.Branch(old(State()), t, condition)
    {
      if condition {
        currCycles := currCycles + 1;
        var operand := GetOperand(t);
        var target := Wrap16(pc as int + Signed(operand));
        pageCrossed := PageCrossed(pc, target);
        pc := target;
      }
    }

    /** The handlers of ADC and SBC. */
    method ExecuteArithmetic(op: Op, t: Target)
      requires Valid()
      requires FamilyOf(op) == ArithmeticFamily
      modifies this
      ensures State() == Execute(op, old(State()), t)
    {
      ghost var m0 := State();
      assert Execute(op, m0, t) == ArithmeticOps(op, m0, t);
      if op == ADC {
        Adc(t);
      } else {
        Sbc(t);
      }
    }

    /** The handlers of AND, ORA, EOR and BIT. */
    method ExecuteLogic(op: Op, t: Target)
      requires Valid()
      requires FamilyOf(op) == LogicFamily
      modifies this
      ensures State() == Execute(op, old(State()), t)
    {
      ghost var m0 := State();
      assert Execute(op, m0, t) == LogicOps(op, m0, t);
      if op == AND {
        And(t);
      } else if op == ORA {
        Ora(t);
      } else if op == EOR {
        Eor(t);
      } else {
        Bit(t);
      }
    }

    /** The handlers of CMP, CPX and CPY. */
    method ExecuteCompare(op: Op, t: Target)
      requires Valid()
      requires FamilyOf(op) == CompareFamily
      modifies this
      ensures State() == Execute(op, old(State()), t)
    {
      ghost var m0 := State();
      assert Execute(op, m0, t) == CompareOps(op, m0, t);
      if op == CMP {
        Cmp(t);
      } else if op == CPX {
        Cpx(t);
      } else {
        Cpy(t);
      }
    }

    /** The handlers of ASL, LSR, ROL and ROR. */
    method ExecuteShift(op: Op, t: Target)
      requires Valid()
      requires FamilyOf(op) == ShiftFamily
      modifies this, mem
      ensures State() == Execute(op, old(State()), t)
    {
      ghost var m0 := State();
      assert Execute(op, m0, t) == ShiftOps(op, m0, t);
      if op == ASL {
        Asl(t);
      } else if op == LSR {
        Lsr(t);
      } else if op == ROL {
        Rol(t);
      } else {
        Ror(t);
      }
    }

    /** The handlers of INC, DEC, INX, DEX, INY and DEY. */
    method ExecuteCount(op: Op, t: Target)
      requires Valid()
      requires FamilyOf(op) == CountFamily
      modifies this, mem
      ensures State() == Execute(op, old(State()), t)
    {
      ghost var m0 := State();
      assert Execute(op, m0, t) == CountOps(op, m0, t);
      if op == INC {
        Inc(t);
      } else if op == DEC {
        Dec(t);
      } else if op == INX {
        Inx();
      } else if op == DEX {
        Dex();
      } else if op == INY {
        Iny();
      } else {
        Dey();
      }
    }

    /** The handlers of LDA, LDX and LDY. */
    method ExecuteLoad(op: Op, t: Target)
      requires Valid()
      requires FamilyOf(op) == LoadFamily
      modifies this
      ensures State() == Execute(op, old(State()), t)
    {
      ghost var m0 := State();
      assert Execute(op, m0, t) == LoadOps(op, m0, t);
      if op == LDA {
        Lda(t);
      } else if op == LDX {
        Ldx(t);
      } else {
        Ldy(t);
      }
    }

    /** The handlers of STA, STX and STY. */
    method ExecuteStore(op: Op, t: Target)
      requires Valid()
      requires FamilyOf(op) == StoreFamily
      modifies this, mem
      ensures State() == Execute(op, old(State()), t)
    {
      ghost var m0 := State();
      assert Execute(op, m0, t) == StoreOps(op, m0, t);
      if op == STA {
        Sta(t);
      } else if op == STX {
        Stx(t);
      } else {
        Sty(t);
      }
    }

    /** The handlers of TAX, TAY, TSX, TXA, TYA and TXS. */
    method ExecuteTransfer(op: Op, t: Target)
      requires Valid()
      requires FamilyOf(op) == TransferFamily
      modifies this
      ensures State() == Execute(op, old(State()), t)
    {
      ghost var m0 := State();
      assert Execute(op, m0, t) == TransferOps(op, m0);
      if op == TAX {
        Tax();
      } else if op == TAY {
        Tay();
      } else if op == TSX {
        Tsx();
      } else if op == TXA {
        Txa();
      } else if op == TYA {
        Tya();
      } else {
        Txs();
      }
    }

    /** The handlers of CLC, SEC, CLI, SEI, CLV, CLD and SED. */
    method ExecuteFlag(op: Op, t: Target)
      requires Valid()
      requires FamilyOf(op) == FlagFamily
      modifies this
      ensures State() == Execute(op, old(State()), t)
    {
      ghost var m0 := State();
      assert Execute(op, m0, t) == FlagOps(op, m0);
      if op == CLC {
        Clc();
      } else if op == SEC {
        Sec();
      } else if op == CLI {
        Cli();
      } else if op == SEI {
        Sei();
      } else if op == CLV {
        Clv();
      } else if op == CLD {
        Cld();
      } else {
        Sed();
      }
    }

    /** The handlers of PHA, PHP, PLA and PLP. */
    method ExecuteStack(op: Op, t: Target)
      requires Valid()
      requires FamilyOf(op) == StackFamily
      modifies this, mem
      ensures State() == Execute(op, old(State()), t)
    {
      ghost var m0 := State();
      assert Execute(op, m0, t) == StackOps(op, m0);
      if op == PHA {
        Pha();
      } else if op == PHP {
        Php();
      } else if op == PLA {
        Pla();
      } else {
        Plp();
      }
    }

    /** The handlers of JMP, JSR and RTS. */
    method ExecuteJump(op: Op, t: Target)
      requires Valid()
      requires FamilyOf(op) == JumpFamily
      modifies this, mem
      ensures State() == Execute(op, old(State()), t)
    {
      ghost var m0 := State();
      assert Execute(op, m0, t) == JumpOps(op, m0, t);
      if op == JMP {
        Jmp(t);
      } else if op == JSR {
        Jsr(t);
      } else {
        Rts();
      }
    }

    /** The handlers of BRK and RTI. */
    method ExecuteInterrupt(op: Op, t: Target)
      requires Valid()
      requires FamilyOf(op) == InterruptFamily
      modifies this, mem
      ensures State() == Execute(op, old(State()), t)
    {
      ghost var m0 := State();
      assert Execute(op, m0, t) == InterruptOps(op, m0);
      if op == BRK {
        Brk();
      } else {
        Rti();
      }
    }

    /** The eight branch handlers, each `branch` on the condition it tests. */
    method ExecuteBranch(op: Op, t: Target)
      requires Valid()
      requires FamilyOf(op) == BranchFamily
      modifies this
      ensures State() == Execute(op, old(State()), t)
    {
      BranchOn(t, BranchCondition(op, p));
    }

    /** `(instruction.func)(self)`: the handler of the decoded entry, run on
        the resolved operand. */
    method ExecuteOp(op: Op, t: Target)
      requires Valid()
      modifies this, mem
      ensures State() == Execute(op, old(State()), t)
    {
      if OperandFamily(FamilyOf(op)) {
        ExecuteOperandFamily(op, t);
      } else {
        ExecuteControlFamily(op, t);
      }
    }

    method ExecuteOperandFamily(op: Op, t: Target)
      requires Valid()
      requires OperandFamily(FamilyOf(op))
      modifies this, mem
      ensures State() == Execute(op, old(State()), t)
    {
      match FamilyOf(op)
      case ArithmeticFamily => ExecuteArithmetic(op, t);
      case LogicFamily => ExecuteLogic(op, t);
      case CompareFamily => ExecuteCompare(op, t);
      case ShiftFamily => ExecuteShift(op, t);
      case CountFamily => ExecuteCount(op, t);
      case LoadFamily => ExecuteLoad(op, t);
      case StoreFamily => ExecuteStore(op, t);
    }

    /** The other families; the eight branch handlers are `branch` on the
        condition each tests. */
    method ExecuteControlFamily(op: Op, t: Target)
      requires Valid()
      requires !OperandFamily(FamilyOf(op))
      modifies this, mem
      ensures State() == Execute(op, old(State()), t)
    {
      match FamilyOf(op)
      case TransferFamily => ExecuteTransfer(op, t);
      case FlagFamily => ExecuteFlag(op, t);
      case StackFamily => ExecuteStack(op, t);
      case JumpFamily => ExecuteJump(op, t);
      case InterruptFamily => ExecuteInterrupt(op, t);
      case BranchFamily => ExecuteBranch(op, t);
      case NopFamily =>
    }

    /** `step`: fetch the opcode at PC and decode it; an opcode without a
        handler is reported with the state as it was. Otherwise PC moves past
        the opcode, the operand is resolved, the handler runs, and the cycles
        (base, plus one for a page crossing the entry charges) are returned
        and added to the running total. */
    method Step(v: Variant) returns (r: Result<nat, byte>)
      requires Valid()
      modifies this, mem
      ensures match Semantics.Step(v, old(State()))
        case IllegalOpcode(opcode) => r == Err(opcode) && State() == old(State())
        case Stepped(m, cycles) => r == Ok(cycles) && State() == m
    {
      var opcode := mem[pc];
      match Opcodes.Decode(v, opcode)
      case None =>
        r := Err(opcode);
      case Some(e) =>
        ghost var fetched := Fetch(State());
        currCycles := 0;
        pc := Wrap16(pc as int + 1);
        assert State() == fetched;
        Perform(e);
        assert State() == Semantics.Perform(fetched, e);
        r := Ok(currCycles);
    }

    /** The part of `step` after the fetch, for a decoded entry. */
    method Perform(e: Entry)
      requires Valid()
      modifies this, mem
      ensures State() == Semantics.Perform(old(State()), e)
    {
      var t := ResolveOperand(e.mode);
      ExecuteOp(e.op, t);
      ChargeCycles(e);
      totalCycles := totalCycles + currCycles;
    }

    /** The base cycles of the entry, plus one when it charges for a page
        crossing and the handler set the flag, which is then cleared. */
    method ChargeCycles(e: Entry)
      requires Valid()
      modifies this
      ensures State() == Semantics.ChargeCycles(old(State()), e)
    {
      currCycles := currCycles + e.cycles;
      if e.checkPageCross && pageCrossed {
        currCycles := currCycles + 1;
        pageCrossed := false;
      }
    }

    /** `reset`: clear A, X and Y, set SP to 0xFD and P to Interrupt | Unused,
        load PC from the reset vector (or, in the Rust build, from the PC the
        caller passes) and charge the seven reset cycles. */
    method Reset(v: Variant, start: Option<word>)
      requires Valid()
      requires v == Cpp ==> start.None?
      modifies this
      ensures State() == Semantics.Reset(v, old(State()), start)
    {
      a := 0;
      x := 0;
      y := 0;
      sp := 0xFD;
      totalCycles := if v == Rust then 7 else totalCycles + 7;
      p := ResetFlags;
      if start.Some? {
        pc := start.value;
      } else {
        pc := ReadWordAt(ResetVector);
      }
    }
  }
}

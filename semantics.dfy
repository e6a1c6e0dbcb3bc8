/** The processor as a state machine over a flat 64 KiB memory: the machine
    state, the addressing-mode resolution, every instruction handler, `step`
    and `reset`. Each function here is the specification that the imperative
    `Processor.Cpu` methods are proved to implement, and the lemmas of
    `CpuProperties` are stated over them. Register arithmetic wraps modulo 256
    and 65536, as the C++ `uint8_t`/`uint16_t` fields do. */
module Semantics {
  import opened Bytes
  import opened Status
  import opened Alu
  import opened Opcodes
  import opened Results

  /** The 64 KiB address space the processor sees. */
  type Memory = s: seq<byte> | |s| == 0x1_0000 witness seq(0x1_0000, _ => 0)

  const StackBase: word := 0x0100
  const ResetVector: word := 0xFFFC
  const IrqVector: word := 0xFFFE

  /** The registers, the memory, the cycle counters and the persistent
      page-crossed flag. */
  datatype Machine = Machine(a: byte, x: byte, y: byte, p: Flags, sp: byte, pc: word,
                             mem: Memory, currCycles: nat, totalCycles: nat,
                             pageCrossed: bool)

  function Read(m: Machine, addr: word): byte
  {
    m.mem[addr]
  }

  function Write(m: Machine, addr: word, v: byte): Machine
  {
    m.(mem := m.mem[addr := v])
  }

  /** The little-endian word at `addr` and `addr + 1`, as `reset`, BRK and the
      absolute and indirect modes read it. */
  function ReadWord(m: Machine, addr: word): word
  {
    MakeWord(Read(m, addr), Read(m, Wrap16(addr as int + 1)))
  }

  /** Where `read_wrapped_page` / `read_address_around_page` fetch the high
      byte of a pointer: `addr & 0xFF00` when `addr + 1` is on another page,
      otherwise `addr + 1`. */
  function PointerHighAddress(addr: word): word
  {
    var next := Wrap16(addr as int + 1);
    if PageCrossed(addr, next) then MakeWord(0, Hi(addr)) else next
  }

  function ReadWrapped(m: Machine, addr: word): word
  {
    MakeWord(Read(m, addr), Read(m, PointerHighAddress(addr)))
  }

  /** Where a handler finds and puts its operand: the accumulator, a memory
      address, or nowhere for implied instructions. */
  datatype Target = InA | At(addr: word) | NoTarget

  datatype Resolved = Resolved(m: Machine, target: Target)

  function NextPc(m: Machine, n: nat): Machine
    requires n <= 2
  {
    m.(pc := Wrap16(m.pc as int + n))
  }

  /** `resolve_zeropage`: the operand byte plus the index, modulo 256. */
  function ResolveZeroPage(m: Machine, index: byte): Resolved
  {
    var base := Read(m, m.pc);
    Resolved(NextPc(m, 1), At(Wrap8(base as int + index as int) as word))
  }

  /** `resolve_absolute`: the operand word plus the index, modulo 65536;
      the page-crossed flag records whether the index carried into the high byte. */
  function ResolveAbsolute(m: Machine, index: byte): Resolved
  {
    var base := ReadWord(m, m.pc);
    var effective := Wrap16(base as int + index as int);
    Resolved(NextPc(m, 2).(pageCrossed := PageCrossed(base, effective)), At(effective))
  }

  /** `resolve_indirect` (JMP only): the pointer is the operand word. */
  function ResolveIndirect(m: Machine): Resolved
  {
    var pointer := ReadWord(m, m.pc);
    Resolved(NextPc(m, 2), At(ReadWrapped(m, pointer)))
  }

  /** `resolve_indirect_x` / `resolve_preindex_indirect`: the pointer is the
      operand byte plus X, modulo 256. */
  function ResolveIndirectX(m: Machine): Resolved
  {
    var zp := Wrap8(Read(m, m.pc) as int + m.x as int);
    Resolved(NextPc(m, 1), At(ReadWrapped(m, zp as word)))
  }

  /** `resolve_indirect_y` / `resolve_postindex_indirect`: the word at the
      zero-page pointer plus Y, modulo 65536, with the page-crossed flag. */
  function ResolveIndirectY(m: Machine): Resolved
  {
    var base := ReadWrapped(m, Read(m, m.pc) as word);
    var effective := Wrap16(base as int + m.y as int);
    Resolved(NextPc(m, 1).(pageCrossed := PageCrossed(base, effective)), At(effective))
  }

  /** The resolution `step`/`execute` runs before the handler. Immediate and
      relative operands are found at the address of the operand byte. */
  function Resolve(m: Machine, mode: Mode): Resolved
  {
    match mode
    case Accumulator => Resolved(m, InA)
    case Implied => Resolved(m, NoTarget)
    case Immediate => Resolved(NextPc(m, 1), At(m.pc))
    case Relative => Resolved(NextPc(m, 1), At(m.pc))
    case ZeroPage => ResolveZeroPage(m, 0)
    case ZeroPageX => ResolveZeroPage(m, m.x)
    case ZeroPageY => ResolveZeroPage(m, m.y)
    case Absolute => ResolveAbsolute(m, 0)
    case AbsoluteX => ResolveAbsolute(m, m.x)
    case AbsoluteY => ResolveAbsolute(m, m.y)
    case Indirect => ResolveIndirect(m)
    case IndirectX => ResolveIndirectX(m)
    case IndirectY => ResolveIndirectY(m)
  }

  /** `get_operand`: A in accumulator mode, otherwise the byte at the operand
      address. No table entry pairs an operand-reading handler with the implied
      mode (`Opcodes.TableWellFormed`), so the last case is never reached. */
  function Operand(m: Machine, t: Target): byte
  {
    match t
    case InA => m.a
    case At(addr) => Read(m, addr)
    case NoTarget => 0
  }

  /** `store`: to A in accumulator mode, otherwise to the operand address. */
  function Store(m: Machine, t: Target, v: byte): Machine
  {
    match t
    case InA => m.(a := v)
    case At(addr) => Write(m, addr, v)
    case NoTarget => m
  }

  function TargetAddress(t: Target): word
  {
    match t
    case At(addr) => addr
    case _ => 0
  }

  /** `push_stack`: write at `0x0100 | SP`, then decrement SP modulo 256. */
  function Push(m: Machine, v: byte): Machine
  {
    Write(m, StackBase + m.sp as word, v).(sp := Wrap8(m.sp as int - 1))
  }

  datatype Popped = Popped(m: Machine, value: byte)

  /** `pop_stack`: increment SP modulo 256, then read at `0x0100 | SP`. */
  function Pop(m: Machine): Popped
  {
    var sp := Wrap8(m.sp as int + 1);
    Popped(m.(sp := sp), Read(m, StackBase + sp as word))
  }

  /** Loads, transfers, increments and decrements of a register: the value
      goes to the register and sets Zero and Negative. */
  function LoadA(m: Machine, v: byte): Machine { m.(a := v, p := SetNZ(m.p, v)) }
  function LoadX(m: Machine, v: byte): Machine { m.(x := v, p := SetNZ(m.p, v)) }
  function LoadY(m: Machine, v: byte): Machine { m.(y := v, p := SetNZ(m.p, v)) }

  /** ORA, AND and EOR. */
  function Logic(m: Machine, op: BitOp, t: Target): Machine
  {
    LoadA(m, Bitwise(op, m.a, Operand(m, t)))
  }

  /** `adc_` applied to the outcome of the 9-bit sum. */
  function AddToA(m: Machine, s: Sum): Machine
  {
    m.(a := s.value, p := SetNZ(m.p.(carry := s.carry, overflow := s.overflow), s.value))
  }

  /** ASL, LSR, ROL and ROR: Carry from the bit shifted out, Zero and Negative
      from the result, which is stored back to A or to memory. */
  function ShiftOp(m: Machine, t: Target, s: Shifted): Machine
  {
    Store(m.(p := SetNZ(m.p.(carry := s.carry), s.value)), t, s.value)
  }

  /** INC and DEC: Zero and Negative from the result, stored back to memory. */
  function StepMemory(m: Machine, t: Target, delta: int): Machine
    requires -1 <= delta <= 1
  {
    var v := Wrap8(Operand(m, t) as int + delta);
    Store(m.(p := SetNZ(m.p, v)), t, v)
  }

  /** `branch`: when the condition holds, one more cycle, the PC moves by the
      signed operand modulo 65536, and the page-crossed flag records whether
      it left the page. */
  function Branch(m: Machine, t: Target, condition: bool): Machine
  {
    if !condition then m
    else
      var target := Wrap16(m.pc as int + Signed(Operand(m, t)));
      m.(currCycles := m.currCycles + 1, pageCrossed := PageCrossed(m.pc, target), pc := target)
  }

  /** The condition each branch tests. */
  function BranchCondition(op: Op, p: Flags): bool
    requires IsBranch(op)
  {
    match op
    case BPL => !p.negative
    case BMI => p.negative
    case BVC => !p.overflow
    case BVS => p.overflow
    case BCC => !p.carry
    case BCS => p.carry
    case BNE => !p.zero
    case BEQ => p.zero
  }

  /** JSR: push the address of the last operand byte (PC - 1), high byte
      first, and jump. */
  function Jsr(m: Machine, t: Target): Machine
  {
    var ret := Wrap16(m.pc as int - 1);
    Push(Push(m, Hi(ret)), Lo(ret)).(pc := TargetAddress(t))
  }

  /** RTS: pull the low and then the high byte and resume one past that address. */
  function Rts(m: Machine): Machine
  {
    var lo := Pop(m);
    var hi := Pop(lo.m);
    hi.m.(pc := Wrap16(MakeWord(lo.value, hi.value) as int + 1))
  }

  /** BRK: push PC + 1 (high byte first) and `P | BREAK`, set Interrupt and
      jump through the vector at 0xFFFE. */
  function Brk(m: Machine): Machine
  {
    var ret := Wrap16(m.pc as int + 1);
    var pushed := Push(Push(Push(m, Hi(ret)), Lo(ret)), ToByte(m.p.(brk := true)));
    pushed.(p := m.p.(interrupt := true), pc := ReadWord(pushed, IrqVector))
  }

  /** RTI: pull P (with Unused forced on), then the PC low and high bytes. */
  function Rti(m: Machine): Machine
  {
    var status := Pop(m);
    var lo := Pop(status.m);
    var hi := Pop(lo.m);
    hi.m.(p := FromByte(status.value).(unused := true), pc := MakeWord(lo.value, hi.value))
  }

  /** PLA: pull A and set Zero and Negative. */
  function Pla(m: Machine): Machine
  {
    var r := Pop(m);
    LoadA(r.m, r.value)
  }

  /** PLP: pull P with Break cleared and Unused set. */
  function Plp(m: Machine): Machine
  {
    var r := Pop(m);
    r.m.(p := FromByte(r.value).(brk := false, unused := true))
  }

  /** ADC and SBC. */
  function ArithmeticOps(op: Op, m: Machine, t: Target): Machine
    requires FamilyOf(op) == ArithmeticFamily
  {
    if op == ADC then AddToA(m, AddWithCarry(m.a, Operand(m, t), m.p.carry))
    else AddToA(m, SubtractWithBorrow(m.a, Operand(m, t), m.p.carry))
  }

  /** AND, ORA, EOR and BIT. */
  function LogicOps(op: Op, m: Machine, t: Target): Machine
    requires FamilyOf(op) == LogicFamily
  {
    if op == AND then Logic(m, And, t)
    else if op == ORA then Logic(m, Or, t)
    else if op == EOR then Logic(m, Xor, t)
    else m.(p := BitTest(m.p, m.a, Operand(m, t)))
  }

  /** CMP, CPX and CPY. */
  function CompareOps(op: Op, m: Machine, t: Target): Machine
    requires FamilyOf(op) == CompareFamily
  {
    if op == CMP then m.(p := Compare(m.p, m.a, Operand(m, t)))
    else if op == CPX then m.(p := Compare(m.p, m.x, Operand(m, t)))
    else m.(p := Compare(m.p, m.y, Operand(m, t)))
  }

  /** ASL, LSR, ROL and ROR. */
  function ShiftOps(op: Op, m: Machine, t: Target): Machine
    requires FamilyOf(op) == ShiftFamily
  {
    if op == ASL then ShiftOp(m, t, ShiftLeft(Operand(m, t)))
    else if op == LSR then ShiftOp(m, t, ShiftRight(Operand(m, t)))
    else if op == ROL then ShiftOp(m, t, RotateLeft(Operand(m, t), m.p.carry))
    else ShiftOp(m, t, RotateRight(Operand(m, t), m.p.carry))
  }

  /** INC, DEC, INX, DEX, INY and DEY. */
  function CountOps(op: Op, m: Machine, t: Target): Machine
    requires FamilyOf(op) == CountFamily
  {
    if op == INC then StepMemory(m, t, 1)
    else if op == DEC then StepMemory(m, t, -1)
    else if op == INX then LoadX(m, Wrap8(m.x as int + 1))
    else if op == DEX then LoadX(m, Wrap8(m.x as int - 1))
    else if op == INY then LoadY(m, Wrap8(m.y as int + 1))
    else LoadY(m, Wrap8(m.y as int - 1))
  }

  /** LDA, LDX and LDY. */
  function LoadOps(op: Op, m: Machine, t: Target): Machine
    requires FamilyOf(op) == LoadFamily
  {
    if op == LDA then LoadA(m, Operand(m, t))
    else if op == LDX then LoadX(m, Operand(m, t))
    else LoadY(m, Operand(m, t))
  }

  /** STA, STX and STY. */
  function StoreOps(op: Op, m: Machine, t: Target): Machine
    requires FamilyOf(op) == StoreFamily
  {
    if op == STA then Store(m, t, m.a)
    else if op == STX then Store(m, t, m.x)
    else Store(m, t, m.y)
  }

  /** TAX, TAY, TSX, TXA, TYA and TXS; only TXS leaves the flags alone. */
  function TransferOps(op: Op, m: Machine): Machine
    requires FamilyOf(op) == TransferFamily
  {
    if op == TAX then LoadX(m, m.a)
    else if op == TAY then LoadY(m, m.a)
    else if op == TSX then LoadX(m, m.sp)
    else if op == TXA then LoadA(m, m.x)
    else if op == TYA then LoadA(m, m.y)
    else m.(sp := m.x)
  }

  /** CLC, SEC, CLI, SEI, CLV, CLD and SED. */
  function FlagOps(op: Op, m: Machine): Machine
    requires FamilyOf(op) == FlagFamily
  {
    if op == CLC then m.(p := m.p.(carry := false))
    else if op == SEC then m.(p := m.p.(carry := true))
    else if op == CLI then m.(p := m.p.(interrupt := false))
    else if op == SEI then m.(p := m.p.(interrupt := true))
    else if op == CLV then m.(p := m.p.(overflow := false))
    else if op == CLD then m.(p := m.p.(decimal := false))
    else m.(p := m.p.(decimal := true))
  }

  /** PHA, PHP (P pushed with Break set), PLA and PLP. */
  function StackOps(op: Op, m: Machine): Machine
    requires FamilyOf(op) == StackFamily
  {
    if op == PHA then Push(m, m.a)
    else if op == PHP then Push(m, ToByte(m.p.(brk := true)))
    else if op == PLA then Pla(m)
    else Plp(m)
  }

  /** JMP, JSR and RTS. */
  function JumpOps(op: Op, m: Machine, t: Target): Machine
    requires FamilyOf(op) == JumpFamily
  {
    if op == JMP then m.(pc := TargetAddress(t))
    else if op == JSR then Jsr(m, t)
    else Rts(m)
  }

  /** BRK and RTI. */
  function InterruptOps(op: Op, m: Machine): Machine
    requires FamilyOf(op) == InterruptFamily
  {
    if op == BRK then Brk(m) else Rti(m)
  }

  /** The handler of each instruction, run on the resolved operand: the
      families that compute on an operand, then the others. */
  function Execute(op: Op, m: Machine, t: Target): Machine
  {
    if OperandFamily(FamilyOf(op)) then ExecuteOnOperand(op, m, t) else ExecuteControl(op, m, t)
  }

  function ExecuteOnOperand(op: Op, m: Machine, t: Target): Machine
    requires OperandFamily(FamilyOf(op))
  {
    match FamilyOf(op)
    case ArithmeticFamily => ArithmeticOps(op, m, t)
    case LogicFamily => LogicOps(op, m, t)
    case CompareFamily => CompareOps(op, m, t)
    case ShiftFamily => ShiftOps(op, m, t)
    case CountFamily => CountOps(op, m, t)
    case LoadFamily => LoadOps(op, m, t)
    case StoreFamily => StoreOps(op, m, t)
  }

  function ExecuteControl(op: Op, m: Machine, t: Target): Machine
    requires !OperandFamily(FamilyOf(op))
  {
    match FamilyOf(op)
    case TransferFamily => TransferOps(op, m)
    case FlagFamily => FlagOps(op, m)
    case StackFamily => StackOps(op, m)
    case JumpFamily => JumpOps(op, m, t)
    case InterruptFamily => InterruptOps(op, m)
    case BranchFamily => Branch(m, t, BranchCondition(op, m.p))
    case NopFamily => m
  }

  /** The base cycles plus one when the entry asks for the page-crossing
      penalty and the flag is set; the flag is then cleared. */
  function ChargeCycles(m: Machine, e: Entry): Machine
  {
    var charged := m.(currCycles := m.currCycles + e.cycles);
    if e.checkPageCross && charged.pageCrossed
    then charged.(currCycles := charged.currCycles + 1, pageCrossed := false)
    else charged
  }

  /** What one `step` does: the new machine and the cycles it returns, or the
      opcode byte that has no handler (a panic in the Rust build, a call
      through a null handler or past the table in the C++ build). */
  datatype Outcome = Stepped(m: Machine, cycles: nat) | IllegalOpcode(opcode: byte)

  /** The opcode fetch of `step`: the per-step cycle count starts at 0 and PC
      moves past the opcode byte. */
  function Fetch(m: Machine): Machine
  {
    NextPc(m.(currCycles := 0), 1)
  }

  /** The rest of `step` for a decoded entry: resolve the operand, run the
      handler, charge the cycles and add them to the running total. */
  function Perform(m: Machine, e: Entry): Machine
  {
    var r := Resolve(m, e.mode);
    var done := ChargeCycles(Execute(e.op, r.m, r.target), e);
    done.(totalCycles := done.totalCycles + done.currCycles)
  }

  /** `step` / `execute`: fetch the opcode at PC, decode it, and perform it;
      the result carries the cycles the instruction took. */
  function Step(v: Variant, m: Machine): Outcome
  {
    var opcode := Read(m, m.pc);
    match Opcodes.Decode(v, opcode)
    case None => IllegalOpcode(opcode)
    case Some(e) =>
      var done := Perform(Fetch(m), e);
      Stepped(done, done.currCycles)
  }

  /** `n` successive applications of a step function: the machine after the
      last one and the cycles they returned, added up. The first failed step
      ends the iteration. */
  function Iterate(step: Machine -> Outcome, m: Machine, n: nat): Outcome
    decreases n
  {
    if n == 0 then Stepped(m, 0)
    else
      var first := step(m);
      if first.IllegalOpcode? then first
      else
        var rest := Iterate(step, first.m, n - 1);
        if rest.IllegalOpcode? then rest else Stepped(rest.m, first.cycles + rest.cycles)
  }

  /** `n` successive `step`s, as the emulator's run loop makes them. The
      first opcode without a handler ends the run. */
  function Run(v: Variant, m: Machine, n: nat): Outcome
  {
    Iterate(x => Step(v, x), m, n)
  }

  /** `reset`: A = X = Y = 0, SP = 0xFD, P = Interrupt | Unused and PC from the
      reset vector, unless the Rust caller passes a PC to start from. The Rust
      build sets the cycle total to 7; the C++ build adds 7 to it. */
  function Reset(v: Variant, m: Machine, start: Option<word>): Machine
    requires v == Cpp ==> start.None?
  {
    var pc := match start
      case Some(addr) => addr
      case None => ReadWord(m, ResetVector);
    var total := match v
      case Rust => 7
      case Cpp => m.totalCycles + 7;
    m.(a := 0, x := 0, y := 0, sp := 0xFD, p := ResetFlags, pc := pc, totalCycles := total)
  }
}

/** The opcode table of the processor: for each of the 256 opcode bytes, the
    handler, the addressing mode, the base cycle count and whether a page
    crossing during address resolution costs one more cycle. The two
    implementations hold the same 151 entries; they differ in the cycles of BRK
    and in the size of the table. One table is written out here, transcribed
    from both sources; the variant picks BRK's cycles and the table's size. */
module Opcodes {
  import opened Bytes
  import opened Results

  /** Which implementation a definition follows where the two differ. */
  datatype Variant = Rust | Cpp

  /** The addressing modes; the operand of each is resolved before the handler runs. */
  datatype Mode =
      Accumulator | Implied | Immediate | Relative
    | ZeroPage | ZeroPageX | ZeroPageY
    | Absolute | AbsoluteX | AbsoluteY
    | Indirect | IndirectX | IndirectY

  /** The instruction handlers, one per mnemonic. */
  datatype Op =
      ADC | AND | ASL | BCC | BCS | BEQ | BIT | BMI | BNE | BPL | BRK | BVC | BVS | CLC
    | CLD | CLI | CLV | CMP | CPX | CPY | DEC | DEX | DEY | EOR | INC | INX | INY | JMP
    | JSR | LDA | LDX | LDY | LSR | NOP | ORA | PHA | PHP | PLA | PLP | ROL | ROR | RTI
    | RTS | SBC | SEC | SED | SEI | STA | STX | STY | TAX | TAY | TSX | TXA | TXS | TYA

  datatype Entry = Entry(op: Op, mode: Mode, cycles: nat, checkPageCross: bool)

  /** Number of entries in the table: `[Instruction; 0x100]` against `INSTRUCTIONS[0xFF]`. */
  function TableSize(v: Variant): nat
  {
    match v
    case Rust => 0x100
    case Cpp => 0xFF
  }

  /** Base cycles of BRK: 8 in the Rust table, 7 in the C++ one. */
  function BrkCycles(v: Variant): nat
  {
    match v
    case Rust => 8
    case Cpp => 7
  }

  /** The table entry for an opcode byte, or None for the 105 opcodes without a
      handler (the Rust `INVALID_INSTRUCTION`, the C++ empty entry with a null
      handler) and for an index past the end of the table. The table is listed
      in eight blocks of 32 opcodes. */
  function Decode(v: Variant, opcode: byte): Option<Entry>
  {
    if opcode as int >= TableSize(v) then None
    else if opcode < 0x20 then Row00(v, opcode)
    else if opcode < 0x40 then Row20(opcode)
    else if opcode < 0x60 then Row40(opcode)
    else if opcode < 0x80 then Row60(opcode)
    else if opcode < 0xA0 then Row80(opcode)
    else if opcode < 0xC0 then RowA0(opcode)
    else if opcode < 0xE0 then RowC0(opcode)
    else RowE0(opcode)
  }

  function Row00(v: Variant, opcode: byte): Option<Entry>
  {
    match opcode
    case 0x00 => Some(Entry(BRK, Implied, BrkCycles(v), false))
    case 0x01 => Some(Entry(ORA, IndirectX, 6, false))
    case 0x05 => Some(Entry(ORA, ZeroPage, 3, false))
    case 0x06 => Some(Entry(ASL, ZeroPage, 5, false))
    case 0x08 => Some(Entry(PHP, Implied, 3, false))
    case 0x09 => Some(Entry(ORA, Immediate, 2, false))
    case 0x0A => Some(Entry(ASL, Accumulator, 2, false))
    case 0x0D => Some(Entry(ORA, Absolute, 4, false))
    case 0x0E => Some(Entry(ASL, Absolute, 6, false))
    case 0x10 => Some(Entry(BPL, Relative, 2, false))
    case 0x11 => Some(Entry(ORA, IndirectY, 5, true))
    case 0x15 => Some(Entry(ORA, ZeroPageX, 4, false))
    case 0x16 => Some(Entry(ASL, ZeroPageX, 6, false))
    case 0x18 => Some(Entry(CLC, Implied, 2, false))
    case 0x19 => Some(Entry(ORA, AbsoluteY, 4, true))
    case 0x1D => Some(Entry(ORA, AbsoluteX, 4, true))
    case 0x1E => Some(Entry(ASL, AbsoluteX, 7, false))
    case _ => None
  }

  function Row20(opcode: byte): Option<Entry>
  {
    match opcode
    case 0x20 => Some(Entry(JSR, Absolute, 6, false))
    case 0x21 => Some(Entry(AND, IndirectX, 6, false))
    case 0x24 => Some(Entry(BIT, ZeroPage, 3, false))
    case 0x25 => Some(Entry(AND, ZeroPage, 3, false))
    case 0x26 => Some(Entry(ROL, ZeroPage, 5, false))
    case 0x28 => Some(Entry(PLP, Implied, 4, false))
    case 0x29 => Some(Entry(AND, Immediate, 2, false))
    case 0x2A => Some(Entry(ROL, Accumulator, 2, false))
    case 0x2C => Some(Entry(BIT, Absolute, 4, false))
    case 0x2D => Some(Entry(AND, Absolute, 4, false))
    case 0x2E => Some(Entry(ROL, Absolute, 6, false))
    case 0x30 => Some(Entry(BMI, Relative, 2, false))
    case 0x31 => Some(Entry(AND, IndirectY, 5, true))
    case 0x35 => Some(Entry(AND, ZeroPageX, 4, false))
    case 0x36 => Some(Entry(ROL, ZeroPageX, 6, false))
    case 0x38 => Some(Entry(SEC, Implied, 2, false))
    case 0x39 => Some(Entry(AND, AbsoluteY, 4, true))
    case 0x3D => Some(Entry(AND, AbsoluteX, 4, true))
    case 0x3E => Some(Entry(ROL, AbsoluteX, 7, false))
    case _ => None
  }

  function Row40(opcode: byte): Option<Entry>
  {
    match opcode
    case 0x40 => Some(Entry(RTI, Implied, 6, false))
    case 0x41 => Some(Entry(EOR, IndirectX, 6, false))
    case 0x45 => Some(Entry(EOR, ZeroPage, 3, false))
    case 0x46 => Some(Entry(LSR, ZeroPage, 5, false))
    case 0x48 => Some(Entry(PHA, Implied, 3, false))
    case 0x49 => Some(Entry(EOR, Immediate, 2, false))
    case 0x4A => Some(Entry(LSR, Accumulator, 2, false))
    case 0x4C => Some(Entry(JMP, Absolute, 3, false))
    case 0x4D => Some(Entry(EOR, Absolute, 4, false))
    case 0x4E => Some(Entry(LSR, Absolute, 6, false))
    case 0x50 => Some(Entry(BVC, Relative, 2, false))
    case 0x51 => Some(Entry(EOR, IndirectY, 5, true))
    case 0x55 => Some(Entry(EOR, ZeroPageX, 4, false))
    case 0x56 => Some(Entry(LSR, ZeroPageX, 6, false))
    case 0x58 => Some(Entry(CLI, Implied, 2, false))
    case 0x59 => Some(Entry(EOR, AbsoluteY, 4, true))
    case 0x5D => Some(Entry(EOR, AbsoluteX, 4, true))
    case 0x5E => Some(Entry(LSR, AbsoluteX, 7, false))
    case _ => None
  }

  function Row60(opcode: byte): Option<Entry>
  {
    match opcode
    case 0x60 => Some(Entry(RTS, Implied, 6, false))
    case 0x61 => Some(Entry(ADC, IndirectX, 6, false))
    case 0x65 => Some(Entry(ADC, ZeroPage, 3, false))
    case 0x66 => Some(Entry(ROR, ZeroPage, 5, false))
    case 0x68 => Some(Entry(PLA, Implied, 4, false))
    case 0x69 => Some(Entry(ADC, Immediate, 2, false))
    case 0x6A => Some(Entry(ROR, Accumulator, 2, false))
    case 0x6C => Some(Entry(JMP, Indirect, 5, false))
    case 0x6D => Some(Entry(ADC, Absolute, 4, false))
    case 0x6E => Some(Entry(ROR, Absolute, 6, false))
    case 0x70 => Some(Entry(BVS, Relative, 2, false))
    case 0x71 => Some(Entry(ADC, IndirectY, 5, true))
    case 0x75 => Some(Entry(ADC, ZeroPageX, 4, false))
    case 0x76 => Some(Entry(ROR, ZeroPageX, 6, false))
    case 0x78 => Some(Entry(SEI, Implied, 2, false))
    case 0x79 => Some(Entry(ADC, AbsoluteY, 4, true))
    case 0x7D => Some(Entry(ADC, AbsoluteX, 4, true))
    case 0x7E => Some(Entry(ROR, AbsoluteX, 7, false))
    case _ => None
  }

  function Row80(opcode: byte): Option<Entry>
  {
    match opcode
    case 0x81 => Some(Entry(STA, IndirectX, 6, false))
    case 0x84 => Some(Entry(STY, ZeroPage, 3, false))
    case 0x85 => Some(Entry(STA, ZeroPage, 3, false))
    case 0x86 => Some(Entry(STX, ZeroPage, 3, false))
    case 0x88 => Some(Entry(DEY, Implied, 2, false))
    case 0x8A => Some(Entry(TXA, Implied, 2, false))
    case 0x8C => Some(Entry(STY, Absolute, 4, false))
    case 0x8D => Some(Entry(STA, Absolute, 4, false))
    case 0x8E => Some(Entry(STX, Absolute, 4, false))
    case 0x90 => Some(Entry(BCC, Relative, 2, false))
    case 0x91 => Some(Entry(STA, IndirectY, 6, false))
    case 0x94 => Some(Entry(STY, ZeroPageX, 4, false))
    case 0x95 => Some(Entry(STA, ZeroPageX, 4, false))
    case 0x96 => Some(Entry(STX, ZeroPageY, 4, false))
    case 0x98 => Some(Entry(TYA, Implied, 2, false))
    case 0x99 => Some(Entry(STA, AbsoluteY, 5, false))
    case 0x9A => Some(Entry(TXS, Implied, 2, false))
    case 0x9D => Some(Entry(STA, AbsoluteX, 5, false))
    case _ => None
  }

  function RowA0(opcode: byte): Option<Entry>
  {
    match opcode
    case 0xA0 => Some(Entry(LDY, Immediate, 2, false))
    case 0xA1 => Some(Entry(LDA, IndirectX, 6, false))
    case 0xA2 => Some(Entry(LDX, Immediate, 2, false))
    case 0xA4 => Some(Entry(LDY, ZeroPage, 3, false))
    case 0xA5 => Some(Entry(LDA, ZeroPage, 3, false))
    case 0xA6 => Some(Entry(LDX, ZeroPage, 3, false))
    case 0xA8 => Some(Entry(TAY, Implied, 2, false))
    case 0xA9 => Some(Entry(LDA, Immediate, 2, false))
    case 0xAA => Some(Entry(TAX, Implied, 2, false))
    case 0xAC => Some(Entry(LDY, Absolute, 4, false))
    case 0xAD => Some(Entry(LDA, Absolute, 4, false))
    case 0xAE => Some(Entry(LDX, Absolute, 4, false))
    case 0xB0 => Some(Entry(BCS, Relative, 2, false))
    case 0xB1 => Some(Entry(LDA, IndirectY, 5, true))
    case 0xB4 => Some(Entry(LDY, ZeroPageX, 4, false))
    case 0xB5 => Some(Entry(LDA, ZeroPageX, 4, false))
    case 0xB6 => Some(Entry(LDX, ZeroPageY, 4, false))
    case 0xB8 => Some(Entry(CLV, Implied, 2, false))
    case 0xB9 => Some(Entry(LDA, AbsoluteY, 4, true))
    case 0xBA => Some(Entry(TSX, Implied, 2, false))
    case 0xBC => Some(Entry(LDY, AbsoluteX, 4, true))
    case 0xBD => Some(Entry(LDA, AbsoluteX, 4, true))
    case 0xBE => Some(Entry(LDX, AbsoluteY, 4, true))
    case _ => None
  }

  function RowC0(opcode: byte): Option<Entry>
  {
    match opcode
    case 0xC0 => Some(Entry(CPY, Immediate, 2, false))
    case 0xC1 => Some(Entry(CMP, IndirectX, 6, false))
    case 0xC4 => Some(Entry(CPY, ZeroPage, 3, false))
    case 0xC5 => Some(Entry(CMP, ZeroPage, 3, false))
    case 0xC6 => Some(Entry(DEC, ZeroPage, 5, false))
    case 0xC8 => Some(Entry(INY, Implied, 2, false))
    case 0xC9 => Some(Entry(CMP, Immediate, 2, false))
    case 0xCA => Some(Entry(DEX, Implied, 2, false))
    case 0xCC => Some(Entry(CPY, Absolute, 4, false))
    case 0xCD => Some(Entry(CMP, Absolute, 4, false))
    case 0xCE => Some(Entry(DEC, Absolute, 6, false))
    case 0xD0 => Some(Entry(BNE, Relative, 2, false))
    case 0xD1 => Some(Entry(CMP, IndirectY, 5, true))
    case 0xD5 => Some(Entry(CMP, ZeroPageX, 4, false))
    case 0xD6 => Some(Entry(DEC, ZeroPageX, 6, false))
    case 0xD8 => Some(Entry(CLD, Implied, 2, false))
    case 0xD9 => Some(Entry(CMP, AbsoluteY, 4, true))
    case 0xDD => Some(Entry(CMP, AbsoluteX, 4, true))
    case 0xDE => Some(Entry(DEC, AbsoluteX, 7, false))
    case _ => None
  }

  function RowE0(opcode: byte): Option<Entry>
  {
    match opcode
    case 0xE0 => Some(Entry(CPX, Immediate, 2, false))
    case 0xE1 => Some(Entry(SBC, IndirectX, 6, false))
    case 0xE4 => Some(Entry(CPX, ZeroPage, 3, false))
    case 0xE5 => Some(Entry(SBC, ZeroPage, 3, false))
    case 0xE6 => Some(Entry(INC, ZeroPage, 5, false))
    case 0xE8 => Some(Entry(INX, Implied, 2, false))
    case 0xE9 => Some(Entry(SBC, Immediate, 2, false))
    case 0xEA => Some(Entry(NOP, Implied, 2, false))
    case 0xEC => Some(Entry(CPX, Absolute, 4, false))
    case 0xED => Some(Entry(SBC, Absolute, 4, false))
    case 0xEE => Some(Entry(INC, Absolute, 6, false))
    case 0xF0 => Some(Entry(BEQ, Relative, 2, false))
    case 0xF1 => Some(Entry(SBC, IndirectY, 5, true))
    case 0xF5 => Some(Entry(SBC, ZeroPageX, 4, false))
    case 0xF6 => Some(Entry(INC, ZeroPageX, 6, false))
    case 0xF8 => Some(Entry(SED, Implied, 2, false))
    case 0xF9 => Some(Entry(SBC, AbsoluteY, 4, true))
    case 0xFD => Some(Entry(SBC, AbsoluteX, 4, true))
    case 0xFE => Some(Entry(INC, AbsoluteX, 7, false))
    case _ => None
  }

  /** The handler families the processor dispatches to: instructions that share
      their operand handling and the state they change. */
  datatype Family =
      ArithmeticFamily | LogicFamily | CompareFamily | ShiftFamily | CountFamily
    | LoadFamily | StoreFamily | TransferFamily | FlagFamily | StackFamily
    | JumpFamily | InterruptFamily | BranchFamily | NopFamily

  function FamilyOf(op: Op): Family
  {
    match op
    case ADC | SBC => ArithmeticFamily
    case AND | ORA | EOR | BIT => LogicFamily
    case CMP | CPX | CPY => CompareFamily
    case ASL | LSR | ROL | ROR => ShiftFamily
    case INC | DEC | INX | DEX | INY | DEY => CountFamily
    case LDA | LDX | LDY => LoadFamily
    case STA | STX | STY => StoreFamily
    case TAX | TAY | TSX | TXA | TYA | TXS => TransferFamily
    case CLC | SEC | CLI | SEI | CLV | CLD | SED => FlagFamily
    case PHA | PHP | PLA | PLP => StackFamily
    case JMP | JSR | RTS => JumpFamily
    case BRK | RTI => InterruptFamily
    case BPL | BMI | BVC | BVS | BCC | BCS | BNE | BEQ => BranchFamily
    case NOP => NopFamily
  }

  /** The families whose handlers compute on a register and an operand: the
      arithmetic, logic, compare, shift, count, load and store instructions. */
  predicate OperandFamily(f: Family)
  {
    match f
    case ArithmeticFamily | LogicFamily | CompareFamily | ShiftFamily | CountFamily | LoadFamily | StoreFamily => true
    case _ => false
  }

  /** The eight conditional branches. */
  predicate IsBranch(op: Op)
  {
    FamilyOf(op) == BranchFamily
  }

  /** The shifts and rotates, the only handlers with an accumulator form. */
  predicate IsShift(op: Op)
  {
    match op
    case ASL | LSR | ROL | ROR => true
    case _ => false
  }

  /** Handlers that read their operand through `get_operand`. */
  predicate ReadsOperand(op: Op)
  {
    match op
    case ADC | AND | ASL | BIT | CMP | CPX | CPY | DEC | EOR | INC | LDA | LDX | LDY | LSR | ORA | ROL | ROR | SBC => true
    case BCC | BCS | BEQ | BMI | BNE | BPL | BVC | BVS => true
    case _ => false
  }

  /** Handlers that write a result through `store`. */
  predicate StoresOperand(op: Op)
  {
    match op
    case ASL | DEC | INC | LSR | ROL | ROR | STA | STX | STY => true
    case _ => false
  }

  /** The modes whose resolution computes a page crossing. */
  predicate IsIndexedMode(mode: Mode)
  {
    match mode
    case AbsoluteX | AbsoluteY | IndirectY => true
    case _ => false
  }

  /** The consistency conditions every entry of the table meets. */
  predicate WellFormed(e: Entry)
  {
    && (e.checkPageCross ==> IsIndexedMode(e.mode))
    && (IsBranch(e.op) <==> e.mode == Relative)
    && (IsBranch(e.op) ==> e.cycles == 2 && !e.checkPageCross)
    && (ReadsOperand(e.op) ==> e.mode != Implied)
    && (StoresOperand(e.op) ==> e.mode != Implied && e.mode != Immediate && e.mode != Relative)
    && (e.mode == Accumulator ==> IsShift(e.op))
  }

  /** Every entry of either table is well formed: the page-crossing penalty is
      only requested by absolute,X, absolute,Y and (indirect),Y; the branches
      are exactly the relative entries, take two cycles and never request the
      penalty; every handler that reads an operand has a mode that supplies one
      and every handler that stores has a mode that names a place; only the
      shifts and rotates have an accumulator form. */
  lemma TableWellFormed(v: Variant, opcode: byte)
    ensures Decode(v, opcode).Some? ==> WellFormed(Decode(v, opcode).value)
  {
    if opcode < 0x20 { Row00WellFormed(v, opcode); }
    else if opcode < 0x40 { Row20WellFormed(opcode); }
    else if opcode < 0x60 { Row40WellFormed(opcode); }
    else if opcode < 0x80 { Row60WellFormed(opcode); }
    else if opcode < 0xA0 { Row80WellFormed(opcode); }
    else if opcode < 0xC0 { RowA0WellFormed(opcode); }
    else if opcode < 0xE0 { RowC0WellFormed(opcode); }
    else { RowE0WellFormed(opcode); }
  }

  lemma Row00WellFormed(v: Variant, opcode: byte)
    ensures Row00(v, opcode).Some? ==> WellFormed(Row00(v, opcode).value)
  {
  }

  lemma Row20WellFormed(opcode: byte)
    ensures Row20(opcode).Some? ==> WellFormed(Row20(opcode).value)
  {
  }

  lemma Row40WellFormed(opcode: byte)
    ensures Row40(opcode).Some? ==> WellFormed(Row40(opcode).value)
  {
  }

  lemma Row60WellFormed(opcode: byte)
    ensures Row60(opcode).Some? ==> WellFormed(Row60(opcode).value)
  {
  }

  lemma Row80WellFormed(opcode: byte)
    ensures Row80(opcode).Some? ==> WellFormed(Row80(opcode).value)
  {
  }

  lemma RowA0WellFormed(opcode: byte)
    ensures RowA0(opcode).Some? ==> WellFormed(RowA0(opcode).value)
  {
  }

  lemma RowC0WellFormed(opcode: byte)
    ensures RowC0(opcode).Some? ==> WellFormed(RowC0(opcode).value)
  {
  }

  lemma RowE0WellFormed(opcode: byte)
    ensures RowE0(opcode).Some? ==> WellFormed(RowE0(opcode).value)
  {
  }

  /** The two tables agree on every opcode but BRK, where only the cycles differ. */
  lemma TablesAgree(opcode: byte)
    ensures opcode != 0x00 ==> Decode(Rust, opcode) == Decode(Cpp, opcode)
    ensures Decode(Rust, 0x00) == Some(Entry(BRK, Implied, 8, false))
    ensures Decode(Cpp, 0x00) == Some(Entry(BRK, Implied, 7, false))
  {
  }
}

# A verified model of the mayones NES core

This project models the core of the mayones NES emulator. The emulator exists
twice: a Rust build and a C++ build. The model covers both builds at once:

- the 6502 processor (`src/cpu.rs`, `src/cpu.cpp`);
- the iNES ROM loader (`src/rom.rs`) and the C++ `Cartridge` constructor that
  decodes the same header (`src/cartridge.cpp`);
- the CPU memory bus (`src/bus.rs`, `src/bus.cpp`);
- the Mapper 0 (NROM) cartridge mapper (`src/mapper.rs`, `src/mapper.cpp`).

Where the two builds differ, a `Variant` parameter (`Rust` or `Cpp`) selects
the behaviour. The differences are:

- BRK takes 8 base cycles in Rust and 7 in C++;
- `reset` sets the cycle total to 7 in Rust and adds 7 in C++;
- the Rust `reset` takes an optional PC to start from;
- the Rust opcode table has 0x100 entries, the C++ one 0xFF.

## Structure

- `bytes.dfy` (`Bytes`): `byte` and `word` as bounded integers, wrap-around
  written out (`Wrap8`, `Wrap16`), little-endian words, and bitwise operations
  through an exact 8-bit encoding.
- `results.dfy` (`Results`): `Option` and `Result`.
- `status.dfy` (`Status`): the status register P as eight named flags, with
  the byte that PHP and BRK push and PLP and RTI pull.
- `alu.dfy` (`Alu`): ADC, SBC, the shifts and rotates, the compares and BIT.
- `opcodes.dfy` (`Opcodes`): both opcode tables (mode, base cycles,
  page-crossing penalty, handler).
- `semantics.dfy` (`Semantics`): the processor as a state machine over a flat
  64 KiB memory. It holds addressing-mode resolution, every handler, `step`,
  `reset` and `Run` (the emulator's loop of steps, `src/emulator.rs`), as
  functions.
- `stack.dfy` (`Stack`): push and pop sequences on the 0x0100 page.
- `processor.dfy` (`Processor.Cpu`): the imperative processor. It is a class
  whose fields are the registers, the cycle counters and the page-crossed
  flag, over a 64 KiB `array`. Each method updates the fields in place and is
  proved to produce exactly the state its `Semantics` function gives.
- `properties.dfy` (`CpuProperties`): what one or two steps do, for the stack,
  subroutine, interrupt and branch instructions; cycle accounting over one
  step and over a run of steps, with the three-instruction program
  `LDA #$05; STA $10; LDA $10` worked through; and `reset`.
- `mapper.dfy` (`Mapper`): the NROM address decoding, and the C++ `Mapper0`
  object with its swapping move assignment.
- `rom.dfy` (`Rom`): the Rust `read` / `parse_ines` loader.
- `cartridge.dfy` (`Cartridges`): the C++ `Cartridge` object.
- `bus.dfy` (`Bus`): the Rust `CpuBus` and the C++ `CPUMemoryBus`.

Where the behaviour is undefined or a panic, the model makes it an explicit
error value:

- an opcode without a handler is the `IllegalOpcode` outcome of a step;
- a read outside both mapper windows or past the end of a ROM image is a
  `Mapper.Fault`;
- a C++ bus access to cartridge space before `connect_cartridge` is
  `NoCartridge`.

The usual 6502 timing charges a second extra cycle when a taken branch crosses
a page. This code does not: the branch handlers set the page-crossed flag, but
every branch entry has `check_page_cross` false. The model follows the code.
`CpuProperties.BranchStep` shows that a taken branch costs 3 cycles whatever
its target, and `CpuProperties.StaleFlagNeverCharged` shows that the flag
never reaches the cycle count.

## Model

| member | source | states |
|---|---|---|
| Bytes.MakeWordBytes | src/cpu.rs:1558 | The word `lo OR hi << 8` has low byte `lo` and high byte `hi`. |
| Bytes.WordRoundTrip | src/cpu.rs:1638-1639 | Every word is the little-endian combination of its two bytes. |
| Bytes.BitwiseBits | src/cpu.rs:1730-1751 | AND, OR and XOR of two bytes act bit by bit on the eight bits. |
| Bytes.XorInvolution | src/cpu.rs:1748-1751 | XOR with the same operand twice gives back the accumulator. |
| Bytes.PageCrossed | src/cpu.rs:1543-1545 | Two addresses are on different 256-byte pages iff their high bytes differ, as `a & 0xFF00` compares them. `Bytes.IndexCrossesPage` states when that happens. |
| Bytes.IndexCrossesPage | src/cpu.rs:1543-1545 | Adding an index byte to a base address lands on another page exactly when the base's low byte plus the index is at least 0x100, including the wrap from page 0xFF to page 0. |
| Status.ToByte | src/cpu.rs:94-101 | P as the byte the Rust build keeps: Carry is bit 0, Zero bit 1, Interrupt bit 2, Decimal bit 3, Break bit 4, Unused bit 5, Overflow bit 6, Negative bit 7. `Status.FlagsRoundTrip` and `Status.ByteRoundTrip` make it a bijection with `Status.FromByte`. |
| Status.FromByte | src/cpu.rs:94-101 | The flags a byte pulled by PLP or RTI holds, one per bit, at the same positions. It inverts `Status.ToByte` in both directions (`Status.FlagsRoundTrip`, `Status.ByteRoundTrip`). |
| Status.SetNZ | src/cpu.rs:1627-1630 | `set_nz_flags`: Zero becomes "the value is 0" and Negative becomes bit 7 of the value; `Status.SetNZByte` states the effect on the byte of P. |
| Status.FlagsRoundTrip | src/cpu.rs:1642-1648 | Decoding the byte of P gives back P, so PHP/PLP and BRK/RTI carry the flags exactly. |
| Status.ByteRoundTrip | src/cpu.rs:1646-1648 | Every byte pulled from the stack is the byte of exactly one P. |
| Status.ResetFlagsByte | src/cpu.rs:1450 | Interrupt OR Unused is the byte 0x24. |
| Status.SetNZByte | src/cpu.rs:1627-1630 | `set_nz_flags` sets bit 1 exactly when the value is 0 and bit 7 to the value's bit 7, and keeps the six other bits of P. |
| Alu.AddWithCarry | src/cpu.rs:1761-1770 | `adc_`: the 8-bit sum of A, M and the carry, the carry out of bit 7 and the `(A^r)&(M^r)&0x80` overflow test; `Alu.AddWithCarrySpec` ties all three to integer arithmetic. |
| Alu.AddWithCarrySpec | src/cpu.rs:1761-1770 | ADC gives (A + M + C) mod 256. Carry holds iff the unsigned sum exceeds 0xFF. Overflow (the `(A^r)&(M^r)&0x80` test) holds iff the signed sum leaves -128..127. |
| Alu.OnesComplementValue | src/cpu.rs:1776-1778 | `M ^ 0xFF` is 255 - M, and as a signed byte it is -M - 1. |
| Alu.SubtractWithBorrowSpec | src/cpu.cpp:651-654 | SBC (ADC of `M ^ 0xFF`) gives (A - M - 1 + C) mod 256. Carry holds iff there is no borrow. Overflow holds iff the signed difference leaves -128..127. |
| Alu.RotateLeftThenRight | src/cpu.rs:1694-1700 | ROR of ROL's result and carry restores the byte and the carry. |
| Alu.RotateRightThenLeft | src/cpu.rs:1702-1708 | ROL of ROR's result and carry restores the byte and the carry. |
| Alu.ShiftsAreRotatesOfZero | src/cpu.rs:1735-1759 | ASL and LSR are ROL and ROR with a clear carry shifted in. |
| Alu.CompareSpec | src/cpu.rs:1868-1873 | After a compare: Zero iff reg = M, Carry iff reg >= M, Carry and not Zero iff reg > M, Negative is bit 7 of (reg - M) mod 256. The other flags are kept. |
| Alu.BitTestSpec | src/cpu.rs:1687-1692 | BIT sets Zero iff A and M share no set bit, V to bit 6 of M, N to bit 7 of M, and keeps the other flags. |
| Opcodes.TableWellFormed | src/cpu.rs:111-1425 | In both tables: only absolute,X, absolute,Y and (indirect),Y request the page-crossing cycle. The branches are exactly the relative entries; they take 2 base cycles and never request the penalty. Operand readers have a mode that supplies an operand, storers have a mode that names a place, and only the shifts have an accumulator form. |
| Opcodes.Decode | src/cpu.rs:111-1425 | The entry of an opcode in the build's table (mode, base cycles, page-crossing request, handler), or none for a byte without a handler. Its properties are `Opcodes.TableWellFormed` and `Opcodes.TablesAgree`. |
| Opcodes.Row00WellFormed | src/cpu.cpp:34-65 | The conditions above for opcodes 0x00-0x1F. |
| Opcodes.Row20WellFormed | src/cpu.cpp:66-97 | The conditions above for opcodes 0x20-0x3F. |
| Opcodes.Row40WellFormed | src/cpu.cpp:98-129 | The conditions above for opcodes 0x40-0x5F. |
| Opcodes.Row60WellFormed | src/cpu.cpp:130-161 | The conditions above for opcodes 0x60-0x7F. |
| Opcodes.Row80WellFormed | src/cpu.cpp:162-193 | The conditions above for opcodes 0x80-0x9F. |
| Opcodes.RowA0WellFormed | src/cpu.cpp:194-225 | The conditions above for opcodes 0xA0-0xBF. |
| Opcodes.RowC0WellFormed | src/cpu.cpp:226-257 | The conditions above for opcodes 0xC0-0xDF. |
| Opcodes.RowE0WellFormed | src/cpu.cpp:258-288 | The conditions above for opcodes 0xE0-0xFE. |
| Opcodes.TablesAgree | src/cpu.cpp:33-289 | The two tables agree on every opcode except 0x00. There BRK takes 8 base cycles in Rust and 7 in C++; mode and penalty agree. The model holds one table transcribed from both sources, with the variant choosing BRK's cycles and the table's size; the lemma states how the two sources differ, not a comparison of two separate transcriptions. |
| Stack.SlotBytes | src/cpu.rs:1610 | 0x0100 + SP is on page 1 with low byte sp. |
| Stack.PushAll | src/cpu.rs:1609-1612 | Pushing n bytes lowers SP by n modulo 256 and changes nothing but SP and memory. |
| Stack.PushAllSlots | src/cpu.rs:1609-1612 | The i-th pushed byte lands at 0x0100 + (SP - i) mod 256. |
| Stack.PushAllFrame | src/cpu.rs:1609-1612 | Every address that is not one of the pushed slots keeps its byte. |
| Stack.PopAll | src/cpu.rs:1614-1617 | Popping n bytes raises SP by n modulo 256 and changes nothing else. |
| Stack.PopAllValues | src/cpu.rs:1614-1617 | The j-th popped byte is the one at 0x0100 + (SP + 1 + j) mod 256. |
| Stack.PushThenPopAt | src/cpu.rs:1609-1617 | After pushing a sequence, the j-th pop returns the (n-1-j)-th pushed byte. |
| Stack.PushThenPopAll | src/cpu.rs:1609-1617 | Pushing n bytes and popping n returns them reversed and restores SP. |
| Stack.PushThree | src/cpu.rs:1632-1636 | BRK's three pushes are one push of the three bytes in order. |
| Stack.PushThenPop | src/cpu.rs:1609-1617 | A pop right after a push returns the pushed byte and the old SP. |
| Stack.StackWrapsAtPageEdges | src/cpu.cpp:383-391 | A push at SP = 0 writes 0x0100 and leaves SP = 0xFF. A pop at SP = 0xFF reads 0x0100 and leaves SP = 0. |
| Processor.Cpu.constructor | src/cpu.rs:1427-1443 | A new processor has every register, P, both cycle counters and the page-crossed flag at 0, over the given memory. |
| Processor.Cpu.ReadWordAt | src/cpu.rs:1558 | Returns the little-endian word at the address and the next one. |
| Processor.Cpu.ReadAroundPage | src/cpu.rs:1547-1555 | Returns the pointer whose high byte comes from `addr & 0xFF00` when `addr + 1` is on the next page, and from `addr + 1` otherwise. |
| Processor.Cpu.PushStack | src/cpu.rs:1609-1612 | Writes the byte at 0x0100 + SP, then lowers SP by 1 modulo 256. |
| Processor.Cpu.PopStack | src/cpu.rs:1614-1617 | Raises SP by 1 modulo 256, then returns the byte at 0x0100 + SP. |
| Processor.Cpu.GetOperand | src/cpu.rs:1589-1597 | Returns A in accumulator mode, and otherwise the byte at the resolved address. |
| Processor.Cpu.StoreTo | src/cpu.rs:1599-1607 | Writes A in accumulator mode, and otherwise the byte at the resolved address; nothing else changes. |
| Processor.Cpu.ResolveZeroPage | src/cpu.rs:1534-1541 | Advances PC by 1; the address is (operand byte + index) mod 256. |
| Processor.Cpu.ResolveAbsolute | src/cpu.rs:1557-1563 | Advances PC by 2; the address is (LE word + index) mod 65536; page-crossed is set iff the high bytes differ. |
| Processor.Cpu.ResolveIndirect | src/cpu.rs:1565-1570 | Advances PC by 2; the target is the page-wrapped pointer read at the LE word. |
| Processor.Cpu.ResolveIndirectX | src/cpu.rs:1572-1578 | Advances PC by 1; the target is the page-wrapped pointer at (byte + X) mod 256. |
| Processor.Cpu.ResolveIndirectY | src/cpu.rs:1580-1587 | Advances PC by 1; the target is the page-wrapped pointer plus Y mod 65536; page-crossed is set iff the high bytes differ. |
| Processor.Cpu.ResolveOperand | src/cpu.rs:1470-1484 | Dispatches on the entry's mode to the resolution above; accumulator and implied modes resolve without reading. |
| Processor.Cpu.AddWithCarryToA | src/cpu.rs:1761-1770 | A, Carry, Overflow, Zero and Negative become those of the 9-bit sum; nothing else changes. |
| Processor.Cpu.Adc | src/cpu.rs:1772-1774 | ADC of the operand, as `Alu.AddWithCarrySpec` characterises it. |
| Processor.Cpu.Sbc | src/cpu.rs:1776-1778 | SBC of the operand, as `Alu.SubtractWithBorrowSpec` characterises it. |
| Processor.Cpu.And | src/cpu.rs:1743-1746 | A becomes A AND M, with N and Z set from it; nothing else changes. |
| Processor.Cpu.Ora | src/cpu.rs:1730-1733 | A becomes A OR M, with N and Z set from it; nothing else changes. |
| Processor.Cpu.Eor | src/cpu.rs:1748-1751 | A becomes A XOR M, with N and Z set from it; nothing else changes. |
| Processor.Cpu.Bit | src/cpu.rs:1687-1692 | Only P changes, as `Alu.BitTestSpec` describes. |
| Processor.Cpu.Asl | src/cpu.rs:1735-1741 | Bit 7 goes to Carry and the shifted byte goes back to A or to the operand address, with N and Z set from it. |
| Processor.Cpu.Lsr | src/cpu.rs:1753-1759 | Bit 0 goes to Carry and the shifted byte goes back to A or to the operand address, with N and Z set from it. |
| Processor.Cpu.Rol | src/cpu.rs:1694-1700 | Like ASL, with the old Carry shifted into bit 0. |
| Processor.Cpu.Ror | src/cpu.rs:1702-1708 | Like LSR, with the old Carry shifted into bit 7. |
| Processor.Cpu.Cmp | src/cpu.rs:1875-1877 | Only P changes, as `Alu.CompareSpec` describes for A. |
| Processor.Cpu.Cpx | src/cpu.rs:1879-1881 | Only P changes, as `Alu.CompareSpec` describes for X. |
| Processor.Cpu.Cpy | src/cpu.rs:1883-1885 | Only P changes, as `Alu.CompareSpec` describes for Y. |
| Processor.Cpu.Inc | src/cpu.rs:1812-1816 | The operand byte becomes (M + 1) mod 256, with N and Z set from it. |
| Processor.Cpu.Dec | src/cpu.rs:1818-1822 | The operand byte becomes (M - 1) mod 256, with N and Z set from it. |
| Processor.Cpu.Inx | src/cpu.rs:1792-1795 | X becomes (X + 1) mod 256, with N and Z set from it. |
| Processor.Cpu.Dex | src/cpu.rs:1797-1800 | X becomes (X - 1) mod 256, with N and Z set from it. |
| Processor.Cpu.Iny | src/cpu.rs:1802-1805 | Y becomes (Y + 1) mod 256, with N and Z set from it. |
| Processor.Cpu.Dey | src/cpu.rs:1807-1810 | Y becomes (Y - 1) mod 256, with N and Z set from it. |
| Processor.Cpu.Lda | src/cpu.rs:1858-1861 | A becomes the operand, with N and Z set from it. |
| Processor.Cpu.Ldx | src/cpu.rs:1848-1851 | X becomes the operand, with N and Z set from it. |
| Processor.Cpu.Ldy | src/cpu.rs:1853-1856 | Y becomes the operand, with N and Z set from it. |
| Processor.Cpu.Sta | src/cpu.rs:1780-1782 | A is written at the operand address; no register or flag changes. |
| Processor.Cpu.Stx | src/cpu.rs:1788-1790 | X is written at the operand address; no register or flag changes. |
| Processor.Cpu.Sty | src/cpu.rs:1784-1786 | Y is written at the operand address; no register or flag changes. |
| Processor.Cpu.Tax | src/cpu.rs:1838-1841 | X becomes A, with N and Z set from it. |
| Processor.Cpu.Tay | src/cpu.rs:1863-1866 | Y becomes A, with N and Z set from it. |
| Processor.Cpu.Tsx | src/cpu.rs:1843-1846 | X becomes SP, with N and Z set from it. |
| Processor.Cpu.Txa | src/cpu.rs:1824-1827 | A becomes X, with N and Z set from it. |
| Processor.Cpu.Tya | src/cpu.rs:1829-1832 | A becomes Y, with N and Z set from it. |
| Processor.Cpu.Txs | src/cpu.rs:1834-1836 | SP becomes X; P is untouched. |
| Processor.Cpu.Clc | src/cpu.rs:1659-1661 | Clears Carry only. |
| Processor.Cpu.Sec | src/cpu.rs:1663-1665 | Sets Carry only. |
| Processor.Cpu.Cli | src/cpu.rs:1667-1669 | Clears Interrupt only. |
| Processor.Cpu.Sei | src/cpu.rs:1671-1673 | Sets Interrupt only. |
| Processor.Cpu.Clv | src/cpu.rs:1675-1677 | Clears Overflow only. |
| Processor.Cpu.Cld | src/cpu.rs:1679-1681 | Clears Decimal only. |
| Processor.Cpu.Sed | src/cpu.rs:1683-1685 | Sets Decimal only. |
| Processor.Cpu.Pha | src/cpu.rs:1650-1652 | Pushes A. |
| Processor.Cpu.Php | src/cpu.rs:1642-1644 | Pushes the byte of P with Break set. |
| Processor.Cpu.Pla | src/cpu.rs:1654-1657 | Pops into A, with N and Z set from it. |
| Processor.Cpu.Plp | src/cpu.rs:1646-1648 | Pops into P with Break cleared and Unused set. |
| Processor.Cpu.Jmp | src/cpu.rs:1719-1721 | PC becomes the resolved address. |
| Processor.Cpu.Jsr | src/cpu.rs:1723-1728 | Pushes PC - 1 high byte then low byte, and jumps. |
| Processor.Cpu.Rts | src/cpu.rs:1715-1717 | Pops the low then the high byte and resumes one byte after that address. |
| Processor.Cpu.Brk | src/cpu.rs:1632-1640 | Pushes PC + 1 (high, low) and P with Break, sets Interrupt, and loads PC from 0xFFFE/0xFFFF. |
| Processor.Cpu.Rti | src/cpu.rs:1710-1713 | Pops P with Unused forced, then PC low and high. |
| Processor.Cpu.BranchOn | src/cpu.rs:1887-1900 | When the condition holds: one more cycle, PC plus the sign-extended offset, and page-crossed recorded. Otherwise nothing changes. |
| Processor.Cpu.ExecuteBranch | src/cpu.rs:1902-1932 | Each of the eight branches tests its own flag (N, V, C or Z, clear or set). |
| Processor.Cpu.ExecuteArithmetic | src/cpu.rs:1761-1778 | ADC and SBC dispatch to their handlers. |
| Processor.Cpu.ExecuteLogic | src/cpu.rs:1730-1751 | AND, ORA, EOR and BIT dispatch to their handlers. |
| Processor.Cpu.ExecuteCompare | src/cpu.rs:1868-1885 | CMP, CPX and CPY dispatch to their handlers. |
| Processor.Cpu.ExecuteShift | src/cpu.rs:1694-1759 | ASL, LSR, ROL and ROR dispatch to their handlers. |
| Processor.Cpu.ExecuteCount | src/cpu.rs:1792-1822 | INC, DEC, INX, DEX, INY and DEY dispatch to their handlers. |
| Processor.Cpu.ExecuteLoad | src/cpu.rs:1848-1861 | LDA, LDX and LDY dispatch to their handlers. |
| Processor.Cpu.ExecuteStore | src/cpu.rs:1780-1790 | STA, STX and STY dispatch to their handlers. |
| Processor.Cpu.ExecuteTransfer | src/cpu.rs:1824-1866 | The six transfers dispatch to their handlers. |
| Processor.Cpu.ExecuteFlag | src/cpu.rs:1659-1685 | The seven flag instructions dispatch to their handlers. |
| Processor.Cpu.ExecuteStack | src/cpu.rs:1642-1657 | PHA, PHP, PLA and PLP dispatch to their handlers. |
| Processor.Cpu.ExecuteJump | src/cpu.rs:1715-1728 | JMP, JSR and RTS dispatch to their handlers. |
| Processor.Cpu.ExecuteInterrupt | src/cpu.rs:1710-1713 | BRK and RTI dispatch to their handlers. |
| Processor.Cpu.ExecuteOperandFamily | src/cpu.cpp:500-784 | The register-and-operand handlers run as `Semantics.Execute` says. |
| Processor.Cpu.ExecuteControlFamily | src/cpu.cpp:564-846 | The stack, jump, interrupt, branch, transfer, flag and NOP handlers run as `Semantics.Execute` says. |
| Processor.Cpu.ExecuteOp | src/cpu.cpp:373 | Calling the entry's handler changes the state exactly as `Semantics.Execute` says. |
| Processor.Cpu.ChargeCycles | src/cpu.cpp:374-379 | Adds the base cycles, plus one when the entry requests the penalty and the flag is set; the flag is then cleared. |
| Processor.Cpu.Perform | src/cpu.cpp:329-381 | Resolve, run the handler, charge the cycles and add them to the total. |
| Processor.Cpu.Step | src/cpu.rs:1461-1492 | An opcode without a handler returns its byte as an error and changes nothing. Otherwise the step returns the cycles it took and leaves the state `Semantics.Step` gives. |
| Processor.Cpu.Reset | src/cpu.rs:1445-1459 | Registers, SP, P, PC and the cycle total take the `Semantics.Reset` values for the build. |
| Semantics.Step | src/cpu.rs:1461-1492 | `step`: fetch the opcode, resolve the operand, run the handler, charge base + penalty cycles, add them to the total and return them; an opcode without an entry is an error. `CpuProperties.StepCycles`, `CpuProperties.StepIllegal` and the per-instruction step lemmas state what it does. |
| Semantics.Perform | src/cpu.cpp:329-381 | `execute`: the resolution the mode asks for, the handler, the base cycles, the penalty when requested and crossed, and the running total. `CpuProperties.PerformCycles` and `CpuProperties.PerformTotal` state its cycle count. |
| Semantics.Reset | src/cpu.cpp:309-318 | `reset` of either build; `CpuProperties.ResetState` states every register, the flags byte, PC and the total it leaves. |
| Semantics.Run | src/emulator.rs:18-22 | The emulator loop: `n` steps one after another, their cycles added up, stopped by the first opcode without a handler. `CpuProperties.RunTotal` and `CpuProperties.LoadStoreLoad` state what it does. |
| CpuProperties.JsrHandler | src/cpu.rs:1723-1728 | JSR pushes PC - 1 high then low below SP, lowers SP by 2, jumps, and keeps every other byte and register. |
| CpuProperties.JsrPerform | src/cpu.cpp:840-846 | An absolute JSR takes 6 cycles, jumps to the operand word, and pushes the address of its own last byte. |
| CpuProperties.JsrStep | src/cpu.rs:1723-1728 | A step on 0x20 takes 6 cycles, jumps to the operand word, and pushes PC + 2 (high, low). |
| CpuProperties.RtsHandler | src/cpu.rs:1715-1717 | RTS pops low then high, resumes at that word + 1, raises SP by 2 and leaves memory alone. |
| CpuProperties.RtsPerform | src/cpu.cpp:626-629 | RTS takes 6 cycles and builds PC from the two popped bytes, low first, plus 1. |
| CpuProperties.RtsStep | src/cpu.rs:1715-1717 | A step on 0x60 takes 6 cycles and resumes one byte after the popped address. |
| CpuProperties.BrkHandler | src/cpu.rs:1632-1640 | BRK pushes PC + 1 high, low, then P with Break, lowers SP by 3, sets Interrupt, and loads PC from 0xFFFE. |
| CpuProperties.RtiHandler | src/cpu.rs:1710-1713 | RTI pops P with Unused forced, then PC low and high, and raises SP by 3. |
| CpuProperties.BrkPerform | src/cpu.cpp:492-500 | BRK takes the build's base cycles and has the effect above. |
| CpuProperties.BrkStep | src/cpu.rs:1632-1640 | A step on 0x00 takes 8 (Rust) or 7 (C++) cycles and pushes PC + 2 and P with Break. |
| CpuProperties.RtiPerform | src/cpu.cpp:620-624 | RTI takes 6 cycles; PC comes from the second and third pulled bytes, low first. |
| CpuProperties.RtiStep | src/cpu.rs:1710-1713 | A step on 0x40 takes 6 cycles, pulls P and then PC. |
| CpuProperties.BrkThenRti | src/cpu.rs:1632-1713 | BRK followed by an RTI at the IRQ vector returns two bytes past the BRK, with SP, A, X, Y restored and P restored except Break and Unused set. |
| CpuProperties.PhaPerform | src/cpu.cpp:574-577 | PHA takes 3 cycles, writes A at 0x0100 + SP, lowers SP, and keeps every other byte. |
| CpuProperties.PhaStep | src/cpu.rs:1650-1652 | A step on 0x48 takes 3 cycles with the effect above. |
| CpuProperties.PlaPerform | src/cpu.cpp:579-583 | PLA takes 4 cycles and loads A from the slot above SP, with N and Z set. |
| CpuProperties.PlaStep | src/cpu.rs:1654-1657 | A step on 0x68 takes 4 cycles with the effect above. |
| CpuProperties.PhpPerform | src/cpu.cpp:564-567 | PHP takes 3 cycles and writes P with Break at 0x0100 + SP. |
| CpuProperties.PhpStep | src/cpu.rs:1642-1644 | A step on 0x08 takes 3 cycles with the effect above. |
| CpuProperties.PlpPerform | src/cpu.cpp:569-572 | PLP takes 4 cycles; P becomes the pulled byte with Break cleared and Unused set. |
| CpuProperties.PlpStep | src/cpu.rs:1646-1648 | A step on 0x28 takes 4 cycles with the effect above. |
| CpuProperties.PhaThenPla | src/cpu.rs:1650-1657 | PHA then PLA restores A and SP, sets N and Z from A, and takes 7 cycles. |
| CpuProperties.PhpThenPlp | src/cpu.rs:1642-1648 | PHP then PLP restores P except Break cleared and Unused set, restores SP, and takes 7 cycles. |
| CpuProperties.BranchPerform | src/cpu.cpp:786-798 | A taken branch costs 3 cycles, adds the signed offset and records a page crossing. A branch not taken costs 2 and changes only PC. |
| CpuProperties.BranchStep | src/cpu.rs:1887-1932 | A step on any branch opcode costs 3 cycles if taken and 2 if not, whatever page it lands on. |
| CpuProperties.ExecuteKeepsCounters | src/cpu.rs:1632-1934 | No handler except the branches touches the cycle counters or the page-crossed flag. |
| CpuProperties.PerformCycles | src/cpu.cpp:374-379 | The cycles of an entry are its base, plus 1 for a flagged page crossing, plus 1 for a taken branch. |
| CpuProperties.PerformTotal | src/cpu.cpp:380 | The total grows by exactly the cycles of the step. |
| CpuProperties.StepCycles | src/cpu.rs:1487-1492 | A step returns base + penalty + taken-branch cycles and adds that value to the total. |
| CpuProperties.StepTotal | src/cpu.rs:1491-1492 | A step that succeeds adds exactly the cycles it returns to the total. |
| CpuProperties.RunCons | src/emulator.rs:19-21 | A run whose first step succeeds ends where the rest of the run ends, with that step's cycles added. |
| CpuProperties.IterateTotal | src/emulator.rs:19-21 | Repeating any step that adds its returned cycles to the total adds the sum of all returned cycles, by induction on the number of steps. |
| CpuProperties.RunTotal | src/emulator.rs:19-21 | After any number of successful steps the total has grown by exactly the sum of the cycles the steps returned. |
| CpuProperties.LdaImmediateStep | src/cpu.rs:960-967 | A step on 0xA9 loads A from the byte after the opcode in 2 cycles and keeps memory. |
| CpuProperties.StaZeroPageStep | src/cpu.rs:763-770 | A step on 0x85 writes A at the zero-page address the next byte names, in 3 cycles, and keeps A. |
| CpuProperties.LdaZeroPageStep | src/cpu.rs:935-942 | A step on 0xA5 loads A from the zero-page address the next byte names, in 3 cycles, and keeps memory. |
| CpuProperties.LoadStoreLoad | src/cpu.rs:1858-1861 | Three steps of `LDA #$05; STA $10; LDA $10` take 2 + 3 + 3 = 8 cycles, all added to the total, and end with A = 0x05 and 0x05 at 0x0010. |
| CpuProperties.LoadStoreLoadFromReset | src/cpu.rs:1445-1459 | Run right after `reset(Some(start))` of the Rust build, the same program ends with A = 0x05, 0x05 at 0x0010 and a total of 7 + 8 = 15 cycles. |
| CpuProperties.IndexedResolveIgnoresFlag | src/cpu.rs:1557-1587 | The indexed modes recompute page-crossed from the addresses, whatever its earlier value. |
| CpuProperties.StaleFlagNeverCharged | src/cpu.rs:1488-1491 | A page-crossed flag left over from an earlier step never changes a step's cycles. |
| CpuProperties.LdaAbsoluteXPerform | src/cpu.cpp:346-348 | LDA absolute,X loads the byte at word + X and takes 4 cycles plus 1 on a page crossing, clearing the flag. |
| CpuProperties.LdaAbsoluteXStep | src/cpu.rs:1858-1861 | A step on 0xBD takes 4 or 5 cycles, the extra one exactly when word + X is on another page. |
| CpuProperties.StepIllegal | src/cpu.rs:1936-1938 | A step fails exactly on the opcodes without a handler, and reports that opcode. |
| CpuProperties.ResetState | src/cpu.rs:1445-1459 | After reset A = X = Y = 0, SP = 0xFD and P = 0x24. PC is the override or the LE word at 0xFFFC. Memory is kept. The total is 7 (Rust) or old + 7 (C++). |
| CpuProperties.ZeroPageIndexedStaysInPageZero | src/cpu.rs:1534-1541 | Zero-page,X and zero-page,Y addresses wrap within page 0. |
| CpuProperties.PointerHighAddressSamePage | src/cpu.cpp:416-428 | The pointer's high byte is always read from the same page as its low byte. |
| CpuProperties.JsrThenRts | src/cpu.rs:1715-1728 | JSR followed by an RTS at its target resumes 3 bytes after the JSR, with SP and registers restored, in 12 cycles. |
| Mapper.Read | src/mapper.rs:12-19 | Fails as unmapped iff the address is in neither window. A PRG read gives `prg_rom[addr & 0x3FFF]`, a CHR read gives `chr_rom[addr]`, each within bounds. |
| Mapper.ReadDefined | src/mapper.rs:15-17 | A read succeeds iff the address is in a window and its index is inside that image. |
| Mapper.FullBanksNeverFault | src/mapper.rs:15-16 | With at least 16 KiB of PRG and 8 KiB of CHR, every address in a window reads a byte. |
| Mapper.PrgMirrored | src/mapper.rs:14-15 | read(a) = read(a + 0x4000) for 0x8000 <= a <= 0xBFFF. |
| Mapper.SecondBankUnreachable | src/mapper.rs:14 | With 32 KiB of PRG, every PRG read comes from the first 16 KiB. |
| Mapper.Mapper0.Empty | src/mapper.cpp:6-8 | A default mapper holds two empty images. |
| Mapper.Mapper0.constructor | src/mapper.cpp:10-14 | The mapper holds exactly the two images it is given. |
| Mapper.Mapper0.MoveAssign | src/mapper.cpp:16-25 | Self-assignment changes nothing; otherwise the two objects exchange their images. |
| Mapper.Mapper0.Write | src/mapper.cpp:39-41 | A write leaves every read as it was. |
| Rom.MapperIdNibbles | src/rom.rs:113-126 | The mapper id's low nibble is flags 6's high nibble and its high nibble flags 7's. It is 0 iff both high nibbles are 0. |
| Rom.RomFormatCases | src/rom.rs:196-205 | The format is known iff the buffer has 16 bytes and the title; it is NES 2.0 iff also `(byte7 & 0x0C) == 0x08`. |
| Rom.IsInesHeader | src/rom.rs:89-95 | `is_ines_header`: at least sixteen bytes, starting with `NES` 0x1A; `Rom.RomFormatCases` states both directions. |
| Rom.GetRomFormat | src/rom.rs:196-205 | `get_rom_format`: unknown without the title, NES 2.0 when bits 2-3 of flags 7 read 0b10, iNES otherwise; `Rom.RomFormatCases` states both directions. |
| Rom.MapperId | src/rom.rs:113-126 | The mapper number from the upper nibbles of flags 6 and 7; `Rom.MapperIdNibbles` states where each nibble goes. |
| Rom.DecodeInes | src/rom.rs:97-181 | What `parse_ines` returns, check by check. `Rom.ParseInes` is proved equal to it; `Rom.AcceptedHeader`, `Rom.AcceptedLayout`, `Rom.AcceptedIsImage` and `Rom.ImageRoundTrip` characterise the accepted buffers. |
| Rom.ParseInes | src/rom.rs:97-181 | The parse, padding loop included, returns what `Rom.DecodeInes` gives. That checks the reserved bits, then bytes 11-15, then the exact size (trainer included), then mapper 0. |
| Rom.Read | src/rom.rs:77-87 | Unknown and NES 2.0 formats are rejected; an iNES buffer is parsed. |
| Rom.DecodeRom | src/rom.rs:82-86 | The format dispatch of `read` on a buffer in memory: NES 2.0 and unknown formats give their errors, and an iNES buffer gives `Rom.DecodeInes`. `Rom.Read` is proved equal to it; `Rom.AcceptedHeader`, `Rom.AcceptedLayout`, `Rom.AcceptedIsImage` and `Rom.ImageRoundTrip` state what it accepts. |
| Rom.AcceptedLayout | src/rom.rs:145-164 | An accepted buffer has exactly the total size its header announces. The PRG-ROM and CHR-ROM images are 16 KiB and 8 KiB times the bank counts, and the recorded sizes agree. |
| Rom.AcceptedHeader | src/rom.rs:97-164 | An accepted buffer has the title, is not NES 2.0, has the reserved bits of flags 9 clear, zero bytes 11-15 and mapper 0, and is recorded as iNES. |
| Rom.AcceptedIsImage | src/rom.rs:145-164 | An accepted buffer is exactly `Image` of its header, its trainer bytes and the two ROM images cut out of it, so with `Rom.ImageRoundTrip` acceptance and the supported layout coincide. |
| Rom.ImageRoundTrip | src/rom.rs:97-181 | Every supported header with a trainer exactly when announced and images of the sizes it announces loads back as iNES. The size is the image's length, the mapper holds exactly those images, and the recorded image sizes and decoded header fields are the header's. |
| Rom.LoadedPrgRead | src/rom.rs:156-162 | On a loaded cartridge with a full PRG bank, reading 0x8000-0xFFFF gives the buffer byte at the PRG start plus `addr & 0x3FFF`. |
| Rom.CartridgeRead | src/rom.rs:72-74 | The cartridge's read is its mapper's read. `Mapper.Read` states what it returns; `Rom.LoadedPrgRead` states it for a loaded image, and `Bus.BusReadsImage` through the bus. |
| Cartridges.Cartridge.constructor | src/cartridge.cpp:14-85 | Checks run in order: 16 bytes, the title, the exact size without a trainer, mapper 0. On failure the mapper stays empty. On success it holds the PRG and CHR images that follow the header, and every member is decoded. |
| Cartridges.LoadOutcome | src/cartridge.cpp:23-82 | The four checks of the constructor in order: at least sixteen bytes, the title, header + PRG + CHR sizes equal to the file size, mapper 0. |
| Cartridges.DecodeMembers | src/cartridge.cpp:44-67 | The members the constructor decodes from the header bits; `Cartridges.Cartridge.DecodeFlags` is proved to assign exactly these. |
| Cartridges.Cartridge.DecodeFlags | src/cartridge.cpp:44-67 | The members are the header bits: flags 6 bits 0-3, `flags7 & 3`, flags 8, `flags9 & 1`, dual TV iff `(flags10 & 3)` is 1 or 3, flags 10 bits 4 and 5. |
| Cartridges.Cartridge.TakeImages | src/cartridge.cpp:83 | After the move assignment the member mapper holds the two images. |
| Cartridges.Cartridge.Write | src/cartridge.cpp:92-95 | A write through the cartridge leaves every read as it was. |
| Cartridges.Cartridge.Read | src/cartridge.cpp:87-90 | The cartridge's read is its mapper's read. `Mapper.Read` states what it returns, `Bus.CpuMemoryBus.Read` forwards reads from 0x4020 to it, and `Cartridges.LoadersAgree` puts the same images behind it as the Rust loader. |
| Cartridges.LoadersAgree | src/cartridge.cpp:36-42 | A trainer-less file the Rust loader accepts is also loaded by the C++ constructor, with the same PRG and CHR images. |
| Cartridges.TrainerImageRejected | src/cartridge.cpp:36-42 | A file with a trainer that the Rust loader accepts fails the C++ size check. |
| Cartridges.CppIgnoresReservedFields | src/cartridge.cpp:29-42 | A file with a non-zero padding byte is loaded by the C++ constructor and rejected by the Rust loader. |
| Bus.RamAfterWrite | src/bus.rs:36 | A write to 0x0000-0x1FFF changes exactly cell `addr & 0x07FF`; any other address changes no cell. |
| Bus.RegionOf | src/bus.rs:19-32 | The address ranges `read` and `write` match on: RAM up to 0x1FFF, PPU registers to 0x3FFF, APU and I/O to 0x4017, disabled APU and I/O to 0x401F, cartridge from 0x4020. |
| Bus.CpuBus.constructor | src/bus.rs:12-17 | The 2048 bytes of RAM are zero. |
| Bus.CpuBus.Read | src/bus.rs:19-32 | RAM through the mirror mask, 0 for 0x2000-0x401F, the cartridge for 0x4020-0xFFFF. |
| Bus.CpuBus.Write | src/bus.rs:34-49 | RAM changes as `RamAfterWrite` says. Every mirror of the written cell then reads the data; every other address reads as before. |
| Bus.RamMirrored | src/bus.rs:21 | read(a) = read(a + 0x800) for a <= 0x17FF. |
| Bus.BusReadsImage | src/bus.rs:29 | Over a loaded image with a full PRG bank, a bus read at 0x8000-0xFFFF gives the image byte at the PRG start plus `addr & 0x3FFF`. |
| Bus.CpuMemoryBus.constructor | src/bus.cpp:4-7 | The RAM holds arbitrary bytes and no cartridge is connected. |
| Bus.CpuMemoryBus.ConnectCartridge | src/bus.cpp:9-12 | The bus now uses the given cartridge; RAM is kept. |
| Bus.CpuMemoryBus.Read | src/bus.cpp:14-41 | RAM through the mirror mask, 0 for 0x2000-0x401F, the cartridge for 0x4020-0xFFFF, which fails when none is connected. |
| Bus.CpuMemoryBus.Write | src/bus.cpp:43-75 | Fails iff the address is in cartridge space and no cartridge is connected. RAM changes as `RamAfterWrite` says. Every mirror of the written cell then reads the data; every other address reads as before. |
| Bus.MemoryBusRamMirrored | src/bus.cpp:16-19 | read(a) = read(a + 0x800) for a <= 0x17FF. |
| Bus.UnconnectedCartridgeSpace | src/bus.cpp:35-39 | Before a cartridge is connected, every read from 0x4020 up fails. |

## Left out

- The processor runs over a flat 64 KiB memory (`Semantics.Memory`) rather than through the bus. The bus, mapper and cartridge are modelled on their own, and the composition of processor and bus is not stated. Over RAM and ROM the bus has no side effects on reads, which is what the flat memory assumes; writes to ROM and to the register ranges, which the bus drops, would be kept by the flat memory.
- The Rust `sp -= 1`, `sp += 1`, `pc += 1`, `address + 1`, the `i16` branch add, `self.pc + 1` and `self.pc += 2` in `resolve_absolute` and `resolve_indirect`, `self.pc + 1` in `brk`, the `+ 1` of `rts` and `self.pc - 1` in `jsr` panic on overflow in a debug build; the C++ ones wrap. The model wraps in both builds. `Stack.StackWrapsAtPageEdges` states the values at the two stack boundaries where the Rust debug build would stop instead.
- The C++ `rti` and `rts` build PC from `pop_stack() | pop_stack() << 8`, whose two calls C++ does not order. The model pops the low byte first, as the Rust build does.
- Immediate and relative operands: the Rust build reads the operand byte while resolving, and the C++ build reads it later at the remembered address. Over a memory without read side effects the two agree, and the model reads through the address.
- Decimal mode is only a flag; neither build does BCD arithmetic, and the model does none.
- The unofficial opcodes have no handler in either table and are all `IllegalOpcode`, as is opcode 0xFF in the C++ build (past the end of its 0xFF-entry table).
- File input: `read_file` and the C++ file-size query and stream reads (including the early return when the file cannot be opened) are left out. Both loaders are modelled over the file's bytes already in memory.
- `parse_nes20` only panics, and NES 2.0 images are rejected before it would run; it is not modelled.
- Console output (`std::cout` of mnemonics and loader messages), the emulator drivers' set-up and printing (`src/emulator.rs`, `src/main.rs`, `src/main.cpp`), the nestest trace harness and the `TraceEntry` formatting are not part of this model. The drivers' endless loop of `step` is modelled only as `Semantics.Run` over a given number of steps.
- Cartridges.Cartridge.constructor: the C++ object records no status; `status` is a model-only field naming how the constructor ended. An early return leaves the other members unset, which the model leaves unconstrained. A non-zero mapper number reaches `throw;` with no active exception, which ends the process; the model ends the constructor with `MapperNotZero` instead. The mapper number is computed before the images are sliced, as in the source order.
- Bus.CpuMemoryBus.Read: a read of cartridge space with no cartridge connected dereferences a null `shared_ptr` in C++; the model returns `NoCartridge` rather than undefined behaviour. The same holds for `Bus.CpuMemoryBus.Write`.
- Mapper.Read: a read outside both windows falls off the end of the C++ function and panics in Rust, and an index past the end of an image is unchecked in C++ and panics in Rust; the model returns a `Fault` for both.
- Processor.Cpu.Step: a step on an opcode without a handler panics in Rust and calls a null handler (or indexes past the table) in C++; the model returns the opcode as an error and leaves the state unchanged.

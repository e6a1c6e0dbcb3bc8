/** Mapper 0 (NROM): the cartridge address decoding of the Rust `Mapper0`
    value and of the C++ `Mapper0` object. CPU addresses 0x8000-0xFFFF read
    PRG-ROM through the mask 0x3FFF, so one 16 KiB bank is seen twice;
    addresses 0x0000-0x1FFF read CHR-ROM directly; nothing else is mapped. */
module Mapper {
  import opened Bytes
  import opened Results

  /** The two ROM images a Mapper 0 cartridge carries (`Mapper0::new` in Rust
      keeps them as given). */
  datatype Nrom = Nrom(prgRom: seq<byte>, chrRom: seq<byte>)

  /** Why a read has no value: the address is in neither window (a panic in
      Rust, falling off the end of a value-returning function in C++), or the
      index is past the end of the ROM image (a bounds panic in Rust, an
      unchecked vector access in C++). */
  datatype Fault = UnmappedAddress | PastEndOfRom

  /** The PRG window 0x8000-0xFFFF. */
  predicate InPrgWindow(addr: word) { addr >= 0x8000 }

  /** The CHR window 0x0000-0x1FFF. */
  predicate InChrWindow(addr: word) { addr <= 0x1FFF }

  /** `address & 0x3FFF`: the low fourteen bits of the address. */
  function PrgIndex(addr: word): nat { addr as int % 0x4000 }

  /** `read`: PRG-ROM at the masked index, CHR-ROM at the address itself. */
  function Read(m: Nrom, addr: word): (r: Result<byte, Fault>)
    ensures r.Err? && r.error == UnmappedAddress <==> !InPrgWindow(addr) && !InChrWindow(addr)
    ensures r.Ok? && InPrgWindow(addr) ==> PrgIndex(addr) < |m.prgRom| && r.value == m.prgRom[PrgIndex(addr)]
    ensures r.Ok? && InChrWindow(addr) ==> (addr as int) < |m.chrRom| && r.value == m.chrRom[addr]
  {
    if InPrgWindow(addr) then
      if PrgIndex(addr) < |m.prgRom| then Ok(m.prgRom[PrgIndex(addr)]) else Err(PastEndOfRom)
    else if InChrWindow(addr) then
      if (addr as int) < |m.chrRom| then Ok(m.chrRom[addr]) else Err(PastEndOfRom)
    else
      Err(UnmappedAddress)
  }

  /** A read has a value exactly when the address is in a window and the
      index it selects lies inside that window's ROM image. */
  lemma ReadDefined(m: Nrom, addr: word)
    ensures Read(m, addr).Ok?
            <==> (InPrgWindow(addr) && PrgIndex(addr) < |m.prgRom|)
                 || (InChrWindow(addr) && (addr as int) < |m.chrRom|)
  {
  }

  /** With a full 16 KiB PRG bank and a full 8 KiB CHR bank, every address in
      either window reads a byte. */
  lemma FullBanksNeverFault(m: Nrom, addr: word)
    requires |m.prgRom| >= 0x4000 && |m.chrRom| >= 0x2000
    requires InPrgWindow(addr) || InChrWindow(addr)
    ensures Read(m, addr).Ok?
  {
  }

  /** The upper 16 KiB of the PRG window mirrors the lower 16 KiB. */
  lemma PrgMirrored(m: Nrom, addr: word)
    requires 0x8000 <= addr <= 0xBFFF
    ensures Read(m, addr) == Read(m, addr + 0x4000)
  {
    assert PrgIndex(addr + 0x4000) == PrgIndex(addr);
  }

  /** The mask keeps the window to one bank: with two 16 KiB banks
      (32 KiB of PRG-ROM) no CPU address reads a byte of the second bank. */
  lemma SecondBankUnreachable(m: Nrom, addr: word)
    requires |m.prgRom| == 0x8000
    requires Read(m, addr).Ok? && InPrgWindow(addr)
    ensures Read(m, addr).value == m.prgRom[PrgIndex(addr)] && PrgIndex(addr) < 0x4000
  {
  }

  /** The C++ `Mapper0`: an object that owns its two vectors. Its move
      assignment swaps them with the source object's in place. */
  class Mapper0 {
    var prgRom: seq<byte>
    var chrRom: seq<byte>

    /** The images this object holds, for `Read`. */
    function Contents(): Nrom
      reads this
    {
      Nrom(prgRom, chrRom)
    }

    /** `Mapper0()`: both vectors empty. */
    constructor Empty()
      ensures Contents() == Nrom([], [])
    {
      prgRom := [];
      chrRom := [];
    }

    /** `Mapper0(prg_rom, chr_rom)`: takes over the two images. */
    constructor (prg: seq<byte>, chr: seq<byte>)
      ensures Contents() == Nrom(prg, chr)
    {
      prgRom := prg;
      chrRom := chr;
    }

    /** Move `operator=`: assigning an object to itself changes nothing;
        otherwise the two objects exchange their images. */
    method MoveAssign(source: Mapper0)
      modifies this, source
      ensures source == this ==> Contents() == old(Contents())
      ensures source != this ==> Contents() == old(source.Contents())
                                 && source.Contents() == old(Contents())
    {
      if source == this {
        return;
      }
      prgRom, source.prgRom := source.prgRom, prgRom;
      chrRom, source.chrRom := source.chrRom, chrRom;
    }

    /** `write`: an empty body, so the cartridge is read-only. */
    method Write(addr: word, data: byte)
      ensures Read(Contents(), addr) == Read(old(Contents()), addr)
    {
    }
  }
}

/** The C++ `Cartridge`: its constructor checks the iNES header of the file
    it is given, decodes the header fields into its members one by one, and
    moves the PRG-ROM and CHR-ROM images into its `Mapper0`; `read` and
    `write` go to the mapper unchanged. The file is a byte sequence already
    in memory. */
module Cartridges {
  import opened Bytes
  import opened Results
  import opened Mapper
  import opened Rom

  /** `ConsoleType(flags7 & 3)`: all four values of the two bits. */
  datatype CppConsoleType = Family | VsSystem | Playchoice10System | Extended

  function CppConsoleTypeOf(flags7: byte): CppConsoleType
  {
    match flags7 as int % 4
    case 0 => Family
    case 1 => VsSystem
    case 2 => Playchoice10System
    case _ => Extended
  }

  /** `flags10 & 3` is 1 or 3, that is, bit 0 of flags 10 is set. */
  predicate IsDualTvSystem(flags10: byte)
  {
    var id := flags10 as int % 4;
    id == 1 || id == 3
  }

  /** How the constructor ended. The C++ object keeps no such record: an early
      return leaves its members unset, and `throw;` with no active exception
      ends the process. */
  datatype LoadStatus = Loaded | TooShort | BadTitle | SizeMismatch | MapperNotZero

  /** The outcome the constructor reaches for a file, check by check: at
      least sixteen bytes, the title, the exact size (without counting a
      trainer), the mapper number. */
  function LoadOutcome(file: seq<byte>): LoadStatus
  {
    if |file| < HeaderSize then TooShort
    else if file[..4] != Title then BadTitle
    else if HeaderSize + PrgRomSize(HeaderOf(file)) + ChrRomSize(HeaderOf(file)) != |file| then SizeMismatch
    else if MapperId(file[6], file[7]) != 0 then MapperNotZero
    else Loaded
  }

  /** The members the constructor decodes from the header. */
  datatype Members = Members(
    mirroring: Mirroring,
    hasBatteryRam: bool,
    hasTrainer: bool,
    ignoreMirroring: bool,
    consoleType: CppConsoleType,
    prgRamBanks: byte,
    tvSystem: TvSystem,
    isDualTvSystem: bool,
    hasPrgRam: bool,
    hasBusConflicts: bool)

  /** The header fields as the constructor decodes them: bits 0-3 of flags 6,
      the low two bits of flags 7, flags 8 as it is, bit 0 of flags 9, and
      bits 0-1, 4 and 5 of flags 10. */
  function DecodeMembers(h: Header): Members
  {
    Members(MirroringOf(h.flags6), HasBattery(h.flags6), HasTrainer(h.flags6),
            HasAlterNtLayout(h.flags6), CppConsoleTypeOf(h.flags7), h.flags8,
            TvSystemOf(h.flags9), IsDualTvSystem(h.flags10),
            HasBit(h.flags10, 4), HasBit(h.flags10, 5))
  }

  class Cartridge {
    var status: LoadStatus
    var mirroring: Mirroring
    var hasBatteryRam: bool
    var hasTrainer: bool
    var ignoreMirroring: bool
    const mapper: Mapper0
    var consoleType: CppConsoleType
    var prgRamBanks: byte
    var tvSystem: TvSystem
    var isDualTvSystem: bool
    var hasPrgRam: bool
    var hasBusConflicts: bool

    /** The decoded members, together. */
    function Decoded(): Members
      reads this
    {
      Members(mirroring, hasBatteryRam, hasTrainer, ignoreMirroring, consoleType,
              prgRamBanks, tvSystem, isDualTvSystem, hasPrgRam, hasBusConflicts)
    }

    /** `Cartridge(rom_path)` on the file's bytes. The mapper member is built
        empty before the body runs; it receives the images only when every
        check passes. The decoded members are stated for a loaded cartridge
        only, since an early return leaves them unset. */
    constructor (file: seq<byte>)
      ensures fresh(mapper)
      ensures status == LoadOutcome(file)
      ensures status != Loaded ==> mapper.Contents() == Nrom([], [])
      ensures status == Loaded ==>
                && mapper.Contents() == Nrom(file[HeaderSize..HeaderSize + PrgRomSize(HeaderOf(file))],
                                             file[HeaderSize + PrgRomSize(HeaderOf(file))..])
                && Decoded() == DecodeMembers(HeaderOf(file))
    {
      mapper := new Mapper0.Empty();
      new;
      if |file| < HeaderSize {
        status := TooShort;
        return;
      }
      var header := HeaderOf(file);
      if file[..4] != Title {
        status := BadTitle;
        return;
      }
      var prgRomSize := 16 * 1024 * header.prgBanks as nat;
      var chrRomSize := 8 * 1024 * header.chrBanks as nat;
      if HeaderSize + prgRomSize + chrRomSize != |file| {
        status := SizeMismatch;
        return;
      }

      DecodeFlags(header);
      var mapperNumber := header.flags6 as int / 16;
      mapperNumber := mapperNumber + header.flags7 as int / 16 * 16;

      var prgRom := file[HeaderSize..HeaderSize + prgRomSize];
      var chrRom := file[HeaderSize + prgRomSize..HeaderSize + prgRomSize + chrRomSize];

      assert mapperNumber == MapperId(header.flags6, header.flags7) as int;
      if mapperNumber != 0 {
        status := MapperNotZero;
        return;
      }
      TakeImages(prgRom, chrRom);
      status := Loaded;
    }

    /** The member assignments of the constructor after the size check, one
        header field at a time. */
    method DecodeFlags(header: Header)
      modifies this
      ensures Decoded() == DecodeMembers(header)
      ensures status == old(status)
    {
      mirroring := MirroringOf(header.flags6);
      hasBatteryRam := HasBattery(header.flags6);
      hasTrainer := HasTrainer(header.flags6);
      ignoreMirroring := HasAlterNtLayout(header.flags6);
      consoleType := CppConsoleTypeOf(header.flags7);
      prgRamBanks := header.flags8;
      tvSystem := TvSystemOf(header.flags9);
      var tvSystemId := header.flags10 as int % 4;
      if tvSystemId == 1 || tvSystemId == 3 {
        isDualTvSystem := true;
      } else {
        isDualTvSystem := false;
      }
      assert isDualTvSystem == IsDualTvSystem(header.flags10);
      hasPrgRam := HasBit(header.flags10, 4);
      hasBusConflicts := HasBit(header.flags10, 5);
    }

    /** `mapper = Mapper0(std::move(prg_rom), std::move(chr_rom))`: a
        temporary mapper takes the images and the member is move-assigned
        from it. */
    method TakeImages(prgRom: seq<byte>, chrRom: seq<byte>)
      modifies mapper
      ensures mapper.Contents() == Nrom(prgRom, chrRom)
    {
      var loaded := new Mapper0(prgRom, chrRom);
      mapper.MoveAssign(loaded);
    }

    /** `read`: the mapper's read. */
    function Read(addr: word): Result<byte, Fault>
      reads mapper
    {
      Mapper.Read(mapper.Contents(), addr)
    }

    /** `write`: the mapper's write, which changes nothing. */
    method Write(addr: word, data: byte)
      ensures Read(addr) == old(Read(addr))
    {
      mapper.Write(addr, data);
    }
  }

  /** Both loaders accept an iNES image without a trainer that the Rust
      loader accepts, and both hand the mapper the same ROM images. */
  lemma LoadersAgree(file: seq<byte>)
    requires DecodeRom(file).Ok?
    requires !HasTrainer(file[6])
    ensures LoadOutcome(file) == Loaded
    ensures DecodeRom(file).value.mapper.prgRom
            == file[HeaderSize..HeaderSize + PrgRomSize(HeaderOf(file))]
    ensures DecodeRom(file).value.mapper.chrRom
            == file[HeaderSize + PrgRomSize(HeaderOf(file))..]
  {
    AcceptedLayout(file);
  }

  /** An image with a trainer, laid out as the Rust loader accepts it, fails
      the C++ size check: the C++ loader does not count the 512 trainer
      bytes. */
  lemma TrainerImageRejected(h: Header, trainer: seq<byte>, prg: seq<byte>, chr: seq<byte>)
    requires Supported(h) && HasTrainer(h.flags6)
    requires |trainer| == TrainerSize
    requires |prg| == PrgRomSize(h) && |chr| == ChrRomSize(h)
    ensures DecodeRom(Image(h, trainer, prg, chr)).Ok?
    ensures LoadOutcome(Image(h, trainer, prg, chr)) == SizeMismatch
  {
    ImageRoundTrip(h, trainer, prg, chr);
    var image := Image(h, trainer, prg, chr);
    assert image[..4] == Title;
    assert HeaderOf(image) == h;
  }

  /** The C++ loader accepts files the Rust loader refuses: it does not
      check the padding (nor the reserved bits of flags 9, nor the NES 2.0
      format bits). */
  lemma CppIgnoresReservedFields(h: Header, prg: seq<byte>, chr: seq<byte>)
    requires MapperId(h.flags6, h.flags7) == 0 && !HasTrainer(h.flags6)
    requires |prg| == PrgRomSize(h) && |chr| == ChrRomSize(h)
    ensures var file := Title + [h.prgBanks, h.chrBanks, h.flags6, h.flags7, h.flags8, h.flags9,
                                 h.flags10, 1, 0, 0, 0, 0] + prg + chr;
            LoadOutcome(file) == Loaded && DecodeRom(file).Err?
  {
    var file := Title + [h.prgBanks, h.chrBanks, h.flags6, h.flags7, h.flags8, h.flags9,
                         h.flags10, 1, 0, 0, 0, 0] + prg + chr;
    assert file[..4] == Title;
    assert HeaderOf(file) == h;
    assert file[11] == 1;
  }
}

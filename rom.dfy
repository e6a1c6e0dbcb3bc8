/** The Rust loader of iNES ROM images: format detection (`is_ines_header`,
    `get_rom_format`), the iNES parser (`parse_ines`) and the format dispatch
    of `read`. The image is a byte sequence already in memory. */
module Rom {
  import opened Bytes
  import opened Results
  import Mapper

  const HeaderSize: nat := 16
  const TrainerSize: nat := 512
  const PrgBankSize: nat := 16 * 1024
  const ChrBankSize: nat := 8 * 1024

  /** "NES" followed by MS-DOS end-of-file. */
  const Title: seq<byte> := [0x4E, 0x45, 0x53, 0x1A]

  datatype RomFormat = Unknown | Ines | Nes20
  datatype Mirroring = Horizontal | Vertical
  datatype ConsoleType = Default | VsUnisystem | Playchoice10
  datatype TvSystem = Ntsc | Pal

  /** The Rust `Cartridge` record `parse_ines` builds. */
  datatype Cartridge = Cartridge(
    format: RomFormat,
    size: nat,
    mirroring: Mirroring,
    consoleType: ConsoleType,
    tvSystem: TvSystem,
    hasBattery: bool,
    hasTrainer: bool,
    hasAlterNt: bool,
    prgRomBanks: byte,
    chrRomBanks: byte,
    prgRamBanks: byte,
    prgRomSize: nat,
    chrRomSize: nat,
    mapper: Mapper.Nrom)

  /** The error strings of `read` and `parse_ines`, one constructor each. */
  datatype RomError =
    | UnknownFormat
    | Nes20NotSupported
    | ReservedBitsSet
    | InvalidPadding
    | InvalidSize
    | UnsupportedMapper

  /** The sixteen header bytes after the title, by name; bytes 11-15 are the
      padding. */
  datatype Header = Header(prgBanks: byte, chrBanks: byte, flags6: byte, flags7: byte,
                           flags8: byte, flags9: byte, flags10: byte)

  function HeaderOf(buffer: seq<byte>): Header
    requires |buffer| >= HeaderSize
  {
    Header(buffer[4], buffer[5], buffer[6], buffer[7], buffer[8], buffer[9], buffer[10])
  }

  // ---- Field decoding, shared by both loaders ----

  /** `flags6 & FLAG6_MIRRORING`. */
  function MirroringOf(flags6: byte): Mirroring
  {
    if HasBit(flags6, 0) then Vertical else Horizontal
  }

  predicate HasBattery(flags6: byte) { HasBit(flags6, 1) }
  predicate HasTrainer(flags6: byte) { HasBit(flags6, 2) }
  predicate HasAlterNtLayout(flags6: byte) { HasBit(flags6, 3) }

  /** VS Unisystem wins over PlayChoice-10 when both bits are set. */
  function ConsoleTypeOf(flags7: byte): ConsoleType
  {
    if HasBit(flags7, 0) then VsUnisystem
    else if HasBit(flags7, 1) then Playchoice10
    else Default
  }

  /** `flags9 & FLAG9_TV_SYSTEM`. */
  function TvSystemOf(flags9: byte): TvSystem
  {
    if HasBit(flags9, 0) then Pal else Ntsc
  }

  /** `(flags6 & 0xF0) >> 4 | flags7 & 0xF0`: the upper nibble of flags 6 is
      the low nibble of the mapper number and the upper nibble of flags 7 its
      high nibble. The two nibbles do not overlap, so the `|` is a sum. */
  function MapperId(flags6: byte, flags7: byte): byte
  {
    (flags6 as int / 16 + flags7 as int / 16 * 16) as byte
  }

  /** The mapper number is the two upper nibbles side by side. */
  lemma MapperIdNibbles(flags6: byte, flags7: byte)
    ensures MapperId(flags6, flags7) as int % 16 == flags6 as int / 16
    ensures MapperId(flags6, flags7) as int / 16 == flags7 as int / 16
    ensures MapperId(flags6, flags7) == 0 <==> flags6 < 16 && flags7 < 16
  {
  }

  /** `(flags7 & FLAG7_ROM_FORMAT_BITS) == 0x08`: bit 3 set and bit 2 clear. */
  predicate IsNes20(flags7: byte) { HasBit(flags7, 3) && !HasBit(flags7, 2) }

  // ---- Format detection ----

  /** `is_ines_header`: sixteen bytes at least, starting with the title. */
  predicate IsInesHeader(buffer: seq<byte>)
  {
    |buffer| >= HeaderSize && buffer[..4] == Title
  }

  /** `get_rom_format`. */
  function GetRomFormat(buffer: seq<byte>): RomFormat
  {
    if !IsInesHeader(buffer) then Unknown
    else if IsNes20(buffer[7]) then Nes20
    else Ines
  }

  /** The format is iNES or NES 2.0 exactly when the title is there, and
      NES 2.0 exactly when, in addition, bits 2-3 of flags 7 read 0b10. */
  lemma RomFormatCases(buffer: seq<byte>)
    ensures GetRomFormat(buffer) != Unknown <==> |buffer| >= 16 && buffer[..4] == Title
    ensures GetRomFormat(buffer) == Nes20
            <==> IsInesHeader(buffer) && buffer[7] as int / 4 % 4 == 2
  {
    if IsInesHeader(buffer) {
      var b := buffer[7] as int;
      assert HasBit(buffer[7], 2) <==> b / 4 % 2 == 1;
      assert HasBit(buffer[7], 3) <==> b / 8 % 2 == 1;
      assert b / 4 % 4 == b / 4 % 2 + 2 * (b / 8 % 2);
    }
  }

  // ---- The iNES layout ----

  /** Where PRG-ROM starts: after the header and the trainer, if any. */
  function RomStart(h: Header): nat
  {
    HeaderSize + if HasTrainer(h.flags6) then TrainerSize else 0
  }

  function PrgRomSize(h: Header): nat { PrgBankSize * h.prgBanks as nat }
  function ChrRomSize(h: Header): nat { ChrBankSize * h.chrBanks as nat }

  /** `total_size`: header, trainer, PRG-ROM and CHR-ROM. */
  function TotalSize(h: Header): nat
  {
    RomStart(h) + PrgRomSize(h) + ChrRomSize(h)
  }

  /** Bytes 11-15 are zero (byte 10 is not checked). */
  predicate PaddingZero(buffer: seq<byte>)
    requires |buffer| >= HeaderSize
  {
    forall j :: 11 <= j < 16 ==> buffer[j] == 0
  }

  /** `flags9 & FLAG9_RESERVED_BITS == 0`: only bit 0 may be set. */
  predicate ReservedBitsClear(flags9: byte) { flags9 < 2 }

  /** What `parse_ines` returns, check by check in the order it makes them:
      the reserved bits of flags 9, the padding, the exact size, the mapper. */
  function DecodeInes(buffer: seq<byte>): Result<Cartridge, RomError>
    requires |buffer| >= HeaderSize
  {
    var h := HeaderOf(buffer);
    if !ReservedBitsClear(h.flags9) then Err(ReservedBitsSet)
    else if !PaddingZero(buffer) then Err(InvalidPadding)
    else if TotalSize(h) != |buffer| then Err(InvalidSize)
    else if MapperId(h.flags6, h.flags7) != 0 then Err(UnsupportedMapper)
    else
      var prgEnd := RomStart(h) + PrgRomSize(h);
      Ok(Cartridge(Ines, TotalSize(h), MirroringOf(h.flags6), ConsoleTypeOf(h.flags7),
                   TvSystemOf(h.flags9), HasBattery(h.flags6), HasTrainer(h.flags6),
                   HasAlterNtLayout(h.flags6), h.prgBanks, h.chrBanks, h.flags8,
                   PrgRomSize(h), ChrRomSize(h),
                   Mapper.Nrom(buffer[RomStart(h)..prgEnd], buffer[prgEnd..])))
  }

  /** What `read` returns for an image already in memory. */
  function DecodeRom(buffer: seq<byte>): Result<Cartridge, RomError>
  {
    match GetRomFormat(buffer)
    case Ines => DecodeInes(buffer)
    case Nes20 => Err(Nes20NotSupported)
    case Unknown => Err(UnknownFormat)
  }

  /** `parse_ines`: reads the header fields in order, returns early on the
      first failed check, and cuts PRG-ROM and CHR-ROM out of the rest. The
      caller has checked the header, so the sixteen bytes are there. */
  method ParseInes(buffer: seq<byte>) returns (r: Result<Cartridge, RomError>)
    requires |buffer| >= HeaderSize
    ensures r == DecodeInes(buffer)
  {
    ghost var h := HeaderOf(buffer);
    var prgRomBanks := buffer[4];
    var chrRomBanks := buffer[5];
    var prgRomSize := PrgBankSize * prgRomBanks as nat;
    var chrRomSize := ChrBankSize * chrRomBanks as nat;
    var totalSize := HeaderSize + prgRomSize + chrRomSize;

    var flags6 := buffer[6];
    var mirroring := MirroringOf(flags6);
    var hasBattery := HasBattery(flags6);
    var hasTrainer := HasTrainer(flags6);
    var hasAlterNtLayout := HasAlterNtLayout(flags6);
    var mapperId := flags6 as int / 16;

    var flags7 := buffer[7];
    var consoleType := ConsoleTypeOf(flags7);
    mapperId := mapperId + flags7 as int / 16 * 16;
    assert mapperId == MapperId(h.flags6, h.flags7) as int;

    var prgRamBanks := buffer[8];

    var flags9 := buffer[9];
    var tvSystem := TvSystemOf(flags9);
    if !ReservedBitsClear(flags9) {
      return Err(ReservedBitsSet);
    }
    // byte 10 is skipped; bytes 11-15 must be zero
    var i := 0;
    while i < 5
      invariant 0 <= i <= 5
      invariant forall j :: 11 <= j < 11 + i ==> buffer[j] == 0
    {
      if buffer[11 + i] != 0 {
        return Err(InvalidPadding);
      }
      i := i + 1;
    }
    assert PaddingZero(buffer);
    var start := HeaderSize;
    if hasTrainer {
      totalSize := totalSize + TrainerSize;
      start := start + TrainerSize;
    }
    assert start == RomStart(h) && totalSize == TotalSize(h);

    if totalSize != |buffer| {
      return Err(InvalidSize);
    }

    var prgRom := buffer[start..start + prgRomSize];
    var chrRom := buffer[start + prgRomSize..];

    if mapperId != 0 {
      return Err(UnsupportedMapper);
    }
    r := Ok(Cartridge(Ines, totalSize, mirroring, consoleType, tvSystem, hasBattery,
                      hasTrainer, hasAlterNtLayout, prgRomBanks, chrRomBanks, prgRamBanks,
                      prgRomSize, chrRomSize, Mapper.Nrom(prgRom, chrRom)));
  }

  /** `read` after the file is in memory: dispatch on the detected format. */
  method Read(buffer: seq<byte>) returns (r: Result<Cartridge, RomError>)
    ensures r == DecodeRom(buffer)
  {
    var format := GetRomFormat(buffer);
    match format
    case Ines => r := ParseInes(buffer);
    case Nes20 => r := Err(Nes20NotSupported);
    case Unknown => r := Err(UnknownFormat);
  }

  /** `Cartridge::read`: the mapper's read. */
  function CartridgeRead(c: Cartridge, addr: word): Result<byte, Mapper.Fault>
  {
    Mapper.Read(c.mapper, addr)
  }

  // ---- What an accepted image looks like ----

  /** An accepted image has a supported iNES header: the title, not NES 2.0,
      reserved bits of flags 9 clear, zero padding and mapper 0. */
  lemma AcceptedHeader(buffer: seq<byte>)
    requires DecodeRom(buffer).Ok?
    ensures IsInesHeader(buffer) && Supported(HeaderOf(buffer)) && PaddingZero(buffer)
    ensures DecodeRom(buffer).value.format == Ines
  {
    assert GetRomFormat(buffer) == Ines;
    assert DecodeRom(buffer) == DecodeInes(buffer);
  }

  /** An accepted image has the exact size the header announces, and ROM
      images of 16 KiB times `prg_rom_banks` and 8 KiB times
      `chr_rom_banks`. */
  lemma AcceptedLayout(buffer: seq<byte>)
    requires DecodeRom(buffer).Ok?
    ensures |buffer| >= HeaderSize
    ensures TotalSize(HeaderOf(buffer)) == |buffer| == DecodeRom(buffer).value.size
    ensures |DecodeRom(buffer).value.mapper.prgRom| == DecodeRom(buffer).value.prgRomSize
            == PrgBankSize * buffer[4] as nat
    ensures |DecodeRom(buffer).value.mapper.chrRom| == DecodeRom(buffer).value.chrRomSize
            == ChrBankSize * buffer[5] as nat
  {
    var c := DecodeRom(buffer).value;
    var h := HeaderOf(buffer);
    var prgEnd := RomStart(h) + PrgRomSize(h);
    assert c.mapper.prgRom == buffer[RomStart(h)..prgEnd];
    assert c.mapper.chrRom == buffer[prgEnd..];
  }

  /** An accepted image is exactly what `Image` lays out from its header, the
      trainer bytes and the two ROM images the loader cut out. With
      `ImageRoundTrip` this makes acceptance and the supported layout the
      same thing. */
  lemma AcceptedIsImage(buffer: seq<byte>)
    requires DecodeRom(buffer).Ok?
    ensures |buffer| >= RomStart(HeaderOf(buffer)) >= HeaderSize
    ensures buffer == Image(HeaderOf(buffer), buffer[HeaderSize..RomStart(HeaderOf(buffer))],
                            DecodeRom(buffer).value.mapper.prgRom,
                            DecodeRom(buffer).value.mapper.chrRom)
  {
    AcceptedHeader(buffer);
    AcceptedLayout(buffer);
    var c := DecodeRom(buffer).value;
    var h := HeaderOf(buffer);
    var start := RomStart(h);
    var prgEnd := start + PrgRomSize(h);
    assert c.mapper.prgRom == buffer[start..prgEnd];
    assert c.mapper.chrRom == buffer[prgEnd..];
    assert buffer[..HeaderSize] == HeaderBytes(h) by {
      assert buffer[..4] == Title;
      assert forall j :: 11 <= j < 16 ==> buffer[j] == 0;
    }
    assert buffer == buffer[..HeaderSize] + buffer[HeaderSize..start] + buffer[start..prgEnd] + buffer[prgEnd..];
  }

  /** The header bytes for given fields, with the title and zero padding. */
  function HeaderBytes(h: Header): (bytes: seq<byte>)
    ensures |bytes| == HeaderSize
  {
    Title + [h.prgBanks, h.chrBanks, h.flags6, h.flags7, h.flags8, h.flags9, h.flags10, 0, 0, 0, 0, 0]
  }

  /** A ROM image laid out as iNES prescribes. */
  function Image(h: Header, trainer: seq<byte>, prg: seq<byte>, chr: seq<byte>): seq<byte>
  {
    HeaderBytes(h) + trainer + prg + chr
  }

  /** A header the loader supports: iNES rather than NES 2.0, reserved bits
      of flags 9 clear, mapper 0. */
  predicate Supported(h: Header)
  {
    !IsNes20(h.flags7) && ReservedBitsClear(h.flags9) && MapperId(h.flags6, h.flags7) == 0
  }

  /** Loading an image built from a supported header, a trainer exactly when
      the header announces one, and ROM images of the announced sizes gives
      back the ROM images and the decoded header fields. */
  lemma ImageRoundTrip(h: Header, trainer: seq<byte>, prg: seq<byte>, chr: seq<byte>)
    requires Supported(h)
    requires |trainer| == (if HasTrainer(h.flags6) then TrainerSize else 0)
    requires |prg| == PrgRomSize(h) && |chr| == ChrRomSize(h)
    ensures DecodeRom(Image(h, trainer, prg, chr)).Ok?
    ensures var c := DecodeRom(Image(h, trainer, prg, chr)).value;
            && c.format == Ines && c.size == |Image(h, trainer, prg, chr)|
            && c.mapper == Mapper.Nrom(prg, chr)
            && c.prgRomSize == PrgRomSize(h) && c.chrRomSize == ChrRomSize(h)
            && c.prgRomBanks == h.prgBanks && c.chrRomBanks == h.chrBanks
            && c.prgRamBanks == h.flags8
            && c.mirroring == MirroringOf(h.flags6) && c.consoleType == ConsoleTypeOf(h.flags7)
            && c.tvSystem == TvSystemOf(h.flags9) && c.hasTrainer == HasTrainer(h.flags6)
            && c.hasBattery == HasBattery(h.flags6) && c.hasAlterNt == HasAlterNtLayout(h.flags6)
  {
    var image := Image(h, trainer, prg, chr);
    ImageHeader(h, trainer, prg, chr);
    assert DecodeRom(image) == DecodeInes(image);
    var start := RomStart(h);
    assert image[start..start + |prg|] == prg;
    assert image[start + |prg|..] == chr;
  }

  /** The header of a laid-out image reads back as the header it was laid out
      from, with the title, zero padding and the announced total size. */
  lemma ImageHeader(h: Header, trainer: seq<byte>, prg: seq<byte>, chr: seq<byte>)
    requires Supported(h)
    requires |trainer| == (if HasTrainer(h.flags6) then TrainerSize else 0)
    requires |prg| == PrgRomSize(h) && |chr| == ChrRomSize(h)
    ensures |Image(h, trainer, prg, chr)| == TotalSize(h)
    ensures IsInesHeader(Image(h, trainer, prg, chr))
    ensures HeaderOf(Image(h, trainer, prg, chr)) == h
    ensures PaddingZero(Image(h, trainer, prg, chr))
    ensures GetRomFormat(Image(h, trainer, prg, chr)) == Ines
  {
    var image := Image(h, trainer, prg, chr);
    assert image[..4] == Title;
    assert HeaderOf(image) == h;
  }

  /** Rust `Cartridge::read` on a loaded image with a full PRG bank: the
      byte at a PRG address is the image byte that many bytes (modulo 16 KiB)
      into PRG-ROM. */
  lemma LoadedPrgRead(buffer: seq<byte>, addr: word)
    requires DecodeRom(buffer).Ok?
    requires |DecodeRom(buffer).value.mapper.prgRom| >= 0x4000
    requires Mapper.InPrgWindow(addr)
    ensures RomStart(HeaderOf(buffer)) + Mapper.PrgIndex(addr) < |buffer|
    ensures CartridgeRead(DecodeRom(buffer).value, addr)
            == Ok(buffer[RomStart(HeaderOf(buffer)) + Mapper.PrgIndex(addr)])
  {
    AcceptedLayout(buffer);
  }
}

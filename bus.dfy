/** The CPU memory bus of both builds: 2 KiB of RAM mirrored four times over
    0x0000-0x1FFF, the PPU and APU/I-O registers (not emulated: they read as
    zero and ignore writes), and the cartridge from 0x4020 up. */
module Bus {
  import opened Bytes
  import opened Results
  import Mapper
  import Rom
  import Cartridges

  const RamSize: nat := 2048

  /** The address ranges the bus decodes. */
  datatype Region = Ram | PpuRegisters | ApuIoRegisters | ApuIoDisabled | CartridgeSpace

  function RegionOf(addr: word): Region
  {
    if addr <= 0x1FFF then Ram
    else if addr <= 0x3FFF then PpuRegisters
    else if addr <= 0x4017 then ApuIoRegisters
    else if addr <= 0x401F then ApuIoDisabled
    else CartridgeSpace
  }

  /** `address & 0x07FF`: the RAM cell an address in 0x0000-0x1FFF selects. */
  function RamIndex(addr: word): nat { addr as int % 0x800 }

  /** Two RAM addresses select the same cell exactly when they differ by a
      multiple of 0x800. */
  predicate SameCell(a1: word, a2: word)
  {
    RegionOf(a1) == Ram && RegionOf(a2) == Ram && RamIndex(a1) == RamIndex(a2)
  }

  /** Why a bus read or write has no result: no cartridge is connected (a
      null `shared_ptr` dereference in C++), or the mapper has none. */
  datatype BusFault = NoCartridge | CartridgeFault(fault: Mapper.Fault)

  function FromMapper(r: Result<byte, Mapper.Fault>): Result<byte, BusFault>
  {
    match r
    case Ok(v) => Ok(v)
    case Err(f) => Err(CartridgeFault(f))
  }

  /** The RAM after a write: the one cell the address selects, if the
      address is in RAM, holds the data; every other cell is kept. */
  function RamAfterWrite(ram: seq<byte>, addr: word, data: byte): (after: seq<byte>)
    requires |ram| == RamSize
    ensures |after| == RamSize
    ensures forall i :: 0 <= i < RamSize && (RegionOf(addr) != Ram || i != RamIndex(addr))
                        ==> after[i] == ram[i]
    ensures RegionOf(addr) == Ram ==> after[RamIndex(addr)] == data
  {
    if RegionOf(addr) == Ram then ram[RamIndex(addr) := data] else ram
  }

  /** The Rust `CpuBus`: zero-filled RAM and the cartridge it owns. */
  class CpuBus {
    const ram: array<byte>
    const cartridge: Rom.Cartridge

    predicate Valid() { ram.Length == RamSize }

    /** `CpuBus::new`: RAM zero-filled. */
    constructor (cartridge: Rom.Cartridge)
      ensures Valid() && fresh(ram)
      ensures ram[..] == seq(RamSize, _ => 0) && this.cartridge == cartridge
    {
      ram := new byte[RamSize](_ => 0);
      this.cartridge := cartridge;
    }

    /** `read`: RAM through the mirror mask, zero for the register ranges,
        the cartridge from 0x4020 up. */
    function Read(addr: word): (r: Result<byte, BusFault>)
      requires Valid()
      reads ram
      ensures RegionOf(addr) == Ram ==> r == Ok(ram[RamIndex(addr)])
      ensures RegionOf(addr) in {PpuRegisters, ApuIoRegisters, ApuIoDisabled} ==> r == Ok(0)
      ensures RegionOf(addr) == CartridgeSpace ==> r == FromMapper(Rom.CartridgeRead(cartridge, addr))
    {
      match RegionOf(addr)
      case Ram => Ok(ram[RamIndex(addr)])
      case PpuRegisters => Ok(0)
      case ApuIoRegisters => Ok(0)
      case ApuIoDisabled => Ok(0)
      case CartridgeSpace => FromMapper(Rom.CartridgeRead(cartridge, addr))
    }

    /** `write`: the RAM cell the address selects takes the data; writes
        anywhere else, the cartridge included, are dropped. A read from any
        mirror of the written cell then gives the data, and every other
        address reads as before. */
    method Write(addr: word, data: byte)
      requires Valid()
      modifies ram
      ensures ram[..] == RamAfterWrite(old(ram[..]), addr, data)
      ensures forall a :: SameCell(a, addr) ==> Read(a) == Ok(data)
      ensures forall a :: !SameCell(a, addr) ==> Read(a) == old(Read(a))
    {
      match RegionOf(addr)
      case Ram => ram[RamIndex(addr)] := data;
      case PpuRegisters =>
      case ApuIoRegisters =>
      case ApuIoDisabled =>
      case CartridgeSpace =>
    }
  }

  /** RAM is mirrored every 0x800 bytes over 0x0000-0x1FFF. */
  lemma RamMirrored(bus: CpuBus, addr: word)
    requires bus.Valid() && addr <= 0x17FF
    ensures bus.Read(addr) == bus.Read(addr + 0x800)
  {
    assert RamIndex(addr + 0x800) == RamIndex(addr);
  }

  /** On a bus built over a loaded image with a full 16 KiB PRG bank, a read
      in 0x8000-0xFFFF gives the image byte that many bytes (modulo 16 KiB)
      into PRG-ROM. */
  lemma BusReadsImage(buffer: seq<byte>, bus: CpuBus, addr: word)
    requires Rom.DecodeRom(buffer).Ok? && bus.Valid() && bus.cartridge == Rom.DecodeRom(buffer).value
    requires |bus.cartridge.mapper.prgRom| >= 0x4000
    requires addr >= 0x8000
    ensures Rom.RomStart(Rom.HeaderOf(buffer)) + Mapper.PrgIndex(addr) < |buffer|
    ensures bus.Read(addr) == Ok(buffer[Rom.RomStart(Rom.HeaderOf(buffer)) + Mapper.PrgIndex(addr)])
  {
    Rom.LoadedPrgRead(buffer, addr);
  }

  /** The C++ `CPUMemoryBus`: RAM the constructor leaves uninitialised, and a
      shared pointer to the cartridge, null until `connect_cartridge`. */
  class CpuMemoryBus {
    const ram: array<byte>
    var cartridge: Cartridges.Cartridge?

    predicate Valid() { ram.Length == RamSize }

    /** `CPUMemoryBus()`: the RAM holds whatever it held (`initial`); no
        cartridge. */
    constructor (initial: seq<byte>)
      requires |initial| == RamSize
      ensures Valid() && fresh(ram)
      ensures ram[..] == initial && cartridge == null
    {
      ram := new byte[RamSize](i requires 0 <= i < RamSize => initial[i]);
      cartridge := null;
      new;
      assert ram[..] == initial;
    }

    /** `connect_cartridge`: the bus now reads through this cartridge. */
    method ConnectCartridge(c: Cartridges.Cartridge)
      modifies this
      ensures cartridge == c && ram[..] == old(ram[..])
    {
      cartridge := c;
    }

    /** `read`: RAM through the mirror mask, zero for the register ranges,
        `cartridge->read` from 0x4020 up. */
    function Read(addr: word): (r: Result<byte, BusFault>)
      requires Valid()
      reads this, ram, if cartridge == null then {} else {cartridge.mapper}
      ensures RegionOf(addr) == Ram ==> r == Ok(ram[RamIndex(addr)])
      ensures RegionOf(addr) in {PpuRegisters, ApuIoRegisters, ApuIoDisabled} ==> r == Ok(0)
      ensures RegionOf(addr) == CartridgeSpace ==>
                r == if cartridge == null then Err(NoCartridge) else FromMapper(cartridge.Read(addr))
    {
      if addr <= 0x1FFF then Ok(ram[RamIndex(addr)])
      else if 0x2000 <= addr <= 0x3FFF then Ok(0)
      else if 0x4000 <= addr <= 0x4017 then Ok(0)
      else if 0x4018 <= addr <= 0x401F then Ok(0)
      else if cartridge == null then Err(NoCartridge)
      else FromMapper(cartridge.Read(addr))
    }

    /** `write`: the RAM cell the address selects takes the data; writes to
        the register ranges (the DMA register 0x4014 among them) are dropped;
        from 0x4020 up the write goes to `cartridge->write`, which changes
        nothing, or fails when no cartridge is connected. */
    method Write(addr: word, data: byte) returns (r: Result<(), BusFault>)
      requires Valid()
      modifies ram
      ensures r.Err? <==> RegionOf(addr) == CartridgeSpace && cartridge == null
      ensures ram[..] == RamAfterWrite(old(ram[..]), addr, data)
      ensures forall a :: SameCell(a, addr) ==> Read(a) == Ok(data)
      ensures forall a :: !SameCell(a, addr) ==> Read(a) == old(Read(a))
    {
      r := Ok(());
      if addr <= 0x1FFF {
        ram[RamIndex(addr)] := data;
        return;
      }
      if 0x2000 <= addr <= 0x3FFF {
        return;
      }
      if addr == 0x4014 {
        return;
      }
      if 0x4000 <= addr <= 0x4017 {
        return;
      }
      if 0x4018 <= addr <= 0x401F {
        return;
      }
      if cartridge == null {
        r := Err(NoCartridge);
      } else {
        cartridge.Write(addr, data);
      }
    }
  }

  /** RAM is mirrored every 0x800 bytes over 0x0000-0x1FFF. */
  lemma MemoryBusRamMirrored(bus: CpuMemoryBus, addr: word)
    requires bus.Valid() && addr <= 0x17FF
    ensures bus.Read(addr) == bus.Read(addr + 0x800)
  {
    assert RamIndex(addr + 0x800) == RamIndex(addr);
  }

  /** Before `connect_cartridge`, every read from 0x4020 up fails. */
  lemma UnconnectedCartridgeSpace(bus: CpuMemoryBus, addr: word)
    requires bus.Valid() && bus.cartridge == null && addr >= 0x4020
    ensures bus.Read(addr) == Err(NoCartridge)
  {
  }
}

// The 64 KB memory of the machine (`RAM64K`): a flat RAM array, a 4 KB
// shadow of the I/O area $D000..$DFFF, and the two hooks the emulator
// registers for reads and writes there. Bits 0-1 of the byte at $01 select
// whether $D000..$DFFF is RAM or I/O for the banked accessors.
//
// `Bus` is the value-level view that the CPU and the emulator specify
// themselves against; the `Ram64K` class is proved against it.
module Memory {
  import opened Bits
  import opened SoundChip
  import opened IoRegisters

  const RamSize: nat := 0x1_0000
  const IoSize: nat := 0x1000
  const IoBase: nat := 0xd000

  predicate InIoRange(addr: word) {
    IoBase <= addr < IoBase + IoSize
  }

  /**
   * The banking test of `Read` and `Write`: the I/O area is seen unless
   * `($01 & 3) == 0`, and only for addresses $D000..$DFFF.
   */
  predicate IoVisible(port: byte, addr: word) {
    port % 4 != 0 && InIoRange(addr)
  }

  /** RAM contents, I/O shadow, and the state behind the hooks (None while no hooks are registered). */
  datatype Bus = Bus(ram: seq<byte>, io: seq<byte>, hooks: Option<Peripherals>)
  {
    predicate Valid() {
      |ram| == RamSize && |io| == IoSize
    }
  }

  // ---- reads ----

  /**
   * `ReadIO(address, readInput)`: inside the I/O area the read hook answers
   * first (when asked to and registered); a declined read falls back to the
   * shadow. Outside the area it reads RAM.
   */
  function BusReadIO(b: Bus, addr: word, readInput: bool): (r: (byte, Bus))
    requires b.Valid()
    ensures r.1.Valid() && r.1.ram == b.ram && r.1.io == b.io
  {
    if !InIoRange(addr) then (b.ram[addr], b)
    else if readInput && b.hooks.Some? then
      var (answer, after) := HookRead(b.hooks.value, b.io, addr);
      (if answer.Some? then answer.value else b.io[addr - IoBase], b.(hooks := Some(after)))
    else (b.io[addr - IoBase], b)
  }

  /** The banked `Read`: RAM unless the I/O area is visible at `addr`. */
  function BusRead(b: Bus, addr: word): (r: (byte, Bus))
    requires b.Valid()
    ensures r.1.Valid() && r.1.ram == b.ram && r.1.io == b.io
  {
    if !IoVisible(b.ram[1], addr) then (b.ram[addr], b) else BusReadIO(b, addr, true)
  }

  /** `Read16`: low byte at `addr`, high byte at `addr + 1` wrapping $FFFF to $0000. */
  function BusRead16(b: Bus, addr: word): (r: (word, Bus))
    requires b.Valid()
    ensures r.1.Valid() && r.1.ram == b.ram && r.1.io == b.io
  {
    var (lo, b1) := BusRead(b, addr);
    var (hi, b2) := BusRead(b1, Wrap16(addr + 1));
    (Word(lo, hi), b2)
  }

  // ---- writes ----

  /**
   * `WriteIO`: inside the I/O area the write hook runs first, seeing the
   * shadow as it was, then the byte is stored in the shadow; outside, RAM.
   * `now` is the processor's cycle count, which the hook reads.
   */
  function BusWriteIO(b: Bus, addr: word, value: byte, now: int): (r: Bus)
    requires b.Valid()
    ensures r.Valid()
  {
    if !InIoRange(addr) then b.(ram := b.ram[addr := value])
    else
      var hooks := if b.hooks.Some? then Some(HookWrite(b.hooks.value, b.io, addr, value, now)) else None;
      b.(io := b.io[addr - IoBase := value], hooks := hooks)
  }

  /** The banked `Write`. */
  function BusWrite(b: Bus, addr: word, value: byte, now: int): (r: Bus)
    requires b.Valid()
    ensures r.Valid()
  {
    if !IoVisible(b.ram[1], addr) then b.(ram := b.ram[addr := value]) else BusWriteIO(b, addr, value, now)
  }

  /** `Write16`: low byte first, then the high byte at the wrapped next address. */
  function BusWrite16(b: Bus, addr: word, value: word, now: int): (r: Bus)
    requires b.Valid()
    ensures r.Valid()
  {
    BusWrite(BusWrite(b, addr, Lo(value), now), Wrap16(addr + 1), Hi(value), now)
  }

  // ---- properties of the bus ----

  /** With bits 0-1 of $01 clear, every address is plain RAM for both reads and writes. */
  lemma AllRamWhenBankedOut(b: Bus, addr: word, value: byte, now: int)
    requires b.Valid() && b.ram[1] % 4 == 0
    ensures BusRead(b, addr) == (b.ram[addr], b)
    ensures BusWrite(b, addr, value, now) == b.(ram := b.ram[addr := value])
  {
  }

  /**
   * A visible I/O write changes exactly one shadow byte, never RAM: the RAM
   * under the I/O area is only reachable with the area banked out.
   */
  lemma IoWriteSparesRam(b: Bus, addr: word, value: byte, now: int)
    requires b.Valid() && IoVisible(b.ram[1], addr)
    ensures var after := BusWrite(b, addr, value, now);
      after.ram == b.ram &&
      after.io[addr - IoBase] == value &&
      forall k :: 0 <= k < IoSize && k != addr - IoBase ==> after.io[k] == b.io[k]
  {
  }

  /** The write hook runs on the shadow as it was before the store. */
  lemma HookBeforeStore(b: Bus, addr: word, value: byte, now: int)
    requires b.Valid() && IoVisible(b.ram[1], addr) && b.hooks.Some?
    ensures BusWrite(b, addr, value, now).hooks == Some(HookWrite(b.hooks.value, b.io, addr, value, now))
  {
  }

  /**
   * Write then read at the same address gives the value back, unless the
   * address is visible I/O whose read a registered hook answers.
   */
  lemma WriteReadBack(b: Bus, addr: word, value: byte, now: int)
    requires b.Valid()
    requires !IoVisible(b.ram[1], addr) || b.hooks.None? || !ReadHandled(addr)
    ensures BusRead(BusWrite(b, addr, value, now), addr).0 == value
  {
    if IoVisible(b.ram[1], addr) {
      assert addr != 1;
      var after := BusWrite(b, addr, value, now);
      assert after.ram[1] == b.ram[1];
      if b.hooks.Some? {
        assert after.hooks.Some?;
      }
    }
  }

  /**
   * A RAM write anywhere but $01 changes no other address's read value
   * ($01 itself moves the banking, and so can change reads in $D000..$DFFF).
   */
  lemma RamWriteIsLocal(b: Bus, addr: word, value: byte, now: int, other: word)
    requires b.Valid() && !IoVisible(b.ram[1], addr) && addr != 1 && other != addr
    ensures BusRead(BusWrite(b, addr, value, now), other).0 == BusRead(b, other).0
  {
    var after := BusWrite(b, addr, value, now);
    assert after.ram[1] == b.ram[1];
    assert after.ram[other] == b.ram[other];
  }

  /** Neither byte of a 16-bit access in visible I/O: a 16-bit write reads back. */
  lemma Word16RoundTrip(b: Bus, addr: word, value: word, now: int)
    requires b.Valid() && !IoVisible(b.ram[1], addr) && !IoVisible(b.ram[1], Wrap16(addr + 1))
    ensures BusRead16(BusWrite16(b, addr, value, now), addr).0 == value
  {
    var next := Wrap16(addr + 1);
    var b1 := BusWrite(b, addr, Lo(value), now);
    var b2 := BusWrite(b1, next, Hi(value), now);
    assert next != addr;
    // Only a write to $01 moves the banking, and neither byte of $01/$02 is in the I/O area.
    assert !IoVisible(b1.ram[1], next);
    assert b2.ram[addr] == Lo(value) && b2.ram[next] == Hi(value);
    assert !IoVisible(b2.ram[1], addr) && !IoVisible(b2.ram[1], next);
    WordOfHalves(value);
  }

  /** `Read16($FFFF)` takes its high byte from $0000. */
  lemma Read16Wraps(b: Bus)
    requires b.Valid()
    ensures BusRead16(b, 0xffff) == (Word(b.ram[0xffff], b.ram[0]), b)
  {
  }

  /** `Write16($FFFF, w)` stores the high byte at $0000. */
  lemma Write16Wraps(b: Bus, value: word, now: int)
    requires b.Valid()
    ensures BusWrite16(b, 0xffff, value, now) == b.(ram := b.ram[0xffff := Lo(value)][0 := Hi(value)])
  {
  }

  // ---- block transfers ----

  function Min(a: int, b: int): int { if a <= b then a else b }

  /**
   * `Read(address, buffer, size)`: the byte count `Buffer.BlockCopy` is
   * asked for (0 means the whole buffer, clamped to the end of memory), or
   * None when that call would throw (a negative count, or more than the
   * buffer holds).
   */
  function BlockCount(addr: word, bufferLength: nat, size: int): (r: Option<nat>)
    ensures r.Some? ==> addr + r.value <= RamSize && r.value <= bufferLength
  {
    var n := Min(if size == 0 then bufferLength else size, RamSize - addr);
    if n < 0 || n > bufferLength then None else Some(n)
  }

  /** A block read fails exactly on a negative size, or a size past the buffer that memory does not cap. */
  lemma BlockCountFaults(addr: word, bufferLength: nat, size: int)
    ensures BlockCount(addr, bufferLength, size).None? <==>
      size < 0 || (size > bufferLength && RamSize - addr > bufferLength)
  {
  }

  /**
   * `Load(data, address, size)`: the number of bytes the stream copies. A
   * size <= 0 means all of the data; the count is clamped to the end of
   * memory, and the memory stream never yields more than `data` holds.
   */
  function LoadCount(dataLength: nat, addr: word, size: int): (n: nat)
  {
    var first := Min(if size <= 0 then dataLength else size, RamSize - addr);
    // `Load(Stream, …)` applies its own defaulting and clamp to the count it is given
    var second := Min(if first <= 0 then dataLength else first, RamSize - addr);
    Min(second, dataLength)
  }

  /** Load never writes past $FFFF, never copies more than the data, and copies all of it when it fits. */
  lemma LoadClamp(dataLength: nat, addr: word, size: int)
    ensures addr + LoadCount(dataLength, addr, size) <= RamSize
    ensures LoadCount(dataLength, addr, size) <= dataLength
    ensures LoadCount(dataLength, addr, size) ==
      Min(Min(if size <= 0 then dataLength else size, RamSize - addr), dataLength)
    ensures size <= 0 && addr + dataLength <= RamSize ==> LoadCount(dataLength, addr, size) == dataLength
  {
  }

  // ---- the memory object ----

  class Ram64K {
    const ram: array<byte>
    const ioRam: array<byte>
    /** The emulator's `HandleIORead`/`HandleIOWrite`, registered together; null when none are. */
    const hooks: IoHooks?

    ghost predicate Valid() {
      ram.Length == RamSize && ioRam.Length == IoSize && ram != ioRam &&
      (hooks != null ==> |hooks.sid.channels| == 3)
    }

    ghost predicate HooksValid()
      reads if hooks == null then {} else {hooks, hooks.sid}, if hooks == null then [] else hooks.sid.channels
    {
      hooks != null ==> hooks.Valid()
    }

    function State(): (b: Bus)
      reads this, ram, ioRam, hooks, if hooks == null then {} else {hooks.sid}
      reads if hooks == null then [] else hooks.sid.channels
      requires Valid()
      ensures b.Valid()
    {
      Bus(ram[..], ioRam[..], if hooks == null then None else Some(hooks.State()))
    }

    /** Both arrays zero-filled, with the given hooks registered. */
    constructor (hooks: IoHooks?)
      requires hooks != null ==> |hooks.sid.channels| == 3
      ensures Valid() && fresh(ram) && fresh(ioRam) && this.hooks == hooks
      ensures forall a :: 0 <= a < RamSize ==> ram[a] == 0
      ensures forall k :: 0 <= k < IoSize ==> ioRam[k] == 0
    {
      ram := new byte[RamSize];
      ioRam := new byte[IoSize];
      this.hooks := hooks;
      new;
      for i := 0 to ram.Length
        invariant forall a :: 0 <= a < i ==> ram[a] == 0
      {
        ram[i] := 0;
      }
      for i := 0 to ioRam.Length
        invariant forall k :: 0 <= k < i ==> ioRam[k] == 0
        invariant forall a :: 0 <= a < RamSize ==> ram[a] == 0
      {
        ioRam[i] := 0;
      }
    }

    method Read(address: word) returns (value: byte)
      requires Valid()
      modifies hooks
      ensures (value, State()) == BusRead(old(State()), address)
      ensures old(HooksValid()) ==> HooksValid()
    {
      if ram[1] % 4 == 0 || address < 0xd000 || address >= 0xe000 {
        value := ReadRAM(address);
      } else {
        value := ReadIO(address, true);
      }
    }

    /** The unbanked RAM read: $D000..$DFFF reads the RAM under the I/O area whatever $01 holds. */
    method ReadRAM(address: word) returns (value: byte)
      requires Valid()
      ensures value == State().ram[address]
    {
      value := ram[address];
    }

    method ReadIO(address: word, readInput: bool) returns (value: byte)
      requires Valid()
      modifies hooks
      ensures (value, State()) == BusReadIO(old(State()), address, readInput)
      ensures old(HooksValid()) ==> HooksValid()
    {
      if address != 0xdc0d {
        value := PeekIO(address, readInput);
      } else if readInput && hooks != null {
        var handled;
        value, handled := hooks.HandleIORead(address, ioRam);
      } else {
        value := ioRam[address - 0xd000];
      }
    }

    /** `ReadIO` of any address but $DC0D, which changes nothing. */
    method PeekIO(address: word, readInput: bool) returns (value: byte)
      requires Valid() && address != 0xdc0d
      ensures (value, State()) == BusReadIO(State(), address, readInput)
    {
      if 0xd000 <= address < 0xe000 {
        if readInput && hooks != null {
          var ret, handled := hooks.PeekIORead(address, ioRam);
          if handled {
            return ret;
          }
        }
        value := ioRam[address - 0xd000];
      } else {
        value := ram[address];
      }
    }

    method Read16(address: word) returns (value: word)
      requires Valid()
      modifies hooks
      ensures (value, State()) == BusRead16(old(State()), address)
      ensures old(HooksValid()) ==> HooksValid()
    {
      var a := Read(address);
      var b := Read((address + 1) % 0x1_0000);
      value := Word(a, b);
    }

    /**
     * `Read(address, buffer, size)`: copies the counted bytes to the start of
     * `buffer`; `ok` is false where the runtime copy would throw, and then
     * nothing is copied.
     */
    method ReadBlock(address: word, buffer: array<byte>, size: int) returns (ok: bool)
      requires Valid() && buffer != ram
      modifies buffer
      ensures var count := BlockCount(address, buffer.Length, size);
        ok == count.Some? &&
        (ok ==> buffer[..count.value] == ram[address..address + count.value] &&
                buffer[count.value..] == old(buffer[count.value..]))
      ensures !ok ==> buffer[..] == old(buffer[..])
    {
      var n := Min(if size == 0 then buffer.Length else size, 0x1_0000 - address);
      if n < 0 || n > buffer.Length {
        return false;
      }
      forall i | 0 <= i < n {
        buffer[i] := ram[address + i];
      }
      ok := true;
    }

    method Write(address: word, value: byte, now: int)
      requires Valid() && HooksValid()
      modifies ram, ioRam, if hooks == null then {} else {hooks}, if hooks == null then [] else hooks.sid.channels
      ensures HooksValid()
      ensures State() == BusWrite(old(State()), address, value, now)
    {
      if ram[1] % 4 == 0 || address < 0xd000 || address >= 0xe000 {
        WriteRAM(address, value);
      } else {
        WriteIO(address, value, now);
      }
    }

    /** The unbanked RAM write. */
    method WriteRAM(address: word, value: byte)
      requires Valid()
      modifies ram
      ensures State() == old(State()).(ram := old(State()).ram[address := value])
    {
      ram[address] := value;
    }

    method WriteIO(address: word, value: byte, now: int)
      requires Valid() && HooksValid()
      modifies ram, ioRam, if hooks == null then {} else {hooks}, if hooks == null then [] else hooks.sid.channels
      ensures HooksValid()
      ensures State() == BusWriteIO(old(State()), address, value, now)
      ensures hooks != null && 0xd400 <= address <= 0xd418 ==>
        hooks.sid.Voices() == BufferSpec(old(hooks.sid.Voices()), SidRegisters(old(ioRam[..])), now - old(hooks.audioCycles))
      ensures hooks != null && !(0xd400 <= address <= 0xd418) ==> hooks.sid.Voices() == old(hooks.sid.Voices())
    {
      if 0xd000 <= address < 0xe000 {
        WriteDevice(address, value, now);
      } else {
        ram[address] := value;
      }
    }

    /** The I/O half of `WriteIO`: the hook runs before the value changes. */
    method WriteDevice(address: word, value: byte, now: int)
      requires Valid() && HooksValid() && 0xd000 <= address < 0xe000
      modifies ioRam, if hooks == null then {} else {hooks}, if hooks == null then [] else hooks.sid.channels
      ensures HooksValid()
      ensures State() == BusWriteIO(old(State()), address, value, now)
      ensures hooks != null && 0xd400 <= address <= 0xd418 ==>
        hooks.sid.Voices() == BufferSpec(old(hooks.sid.Voices()), SidRegisters(old(ioRam[..])), now - old(hooks.audioCycles))
      ensures hooks != null && !(0xd400 <= address <= 0xd418) ==> hooks.sid.Voices() == old(hooks.sid.Voices())
    {
      if hooks != null {
        hooks.HandleIOWrite(address, value, ioRam, now);
      }
      StoreIO(address - 0xd000, value);
    }

    /** The store into the I/O shadow RAM that follows the hook. */
    method StoreIO(offset: nat, value: byte)
      requires Valid() && offset < IoSize
      modifies ioRam
      ensures ioRam[..] == old(ioRam[..])[offset := value]
    {
      ioRam[offset] := value;
    }

    method Write16(address: word, value: word, now: int)
      requires Valid() && HooksValid()
      modifies ram, ioRam, if hooks == null then {} else {hooks}, if hooks == null then [] else hooks.sid.channels
      ensures HooksValid()
      ensures State() == BusWrite16(old(State()), address, value, now)
    {
      Write(address, value % 0x100, now);
      Write((address + 1) % 0x1_0000, value / 0x100, now);
    }

    /** `Load(data, address, size)`: copies the first `LoadCount` bytes of `data` to `address` onwards. */
    method Load(data: seq<byte>, address: word, size: int)
      requires Valid()
      modifies ram
      ensures var n := LoadCount(|data|, address, size);
        ram[..] == old(ram[..address]) + data[..n] + old(ram[address + n..])
    {
      var count := Min(if size <= 0 then |data| else size, 0x1_0000 - address);
      if count <= 0 {
        count := |data|;
      }
      count := Min(count, 0x1_0000 - address);
      var n := Min(count, |data|);
      LoadClamp(|data|, address, size);
      forall i | 0 <= i < n {
        ram[address + i] := data[i];
      }
      assert ram[..] == old(ram[..address]) + data[..n] + old(ram[address + n..]);
    }
  }
}

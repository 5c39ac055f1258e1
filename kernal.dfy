// The KERNAL traps of the emulator (`HandleKernalTrap`): when the processor
// reaches one of the file routines at $FF00..$FFFF the emulator performs the
// routine itself against the disk image and the processor then returns as
// from an RTS. SETNAM copies the file name out of memory, CHKIN opens the
// file on the disk image, CHRIN reads one byte into A and sets the status
// byte ST at $90, CLOSE drops the handle and CIOUT reports an error to keep
// fast loaders from running.
module Kernal {
  import opened Bits
  import opened IoRegisters
  import opened Memory
  import opened Disk

  const SetNam: word := 0xffbd
  const ChkIn: word := 0xffc6
  const ChrIn: word := 0xffcf
  const ChkOut: word := 0xffc9
  const ChrOut: word := 0xffd2
  const CloseFile: word := 0xffc3
  const CiOut: word := 0xffa8

  /** The KERNAL status variable ST. */
  const StatusByte: word := 0x90
  /** ST after a read: end of file. */
  const EndOfFile: byte := 0x40
  /** ST from CHRIN without a file: end of file, file not found. */
  const NotFound: byte := 0x42
  /** ST from CIOUT: a serial bus error. */
  const BusError: byte := 0x80

  /**
   * How a trap ended: normally, by an exception the C# code lets escape (an
   * index outside the disk image, or the warning that prints the first two
   * bytes of a missing or short file name), or in a directory walk longer
   * than the fuel allows.
   */
  datatype Completion = Normal | Threw | NoFuel

  /** `_fileName` (null until SETNAM runs) and the current `_fileHandle`. */
  datatype Files = Files(fileName: Option<seq<byte>>, handle: Option<Handle>)

  datatype TrapResult = TrapResult(bus: Bus, files: Files, a: byte, completion: Completion)

  // ---- SETNAM ----

  /** `n` banked reads from `addr` upwards, the address wrapping at $FFFF. */
  function ReadBytes(b: Bus, addr: word, n: nat): (r: (seq<byte>, Bus))
    requires b.Valid()
    ensures |r.0| == n && r.1.Valid() && r.1.ram == b.ram && r.1.io == b.io
  {
    if n == 0 then ([], b)
    else
      var (s, b1) := ReadBytes(b, addr, n - 1);
      var (v, b2) := BusRead(b1, Wrap16(addr + n - 1));
      (s + [v], b2)
  }

  /**
   * Where SETNAM's name starts and how long it is: a name starting "@0"
   * loses its first three bytes ("@0:") and its length drops by 3 modulo
   * 256. The second byte is read only when the first is "@".
   */
  function NamePrefix(b: Bus, a: byte, x: byte, y: byte): (r: (word, byte, Bus))
    requires b.Valid()
    ensures r.2.Valid() && r.2.ram == b.ram && r.2.io == b.io
  {
    var addr := Word(x, y);
    var (first, b1) := BusRead(b, addr);
    if first == 0x40 then
      var (second, b2) := BusRead(b1, Wrap16(addr + 1));
      if second == 0x30 then (Wrap16(addr + 3), Wrap8(a - 3), b2) else (addr, a, b2)
    else (addr, a, b1)
  }

  /** What SETNAM reads: the name from where `NamePrefix` puts it. */
  function SetNameSpec(b: Bus, a: byte, x: byte, y: byte): (r: (seq<byte>, Bus))
    requires b.Valid()
    ensures r.1.Valid() && r.1.ram == b.ram && r.1.io == b.io
  {
    var (addr, length, b1) := NamePrefix(b, a, x, y);
    ReadBytes(b1, addr, length)
  }

  /** The RAM bytes from `addr` on, wrapping at $FFFF. */
  function RamBytes(ram: seq<byte>, addr: word, n: nat): (s: seq<byte>)
    requires |ram| == RamSize
    ensures |s| == n
  {
    seq(n, i requires 0 <= i < n => ram[Wrap16(addr + i)])
  }

  /** None of the `n` bytes from `addr` on (wrapping at $FFFF) lies in the visible I/O area. */
  predicate RamRange(b: Bus, addr: word, n: nat)
    requires b.Valid()
  {
    n == 0 || (RamRange(b, addr, n - 1) && !IoVisible(b.ram[1], Wrap16(addr + n - 1)))
  }

  /** With the I/O area banked out, or for bytes that all lie below $D000, every read is a RAM read. */
  lemma {:induction false} RamRangeCases(b: Bus, addr: word, n: nat)
    requires b.Valid() && (b.ram[1] % 4 == 0 || addr + n <= IoBase)
    ensures RamRange(b, addr, n)
  {
    if n > 0 {
      RamRangeCases(b, addr, n - 1);
    }
  }

  /** Reads outside the visible I/O area are plain RAM reads, and the hooks never run. */
  lemma {:induction false} ReadBytesFromRam(b: Bus, addr: word, n: nat)
    requires b.Valid() && RamRange(b, addr, n)
    ensures ReadBytes(b, addr, n) == (RamBytes(b.ram, addr, n), b)
  {
    if n > 0 {
      ReadBytesFromRam(b, addr, n - 1);
      assert RamBytes(b.ram, addr, n) == RamBytes(b.ram, addr, n - 1) + [b.ram[Wrap16(addr + n - 1)]];
    }
  }

  /**
   * Every byte SETNAM reads lies outside the visible I/O area: the first
   * byte, the second when the first is "@", and the name itself.
   */
  predicate NameInRam(b: Bus, a: byte, x: byte, y: byte)
    requires b.Valid()
  {
    var addr := Word(x, y);
    !IoVisible(b.ram[1], addr) &&
    (b.ram[addr] == 0x40 ==> !IoVisible(b.ram[1], Wrap16(addr + 1))) &&
    if b.ram[addr] == 0x40 && b.ram[Wrap16(addr + 1)] == 0x30
    then RamRange(b, Wrap16(addr + 3), Wrap8(a - 3))
    else RamRange(b, addr, a)
  }

  /**
   * SETNAM reading RAM only (for instance with the I/O area banked out, or a
   * name below $D000): X/Y pointing at "@0:NAME" with A = 3 + |NAME| records
   * NAME, and any other name as it stands.
   */
  lemma SetNameFromRam(b: Bus, a: byte, x: byte, y: byte)
    requires b.Valid() && NameInRam(b, a, x, y)
    ensures var addr := Word(x, y);
      SetNameSpec(b, a, x, y) ==
        (if b.ram[addr] == 0x40 && b.ram[Wrap16(addr + 1)] == 0x30
         then RamBytes(b.ram, Wrap16(addr + 3), Wrap8(a - 3))
         else RamBytes(b.ram, addr, a), b)
  {
    var addr: int := Word(x, y);
    NamePrefixFromRam(b, a, x, y);
    if b.ram[addr] == 0x40 && b.ram[Wrap16(addr + 1)] == 0x30 {
      ReadBytesFromRam(b, Wrap16(addr + 3), Wrap8(a - 3));
    } else {
      ReadBytesFromRam(b, addr, a);
    }
  }

  /** The "@0:" test reading RAM only: the bus is left as it was. */
  lemma NamePrefixFromRam(b: Bus, a: byte, x: byte, y: byte)
    requires b.Valid() && !IoVisible(b.ram[1], Word(x, y))
    requires b.ram[Word(x, y)] == 0x40 ==> !IoVisible(b.ram[1], Wrap16(Word(x, y) + 1))
    ensures var addr := Word(x, y);
      NamePrefix(b, a, x, y) ==
        (if b.ram[addr] == 0x40 && b.ram[Wrap16(addr + 1)] == 0x30
         then (Wrap16(addr + 3), Wrap8(a - 3), b) else (addr, a, b))
  {
    var addr: int := Word(x, y);
    RamRead(b, addr);
    if b.ram[addr] == 0x40 {
      RamRead(b, Wrap16(addr + 1));
      NamePrefixSteps(b, a, x, y, b.ram[addr], b, b.ram[Wrap16(addr + 1)], b);
    } else {
      NamePrefixSteps(b, a, x, y, b.ram[addr], b, 0, b);
    }
  }

  /** A read outside the visible I/O area returns the RAM byte and leaves the bus alone. */
  lemma RamRead(b: Bus, addr: word)
    requires b.Valid() && !IoVisible(b.ram[1], addr)
    ensures BusRead(b, addr) == (b.ram[addr], b)
  {
  }

  // ---- the traps ----

  /** The warning for a file that did not open prints `_fileName[0]` and `_fileName[1]`. */
  predicate NamePrintable(name: Option<seq<byte>>) {
    name.Some? && |name.value| >= 2
  }

  /** ST after CHRIN read a byte: 0 while the file stays open, end of file once it closed. */
  function ReadStatus(h: Handle): byte {
    if Open(h) then 0 else EndOfFile
  }

  /** SETNAM: records the name; nothing else changes. */
  function SetNamTrap(b: Bus, f: Files, a: byte, x: byte, y: byte): (r: TrapResult)
    requires b.Valid()
    ensures r.bus.Valid()
  {
    var (name, b1) := SetNameSpec(b, a, x, y);
    TrapResult(b1, f.(fileName := Some(name)), a, Normal)
  }

  /**
   * CHKIN: `_fileHandle = OpenFile(_fileName)`. An exception inside
   * `OpenFile` leaves the handle as it was; the missing-file warning throws
   * after the null handle is stored.
   */
  function ChkInTrap(t: DiskType, data: seq<byte>, b: Bus, f: Files, a: byte, fuel: nat): (r: TrapResult)
    requires b.Valid()
    ensures r.bus.Valid()
  {
    var (found, h) := OpenResult(t, data, f.fileName, fuel);
    if found == Unfinished then TrapResult(b, f, a, NoFuel)
    else if found == Fault then TrapResult(b, f, a, Threw)
    else if h.None? && !NamePrintable(f.fileName) then TrapResult(b, f.(handle := None), a, Threw)
    else TrapResult(b, f.(handle := h), a, Normal)
  }

  /** `_ram[0x90] = status`: ST lies below the I/O area, so the banked write stores to RAM. */
  function SetStatus(b: Bus, status: byte): (r: Bus)
    requires b.Valid()
    ensures r.Valid()
  {
    b.(ram := b.ram[StatusByte := status])
  }

  /** Whatever the banking and the hooks, the banked write of ST is `SetStatus`. */
  lemma StatusIsBankedWrite(b: Bus, status: byte, now: int)
    requires b.Valid()
    ensures BusWrite(b, StatusByte, status, now) == SetStatus(b, status)
  {
  }

  /** CHRIN: A gets the next byte of an open file and ST the state of the file. */
  function ChrInTrap(t: DiskType, data: seq<byte>, b: Bus, f: Files, a: byte): (r: TrapResult)
    requires b.Valid()
    ensures r.bus.Valid()
  {
    match f.handle
    case None => TrapResult(SetStatus(b, NotFound), f, a, Normal)
    case Some(h) =>
      if !Open(h) then TrapResult(SetStatus(b, EndOfFile), f, a, Normal)
      else
        var step := ReadStep(t, data, h);
        if step.value.None? then TrapResult(b, f, a, Threw)
        else TrapResult(SetStatus(b, ReadStatus(step.handle)),
                        f.(handle := Some(step.handle)), step.value.value, Normal)
  }

  /**
   * CHKOUT, whose host file is taken not to open, and CLOSE: the handle is
   * dropped; CHKOUT's error message throws on a short name.
   */
  function DropTrap(b: Bus, f: Files, a: byte, address: word): (r: TrapResult) {
    TrapResult(b, f.(handle := None), a,
               if address == ChkOut && !NamePrintable(f.fileName) then Threw else Normal)
  }

  /**
   * `HandleKernalTrap(address)` with the processor's A, X and Y; the result
   * carries the new A. Addresses that are not a handled routine change
   * nothing, CHROUT among them (it has no writer to write to).
   */
  function TrapSpec(t: DiskType, data: seq<byte>, b: Bus, f: Files, address: word,
                    a: byte, x: byte, y: byte, fuel: nat): (r: TrapResult)
    requires b.Valid()
    ensures r.bus.Valid()
  {
    if address == SetNam then SetNamTrap(b, f, a, x, y)
    else if address == ChkIn then ChkInTrap(t, data, b, f, a, fuel)
    else if address == ChrIn then ChrInTrap(t, data, b, f, a)
    else if address == ChkOut || address == CloseFile then DropTrap(b, f, a, address)
    else if address == CiOut then TrapResult(SetStatus(b, BusError), f, a, Normal)
    else TrapResult(b, f, a, Normal)
  }

  /**
   * CHRIN: with a handle, A is the next byte of the file and ST is 0 while
   * bytes remain and $40 once the last byte was read or the file is at its
   * end; without a handle ST is $42. Only ST changes in RAM, and the hooks
   * do not run.
   */
  lemma ChrInStatus(t: DiskType, data: seq<byte>, b: Bus, f: Files, a: byte)
    requires b.Valid()
    ensures var r := ChrInTrap(t, data, b, f, a);
      r.completion == Normal ==>
        (r.bus == b.(ram := b.ram[StatusByte := r.bus.ram[StatusByte]]) &&
         r.files.fileName == f.fileName &&
         (f.handle.None? ==> r.bus.ram[StatusByte] == NotFound && r.a == a) &&
         (f.handle.Some? && !Open(f.handle.value) ==> r.bus.ram[StatusByte] == EndOfFile && r.a == a) &&
         (f.handle.Some? && Open(f.handle.value) ==>
            Some(r.a) == ReadStep(t, data, f.handle.value).value &&
            r.files.handle == Some(ReadStep(t, data, f.handle.value).handle) &&
            (r.bus.ram[StatusByte] == EndOfFile <==> !Open(r.files.handle.value)) &&
            (r.bus.ram[StatusByte] == 0 <==> Open(r.files.handle.value))))
  {
  }

  /**
   * CHKIN: the handle opened is at offset 2 of the file named by the first
   * matching program entry of the first directory sector on the chain that
   * has one, a sector the table gives.
   */
  lemma ChkInOpensEntry(t: DiskType, data: seq<byte>, b: Bus, f: Files, a: byte, fuel: nat)
    requires b.Valid()
    ensures var r := ChkInTrap(t, data, b, f, a, fuel);
      r.completion == Normal && r.files.handle.Some? ==>
        r.files.handle.value.offset == 2 &&
        FirstMatchOnChain(data, DirectoryChain(t, data, fuel), f.fileName,
                          r.files.handle.value.track, r.files.handle.value.sector) &&
        exists tr: nat, se: nat, k: nat ::
          (tr <= MaxTrack && se < MaxSector && EntrySlot(k) &&
           EntryMatches(data, TableEntry(t, tr, se), k, f.fileName) &&
           r.files.handle.value ==
             Handle(data[TableEntry(t, tr, se) + k + 1], data[TableEntry(t, tr, se) + k + 2], 2))
  {
    OpenResultMeaning(t, data, f.fileName, fuel);
  }

  /** CHKIN changes neither memory nor A nor the name. */
  lemma ChkInFrame(t: DiskType, data: seq<byte>, b: Bus, f: Files, a: byte, fuel: nat)
    requires b.Valid()
    ensures var r := ChkInTrap(t, data, b, f, a, fuel);
      r.bus == b && r.a == a && r.files.fileName == f.fileName
  {
  }

  /** CHKIN ends normally without a handle only when the directory chain ran to track 0 without a match. */
  lemma ChkInMissing(t: DiskType, data: seq<byte>, b: Bus, f: Files, a: byte, fuel: nat)
    requires b.Valid()
    ensures var r := ChkInTrap(t, data, b, f, a, fuel);
      r.completion == Normal && r.files.handle.None? ==>
        FindFile(t, data, DirectoryStart(t).0, DirectoryStart(t).1, f.fileName, fuel) == Missing &&
        ChainEnded(data, DirectoryChain(t, data, fuel), DirectoryStart(t).0) &&
        NoMatchOnChain(data, DirectoryChain(t, data, fuel), f.fileName)
  {
    OpenResultMeaning(t, data, f.fileName, fuel);
  }

  // ---- the emulator's file state ----

  class KernalTraps {
    const ram: Ram64K
    const disk: DiskImage
    var fileName: Option<seq<byte>>
    var fileHandle: FileHandle?

    ghost predicate Valid() {
      ram.Valid() && disk.Valid()
    }

    function State(): Files
      reads this, fileHandle
    {
      Files(fileName, if fileHandle == null then None else Some(fileHandle.Value()))
    }

    constructor (ram: Ram64K, disk: DiskImage)
      ensures this.ram == ram && this.disk == disk && State() == Files(None, None)
    {
      this.ram := ram;
      this.disk := disk;
      fileName := None;
      fileHandle := null;
    }

    /** SETNAM: A is the length and X/Y the address of the name. */
    method SetName(a: byte, x: byte, y: byte)
      requires Valid()
      modifies this, ram.hooks
      ensures old(ram.HooksValid()) ==> ram.HooksValid()
      ensures TrapResult(ram.State(), State(), a, Normal) == SetNamTrap(old(ram.State()), old(State()), a, x, y)
      ensures fileHandle == old(fileHandle)
    {
      var address, length := NameStart(ram, a, x, y);
      var name := ReadName(ram, address, length);
      fileName := Some(name);
    }

    /** CHKIN: opens the file last named by SETNAM. */
    method OpenForRead(a: byte, fuel: nat) returns (completion: Completion)
      requires Valid()
      modifies this
      ensures TrapResult(ram.State(), State(), a, completion) ==
        ChkInTrap(disk.diskType, disk.data, old(ram.State()), old(State()), a, fuel)
      ensures fileHandle == null || fileHandle == old(fileHandle) || fresh(fileHandle)
    {
      ghost var bus := ram.State();
      completion := Normal;
      var found, handle := disk.OpenFile(fileName, fuel);
      if found == Unfinished {
        completion := NoFuel;
      } else if found == Fault {
        completion := Threw;
      } else {
        fileHandle := handle;
        if handle == null && !(fileName.Some? && |fileName.value| >= 2) {
          completion := Threw;
        }
      }
      assert ram.State() == bus;
    }

    /** CHRIN on the current handle. */
    method ReadChar(a: byte) returns (newA: byte, completion: Completion)
      requires Valid()
      modifies ram.ram, fileHandle
      ensures TrapResult(ram.State(), State(), newA, completion) ==
        ChrInTrap(disk.diskType, disk.data, old(ram.State()), old(State()), a)
    {
      newA, completion := a, Normal;
      if fileHandle == null {
        ram.WriteRAM(StatusByte, NotFound);
        return;
      }
      if fileHandle.track != 0 {
        var value, ok := disk.ReadByte(fileHandle);
        if !ok {
          completion := Threw;
          return;
        }
        newA := value;
      }
      ram.WriteRAM(StatusByte, if fileHandle.track != 0 then 0 else EndOfFile);
    }

    /** CHKOUT, whose host file does not open, and CLOSE: the handle is dropped. */
    method DropHandle(a: byte, address: word) returns (completion: Completion)
      requires Valid()
      modifies this
      ensures TrapResult(ram.State(), State(), a, completion) == DropTrap(old(ram.State()), old(State()), a, address)
      ensures fileHandle == null
    {
      completion := Normal;
      // closing a disk-image handle releases nothing; the emulator forgets it
      fileHandle := null;
      if address == ChkOut && !(fileName.Some? && |fileName.value| >= 2) {
        completion := Threw;
      }
    }

    /**
     * `HandleKernalTrap(address)`: returns the processor's new A. `fuel`
     * bounds the directory sectors CHKIN visits.
     */
    method HandleKernalTrap(address: word, a: byte, x: byte, y: byte, fuel: nat)
      returns (newA: byte, completion: Completion)
      requires Valid()
      modifies this, ram.ram, ram.hooks, fileHandle
      ensures old(ram.HooksValid()) ==> ram.HooksValid()
      ensures TrapResult(ram.State(), State(), newA, completion) ==
        TrapSpec(disk.diskType, disk.data, old(ram.State()), old(State()), address, a, x, y, fuel)
      ensures fileHandle == null || fileHandle == old(fileHandle) || fresh(fileHandle)
    {
      ghost var bus, files := ram.State(), State();
      newA, completion := a, Normal;
      if address == SetNam {
        SetName(a, x, y);
      } else if address == ChkIn {
        completion := OpenForRead(a, fuel);
        assert ram.State() == bus;
      } else if address == ChrIn {
        newA, completion := ReadChar(a);
      } else if address == ChkOut || address == CloseFile {
        completion := DropHandle(a, address);
        assert ram.State() == bus;
      } else if address == CiOut {
        ram.WriteRAM(StatusByte, BusError);
        assert State() == files;
      }
    }
  }

  /** The "@0:" test of SETNAM. */
  method NameStart(ram: Ram64K, a: byte, x: byte, y: byte) returns (address: word, length: byte)
    requires ram.Valid()
    modifies ram.hooks
    ensures old(ram.HooksValid()) ==> ram.HooksValid()
    ensures (address, length, ram.State()) == NamePrefix(old(ram.State()), a, x, y)
  {
    address := Word(x, y);
    length := a;
    ghost var b0 := ram.State();
    var first := ram.Read(address);
    ghost var b1 := ram.State();
    if first == 0x40 {
      var second := ram.Read(Wrap16(address as int + 1));
      ghost var b2 := ram.State();
      NamePrefixSteps(b0, a, x, y, first, b1, second, b2);
      if second == 0x30 {
        address := Wrap16(address as int + 3);
        length := Wrap8(a - 3);
      }
    } else {
      NamePrefixSteps(b0, a, x, y, first, b1, 0, b1);
    }
  }

  /** The two reads of `NamePrefix`, one step at a time. */
  lemma NamePrefixSteps(b: Bus, a: byte, x: byte, y: byte, first: byte, b1: Bus, second: byte, b2: Bus)
    requires b.Valid() && b1.Valid()
    requires (first, b1) == BusRead(b, Word(x, y))
    requires first == 0x40 ==> (second, b2) == BusRead(b1, Wrap16(Word(x, y) + 1))
    ensures first != 0x40 ==> NamePrefix(b, a, x, y) == (Word(x, y), a, b1)
    ensures first == 0x40 && second == 0x30 ==> NamePrefix(b, a, x, y) == (Wrap16(Word(x, y) + 3), Wrap8(a - 3), b2)
    ensures first == 0x40 && second != 0x30 ==> NamePrefix(b, a, x, y) == (Word(x, y), a, b2)
  {
  }

  /** The copy loop of SETNAM: `length` banked reads from `address` upwards. */
  method ReadName(ram: Ram64K, address: word, length: nat) returns (name: seq<byte>)
    requires ram.Valid()
    modifies ram.hooks
    ensures old(ram.HooksValid()) ==> ram.HooksValid()
    ensures (name, ram.State()) == ReadBytes(old(ram.State()), address, length)
  {
    name := [];
    for i := 0 to length
      invariant old(ram.HooksValid()) ==> ram.HooksValid()
      invariant (name, ram.State()) == ReadBytes(old(ram.State()), address, i)
    {
      var value := ram.Read(Wrap16(address + i));
      name := name + [value];
    }
  }
}

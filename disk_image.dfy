// Commodore 1541 (D64) and 1581 (D81) disk images (`DiskImage`,
// `FileHandle`): the table of byte offsets of every track/sector, the scan
// of the directory's sector chain for a program file, and reading a file
// byte by byte along its own track/sector link chain.
//
// Any index the C# code takes outside the image or the offset table throws
// there; here those cases are explicit faults.
module Disk {
  import opened Bits

  datatype DiskType = D64 | D81

  const MaxD64Track: nat := 35
  const MaxD64Sector: nat := 21
  const MaxTrack: nat := 80
  const MaxSector: nat := 40
  const SectorSize: nat := 256

  /** `d64SectorsPerTrack`, indexed by track (entry 0 unused). */
  const D64SectorsPerTrack: seq<nat> :=
    [0, 21, 21, 21, 21, 21, 21, 21, 21, 21, 21, 21, 21, 21, 21, 21, 21, 21,
     19, 19, 19, 19, 19, 19, 19,
     18, 18, 18, 18, 18, 18,
     17, 17, 17, 17, 17]

  /** The same table by speed zone: 21 sectors on tracks 1-17, 19 on 18-24, 18 on 25-30, 17 on 31-35. */
  function D64Zone(track: nat): nat {
    if track == 0 then 0 else if track <= 17 then 21 else if track <= 24 then 19 else if track <= 30 then 18 else 17
  }

  lemma ZonesMatchTable(track: nat)
    requires track <= MaxD64Track
    ensures D64SectorsPerTrack[track] == D64Zone(track)
  {
  }

  const D64ImageSize: nat := 174848
  const D81ImageSize: nat := 819200

  /** The image kind is chosen by size alone: exactly 819200 bytes is a D81, anything else a D64. */
  function TypeOf(length: nat): DiskType {
    if length == D81ImageSize then D81 else D64
  }

  // ---- the sector table ----

  /** Sectors on a track: the zone table for a D64, 40 for each of the 80 tracks of a D81; 0 off the disk. */
  function SectorCount(t: DiskType, track: int): (n: nat)
    ensures n <= MaxSector
  {
    match t
    case D64 => if 1 <= track <= MaxD64Track then D64Zone(track) else 0
    case D81 => if 1 <= track <= MaxTrack then MaxSector else 0
  }

  /** Sectors on the tracks before `track`, counting from track 1. */
  function SectorsBefore(t: DiskType, track: nat): nat {
    if track <= 1 then 0 else SectorsBefore(t, track - 1) + SectorCount(t, track - 1)
  }

  /**
   * The table `MakeSectorTable` builds: the byte offset of every sector on
   * the disk, in track-then-sector order, and 0 where the disk has no sector.
   */
  function TableEntry(t: DiskType, track: nat, sector: nat): nat {
    if 1 <= track && sector < SectorCount(t, track) then SectorSize * (SectorsBefore(t, track) + sector) else 0
  }

  /** `GetSectorOffset`: None where the 81 x 40 table index would be out of range. */
  function SectorOffset(t: DiskType, track: int, sector: int): (r: Option<nat>)
    ensures r.Some? <==> 0 <= track <= MaxTrack && 0 <= sector < MaxSector
  {
    if 0 <= track <= MaxTrack && 0 <= sector < MaxSector then Some(TableEntry(t, track, sector)) else None
  }

  lemma {:induction false} SectorsBeforeGrows(t: DiskType, a: nat, b: nat)
    requires a <= b
    ensures SectorsBefore(t, a) + (if 1 <= a < b then SectorCount(t, a) else 0) <= SectorsBefore(t, b)
    decreases b
  {
    if a < b {
      SectorsBeforeGrows(t, a, b - 1);
      if a == b - 1 {
        assert a >= 1 ==> SectorsBefore(t, b) == SectorsBefore(t, a) + SectorCount(t, a);
      }
    }
  }

  /** Sectors before a D64 track, zone by zone. */
  lemma {:induction false} D64Before(track: nat)
    requires 1 <= track <= MaxD64Track + 1
    ensures SectorsBefore(D64, track) ==
      if track <= 18 then 21 * (track - 1)
      else if track <= 25 then 357 + 19 * (track - 18)
      else if track <= 31 then 490 + 18 * (track - 25)
      else 598 + 17 * (track - 31)
  {
    if track > 1 {
      D64Before(track - 1);
    }
  }

  /** A D64 has 683 sectors, exactly filling the 174848 bytes of a standard image. */
  lemma D64Size()
    ensures SectorsBefore(D64, MaxD64Track + 1) == 683
    ensures SectorSize * SectorsBefore(D64, MaxD64Track + 1) == D64ImageSize
    ensures forall track :: MaxD64Track < track <= MaxTrack ==> SectorCount(D64, track) == 0
  {
    D64Before(MaxD64Track + 1);
  }

  lemma {:induction false} D81Before(track: nat)
    requires 1 <= track <= MaxTrack + 1
    ensures SectorsBefore(D81, track) == (track - 1) * MaxSector
  {
    if track > 1 {
      D81Before(track - 1);
    }
  }

  /** A D81 sector sits at 256 * ((track - 1) * 40 + sector); the 3200 sectors fill 819200 bytes. */
  lemma D81Layout(track: nat, sector: nat)
    requires 1 <= track <= MaxTrack && sector < MaxSector
    ensures TableEntry(D81, track, sector) == SectorSize * ((track - 1) * MaxSector + sector)
    ensures SectorSize * SectorsBefore(D81, MaxTrack + 1) == D81ImageSize
  {
    D81Before(track);
    D81Before(MaxTrack + 1);
  }

  /** A D64 sector sits at 256 * (sectors on the earlier tracks + sector). */
  lemma D64Layout(track: nat, sector: nat)
    requires 1 <= track <= MaxD64Track && sector < D64SectorsPerTrack[track]
    ensures SectorCount(D64, track) == D64SectorsPerTrack[track]
    ensures TableEntry(D64, track, sector) == SectorSize * (SectorsBefore(D64, track) + sector)
  {
    ZonesMatchTable(track);
  }

  /**
   * Offsets grow strictly in track-then-sector order, so distinct sectors
   * never share bytes, and every sector lies inside an image of the
   * standard size.
   */
  lemma OffsetsIncrease(t: DiskType, t1: nat, s1: nat, t2: nat, s2: nat)
    requires 1 <= t1 && s1 < SectorCount(t, t1) && 1 <= t2 && s2 < SectorCount(t, t2)
    requires t1 < t2 || (t1 == t2 && s1 < s2)
    ensures TableEntry(t, t1, s1) + SectorSize <= TableEntry(t, t2, s2)
  {
    if t1 < t2 {
      SectorsBeforeGrows(t, t1, t2);
    }
  }

  lemma SectorInsideImage(t: DiskType, track: nat, sector: nat)
    requires 1 <= track && sector < SectorCount(t, track)
    ensures TableEntry(t, track, sector) + SectorSize <= (if t == D64 then D64ImageSize else D81ImageSize)
  {
    var last := if t == D64 then MaxD64Track + 1 else MaxTrack + 1;
    assert track < last;
    SectorsBeforeGrows(t, track, last);
    if t == D64 {
      D64Size();
    } else {
      D81Before(MaxTrack + 1);
    }
  }

  // ---- file handles and reading ----

  /** A handle's position: the current sector and the offset of the next byte in it. */
  datatype Handle = Handle(track: int, sector: int, offset: int)

  /** `FileHandle.Open` for a handle on the disk image: open until its track is 0. */
  predicate Open(h: Handle) {
    h.track != 0
  }

  /** The handle state after `ReadByte`, and the byte read (None where the C# code throws). */
  datatype ReadOutcome = ReadOutcome(value: Option<byte>, handle: Handle)

  /**
   * `ReadByte` on a disk-image handle. In a sector whose link track is 0
   * (the last sector) byte 1 is the offset of the last data byte; elsewhere
   * the sector's 254 data bytes run to offset 255 and then the link
   * (bytes 0 and 1) names the next sector.
   */
  function ReadStep(t: DiskType, data: seq<byte>, h: Handle): ReadOutcome {
    if !Open(h) then ReadOutcome(Some(0), h)
    else match SectorOffset(t, h.track, h.sector)
      case None => ReadOutcome(None, h)
      case Some(start) =>
        if !(0 <= start + h.offset < |data|) || start >= |data| then ReadOutcome(None, h)
        else
          var value := data[start + h.offset];
          if data[start] == 0 then
            if start + 1 >= |data| then ReadOutcome(None, h)
            else if h.offset >= data[start + 1] then ReadOutcome(Some(value), h.(track := 0))
            else ReadOutcome(Some(value), h.(offset := h.offset + 1))
          else if h.offset + 1 >= SectorSize then
            // byte `start + offset` exists and offset >= 255, so the link sector byte does too
            ReadOutcome(Some(value), Handle(data[start], data[start + 1], 2))
          else ReadOutcome(Some(value), h.(offset := h.offset + 1))
  }

  /** A closed handle reads 0 and stays as it is. */
  lemma ClosedReadIsInert(t: DiskType, data: seq<byte>, h: Handle)
    requires !Open(h)
    ensures ReadStep(t, data, h) == ReadOutcome(Some(0), h)
  {
  }

  /** While a handle is open its offset stays within the data bytes 2..255 of the sector. */
  lemma OffsetStaysInSector(t: DiskType, data: seq<byte>, h: Handle)
    requires Open(h) && 2 <= h.offset < SectorSize
    ensures var r := ReadStep(t, data, h);
      r.value.Some? && Open(r.handle) ==> 2 <= r.handle.offset < SectorSize
  {
  }

  /**
   * Past the last data byte of a non-last sector the handle follows the
   * link to offset 2 of the next sector; in the last sector it closes
   * after the byte at the offset in byte 1.
   */
  lemma ChainFollowing(t: DiskType, data: seq<byte>, h: Handle, start: nat)
    requires Open(h) && SectorOffset(t, h.track, h.sector) == Some(start)
    requires 0 <= start + h.offset < |data| && start + 1 < |data|
    ensures var r := ReadStep(t, data, h);
      r.value == Some(data[start + h.offset]) &&
      (data[start] != 0 && h.offset == SectorSize - 1 ==> r.handle == Handle(data[start], data[start + 1], 2)) &&
      (data[start] != 0 && h.offset < SectorSize - 1 ==> r.handle == h.(offset := h.offset + 1)) &&
      (data[start] == 0 ==> (!Open(r.handle) <==> h.offset >= data[start + 1]))
  {
  }

  /** How reading a file to its end came out. */
  datatype Status = Complete | Faulted | OutOfFuel

  /** Read while the handle is open, at most `fuel` bytes. */
  function ReadAll(t: DiskType, data: seq<byte>, h: Handle, fuel: nat): (r: (seq<byte>, Status))
    decreases fuel
  {
    if !Open(h) then ([], Complete)
    else if fuel == 0 then ([], OutOfFuel)
    else
      var step := ReadStep(t, data, h);
      if step.value.None? then ([], Faulted)
      else
        var (rest, status) := ReadAll(t, data, step.handle, fuel - 1);
        ([step.value.value] + rest, status)
  }

  /**
   * In the last sector of a file, reading from offset `o` returns the bytes
   * up to and including the offset in byte 1 of the sector, then closes.
   */
  lemma {:induction false} LastSectorContents(t: DiskType, data: seq<byte>, h: Handle, start: nat, fuel: nat)
    requires Open(h) && SectorOffset(t, h.track, h.sector) == Some(start)
    requires start + SectorSize <= |data| && data[start] == 0
    requires 2 <= h.offset <= data[start + 1] && fuel > data[start + 1] - h.offset
    ensures ReadAll(t, data, h, fuel) == (data[start + h.offset..start + data[start + 1] + 1], Complete)
    decreases data[start + 1] - h.offset
  {
    var step := ReadStep(t, data, h);
    var last := start + data[start + 1] + 1;
    if h.offset == data[start + 1] {
      assert step == ReadOutcome(Some(data[start + h.offset]), h.(track := 0));
      assert ReadAll(t, data, step.handle, fuel - 1) == ([], Complete);
      assert ReadAll(t, data, h, fuel) == ([data[start + h.offset]] + [], Complete);
      assert [data[start + h.offset]] + [] == data[start + h.offset..last];
    } else {
      assert step.handle == h.(offset := h.offset + 1);
      LastSectorContents(t, data, step.handle, start, fuel - 1);
      assert data[start + h.offset..last] == [data[start + h.offset]] + data[start + h.offset + 1..last];
    }
  }

  // ---- the directory ----

  /** Where the directory chain starts: track 18 sector 1 on a D64, track 40 sector 3 on a D81. */
  function DirectoryStart(t: DiskType): (int, int) {
    if t == D64 then (18, 1) else (40, 3)
  }

  /** Type byte of a closed program file. */
  const PrgEntry: byte := 0x82

  /**
   * The name comparison from byte `e` on: Some(true) on a prefix match,
   * Some(false) at the first differing byte, None if it runs off the image
   * first.
   */
  function NameMatch(data: seq<byte>, base: nat, name: seq<byte>, e: nat): Option<bool>
    decreases |name| - e
  {
    if e >= |name| then Some(true)
    else if base + e >= |data| then None
    else if data[base + e] != name[e] then Some(false)
    else NameMatch(data, base, name, e + 1)
  }

  lemma {:induction false} NameMatchMeaning(data: seq<byte>, base: nat, name: seq<byte>, e: nat)
    requires e <= |name| && base + e <= |data|
    ensures NameMatch(data, base, name, e) == Some(true) <==>
      base + |name| <= |data| && data[base + e..base + |name|] == name[e..]
    ensures NameMatch(data, base, name, e) == Some(false) ==>
      !(base + |name| <= |data| && data[base + e..base + |name|] == name[e..])
    decreases |name| - e
  {
    if e < |name| && base + e < |data| && data[base + e] == name[e] {
      NameMatchMeaning(data, base, name, e + 1);
      if base + |name| <= |data| {
        assert data[base + e..base + |name|] == [data[base + e]] + data[base + e + 1..base + |name|];
        assert name[e..] == [name[e]] + name[e + 1..];
      }
    } else if e < |name| && base + e < |data| && base + |name| <= |data| {
      assert data[base + e..base + |name|][0] == data[base + e];
      assert name[e..][0] == name[e];
    }
  }

  /** The directory entry at byte `d` of the sector at `offset` is a program whose name starts with `name` (any name for None). */
  predicate EntryMatches(data: seq<byte>, offset: nat, d: nat, name: Option<seq<byte>>) {
    offset + d + 2 < |data| && data[offset + d] == PrgEntry &&
    (name.None? || (offset + d + 3 + |name.value| <= |data| &&
                    data[offset + d + 3..offset + d + 3 + |name.value|] == name.value))
  }

  /** The eight entries of a directory sector start at bytes 2, 34, ..., 226. */
  predicate EntrySlot(d: nat) {
    d < SectorSize && d % 32 == 2
  }

  datatype SectorScan = Hit(track: byte, sector: byte) | NoHit | ScanFault

  /** The entries of one directory sector from byte `d` on, in order. */
  function ScanEntries(data: seq<byte>, offset: nat, name: Option<seq<byte>>, d: nat): SectorScan
    decreases SectorSize - d
  {
    if d >= SectorSize then NoHit
    else if offset + d >= |data| then ScanFault
    else if data[offset + d] == PrgEntry then
      var matched := if name.None? then Some(true) else NameMatch(data, offset + d + 3, name.value, 0);
      if matched.None? then ScanFault
      else if matched.value then
        if offset + d + 2 < |data| then Hit(data[offset + d + 1], data[offset + d + 2]) else ScanFault
      else ScanEntries(data, offset, name, d + 32)
    else ScanEntries(data, offset, name, d + 32)
  }

  /**
   * A hit is the first matching entry from `d` on, and names the track and
   * sector stored in that entry; no hit means no entry from `d` on matches.
   */
  lemma {:induction false} ScanEntriesMeaning(data: seq<byte>, offset: nat, name: Option<seq<byte>>, d: nat)
    requires d % 32 == 2
    ensures ScanEntries(data, offset, name, d).Hit? ==>
      exists k :: d <= k && EntrySlot(k) && EntryMatches(data, offset, k, name) &&
        ScanEntries(data, offset, name, d) == Hit(data[offset + k + 1], data[offset + k + 2]) &&
        forall j :: d <= j < k && EntrySlot(j) ==> !EntryMatches(data, offset, j, name)
    ensures ScanEntries(data, offset, name, d) == NoHit ==>
      forall j :: d <= j && EntrySlot(j) ==> !EntryMatches(data, offset, j, name)
    decreases SectorSize - d
  {
    if d < SectorSize && offset + d < |data| {
      if name.Some? && offset + d + 2 < |data| {
        NameMatchMeaning(data, offset + d + 3, name.value, 0);
      }
      ScanEntriesMeaning(data, offset, name, d + 32);
      if ScanEntries(data, offset, name, d).Hit? && !EntryMatches(data, offset, d, name) {
        assert ScanEntries(data, offset, name, d) == ScanEntries(data, offset, name, d + 32);
        var k :| d + 32 <= k && EntrySlot(k) && EntryMatches(data, offset, k, name) &&
          ScanEntries(data, offset, name, d + 32) == Hit(data[offset + k + 1], data[offset + k + 2]) &&
          forall j :: d + 32 <= j < k && EntrySlot(j) ==> !EntryMatches(data, offset, j, name);
        assert forall j :: d <= j < k && EntrySlot(j) ==> j == d || d + 32 <= j;
      }
      if ScanEntries(data, offset, name, d) == NoHit {
        assert forall j :: d <= j && EntrySlot(j) ==> j == d || d + 32 <= j;
      }
    }
  }

  datatype Lookup = Found(track: byte, sector: byte) | Missing | Fault | Unfinished

  /**
   * The directory loop of `OpenFile`, visiting at most `fuel` sectors: it
   * runs while the track is above 0, following link bytes 0 and 1 of each
   * sector.
   */
  function FindFile(t: DiskType, data: seq<byte>, track: int, sector: int, name: Option<seq<byte>>, fuel: nat): Lookup
    decreases fuel
  {
    if track <= 0 then Missing
    else if fuel == 0 then Unfinished
    else match SectorOffset(t, track, sector)
      case None => Fault
      case Some(offset) =>
        match ScanEntries(data, offset, name, 2)
        case ScanFault => Fault
        case Hit(tr, se) => Found(tr, se)
        case NoHit =>
          if offset + 1 < |data| then FindFile(t, data, data[offset], data[offset + 1], name, fuel - 1) else Fault
  }

  /** More fuel never changes an answer already reached. */
  lemma {:induction false} FindFileFuel(t: DiskType, data: seq<byte>, track: int, sector: int,
                                        name: Option<seq<byte>>, fuel: nat, more: nat)
    requires FindFile(t, data, track, sector, name, fuel) != Unfinished
    ensures FindFile(t, data, track, sector, name, fuel + more) == FindFile(t, data, track, sector, name, fuel)
    decreases fuel
  {
    if track > 0 && fuel > 0 {
      match SectorOffset(t, track, sector)
      case None =>
      case Some(offset) =>
        if ScanEntries(data, offset, name, 2) == NoHit && offset + 1 < |data| {
          FindFileFuel(t, data, data[offset], data[offset + 1], name, fuel - 1, more);
        }
    }
  }

  /**
   * The lookup answer `r` is "found" with the link of a matching program
   * entry of some sector the table gives an offset for.
   */
  ghost predicate FromMatchingEntry(t: DiskType, data: seq<byte>, name: Option<seq<byte>>, r: Lookup) {
    exists tr: nat, se: nat, k: nat ::
      (tr <= MaxTrack && se < MaxSector && EntrySlot(k) &&
       EntryMatches(data, TableEntry(t, tr, se), k, name) &&
       r == Found(data[TableEntry(t, tr, se) + k + 1], data[TableEntry(t, tr, se) + k + 2]))
  }

  /** A sector whose scan hit: the answer comes from the matching entry the scan stopped at. */
  lemma FoundHere(t: DiskType, data: seq<byte>, track: int, sector: int, name: Option<seq<byte>>, offset: nat)
    requires track > 0 && SectorOffset(t, track, sector) == Some(offset)
    requires ScanEntries(data, offset, name, 2).Hit?
    ensures var scan := ScanEntries(data, offset, name, 2);
      FromMatchingEntry(t, data, name, Found(scan.track, scan.sector))
  {
    var scan := ScanEntries(data, offset, name, 2);
    ScanEntriesMeaning(data, offset, name, 2);
    var k :| 2 <= k && EntrySlot(k) && EntryMatches(data, offset, k, name) &&
      scan == Hit(data[offset + k + 1], data[offset + k + 2]) &&
      forall j :: 2 <= j < k && EntrySlot(j) ==> !EntryMatches(data, offset, j, name);
    assert offset == TableEntry(t, track, sector);
    assert track <= MaxTrack && sector < MaxSector && EntrySlot(k) && EntryMatches(data, TableEntry(t, track, sector), k, name);
  }

  /**
   * A found file comes from a matching program entry of a sector whose
   * offset the table gives.
   */
  lemma {:induction false} FoundIsMatchingEntry(t: DiskType, data: seq<byte>, track: int, sector: int,
                                                name: Option<seq<byte>>, fuel: nat)
    requires FindFile(t, data, track, sector, name, fuel).Found?
    ensures FromMatchingEntry(t, data, name, FindFile(t, data, track, sector, name, fuel))
    decreases fuel
  {
    FoundStep(t, data, track, sector, name, fuel);
    var offset := SectorOffset(t, track, sector).value;
    if ScanEntries(data, offset, name, 2).Hit? {
      FoundHere(t, data, track, sector, name, offset);
    } else {
      FoundLater(t, data, track, sector, name, fuel, offset);
      FoundIsMatchingEntry(t, data, data[offset], data[offset + 1], name, fuel - 1);
    }
  }

  /**
   * The offsets of the directory sectors reached from (`track`, `sector`)
   * within `fuel` sectors by following link bytes 0 and 1, whatever their
   * entries hold. The walk stops at track 0, at a pair outside the sector
   * table, and at a link that lies past the image.
   */
  function DirChain(t: DiskType, data: seq<byte>, track: int, sector: int, fuel: nat): seq<nat>
    decreases fuel
  {
    if track <= 0 || fuel == 0 then []
    else match SectorOffset(t, track, sector)
      case None => []
      case Some(offset) =>
        [offset] + (if offset + 1 < |data| then DirChain(t, data, data[offset], data[offset + 1], fuel - 1) else [])
  }

  /** No entry slot of the sector at `offset` holds a matching program. */
  ghost predicate NoMatchIn(data: seq<byte>, offset: nat, name: Option<seq<byte>>) {
    forall k :: EntrySlot(k) ==> !EntryMatches(data, offset, k, name)
  }

  /** The first matching entry of the sector at `offset` names the file's first sector (`tr`, `se`). */
  ghost predicate FirstMatchIn(data: seq<byte>, offset: nat, name: Option<seq<byte>>, tr: int, se: int) {
    exists k :: EntrySlot(k) && EntryMatches(data, offset, k, name) &&
      tr == data[offset + k + 1] && se == data[offset + k + 2] &&
      forall j :: EntrySlot(j) && j < k ==> !EntryMatches(data, offset, j, name)
  }

  /** Along the chain `c`, the first sector holding a match has (`tr`, `se`) in its first matching entry. */
  ghost predicate FirstMatchOnChain(data: seq<byte>, c: seq<nat>, name: Option<seq<byte>>, tr: int, se: int)
    decreases |c|
  {
    |c| > 0 &&
    (FirstMatchIn(data, c[0], name, tr, se) || (NoMatchIn(data, c[0], name) && FirstMatchOnChain(data, c[1..], name, tr, se)))
  }

  /** No sector along the chain `c` holds a match. */
  ghost predicate NoMatchOnChain(data: seq<byte>, c: seq<nat>, name: Option<seq<byte>>) {
    forall j :: 0 <= j < |c| ==> NoMatchIn(data, c[j], name)
  }

  /**
   * The chain `c` started at `track` ran to its end: its last sector links
   * to track 0 (or `track` itself is 0 when the chain is empty).
   */
  predicate ChainEnded(data: seq<byte>, c: seq<nat>, track: int) {
    if |c| == 0 then track <= 0 else c[|c| - 1] < |data| && data[c[|c| - 1]] == 0
  }

  /** Every entry slot lies at byte 2 or later. */
  lemma SlotsFromTwo(k: nat)
    requires EntrySlot(k)
    ensures 2 <= k
  {
  }

  /** A whole-sector scan with no hit: no slot of the sector matches. */
  lemma NoHitIsNoMatch(data: seq<byte>, offset: nat, name: Option<seq<byte>>)
    requires ScanEntries(data, offset, name, 2) == NoHit
    ensures NoMatchIn(data, offset, name)
  {
    ScanEntriesMeaning(data, offset, name, 2);
    forall k | EntrySlot(k)
      ensures !EntryMatches(data, offset, k, name)
    {
      SlotsFromTwo(k);
    }
  }

  /** A whole-sector scan with a hit: the hit is the sector's first matching entry. */
  lemma HitIsFirstMatch(data: seq<byte>, offset: nat, name: Option<seq<byte>>)
    requires ScanEntries(data, offset, name, 2).Hit?
    ensures var scan := ScanEntries(data, offset, name, 2);
      FirstMatchIn(data, offset, name, scan.track, scan.sector)
  {
    var scan := ScanEntries(data, offset, name, 2);
    ScanEntriesMeaning(data, offset, name, 2);
    var k :| 2 <= k && EntrySlot(k) && EntryMatches(data, offset, k, name) &&
      scan == Hit(data[offset + k + 1], data[offset + k + 2]) &&
      forall j :: 2 <= j < k && EntrySlot(j) ==> !EntryMatches(data, offset, j, name);
    forall j | EntrySlot(j) && j < k
      ensures !EntryMatches(data, offset, j, name)
    {
      SlotsFromTwo(j);
    }
  }

  /** One step of the walk: a sector with no match passes on to the sector it links to. */
  lemma ChainStep(t: DiskType, data: seq<byte>, track: int, sector: int, name: Option<seq<byte>>, fuel: nat, offset: nat)
    requires track > 0 && fuel > 0 && SectorOffset(t, track, sector) == Some(offset)
    requires ScanEntries(data, offset, name, 2) == NoHit && offset + 1 < |data|
    ensures FindFile(t, data, track, sector, name, fuel) == FindFile(t, data, data[offset], data[offset + 1], name, fuel - 1)
    ensures DirChain(t, data, track, sector, fuel) == [offset] + DirChain(t, data, data[offset], data[offset + 1], fuel - 1)
  {
    FindStep(t, data, track, sector, name, fuel, offset);
    DirChainStep(t, data, track, sector, fuel, offset);
  }

  /** The lookup half of `ChainStep`. */
  lemma FindStep(t: DiskType, data: seq<byte>, track: int, sector: int, name: Option<seq<byte>>, fuel: nat, offset: nat)
    requires track > 0 && fuel > 0 && SectorOffset(t, track, sector) == Some(offset)
    requires ScanEntries(data, offset, name, 2) == NoHit && offset + 1 < |data|
    ensures FindFile(t, data, track, sector, name, fuel) == FindFile(t, data, data[offset], data[offset + 1], name, fuel - 1)
  {
  }

  /** The chain half of `ChainStep`. */
  lemma DirChainStep(t: DiskType, data: seq<byte>, track: int, sector: int, fuel: nat, offset: nat)
    requires track > 0 && fuel > 0 && SectorOffset(t, track, sector) == Some(offset) && offset + 1 < |data|
    ensures DirChain(t, data, track, sector, fuel) == [offset] + DirChain(t, data, data[offset], data[offset + 1], fuel - 1)
  {
  }

  /** "Missing" from a sector on a track above 0: the sector exists, has no hit, and its link is missing too. */
  lemma MissingStep(t: DiskType, data: seq<byte>, track: int, sector: int, name: Option<seq<byte>>, fuel: nat)
    requires track > 0 && FindFile(t, data, track, sector, name, fuel) == Missing
    ensures fuel > 0 && SectorOffset(t, track, sector).Some?
    ensures var offset := SectorOffset(t, track, sector).value;
      ScanEntries(data, offset, name, 2) == NoHit && offset + 1 < |data| &&
      FindFile(t, data, data[offset], data[offset + 1], name, fuel - 1) == Missing
  {
  }

  /** A sector with no match in front of a chain keeps the chain's first match. */
  lemma FirstMatchPrepend(data: seq<byte>, offset: nat, next: seq<nat>, name: Option<seq<byte>>, tr: int, se: int)
    requires NoMatchIn(data, offset, name) && FirstMatchOnChain(data, next, name, tr, se)
    ensures FirstMatchOnChain(data, [offset] + next, name, tr, se)
  {
    assert ([offset] + next)[1..] == next;
  }

  /** A sector in front of a chain that ended ends where that chain ends. */
  lemma ChainEndedPrepend(data: seq<byte>, offset: nat, next: seq<nat>, track: int)
    requires offset < |data| && ChainEnded(data, next, data[offset])
    ensures ChainEnded(data, [offset] + next, track)
  {
    if |next| > 0 {
      assert ([offset] + next)[|next|] == next[|next| - 1];
    }
  }

  /** A sector with no match in front of a chain with none. */
  lemma NoMatchPrepend(data: seq<byte>, offset: nat, next: seq<nat>, name: Option<seq<byte>>)
    requires NoMatchIn(data, offset, name) && NoMatchOnChain(data, next, name)
    ensures NoMatchOnChain(data, [offset] + next, name)
  {
    var c := [offset] + next;
    forall j | 0 <= j < |c|
      ensures NoMatchIn(data, c[j], name)
    {
      if j > 0 { assert c[j] == next[j - 1]; }
    }
  }

  /** "Found" from a sector: the sector exists, and either its scan hit or its link's lookup found the file. */
  lemma FoundStep(t: DiskType, data: seq<byte>, track: int, sector: int, name: Option<seq<byte>>, fuel: nat)
    requires FindFile(t, data, track, sector, name, fuel).Found?
    ensures track > 0 && fuel > 0 && SectorOffset(t, track, sector).Some?
    ensures var offset := SectorOffset(t, track, sector).value;
      var r := FindFile(t, data, track, sector, name, fuel);
      var scan := ScanEntries(data, offset, name, 2);
      (scan.Hit? && r == Found(scan.track, scan.sector)) ||
      (scan == NoHit && offset + 1 < |data| && FindFile(t, data, data[offset], data[offset + 1], name, fuel - 1) == r)
  {
  }

  /** "Found" from a sector whose scan did not hit: the link's lookup found the same file. */
  lemma FoundLater(t: DiskType, data: seq<byte>, track: int, sector: int, name: Option<seq<byte>>, fuel: nat, offset: nat)
    requires FindFile(t, data, track, sector, name, fuel).Found?
    requires track > 0 && fuel > 0 && SectorOffset(t, track, sector) == Some(offset)
    requires !ScanEntries(data, offset, name, 2).Hit?
    ensures ScanEntries(data, offset, name, 2) == NoHit && offset + 1 < |data|
    ensures FindFile(t, data, data[offset], data[offset + 1], name, fuel - 1) == FindFile(t, data, track, sector, name, fuel)
  {
    FoundStep(t, data, track, sector, name, fuel);
  }

  /** A first match further down the chain is the first match of the chain from a sector with no hit. */
  lemma FoundPassedOn(t: DiskType, data: seq<byte>, track: int, sector: int, name: Option<seq<byte>>, fuel: nat, offset: nat,
                      tr: int, se: int)
    requires track > 0 && fuel > 0 && SectorOffset(t, track, sector) == Some(offset)
    requires ScanEntries(data, offset, name, 2) == NoHit && offset + 1 < |data|
    requires FirstMatchOnChain(data, DirChain(t, data, data[offset], data[offset + 1], fuel - 1), name, tr, se)
    ensures FirstMatchOnChain(data, DirChain(t, data, track, sector, fuel), name, tr, se)
  {
    NoHitIsNoMatch(data, offset, name);
    DirChainStep(t, data, track, sector, fuel, offset);
    FirstMatchPrepend(data, offset, DirChain(t, data, data[offset], data[offset + 1], fuel - 1), name, tr, se);
  }

  /** A chain walked from an existing sector starts at that sector. */
  lemma DirChainHead(t: DiskType, data: seq<byte>, track: int, sector: int, fuel: nat, offset: nat)
    requires track > 0 && fuel > 0 && SectorOffset(t, track, sector) == Some(offset)
    ensures |DirChain(t, data, track, sector, fuel)| > 0 && DirChain(t, data, track, sector, fuel)[0] == offset
  {
  }

  /** A sector whose first match is (`tr`, `se`) at the head of a chain. */
  lemma FirstMatchAtHead(data: seq<byte>, c: seq<nat>, name: Option<seq<byte>>, tr: int, se: int)
    requires |c| > 0 && FirstMatchIn(data, c[0], name, tr, se)
    ensures FirstMatchOnChain(data, c, name, tr, se)
  {
  }

  /**
   * `FindFile` walks `DirChain`: a found file is named by the first matching
   * entry of the first chain sector that has one.
   */
  lemma {:induction false} FoundOnChain(t: DiskType, data: seq<byte>, track: int, sector: int,
                                        name: Option<seq<byte>>, fuel: nat, tr: byte, se: byte)
    requires FindFile(t, data, track, sector, name, fuel) == Found(tr, se)
    ensures FirstMatchOnChain(data, DirChain(t, data, track, sector, fuel), name, tr, se)
    decreases fuel
  {
    FoundStep(t, data, track, sector, name, fuel);
    var offset := SectorOffset(t, track, sector).value;
    if ScanEntries(data, offset, name, 2).Hit? {
      HitIsFirstMatch(data, offset, name);
      DirChainHead(t, data, track, sector, fuel, offset);
      FirstMatchAtHead(data, DirChain(t, data, track, sector, fuel), name, tr, se);
    } else {
      FoundLater(t, data, track, sector, name, fuel, offset);
      FoundOnChain(t, data, data[offset], data[offset + 1], name, fuel - 1, tr, se);
      FoundPassedOn(t, data, track, sector, name, fuel, offset, tr, se);
    }
  }

  /** "Missing" means no sector on the chain has a match. */
  lemma {:induction false} MissingOnChain(t: DiskType, data: seq<byte>, track: int, sector: int,
                                          name: Option<seq<byte>>, fuel: nat)
    requires FindFile(t, data, track, sector, name, fuel) == Missing
    ensures NoMatchOnChain(data, DirChain(t, data, track, sector, fuel), name)
    decreases fuel
  {
    if track > 0 {
      MissingStep(t, data, track, sector, name, fuel);
      var offset := SectorOffset(t, track, sector).value;
      MissingOnChain(t, data, data[offset], data[offset + 1], name, fuel - 1);
      NoHitIsNoMatch(data, offset, name);
      ChainStep(t, data, track, sector, name, fuel, offset);
      NoMatchPrepend(data, offset, DirChain(t, data, data[offset], data[offset + 1], fuel - 1), name);
    }
  }

  /** "Missing" means the chain ran to track 0. */
  lemma {:induction false} MissingEndsChain(t: DiskType, data: seq<byte>, track: int, sector: int,
                                            name: Option<seq<byte>>, fuel: nat)
    requires FindFile(t, data, track, sector, name, fuel) == Missing
    ensures ChainEnded(data, DirChain(t, data, track, sector, fuel), track)
    decreases fuel
  {
    if track > 0 {
      MissingStep(t, data, track, sector, name, fuel);
      var offset := SectorOffset(t, track, sector).value;
      MissingEndsChain(t, data, data[offset], data[offset + 1], name, fuel - 1);
      ChainStep(t, data, track, sector, name, fuel, offset);
      ChainEndedPrepend(data, offset, DirChain(t, data, data[offset], data[offset + 1], fuel - 1), track);
    }
  }

  /**
   * `OpenFile`'s directory search: a found entry gives a handle at offset 2
   * of the file's first sector; None when no entry matched.
   */
  function OpenResult(t: DiskType, data: seq<byte>, name: Option<seq<byte>>, fuel: nat): (r: (Lookup, Option<Handle>))
    ensures r.1.Some? <==> r.0.Found?
    ensures r.0.Found? ==> r.1.value == Handle(r.0.track, r.0.sector, 2)
  {
    var (track, sector) := DirectoryStart(t);
    var found := FindFile(t, data, track, sector, name, fuel);
    (found, if found.Found? then Some(Handle(found.track, found.sector, 2)) else None)
  }

  /** The directory chain `OpenFile` walks, from `DirectoryStart`. */
  function DirectoryChain(t: DiskType, data: seq<byte>, fuel: nat): seq<nat> {
    DirChain(t, data, DirectoryStart(t).0, DirectoryStart(t).1, fuel)
  }

  /**
   * The handle `OpenFile` returns is at offset 2 of the sector named by the
   * first matching entry on the directory chain; "missing" means the whole
   * chain, up to its link to track 0, has no match.
   */
  lemma OpenResultMeaning(t: DiskType, data: seq<byte>, name: Option<seq<byte>>, fuel: nat)
    ensures var r := OpenResult(t, data, name, fuel);
      r.1.Some? ==>
        r.1.value.offset == 2 &&
        FirstMatchOnChain(data, DirectoryChain(t, data, fuel), name, r.1.value.track, r.1.value.sector)
    ensures var r := OpenResult(t, data, name, fuel);
      r.1.Some? ==> exists tr: nat, se: nat, k: nat ::
        (tr <= MaxTrack && se < MaxSector && EntrySlot(k) &&
         EntryMatches(data, TableEntry(t, tr, se), k, name) &&
         r.1.value == Handle(data[TableEntry(t, tr, se) + k + 1], data[TableEntry(t, tr, se) + k + 2], 2))
    ensures OpenResult(t, data, name, fuel).0 == Missing ==>
      ChainEnded(data, DirectoryChain(t, data, fuel), DirectoryStart(t).0) &&
      NoMatchOnChain(data, DirectoryChain(t, data, fuel), name)
  {
    var (track, sector) := DirectoryStart(t);
    var found := FindFile(t, data, track, sector, name, fuel);
    if found.Found? {
      FoundOnChain(t, data, track, sector, name, fuel, found.track, found.sector);
      FoundIsMatchingEntry(t, data, track, sector, name, fuel);
      var tr: nat, se: nat, k: nat :|
        tr <= MaxTrack && se < MaxSector && EntrySlot(k) &&
        EntryMatches(data, TableEntry(t, tr, se), k, name) &&
        found == Found(data[TableEntry(t, tr, se) + k + 1], data[TableEntry(t, tr, se) + k + 2]);
      assert OpenResult(t, data, name, fuel).1.value ==
        Handle(data[TableEntry(t, tr, se) + k + 1], data[TableEntry(t, tr, se) + k + 2], 2);
    }
    if FindFile(t, data, track, sector, name, fuel) == Missing {
      MissingOnChain(t, data, track, sector, name, fuel);
      MissingEndsChain(t, data, track, sector, name, fuel);
    }
  }

  // ---- the objects ----

  class FileHandle {
    var track: int
    var sector: int
    var offset: int

    function Value(): Handle
      reads this
    {
      Handle(track, sector, offset)
    }

    /** `new FileHandle()` with the track and sector of a directory entry and offset 2. */
    constructor (track: byte, sector: byte)
      ensures Value() == Handle(track, sector, 2)
    {
      this.track := track;
      this.sector := sector;
      offset := 2;
    }
  }

  /** A table of the shape `new int[81, 40]` gives: 81 tracks of 40 sectors. */
  predicate TableShape(table: seq<seq<int>>) {
    |table| == MaxTrack + 1 && forall track :: 0 <= track <= MaxTrack ==> |table[track]| == MaxSector
  }

  /** Every entry of the table is the offset `TableEntry` gives. */
  predicate TableHolds(t: DiskType, table: seq<seq<int>>) {
    TableShape(table) &&
    forall track, sector :: 0 <= track <= MaxTrack && 0 <= sector < MaxSector ==>
      table[track][sector] == TableEntry(t, track, sector)
  }

  /** The contents of the filled array, row by row. */
  function Rows(table: array2<int>): (rows: seq<seq<int>>)
    reads table
    requires table.Length0 == MaxTrack + 1 && table.Length1 == MaxSector
    ensures TableShape(rows)
    ensures forall track, sector :: 0 <= track <= MaxTrack && 0 <= sector < MaxSector ==>
      rows[track][sector] == table[track, sector]
  {
    seq(MaxTrack + 1, track requires 0 <= track <= MaxTrack reads table =>
      seq(MaxSector, sector requires 0 <= sector < MaxSector reads table => table[track, sector]))
  }

  /**
   * `MakeSectorTable`: on a freshly zeroed 81 x 40 array, the offsets of the
   * 35 tracks of a D64 (with their 21, 19, 18 and 17 sectors) or of the 80
   * tracks of 40 sectors of a D81, counted from 0 in steps of 256 bytes.
   */
  method MakeSectorTable(t: DiskType) returns (table: array2<int>)
    ensures fresh(table) && table.Length0 == MaxTrack + 1 && table.Length1 == MaxSector
    ensures forall track, sector :: 0 <= track <= MaxTrack && 0 <= sector < MaxSector ==>
      table[track, sector] == TableEntry(t, track, sector)
  {
    table := new int[MaxTrack + 1, MaxSector]((_, _) => 0);
    var offset := 0;
    if t == D64 {
      for c := 1 to MaxD64Track + 1
        invariant offset == SectorSize * SectorsBefore(t, c)
        invariant forall track, sector :: 0 <= track <= MaxTrack && 0 <= sector < MaxSector ==>
          table[track, sector] == (if track < c then TableEntry(t, track, sector) else 0)
      {
        ZonesMatchTable(c);
        offset := FillTrack(table, t, c, D64SectorsPerTrack[c], offset);
      }
      D64Size();
    } else {
      for c := 1 to MaxTrack + 1
        invariant offset == SectorSize * SectorsBefore(t, c)
        invariant forall track, sector :: 0 <= track <= MaxTrack && 0 <= sector < MaxSector ==>
          table[track, sector] == (if track < c then TableEntry(t, track, sector) else 0)
      {
        offset := FillTrack(table, t, c, MaxSector, offset);
      }
    }
  }

  /** The inner loop of `MakeSectorTable`: `count` consecutive sectors of track `c` from `offset`. */
  method FillTrack(table: array2<int>, t: DiskType, c: nat, count: nat, offset: nat) returns (next: nat)
    requires table.Length0 == MaxTrack + 1 && table.Length1 == MaxSector
    requires 1 <= c <= MaxTrack && count == SectorCount(t, c)
    requires offset == SectorSize * SectorsBefore(t, c)
    modifies table
    ensures next == SectorSize * SectorsBefore(t, c + 1)
    ensures forall track, sector :: 0 <= track <= MaxTrack && 0 <= sector < MaxSector ==>
      table[track, sector] ==
        (if track == c && sector < count then TableEntry(t, track, sector) else old(table[track, sector]))
  {
    next := offset;
    for d := 0 to count
      invariant next == offset + SectorSize * d
      invariant forall track, sector :: 0 <= track <= MaxTrack && 0 <= sector < MaxSector ==>
        table[track, sector] ==
          (if track == c && sector < d then TableEntry(t, track, sector) else old(table[track, sector]))
    {
      table[c, d] := next;
      next := next + SectorSize;
    }
  }

  class DiskImage {
    const diskType: DiskType
    const data: seq<byte>
    /**
     * `sectorOffsets`: the table `MakeSectorTable` fills in the constructor.
     * Nothing writes the array afterwards, so it is kept as its contents.
     */
    const sectorOffsets: seq<seq<int>>

    ghost predicate Valid() {
      TableHolds(diskType, sectorOffsets)
    }

    /**
     * `asset` is what `Resources.Load` found under the image's name; without
     * one the image is 174848 zero bytes treated as a D64.
     */
    constructor (asset: Option<seq<byte>>)
      ensures Valid()
      ensures asset.Some? ==> data == asset.value && diskType == TypeOf(|asset.value|)
      ensures asset.None? ==> data == seq(D64ImageSize, _ => 0) && diskType == D64
    {
      var t: DiskType;
      if asset.Some? {
        data := asset.value;
        t := if |asset.value| == D81ImageSize then D81 else D64;
      } else {
        data := seq(D64ImageSize, _ => 0);
        t := D64;
      }
      diskType := t;
      var table := MakeSectorTable(t);
      sectorOffsets := Rows(table);
    }

    /** `GetSectorOffset`: the table lookup, None where the index is out of range. */
    function GetSectorOffset(track: int, sector: int): (r: Option<int>)
      requires TableShape(sectorOffsets)
      ensures Valid() ==> r == (match SectorOffset(diskType, track, sector)
                                case None => None
                                case Some(n) => Some(n))
    {
      if 0 <= track <= MaxTrack && 0 <= sector < MaxSector then Some(sectorOffsets[track][sector]) else None
    }

    /**
     * `OpenFile` on the disk image (no saved file of that name on the host):
     * a fresh handle at offset 2 of the first sector of the first matching
     * program entry, or null. `name` None opens the first program file.
     */
    method OpenFile(name: Option<seq<byte>>, fuel: nat) returns (found: Lookup, handle: FileHandle?)
      ensures found == OpenResult(diskType, data, name, fuel).0
      ensures handle != null <==> found.Found?
      ensures handle != null ==> fresh(handle) && handle.Value() == OpenResult(diskType, data, name, fuel).1.value
    {
      found := OpenResult(diskType, data, name, fuel).0;
      if found.Found? {
        handle := new FileHandle(found.track, found.sector);
      } else {
        handle := null;
      }
    }

    /** `ReadByte` on a handle of this image; `ok` is false where the C# code throws. */
    method ReadByte(handle: FileHandle) returns (value: byte, ok: bool)
      requires Valid()
      modifies handle
      ensures ReadStep(diskType, data, old(handle.Value())) ==
        ReadOutcome(if ok then Some(value) else None, handle.Value())
    {
      if handle.track == 0 {
        return 0, true;
      }
      var sectorStart := GetSectorOffset(handle.track, handle.sector);
      if sectorStart.None? {
        return 0, false;
      }
      var start := sectorStart.value;
      if !(0 <= start + handle.offset < |data|) || start >= |data| {
        return 0, false;
      }
      value := data[start + handle.offset];
      ok := true;
      if data[start] == 0 {
        // last sector: byte 1 is the offset of the last byte
        if start + 1 >= |data| {
          return 0, false;
        }
        if handle.offset >= data[start + 1] {
          handle.track := 0;
        } else {
          handle.offset := handle.offset + 1;
        }
      } else {
        handle.offset := handle.offset + 1;
        if handle.offset >= SectorSize {
          handle.track := data[start];
          handle.sector := data[start + 1];
          handle.offset := 2;
        }
      }
    }
  }
}

/** FAT12 and FAT16 entries: decoded through a window of one or two sectors,
    and scanned in a flat copy of the table. */
module Fat {
  import opened Basics

  type Sector = s: seq<Byte> | |s| == 512 witness seq(512, _ => 0)

  datatype FatType = Fat12 | Fat16 | Fat32

  /** A FAT volume; a sector that cannot be read is `None`. */
  datatype Volume = Volume(sectors: seq<Option<Sector>>, reserved: nat, clusterCount: nat, fatType: FatType,
      fatSize: nat)

  const ERROR := 1
  const FREE := 0

  function ReadSector(v: Volume, n: nat): Option<Sector> {
    if n < |v.sectors| then v.sectors[n] else None
  }

  /** Sector `i` of the first copy of the table. */
  function FatSector(v: Volume, i: nat): Option<Sector> {
    ReadSector(v, v.reserved + i)
  }

  /** Byte offset of a cluster's entry in the table. */
  function EntryOffset(t: FatType, cluster: nat): nat {
    if t.Fat12? then 3 * cluster / 2 else 2 * cluster
  }

  /** The entry in its two bytes. */
  function Decode(t: FatType, cluster: nat, b0: Byte, b1: Byte): nat {
    if t.Fat16? then b0 as int + 0x100 * (b1 as int)
    else if cluster % 2 == 1 then b0 / 16 + 16 * (b1 as int)
    else b0 as int + 0x100 * (b1 % 16)
  }

  /** `readFAT`.  An entry that ends its sector is also taken through two. */
  function ReadFat(v: Volume, cluster: nat): nat {
    if cluster >= v.clusterCount || cluster < 2 || v.fatType.Fat32? then ERROR
    else
      var o := EntryOffset(v.fatType, cluster);
      var n, off := o / 512, o % 512;
      match FatSector(v, n)
      case None => ERROR
      case Some(s) =>
        if off + 2 >= 512 then
          match FatSector(v, n + 1)
          case None => ERROR
          case Some(s2) =>
            var entry := s[off..] + s2[..2 - (512 - off)];
            Decode(v.fatType, cluster, entry[0], entry[1])
        else Decode(v.fatType, cluster, s[off], s[off + 1])
  }

  // ---------- the flat table ----------

  predicate Readable(v: Volume, n: nat) {
    forall i: nat | i < n :: FatSector(v, i).Some?
  }

  /** The first `n` sectors of the table end to end. */
  function Table(v: Volume, n: nat): (s: seq<Byte>)
    requires Readable(v, n)
    ensures |s| == 512 * n
  {
    if n == 0 then [] else Table(v, n - 1) + FatSector(v, n - 1).value
  }

  lemma {:induction false} TableAt(v: Volume, n: nat, i: nat, j: nat)
    requires Readable(v, n) && i < n && j < 512
    ensures Table(v, n)[512 * i + j] == FatSector(v, i).value[j]
  {
    if i < n - 1 { TableAt(v, n - 1, i, j); }
  }

  function FlatEntry(v: Volume, table: seq<Byte>, cluster: nat): nat
    requires EntryOffset(v.fatType, cluster) + 1 < |table|
  {
    var o := EntryOffset(v.fatType, cluster);
    Decode(v.fatType, cluster, table[o], table[o + 1])
  }

  /** Every entry lies in the table. */
  predicate TableFits(v: Volume) {
    v.clusterCount > 0 ==> EntryOffset(v.fatType, v.clusterCount - 1) + 1 < 512 * v.fatSize
  }

  lemma OffsetsFit(v: Volume, cluster: nat)
    requires TableFits(v) && cluster < v.clusterCount
    ensures EntryOffset(v.fatType, cluster) + 1 < 512 * v.fatSize
  {
  }

  /** The entry is the last of the table's last sector, which `readFAT` reads
      together with the sector behind the table. */
  predicate AtTableEnd(v: Volume, cluster: nat) {
    EntryOffset(v.fatType, cluster) + 2 == 512 * v.fatSize
  }

  /** The windowed decode is the flat one for every entry, straddling sectors
      or not, except that the table's last entry also needs the sector behind
      the table. */
  lemma WindowedIsFlat(v: Volume, cluster: nat)
    requires Readable(v, v.fatSize) && TableFits(v) && 2 <= cluster < v.clusterCount && !v.fatType.Fat32?
    ensures EntryOffset(v.fatType, cluster) + 1 < 512 * v.fatSize
    ensures ReadFat(v, cluster) == if AtTableEnd(v, cluster) && FatSector(v, v.fatSize).None? then ERROR
              else FlatEntry(v, Table(v, v.fatSize), cluster)
  {
    OffsetsFit(v, cluster);
    var o := EntryOffset(v.fatType, cluster);
    var n, off := o / 512, o % 512;
    assert o == 512 * n + off;
    hide EntryOffset, Decode, Table;
    TableAt(v, v.fatSize, n, off);
    if off == 511 {
      TableAt(v, v.fatSize, n + 1, 0);
    } else {
      TableAt(v, v.fatSize, n, off + 1);
    }
  }

  // ---------- what the bytes of a table mean ----------

  /** FAT12 entries packed two to three bytes, as the format defines it. */
  function Pack12(entries: seq<nat>): (s: seq<Byte>)
    requires forall i | 0 <= i < |entries| :: entries[i] < 0x1000
    ensures 2 * |s| >= 3 * |entries|
  {
    if entries == [] then []
    else if |entries| == 1 then [entries[0] % 0x100, entries[0] / 0x100]
    else
      [entries[0] % 0x100, entries[0] / 0x100 + 16 * (entries[1] % 16), entries[1] / 16] + Pack12(entries[2..])
  }

  /** FAT16 entries, low byte first. */
  function Pack16(entries: seq<nat>): (s: seq<Byte>)
    requires forall i | 0 <= i < |entries| :: entries[i] < 0x1_0000
    ensures |s| == 2 * |entries|
  {
    if entries == [] then [] else [entries[0] % 0x100, entries[0] / 0x100] + Pack16(entries[1..])
  }

  lemma EvenNibbles(x: nat, y: nat)
    requires x < 0x1000 && y < 16
    ensures x % 0x100 + 0x100 * ((x / 0x100 + 16 * y) % 16) == x
  {
  }

  lemma OddNibbles(x: nat, y: nat)
    requires x < 16 && y < 0x1000
    ensures (x + 16 * (y % 16)) / 16 + 16 * (y / 16) == y
  {
  }

  /** Packing and decoding FAT12 gives every entry back. */
  lemma {:induction false} Decode12(entries: seq<nat>, c: nat)
    requires (forall i | 0 <= i < |entries| :: entries[i] < 0x1000) && c < |entries|
    ensures 3 * c / 2 + 1 < |Pack12(entries)|
    ensures Decode(Fat12, c, Pack12(entries)[3 * c / 2], Pack12(entries)[3 * c / 2 + 1]) == entries[c]
    decreases c
  {
    if c >= 2 {
      Decode12(entries[2..], c - 2);
      assert 3 * c / 2 == 3 + 3 * (c - 2) / 2 && c % 2 == (c - 2) % 2;
    } else if c == 1 {
      OddNibbles(entries[0] / 0x100, entries[1]);
    } else {
      EvenNibbles(entries[0], if |entries| == 1 then 0 else entries[1] % 16);
    }
  }

  lemma {:induction false} Decode16(entries: seq<nat>, c: nat)
    requires (forall i | 0 <= i < |entries| :: entries[i] < 0x1_0000) && c < |entries|
    ensures Decode(Fat16, c, Pack16(entries)[2 * c], Pack16(entries)[2 * c + 1]) == entries[c]
    decreases c
  {
    if c > 0 { Decode16(entries[1..], c - 1); }
  }

  /** The entries are of the width the type asks for. */
  predicate EntriesOf(t: FatType, entries: seq<nat>) {
    !t.Fat32? && forall i | 0 <= i < |entries| :: entries[i] < if t.Fat12? then 0x1000 else 0x1_0000
  }

  function Pack(t: FatType, entries: seq<nat>): seq<Byte>
    requires EntriesOf(t, entries)
  {
    if t.Fat12? then Pack12(entries) else Pack16(entries)
  }

  /** A table that starts with packed entries holds them. */
  lemma PackedEntry(v: Volume, table: seq<Byte>, entries: seq<nat>, c: nat)
    requires EntriesOf(v.fatType, entries) && Pack(v.fatType, entries) <= table && c < |entries|
    ensures EntryOffset(v.fatType, c) + 1 < |table| && FlatEntry(v, table, c) == entries[c]
  {
    hide Decode, Pack12, Pack16;
    if v.fatType.Fat12? { Decode12(entries, c); } else { Decode16(entries, c); }
  }

  /** The volume's table holds the entries, one for every cluster. */
  ghost predicate Holds(v: Volume, entries: seq<nat>) {
    && Readable(v, v.fatSize) && TableFits(v) && |entries| == v.clusterCount
    && EntriesOf(v.fatType, entries) && Pack(v.fatType, entries) <= Table(v, v.fatSize)
  }

  /** `readFAT` reads back what the table was packed from, with the exception
      of `WindowedIsFlat`; clusters outside the table are errors. */
  lemma ReadFatIs(v: Volume, entries: seq<nat>, c: nat)
    requires Holds(v, entries)
    ensures ReadFat(v, c) ==
            if c < 2 || c >= |entries| || (AtTableEnd(v, c) && FatSector(v, v.fatSize).None?) then 1 else entries[c]
  {
    hide Pack, Table, Decode;
    if 2 <= c < |entries| {
      WindowedIsFlat(v, c);
      PackedEntry(v, Table(v, v.fatSize), entries, c);
    }
  }

  /** An entry is free exactly if 0 was packed there. */
  lemma FreeIsZero(v: Volume, entries: seq<nat>, c: nat)
    requires Holds(v, entries) && c < |entries|
    ensures EntryFree(v, c) <==> entries[c] == 0
  {
    hide Pack, Table, Decode;
    PackedEntry(v, Table(v, v.fatSize), entries, c);
  }

  /** `getFreeCluster`: the least free cluster of the table, or 1 exactly if it
      has none, a sector of it cannot be read, or it is a FAT32 table. */
  method GetFreeCluster(v: Volume) returns (r: nat)
    requires TableFits(v)
    ensures !Readable(v, v.fatSize) || v.fatType.Fat32? ==> r == ERROR
    ensures Readable(v, v.fatSize) && !v.fatType.Fat32? ==>
            && (r == ERROR || (2 <= r < v.clusterCount && EntryFree(v, r)))
            && (forall c: nat | 2 <= c < v.clusterCount && (r == ERROR || c < r) :: !EntryFree(v, c))
    ensures forall entries | Holds(v, entries) ::
              && (r == 1 || (2 <= r < |entries| && entries[r] == 0))
              && (forall c: nat | 2 <= c < |entries| && (r == 1 || c < r) :: entries[c] != 0)
  {
    r := FindFree(v);
    hide Readable, EntryFree, TableFits, EntriesOf, Table, Pack;
    forall entries, c: nat | Holds(v, entries) && c < |entries|
      ensures EntryFree(v, c) <==> entries[c] == 0
    {
      FreeIsZero(v, entries, c);
    }
  }

  /** The two loops of `getFreeCluster`. */
  method FindFree(v: Volume) returns (r: nat)
    requires TableFits(v)
    ensures !Readable(v, v.fatSize) || v.fatType.Fat32? ==> r == ERROR
    ensures Readable(v, v.fatSize) && !v.fatType.Fat32? ==>
            && (r == ERROR || (2 <= r < v.clusterCount && EntryFree(v, r)))
            && (forall c: nat | 2 <= c < v.clusterCount && (r == ERROR || c < r) :: !EntryFree(v, c))
  {
    hide EntryOffset, Decode;
    var table := [];
    var n := 0;
    while n < v.fatSize
      invariant n <= v.fatSize && Readable(v, n) && table == Table(v, n)
    {
      if FatSector(v, n).None? { return ERROR; }
      table := table + FatSector(v, n).value;
      n := n + 1;
    }
    var i := 2;
    while i < v.clusterCount
      invariant i >= 2 && (!v.fatType.Fat32? ==> forall c: nat | 2 <= c < i && c < v.clusterCount :: !EntryFree(v, c))
    {
      if v.fatType.Fat32? { return ERROR; }
      OffsetsFit(v, i);
      if FlatEntry(v, table, i) == FREE { return i; }
      i := i + 1;
    }
    return ERROR;
  }

  predicate EntryFree(v: Volume, cluster: nat) {
    && Readable(v, v.fatSize)
    && EntryOffset(v.fatType, cluster) + 1 < 512 * v.fatSize
    && FlatEntry(v, Table(v, v.fatSize), cluster) == FREE
  }

  /** Freeness is what `readFAT` says, as long as the sector behind the table
      can be read; without it, all entries but a free last one. */
  lemma FreeIsReadFat(v: Volume, cluster: nat)
    requires Readable(v, v.fatSize) && TableFits(v) && 2 <= cluster < v.clusterCount && !v.fatType.Fat32?
    ensures ReadFat(v, cluster) == FREE <==>
              EntryFree(v, cluster) && !(AtTableEnd(v, cluster) && FatSector(v, v.fatSize).None?)
  {
    WindowedIsFlat(v, cluster);
  }

  /** A FAT16 table of one sector, all free, that ends the volume: its last
      entry, 255, reads as an error. */
  lemma LastEntryMissed()
    ensures var none: Sector := seq(512, _ => 0); var v := Volume([Some(none), Some(none)], 1, 256, Fat16, 1);
            && Readable(v, v.fatSize) && TableFits(v) && AtTableEnd(v, 255)
            && ReadFat(v, 255) == ERROR && EntryFree(v, 255)
  {
    var none: Sector := seq(512, _ => 0);
    var v := Volume([Some(none), Some(none)], 1, 256, Fat16, 1);
    assert Table(v, 1) == none;
  }
}

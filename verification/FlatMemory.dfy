/** Ranges of flat physical memory, and how stores through page tables split
    into pieces of one page each. */
module FlatMemory {
  import opened Basics
  import opened AddressSpace

  /** Consecutive bytes from physical address `p` on. */
  function FlatStore(m: Phys, p: Addr, data: seq<Byte>): Phys
    decreases |data|
  {
    if data == [] then m else FlatStore(m[p := data[0]], Plus(p, 1), data[1..])
  }

  function FlatLoad(m: Phys, p: Addr, n: nat): (s: seq<Byte>)
    ensures |s| == n
  {
    seq(n, i requires 0 <= i < n => m[Plus(p, i)])
  }

  /** The distance from `p` up to `q`, around the end of memory if need be. */
  function Distance(p: Addr, q: Addr): (d: nat)
    ensures d < 0x1_0000_0000 && Plus(p, d) == q
  {
    if q >= p then q - p else q - p + 0x1_0000_0000
  }

  /** A flat store puts `data[d]` at distance `d`, and nothing anywhere else. */
  lemma {:induction false} FlatStoreAt(m: Phys, p: Addr, data: seq<Byte>, q: Addr)
    requires |data| <= 0x1_0000_0000
    ensures FlatStore(m, p, data)[q] == if Distance(p, q) < |data| then data[Distance(p, q)] else m[q]
    decreases |data|
  {
    if data != [] {
      FlatStoreAt(m[p := data[0]], Plus(p, 1), data[1..], q);
      if q != p { assert Distance(p, q) == Distance(Plus(p, 1), q) + 1; }
    }
  }

  lemma {:induction false} FlatStoreConcat(m: Phys, p: Addr, d1: seq<Byte>, d2: seq<Byte>)
    ensures FlatStore(m, p, d1 + d2) == FlatStore(FlatStore(m, p, d1), Plus(p, |d1|), d2)
    decreases |d1|
  {
    if d1 == [] {
      assert d1 + d2 == d2;
    } else {
      assert (d1 + d2)[1..] == d1[1..] + d2;
      FlatStoreConcat(m[p := d1[0]], Plus(p, 1), d1[1..], d2);
      PlusPlus(p, 1, |d1| - 1);
    }
  }

  /** A buffer with `data` written over it from position `at` on. */
  function Splice(buffer: seq<Byte>, at: nat, data: seq<Byte>): (r: seq<Byte>)
    requires at + |data| <= |buffer|
    ensures |r| == |buffer|
  {
    buffer[..at] + data + buffer[at + |data|..]
  }

  lemma SpliceConcat(buffer: seq<Byte>, at: nat, d1: seq<Byte>, d2: seq<Byte>)
    requires at + |d1| + |d2| <= |buffer|
    ensures Splice(Splice(buffer, at, d1), at + |d1|, d2) == Splice(buffer, at, d1 + d2)
  {
  }

  lemma SliceConcat(s: seq<Byte>, i: nat, j: nat, k: nat)
    requires i <= j <= k <= |s|
    ensures s[i..j] + s[j..k] == s[i..k]
  {
  }

  lemma FlatLoadConcat(m: Phys, p: Addr, n1: nat, n2: nat)
    ensures FlatLoad(m, p, n1 + n2) == FlatLoad(m, p, n1) + FlatLoad(m, Plus(p, n1), n2)
  {
    hide Plus;
    forall i | n1 <= i < n1 + n2
      ensures Plus(p, i) == Plus(Plus(p, n1), i - n1)
    {
      PlusPlus(p, n1, i - n1);
    }
  }

  lemma EmptyRanges(m: Phys, p: Addr, buffer: seq<Byte>, at: nat)
    requires at <= |buffer|
    ensures Splice(buffer, at, FlatLoad(m, p, 0)) == buffer
    ensures FlatStore(m, p, buffer[at..at]) == m
    ensures Plus(p, 0) == p
  {
    assert FlatLoad(m, p, 0) == [];
  }

  /** `n` bytes moved between memory at `p` and a buffer at `at`: read from
      memory `m`, or written to it, leaving memory `m'` and buffer `buffer'`. */
  ghost predicate Transferred(read: bool, m: Phys, m': Phys, p: Addr, buffer: seq<Byte>, buffer': seq<Byte>, at: nat,
                              n: nat) {
    && at + n <= |buffer|
    && if read then m' == m && buffer' == Splice(buffer, at, FlatLoad(m, p, n))
       else buffer' == buffer && m' == FlatStore(m, p, buffer[at..at + n])
  }

  lemma NothingTransferred(read: bool, m: Phys, p: Addr, buffer: seq<Byte>, at: nat)
    requires at <= |buffer|
    ensures Transferred(read, m, m, p, buffer, buffer, at, 0) && Plus(p, 0) == p
  {
    EmptyRanges(m, p, buffer, at);
  }

  /** A transfer continued by one more piece. */
  lemma NextPiece(read: bool, m: Phys, m1: Phys, m2: Phys, p: Addr, b: seq<Byte>, b1: seq<Byte>, b2: seq<Byte>,
                  at: nat, done: nat, n: nat)
    requires at + done + n <= |b| && Transferred(read, m, m1, p, b, b1, at, done)
             && Transferred(read, m1, m2, Plus(p, done), b1, b2, at + done, n)
    ensures Transferred(read, m, m2, p, b, b2, at, done + n)
    ensures Plus(Plus(p, done), n) == Plus(p, done + n)
  {
    hide FlatStore, FlatLoad, Splice, Plus;
    PlusPlus(p, done, n);
    if read {
      FlatLoadConcat(m, p, done, n);
      SpliceConcat(b, at, FlatLoad(m, p, done), FlatLoad(m, Plus(p, done), n));
    } else {
      FlatStoreConcat(m, p, b[at..at + done], b[at + done..at + done + n]);
      SliceConcat(b, at, at + done, at + done + n);
    }
  }

  lemma LoadOneMore(m: Phys, p: Addr, i: nat, buffer: seq<Byte>, at: nat)
    requires at + i < |buffer|
    ensures Splice(buffer, at, FlatLoad(m, p, i + 1)) == Splice(buffer, at, FlatLoad(m, p, i))[at + i := m[Plus(p, i)]]
  {
    assert FlatLoad(m, p, i + 1) == FlatLoad(m, p, i) + [m[Plus(p, i)]];
  }

  // ---------- within one page ----------

  lemma PageRun(va: Addr, i: nat)
    requires Offset(va) + i < 0x1000
    ensures Page(Plus(va, i)) == Page(va) && Offset(Plus(va, i)) == Offset(va) + i && Plus(va, i) == va + i
  {
  }

  lemma FrameRun(f: Frame, offset: nat, i: nat)
    requires offset + i < 0x1000
    ensures Plus(InFrame(f, offset), i) == InFrame(f, offset + i)
  {
  }

  lemma ResolveRun(m: Phys, dir: Frame, va: Addr, via: Via, i: nat)
    requires Offset(va) + i < 0x1000
    ensures match Resolve(m, dir, Page(va), via)
            case None => Locate(m, dir, Plus(va, i), via) == None
            case Some(f) => Locate(m, dir, Plus(va, i), via) == Some(InFrame(f, Offset(va) + i))
  {
    hide Resolve, InFrame, Page;
    PageRun(va, i);
  }

  /** A range within one page is mapped as a whole or not at all. */
  lemma ReachInPage(m: Phys, dir: Frame, va: Addr, n: nat, via: Via)
    requires Offset(va) + n <= 0x1000
    ensures Reach(m, dir, va, n, via) == if Resolve(m, dir, Page(va), via).None? then 0 else n
  {
    hide Reach, Locate, Resolve, Plus;
    var k := Reach(m, dir, va, n, via);
    if k < n { ResolveRun(m, dir, va, via, k); }
    if k > 0 { ResolveRun(m, dir, va, via, 0); }
  }

  // ---------- pieces ----------

  lemma ReachIs(m: Phys, dir: Frame, va: Addr, n: nat, via: Via, k: nat)
    requires k <= n && (forall i | 0 <= i < k :: Locate(m, dir, Plus(va, i), via).Some?)
    requires k < n ==> Locate(m, dir, Plus(va, k), via).None?
    ensures Reach(m, dir, va, n, via) == k
  {
    hide Reach, Locate, Plus;
  }

  lemma ReachConcat(m: Phys, dir: Frame, va: Addr, n1: nat, n2: nat, via: Via)
    ensures Reach(m, dir, va, n1 + n2, via) ==
            if Reach(m, dir, va, n1, via) < n1 then Reach(m, dir, va, n1, via)
            else n1 + Reach(m, dir, Plus(va, n1), n2, via)
  {
    hide Reach, Locate, Plus;
    var k1, k2 := Reach(m, dir, va, n1, via), Reach(m, dir, Plus(va, n1), n2, via);
    forall i | 0 <= i <= k2
      ensures Plus(Plus(va, n1), i) == Plus(va, n1 + i)
    {
      PlusPlus(va, n1, i);
    }
    var k := if k1 < n1 then k1 else n1 + k2;
    forall i | 0 <= i < k
      ensures Locate(m, dir, Plus(va, i), via).Some?
    {
      if i >= n1 { assert Locate(m, dir, Plus(Plus(va, n1), i - n1), via).Some?; }
    }
    ReachIs(m, dir, va, n1 + n2, via, k);
  }

  lemma StoreStep(t: Phys, m: Phys, dir: Frame, va: Addr, data: seq<Byte>, via: Via)
    requires data != [] && Locate(t, dir, va, via).Some?
    ensures Store(t, m, dir, va, data, via)
            == Store(t, m[Locate(t, dir, va, via).value := data[0]], dir, Plus(va, 1), data[1..], via)
  {
  }

  lemma {:induction false} StoreConcat(t: Phys, m: Phys, dir: Frame, va: Addr, d1: seq<Byte>, d2: seq<Byte>, via: Via)
    requires Reach(t, dir, va, |d1|, via) == |d1|
    ensures Store(t, m, dir, va, d1 + d2, via) == Store(t, Store(t, m, dir, va, d1, via), dir, Plus(va, |d1|), d2, via)
    decreases |d1|
  {
    hide Reach, Locate, Plus;
    if d1 == [] {
      PlusPlus(va, 0, 0);
      assert d1 + d2 == d2;
      assert Store(t, m, dir, va, d1, via) == m;
    } else {
      PlusPlus(va, 1, |d1| - 1);
      assert Locate(t, dir, va, via).Some?;
      StoreStep(t, m, dir, va, d1, via);
      StoreStep(t, m, dir, va, d1 + d2, via);
      hide Store;
      assert (d1 + d2)[1..] == d1[1..] + d2 && (d1 + d2)[0] == d1[0];
      ReachConcat(t, dir, va, 1, |d1| - 1, via);
      StoreConcat(t, m[Locate(t, dir, va, via).value := d1[0]], dir, Plus(va, 1), d1[1..], d2, via);
    }
  }

  // ---------- transfers through page tables ----------

  lemma LoadConcat(m: Phys, dir: Frame, va: Addr, n1: nat, n2: nat, via: Via)
    requires Reach(m, dir, va, n1, via) == n1
    ensures Load(m, dir, va, n1 + n2, via) == Load(m, dir, va, n1, via) + Load(m, dir, Plus(va, n1), n2, via)
  {
    hide Reach, Locate, Plus;
    ReachConcat(m, dir, va, n1, n2, via);
    forall i | 0 <= i < Reach(m, dir, Plus(va, n1), n2, via)
      ensures Plus(Plus(va, n1), i) == Plus(va, n1 + i)
    {
      PlusPlus(va, n1, i);
    }
    var a, b := Load(m, dir, va, n1 + n2, via), Load(m, dir, va, n1, via) + Load(m, dir, Plus(va, n1), n2, via);
    forall i | 0 <= i < |a|
      ensures a[i] == b[i]
    {
      if i >= n1 { assert Plus(Plus(va, n1), i - n1) == Plus(va, i); }
    }
  }

  lemma LoadInPage(m: Phys, dir: Frame, va: Addr, n: nat, via: Via, f: Frame)
    requires Resolve(m, dir, Page(va), via) == Some(f) && Offset(va) + n <= 0x1000
    ensures Load(m, dir, va, n, via) == FlatLoad(m, InFrame(f, Offset(va)), n)
  {
    hide Reach, Resolve, Locate, Plus, InFrame;
    ReachInPage(m, dir, va, n, via);
    forall i | 0 <= i < n
      ensures Locate(m, dir, Plus(va, i), via) == Some(Plus(InFrame(f, Offset(va)), i))
    {
      ResolveRun(m, dir, va, via, i);
      FrameRun(f, Offset(va), i);
    }
  }

  // ---------- the tables themselves ----------

  predicate SameFrame(m: Phys, m': Phys, f: Frame) {
    forall o: nat | o < 0x1000 :: m'[InFrame(f, o)] == m[InFrame(f, o)]
  }

  lemma EntrySame(m: Phys, m': Phys, f: Frame, i: nat)
    requires SameFrame(m, m', f) && i < 1024
    ensures Entry(m', f, i) == Entry(m, f, i)
  {
    assert m'[InFrame(f, 4 * i)] == m[InFrame(f, 4 * i)];
    assert m'[InFrame(f, 4 * i + 1)] == m[InFrame(f, 4 * i + 1)];
    assert m'[InFrame(f, 4 * i + 2)] == m[InFrame(f, 4 * i + 2)];
    assert m'[InFrame(f, 4 * i + 3)] == m[InFrame(f, 4 * i + 3)];
  }

  /** The page table a walk for the page reads, if it reads one. */
  function TableOf(m: Phys, dir: Frame, page: Frame): Option<Frame> {
    var pde := Entry(m, dir, PdeIndex(page));
    if Present(pde) && !Large(pde) then Some(Page(pde)) else None
  }

  /** The directory and every page table used for the range are as they were. */
  ghost predicate TablesIntact(m: Phys, m': Phys, dir: Frame, va: Addr, n: nat) {
    && SameFrame(m, m', dir)
    && forall i | 0 <= i < n && TableOf(m, dir, Page(Plus(va, i))).Some? ::
         SameFrame(m, m', TableOf(m, dir, Page(Plus(va, i))).value)
  }

  lemma WalkIntact(m: Phys, m': Phys, dir: Frame, va: Addr, n: nat, i: nat)
    requires TablesIntact(m, m', dir, va, n) && i < n
    ensures Walk(m', dir, Page(Plus(va, i))) == Walk(m, dir, Page(Plus(va, i)))
    ensures Translate(m', dir, Page(Plus(va, i))) == Translate(m, dir, Page(Plus(va, i)))
  {
    hide Entry, Present, Large, Page, Plus, SameFrame;
    var page := Page(Plus(va, i));
    EntrySame(m, m', dir, PdeIndex(page));
    if TableOf(m, dir, page).Some? { EntrySame(m, m', TableOf(m, dir, page).value, PteIndex(page)); }
  }

  ghost predicate TableFree(m: Phys, dir: Frame, va: Addr, n: nat, f: Frame) {
    f != dir && forall j | 0 <= j < n :: TableOf(m, dir, Page(Plus(va, j))) != Some(f)
  }

  /** Entry `i` of the page map in frame `f` stored, low byte first. */
  function PutEntry(m: Phys, f: Frame, i: nat, w: Addr): Phys
    requires i < 1024
  {
    m[InFrame(f, 4 * i) := w % 0x100]
     [InFrame(f, 4 * i + 1) := w / 0x100 % 0x100]
     [InFrame(f, 4 * i + 2) := w / 0x1_0000 % 0x100]
     [InFrame(f, 4 * i + 3) := w / 0x100_0000]
  }

  lemma BytesOfWord(w: Addr)
    ensures w % 0x100 + 0x100 * (w / 0x100 % 0x100) + 0x1_0000 * (w / 0x1_0000 % 0x100)
            + 0x100_0000 * (w / 0x100_0000) == w
  {
  }

  lemma PutEntryAt(m: Phys, f: Frame, i: nat, w: Addr)
    requires i < 1024
    ensures Entry(PutEntry(m, f, i, w), f, i) == w
    ensures forall q: Addr | Page(q) != f || Offset(q) / 4 != i :: PutEntry(m, f, i, w)[q] == m[q]
  {
    BytesOfWord(w);
    forall q: Addr | Page(q) != f || Offset(q) / 4 != i
      ensures PutEntry(m, f, i, w)[q] == m[q]
    {
      assert Offset(InFrame(f, 4 * i)) == 4 * i && Offset(InFrame(f, 4 * i + 1)) == 4 * i + 1;
      assert Offset(InFrame(f, 4 * i + 2)) == 4 * i + 2 && Offset(InFrame(f, 4 * i + 3)) == 4 * i + 3;
    }
  }

  // ---------- entries bit by bit ----------

  /** A 32-bit word at physical address `p`, low byte first. */
  predicate HasWord(m: Phys, p: nat, w: Addr)
    requires p + 3 < 0x1_0000_0000
  {
    && m[p] == w % 0x100 && m[p + 1] == w / 0x100 % 0x100
    && m[p + 2] == w / 0x1_0000 % 0x100 && m[p + 3] == w / 0x100_0000
  }

  lemma EntryIs(m: Phys, f: Frame, i: nat, w: Addr)
    requires i < 1024 && HasWord(m, f * 0x1000 + i * 4, w)
    ensures Entry(m, f, i) == w
  {
    BytesOfWord(w);
  }

  lemma SmallQuotients(f: nat, a: nat)
    requires a < 0x1000
    ensures (f * 0x1000 + a) / 0x1000 == f && (f * 0x1000 + a) / 0x80 == f * 0x20 + a / 0x80
  {
  }

  lemma SmallParity(f: nat, a: nat, x: nat)
    ensures (f * 0x1000 + a) % 2 == a % 2 && (f * 0x20 + x) % 2 == x % 2
  {
  }

  lemma SmallFlags(f: Frame, a: nat)
    requires a < 0x1000
    ensures var w := f * 0x1000 + a;
            (Present(w) <==> a % 2 == 1) && (Large(w) <==> a / 0x80 % 2 == 1) && Page(w) == f
  {
    SmallQuotients(f, a);
    SmallParity(f, a, a / 0x80);
  }

  lemma SmallAddress(f: Frame, va: Addr)
    ensures InFrame(f, Offset(va)) == f * 0x1000 + va % 0x1000
  {
  }

  lemma IndicesOf(va: Addr)
    ensures PdeIndex(Page(va)) == va / 0x40_0000 && PteIndex(Page(va)) == va / 0x1000 % 0x400
  {
  }

  /** An address whose directory entry has bit 7 clear: it is mapped exactly if
      bit 0 of both entries is set, to the frame the second one names, both for
      the processor and for the kernel. */
  lemma SmallPageFound(m: Phys, dir: Frame, va: Addr, t: Frame, a: nat, f: Frame, b: nat, via: Via)
    requires a < 0x1000 && b < 0x1000
    requires HasWord(m, dir * 0x1000 + va / 0x40_0000 * 4, t * 0x1000 + a)
    requires HasWord(m, t * 0x1000 + va / 0x1000 % 0x400 * 4, f * 0x1000 + b)
    ensures a % 2 == 1 && a / 0x80 % 2 == 0 && b % 2 == 1 ==> Locate(m, dir, va, via) == Some(f * 0x1000 + va % 0x1000)
    ensures a % 2 == 0 || (a / 0x80 % 2 == 0 && b % 2 == 0) ==> Locate(m, dir, va, via) == None
  {
    EntryIs(m, dir, va / 0x40_0000, t * 0x1000 + a);
    EntryIs(m, t, va / 0x1000 % 0x400, f * 0x1000 + b);
    SmallFlags(t, a);
    SmallFlags(f, b);
    IndicesOf(va);
    SmallAddress(f, va);
    hide Entry, Present, Large, LargeHigh, LargeFrame, PdeIndex, PteIndex, Page, HasWord, InFrame, Offset;
  }

  lemma QuotientsOf(c: nat, a: nat)
    requires c < 0x400 && a < 0x40_0000
    ensures var w := c * 0x40_0000 + a;
            w / 0x40_0000 == c && w / 0x80 == c * 0x8000 + a / 0x80 && w / 0x2000 == c * 0x200 + a / 0x2000
  {
  }

  lemma BitSeven(c: nat, x: nat)
    ensures (c * 0x8000 + x) % 2 == x % 2
  {
  }

  lemma HighBits(c: nat, x: nat)
    ensures (c * 0x200 + x) % 0x100 == x % 0x100
  {
  }

  lemma LargeFlags(c: nat, a: nat)
    requires c < 0x400 && a < 0x40_0000
    ensures var w := c * 0x40_0000 + a;
            && (Present(w) <==> a % 2 == 1) && (Large(w) <==> a / 0x80 % 2 == 1)
            && LargeFrame(w) == c * 0x400 && LargeHigh(w) == a / 0x2000 % 0x100
  {
    QuotientsOf(c, a);
    BitSeven(c, a / 0x80);
    HighBits(c, a / 0x2000);
  }

  lemma LargeAddress(c: nat, va: Addr)
    requires c < 0x400
    ensures InFrame(c * 0x400, Offset(va)) == c * 0x40_0000 + va % 0x1000
    ensures InFrame(c * 0x400 + va / 0x1000 % 0x400, Offset(va)) == c * 0x40_0000 + va % 0x40_0000
  {
  }

  /** An address whose directory entry has bits 0 and 7 set: it is mapped by a
      4 MiB page, of which the kernel finds only the first 4 KiB.  A page above
      4 GiB (bits 13 to 20) is outside memory. */
  lemma LargePageFound(m: Phys, dir: Frame, va: Addr, c: nat, a: nat)
    requires c < 0x400 && a < 0x40_0000 && a % 2 == 1 && a / 0x80 % 2 == 1
    requires HasWord(m, dir * 0x1000 + va / 0x40_0000 * 4, c * 0x40_0000 + a)
    ensures Locate(m, dir, va, Tables) == Some(c * 0x40_0000 + va % 0x1000)
    ensures Locate(m, dir, va, Mmu) == if a / 0x2000 % 0x100 == 0 then Some(c * 0x40_0000 + va % 0x40_0000) else None
  {
    EntryIs(m, dir, va / 0x40_0000, c * 0x40_0000 + a);
    LargeFlags(c, a);
    IndicesOf(va);
    LargeAddress(c, va);
    hide Entry, Present, Large, LargeHigh, LargeFrame, PdeIndex, PteIndex, Page, HasWord, InFrame, Offset;
  }

  lemma LargeEntry()
    ensures Present(0x83) && Large(0x83) && LargeHigh(0x83) == 0 && LargeFrame(0x83) == 0 && PdeIndex(1) == 0
            && PteIndex(1) == 1
  {
  }

  /** A 4 MiB page where the kernel's walk goes wrong: the directory maps the
      first 4 MiB onto themselves, and the walk finds frame 0 for page 1. */
  lemma LargePageMissed(m: Phys, dir: Frame)
    ensures var m1 := PutEntry(m, dir, 0, 0x83); Translate(m1, dir, 1) == Some(1) && Walk(m1, dir, 1) == Some(0)
  {
    PutEntryAt(m, dir, 0, 0x83);
    LargeEntry();
    hide PutEntry, Entry, Present, Large, LargeHigh, LargeFrame, PdeIndex, PteIndex;
  }

  /** A store that meets an unmapped byte is the store of what came before it. */
  lemma StoreStops(m: Phys, m1: Phys, dir: Frame, va: Addr, data: seq<Byte>, via: Via)
    ensures var k := Reach(m, dir, va, |data|, via);
            Store(m, m1, dir, va, data, via) == Store(m, m1, dir, va, data[..k], via)
  {
    hide Reach, Locate, Plus;
    var k := Reach(m, dir, va, |data|, via);
    ReachIs(m, dir, va, k, via, k);
    assert data == data[..k] + data[k..];
    StoreConcat(m, m1, dir, va, data[..k], data[k..], via);
    assert k < |data| ==> Locate(m, dir, Plus(va, k), via).None?;
  }

  // ---------- a new page directory ----------

  /** The entry that maps a directory into itself. */
  predicate MapsItself(m: Phys, dir: Frame) {
    var pde := Entry(m, dir, RECURSIVE_PDE);
    Present(pde) && !Large(pde) && Page(pde) == dir
  }

  /** Through that entry the last virtual page is the directory itself. */
  lemma LastPageIsDirectory(m: Phys, dir: Frame, i: nat)
    requires MapsItself(m, dir) && i < 1024
    ensures Translate(m, dir, 0xFFFFF) == Some(dir)
    ensures Load(m, dir, InFrame(0xFFFFF, 4 * i), 4 * (1023 - i), Mmu)
            == FlatLoad(m, InFrame(dir, 4 * i), 4 * (1023 - i))
  {
    hide Entry, Load, FlatLoad, InFrame;
    LoadInPage(m, dir, InFrame(0xFFFFF, 4 * i), 4 * (1023 - i), Mmu, dir);
  }

  lemma FlatLoadInFrame(m: Phys, f: Frame, o: nat, n: nat, j: nat)
    requires o + n <= 0x1000 && j < n
    ensures FlatLoad(m, InFrame(f, o), n)[j] == m[InFrame(f, o + j)]
  {
    FrameRun(f, o, j);
  }

  lemma DistanceInFrame(f: Frame, o: nat, g: Frame, j: nat, n: nat)
    requires o < 0x1000 && o + n <= 0x1000 && j < 0x1000
    ensures var d := Distance(InFrame(f, o), InFrame(g, j));
            (d < n <==> g == f && o <= j < o + n) && (d < n ==> d == j - o)
  {
    hide Page, Offset, Plus;
  }

  /** A flat store within a frame, byte by byte. */
  lemma FlatStoreInFrame(m: Phys, f: Frame, o: nat, data: seq<Byte>, g: Frame, j: nat)
    requires o < 0x1000 && o + |data| <= 0x1000 && j < 0x1000
    ensures FlatStore(m, InFrame(f, o), data)[InFrame(g, j)] == if g == f && o <= j < o + |data| then data[j - o]
              else m[InFrame(g, j)]
  {
    hide FlatStore, InFrame, Distance;
    FlatStoreAt(m, InFrame(f, o), data, InFrame(g, j));
    DistanceInFrame(f, o, g, j, |data|);
  }

  /** What `initialize_root_pmap` leaves in memory: from entry `k` up the new
      directory in frame `f` copies the current one in frame `root`, and its
      last entry is `w`. */
  function NewDirectory(m: Phys, root: Frame, f: Frame, k: nat, w: Addr): Phys
    requires k < RECURSIVE_PDE
  {
    PutEntry(FlatStore(m, InFrame(f, 4 * k), FlatLoad(m, InFrame(root, 4 * k), 4 * (RECURSIVE_PDE - k))), f,
        RECURSIVE_PDE, w)
  }

  lemma NewDirectoryBytes(m: Phys, root: Frame, f: Frame, k: nat, w: Addr, g: Frame, j: nat)
    requires k < RECURSIVE_PDE && j < 0x1000 && !(g == f && j >= 4 * RECURSIVE_PDE)
    ensures NewDirectory(m, root, f, k, w)[InFrame(g, j)] == m[InFrame(if g == f && j >= 4 * k then root else g, j)]
  {
    hide FlatStore, FlatLoad, InFrame, PutEntry;
    var n := 4 * (RECURSIVE_PDE - k);
    var data := FlatLoad(m, InFrame(root, 4 * k), n);
    FlatStoreInFrame(m, f, 4 * k, data, g, j);
    if g == f && j >= 4 * k { FlatLoadInFrame(m, root, 4 * k, n, j - 4 * k); }
    PutEntryAt(FlatStore(m, InFrame(f, 4 * k), data), f, RECURSIVE_PDE, w);
  }

  lemma EntryOfBytes(m: Phys, f: Frame, m': Phys, f': Frame, i: nat)
    requires i < 1024 && forall b: nat | b < 0x1000 && b / 4 == i :: m'[InFrame(f', b)] == m[InFrame(f, b)]
    ensures Entry(m', f', i) == Entry(m, f, i)
  {
    assert m'[InFrame(f', 4 * i)] == m[InFrame(f, 4 * i)];
    assert m'[InFrame(f', 4 * i + 1)] == m[InFrame(f, 4 * i + 1)];
    assert m'[InFrame(f', 4 * i + 2)] == m[InFrame(f, 4 * i + 2)];
    assert m'[InFrame(f', 4 * i + 3)] == m[InFrame(f, 4 * i + 3)];
  }

  /** Entry by entry: kernel entries are the current ones, lower entries are
      untouched, the last is new, and no other frame changes. */
  lemma NewDirectoryEntries(m: Phys, root: Frame, f: Frame, k: nat, w: Addr, i: nat)
    requires k < RECURSIVE_PDE && i < 1024
    ensures Entry(NewDirectory(m, root, f, k, w), f, i) ==
            if i == RECURSIVE_PDE then w else if i >= k then Entry(m, root, i) else Entry(m, f, i)
    ensures forall g: Frame | g != f :: SameFrame(m, NewDirectory(m, root, f, k, w), g)
  {
    hide FlatStore, FlatLoad, InFrame, Entry;
    var m' := NewDirectory(m, root, f, k, w);
    if i == RECURSIVE_PDE {
      PutEntryAt(FlatStore(m, InFrame(f, 4 * k), FlatLoad(m, InFrame(root, 4 * k), 4 * (RECURSIVE_PDE - k))), f,
          RECURSIVE_PDE, w);
    } else {
      hide NewDirectory;
      forall b: nat | b < 0x1000 && b / 4 == i
        ensures m'[InFrame(f, b)] == m[InFrame(if i >= k then root else f, b)]
      {
        NewDirectoryBytes(m, root, f, k, w, f, b);
      }
      EntryOfBytes(m, if i >= k then root else f, m', f, i);
    }
    hide NewDirectory;
    forall g: Frame, o: nat | g != f && o < 0x1000
      ensures m'[InFrame(g, o)] == m[InFrame(g, o)]
    {
      NewDirectoryBytes(m, root, f, k, w, g, o);
    }
  }

  /** Every kernel address translates in the new address space as it does in
      the current one, provided the new directory is not itself one of the
      kernel's page tables; and the new directory maps itself. */
  lemma NewSpaceSharesKernel(m: Phys, root: Frame, f: Frame, k: nat, w: Addr, page: Frame)
    requires k < RECURSIVE_PDE && k <= PdeIndex(page) < RECURSIVE_PDE && TableOf(m, root, page) != Some(f)
    requires Present(w) && !Large(w) && Page(w) == f
    ensures Translate(NewDirectory(m, root, f, k, w), f, page) == Translate(m, root, page)
    ensures MapsItself(NewDirectory(m, root, f, k, w), f)
  {
    hide NewDirectory, Entry, SameFrame;
    var m' := NewDirectory(m, root, f, k, w);
    NewDirectoryEntries(m, root, f, k, w, PdeIndex(page));
    NewDirectoryEntries(m, root, f, k, w, RECURSIVE_PDE);
    if TableOf(m, root, page).Some? { EntrySame(m, m', TableOf(m, root, page).value, PteIndex(page)); }
  }

  /** Byte `o` of the directory in frame `root`, reached through its last entry. */
  lemma LocateInDirectory(m: Phys, root: Frame, o: nat)
    requires MapsItself(m, root) && o < 0x1000
    ensures Locate(m, root, InFrame(0xFFFFF, o), Mmu) == Some(InFrame(root, o))
  {
    hide Entry, InFrame, Present, Large;
    assert PdeIndex(0xFFFFF) == PteIndex(0xFFFFF) == RECURSIVE_PDE;
  }

  /** A store in front of the last entry leaves it alone. */
  lemma StillMapsItself(m: Phys, root: Frame, f: Frame, o: nat, b: Byte)
    requires MapsItself(m, root) && o < 4 * RECURSIVE_PDE
    ensures MapsItself(m[InFrame(f, o) := b], root)
  {
    var m1: Phys := m[InFrame(f, o) := b];
    forall j: nat | j < 0x1000 && j / 4 == RECURSIVE_PDE
      ensures m1[InFrame(root, j)] == m[InFrame(root, j)]
    {
      assert Offset(InFrame(root, j)) == j && Offset(InFrame(f, o)) == o;
    }
    EntryOfBytes(m, root, m1, root, RECURSIVE_PDE);
  }

  lemma LoadBehind(m: Phys, root: Frame, f: Frame, o: nat, n: nat, b: Byte)
    requires o + 1 < 0x1000 && o + 1 + n <= 0x1000
    ensures FlatLoad(m[InFrame(f, o) := b], InFrame(root, o + 1), n) == FlatLoad(m, InFrame(root, o + 1), n)
  {
    var m1: Phys := m[InFrame(f, o) := b];
    var d, d1 := FlatLoad(m, InFrame(root, o + 1), n), FlatLoad(m1, InFrame(root, o + 1), n);
    forall j | 0 <= j < n
      ensures d1[j] == d[j]
    {
      hide FlatLoad;
      FlatLoadInFrame(m, root, o + 1, n, j);
      FlatLoadInFrame(m1, root, o + 1, n, j);
      assert Offset(InFrame(root, o + 1 + j)) == o + 1 + j && Offset(InFrame(f, o)) == o;
    }
  }

  lemma LoadFirst(m: Phys, root: Frame, o: nat, n: nat)
    requires 0 < n && o + n < 0x1000
    ensures FlatLoad(m, InFrame(root, o), n) == [m[InFrame(root, o)]] + FlatLoad(m, InFrame(root, o + 1), n - 1)
  {
    hide InFrame;
    var d, d1 := FlatLoad(m, InFrame(root, o), n), FlatLoad(m, InFrame(root, o + 1), n - 1);
    forall j | 0 <= j < n
      ensures d[j] == ([m[InFrame(root, o)]] + d1)[j]
    {
      hide FlatLoad;
      FlatLoadInFrame(m, root, o, n, j);
      if j > 0 { FlatLoadInFrame(m, root, o + 1, n - 1, j - 1); }
    }
  }

  lemma MoveFirst(m: Phys, cur: Frame, here: Addr, q: Addr, n: nat, p: Addr)
    requires n > 0 && Locate(m, cur, here, Mmu) == Some(p)
    ensures MoveBytes(m, cur, here, q, n, true) ==
            MoveBytes(m[q := m[p]], cur, Plus(here, 1), Plus(q, 1), n - 1, true)
  {
    hide Locate, Plus;
  }

  lemma FlatStoreFirst(m: Phys, p: Addr, b: Byte, data: seq<Byte>)
    ensures FlatStore(m, p, [b] + data) == FlatStore(m[p := b], Plus(p, 1), data)
  {
    hide Plus;
    assert ([b] + data)[1..] == data;
  }

  lemma NothingMoved(m: Phys, cur: Frame, here: Addr, q: Addr, p: Addr)
    ensures MoveBytes(m, cur, here, q, 0, true) == (FlatStore(m, q, FlatLoad(m, p, 0)), Done)
  {
  }

  /** The entries of the current directory copied into frame `f` byte by byte,
      each through the directory's own last entry, also if `f` is the current
      directory. */
  lemma {:induction false} DirectoryCopied(m: Phys, root: Frame, f: Frame, o: nat, n: nat)
    requires MapsItself(m, root) && o + n <= 4 * RECURSIVE_PDE
    ensures MoveBytes(m, root, InFrame(0xFFFFF, o), InFrame(f, o), n, true) ==
            (FlatStore(m, InFrame(f, o), FlatLoad(m, InFrame(root, o), n)), Done)
    decreases n
  {
    hide MapsItself, Locate, InFrame, FlatLoad, FlatStore, MoveBytes, Plus;
    if n == 0 {
      NothingMoved(m, root, InFrame(0xFFFFF, o), InFrame(f, o), InFrame(root, o));
    } else {
      var b := m[InFrame(root, o)];
      LocateInDirectory(m, root, o);
      MoveFirst(m, root, InFrame(0xFFFFF, o), InFrame(f, o), n, InFrame(root, o));
      StillMapsItself(m, root, f, o, b);
      FrameRun(0xFFFFF, o, 1);
      FrameRun(f, o, 1);
      DirectoryCopied(m[InFrame(f, o) := b], root, f, o + 1, n - 1);
      LoadFirst(m, root, o, n);
      LoadBehind(m, root, f, o, n - 1, b);
      FlatStoreFirst(m, InFrame(f, o), b, FlatLoad(m, InFrame(root, o + 1), n - 1));
    }
  }

  function EntryBytes(w: Addr): seq<Byte> {
    [w % 0x100, w / 0x100 % 0x100, w / 0x1_0000 % 0x100, w / 0x100_0000]
  }

  lemma StoreEntryBytes(m: Phys, f: Frame, i: nat, w: Addr)
    requires i < 1024
    ensures FlatStore(m, InFrame(f, 4 * i), EntryBytes(w)) == PutEntry(m, f, i, w)
  {
    var p, d := InFrame(f, 4 * i), EntryBytes(w);
    FrameRun(f, 4 * i, 1);
    FrameRun(f, 4 * i + 1, 1);
    FrameRun(f, 4 * i + 2, 1);
    hide InFrame, Plus;
    assert d[1..][1..] == d[2..] && d[2..][1..] == d[3..] && d[3..][1..] == [];
    var m1: Phys := m[p := d[0]];
    var m2: Phys := m1[InFrame(f, 4 * i + 1) := d[1]];
    var m3: Phys := m2[InFrame(f, 4 * i + 2) := d[2]];
    assert FlatStore(m, p, d) == FlatStore(m1, InFrame(f, 4 * i + 1), d[1..]);
    assert FlatStore(m1, InFrame(f, 4 * i + 1), d[1..]) == FlatStore(m2, InFrame(f, 4 * i + 2), d[2..]);
    assert FlatStore(m2, InFrame(f, 4 * i + 2), d[2..]) == FlatStore(m3, InFrame(f, 4 * i + 3), d[3..]);
  }
}

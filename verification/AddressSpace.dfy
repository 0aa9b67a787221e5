/** Two-level x86 paging over flat physical memory, as pure functions.

    Words are natural numbers below 2^32, so the shifts and masks of
    include/kernel/paging.h become division and remainder.  `Translate` is what
    the processor does; `Walk` is what the kernel's own table walk does. */
module AddressSpace {
  import opened Basics

  const RECURSIVE_PDE := 1023

  type Phys = m: seq<Byte> | |m| == 0x1_0000_0000 witness seq(0x1_0000_0000, _ => 0)

  type Frame = f: int | 0 <= f < 0x10_0000

  /** Address arithmetic wraps at 32 bits. */
  function Plus(a: Addr, i: nat): Addr {
    if a + i < 0x1_0000_0000 then a + i else (a + i) % 0x1_0000_0000
  }

  /** Page number of an address: the frame number of a physical one. */
  function Page(a: Addr): Frame {
    a / 0x1000
  }

  function Offset(a: Addr): (o: nat)
    ensures o < 0x1000
  {
    a % 0x1000
  }

  /** The byte at offset `o` of frame `f`. */
  function InFrame(f: Frame, o: nat): (a: Addr)
    requires o < 0x1000
    ensures Page(a) == f && Offset(a) == o
  {
    f * 0x1000 + o
  }

  /** A little-endian 32-bit load. */
  function Word(m: Phys, p: nat): (w: Addr)
    requires p + 3 < 0x1_0000_0000
  {
    m[p] as int + 0x100 * (m[p + 1] as int) + 0x1_0000 * (m[p + 2] as int) + 0x100_0000 * (m[p + 3] as int)
  }

  /** Entry `i` of the page map held in frame `f`. */
  function Entry(m: Phys, f: Frame, i: nat): (w: Addr)
    requires i < 1024
  {
    Word(m, f * 0x1000 + 4 * i)
  }

  predicate Present(w: Addr) {
    w % 2 == 1
  }

  predicate Large(w: Addr) {
    w / 0x80 % 2 == 1
  }

  /** First 4 KiB frame of a 4 MiB page below 4 GiB: bits 22-31 of the entry. */
  function LargeFrame(w: Addr): (f: Frame)
    ensures f + 1023 < 0x10_0000
  {
    w / 0x40_0000 * 1024
  }

  /** Bits 32-39 of a 4 MiB page's address. */
  function LargeHigh(w: Addr): nat {
    w / 0x2000 % 0x100
  }

  /** Page directory and page table index of a virtual page. */
  function PdeIndex(page: Frame): (i: nat)
    ensures i < 1024
  {
    page / 1024
  }

  function PteIndex(page: Frame): (i: nat)
    ensures i < 1024
  {
    page % 1024
  }

  /** The frame the processor finds for a virtual page (section 4.3 of the
      Intel SDM, Vol. 3A).  A 4 MiB page above 4 GiB lies outside the modelled
      memory. */
  function Translate(m: Phys, dir: Frame, page: Frame): Option<Frame> {
    var pde := Entry(m, dir, PdeIndex(page));
    if !Present(pde) then None
    else if Large(pde) then
      if LargeHigh(pde) == 0 then Some(LargeFrame(pde) + PteIndex(page)) else None
    else
      var pte := Entry(m, Page(pde), PteIndex(page));
      if Present(pte) then Some(Page(pte)) else None
  }

  /** The frame the kernel's own walk finds: of a 4 MiB page always the first
      4 KiB, and address bits above 31 are lost. */
  function Walk(m: Phys, dir: Frame, page: Frame): Option<Frame> {
    var pde := Entry(m, dir, PdeIndex(page));
    if !Present(pde) then None
    else if Large(pde) then Some(LargeFrame(pde))
    else
      var pte := Entry(m, Page(pde), PteIndex(page));
      if Present(pte) then Some(Page(pte)) else None
  }

  /** The page is not covered by a 4 MiB page, or is the first 4 KiB of one
      that is below 4 GiB. */
  predicate SmallMapped(m: Phys, dir: Frame, page: Frame) {
    var pde := Entry(m, dir, PdeIndex(page));
    Present(pde) && Large(pde) ==> PteIndex(page) == 0 && LargeHigh(pde) == 0
  }

  /** The kernel's walk is the processor's translation exactly on such pages. */
  lemma WalkIsTranslateIff(m: Phys, dir: Frame, page: Frame)
    ensures Walk(m, dir, page) == Translate(m, dir, page) <==> SmallMapped(m, dir, page)
  {
  }

  /** How an address is resolved: by the processor, for the current address
      space, or by the kernel's walk, for any other. */
  datatype Via = Mmu | Tables

  function Resolve(m: Phys, dir: Frame, page: Frame, via: Via): Option<Frame> {
    if via.Mmu? then Translate(m, dir, page) else Walk(m, dir, page)
  }

  function Locate(m: Phys, dir: Frame, va: Addr, via: Via): Option<Addr> {
    match Resolve(m, dir, Page(va), via)
    case None => None
    case Some(f) => Some(InFrame(f, Offset(va)))
  }

  /** Number of leading bytes of the range that are mapped. */
  function Reach(m: Phys, dir: Frame, va: Addr, n: nat, via: Via): (k: nat)
    ensures k <= n
    ensures forall i | 0 <= i < k :: Locate(m, dir, Plus(va, i), via).Some?
    ensures k < n ==> Locate(m, dir, Plus(va, k), via).None?
  {
    if n == 0 then 0
    else if Locate(m, dir, Plus(va, n - 1), via).None? then Reach(m, dir, va, n - 1, via)
    else
      var k := Reach(m, dir, va, n - 1, via);
      if k == n - 1 then n else k
  }

  /** The leading mapped bytes of the range. */
  function Load(m: Phys, dir: Frame, va: Addr, n: nat, via: Via): (s: seq<Byte>)
    ensures |s| == Reach(m, dir, va, n, via)
  {
    seq(Reach(m, dir, va, n, via),
        i requires 0 <= i < Reach(m, dir, va, n, via) => m[Locate(m, dir, Plus(va, i), via).value])
  }

  /** Byte-by-byte store of `data`, with the tables as they are in `t`; it stops
      at the first unmapped byte. */
  function Store(t: Phys, m: Phys, dir: Frame, va: Addr, data: seq<Byte>, via: Via): Phys
    decreases |data|
  {
    if data == [] || Locate(t, dir, va, via).None? then m
    else Store(t, m[Locate(t, dir, va, via).value := data[0]], dir, Plus(va, 1), data[1..], via)
  }

  /** A range of one address space copied into a range of another: all of it
      read, then all of it written. */
  function Copy(m: Phys, from: Frame, src: Addr, srcVia: Via, to: Frame, dst: Addr, dstVia: Via,
                n: nat): (r: (Phys, bool))
  {
    (Store(m, m, to, dst, Load(m, from, src, n, srcVia), dstVia),
     Reach(m, from, src, n, srcVia) == n && Reach(m, to, dst, n, dstVia) == n)
  }

  // ---------- what the kernel's copy does, byte by byte ----------

  /** How a copy ends: with all bytes moved, at a page the kernel's walk does
      not find, or in a page fault on the current address space. */
  datatype End = Done | Unmapped | Faulted

  /** A buffer of another address space is reached through the kernel's walk. */
  function ViaFor(mine: Frame, other: Frame): Via {
    if mine == other then Mmu else Tables
  }

  /** `memcpy` between `n` bytes of the current address space `cur` and the
      physical bytes from `q` on: forward, each byte of the buffer translated
      when its turn comes.  `out` says that the buffer is the source. */
  function MoveBytes(m: Phys, cur: Frame, here: Addr, q: Addr, n: nat, out: bool): (Phys, End)
    decreases n
  {
    if n == 0 then (m, Done)
    else
      match Locate(m, cur, here, Mmu)
      case None => (m, Faulted)
      case Some(p) => MoveBytes(if out then m[q := m[p]] else m[p := m[q]], cur, Plus(here, 1), Plus(q, 1), n - 1, out)
  }

  /** Bytes of a range that lie in its first page. */
  function InFirstPage(va: Addr, n: nat): (k: nat)
    ensures k <= n && Offset(va) + k <= 0x1000 && (n > 0 ==> k > 0)
    ensures k == n || Offset(va) + k == 0x1000
  {
    if n > 0x1000 - Offset(va) then 0x1000 - Offset(va) else n
  }

  /** `access_mem`: page by page of the other address space, whose tables are
      read again for every page. */
  function Paged(m: Phys, cur: Frame, here: Addr, peer: Frame, there: Addr, n: nat, out: bool): (Phys, End)
    decreases n
  {
    if n == 0 then (m, Done)
    else
      match Locate(m, peer, there, Tables)
      case None => (m, Unmapped)
      case Some(q) =>
        var k := InFirstPage(there, n);
        var (m1, end) := MoveBytes(m, cur, here, q, k, out);
        if end.Done? then Paged(m1, cur, Plus(here, k), peer, Plus(there, k), n - k, out) else (m1, end)
  }

  /** `memcpy` within the current address space. */
  function Direct(m: Phys, cur: Frame, here: Addr, there: Addr, n: nat, out: bool): (Phys, End)
    decreases n
  {
    if n == 0 then (m, Done)
    else
      match (Locate(m, cur, here, Mmu), Locate(m, cur, there, Mmu))
      case (Some(p), Some(q)) =>
        Direct(if out then m[q := m[p]] else m[p := m[q]], cur, Plus(here, 1), Plus(there, 1), n - 1, out)
      case _ => (m, Faulted)
  }

  /** `poke_virt` (`out`) and `peek_virt`. */
  function Move(m: Phys, cur: Frame, here: Addr, peer: Frame, there: Addr, n: nat, out: bool): (Phys, End) {
    if cur == peer then Direct(m, cur, here, there, n, out) else Paged(m, cur, here, peer, there, n, out)
  }

  /** No byte of the range lies in the part of a 4 MiB page the kernel's walk gets wrong. */
  ghost predicate SmallRange(m: Phys, dir: Frame, va: Addr, n: nat) {
    forall i | 0 <= i < n :: SmallMapped(m, dir, Page(Plus(va, i)))
  }

  lemma ReachEitherWay(m: Phys, dir: Frame, va: Addr, n: nat)
    requires SmallRange(m, dir, va, n)
    ensures Reach(m, dir, va, n, Mmu) == Reach(m, dir, va, n, Tables)
    ensures forall i | 0 <= i < n :: Locate(m, dir, Plus(va, i), Mmu) == Locate(m, dir, Plus(va, i), Tables)
  {
    forall i | 0 <= i < n
      ensures Locate(m, dir, Plus(va, i), Mmu) == Locate(m, dir, Plus(va, i), Tables)
    {
      WalkIsTranslateIff(m, dir, Page(Plus(va, i)));
    }
  }

  lemma PlusPlus(a: Addr, i: nat, j: nat)
    ensures Plus(Plus(a, i), j) == Plus(a, i + j) && Plus(a, 0) == a
  {
  }

  lemma {:induction false} StoreEitherWay(t: Phys, m: Phys, dir: Frame, va: Addr, data: seq<Byte>)
    requires SmallRange(t, dir, va, |data|)
    ensures Store(t, m, dir, va, data, Mmu) == Store(t, m, dir, va, data, Tables)
    decreases |data|
  {
    if data != [] {
      assert Plus(va, 0) == va;
      WalkIsTranslateIff(t, dir, Page(va));
      if Locate(t, dir, va, Mmu).Some? {
        forall i | 0 <= i < |data| - 1
          ensures SmallMapped(t, dir, Page(Plus(Plus(va, 1), i)))
        {
          PlusPlus(va, 1, i);
          assert SmallMapped(t, dir, Page(Plus(va, i + 1)));
        }
        StoreEitherWay(t, m[Locate(t, dir, va, Mmu).value := data[0]], dir, Plus(va, 1), data[1..]);
      }
    }
  }

  /** Outside such pages it does not matter which side of the copy is reached
      through the processor and which through the tables. */
  lemma CopyEitherWay(m: Phys, from: Frame, src: Addr, to: Frame, dst: Addr, n: nat, v1: Via, w1: Via, v2: Via, w2: Via)
    requires SmallRange(m, from, src, n) && SmallRange(m, to, dst, n)
    ensures Copy(m, from, src, v1, to, dst, w1, n) == Copy(m, from, src, v2, to, dst, w2, n)
  {
    ReachEitherWay(m, from, src, n);
    ReachEitherWay(m, to, dst, n);
    assert Load(m, from, src, n, Mmu) == Load(m, from, src, n, Tables);
    StoreEitherWay(m, m, to, dst, Load(m, from, src, n, Mmu));
  }
}

/** The boot-time allocator of physical frames. */
module Frames {
  import opened Basics

  const EXTENDED_MEMORY := 0x10_0000
  const INVALID_PADDR: Addr := 0xFFFF_FFFF
  const AVAILABLE := 1

  const LAST_PAGE: Addr := 0xFFFF_F000

  /** A multiboot memory map entry, in 32-bit halves. */
  datatype Region = Region(baseLow: Addr, baseHigh: Addr, lengthLow: Addr, lengthHigh: Addr, kind: nat) {
    /** As the code computes it, the high half stands in for the low half too. */
    function Base(): nat { baseHigh * 0x1_0000_0000 + baseHigh }

    function TrueBase(): nat { baseHigh * 0x1_0000_0000 + baseLow }

    function Length(): nat { lengthHigh * 0x1_0000_0000 + lengthLow }

    /** The end, in 64-bit arithmetic. */
    function Limit(): nat { (Base() + Length()) % 0x1_0000_0000_0000_0000 }

    /** The whole page lies in the region, as the map has it. */
    predicate Holds(page: Addr) {
      var base := 0x1_0000_0000 * baseHigh + baseLow;
      base <= page && page + 0x1000 <= base + 0x1_0000_0000 * lengthHigh + lengthLow
    }
  }

  datatype Module = Module(start: Addr, end: Addr)

  datatype BootInfo = BootInfo(kernelStart: Addr, kernelLength: Addr, regions: seq<Region>, modules: seq<Module>) {
    function KernelEnd(): Addr { (kernelStart + kernelLength) % 0x1_0000_0000 }
  }

  predicate IsPage(f: int) {
    0 <= f && f % 0x1000 == 0
  }

  function PageEnd(addr: Addr): Addr {
    (addr + 0x1000) % 0x1_0000_0000
  }

  /** The `OVERLAPS` macro for a page: its first byte, or the first byte behind
      it, lies between `base` and `limit`. */
  predicate Overlaps(page: Addr, base: nat, limit: nat) {
    base <= page < limit || base <= PageEnd(page) < limit
  }

  predicate Between(a: nat, base: nat, limit: nat) {
    base <= a < limit
  }

  /** Some byte of the page lies between `base` and `limit`. */
  predicate Touches(page: Addr, base: nat, limit: nat) {
    exists a: nat | page <= a < page + 0x1000 :: Between(a, base, limit)
  }

  lemma TouchesIs(page: Addr, base: nat, limit: nat)
    ensures Touches(page, base, limit) <==> base < limit && base < page + 0x1000 && page < limit
  {
    if base < limit && base < page + 0x1000 && page < limit {
      assert Between(if base < page then page as int else base, base, limit);
    }
  }

  /** The macro misses a range exactly if the range begins behind the first
      byte of the page and ends with the page or before, or if it begins so in
      the last page, whose end wraps. */
  lemma OverlapsMissesIff(page: Addr, base: nat, limit: nat)
    requires IsPage(page)
    ensures Touches(page, base, limit) && !Overlaps(page, base, limit) <==>
            page < base < page + 0x1000 && base < limit && (limit <= page + 0x1000 || page == LAST_PAGE)
  {
    TouchesIs(page, base, limit);
  }

  /** It sees a range that is not there exactly if the range begins right
      behind the page; of the last page, if it begins at 0. */
  lemma OverlapsExceedsIff(page: Addr, base: nat, limit: nat)
    requires IsPage(page)
    ensures Overlaps(page, base, limit) && !Touches(page, base, limit) <==>
            base < limit && if page == LAST_PAGE then base == 0 && limit <= page else base == page + 0x1000
  {
    TouchesIs(page, base, limit);
  }

  /** The first region of the map that overlaps the page says whether it is available. */
  predicate Available(regions: seq<Region>, page: Addr) {
    if regions == [] then false
    else if Overlaps(page, regions[0].Base(), regions[0].Limit()) then regions[0].kind == AVAILABLE
    else Available(regions[1..], page)
  }

  /** Region `i` is the first that the page is found in. */
  predicate FirstFound(regions: seq<Region>, page: Addr, i: nat) {
    && i < |regions| && Overlaps(page, regions[i].Base(), regions[i].Limit())
    && forall j | 0 <= j < i :: !Overlaps(page, regions[j].Base(), regions[j].Limit())
  }

  /** Whatever later regions say. */
  lemma {:induction false} AvailableIff(regions: seq<Region>, page: Addr)
    ensures Available(regions, page) <==> exists i: nat :: FirstFound(regions, page, i) && regions[i].kind == AVAILABLE
  {
    hide Overlaps, Region.Base, Region.Limit;
    if regions != [] {
      var r := regions[0];
      if Overlaps(page, r.Base(), r.Limit()) {
        assert FirstFound(regions, page, 0);
        assert forall i: nat | FirstFound(regions, page, i) :: i == 0;
      } else {
        AvailableIff(regions[1..], page);
        forall i: nat
          ensures FirstFound(regions[1..], page, i) <==> FirstFound(regions, page, i + 1)
        {
          FirstFoundNext(regions, page, i);
        }
        if i: nat :| FirstFound(regions, page, i) && regions[i].kind == AVAILABLE {
          assert FirstFound(regions[1..], page, i - 1);
        }
        if i: nat :| FirstFound(regions[1..], page, i) && regions[1..][i].kind == AVAILABLE {
          assert FirstFound(regions, page, i + 1);
        }
      }
    }
  }

  lemma FirstFoundNext(regions: seq<Region>, page: Addr, i: nat)
    requires regions != [] && !Overlaps(page, regions[0].Base(), regions[0].Limit())
    ensures FirstFound(regions[1..], page, i) <==> FirstFound(regions, page, i + 1)
  {
    hide Overlaps, Region.Base, Region.Limit;
    if FirstFound(regions[1..], page, i) {
      forall j | 0 <= j < i + 1
        ensures !Overlaps(page, regions[j].Base(), regions[j].Limit())
      {
        if j > 0 { assert regions[1..][j - 1] == regions[j]; }
      }
    } else if FirstFound(regions, page, i + 1) {
      forall j | 0 <= j < i
        ensures !Overlaps(page, regions[1..][j].Base(), regions[1..][j].Limit())
      {
        assert regions[1..][j] == regions[j + 1];
      }
    }
  }

  predicate InModule(modules: seq<Module>, page: Addr) {
    exists i | 0 <= i < |modules| :: Overlaps(page, modules[i].start, modules[i].end)
  }

  predicate Reserved(info: BootInfo, page: Addr) {
    || page < EXTENDED_MEMORY
    || Overlaps(page, info.kernelStart, info.KernelEnd())
    || !Available(info.regions, page)
    || InModule(info.modules, page)
  }

  // ---------- what the test is worth ----------

  /** No page that is not reserved holds a byte of the kernel or of a module,
      except a page that holds one of them whole, behind its first byte, or
      the last page. */
  lemma UnreservedTouchesIff(info: BootInfo, page: Addr, base: Addr, limit: Addr)
    requires IsPage(page) && !Reserved(info, page)
    requires (base == info.kernelStart && limit == info.KernelEnd()) || Module(base, limit) in info.modules
    ensures Touches(page, base, limit) <==>
            page < base < page + 0x1000 && base < limit && (limit <= page + 0x1000 || page == LAST_PAGE)
  {
    OverlapsMissesIff(page, base, limit);
  }

  /** The range is not held whole by a page behind the page's first byte. */
  predicate Plain(base: nat, limit: nat) {
    base < limit && base % 0x1000 != 0 ==> limit > base - base % 0x1000 + 0x1000
  }

  /** The misread base of the region does no harm to pages from 1 MiB up: the
      region lies above 4 GiB, or does not reach behind 1 MiB, or begins at
      1 MiB or below and its last page, as it is misread, lies in it. */
  predicate ReadRight(r: Region) {
    r.baseHigh == 0 && r.Length() > EXTENDED_MEMORY ==>
      && r.baseLow <= EXTENDED_MEMORY
      && (r.Length() > LAST_PAGE || r.Length() % 0x1000 == 0 || r.baseLow + r.Length() % 0x1000 >= 0x1000)
  }

  /** Boot information on which the test does what it is for: no range hides
      inside a page, and the misread bases of available regions do no harm. */
  predicate Tidy(info: BootInfo) {
    && Plain(info.kernelStart, info.KernelEnd())
    && (forall i | 0 <= i < |info.modules| :: Plain(info.modules[i].start, info.modules[i].end))
    && (forall i | 0 <= i < |info.regions| && info.regions[i].kind == AVAILABLE :: ReadRight(info.regions[i]))
  }

  /** The page lies in an available region, as the map has it. */
  predicate InAvailable(regions: seq<Region>, page: Addr) {
    exists i | 0 <= i < |regions| :: regions[i].kind == AVAILABLE && regions[i].Holds(page)
  }

  /** A page that can be given out: it holds nothing of the kernel or of a
      module, and is memory that exists and is available. */
  predicate Safe(info: BootInfo, page: Addr) {
    && page >= EXTENDED_MEMORY
    && !Touches(page, info.kernelStart, info.KernelEnd())
    && (forall i | 0 <= i < |info.modules| :: !Touches(page, info.modules[i].start, info.modules[i].end))
    && InAvailable(info.regions, page)
  }

  lemma PlainNotMissed(page: Addr, base: Addr, limit: Addr)
    requires IsPage(page) && Plain(base, limit) && !Overlaps(page, base, limit)
    ensures !Touches(page, base, limit)
  {
    OverlapsMissesIff(page, base, limit);
    if page < base < page + 0x1000 { assert base - base % 0x1000 == page; }
  }

  /** What the test finds in a region: whatever its base, the pages up to its
      length, and none at all of a region above 4 GiB. */
  lemma FoundIff(r: Region, page: Addr)
    requires IsPage(page)
    ensures Overlaps(page, r.Base(), r.Limit()) <==>
            r.baseHigh == 0 && (page < r.Length() || (page == LAST_PAGE && r.Length() > 0))
  {
    assert r.baseHigh == 0 ==> r.Base() == 0 && r.Limit() == r.Length();
  }

  /** Every page from 1 MiB up, but the last, that the test finds in the region
      lies in it exactly if its base was read right enough. */
  lemma ReadRightIff(r: Region)
    ensures (forall page: Addr | IsPage(page) && EXTENDED_MEMORY <= page < LAST_PAGE
                && Overlaps(page, r.Base(), r.Limit()) :: r.Holds(page)) <==> ReadRight(r)
  {
    hide Overlaps, Region.Base, Region.Limit;
    if ReadRight(r) {
      forall page: Addr | IsPage(page) && EXTENDED_MEMORY <= page < LAST_PAGE && Overlaps(page, r.Base(), r.Limit())
        ensures r.Holds(page)
      {
        FoundIff(r, page);
        PageHeld(r.baseLow, r.Length(), page);
      }
    } else {
      var page := WrongPage(r.baseLow, r.Length());
      FoundIff(r, page);
      assert Overlaps(page, r.Base(), r.Limit()) && !r.Holds(page);
    }
  }

  /** The last page, whose end wraps to 0, is found in every region below
      4 GiB, and lies in it exactly if the region reaches the end of memory. */
  lemma LastPageRightIff(r: Region)
    ensures (Overlaps(LAST_PAGE, r.Base(), r.Limit()) ==> r.Holds(LAST_PAGE)) <==>
            (r.baseHigh == 0 && r.Length() > 0 ==> r.baseLow <= LAST_PAGE && r.baseLow + r.Length() >= 0x1_0000_0000)
  {
    FoundIff(r, LAST_PAGE);
    hide Overlaps, Region.Base, Region.Limit;
  }

  lemma PageHeld(base: Addr, length: nat, page: Addr)
    requires IsPage(page) && EXTENDED_MEMORY <= page < LAST_PAGE && page < length && base <= EXTENDED_MEMORY
    requires length > LAST_PAGE || length % 0x1000 == 0 || base + length % 0x1000 >= 0x1000
    ensures page + 0x1000 <= base + length
  {
    assert page <= length - length % 0x1000;
  }

  /** A page found in a region that does not hold it. */
  function WrongPage(base: Addr, length: nat): (page: Addr)
    requires length > EXTENDED_MEMORY
    requires base > EXTENDED_MEMORY || (length <= LAST_PAGE && 0 < length % 0x1000 < 0x1000 - base)
    ensures IsPage(page) && EXTENDED_MEMORY <= page < LAST_PAGE && page < length
            && (page < base || page + 0x1000 > base + length)
  {
    if base > EXTENDED_MEMORY then EXTENDED_MEMORY else length - length % 0x1000
  }

  lemma {:induction false} AvailableHolds(regions: seq<Region>, page: Addr)
    requires forall i | 0 <= i < |regions| && regions[i].kind == AVAILABLE :: ReadRight(regions[i])
    requires IsPage(page) && EXTENDED_MEMORY <= page < LAST_PAGE && Available(regions, page)
    ensures InAvailable(regions, page)
  {
    hide Overlaps, ReadRight, Region.Holds;
    if Overlaps(page, regions[0].Base(), regions[0].Limit()) {
      ReadRightIff(regions[0]);
    } else {
      AvailableHolds(regions[1..], page);
      var i :| 0 <= i < |regions| - 1 && regions[1..][i].kind == AVAILABLE && regions[1..][i].Holds(page);
      assert regions[i + 1] == regions[1..][i];
    }
  }

  /** On tidy boot information every unreserved page but the last is safe. */
  lemma UnreservedIsSafe(info: BootInfo, page: Addr)
    requires Tidy(info) && IsPage(page) && page != LAST_PAGE && !Reserved(info, page)
    ensures Safe(info, page)
  {
    hide Touches, Overlaps, InAvailable;
    PlainNotMissed(page, info.kernelStart, info.KernelEnd());
    forall i | 0 <= i < |info.modules|
      ensures !Touches(page, info.modules[i].start, info.modules[i].end)
    {
      PlainNotMissed(page, info.modules[i].start, info.modules[i].end);
    }
    AvailableHolds(info.regions, page);
  }

  lemma AvailableNext(r: Region, rest: seq<Region>, page: Addr)
    ensures Available([r] + rest, page) ==
            if Overlaps(page, r.Base(), r.Limit()) then r.kind == AVAILABLE else Available(rest, page)
  {
    hide Overlaps, Region.Base, Region.Limit;
    assert ([r] + rest)[1..] == rest;
  }

  /** An ordinary map: low memory, a hole behind it, extended memory of any
      length from 1 MiB up, and memory above 4 GiB. */
  function OrdinaryMap(low: Addr, extended: Addr, above: Addr): seq<Region>
    requires low <= EXTENDED_MEMORY
  {
    [Region(0, 0, low, 0, AVAILABLE)] + ([Region(low, 0, EXTENDED_MEMORY - low, 0, 2)]
     + ([Region(EXTENDED_MEMORY, 0, extended, 0, AVAILABLE)] + [Region(0, 1, above, 0, AVAILABLE)]))
  }

  /** It is tidy. */
  lemma OrdinaryMapIsTidy(info: BootInfo, low: Addr, extended: Addr, above: Addr)
    requires low <= EXTENDED_MEMORY && info.regions == OrdinaryMap(low, extended, above)
    requires Plain(info.kernelStart, info.KernelEnd())
    requires forall i | 0 <= i < |info.modules| :: Plain(info.modules[i].start, info.modules[i].end)
    ensures Tidy(info)
  {
    hide Plain, BootInfo.KernelEnd;
    assert ReadRight(Region(0, 0, low, 0, AVAILABLE));
    assert ReadRight(Region(EXTENDED_MEMORY, 0, extended, 0, AVAILABLE));
    assert ReadRight(Region(0, 1, above, 0, AVAILABLE));
    hide ReadRight;
  }

  /** A page of it is found only up to the length of extended memory, 1 MiB
      short of its end. */
  lemma OrdinaryMapAvailable(low: Addr, extended: Addr, above: Addr, page: Addr)
    requires low <= EXTENDED_MEMORY && IsPage(page) && EXTENDED_MEMORY <= page < LAST_PAGE
    ensures Available(OrdinaryMap(low, extended, above), page) <==> page < extended
  {
    assert !Available([], page);
    hide Available, Overlaps, Region.Base, Region.Limit;
    var a, b := Region(0, 0, low, 0, AVAILABLE), Region(low, 0, EXTENDED_MEMORY - low, 0, 2);
    var c, d := Region(EXTENDED_MEMORY, 0, extended, 0, AVAILABLE), Region(0, 1, above, 0, AVAILABLE);
    AvailableNext(a, [b] + ([c] + [d]), page);
    AvailableNext(b, [c] + [d], page);
    AvailableNext(c, [d], page);
    AvailableNext(d, [], page);
    FoundIff(a, page);
    FoundIff(b, page);
    FoundIff(c, page);
    FoundIff(d, page);
    assert [d] + [] == [d];
  }

  /** A kernel that ends below 4 GiB is kept out of every safe page, byte by byte. */
  lemma SafeFromKernel(info: BootInfo, page: Addr, a: nat)
    requires Safe(info, page) && page <= a < page + 0x1000 && info.kernelStart + info.kernelLength < 0x1_0000_0000
    ensures a < info.kernelStart || a >= info.kernelStart + info.kernelLength
  {
    assert !Between(a, info.kernelStart, info.KernelEnd());
  }

  // ---------- where it goes wrong ----------

  lemma OnlyRegion(r: Region, page: Addr)
    requires Overlaps(page, r.Base(), r.Limit()) && r.kind == AVAILABLE
    ensures Available([r], page)
  {
  }

  lemma SmallKernel(regions: seq<Region>, modules: seq<Module>)
    ensures BootInfo(0x10_0000, 0x1000, regions, modules).KernelEnd() == 0x10_1000
  {
  }

  lemma OnlyModule(m: Module, page: Addr)
    requires !Overlaps(page, m.start, m.end)
    ensures !InModule([m], page)
  {
  }

  lemma RegionFromZero(low: Addr, length: Addr)
    ensures var r := Region(low, 0, length, 0, AVAILABLE);
            r.Base() == 0 && r.TrueBase() == low && r.Limit() == r.Length() == length
  {
  }

  /** A module inside a page: the page is given out over it. */
  lemma ModuleInsidePage()
    ensures var info := BootInfo(0x10_0000, 0x1000, [Region(0, 0, 0x8000_0000, 0, AVAILABLE)],
            [Module(0x30_0010, 0x30_0100)]);
            !Reserved(info, 0x30_0000) && Touches(0x30_0000, 0x30_0010, 0x30_0100)
  {
    hide Available, InModule, Touches, Region.Base, Region.Limit, BootInfo.KernelEnd;
    SmallKernel([Region(0, 0, 0x8000_0000, 0, AVAILABLE)], [Module(0x30_0010, 0x30_0100)]);
    OnlyModule(Module(0x30_0010, 0x30_0100), 0x30_0000);
    RegionFromZero(0, 0x8000_0000);
    OnlyRegion(Region(0, 0, 0x8000_0000, 0, AVAILABLE), 0x30_0000);
    TouchesIs(0x30_0000, 0x30_0010, 0x30_0100);
  }

  /** Memory only from 2 GiB up: a page far below it is given out. */
  lemma RegionMisread()
    ensures var info := BootInfo(0x10_0000, 0x1000, [Region(0x8000_0000, 0, 0x4000_0000, 0, AVAILABLE)], []);
            !Reserved(info, 0x30_0000) && !InAvailable(info.regions, 0x30_0000)
  {
    hide Available, Region.Base, Region.Limit, Region.TrueBase;
    RegionFromZero(0x8000_0000, 0x4000_0000);
    OnlyRegion(Region(0x8000_0000, 0, 0x4000_0000, 0, AVAILABLE), 0x30_0000);
  }

  /** The last page, whose end wraps to 0, is given out on tidy information
      that has no such memory. */
  lemma LastPageMisread()
    ensures var info := BootInfo(0x10_0000, 0x1000, [Region(0, 0, 0x8000_0000, 0, AVAILABLE)], []);
            Tidy(info) && !Reserved(info, LAST_PAGE) && !InAvailable(info.regions, LAST_PAGE)
  {
    hide Available, Region.Base, Region.Limit, Region.TrueBase, Region.Length;
    RegionFromZero(0, 0x8000_0000);
    OnlyRegion(Region(0, 0, 0x8000_0000, 0, AVAILABLE), LAST_PAGE);
  }

  /** `is_reserved_page` for a small page: where boot information is tidy, a
      page it lets pass is safe. */
  method IsReservedPage(info: BootInfo, address: Addr) returns (r: bool)
    ensures r == Reserved(info, address - address % 0x1000)
    ensures var page := address - address % 0x1000; !r && Tidy(info) && page != LAST_PAGE ==> Safe(info, page)
  {
    hide Safe, Tidy, Overlaps;
    var page: Addr := address - address % 0x1000;
    if !Reserved(info, page) && Tidy(info) && page != LAST_PAGE { UnreservedIsSafe(info, page); }
    if page < EXTENDED_MEMORY || Overlaps(page, info.kernelStart, info.KernelEnd()) { return true; }
    var i := 0;
    while i < |info.regions| && !Overlaps(page, info.regions[i].Base(), info.regions[i].Limit())
      invariant i <= |info.regions| && Available(info.regions, page) == Available(info.regions[i..], page)
    {
      i := i + 1;
    }
    if i == |info.regions| || info.regions[i].kind != AVAILABLE { return true; }
    for j := 0 to |info.modules|
      invariant forall l | 0 <= l < j :: !Overlaps(page, info.modules[l].start, info.modules[l].end)
    {
      if Overlaps(page, info.modules[j].start, info.modules[j].end) { return true; }
    }
    return false;
  }

  /** All pages from `lo` up to `hi` are reserved. */
  ghost predicate AllReserved(info: BootInfo, lo: nat, hi: nat) {
    forall f: Addr | IsPage(f) && lo <= f < hi :: Reserved(info, f)
  }

  /** The search of `alloc_phys_frame`, which stops when the address wraps. */
  method NextFree(info: BootInfo, from: Addr) returns (frame: Addr)
    requires IsPage(from)
    ensures from < EXTENDED_MEMORY ==> frame == from
    ensures from >= EXTENDED_MEMORY && frame >= EXTENDED_MEMORY ==>
            IsPage(frame) && frame >= from && !Reserved(info, frame) && AllReserved(info, from, frame)
    ensures from >= EXTENDED_MEMORY && frame < EXTENDED_MEMORY ==> AllReserved(info, from, 0x1_0000_0000)
  {
    hide Reserved;
    frame := from;
    ghost var passed := from as int;
    while frame >= EXTENDED_MEMORY
      invariant from <= passed <= 0x1_0000_0000 && IsPage(passed) && AllReserved(info, from, passed)
      invariant frame == if passed == 0x1_0000_0000 then 0 else passed
      invariant from < EXTENDED_MEMORY ==> passed == from
      decreases 0x1_0000_0000 - passed
    {
      var r := IsReservedPage(info, frame);
      if !r { return; }
      assert forall f: Addr | IsPage(f) && passed <= f < passed + 0x1000 :: f == frame;
      frame := (frame + 0x1000) % 0x1_0000_0000;
      passed := passed + 0x1000;
    }
  }

  /** The frames given out are exactly the unreserved pages from `start` up to
      `limit`, in increasing order. */
  ghost predicate GaveOut(info: BootInfo, start: Addr, limit: nat, given: seq<Addr>) {
    && IsPage(start) && IsPage(limit) && EXTENDED_MEMORY <= start <= limit <= 0x1_0000_0000
    && (forall i, j | 0 <= i < j < |given| :: given[i] < given[j])
    && (forall i | 0 <= i < |given| :: IsPage(given[i]) && start <= given[i] < limit)
    && (forall f: Addr | IsPage(f) && start <= f < limit :: f in given <==> !Reserved(info, f))
  }

  lemma GivesNext(info: BootInfo, start: Addr, limit: nat, given: seq<Addr>, f: Addr)
    requires GaveOut(info, start, limit, given)
    requires IsPage(f) && f >= limit && !Reserved(info, f) && AllReserved(info, limit, f)
    ensures GaveOut(info, start, f + 0x1000, given + [f])
  {
    hide Reserved;
    assert forall g: Addr | IsPage(g) && f <= g < f + 0x1000 :: g == f;
  }

  /** On tidy boot information, everything ever given out is safe, but the last page. */
  lemma GivenAreSafe(info: BootInfo, start: Addr, limit: nat, given: seq<Addr>)
    requires GaveOut(info, start, limit, given) && Tidy(info)
    ensures forall f | f in given && f != LAST_PAGE :: Safe(info, f)
  {
    forall f | f in given && f != LAST_PAGE
      ensures Safe(info, f)
    {
      UnreservedIsSafe(info, f);
    }
  }

  lemma NextPage(page: Addr)
    requires IsPage(page)
    ensures PageEnd(page) == (if page == LAST_PAGE then 0 else page + 0x1000) && page <= LAST_PAGE
            && page != INVALID_PADDR
  {
  }

  lemma PassedPages(info: BootInfo, start: Addr, limit: nat, given: seq<Addr>)
    requires GaveOut(info, start, limit, given)
    ensures IsPage(limit) && EXTENDED_MEMORY <= limit <= 0x1_0000_0000
  {
  }

  class Allocator {
    const info: BootInfo
    var firstFreePage: Addr

    /** Where allocation started, and every frame given out since. */
    ghost const start: Addr
    ghost var given: seq<Addr>

    /** First address not yet passed; behind the last frame the counter wraps to 0. */
    ghost function Limit(): nat
      reads this
    {
      if firstFreePage == 0 then 0x1_0000_0000 else firstFreePage
    }

    ghost predicate Valid()
      reads this
    {
      GaveOut(info, start, Limit(), given)
    }

    constructor (bootInfo: BootInfo, first: Addr)
      requires IsPage(first) && first >= EXTENDED_MEMORY
      ensures Valid() && given == [] && start == first && info == bootInfo
    {
      info, firstFreePage, start, given := bootInfo, first, first, [];
    }

    /** `alloc_phys_frame`: the next unreserved page, or INVALID_PADDR exactly
        if there is none left, now and ever after. */
    method AllocPhysFrame() returns (frame: Addr)
      requires Valid()
      modifies this
      ensures Valid()
      ensures frame == INVALID_PADDR <==> AllReserved(info, old(Limit()), 0x1_0000_0000)
      ensures frame == INVALID_PADDR ==> given == old(given) && firstFreePage == old(firstFreePage)
      ensures frame != INVALID_PADDR ==> given == old(given) + [frame] && IsPage(frame) && !Reserved(info, frame)
      ensures frame != INVALID_PADDR && frame != LAST_PAGE && Tidy(info) ==> Safe(info, frame)
    {
      PassedPages(info, start, Limit(), given);
      hide Reserved, Tidy, Safe, GaveOut, PageEnd, IsPage;
      frame := NextFree(info, firstFreePage);
      if frame < EXTENDED_MEMORY { return INVALID_PADDR; }
      NextPage(frame);
      GivesNext(info, start, Limit(), given, frame);
      if Tidy(info) && frame != LAST_PAGE { UnreservedIsSafe(info, frame); }
      firstFreePage := PageEnd(frame);
      given := given + [frame];
    }
  }
}

/** The kernel's temporary mapping window and the memory accesses made through
    it, on a processor whose TLB may keep translations the tables no longer
    hold (section 4.10.4 of the Intel SDM, Vol. 3A). */
module Paging {
  import opened Basics
  import opened AddressSpace
  import opened FlatMemory

  const TEMP_START: Frame := 0xFF991  // page of KERNEL_TEMP_START
  const TABLE_START: Frame := 0xFF800 // first page of the same page table
  const TEMP_END: Frame := 0xFFC00    // page of KERNEL_TEMP_END
  const CURRENT_ROOT_PMAP: Addr := 0xFFFF_FFFF

  type Tlb = map<Frame, Frame>

  /** The entries of the window's page table. */
  type Window = w: seq<Addr> | |w| == 1024 witness seq(1024, _ => 0)

  predicate InWindow(page: int) {
    TEMP_START <= page < TEMP_END
  }

  /** The window's page table maps the page to the frame. */
  predicate Maps(pt: seq<Addr>, page: Frame, f: Frame) {
    |pt| == 1024 && Present(pt[PteIndex(page)]) && Page(pt[PteIndex(page)]) == f
  }

  /** What the processor may do to its TLB on its own: drop translations, and
      take up ones the page table holds. */
  ghost predicate Evolves(pt: seq<Addr>, t: Tlb, t': Tlb) {
    forall v | v in t' :: (v in t && t[v] == t'[v]) || Maps(pt, v, t'[v])
  }

  /** Mapped, and not cached as anything else. */
  ghost predicate Settled(pt: seq<Addr>, t: Tlb, page: Frame, f: Frame) {
    Maps(pt, page, f) && (page in t ==> t[page] == f)
  }

  /** Whatever the TLB does, a page resolves to the frame it is mapped to
      exactly if it was not cached as another when the entry was written.
      So `map_temp` must invalidate, and `unmap_temp` need not. */
  lemma SettledIff(pt: seq<Addr>, t: Tlb, page: Frame, f: Frame)
    requires Maps(pt, page, f)
    ensures Settled(pt, t, page, f) <==> forall t': Tlb | Evolves(pt, t, t') && page in t' :: t'[page] == f
  {
    assert Evolves(pt, t, t);
  }

  lemma StaysSettled(pt: seq<Addr>, t: Tlb, t': Tlb, page: Frame, f: Frame)
    requires Settled(pt, t, page, f) && Evolves(pt, t, t')
    ensures Settled(pt, t', page, f)
  {
  }

  class Machine {
    var phys: Phys
    const ptab: array<Addr>   // kmap_area_ptab, the page table of the window
    var tlb: Tlb
    const root: Frame         // page directory in CR3

    ghost predicate Valid()
      reads this, ptab
    {
      ptab.Length == 1024
    }

    /** A processor in address space `dir`, whatever its TLB and the window hold. */
    constructor (memory: Phys, dir: Frame, window: Window, cached: Tlb)
      ensures Valid() && phys == memory && root == dir && fresh(ptab) && ptab[..] == window && tlb == cached
    {
      phys, root, tlb := memory, dir, cached;
      ptab := new Addr[1024](i requires 0 <= i < 1024 => window[i]);
    }

    // ---------- processor ----------

    /** Any caching and forgetting between two instructions. */
    method TlbActivity()
      requires Valid()
      modifies this`tlb
      ensures Evolves(ptab[..], old(tlb), tlb)
    {
      var n: nat :| 0 <= n;
      for i := 0 to n
        invariant Evolves(ptab[..], old(tlb), tlb)
      {
        var page: Frame :| 0 <= page < 0x10_0000;
        var pte := ptab[PteIndex(page)];
        if * {
          tlb := tlb - {page};
        } else if Present(pte) {
          tlb := tlb[page := Page(pte)];
        }
      }
    }

    /** `invlpg`. */
    method InvalidatePage(page: Frame)
      modifies this`tlb
      ensures tlb == old(tlb) - {page}
    {
      tlb := tlb - {page};
    }

    /** Address translation: from the TLB if the page is cached, else by a walk. */
    method Lookup(page: Frame, ghost f: Frame) returns (r: Frame)
      requires Valid() && Settled(ptab[..], tlb, page, f)
      modifies this`tlb
      ensures r == f && Evolves(ptab[..], old(tlb), tlb)
    {
      TlbActivity();
      StaysSettled(ptab[..], old(tlb), tlb, page, f);
      r := if page in tlb then tlb[page] else Page(ptab[PteIndex(page)]);
    }

    method LoadByte(page: Frame, offset: nat, ghost f: Frame) returns (b: Byte)
      requires Valid() && Settled(ptab[..], tlb, page, f) && offset < 0x1000
      modifies this`tlb
      ensures b == phys[InFrame(f, offset)] && Evolves(ptab[..], old(tlb), tlb)
    {
      var r := Lookup(page, f);
      b := phys[InFrame(r, offset)];
    }

    method StoreByte(page: Frame, offset: nat, b: Byte, ghost f: Frame)
      requires Valid() && Settled(ptab[..], tlb, page, f) && offset < 0x1000
      modifies this`tlb, this`phys
      ensures phys == old(phys)[InFrame(f, offset) := b] && Evolves(ptab[..], old(tlb), tlb)
    {
      var r := Lookup(page, f);
      phys := phys[InFrame(r, offset) := b];
    }

    // ---------- the window (kernel/paging.c) ----------

    /** One turn of the loop of `map_temp`: the entry is built field by field,
        then the page is invalidated. */
    method MapPage(page: Frame, f: Frame)
      requires Valid()
      modifies this`tlb, ptab
      ensures Settled(ptab[..], tlb, page, f)
      ensures EqualBut(old(ptab[..]), ptab[..], PteIndex(page))
      ensures EvolvesBut(old(ptab[..]), old(tlb), tlb, PteIndex(page))
    {
      hide EvolvesBut, EqualBut, PteIndex;
      var i := PteIndex(page);
      ghost var pt := ptab[..];
      WriteEntry(i, 0);
      EqualButAt(pt, i, 0);
      WriteEntryAgain(i, f * 0x1000, pt, old(tlb));
      WriteEntryAgain(i, f * 0x1000 + 2, pt, old(tlb));
      WriteEntryAgain(i, f * 0x1000 + 3, pt, old(tlb));
      Invalidated(pt, old(tlb), tlb, page, i);
      MapsNow(ptab[..], page, f);
      InvalidatePage(page);
    }

    /** One more store to an entry that differs from `pt` already. */
    method WriteEntryAgain(i: nat, w: Addr, ghost pt: seq<Addr>, ghost t: Tlb)
      requires Valid() && i < 1024 && EqualBut(pt, ptab[..], i) && EvolvesBut(pt, t, tlb, i)
      modifies this`tlb, ptab
      ensures EqualBut(pt, ptab[..], i) && ptab[i] == w && EvolvesBut(pt, t, tlb, i)
    {
      ghost var pt1, t1 := ptab[..], tlb;
      WriteEntry(i, w);
      EvolvesChain(pt, pt1, t, t1, tlb, i);
      EqualButThen(pt, pt1, i, w);
    }

    method WriteEntry(i: nat, w: Addr)
      requires Valid() && i < 1024
      modifies this`tlb, ptab
      ensures ptab[..] == old(ptab[..])[i := w]
      ensures EvolvesBut(old(ptab[..]), old(tlb), tlb, i)
    {
      ptab[i] := w;
      TlbActivity();
    }

    /** `map_temp`: as many pages as fit between the start and the end of the
        window are mapped to consecutive frames, and settled, whatever the TLB
        held before. */
    method MapTemp(virt: Addr, base: Addr, count: nat) returns (n: nat)
      requires Valid()
      modifies this`tlb, ptab
      ensures n == WindowPages(virt, count)
      ensures forall v: Frame | Page(virt) <= v < Page(virt) + n :: MappedFrom(ptab[..], tlb, virt, base, v)
      ensures KeepsOthers(old(ptab[..]), ptab[..], Page(virt), n)
    {
      var page := Page(virt);
      n := 0;
      if page < TEMP_START { return; }
      while n < count && page + n < TEMP_END
        invariant n <= WindowPages(virt, count)
        invariant forall v: Frame | page <= v < page + n :: MappedFrom(ptab[..], tlb, virt, base, v)
        invariant KeepsOthers(old(ptab[..]), ptab[..], page, n)
      {
        ghost var pt, t := ptab[..], tlb;
        MapPage(page + n, NthFrame(base, n));
        forall v: Frame | page <= v < page + n
          ensures MappedFrom(ptab[..], tlb, virt, base, v)
        {
          WindowEntriesDiffer(v, page + n);
          assert MappedFrom(pt, t, virt, base, v);
        }
        KeepsOneMore(old(ptab[..]), pt, ptab[..], page, n);
        n := n + 1;
      }
    }

    /** `unmap_temp`: the entries are cleared; the TLB may keep the pages. */
    method UnmapTemp(virt: Addr, count: nat) returns (n: nat)
      requires Valid()
      modifies this`tlb, ptab
      ensures n == WindowPages(virt, count)
      ensures forall v: Frame | Page(virt) <= v < Page(virt) + n :: !Present(ptab[PteIndex(v)])
      ensures KeepsOthers(old(ptab[..]), ptab[..], Page(virt), n)
    {
      var page := Page(virt);
      n := 0;
      if page < TEMP_START { return; }
      while n < count && page + n < TEMP_END
        invariant n <= WindowPages(virt, count)
        invariant forall v: Frame | page <= v < page + n :: !Present(ptab[PteIndex(v)])
        invariant KeepsOthers(old(ptab[..]), ptab[..], page, n)
      {
        ghost var pt := ptab[..];
        WriteEntry(PteIndex(page + n), 0);
        KeepsOneMore(old(ptab[..]), pt, ptab[..], page, n);
        n := n + 1;
      }
    }

    /** `memcpy` from the first window page into part of a buffer. */
    method CopyFromWindow(offset: nat, buffer: array<Byte>, at: nat, n: nat, ghost f: Frame)
      requires Valid() && Settled(ptab[..], tlb, TEMP_START, f) && offset < 0x1000 && offset + n <= 0x1000
               && at + n <= buffer.Length
      requires buffer as object != ptab
      modifies this`tlb, buffer
      ensures buffer[..] == Splice(old(buffer[..]), at, FlatLoad(phys, InFrame(f, offset), n))
    {
      hide Splice, FlatLoad, Plus, InFrame;
      var i := 0;
      ghost var p, was := InFrame(f, offset), buffer[..];
      EmptyRanges(phys, p, was, at);
      while i < n
        invariant i <= n && Settled(ptab[..], tlb, TEMP_START, f)
        invariant buffer[..] == Splice(was, at, FlatLoad(phys, p, i))
      {
        PageRun(p, i);
        FrameRun(f, offset, i);
        LoadOneMore(phys, p, i, was, at);
        var b := LoadByte(TEMP_START, offset + i, f);
        buffer[at + i] := b;
        i := i + 1;
      }
    }

    /** `memcpy` from part of a buffer into the first window page. */
    method CopyToWindow(offset: nat, data: seq<Byte>, ghost f: Frame)
      requires Valid() && Settled(ptab[..], tlb, TEMP_START, f) && offset < 0x1000 && offset + |data| <= 0x1000
      modifies this`tlb, this`phys
      ensures phys == FlatStore(old(phys), InFrame(f, offset), data)
    {
      var i := 0;
      while i < |data|
        invariant i <= |data| && Settled(ptab[..], tlb, TEMP_START, f)
        invariant phys == FlatStore(old(phys), InFrame(f, offset), data[..i])
      {
        AppendToFrame(old(phys), f, offset, data[..i], data[i]);
        StoreByte(TEMP_START, offset + i, data[i], f);
        assert data[..i] + [data[i]] == data[..i + 1];
        i := i + 1;
      }
      assert data[..|data|] == data;
    }

    /** The first window page mapped to the frame of `base`. */
    method MapOne(base: Addr)
      requires Valid()
      modifies this`tlb, ptab
      ensures Settled(ptab[..], tlb, TEMP_START, Page(base))
    {
      var virt := InFrame(TEMP_START, 0);
      var n := MapTemp(virt, base, 1);
      assert MappedFrom(ptab[..], tlb, virt, base, TEMP_START);
    }

    method UnmapOne()
      requires Valid()
      modifies this`tlb, ptab
    {
      var n := UnmapTemp(InFrame(TEMP_START, 0), 1);
    }

    /** One turn of the loop of `access_phys`: the part of a range that lies in
        one frame. */
    method AccessFrame(q: Addr, buffer: array<Byte>, at: nat, bytes: nat, read: bool)
      requires Valid() && at + bytes <= buffer.Length && buffer as object != ptab && Offset(q) + bytes <= 0x1000
      modifies this`tlb, this`phys, ptab, buffer
      ensures Transferred(read, old(phys), phys, q, old(buffer[..]), buffer[..], at, bytes)
    {
      hide FlatStore, FlatLoad, Splice;
      MapOne(q);
      assert InFrame(Page(q), Offset(q)) == q;
      if read {
        CopyFromWindow(Offset(q), buffer, at, bytes, Page(q));
      } else {
        CopyToWindow(Offset(q), buffer[..][at..at + bytes], Page(q));
      }
      UnmapOne();
    }

    /** `access_phys`, with `peek` for reading and `poke` for writing: flat
        physical memory, whatever the TLB does. */
    method AccessPhys(p: Addr, buffer: array<Byte>, at: nat, len: nat, read: bool) returns (code: int)
      requires Valid() && at + len <= buffer.Length && buffer as object != ptab
      modifies this`tlb, this`phys, ptab, buffer
      ensures code == if len == 0 then E_FAIL else E_OK
      ensures Transferred(read, old(phys), phys, p, old(buffer[..]), buffer[..], at, len)
    {
      hide Transferred, Plus, Offset;
      NothingTransferred(read, phys, p, buffer[..], at);
      if len == 0 { return E_FAIL; }
      var done, q := 0, p;
      while done < len
        invariant done <= len && q == Plus(p, done)
        invariant Transferred(read, old(phys), phys, p, old(buffer[..]), buffer[..], at, done)
      {
        var room := 0x1000 - Offset(q);
        var bytes := if len - done > room then room else len - done;
        ghost var m, b := phys, buffer[..];
        AccessFrame(q, buffer, at + done, bytes, read);
        NextPiece(read, old(phys), m, phys, p, old(buffer[..]), b, buffer[..], at, done, bytes);
        q := Plus(q, bytes);
        done := done + bytes;
      }
      code := E_OK;
    }

    function DirOf(pbase: Addr): Frame
      reads this
    {
      if pbase == CURRENT_ROOT_PMAP then root else Page(pbase)
    }

    /** `read_pmap_entry`. */
    method ReadPmapEntry(pbase: Addr, entry: nat) returns (w: Addr)
      requires Valid() && entry < 1024
      modifies this`tlb, ptab
      ensures w == Entry(phys, DirOf(pbase), entry)
    {
      var f := DirOf(pbase);
      MapOne(InFrame(f, 0));
      ghost var m := phys;
      var b0 := LoadByte(TEMP_START, 4 * entry, f);
      var b1 := LoadByte(TEMP_START, 4 * entry + 1, f);
      var b2 := LoadByte(TEMP_START, 4 * entry + 2, f);
      var b3 := LoadByte(TEMP_START, 4 * entry + 3, f);
      w := b0 as int + 0x100 * (b1 as int) + 0x1_0000 * (b2 as int) + 0x100_0000 * (b3 as int);
      UnmapOne();
    }

    /** `write_pmap_entry`: the entry reads back as written, and no byte outside it changes. */
    method WritePmapEntry(pbase: Addr, entry: nat, w: Addr)
      requires Valid() && entry < 1024
      modifies this`tlb, this`phys, ptab
      ensures phys == PutEntry(old(phys), DirOf(pbase), entry, w)
      ensures Entry(phys, DirOf(pbase), entry) == w
      ensures forall q: Addr | Page(q) != DirOf(pbase) || Offset(q) / 4 != entry :: phys[q] == old(phys)[q]
    {
      hide InFrame, Entry;
      var f := DirOf(pbase);
      MapOne(InFrame(f, 0));
      StoreByte(TEMP_START, 4 * entry, w % 0x100, f);
      StoreByte(TEMP_START, 4 * entry + 1, w / 0x100 % 0x100, f);
      StoreByte(TEMP_START, 4 * entry + 2, w / 0x1_0000 % 0x100, f);
      StoreByte(TEMP_START, 4 * entry + 3, w / 0x100_0000, f);
      PutEntryAt(old(phys), f, entry, w);
      UnmapOne();
    }

    /** The walk of `access_mem`, one entry at a time through the window. */
    method FindFrame(pdir: Addr, page: Frame) returns (r: Option<Frame>)
      requires Valid()
      modifies this`tlb, ptab
      ensures r == Walk(phys, DirOf(pdir), page)
    {
      var pde := ReadPmapEntry(pdir, PdeIndex(page));
      if !Present(pde) { return None; }
      if Large(pde) { return Some(LargeFrame(pde)); }
      var pte := ReadPmapEntry(InFrame(Page(pde), 0), PteIndex(page));
      if !Present(pte) { return None; }
      r := Some(Page(pte));
    }

    /** `memcpy` between a buffer of the current address space and the first
        window page; it faults where the buffer is not mapped. */
    method CopyWindow(here: Addr, offset: nat, n: nat, out: bool, ghost f: Frame) returns (end: End)
      requires Valid() && Settled(ptab[..], tlb, TEMP_START, f) && offset < 0x1000 && offset + n <= 0x1000
      modifies this`tlb, this`phys
      ensures (phys, end) == MoveBytes(old(phys), root, here, InFrame(f, offset), n, out)
    {
      hide Plus, InFrame, Locate;
      var i, a := 0, here;
      ghost var q := InFrame(f, offset);
      PlusPlus(here, 0, 0);
      PlusPlus(q, 0, 0);
      while i < n
        invariant i <= n && a == Plus(here, i) && Settled(ptab[..], tlb, TEMP_START, f)
        invariant MoveBytes(old(phys), root, here, q, n, out) == MoveBytes(phys, root, a, Plus(q, i), n - i, out)
      {
        FrameRun(f, offset, i);
        PlusPlus(here, i, 1);
        PlusPlus(q, i, 1);
        var p := Locate(phys, root, a, Mmu);
        if p.None? { return Faulted; }
        if out {
          StoreByte(TEMP_START, offset + i, phys[p.value], f);
        } else {
          var b := LoadByte(TEMP_START, offset + i, f);
          phys := phys[p.value := b];
        }
        i, a := i + 1, Plus(a, 1);
      }
      end := Done;
    }

    /** `peek` and `poke` as `access_mem` calls them, for bytes of one frame. */
    method AccessPiece(q: Addr, here: Addr, n: nat, out: bool) returns (end: End)
      requires Valid() && Offset(q) + n <= 0x1000
      modifies this`tlb, this`phys, ptab
      ensures (phys, end) == MoveBytes(old(phys), root, here, q, n, out)
    {
      hide MoveBytes;
      MapOne(q);
      assert InFrame(Page(q), Offset(q)) == q;
      end := CopyWindow(here, Offset(q), n, out, Page(q));
      if end.Done? { UnmapOne(); }
    }

    /** `access_mem`, for any start, length and alignment, and also if it
        overwrites the tables it is reading. */
    method AccessMem(there: Addr, len: nat, here: Addr, pdir: Addr, out: bool) returns (end: End)
      requires Valid()
      modifies this`tlb, this`phys, ptab
      ensures (phys, end) == Paged(old(phys), root, here, DirOf(pdir), there, len, out)
    {
      hide Walk, Plus, InFrame, MoveBytes, InFirstPage;
      ghost var dir := DirOf(pdir);
      var a, h, left := there, here, len;
      while left > 0
        invariant left >= 0
        invariant Paged(old(phys), root, here, dir, there, len, out) == Paged(phys, root, h, dir, a, left, out)
      {
        var r := FindFrame(pdir, Page(a));
        if r.None? { return Unmapped; }
        var bytes := InFirstPage(a, left);
        end := AccessPiece(InFrame(r.value, Offset(a)), h, bytes, out);
        if !end.Done? { return; }
        a, h, left := Plus(a, bytes), Plus(h, bytes), left - bytes;
      }
      end := Done;
    }

    /** `memcpy` between two buffers of the current address space. */
    method CopyDirect(there: Addr, len: nat, here: Addr, out: bool) returns (end: End)
      modifies this`phys
      ensures (phys, end) == Direct(old(phys), root, here, there, len, out)
    {
      hide Locate, Plus;
      var a, h, left := there, here, len;
      while left > 0
        invariant left >= 0
        invariant Direct(old(phys), root, here, there, len, out) == Direct(phys, root, h, a, left, out)
      {
        var p, q := Locate(phys, root, h, Mmu), Locate(phys, root, a, Mmu);
        if p.None? || q.None? { return Faulted; }
        phys := if out then phys[q.value := phys[p.value]] else phys[p.value := phys[q.value]];
        a, h, left := Plus(a, 1), Plus(h, 1), left - 1;
      }
      end := Done;
    }

    /** The test by which `poke_virt` and `peek_virt` recognise the current
        address space. */
    predicate IsCurrent(pdir: Addr)
      reads this
    {
      pdir == InFrame(root, 0) || pdir == CURRENT_ROOT_PMAP
    }

    /** `poke_virt`: the kernel's walk for another address space, the processor
        for the current one. */
    method PokeVirt(address: Addr, len: nat, buffer: Addr, pdir: Addr) returns (end: End)
      requires Valid()
      modifies this`tlb, this`phys, ptab
      ensures (phys, end) == if IsCurrent(pdir) then Direct(old(phys), root, buffer, address, len, true)
                             else Paged(old(phys), root, buffer, DirOf(pdir), address, len, true)
      ensures Offset(pdir) == 0 ==> (phys, end) == Move(old(phys), root, buffer, DirOf(pdir), address, len, true)
    {
      hide Direct, Paged;
      if IsCurrent(pdir) { end := CopyDirect(address, len, buffer, true); }
      else { end := AccessMem(address, len, buffer, pdir, true); }
    }

    /** `peek_virt`. */
    method PeekVirt(address: Addr, len: nat, buffer: Addr, pdir: Addr) returns (end: End)
      requires Valid()
      modifies this`tlb, this`phys, ptab
      ensures (phys, end) == if IsCurrent(pdir) then Direct(old(phys), root, buffer, address, len, false)
                             else Paged(old(phys), root, buffer, DirOf(pdir), address, len, false)
      ensures Offset(pdir) == 0 ==> (phys, end) == Move(old(phys), root, buffer, DirOf(pdir), address, len, false)
    {
      hide Direct, Paged;
      if IsCurrent(pdir) { end := CopyDirect(address, len, buffer, false); }
      else { end := AccessMem(address, len, buffer, pdir, false); }
    }

    /** `initialize_root_pmap`: kernel entries copied from the current
        directory, reached through its own last entry, then the new
        directory's last entry pointed at itself; `pmap` may be the current
        directory. */
    method InitializeRootPmap(pmap: Addr, k: nat) returns (code: int)
      requires Valid() && Offset(pmap) == 0 && k < RECURSIVE_PDE && MapsItself(phys, root)
      modifies this`tlb, this`phys, ptab
      ensures code == E_OK
      ensures phys == NewDirectory(old(phys), root, Page(pmap), k, pmap + 3)
    {
      hide FlatStore, FlatLoad, InFrame, MoveBytes, MapsItself;
      DirectoryCopied(phys, root, Page(pmap), 4 * k, 4 * (RECURSIVE_PDE - k));
      var end := AccessPiece(InFrame(Page(pmap), 4 * k), InFrame(0xFFFFF, 4 * k), 4 * (RECURSIVE_PDE - k), true);
      var w := pmap + 3;
      var pde := new Byte[4] [w % 0x100, w / 0x100 % 0x100, w / 0x1_0000 % 0x100, w / 0x100_0000];
      assert pde[..][0..4] == EntryBytes(w);
      StoreEntryBytes(phys, Page(pmap), RECURSIVE_PDE, w);
      code := AccessPhys(InFrame(Page(pmap), 4 * RECURSIVE_PDE), pde, 0, 4, false);
    }

    /** `memset` of one settled window page to zero. */
    method ClearPage(page: Frame, ghost f: Frame)
      requires Valid() && Settled(ptab[..], tlb, page, f)
      modifies this`tlb, this`phys
      ensures phys == ZeroFrame(old(phys), f, 0x1000) && Evolves(ptab[..], old(tlb), tlb)
    {
      var o := 0;
      while o < 0x1000
        invariant o <= 0x1000 && Settled(ptab[..], tlb, page, f) && Evolves(ptab[..], old(tlb), tlb)
        invariant phys == ZeroFrame(old(phys), f, o)
      {
        StoreByte(page, o, 0, f);
        o := o + 1;
      }
    }

    /** `clear_phys_frames`: as many frames as the window has pages for are zeroed. */
    method ClearPhysFrames(base: Addr, count: nat) returns (n: nat)
      requires Valid()
      modifies this`tlb, this`phys, ptab
      ensures n == if count < TEMP_END - TEMP_START then count else TEMP_END - TEMP_START
      ensures phys == ZeroFrames(old(phys), base, n)
    {
      hide ZeroFrame;
      var virt := InFrame(TEMP_START, 0);
      n := MapTemp(virt, base, count);
      var j := 0;
      while j < n
        invariant j <= n && phys == ZeroFrames(old(phys), base, j)
        invariant forall v: Frame | TEMP_START <= v < TEMP_START + n :: MappedFrom(ptab[..], tlb, virt, base, v)
      {
        ghost var t := tlb;
        assert MappedFrom(ptab[..], t, virt, base, TEMP_START + j);
        ClearPage(TEMP_START + j, NthFrame(base, j));
        forall v: Frame | TEMP_START <= v < TEMP_START + n
          ensures MappedFrom(ptab[..], tlb, virt, base, v)
        {
          assert MappedFrom(ptab[..], t, virt, base, v);
          StaysSettled(ptab[..], t, tlb, v, NthFrame(base, v - TEMP_START));
        }
        j := j + 1;
      }
      var u := UnmapTemp(virt, n);
    }
  }

  /** The first `o` bytes of frame `f` zeroed. */
  function ZeroFrame(m: Phys, f: Frame, o: nat): Phys
    requires o <= 0x1000
  {
    if o == 0 then m else ZeroFrame(m, f, o - 1)[InFrame(f, o - 1) := 0]
  }

  function ZeroFrames(m: Phys, base: Addr, n: nat): Phys {
    if n == 0 then m else ZeroFrame(ZeroFrames(m, base, n - 1), NthFrame(base, n - 1), 0x1000)
  }

  lemma {:induction false} ZeroFrameAt(m: Phys, f: Frame, o: nat, q: Addr)
    requires o <= 0x1000
    ensures ZeroFrame(m, f, o)[q] == if Page(q) == f && Offset(q) < o then 0 else m[q]
  {
    if o > 0 { ZeroFrameAt(m, f, o - 1, q); }
  }

  lemma {:induction false} ZeroFramesIs(m: Phys, base: Addr, n: nat, q: Addr)
    ensures ZeroFrames(m, base, n)[q] == if exists j: nat :: j < n && Page(q) == NthFrame(base, j) then 0 else m[q]
  {
    if n > 0 {
      hide NthFrame;
      ZeroFramesIs(m, base, n - 1, q);
      ZeroFrameAt(ZeroFrames(m, base, n - 1), NthFrame(base, n - 1), 0x1000, q);
    }
  }

  /** How many frames a frame lies behind the one of `base`, around the end of
      memory if need be. */
  function FramesBehind(base: Addr, q: Addr): nat {
    var f, g := base / 0x1000, q / 0x1000;
    if g >= f then g - f else g - f + 0x10_0000
  }

  /** Exactly the bytes of the `n` frames from `base` on are zero. */
  lemma ZeroFramesAt(m: Phys, base: Addr, n: nat, q: Addr)
    ensures ZeroFrames(m, base, n)[q] == if FramesBehind(base, q) < n then 0 else m[q]
  {
    ZeroFramesIs(m, base, n, q);
    forall j: nat | Page(q) == NthFrame(base, j)
      ensures FramesBehind(base, q) <= j
    {
      BehindIsLeast(base, q, j);
    }
    assert Page(q) == NthFrame(base, FramesBehind(base, q));
  }

  lemma BehindIsLeast(base: Addr, q: Addr, j: nat)
    requires Page(q) == NthFrame(base, j)
    ensures FramesBehind(base, q) <= j
  {
  }

  lemma AppendToFrame(m: Phys, f: Frame, offset: nat, data: seq<Byte>, b: Byte)
    requires offset + |data| < 0x1000
    ensures FlatStore(m, InFrame(f, offset), data + [b])
            == FlatStore(m, InFrame(f, offset), data)[InFrame(f, offset + |data|) := b]
  {
    var p := InFrame(f, offset);
    var m1 := FlatStore(m, p, data);
    FlatStoreConcat(m, p, data, [b]);
    PageRun(p, |data|);
    assert FlatStore(m1, Plus(p, |data|), [b]) == m1[Plus(p, |data|) := b];
  }

  predicate EqualBut(pt: seq<Addr>, pt': seq<Addr>, i: nat) {
    |pt| == |pt'| == 1024 && forall j | 0 <= j < 1024 && j != i :: pt'[j] == pt[j]
  }

  /** The TLB evolved, except for pages whose entry is entry `i`. */
  ghost predicate EvolvesBut(pt: seq<Addr>, t: Tlb, t': Tlb, i: nat) {
    forall v | v in t' && PteIndex(v) != i :: (v in t && t[v] == t'[v]) || Maps(pt, v, t'[v])
  }

  lemma EvolvesChain(pt: seq<Addr>, pt1: seq<Addr>, t: Tlb, t1: Tlb, t2: Tlb, i: nat)
    requires EvolvesBut(pt, t, t1, i) && EqualBut(pt, pt1, i) && EvolvesBut(pt1, t1, t2, i)
    ensures EvolvesBut(pt, t, t2, i)
  {
  }

  lemma EqualButAt(pt: seq<Addr>, i: nat, w: Addr)
    requires |pt| == 1024 && i < 1024
    ensures EqualBut(pt, pt[i := w], i)
  {
  }

  lemma EqualButThen(pt: seq<Addr>, pt1: seq<Addr>, i: nat, w: Addr)
    requires EqualBut(pt, pt1, i) && i < 1024
    ensures EqualBut(pt, pt1[i := w], i)
  {
  }

  lemma Invalidated(pt: seq<Addr>, t: Tlb, t1: Tlb, page: Frame, i: nat)
    requires EvolvesBut(pt, t, t1, i)
    ensures EvolvesBut(pt, t, t1 - {page}, i)
  {
  }

  lemma MapsNow(pt: seq<Addr>, page: Frame, f: Frame)
    requires |pt| == 1024 && pt[PteIndex(page)] == f * 0x1000 + 3
    ensures Maps(pt, page, f)
  {
  }

  lemma WindowEntriesDiffer(v: Frame, w: Frame)
    requires TABLE_START <= v < TEMP_END && TABLE_START <= w < TEMP_END && v != w
    ensures PteIndex(v) != PteIndex(w)
  {
  }

  /** Of the pages the window's table maps, only the `n` from `page` on changed. */
  ghost predicate KeepsOthers(pt: seq<Addr>, pt': seq<Addr>, page: Frame, n: nat) {
    && |pt| == |pt'| == 1024
    && forall v: Frame | TABLE_START <= v < TEMP_END && !(page <= v < page + n) :: pt'[PteIndex(v)] == pt[PteIndex(v)]
  }

  lemma KeepsOneMore(pt: seq<Addr>, pt1: seq<Addr>, pt2: seq<Addr>, page: Frame, n: nat)
    requires KeepsOthers(pt, pt1, page, n) && TABLE_START <= page && page + n < TEMP_END
             && EqualBut(pt1, pt2, PteIndex(page + n))
    ensures KeepsOthers(pt, pt2, page, n + 1)
  {
    forall v: Frame | TABLE_START <= v < TEMP_END && !(page <= v < page + n + 1)
      ensures pt2[PteIndex(v)] == pt[PteIndex(v)]
    {
      WindowEntriesDiffer(v, page + n);
    }
  }

  /** Frame `j` of a run of frames, around the end of memory if need be. */
  function NthFrame(base: Addr, j: nat): Frame {
    (Page(base) + j) % 0x10_0000
  }

  /** Page `v` of a mapping made from `virt` to `base`. */
  ghost predicate MappedFrom(pt: seq<Addr>, t: Tlb, virt: Addr, base: Addr, v: Frame) {
    v >= Page(virt) && Settled(pt, t, v, NthFrame(base, v - Page(virt)))
  }

  /** How many of `count` pages from `virt` on lie in the window, if the first does. */
  function WindowPages(virt: Addr, count: nat): (n: nat)
    ensures n > 0 ==> InWindow(Page(virt)) && Page(virt) + n <= TEMP_END
  {
    if !InWindow(Page(virt)) then 0
    else if count < TEMP_END - Page(virt) then count
    else TEMP_END - Page(virt)
  }
}

/** When the kernel's forward copy, with tables read again on the way, is the
    simple copy that reads everything first. */
module Copying {
  import opened Basics
  import opened AddressSpace
  import opened FlatMemory

  datatype Range = Range(dir: Frame, start: Addr, via: Via)

  /** The physical address of byte `i` of a range. */
  function At(m: Phys, r: Range, i: nat): Option<Addr> {
    Locate(m, r.dir, Plus(r.start, i), r.via)
  }

  function Mapped(m: Phys, r: Range, n: nat): (k: nat)
    ensures k <= n
    ensures forall i | 0 <= i < k :: At(m, r, i).Some?
    ensures k < n ==> At(m, r, k).None?
  {
    Reach(m, r.dir, r.start, n, r.via)
  }

  ghost predicate TablesKept(t: Phys, m: Phys, r: Range, n: nat) {
    TablesIntact(t, m, r.dir, r.start, n)
  }

  ghost predicate OffTables(t: Phys, r: Range, n: nat, a: Addr) {
    TableFree(t, r.dir, r.start, n, Page(a))
  }

  /** No byte written belongs to a table either range is reached through, and
      no byte is written before it is read. */
  ghost predicate Undisturbed(t: Phys, src: Range, dst: Range, n: nat) {
    forall i | 0 <= i < n && At(t, dst, i).Some? ::
      && OffTables(t, src, n, At(t, dst, i).value)
      && OffTables(t, dst, n, At(t, dst, i).value)
      && forall j | i < j < n :: At(t, src, j) != At(t, dst, i)
  }

  /** The first `n` bytes copied one after the other, where the ranges lie in `t`. */
  function Forward(t: Phys, src: Range, dst: Range, n: nat): Phys
    requires Mapped(t, src, n) == n && Mapped(t, dst, n) == n
  {
    if n == 0 then t
    else
      MappedLess(t, src, n, n - 1);
      MappedLess(t, dst, n, n - 1);
      var m := Forward(t, src, dst, n - 1);
      m[At(t, dst, n - 1).value := m[At(t, src, n - 1).value]]
  }

  lemma MappedLess(t: Phys, r: Range, n: nat, k: nat)
    requires k <= Mapped(t, r, n)
    ensures Mapped(t, r, k) == k
  {
    hide Mapped;
    assert Mapped(t, r, k) < k ==> At(t, r, Mapped(t, r, k)).None?;
  }

  lemma FrameKept(t: Phys, m: Phys, f: Frame, a: Addr, b: Byte)
    requires SameFrame(t, m, f) && Page(a) != f
    ensures SameFrame(t, m[a := b], f)
  {
    forall o: nat | o < 0x1000
      ensures m[a := b][InFrame(f, o)] == t[InFrame(f, o)]
    {
      assert Page(InFrame(f, o)) == f;
    }
  }

  lemma KeptByWrite(t: Phys, m: Phys, r: Range, n: nat, a: Addr, b: Byte)
    requires TablesKept(t, m, r, n) && OffTables(t, r, n, a)
    ensures TablesKept(t, m[a := b], r, n)
  {
    hide TableOf, Page, Plus, SameFrame;
    FrameKept(t, m, r.dir, a, b);
    forall i | 0 <= i < n && TableOf(t, r.dir, Page(Plus(r.start, i))).Some?
      ensures SameFrame(t, m[a := b], TableOf(t, r.dir, Page(Plus(r.start, i))).value)
    {
      FrameKept(t, m, TableOf(t, r.dir, Page(Plus(r.start, i))).value, a, b);
    }
  }

  /** The frame under byte `i` of a range. */
  function FrameAt(m: Phys, r: Range, i: nat): Option<Frame> {
    Resolve(m, r.dir, Page(Plus(r.start, i)), r.via)
  }

  lemma FrameAtKept(t: Phys, m: Phys, r: Range, n: nat, i: nat)
    requires TablesKept(t, m, r, n) && i < n
    ensures FrameAt(m, r, i) == FrameAt(t, r, i)
  {
    hide Walk, Translate, Plus, Page;
    WalkIntact(t, m, r.dir, r.start, n, i);
  }

  lemma SameFrameAt(t: Phys, m: Phys, r: Range, i: nat)
    requires FrameAt(m, r, i) == FrameAt(t, r, i)
    ensures At(m, r, i) == At(t, r, i)
  {
    hide Resolve, Plus, Page;
  }

  /** A partial copy has left the tables and the bytes still to be read alone. */
  lemma {:induction false} ForwardKeeps(t: Phys, src: Range, dst: Range, n: nat, all: nat)
    requires Mapped(t, src, n) == n && Mapped(t, dst, n) == n && n <= all && Undisturbed(t, src, dst, all)
    ensures TablesKept(t, Forward(t, src, dst, n), src, all) && TablesKept(t, Forward(t, src, dst, n), dst, all)
    ensures forall j | n <= j < all && At(t, src, j).Some? ::
              Forward(t, src, dst, n)[At(t, src, j).value] == t[At(t, src, j).value]
  {
    hide At, Mapped, OffTables, TablesKept;
    if n == 0 {
      NothingWritten(t, src, all);
      NothingWritten(t, dst, all);
    } else {
      MappedLess(t, src, n, n - 1);
      MappedLess(t, dst, n, n - 1);
      ForwardKeeps(t, src, dst, n - 1, all);
      var m := Forward(t, src, dst, n - 1);
      var a, b := At(t, dst, n - 1).value, m[At(t, src, n - 1).value];
      KeptByWrite(t, m, src, all, a, b);
      KeptByWrite(t, m, dst, all, a, b);
    }
  }

  lemma NothingWritten(t: Phys, r: Range, n: nat)
    ensures TablesKept(t, t, r, n)
  {
  }

  lemma MappedMore(t: Phys, r: Range, n: nat)
    requires Mapped(t, r, n) == n && At(t, r, n).Some?
    ensures Mapped(t, r, n + 1) == n + 1
  {
    hide At;
    assert Mapped(t, r, n + 1) >= n;
  }

  /** Every byte arrives, if the target does not map one frame twice, and
      nothing outside the target changes. */
  lemma {:induction false} ForwardArrives(t: Phys, src: Range, dst: Range, n: nat, all: nat, i: nat)
    requires Mapped(t, src, n) == n && Mapped(t, dst, n) == n && i < n <= all && Undisturbed(t, src, dst, all)
    requires forall j | i < j < n :: At(t, dst, j) != At(t, dst, i)
    ensures Forward(t, src, dst, n)[At(t, dst, i).value] == t[At(t, src, i).value]
  {
    hide At, Mapped, OffTables, TablesKept;
    MappedLess(t, src, n, n - 1);
    MappedLess(t, dst, n, n - 1);
    if i < n - 1 {
      ForwardArrives(t, src, dst, n - 1, all, i);
    } else {
      ForwardKeeps(t, src, dst, n - 1, all);
    }
  }

  lemma {:induction false} ForwardElsewhere(t: Phys, src: Range, dst: Range, n: nat, q: Addr)
    requires Mapped(t, src, n) == n && Mapped(t, dst, n) == n && forall i | 0 <= i < n :: At(t, dst, i) != Some(q)
    ensures Forward(t, src, dst, n)[q] == t[q]
  {
    hide At, Mapped;
    if n > 0 {
      MappedLess(t, src, n, n - 1);
      MappedLess(t, dst, n, n - 1);
      ForwardElsewhere(t, src, dst, n - 1, q);
    }
  }

  // ---------- one side in the current address space ----------

  function Least(a: nat, b: nat): nat {
    if a < b then a else b
  }

  function Source(h: Range, o: Range, out: bool): Range {
    if out then h else o
  }

  function Target(h: Range, o: Range, out: bool): Range {
    if out then o else h
  }

  /** The state after `n` bytes of a copy between `h` and `o`. */
  function After(t: Phys, h: Range, o: Range, out: bool, n: nat): Phys
    requires Mapped(t, h, n) == n && Mapped(t, o, n) == n
  {
    Forward(t, Source(h, o, out), Target(h, o, out), n)
  }

  ghost predicate Quiet(t: Phys, h: Range, o: Range, out: bool, n: nat) {
    Undisturbed(t, Source(h, o, out), Target(h, o, out), n)
  }

  /** Where byte `n` lies has not changed, and moving it is the next step. */
  lemma NextByte(t: Phys, h: Range, o: Range, out: bool, n: nat, all: nat)
    requires Mapped(t, h, n) == n && Mapped(t, o, n) == n && n < all && Quiet(t, h, o, out, all)
    ensures var m := After(t, h, o, out, n); At(m, h, n) == At(t, h, n) && At(m, o, n) == At(t, o, n)
    ensures At(t, h, n).Some? && At(t, o, n).Some? ==>
              var m, p, q := After(t, h, o, out, n), At(t, h, n).value, At(t, o, n).value;
              && Mapped(t, h, n + 1) == n + 1 && Mapped(t, o, n + 1) == n + 1
              && After(t, h, o, out, n + 1) == if out then m[q := m[p]] else m[p := m[q]]
  {
    hide At, Mapped, Undisturbed, TablesKept;
    var m := After(t, h, o, out, n);
    ForwardKeeps(t, Source(h, o, out), Target(h, o, out), n, all);
    FrameAtKept(t, m, h, all, n);
    SameFrameAt(t, m, h, n);
    FrameAtKept(t, m, o, all, n);
    SameFrameAt(t, m, o, n);
    if At(t, h, n).Some? && At(t, o, n).Some? {
      MappedMore(t, h, n);
      MappedMore(t, o, n);
    }
  }

  /** `memcpy` within one address space, from byte `n` on. */
  lemma {:induction false} DirectIs(t: Phys, h: Range, o: Range, out: bool, n: nat, all: nat)
    requires h.via.Mmu? && o.via.Mmu? && h.dir == o.dir && Quiet(t, h, o, out, all)
    requires n <= Mapped(t, h, all) && n <= Mapped(t, o, all)
    ensures var k := Least(Mapped(t, h, all), Mapped(t, o, all));
            && Mapped(t, h, n) == n && Mapped(t, o, n) == n && Mapped(t, h, k) == k && Mapped(t, o, k) == k
            && Direct(After(t, h, o, out, n), h.dir, Plus(h.start, n), Plus(o.start, n), all - n, out)
               == (After(t, h, o, out, k), if k == all then Done else Faulted)
    decreases all - n
  {
    hide Mapped, After, Plus, Quiet, Locate;
    var k := Least(Mapped(t, h, all), Mapped(t, o, all));
    MappedLess(t, h, all, n);
    MappedLess(t, o, all, n);
    MappedLess(t, h, all, k);
    MappedLess(t, o, all, k);
    if n < all {
      NextByte(t, h, o, out, n, all);
      if n < k {
        PlusPlus(h.start, n, 1);
        PlusPlus(o.start, n, 1);
        DirectIs(t, h, o, out, n + 1, all);
      } else {
        assert At(t, h, k).None? || At(t, o, k).None?;
      }
    }
  }

  /** Within a page the next byte is the next byte of the frame. */
  lemma NextInPage(t: Phys, r: Range, n: nat)
    requires At(t, r, n).Some? && Offset(Plus(r.start, n)) + 1 < 0x1000
    ensures At(t, r, n + 1) == Some(Plus(At(t, r, n).value, 1))
            && Offset(Plus(r.start, n + 1)) == Offset(Plus(r.start, n)) + 1
  {
    hide Resolve;
    var va := Plus(r.start, n);
    PlusPlus(r.start, n, 1);
    PageRun(va, 1);
    ResolveRun(t, r.dir, va, r.via, 1);
    FrameRun(Resolve(t, r.dir, Page(va), r.via).value, Offset(va), 1);
  }

  /** The part of the copy that lies in one page of the other address space. */
  lemma {:induction false} MoveBytesIs(t: Phys, h: Range, o: Range, out: bool, n: nat, c: nat, all: nat, q: Addr)
    requires h.via.Mmu? && Quiet(t, h, o, out, all) && n + c <= all
    requires n <= Mapped(t, h, all) && n + c <= Mapped(t, o, all)
    requires Offset(Plus(o.start, n)) + c <= 0x1000 && (c > 0 ==> At(t, o, n) == Some(q))
    ensures var e := Least(n + c, Mapped(t, h, all));
            && Mapped(t, h, n) == n && Mapped(t, o, n) == n && Mapped(t, h, e) == e && Mapped(t, o, e) == e
            && MoveBytes(After(t, h, o, out, n), h.dir, Plus(h.start, n), q, c, out)
               == (After(t, h, o, out, e), if e == n + c then Done else Faulted)
    decreases c
  {
    hide Mapped, After, Plus, Quiet, Locate, Offset;
    var e := Least(n + c, Mapped(t, h, all));
    MappedLess(t, h, all, n);
    MappedLess(t, o, all, n);
    MappedLess(t, h, all, e);
    MappedLess(t, o, all, e);
    if c > 0 {
      NextByte(t, h, o, out, n, all);
      if n < Mapped(t, h, all) {
        PlusPlus(h.start, n, 1);
        if c > 1 { NextInPage(t, o, n); } else { EndOfPage(o, n); }
        MoveBytesIs(t, h, o, out, n + 1, c - 1, all, Plus(q, 1));
      }
    }
  }

  lemma EndOfPage(r: Range, n: nat)
    ensures Offset(Plus(r.start, n + 1)) <= 0x1000
  {
  }

  /** A page that is mapped at one byte is mapped at the next ones. */
  lemma RestOfPage(t: Phys, r: Range, n: nat, d: nat)
    requires At(t, r, n).Some? && Offset(Plus(r.start, n)) + d < 0x1000
    ensures At(t, r, n + d).Some?
  {
    PlusPlus(r.start, n, d);
    ResolveRun(t, r.dir, Plus(r.start, n), r.via, d);
  }

  /** `access_mem` from byte `n` on, when `n` begins a page or the range. */
  lemma {:induction false} PagedIs(t: Phys, h: Range, o: Range, out: bool, n: nat, all: nat)
    requires h.via.Mmu? && o.via.Tables? && Quiet(t, h, o, out, all)
    requires n <= Mapped(t, h, all) && n <= Mapped(t, o, all)
    ensures var i, j := Mapped(t, h, all), Mapped(t, o, all); var k := Least(i, j);
            && Mapped(t, h, n) == n && Mapped(t, o, n) == n && Mapped(t, h, k) == k && Mapped(t, o, k) == k
            && Paged(After(t, h, o, out, n), h.dir, Plus(h.start, n), o.dir, Plus(o.start, n), all - n, out)
               == (After(t, h, o, out, k), if k == all then Done else if j <= i then Unmapped else Faulted)
    decreases all - n
  {
    hide Mapped, After, Plus, Quiet, Locate, MoveBytes, InFirstPage;
    var i, j := Mapped(t, h, all), Mapped(t, o, all);
    var k := Least(i, j);
    MappedLess(t, h, all, n);
    MappedLess(t, o, all, n);
    MappedLess(t, h, all, k);
    MappedLess(t, o, all, k);
    if n < all {
      NextByte(t, h, o, out, n, all);
      if n < j {
        var c := InFirstPage(Plus(o.start, n), all - n);
        if j < n + c { RestOfPage(t, o, n, j - n); }
        MoveBytesIs(t, h, o, out, n, c, all, At(t, o, n).value);
        if n + c <= i {
          PlusPlus(h.start, n, c);
          PlusPlus(o.start, n, c);
          PagedIs(t, h, o, out, n + c, all);
        }
      }
    }
  }

  /** The ranges of a message copy: the caller's buffer and its peer's. */
  function Mine(cur: Frame, here: Addr): Range {
    Range(cur, here, Mmu)
  }

  function Other(cur: Frame, peer: Frame, there: Addr): Range {
    Range(peer, there, ViaFor(cur, peer))
  }

  // ---------- what the copy leaves alone ----------

  /** No byte of the range lies in a table it is reached through. */
  ghost predicate Clear(t: Phys, r: Range, n: nat) {
    forall i | 0 <= i < n && At(t, r, i).Some? :: OffTables(t, r, n, At(t, r, i).value)
  }

  /** The physical byte is none of the first `n` of the range. */
  ghost predicate Outside(t: Phys, r: Range, n: nat, q: Addr) {
    forall i | 0 <= i < n :: At(t, r, i) != Some(q)
  }

  /** Only bytes of the range have changed, so it still lies where it did. */
  ghost predicate Within(t: Phys, m: Phys, r: Range, n: nat) {
    TablesKept(t, m, r, n) && forall q: Addr | Outside(t, r, n, q) :: m[q] == t[q]
  }

  lemma WithinWrite(t: Phys, m: Phys, r: Range, n: nat, i: nat, b: Byte)
    requires Clear(t, r, n) && Within(t, m, r, n) && i < n && At(t, r, i).Some?
    ensures Within(t, m[At(t, r, i).value := b], r, n)
  {
    hide At, OffTables, TablesKept;
    KeptByWrite(t, m, r, n, At(t, r, i).value, b);
  }

  lemma WithinAt(t: Phys, m: Phys, r: Range, n: nat, i: nat)
    requires Within(t, m, r, n) && i < n
    ensures At(m, r, i) == At(t, r, i)
  {
    hide At, FrameAt, TablesKept;
    FrameAtKept(t, m, r, n, i);
    SameFrameAt(t, m, r, i);
  }

  lemma {:induction false} DirectWithin(t: Phys, m: Phys, h: Range, o: Range, out: bool, i: nat, n: nat)
    requires h.via.Mmu? && o.via.Mmu? && h.dir == o.dir && i <= n
    requires Clear(t, Target(h, o, out), n) && Within(t, m, Target(h, o, out), n)
    ensures Within(t, Direct(m, h.dir, Plus(h.start, i), Plus(o.start, i), n - i, out).0, Target(h, o, out), n)
    decreases n - i
  {
    hide Clear, Within, Plus, Locate;
    if i < n && At(m, h, i).Some? && At(m, o, i).Some? {
      var p, q := At(m, h, i).value, At(m, o, i).value;
      WithinAt(t, m, Target(h, o, out), n, i);
      WithinWrite(t, m, Target(h, o, out), n, i, if out then m[p] else m[q]);
      PlusPlus(h.start, i, 1);
      PlusPlus(o.start, i, 1);
      DirectWithin(t, if out then m[q := m[p]] else m[p := m[q]], h, o, out, i + 1, n);
    }
  }

  lemma {:induction false} MoveBytesWithin(t: Phys, m: Phys, h: Range, o: Range, out: bool, i: nat, c: nat, n: nat,
                                           q: Addr)
    requires h.via.Mmu? && i + c <= n && Clear(t, Target(h, o, out), n) && Within(t, m, Target(h, o, out), n)
    requires out ==> Offset(Plus(o.start, i)) + c <= 0x1000 && (c > 0 ==> At(t, o, i) == Some(q))
    ensures Within(t, MoveBytes(m, h.dir, Plus(h.start, i), q, c, out).0, Target(h, o, out), n)
    decreases c
  {
    hide Clear, Within, Plus, Locate, Offset;
    if c > 0 && At(m, h, i).Some? {
      var p := At(m, h, i).value;
      WithinAt(t, m, Target(h, o, out), n, i);
      WithinWrite(t, m, Target(h, o, out), n, i, if out then m[p] else m[q]);
      PlusPlus(h.start, i, 1);
      if out {
        if c > 1 { NextInPage(t, o, i); } else { EndOfPage(o, i); }
      }
      MoveBytesWithin(t, if out then m[q := m[p]] else m[p := m[q]], h, o, out, i + 1, c - 1, n, Plus(q, 1));
    }
  }

  lemma {:induction false} PagedWithin(t: Phys, m: Phys, h: Range, o: Range, out: bool, i: nat, n: nat)
    requires h.via.Mmu? && o.via.Tables? && i <= n
    requires Clear(t, Target(h, o, out), n) && Within(t, m, Target(h, o, out), n)
    ensures Within(t, Paged(m, h.dir, Plus(h.start, i), o.dir, Plus(o.start, i), n - i, out).0, Target(h, o, out), n)
    decreases n - i
  {
    hide Clear, Within, Plus, Locate, MoveBytes, InFirstPage;
    if i < n && At(m, o, i).Some? {
      var c := InFirstPage(Plus(o.start, i), n - i);
      WithinAt(t, m, Target(h, o, out), n, i);
      MoveBytesWithin(t, m, h, o, out, i, c, n, At(m, o, i).value);
      var (m1, end) := MoveBytes(m, h.dir, Plus(h.start, i), At(m, o, i).value, c, out);
      if end.Done? {
        PlusPlus(h.start, i, c);
        PlusPlus(o.start, i, c);
        PagedWithin(t, m1, h, o, out, i + c, n);
      }
    }
  }

  /** Whatever it reads, and however it ends, a copy changes no byte outside the
      range it writes to, if that range holds none of its own tables. */
  lemma {:induction false} MoveWithin(t: Phys, cur: Frame, here: Addr, peer: Frame, there: Addr, n: nat, out: bool,
                                      q: Addr)
    requires var dst := Target(Mine(cur, here), Other(cur, peer, there), out);
             Clear(t, dst, n) && Outside(t, dst, n, q)
    ensures Move(t, cur, here, peer, there, n, out).0[q] == t[q]
  {
    hide Clear, Outside, Within, Plus, Direct, Paged;
    var h, o := Mine(cur, here), Other(cur, peer, there);
    PlusPlus(here, 0, 0);
    PlusPlus(there, 0, 0);
    WithinItself(t, Target(h, o, out), n);
    if cur == peer { DirectWithin(t, t, h, o, out, 0, n); } else { PagedWithin(t, t, h, o, out, 0, n); }
    OutsideKept(t, Move(t, cur, here, peer, there, n, out).0, Target(h, o, out), n, q);
  }

  lemma WithinItself(t: Phys, r: Range, n: nat)
    ensures Within(t, t, r, n)
  {
    NothingWritten(t, r, n);
    hide TablesKept, Outside;
  }

  lemma OutsideKept(t: Phys, m: Phys, r: Range, n: nat, q: Addr)
    requires Within(t, m, r, n) && Outside(t, r, n, q)
    ensures m[q] == t[q]
  {
    hide TablesKept, Outside;
  }

  lemma ClearLess(t: Phys, r: Range, n: nat, k: nat)
    requires Clear(t, r, n) && k <= n
    ensures Clear(t, r, k)
  {
    hide At;
  }

  // ---------- the simple copy ----------

  lemma OneMoreLoaded(t: Phys, r: Range, n: nat)
    requires Mapped(t, r, n + 1) == n + 1
    ensures Load(t, r.dir, r.start, n + 1, r.via) == Load(t, r.dir, r.start, n, r.via) + [t[At(t, r, n).value]]
  {
    MappedLess(t, r, n + 1, n);
    LoadConcat(t, r.dir, r.start, n, 1, r.via);
    OneLoaded(t, r.dir, Plus(r.start, n), r.via);
  }

  lemma OneLoaded(t: Phys, dir: Frame, va: Addr, via: Via)
    requires Locate(t, dir, va, via).Some?
    ensures Load(t, dir, va, 1, via) == [t[Locate(t, dir, va, via).value]]
  {
    PlusPlus(va, 0, 0);
    hide Locate, Plus;
    ReachIs(t, dir, va, 1, via, 1);
  }

  lemma {:induction false} ForwardIsStore(t: Phys, src: Range, dst: Range, n: nat, all: nat)
    requires Mapped(t, src, n) == n && Mapped(t, dst, n) == n && n <= all && Undisturbed(t, src, dst, all)
    ensures Forward(t, src, dst, n) == Store(t, t, dst.dir, dst.start, Load(t, src.dir, src.start, n, src.via), dst.via)
  {
    hide Undisturbed, Store, Load, Locate, Plus, Reach;
    if n == 0 {
      NothingStored(t, src, dst);
    } else {
      MappedLess(t, src, n, n - 1);
      MappedLess(t, dst, n, n - 1);
      ForwardIsStore(t, src, dst, n - 1, all);
      ForwardKeeps(t, src, dst, n - 1, all);
      OneMoreLoaded(t, src, n - 1);
      var data, b := Load(t, src.dir, src.start, n - 1, src.via), t[At(t, src, n - 1).value];
      StoreConcat(t, t, dst.dir, dst.start, data, [b], dst.via);
      OneStored(t, Forward(t, src, dst, n - 1), dst, n - 1, b);
    }
  }

  lemma NothingStored(t: Phys, src: Range, dst: Range)
    ensures Store(t, t, dst.dir, dst.start, Load(t, src.dir, src.start, 0, src.via), dst.via) == t
  {
  }

  lemma OneStored(t: Phys, m: Phys, r: Range, n: nat, b: Byte)
    requires At(t, r, n).Some?
    ensures Store(t, m, r.dir, Plus(r.start, n), [b], r.via) == m[At(t, r, n).value := b]
  {
    hide Locate, Plus;
    StoreStep(t, m, r.dir, Plus(r.start, n), [b], r.via);
  }

  lemma LoadPrefix(t: Phys, r: Range, n: nat, k: nat)
    requires k <= Mapped(t, r, n)
    ensures Load(t, r.dir, r.start, n, r.via)[..k] == Load(t, r.dir, r.start, k, r.via)
  {
    MappedLess(t, r, n, k);
    hide Locate, Plus, Reach;
  }

  /** Where nothing is disturbed, reading everything first makes no difference. */
  lemma CopyIs(t: Phys, src: Range, dst: Range, n: nat)
    requires Undisturbed(t, src, dst, n)
    ensures var k := Least(Mapped(t, src, n), Mapped(t, dst, n));
            && Mapped(t, src, k) == k && Mapped(t, dst, k) == k
            && Copy(t, src.dir, src.start, src.via, dst.dir, dst.start, dst.via, n).0 == Forward(t, src, dst, k)
  {
    var i, j := Mapped(t, src, n), Mapped(t, dst, n);
    var k := Least(i, j);
    var data := Load(t, src.dir, src.start, n, src.via);
    MappedLess(t, src, n, k);
    MappedLess(t, dst, n, k);
    hide Undisturbed, Store, Load, Reach, Forward;
    StoreStops(t, t, dst.dir, dst.start, data, dst.via);
    assert Reach(t, dst.dir, dst.start, i, dst.via) == k by {
      if j < i { ReachIs(t, dst.dir, dst.start, i, dst.via, j); } else { MappedLess(t, dst, n, i); }
    }
    LoadPrefix(t, src, n, k);
    ForwardIsStore(t, src, dst, k, n);
  }

  /** `poke_virt` and `peek_virt` are the simple copy, up to the first byte
      that either side does not map, when no table in use is overwritten and no
      byte is overwritten before it is read; they report the other side's
      unmapped page, and fault on the caller's. */
  lemma MoveIsCopy(t: Phys, cur: Frame, here: Addr, peer: Frame, there: Addr, n: nat, out: bool)
    requires Quiet(t, Mine(cur, here), Other(cur, peer, there), out, n)
    ensures var h, o := Mine(cur, here), Other(cur, peer, there);
            var src, dst := Source(h, o, out), Target(h, o, out);
            var i, j := Mapped(t, h, n), Mapped(t, o, n);
            Move(t, cur, here, peer, there, n, out) ==
              (Copy(t, src.dir, src.start, src.via, dst.dir, dst.start, dst.via, n).0,
               if i == n == j then Done else if cur != peer && j <= i then Unmapped else Faulted)
  {
    hide Mapped, Undisturbed, Copy, Direct, Paged, Plus, Forward;
    var h, o := Mine(cur, here), Other(cur, peer, there);
    PlusPlus(here, 0, 0);
    PlusPlus(there, 0, 0);
    CopyIs(t, Source(h, o, out), Target(h, o, out), n);
    AtFirst(t, h, o, out);
    if cur == peer { DirectIs(t, h, o, out, 0, n); } else { PagedIs(t, h, o, out, 0, n); }
  }

  lemma AtFirst(t: Phys, h: Range, o: Range, out: bool)
    ensures After(t, h, o, out, 0) == t
  {
  }

  /** Outside 4 MiB pages it does not matter how the ranges are reached. */
  lemma UndisturbedEitherWay(t: Phys, src: Range, dst: Range, n: nat, v: Via, w: Via)
    requires SmallRange(t, src.dir, src.start, n) && SmallRange(t, dst.dir, dst.start, n) && Undisturbed(t, src, dst, n)
    ensures Undisturbed(t, src.(via := v), dst.(via := w), n)
  {
    ReachEitherWay(t, src.dir, src.start, n);
    ReachEitherWay(t, dst.dir, dst.start, n);
    var src', dst' := src.(via := v), dst.(via := w);
    hide Locate, SmallRange, Plus, TableFree;
    assert forall i | 0 <= i < n :: At(t, src', i) == At(t, src, i);
    assert forall i | 0 <= i < n :: At(t, dst', i) == At(t, dst, i);
  }

  // ---------- where the two copies differ ----------

  /** Three consecutive bytes that lie apart, the second in no table. */
  ghost predicate ThreeBytes(t: Phys, cur: Frame, a: Addr, p0: Addr, p1: Addr, p2: Addr) {
    var h := Mine(cur, a);
    && At(t, h, 0) == Some(p0) && At(t, h, 1) == Some(p1) && At(t, h, 2) == Some(p2)
    && p0 != p1 && p1 != p2 && p0 != p2 && OffTables(t, h, 3, p1)
  }

  /** Two bytes copied one place up within an address space: the forward copy
      writes the second byte before it reads it, and smears the first.  The
      two copies agree exactly if the bytes were equal. */
  lemma OverlapSmears(t: Phys, cur: Frame, a: Addr, p0: Addr, p1: Addr, p2: Addr)
    requires ThreeBytes(t, cur, a, p0, p1, p2)
    ensures Move(t, cur, a, cur, Plus(a, 1), 2, true).0 == t[p1 := t[p0]][p2 := t[p0]]
    ensures Copy(t, cur, a, Mmu, cur, Plus(a, 1), Mmu, 2).0 == t[p1 := t[p0]][p2 := t[p1]]
    ensures Move(t, cur, a, cur, Plus(a, 1), 2, true).0 == Copy(t, cur, a, Mmu, cur, Plus(a, 1), Mmu, 2).0 <==>
            t[p0] == t[p1]
  {
    var h := Mine(cur, a);
    PlusPlus(a, 0, 0);
    PlusPlus(a, 1, 1);
    var m1 := t[p1 := t[p0]];
    NothingWritten(t, h, 3);
    KeptByWrite(t, t, h, 3, p1, t[p0]);
    FrameAtKept(t, m1, h, 3, 1);
    SameFrameAt(t, m1, h, 1);
    FrameAtKept(t, m1, h, 3, 2);
    SameFrameAt(t, m1, h, 2);
    hide Locate, Plus, TablesKept, OffTables, Mapped, Move, Copy;
    SmearedForward(t, cur, a, p0, p1, p2);
    ThreeMapped(t, h);
    CopiedUp(t, h, p0, p1, p2);
    assert m1[p2 := t[p0]][p2] == t[p0] && m1[p2 := t[p1]][p2] == t[p1];
  }

  lemma ThreeMapped(t: Phys, h: Range)
    requires At(t, h, 0).Some? && At(t, h, 1).Some? && At(t, h, 2).Some?
    ensures Mapped(t, h, 3) == 3
  {
    hide At, Mapped;
    assert Mapped(t, h, 3) in {0, 1, 2, 3};
  }

  lemma SmearedForward(t: Phys, cur: Frame, a: Addr, p0: Addr, p1: Addr, p2: Addr)
    requires var m1 := t[p1 := t[p0]];
             && Locate(t, cur, a, Mmu) == Some(p0) && Locate(t, cur, Plus(a, 1), Mmu) == Some(p1)
             && Locate(m1, cur, Plus(a, 1), Mmu) == Some(p1) && Locate(m1, cur, Plus(a, 2), Mmu) == Some(p2)
    requires Plus(Plus(a, 1), 1) == Plus(a, 2)
    ensures Move(t, cur, a, cur, Plus(a, 1), 2, true).0 == t[p1 := t[p0]][p2 := t[p0]]
  {
    hide Locate, Plus;
    var m1 := t[p1 := t[p0]];
    assert Direct(t, cur, a, Plus(a, 1), 2, true) == Direct(m1, cur, Plus(a, 1), Plus(a, 2), 1, true);
    assert Direct(m1, cur, Plus(a, 1), Plus(a, 2), 1, true).0 == m1[p2 := m1[p1]];
  }

  lemma CopiedUp(t: Phys, h: Range, p0: Addr, p1: Addr, p2: Addr)
    requires Mapped(t, h, 3) == 3 && h.via.Mmu? && At(t, h, 0) == Some(p0) && At(t, h, 1) == Some(p1)
             && At(t, h, 2) == Some(p2)
    ensures Copy(t, h.dir, h.start, Mmu, h.dir, Plus(h.start, 1), Mmu, 2).0 == t[p1 := t[p0]][p2 := t[p1]]
  {
    MappedLess(t, h, 3, 1);
    MappedLess(t, h, 3, 2);
    NothingLoaded(t, h);
    OneMoreLoaded(t, h, 0);
    OneMoreLoaded(t, h, 1);
    PlusPlus(h.start, 1, 1);
    hide Locate, Plus, Load, Mapped;
    var data := [t[p0], t[p1]];
    StoreStep(t, t, h.dir, Plus(h.start, 1), data, Mmu);
    var m1 := t[p1 := t[p0]];
    assert data[1..] == [t[p1]];
    OneStored(t, m1, h, 2, t[p1]);
  }

  /** Such a memory: the first 4 MiB are mapped onto themselves, and two bytes
      of frame 3 differ. */
  lemma OverlapMemory(m: Phys, cur: Frame)
    requires cur != 3
    ensures var t := PutEntry(m[0x3000 := 1][0x3001 := 2], cur, 0, 0x83);
            && ThreeBytes(t, cur, 0x3000, 0x3000, 0x3001, 0x3002)
            && Move(t, cur, 0x3000, cur, 0x3001, 2, true).0 != Copy(t, cur, 0x3000, Mmu, cur, 0x3001, Mmu, 2).0
  {
    var m1: Phys := m[0x3000 := 1][0x3001 := 2];
    var t := PutEntry(m1, cur, 0, 0x83);
    PutEntryAt(m1, cur, 0, 0x83);
    assert t[0x3000] == 1 && t[0x3001] == 2 by { assert Page(0x3000) == 3 && Page(0x3001) == 3; }
    hide PutEntry, Move, Copy, ThreeBytes;
    IdentityMapped(t, cur, 0x3000);
    assert Plus(0x3000, 1) == 0x3001;
    OverlapSmears(t, cur, 0x3000, 0x3000, 0x3001, 0x3002);
  }

  lemma IdentityMapped(t: Phys, cur: Frame, a: Addr)
    requires Entry(t, cur, 0) == 0x83 && cur != 3 && a == 0x3000
    ensures ThreeBytes(t, cur, a, a, a + 1, a + 2)
  {
    LargeEntry();
    assert PdeIndex(3) == 0 && PteIndex(3) == 3;
    assert Page(a) == Page(a + 1) == Page(a + 2) == 3;
    assert Plus(a, 0) == a && Plus(a, 1) == a + 1 && Plus(a, 2) == a + 2;
    hide Entry, Present, Large, LargeHigh, LargeFrame, PdeIndex, PteIndex, Page, Plus;
    assert Translate(t, cur, 3) == Some(3) && TableOf(t, cur, 3) == None;
    hide Translate, TableOf;
    assert InFrame(3, Offset(a)) == a && InFrame(3, Offset(a + 1)) == a + 1 && InFrame(3, Offset(a + 2)) == a + 2;
  }

  lemma NothingLoaded(t: Phys, r: Range)
    ensures Load(t, r.dir, r.start, 0, r.via) == []
  {
  }
}

/** Doubly linked lists threaded through the TCB table, as facts about the
    table's contents.  Links are tids; tid 0 is null. */
module TcbLists {
  import opened AddressSpace
  import opened KernelState
  import opened KernelInvariant

  datatype List = List(head: Tid, tail: Tid)

  datatype Tcb = Tcb(thread: Thread, prev: Tid, next: Tid, senderQ: List, receiverQ: List)

  /** Everything that holds links: the TCB table and the global list heads;
      and the heads of lists that are no longer stored anywhere. */
  datatype Table = Table(tcb: seq<Tcb>, run: seq<List>, paused: List, zombie: List, lost: seq<List>)

  function NodeAt(s: seq<Tid>, i: int): Tid {
    if 0 <= i < |s| then s[i] else NULL_TID
  }

  predicate InTable(tcb: seq<Tcb>, s: seq<Tid>) {
    forall i | 0 <= i < |s| :: 0 < s[i] < |tcb|
  }

  /** `h` and the links of its threads spell out `s`, head first. */
  predicate Spells(tcb: seq<Tcb>, h: List, s: seq<Tid>) {
    && InTable(tcb, s)
    && NoDup(s)
    && h.head == NodeAt(s, 0) && h.tail == NodeAt(s, |s| - 1)
    && forall i {:trigger tcb[s[i]]} | 0 <= i < |s| ::
         tcb[s[i]].prev == NodeAt(s, i - 1) && tcb[s[i]].next == NodeAt(s, i + 1)
  }

  /** Links of the threads in `s` are the same in both tables. */
  predicate SameLinks(tcb: seq<Tcb>, tcb': seq<Tcb>, s: seq<Tid>) {
    && |tcb'| == |tcb|
    && forall i | 0 <= i < |s| && s[i] < |tcb| :: tcb'[s[i]].prev == tcb[s[i]].prev && tcb'[s[i]].next == tcb[s[i]].next
  }

  lemma SpellsFrame(tcb: seq<Tcb>, tcb': seq<Tcb>, h: List, s: seq<Tid>)
    requires Spells(tcb, h, s) && SameLinks(tcb, tcb', s)
    ensures Spells(tcb', h, s)
  {
  }

  lemma PushHead(tcb: seq<Tcb>, tcb': seq<Tcb>, h: List, s: seq<Tid>, t: Tid)
    requires Spells(tcb, h, s) && t !in s && 0 < t < |tcb| == |tcb'|
    requires tcb'[t].prev == NULL_TID && tcb'[t].next == h.head
    requires s != [] ==> tcb'[s[0]].prev == t && tcb'[s[0]].next == tcb[s[0]].next
    requires SameLinks(tcb, tcb', s[if s == [] then 0 else 1..])
    ensures Spells(tcb', List(t, if s == [] then t else h.tail), [t] + s)
  {
    var s' := [t] + s;
    forall i | 0 <= i < |s'|
      ensures tcb'[s'[i]].prev == NodeAt(s', i - 1) && tcb'[s'[i]].next == NodeAt(s', i + 1)
    {
      if i >= 2 { assert s[1..][i - 2] == s'[i]; }
    }
  }

  lemma PushTail(tcb: seq<Tcb>, tcb': seq<Tcb>, h: List, s: seq<Tid>, t: Tid)
    requires Spells(tcb, h, s) && t !in s && 0 < t < |tcb| == |tcb'|
    requires tcb'[t].next == NULL_TID && tcb'[t].prev == h.tail
    requires s != [] ==> tcb'[s[|s| - 1]].next == t && tcb'[s[|s| - 1]].prev == tcb[s[|s| - 1]].prev
    requires SameLinks(tcb, tcb', s[..if s == [] then 0 else |s| - 1])
    ensures Spells(tcb', List(if s == [] then t else h.head, t), s + [t])
  {
    var s' := s + [t];
    forall i | 0 <= i < |s'|
      ensures tcb'[s'[i]].prev == NodeAt(s', i - 1) && tcb'[s'[i]].next == NodeAt(s', i + 1)
    {
      if i < |s| - 1 { assert s[..|s| - 1][i] == s'[i]; }
    }
  }

  function Delete(s: seq<Tid>, j: nat): seq<Tid>
    requires j < |s|
  {
    s[..j] + s[j + 1..]
  }

  lemma DeleteNode(s: seq<Tid>, j: nat, i: int)
    requires j < |s| && -1 <= i < |s|
    ensures NodeAt(Delete(s, j), i) == NodeAt(s, if i < j then i else i + 1)
  {
  }

  lemma DeleteShape(s: seq<Tid>, j: nat)
    requires j < |s| && NoDup(s)
    ensures NoDup(Delete(s, j)) && |Delete(s, j)| == |s| - 1
  {
  }

  /** The links of `s[i]`, once the thread at position `j` is cut out. */
  predicate CutLinksOf(tcb: seq<Tcb>, tcb': seq<Tcb>, s: seq<Tid>, j: nat, i: nat)
    requires j < |s| && i < |s| && InTable(tcb, s) && |tcb'| == |tcb|
  {
    && tcb'[s[i]].prev == (if i == j + 1 then tcb[s[j]].prev else tcb[s[i]].prev)
    && tcb'[s[i]].next == (if i == j - 1 then tcb[s[j]].next else tcb[s[i]].next)
  }

  /** The links of `s[i]` are those of a list. */
  predicate LinkedAt(tcb: seq<Tcb>, s: seq<Tid>, i: nat)
    requires i < |s| && InTable(tcb, s)
  {
    tcb[s[i]].prev == NodeAt(s, i - 1) && tcb[s[i]].next == NodeAt(s, i + 1)
  }

  lemma SpellsAt(tcb: seq<Tcb>, h: List, s: seq<Tid>, i: nat)
    requires Spells(tcb, h, s) && i < |s|
    ensures LinkedAt(tcb, s, i)
  {
  }

  lemma SpellsHeads(tcb: seq<Tcb>, h: List, s: seq<Tid>)
    requires Spells(tcb, h, s)
    ensures InTable(tcb, s) && NoDup(s) && h.head == NodeAt(s, 0) && h.tail == NodeAt(s, |s| - 1)
  {
  }

  lemma MakeSpells(tcb: seq<Tcb>, h: List, s: seq<Tid>)
    requires InTable(tcb, s) && NoDup(s) && h.head == NodeAt(s, 0) && h.tail == NodeAt(s, |s| - 1)
    requires forall i: nat | i < |s| :: LinkedAt(tcb, s, i)
    ensures Spells(tcb, h, s)
  {
    hide NoDup;
    forall i: nat | i < |s|
      ensures tcb[s[i]].prev == NodeAt(s, i - 1) && tcb[s[i]].next == NodeAt(s, i + 1)
    {
      assert LinkedAt(tcb, s, i);
    }
  }

  lemma DeleteInTable(tcb: seq<Tcb>, s: seq<Tid>, j: nat)
    requires InTable(tcb, s) && j < |s|
    ensures InTable(tcb, Delete(s, j)) && |Delete(s, j)| == |s| - 1
    ensures forall i: nat | i < |s| - 1 :: Delete(s, j)[i] == s[if i < j then i else i + 1]
  {
  }

  lemma CutAt(tcb: seq<Tcb>, tcb': seq<Tcb>, h: List, s: seq<Tid>, j: nat, i: nat)
    requires Spells(tcb, h, s) && j < |s| && i < |s| - 1 && |tcb'| == |tcb|
             && CutLinksOf(tcb, tcb', s, j, if i < j then i else i + 1)
    ensures InTable(tcb', Delete(s, j)) && |Delete(s, j)| == |s| - 1 && LinkedAt(tcb', Delete(s, j), i)
  {
    SpellsHeads(tcb, h, s);
    hide Spells, Delete, NodeAt, NoDup;
    DeleteInTable(tcb', s, j);
    SpellsAt(tcb, h, s, if i < j then i else i + 1);
    SpellsAt(tcb, h, s, j);
    DeleteNode(s, j, i - 1);
    DeleteNode(s, j, i + 1);
  }

  /** The thread at position `j` cut out. */
  lemma Cut(tcb: seq<Tcb>, tcb': seq<Tcb>, h: List, s: seq<Tid>, j: nat)
    requires Spells(tcb, h, s) && j < |s| && |tcb'| == |tcb|
    requires forall i: nat | i < |s| && i != j :: CutLinksOf(tcb, tcb', s, j, i)
    ensures Spells(tcb',
            List(if j == 0 then tcb[s[j]].next else h.head, if j == |s| - 1 then tcb[s[j]].prev else h.tail),
                Delete(s, j))
  {
    SpellsHeads(tcb, h, s);
    hide Spells, NoDup, Delete, CutLinksOf, NodeAt;
    var h' := List(if j == 0 then tcb[s[j]].next else h.head, if j == |s| - 1 then tcb[s[j]].prev else h.tail);
    SpellsAt(tcb, h, s, j);
    DeleteShape(s, j);
    DeleteInTable(tcb', s, j);
    DeleteNode(s, j, 0);
    DeleteNode(s, j, |s| - 2);
    forall i: nat | i < |s| - 1
      ensures LinkedAt(tcb', Delete(s, j), i)
    {
      CutAt(tcb, tcb', h, s, j, i);
    }
    hide LinkedAt;
    MakeSpells(tcb', h', Delete(s, j));
  }

  predicate IsList(tb: Table, l: ListId) {
    match l
    case RunQ(p) => p < |tb.run|
    case PausedQ => true
    case ZombieQ => true
    case SendQ(t) => t < |tb.tcb|
    case RecvQ(t) => t < |tb.tcb|
    case Lost(i) => i < |tb.lost|
  }

  function HeadOf(tb: Table, l: ListId): List
    requires IsList(tb, l)
  {
    match l
    case RunQ(p) => tb.run[p]
    case PausedQ => tb.paused
    case ZombieQ => tb.zombie
    case SendQ(t) => tb.tcb[t].senderQ
    case RecvQ(t) => tb.tcb[t].receiverQ
    case Lost(i) => tb.lost[i]
  }

  ghost predicate Unlisted(k: Kernel, t: Tid) {
    forall l: ListId :: t !in Q(k, l)
  }

  predicate NullLinks(x: Tcb) {
    x.prev == NULL_TID && x.next == NULL_TID
  }

  /** The table holds exactly the lists of `k`: each is well linked, no thread
      is on two, and a thread on none has null links. */
  ghost predicate HoldsLists(tb: Table, k: Kernel) {
    && (forall l: ListId | !IsList(tb, l) :: Q(k, l) == [])
    && (forall l: ListId | IsList(tb, l) :: Spells(tb.tcb, HeadOf(tb, l), Q(k, l)))
    && (forall t: Tid, l: ListId, m: ListId {:trigger t in Q(k, l), t in Q(k, m)} | t in Q(k, l) && t in Q(k, m) ::
         l == m)
    && (forall t: Tid | 0 < t < |tb.tcb| && Unlisted(k, t) :: NullLinks(tb.tcb[t]))
  }

  ghost predicate HoldsThreads(tb: Table, k: Kernel) {
    && 0 < |tb.tcb| == |k.threads| <= 0x1_0000
    && |tb.run| == MAX_PRIORITY + 1
    && forall i | 0 <= i < |tb.tcb| :: tb.tcb[i].thread == k.threads[i]
  }

  ghost predicate Holds(tb: Table, k: Kernel) {
    HoldsThreads(tb, k) && HoldsLists(tb, k)
  }

  /** `x` has the same links in both tables. */
  predicate Untouched(tb: Table, tb': Table, x: int)
    requires 0 <= x < |tb.tcb| == |tb'.tcb|
  {
    tb'.tcb[x].prev == tb.tcb[x].prev && tb'.tcb[x].next == tb.tcb[x].next
  }

  /** One list rewritten from its old threads, and perhaps one that was on no
      list, leaves every other list of the shared table as it was. */
  lemma Rewritten(tb: Table, tb': Table, k: Kernel, l: ListId, s: seq<Tid>)
    requires Holds(tb, k) && |tb'.tcb| == |tb.tcb| && |tb'.run| == |tb.run| && |tb'.lost| == |tb.lost| && IsList(tb, l)
    requires Spells(tb'.tcb, HeadOf(tb', l), s)
    requires forall m: ListId | IsList(tb, m) && m != l :: HeadOf(tb', m) == HeadOf(tb, m)
    requires forall x: Tid | 0 < x < |tb.tcb| && x !in Q(k, l) && x !in s :: Untouched(tb, tb', x)
    requires forall x: Tid | x in Q(k, l) && x !in s :: NullLinks(tb'.tcb[x])
    requires forall x: Tid | x in s :: x in Q(k, l) || Unlisted(k, x)
    requires forall i | 0 <= i < |tb.tcb| :: tb'.tcb[i].thread == tb.tcb[i].thread
    ensures Holds(tb', k.(q := k.q[l := s]))
  {
    var k' := k.(q := k.q[l := s]);
    assert Q(k', l) == s;
    assert forall m: ListId | m != l :: Q(k', m) == Q(k, m);
    assert forall m: ListId :: IsList(tb', m) <==> IsList(tb, m);
    hide Spells, HeadOf, IsList, NoDup;
    StillDisjoint(tb, k, l, s);
    forall m: ListId | IsList(tb', m) && m != l
      ensures Spells(tb'.tcb, HeadOf(tb', m), Q(k', m))
    {
      assert IsList(tb, m);
      OtherSpells(tb, tb', k, l, s, m);
    }
    forall t: Tid | 0 < t < |tb'.tcb| && Unlisted(k', t)
      ensures NullLinks(tb'.tcb[t])
    {
      assert t !in Q(k', l);
      if t !in Q(k, l) {
        OnNoList(k, k', l, t);
        assert Untouched(tb, tb', t);
      }
    }
  }

  lemma StillDisjoint(tb: Table, k: Kernel, l: ListId, s: seq<Tid>)
    requires HoldsLists(tb, k) && forall x: Tid | x in s :: x in Q(k, l) || Unlisted(k, x)
    ensures var k' := k.(q := k.q[l := s]);
            forall t: Tid, m: ListId, n: ListId {:trigger t in Q(k', m), t in Q(k', n)} |
              t in Q(k', m) && t in Q(k', n) :: m == n
  {
    hide Spells, HeadOf;
    var k' := k.(q := k.q[l := s]);
    assert Q(k', l) == s && forall m: ListId | m != l :: Q(k', m) == Q(k, m);
    assert forall x: Tid, m: ListId {:trigger x in Q(k', m)} | x in s && m != l :: x !in Q(k', m);
  }

  lemma OnNoList(k: Kernel, k': Kernel, l: ListId, t: Tid)
    requires Unlisted(k', t) && t !in Q(k, l) && forall m: ListId | m != l :: Q(k', m) == Q(k, m)
    ensures Unlisted(k, t)
  {
    forall m: ListId
      ensures t !in Q(k, m)
    {
      assert t !in Q(k', m);
    }
  }

  lemma OtherSpells(tb: Table, tb': Table, k: Kernel, l: ListId, s: seq<Tid>, m: ListId)
    requires HoldsLists(tb, k) && |tb'.tcb| == |tb.tcb| && IsList(tb, m) && m != l
    requires forall x: Tid | 0 < x < |tb.tcb| && x !in Q(k, l) && x !in s :: Untouched(tb, tb', x)
    requires forall x: Tid | x in s :: x in Q(k, l) || Unlisted(k, x)
    ensures Spells(tb'.tcb, HeadOf(tb, m), Q(k, m))
  {
    assert Spells(tb.tcb, HeadOf(tb, m), Q(k, m));
    SpellsHeads(tb.tcb, HeadOf(tb, m), Q(k, m));
    hide Spells, HeadOf, NoDup;
    forall i | 0 <= i < |Q(k, m)|
      ensures Untouched(tb, tb', Q(k, m)[i])
    {
      assert Q(k, m)[i] in Q(k, m);
    }
    SpellsFrame(tb.tcb, tb'.tcb, HeadOf(tb, m), Q(k, m));
  }

  /** Same table apart from links and the head of list `l`. */
  ghost predicate OnlyLinks(tb: Table, tb': Table, l: ListId) {
    && |tb'.tcb| == |tb.tcb| && |tb'.run| == |tb.run| && |tb'.lost| == |tb.lost| && IsList(tb, l)
    && (forall m: ListId | IsList(tb, m) && m != l :: HeadOf(tb', m) == HeadOf(tb, m))
    && (forall i | 0 <= i < |tb.tcb| :: tb'.tcb[i].thread == tb.tcb[i].thread)
  }

  lemma OnlyLinksChain(tb: Table, tb1: Table, tb2: Table, l: ListId)
    requires OnlyLinks(tb, tb1, l) && OnlyLinks(tb1, tb2, l)
    ensures OnlyLinks(tb, tb2, l)
  {
    assert forall m: ListId | IsList(tb, m) :: IsList(tb1, m);
  }

  lemma InsertedAtHead(tb: Table, tb': Table, k: Kernel, l: ListId, t: Tid)
    requires Holds(tb, k) && 0 < t < |tb.tcb| && Unlisted(k, t) && OnlyLinks(tb, tb', l)
    requires var h := HeadOf(tb, l);
             && HeadOf(tb', l) == List(t, if h.head == NULL_TID then t else h.tail)
             && tb'.tcb[t].prev == NULL_TID && tb'.tcb[t].next == h.head
             && (0 < h.head < |tb.tcb| ==> tb'.tcb[h.head].prev == t && tb'.tcb[h.head].next == tb.tcb[h.head].next)
             && (forall x | 0 <= x < |tb.tcb| && x != t && x != h.head :: Untouched(tb, tb', x))
    ensures Holds(tb', k.(q := k.q[l := [t] + Q(k, l)]))
  {
    var h, s := HeadOf(tb, l), Q(k, l);
    assert Spells(tb.tcb, h, s);
    assert t !in s;
    assert SameLinks(tb.tcb, tb'.tcb, s[if s == [] then 0 else 1..]) by {
      forall i | 0 < i < |s|
        ensures Untouched(tb, tb', s[i])
      {
        assert s[i] in s && s[i] != s[0];
      }
    }
    PushHead(tb.tcb, tb'.tcb, h, s, t);
    assert h.head == NULL_TID || h.head in s;
    Rewritten(tb, tb', k, l, [t] + s);
  }

  lemma InsertedAtTail(tb: Table, tb': Table, k: Kernel, l: ListId, t: Tid)
    requires Holds(tb, k) && 0 < t < |tb.tcb| && Unlisted(k, t) && OnlyLinks(tb, tb', l)
    requires var h := HeadOf(tb, l);
             && HeadOf(tb', l) == List(if h.tail == NULL_TID then t else h.head, t)
             && tb'.tcb[t].next == NULL_TID && tb'.tcb[t].prev == h.tail
             && (0 < h.tail < |tb.tcb| ==> tb'.tcb[h.tail].next == t && tb'.tcb[h.tail].prev == tb.tcb[h.tail].prev)
             && (forall x | 0 <= x < |tb.tcb| && x != t && x != h.tail :: Untouched(tb, tb', x))
    ensures Holds(tb', k.(q := k.q[l := Q(k, l) + [t]]))
  {
    var h, s := HeadOf(tb, l), Q(k, l);
    assert Spells(tb.tcb, h, s);
    assert t !in s;
    assert SameLinks(tb.tcb, tb'.tcb, s[..if s == [] then 0 else |s| - 1]) by {
      forall i | 0 <= i < |s| - 1
        ensures Untouched(tb, tb', s[i])
      {
        assert s[i] in s && s[i] != s[|s| - 1];
      }
    }
    PushTail(tb.tcb, tb'.tcb, h, s, t);
    assert h.tail == NULL_TID || h.tail in s;
    Rewritten(tb, tb', k, l, s + [t]);
  }

  lemma {:induction false} WithoutIsDelete(s: seq<Tid>, j: nat)
    requires j < |s| && NoDup(s)
    ensures Without(s, s[j]) == Delete(s, j)
  {
    if j > 0 {
      assert NoDup(s[1..]) && s[0] != s[j];
      hide NoDup;
      WithoutIsDelete(s[1..], j - 1);
      assert s[1..][j - 1] == s[j];
      assert Delete(s, j) == [s[0]] + Delete(s[1..], j - 1);
    } else {
      assert Delete(s, 0) == s[1..];
    }
  }

  /** The head of a list once `t`, with neighbours `p` and `n`, has left it. */
  function HeadAfter(h: List, t: Tid, p: Tid, n: Tid): List {
    List(if h.head == t then n else h.head, if h.tail == t then p else h.tail)
  }

  /** The neighbours of `t` joined; all other links of threads as they were. */
  predicate JoinedLinksOf(tcb: seq<Tcb>, tcb': seq<Tcb>, t: Tid)
    requires t < |tcb| == |tcb'|
  {
    forall x | 0 < x < |tcb| && x != t ::
      && tcb'[x].prev == (if x == tcb[t].next then tcb[t].prev else tcb[x].prev)
      && tcb'[x].next == (if x == tcb[t].prev then tcb[t].next else tcb[x].next)
  }

  lemma CutLinks(tcb: seq<Tcb>, tcb': seq<Tcb>, h: List, s: seq<Tid>, j: nat)
    requires Spells(tcb, h, s) && j < |s| && |tcb'| == |tcb| && JoinedLinksOf(tcb, tcb', s[j])
    ensures Spells(tcb', HeadAfter(h, s[j], tcb[s[j]].prev, tcb[s[j]].next), Delete(s, j))
  {
    var t := s[j];
    assert tcb[s[j]].prev == NodeAt(s, j - 1) && tcb[s[j]].next == NodeAt(s, j + 1);
    forall i: nat | i < |s| && i != j
      ensures CutLinksOf(tcb, tcb', s, j, i)
    {
      assert 0 < s[i] && s[i] != t;
    }
    Cut(tcb, tcb', h, s, j);
    assert h.head == t <==> j == 0;
    assert h.tail == t <==> j == |s| - 1;
  }

  /** A linked thread, with its neighbours joined and its own links nulled. */
  lemma CutOut(tb: Table, tb': Table, k: Kernel, l: ListId, j: nat)
    requires Holds(tb, k) && OnlyLinks(tb, tb', l) && j < |Q(k, l)| && 0 < Q(k, l)[j] < |tb.tcb|
    requires var t := Q(k, l)[j];
             && HeadOf(tb', l) == HeadAfter(HeadOf(tb, l), t, tb.tcb[t].prev, tb.tcb[t].next)
             && NullLinks(tb'.tcb[t]) && JoinedLinksOf(tb.tcb, tb'.tcb, t)
    ensures Holds(tb', k.(q := k.q[l := Delete(Q(k, l), j)]))
  {
    var s := Q(k, l);
    assert Spells(tb.tcb, HeadOf(tb, l), s);
    CutLinks(tb.tcb, tb'.tcb, HeadOf(tb, l), s, j);
    DeleteMembers(s, j);
    forall x: Tid | 0 < x < |tb.tcb| && x !in s
      ensures Untouched(tb, tb', x)
    {
      NeighboursListed(tb.tcb, HeadOf(tb, l), s, j);
    }
    Rewritten(tb, tb', k, l, Delete(s, j));
  }

  lemma NeighboursListed(tcb: seq<Tcb>, h: List, s: seq<Tid>, j: nat)
    requires Spells(tcb, h, s) && j < |s|
    ensures tcb[s[j]].prev == NULL_TID || tcb[s[j]].prev in s
    ensures tcb[s[j]].next == NULL_TID || tcb[s[j]].next in s
  {
    assert tcb[s[j]].prev == NodeAt(s, j - 1);
  }

  lemma DeleteMembers(s: seq<Tid>, j: nat)
    requires j < |s| && NoDup(s)
    ensures forall x :: x in Delete(s, j) <==> x in s && x != s[j]
  {
    WithoutMembers(s, s[j]);
    WithoutIsDelete(s, j);
  }

  // ---------- single field writes ----------

  function WithPrev(tb: Table, t: Tid, x: Tid): (r: Table)
    requires t < |tb.tcb|
    ensures |r.tcb| == |tb.tcb| && |r.run| == |tb.run| && |r.lost| == |tb.lost|
  {
    tb.(tcb := tb.tcb[t := tb.tcb[t].(prev := x)])
  }

  function WithNext(tb: Table, t: Tid, x: Tid): (r: Table)
    requires t < |tb.tcb|
    ensures |r.tcb| == |tb.tcb| && |r.run| == |tb.run| && |r.lost| == |tb.lost|
  {
    tb.(tcb := tb.tcb[t := tb.tcb[t].(next := x)])
  }

  function WithHead(tb: Table, l: ListId, h: List): (r: Table)
    requires IsList(tb, l)
    ensures |r.tcb| == |tb.tcb| && |r.run| == |tb.run| && |r.lost| == |tb.lost|
  {
    match l
    case RunQ(p) => tb.(run := tb.run[p := h])
    case PausedQ => tb.(paused := h)
    case ZombieQ => tb.(zombie := h)
    case SendQ(t) => tb.(tcb := tb.tcb[t := tb.tcb[t].(senderQ := h)])
    case RecvQ(t) => tb.(tcb := tb.tcb[t := tb.tcb[t].(receiverQ := h)])
    case Lost(i) => tb.(lost := tb.lost[i := h])
  }

  lemma HeadWritten(tb: Table, l: ListId, h: List)
    requires IsList(tb, l)
    ensures var tb' := WithHead(tb, l, h);
            && OnlyLinks(tb, tb', l) && HeadOf(tb', l) == h
            && forall x | 0 <= x < |tb.tcb| :: Untouched(tb, tb', x)
  {
  }

  lemma LinksWritten(tb: Table, l: ListId, t: Tid, x: Tid)
    requires IsList(tb, l) && t < |tb.tcb|
    ensures OnlyLinks(tb, WithPrev(tb, t, x), l) && HeadOf(WithPrev(tb, t, x), l) == HeadOf(tb, l)
    ensures OnlyLinks(tb, WithNext(tb, t, x), l) && HeadOf(WithNext(tb, t, x), l) == HeadOf(tb, l)
  {
  }

  /** The writes of `list_insert_at_end` on an empty list, at the tail and at the head. */
  lemma WritesInsertFirst(tb: Table, k: Kernel, l: ListId, t: Tid)
    requires Holds(tb, k) && IsList(tb, l) && 0 < t < |tb.tcb| && Unlisted(k, t)
             && HeadOf(tb, l) == List(NULL_TID, NULL_TID)
    ensures Q(k, l) == []
    ensures Holds(WithPrev(WithNext(WithHead(tb, l, List(t, t)), t, NULL_TID), t, NULL_TID), k.(q := k.q[l := [t]]))
  {
    assert Spells(tb.tcb, HeadOf(tb, l), Q(k, l));
    assert Q(k, l) == [] && [t] + Q(k, l) == [t];
    hide Holds, OnlyLinks, HeadOf, WithHead;
    var tb1 := WithHead(tb, l, List(t, t));
    var tb2 := WithNext(tb1, t, NULL_TID);
    var tb3 := WithPrev(tb2, t, NULL_TID);
    HeadWritten(tb, l, List(t, t));
    LinksWritten(tb1, l, t, NULL_TID);
    LinksWritten(tb2, l, t, NULL_TID);
    OnlyLinksChain(tb, tb1, tb2, l);
    OnlyLinksChain(tb, tb2, tb3, l);
    InsertedAtHead(tb, tb3, k, l, t);
  }

  /** Only the links of two threads differ. */
  ghost predicate OthersUntouched(tb: Table, tb': Table, t: Tid, u: Tid) {
    |tb'.tcb| == |tb.tcb| && forall x | 0 <= x < |tb.tcb| && x != t && x != u :: Untouched(tb, tb', x)
  }

  lemma LinksKept(tb: Table, tb': Table, tb2: Table, t: Tid, u: Tid)
    requires OthersUntouched(tb, tb', t, u) && |tb2.tcb| == |tb'.tcb| && t < |tb.tcb| && u < |tb.tcb|
    requires forall x | 0 <= x < |tb'.tcb| :: Untouched(tb', tb2, x)
    ensures OthersUntouched(tb, tb2, t, u) && Untouched(tb', tb2, t) && Untouched(tb', tb2, u)
  {
    forall x | 0 <= x < |tb.tcb| && x != t && x != u
      ensures Untouched(tb, tb2, x)
    {
      assert Untouched(tb, tb', x) && Untouched(tb', tb2, x);
    }
  }

  lemma TailLinks(tb: Table, t: Tid, u: Tid)
    requires t < |tb.tcb| && u < |tb.tcb| && t != u
    ensures var tb' := WithPrev(WithNext(WithNext(tb, t, NULL_TID), u, t), t, u);
            && OthersUntouched(tb, tb', t, u)
            && tb'.tcb[t].next == NULL_TID && tb'.tcb[t].prev == u
            && tb'.tcb[u].next == t && tb'.tcb[u].prev == tb.tcb[u].prev
  {
  }

  lemma HeadLinks(tb: Table, t: Tid, u: Tid)
    requires t < |tb.tcb| && u < |tb.tcb| && t != u
    ensures var tb' := WithNext(WithPrev(WithPrev(tb, t, NULL_TID), u, t), t, u);
            && OthersUntouched(tb, tb', t, u)
            && tb'.tcb[t].prev == NULL_TID && tb'.tcb[t].next == u
            && tb'.tcb[u].prev == t && tb'.tcb[u].next == tb.tcb[u].next
  {
  }

  lemma WritesInsertTail(tb: Table, k: Kernel, l: ListId, t: Tid)
    requires Holds(tb, k) && IsList(tb, l) && 0 < t < |tb.tcb| && Unlisted(k, t)
             && HeadOf(tb, l) != List(NULL_TID, NULL_TID)
    ensures 0 < HeadOf(tb, l).tail < |tb.tcb|
    ensures var h := HeadOf(tb, l);
            Holds(WithHead(WithPrev(WithNext(WithNext(tb, t, NULL_TID), h.tail, t), t, h.tail), l, List(h.head, t)),
                k.(q := k.q[l := Q(k, l) + [t]]))
  {
    var h, s := HeadOf(tb, l), Q(k, l);
    assert Spells(tb.tcb, h, s);
    assert s != [] && h.tail in s;
    hide Holds, OnlyLinks, HeadOf, WithHead, Spells, WithNext, WithPrev;
    var tb1 := WithNext(tb, t, NULL_TID);
    var tb2 := WithNext(tb1, h.tail, t);
    var tb3 := WithPrev(tb2, t, h.tail);
    TailLinks(tb, t, h.tail);
    LinksWritten(tb, l, t, NULL_TID);
    LinksWritten(tb1, l, h.tail, t);
    LinksWritten(tb2, l, t, h.tail);
    HeadWritten(tb3, l, List(h.head, t));
    OnlyLinksChain(tb, tb1, tb2, l);
    OnlyLinksChain(tb, tb2, tb3, l);
    OnlyLinksChain(tb, tb3, WithHead(tb3, l, List(h.head, t)), l);
    LinksKept(tb, tb3, WithHead(tb3, l, List(h.head, t)), t, h.tail);
    InsertedAtTail(tb, WithHead(tb3, l, List(h.head, t)), k, l, t);
  }

  lemma WritesInsertHead(tb: Table, k: Kernel, l: ListId, t: Tid)
    requires Holds(tb, k) && IsList(tb, l) && 0 < t < |tb.tcb| && Unlisted(k, t)
             && HeadOf(tb, l) != List(NULL_TID, NULL_TID)
    ensures 0 < HeadOf(tb, l).head < |tb.tcb|
    ensures var h := HeadOf(tb, l);
            Holds(WithHead(WithNext(WithPrev(WithPrev(tb, t, NULL_TID), h.head, t), t, h.head), l, List(t, h.tail)),
                k.(q := k.q[l := [t] + Q(k, l)]))
  {
    var h, s := HeadOf(tb, l), Q(k, l);
    assert Spells(tb.tcb, h, s);
    assert s != [] && h.head in s;
    hide Holds, OnlyLinks, HeadOf, WithHead, Spells, WithNext, WithPrev;
    var tb1 := WithPrev(tb, t, NULL_TID);
    var tb2 := WithPrev(tb1, h.head, t);
    var tb3 := WithNext(tb2, t, h.head);
    HeadLinks(tb, t, h.head);
    LinksWritten(tb, l, t, NULL_TID);
    LinksWritten(tb1, l, h.head, t);
    LinksWritten(tb2, l, t, h.head);
    HeadWritten(tb3, l, List(t, h.tail));
    OnlyLinksChain(tb, tb1, tb2, l);
    OnlyLinksChain(tb, tb2, tb3, l);
    OnlyLinksChain(tb, tb3, WithHead(tb3, l, List(t, h.tail)), l);
    LinksKept(tb, tb3, WithHead(tb3, l, List(t, h.tail)), t, h.head);
    InsertedAtHead(tb, WithHead(tb3, l, List(t, h.tail)), k, l, t);
  }

  function JoinedAround(tb: Table, p: Tid, n: Tid): (r: Table)
    requires p < |tb.tcb| && n < |tb.tcb|
    ensures |r.tcb| == |tb.tcb| && |r.run| == |tb.run| && |r.lost| == |tb.lost|
  {
    var tb1 := if n == NULL_TID then tb else WithPrev(tb, n, p);
    if p == NULL_TID then tb1 else WithNext(tb1, p, n)
  }

  function Nulled(tb: Table, t: Tid): (r: Table)
    requires t < |tb.tcb|
    ensures |r.tcb| == |tb.tcb| && |r.run| == |tb.run| && |r.lost| == |tb.lost|
  {
    WithNext(WithPrev(tb, t, NULL_TID), t, NULL_TID)
  }

  lemma JoinedLinks(tb: Table, l: ListId, p: Tid, n: Tid)
    requires IsList(tb, l) && p < |tb.tcb| && n < |tb.tcb|
    ensures var tb' := JoinedAround(tb, p, n);
            && OnlyLinks(tb, tb', l) && HeadOf(tb', l) == HeadOf(tb, l)
            && forall x | 0 < x < |tb.tcb| ::
                 && tb'.tcb[x].prev == (if x == n then p else tb.tcb[x].prev)
                 && tb'.tcb[x].next == (if x == p then n else tb.tcb[x].next)
  {
    hide OnlyLinks, HeadOf;
    var tb1 := if n == NULL_TID then tb else WithPrev(tb, n, p);
    LinksWritten(tb, l, n, p);
    OnlyLinksSame(tb, l);
    LinksWritten(tb1, l, p, n);
    OnlyLinksSame(tb1, l);
    OnlyLinksChain(tb, tb1, JoinedAround(tb, p, n), l);
  }

  lemma OnlyLinksSame(tb: Table, l: ListId)
    requires IsList(tb, l)
    ensures OnlyLinks(tb, tb, l)
  {
  }

  lemma NeighboursInTable(tb: Table, k: Kernel, l: ListId, t: Tid)
    requires Holds(tb, k) && IsList(tb, l) && 0 < t < |tb.tcb| && (t in Q(k, l) || Unlisted(k, t))
    ensures tb.tcb[t].prev < |tb.tcb| && tb.tcb[t].next < |tb.tcb|
    ensures t in Q(k, l) <==> HeadOf(tb, l).head == t || tb.tcb[t].prev != NULL_TID
    ensures t in Q(k, l) <==> HeadOf(tb, l).tail == t || tb.tcb[t].next != NULL_TID
  {
    var s := Q(k, l);
    assert Spells(tb.tcb, HeadOf(tb, l), s);
    if t in s {
      var j :| 0 <= j < |s| && s[j] == t;
      assert tb.tcb[s[j]].prev == NodeAt(s, j - 1);
    } else {
      assert NodeAt(s, 0) != t && NodeAt(s, |s| - 1) != t;
    }
  }

  /** The writes of `list_remove`: neighbours first, then the list head. */
  lemma WritesRemove(tb: Table, k: Kernel, l: ListId, j: nat, t: Tid)
    requires Holds(tb, k) && IsList(tb, l) && j < |Q(k, l)| && Q(k, l)[j] == t && 0 < t < |tb.tcb|
    requires tb.tcb[t].prev < |tb.tcb| && tb.tcb[t].next < |tb.tcb|
    ensures var p, n := tb.tcb[t].prev, tb.tcb[t].next;
            Holds(Nulled(WithHead(JoinedAround(tb, p, n), l, HeadAfter(HeadOf(tb, l), t, p, n)), t),
                k.(q := k.q[l := Delete(Q(k, l), j)]))
  {
    hide Holds, OnlyLinks, HeadOf, JoinedAround, WithHead, Nulled, Delete;
    var p, n := tb.tcb[t].prev, tb.tcb[t].next;
    var h := HeadAfter(HeadOf(tb, l), t, p, n);
    var tb1 := JoinedAround(tb, p, n);
    JoinedLinks(tb, l, p, n);
    var tb2 := WithHead(tb1, l, h);
    HeadWritten(tb1, l, h);
    OnlyLinksChain(tb, tb1, tb2, l);
    NulledLinks(tb2, l, t);
    OnlyLinksChain(tb, tb2, Nulled(tb2, t), l);
    forall x | 0 < x < |tb.tcb| && x != t
      ensures Nulled(tb2, t).tcb[x].prev == (if x == n then p else tb.tcb[x].prev)
      ensures Nulled(tb2, t).tcb[x].next == (if x == p then n else tb.tcb[x].next)
    {
      assert Untouched(tb1, tb2, x) && Untouched(tb2, Nulled(tb2, t), x);
      assert tb1.tcb[x].prev == if x == n then p else tb.tcb[x].prev;
    }
    assert JoinedLinksOf(tb.tcb, Nulled(tb2, t).tcb, t);
    CutOut(tb, Nulled(tb2, t), k, l, j);
  }

  /** A list head and the links of other threads are different fields. */
  lemma HeadAndLinksCommute(tb: Table, l: ListId, h: List, p: Tid, n: Tid)
    requires IsList(tb, l) && p < |tb.tcb| && n < |tb.tcb|
    ensures JoinedAround(WithHead(tb, l, h), p, n) == WithHead(JoinedAround(tb, p, n), l, h)
  {
    var tb1, tb2 := JoinedAround(WithHead(tb, l, h), p, n), WithHead(JoinedAround(tb, p, n), l, h);
    assert tb1.tcb == tb2.tcb;
  }

  lemma NulledLinks(tb: Table, l: ListId, t: Tid)
    requires IsList(tb, l) && t < |tb.tcb|
    ensures var tb' := Nulled(tb, t);
            && OnlyLinks(tb, tb', l) && HeadOf(tb', l) == HeadOf(tb, l) && NullLinks(tb'.tcb[t])
            && forall x | 0 <= x < |tb.tcb| && x != t :: Untouched(tb, tb', x)
  {
    LinksWritten(tb, l, t, NULL_TID);
    LinksWritten(WithPrev(tb, t, NULL_TID), l, t, NULL_TID);
  }

  // ---------- writes that leave every list alone ----------

  lemma ThreadWritten(tb: Table, k: Kernel, t: Tid, th: Thread)
    requires Holds(tb, k) && t < |tb.tcb|
    ensures Holds(tb.(tcb := tb.tcb[t := tb.tcb[t].(thread := th)]), Put(k, t, th))
  {
    var tb', k' := tb.(tcb := tb.tcb[t := tb.tcb[t].(thread := th)]), Put(k, t, th);
    SameListsHold(tb, tb', k, k');
  }

  lemma SameListsHold(tb: Table, tb': Table, k: Kernel, k': Kernel)
    requires HoldsLists(tb, k) && |tb'.tcb| == |tb.tcb| && |tb'.run| == |tb.run| && |tb'.lost| == |tb.lost|
    requires forall l: ListId :: Q(k', l) == Q(k, l)
    requires forall l: ListId | IsList(tb, l) :: HeadOf(tb', l) == HeadOf(tb, l)
    requires forall x | 0 <= x < |tb.tcb| :: Untouched(tb, tb', x)
    ensures HoldsLists(tb', k')
  {
    hide Spells;
    forall l: ListId | IsList(tb', l)
      ensures Spells(tb'.tcb, HeadOf(tb', l), Q(k', l))
    {
      assert IsList(tb, l);
      assert forall i | 0 <= i < |Q(k, l)| && Q(k, l)[i] < |tb.tcb| :: Untouched(tb, tb', Q(k, l)[i]);
      SpellsFrame(tb.tcb, tb'.tcb, HeadOf(tb, l), Q(k, l));
    }
    forall t: Tid | 0 < t < |tb'.tcb| && Unlisted(k', t)
      ensures NullLinks(tb'.tcb[t])
    {
      assert Unlisted(k, t) by {
        forall l: ListId
          ensures t !in Q(k, l)
        {
          assert t !in Q(k', l);
        }
      }
      assert Untouched(tb, tb', t);
    }
  }

  lemma SlotsAndMemoryApart(tb: Table, k: Kernel, cpu: seq<Tid>, mem: Phys)
    requires Holds(tb, k)
    ensures Holds(tb, k.(cpu := cpu, mem := mem))
  {
    SameListsHold(tb, tb, k, k.(cpu := cpu, mem := mem));
  }

  /** The table once the TCB of `t` is zeroed: the heads of its two wait queues
      are gone. */
  function Zeroed(tb: Table, t: Tid, th: Thread): Table
    requires t < |tb.tcb|
  {
    var none := List(NULL_TID, NULL_TID);
    tb.(tcb := tb.tcb[t := Tcb(th, NULL_TID, NULL_TID, none, none)],
        lost := tb.lost + [tb.tcb[t].senderQ, tb.tcb[t].receiverQ])
  }

  /** Its two wait queues have become lists nobody holds the head of. */
  function Orphaned(tb: Table, k: Kernel, t: Tid, th: Thread): Kernel {
    var n := |tb.lost|;
    Put(k.(q := (k.q - {SendQ(t), RecvQ(t)})[Lost(n) := Q(k, SendQ(t))][Lost(n + 1) := Q(k, RecvQ(t))]), t, th)
  }

  /** Which list of `k` a list was before. */
  function Before(tb: Table, t: Tid, l: ListId): ListId {
    if l == Lost(|tb.lost|) then SendQ(t) else if l == Lost(|tb.lost| + 1) then RecvQ(t) else l
  }

  lemma OrphanedLists(tb: Table, k: Kernel, t: Tid, th: Thread, l: ListId)
    ensures Q(Orphaned(tb, k, t, th), l) == if l == SendQ(t) || l == RecvQ(t) then [] else Q(k, Before(tb, t, l))
  {
  }

  /** Zeroing the TCB of a thread on no list.  Threads queued on it stay linked
      to each other, and all links in the table stay well formed. */
  lemma TcbZeroed(tb: Table, k: Kernel, t: Tid, th: Thread)
    requires Holds(tb, k) && 0 < t < |tb.tcb| && Unlisted(k, t)
    ensures Holds(Zeroed(tb, t, th), Orphaned(tb, k, t, th))
  {
    var tb', k' := Zeroed(tb, t, th), Orphaned(tb, k, t, th);
    hide Spells, Orphaned, HeadOf, IsList, Zeroed;
    forall l: ListId
      ensures IsList(tb', l) ==> Spells(tb'.tcb, HeadOf(tb', l), Q(k', l))
      ensures !IsList(tb', l) ==> Q(k', l) == []
    {
      ZeroedSpells(tb, k, t, th, l);
    }
    forall x: Tid, l: ListId, m: ListId | x in Q(k', l) && x in Q(k', m)
      ensures l == m
    {
      OrphanedLists(tb, k, t, th, l);
      OrphanedLists(tb, k, t, th, m);
      assert Before(tb, t, l) == Before(tb, t, m);
    }
    forall x: Tid | 0 < x < |tb'.tcb| && Unlisted(k', x)
      ensures NullLinks(tb'.tcb[x])
    {
      StillUnlisted(tb, k, t, th, x);
      ZeroedLinks(tb, t, th, x);
    }
    assert HoldsThreads(tb', k') by { OrphanedThreads(tb, k, t, th); ZeroedThreads(tb, k, t, th); }
  }

  lemma ZeroedSpells(tb: Table, k: Kernel, t: Tid, th: Thread, l: ListId)
    requires HoldsLists(tb, k) && 0 < t < |tb.tcb| && Unlisted(k, t)
    ensures var tb', k' := Zeroed(tb, t, th), Orphaned(tb, k, t, th);
            if IsList(tb', l) then Spells(tb'.tcb, HeadOf(tb', l), Q(k', l)) else Q(k', l) == []
  {
    var tb', k' := Zeroed(tb, t, th), Orphaned(tb, k, t, th);
    hide Spells, Orphaned;
    OrphanedLists(tb, k, t, th, l);
    if l == SendQ(t) || l == RecvQ(t) {
      NoThreads(tb'.tcb);
    } else if IsList(tb', l) {
      var m := Before(tb, t, l);
      assert IsList(tb, m) && HeadOf(tb', l) == HeadOf(tb, m);
      NotTouched(tb, tb', k, t, m);
      SpellsFrame(tb.tcb, tb'.tcb, HeadOf(tb, m), Q(k, m));
    }
  }

  lemma ZeroedLinks(tb: Table, t: Tid, th: Thread, x: Tid)
    requires t < |tb.tcb| && x < |tb.tcb| && NullLinks(tb.tcb[x])
    ensures |Zeroed(tb, t, th).tcb| == |tb.tcb| && NullLinks(Zeroed(tb, t, th).tcb[x])
  {
  }

  lemma ZeroedThreads(tb: Table, k: Kernel, t: Tid, th: Thread)
    requires HoldsThreads(tb, k) && t < |tb.tcb|
    ensures HoldsThreads(Zeroed(tb, t, th), Put(k, t, th))
  {
  }

  lemma OrphanedThreads(tb: Table, k: Kernel, t: Tid, th: Thread)
    ensures Orphaned(tb, k, t, th).threads == Put(k, t, th).threads
  {
  }

  lemma NoThreads(tcb: seq<Tcb>)
    ensures Spells(tcb, List(NULL_TID, NULL_TID), [])
  {
  }

  lemma NotTouched(tb: Table, tb': Table, k: Kernel, t: Tid, m: ListId)
    requires |tb'.tcb| == |tb.tcb| && Unlisted(k, t) && forall x | 0 <= x < |tb.tcb| && x != t ::
               tb'.tcb[x] == tb.tcb[x]
    ensures SameLinks(tb.tcb, tb'.tcb, Q(k, m))
  {
    forall i | 0 <= i < |Q(k, m)| && Q(k, m)[i] < |tb.tcb|
      ensures Q(k, m)[i] != t
    {
      assert Q(k, m)[i] in Q(k, m);
    }
  }

  lemma StillUnlisted(tb: Table, k: Kernel, t: Tid, th: Thread, x: Tid)
    requires HoldsLists(tb, k) && Unlisted(Orphaned(tb, k, t, th), x)
    ensures Unlisted(k, x)
  {
    hide Spells, Orphaned;
    forall l: ListId
      ensures x !in Q(k, l)
    {
      var n := |tb.lost|;
      var m := if l == SendQ(t) then Lost(n) else if l == RecvQ(t) then Lost(n + 1) else l;
      OrphanedLists(tb, k, t, th, m);
      assert x !in Q(Orphaned(tb, k, t, th), m);
    }
  }

  // ---------- lists without a head ----------

  /** The abstract state together with the lists nobody holds the head of. */
  ghost function Full(k: Kernel, lost: seq<seq<Tid>>): Kernel {
    k.(q := k.q + map i: nat | i < |lost| :: Lost(i) := lost[i])
  }

  ghost predicate IsLost(lost: seq<seq<Tid>>, t: Tid) {
    exists i | 0 <= i < |lost| :: t in lost[i]
  }

  lemma FullLists(k: Kernel, lost: seq<seq<Tid>>, l: ListId)
    ensures Q(Full(k, lost), l) == if l.Lost? && l.number < |lost| then lost[l.number] else Q(k, l)
  {
  }

  lemma FullUpdated(k: Kernel, lost: seq<seq<Tid>>, l: ListId, s: seq<Tid>)
    requires !l.Lost?
    ensures Full(k.(q := k.q[l := s]), lost) == Full(k, lost).(q := Full(k, lost).q[l := s])
    ensures Q(Full(k, lost), l) == Q(k, l)
  {
  }

  lemma FullUnlisted(k: Kernel, lost: seq<seq<Tid>>, t: Tid)
    ensures Unlisted(k, t) && !IsLost(lost, t) ==> Unlisted(Full(k, lost), t)
  {
    forall l: ListId
      ensures Unlisted(k, t) && !IsLost(lost, t) ==> t !in Q(Full(k, lost), l)
    {
      FullLists(k, lost, l);
    }
  }

  /** A listed thread is not lost. */
  lemma ListedNotLost(tb: Table, k: Kernel, lost: seq<seq<Tid>>, l: ListId, t: Tid)
    requires Holds(tb, Full(k, lost)) && !l.Lost? && t in Q(k, l)
    ensures !IsLost(lost, t)
  {
    hide Spells;
    var f := Full(k, lost);
    FullLists(k, lost, l);
    assert forall m: ListId | t in Q(f, m) :: m == l;
    forall i | 0 <= i < |lost|
      ensures t !in lost[i]
    {
      FullLists(k, lost, Lost(i));
    }
  }

  /** The same lists and threads. */
  ghost predicate Alike(k: Kernel, k1: Kernel) {
    k1.threads == k.threads && forall l: ListId :: Q(k1, l) == Q(k, l)
  }

  lemma HoldsAlike(tb: Table, k: Kernel, k1: Kernel)
    requires Holds(tb, k) && Alike(k, k1)
    ensures Holds(tb, k1)
  {
    SameListsHold(tb, tb, k, k1);
  }

  lemma FullWithout(k: Kernel, lost: seq<seq<Tid>>, i: nat, t: Tid)
    requires i < |lost| && t in lost[i]
    ensures Alike(Remove(Full(k, lost), Lost(i), t), Full(k, lost[i := Without(lost[i], t)]))
  {
    var lost1 := lost[i := Without(lost[i], t)];
    assert Full(k, lost1).threads == Remove(Full(k, lost), Lost(i), t).threads;
    hide Full, Without;
    FullLists(k, lost, Lost(i));
    forall l: ListId
      ensures Q(Full(k, lost1), l) == Q(Remove(Full(k, lost), Lost(i), t), l)
    {
      FullLists(k, lost, l);
      FullLists(k, lost1, l);
    }
  }

  /** Creating a thread in a slot turns its wait queues into lost lists. */
  lemma FullOrphaned(tb: Table, k: Kernel, lost: seq<seq<Tid>>, t: Tid, th: Thread)
    requires |tb.lost| == |lost|
    ensures var k1 := Put(k.(q := k.q - {SendQ(t), RecvQ(t)}), t, th);
            Alike(Orphaned(tb, Full(k, lost), t, th), Full(k1, lost + [Q(k, SendQ(t)), Q(k, RecvQ(t))]))
  {
    var k1 := Put(k.(q := k.q - {SendQ(t), RecvQ(t)}), t, th);
    var lost1 := lost + [Q(k, SendQ(t)), Q(k, RecvQ(t))];
    OrphanedThreads(tb, Full(k, lost), t, th);
    assert Full(k1, lost1).threads == Orphaned(tb, Full(k, lost), t, th).threads;
    hide Full, Orphaned;
    forall l: ListId
      ensures Q(Full(k1, lost1), l) == Q(Orphaned(tb, Full(k, lost), t, th), l)
    {
      FullOrphanedList(tb, k, lost, t, th, l);
    }
  }

  lemma FullOrphanedList(tb: Table, k: Kernel, lost: seq<seq<Tid>>, t: Tid, th: Thread, l: ListId)
    requires |tb.lost| == |lost|
    ensures var k1 := Put(k.(q := k.q - {SendQ(t), RecvQ(t)}), t, th);
            Q(Full(k1, lost + [Q(k, SendQ(t)), Q(k, RecvQ(t))]), l) == Q(Orphaned(tb, Full(k, lost), t, th), l)
  {
    hide Full, Orphaned;
    OrphanedLists(tb, Full(k, lost), t, th, l);
    FullLists(k, lost, Before(tb, t, l));
    CreatedLists(k, t, th, l);
    FullLists(Put(k.(q := k.q - {SendQ(t), RecvQ(t)}), t, th), lost + [Q(k, SendQ(t)), Q(k, RecvQ(t))], l);
  }

  lemma CreatedLists(k: Kernel, t: Tid, th: Thread, l: ListId)
    ensures Q(Put(k.(q := k.q - {SendQ(t), RecvQ(t)}), t, th), l) == if l == SendQ(t) || l == RecvQ(t) then []
              else Q(k, l)
  {
  }
}

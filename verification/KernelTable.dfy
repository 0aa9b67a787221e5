/** The kernel's tables as the code updates them, proved to hold, after each
    call, the state the functions of `KernelState` describe. */
module KernelTable {
  import opened Basics
  import opened AddressSpace
  import opened KernelState
  import opened KernelInvariant
  import opened KernelRuns
  import opened TcbLists
  import Paging

  class Tables {
    ghost var k: Kernel

    /** Wait queues whose heads were zeroed: the threads still linked to each
        other, and what the heads would be. */
    ghost var lost: seq<seq<Tid>>
    ghost var lostHeads: seq<List>

    const tcb: array<Tcb>          // tcb_table
    const runQueues: array<List>   // run_queues
    var pausedList: List           // paused_list
    var zombieList: List           // zombie_list
    const running: array<Tid>      // processors[].running_thread
    var mem: Phys
    var window: Paging.Window      // kmap_area_ptab
    var tlb: Paging.Tlb            // of the current processor

    ghost function Snapshot(): Table
      reads this, tcb, runQueues
    {
      Table(tcb[..], runQueues[..], pausedList, zombieList, lostHeads)
    }

    /** The tables hold the abstract state, links included. */
    ghost predicate Valid()
      reads this, tcb, runQueues, running
    {
      && Holds(Snapshot(), Full(k, lost)) && |lost| == |lostHeads|
      && 0 < tcb.Length == |k.threads| <= 0x1_0000 && runQueues.Length == MAX_PRIORITY + 1
      && running[..] == k.cpu
      && mem == k.mem
    }

    /** The zeroed tables the kernel boots with. */
    constructor (slots: nat, processors: nat, memory: Phys)
      requires 0 < slots <= 0x1_0000 && 0 < processors
      ensures Inv() && Boot(k) && Complete(k) && lost == []
      ensures fresh(tcb) && fresh(runQueues) && fresh(running) && tcb.Length == slots && running.Length == processors
              && mem == memory
    {
      var none := List(NULL_TID, NULL_TID);
      tcb := new Tcb[slots](_ => Tcb(BLANK, NULL_TID, NULL_TID, none, none));
      runQueues := new List[MAX_PRIORITY + 1](_ => none);
      pausedList, zombieList := none, none;
      running := new Tid[processors](_ => NULL_TID);
      mem, window, tlb := memory, seq(1024, _ => 0), map[];
      k := Kernel(seq(slots, _ => BLANK), map[], seq(processors, _ => NULL_TID), memory);
      lost, lostHeads := [], [];
      new;
      hide Holds, Full, Sound;
      BootHolds(k);
      ZeroedHolds(Snapshot(), k);
      assert running[..] == k.cpu;
    }

    // ---------- lists (kernel/list.c) ----------

    function GetList(l: ListId): (h: List)
      requires IsList(Snapshot(), l) && !l.Lost?
      reads this, tcb, runQueues
      ensures h == HeadOf(Snapshot(), l)
    {
      match l
      case RunQ(p) => runQueues[p]
      case PausedQ => pausedList
      case ZombieQ => zombieList
      case SendQ(t) => tcb[t].senderQ
      case RecvQ(t) => tcb[t].receiverQ
    }

    method SetList(l: ListId, h: List)
      requires IsList(Snapshot(), l) && !l.Lost?
      modifies this`pausedList, this`zombieList, tcb, runQueues
      ensures Snapshot() == WithHead(old(Snapshot()), l, h)
    {
      match l
      case RunQ(p) => runQueues[p] := h;
      case PausedQ => pausedList := h;
      case ZombieQ => zombieList := h;
      case SendQ(t) => tcb[t] := tcb[t].(senderQ := h);
      case RecvQ(t) => tcb[t] := tcb[t].(receiverQ := h);
    }

    method SetPrev(t: Tid, x: Tid)
      requires t < tcb.Length
      modifies tcb
      ensures Snapshot() == WithPrev(old(Snapshot()), t, x)
    {
      tcb[t] := tcb[t].(prev := x);
    }

    method SetNext(t: Tid, x: Tid)
      requires t < tcb.Length
      modifies tcb
      ensures Snapshot() == WithNext(old(Snapshot()), t, x)
    {
      tcb[t] := tcb[t].(next := x);
    }

    /** The neighbours of a leaving thread point at each other. */
    method Join(p: Tid, n: Tid)
      requires p < tcb.Length && n < tcb.Length
      modifies tcb
      ensures Snapshot() == JoinedAround(old(Snapshot()), p, n)
    {
      if n != NULL_TID { SetPrev(n, p); }
      if p != NULL_TID { SetNext(p, n); }
    }

    method ClearLinks(t: Tid)
      requires t < tcb.Length
      modifies tcb
      ensures Snapshot() == Nulled(old(Snapshot()), t)
    {
      SetPrev(t, NULL_TID);
      SetNext(t, NULL_TID);
    }

    /** `list_insert_at_end`: the thread joins its own list, and every other
        list of the shared table is as it was. */
    method ListInsertAtEnd(l: ListId, t: Tid, atTail: bool)
      requires Valid() && IsList(Snapshot(), l) && !l.Lost? && 0 < t < tcb.Length && Unlisted(k, t) && !IsLost(lost, t)
      modifies this`k, this`pausedList, this`zombieList, tcb, runQueues
      ensures Valid()
      ensures k == old(k).(q := old(k).q[l := if atTail then Q(old(k), l) + [t] else [t] + Q(old(k), l)])
    {
      hide Holds, Full;
      ghost var tb, s, f := Snapshot(), Q(k, l), Full(k, lost);
      FullUpdated(k, lost, l, if atTail then s + [t] else [t] + s);
      FullUnlisted(k, lost, t);
      var h := GetList(l);
      if h.head == NULL_TID && h.tail == NULL_TID {
        WritesInsertFirst(tb, f, l, t);
        assert [t] == [t] + s == s + [t];
        SetList(l, List(t, t));
        SetNext(t, NULL_TID);
        SetPrev(t, NULL_TID);
      } else if atTail {
        WritesInsertTail(tb, f, l, t);
        SetNext(t, NULL_TID);
        SetNext(h.tail, t);
        SetPrev(t, h.tail);
        SetList(l, List(h.head, t));
      } else {
        WritesInsertHead(tb, f, l, t);
        SetPrev(t, NULL_TID);
        SetPrev(h.head, t);
        SetNext(t, h.head);
        SetList(l, List(t, h.tail));
      }
      k := k.(q := k.q[l := if atTail then s + [t] else [t] + s]);
    }

    /** `list_remove_from_end` at the tail of a list that is not empty. */
    method TakeTail(l: ListId) returns (t: Tid)
      requires Valid() && IsList(Snapshot(), l) && !l.Lost? && Q(k, l) != []
      modifies this`k, this`pausedList, this`zombieList, tcb, runQueues
      ensures Valid()
      ensures var s := Q(old(k), l); t == s[|s| - 1] && k == old(k).(q := old(k).q[l := s[..|s| - 1]])
    {
      hide Holds, Full;
      ghost var tb, j, f := Snapshot(), |Q(k, l)| - 1, Full(k, lost);
      FullUpdated(k, lost, l, Delete(Q(k, l), j));
      var h := GetList(l);
      EndsOf(tb, f, l);
      t := h.tail;
      PopWrites(tb, f, l, j, t);
      var p := tcb[t].prev;
      SetList(l, if p == NULL_TID then List(NULL_TID, p) else List(h.head, p));
      Join(p, NULL_TID);
      ClearLinks(t);
      k := k.(q := k.q[l := Delete(Q(k, l), j)]);
    }

    /** `list_remove_from_end` at the head of a list that is not empty. */
    method TakeHead(l: ListId) returns (t: Tid)
      requires Valid() && IsList(Snapshot(), l) && !l.Lost? && Q(k, l) != []
      modifies this`k, this`pausedList, this`zombieList, tcb, runQueues
      ensures Valid()
      ensures var s := Q(old(k), l); t == s[0] && k == old(k).(q := old(k).q[l := s[1..]])
    {
      hide Holds, Full;
      ghost var tb, f := Snapshot(), Full(k, lost);
      FullUpdated(k, lost, l, Delete(Q(k, l), 0));
      var h := GetList(l);
      EndsOf(tb, f, l);
      t := h.head;
      PopWrites(tb, f, l, 0, t);
      var n := tcb[t].next;
      SetList(l, if n == NULL_TID then List(n, NULL_TID) else List(n, h.tail));
      Join(NULL_TID, n);
      ClearLinks(t);
      k := k.(q := k.q[l := Delete(Q(k, l), 0)]);
    }

    /** `list_remove_from_end`; NULL_TID for an empty list. */
    method ListRemoveFromEnd(l: ListId, atTail: bool) returns (t: Tid)
      requires Valid() && IsList(Snapshot(), l) && !l.Lost?
      modifies this`k, this`pausedList, this`zombieList, tcb, runQueues
      ensures Valid()
      ensures Q(old(k), l) == [] ==> t == NULL_TID && k == old(k)
      ensures Q(old(k), l) != [] ==> !IsLost(lost, t)
      ensures var s := Q(old(k), l);
              s != [] ==> && t == s[if atTail then |s| - 1 else 0]
                          && k == old(k).(q := old(k).q[l := if atTail then s[..|s| - 1] else s[1..]])
    {
      hide Holds, Full;
      FullLists(k, lost, l);
      EndsOf(Snapshot(), Full(k, lost), l);
      var h := GetList(l);
      t := if atTail then h.tail else h.head;
      if t != NULL_TID {
        ListedNotLost(Snapshot(), k, lost, l, t);
        if atTail { t := TakeTail(l); } else { t := TakeHead(l); }
      }
    }

    /** `list_remove`, for a thread on the list or on none.  In the second case
        nothing at all changes, unless the thread is still linked to others of
        a queue that is gone: then it leaves those. */
    method ListRemove(l: ListId, t: Tid)
      requires Valid() && IsList(Snapshot(), l) && !l.Lost? && 0 < t < tcb.Length
      requires t in Q(k, l) || Unlisted(k, t)
      modifies this`k, this`lost, this`lostHeads, this`pausedList, this`zombieList, tcb, runQueues
      ensures Valid() && k == Remove(old(k), l, t)
      ensures !IsLost(lost, t) && forall x: Tid | IsLost(lost, x) :: IsLost(old(lost), x)
      ensures Unlisted(old(k), t) && !IsLost(old(lost), t) ==> Snapshot() == old(Snapshot())
    {
      hide Holds, Full;
      ghost var tb := Snapshot();
      ghost var lost1, heads1 := RemoveLinks(tb, k, lost, l, t);
      var h, p, n := GetList(l), tcb[t].prev, tcb[t].next;
      Join(p, n);
      SetList(l, HeadAfter(h, t, p, n));
      ClearLinks(t);
      lost, lostHeads := lost1, heads1;
      k := Remove(k, l, t);
    }

    // ---------- threads (kernel/thread.c) ----------

    /** The tables hold a sound state, and only waiting threads are linked to
        a queue that is gone. */
    ghost predicate Inv()
      reads this, tcb, runQueues, running
    {
      Valid() && Sound(k) && LostWait(k, lost)
    }

    function Get(t: Tid): (th: Thread)
      requires t < tcb.Length
      reads this, tcb, runQueues, running
      ensures Valid() ==> th == T(k, t)
    {
      tcb[t].thread
    }

    method Set(t: Tid, th: Thread)
      requires Valid() && t < tcb.Length
      modifies this`k, tcb
      ensures Valid() && k == Put(old(k), t, th)
    {
      hide Holds;
      ghost var tb := Snapshot();
      ThreadWritten(tb, Full(k, lost), t, th);
      assert Put(Full(k, lost), t, th) == Full(Put(k, t, th), lost);
      tcb[t] := tcb[t].(thread := th);
      assert Snapshot() == tb.(tcb := tb.tcb[t := tb.tcb[t].(thread := th)]);
      k := Put(k, t, th);
    }

    /** `detach_sender_wait_queue` and `detach_receiver_wait_queue`. */
    method DetachWaitQueue(t: Tid)
      requires Inv() && IsThread(k, t) && (T(k, t).state.WaitForRecv? || T(k, t).state.WaitForSend?)
      modifies this`k, this`lost, this`lostHeads, this`pausedList, this`zombieList, tcb, runQueues
      ensures Valid() && k == Detach(old(k), t)
      ensures !IsLost(lost, t) && forall x: Tid | IsLost(lost, x) :: IsLost(old(lost), x)
    {
      hide Holds, Full;
      var th := Get(t);
      DetachLists(k, t);
      Set(t, th.(waitTid := NULL_TID));
      if th.waitTid != NULL_TID {
        ListRemove(if th.state.WaitForRecv? then SendQ(th.waitTid) else RecvQ(th.waitTid), t);
      }
    }

    /** The processor scan of `thread_remove_from_list`. */
    method ClearRunning(t: Tid)
      requires Valid()
      modifies this`k, running
      ensures Valid() && k == old(k).(cpu := ClearSlot(old(k).cpu, t))
    {
      var c := 0;
      while c < running.Length && running[c] != t
        invariant c <= running.Length && t !in running[..c]
      {
        c := c + 1;
      }
      hide Holds;
      ghost var cpu := running[..];
      ClearSlotFirst(cpu, t, c);
      SlotsAndMemoryApart(Snapshot(), Full(k, lost), ClearSlot(cpu, t), k.mem);
      if c < running.Length {
        running[c] := NULL_TID;
        assert running[..] == cpu[c := NULL_TID];
      }
      k := k.(cpu := ClearSlot(cpu, t));
    }

    /** `thread_remove_from_list`. */
    method ThreadRemoveFromList(t: Tid) returns (code: int)
      requires Inv() && IsThread(k, t)
      modifies this, tcb, runQueues, running
      ensures Inv() && k == RemoveFromList(old(k), t)
      ensures code == if Removable(T(old(k), t)) then E_OK else E_FAIL
      ensures code == E_OK ==> !IsLost(lost, t)
    {
      hide Holds, Full, SlotsSound;
      var th := Get(t);
      code := E_OK;
      OwnList(k, t);
      if Removable(th) { UnlinkKeepsLost(k, lost, t); }
      match th.state
      case WaitForRecv => DetachWaitQueue(t);
      case WaitForSend => DetachWaitQueue(t);
      case Ready => ListRemove(RunQ(th.priority), t);
      case Paused => ListRemove(PausedQ, t);
      case Zombie => ListRemove(ZombieQ, t);
      case Running => ClearRunning(t);
      case Inactive => code := E_FAIL;
      case Sleeping => code := E_FAIL;
    }

    /** The state is stored, then the thread is put on the list for it. */
    method ParkThread(t: Tid, th: Thread, l: ListId)
      requires Inv() && IsThread(k, t) && Loose(k, t) && !IsLost(lost, t)
      requires FieldsOk(k, th) && Home(th) == Some(l) && IsList(Snapshot(), l)
      modifies this, tcb, runQueues
      ensures Inv() && k == Park(old(k), t, th, l)
    {
      hide Holds, Full;
      Link(k, t, th, l);
      PutLoose(k, t, th);
      LostApart(k, Park(k, t, th, l), lost, t);
      Set(t, th);
      ListInsertAtEnd(l, t, false);
    }

    /** `thread_start`. */
    method ThreadStart(t: Tid) returns (code: int)
      requires Inv() && IsThread(k, t)
      modifies this, tcb, runQueues, running
      ensures Inv() && (k, code) == Start(old(k), t)
    {
      hide Holds;
      var state := Get(t).state;
      match state
      case Ready => code := E_DONE;
      case Running => code := E_DONE;
      case Inactive => code := E_FAIL;
      case Zombie => code := E_FAIL;
      case Sleeping => code := E_FAIL;
      case _ =>
        Unlink(k, t);
        code := ThreadRemoveFromList(t);
        var th := Get(t);
        ParkThread(t, th.(state := ThreadState.Ready), RunQ(th.priority));
    }

    /** `thread_wakeup`. */
    method ThreadWakeup(t: Tid) returns (code: int)
      requires Inv() && IsThread(k, t)
      modifies this, tcb, runQueues, running
      ensures Inv() && (k, code) == Wakeup(old(k), t)
    {
      hide Holds;
      var state := Get(t).state;
      if state.Ready? || state.Running? { return E_DONE; }
      if state.Zombie? || state.Inactive? { return E_FAIL; }
      code := ThreadRemoveFromList(t);
      if code == E_OK {
        Unlink(old(k), t);
        var th := Get(t);
        ParkThread(t, th.(state := ThreadState.Ready), RunQ(th.priority));
      }
    }

    /** `thread_pause`. */
    method ThreadPause(t: Tid) returns (code: int)
      requires Inv() && IsThread(k, t)
      modifies this, tcb, runQueues, running
      ensures Inv() && (k, code) == Pause(old(k), t)
    {
      hide Holds;
      var state := Get(t).state;
      match state
      case Paused => code := E_DONE;
      case Inactive => code := E_FAIL;
      case Zombie => code := E_FAIL;
      case Sleeping => code := E_FAIL;
      case _ =>
        Unlink(k, t);
        code := ThreadRemoveFromList(t);
        var th := Get(t);
        ParkThread(t, th.(state := ThreadState.Paused), PausedQ);
    }

    /** `thread_create` once a slot is chosen.  Threads still queued on the slot
        stay linked to each other, on no list. */
    method ThreadCreate(t: Tid, dir: Frame) returns (ok: bool)
      requires Inv() && IsThread(k, t)
      modifies this, tcb, runQueues
      ensures Inv() && (k, ok) == Create(old(k), t, dir)
    {
      hide Holds, Full;
      ok := Get(t).state.Inactive?;
      if ok {
        ghost var tb, k0, th := Snapshot(), k, NewThread(dir);
        CreateKeeps(k0, t, dir);
        InactiveUnlisted(k0, lost, t);
        FullUnlisted(k0, lost, t);
        TcbZeroed(tb, Full(k0, lost), t, th);
        FullOrphaned(tb, k0, lost, t, th);
        CreateKeepsLost(k0, lost, t, dir);
        lostHeads := lostHeads + [tcb[t].senderQ, tcb[t].receiverQ];
        lost := lost + [Q(k0, SendQ(t)), Q(k0, RecvQ(t))];
        tcb[t] := Tcb(NewThread(dir), NULL_TID, NULL_TID, List(NULL_TID, NULL_TID), List(NULL_TID, NULL_TID));
        k := Put(k0.(q := k0.q - {SendQ(t), RecvQ(t)}), t, th);
        assert Snapshot() == Zeroed(tb, t, th);
        HoldsAlike(Snapshot(), Orphaned(tb, Full(k0, old(lost)), t, th), Full(k, lost));
        ListInsertAtEnd(PausedQ, t, false);
      }
    }

    /** One turn of the drain loop of `thread_release`. */
    method ReleaseSender(t: Tid)
      requires Inv() && IsThread(k, t) && Q(k, SendQ(t)) != []
      modifies this`k, this`pausedList, this`zombieList, tcb, runQueues
      ensures Inv() && k == ReleasedLast(old(k), t)
    {
      hide Holds, Full, ListsSound, SlotsSound, LostWait;
      ghost var k0 := k;
      DequeueKeeps(k, SendQ(t));
      var x := ListRemoveFromEnd(SendQ(t), true);
      PutLoose(k, x, Released(T(k, x)));
      Set(x, Released(Get(x)));
      LostApart(k0, k, lost, x);
    }

    /** The drain loop of `thread_release`, on `sender_wait_queue`. */
    method DrainSenders(t: Tid)
      requires Inv() && IsThread(k, t)
      modifies this`k, this`pausedList, this`zombieList, tcb, runQueues
      ensures Inv() && k == Drain(old(k), t)
    {
      hide Holds, Full, Sound, LostWait, ReleasedLast;
      SenderEnds(Snapshot(), k, lost, t);
      while tcb[t].senderQ.head != NULL_TID
        invariant Inv() && SameSize(old(k), k) && Drain(k, t) == Drain(old(k), t)
        invariant tcb[t].senderQ.head == NULL_TID <==> Q(k, SendQ(t)) == []
        decreases |Q(k, SendQ(t))|
      {
        DrainsLast(k, t);
        ReleaseSender(t);
        SenderEnds(Snapshot(), k, lost, t);
      }
    }

    /** `thread_release`.  The second pass of its loop would drain the list made
        of the thread's own links, which are null by then. */
    method ThreadRelease(t: Tid) returns (code: int)
      requires Inv() && IsThread(k, t)
      modifies this, tcb, runQueues, running
      ensures Inv() && (k, code) == Release(old(k), t)
    {
      hide Holds, Full;
      if Get(t).state.Inactive? { return E_DONE; }
      code := ThreadRemoveFromList(t);
      if code == E_OK {
        ReleaseKeeps(old(k), t);
        DrainedLoose(old(k), t);
        DrainSenders(t);
        FullUnlisted(k, lost, t);
        UnlistedHasNullLinks(Snapshot(), Full(k, lost), t);
        assert tcb[t].prev == NULL_TID;
        ghost var k1 := k;
        Set(t, Get(t).(state := ThreadState.Inactive));
        LostApart(k1, k, lost, t);
      }
    }

    // ---------- scheduler (kernel/schedule.c) ----------

    /** The running thread of the slot, if any, requeued, and `t` put in the slot. */
    method Replace(c: nat, t: Tid)
      requires Valid() && c < running.Length && IsThread(k, t) && running[c] != t
      requires running[c] != NULL_TID ==>
                 IsThread(k, running[c]) && Unlisted(k, running[c]) && !IsLost(lost, running[c])
                     && T(k, running[c]).priority <= MAX_PRIORITY
      modifies this`k, this`pausedList, this`zombieList, tcb, runQueues, running
      ensures Valid()
      ensures var k1 := if old(k).cpu[c] == NULL_TID then old(k) else MakeReady(old(k), old(k).cpu[c]);
              k == Put(k1, t, T(k1, t).(state := ThreadState.Running)).(cpu := k1.cpu[c := t])
    {
      hide Holds, Full;
      var cur := running[c];
      if cur != NULL_TID {
        var th := Get(cur);
        ghost var k0 := k;
        Set(cur, th.(state := ThreadState.Ready));
        assert forall l: ListId :: Q(k, l) == Q(k0, l);
        ListInsertAtEnd(RunQ(th.priority), cur, false);
      }
      Set(t, Get(t).(state := ThreadState.Running));
      running[c] := t;
      MachineApart(Snapshot(), k, lost, k.cpu[c := t], k.mem);
      k := k.(cpu := k.cpu[c := t]);
    }

    /** The loop of `schedule`: the highest run queue from `lo` up that is not empty. */
    method HighestReady(lo: nat) returns (top: Option<nat>)
      requires Valid()
      ensures top == TopReady(k, lo, MAX_PRIORITY)
    {
      hide Holds;
      var p := MAX_PRIORITY;
      while p >= lo
        invariant p <= MAX_PRIORITY && TopReady(k, lo, MAX_PRIORITY) == TopReady(k, lo, p)
      {
        FullLists(k, lost, RunQ(p));
        EndsOf(Snapshot(), Full(k, lost), RunQ(p));
        if GetList(RunQ(p)) != List(NULL_TID, NULL_TID) { return Some(p); }
        p := p - 1;
      }
      top := None;
    }

    /** `schedule`; NULL_TID stands for the panic. */
    method PickNext(c: nat) returns (t: Tid)
      requires Inv() && c < running.Length
      modifies this, tcb, runQueues, running
      ensures Inv() && (k, t) == Schedule(old(k), c)
    {
      hide Holds, Full, Sound, TopReady, LostWait;
      var cur := running[c];
      CurrentUnlisted(k, lost, c);
      var lo := if cur == NULL_TID then MIN_PRIORITY else Get(cur).priority;
      ScheduleKeeps(k, c, {});
      var top := HighestReady(lo);
      if top.None? { return cur; }
      NextIsNotCurrent(k, lost, c, top.value);
      ghost var k0 := k;
      t := ListRemoveFromEnd(RunQ(top.value), true);
      Replace(c, t);
      ScheduleKeepsLost(k0, lost, c);
    }

    /** `thread_switch_context(schedule(processor_get_current()), true)`. */
    method Reschedule() returns (out: Outcome)
      requires Inv() && 0 < running.Length
      modifies this, tcb, runQueues, running
      ensures Inv() && (k, out) == SwitchAway(old(k))
    {
      var t := PickNext(0);
      out := if t == NULL_TID then Panic else Switch(t);
    }

    // ---------- messages (kernel/message.c) ----------

    /** `attach_sender_wait_queue` and `attach_receiver_wait_queue`. */
    method AttachWaitQueue(b: Build, t: Tid, state: ThreadState, peer: Tid)
      requires Inv() && IsThread(k, t) && Loose(k, t) && !IsLost(lost, t) && PeerOk(b, k, peer)
      requires state.WaitForRecv? || state.WaitForSend?
      modifies this, tcb, runQueues
      ensures Inv() && k == Attach(b, old(k), t, state, peer, WaitList(state, peer))
    {
      hide Holds, Full, Sound;
      AttachKeeps(b, k, t, state, peer, WaitList(state, peer));
      LostApart(k, Attach(b, k, t, state, peer, WaitList(state, peer)), lost, t);
      if peer != NULL_TID {
        ListInsertAtEnd(WaitList(state, peer), t, false);
      }
      Set(t, Get(t).(state := state, waitTid := PeerTid(b, peer)));
    }

    method SetMemory(m: Phys)
      requires Inv()
      modifies this`k, this`mem
      ensures Inv() && k == old(k).(mem := m)
    {
      hide Holds, Sound;
      MachineApart(Snapshot(), k, lost, k.cpu, m);
      SamePlacesKeeps(k, k.(mem := m));
      mem := m;
      k := k.(mem := m);
    }

    /** `poke_virt` and `peek_virt`, called in address space `cur`: the copy is
        made by the paging code, through its window and with the TLB as it is. */
    method CopyMessage(cur: Frame, here: Addr, peer: Frame, there: Addr, n: nat, out: bool) returns (end: End)
      requires Inv()
      modifies this`k, this`mem, this`window, this`tlb
      ensures Inv() && (k, end) == AfterCopy(old(k), cur, here, peer, there, n, out)
    {
      hide Holds, Sound, Move;
      var cpu := new Paging.Machine(mem, cur, window, tlb);
      var pdir := InFrame(peer, 0);
      if out {
        end := cpu.PokeVirt(there, n, here, pdir);
      } else {
        end := cpu.PeekVirt(there, n, here, pdir);
      }
      window, tlb := cpu.ptab[..], cpu.tlb;
      SetMemory(cpu.phys);
    }

    /** The delivery half of `send_message`. */
    method DeliverToRecipient(s: Tid, r: Tid, m: Message) returns (out: Outcome)
      requires Inv() && IsThread(k, s) && IsThread(k, r) && T(k, r).state.WaitForSend?
      modifies this, tcb, runQueues, running
      ensures Inv() && (k, out) == SendDeliver(old(k), s, r, m)
    {
      hide Holds, Full, Sound, LostWait, Placed, CompleteBut, SamePlaces, Move;
      SendDeliverKeeps(k, s, r, m);
      var rcv, sdir := Get(r), Get(s).dir;
      var n := Min(rcv.regs.edi, m.length);
      var end := CopyMessage(sdir, m.buffer, rcv.dir, rcv.regs.ebx, n, true);
      if !end.Done? { return Broken(end); }
      var code := ThreadStart(r);
      ghost var k1 := k;
      FinishKeepsPlaces(k1, s, r, m, n);
      LostSamePlaces(k1, SendFinish(k1, s, r, m, n), lost);
      rcv := Get(r);
      var eax := if m.kernel() && !rcv.waitKernel then E_PREEMPT else E_OK;
      var regs := rcv.regs.(eax := eax, ebx := Header(m.kernel(), s, m.flags), esi := m.subject, edi := n);
      Set(r, rcv.(waitKernel := false, regs := regs));
      var snd := Get(s);
      Set(s, snd.(regs := snd.regs.(ebx := r, esi := n)));
      out := Ret(E_OK);
    }

    /** The blocking half of `send_message`. */
    method BlockSender(b: Build, s: Tid, r: Tid, m: Message) returns (out: Outcome)
      requires Inv() && IsThread(k, s) && PeerOk(b, k, r) && 0 < running.Length
      modifies this, tcb, runQueues, running
      ensures Inv() && (k, out) == SendBlock(b, old(k), s, r, m)
    {
      hide Holds, Sound, SwitchAway;
      ghost var k0 := k;
      var code := ThreadRemoveFromList(s);
      if code != E_OK { return Ret(E_FAIL); }
      Unlink(k0, s);
      AttachWaitQueue(b, s, WaitForRecv, r);
      var snd := Get(s);
      ParkKeepsPlaces(b, k0, s, r, m);
      SamePlacesKeeps(k, SendPark(b, k0, s, r, m));
      Set(s, snd.(waitKernel := m.kernel(), regs := Regs(E_INTERRUPT, m.buffer, m.flags, m.subject, m.length)));
      out := Reschedule();
    }

    /** For a message to or from anybody: the thread that has waited longest on
        the caller's queue, if any. */
    method TakePeer(l: ListId, anybody: bool) returns (t: Tid)
      requires Inv() && IsList(Snapshot(), l) && !l.Lost?
      modifies this`k, this`pausedList, this`zombieList, tcb, runQueues
      ensures Inv() && SameSize(old(k), k)
      ensures !anybody || Q(old(k), l) == [] ==> t == NULL_TID && k == old(k)
      ensures anybody && Q(old(k), l) != [] ==> IsThread(k, t) && (k, t) == Dequeue(old(k), l)
    {
      hide Holds, Full, Sound, LostWait, OnlyMoved, Loose;
      FullLists(k, lost, l);
      EndsOf(Snapshot(), Full(k, lost), l);
      t := NULL_TID;
      if anybody && GetList(l) != List(NULL_TID, NULL_TID) {
        DequeueKeeps(k, l);
        t := ListRemoveFromEnd(l, true);
        LostApart(old(k), k, lost, t);
      }
    }

    /** `send_message`. */
    method SendMessage(b: Build, s: Tid, to: Tid, m: Message) returns (out: Outcome)
      requires Inv() && IsThread(k, s) && PeerOk(b, k, to) && 0 < running.Length
      modifies this, tcb, runQueues, running
      ensures Inv() && (k, out) == Send(b, old(k), s, to, m)
    {
      hide Holds, Full, Sound, LostWait, OnlyMoved, Loose, SendDeliver, SendBlock;
      if s == to || (m.length > 0 && m.buffer == 0) { return Ret(E_INVALID_ARG); }
      var r := to;
      var taken := TakePeer(RecvQ(s), to == ANY);
      if taken != NULL_TID { r := taken; }
      if r != NULL_TID && (Get(r).state.Inactive? || Get(r).state.Zombie?) { return Ret(E_UNREACH); }
      if r != NULL_TID && Get(r).state.WaitForSend?
          && (m.kernel() || (Get(r).waitTid == ANY && !Get(r).waitKernel) || Get(r).waitTid == s) {
        out := DeliverToRecipient(s, r, m);
      } else if m.noBlock() {
        out := Ret(E_BLOCK);
      } else {
        out := BlockSender(b, s, r, m);
      }
    }

    /** The delivery half of `receive_message`. */
    method DeliverFromSender(r: Tid, s: Tid, m: Message) returns (out: Outcome)
      requires Inv() && IsThread(k, s) && IsThread(k, r) && T(k, s).state.WaitForRecv?
      modifies this, tcb, runQueues, running
      ensures Inv() && (k, out) == RecvDeliver(old(k), r, s, m)
    {
      hide Holds, Full, Sound, LostWait, Placed, CompleteBut, SamePlaces, Move;
      RecvDeliverKeeps(k, r, s, m);
      var snd, rdir := Get(s), Get(r).dir;
      var n := Min(snd.regs.edi, m.length);
      var end := CopyMessage(rdir, m.buffer, snd.dir, snd.regs.ebx, n, false);
      if !end.Done? { return Broken(end); }
      StartKeepsMessage(k, s);
      var code := ThreadStart(s);
      ghost var k1 := k;
      FinishKeepsPlaces(k1, s, r, m, n);
      LostSamePlaces(k1, RecvFinish(k1, r, s, n), lost);
      snd := Get(s);
      var rcv := Get(r);
      Set(r, rcv.(regs := rcv.regs.(ebx := Header(snd.waitKernel, s, snd.regs.ecx), esi := snd.regs.esi, edi := n)));
      var th := Get(s);
      Set(s, th.(waitKernel := false, regs := th.regs.(eax := E_OK, esi := n)));
      out := Ret(if m.kernel() && !snd.waitKernel then E_PREEMPT else E_OK);
    }

    /** The blocking half of `receive_message`; as written, with no sender it
        would take a null TCB off its list. */
    method BlockReceiver(b: Build, r: Tid, s: Tid, m: Message) returns (out: Outcome)
      requires Inv() && IsThread(k, r) && PeerOk(b, k, s) && 0 < running.Length
      modifies this, tcb, runQueues, running
      ensures Inv() && (k, out) == RecvBlock(b, old(k), r, s, m)
    {
      hide Holds, Sound, SwitchAway;
      ghost var k0 := k;
      var parked, peer := if b.parksCaller then r else s, if b.parksCaller then s else r;
      if parked == NULL_TID { return Fault; }
      var code := ThreadRemoveFromList(parked);
      if code != E_OK { return Ret(E_FAIL); }
      Unlink(k0, parked);
      AttachWaitQueue(b, parked, WaitForSend, peer);
      var rcv := Get(r);
      ParkKeepsPlaces(b, k0, s, r, m);
      SamePlacesKeeps(k, RecvPark(b, k0, r, s, m));
      var regs := rcv.regs.(eax := E_INTERRUPT, ebx := m.buffer, ecx := m.flags, edi := m.length);
      Set(r, rcv.(waitKernel := m.kernel(), regs := regs));
      out := Reschedule();
    }

    /** `receive_message`. */
    method ReceiveMessage(b: Build, r: Tid, from: Tid, m: Message) returns (out: Outcome)
      requires Inv() && IsThread(k, r) && PeerOk(b, k, from) && 0 < running.Length
      modifies this, tcb, runQueues, running
      ensures Inv() && (k, out) == Recv(b, old(k), r, from, m)
    {
      hide Holds, Full, Sound, LostWait, OnlyMoved, Loose, RecvDeliver, RecvBlock;
      if r == from || (m.length > 0 && m.buffer == 0) { return Ret(E_INVALID_ARG); }
      var s := from;
      var taken := TakePeer(SendQ(r), from == ANY && m.length > 0);
      if taken != NULL_TID { s := taken; }
      if s != NULL_TID && Get(s).state.WaitForRecv?
          && (Get(s).waitKernel || Get(s).waitTid == r || (!m.kernel() && Get(s).waitTid == ANY)) {
        out := DeliverFromSender(r, s, m);
      } else if m.noBlock() {
        out := Ret(E_BLOCK);
      } else {
        out := BlockReceiver(b, r, s, m);
      }
    }
  }

  /** The abstract state after a message copy. */
  function AfterCopy(k: Kernel, cur: Frame, here: Addr, peer: Frame, there: Addr, n: nat, out: bool): (Kernel, End) {
    var (m, end) := Move(k.mem, cur, here, peer, there, n, out);
    (k.(mem := m), end)
  }

  /** The oldest thread queued to send to `t`, released. */
  function ReleasedLast(k: Kernel, t: Tid): (r: Kernel)
    requires Q(k, SendQ(t)) != []
    ensures SameSize(k, r)
  {
    var (k1, x) := Dequeue(k, SendQ(t));
    Put(k1, x, Released(T(k1, x)))
  }

  lemma DrainsLast(k: Kernel, t: Tid)
    requires Q(k, SendQ(t)) != []
    ensures Drain(k, t) == Drain(ReleasedLast(k, t), t) && |Q(ReleasedLast(k, t), SendQ(t))| < |Q(k, SendQ(t))|
  {
  }

  lemma SenderEnds(tb: Table, k: Kernel, lost: seq<seq<Tid>>, t: Tid)
    requires Holds(tb, Full(k, lost)) && t < |tb.tcb|
    ensures tb.tcb[t].senderQ.head == NULL_TID <==> Q(k, SendQ(t)) == []
  {
    hide Holds, Full;
    FullLists(k, lost, SendQ(t));
    EndsOf(tb, Full(k, lost), SendQ(t));
  }

  /** The zeroed table holds the boot state. */
  lemma ZeroedHolds(tb: Table, k: Kernel)
    requires Boot(k) && |tb.tcb| == |k.threads| && |tb.run| == MAX_PRIORITY + 1 && |tb.lost| == 0
    requires var none := List(NULL_TID, NULL_TID);
             && (forall i | 0 <= i < |tb.tcb| :: tb.tcb[i] == Tcb(BLANK, NULL_TID, NULL_TID, none, none))
             && (forall i | 0 <= i < |tb.run| :: tb.run[i] == none) && tb.paused == none && tb.zombie == none
    ensures Holds(tb, Full(k, []))
  {
    assert Full(k, []) == k;
  }

  /** Threads linked to a queue that is gone still wait for its owner. */
  ghost predicate LostWait(k: Kernel, lost: seq<seq<Tid>>) {
    forall x: Tid | IsLost(lost, x) ::
          (T(k, x).state.WaitForRecv? || T(k, x).state.WaitForSend?) && T(k, x).waitTid != NULL_TID
  }

  /** A thread that is not among them can change as it likes. */
  lemma LostApart(k: Kernel, k1: Kernel, lost: seq<seq<Tid>>, t: Tid)
    requires LostWait(k, lost) && !IsLost(lost, t) && forall x: Tid | x != t :: T(k1, x) == T(k, x)
    ensures LostWait(k1, lost)
  {
  }

  lemma LostSamePlaces(k: Kernel, k1: Kernel, lost: seq<seq<Tid>>)
    requires LostWait(k, lost) && SamePlaces(k, k1)
    ensures LostWait(k1, lost)
  {
  }

  /** Where a thread is linked that is on list `l` or on none. */
  ghost function LinkedIn(tb: Table, k: Kernel, lost: seq<seq<Tid>>, l: ListId, t: Tid): (m: ListId)
    requires Holds(tb, Full(k, lost)) && !l.Lost? && (t in Q(k, l) || Unlisted(k, t))
    ensures if m.Lost? then m.number < |lost| && t in lost[m.number] && t !in Q(k, l)
            else m == l && !IsLost(lost, t)
    ensures t in Q(Full(k, lost), m) || Unlisted(Full(k, lost), t)
  {
    FullLists(k, lost, l);
    FullUnlisted(k, lost, t);
    if t in Q(k, l) then
      ListedNotLost(tb, k, lost, l, t);
      l
    else if IsLost(lost, t) then
      var i :| 0 <= i < |lost| && t in lost[i];
      FullLists(k, lost, Lost(i));
      Lost(i)
    else l
  }

  /** What `list_remove` of a thread on list `l`, or on none, leaves: the list
      without it, or the chain of lost threads without it. */
  lemma RemoveLinks(tb: Table, k: Kernel, lost: seq<seq<Tid>>, l: ListId, t: Tid)
    returns (lost1: seq<seq<Tid>>, heads1: seq<List>)
    requires Holds(tb, Full(k, lost)) && IsList(tb, l) && !l.Lost? && 0 < t < |tb.tcb| && |lost| == |tb.lost|
    requires t in Q(k, l) || Unlisted(k, t)
    ensures tb.tcb[t].prev < |tb.tcb| && tb.tcb[t].next < |tb.tcb| && |lost1| == |heads1|
    ensures var p, n := tb.tcb[t].prev, tb.tcb[t].next;
            Holds(Nulled(WithHead(JoinedAround(tb, p, n), l, HeadAfter(HeadOf(tb, l), t, p, n)), t).(lost := heads1),
                Full(Remove(k, l, t), lost1))
    ensures !IsLost(lost1, t) && forall x: Tid | IsLost(lost1, x) :: IsLost(lost, x)
    ensures Unlisted(k, t) && !IsLost(lost, t) ==>
              var p, n := tb.tcb[t].prev, tb.tcb[t].next;
              Nulled(WithHead(JoinedAround(tb, p, n), l, HeadAfter(HeadOf(tb, l), t, p, n)), t).(lost := heads1) == tb
  {
    hide Holds, Full, JoinedAround, Nulled, WithHead;
    var f := Full(k, lost);
    var m := LinkedIn(tb, k, lost, l, t);
    NeighboursInTable(tb, f, m, t);
    var p, n := tb.tcb[t].prev, tb.tcb[t].next;
    RemoveWrites(tb, f, m, t);
    if m.Lost? {
      FullLists(k, lost, m);
      SameHead(tb, f, l, m, t, p, n);
      FullWithout(k, lost, m.number, t);
      LostWithout(tb, k, lost, m.number, t);
      lost1, heads1 := lost[m.number := Without(lost[m.number], t)],
          tb.lost[m.number := HeadAfter(tb.lost[m.number], t, p, n)];
      HoldsAlike(Nulled(WithHead(JoinedAround(tb, p, n), m, heads1[m.number]), t), Remove(f, m, t), Full(k, lost1));
    } else {
      FullRemoved(k, lost, l, t);
      NoLostHead(tb, l, t, p, n, HeadAfter(HeadOf(tb, l), t, p, n));
      lost1, heads1 := lost, tb.lost;
      FullUnlisted(k, lost, t);
    }
  }

  lemma NoLostHead(tb: Table, l: ListId, t: Tid, p: Tid, n: Tid, h: List)
    requires IsList(tb, l) && !l.Lost? && t < |tb.tcb| && p < |tb.tcb| && n < |tb.tcb|
    ensures Nulled(WithHead(JoinedAround(tb, p, n), l, h), t).lost == tb.lost
  {
  }

  /** Taking a thread out of a list without a head leaves the head of list `l` alone. */
  lemma SameHead(tb: Table, f: Kernel, l: ListId, m: ListId, t: Tid, p: Tid, n: Tid)
    requires Holds(tb, f) && IsList(tb, l) && !l.Lost? && m.Lost? && IsList(tb, m) && t in Q(f, m)
    requires t < |tb.tcb| && p < |tb.tcb| && n < |tb.tcb|
    ensures var h := HeadAfter(HeadOf(tb, m), t, p, n); var joined := JoinedAround(tb, p, n);
            && HeadAfter(HeadOf(tb, l), t, p, n) == HeadOf(tb, l)
            && Nulled(WithHead(joined, l, HeadOf(tb, l)), t).(lost := tb.lost[m.number := h])
               == Nulled(WithHead(joined, m, h), t)
  {
    var joined := JoinedAround(tb, p, n);
    assert t !in Q(f, l);
    hide Holds, JoinedAround;
    EndsOf(tb, f, l);
    JoinedLinks(tb, l, p, n);
    JoinedLinks(tb, m, p, n);
    hide OnlyLinks;
    assert WithHead(joined, l, HeadOf(tb, l)) == joined by { HeadRewritten(joined, l); }
    assert joined.lost == tb.lost by { JoinKeepsLost(tb, p, n); }
  }

  lemma HeadRewritten(tb: Table, l: ListId)
    requires IsList(tb, l)
    ensures WithHead(tb, l, HeadOf(tb, l)) == tb
  {
  }

  lemma JoinKeepsLost(tb: Table, p: Tid, n: Tid)
    requires p < |tb.tcb| && n < |tb.tcb|
    ensures JoinedAround(tb, p, n).lost == tb.lost
  {
  }

  lemma FullRemoved(k: Kernel, lost: seq<seq<Tid>>, l: ListId, t: Tid)
    requires !l.Lost?
    ensures Full(Remove(k, l, t), lost) == Remove(Full(k, lost), l, t)
  {
    FullUpdated(k, lost, l, Without(Q(k, l), t));
  }

  lemma LostWithout(tb: Table, k: Kernel, lost: seq<seq<Tid>>, i: nat, t: Tid)
    requires Holds(tb, Full(k, lost)) && i < |lost| == |tb.lost| && t in lost[i]
    ensures var lost1 := lost[i := Without(lost[i], t)];
            !IsLost(lost1, t) && forall x: Tid | IsLost(lost1, x) :: IsLost(lost, x)
  {
    var f, lost1 := Full(k, lost), lost[i := Without(lost[i], t)];
    FullLists(k, lost, Lost(i));
    assert Spells(tb.tcb, HeadOf(tb, Lost(i)), Q(f, Lost(i)));
    WithoutMembers(lost[i], t);
    forall j | 0 <= j < |lost| && j != i
      ensures t !in lost[j]
    {
      FullLists(k, lost, Lost(j));
    }
    forall x: Tid | IsLost(lost1, x)
      ensures IsLost(lost, x)
    {
      var j :| 0 <= j < |lost1| && x in lost1[j];
      assert x in lost[j];
    }
  }

  /** After `thread_remove_from_list` the thread may be lost no more. */
  lemma UnlinkKeepsLost(k: Kernel, lost: seq<seq<Tid>>, t: Tid)
    requires Sound(k) && LostWait(k, lost) && IsThread(k, t) && Removable(T(k, t))
    ensures Sound(RemoveFromList(k, t)) && Loose(RemoveFromList(k, t), t)
    ensures !T(k, t).state.WaitForRecv? && !T(k, t).state.WaitForSend? ==> !IsLost(lost, t)
    ensures forall lost1: seq<seq<Tid>> ::
              !IsLost(lost1, t) && (forall x: Tid | IsLost(lost1, x) :: IsLost(lost, x)) ==>
                LostWait(RemoveFromList(k, t), lost1)
  {
    Unlink(k, t);
  }

  lemma InactiveUnlisted(k: Kernel, lost: seq<seq<Tid>>, t: Tid)
    requires Sound(k) && LostWait(k, lost) && T(k, t).state.Inactive?
    ensures Unlisted(k, t) && !IsLost(lost, t)
  {
  }

  /** The threads queued on a created slot wait for it. */
  lemma CreateKeepsLost(k: Kernel, lost: seq<seq<Tid>>, t: Tid, dir: Frame)
    requires Sound(k) && LostWait(k, lost) && IsThread(k, t) && T(k, t).state.Inactive?
    ensures var lost1 := lost + [Q(k, SendQ(t)), Q(k, RecvQ(t))];
            LostWait(Create(k, t, dir).0, lost1) && !IsLost(lost1, t)
    ensures Unlisted(Put(k.(q := k.q - {SendQ(t), RecvQ(t)}), t, NewThread(dir)), t)
  {
    var lost1, k1 := lost + [Q(k, SendQ(t)), Q(k, RecvQ(t))],
        Put(k.(q := k.q - {SendQ(t), RecvQ(t)}), t, NewThread(dir));
    InactiveUnlisted(k, lost, t);
    forall x: Tid | IsLost(lost1, x)
      ensures IsLost(lost, x) || x in Q(k, SendQ(t)) || x in Q(k, RecvQ(t))
    {
      var j :| 0 <= j < |lost1| && x in lost1[j];
      if j < |lost| { assert x in lost[j]; }
    }
    forall l: ListId
      ensures t !in Q(k1, l)
    {
      CreatedLists(k, t, NewThread(dir), l);
    }
  }

  lemma ScheduleKeepsLost(k: Kernel, lost: seq<seq<Tid>>, c: nat)
    requires Sound(k) && LostWait(k, lost) && c < |k.cpu|
    ensures LostWait(Schedule(k, c).0, lost)
  {
    assert k.cpu[c] == NULL_TID || T(k, k.cpu[c]).state.Running?;
    hide ListsSound, SlotsSound, Schedule;
    ScheduleKeeps(k, c, {});
  }

  lemma MachineApart(tb: Table, k: Kernel, lost: seq<seq<Tid>>, cpu: seq<Tid>, mem: Phys)
    requires Holds(tb, Full(k, lost))
    ensures Holds(tb, Full(k.(cpu := cpu, mem := mem), lost))
  {
    SlotsAndMemoryApart(tb, Full(k, lost), cpu, mem);
  }

  lemma CurrentUnlisted(k: Kernel, lost: seq<seq<Tid>>, c: nat)
    requires Sound(k) && LostWait(k, lost) && c < |k.cpu|
    ensures k.cpu[c] != NULL_TID ==>
              Unlisted(k, k.cpu[c]) && !IsLost(lost, k.cpu[c]) && IsThread(k, k.cpu[c])
                  && T(k, k.cpu[c]).priority <= MAX_PRIORITY
  {
  }

  lemma NextIsNotCurrent(k: Kernel, lost: seq<seq<Tid>>, c: nat, p: nat)
    requires Sound(k) && LostWait(k, lost) && c < |k.cpu| && Q(k, RunQ(p)) != []
    ensures var (k1, t) := Dequeue(k, RunQ(p));
            && IsThread(k1, t) && t != k.cpu[c]
            && (k.cpu[c] != NULL_TID ==> Unlisted(k1, k.cpu[c]))
  {
    DequeueKeeps(k, RunQ(p));
    CurrentUnlisted(k, lost, c);
  }

  lemma DrainedLoose(k: Kernel, t: Tid)
    requires Sound(k) && IsThread(k, t) && Removable(T(k, t))
    ensures Loose(Drain(RemoveFromList(k, t), t), t)
  {
    var k0 := RemoveFromList(k, t);
    Unlink(k, t);
    DrainKeeps(k0, t);
    forall l: ListId
      ensures t !in Q(Drain(k0, t), l)
    {
      assert t !in Q(k0, l);
    }
  }

  lemma UnlistedHasNullLinks(tb: Table, k: Kernel, t: Tid)
    requires Holds(tb, k) && 0 < t < |tb.tcb| && Unlisted(k, t)
    ensures NullLinks(tb.tcb[t])
  {
  }

  /** A thread is on the list its state calls for, or on none. */
  lemma OwnList(k: Kernel, t: Tid)
    requires ListsSound(k)
    ensures Unlisted(k, t) || (Home(T(k, t)).Some? && t in Q(k, Home(T(k, t)).value))
  {
  }

  lemma DetachLists(k: Kernel, t: Tid)
    requires ListsSound(k) && t < |k.threads|
    ensures var k1 := Put(k, t, T(k, t).(waitTid := NULL_TID));
            Unlisted(k1, t) || (Home(T(k, t)).Some? && t in Q(k1, Home(T(k, t)).value))
  {
    OwnList(k, t);
    var k1 := Put(k, t, T(k, t).(waitTid := NULL_TID));
    assert forall l: ListId :: Q(k1, l) == Q(k, l);
  }

  lemma ClearSlotFirst(cpu: seq<Tid>, t: Tid, c: nat)
    requires c <= |cpu| && t !in cpu[..c] && (c < |cpu| ==> cpu[c] == t)
    ensures ClearSlot(cpu, t) == if c < |cpu| then cpu[c := NULL_TID] else cpu
  {
    if c > 0 {
      assert cpu[0] in cpu[..c];
      assert cpu[1..][..c - 1] == cpu[..c][1..];
      ClearSlotFirst(cpu[1..], t, c - 1);
    }
  }

  lemma EndsOf(tb: Table, k: Kernel, l: ListId)
    requires Holds(tb, k) && IsList(tb, l)
    ensures var h, s := HeadOf(tb, l), Q(k, l);
            if s == [] then h == List(NULL_TID, NULL_TID)
            else && h.head == s[0] && h.tail == s[|s| - 1] && h.head != NULL_TID && h.tail != NULL_TID
                 && Delete(s, |s| - 1) == s[..|s| - 1] && Delete(s, 0) == s[1..]
  {
    assert Spells(tb.tcb, HeadOf(tb, l), Q(k, l));
  }

  lemma PopWrites(tb: Table, k: Kernel, l: ListId, j: nat, t: Tid)
    requires Holds(tb, k) && IsList(tb, l) && j < |Q(k, l)| && Q(k, l)[j] == t && (j == 0 || j == |Q(k, l)| - 1)
    ensures 0 < t < |tb.tcb| && tb.tcb[t].prev < |tb.tcb| && tb.tcb[t].next < |tb.tcb|
    ensures j == |Q(k, l)| - 1 ==>
              tb.tcb[t].next == NULL_TID && HeadOf(tb, l).tail == t
                  && (HeadOf(tb, l).head == t <==> tb.tcb[t].prev == NULL_TID)
    ensures j == 0 ==>
              tb.tcb[t].prev == NULL_TID && HeadOf(tb, l).head == t
                  && (HeadOf(tb, l).tail == t <==> tb.tcb[t].next == NULL_TID)
    ensures var p, n := tb.tcb[t].prev, tb.tcb[t].next;
            Holds(Nulled(JoinedAround(WithHead(tb, l, HeadAfter(HeadOf(tb, l), t, p, n)), p, n), t),
                k.(q := k.q[l := Delete(Q(k, l), j)]))
  {
    var s := Q(k, l);
    assert Spells(tb.tcb, HeadOf(tb, l), s);
    assert t in s;
    NeighboursInTable(tb, k, l, t);
    assert tb.tcb[s[j]].prev == NodeAt(s, j - 1) && tb.tcb[s[j]].next == NodeAt(s, j + 1);
    var p, n := tb.tcb[t].prev, tb.tcb[t].next;
    WritesRemove(tb, k, l, j, t);
    HeadAndLinksCommute(tb, l, HeadAfter(HeadOf(tb, l), t, p, n), p, n);
  }

  lemma RemoveWrites(tb: Table, k: Kernel, l: ListId, t: Tid)
    requires Holds(tb, k) && IsList(tb, l) && 0 < t < |tb.tcb| && tb.tcb[t].prev < |tb.tcb| && tb.tcb[t].next < |tb.tcb|
    requires t in Q(k, l) || Unlisted(k, t)
    ensures var p, n := tb.tcb[t].prev, tb.tcb[t].next;
            var tb' := Nulled(WithHead(JoinedAround(tb, p, n), l, HeadAfter(HeadOf(tb, l), t, p, n)), t);
            Holds(tb', Remove(k, l, t)) && (Unlisted(k, t) ==> tb' == tb)
  {
    var s := Q(k, l);
    if t in s {
      var j :| 0 <= j < |s| && s[j] == t;
      assert Spells(tb.tcb, HeadOf(tb, l), s);
      WithoutIsDelete(s, j);
      WritesRemove(tb, k, l, j, t);
    } else {
      NeighboursInTable(tb, k, l, t);
      assert tb.tcb[t := tb.tcb[t]] == tb.tcb;
      assert WithHead(tb, l, HeadOf(tb, l)) == tb;
    }
  }
}

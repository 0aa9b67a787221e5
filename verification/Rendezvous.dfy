/** One message between two threads: the same result whichever side arrives first. */
module Rendezvous {
  import opened Basics
  import opened AddressSpace
  import opened KernelState
  import opened KernelInvariant
  import opened KernelRuns
  import opened Copying

  predicate Waiting(th: Thread) {
    th.state.WaitForSend? || th.state.WaitForRecv?
  }

  /** Message calls are made by running threads. */
  predicate Active(k: Kernel, op: Op) {
    (op.DoSend? || op.DoRecv? ==> T(k, op.t).state.Running?)
  }

  /** A call leaves every other thread as it was, or not waiting: a thread can
      be made to wait only by its own message call. */
  lemma OthersDoNotWait(k: Kernel, op: Op, t: Tid)
    requires Sound(k) && InRange(k, op) && Active(k, op) && IsThread(k, t) && !((op.DoSend? || op.DoRecv?) && op.t == t)
    ensures T(Step(DOCUMENTED, k, op), t) == T(k, t) || !Waiting(T(Step(DOCUMENTED, k, op), t))
  {
    hide Sound, Send, Recv, Release, Schedule;
    match op
    case DoCreate(u, dir) =>
    case DoStart(u) => StartKeeps(k, u, {});
    case DoPause(u) => if Removable(T(k, u)) { Unlink(k, u); }
    case DoWakeup(u) => StartKeeps(k, u, {});
    case DoRelease(u) => ReleaseOther(k, u, t);
    case DoSchedule(c) => ScheduleKeeps(k, c, {});
    case DoSend(u, peer, m) => SendOther(k, u, peer, m, t);
    case DoRecv(u, peer, m) => RecvOther(k, u, peer, m, t);
  }

  /** No call disturbs a parked thread: its TCB, with the message parked in its
      registers, is the same for as long as it waits. */
  lemma ParkedStable(k: Kernel, op: Op, t: Tid)
    requires Sound(k) && InRange(k, op) && Active(k, op) && Waiting(T(k, t)) && IsThread(k, t)
    requires T(Step(DOCUMENTED, k, op), t).state == T(k, t).state
    ensures T(Step(DOCUMENTED, k, op), t) == T(k, t)
  {
    hide Sound, Step;
    OthersDoNotWait(k, op, t);
  }

  lemma ReleaseOther(k: Kernel, u: Tid, t: Tid)
    requires Sound(k) && IsThread(k, u)
    ensures T(Release(k, u).0, t) == T(k, t) || !Waiting(T(Release(k, u).0, t))
  {
    if Removable(T(k, u)) {
      hide Sound, Drain, RemoveFromList;
      Unlink(k, u);
      DrainKeeps(RemoveFromList(k, u), u);
    }
  }

  /** Delivery touches the two threads of the message only. */
  lemma SendDeliverOther(k: Kernel, s: Tid, r: Tid, m: Message, t: Tid)
    requires Sound(k) && IsThread(k, r) && t != s && t != r
    ensures T(SendDeliver(k, s, r, m).0, t) == T(k, t)
  {
    var k1 := k.(mem := SendCopy(k, s, r, m).0);
    hide Sound, SendCopy;
    SamePlacesKeeps(k, k1);
    StartKeeps(k1, r, {});
    assert T(k1, t) == T(k, t);
  }

  lemma RecvDeliverOther(k: Kernel, r: Tid, s: Tid, m: Message, t: Tid)
    requires Sound(k) && IsThread(k, s) && t != s && t != r
    ensures T(RecvDeliver(k, r, s, m).0, t) == T(k, t)
  {
    var k1 := k.(mem := RecvCopy(k, r, s, m).0);
    hide Sound, RecvCopy;
    SamePlacesKeeps(k, k1);
    StartKeeps(k1, s, {});
    assert T(k1, t) == T(k, t);
  }

  lemma SendOther(k: Kernel, s: Tid, to: Tid, m: Message, t: Tid)
    requires Sound(k) && IsThread(k, s) && to < |k.threads| && T(k, s).state.Running? && t != s
    ensures T(Send(DOCUMENTED, k, s, to, m).0, t) == T(k, t) || !Waiting(T(Send(DOCUMENTED, k, s, to, m).0, t))
  {
    hide ListsSound, SlotsSound, SendDeliver, SendBlock, Broken, SendCopy, Placed, CompleteBut;
    if BadArgs(s, to, m) {
    } else if SendTakes(k, s, to) {
      SendTakenDelivers(DOCUMENTED, k, s, m);
      DequeueKeeps(k, RecvQ(s));
      var (k0, r) := Dequeue(k, RecvQ(s));
      SendDeliverThen(k0, s, r, m, t);
    } else if AcceptsSend(k, s, to, m.kernel()) {
      SendDeliverThen(k, s, to, m, t);
    } else if !m.noBlock() {
      SendBlockOther(k, s, to, m, t);
    }
  }

  lemma SendDeliverThen(k: Kernel, s: Tid, r: Tid, m: Message, t: Tid)
    requires Sound(k) && IsThread(k, r) && T(k, r).state.WaitForSend? && t != s
    ensures var k1 := SendDeliver(k, s, r, m).0; T(k1, t) == T(k, t) || !Waiting(T(k1, t))
  {
    hide Sound, SendCopy, Placed, CompleteBut, Start, SendFinish;
    if t != r {
      SendDeliverOther(k, s, r, m, t);
    } else if SendCopies(k, s, r, m) {
      SendDeliverKeeps(k, s, r, m);
    }
  }

  /** Switching away makes nobody wait. */
  lemma SwitchOther(k: Kernel, t: Tid)
    requires Sound(k)
    ensures T(SwitchAway(k).0, t) == T(k, t) || !Waiting(T(SwitchAway(k).0, t))
  {
    hide ListsSound, SlotsSound, Schedule, CompleteBut;
    ScheduleKeeps(k, 0, {});
  }

  lemma ParkOthers(b: Build, k: Kernel, s: Tid, r: Tid, m: Message, t: Tid)
    ensures t != s ==>
              T(SendPark(b, k, s, r, m), t) == T(Attach(b, RemoveFromList(k, s), s, WaitForRecv, r, SendQ(r)), t)
    ensures t != r && b.parksCaller ==>
              T(RecvPark(b, k, r, s, m), t) == T(Attach(b, RemoveFromList(k, r), r, WaitForSend, s, RecvQ(s)), t)
  {
    hide Attach, RemoveFromList;
  }

  lemma SendBlockOther(k: Kernel, s: Tid, r: Tid, m: Message, t: Tid)
    requires Sound(k) && IsThread(k, s) && r < |k.threads| && T(k, s).state.Running? && t != s
    ensures T(SendBlock(DOCUMENTED, k, s, r, m).0, t) == T(k, t) || !Waiting(T(SendBlock(DOCUMENTED, k, s, r, m).0, t))
  {
    hide ListsSound, SlotsSound, SendPark, Attach, RemoveFromList, SwitchAway;
    ParkForMessage(DOCUMENTED, k, s, WaitForRecv, r);
    ParkKeepsPlaces(DOCUMENTED, k, s, r, m);
    ParkOthers(DOCUMENTED, k, s, r, m, t);
    SamePlacesKeeps(Attach(DOCUMENTED, RemoveFromList(k, s), s, WaitForRecv, r, SendQ(r)),
        SendPark(DOCUMENTED, k, s, r, m));
    SwitchOther(SendPark(DOCUMENTED, k, s, r, m), t);
  }

  lemma RecvBlockOther(k: Kernel, r: Tid, s: Tid, m: Message, t: Tid)
    requires Sound(k) && IsThread(k, r) && s < |k.threads| && T(k, r).state.Running? && t != r
    ensures T(RecvBlock(DOCUMENTED, k, r, s, m).0, t) == T(k, t) || !Waiting(T(RecvBlock(DOCUMENTED, k, r, s, m).0, t))
  {
    hide ListsSound, SlotsSound, RecvPark, Attach, RemoveFromList, SwitchAway;
    ParkForMessage(DOCUMENTED, k, r, WaitForSend, s);
    ParkKeepsPlaces(DOCUMENTED, k, s, r, m);
    ParkOthers(DOCUMENTED, k, s, r, m, t);
    SamePlacesKeeps(Attach(DOCUMENTED, RemoveFromList(k, r), r, WaitForSend, s, RecvQ(s)),
        RecvPark(DOCUMENTED, k, r, s, m));
    SwitchOther(RecvPark(DOCUMENTED, k, r, s, m), t);
  }

  lemma RecvOther(k: Kernel, r: Tid, from: Tid, m: Message, t: Tid)
    requires Sound(k) && IsThread(k, r) && from < |k.threads| && T(k, r).state.Running? && t != r
    ensures T(Recv(DOCUMENTED, k, r, from, m).0, t) == T(k, t) || !Waiting(T(Recv(DOCUMENTED, k, r, from, m).0, t))
  {
    hide ListsSound, SlotsSound, RecvDeliver, RecvBlock, Broken, RecvCopy, Placed, CompleteBut;
    if BadArgs(r, from, m) {
    } else if RecvTakes(k, r, from, m) {
      RecvTakenDelivers(DOCUMENTED, k, r, m);
      DequeueKeeps(k, SendQ(r));
      var (k0, s) := Dequeue(k, SendQ(r));
      RecvDeliverThen(k0, r, s, m, t);
    } else if AcceptsRecv(k, r, from, m.kernel()) {
      RecvDeliverThen(k, r, from, m, t);
    } else if !m.noBlock() {
      RecvBlockOther(k, r, from, m, t);
    }
  }

  lemma RecvDeliverThen(k: Kernel, r: Tid, s: Tid, m: Message, t: Tid)
    requires Sound(k) && IsThread(k, s) && T(k, s).state.WaitForRecv? && t != r
    ensures var k1 := RecvDeliver(k, r, s, m).0; T(k1, t) == T(k, t) || !Waiting(T(k1, t))
  {
    hide Sound, RecvCopy, Placed, CompleteBut, Start, RecvFinish;
    if t != s {
      RecvDeliverOther(k, r, s, m, t);
    } else if RecvCopies(k, r, s, m) {
      RecvDeliverKeeps(k, r, s, m);
    }
  }

  // ---------- the two orders ----------

  /** A run of any calls during which `t` stays parked. */
  ghost predicate StaysParked(ks: seq<Kernel>, ops: seq<Op>, t: Tid) {
    && Run(DOCUMENTED, ks, ops)
    && (forall i | 0 <= i < |ops| :: Active(ks[i], ops[i]))
    && (forall i | 0 <= i < |ks| :: T(ks[i], t).state == T(ks[0], t).state)
  }

  lemma {:induction false} ParkedThroughout(ks: seq<Kernel>, ops: seq<Op>, t: Tid, i: nat)
    requires StaysParked(ks, ops, t) && i <= |ops| && Sound(ks[0]) && IsThread(ks[0], t) && Waiting(T(ks[0], t))
    ensures Sound(ks[i]) && SameSize(ks[0], ks[i]) && T(ks[i], t) == T(ks[0], t)
  {
    if i > 0 {
      ParkedThroughout(ks, ops, t, i - 1);
      StepKeeps(DOCUMENTED, ks[i - 1], ops[i - 1]);
      ParkedStable(ks[i - 1], ops[i - 1], t);
    }
  }

  /** An ordinary message from `s` to `r`, and a matching ordinary receive. */
  predicate Ordinary(s: Tid, r: Tid, m: Message, w: Message) {
    && s != NULL_TID && r != NULL_TID && s != r
    && !BadArgs(s, r, m) && !BadArgs(r, s, w)
    && !m.kernel() && !w.kernel() && !m.noBlock() && !w.noBlock()
  }

  /** In `k`, `s` sends and blocks; `ks` is what happens until, in the last
      state `e`, `r` runs and receives. */
  ghost predicate SendFirst(k: Kernel, ks: seq<Kernel>, ops: seq<Op>, e: Kernel, s: Tid, r: Tid, m: Message,
                            w: Message) {
    && Ordinary(s, r, m, w)
    && Sound(k) && IsThread(k, s) && IsThread(k, r) && T(k, s).state.Running?
    && !T(k, r).state.Inactive? && !T(k, r).state.Zombie? && !AcceptsSend(k, s, r, false)
    && StaysParked(ks, ops, s) && ks[0] == Send(DOCUMENTED, k, s, r, m).0
    && e == ks[|ops|] && 0 < |e.cpu| && T(e, r).state.Running? && RecvCopies(e, r, s, w)
  }

  /** In `k`, `r` receives and blocks; `ks` is what happens until, in the last
      state `e`, `s` runs and sends. */
  ghost predicate RecvFirst(k: Kernel, ks: seq<Kernel>, ops: seq<Op>, e: Kernel, s: Tid, r: Tid, m: Message,
                            w: Message) {
    && Ordinary(s, r, m, w)
    && Sound(k) && IsThread(k, s) && IsThread(k, r) && T(k, r).state.Running? && !AcceptsRecv(k, r, s, false)
    && StaysParked(ks, ops, r) && ks[0] == Recv(DOCUMENTED, k, r, s, w).0
    && e == ks[|ops|] && 0 < |e.cpu| && T(e, s).state.Running? && SendCopies(e, s, r, m)
  }

  /** What the rendezvous leaves in the two TCBs, whatever the order. */
  ghost predicate Delivered(k: Kernel, s: Tid, r: Tid, m: Message, w: Message) {
    && Received(k, s, r, false, m.flags, m.subject, Min(m.length, w.length))
    && !Waiting(T(k, s)) && !Waiting(T(k, r))
  }

  /** The sender waits for `r`, or for anybody, with the message in its TCB. */
  lemma SendParks(b: Build, k: Kernel, s: Tid, r: Tid, m: Message)
    requires Sound(k) && IsThread(k, s) && PeerOk(b, k, r) && T(k, s).state.Running?
    ensures var k1 := SendBlock(b, k, s, r, m).0;
            && Sound(k1)
            && T(k1, s).state.WaitForRecv? && T(k1, s).waitTid == PeerTid(b, r) && T(k1, s).waitKernel == m.kernel()
               && T(k1, s).dir == T(k, s).dir
            && T(k1, s).regs == Regs(E_INTERRUPT, m.buffer, m.flags, m.subject, m.length)
  {
    ParkForMessage(b, k, s, WaitForRecv, r);
    ParkKeepsPlaces(b, k, s, r, m);
    SamePlacesKeeps(Attach(b, RemoveFromList(k, s), s, WaitForRecv, r, SendQ(r)), SendPark(b, k, s, r, m));
    SwitchKeeps(SendPark(b, k, s, r, m));
  }

  lemma RecvParks(b: Build, k: Kernel, r: Tid, s: Tid, w: Message)
    requires Sound(k) && IsThread(k, r) && PeerOk(b, k, s) && T(k, r).state.Running? && b.parksCaller
    ensures var k1 := RecvBlock(b, k, r, s, w).0;
            && Sound(k1)
            && T(k1, r).state.WaitForSend? && T(k1, r).waitTid == PeerTid(b, s) && T(k1, r).waitKernel == w.kernel()
               && T(k1, r).dir == T(k, r).dir
            && T(k1, r).regs == Regs(E_INTERRUPT, w.buffer, w.flags, T(k, r).regs.esi, w.length)
  {
    ParkForMessage(b, k, r, WaitForSend, s);
    ParkKeepsPlaces(b, k, s, r, w);
    SamePlacesKeeps(Attach(b, RemoveFromList(k, r), r, WaitForSend, s, RecvQ(s)), RecvPark(b, k, r, s, w));
    SwitchKeeps(RecvPark(b, k, r, s, w));
  }

  lemma HeaderIs(kernel: bool, s: Tid, flags: Flags)
    ensures Header(kernel, s, flags) == (if kernel then KERNEL_TID else s) + 0x1_0000 * flags
  {
  }

  lemma StartsWaiting(k: Kernel, t: Tid)
    requires Waiting(T(k, t))
    ensures Start(k, t).1 == E_OK
  {
  }

  /** A message of `s` has reached `r`: `n` bytes, with the sender (or the
      kernel) and the flags in the recipient's ebx and the subject in its esi,
      both threads told the count. */
  ghost predicate Received(k: Kernel, s: Tid, r: Tid, kernel: bool, flags: Flags, subject: Word, n: Word) {
    && T(k, r).regs.ebx == (if kernel then KERNEL_TID else s) + 0x1_0000 * flags
    && T(k, r).regs.esi == subject
    && T(k, r).regs.edi == n
    && T(k, s).regs.esi == n
  }

  /** `n` is the smaller of two lengths. */
  predicate Smaller(n: int, a: int, b: int) {
    n <= a && n <= b && (n == a || n == b)
  }

  /** A waiting sender's message is received, and the sender is started. */
  lemma RecvCompletes(k: Kernel, s: Tid, r: Tid, m: Message, w: Message)
    requires Sound(k) && IsThread(k, s) && IsThread(k, r) && s != r && RecvCopies(k, r, s, w)
    requires T(k, s).state.WaitForRecv? && T(k, s).regs == Regs(E_INTERRUPT, m.buffer, m.flags, m.subject, m.length)
    ensures var (k1, out) := RecvDeliver(k, r, s, w);
            && out == Ret(if w.kernel() && !T(k, s).waitKernel then E_PREEMPT else E_OK)
            && Received(k1, s, r, T(k, s).waitKernel, m.flags, m.subject, Min(m.length, w.length))
               && k1.mem == RecvCopy(k, r, s, w).0
            && Smaller(T(k1, r).regs.edi, m.length, w.length)
            && T(k1, s).state.Ready? && T(k1, s).regs.eax == E_OK && T(k1, s).regs.ebx == m.buffer
               && !T(k1, s).waitKernel && T(k1, r).state == T(k, r).state
  {
    var k0 := k.(mem := RecvCopy(k, r, s, w).0);
    assert RecvCopies(k, r, s, w);
    HeaderIs(T(k, s).waitKernel, s, m.flags);
    hide Sound, RecvCopy, CompleteBut, Placed, Loose, Start, Header;
    SamePlacesKeeps(k, k0);
    StartKeeps(k0, s, {});
    StartKeepsMessage(k0, s);
    assert Start(k0, s).1 == E_OK by { StartsWaiting(k0, s); }
    assert T(Start(k0, s).0, r) == T(k, r);
  }

  /** A message is sent to a waiting recipient, who is started. */
  lemma SendCompletes(k: Kernel, s: Tid, r: Tid, m: Message)
    requires Sound(k) && IsThread(k, s) && IsThread(k, r) && s != r && SendCopies(k, s, r, m)
             && T(k, r).state.WaitForSend?
    ensures var (k1, out) := SendDeliver(k, s, r, m);
            && out == Ret(E_OK)
            && Received(k1, s, r, m.kernel(), m.flags, m.subject, Min(m.length, T(k, r).regs.edi))
               && k1.mem == SendCopy(k, s, r, m).0
            && Smaller(T(k1, r).regs.edi, m.length, T(k, r).regs.edi)
            && T(k1, r).state.Ready?
               && T(k1, r).regs.eax == (if m.kernel() && !T(k, r).waitKernel then E_PREEMPT else E_OK)
            && T(k1, s).regs.ebx == r && T(k1, s).state == T(k, s).state && !T(k1, r).waitKernel
  {
    var k0 := k.(mem := SendCopy(k, s, r, m).0);
    assert SendCopies(k, s, r, m);
    HeaderIs(m.kernel(), s, m.flags);
    hide Sound, SendCopy, CompleteBut, Placed, Loose, Start, Header;
    SamePlacesKeeps(k, k0);
    StartKeeps(k0, r, {});
    StartKeepsMessage(k0, r);
    assert Start(k0, r).1 == E_OK by { StartsWaiting(k0, r); }
    assert T(Start(k0, r).0, s) == T(k, s);
  }

  /** A send, whatever becomes of it, changes no byte outside the buffer the
      recipient described when it began to wait, if that buffer holds none of
      the recipient's page tables. */
  lemma SendStaysInBuffer(k: Kernel, s: Tid, r: Tid, m: Message, q: Addr)
    requires var rcv := T(k, r); var buffer := Other(T(k, s).dir, rcv.dir, rcv.regs.ebx);
             Clear(k.mem, buffer, rcv.regs.edi) && Outside(k.mem, buffer, rcv.regs.edi, q)
    ensures SendDeliver(k, s, r, m).0.mem[q] == k.mem[q]
  {
    var rcv := T(k, r);
    var buffer, n := Other(T(k, s).dir, rcv.dir, rcv.regs.ebx), Min(rcv.regs.edi, m.length);
    ClearLess(k.mem, buffer, rcv.regs.edi, n);
    hide Clear, Move, Start;
    MoveWithin(k.mem, T(k, s).dir, m.buffer, rcv.dir, rcv.regs.ebx, n, true, q);
    StartKeepsMessage(k.(mem := SendCopy(k, s, r, m).0), r);
  }

  /** The same for a receive and the buffer it names. */
  lemma RecvStaysInBuffer(k: Kernel, r: Tid, s: Tid, w: Message, q: Addr)
    requires var buffer := Mine(T(k, r).dir, w.buffer);
             Clear(k.mem, buffer, w.length) && Outside(k.mem, buffer, w.length, q)
    ensures RecvDeliver(k, r, s, w).0.mem[q] == k.mem[q]
  {
    var snd := T(k, s);
    var n := Min(snd.regs.edi, w.length);
    ClearLess(k.mem, Mine(T(k, r).dir, w.buffer), w.length, n);
    hide Clear, Move, Start;
    MoveWithin(k.mem, T(k, r).dir, w.buffer, snd.dir, snd.regs.ebx, n, false, q);
    StartKeepsMessage(k.(mem := RecvCopy(k, r, s, w).0), s);
  }

  lemma SendFirstDelivers(k: Kernel, ks: seq<Kernel>, ops: seq<Op>, e: Kernel, s: Tid, r: Tid, m: Message, w: Message)
    requires SendFirst(k, ks, ops, e, s, r, m, w)
    ensures var (k1, out) := Recv(DOCUMENTED, e, r, s, w);
            && out == Ret(E_OK) && T(k1, s).regs.eax == E_OK && Delivered(k1, s, r, m, w)
               && T(k1, s).regs.ebx == m.buffer
            && k1.mem == Move(e.mem, T(e, r).dir, w.buffer, T(k, s).dir, m.buffer, Min(m.length, w.length), false).0
  {
    assert 0 < |k.cpu|;
    hide Sound, StaysParked, Send, Recv, Move;
    SendFirstBlocks(k, s, r, m, w);
    SendParks(DOCUMENTED, k, s, r, m);
    ParkedThroughout(ks, ops, s, |ops|);
    RecvAccepts(e, s, r, w);
    RecvCompletes(e, s, r, m, w);
  }

  lemma SendFirstBlocks(k: Kernel, s: Tid, r: Tid, m: Message, w: Message)
    requires 0 < |k.cpu| && Ordinary(s, r, m, w) && !T(k, r).state.Inactive? && !T(k, r).state.Zombie?
             && !AcceptsSend(k, s, r, false)
    ensures Send(DOCUMENTED, k, s, r, m) == SendBlock(DOCUMENTED, k, s, r, m)
  {
  }

  lemma RecvAccepts(k: Kernel, s: Tid, r: Tid, w: Message)
    requires 0 < |k.cpu| && s != NULL_TID && s != r && !BadArgs(r, s, w) && T(k, s).state.WaitForRecv?
             && T(k, s).waitTid == r
    ensures Recv(DOCUMENTED, k, r, s, w) == RecvDeliver(k, r, s, w)
  {
  }

  lemma RecvFirstDelivers(k: Kernel, ks: seq<Kernel>, ops: seq<Op>, e: Kernel, s: Tid, r: Tid, m: Message, w: Message)
    requires RecvFirst(k, ks, ops, e, s, r, m, w)
    ensures var (k1, out) := Send(DOCUMENTED, e, s, r, m);
            && out == Ret(E_OK) && T(k1, r).regs.eax == E_OK && Delivered(k1, s, r, m, w) && T(k1, s).regs.ebx == r
            && k1.mem == Move(e.mem, T(e, s).dir, m.buffer, T(k, r).dir, w.buffer, Min(m.length, w.length), true).0
  {
    assert 0 < |k.cpu|;
    hide Sound, StaysParked, Send, Recv, Move;
    RecvFirstBlocks(k, s, r, m, w);
    RecvParks(DOCUMENTED, k, r, s, w);
    ParkedThroughout(ks, ops, r, |ops|);
    SendAccepts(e, s, r, m);
    SendCompletes(e, s, r, m);
  }

  lemma RecvFirstBlocks(k: Kernel, s: Tid, r: Tid, m: Message, w: Message)
    requires 0 < |k.cpu| && Ordinary(s, r, m, w) && !AcceptsRecv(k, r, s, false)
    ensures Recv(DOCUMENTED, k, r, s, w) == RecvBlock(DOCUMENTED, k, r, s, w)
  {
  }

  lemma SendAccepts(k: Kernel, s: Tid, r: Tid, m: Message)
    requires 0 < |k.cpu| && r != NULL_TID && s != r && !BadArgs(s, r, m) && T(k, r).state.WaitForSend?
             && T(k, r).waitTid == s
    ensures Send(DOCUMENTED, k, s, r, m) == SendDeliver(k, s, r, m)
  {
  }

  /** The message copy has the same effect in either order. */
  lemma MoveEitherWay(t: Phys, sdir: Frame, from: Addr, rdir: Frame, to: Addr, n: nat)
    requires SmallRange(t, sdir, from, n) && SmallRange(t, rdir, to, n)
    requires Undisturbed(t, Range(sdir, from, Mmu), Range(rdir, to, Mmu), n)
    ensures Move(t, rdir, to, sdir, from, n, false).0 == Move(t, sdir, from, rdir, to, n, true).0
    ensures Move(t, sdir, from, rdir, to, n, true).0 == Copy(t, sdir, from, Mmu, rdir, to, Mmu, n).0
  {
    hide SmallRange, Undisturbed, Move, Copy;
    UndisturbedEitherWay(t, Range(sdir, from, Mmu), Range(rdir, to, Mmu), n, ViaFor(rdir, sdir), Mmu);
    UndisturbedEitherWay(t, Range(sdir, from, Mmu), Range(rdir, to, Mmu), n, Mmu, ViaFor(sdir, rdir));
    MoveIsCopy(t, rdir, to, sdir, from, n, false);
    MoveIsCopy(t, sdir, from, rdir, to, n, true);
    CopyEitherWay(t, sdir, from, rdir, to, n, ViaFor(rdir, sdir), Mmu, Mmu, ViaFor(sdir, rdir));
    CopyEitherWay(t, sdir, from, rdir, to, n, Mmu, Mmu, Mmu, ViaFor(sdir, rdir));
  }

  /** Rendezvous is order independent.  Whatever else the kernel does while one
      side waits, if memory is the same when the copy is made, the buffers are
      mapped by 4 KiB pages, and the copy overwrites neither tables in use nor
      bytes it has yet to read, both orders end with the same bytes in memory,
      the same recipient registers, the same count for the sender, and E_OK on
      both sides.  Only the sender's ebx tells the orders apart: it is the
      recipient's tid when the recipient waited, and still the send buffer
      when the sender did. */
  lemma OrderIndependent(k: Kernel, ks: seq<Kernel>, ops: seq<Op>, e: Kernel,
                         k': Kernel, ks': seq<Kernel>, ops': seq<Op>, e': Kernel,
                         s: Tid, r: Tid, m: Message, w: Message)
    requires SendFirst(k, ks, ops, e, s, r, m, w) && RecvFirst(k', ks', ops', e', s, r, m, w)
    requires e.mem == e'.mem && T(k, s).dir == T(e', s).dir && T(e, r).dir == T(k', r).dir
    requires SmallRange(e.mem, T(k, s).dir, m.buffer, Min(m.length, w.length))
    requires SmallRange(e.mem, T(e, r).dir, w.buffer, Min(m.length, w.length))
    requires Undisturbed(e.mem, Range(T(k, s).dir, m.buffer, Mmu), Range(T(e, r).dir, w.buffer, Mmu),
             Min(m.length, w.length))
    ensures var (k1, out) := Recv(DOCUMENTED, e, r, s, w); var (k1', out') := Send(DOCUMENTED, e', s, r, m);
            && k1.mem == k1'.mem
            && k1.mem == Copy(e.mem, T(k, s).dir, m.buffer, Mmu, T(e, r).dir, w.buffer, Mmu, Min(m.length, w.length)).0
            && T(k1, r).regs.ebx == T(k1', r).regs.ebx
            && T(k1, r).regs.esi == T(k1', r).regs.esi
            && T(k1, r).regs.edi == T(k1', r).regs.edi
            && T(k1, s).regs.esi == T(k1', s).regs.esi
            && out == out' == Ret(E_OK) && T(k1, s).regs.eax == T(k1', r).regs.eax == E_OK
            && !Waiting(T(k1, s)) && !Waiting(T(k1, r)) && !Waiting(T(k1', s)) && !Waiting(T(k1', r))
            && (T(k1, s).regs.ebx == T(k1', s).regs.ebx <==> m.buffer == r)
  {
    hide Sound, StaysParked, Send, Recv, Move, Undisturbed, SmallRange, Copy;
    SendFirstDelivers(k, ks, ops, e, s, r, m, w);
    RecvFirstDelivers(k', ks', ops', e', s, r, m, w);
    MoveEitherWay(e.mem, T(k, s).dir, m.buffer, T(e, r).dir, w.buffer, Min(m.length, w.length));
  }

  /** A blocking receive that names a sender parks its caller exactly in a
      build that follows the comments; as written it parks the sender instead,
      on the caller's queue. */
  lemma BlockingReceiveParksCallerIff(b: Build, k: Kernel, r: Tid, s: Tid, w: Message)
    requires Sound(k) && IsThread(k, r) && IsThread(k, s) && s != r && b.nullTid < |k.threads|
    requires T(k, r).state.Running? && Removable(T(k, s))
    ensures var k1 := RecvBlock(b, k, r, s, w).0;
            && (T(k1, r).state.WaitForSend? <==> b.parksCaller)
            && (!b.parksCaller ==>
                 T(k1, s).state.WaitForSend? && T(k1, s).waitTid == r && s in Q(k1, RecvQ(r)) && Runnable(T(k1, r)))
  {
    if b.parksCaller {
      RecvParks(b, k, r, s, w);
    } else {
      SenderParked(b, k, r, s, w);
    }
  }

  lemma SenderParked(b: Build, k: Kernel, r: Tid, s: Tid, w: Message)
    requires Sound(k) && IsThread(k, r) && IsThread(k, s) && s != r && b.nullTid < |k.threads| && !b.parksCaller
    requires T(k, r).state.Running? && Removable(T(k, s))
    ensures var k1 := RecvBlock(b, k, r, s, w).0;
            T(k1, s).state.WaitForSend? && T(k1, s).waitTid == r && s in Q(k1, RecvQ(r)) && Runnable(T(k1, r))
  {
    var k1 := Attach(b, RemoveFromList(k, s), s, WaitForSend, r, RecvQ(r));
    var k2 := RecvPark(b, k, r, s, w);
    hide ListsSound, SlotsSound, CompleteBut, RecvPark, Attach, RemoveFromList, Schedule;
    ParkForMessage(b, k, s, WaitForSend, r);
    ParkKeepsPlaces(b, k, s, r, w);
    SamePlacesKeeps(k1, k2);
    SwitchKeeps(k2);
    ScheduleKeeps(k2, 0, {});
    assert Placed(k2, s);
  }
}

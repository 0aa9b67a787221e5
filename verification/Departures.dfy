/** Runs from boot that show where the message and thread code departs from
    what its comments promise. */
module Departures {
  import opened Basics
  import opened AddressSpace
  import opened KernelState
  import opened KernelInvariant
  import opened KernelRuns
  import opened Rendezvous
  import opened MessageOutcomes
  import opened BootRuns

  const HEADER := Message(0, 0, 0, 0)           // blocking, no bytes
  const HEADER_NOW := Message(0, 1, 0, 0)       // the same with MSG_NOBLOCK
  const BYTE := Message(0, 0, 0x1000, 1)        // blocking, one byte
  const KERNEL_HEADER := Message(0, 0x80, 0, 0) // blocking, no bytes, MSG_KERNEL

  /** A message call of thread 2. */
  predicate BySecond(op: Op) {
    && (op.DoSend? || op.DoRecv?) && op.t == 2
    && (op.peer == ANY || op.peer == 1 || op.peer == 3)
    && (op.m == HEADER || op.m == BYTE || op.m == KERNEL_HEADER)
  }

  /** Its peer is not waiting, so it blocks. */
  lemma SecondBlocks(k: Kernel, op: Op)
    requires Staged(k) && BySecond(op)
    ensures Blocks(k, op)
  {
    NobodyQueued(k);
    hide ListsSound, SlotsSound, CompleteBut, Send, Recv;
    if op.DoSend? {
      SendServedIff(DOCUMENTED, k, 2, op.peer, op.m);
      SendOutcome(DOCUMENTED, k, 2, op.peer, op.m);
    } else {
      RecvServedIff(DOCUMENTED, k, 2, op.peer, op.m);
      RecvOutcome(DOCUMENTED, k, 2, op.peer, op.m);
    }
  }

  lemma NobodyQueued(k: Kernel)
    requires Staged(k)
    ensures Q(k, SendQ(2)) == [] && Q(k, RecvQ(2)) == [] && 0 < |k.cpu|
  {
    HasMember(Q(k, SendQ(2)));
    HasMember(Q(k, RecvQ(2)));
  }

  /** After boot, thread 2 makes the call, and thread 3 runs. */
  lemma SecondWaits(k: Kernel, op: Op)
    requires Boot(k) && 4 <= |k.threads| && BySecond(op)
    ensures var k0 := Setup(k);
            Staged(k0) && 0 < |k0.cpu| && InRange(k0, op) && Turned(k0, op, Step(DOCUMENTED, k0, op)) && k0.mem == k.mem
  {
    var k0 := Setup(k);
    SetupStages(k);
    hide Setup, Boot, Sound, CompleteBut, Turned, Step;
    SecondBlocks(k0, op);
    BlockedTurns(k0, op);
  }

  lemma SecondReceives(k: Kernel, peer: Tid, m: Message)
    requires Boot(k) && 4 <= |k.threads| && BySecond(DoRecv(2, peer, m))
    ensures var k0 := Setup(k);
            0 < |k0.cpu| && 4 <= |k0.threads| && k0.mem == k.mem
                && Turned(k0, DoRecv(2, peer, m), Recv(DOCUMENTED, k0, 2, peer, m).0)
  {
    hide Setup, Boot, Sound, CompleteBut, Turned, Recv;
    SecondWaits(k, DoRecv(2, peer, m));
  }

  lemma SecondSends(k: Kernel, peer: Tid, m: Message)
    requires Boot(k) && 4 <= |k.threads| && BySecond(DoSend(2, peer, m))
    ensures var k0 := Setup(k);
            0 < |k0.cpu| && 4 <= |k0.threads| && k0.mem == k.mem
                && Turned(k0, DoSend(2, peer, m), Send(DOCUMENTED, k0, 2, peer, m).0)
  {
    hide Setup, Boot, Sound, CompleteBut, Turned, Send;
    SecondWaits(k, DoSend(2, peer, m));
  }

  /** A send to anybody is refused although a thread waits for anybody. */
  lemma SendToAnyPassesOver(k: Kernel)
    requires Boot(k) && 4 <= |k.threads|
    ensures 0 < |Setup(k).cpu|
    ensures var k1 := Recv(DOCUMENTED, Setup(k), 2, ANY, HEADER).0;
            && 0 < |k1.cpu| && T(k1, 3).state.Running? && ListensTo(k1, 2, 3, false)
            && Send(DOCUMENTED, k1, 3, ANY, HEADER_NOW) == (k1, Ret(E_BLOCK))
  {
    hide Setup, Boot, Turned, Send, Recv, ListensTo;
    SecondReceives(k, ANY, HEADER);
    AnybodyRefused(Setup(k), DoRecv(2, ANY, HEADER), Recv(DOCUMENTED, Setup(k), 2, ANY, HEADER).0);
  }

  lemma AnybodyRefused(k: Kernel, op: Op, k1: Kernel)
    requires op == DoRecv(2, ANY, HEADER) && Turned(k, op, k1) && 4 <= |k.threads|
    ensures 0 < |k1.cpu| && T(k1, 3).state.Running? && ListensTo(k1, 2, 3, false)
    ensures Send(DOCUMENTED, k1, 3, ANY, HEADER_NOW) == (k1, Ret(E_BLOCK))
  {
    assert Q(k1, RecvQ(3)) == [] by { HasMember(Q(k1, RecvQ(3))); }
    hide ListsSound, SlotsSound, CompleteBut, Send;
    SendServedIff(DOCUMENTED, k1, 3, ANY, HEADER_NOW);
    SendOutcome(DOCUMENTED, k1, 3, ANY, HEADER_NOW);
  }

  /** A receive of the header alone, from anybody, is refused although a thread
      is queued to send to the caller. */
  lemma HeaderReceivePassesOver(k: Kernel)
    requires Boot(k) && 4 <= |k.threads|
    ensures 0 < |Setup(k).cpu|
    ensures var k1 := Send(DOCUMENTED, Setup(k), 2, 3, HEADER).0;
            && 0 < |k1.cpu| && T(k1, 3).state.Running? && SpeaksTo(k1, 2, 3) && 2 in Q(k1, SendQ(3))
            && Recv(DOCUMENTED, k1, 3, ANY, HEADER_NOW) == (k1, Ret(E_BLOCK))
  {
    hide Setup, Boot, Turned, Send, Recv, SpeaksTo;
    SecondSends(k, 3, HEADER);
    HeaderRefused(Setup(k), DoSend(2, 3, HEADER), Send(DOCUMENTED, Setup(k), 2, 3, HEADER).0);
  }

  lemma HeaderRefused(k: Kernel, op: Op, k1: Kernel)
    requires op == DoSend(2, 3, HEADER) && Turned(k, op, k1) && 4 <= |k.threads|
    ensures 0 < |k1.cpu| && T(k1, 3).state.Running? && SpeaksTo(k1, 2, 3) && 2 in Q(k1, SendQ(3))
    ensures Recv(DOCUMENTED, k1, 3, ANY, HEADER_NOW) == (k1, Ret(E_BLOCK))
  {
    assert Placed(k1, 2);
    hide ListsSound, SlotsSound, CompleteBut, Recv;
    RecvServedIff(DOCUMENTED, k1, 3, ANY, HEADER_NOW);
    RecvOutcome(DOCUMENTED, k1, 3, ANY, HEADER_NOW);
  }

  // ---------- return codes ----------

  /** No bytes are always copied. */
  lemma NothingToCopy(k: Kernel, r: Tid, s: Tid, m: Message)
    requires m.length == 0
    ensures RecvCopies(k, r, s, m) && SendCopies(k, s, r, m)
  {
  }

  /** Thread 2 sends to 3, which receives from 2 by name: the code. */
  lemma SecondReceivedFrom(k: Kernel, m: Message, w: Message)
    requires Boot(k) && 4 <= |k.threads| && m in {HEADER, KERNEL_HEADER} && w in {HEADER, KERNEL_HEADER}
    ensures 0 < |Setup(k).cpu|
    ensures var k1 := Send(DOCUMENTED, Setup(k), 2, 3, m).0;
            && 0 < |k1.cpu| && T(k1, 2).waitKernel == m.kernel()
            && Recv(DOCUMENTED, k1, 3, 2, w).1 == Ret(if w.kernel() && !m.kernel() then E_PREEMPT else E_OK)
  {
    hide Setup, Boot, Turned, Send, Recv;
    SecondSends(k, 3, m);
    ThirdReceives(Setup(k), Send(DOCUMENTED, Setup(k), 2, 3, m).0, m, w);
  }

  lemma ThirdReceives(k: Kernel, k1: Kernel, m: Message, w: Message)
    requires Turned(k, DoSend(2, 3, m), k1) && 4 <= |k.threads| && w in {HEADER, KERNEL_HEADER}
    ensures 0 < |k1.cpu| && T(k1, 2).waitKernel == m.kernel()
    ensures Recv(DOCUMENTED, k1, 3, 2, w).1 == Ret(if w.kernel() && !m.kernel() then E_PREEMPT else E_OK)
  {
    hide ListsSound, SlotsSound, CompleteBut, Recv, RecvDeliver, RecvCopies;
    RecvAccepts(k1, 2, 3, w);
    NothingToCopy(k1, 3, 2, w);
    RecvDelivery(k1, 3, 2, w);
  }

  /** A kernel message nobody asked for is received with E_OK. */
  lemma KernelMessageNotReported(k: Kernel)
    requires Boot(k) && 4 <= |k.threads|
    ensures 0 < |Setup(k).cpu|
    ensures var k1 := Send(DOCUMENTED, Setup(k), 2, 3, KERNEL_HEADER).0;
            && 0 < |k1.cpu| && Recv(DOCUMENTED, k1, 3, 2, HEADER).1 == Ret(E_OK)
            && PromisedCode(HEADER.kernel(), T(k1, 2).waitKernel) == E_PREEMPT
  {
    hide Setup, Boot, Send, Recv;
    SecondReceivedFrom(k, KERNEL_HEADER, HEADER);
  }

  /** An ordinary message is received with E_PREEMPT. */
  lemma OrdinaryMessageReported(k: Kernel)
    requires Boot(k) && 4 <= |k.threads|
    ensures 0 < |Setup(k).cpu|
    ensures var k1 := Send(DOCUMENTED, Setup(k), 2, 3, HEADER).0;
            && 0 < |k1.cpu| && Recv(DOCUMENTED, k1, 3, 2, KERNEL_HEADER).1 == Ret(E_PREEMPT)
            && PromisedCode(KERNEL_HEADER.kernel(), T(k1, 2).waitKernel) == E_OK
  {
    hide Setup, Boot, Send, Recv;
    SecondReceivedFrom(k, HEADER, KERNEL_HEADER);
  }

  /** Thread 2 receives kernel messages from 3 by name; 3 sends, and what
      `send_message` asserts of the recipient is false. */
  lemma AssertionFails(k: Kernel)
    requires Boot(k) && 4 <= |k.threads|
    ensures 0 < |Setup(k).cpu|
    ensures var k1 := Recv(DOCUMENTED, Setup(k), 2, 3, KERNEL_HEADER).0;
            && 0 < |k1.cpu| && T(k1, 3).state.Running? && AcceptsSend(k1, 3, 2, false) && !Asserted(k1, 2)
            && Send(DOCUMENTED, k1, 3, 2, HEADER) == SendDeliver(k1, 3, 2, HEADER)
  {
    hide Setup, Boot, Turned, Send, Recv, SendDeliver;
    SecondReceives(k, 3, KERNEL_HEADER);
    KernelReceiverSent(Setup(k), Recv(DOCUMENTED, Setup(k), 2, 3, KERNEL_HEADER).0);
  }

  lemma KernelReceiverSent(k: Kernel, k1: Kernel)
    requires Turned(k, DoRecv(2, 3, KERNEL_HEADER), k1)
    ensures 0 < |k1.cpu| && T(k1, 3).state.Running? && AcceptsSend(k1, 3, 2, false) && !Asserted(k1, 2)
    ensures Send(DOCUMENTED, k1, 3, 2, HEADER) == SendDeliver(k1, 3, 2, HEADER)
  {
    hide Sound, CompleteBut, Send, SendDeliver;
    SendAccepts(k1, 3, 2, HEADER);
  }

  // ---------- lost threads ----------

  /** Thread 2 receives from 1, which is released and created again: 2 waits
      on no queue. */
  lemma CreateLosesReceiver(k: Kernel)
    requires Boot(k) && 4 <= |k.threads|
    ensures 0 < |Setup(k).cpu|
    ensures var k1 := Recv(DOCUMENTED, Setup(k), 2, 1, HEADER).0; var k2 := Release(k1, 1).0;
            var k3 := Create(k2, 1, 1).0;
            Sound(k2) && Complete(k2) && !Complete(k3) && Stranded(k3, 2, 1)
  {
    hide Setup, Boot, Turned, Recv, Release, Create, Sound, Complete, Stranded;
    SecondReceives(k, 1, HEADER);
    var k1 := Recv(DOCUMENTED, Setup(k), 2, 1, HEADER).0;
    FirstReleased(Setup(k), k1);
    FirstCreated(Release(k1, 1).0);
  }

  /** `t` waits to receive from `peer`, on no list. */
  ghost predicate Stranded(k: Kernel, t: Tid, peer: Tid) {
    T(k, t).state.WaitForSend? && T(k, t).waitTid == peer && t !in Q(k, RecvQ(peer))
  }

  lemma FirstReleased(k: Kernel, k1: Kernel)
    requires Turned(k, DoRecv(2, 1, HEADER), k1) && 4 <= |k.threads|
    ensures var k2 := Release(k1, 1).0;
            && Sound(k2) && Complete(k2) && 4 <= |k2.threads| && T(k2, 1).state.Inactive?
            && T(k2, 2).state.WaitForSend? && T(k2, 2).waitTid == 1
  {
    assert Q(k1, SendQ(1)) == [] by { HasMember(Q(k1, SendQ(1))); }
    hide ListsSound, SlotsSound, CompleteBut, RemoveFromList, Loose;
    ReleaseKeeps(k1, 1);
    ReleaseCompleteIff(k1, 1);
    Unlink(k1, 1);
    var k0 := RemoveFromList(k1, 1);
    DrainKeeps(k0, 1);
    assert 2 !in Q(k0, SendQ(1));
  }

  lemma FirstCreated(k: Kernel)
    requires Sound(k) && Complete(k) && 4 <= |k.threads| && T(k, 1).state.Inactive? && T(k, 2).state.WaitForSend?
             && T(k, 2).waitTid == 1
    ensures var k1 := Create(k, 1, 1).0; !Complete(k1) && Stranded(k1, 2, 1)
  {
    assert Placed(k, 2);
    hide Sound, CompleteBut;
    CreateKeeps(k, 1, 1);
  }

  /** A memory in which no page is mapped. */
  const EMPTY_MEMORY: Phys := seq(0x1_0000_0000, _ => 0)

  lemma NothingMapped(dir: Frame, va: Addr, via: Via)
    ensures Locate(EMPTY_MEMORY, dir, va, via) == None
  {
  }

  lemma OneByteUnmapped(cur: Frame, peer: Frame, out: bool)
    requires cur != peer
    ensures Move(EMPTY_MEMORY, cur, 0x1000, peer, 0x1000, 1, out) == (EMPTY_MEMORY, Unmapped)
  {
    hide Locate;
    NothingMapped(peer, 0x1000, Tables);
  }

  lemma OnlySecondQueued(k: Kernel, op: Op, k1: Kernel)
    requires (op.DoSend? || op.DoRecv?) && op.peer == 3 && Turned(k, op, k1) && 4 <= |k.threads|
    ensures var l := if op.DoSend? then SendQ(3) else RecvQ(3); Q(k1, l) == [2]
  {
    var l := if op.DoSend? then SendQ(3) else RecvQ(3);
    assert Placed(k1, 2);
    assert forall x | x in Q(k1, l) :: Waiting(T(k1, x));
    Alone(Q(k1, l), 2);
  }

  /** Thread 2 receives from 3 into an unmapped buffer; 3 sends to anybody, the
      copy fails, and 2 waits on no list. */
  lemma FailedSendLosesRecipient(k: Kernel)
    requires Boot(k) && 4 <= |k.threads| && k.mem == EMPTY_MEMORY
    ensures 0 < |Setup(k).cpu|
    ensures var k1 := Recv(DOCUMENTED, Setup(k), 2, 3, BYTE).0;
            && 0 < |k1.cpu| && Complete(k1)
            && var (k2, out) := Send(DOCUMENTED, k1, 3, ANY, BYTE); out == Ret(E_FAIL) && !Placed(k2, 2)
  {
    hide Setup, Boot, Turned, Send, Recv, Sound, CompleteBut, Placed;
    SecondReceives(k, 3, BYTE);
    SendFailsToSecond(Setup(k), Recv(DOCUMENTED, Setup(k), 2, 3, BYTE).0);
  }

  lemma SendFailsToSecond(k: Kernel, k1: Kernel)
    requires Turned(k, DoRecv(2, 3, BYTE), k1) && 4 <= |k.threads| && k.mem == EMPTY_MEMORY
    ensures 0 < |k1.cpu| && Complete(k1)
    ensures var (k2, out) := Send(DOCUMENTED, k1, 3, ANY, BYTE); out == Ret(E_FAIL) && !Placed(k2, 2)
  {
    OnlySecondQueued(k, DoRecv(2, 3, BYTE), k1);
    OneByteUnmapped(3, 2, true);
    hide Sound, CompleteBut, Placed, Send, Move;
    SendToTaken(DOCUMENTED, k1, 3, BYTE);
  }

  lemma FailedReceiveLosesSender(k: Kernel)
    requires Boot(k) && 4 <= |k.threads| && k.mem == EMPTY_MEMORY
    ensures 0 < |Setup(k).cpu|
    ensures var k1 := Send(DOCUMENTED, Setup(k), 2, 3, BYTE).0;
            && 0 < |k1.cpu| && Complete(k1)
            && var (k2, out) := Recv(DOCUMENTED, k1, 3, ANY, BYTE); out == Ret(E_FAIL) && !Placed(k2, 2)
  {
    hide Setup, Boot, Turned, Send, Recv, Sound, CompleteBut, Placed;
    SecondSends(k, 3, BYTE);
    ReceiveFailsFromSecond(Setup(k), Send(DOCUMENTED, Setup(k), 2, 3, BYTE).0);
  }

  lemma ReceiveFailsFromSecond(k: Kernel, k1: Kernel)
    requires Turned(k, DoSend(2, 3, BYTE), k1) && 4 <= |k.threads| && k.mem == EMPTY_MEMORY
    ensures 0 < |k1.cpu| && Complete(k1)
    ensures var (k2, out) := Recv(DOCUMENTED, k1, 3, ANY, BYTE); out == Ret(E_FAIL) && !Placed(k2, 2)
  {
    OnlySecondQueued(k, DoSend(2, 3, BYTE), k1);
    OneByteUnmapped(3, 2, false);
    hide Sound, CompleteBut, Placed, Recv, Move;
    RecvFromTaken(DOCUMENTED, k1, 3, BYTE);
  }

  /** Where a null peer has a tid, in the code as written too, sending to
      anybody strands the caller: it waits for a thread on whose queue it is not. */
  lemma NullPeerLosesSender(b: Build, k: Kernel)
    requires Boot(k) && 4 <= |k.threads| && 0 < b.nullTid < |k.threads|
    ensures 0 < |Setup(k).cpu|
    ensures var k1 := Send(b, Setup(k), 2, ANY, HEADER).0;
            && !Complete(k1) && T(k1, 2).state.WaitForRecv? && T(k1, 2).waitTid == b.nullTid
  {
    var k0 := Setup(k);
    SetupStages(k);
    NobodyQueued(k0);
    hide Setup, Boot, ListsSound, SlotsSound, CompleteBut, Send;
    SendKeeps(b, k0, 2, ANY, HEADER);
    SendServedIff(b, k0, 2, ANY, HEADER);
    SendOutcome(b, k0, 2, ANY, HEADER);
  }

  /** As written, receiving from anybody faults on the null TCB. */
  lemma ReceiveFromAnyFaults(b: Build, k: Kernel)
    requires Boot(k) && 4 <= |k.threads| && !b.parksCaller
    ensures 0 < |Setup(k).cpu|
    ensures Recv(b, Setup(k), 2, ANY, HEADER).1 == Fault
  {
    var k0 := Setup(k);
    SetupStages(k);
    hide Setup, Boot, ListsSound, SlotsSound, CompleteBut, Recv;
    ReceiveFromAnyFaultsIff(b, k0, 2, HEADER);
  }

  /** Were only the arguments of lines 356 and 359 put right, receiving from
      anybody would strand the caller in the same way. */
  lemma NullPeerLosesCaller(b: Build, k: Kernel)
    requires Boot(k) && 4 <= |k.threads| && b.parksCaller && 0 < b.nullTid < |k.threads|
    ensures 0 < |Setup(k).cpu|
    ensures var k1 := Recv(b, Setup(k), 2, ANY, HEADER).0;
            !Complete(k1) && T(k1, 2).state.WaitForSend? && T(k1, 2).waitTid == b.nullTid
  {
    var k0 := Setup(k);
    SetupStages(k);
    hide Setup, Boot, ListsSound, SlotsSound, CompleteBut, Recv;
    RecvKeeps(b, k0, 2, ANY, HEADER);
    RecvServedIff(b, k0, 2, ANY, HEADER);
    RecvOutcome(b, k0, 2, ANY, HEADER);
  }
}

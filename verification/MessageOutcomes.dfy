/** What each result of the two message calls means for the caller, its peer
    and the rest of the kernel. */
module MessageOutcomes {
  import opened Basics
  import opened AddressSpace
  import opened KernelState
  import opened KernelInvariant
  import opened KernelRuns
  import opened Rendezvous

  /** The thread a send concerns: the oldest one waiting for the sender when
      any recipient will do. */
  function Recipient(k: Kernel, s: Tid, to: Tid): Tid {
    if SendTakes(k, s, to) then LastOf(k, RecvQ(s)) else to
  }

  function Sender(k: Kernel, r: Tid, from: Tid, m: Message): Tid {
    if RecvTakes(k, r, from, m) then LastOf(k, SendQ(r)) else from
  }

  predicate Gone(k: Kernel, t: Tid) {
    t != NULL_TID && (T(k, t).state.Inactive? || T(k, t).state.Zombie?)
  }

  /** `r` waits to be sent to, and not for somebody other than `s`, unless the
      message comes from the kernel. */
  predicate ListensTo(k: Kernel, r: Tid, s: Tid, kernel: bool) {
    IsThread(k, r) && T(k, r).state.WaitForSend? && (kernel || T(k, r).waitTid == s || T(k, r).waitTid == ANY)
  }

  /** `s` waits to be received from, and not by somebody other than `r`, unless
      its message comes from the kernel. */
  predicate SpeaksTo(k: Kernel, s: Tid, r: Tid) {
    IsThread(k, s) && T(k, s).state.WaitForRecv?
        && (T(k, s).waitKernel || T(k, s).waitTid == r || T(k, s).waitTid == ANY)
  }

  /** MSG_NOBLOCK is bit 0 of the flags, and MSG_KERNEL bit 7. */
  lemma FlagBits(m: Message, high: nat, kernel: nat, middle: nat, noBlock: nat)
    requires m.flags == 0x100 * high + 0x80 * kernel + 2 * middle + noBlock
             && kernel < 2 && middle < 0x40 && noBlock < 2
    ensures (m.kernel() <==> kernel == 1) && (m.noBlock() <==> noBlock == 1)
  {
  }

  /** The code a recipient is promised: E_PREEMPT for a kernel message it did not ask for. */
  function PromisedCode(asked: bool, kernel: bool): int {
    if kernel && !asked then E_PREEMPT else E_OK
  }

  /** A send by a running thread returns one of five codes and leaves the
      caller running, or switches away with the caller waiting for its peer.
      Refusals change nothing; a failed copy changes no TCB; success means the
      message is with a thread that listened for it. */
  lemma SendOutcome(b: Build, k: Kernel, s: Tid, to: Tid, m: Message)
    requires Sound(k) && IsThread(k, s) && PeerOk(b, k, to) && T(k, s).state.Running?
    ensures var (k1, out) := Send(b, k, s, to, m); var r := Recipient(k, s, to);
            && (out == Ret(E_INVALID_ARG) <==> BadArgs(s, to, m))
            && (out == Ret(E_UNREACH) <==> !BadArgs(s, to, m) && Gone(k, r))
            && (out == Ret(E_INVALID_ARG) || out == Ret(E_UNREACH) || out == Ret(E_BLOCK) ==> k1 == k)
            && (out == Ret(E_BLOCK) ==> m.noBlock())
            && (out == Ret(E_BLOCK) || out.Switch? || out.Panic? ==>
                 !(IsThread(k, r) && T(k, r).state.WaitForSend? && T(k, r).waitTid == s))
            && (out == Ret(E_FAIL) ==>
                 k1.threads == k.threads && ListensTo(k, r, s, m.kernel()) && SendCopy(k, s, r, m).1.Unmapped?)
            && (out == Fault ==>
                 k1.threads == k.threads && ListensTo(k, r, s, m.kernel()) && SendCopy(k, s, r, m).1.Faulted?)
            && (out == Ret(E_OK) ==>
                 && ListensTo(k, r, s, m.kernel()) && SendCopies(k, s, r, m)
                 && T(k1, r).state.Ready? && Placed(k1, r)
                 && Received(k1, s, r, m.kernel(), m.flags, m.subject, Min(m.length, T(k, r).regs.edi))
                 && T(k1, r).regs.eax == PromisedCode(T(k, r).waitKernel, m.kernel()))
            && (out.Ret? ==> T(k1, s).state.Running? && out.code in {E_INVALID_ARG, E_UNREACH, E_BLOCK, E_FAIL, E_OK})
            && (!out.Ret? && !out.Fault? ==>
                 !m.noBlock() && T(k1, s).state.WaitForRecv? && T(k1, s).waitTid == PeerTid(b, to))
  {
    var r := Recipient(k, s, to);
    if BadArgs(s, to, m) {
    } else if SendTakes(k, s, to) {
      SendTakenDelivers(b, k, s, m);
      DequeueKeeps(k, RecvQ(s));
      SendDelivery(Dequeue(k, RecvQ(s)).0, s, r, m);
    } else if Gone(k, to) {
    } else if AcceptsSend(k, s, to, m.kernel()) {
      SendDelivery(k, s, to, m);
    } else if !m.noBlock() {
      SendParks(b, k, s, to, m);
    }
  }

  /** A thread that is on no list can not be parked: its send, where it would
      block, fails and changes nothing. */
  lemma SendUnparked(b: Build, k: Kernel, s: Tid, to: Tid, m: Message)
    requires Sound(k) && (T(k, s).state.Inactive? || T(k, s).state.Sleeping?)
    requires !BadArgs(s, to, m) && !SendTakes(k, s, to) && !Gone(k, to) && !AcceptsSend(k, s, to, m.kernel())
    ensures Send(b, k, s, to, m) == (k, Ret(if m.noBlock() then E_BLOCK else E_FAIL))
  {
    hide Sound, SendDeliver, SendPark;
  }

  lemma SendDelivery(k: Kernel, s: Tid, r: Tid, m: Message)
    requires Sound(k) && IsThread(k, s) && IsThread(k, r) && s != r && T(k, r).state.WaitForSend?
    ensures var (k1, out) := SendDeliver(k, s, r, m);
            if SendCopies(k, s, r, m) then
              && out == Ret(E_OK) && T(k1, r).state.Ready? && Placed(k1, r) && T(k1, s).state == T(k, s).state
              && Received(k1, s, r, m.kernel(), m.flags, m.subject, Min(m.length, T(k, r).regs.edi))
              && T(k1, r).regs.eax == PromisedCode(T(k, r).waitKernel, m.kernel())
            else out == Broken(SendCopy(k, s, r, m).1) && k1.threads == k.threads
  {
    if SendCopies(k, s, r, m) {
      SendDeliverKeeps(k, s, r, m);
      SendCompletes(k, s, r, m);
    }
  }

  /** The same for a receive, in a build that parks the caller. */
  lemma RecvOutcome(b: Build, k: Kernel, r: Tid, from: Tid, w: Message)
    requires Sound(k) && IsThread(k, r) && PeerOk(b, k, from) && T(k, r).state.Running? && b.parksCaller
    ensures var (k1, out) := Recv(b, k, r, from, w); var s := Sender(k, r, from, w);
            && (out == Ret(E_INVALID_ARG) <==> BadArgs(r, from, w))
            && (out == Ret(E_INVALID_ARG) || out == Ret(E_BLOCK) ==> k1 == k)
            && (out == Ret(E_BLOCK) ==> w.noBlock())
            && (out == Ret(E_BLOCK) || out.Switch? || out.Panic? ==>
                 !(IsThread(k, s) && T(k, s).state.WaitForRecv? && T(k, s).waitTid == r))
            && (out == Ret(E_FAIL) ==> k1.threads == k.threads && SpeaksTo(k, s, r) && RecvCopy(k, r, s, w).1.Unmapped?)
            && (out == Fault ==> k1.threads == k.threads && SpeaksTo(k, s, r) && RecvCopy(k, r, s, w).1.Faulted?)
            && (out == Ret(E_OK) || out == Ret(E_PREEMPT) ==>
                 && SpeaksTo(k, s, r) && RecvCopies(k, r, s, w)
                 && T(k1, s).state.Ready? && Placed(k1, s)
                 && T(k1, r).regs.edi == T(k1, s).regs.esi == Min(T(k, s).regs.edi, w.length)
                 && T(k1, r).regs.esi == T(k, s).regs.esi
                 && (out == Ret(E_PREEMPT) <==> w.kernel() && !T(k, s).waitKernel))
            && (out.Ret? ==> T(k1, r).state.Running? && out.code in {E_INVALID_ARG, E_BLOCK, E_FAIL, E_OK, E_PREEMPT})
            && (!out.Ret? && !out.Fault? ==>
                 !w.noBlock() && T(k1, r).state.WaitForSend? && T(k1, r).waitTid == PeerTid(b, from))
  {
    var s := Sender(k, r, from, w);
    if BadArgs(r, from, w) {
    } else if RecvTakes(k, r, from, w) {
      RecvTakenDelivers(b, k, r, w);
      DequeueKeeps(k, SendQ(r));
      RecvDelivery(Dequeue(k, SendQ(r)).0, r, s, w);
    } else if AcceptsRecv(k, r, from, w.kernel()) {
      RecvDelivery(k, r, from, w);
    } else if !w.noBlock() {
      RecvParks(b, k, r, from, w);
    }
  }

  lemma RecvDelivery(k: Kernel, r: Tid, s: Tid, w: Message)
    requires Sound(k) && IsThread(k, s) && IsThread(k, r) && s != r && T(k, s).state.WaitForRecv?
    ensures var (k1, out) := RecvDeliver(k, r, s, w);
            if RecvCopies(k, r, s, w) then
              && out == Ret(if w.kernel() && !T(k, s).waitKernel then E_PREEMPT else E_OK)
              && T(k1, s).state.Ready? && Placed(k1, s) && T(k1, r).state == T(k, r).state
              && T(k1, r).regs.edi == T(k1, s).regs.esi == Min(T(k, s).regs.edi, w.length)
              && T(k1, r).regs.esi == T(k, s).regs.esi
            else out == Broken(RecvCopy(k, r, s, w).1) && k1.threads == k.threads
  {
    if RecvCopies(k, r, s, w) {
      var k0 := k.(mem := RecvCopy(k, r, s, w).0);
      RecvDeliverKeeps(k, r, s, w);
      SamePlacesKeeps(k, k0);
      hide Sound, Placed, Start, Header, RecvCopy, Move;
      StartKeeps(k0, s, {});
      StartKeepsMessage(k0, s);
      assert T(Start(k0, s).0, r) == T(k, r);
    }
  }

  /** A receive that is served returns the promised code exactly if it asked
      for a kernel message and got one, or did neither; otherwise E_OK and
      E_PREEMPT are exchanged.  (A recipient that waited gets the promised code
      always, by `SendOutcome`.) */
  lemma RecvCodeRightIff(b: Build, k: Kernel, r: Tid, from: Tid, w: Message)
    requires Sound(k) && IsThread(k, r) && PeerOk(b, k, from) && T(k, r).state.Running? && b.parksCaller
    requires Recv(b, k, r, from, w).1 in {Ret(E_OK), Ret(E_PREEMPT)}
    ensures var s := Sender(k, r, from, w);
            Recv(b, k, r, from, w).1 == Ret(PromisedCode(w.kernel(), T(k, s).waitKernel)) <==>
              w.kernel() == T(k, s).waitKernel
  {
    hide Sound, Recv;
    RecvOutcome(b, k, r, from, w);
  }

  /** As written, with the sender parked, a receive from anybody faults on the
      null TCB exactly if it finds nobody to take and may block; or on the
      caller's own buffer. */
  lemma ReceiveFromAnyFaultsIff(b: Build, k: Kernel, r: Tid, w: Message)
    requires Sound(k) && !BadArgs(r, ANY, w) && !b.parksCaller
    ensures Recv(b, k, r, ANY, w).1 == Fault <==>
            if RecvTakes(k, r, ANY, w) then RecvCopy(k, r, LastOf(k, SendQ(r)), w).1.Faulted? else !w.noBlock()
  {
    if RecvTakes(k, r, ANY, w) { RecvTakenDelivers(b, k, r, w); }
    hide Sound, RecvCopy, RecvFinish, Start;
  }

  /** A receive from a named sender in the code as written: as documented
      while it does not block; otherwise the sender is parked on the caller's
      queue instead of the caller, or E_FAIL if the sender can not be. */
  lemma RecvAsWritten(b: Build, k: Kernel, r: Tid, from: Tid, w: Message)
    requires Sound(k) && IsThread(k, r) && PeerOk(b, k, from) && T(k, r).state.Running? && !b.parksCaller && from != ANY
    ensures var (k1, out) := Recv(b, k, r, from, w);
            if BadArgs(r, from, w) then out == Ret(E_INVALID_ARG) && k1 == k
            else if AcceptsRecv(k, r, from, w.kernel()) then (k1, out) == RecvDeliver(k, r, from, w)
            else if w.noBlock() then out == Ret(E_BLOCK) && k1 == k
            else if T(k, from).state.Inactive? || T(k, from).state.Sleeping? then out == Ret(E_FAIL) && k1 == k
            else
              && (out.Switch? || out.Panic?) && Runnable(T(k1, r))
              && T(k1, from).state.WaitForSend? && T(k1, from).waitTid == r && from in Q(k1, RecvQ(r))
  {
    if !BadArgs(r, from, w) && Removable(T(k, from)) { SenderParked(b, k, r, from, w); }
    hide Sound, RecvDeliver, RecvPark, Schedule;
  }

  // ---------- who is passed over ----------

  /** The call ends without a message exchanged: it is refused or it blocks. */
  predicate Unserved(out: Outcome) {
    out == Ret(E_BLOCK) || out.Switch? || out.Panic?
  }

  /** The call is meant for `t`. */
  predicate MeantFor(peer: Tid, t: Tid) {
    peer == ANY || peer == t
  }

  /** The recipient waits for anybody, but ignores ordinary messages. */
  predicate IgnoresOrdinary(k: Kernel, r: Tid, kernel: bool) {
    !kernel && IsThread(k, r) && T(k, r).state.WaitForSend? && T(k, r).waitTid == ANY && T(k, r).waitKernel
  }

  /** A send passes over a thread that listens to it exactly in two cases: it
      is meant for anybody and nobody waits for this sender by name, or its
      recipient ignores ordinary messages. */
  lemma SendPassesOverIff(b: Build, k: Kernel, s: Tid, to: Tid, m: Message)
    requires Sound(k) && IsThread(k, s) && PeerOk(b, k, to) && T(k, s).state.Running?
    ensures Unserved(Send(b, k, s, to, m).1) && (exists r :: MeantFor(to, r) && ListensTo(k, r, s, m.kernel())) <==>
            !BadArgs(s, to, m) && if to == ANY then Q(k, RecvQ(s)) == [] && exists r :: ListensTo(k, r, s, m.kernel())
                                  else IgnoresOrdinary(k, to, m.kernel())
  {
    SendServedIff(b, k, s, to, m);
    hide Sound, Send;
    if to == ANY {
      assert forall r: Tid :: MeantFor(to, r);
    } else {
      assert MeantFor(to, to);
      assert (exists r :: MeantFor(to, r) && ListensTo(k, r, s, m.kernel())) <==> ListensTo(k, to, s, m.kernel());
    }
  }

  lemma SendServedIff(b: Build, k: Kernel, s: Tid, to: Tid, m: Message)
    requires Sound(k) && IsThread(k, s) && PeerOk(b, k, to) && T(k, s).state.Running?
    ensures Unserved(Send(b, k, s, to, m).1) <==>
            !BadArgs(s, to, m) && if to == ANY then Q(k, RecvQ(s)) == []
                  else !Gone(k, to) && !AcceptsSend(k, s, to, m.kernel())
  {
    if !BadArgs(s, to, m) && SendTakes(k, s, to) { SendTakenDelivers(b, k, s, m); }
    hide Sound, SendPark, SendCopy, SendFinish, Schedule, Start;
  }

  /** The sender waits for anybody with an ordinary message, and the receive
      ignores those. */
  predicate IsIgnored(k: Kernel, s: Tid, kernel: bool) {
    kernel && IsThread(k, s) && T(k, s).state.WaitForRecv? && T(k, s).waitTid == ANY && !T(k, s).waitKernel
  }

  /** A receive passes over a thread that speaks to it exactly in three cases:
      it is meant for anybody and asks for no bytes, or nobody sends to this
      recipient by name; or it ignores its sender's ordinary message. */
  lemma RecvPassesOverIff(b: Build, k: Kernel, r: Tid, from: Tid, w: Message)
    requires Sound(k) && IsThread(k, r) && PeerOk(b, k, from) && T(k, r).state.Running? && b.parksCaller
    ensures Unserved(Recv(b, k, r, from, w).1) && (exists s :: MeantFor(from, s) && SpeaksTo(k, s, r)) <==>
            && !BadArgs(r, from, w)
            && if from == ANY then (w.length == 0 || Q(k, SendQ(r)) == []) && exists s :: SpeaksTo(k, s, r)
               else IsIgnored(k, from, w.kernel())
  {
    RecvServedIff(b, k, r, from, w);
    hide Sound, Recv;
    if from == ANY {
      assert forall s: Tid :: MeantFor(from, s);
    } else {
      assert MeantFor(from, from);
      assert (exists s :: MeantFor(from, s) && SpeaksTo(k, s, r)) <==> SpeaksTo(k, from, r);
    }
  }

  lemma RecvServedIff(b: Build, k: Kernel, r: Tid, from: Tid, w: Message)
    requires Sound(k) && IsThread(k, r) && PeerOk(b, k, from) && T(k, r).state.Running? && b.parksCaller
    ensures Unserved(Recv(b, k, r, from, w).1) <==>
            !BadArgs(r, from, w) && if from == ANY then w.length == 0 || Q(k, SendQ(r)) == []
                  else !AcceptsRecv(k, r, from, w.kernel())
  {
    if !BadArgs(r, from, w) && RecvTakes(k, r, from, w) { RecvTakenDelivers(b, k, r, w); }
    hide Sound, RecvPark, RecvCopy, RecvFinish, Schedule, Start;
  }

  // ---------- no rendezvous is missed ----------

  /** Each waits for the other. */
  predicate Missed(k: Kernel, s: Tid, r: Tid) {
    && IsThread(k, s) && T(k, s).state.WaitForRecv? && T(k, s).waitTid == r
    && IsThread(k, r) && T(k, r).state.WaitForSend? && T(k, r).waitTid == s
  }

  lemma StepMissesNone(k: Kernel, op: Op, s: Tid, r: Tid)
    requires Sound(k) && InRange(k, op) && Active(k, op) && !Missed(k, s, r)
    ensures !Missed(Step(DOCUMENTED, k, op), s, r)
  {
    var k1 := Step(DOCUMENTED, k, op);
    if Missed(k1, s, r) {
      if op.DoSend? && op.t == s {
        SendOutcome(DOCUMENTED, k, s, op.peer, op.m);
      } else if op.DoRecv? && op.t == s {
        RecvOutcome(DOCUMENTED, k, s, op.peer, op.m);
      } else {
        OthersDoNotWait(k, op, s);
      }
      if op.DoSend? && op.t == r {
        SendOutcome(DOCUMENTED, k, r, op.peer, op.m);
      } else if op.DoRecv? && op.t == r {
        RecvOutcome(DOCUMENTED, k, r, op.peer, op.m);
      } else {
        OthersDoNotWait(k, op, r);
      }
    }
  }

  /** Over every run from boot in which message calls are made by running
      threads, no thread waits to send to one that waits to receive from it. */
  lemma {:induction false} NoneMissed(ks: seq<Kernel>, ops: seq<Op>, i: nat, s: Tid, r: Tid)
    requires Run(DOCUMENTED, ks, ops) && Boot(ks[0]) && i <= |ops| && forall j | 0 <= j < |ops| :: Active(ks[j], ops[j])
    ensures !Missed(ks[i], s, r)
  {
    hide Sound, Step;
    if i > 0 {
      NoneMissed(ks, ops, i - 1, s, r);
      RunSound(DOCUMENTED, ks, ops, i - 1);
      StepMissesNone(ks[i - 1], ops[i - 1], s, r);
    }
  }

  // ---------- the assertions of `send_message` ----------

  /** What `send_message` asserts of a recipient before it copies: one that
      ignores ordinary messages waits for nobody in particular. */
  predicate Asserted(k: Kernel, r: Tid) {
    !T(k, r).waitKernel || T(k, r).waitTid == NULL_TID
  }

  /** Every thread a send could deliver to. */
  ghost predicate AllAsserted(k: Kernel) {
    forall r | IsThread(k, r) && T(k, r).state.WaitForSend? :: Asserted(k, r)
  }

  /** The call blocks in a receive of kernel messages from a named sender. */
  predicate NamesKernelSender(k: Kernel, op: Op) {
    && op.DoRecv? && op.peer != ANY && op.m.kernel() && 0 < |k.cpu|
    && var out := Recv(DOCUMENTED, k, op.t, op.peer, op.m).1; out.Switch? || out.Panic?
  }

  /** The caller of a receive that blocks waits with its flag and its sender. */
  lemma RecvWaits(k: Kernel, r: Tid, from: Tid, w: Message)
    requires Sound(k) && IsThread(k, r) && from < |k.threads| && T(k, r).state.Running?
    ensures var (k1, out) := Recv(DOCUMENTED, k, r, from, w);
            if out.Switch? || out.Panic? then
              T(k1, r).state.WaitForSend? && T(k1, r).waitTid == from && T(k1, r).waitKernel == w.kernel()
            else !T(k1, r).state.WaitForSend?
  {
    assert 0 < |k.cpu|;
    hide Sound, Recv, RecvBlock;
    RecvOutcome(DOCUMENTED, k, r, from, w);
    var out := Recv(DOCUMENTED, k, r, from, w).1;
    if out.Switch? || out.Panic? {
      RecvServedIff(DOCUMENTED, k, r, from, w);
      RecvUnserved(k, r, from, w);
      RecvParks(DOCUMENTED, k, r, from, w);
    }
  }

  lemma RecvUnserved(k: Kernel, r: Tid, from: Tid, w: Message)
    requires Sound(k) && 0 < |k.cpu| && !BadArgs(r, from, w)
    requires if from == ANY then w.length == 0 || Q(k, SendQ(r)) == [] else !AcceptsRecv(k, r, from, w.kernel())
    ensures !w.noBlock() ==> Recv(DOCUMENTED, k, r, from, w) == RecvBlock(DOCUMENTED, k, r, from, w)
  {
    hide Sound, RecvBlock, RecvDeliver;
  }

  lemma StepAsserted(k: Kernel, op: Op)
    requires Sound(k) && InRange(k, op) && Active(k, op) && AllAsserted(k)
    ensures AllAsserted(Step(DOCUMENTED, k, op)) <==> !NamesKernelSender(k, op)
  {
    var k1 := Step(DOCUMENTED, k, op);
    hide Sound, Send, Recv;
    if op.DoRecv? { RecvWaits(k, op.t, op.peer, op.m); }
    if op.DoSend? { SendOutcome(DOCUMENTED, k, op.t, op.peer, op.m); }
    forall r | IsThread(k1, r) && T(k1, r).state.WaitForSend? && !((op.DoSend? || op.DoRecv?) && op.t == r)
      ensures Asserted(k1, r)
    {
      OthersDoNotWait(k, op, r);
    }
  }

  lemma BootAsserted(k: Kernel)
    requires Boot(k)
    ensures AllAsserted(k) && 0 < |k.threads|
  {
  }

  /** Over every run from boot in which message calls are made by running
      threads, what a send asserts holds of every thread it could deliver to,
      in every state, exactly if nobody has blocked in a receive of kernel
      messages from a named sender. */
  lemma {:induction false} AssertedIff(ks: seq<Kernel>, ops: seq<Op>, n: nat)
    requires Run(DOCUMENTED, ks, ops) && Boot(ks[0]) && n <= |ops| && forall j | 0 <= j < |ops| :: Active(ks[j], ops[j])
    ensures (forall i | 0 <= i <= n :: AllAsserted(ks[i])) <==>
            (forall i | 0 <= i < n :: !NamesKernelSender(ks[i], ops[i]))
  {
    hide Sound, Step, AllAsserted, NamesKernelSender, Boot, Active;
    BootAsserted(ks[0]);
    if n > 0 {
      AssertedIff(ks, ops, n - 1);
      RunSound(DOCUMENTED, ks, ops, n - 1);
      if AllAsserted(ks[n - 1]) { StepAsserted(ks[n - 1], ops[n - 1]); }
      assert (forall i | 0 <= i <= n :: AllAsserted(ks[i])) <==>
            (forall i | 0 <= i <= n - 1 :: AllAsserted(ks[i])) && AllAsserted(ks[n]);
      assert (forall i | 0 <= i < n :: !NamesKernelSender(ks[i], ops[i])) <==>
            && (forall i | 0 <= i < n - 1 :: !NamesKernelSender(ks[i], ops[i]))
            && !NamesKernelSender(ks[n - 1], ops[n - 1]);
    }
  }
}

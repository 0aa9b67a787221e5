/** Wait queues are served in the order in which threads came to wait. */
module WaitFairness {
  import opened KernelState
  import opened KernelInvariant
  import opened KernelRuns
  import opened KernelFairness

  predicate IsWaitQueue(l: ListId) {
    l.SendQ? || l.RecvQ?
  }

  /** The call takes the oldest thread of the queue: the owner of a send queue
      receives from anybody, or the owner of a receive queue sends to anybody. */
  predicate TakesFrom(k: Kernel, op: Op, l: ListId): (takes: bool)
    ensures takes ==> IsWaitQueue(l) && Q(k, l) != [] && (op.DoSend? || op.DoRecv?) && op.peer == ANY
  {
    match l
    case SendQ(r) => op.DoRecv? && op.t == r && !BadArgs(r, op.peer, op.m) && RecvTakes(k, r, op.peer, op.m)
    case RecvQ(s) => op.DoSend? && op.t == s && !BadArgs(s, op.peer, op.m) && SendTakes(k, s, op.peer)
    case _ => false
  }

  /** Calls that may take `x` off the queue out of turn: it is started, woken,
      paused or released, makes a message call or is named by one it waits
      for; or the owner of the queue is released, or its slot created anew. */
  predicate Singles(b: Build, op: Op, l: ListId, x: Tid) {
    match op
    case DoCreate(t, dir) => l == SendQ(t) || l == RecvQ(t)
    case DoRelease(t) => t == x || l == SendQ(t)
    case DoSchedule(c) => false
    case DoSend(t, peer, m) => t == x || (peer == x && l.RecvQ?)
    case DoRecv(t, peer, m) => t == x || (peer == x && (l.SendQ? || !b.parksCaller))
    case _ => op.t == x
  }

  /** A thread on a wait queue waits, and is on no other list. */
  lemma QueuedWaits(k: Kernel, l: ListId, x: Tid)
    requires Sound(k) && IsWaitQueue(l) && x in Q(k, l)
    ensures IsThread(k, x) && if l.SendQ? then T(k, x).state.WaitForRecv? else T(k, x).state.WaitForSend?
  {
    hide WellFormed, SlotsSound, NoDup;
  }

  lemma TakenElsewhere(k: Kernel, from: ListId, l: ListId, x: Tid)
    requires Sound(k) && Q(k, from) != [] && x in Q(k, l) && from != l
    ensures LastOf(k, from) != x
  {
    hide WellFormed, SlotsSound, NoDup;
    assert LastOf(k, from) in Q(k, from);
  }

  lemma WakeupIsStart(k: Kernel, t: Tid)
    ensures Wakeup(k, t).0 == Start(k, t).0
  {
    hide MakeReady, RemoveFromList;
  }

  /** No call overtakes a thread on a wait queue; one that takes another thread
      from the queue brings it forward. */
  lemma StepInOrder(b: Build, k: Kernel, op: Op, l: ListId, x: Tid)
    requires Sound(k) && InRange(k, op) && b.nullTid < |k.threads| && IsWaitQueue(l) && x in Q(k, l)
    requires !Singles(b, op, l, x) && (TakesFrom(k, op, l) ==> LastOf(k, l) != x)
    ensures NotOvertaken(k, Step(b, k, op), l, x)
    ensures TakesFrom(k, op, l) ==> Ahead(Q(Step(b, k, op), l), x) < Ahead(Q(k, l), x)
  {
    QueuedWaits(k, l, x);
    assert 0 < |k.cpu|;
    hide Sound, NotOvertaken, Ahead, Start, Wakeup, Pause, Create, Release, Schedule, Send, Recv;
    if op.DoSend? || op.DoRecv? {
      MessageInOrder(b, k, op, l, x);
      return;
    }
    match op
    case DoCreate(t, dir) => CreateOther(k, t, dir, l, x);
    case DoStart(t) => StartOther(k, t, l, x);
    case DoPause(t) => PauseOther(k, t, l, x);
    case DoWakeup(t) =>
      WakeupIsStart(k, t);
      StartOther(k, t, l, x);
    case DoRelease(t) => ReleasePasses(k, t, l, x);
    case DoSchedule(c) =>
      ScheduleKeeps(k, c, {});
      SameQueue(k, Schedule(k, c).0, l, x);
  }

  lemma MessageInOrder(b: Build, k: Kernel, op: Op, l: ListId, x: Tid)
    requires Sound(k) && InRange(k, op) && b.nullTid < |k.threads| && IsWaitQueue(l) && x in Q(k, l)
    requires !Singles(b, op, l, x) && (TakesFrom(k, op, l) ==> LastOf(k, l) != x) && (op.DoSend? || op.DoRecv?)
    ensures NotOvertaken(k, Step(b, k, op), l, x)
    ensures TakesFrom(k, op, l) ==> Ahead(Q(Step(b, k, op), l), x) < Ahead(Q(k, l), x)
  {
    QueuedWaits(k, l, x);
    hide Sound, NotOvertaken, Ahead, Send, Recv;
    if TakesFrom(k, op, l) {
      if op.DoSend? {
        SendTakenFair(b, k, op.t, op.m, l, x);
      } else {
        RecvTakenFair(b, k, op.t, op.m, l, x);
      }
    } else if CallsSchedule(b, k, op) {
      BlockedInOrder(b, k, op, l, x);
    } else if op.DoSend? {
      if SendTakes(k, op.t, op.peer) && !BadArgs(op.t, op.peer, op.m) { TakenElsewhere(k, RecvQ(op.t), l, x); }
      SendFair(b, k, op.t, op.peer, op.m, l, x);
    } else {
      if RecvTakes(k, op.t, op.peer, op.m) && !BadArgs(op.t, op.peer, op.m) { TakenElsewhere(k, SendQ(op.t), l, x); }
      RecvFair(b, k, op.t, op.peer, op.m, l, x);
    }
  }

  lemma BlockedInOrder(b: Build, k: Kernel, op: Op, l: ListId, x: Tid)
    requires Sound(k) && InRange(k, op) && b.nullTid < |k.threads| && IsWaitQueue(l) && x in Q(k, l)
    requires !Singles(b, op, l, x) && (op.DoSend? || op.DoRecv?) && CallsSchedule(b, k, op)
    ensures NotOvertaken(k, Step(b, k, op), l, x)
  {
    assert !TakesOff(b, op, x);
    hide Sound, NotOvertaken, Step, Schedule, Seen, CallsSchedule;
    SeenFair(b, k, op, l, x);
    var k1 := Seen(b, k, op);
    QueuedThen(k, k1, l, x);
    assert |k1.cpu| == |k.cpu| && 0 < |k.cpu|;
    ScheduleKeeps(k1, 0, {});
    SameQueue(k1, Step(b, k, op), l, x);
    NotOvertakenChain(k, k1, Step(b, k, op), l, x);
  }

  // ---------- runs ----------

  /** How often a run takes a thread from the queue. */
  ghost function Takes(ks: seq<Kernel>, ops: seq<Op>, l: ListId): (n: nat)
    requires |ks| == |ops| + 1
    ensures n <= |ops|
    decreases |ops|
  {
    if ops == [] then 0
    else
      var n := |ops| - 1;
      Takes(ks[..n + 1], ops[..n], l) + if TakesFrom(ks[n], ops[n], l) then 1 else 0
  }

  /** While `x` waits its turn, as many threads at most are taken as were ahead of it. */
  lemma {:induction false} WaitsItsTurn(b: Build, ks: seq<Kernel>, ops: seq<Op>, l: ListId, x: Tid)
    requires Run(b, ks, ops) && Sound(ks[0]) && b.nullTid < |ks[0].threads| && IsWaitQueue(l) && x in Q(ks[0], l)
    requires forall i | 0 <= i < |ops| && x in Q(ks[i], l) :: !Singles(b, ops[i], l, x)
    requires forall i | 0 <= i < |ops| && TakesFrom(ks[i], ops[i], l) :: LastOf(ks[i], l) != x
    ensures Sound(ks[|ops|]) && SameSize(ks[0], ks[|ops|]) && x in Q(ks[|ops|], l)
    ensures Takes(ks, ops, l) + Ahead(Q(ks[|ops|], l), x) <= Ahead(Q(ks[0], l), x)
  {
    hide Sound, Ahead, Step, TakesFrom, Singles, NotOvertaken;
    if ops != [] {
      var n := |ops| - 1;
      WaitsItsTurn(b, ks[..n + 1], ops[..n], l, x);
      assert ks[..n + 1][n] == ks[n];
      StepKeeps(b, ks[n], ops[n]);
      StepInOrder(b, ks[n], ops[n], l, x);
      QueuedThen(ks[n], ks[n + 1], l, x);
      FewerAhead(ks[n], ks[n + 1], l, x);
    }
  }

  /** The copy between the caller and the thread it takes completes. */
  predicate Copies(k: Kernel, op: Op, x: Tid)
    requires op.DoSend? || op.DoRecv?
  {
    if op.DoSend? then SendCopies(k, op.t, x, op.m) else RecvCopies(k, op.t, x, op.m)
  }

  /** `x` is the thread the call takes, and, if the copy completes, it is READY
      on its run queue afterwards. */
  ghost predicate Served(k: Kernel, op: Op, k1: Kernel, l: ListId, x: Tid) {
    && TakesFrom(k, op, l) && LastOf(k, l) == x
    && (Copies(k, op, x) ==> T(k1, x).state.Ready? && x in Q(k1, RunQ(T(k1, x).priority)))
  }

  lemma TakenIsServed(b: Build, k: Kernel, op: Op, l: ListId)
    requires Sound(k) && InRange(k, op) && TakesFrom(k, op, l)
    ensures Served(k, op, Step(b, k, op), l, LastOf(k, l))
  {
    hide Sound, Send, Recv, SendCopies, RecvCopies;
    if op.DoSend? { SendToTaken(b, k, op.t, op.m); } else { RecvFromTaken(b, k, op.t, op.m); }
  }

  /** First come, first served: a thread with k others ahead of it on a wait
      queue is itself served by one of the first k+1 calls of the queue's owner
      that take anybody, unless it is taken off the queue out of turn. */
  lemma ServedWithin(b: Build, ks: seq<Kernel>, ops: seq<Op>, l: ListId, x: Tid)
    requires Run(b, ks, ops) && Sound(ks[0]) && b.nullTid < |ks[0].threads| && IsWaitQueue(l) && x in Q(ks[0], l)
    requires forall i | 0 <= i < |ops| && x in Q(ks[i], l) :: !Singles(b, ops[i], l, x)
    requires Takes(ks, ops, l) > Ahead(Q(ks[0], l), x)
    ensures exists i | 0 <= i < |ops| :: Served(ks[i], ops[i], ks[i + 1], l, x)
  {
    hide Sound, Step, TakesFrom, Singles, Takes, Ahead, Served;
    if i :| 0 <= i < |ops| && TakesFrom(ks[i], ops[i], l) && LastOf(ks[i], l) == x {
      StaysSound(b, ks, ops, i);
      TakenIsServed(b, ks[i], ops[i], l);
      assert Served(ks[i], ops[i], ks[i + 1], l, x);
    } else {
      WaitsItsTurn(b, ks, ops, l, x);
      assert false;
    }
  }
}

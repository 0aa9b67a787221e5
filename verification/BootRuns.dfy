/** Short runs from boot: three threads exist, thread 2 runs, 3 is ready and 1
    is paused; then 2 makes a message call that blocks, and 3 runs. */
module BootRuns {
  import opened Basics
  import opened AddressSpace
  import opened KernelState
  import opened KernelInvariant
  import opened KernelRuns
  import opened KernelFairness
  import opened Rendezvous

  /** Thread `t` has its page directory in frame `t`. */
  function Created(k: Kernel): (r: Kernel)
    ensures SameSize(k, r)
  {
    Create(Create(Create(k, 1, 1).0, 2, 2).0, 3, 3).0
  }

  function Started(k: Kernel): (r: Kernel)
    ensures SameSize(k, r)
  {
    Start(Start(k, 2).0, 3).0
  }

  /** Three threads are created, two started, and one is chosen to run. */
  function Setup(k: Kernel): (r: Kernel)
    requires 0 < |k.cpu|
    ensures SameSize(k, r)
  {
    Schedule(Started(Created(k)), 0).0
  }

  lemma CreatedIs(k: Kernel)
    requires Boot(k) && 4 <= |k.threads|
    ensures Created(k).threads == k.threads[1 := NewThread(1)][2 := NewThread(2)][3 := NewThread(3)]
    ensures Created(k).cpu == k.cpu && Created(k).mem == k.mem
    ensures Q(Created(k), PausedQ) == [3, 2, 1] && forall l: ListId | l != PausedQ :: Q(Created(k), l) == []
  {
    NewThreadIs();
    hide NewThread;
  }

  lemma NewThreadIs()
    ensures forall f: Frame ::
              NewThread(f).state == Paused && NewThread(f).priority == NORMAL_PRIORITY && NewThread(f).dir == f
  {
  }

  lemma StartedIs(k: Kernel)
    requires 4 <= |k.threads| && Q(k, PausedQ) == [3, 2, 1] && Q(k, RunQ(NORMAL_PRIORITY)) == []
    requires T(k, 2) == NewThread(2) && T(k, 3) == NewThread(3)
    ensures Started(k).threads == k.threads[2 := NewThread(2).(state := Ready)][3 := NewThread(3).(state := Ready)]
    ensures Started(k).cpu == k.cpu && Started(k).mem == k.mem && Q(Started(k), RunQ(NORMAL_PRIORITY)) == [3, 2]
    ensures forall l: ListId | l != PausedQ && l != RunQ(NORMAL_PRIORITY) :: Q(Started(k), l) == Q(k, l)
  {
    var k1 := Start(k, 2).0;
    assert Q(k1, RunQ(NORMAL_PRIORITY)) == [2];
  }

  lemma CreateHolds(k: Kernel, t: Tid, dir: Frame)
    requires Sound(k) && Complete(k) && IsThread(k, t) && T(k, t).state.Inactive?
             && forall l: ListId | l != PausedQ :: Q(k, l) == []
    ensures var k1 := Create(k, t, dir).0;
            && Sound(k1) && Complete(k1) && (forall l: ListId | l != PausedQ :: Q(k1, l) == [])
            && forall x: Tid | x != t :: T(k1, x) == T(k, x)
  {
    hide Sound, Complete;
    CreateKeeps(k, t, dir);
    var k1 := Create(k, t, dir).0;
    forall l: ListId | l != PausedQ
      ensures Q(k1, l) == []
    {
      assert Q(k, l) == [];
    }
  }

  lemma CreatedHolds(k: Kernel)
    requires Boot(k) && 4 <= |k.threads|
    ensures Sound(Created(k)) && Complete(Created(k))
  {
    BootHolds(k);
    hide Sound, Complete, Create;
    CreateHolds(k, 1, 1);
    CreateHolds(Create(k, 1, 1).0, 2, 2);
    CreateHolds(Create(Create(k, 1, 1).0, 2, 2).0, 3, 3);
  }

  lemma StartedHolds(k: Kernel)
    requires Sound(k) && Complete(k) && 4 <= |k.threads|
    ensures Sound(Started(k)) && Complete(Started(k))
  {
    hide Sound, CompleteBut, Start;
    StartKeeps(k, 2, {});
    StartKeeps(Start(k, 2).0, 3, {});
    assert {} - {2} == {} && {} - {3} == {};
  }

  /** Thread 2 runs, 3 is ready and 1 is paused, and nobody else exists. */
  ghost predicate Staged(k: Kernel) {
    && Sound(k) && Complete(k) && 4 <= |k.threads| && k.cpu[0] == 2
    && T(k, 1).state.Paused? && T(k, 2).state.Running? && T(k, 3).state.Ready?
    && T(k, 2).dir == 2 && T(k, 3).dir == 3 && T(k, 3).priority == NORMAL_PRIORITY
    && forall x: Tid | x == 0 || x > 3 :: T(k, x).state.Inactive?
  }

  /** The threads once two of them are started. */
  ghost predicate Prepared(k: Kernel, k1: Kernel) {
    && |k1.threads| == |k.threads| && k1.cpu == k.cpu && k1.mem == k.mem && 0 < |k.cpu| && k.cpu[0] == NULL_TID
    && T(k1, 1).state.Paused? && T(k1, 2).state.Ready? && T(k1, 3).state.Ready?
    && T(k1, 2).dir == 2 && T(k1, 3).dir == 3 && T(k1, 3).priority == NORMAL_PRIORITY
    && (forall x: Tid | x == 0 || x > 3 :: T(k1, x).state.Inactive?)
    && Q(k1, RunQ(2)) == [3, 2] && Q(k1, RunQ(3)) == [] && Q(k1, RunQ(4)) == []
  }

  lemma StartedPrepares(k: Kernel)
    requires Boot(k) && 4 <= |k.threads|
    ensures Prepared(k, Started(Created(k)))
  {
    CreatedIs(k);
    StartedIs(Created(k));
    NewThreadIs();
    hide Created, Started, NewThread;
    forall x: Tid | x == 0 || x > 3
      ensures T(Started(Created(k)), x).state.Inactive?
    {
      assert T(k, x) == BLANK;
    }
  }

  lemma SetupStages(k: Kernel)
    requires Boot(k) && 4 <= |k.threads|
    ensures Staged(Setup(k)) && Setup(k).mem == k.mem && |Setup(k).threads| == |k.threads|
  {
    var k1 := Started(Created(k));
    StartedPrepares(k);
    CreatedHolds(k);
    StartedHolds(Created(k));
    hide Sound, CompleteBut, Schedule, Created, Started, Boot;
    ChoosesOldest(k1);
    ScheduleKeeps(k1, 0, {});
  }

  lemma ChoosesOldest(k: Kernel)
    requires 0 < |k.cpu| && k.cpu[0] == NULL_TID && Q(k, RunQ(2)) == [3, 2] && Q(k, RunQ(3)) == []
             && Q(k, RunQ(4)) == []
    ensures Schedule(k, 0).1 == 2
  {
    assert TopReady(k, 0, 4) == Some(2);
  }

  // ---------- thread 2 blocks ----------

  /** A message call of thread 2 that does not return. */
  predicate Blocks(k: Kernel, op: Op) {
    && InRange(k, op) && (op.DoSend? || op.DoRecv?) && op.t == 2
    && CallsSchedule(DOCUMENTED, k, op)
  }

  /** What `schedule` finds then: 2 waits, and nobody else has changed. */
  lemma SeenThen(k: Kernel, op: Op, x: Tid)
    requires Staged(k) && Blocks(k, op)
    ensures var k1 := Seen(DOCUMENTED, k, op);
            && Sound(k1) && k1.mem == k.mem && Step(DOCUMENTED, k, op) == Schedule(k1, 0).0
            && (if op.DoSend? then T(k1, 2).state.WaitForRecv? else T(k1, 2).state.WaitForSend?)
            && T(k1, 2).waitTid == op.peer && T(k1, 2).waitKernel == op.m.kernel() && T(k1, 2).dir == T(k, 2).dir
            && T(k1, 2).regs.ebx == op.m.buffer && T(k1, 2).regs.edi == op.m.length
            && (x != 2 ==> T(k1, x) == T(k, x))
  {
    hide ListsSound, SlotsSound, CompleteBut, Send, Recv, Attach, RemoveFromList, Schedule;
    var peer := op.peer;
    if op.DoSend? {
      SendCalls(DOCUMENTED, k, 2, peer, op.m);
      ParkForMessage(DOCUMENTED, k, 2, WaitForRecv, peer);
      ParkKeepsPlaces(DOCUMENTED, k, 2, peer, op.m);
      SamePlacesKeeps(Attach(DOCUMENTED, RemoveFromList(k, 2), 2, WaitForRecv, peer, SendQ(peer)),
          Seen(DOCUMENTED, k, op));
    } else {
      RecvCalls(DOCUMENTED, k, 2, peer, op.m);
      ParkForMessage(DOCUMENTED, k, 2, WaitForSend, peer);
      ParkKeepsPlaces(DOCUMENTED, k, peer, 2, op.m);
      SamePlacesKeeps(Attach(DOCUMENTED, RemoveFromList(k, 2), 2, WaitForSend, peer, RecvQ(peer)),
          Seen(DOCUMENTED, k, op));
    }
  }

  ghost predicate OthersSame(k: Kernel, k1: Kernel) {
    forall x: Tid | x != 2 :: T(k1, x) == T(k, x)
  }

  lemma SeenByAll(k: Kernel, op: Op)
    requires Staged(k) && Blocks(k, op)
    ensures var k1 := Seen(DOCUMENTED, k, op);
            && Sound(k1) && k1.mem == k.mem && Step(DOCUMENTED, k, op) == Schedule(k1, 0).0
            && (if op.DoSend? then T(k1, 2).state.WaitForRecv? else T(k1, 2).state.WaitForSend?)
            && T(k1, 2).waitTid == op.peer && T(k1, 2).waitKernel == op.m.kernel() && T(k1, 2).dir == T(k, 2).dir
            && T(k1, 2).regs.ebx == op.m.buffer && T(k1, 2).regs.edi == op.m.length
            && OthersSame(k, k1)
  {
    var k1 := Seen(DOCUMENTED, k, op);
    hide Staged, Blocks, Sound, Step, Schedule, Seen;
    SeenThen(k, op, 2);
    forall x: Tid | x != 2
      ensures T(k1, x) == T(k, x)
    {
      SeenThen(k, op, x);
    }
  }

  lemma Alone(s: seq<Tid>, x: Tid)
    requires NoDup(s) && x in s && forall y | y in s :: y == x
    ensures s == [x]
  {
    assert s[0] in s && s[|s| - 1] in s;
  }

  lemma OnlyThird(k: Kernel, k1: Kernel, p: nat)
    requires Staged(k) && Sound(k1) && OthersSame(k, k1)
    requires Waiting(T(k1, 2))
    ensures p != NORMAL_PRIORITY ==> Q(k1, RunQ(p)) == []
    ensures 3 in Q(k1, RunQ(NORMAL_PRIORITY)) ==> Q(k1, RunQ(NORMAL_PRIORITY)) == [3]
    ensures k1.cpu[0] == NULL_TID
  {
    forall y | y in Q(k1, RunQ(p))
      ensures y == 3 && p == NORMAL_PRIORITY
    {
      assert T(k1, y).state.Ready? && T(k1, y).priority == p;
    }
    HasMember(Q(k1, RunQ(p)));
    assert forall y | y in Q(k1, RunQ(NORMAL_PRIORITY)) :: T(k1, y).state.Ready?;
    if 3 in Q(k1, RunQ(NORMAL_PRIORITY)) { Alone(Q(k1, RunQ(NORMAL_PRIORITY)), 3); }
  }

  lemma BlockingLosesNone(k: Kernel, op: Op)
    requires Sound(k) && Blocks(k, op)
    ensures !Loses(DOCUMENTED, k, op)
  {
    if op.DoSend? {
      if !BadArgs(2, op.peer, op.m) && SendTakes(k, 2, op.peer) { SendTakenDelivers(DOCUMENTED, k, 2, op.m); }
    } else {
      if !BadArgs(2, op.peer, op.m) && RecvTakes(k, 2, op.peer, op.m) { RecvTakenDelivers(DOCUMENTED, k, 2, op.m); }
    }
    hide Sound, SendCopy, RecvCopy, SendFinish, RecvFinish, SendPark, RecvPark, Start, Schedule;
  }

  /** Thread 3 runs, 2 waits as its call asked, and nobody else waits. */
  ghost predicate Turned(k: Kernel, op: Op, k1: Kernel)
    requires op.DoSend? || op.DoRecv?
  {
    && Sound(k1) && Complete(k1) && |k1.threads| == |k.threads| && k1.mem == k.mem && 0 < |k1.cpu|
    && T(k1, 1).state.Paused? && T(k1, 3).state.Running? && T(k1, 3).dir == 3
    && (if op.DoSend? then T(k1, 2).state.WaitForRecv? else T(k1, 2).state.WaitForSend?)
    && T(k1, 2).waitTid == op.peer && T(k1, 2).waitKernel == op.m.kernel() && T(k1, 2).dir == 2
    && T(k1, 2).regs.ebx == op.m.buffer && T(k1, 2).regs.edi == op.m.length
    && forall x: Tid | x != 2 :: !Waiting(T(k1, x))
  }

  lemma BlockedTurns(k: Kernel, op: Op)
    requires Staged(k) && Blocks(k, op)
    ensures Turned(k, op, Step(DOCUMENTED, k, op))
  {
    hide Sound, CompleteBut, Step, Schedule, Seen, Loses, CallsSchedule, Turned;
    SeenByAll(k, op);
    BlockingLosesNone(k, op);
    StepKeeps(DOCUMENTED, k, op);
    ThirdChosen(k, op);
    ThirdRuns(k, op, Seen(DOCUMENTED, k, op));
  }

  lemma ThirdRuns(k: Kernel, op: Op, k0: Kernel)
    requires Staged(k) && (op.DoSend? || op.DoRecv?) && Sound(k0) && OthersSame(k, k0) && |k0.threads| == |k.threads|
             && k0.mem == k.mem
    requires if op.DoSend? then T(k0, 2).state.WaitForRecv? else T(k0, 2).state.WaitForSend?
    requires T(k0, 2).waitTid == op.peer && T(k0, 2).waitKernel == op.m.kernel() && T(k0, 2).dir == 2
    requires T(k0, 2).regs.ebx == op.m.buffer && T(k0, 2).regs.edi == op.m.length
    requires Schedule(k0, 0).1 == 3 && Complete(Schedule(k0, 0).0)
    ensures Turned(k, op, Schedule(k0, 0).0)
  {
    assert k0.cpu[0] == NULL_TID by { OnlyThird(k, k0, NORMAL_PRIORITY); }
    hide ListsSound, SlotsSound, CompleteBut, Schedule;
    ScheduleKeeps(k0, 0, {});
  }

  lemma ThirdChosen(k: Kernel, op: Op)
    requires Staged(k) && Blocks(k, op)
    ensures Schedule(Seen(DOCUMENTED, k, op), 0).1 == 3
  {
    var k0 := Seen(DOCUMENTED, k, op);
    assert Placed(k, 3);
    hide ListsSound, SlotsSound, CompleteBut, Step, Schedule, Seen, CallsSchedule;
    SeenByAll(k, op);
    SeenFair(DOCUMENTED, k, op, RunQ(NORMAL_PRIORITY), 3);
    OnlyThird(k, k0, 3);
    OnlyThird(k, k0, 4);
    ScheduleAdvances(k0, 0, NORMAL_PRIORITY, 3);
  }
}

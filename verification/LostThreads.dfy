/** `thread_release` loses the threads that were sending to the released one:
    for every message sent to a paused thread, and in a run from boot; and what
    becomes of a thread so lost. */
module LostThreads {
  import opened Basics
  import opened AddressSpace
  import opened KernelState
  import opened KernelInvariant
  import opened KernelRuns
  import opened KernelFairness
  import opened Rendezvous
  import opened BootRuns

  /** Whoever blocks sending to a paused thread is READY on no list once that
      thread is released. */
  lemma ReleaseStrandsSender(b: Build, k: Kernel, s: Tid, r: Tid, m: Message)
    requires Sound(k) && Complete(k) && IsThread(k, s) && IsThread(k, r) && s != r && b.nullTid < |k.threads|
    requires T(k, s).state.Running? && T(k, r).state.Paused? && !BadArgs(s, r, m) && !m.noBlock()
    ensures var k1 := Send(b, k, s, r, m).0; var k2 := Release(k1, r).0;
            Sound(k1) && Complete(k1) && !Complete(k2) && T(k2, s).state.Ready? && Loose(k2, s)
  {
    var k1 := Send(b, k, s, r, m).0;
    hide Sound, Loose, Complete, Send, Release;
    WaitsForPaused(b, k, s, r, m);
    ReleaseLoses(k1, s, r);
  }

  lemma WaitsForPaused(b: Build, k: Kernel, s: Tid, r: Tid, m: Message)
    requires Sound(k) && Complete(k) && IsThread(k, s) && IsThread(k, r) && s != r && b.nullTid < |k.threads|
    requires T(k, s).state.Running? && T(k, r).state.Paused? && !BadArgs(s, r, m) && !m.noBlock()
    ensures var k1 := Send(b, k, s, r, m).0; Sound(k1) && Complete(k1) && T(k1, r).state.Paused? && s in Q(k1, SendQ(r))
  {
    assert 0 < |k.cpu|;
    hide Sound, Complete, Send, SendBlock, SendLoses;
    SendToPausedBlocks(b, k, s, r, m);
    SendKeeps(b, k, s, r, m);
    SendParks(b, k, s, r, m);
    PausedStays(b, k, s, r, m);
    InPlace(Send(b, k, s, r, m).0, s);
  }

  lemma SendToPausedBlocks(b: Build, k: Kernel, s: Tid, r: Tid, m: Message)
    requires 0 < |k.cpu| && r != NULL_TID && T(k, r).state.Paused? && !BadArgs(s, r, m) && !m.noBlock()
    ensures Send(b, k, s, r, m) == SendBlock(b, k, s, r, m) && !SendLoses(b, k, s, r, m)
  {
  }

  lemma ReleaseLoses(k: Kernel, s: Tid, r: Tid)
    requires Sound(k) && Complete(k) && IsThread(k, r) && Removable(T(k, r)) && s in Q(k, SendQ(r)) && s != r
    ensures var k1 := Release(k, r).0; !Complete(k1) && T(k1, s).state.Ready? && Loose(k1, s)
  {
    hide Sound, Loose, Complete, Release;
    ReleaseKeeps(k, r);
    ReleaseCompleteIff(k, r);
  }

  lemma InPlace(k: Kernel, t: Tid)
    requires Complete(k) && IsThread(k, t)
    ensures Home(T(k, t)).Some? ==> t in Q(k, Home(T(k, t)).value)
  {
    assert Placed(k, t);
  }

  lemma PausedStays(b: Build, k: Kernel, s: Tid, r: Tid, m: Message)
    requires Sound(k) && IsThread(k, s) && IsThread(k, r) && b.nullTid < |k.threads|
    requires T(k, s).state.Running? && T(k, r).state.Paused?
    ensures T(SendBlock(b, k, s, r, m).0, r).state.Paused?
  {
    var k1, k2 := Attach(b, RemoveFromList(k, s), s, WaitForRecv, r, SendQ(r)), SendPark(b, k, s, r, m);
    hide ListsSound, SlotsSound;
    ParkForMessage(b, k, s, WaitForRecv, r);
    ParkKeepsPlaces(b, k, s, r, m);
    SamePlacesKeeps(k1, k2);
    assert T(k2, r).state.Paused?;
    assert r !in k2.cpu by { PausedHasNoSlot(k2, r); }
    ScheduleKeeps(k2, 0, {});
  }

  lemma PausedHasNoSlot(k: Kernel, r: Tid)
    requires Sound(k) && IsThread(k, r) && T(k, r).state.Paused?
    ensures r !in k.cpu
  {
  }

  /** A run from boot that loses a thread: 2 sends to 1, and 1 is released. */
  lemma LostFromBoot(b: Build, k: Kernel)
    requires Boot(k) && 4 <= |k.threads| && b.nullTid < |k.threads|
    ensures 0 < |Setup(k).cpu|
    ensures var k1 := Send(b, Setup(k), 2, 1, Message(0, 0, 0, 0)).0; var k2 := Release(k1, 1).0;
            Complete(k1) && !Complete(k2) && Stray(k2, 2)
  {
    SetupStages(k);
    hide ListsSound, SlotsSound, CompleteBut, Loose, Send, Release, Setup, Boot;
    ReleaseStrandsSender(b, Setup(k), 2, 1, Message(0, 0, 0, 0));
  }

  // ---------- what becomes of it ----------

  /** READY, but on no list and in no slot. */
  ghost predicate Stray(k: Kernel, s: Tid) {
    T(k, s).state.Ready? && Loose(k, s)
  }

  lemma StrayByOther(k: Kernel, k1: Kernel, u: Tid, s: Tid)
    requires Stray(k, s) && OnlyMoved(k, k1, u) && u != s && s != NULL_TID
    ensures Stray(k1, s)
  {
  }

  lemma StrayBySamePlaces(k: Kernel, k1: Kernel, s: Tid)
    requires Stray(k, s) && SamePlaces(k, k1)
    ensures Stray(k1, s)
  {
    assert forall l: ListId :: Q(k1, l) == Q(k, l);
  }

  /** `schedule` does not see it. */
  lemma ScheduleStray(k: Kernel, c: nat, s: Tid)
    requires Sound(k) && c < |k.cpu| && Stray(k, s) && s != NULL_TID
    ensures Schedule(k, c).1 != s && Stray(Schedule(k, c).0, s)
  {
    assert k.cpu[c] in k.cpu;
    match TopReady(k, Floor(k, c), MAX_PRIORITY)
    case None =>
    case Some(p) =>
      var (k1, t) := Dequeue(k, RunQ(p));
      assert t in Q(k, RunQ(p));
      ScheduleIsTake(k, c, p);
      hide Sound, Stray, Schedule, TopReady, OnlyMoved;
      DequeueKeeps(k, RunQ(p));
      StrayNotThere(k, s, RunQ(p), c);
      StrayByOther(k, k1, t, s);
      var k2 := Take(k, c, p).0;
      if k.cpu[c] == NULL_TID {
        Dispatch(k1, t, c);
        StrayByOther(k1, k2, t, s);
      } else {
        Preempt(k1, c);
        var k3 := MakeReady(k1, k.cpu[c]).(cpu := k1.cpu[c := NULL_TID]);
        StrayByOther(k1, k3, k.cpu[c], s);
        StillLoose(k1, k3, k.cpu[c], t);
        Dispatch(k3, t, c);
        StrayByOther(k3, k2, t, s);
      }
  }

  lemma StrayNotThere(k: Kernel, s: Tid, l: ListId, c: nat)
    requires Stray(k, s) && c < |k.cpu|
    ensures s !in Q(k, l) && k.cpu[c] != s
  {
    assert k.cpu[c] in k.cpu;
  }

  lemma StillLoose(k: Kernel, k1: Kernel, u: Tid, t: Tid)
    requires Loose(k, t) && OnlyMoved(k, k1, u) && u != t && t != NULL_TID
    ensures Loose(k1, t)
  {
  }

  lemma ReleaseStray(k: Kernel, u: Tid, s: Tid)
    requires Sound(k) && IsThread(k, u) && Stray(k, s) && u != s && s != NULL_TID
    ensures Stray(Release(k, u).0, s)
  {
    if Removable(T(k, u)) {
      var k0 := RemoveFromList(k, u);
      var k1 := Drain(k0, u);
      hide Sound, RemoveFromList, Drain;
      Unlink(k, u);
      StrayByOther(k, k0, u, s);
      DrainKeeps(k0, u);
      assert Stray(k1, s);
      assert forall l: ListId :: Q(Release(k, u).0, l) == Q(k1, l);
    }
  }

  lemma SendDeliverStray(k: Kernel, t: Tid, r: Tid, m: Message, s: Tid)
    requires Sound(k) && IsThread(k, r) && Stray(k, s) && s != r && s != NULL_TID
    ensures Stray(SendDeliver(k, t, r, m).0, s)
  {
    var k1 := k.(mem := SendCopy(k, t, r, m).0);
    hide Sound, Stray, SendCopy, Start, OnlyMoved, SendFinish;
    SamePlacesKeeps(k, k1);
    StrayBySamePlaces(k, k1, s);
    if SendCopies(k, t, r, m) {
      StartKeeps(k1, r, {});
      StrayByOther(k1, Start(k1, r).0, r, s);
      FinishKeepsPlaces(Start(k1, r).0, t, r, m, Min(T(k, r).regs.edi, m.length));
      StrayBySamePlaces(Start(k1, r).0, SendDeliver(k, t, r, m).0, s);
    }
  }

  lemma RecvDeliverStray(k: Kernel, t: Tid, r: Tid, m: Message, s: Tid)
    requires Sound(k) && IsThread(k, r) && Stray(k, s) && s != r && s != NULL_TID
    ensures Stray(RecvDeliver(k, t, r, m).0, s)
  {
    var k1 := k.(mem := RecvCopy(k, t, r, m).0);
    hide Sound, Stray, RecvCopy, Start, OnlyMoved, RecvFinish;
    SamePlacesKeeps(k, k1);
    StrayBySamePlaces(k, k1, s);
    if RecvCopies(k, t, r, m) {
      StartKeeps(k1, r, {});
      StrayByOther(k1, Start(k1, r).0, r, s);
      FinishKeepsPlaces(Start(k1, r).0, r, t, m, Min(T(k, r).regs.edi, m.length));
      StrayBySamePlaces(Start(k1, r).0, RecvDeliver(k, t, r, m).0, s);
    }
  }

  lemma TakenStray(k: Kernel, l: ListId, s: Tid)
    requires Sound(k) && Q(k, l) != [] && Stray(k, s) && s != NULL_TID
    ensures var (k1, t) := Dequeue(k, l); Sound(k1) && IsThread(k1, t) && t != s && Stray(k1, s)
  {
    var (k1, t) := Dequeue(k, l);
    assert t in Q(k, l);
    hide Sound, OnlyMoved;
    DequeueKeeps(k, l);
    StrayByOther(k, k1, t, s);
  }

  /** A send of another thread that does not block. */
  lemma SendStray(k: Kernel, t: Tid, to: Tid, m: Message, s: Tid)
    requires Sound(k) && IsThread(k, t) && to < |k.threads| && 0 < |k.cpu| && Stray(k, s) && s != t && s != NULL_TID
    requires !CallsSchedule(DOCUMENTED, k, DoSend(t, to, m))
    ensures Stray(Send(DOCUMENTED, k, t, to, m).0, s)
  {
    assert T(k, s).state.Ready?;
    hide Sound, Stray, SendDeliver, SendPark, Schedule;
    if BadArgs(t, to, m) {
    } else if SendTakes(k, t, to) {
      TakenStray(k, RecvQ(t), s);
      SendTakenDelivers(DOCUMENTED, k, t, m);
      SendDeliverStray(Dequeue(k, RecvQ(t)).0, t, LastOf(k, RecvQ(t)), m, s);
    } else if AcceptsSend(k, t, to, m.kernel()) {
      SendDeliverStray(k, t, to, m, s);
    }
  }

  lemma RecvStray(k: Kernel, t: Tid, from: Tid, m: Message, s: Tid)
    requires Sound(k) && IsThread(k, t) && from < |k.threads| && 0 < |k.cpu| && Stray(k, s) && s != t && s != NULL_TID
    requires !CallsSchedule(DOCUMENTED, k, DoRecv(t, from, m))
    ensures Stray(Recv(DOCUMENTED, k, t, from, m).0, s)
  {
    assert T(k, s).state.Ready?;
    hide Sound, Stray, RecvDeliver, RecvPark, Schedule;
    if BadArgs(t, from, m) {
    } else if RecvTakes(k, t, from, m) {
      TakenStray(k, SendQ(t), s);
      RecvTakenDelivers(DOCUMENTED, k, t, m);
      RecvDeliverStray(Dequeue(k, SendQ(t)).0, t, LastOf(k, SendQ(t)), m, s);
    } else if AcceptsRecv(k, t, from, m.kernel()) {
      RecvDeliverStray(k, t, from, m, s);
    }
  }

  /** The state `schedule` finds in a call of another thread. */
  lemma SeenStray(k: Kernel, op: Op, s: Tid)
    requires Sound(k) && InRange(k, op) && CallsSchedule(DOCUMENTED, k, op) && Stray(k, s) && s != NULL_TID
    requires !((op.DoSend? || op.DoRecv?) && op.t == s)
    ensures var k1 := Seen(DOCUMENTED, k, op);
            Sound(k1) && Stray(k1, s) && Step(DOCUMENTED, k, op) == Schedule(k1, Slot(op)).0
  {
    hide ListsSound, SlotsSound, Stray, OnlyMoved, SamePlaces, Send, Recv, SendPark, RecvPark, Schedule,
        RemoveFromList, Attach;
    match op
    case DoSchedule(c) =>
    case DoSend(t, to, m) =>
      var k0 := Attach(DOCUMENTED, RemoveFromList(k, t), t, WaitForRecv, to, SendQ(to));
      SendCalls(DOCUMENTED, k, t, to, m);
      ParkForMessage(DOCUMENTED, k, t, WaitForRecv, to);
      ParkKeepsPlaces(DOCUMENTED, k, t, to, m);
      SamePlacesKeeps(k0, SendPark(DOCUMENTED, k, t, to, m));
      StrayByOther(k, k0, t, s);
      StrayBySamePlaces(k0, SendPark(DOCUMENTED, k, t, to, m), s);
    case DoRecv(t, from, m) =>
      var k0 := Attach(DOCUMENTED, RemoveFromList(k, t), t, WaitForSend, from, RecvQ(from));
      RecvCalls(DOCUMENTED, k, t, from, m);
      ParkForMessage(DOCUMENTED, k, t, WaitForSend, from);
      ParkKeepsPlaces(DOCUMENTED, k, from, t, m);
      SamePlacesKeeps(k0, RecvPark(DOCUMENTED, k, t, from, m));
      StrayByOther(k, k0, t, s);
      StrayBySamePlaces(k0, RecvPark(DOCUMENTED, k, t, from, m), s);
  }

  /** No call but a pause or a release of the thread itself finds it again. */
  lemma StrayStays(k: Kernel, op: Op, s: Tid)
    requires Sound(k) && InRange(k, op) && Active(k, op) && IsThread(k, s) && Stray(k, s) && op != DoPause(s)
             && op != DoRelease(s)
    ensures Stray(Step(DOCUMENTED, k, op), s)
    ensures CallsSchedule(DOCUMENTED, k, op) ==> Returned(DOCUMENTED, k, op) != s
  {
    assert T(k, s).state.Ready?;
    if CallsSchedule(DOCUMENTED, k, op) {
      assert Slot(op) < |k.cpu|;
      hide Sound, Stray, Step, Schedule, Seen, CallsSchedule;
      SeenStray(k, op, s);
      ScheduleStray(Seen(DOCUMENTED, k, op), Slot(op), s);
    } else {
      hide Sound, Stray, Send, Recv, Start, Pause, Release, Create;
      match op
      case DoCreate(t, dir) => CreateStray(k, t, dir, s);
      case DoStart(t) => StartStray(k, t, s);
      case DoPause(t) => PauseStray(k, t, s);
      case DoWakeup(t) => StartStray(k, t, s);
      case DoRelease(t) => ReleaseStray(k, t, s);
      case DoSend(t, peer, m) => SendStray(k, t, peer, m, s);
      case DoRecv(t, peer, m) => RecvStray(k, t, peer, m, s);
    }
  }

  lemma StartStray(k: Kernel, t: Tid, s: Tid)
    requires Sound(k) && IsThread(k, t) && Stray(k, s) && s != NULL_TID
    ensures Stray(Start(k, t).0, s) && Stray(Wakeup(k, t).0, s)
  {
    hide Sound, OnlyMoved, RemoveFromList, Park;
    StartKeeps(k, t, {});
    if t != s { StrayByOther(k, Start(k, t).0, t, s); }
    assert Wakeup(k, t).0 == Start(k, t).0;
  }

  lemma PauseStray(k: Kernel, t: Tid, s: Tid)
    requires Sound(k) && IsThread(k, t) && Stray(k, s) && t != s && s != NULL_TID
    ensures Stray(Pause(k, t).0, s)
  {
    if Pause(k, t).1 == E_OK {
      hide Sound, OnlyMoved, RemoveFromList, Park, Stray;
      Unlink(k, t);
      Relink(k, t, T(RemoveFromList(k, t), t).(state := Paused), PausedQ);
      StrayByOther(k, Pause(k, t).0, t, s);
    }
  }

  lemma CreateStray(k: Kernel, t: Tid, dir: Frame, s: Tid)
    requires Stray(k, s)
    ensures Stray(Create(k, t, dir).0, s)
  {
    var k1 := Create(k, t, dir).0;
    if T(k, t).state.Inactive? {
      assert forall l: ListId ::
            Q(k1, l) == if l == SendQ(t) || l == RecvQ(t) then [] else if l == PausedQ then [t] + Q(k, l) else Q(k, l);
    }
  }

  /** Over every run in which message calls are made by running threads, a
      stray thread that is neither paused nor released stays so, and no
      `schedule`, wherever it is called from, returns it. */
  lemma {:induction false} NeverScheduled(ks: seq<Kernel>, ops: seq<Op>, s: Tid, i: nat)
    requires Run(DOCUMENTED, ks, ops) && Sound(ks[0]) && IsThread(ks[0], s) && Stray(ks[0], s) && i <= |ops|
    requires forall j | 0 <= j < |ops| :: Active(ks[j], ops[j]) && ops[j] != DoPause(s) && ops[j] != DoRelease(s)
    ensures Sound(ks[i]) && SameSize(ks[0], ks[i]) && Stray(ks[i], s)
    ensures i < |ops| && CallsSchedule(DOCUMENTED, ks[i], ops[i]) ==> Returned(DOCUMENTED, ks[i], ops[i]) != s
  {
    hide ListsSound, SlotsSound, Stray, Step, CallsSchedule, Returned;
    if i > 0 {
      NeverScheduled(ks, ops, s, i - 1);
      StepKeeps(DOCUMENTED, ks[i - 1], ops[i - 1]);
      StrayStays(ks[i - 1], ops[i - 1], s);
    }
    if i < |ops| { StrayStays(ks[i], ops[i], s); }
  }

  /** ... while a pause and a start bring it back. */
  lemma PauseFinds(k: Kernel, s: Tid)
    requires Sound(k) && IsThread(k, s) && Stray(k, s)
    ensures var k1 := Start(Pause(k, s).0, s).0;
            Sound(k1) && T(k1, s).state.Ready? && s in Q(k1, RunQ(T(k1, s).priority))
  {
    hide ListsSound, SlotsSound, CompleteBut, Start, RemoveFromList;
    PauseKeeps(k, s);
    StartKeeps(Pause(k, s).0, s, {});
    StartsPaused(Pause(k, s).0, s);
  }

  lemma StartsPaused(k: Kernel, t: Tid)
    requires T(k, t).state.Paused?
    ensures Start(k, t).1 == E_OK
  {
  }
}

/** What `schedule` picks, and how long a ready thread can be passed over. */
module KernelFairness {
  import opened Basics
  import opened AddressSpace
  import opened KernelState
  import opened KernelInvariant
  import opened KernelRuns

  /** `schedule` returns a RUNNING thread, so the assertion at the head of
      `thread_switch_context` holds of it; its priority is highest among all
      ready threads and the one that was running, and the runnable threads
      before and after are the same. */
  lemma SchedulePicksHighest(k: Kernel, c: nat)
    requires Sound(k) && Complete(k) && c < |k.cpu|
    ensures var (k1, t) := Schedule(k, c);
            && (t == NULL_TID <==> k.cpu[c] == NULL_TID && forall x | IsThread(k, x) :: !T(k, x).state.Ready?)
            && (t != NULL_TID ==>
                 && T(k1, t).state.Running? && k1.cpu[c] == t
                 && (forall x | IsThread(k, x) && T(k, x).state.Ready? :: T(k, x).priority <= T(k1, t).priority)
                 && (k.cpu[c] != NULL_TID ==> T(k, k.cpu[c]).priority <= T(k1, t).priority))
            && (forall x: Tid | IsThread(k, x) ::
                 (Runnable(T(k, x)) <==> Runnable(T(k1, x))) && T(k1, x).priority == T(k, x).priority)
  {
    hide ListsSound, CompleteBut, TopReady;
    ScheduleKeeps(k, c, {});
    forall x | IsThread(k, x) && T(k, x).state.Ready?
      ensures Schedule(k, c).1 != NULL_TID && T(k, x).priority <= T(k, Schedule(k, c).1).priority
    {
      PicksOver(k, c, x);
    }
    PicksAboveFloor(k, c);
  }

  lemma PicksOver(k: Kernel, c: nat, x: Tid)
    requires Sound(k) && Complete(k) && c < |k.cpu| && IsThread(k, x) && T(k, x).state.Ready?
    ensures Schedule(k, c).1 != NULL_TID && T(k, x).priority <= T(k, Schedule(k, c).1).priority
  {
    assert Placed(k, x);
    assert Q(k, RunQ(T(k, x).priority)) != [];
    PicksAboveFloor(k, c);
  }

  /** The thread returned comes from the highest non-empty queue, or no queue
      from the running thread's priority up has anybody. */
  lemma PicksAboveFloor(k: Kernel, c: nat)
    requires Sound(k) && c < |k.cpu|
    ensures var t := Schedule(k, c).1;
            match TopReady(k, Floor(k, c), MAX_PRIORITY)
            case None => t == k.cpu[c]
            case Some(p) => t in Q(k, RunQ(p)) && t != NULL_TID && T(k, t).priority == p && T(k, t).state.Ready?
  {
    hide Schedule, TopReady, WellFormed, SlotsSound, NoDup, Floor;
    match TopReady(k, Floor(k, c), MAX_PRIORITY)
    case None =>
    case Some(p) => assert LastOf(k, RunQ(p)) in Q(k, RunQ(p));
  }

  // ---------- bounded waiting ----------

  /** How many threads of the list are taken before `x`. */
  function Ahead(s: seq<Tid>, x: Tid): (n: nat)
    ensures n <= |s|
    ensures x in s ==> n < |s|
  {
    if s == [] then 0 else if s[0] == x then |s| - 1 else Ahead(s[1..], x)
  }

  lemma AheadWithout(s: seq<Tid>, t: Tid, x: Tid)
    requires NoDup(s) && t != x && x in s
    ensures x in Without(s, t) && Ahead(Without(s, t), x) <= Ahead(s, x)
  {
    WithoutMembers(s, t);
    if s[0] == x {
      assert |Without(s, t)| <= |s| by { WithoutLength(s, t); }
    } else if s[0] != t {
      AheadWithout(s[1..], t, x);
    }
  }

  lemma {:induction false} WithoutLength(s: seq<Tid>, t: Tid)
    ensures |Without(s, t)| <= |s|
  {
    if s != [] { WithoutLength(s[1..], t); }
  }

  lemma AheadInit(s: seq<Tid>, x: Tid)
    requires NoDup(s) && x in s && s[|s| - 1] != x
    ensures x in s[..|s| - 1] && Ahead(s[..|s| - 1], x) == Ahead(s, x) - 1
  {
    var i := s[..|s| - 1];
    if s[0] != x {
      AheadInit(s[1..], x);
      assert i[1..] == s[1..][..|s| - 2];
    }
  }

  /** `x` is on the list in both states, with no more threads ahead of it. */
  ghost predicate NotOvertaken(k: Kernel, k1: Kernel, l: ListId, x: Tid) {
    && x in Q(k, l) && x in Q(k1, l)
    && Ahead(Q(k1, l), x) <= Ahead(Q(k, l), x)
  }

  lemma SameQueue(k: Kernel, k1: Kernel, l: ListId, x: Tid)
    requires x in Q(k, l) && Q(k1, l) == Q(k, l)
    ensures NotOvertaken(k, k1, l, x)
  {
  }

  lemma NotOvertakenChain(k: Kernel, k1: Kernel, k2: Kernel, l: ListId, x: Tid)
    requires NotOvertaken(k, k1, l, x) && NotOvertaken(k1, k2, l, x)
    ensures NotOvertaken(k, k2, l, x)
  {
  }

  lemma QueuedThen(k: Kernel, k1: Kernel, l: ListId, x: Tid)
    requires NotOvertaken(k, k1, l, x)
    ensures x in Q(k1, l)
  {
  }

  lemma FewerAhead(k: Kernel, k1: Kernel, l: ListId, x: Tid)
    requires NotOvertaken(k, k1, l, x)
    ensures Ahead(Q(k1, l), x) <= Ahead(Q(k, l), x)
  {
  }

  // What the basic moves do to a list.

  lemma RemoveQ(k: Kernel, from: ListId, t: Tid, l: ListId)
    ensures Q(Remove(k, from, t), l) in {Q(k, l), Without(Q(k, l), t)}
  {
    hide Without;
  }

  lemma DetachQ(k: Kernel, t: Tid, l: ListId)
    ensures Q(Detach(k, t), l) in {Q(k, l), Without(Q(k, l), t)}
  {
    hide Without, Remove;
    var th := T(k, t);
    var k1 := Put(k, t, th.(waitTid := NULL_TID));
    RemoveQ(k1, if th.state.WaitForRecv? then SendQ(th.waitTid) else RecvQ(th.waitTid), t, l);
  }

  /** Taking a thread off its list leaves a list as it was, or without it. */
  lemma UnlinkQ(k: Kernel, t: Tid, l: ListId)
    ensures Q(RemoveFromList(k, t), l) in {Q(k, l), Without(Q(k, l), t)}
  {
    hide Without, Remove, Detach;
    DetachQ(k, t, l);
    RemoveQ(k, RunQ(T(k, t).priority), t, l);
    RemoveQ(k, PausedQ, t, l);
    RemoveQ(k, ZombieQ, t, l);
  }

  lemma ParkQ(k: Kernel, t: Tid, th: Thread, to: ListId, l: ListId)
    ensures Q(Park(k, t, th, to), l) == if l == to then [t] + Q(k, l) else Q(k, l)
  {
  }

  lemma UnlinkOther(k: Kernel, t: Tid, l: ListId, x: Tid)
    requires Sound(k) && t != x && x in Q(k, l)
    ensures NotOvertaken(k, RemoveFromList(k, t), l, x)
  {
    assert NoDup(Q(k, l));
    hide Sound, NoDup, Ahead, Without, RemoveFromList;
    UnlinkQ(k, t, l);
    AheadWithout(Q(k, l), t, x);
  }

  lemma ParkOther(k: Kernel, t: Tid, th: Thread, to: ListId, l: ListId, x: Tid)
    requires t != x && x in Q(k, l)
    ensures NotOvertaken(k, Park(k, t, th, to), l, x)
  {
    hide Park;
    ParkQ(k, t, th, to, l);
  }

  /** Taking another thread from the end of a list. */
  lemma TakenOther(k: Kernel, from: ListId, l: ListId, x: Tid)
    requires Q(k, from) != [] && NoDup(Q(k, l)) && x in Q(k, l) && Dequeue(k, from).1 != x
    ensures NotOvertaken(k, Dequeue(k, from).0, l, x)
    ensures from == l ==> Ahead(Q(Dequeue(k, from).0, l), x) < Ahead(Q(k, l), x)
  {
    var s := Q(k, l);
    hide NoDup, Ahead;
    if from == l { AheadInit(s, x); }
    assert Q(Dequeue(k, from).0, l) == if from == l then s[..|s| - 1] else s;
  }

  lemma TakeOther(k: Kernel, c: nat, p: nat, x: Tid)
    requires Sound(k) && c < |k.cpu| && x in Q(k, RunQ(p)) && Schedule(k, c).1 != x
    ensures NotOvertaken(k, Schedule(k, c).0, RunQ(p), x)
    ensures TopReady(k, Floor(k, c), MAX_PRIORITY) == Some(p) ==>
            Ahead(Q(Schedule(k, c).0, RunQ(p)), x) < Ahead(Q(k, RunQ(p)), x)
  {
    var cur, s := k.cpu[c], Q(k, RunQ(p));
    assert NoDup(s) && (cur == NULL_TID || cur != x);
    hide Sound, NoDup, Ahead, TopReady, NotOvertaken, Dequeue, Park;
    match TopReady(k, Floor(k, c), MAX_PRIORITY)
    case None => SameQueue(k, k, RunQ(p), x);
    case Some(r) =>
      var (k1, t) := Dequeue(k, RunQ(r));
      TakenOther(k, RunQ(r), RunQ(p), x);
      var k2 := if cur == NULL_TID then k1 else MakeReady(k1, cur);
      QueuedThen(k, k1, RunQ(p), x);
      if cur == NULL_TID {
        SameQueue(k1, k2, RunQ(p), x);
      } else {
        ParkOther(k1, cur, T(k1, cur).(state := Ready), RunQ(T(k1, cur).priority), RunQ(p), x);
      }
      QueuedThen(k1, k2, RunQ(p), x);
      SameQueue(k2, Schedule(k, c).0, RunQ(p), x);
      NotOvertakenChain(k, k1, k2, RunQ(p), x);
      NotOvertakenChain(k, k2, Schedule(k, c).0, RunQ(p), x);
      FewerAhead(k1, k2, RunQ(p), x);
  }

  lemma QueuedReady(k: Kernel, p: nat, x: Tid)
    requires Sound(k) && x in Q(k, RunQ(p))
    ensures T(k, x).state.Ready?
  {
    hide WellFormed, SlotsSound, NoDup;
  }

  /** What `thread_start` does, if it does anything. */
  lemma StartIs(k: Kernel, t: Tid)
    ensures if Start(k, t).1 == E_OK then
              var k1 := RemoveFromList(k, t);
              && !T(k, t).state.Ready?
              && Start(k, t).0 == Park(k1, t, T(k1, t).(state := Ready), RunQ(T(k1, t).priority))
            else Start(k, t).0 == k
  {
    hide RemoveFromList, Park;
  }

  lemma StartOther(k: Kernel, t: Tid, l: ListId, x: Tid)
    requires Sound(k) && t != x && x in Q(k, l)
    ensures NotOvertaken(k, Start(k, t).0, l, x)
  {
    hide Sound, NotOvertaken, RemoveFromList, Park, Start;
    StartIs(k, t);
    if Start(k, t).1 == E_OK {
      var k1 := RemoveFromList(k, t);
      UnlinkOther(k, t, l, x);
      QueuedThen(k, k1, l, x);
      ParkOther(k1, t, T(k1, t).(state := Ready), RunQ(T(k1, t).priority), l, x);
      NotOvertakenChain(k, k1, Start(k, t).0, l, x);
    } else {
      SameQueue(k, k, l, x);
    }
  }

  lemma StartFair(k: Kernel, t: Tid, p: nat, x: Tid)
    requires Sound(k) && IsThread(k, t) && x in Q(k, RunQ(p))
    ensures NotOvertaken(k, Start(k, t).0, RunQ(p), x)
  {
    hide Sound, NotOvertaken, Start;
    QueuedReady(k, p, x);
    StartIs(k, t);
    if t == x { SameQueue(k, k, RunQ(p), x); } else { StartOther(k, t, RunQ(p), x); }
  }

  lemma WakeupFair(k: Kernel, t: Tid, p: nat, x: Tid)
    requires Sound(k) && IsThread(k, t) && x in Q(k, RunQ(p))
    ensures NotOvertaken(k, Wakeup(k, t).0, RunQ(p), x)
  {
    hide Sound, NotOvertaken, RemoveFromList, Park;
    StartFair(k, t, p, x);
    assert Wakeup(k, t).0 == Start(k, t).0;
  }

  lemma PauseOther(k: Kernel, t: Tid, l: ListId, x: Tid)
    requires Sound(k) && t != x && x in Q(k, l)
    ensures NotOvertaken(k, Pause(k, t).0, l, x)
  {
    var k1 := RemoveFromList(k, t);
    hide Sound, NotOvertaken, RemoveFromList, Park;
    if Pause(k, t).1 == E_OK {
      UnlinkOther(k, t, l, x);
      QueuedThen(k, k1, l, x);
      ParkOther(k1, t, T(k1, t).(state := Paused), PausedQ, l, x);
      NotOvertakenChain(k, k1, Pause(k, t).0, l, x);
    } else {
      SameQueue(k, k, l, x);
    }
  }

  lemma PauseFair(k: Kernel, t: Tid, p: nat, x: Tid)
    requires Sound(k) && IsThread(k, t) && x in Q(k, RunQ(p))
    ensures if t == x then x !in Q(Pause(k, t).0, RunQ(p)) else NotOvertaken(k, Pause(k, t).0, RunQ(p), x)
  {
    QueuedReady(k, p, x);
    hide Sound, NotOvertaken, Pause;
    if t == x { PausedNotQueued(k, x, p); } else { PauseOther(k, t, RunQ(p), x); }
  }

  lemma PausedNotQueued(k: Kernel, x: Tid, p: nat)
    requires Sound(k) && IsThread(k, x) && T(k, x).state.Ready?
    ensures x !in Q(Pause(k, x).0, RunQ(p))
  {
    hide RemoveFromList;
    PauseKeeps(k, x);
    assert T(Pause(k, x).0, x).state.Paused?;
  }

  lemma ReleasePasses(k: Kernel, t: Tid, l: ListId, x: Tid)
    requires Sound(k) && IsThread(k, t) && t != x && x in Q(k, l) && l != SendQ(t)
    ensures NotOvertaken(k, Release(k, t).0, l, x)
  {
    var k0 := RemoveFromList(k, t);
    hide Sound, NotOvertaken, RemoveFromList;
    if !Removable(T(k, t)) {
      SameQueue(k, k, l, x);
    } else {
      UnlinkOther(k, t, l, x);
      QueuedThen(k, k0, l, x);
      Unlink(k, t);
      DrainKeeps(k0, t);
      SameQueue(k0, Release(k, t).0, l, x);
      NotOvertakenChain(k, k0, Release(k, t).0, l, x);
    }
  }

  lemma ReleaseFair(k: Kernel, t: Tid, p: nat, x: Tid)
    requires Sound(k) && IsThread(k, t) && x in Q(k, RunQ(p))
    ensures if t == x then x !in Q(Release(k, t).0, RunQ(p)) else NotOvertaken(k, Release(k, t).0, RunQ(p), x)
  {
    QueuedReady(k, p, x);
    hide Sound, NotOvertaken, Release;
    if t == x { ReleaseKeeps(k, t); } else { ReleasePasses(k, t, RunQ(p), x); }
  }

  lemma CreateOther(k: Kernel, t: Tid, dir: Frame, l: ListId, x: Tid)
    requires x in Q(k, l) && !T(k, x).state.Inactive? && l != SendQ(t) && l != RecvQ(t)
    ensures NotOvertaken(k, Create(k, t, dir).0, l, x)
  {
    if T(k, t).state.Inactive? {
      var k1 := k.(q := k.q - {SendQ(t), RecvQ(t)});
      hide NotOvertaken, Park;
      SameQueue(k, k1, l, x);
      ParkOther(k1, t, NewThread(dir), PausedQ, l, x);
      NotOvertakenChain(k, k1, Create(k, t, dir).0, l, x);
    }
  }

  /** The thread that runs is on no run queue. */
  lemma DispatchedNotQueued(k: Kernel, c: nat, p: nat)
    requires Sound(k) && c < |k.cpu| && Schedule(k, c).1 != NULL_TID
    ensures Schedule(k, c).1 !in Q(Schedule(k, c).0, RunQ(p))
  {
    hide Schedule;
    ScheduleKeeps(k, c, {});
  }

  /** No thread above priority `p` is queued, nor running in the slot. */
  ghost predicate TopIs(k: Kernel, c: nat, p: nat)
    requires c < |k.cpu|
  {
    && (k.cpu[c] == NULL_TID || T(k, k.cpu[c]).priority <= p)
    && forall r | p < r <= MAX_PRIORITY :: Q(k, RunQ(r)) == []
  }

  /** One `schedule` returns `x` or puts nobody ahead of it; one that finds
      nothing above `p` moves it one place, or returns it. */
  lemma ScheduleAdvances(k: Kernel, c: nat, p: nat, x: Tid)
    requires Sound(k) && c < |k.cpu| && x in Q(k, RunQ(p))
    ensures if Schedule(k, c).1 == x then x !in Q(Schedule(k, c).0, RunQ(p))
              else NotOvertaken(k, Schedule(k, c).0, RunQ(p), x)
    ensures TopIs(k, c, p) && Ahead(Q(k, RunQ(p)), x) == 0 ==> Schedule(k, c).1 == x
    ensures TopIs(k, c, p) && Schedule(k, c).1 != x ==> Ahead(Q(Schedule(k, c).0, RunQ(p)), x) < Ahead(Q(k, RunQ(p)), x)
  {
    assert p <= MAX_PRIORITY && x != NULL_TID by { assert Home(T(k, x)) == Some(RunQ(p)); }
    hide Sound, Ahead, NoDup, Schedule;
    assert TopIs(k, c, p) ==> TopReady(k, Floor(k, c), MAX_PRIORITY) == Some(p);
    if Schedule(k, c).1 != x {
      TakeOther(k, c, p, x);
    } else {
      DispatchedNotQueued(k, c, p);
    }
  }

  // ---------- the scheduler calls a run makes ----------

  /** `schedule` is called: by itself, or at the end of a message call that blocks. */
  predicate CallsSchedule(b: Build, k: Kernel, op: Op)
    requires InRange(k, op)
  {
    match op
    case DoSchedule(c) => true
    case DoSend(t, peer, m) => var out := Send(b, k, t, peer, m).1; out.Switch? || out.Panic?
    case DoRecv(t, peer, m) => var out := Recv(b, k, t, peer, m).1; out.Switch? || out.Panic?
    case _ => false
  }

  /** The processor whose next thread is chosen. */
  function Slot(op: Op): nat {
    if op.DoSchedule? then op.c else 0
  }

  /** The state `schedule` finds: a blocking message call has parked its thread. */
  function Seen(b: Build, k: Kernel, op: Op): (r: Kernel)
    ensures SameSize(k, r)
  {
    match op
    case DoSend(t, peer, m) => SendPark(b, k, t, peer, m)
    case DoRecv(t, peer, m) => RecvPark(b, k, t, peer, m)
    case _ => k
  }

  /** What that call of `schedule` returns. */
  function Returned(b: Build, k: Kernel, op: Op): Tid
    requires InRange(k, op) && CallsSchedule(b, k, op)
  {
    Schedule(Seen(b, k, op), Slot(op)).1
  }

  /** The thread a message call parks if it blocks. */
  function Parked(b: Build, op: Op): Tid
    requires op.DoSend? || op.DoRecv?
  {
    if op.DoSend? || b.parksCaller then op.t else op.peer
  }

  /** Calls that may take `x` off a run queue other than by running it: it is
      paused, released, or itself parked. */
  predicate TakesOff(b: Build, op: Op, x: Tid) {
    || op == DoPause(x)
    || op == DoRelease(x)
    || ((op.DoSend? || op.DoRecv?) && Parked(b, op) == x)
  }

  lemma SendCalls(b: Build, k: Kernel, s: Tid, to: Tid, m: Message)
    requires Sound(k) && InRange(k, DoSend(s, to, m)) && CallsSchedule(b, k, DoSend(s, to, m))
    ensures Removable(T(k, s)) && Send(b, k, s, to, m) == SwitchAway(SendPark(b, k, s, to, m))
  {
    if !BadArgs(s, to, m) && SendTakes(k, s, to) { SendTakenDelivers(b, k, s, m); }
    hide Sound, SendPark, SendCopy, SendFinish, SwitchAway, Start;
  }

  lemma RecvCalls(b: Build, k: Kernel, r: Tid, from: Tid, m: Message)
    requires Sound(k) && InRange(k, DoRecv(r, from, m)) && CallsSchedule(b, k, DoRecv(r, from, m))
    ensures var parked := if b.parksCaller then r else from;
            parked != NULL_TID && Removable(T(k, parked))
                && Recv(b, k, r, from, m) == SwitchAway(RecvPark(b, k, r, from, m))
  {
    if !BadArgs(r, from, m) && RecvTakes(k, r, from, m) { RecvTakenDelivers(b, k, r, m); }
    hide Sound, RecvPark, RecvCopy, RecvFinish, SwitchAway, Start;
  }

  /** A thread is parked and the state is still sound; nobody overtakes `x`,
      unless it is the one. */
  lemma ParkFair(b: Build, k: Kernel, t: Tid, state: ThreadState, peer: Tid, k2: Kernel, l: ListId, x: Tid)
    requires Sound(k) && IsThread(k, t) && Removable(T(k, t)) && PeerOk(b, k, peer) && x in Q(k, l)
    requires state.WaitForRecv? || state.WaitForSend?
    requires SamePlaces(Attach(b, RemoveFromList(k, t), t, state, peer, WaitList(state, peer)), k2)
    ensures Sound(k2)
    ensures if t == x then T(k2, x).state == state else NotOvertaken(k, k2, l, x)
  {
    var k0 := RemoveFromList(k, t);
    var k1 := Attach(b, k0, t, state, peer, WaitList(state, peer));
    hide Sound, OnlyMoved, NotOvertaken, RemoveFromList, Attach;
    ParkForMessage(b, k, t, state, peer);
    SamePlacesKeeps(k1, k2);
    if t != x {
      UnlinkOther(k, t, l, x);
      QueuedThen(k, k0, l, x);
      AttachOther(b, k0, t, state, peer, l, x);
      QueuedThen(k0, k1, l, x);
      SameQueue(k1, k2, l, x);
      NotOvertakenChain(k, k0, k1, l, x);
      NotOvertakenChain(k, k1, k2, l, x);
    }
  }

  lemma AttachOther(b: Build, k: Kernel, t: Tid, state: ThreadState, peer: Tid, l: ListId, x: Tid)
    requires t != x && x in Q(k, l)
    ensures NotOvertaken(k, Attach(b, k, t, state, peer, WaitList(state, peer)), l, x)
  {
    hide NotOvertaken, Park;
    var th := T(k, t).(state := state, waitTid := PeerTid(b, peer));
    if peer == NULL_TID {
      SameQueue(k, Put(k, t, th), l, x);
    } else {
      ParkOther(k, t, th, WaitList(state, peer), l, x);
    }
  }

  /** What the call does before `schedule`, if it calls it. */
  lemma SeenFair(b: Build, k: Kernel, op: Op, l: ListId, x: Tid)
    requires Sound(k) && InRange(k, op) && b.nullTid < |k.threads| && x in Q(k, l) && CallsSchedule(b, k, op)
    ensures Sound(Seen(b, k, op)) && Step(b, k, op) == Schedule(Seen(b, k, op), Slot(op)).0
    ensures if TakesOff(b, op, x) then Waits(Seen(b, k, op), x) else NotOvertaken(k, Seen(b, k, op), l, x)
  {
    hide Sound, NotOvertaken, Send, Recv, SendPark, RecvPark, Schedule;
    match op
    case DoSchedule(c) => SameQueue(k, k, l, x);
    case DoSend(s, to, m) => SendSeen(b, k, s, to, m, l, x);
    case DoRecv(r, from, m) => RecvSeen(b, k, r, from, m, l, x);
  }

  lemma SendSeen(b: Build, k: Kernel, s: Tid, to: Tid, m: Message, l: ListId, x: Tid)
    requires Sound(k) && InRange(k, DoSend(s, to, m)) && b.nullTid < |k.threads| && x in Q(k, l)
    requires CallsSchedule(b, k, DoSend(s, to, m))
    ensures var k1 := SendPark(b, k, s, to, m);
            && Sound(k1) && Send(b, k, s, to, m) == SwitchAway(k1)
            && if s == x then Waits(k1, x) else NotOvertaken(k, k1, l, x)
  {
    hide Sound, NotOvertaken, SamePlaces, Send, SendPark, Schedule;
    SendCalls(b, k, s, to, m);
    ParkKeepsPlaces(b, k, s, to, m);
    ParkFair(b, k, s, WaitForRecv, to, SendPark(b, k, s, to, m), l, x);
  }

  lemma RecvSeen(b: Build, k: Kernel, r: Tid, from: Tid, m: Message, l: ListId, x: Tid)
    requires Sound(k) && InRange(k, DoRecv(r, from, m)) && b.nullTid < |k.threads| && x in Q(k, l)
    requires CallsSchedule(b, k, DoRecv(r, from, m))
    ensures var k1 := RecvPark(b, k, r, from, m);
            && Sound(k1) && Recv(b, k, r, from, m) == SwitchAway(k1)
            && if (if b.parksCaller then r else from) == x then Waits(k1, x) else NotOvertaken(k, k1, l, x)
  {
    hide Sound, NotOvertaken, SamePlaces, Recv, RecvPark, Schedule;
    RecvCalls(b, k, r, from, m);
    ParkKeepsPlaces(b, k, from, r, m);
    var parked, peer := if b.parksCaller then r else from, if b.parksCaller then from else r;
    ParkFair(b, k, parked, WaitForSend, peer, RecvPark(b, k, r, from, m), l, x);
  }

  predicate Waits(k: Kernel, x: Tid) {
    T(k, x).state.WaitForRecv? || T(k, x).state.WaitForSend?
  }

  lemma WaitingNotQueued(k: Kernel, c: nat, p: nat, x: Tid)
    requires Sound(k) && c < |k.cpu| && Waits(k, x)
    ensures x !in Q(Schedule(k, c).0, RunQ(p))
  {
    assert k.cpu[c] == NULL_TID || T(k, k.cpu[c]).state.Running?;
    hide ListsSound, SlotsSound, Schedule;
    ScheduleKeeps(k, c, {});
    assert Waits(Schedule(k, c).0, x);
    NotReadyNotQueued(Schedule(k, c).0, p, x);
  }

  lemma NotReadyNotQueued(k: Kernel, p: nat, x: Tid)
    requires Sound(k) && !T(k, x).state.Ready?
    ensures x !in Q(k, RunQ(p))
  {
  }

  lemma SendDeliverFair(k: Kernel, s: Tid, r: Tid, m: Message, l: ListId, x: Tid)
    requires Sound(k) && r != x && x in Q(k, l)
    ensures NotOvertaken(k, SendDeliver(k, s, r, m).0, l, x)
  {
    var k1 := k.(mem := SendCopy(k, s, r, m).0);
    hide Sound, NotOvertaken, SendCopy, Start, SendFinish;
    SamePlacesKeeps(k, k1);
    SameQueue(k, k1, l, x);
    if SendCopies(k, s, r, m) {
      StartOther(k1, r, l, x);
      var k2 := Start(k1, r).0;
      QueuedThen(k1, k2, l, x);
      FinishKeepsPlaces(k2, s, r, m, Min(T(k, r).regs.edi, m.length));
      SameQueue(k2, SendDeliver(k, s, r, m).0, l, x);
      NotOvertakenChain(k, k1, k2, l, x);
      NotOvertakenChain(k, k2, SendDeliver(k, s, r, m).0, l, x);
    }
  }

  lemma RecvDeliverFair(k: Kernel, r: Tid, s: Tid, m: Message, l: ListId, x: Tid)
    requires Sound(k) && s != x && x in Q(k, l)
    ensures NotOvertaken(k, RecvDeliver(k, r, s, m).0, l, x)
  {
    var k1 := k.(mem := RecvCopy(k, r, s, m).0);
    hide Sound, NotOvertaken, RecvCopy, Start, RecvFinish;
    SamePlacesKeeps(k, k1);
    SameQueue(k, k1, l, x);
    if RecvCopies(k, r, s, m) {
      StartOther(k1, s, l, x);
      var k2 := Start(k1, s).0;
      QueuedThen(k1, k2, l, x);
      FinishKeepsPlaces(k2, s, r, m, Min(T(k, s).regs.edi, m.length));
      SameQueue(k2, RecvDeliver(k, r, s, m).0, l, x);
      NotOvertakenChain(k, k1, k2, l, x);
      NotOvertakenChain(k, k2, RecvDeliver(k, r, s, m).0, l, x);
    }
  }

  lemma ListNoDup(k: Kernel, l: ListId)
    requires Sound(k)
    ensures NoDup(Q(k, l))
  {
    hide WellFormed, SlotsSound, NoDup;
  }

  /** A taken recipient is another thread: then a send to anybody overtakes
      nobody, and brings those behind the recipient forward. */
  lemma SendTakenFair(b: Build, k: Kernel, s: Tid, m: Message, l: ListId, x: Tid)
    requires Sound(k) && IsThread(k, s) && !BadArgs(s, ANY, m) && Q(k, RecvQ(s)) != [] && x in Q(k, l)
    requires LastOf(k, RecvQ(s)) != x
    ensures NotOvertaken(k, Send(b, k, s, ANY, m).0, l, x)
    ensures l == RecvQ(s) ==> Ahead(Q(Send(b, k, s, ANY, m).0, l), x) < Ahead(Q(k, l), x)
  {
    var (k0, r) := Dequeue(k, RecvQ(s));
    DequeueKeeps(k, RecvQ(s));
    ListNoDup(k, l);
    hide Sound, NotOvertaken, SendDeliver, Send, NoDup, Ahead;
    TakenOther(k, RecvQ(s), l, x);
    QueuedThen(k, k0, l, x);
    SendTakenDelivers(b, k, s, m);
    SendDeliverFair(k0, s, r, m, l, x);
    NotOvertakenChain(k, k0, Send(b, k, s, ANY, m).0, l, x);
    FewerAhead(k0, Send(b, k, s, ANY, m).0, l, x);
  }

  lemma RecvTakenFair(b: Build, k: Kernel, r: Tid, m: Message, l: ListId, x: Tid)
    requires Sound(k) && IsThread(k, r) && !BadArgs(r, ANY, m) && RecvTakes(k, r, ANY, m) && x in Q(k, l)
    requires LastOf(k, SendQ(r)) != x
    ensures NotOvertaken(k, Recv(b, k, r, ANY, m).0, l, x)
    ensures l == SendQ(r) ==> Ahead(Q(Recv(b, k, r, ANY, m).0, l), x) < Ahead(Q(k, l), x)
  {
    var (k0, s) := Dequeue(k, SendQ(r));
    DequeueKeeps(k, SendQ(r));
    ListNoDup(k, l);
    hide Sound, NotOvertaken, RecvDeliver, Recv, NoDup, Ahead;
    TakenOther(k, SendQ(r), l, x);
    QueuedThen(k, k0, l, x);
    RecvTakenDelivers(b, k, r, m);
    RecvDeliverFair(k0, r, s, m, l, x);
    NotOvertakenChain(k, k0, Recv(b, k, r, ANY, m).0, l, x);
    FewerAhead(k0, Recv(b, k, r, ANY, m).0, l, x);
  }

  /** A send that neither blocks nor is received by `x` overtakes nobody. */
  lemma SendFair(b: Build, k: Kernel, s: Tid, to: Tid, m: Message, l: ListId, x: Tid)
    requires Sound(k) && IsThread(k, s) && PeerOk(b, k, to) && 0 < |k.cpu| && x in Q(k, l)
    requires !CallsSchedule(b, k, DoSend(s, to, m)) && (to != x || !T(k, x).state.WaitForSend?)
    requires !BadArgs(s, to, m) && SendTakes(k, s, to) ==> LastOf(k, RecvQ(s)) != x
    ensures NotOvertaken(k, Send(b, k, s, to, m).0, l, x)
  {
    SameQueue(k, k, l, x);
    hide Sound, NotOvertaken, SendDeliver, SendPark, Schedule;
    if BadArgs(s, to, m) {
    } else if SendTakes(k, s, to) {
      SendTakenFair(b, k, s, m, l, x);
    } else if AcceptsSend(k, s, to, m.kernel()) {
      SendDeliverFair(k, s, to, m, l, x);
    }
  }

  lemma RecvFair(b: Build, k: Kernel, r: Tid, from: Tid, m: Message, l: ListId, x: Tid)
    requires Sound(k) && IsThread(k, r) && PeerOk(b, k, from) && 0 < |k.cpu| && x in Q(k, l)
    requires !CallsSchedule(b, k, DoRecv(r, from, m)) && (from != x || !T(k, x).state.WaitForRecv?)
    requires !BadArgs(r, from, m) && RecvTakes(k, r, from, m) ==> LastOf(k, SendQ(r)) != x
    ensures NotOvertaken(k, Recv(b, k, r, from, m).0, l, x)
  {
    SameQueue(k, k, l, x);
    hide Sound, NotOvertaken, RecvDeliver, RecvPark, Schedule;
    if BadArgs(r, from, m) {
    } else if RecvTakes(k, r, from, m) {
      RecvTakenFair(b, k, r, m, l, x);
    } else if AcceptsRecv(k, r, from, m.kernel()) {
      RecvDeliverFair(k, r, from, m, l, x);
    }
  }

  /** The thread at the end of a wait queue waits. */
  lemma LastWaits(k: Kernel, l: ListId)
    requires Sound(k) && (l.SendQ? || l.RecvQ?) && Q(k, l) != []
    ensures Waits(k, LastOf(k, l))
  {
    hide WellFormed, SlotsSound, NoDup;
    assert LastOf(k, l) in Q(k, l);
  }

  lemma MessageFair(b: Build, k: Kernel, op: Op, p: nat, x: Tid)
    requires Sound(k) && InRange(k, op) && b.nullTid < |k.threads| && x in Q(k, RunQ(p)) && (op.DoSend? || op.DoRecv?)
    requires !CallsSchedule(b, k, op)
    ensures NotOvertaken(k, Step(b, k, op), RunQ(p), x)
  {
    QueuedReady(k, p, x);
    hide Sound, NotOvertaken, Send, Recv;
    if op.DoSend? {
      if SendTakes(k, op.t, op.peer) { LastWaits(k, RecvQ(op.t)); }
      SendFair(b, k, op.t, op.peer, op.m, RunQ(p), x);
    } else {
      if RecvTakes(k, op.t, op.peer, op.m) { LastWaits(k, SendQ(op.t)); }
      RecvFair(b, k, op.t, op.peer, op.m, RunQ(p), x);
    }
  }

  /** No call of any kind puts a thread ahead of a ready one.  It leaves its
      queue only if it is paused, released or parked, or if `schedule` returns
      it; and a `schedule` that finds nothing above it, wherever it is called
      from, brings it forward. */
  lemma StepFair(b: Build, k: Kernel, op: Op, p: nat, x: Tid)
    requires Sound(k) && InRange(k, op) && b.nullTid < |k.threads| && x in Q(k, RunQ(p))
    ensures if x in Q(Step(b, k, op), RunQ(p)) then NotOvertaken(k, Step(b, k, op), RunQ(p), x)
            else TakesOff(b, op, x) || (CallsSchedule(b, k, op) && Returned(b, k, op) == x)
    ensures CallsSchedule(b, k, op) && TopIs(Seen(b, k, op), Slot(op), p) && x in Q(Step(b, k, op), RunQ(p)) ==>
              Ahead(Q(Step(b, k, op), RunQ(p)), x) < Ahead(Q(k, RunQ(p)), x)
  {
    assert 0 < |k.cpu|;
    assert T(k, x).state.Ready?;
    hide Sound, Ahead, TopIs, NotOvertaken, Send, Recv, Create, Start, Pause, Release, Schedule, Seen, Wakeup;
    if CallsSchedule(b, k, op) {
      CallFair(b, k, op, p, x);
    } else {
      match op
      case DoCreate(t, dir) => CreateOther(k, t, dir, RunQ(p), x);
      case DoStart(t) => StartFair(k, t, p, x);
      case DoPause(t) => PauseFair(k, t, p, x);
      case DoWakeup(t) => WakeupFair(k, t, p, x);
      case DoRelease(t) => ReleaseFair(k, t, p, x);
      case DoSend(t, peer, m) => MessageFair(b, k, op, p, x);
      case DoRecv(t, peer, m) => MessageFair(b, k, op, p, x);
    }
  }

  lemma CallFair(b: Build, k: Kernel, op: Op, p: nat, x: Tid)
    requires Sound(k) && InRange(k, op) && b.nullTid < |k.threads| && x in Q(k, RunQ(p)) && CallsSchedule(b, k, op)
    ensures if x in Q(Step(b, k, op), RunQ(p)) then NotOvertaken(k, Step(b, k, op), RunQ(p), x)
            else TakesOff(b, op, x) || Returned(b, k, op) == x
    ensures TopIs(Seen(b, k, op), Slot(op), p) && x in Q(Step(b, k, op), RunQ(p)) ==>
              Ahead(Q(Step(b, k, op), RunQ(p)), x) < Ahead(Q(k, RunQ(p)), x)
  {
    assert Slot(op) < |k.cpu|;
    hide Sound, Ahead, TopIs, Step, Schedule, Seen, CallsSchedule, TakesOff;
    SeenFair(b, k, op, RunQ(p), x);
    if TakesOff(b, op, x) {
      WaitingNotQueued(Seen(b, k, op), Slot(op), p, x);
    } else {
      ScheduleAdvances(Seen(b, k, op), Slot(op), p, x);
    }
  }

  /** How often a run calls `schedule`. */
  ghost function Calls(b: Build, ks: seq<Kernel>, ops: seq<Op>): (n: nat)
    requires Run(b, ks, ops)
    ensures n <= |ops|
    decreases |ops|
  {
    if ops == [] then 0
    else
      var n := |ops| - 1;
      Calls(b, ks[..n + 1], ops[..n]) + if CallsSchedule(b, ks[n], ops[n]) then 1 else 0
  }

  /** Bounded waiting: whatever calls a run makes, if a thread is on run queue
      `p` throughout, and every `schedule`, called from wherever, finds nothing
      above `p`, then `schedule` was called at most as often as there were
      threads ahead of it. */
  lemma {:induction false} BoundedWaiting(b: Build, ks: seq<Kernel>, ops: seq<Op>, p: nat, x: Tid)
    requires Run(b, ks, ops) && Sound(ks[0]) && b.nullTid < |ks[0].threads|
    requires forall i | 0 <= i < |ks| :: x in Q(ks[i], RunQ(p))
    requires forall i | 0 <= i < |ops| && CallsSchedule(b, ks[i], ops[i]) ::
               TopIs(Seen(b, ks[i], ops[i]), Slot(ops[i]), p)
    ensures Sound(ks[|ops|]) && SameSize(ks[0], ks[|ops|])
    ensures Calls(b, ks, ops) + Ahead(Q(ks[|ops|], RunQ(p)), x) <= Ahead(Q(ks[0], RunQ(p)), x)
  {
    hide Sound, Ahead, TopIs, Step, CallsSchedule, Seen;
    if ops != [] {
      var n := |ops| - 1;
      BoundedWaiting(b, ks[..n + 1], ops[..n], p, x);
      assert ks[..n + 1][n] == ks[n];
      StepKeeps(b, ks[n], ops[n]);
      StepFair(b, ks[n], ops[n], p, x);
      assert ks[n + 1] == Step(b, ks[n], ops[n]);
    }
  }

  /** While `x` is queued it is not taken off the queue by hand, and every
      `schedule` finds nothing above it. */
  ghost predicate FirstOf(b: Build, k: Kernel, op: Op, p: nat, x: Tid)
    requires InRange(k, op)
  {
    x in Q(k, RunQ(p)) ==>
      && !TakesOff(b, op, x)
      && (CallsSchedule(b, k, op) ==> TopIs(Seen(b, k, op), Slot(op), p))
  }

  lemma {:induction false} StillQueued(b: Build, ks: seq<Kernel>, ops: seq<Op>, p: nat, x: Tid, i: nat)
    requires Run(b, ks, ops) && Sound(ks[0]) && b.nullTid < |ks[0].threads| && x in Q(ks[0], RunQ(p)) && i < |ks|
    requires forall j | 0 <= j < |ops| :: FirstOf(b, ks[j], ops[j], p, x)
    requires forall j | 0 <= j < |ops| && CallsSchedule(b, ks[j], ops[j]) :: Returned(b, ks[j], ops[j]) != x
    ensures Sound(ks[i]) && SameSize(ks[0], ks[i]) && x in Q(ks[i], RunQ(p))
  {
    hide Sound, Step, CallsSchedule, Returned, TakesOff, TopIs, Seen;
    if i > 0 {
      StillQueued(b, ks, ops, p, x, i - 1);
      StepKeeps(b, ks[i - 1], ops[i - 1]);
      assert FirstOf(b, ks[i - 1], ops[i - 1], p, x);
      StepFair(b, ks[i - 1], ops[i - 1], p, x);
    }
  }

  /** ... so a thread with k others ahead of it on run queue `p` is returned by
      one of the first k+1 calls of `schedule` that the run makes, whether on
      their own or inside sends and receives that block. */
  lemma DispatchedWithin(b: Build, ks: seq<Kernel>, ops: seq<Op>, p: nat, x: Tid)
    requires Run(b, ks, ops) && Sound(ks[0]) && b.nullTid < |ks[0].threads| && x in Q(ks[0], RunQ(p))
    requires forall i | 0 <= i < |ops| :: FirstOf(b, ks[i], ops[i], p, x)
    requires Calls(b, ks, ops) > Ahead(Q(ks[0], RunQ(p)), x)
    ensures exists i | 0 <= i < |ops| :: CallsSchedule(b, ks[i], ops[i]) && Returned(b, ks[i], ops[i]) == x
  {
    hide Sound, Step, CallsSchedule, Returned, Calls, Ahead, TopIs, Seen, TakesOff;
    if forall j | 0 <= j < |ops| && CallsSchedule(b, ks[j], ops[j]) :: Returned(b, ks[j], ops[j]) != x {
      forall i | 0 <= i < |ks|
        ensures x in Q(ks[i], RunQ(p))
      {
        StillQueued(b, ks, ops, p, x, i);
      }
      assert forall j | 0 <= j < |ops| :: FirstOf(b, ks[j], ops[j], p, x);
      BoundedWaiting(b, ks, ops, p, x);
      assert false;
    }
  }
}

/** The invariant that ties lists, thread states, `wait_tid` and processor
    slots together, and exactly which calls keep it. */
module KernelInvariant {
  import opened Basics
  import opened AddressSpace
  import opened KernelState

  /** The list a thread in this state belongs on. */
  function Home(th: Thread): Option<ListId> {
    match th.state
    case Ready => Some(RunQ(th.priority))
    case Paused => Some(PausedQ)
    case Zombie => Some(ZombieQ)
    case WaitForRecv => if th.waitTid == NULL_TID then None else Some(SendQ(th.waitTid))
    case WaitForSend => if th.waitTid == NULL_TID then None else Some(RecvQ(th.waitTid))
    case Running => None
    case Inactive => None
    case Sleeping => None
  }

  predicate NoDup(s: seq<Tid>) {
    forall i, j | 0 <= i < j < |s| :: s[i] != s[j]
  }

  predicate IsThread(k: Kernel, t: Tid) {
    0 < t < |k.threads|
  }

  /** On no list and in no processor slot. */
  ghost predicate Loose(k: Kernel, t: Tid) {
    (forall l: ListId :: t !in Q(k, l)) && t !in k.cpu
  }

  ghost predicate WellFormed(k: Kernel) {
    && 0 < |k.threads| <= 0x1_0000
    && 0 < |k.cpu|
    && (forall t | 0 <= t < |k.threads| :: k.threads[t].waitTid < |k.threads| && k.threads[t].priority <= MAX_PRIORITY)
  }

  /** Membership implies the matching state and `wait_tid`; no thread is listed twice. */
  ghost predicate ListsSound(k: Kernel) {
    && (forall l: ListId, t {:trigger t in Q(k, l)} | t in Q(k, l) :: IsThread(k, t) && Home(T(k, t)) == Some(l))
    && (forall l: ListId :: NoDup(Q(k, l)))
  }

  /** Slots hold running threads, each at most once. */
  ghost predicate SlotsSound(k: Kernel) {
    && (forall c | 0 <= c < |k.cpu| && k.cpu[c] != NULL_TID :: IsThread(k, k.cpu[c]) && T(k, k.cpu[c]).state.Running?)
    && Apart(k.cpu)
  }

  predicate Apart(cpu: seq<Tid>) {
    forall c, d | 0 <= c < d < |cpu| && cpu[c] != NULL_TID :: cpu[c] != cpu[d]
  }

  ghost predicate Sound(k: Kernel) {
    WellFormed(k) && ListsSound(k) && SlotsSound(k)
  }

  ghost predicate Placed(k: Kernel, t: Tid) {
    && (Home(T(k, t)).Some? ==> t in Q(k, Home(T(k, t)).value))
    && (T(k, t).state.Running? ==> t in k.cpu)
  }

  /** Every thread outside `but` that should be on a list or in a slot is there. */
  ghost predicate CompleteBut(k: Kernel, but: set<Tid>) {
    forall t | IsThread(k, t) && t !in but :: Placed(k, t)
  }

  ghost predicate Complete(k: Kernel) {
    CompleteBut(k, {})
  }

  // ---------- the two moves every operation is made of ----------

  lemma HasMember(s: seq<Tid>)
    ensures s != [] ==> exists x :: x in s
  {
    if s != [] { assert s[0] in s; }
  }

  lemma WithoutMembers(s: seq<Tid>, t: Tid)
    requires NoDup(s)
    ensures NoDup(Without(s, t))
    ensures forall x :: x in Without(s, t) <==> x in s && x != t
  {
    if s != [] {
      WithoutMembers(s[1..], t);
      assert s == [s[0]] + s[1..];
      assert s[0] !in s[1..];
    }
  }

  lemma ClearSlotMembers(cpu: seq<Tid>, t: Tid)
    requires t != NULL_TID && Apart(cpu)
    ensures Apart(ClearSlot(cpu, t))
    ensures forall x | x != NULL_TID :: x in ClearSlot(cpu, t) <==> x in cpu && x != t
  {
    if cpu != [] {
      assert cpu == [cpu[0]] + cpu[1..];
      if cpu[0] == t {
        assert t !in cpu[1..];
      } else {
        ClearSlotMembers(cpu[1..], t);
        assert cpu[0] == NULL_TID || cpu[0] !in cpu[1..];
      }
    }
  }

  /** Nobody but `t` changed list, slot or TCB. */
  ghost predicate OnlyMoved(k: Kernel, k1: Kernel, t: Tid) {
    && |k1.threads| == |k.threads| && |k1.cpu| == |k.cpu|
    && (forall x: Tid | x != t :: T(k1, x) == T(k, x))
    && (forall x: Tid, l: ListId {:trigger x in Q(k, l)} {:trigger x in Q(k1, l)} | x != t ::
         x in Q(k1, l) <==> x in Q(k, l))
    && (forall x: Tid | x != t && x != NULL_TID :: x in k1.cpu <==> x in k.cpu)
  }

  lemma RemoveKeeps(k: Kernel, l: ListId, t: Tid)
    requires Sound(k) && IsThread(k, t)
    requires Home(T(k, t)) == Some(l)
    ensures Sound(Remove(k, l, t)) && Loose(Remove(k, l, t), t) && OnlyMoved(k, Remove(k, l, t), t)
  {
    WithoutMembers(Q(k, l), t);
    var k1 := Remove(k, l, t);
    forall m: ListId
      ensures NoDup(Q(k1, m))
      ensures forall x: Tid :: x in Q(k1, m) <==> x in Q(k, m) && x != t
    {
      if t in Q(k, m) { assert m == l; }
    }
  }

  /** After `thread_remove_from_list` the thread is loose and nobody else moved. */
  lemma Unlink(k: Kernel, t: Tid)
    requires Sound(k) && IsThread(k, t) && Removable(T(k, t))
    ensures var k1 := RemoveFromList(k, t);
            && Sound(k1) && Loose(k1, t) && OnlyMoved(k, k1, t) && k1.mem == k.mem
            && (T(k1, t) == T(k, t) || T(k1, t) == T(k, t).(waitTid := NULL_TID))
            && (T(k, t).state.Running? ==> k1.q == k.q)
            && (!T(k, t).state.Running? ==> k1.cpu == k.cpu)
  {
    if T(k, t).state.Running? {
      UnlinkRunning(k, t);
      return;
    }
    hide Sound, Loose, OnlyMoved;
    match T(k, t).state
    case WaitForRecv => UnlinkWaiting(k, t);
    case WaitForSend => UnlinkWaiting(k, t);
    case Ready => RemoveKeeps(k, RunQ(T(k, t).priority), t);
    case Paused => RemoveKeeps(k, PausedQ, t);
    case Zombie => RemoveKeeps(k, ZombieQ, t);
  }

  lemma UnlinkRunning(k: Kernel, t: Tid)
    requires Sound(k) && IsThread(k, t) && T(k, t).state.Running?
    ensures var k1 := k.(cpu := ClearSlot(k.cpu, t));
            Sound(k1) && Loose(k1, t) && OnlyMoved(k, k1, t)
  {
    var k1 := k.(cpu := ClearSlot(k.cpu, t));
    assert forall l: ListId :: t !in Q(k, l);
    SameListsSound(k, k1);
    hide ListsSound, NoDup, ClearSlot;
    ClearSlotMembers(k.cpu, t);
    assert forall l: ListId :: Q(k1, l) == Q(k, l);
    assert forall c | 0 <= c < |k1.cpu| && k1.cpu[c] != NULL_TID :: k1.cpu[c] in k1.cpu;
  }

  lemma SameListsSound(k: Kernel, k1: Kernel)
    requires ListsSound(k) && k1.q == k.q && k1.threads == k.threads
    ensures ListsSound(k1)
  {
    hide NoDup;
    assert forall l: ListId :: Q(k1, l) == Q(k, l);
  }

  lemma UnlinkWaiting(k: Kernel, t: Tid)
    requires Sound(k) && IsThread(k, t) && (T(k, t).state.WaitForRecv? || T(k, t).state.WaitForSend?)
    ensures var k1 := Detach(k, t);
            && Sound(k1) && Loose(k1, t) && OnlyMoved(k, k1, t)
            && T(k1, t) == T(k, t).(waitTid := NULL_TID)
  {
    hide ListsSound, SlotsSound, Loose, NoDup;
    var th := T(k, t).(waitTid := NULL_TID);
    if Home(T(k, t)).Some? {
      var l := Home(T(k, t)).value;
      RemoveKeeps(k, l, t);
      PutLoose(Remove(k, l, t), t, th);
      assert Detach(k, t) == Put(Remove(k, l, t), t, th);
    } else {
      WaitsNowhere(k, t);
      PutLoose(k, t, th);
    }
  }

  lemma WaitsNowhere(k: Kernel, t: Tid)
    requires Sound(k) && Home(T(k, t)).None? && !T(k, t).state.Running? && t != NULL_TID
    ensures Loose(k, t)
  {
  }

  ghost predicate FieldsOk(k: Kernel, th: Thread) {
    th.waitTid < |k.threads| && th.priority <= MAX_PRIORITY
  }

  /** The TCB of a loose thread can be rewritten freely. */
  lemma PutLoose(k: Kernel, t: Tid, th: Thread)
    requires Sound(k) && IsThread(k, t) && Loose(k, t) && FieldsOk(k, th)
    ensures Sound(Put(k, t, th)) && Loose(Put(k, t, th), t) && OnlyMoved(k, Put(k, t, th), t)
  {
    var k1 := Put(k, t, th);
    assert forall l: ListId :: Q(k1, l) == Q(k, l);
    assert forall c | 0 <= c < |k.cpu| :: k.cpu[c] in k.cpu;
  }

  /** A loose thread put on the list its new state calls for. */
  lemma Link(k: Kernel, t: Tid, th: Thread, l: ListId)
    requires Sound(k) && IsThread(k, t) && Loose(k, t) && FieldsOk(k, th) && Home(th) == Some(l)
    ensures var k1 := Park(k, t, th, l);
            Sound(k1) && OnlyMoved(k, k1, t) && T(k1, t) == th && Placed(k1, t)
  {
    var k1 := Park(k, t, th, l);
    PutLoose(k, t, th);
    assert Q(k1, l) == [t] + Q(k, l);
    assert forall m: ListId | m != l :: Q(k1, m) == Q(k, m);
  }

  /** The states differ only in fields that do not decide where a thread belongs. */
  ghost predicate SamePlaces(k: Kernel, k1: Kernel) {
    && k1.q == k.q && k1.cpu == k.cpu && |k1.threads| == |k.threads|
    && forall x: Tid ::
         && T(k1, x).state == T(k, x).state
         && T(k1, x).priority == T(k, x).priority
         && T(k1, x).waitTid == T(k, x).waitTid
  }

  lemma SamePlacesKeeps(k: Kernel, k1: Kernel)
    requires SamePlaces(k, k1)
    ensures Sound(k) ==> Sound(k1)
    ensures forall x: Tid :: Placed(k1, x) <==> Placed(k, x)
  {
    assert forall l: ListId :: Q(k1, l) == Q(k, l);
    assert forall t: int | 0 <= t < |k.threads| <= 0x1_0000 :: k1.threads[t] == T(k1, t) && k.threads[t] == T(k, t);
  }

  lemma Moved(k: Kernel, k1: Kernel, t: Tid, but: set<Tid>)
    requires OnlyMoved(k, k1, t) && CompleteBut(k, but)
    ensures CompleteBut(k1, but + {t})
    ensures Placed(k1, t) ==> CompleteBut(k1, but - {t})
  {
    forall x | IsThread(k1, x) && x !in but && x != t
      ensures Placed(k1, x)
    {
      assert IsThread(k, x) && Placed(k, x);
    }
  }

  lemma Relink(k: Kernel, t: Tid, th: Thread, l: ListId)
    requires Sound(k) && IsThread(k, t) && Removable(T(k, t)) && FieldsOk(k, th) && Home(th) == Some(l)
    ensures var k1 := Park(RemoveFromList(k, t), t, th, l);
            Sound(k1) && OnlyMoved(k, k1, t) && T(k1, t) == th && Placed(k1, t)
  {
    Unlink(k, t);
    Link(RemoveFromList(k, t), t, th, l);
  }

  lemma DequeueKeeps(k: Kernel, l: ListId)
    requires Sound(k) && Q(k, l) != []
    ensures var (k1, t) := Dequeue(k, l);
            Sound(k1) && IsThread(k, t) && Loose(k1, t) && OnlyMoved(k, k1, t) && T(k1, t) == T(k, t)
                && Home(T(k, t)) == Some(l)
  {
    var (k1, t) := Dequeue(k, l);
    var s := Q(k, l);
    assert s == s[..|s| - 1] + [t];
    assert forall x: Tid :: x in s[..|s| - 1] <==> x in s && x != t;
    assert t in Q(k, l);
    forall m: ListId, x: Tid
      ensures x in Q(k1, m) <==> x in Q(k, m) && x != t
    {
      assert Q(k1, l) == s[..|s| - 1];
      assert m == l || Q(k1, m) == Q(k, m);
    }
    assert forall m: ListId :: Q(k1, m) == if m == l then s[..|s| - 1] else Q(k, m);
    assert t !in k.cpu;
  }

  // ---------- thread operations ----------

  lemma StartKeeps(k: Kernel, t: Tid, but: set<Tid>)
    requires Sound(k) && IsThread(k, t)
    ensures Sound(Start(k, t).0) && OnlyMoved(k, Start(k, t).0, t)
    ensures CompleteBut(k, but) ==> CompleteBut(Start(k, t).0, if Start(k, t).1 == E_OK then but - {t} else but)
    ensures Start(k, t).1 == E_OK ==> T(Start(k, t).0, t).state.Ready? && Placed(Start(k, t).0, t)
  {
    if T(k, t).state.WaitForRecv? || T(k, t).state.WaitForSend? || T(k, t).state.Paused? {
      hide ListsSound, SlotsSound, Loose, OnlyMoved, Placed, CompleteBut;
      Unlink(k, t);
      var th := T(RemoveFromList(k, t), t).(state := Ready);
      Relink(k, t, th, RunQ(th.priority));
      if CompleteBut(k, but) { Moved(k, Start(k, t).0, t, but); }
    }
  }

  /** Starting a thread leaves the message parked in its TCB alone. */
  lemma StartKeepsMessage(k: Kernel, t: Tid)
    ensures var k1 := Start(k, t).0;
            T(k1, t).waitKernel == T(k, t).waitKernel && T(k1, t).regs == T(k, t).regs && k1.mem == k.mem
  {
  }

  lemma WakeupKeeps(k: Kernel, t: Tid)
    requires Sound(k) && IsThread(k, t)
    ensures Sound(Wakeup(k, t).0)
    ensures Complete(k) ==> Complete(Wakeup(k, t).0)
  {
    StartKeeps(k, t, {});
  }

  lemma PauseKeeps(k: Kernel, t: Tid)
    requires Sound(k) && IsThread(k, t)
    ensures Sound(Pause(k, t).0)
    ensures Complete(k) ==> Complete(Pause(k, t).0)
  {
    if Pause(k, t).1 == E_OK {
      hide ListsSound, SlotsSound, Loose, OnlyMoved, Placed, CompleteBut;
      Unlink(k, t);
      Relink(k, t, T(RemoveFromList(k, t), t).(state := Paused), PausedQ);
      if Complete(k) { Moved(k, Pause(k, t).0, t, {}); }
    }
  }

  /** A new thread costs the threads queued on its slot their place. */
  lemma CreateKeeps(k: Kernel, t: Tid, dir: Frame)
    requires Sound(k) && IsThread(k, t)
    ensures Sound(Create(k, t, dir).0)
    ensures Complete(k) && T(k, t).state.Inactive? ==>
            (Complete(Create(k, t, dir).0) <==> Q(k, SendQ(t)) == [] && Q(k, RecvQ(t)) == [])
  {
    if T(k, t).state.Inactive? {
      var k1 := k.(q := k.q - {SendQ(t), RecvQ(t)});
      var k2 := Create(k, t, dir).0;
      assert forall l: ListId :: Q(k1, l) == if l == SendQ(t) || l == RecvQ(t) then [] else Q(k, l);
      assert Loose(k1, t);
      Link(k1, t, NewThread(dir), PausedQ);
      if Complete(k) {
        if Q(k, SendQ(t)) == [] && Q(k, RecvQ(t)) == [] {
          assert OnlyMoved(k, k1, t);
          Moved(k1, k2, t, {});
        } else {
          var l := if Q(k, SendQ(t)) != [] then SendQ(t) else RecvQ(t);
          var x := Q(k, l)[0];
          assert x in Q(k, l);
          assert x !in Q(k2, l) && IsThread(k2, x) && !Placed(k2, x);
        }
      }
    }
  }

  lemma {:induction false} DrainKeeps(k: Kernel, t: Tid)
    requires Sound(k)
    ensures Sound(Drain(k, t)) && |Drain(k, t).threads| == |k.threads|
    ensures Q(Drain(k, t), SendQ(t)) == []
    ensures forall x: Tid | x in Q(k, SendQ(t)) :: T(Drain(k, t), x) == Released(T(k, x)) && Loose(Drain(k, t), x)
    ensures forall x: Tid | x !in Q(k, SendQ(t)) :: T(Drain(k, t), x) == T(k, x)
    ensures forall l: ListId | l != SendQ(t) :: Q(Drain(k, t), l) == Q(k, l)
    ensures Drain(k, t).cpu == k.cpu
    decreases |Q(k, SendQ(t))|
  {
    hide ListsSound, SlotsSound, NoDup;
    var s := Q(k, SendQ(t));
    if s != [] {
      DequeueKeeps(k, SendQ(t));
      var (k1, x) := Dequeue(k, SendQ(t));
      PutLoose(k1, x, Released(T(k1, x)));
      var k2 := Put(k1, x, Released(T(k1, x)));
      DrainKeeps(k2, t);
      assert Q(k2, SendQ(t)) == s[..|s| - 1];
      assert s == s[..|s| - 1] + [x];
      assert forall y: Tid :: y in s <==> y in s[..|s| - 1] || y == x;
      assert Loose(Drain(k, t), x);
    }
  }

  /** `thread_release` leaves the thread inactive and on no list, and each
      thread that was queued to send to it READY with E_UNREACH and a null
      `wait_tid`, on no list. */
  lemma ReleaseKeeps(k: Kernel, t: Tid)
    requires Sound(k) && IsThread(k, t) && Removable(T(k, t))
    ensures var k1 := Release(k, t).0;
            && Release(k, t).1 == E_OK
            && Sound(k1) && T(k1, t).state.Inactive? && Loose(k1, t) && Q(k1, SendQ(t)) == []
            && (forall x: Tid | x in Q(k, SendQ(t)) && x != t ::
                  && Loose(k1, x) && T(k1, x).state.Ready? && T(k1, x).waitTid == NULL_TID
                     && T(k1, x).regs.eax == E_UNREACH
                  && T(k1, x).priority == T(k, x).priority)
  {
    var k0 := RemoveFromList(k, t);
    var k2 := Drain(k0, t);
    Unlink(k, t);
    DrainKeeps(k0, t);
    assert Loose(k2, t) by {
      forall l: ListId
        ensures t !in Q(k2, l)
      {
        assert t !in Q(k0, l);
      }
    }
    PutLoose(k2, t, T(k2, t).(state := Inactive));
  }

  /** ... so exactly those threads are lost. */
  lemma ReleaseCompleteIff(k: Kernel, t: Tid)
    requires Sound(k) && Complete(k) && IsThread(k, t) && Removable(T(k, t))
    ensures Complete(Release(k, t).0) <==> forall x | x in Q(k, SendQ(t)) :: x == t
  {
    var k0 := RemoveFromList(k, t);
    var k1 := Release(k, t).0;
    if x :| x in Q(k, SendQ(t)) && x != t {
      ReleaseKeeps(k, t);
      assert IsThread(k1, x) && T(k1, x).state.Ready? && !Placed(k1, x);
    } else {
      hide Sound, CompleteBut, Placed;
      Unlink(k, t);
      Moved(k, k0, t, {});
      HasMember(Q(k0, SendQ(t)));
      PutLoose(k0, t, T(k0, t).(state := Inactive));
      Moved(k0, k1, t, {t});
      assert Placed(k1, t) by { UnplacedNeedsNoPlace(k1, t); }
    }
  }

  lemma UnplacedNeedsNoPlace(k: Kernel, t: Tid)
    requires T(k, t).state.Inactive?
    ensures Placed(k, t)
  {
  }

  // ---------- scheduler ----------

  lemma Dispatch(k: Kernel, t: Tid, c: nat)
    requires Sound(k) && IsThread(k, t) && Loose(k, t) && c < |k.cpu| && k.cpu[c] == NULL_TID
    ensures var k1 := Put(k, t, T(k, t).(state := Running)).(cpu := k.cpu[c := t]);
            Sound(k1) && OnlyMoved(k, k1, t) && Placed(k1, t) && T(k1, t) == T(k, t).(state := Running)
  {
    var k1 := Put(k, t, T(k, t).(state := Running)).(cpu := k.cpu[c := t]);
    assert forall l: ListId :: Q(k1, l) == Q(k, l);
    assert forall x: Tid | x != t && x != NULL_TID :: x in k1.cpu <==> x in k.cpu by {
      forall x: Tid | x != t && x != NULL_TID && x in k.cpu
        ensures x in k1.cpu
      {
        var d :| 0 <= d < |k.cpu| && k.cpu[d] == x;
        assert k1.cpu[d] == x;
      }
    }
    assert k1.cpu[c] == t;
    assert forall d | 0 <= d < |k.cpu| :: k.cpu[d] in k.cpu;
  }

  /** The running thread of a slot made ready again. */
  lemma Preempt(k: Kernel, c: nat)
    requires Sound(k) && c < |k.cpu| && k.cpu[c] != NULL_TID
    ensures var cur := k.cpu[c]; var k1 := MakeReady(k, cur).(cpu := k.cpu[c := NULL_TID]);
            Sound(k1) && OnlyMoved(k, k1, cur) && Placed(k1, cur) && T(k1, cur) == T(k, cur).(state := Ready)
  {
    var cur := k.cpu[c];
    var k0 := k.(cpu := k.cpu[c := NULL_TID]);
    var th := T(k, cur).(state := Ready);
    assert k.cpu[c := NULL_TID] == ClearSlot(k.cpu, cur) by { ClearSlotAt(k.cpu, c); }
    Relink(k, cur, th, RunQ(th.priority));
    assert MakeReady(k, cur).(cpu := k.cpu[c := NULL_TID]) == Park(RemoveFromList(k, cur), cur, th, RunQ(th.priority));
  }

  lemma ClearSlotAt(cpu: seq<Tid>, c: nat)
    requires c < |cpu| && cpu[c] != NULL_TID && Apart(cpu)
    ensures ClearSlot(cpu, cpu[c]) == cpu[c := NULL_TID]
  {
    if c > 0 {
      assert cpu[0] != cpu[c];
      ClearSlotAt(cpu[1..], c - 1);
    }
  }

  /** `schedule` once queue `p` is chosen. */
  function Take(k: Kernel, c: nat, p: nat): (Kernel, Tid)
    requires c < |k.cpu| && Q(k, RunQ(p)) != []
  {
    var (k1, t) := Dequeue(k, RunQ(p));
    var k2 := if k.cpu[c] == NULL_TID then k1 else MakeReady(k1, k.cpu[c]).(cpu := k1.cpu[c := NULL_TID]);
    (Put(k2, t, T(k2, t).(state := Running)).(cpu := k2.cpu[c := t]), t)
  }

  lemma ScheduleIsTake(k: Kernel, c: nat, p: nat)
    requires c < |k.cpu| && TopReady(k, Floor(k, c), MAX_PRIORITY) == Some(p)
    ensures Schedule(k, c) == Take(k, c, p)
  {
    var (k1, t) := Dequeue(k, RunQ(p));
    assert k.cpu[c := NULL_TID][c := t] == k.cpu[c := t];
  }

  lemma TakeKeeps(k: Kernel, c: nat, p: nat)
    requires Sound(k) && c < |k.cpu| && Q(k, RunQ(p)) != []
    ensures var (k1, t) := Take(k, c, p);
            && Sound(k1)
            && k1.cpu == k.cpu[c := t] && k1.mem == k.mem && |k1.threads| == |k.threads|
            && t in Q(k, RunQ(p)) && T(k1, t) == T(k, t).(state := Running)
            && (forall x: Tid | x != t ::
                 T(k1, x) == if x == k.cpu[c] && x != NULL_TID then T(k, x).(state := Ready) else T(k, x))
            && (forall l: ListId | !l.RunQ? :: Q(k1, l) == Q(k, l))
  {
    DequeueKeeps(k, RunQ(p));
    var (k1, t) := Dequeue(k, RunQ(p));
    if k.cpu[c] == NULL_TID {
      Dispatch(k1, t, c);
    } else {
      Preempt(k1, c);
      Dispatch(MakeReady(k1, k.cpu[c]).(cpu := k1.cpu[c := NULL_TID]), t, c);
    }
  }

  lemma TakeCompletes(k: Kernel, c: nat, p: nat, but: set<Tid>)
    requires Sound(k) && c < |k.cpu| && Q(k, RunQ(p)) != [] && CompleteBut(k, but)
    ensures CompleteBut(Take(k, c, p).0, but)
  {
    DequeueKeeps(k, RunQ(p));
    var (k1, t) := Dequeue(k, RunQ(p));
    Moved(k, k1, t, but);
    if k.cpu[c] == NULL_TID {
      Dispatch(k1, t, c);
      Moved(k1, Take(k, c, p).0, t, but + {t});
    } else {
      Preempt(k1, c);
      var k3 := MakeReady(k1, k.cpu[c]).(cpu := k1.cpu[c := NULL_TID]);
      Moved(k1, k3, k.cpu[c], but + {t});
      Dispatch(k3, t, c);
      Moved(k3, Take(k, c, p).0, t, but + {t} - {k.cpu[c]});
    }
  }

  /** `schedule` keeps the invariant, and returns a thread that is RUNNING in
      the slot and was READY or already there, unless it panics with the slot
      empty; the preempted thread is READY again and nobody else changed. */
  lemma ScheduleKeeps(k: Kernel, c: nat, but: set<Tid>)
    requires Sound(k) && c < |k.cpu|
    ensures var (k1, t) := Schedule(k, c);
            && Sound(k1) && (CompleteBut(k, but) ==> CompleteBut(k1, but))
            && k1.cpu == k.cpu[c := t] && k1.mem == k.mem && |k1.threads| == |k.threads|
            && (t == NULL_TID ==> k1 == k)
            && (t != NULL_TID ==> IsThread(k, t) && T(k1, t) == T(k, t).(state := Running))
            && (t != k.cpu[c] ==> T(k, t).state.Ready?)
            && (forall x: Tid | x != t ::
                 T(k1, x) == if x == k.cpu[c] && x != NULL_TID then T(k, x).(state := Ready) else T(k, x))
            && (forall l: ListId | !l.RunQ? :: Q(k1, l) == Q(k, l))
  {
    match TopReady(k, Floor(k, c), MAX_PRIORITY)
    case None =>
    case Some(p) =>
      TakeKeeps(k, c, p);
      if CompleteBut(k, but) { TakeCompletes(k, c, p, but); }
      ScheduleIsTake(k, c, p);
  }

  // ---------- messages ----------

  lemma AttachKeeps(b: Build, k: Kernel, t: Tid, state: ThreadState, peer: Tid, l: ListId)
    requires Sound(k) && IsThread(k, t) && Loose(k, t) && peer < |k.threads| && b.nullTid < |k.threads|
    requires (state == WaitForRecv && l == SendQ(peer)) || (state == WaitForSend && l == RecvQ(peer))
    ensures var k1 := Attach(b, k, t, state, peer, l);
            && Sound(k1) && OnlyMoved(k, k1, t) && k1.cpu == k.cpu && k1.mem == k.mem
            && T(k1, t) == T(k, t).(state := state, waitTid := PeerTid(b, peer))
            && (Placed(k1, t) <==> peer != NULL_TID || b.nullTid == NULL_TID)
  {
    var th := T(k, t).(state := state, waitTid := PeerTid(b, peer));
    if peer == NULL_TID {
      PutLoose(k, t, th);
    } else {
      Link(k, t, th, l);
    }
  }

  /** Who a blocked thread waits for is a thread or nobody. */
  ghost predicate PeerOk(b: Build, k: Kernel, peer: Tid) {
    peer < |k.threads| && b.nullTid < |k.threads|
  }

  function WaitList(state: ThreadState, peer: Tid): ListId {
    if state.WaitForRecv? then SendQ(peer) else RecvQ(peer)
  }

  /** A thread taken off its list and parked for a message. */
  lemma ParkForMessage(b: Build, k: Kernel, t: Tid, state: ThreadState, peer: Tid)
    requires Sound(k) && IsThread(k, t) && Removable(T(k, t)) && PeerOk(b, k, peer)
    requires state.WaitForRecv? || state.WaitForSend?
    ensures var k1 := Attach(b, RemoveFromList(k, t), t, state, peer, WaitList(state, peer));
            && Sound(k1) && OnlyMoved(k, k1, t) && t !in k1.cpu && k1.mem == k.mem
            && T(k1, t).state == state && T(k1, t).waitTid == PeerTid(b, peer) && T(k1, t).regs == T(k, t).regs
               && T(k1, t).dir == T(k, t).dir
            && (Placed(k1, t) <==> peer != NULL_TID || b.nullTid == NULL_TID)
  {
    Unlink(k, t);
    AttachKeeps(b, RemoveFromList(k, t), t, state, peer, WaitList(state, peer));
  }

  lemma PlacedAlike(k: Kernel, k1: Kernel, t: Tid)
    requires T(k1, t) == T(k, t) && (T(k, t).state.WaitForRecv? || T(k, t).state.WaitForSend?)
    requires forall l: ListId | !l.RunQ? :: Q(k1, l) == Q(k, l)
    ensures Placed(k1, t) <==> Placed(k, t)
  {
    hide T, Q;
  }

  lemma WaitingNotRunning(k: Kernel, t: Tid)
    requires Sound(k) && (T(k, t).state.WaitForRecv? || T(k, t).state.WaitForSend?)
    ensures 0 < |k.cpu| && (k.cpu[0] != t || t == NULL_TID) && !T(k, t).state.Ready?
  {
    hide ListsSound;
  }

  /** `schedule` leaves a waiting thread where it is, and as it is. */
  lemma WaitingStays(k: Kernel, t: Tid)
    requires Sound(k) && (T(k, t).state.WaitForRecv? || T(k, t).state.WaitForSend?)
    ensures 0 < |k.cpu|
    ensures var k1 := Schedule(k, 0).0; T(k1, t) == T(k, t) && (Placed(k1, t) <==> Placed(k, t))
  {
    hide Sound, Schedule, CompleteBut, Placed;
    WaitingNotRunning(k, t);
    ScheduleKeeps(k, 0, {});
    assert T(Schedule(k, 0).0, t) == T(k, t);
    PlacedAlike(k, Schedule(k, 0).0, t);
  }

  /** Switching away loses nobody, and finds nobody who was lost. */
  lemma SwitchKeeps(k: Kernel)
    requires Sound(k)
    ensures Sound(SwitchAway(k).0)
    ensures Complete(k) ==> Complete(SwitchAway(k).0)
    ensures forall t: Tid | T(k, t).state.WaitForRecv? || T(k, t).state.WaitForSend? ::
              T(SwitchAway(k).0, t) == T(k, t) && (Placed(SwitchAway(k).0, t) <==> Placed(k, t))
  {
    assert 0 < |k.cpu|;
    hide Sound, Schedule, CompleteBut, Placed;
    ScheduleKeeps(k, 0, {});
    forall t: Tid | T(k, t).state.WaitForRecv? || T(k, t).state.WaitForSend?
      ensures T(SwitchAway(k).0, t) == T(k, t) && (Placed(SwitchAway(k).0, t) <==> Placed(k, t))
    {
      WaitingStays(k, t);
    }
  }

  /** A waiting thread is started; then registers and flags are filled in. */
  lemma DeliverKeeps(k: Kernel, mem: Phys, peer: Tid, k1: Kernel)
    requires Sound(k) && IsThread(k, peer) && (T(k, peer).state.WaitForSend? || T(k, peer).state.WaitForRecv?)
    requires SamePlaces(Start(k.(mem := mem), peer).0, k1)
    ensures Sound(k1) && T(k1, peer).state.Ready? && Placed(k1, peer)
    ensures CompleteBut(k, {peer}) ==> Complete(k1)
  {
    var k0 := k.(mem := mem);
    SamePlacesKeeps(k, k0);
    StartKeeps(k0, peer, {peer});
    SamePlacesKeeps(Start(k0, peer).0, k1);
  }

  lemma FillKeepsPlaces(k: Kernel, t: Tid, waitKernel: bool, regs: Regs)
    ensures SamePlaces(k, Fill(k, t, waitKernel, regs))
  {
  }

  lemma SamePlacesChain(k: Kernel, k1: Kernel, k2: Kernel)
    requires SamePlaces(k, k1) && SamePlaces(k1, k2)
    ensures SamePlaces(k, k2)
  {
  }

  lemma FinishKeepsPlaces(k: Kernel, s: Tid, r: Tid, m: Message, n: Word)
    ensures SamePlaces(k, SendFinish(k, s, r, m, n)) && SamePlaces(k, RecvFinish(k, r, s, n))
  {
    hide SamePlaces, Fill, T;
    var rcv, snd := T(k, r), T(k, s);
    var code := if m.kernel() && !rcv.waitKernel then E_PREEMPT else E_OK;
    var k1 := Fill(k, r, false,
        rcv.regs.(eax := code, ebx := Header(m.kernel(), s, m.flags), esi := m.subject, edi := n));
    FillKeepsPlaces(k, r, false,
        rcv.regs.(eax := code, ebx := Header(m.kernel(), s, m.flags), esi := m.subject, edi := n));
    FillKeepsPlaces(k1, s, T(k1, s).waitKernel, T(k1, s).regs.(ebx := r, esi := n));
    SamePlacesChain(k, k1, SendFinish(k, s, r, m, n));
    var regs := rcv.regs.(ebx := Header(snd.waitKernel, s, snd.regs.ecx), esi := snd.regs.esi, edi := n);
    var k2 := Fill(k, r, rcv.waitKernel, regs);
    FillKeepsPlaces(k, r, rcv.waitKernel, regs);
    FillKeepsPlaces(k2, s, false, T(k2, s).regs.(eax := E_OK, esi := n));
    SamePlacesChain(k, k2, RecvFinish(k, r, s, n));
  }

  lemma SendDeliverKeeps(k: Kernel, s: Tid, r: Tid, m: Message)
    requires Sound(k) && IsThread(k, r) && T(k, r).state.WaitForSend?
    ensures var (k1, out) := SendDeliver(k, s, r, m);
            && Sound(k1)
            && (out == Ret(E_OK) ==> T(k1, r).state.Ready? && Placed(k1, r) && (CompleteBut(k, {r}) ==> Complete(k1)))
            && (out != Ret(E_OK) ==> out == Broken(SendCopy(k, s, r, m).1) && SamePlaces(k, k1))
  {
    var (k1, out) := SendDeliver(k, s, r, m);
    if out == Ret(E_OK) {
      var n := Min(T(k, r).regs.edi, m.length);
      var mem := SendCopy(k, s, r, m).0;
      FinishKeepsPlaces(Start(k.(mem := mem), r).0, s, r, m, n);
      DeliverKeeps(k, mem, r, k1);
    } else {
      SamePlacesKeeps(k, k1);
    }
  }

  lemma RecvDeliverKeeps(k: Kernel, r: Tid, s: Tid, m: Message)
    requires Sound(k) && IsThread(k, s) && T(k, s).state.WaitForRecv?
    ensures var (k1, out) := RecvDeliver(k, r, s, m);
            && Sound(k1)
            && (RecvCopies(k, r, s, m) ==>
                 T(k1, s).state.Ready? && Placed(k1, s) && (CompleteBut(k, {s}) ==> Complete(k1)))
            && (!RecvCopies(k, r, s, m) ==> out == Broken(RecvCopy(k, r, s, m).1) && SamePlaces(k, k1))
  {
    var (k1, out) := RecvDeliver(k, r, s, m);
    if !RecvCopies(k, r, s, m) {
      SamePlacesKeeps(k, k1);
    } else {
      var n := Min(T(k, s).regs.edi, m.length);
      var mem := RecvCopy(k, r, s, m).0;
      FinishKeepsPlaces(Start(k.(mem := mem), s).0, s, r, m, n);
      DeliverKeeps(k, mem, s, k1);
    }
  }

  lemma ParkKeepsPlaces(b: Build, k: Kernel, s: Tid, r: Tid, m: Message)
    ensures SamePlaces(Attach(b, RemoveFromList(k, s), s, WaitForRecv, r, SendQ(r)), SendPark(b, k, s, r, m))
    ensures b.parksCaller ==>
              SamePlaces(Attach(b, RemoveFromList(k, r), r, WaitForSend, s, RecvQ(s)), RecvPark(b, k, r, s, m))
    ensures !b.parksCaller ==>
              SamePlaces(Attach(b, RemoveFromList(k, s), s, WaitForSend, r, RecvQ(r)), RecvPark(b, k, r, s, m))
  {
    hide SamePlaces, Fill, T, Attach, RemoveFromList;
    FillKeepsPlaces(Attach(b, RemoveFromList(k, s), s, WaitForRecv, r, SendQ(r)), s, m.kernel(),
        Regs(E_INTERRUPT, m.buffer, m.flags, m.subject, m.length));
    var k1 := if b.parksCaller then Attach(b, RemoveFromList(k, r), r, WaitForSend, s, RecvQ(s))
          else Attach(b, RemoveFromList(k, s), s, WaitForSend, r, RecvQ(r));
    FillKeepsPlaces(k1, r, m.kernel(),
        T(k1, r).regs.(eax := E_INTERRUPT, ebx := m.buffer, ecx := m.flags, edi := m.length));
  }

  lemma SendBlockKeeps(b: Build, k: Kernel, s: Tid, r: Tid, m: Message)
    requires Sound(k) && IsThread(k, s) && PeerOk(b, k, r)
    ensures Sound(SendBlock(b, k, s, r, m).0)
    ensures Complete(k) ==>
              (Complete(SendBlock(b, k, s, r, m).0) <==> !Removable(T(k, s)) || r != NULL_TID || b.nullTid == NULL_TID)
  {
    if Removable(T(k, s)) {
      ParkForMessage(b, k, s, WaitForRecv, r);
      ParkKeepsPlaces(b, k, s, r, m);
      ParkedThenSwitched(k, Attach(b, RemoveFromList(k, s), s, WaitForRecv, r, SendQ(r)), s, SendPark(b, k, s, r, m));
    }
  }

  lemma ParkedThenSwitched(k: Kernel, k1: Kernel, t: Tid, k2: Kernel)
    requires Sound(k1) && OnlyMoved(k, k1, t) && SamePlaces(k1, k2)
    requires IsThread(k, t) && (T(k1, t).state.WaitForRecv? || T(k1, t).state.WaitForSend?)
    ensures Sound(SwitchAway(k2).0)
    ensures Complete(k) ==> (Complete(SwitchAway(k2).0) <==> Placed(k1, t))
  {
    SamePlacesKeeps(k1, k2);
    SwitchKeeps(k2);
    if Complete(k) {
      Moved(k, k1, t, {});
      var k3 := SwitchAway(k2).0;
      assert Placed(k3, t) <==> Placed(k1, t);
      if Placed(k1, t) {
        assert Complete(k2);
      } else {
        ScheduleKeeps(k2, 0, {});
        assert IsThread(k3, t);
      }
    }
  }

  lemma RecvBlockKeeps(b: Build, k: Kernel, r: Tid, s: Tid, m: Message)
    requires Sound(k) && IsThread(k, r) && PeerOk(b, k, s)
    ensures Sound(RecvBlock(b, k, r, s, m).0)
    ensures Complete(k) ==> (Complete(RecvBlock(b, k, r, s, m).0) <==>
                             !b.parksCaller || !Removable(T(k, r)) || s != NULL_TID || b.nullTid == NULL_TID)
  {
    var parked := if b.parksCaller then r else s;
    var peer := if b.parksCaller then s else r;
    if parked != NULL_TID && Removable(T(k, parked)) {
      ParkForMessage(b, k, parked, WaitForSend, peer);
      ParkKeepsPlaces(b, k, s, r, m);
      ParkedThenSwitched(k, Attach(b, RemoveFromList(k, parked), parked, WaitForSend, peer, RecvQ(peer)), parked,
          RecvPark(b, k, r, s, m));
    }
  }

  // Whether the message copy of a call completes.

  predicate SendCopies(k: Kernel, s: Tid, r: Tid, m: Message) {
    SendCopy(k, s, r, m).1.Done?
  }

  predicate RecvCopies(k: Kernel, r: Tid, s: Tid, m: Message) {
    RecvCopy(k, r, s, m).1.Done?
  }

  predicate BadArgs(t: Tid, peer: Tid, m: Message) {
    t == peer || (m.length > 0 && m.buffer == 0)
  }

  predicate SendTakes(k: Kernel, s: Tid, to: Tid) {
    to == ANY && Q(k, RecvQ(s)) != []
  }

  function LastOf(k: Kernel, l: ListId): Tid
    requires Q(k, l) != []
  {
    Q(k, l)[|Q(k, l)| - 1]
  }

  /** The calls of `send_message` after which a thread is waiting on no list:
      a taken recipient whose buffer cannot be written, or a sender to anybody
      whose null peer has a tid. */
  predicate SendLoses(b: Build, k: Kernel, s: Tid, to: Tid, m: Message) {
    && !BadArgs(s, to, m)
    && if SendTakes(k, s, to) then !SendCopies(k, s, LastOf(k, RecvQ(s)), m)
       else to == ANY && !m.noBlock() && Removable(T(k, s)) && b.nullTid != NULL_TID
  }

  /** A recipient taken from the sender's queue passes the delivery test, and
      the second detach, by `thread_start`, finds nothing to unlink. */
  lemma SendTakenDelivers(b: Build, k: Kernel, s: Tid, m: Message)
    requires Sound(k) && !BadArgs(s, ANY, m) && Q(k, RecvQ(s)) != []
    ensures var (k0, r) := Dequeue(k, RecvQ(s));
            && AcceptsSend(k0, s, r, m.kernel()) && Send(b, k, s, ANY, m) == SendDeliver(k0, s, r, m)
            && Detach(k0, r).q == k0.q
  {
    DequeueKeeps(k, RecvQ(s));
  }

  /** A recipient taken from the sender's queue always passes the delivery
      test, so the call never blocks; it ends READY on its run queue, or, if the
      copy fails, on no list. */
  lemma SendToTaken(b: Build, k: Kernel, s: Tid, m: Message)
    requires Sound(k) && IsThread(k, s) && !BadArgs(s, ANY, m) && Q(k, RecvQ(s)) != []
    ensures var r := LastOf(k, RecvQ(s)); var (k1, out) := Send(b, k, s, ANY, m);
            && Sound(k1) && IsThread(k, r)
            && (SendCopies(k, s, r, m) ==>
                 out == Ret(E_OK) && T(k1, r).state.Ready? && r in Q(k1, RunQ(T(k1, r).priority))
                     && (Complete(k) ==> Complete(k1)))
            && (!SendCopies(k, s, r, m) ==> out == Broken(SendCopy(k, s, r, m).1) && !Placed(k1, r))
  {
    var (k0, r) := Dequeue(k, RecvQ(s));
    DequeueKeeps(k, RecvQ(s));
    SendTakenDelivers(b, k, s, m);
    var k1 := SendDeliver(k0, s, r, m).0;
    SendDeliverKeeps(k0, s, r, m);
    if SendCopies(k, s, r, m) {
      if Complete(k) { Moved(k, k0, r, {}); }
    } else {
      SamePlacesKeeps(k0, k1);
      assert r !in Q(k0, RecvQ(s));
    }
  }

  lemma SendKeeps(b: Build, k: Kernel, s: Tid, to: Tid, m: Message)
    requires Sound(k) && IsThread(k, s) && PeerOk(b, k, to)
    ensures Sound(Send(b, k, s, to, m).0)
    ensures Complete(k) ==> (Complete(Send(b, k, s, to, m).0) <==> !SendLoses(b, k, s, to, m))
  {
    if BadArgs(s, to, m) {
    } else if SendTakes(k, s, to) {
      SendToTaken(b, k, s, m);
    } else if to != NULL_TID && (T(k, to).state.Inactive? || T(k, to).state.Zombie?) {
    } else if AcceptsSend(k, s, to, m.kernel()) {
      SendDeliverKeeps(k, s, to, m);
      if !SendCopies(k, s, to, m) { SamePlacesKeeps(k, Send(b, k, s, to, m).0); }
    } else if !m.noBlock() {
      SendBlockKeeps(b, k, s, to, m);
    }
  }

  predicate RecvTakes(k: Kernel, r: Tid, from: Tid, m: Message) {
    from == ANY && m.length > 0 && Q(k, SendQ(r)) != []
  }

  predicate RecvLoses(b: Build, k: Kernel, r: Tid, from: Tid, m: Message) {
    && !BadArgs(r, from, m)
    && if RecvTakes(k, r, from, m) then !RecvCopies(k, r, LastOf(k, SendQ(r)), m)
       else from == ANY && !m.noBlock() && b.parksCaller && Removable(T(k, r)) && b.nullTid != NULL_TID
  }

  lemma RecvTakenDelivers(b: Build, k: Kernel, r: Tid, m: Message)
    requires Sound(k) && !BadArgs(r, ANY, m) && RecvTakes(k, r, ANY, m)
    ensures var (k0, s) := Dequeue(k, SendQ(r));
            && AcceptsRecv(k0, r, s, m.kernel()) && Recv(b, k, r, ANY, m) == RecvDeliver(k0, r, s, m)
            && Detach(k0, s).q == k0.q
  {
    DequeueKeeps(k, SendQ(r));
  }

  /** A sender taken from the recipient's queue always passes the delivery test. */
  lemma RecvFromTaken(b: Build, k: Kernel, r: Tid, m: Message)
    requires Sound(k) && IsThread(k, r) && !BadArgs(r, ANY, m) && RecvTakes(k, r, ANY, m)
    ensures var s := LastOf(k, SendQ(r)); var (k1, out) := Recv(b, k, r, ANY, m);
            && Sound(k1) && IsThread(k, s)
            && (RecvCopies(k, r, s, m) ==>
                 (out == Ret(E_OK) || out == Ret(E_PREEMPT)) && T(k1, s).state.Ready?
                     && s in Q(k1, RunQ(T(k1, s).priority)) && (Complete(k) ==> Complete(k1)))
            && (!RecvCopies(k, r, s, m) ==> out == Broken(RecvCopy(k, r, s, m).1) && !Placed(k1, s))
  {
    var (k0, s) := Dequeue(k, SendQ(r));
    DequeueKeeps(k, SendQ(r));
    RecvTakenDelivers(b, k, r, m);
    var k1 := RecvDeliver(k0, r, s, m).0;
    RecvDeliverKeeps(k0, r, s, m);
    if RecvCopies(k, r, s, m) {
      if Complete(k) { Moved(k, k0, s, {}); }
    } else {
      SamePlacesKeeps(k0, k1);
      assert s !in Q(k0, SendQ(r));
    }
  }

  lemma RecvKeeps(b: Build, k: Kernel, r: Tid, from: Tid, m: Message)
    requires Sound(k) && IsThread(k, r) && PeerOk(b, k, from)
    ensures Sound(Recv(b, k, r, from, m).0)
    ensures Complete(k) ==> (Complete(Recv(b, k, r, from, m).0) <==> !RecvLoses(b, k, r, from, m))
  {
    if BadArgs(r, from, m) {
    } else if RecvTakes(k, r, from, m) {
      RecvFromTaken(b, k, r, m);
    } else if AcceptsRecv(k, r, from, m.kernel()) {
      RecvDeliverKeeps(k, r, from, m);
      if !RecvCopies(k, r, from, m) { SamePlacesKeeps(k, Recv(b, k, r, from, m).0); }
    } else if !m.noBlock() {
      RecvBlockKeeps(b, k, r, from, m);
    }
  }
}

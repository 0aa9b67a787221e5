/** What each thread operation returns, and where it leaves the thread, in
    every state the thread can be in. */
module ThreadOutcomes {
  import opened Basics
  import opened AddressSpace
  import opened KernelState
  import opened KernelInvariant

  /** The thread was moved to the given list, behind all that were there; only
      its state changed, and `wait_tid` is null if it waited.  It is on no other
      list and in no processor slot, and nobody else moved. */
  ghost predicate MovedTo(k: Kernel, k1: Kernel, t: Tid, state: ThreadState, l: ListId) {
    && OnlyMoved(k, k1, t) && k1.mem == k.mem
    && Q(k1, l) != [] && Q(k1, l)[0] == t && t !in k1.cpu
    && (forall m: ListId | m != l :: t !in Q(k1, m))
    && T(k1, t) == T(k, t).(state := state, waitTid := T(k1, t).waitTid)
    && T(k1, t).waitTid ==
         if T(k, t).state.WaitForSend? || T(k, t).state.WaitForRecv? then NULL_TID else T(k, t).waitTid
  }

  /** Off its list and parked anew. */
  lemma Reparked(k: Kernel, t: Tid, state: ThreadState, l: ListId)
    requires Sound(k) && IsThread(k, t) && Removable(T(k, t))
    requires (state.Ready? && l == RunQ(T(k, t).priority)) || (state.Paused? && l == PausedQ)
    ensures var k1 := RemoveFromList(k, t);
            MovedTo(k, Park(k1, t, T(k1, t).(state := state), l), t, state, l)
  {
    var k0 := RemoveFromList(k, t);
    var th := T(k0, t).(state := state);
    Unlink(k, t);
    WaitTidThen(k, t);
    hide RemoveFromList;
    Relink(k, t, th, l);
    var k1 := Park(k0, t, th, l);
    assert Q(k1, l)[0] == t;
    OnOneList(k1, t, l);
  }

  lemma WaitTidThen(k: Kernel, t: Tid)
    requires IsThread(k, t)
    ensures T(RemoveFromList(k, t), t).waitTid ==
            if T(k, t).state.WaitForSend? || T(k, t).state.WaitForRecv? then NULL_TID else T(k, t).waitTid
  {
    hide Without, ClearSlot;
  }

  lemma OnOneList(k: Kernel, t: Tid, l: ListId)
    requires Sound(k) && IsThread(k, t) && Home(T(k, t)) == Some(l)
    ensures (forall m: ListId | m != l :: t !in Q(k, m)) && t !in k.cpu
  {
    hide WellFormed, NoDup;
  }

  /** `thread_pause`. */
  lemma PauseOutcome(k: Kernel, t: Tid)
    requires Sound(k) && IsThread(k, t)
    ensures var (k1, code) := Pause(k, t);
            match T(k, t).state
            case Paused => code == E_DONE && k1 == k
            case Inactive => code == E_FAIL && k1 == k
            case Zombie => code == E_FAIL && k1 == k
            case Sleeping => code == E_FAIL && k1 == k
            case _ => code == E_OK && MovedTo(k, k1, t, Paused, PausedQ)
  {
    hide Sound, RemoveFromList, Park, MovedTo;
    if Removable(T(k, t)) { Reparked(k, t, Paused, PausedQ); }
  }

  /** `thread_start`. */
  lemma StartOutcome(k: Kernel, t: Tid)
    requires Sound(k) && IsThread(k, t)
    ensures var (k1, code) := Start(k, t);
            match T(k, t).state
            case Ready => code == E_DONE && k1 == k
            case Running => code == E_DONE && k1 == k
            case Inactive => code == E_FAIL && k1 == k
            case Zombie => code == E_FAIL && k1 == k
            case Sleeping => code == E_FAIL && k1 == k
            case _ => code == E_OK && MovedTo(k, k1, t, Ready, RunQ(T(k, t).priority))
  {
    PriorityThen(k, t);
    hide Sound, RemoveFromList, Park, MovedTo;
    if Removable(T(k, t)) { Reparked(k, t, Ready, RunQ(T(k, t).priority)); }
  }

  lemma PriorityThen(k: Kernel, t: Tid)
    ensures T(RemoveFromList(k, t), t).priority == T(k, t).priority
  {
    hide Without, ClearSlot;
  }

  /** `thread_wakeup`. */
  lemma WakeupOutcome(k: Kernel, t: Tid)
    requires Sound(k) && IsThread(k, t)
    ensures var (k1, code) := Wakeup(k, t);
            match T(k, t).state
            case Ready => code == E_DONE && k1 == k
            case Running => code == E_DONE && k1 == k
            case Inactive => code == E_FAIL && k1 == k
            case Zombie => code == E_FAIL && k1 == k
            case Sleeping => code == E_FAIL && k1 == k
            case _ => code == E_OK && MovedTo(k, k1, t, Ready, RunQ(T(k, t).priority))
  {
    PriorityThen(k, t);
    hide Sound, RemoveFromList, Park, MovedTo;
    if Removable(T(k, t)) { Reparked(k, t, Ready, RunQ(T(k, t).priority)); }
  }

  /** `thread_create`: the new thread is paused, with priority 2 and all else
      zero, in the given address space. */
  lemma CreateOutcome(k: Kernel, t: Tid, dir: Frame)
    requires Sound(k) && IsThread(k, t)
    ensures var (k1, ok) := Create(k, t, dir);
            if T(k, t).state.Inactive? then
              && ok && Sound(k1) && k1.mem == k.mem && k1.cpu == k.cpu
              && T(k1, t) == Thread(Paused, 2, NULL_TID, false, dir, Regs(0, 0, 0, 0, 0))
              && Q(k1, PausedQ) == [t] + Q(k, PausedQ) && Q(k1, SendQ(t)) == Q(k1, RecvQ(t)) == []
              && (forall x: Tid | x != t :: T(k1, x) == T(k, x))
              && (forall l: ListId | l !in {PausedQ, SendQ(t), RecvQ(t)} :: Q(k1, l) == Q(k, l))
            else !ok && k1 == k
  {
    hide Sound;
    CreateKeeps(k, t, dir);
  }

  /** `thread_release`. */
  lemma ReleaseOutcome(k: Kernel, t: Tid)
    requires Sound(k) && IsThread(k, t)
    ensures var (k1, code) := Release(k, t);
            match T(k, t).state
            case Inactive => code == E_DONE && k1 == k
            case Sleeping => code == E_FAIL && k1 == k
            case _ =>
              && code == E_OK && T(k1, t).state.Inactive? && Loose(k1, t) && Q(k1, SendQ(t)) == []
              && forall x: Tid | x != t && x !in Q(k, SendQ(t)) :: T(k1, x) == T(k, x)
  {
    hide Sound, Drain, RemoveFromList, Loose;
    if Removable(T(k, t)) {
      ReleaseKeeps(k, t);
      Unlink(k, t);
      DrainKeeps(RemoveFromList(k, t), t);
    }
  }
}

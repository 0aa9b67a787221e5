/** Whole runs of the kernel, and which of them keep the invariant. */
module KernelRuns {
  import opened Basics
  import opened AddressSpace
  import opened KernelState
  import opened KernelInvariant

  datatype Op =
    | DoCreate(t: Tid, dir: Frame)
    | DoStart(t: Tid)
    | DoPause(t: Tid)
    | DoWakeup(t: Tid)
    | DoRelease(t: Tid)
    | DoSchedule(c: nat)
    | DoSend(t: Tid, peer: Tid, m: Message)
    | DoRecv(t: Tid, peer: Tid, m: Message)

  /** The arguments name threads and processors that exist. */
  predicate InRange(k: Kernel, op: Op) {
    match op
    case DoSchedule(c) => c < |k.cpu|
    case DoSend(t, peer, m) => 0 < |k.cpu| && IsThread(k, t) && peer < |k.threads|
    case DoRecv(t, peer, m) => 0 < |k.cpu| && IsThread(k, t) && peer < |k.threads|
    case _ => IsThread(k, op.t)
  }

  function Step(b: Build, k: Kernel, op: Op): (k1: Kernel)
    requires InRange(k, op)
    ensures SameSize(k, k1)
  {
    match op
    case DoCreate(t, dir) => Create(k, t, dir).0
    case DoStart(t) => Start(k, t).0
    case DoPause(t) => Pause(k, t).0
    case DoWakeup(t) => Wakeup(k, t).0
    case DoRelease(t) => Release(k, t).0
    case DoSchedule(c) => Schedule(k, c).0
    case DoSend(t, peer, m) => Send(b, k, t, peer, m).0
    case DoRecv(t, peer, m) => Recv(b, k, t, peer, m).0
  }

  /** The calls that leave a thread waiting or ready on no list. */
  ghost predicate Loses(b: Build, k: Kernel, op: Op) {
    match op
    case DoCreate(t, dir) => T(k, t).state.Inactive? && (Q(k, SendQ(t)) != [] || Q(k, RecvQ(t)) != [])
    case DoRelease(t) => Removable(T(k, t)) && exists x :: x in Q(k, SendQ(t)) && x != t
    case DoSend(t, peer, m) => SendLoses(b, k, t, peer, m)
    case DoRecv(t, peer, m) => RecvLoses(b, k, t, peer, m)
    case _ => false
  }

  lemma StepKeeps(b: Build, k: Kernel, op: Op)
    requires Sound(k) && InRange(k, op) && b.nullTid < |k.threads|
    ensures Sound(Step(b, k, op))
    ensures Complete(k) ==> (Complete(Step(b, k, op)) <==> !Loses(b, k, op))
  {
    match op
    case DoCreate(t, dir) => CreateKeeps(k, t, dir);
    case DoStart(t) =>
      StartKeeps(k, t, {});
      if Complete(k) { assert {} - {t} == {}; }
    case DoPause(t) => PauseKeeps(k, t);
    case DoWakeup(t) => WakeupKeeps(k, t);
    case DoRelease(t) =>
      if Removable(T(k, t)) {
        ReleaseKeeps(k, t);
        if Complete(k) { ReleaseCompleteIff(k, t); }
      }
    case DoSchedule(c) => ScheduleKeeps(k, c, {});
    case DoSend(t, peer, m) => SendKeeps(b, k, t, peer, m);
    case DoRecv(t, peer, m) => RecvKeeps(b, k, t, peer, m);
  }

  /** The state in which a thread is on exactly the list, or in exactly the
      slot, that its state, priority and `wait_tid` say, and nowhere else. */
  lemma ExactlyWhereItBelongs(k: Kernel, t: Tid)
    requires Sound(k) && Complete(k) && IsThread(k, t)
    ensures forall l: ListId :: t in Q(k, l) <==> Home(T(k, t)) == Some(l)
    ensures forall l: ListId | t in Q(k, l) :: multiset(Q(k, l))[t] == 1
    ensures t in k.cpu <==> T(k, t).state.Running?
  {
    assert Placed(k, t);
    forall l: ListId | t in Q(k, l)
      ensures multiset(Q(k, l))[t] == 1
    {
      CountOnce(Q(k, l), t);
    }
  }

  lemma {:induction false} CountOnce(s: seq<Tid>, t: Tid)
    requires NoDup(s) && t in s
    ensures multiset(s)[t] == 1
  {
    assert s == [s[0]] + s[1..];
    if s[0] != t {
      CountOnce(s[1..], t);
    } else {
      assert t !in s[1..];
      assert t !in multiset(s[1..]);
    }
  }

  // ---------- runs ----------

  /** `ks` are the states a run passes through, `ops` the calls made. */
  ghost predicate Run(b: Build, ks: seq<Kernel>, ops: seq<Op>) {
    && |ks| == |ops| + 1
    && forall i | 0 <= i < |ops| :: InRange(ks[i], ops[i]) && ks[i + 1] == Step(b, ks[i], ops[i])
  }

  /** The kernel before any thread exists. */
  predicate Boot(k: Kernel) {
    && 0 < |k.threads| <= 0x1_0000 && 0 < |k.cpu|
    && (forall t | 0 <= t < |k.threads| :: k.threads[t] == BLANK)
    && k.q == map[]
    && (forall c | 0 <= c < |k.cpu| :: k.cpu[c] == NULL_TID)
  }

  lemma BootHolds(k: Kernel)
    requires Boot(k)
    ensures Sound(k) && Complete(k)
  {
  }

  lemma {:induction false} StaysSound(b: Build, ks: seq<Kernel>, ops: seq<Op>, i: nat)
    requires Run(b, ks, ops) && Sound(ks[0]) && b.nullTid < |ks[0].threads| && i <= |ops|
    ensures Sound(ks[i]) && SameSize(ks[0], ks[i])
  {
    hide Sound, Step;
    if i > 0 {
      StaysSound(b, ks, ops, i - 1);
      StepKeeps(b, ks[i - 1], ops[i - 1]);
    }
  }

  /** Every state of every run is sound. */
  lemma RunSound(b: Build, ks: seq<Kernel>, ops: seq<Op>, i: nat)
    requires Run(b, ks, ops) && Boot(ks[0]) && b.nullTid < |ks[0].threads| && i <= |ops|
    ensures Sound(ks[i]) && SameSize(ks[0], ks[i])
  {
    BootHolds(ks[0]);
    StaysSound(b, ks, ops, i);
  }

  /** A run stays complete exactly as long as it makes no losing call. */
  lemma {:induction false} RunCompleteIff(b: Build, ks: seq<Kernel>, ops: seq<Op>, n: nat)
    requires Run(b, ks, ops) && Boot(ks[0]) && b.nullTid < |ks[0].threads| && n <= |ops|
    ensures (forall i | 0 <= i <= n :: Complete(ks[i])) <==> (forall i | 0 <= i < n :: !Loses(b, ks[i], ops[i]))
  {
    hide Sound, CompleteBut, Step, Loses;
    if n == 0 {
      BootHolds(ks[0]);
    } else {
      RunCompleteIff(b, ks, ops, n - 1);
      RunSound(b, ks, ops, n - 1);
      if Complete(ks[n - 1]) { StepKeeps(b, ks[n - 1], ops[n - 1]); }
      assert (forall i | 0 <= i <= n :: Complete(ks[i])) <==>
            (forall i | 0 <= i <= n - 1 :: Complete(ks[i])) && Complete(ks[n]);
      assert (forall i | 0 <= i < n :: !Loses(b, ks[i], ops[i])) <==>
            (forall i | 0 <= i < n - 1 :: !Loses(b, ks[i], ops[i])) && !Loses(b, ks[n - 1], ops[n - 1]);
    }
  }
}

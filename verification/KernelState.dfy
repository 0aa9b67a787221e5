/** The state the thread, scheduler and message code works on, with every
    intrusive list seen as the sequence of its threads (head first), and each
    operation as a function on that state. */
module KernelState {
  import opened Basics
  import opened AddressSpace

  /** A 16-bit index into the TCB table. */
  type Tid = t: int | 0 <= t < 0x1_0000

  type Word = Addr
  type Flags = f: int | 0 <= f < 0x1_0000

  const NULL_TID: Tid := 0
  const KERNEL_TID: Tid := 0
  const ANY: Tid := 0          // ANY_SENDER and ANY_RECIPIENT
  const MAX_PRIORITY := 4
  const MIN_PRIORITY := 0
  const NORMAL_PRIORITY := 2

  datatype ThreadState = Inactive | Paused | Zombie | Ready | Running | WaitForSend | WaitForRecv | Sleeping

  /** The user registers the message protocol writes. */
  datatype Regs = Regs(eax: int, ebx: Word, ecx: Word, esi: Word, edi: Word)

  /** A TCB without its list links.  `dir` is the frame of its page directory. */
  datatype Thread = Thread(state: ThreadState, priority: nat, waitTid: Tid, waitKernel: bool, dir: Frame, regs: Regs)

  /** Every list threads can be linked into.  `Lost` stands for a wait queue
      whose head was zeroed while threads were still linked to each other. */
  datatype ListId = RunQ(priority: nat) | PausedQ | ZombieQ | SendQ(owner: Tid) | RecvQ(owner: Tid) | Lost(number: nat)

  datatype Kernel = Kernel(threads: seq<Thread>, q: map<ListId, seq<Tid>>, cpu: seq<Tid>, mem: Phys)

  /** Which thread a blocking `receive_message` parks, and what `get_tid(NULL)` yields.
      The comments ask for `Build(true, NULL_TID)`; the code as written parks
      the sender, and `get_tid(NULL)` is the table's negated offset. */
  datatype Build = Build(parksCaller: bool, nullTid: Tid)

  const DOCUMENTED := Build(true, NULL_TID)

  /** How a call ends: it returns a code, switches to another thread, halts, or
      faults in the kernel, on a null TCB or on the caller's own buffer. */
  datatype Outcome = Ret(code: int) | Switch(to: Tid) | Panic | Fault

  /** The arguments of a message call; a receive ignores the subject. */
  datatype Message = Message(subject: Word, flags: Flags, buffer: Addr, length: Word) {
    predicate noBlock() { flags % 2 == 1 }
    predicate kernel() { flags / 0x80 % 2 == 1 }
  }

  /** The TCB table and the processor table never change size. */
  predicate SameSize(k: Kernel, k1: Kernel) {
    |k1.threads| == |k.threads| && |k1.cpu| == |k.cpu|
  }

  // ---------- lists ----------

  function Q(k: Kernel, l: ListId): seq<Tid> {
    if l in k.q then k.q[l] else []
  }

  /** `list_enqueue`: insert at the head. */
  function Enqueue(k: Kernel, l: ListId, t: Tid): (r: Kernel)
    ensures SameSize(k, r)
  {
    k.(q := k.q[l := [t] + Q(k, l)])
  }

  /** `list_dequeue` on a non-empty list: remove at the tail. */
  function Dequeue(k: Kernel, l: ListId): (r: (Kernel, Tid))
    requires Q(k, l) != []
    ensures SameSize(k, r.0)
  {
    var s := Q(k, l);
    (k.(q := k.q[l := s[..|s| - 1]]), s[|s| - 1])
  }

  function Without(s: seq<Tid>, t: Tid): seq<Tid> {
    if s == [] then [] else if s[0] == t then s[1..] else [s[0]] + Without(s[1..], t)
  }

  /** `list_remove`: no effect on a thread that is not linked. */
  function Remove(k: Kernel, l: ListId, t: Tid): (r: Kernel)
    ensures SameSize(k, r)
  {
    if t in Q(k, l) then k.(q := k.q[l := Without(Q(k, l), t)]) else k
  }

  // ---------- threads ----------

  const BLANK := Thread(Inactive, 0, NULL_TID, false, 0, Regs(0, 0, 0, 0, 0))

  function T(k: Kernel, t: Tid): Thread {
    if t < |k.threads| then k.threads[t] else BLANK
  }

  function Put(k: Kernel, t: Tid, th: Thread): (r: Kernel)
    ensures SameSize(k, r)
  {
    if t < |k.threads| then k.(threads := k.threads[t := th]) else k
  }

  function ClearSlot(cpu: seq<Tid>, t: Tid): (r: seq<Tid>)
    ensures |r| == |cpu|
  {
    if cpu == [] then []
    else if cpu[0] == t then [NULL_TID] + cpu[1..]
    else [cpu[0]] + ClearSlot(cpu[1..], t)
  }

  /** `detach_sender_wait_queue` and `detach_receiver_wait_queue`. */
  function Detach(k: Kernel, t: Tid): (r: Kernel)
    ensures SameSize(k, r)
  {
    var th := T(k, t);
    var k1 := Put(k, t, th.(waitTid := NULL_TID));
    if th.waitTid == NULL_TID then k1
    else Remove(k1, if th.state.WaitForRecv? then SendQ(th.waitTid) else RecvQ(th.waitTid), t)
  }

  /** `thread_remove_from_list` returns E_OK rather than E_FAIL. */
  predicate Removable(th: Thread) {
    !th.state.Inactive? && !th.state.Sleeping?
  }

  predicate Runnable(th: Thread) {
    th.state.Ready? || th.state.Running?
  }

  /** `thread_remove_from_list`. */
  function RemoveFromList(k: Kernel, t: Tid): (r: Kernel)
    ensures SameSize(k, r)
  {
    match T(k, t).state
    case WaitForRecv => Detach(k, t)
    case WaitForSend => Detach(k, t)
    case Ready => Remove(k, RunQ(T(k, t).priority), t)
    case Paused => Remove(k, PausedQ, t)
    case Zombie => Remove(k, ZombieQ, t)
    case Running => k.(cpu := ClearSlot(k.cpu, t))
    case Inactive => k
    case Sleeping => k
  }

  /** The thread is given a state and put on a list. */
  function Park(k: Kernel, t: Tid, th: Thread, l: ListId): (r: Kernel)
    ensures SameSize(k, r)
  {
    Enqueue(Put(k, t, th), l, t)
  }

  function MakeReady(k: Kernel, t: Tid): (r: Kernel)
    ensures SameSize(k, r)
  {
    Park(k, t, T(k, t).(state := Ready), RunQ(T(k, t).priority))
  }

  /** `thread_start`. */
  function Start(k: Kernel, t: Tid): (r: (Kernel, int))
    ensures SameSize(k, r.0)
  {
    match T(k, t).state
    case WaitForRecv => (MakeReady(RemoveFromList(k, t), t), E_OK)
    case WaitForSend => (MakeReady(RemoveFromList(k, t), t), E_OK)
    case Paused => (MakeReady(RemoveFromList(k, t), t), E_OK)
    case Ready => (k, E_DONE)
    case Running => (k, E_DONE)
    case Inactive => (k, E_FAIL)
    case Zombie => (k, E_FAIL)
    case Sleeping => (k, E_FAIL)
  }

  /** `thread_wakeup`.  A sleeping thread is on no list it could be removed from. */
  function Wakeup(k: Kernel, t: Tid): (r: (Kernel, int))
    ensures SameSize(k, r.0)
  {
    match T(k, t).state
    case Running => (k, E_DONE)
    case Ready => (k, E_DONE)
    case Zombie => (k, E_FAIL)
    case Inactive => (k, E_FAIL)
    case Sleeping => (k, E_FAIL)
    case WaitForRecv => (MakeReady(RemoveFromList(k, t), t), E_OK)
    case WaitForSend => (MakeReady(RemoveFromList(k, t), t), E_OK)
    case Paused => (MakeReady(RemoveFromList(k, t), t), E_OK)
  }

  /** `thread_pause`. */
  function Pause(k: Kernel, t: Tid): (r: (Kernel, int))
    ensures SameSize(k, r.0)
  {
    match T(k, t).state
    case Paused => (k, E_DONE)
    case Inactive => (k, E_FAIL)
    case Zombie => (k, E_FAIL)
    case Sleeping => (k, E_FAIL)
    case _ =>
      var k1 := RemoveFromList(k, t);
      (Park(k1, t, T(k1, t).(state := Paused), PausedQ), E_OK)
  }

  function NewThread(dir: Frame): Thread {
    Thread(Paused, NORMAL_PRIORITY, NULL_TID, false, dir, Regs(0, 0, 0, 0, 0))
  }

  /** `thread_create` once slot `t` is chosen: the TCB, with both of its wait
      queues, is zeroed. */
  function Create(k: Kernel, t: Tid, dir: Frame): (r: (Kernel, bool))
    ensures SameSize(k, r.0)
  {
    if !T(k, t).state.Inactive? then (k, false)
    else (Park(k.(q := k.q - {SendQ(t), RecvQ(t)}), t, NewThread(dir), PausedQ), true)
  }

  function Released(th: Thread): Thread {
    th.(waitTid := NULL_TID, state := Ready, regs := th.regs.(eax := E_UNREACH))
  }

  /** The drain loop of `thread_release`: threads waiting to send to `t` fail
      with E_UNREACH and become ready, on no list. */
  function Drain(k: Kernel, t: Tid): (r: Kernel)
    ensures SameSize(k, r)
    decreases |Q(k, SendQ(t))|
  {
    if Q(k, SendQ(t)) == [] then k
    else
      var (k1, x) := Dequeue(k, SendQ(t));
      Drain(Put(k1, x, Released(T(k1, x))), t)
  }

  /** `thread_release`.  The second pass of its loop steps the queue pointer
      from `sender_wait_queue` to the following pair of TCB fields, the links
      of `t` itself, which are null by then. */
  function Release(k: Kernel, t: Tid): (r: (Kernel, int))
    ensures SameSize(k, r.0)
  {
    if T(k, t).state.Inactive? then (k, E_DONE)
    else if !Removable(T(k, t)) then (k, E_FAIL)
    else
      var k1 := Drain(RemoveFromList(k, t), t);
      (Put(k1, t, T(k1, t).(state := Inactive)), E_OK)
  }

  // ---------- scheduler ----------

  /** Highest priority in [lo, p] whose run queue is not empty. */
  function TopReady(k: Kernel, lo: nat, p: int): (r: Option<nat>)
    ensures match r
            case None => forall i | lo <= i <= p :: Q(k, RunQ(i)) == []
            case Some(top) => lo <= top <= p && Q(k, RunQ(top)) != [] && forall i | top < i <= p :: Q(k, RunQ(i)) == []
    decreases p
  {
    if p < lo then None
    else if Q(k, RunQ(p)) != [] then Some(p)
    else TopReady(k, lo, p - 1)
  }

  function Floor(k: Kernel, c: nat): nat
    requires c < |k.cpu|
  {
    if k.cpu[c] == NULL_TID then MIN_PRIORITY else T(k, k.cpu[c]).priority
  }

  /** The thread `schedule` returns: the oldest of the highest non-empty queue
      from the running thread's priority up, or else the running thread. */
  function Chosen(k: Kernel, c: nat): Tid
    requires c < |k.cpu|
  {
    match TopReady(k, Floor(k, c), MAX_PRIORITY)
    case None => k.cpu[c]
    case Some(p) => Q(k, RunQ(p))[|Q(k, RunQ(p))| - 1]
  }

  /** `schedule`; NULL_TID stands for the panic when nothing can run. */
  function Schedule(k: Kernel, c: nat): (r: (Kernel, Tid))
    requires c < |k.cpu|
    ensures SameSize(k, r.0) && r.1 == Chosen(k, c)
  {
    var cur := k.cpu[c];
    match TopReady(k, Floor(k, c), MAX_PRIORITY)
    case None => (k, cur)
    case Some(p) =>
      var (k1, t) := Dequeue(k, RunQ(p));
      var k2 := if cur == NULL_TID then k1 else MakeReady(k1, cur);
      (Put(k2, t, T(k2, t).(state := Running)).(cpu := k2.cpu[c := t]), t)
  }

  /** `thread_switch_context(schedule(processor_get_current()), true)`. */
  function SwitchAway(k: Kernel): (r: (Kernel, Outcome))
    requires 0 < |k.cpu|
    ensures SameSize(k, r.0)
  {
    var (k1, t) := Schedule(k, 0);
    (k1, if t == NULL_TID then Panic else Switch(t))
  }

  // ---------- messages ----------

  function Min(a: Word, b: Word): (n: Word)
    ensures n <= a && n <= b && (n == a || n == b)
  {
    if a < b then a else b
  }

  /** Sender (or KERNEL_TID) in the low half, message flags in the high half. */
  function Header(kernel: bool, sender: Tid, flags: Word): Word {
    (if kernel then KERNEL_TID else sender) + flags % 0x1_0000 * 0x1_0000
  }

  /** The peer a blocking call names in `wait_tid`. */
  function PeerTid(b: Build, peer: Tid): Tid {
    if peer == NULL_TID then b.nullTid else peer
  }

  /** The thread waits on the peer's queue, or on none when there is no peer. */
  function Attach(b: Build, k: Kernel, t: Tid, state: ThreadState, peer: Tid, l: ListId): (r: Kernel)
    ensures SameSize(k, r)
  {
    var th := T(k, t).(state := state, waitTid := PeerTid(b, peer));
    if peer == NULL_TID then Put(k, t, th) else Park(k, t, th, l)
  }

  predicate AcceptsSend(k: Kernel, s: Tid, r: Tid, kernel: bool) {
    && r != NULL_TID
    && T(k, r).state.WaitForSend?
    && (kernel || (T(k, r).waitTid == ANY && !T(k, r).waitKernel) || T(k, r).waitTid == s)
  }

  /** The message fields of a TCB, which do not decide where a thread belongs. */
  function Fill(k: Kernel, t: Tid, waitKernel: bool, regs: Regs): (r: Kernel)
    ensures SameSize(k, r)
  {
    Put(k, t, T(k, t).(waitKernel := waitKernel, regs := regs))
  }

  /** The register writes that end a delivery by `send_message`. */
  function SendFinish(k: Kernel, s: Tid, r: Tid, m: Message, n: Word): (res: Kernel)
    ensures SameSize(k, res)
  {
    var rcv := T(k, r);
    var code := if m.kernel() && !rcv.waitKernel then E_PREEMPT else E_OK;
    var regs := rcv.regs.(eax := code, ebx := Header(m.kernel(), s, m.flags), esi := m.subject, edi := n);
    var k1 := Fill(k, r, false, regs);
    Fill(k1, s, T(k1, s).waitKernel, T(k1, s).regs.(ebx := r, esi := n))
  }

  /** `poke_virt` from the sender's buffer, in the current address space. */
  function SendCopy(k: Kernel, s: Tid, r: Tid, m: Message): (Phys, End) {
    var rcv := T(k, r);
    Move(k.mem, T(k, s).dir, m.buffer, rcv.dir, rcv.regs.ebx, Min(rcv.regs.edi, m.length), true)
  }

  /** What a call whose copy did not complete returns, if it returns. */
  function Broken(end: End): Outcome {
    if end.Faulted? then Fault else Ret(E_FAIL)
  }

  /** The delivery half of `send_message`. */
  function SendDeliver(k: Kernel, s: Tid, r: Tid, m: Message): (res: (Kernel, Outcome))
    ensures SameSize(k, res.0)
  {
    var (mem, end) := SendCopy(k, s, r, m);
    if end.Done? then (SendFinish(Start(k.(mem := mem), r).0, s, r, m, Min(T(k, r).regs.edi, m.length)), Ret(E_OK))
    else (k.(mem := mem), Broken(end))
  }

  /** The sender off its list, waiting for `r` (or anybody) with the message in its registers. */
  function SendPark(b: Build, k: Kernel, s: Tid, r: Tid, m: Message): (res: Kernel)
    ensures SameSize(k, res)
  {
    var k1 := Attach(b, RemoveFromList(k, s), s, WaitForRecv, r, SendQ(r));
    Fill(k1, s, m.kernel(), Regs(E_INTERRUPT, m.buffer, m.flags, m.subject, m.length))
  }

  /** The blocking half of `send_message`. */
  function SendBlock(b: Build, k: Kernel, s: Tid, r: Tid, m: Message): (res: (Kernel, Outcome))
    requires 0 < |k.cpu|
    ensures SameSize(k, res.0)
  {
    if !Removable(T(k, s)) then (k, Ret(E_FAIL)) else SwitchAway(SendPark(b, k, s, r, m))
  }

  /** `send_message`. */
  function Send(b: Build, k: Kernel, s: Tid, to: Tid, m: Message): (r: (Kernel, Outcome))
    requires 0 < |k.cpu|
    ensures SameSize(k, r.0)
  {
    if s == to || (m.length > 0 && m.buffer == 0) then (k, Ret(E_INVALID_ARG))
    else
      var (k1, r) := if to == ANY && Q(k, RecvQ(s)) != [] then Dequeue(k, RecvQ(s)) else (k, to);
      if r != NULL_TID && (T(k1, r).state.Inactive? || T(k1, r).state.Zombie?) then (k1, Ret(E_UNREACH))
      else if AcceptsSend(k1, s, r, m.kernel()) then SendDeliver(k1, s, r, m)
      else if m.noBlock() then (k1, Ret(E_BLOCK))
      else SendBlock(b, k1, s, r, m)
  }

  predicate AcceptsRecv(k: Kernel, r: Tid, s: Tid, kernel: bool) {
    && s != NULL_TID
    && T(k, s).state.WaitForRecv?
    && (T(k, s).waitKernel || T(k, s).waitTid == r || (!kernel && T(k, s).waitTid == ANY))
  }

  /** The register writes that end a delivery by `receive_message`. */
  function RecvFinish(k: Kernel, r: Tid, s: Tid, n: Word): (res: Kernel)
    ensures SameSize(k, res)
  {
    var snd := T(k, s);
    var regs := T(k, r).regs.(ebx := Header(snd.waitKernel, s, snd.regs.ecx), esi := snd.regs.esi, edi := n);
    var k1 := Fill(k, r, T(k, r).waitKernel, regs);
    Fill(k1, s, false, T(k1, s).regs.(eax := E_OK, esi := n))
  }

  /** `peek_virt` into the recipient's buffer, in the current address space. */
  function RecvCopy(k: Kernel, r: Tid, s: Tid, m: Message): (Phys, End) {
    var snd := T(k, s);
    Move(k.mem, T(k, r).dir, m.buffer, snd.dir, snd.regs.ebx, Min(snd.regs.edi, m.length), false)
  }

  /** The delivery half of `receive_message`. */
  function RecvDeliver(k: Kernel, r: Tid, s: Tid, m: Message): (res: (Kernel, Outcome))
    ensures SameSize(k, res.0)
  {
    var (mem, end) := RecvCopy(k, r, s, m);
    if end.Done? then (RecvFinish(Start(k.(mem := mem), s).0, r, s, Min(T(k, s).regs.edi, m.length)),
                Ret(if m.kernel() && !T(k, s).waitKernel then E_PREEMPT else E_OK))
    else (k.(mem := mem), Broken(end))
  }

  /** The caller waits on the sender's queue, or, as written, the sender on the
      caller's; the receive is described in the caller's registers. */
  function RecvPark(b: Build, k: Kernel, r: Tid, s: Tid, m: Message): (res: Kernel)
    ensures SameSize(k, res)
  {
    var parked := if b.parksCaller then r else s;
    var peer := if b.parksCaller then s else r;
    var k1 := Attach(b, RemoveFromList(k, parked), parked, WaitForSend, peer, RecvQ(peer));
    var regs := T(k1, r).regs.(eax := E_INTERRUPT, ebx := m.buffer, ecx := m.flags, edi := m.length);
    Fill(k1, r, m.kernel(), regs)
  }

  /** The blocking half of `receive_message`. */
  function RecvBlock(b: Build, k: Kernel, r: Tid, s: Tid, m: Message): (res: (Kernel, Outcome))
    requires 0 < |k.cpu|
    ensures SameSize(k, res.0)
  {
    var parked := if b.parksCaller then r else s;
    if parked == NULL_TID then (k, Fault)
    else if !Removable(T(k, parked)) then (k, Ret(E_FAIL))
    else SwitchAway(RecvPark(b, k, r, s, m))
  }

  /** `receive_message`. */
  function Recv(b: Build, k: Kernel, r: Tid, from: Tid, m: Message): (res: (Kernel, Outcome))
    requires 0 < |k.cpu|
    ensures SameSize(k, res.0)
  {
    if r == from || (m.length > 0 && m.buffer == 0) then (k, Ret(E_INVALID_ARG))
    else
      var (k1, s) := if from == ANY && m.length > 0 && Q(k, SendQ(r)) != [] then Dequeue(k, SendQ(r)) else (k, from);
      if AcceptsRecv(k1, r, s, m.kernel()) then RecvDeliver(k1, r, s, m)
      else if m.noBlock() then (k1, Ret(E_BLOCK))
      else RecvBlock(b, k1, r, s, m)
  }
}

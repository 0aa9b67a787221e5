# A verified model of the kernel's threads, messages and paging

This project models the core of a small x86 microkernel and a few arithmetic
routines of its C library and servers, and proves what they promise, for every
input and every run. `dafny verify dfyconfig.toml` checks all of it.

**Threads, queues and messages.** The kernel keeps many intrusive doubly linked
lists (run queues, the paused and zombie lists, two wait queues per thread)
inside one table of thread control blocks (TCBs). `KernelState` gives each
operation as a function on the abstract kernel, where a list is a sequence of
threads, head first. `KernelInvariant` defines the global invariant in two
halves: *sound* (whoever is on a list or in a processor slot has the state,
priority and `wait_tid` that call for it, and nobody is listed twice) and
*complete* (whoever should be on a list or in a slot is there). It proves
that every operation keeps the sound half, and exactly which calls break the
complete half. `KernelRuns` extends both to whole runs from boot. `TcbLists`
and the class `KernelTable.Tables` are the imperative code: arrays, links and
list heads rewritten store by store (a list's head and tail together), and
loops, each method proved to do what the abstract operation does while every
other list keeps its sequence. Message copies are made there by the paging
code. `KernelFairness` is about the scheduler and how long a ready thread can be
passed over, `WaitFairness` about the order in which waiting threads are served,
`Rendezvous` about the two orders in which a message can be exchanged,
`MessageOutcomes` about what each return code means, who can be passed over and
when the code's own assertions hold, `ThreadOutcomes` about what each thread
operation returns in every state, `LostThreads` about threads that
`thread_release` loses. `BootRuns` and `Departures` hold concrete runs from boot.

**Paging.** `AddressSpace` is 32-bit two-level translation (section 4.3 of the
Intel SDM, Vol. 3A) over a flat physical memory of 2^32 bytes, both as the
processor does it and as the kernel's own table walk does it; simple loads,
stores and copies; and the copy the kernel makes, forward, byte by byte, with
tables read again on the way. `Copying` proves when the last two agree.
`Paging.Machine` is the code that copies through a window of temporarily mapped
pages. Its TLB may at any moment cache any present entry of the window's page
table, drop entries, and keep stale ones (section 4.10 of the same manual); only
an invalidation removes a page for certain. `FlatMemory` holds facts about memory
and tables. `Frames` is the boot-time frame allocator.

**Smaller parts.** `Calendar` (RTC seconds and `gmtime`), `Stdio` (the output
ring), `Fat` (FAT12/16 entries through sector buffers), `Radix` (printing and
parsing unsigned numbers).

## Where the code and its comments disagree

The model follows the code. Where the code decides differently from its own
comments in a way the proofs depend on, both are covered:

- `receive_message` blocks the sender instead of the caller (kernel/message.c:356
  and :359, against the comment at :29-37; for any sender it passes a null TCB),
  and `get_tid` of a null peer is not `NULL_TID` (:26, :47). The datatype `Build`
  is a parameter for these two choices. The invariant theorems hold for every
  build whose tid of a null peer names a slot of the table (with any other the
  code would index outside it), and give the exact condition under which a thread
  is lost; `NullPeerLosesSender` is a run of the code as written, in which a receive
  from anybody faults before it can lose its caller (`ReceiveFromAnyFaultsIff`,
  `ReceiveFromAnyFaults`); `NullPeerLosesCaller` is what would be left if only :356
  and :359 were put right. `BlockingReceiveParksCallerIff` says when the caller is
  parked. The rendezvous theorems are for the documented build.
- `thread_release` steps its queue pointer through the TCB instead of its array of
  queues (kernel/thread.c:259). It drains the send queue, then reads the thread's
  own (null) links as a list; the receive queue is never drained, and the drained
  threads become READY on no list. `ReleaseCompleteIff` gives the exact condition,
  `LostFromBoot` a run, `NeverScheduled` what becomes of such a thread.
- `thread_create` zeroes the slot's two wait queues (kernel/thread.c:200), which
  loses whoever is queued there: `CreateKeeps` is an if-and-only-if,
  `CreateLosesReceiver` a run.
- A copy that fails after a peer was taken off a wait queue leaves that peer on no
  list (kernel/message.c:152-184 and :298-330): `SendToTaken`, `RecvFromTaken`, and
  the runs `FailedSendLosesRecipient` and `FailedReceiveLosesSender`.
- A send to anybody finds only threads that wait for this sender by name, and a
  receive from anybody only those that send to this recipient by name, and none if
  it asks for no bytes (kernel/message.c:152, :298, against :84-85 and :237-238).
  `SendPassesOverIff` and `RecvPassesOverIff` say exactly who is passed over,
  `SendToAnyPassesOver` and `HeaderReceivePassesOver` are runs.
- The E_PREEMPT test of a receive (kernel/message.c:349) is the opposite of the one
  promised (:249) and of the one on the sending side (:190): `RecvCodeRightIff`, and
  the runs `KernelMessageNotReported` and `OrdinaryMessageReported`.
- `send_message` asserts that a recipient waiting for kernel messages only has named
  no sender (kernel/message.c:175), which `receive_message` does not see to:
  `AssertedIff`, and the run `AssertionFails`.
- After a rendezvous the sender's ebx is the recipient only if the recipient waited;
  `OrderIndependent` says so.
- `memcpy` assumes buffers that do not overlap (kernel/mem.c:125), which nothing
  checks for two threads of one address space: `MoveIsCopy` gives a condition,
  `OverlapSmears` and `OverlapMemory` an input.
- `access_mem` uses only the 4 KiB offset in a 4 MiB page (kernel/paging.c:359):
  `WalkIsTranslateIff`, `LargePageMissed`.
- `is_reserved_page` tests only the first byte of a page and the first behind it
  (kernel/init/memory.c:58, :71), and builds a region's base from its upper half
  twice (:92): `OverlapsMissesIff`, `OverlapsExceedsIff`, `UnreservedTouchesIff`,
  `ReadRightIff` and `LastPageRightIff` are exact, `UnreservedIsSafe` gives boot
  information on which the test is right, an ordinary memory map among it
  (`OrdinaryMapIsTidy`), although the last 1 MiB of its memory is never found
  (`OrdinaryMapAvailable`); `ModuleInsidePage`, `RegionMisread` and
  `LastPageMisread` are inputs.
- `tm_wday` leaves out the lengths of the past months (lib/libc/time/gmtime.c:62-64):
  `WeekdayRightIff`, `WeekdayWrong`.
- On full success `strtoul` ignores a minus sign and does not set `endptr`
  (lib/libc/stdlib/strtol.c:146): `SignedIff`, `MinusIgnored`.
- `readFAT` reads the following sector even when the entry ends exactly at the end
  of its own (apps/init_server_old/fs/fat_alloc.c:175), so the very last entry of a
  table needs a sector behind the table: `WindowedIsFlat`, `LastEntryMissed`.

## Model

| member | source | states |
|---|---|---|
| `KernelTable.Tables.constructor` | include/kernel/thread.h:53-107 | an empty table of TCBs, run queues and processors represents a boot state, which is sound and complete |
| `KernelTable.Tables.ListInsertAtEnd` | kernel/list.c:14-46 | the list's sequence gains the thread at the chosen end; every other list keeps its sequence and its links stay well formed |
| `KernelTable.Tables.ListRemoveFromEnd` | kernel/list.c:56-91 | the end element is returned and gone from its list with null links; an empty list gives NULL_TID and nothing changes; all other lists are unchanged |
| `KernelTable.Tables.ListRemove` | kernel/list.c:101-119 | the thread leaves its list, wherever in it; removing a thread that is linked nowhere changes nothing at all in the table; one still linked to threads of a queue that is gone leaves those |
| `TcbLists.SpellsFrame` | kernel/list.c:14-119 | writing links of threads outside a list leaves that list spelling the same sequence |
| `TcbLists.InsertedAtHead` | kernel/list.c:14-46 | the stores of a head insertion turn the represented sequence s into [t] + s and keep all other lists of the shared table |
| `TcbLists.InsertedAtTail` | kernel/list.c:14-46 | the stores of a tail insertion turn s into s + [t] and keep all other lists |
| `TcbLists.CutOut` | kernel/list.c:101-119 | joining a node's neighbours and clearing its links deletes exactly that element from the sequence, at any position |
| `TcbLists.TcbZeroed` | kernel/thread.c:200 | clearing the TCB of a thread on no list, whoever is queued on it, keeps all links well formed: the queued threads stay linked to each other, on lists without a head |
| `KernelTable.Tables.ThreadRemoveFromList` | kernel/thread.c:66-100 | refines the abstract removal in every state, keeps the sound invariant, and fails exactly for inactive and sleeping threads |
| `KernelTable.Tables.DetachWaitQueue` | kernel/message.c:55-78 | the thread leaves the queue of the peer it waits for and its `wait_tid` is null |
| `KernelTable.Tables.ThreadStart` | kernel/thread.c:107-129 | refines `Start`: state, lists, slots and return code, keeping the sound invariant |
| `KernelTable.Tables.ThreadWakeup` | kernel/thread.c:44-64 | refines `Wakeup`, keeping the sound invariant |
| `KernelTable.Tables.ThreadPause` | kernel/thread.c:135-156 | refines `Pause`, keeping the sound invariant |
| `KernelTable.Tables.ThreadCreate` | kernel/thread.c:193-225 | refines `Create` for any given slot, also one that threads are still queued on, keeping the sound invariant |
| `KernelTable.Tables.DrainSenders` | kernel/thread.c:259-270 | the drain loop terminates and refines `Drain` |
| `KernelTable.Tables.ThreadRelease` | kernel/thread.c:233-281 | refines `Release`, including the second pass over the thread's own links, keeping the sound invariant |
| `KernelTable.Tables.HighestReady` | kernel/schedule.c:21-38 | the priority loop finds the highest run queue that is not empty |
| `KernelTable.Tables.PickNext` | kernel/schedule.c:15-48 | refines `Schedule`: choice, requeueing, slot; keeping the sound invariant |
| `KernelTable.Tables.Reschedule` | kernel/message.c:218 | refines scheduling and switching away on the current processor; a panic if nothing can run |
| `KernelTable.Tables.AttachWaitQueue` | kernel/message.c:19-48 | a loose thread waits on its peer's queue in the given state, or on none without a peer |
| `KernelTable.Tables.CopyMessage` | kernel/message.c:182-184 | the copy is made by the paging code through its window, with any TLB, and has the effect and the result the abstract copy has |
| `KernelTable.Tables.TakePeer` | kernel/message.c:152-157 | for a message to or from anybody, the thread longest on the caller's queue is taken off it; otherwise nothing changes |
| `KernelTable.Tables.SendMessage` | kernel/message.c:102-226 | refines `Send` for every argument, build and sound state: memory as the paging code writes it, registers, lists, slots and result |
| `KernelTable.Tables.DeliverToRecipient` | kernel/message.c:174-199 | refines the delivery half of a send, copy included; E_FAIL for an unmapped page of the recipient, a fault for one of the caller |
| `KernelTable.Tables.BlockSender` | kernel/message.c:202-222 | refines the blocking half of a send |
| `KernelTable.Tables.ReceiveMessage` | kernel/message.c:253-377 | refines `Recv` for every argument, build and sound state |
| `KernelTable.Tables.DeliverFromSender` | kernel/message.c:320-349 | refines the delivery half of a receive, copy included; E_FAIL for an unmapped page of the sender, a fault for one of the caller |
| `KernelTable.Tables.BlockReceiver` | kernel/message.c:350-372 | refines the blocking half of a receive, as written or as documented |
| `KernelState.TopReady` | kernel/schedule.c:21-38 | the highest non-empty run queue at or above a floor, and nothing exactly if all of them are empty |
| `KernelInvariant.Unlink` | kernel/thread.c:66-100 | after removal the thread is on no list and in no slot, nobody else moved, and the state is sound |
| `KernelInvariant.Link` | kernel/list.c:14-46 | putting a loose thread on the list its new state calls for keeps the state sound and moves nobody else |
| `KernelInvariant.StartKeeps` | kernel/thread.c:107-129 | starting keeps sound and complete, moves only that thread, and on E_OK leaves it READY on its run queue |
| `KernelInvariant.WakeupKeeps` | kernel/thread.c:44-64 | waking keeps sound and complete |
| `KernelInvariant.PauseKeeps` | kernel/thread.c:135-156 | pausing keeps sound and complete |
| `KernelInvariant.CreateKeeps` | kernel/thread.c:193-225 | creating keeps sound always, and complete if and only if both wait queues of the reused slot were empty |
| `KernelInvariant.DrainKeeps` | kernel/thread.c:259-270 | draining empties exactly the send queue; each drained thread ends on no list and nothing else changes |
| `KernelInvariant.ReleaseKeeps` | kernel/thread.c:233-281 | the released thread is INACTIVE and on no list; each thread queued to send to it is READY with null `wait_tid` and E_UNREACH, on no list |
| `KernelInvariant.ReleaseCompleteIff` | kernel/thread.c:233-281 | release keeps the state complete if and only if nobody else was queued to send to the thread |
| `ThreadOutcomes.PauseOutcome` | kernel/thread.c:135-156 | a waiting, ready or running thread ends last on the paused list and nowhere else, with E_OK and nobody else moved; a paused one gives E_DONE, any other E_FAIL, and nothing changes |
| `ThreadOutcomes.StartOutcome` | kernel/thread.c:107-129 | a waiting or paused thread ends last on the run queue of its priority and nowhere else, with E_OK and nobody else moved; a runnable one gives E_DONE, any other E_FAIL, and nothing changes |
| `ThreadOutcomes.WakeupOutcome` | kernel/thread.c:44-64 | the same outcomes for a wakeup |
| `ThreadOutcomes.CreateOutcome` | kernel/thread.c:193-225 | an inactive slot becomes a paused thread of priority 2 with zeroed TCB and empty wait queues; any other slot is refused and nothing changes |
| `ThreadOutcomes.ReleaseOutcome` | kernel/thread.c:233-281 | E_DONE for an inactive and E_FAIL for a sleeping thread, nothing changed; any other ends inactive on no list, and only threads queued to send to it change with it |
| `KernelInvariant.ScheduleKeeps` | kernel/schedule.c:15-48 | `schedule` keeps sound and complete; the returned thread is RUNNING in the slot, the preempted one READY, nobody else changes |
| `KernelInvariant.SwitchKeeps` | kernel/message.c:218 | switching away keeps sound and complete and leaves waiting threads and their places alone |
| `KernelInvariant.ParkForMessage` | kernel/message.c:19-48 | a thread parked for a message waits for its peer; it is in its place unless it has no peer and a null peer has a tid |
| `KernelInvariant.SendTakenDelivers` | kernel/message.c:152-199 | a recipient taken for ANY_RECIPIENT passes the delivery test, also with MSG_NOBLOCK, and its second detach unlinks nothing |
| `KernelInvariant.SendToTaken` | kernel/message.c:152-199 | a taken recipient ends READY on its run queue if the copy completes, and otherwise on no list, with E_FAIL returned or a fault on the caller's own buffer |
| `KernelInvariant.SendKeeps` | kernel/message.c:102-226 | every send keeps sound, and keeps complete if and only if it is not one of the two losing kinds |
| `KernelInvariant.RecvTakenDelivers` | kernel/message.c:298-349 | a sender taken for ANY_SENDER passes the delivery test, and its second detach unlinks nothing |
| `KernelInvariant.RecvFromTaken` | kernel/message.c:298-349 | a taken sender ends READY on its run queue if the copy completes, and otherwise on no list, with E_FAIL returned or a fault on the caller's own buffer |
| `KernelInvariant.RecvKeeps` | kernel/message.c:253-377 | every receive keeps sound, and keeps complete if and only if it is not one of the two losing kinds |
| `KernelRuns.StepKeeps` | kernel/thread.c:44-281 | any call from a sound state gives a sound state; from a complete one it gives a complete one if and only if it is not a losing call |
| `KernelRuns.ExactlyWhereItBelongs` | include/kernel/thread.h:53-107 | in a sound and complete state each thread is on exactly the list its state, priority and `wait_tid` say, once, and in a slot exactly if RUNNING |
| `KernelRuns.BootHolds` | kernel/schedule.c:11 | the state before any thread exists is sound and complete |
| `KernelRuns.RunSound` | kernel/thread.c:44-281 | every state of every run from boot, of all eight operations in any order and build, is sound |
| `KernelRuns.RunCompleteIff` | kernel/message.c:19-377 | a run from boot stays complete if and only if it never makes a losing call: no thread is lost or queued twice |
| `KernelFairness.SchedulePicksHighest` | kernel/schedule.c:15-48 | the choice is RUNNING, of highest priority among all READY threads and never below the running one; it panics exactly if nothing can run; the runnable threads are conserved |
| `KernelFairness.StepFair` | kernel/list.c:14-91 | no call of any kind puts a thread ahead of one already queued at a priority; it leaves its queue only if paused, released, parked or returned by `schedule`; and each `schedule` that finds nothing above it, called on its own or inside a blocking message call, brings it forward |
| `KernelFairness.ScheduleAdvances` | kernel/schedule.c:18-37 | a `schedule` returns the thread or puts nobody ahead of it; one that finds nothing above p moves it at least one place nearer, and returns it if nobody is ahead |
| `KernelFairness.BoundedWaiting` | kernel/schedule.c:18-37 | over any run in which a thread stays queued at p and every `schedule`, also those inside blocking sends and receives, finds nothing above p, the calls of `schedule` are at most as many as the places it advanced |
| `KernelFairness.DispatchedWithin` | kernel/schedule.c:18-37 | a thread with k others ahead is returned by one of the first k+1 calls of `schedule`, on their own or inside blocking sends and receives, whatever else is called, unless it is itself paused, released or parked |
| `WaitFairness.StepInOrder` | kernel/list.c:14-91 | no call of any kind overtakes a thread on a wait queue; it leaves only when its turn comes or it is singled out; and each send or receive that takes another thread from the queue brings it forward |
| `WaitFairness.WaitsItsTurn` | kernel/message.c:152-157 | over any run, while a thread stays on a wait queue no more threads are taken from it than were ahead of that thread |
| `WaitFairness.ServedWithin` | kernel/message.c:298-303 | a thread with k others ahead of it on a wait queue is served by one of the first k+1 calls of the owner that take anybody, unless it is singled out first; then it is READY on its run queue if the copy completes |
| `Rendezvous.OthersDoNotWait` | kernel/message.c:202-222 | a thread is made to wait only by its own message call; every call leaves any other thread as it was or not waiting |
| `Rendezvous.ParkedStable` | kernel/message.c:202-222 | as long as a thread waits, no call of anybody changes its TCB |
| `Rendezvous.ParkedThroughout` | kernel/message.c:202-222 | the message parked in a TCB is unchanged over any run during which the thread stays parked |
| `Rendezvous.SendParks` | kernel/message.c:202-222 | a blocked sender waits for its peer with flags, subject, buffer and length in its TCB |
| `Rendezvous.RecvParks` | kernel/message.c:350-372 | a blocked receiver waits for its peer with all registers and the kernel-message flag as documented (documented build) |
| `Rendezvous.SendCompletes` | kernel/message.c:174-199 | delivery to a waiting recipient: its ebx is sender (or kernel) and flags, esi the subject, edi and the sender's esi the count, which is the smaller of the two lengths, the recipient READY and expecting no kernel message, E_PREEMPT exactly for an unexpected kernel message |
| `Rendezvous.RecvCompletes` | kernel/message.c:320-349 | delivery from a waiting sender writes the same registers from the parked message, with the smaller of the two lengths as count, and starts the sender with E_OK |
| `Rendezvous.SendStaysInBuffer` | kernel/message.c:177-184 | a send changes no byte of memory outside the buffer the waiting recipient described, if that buffer holds none of its page tables |
| `Rendezvous.RecvStaysInBuffer` | kernel/message.c:323-330 | a receive changes no byte outside the buffer it names, under the same condition |
| `Rendezvous.SendFirstDelivers` | kernel/message.c:320-372 | a send that blocks, then any run, then the matching receive: the memory `peek_virt` leaves, registers and codes |
| `Rendezvous.RecvFirstDelivers` | kernel/message.c:174-222 | a receive that blocks, then any run, then the matching send: the memory `poke_virt` leaves, registers and codes |
| `Rendezvous.MoveEitherWay` | kernel/paging.c:415-448 | `poke_virt` from the sender's side and `peek_virt` from the recipient's leave the same memory, that of a copy that reads everything first, over 4 KiB mappings where no table in use and no byte yet to be read is overwritten |
| `Rendezvous.OrderIndependent` | kernel/message.c:174-372 | over such buffers both orders leave the same memory, the same recipient ebx, esi and edi, the same sender count, E_OK on both sides and nobody waiting; the sender's ebx agrees if and only if its buffer address is the recipient's tid |
| `Rendezvous.BlockingReceiveParksCallerIff` | kernel/message.c:350-372 | a blocking receive from a named sender parks its caller if and only if the build follows the comments; as written the sender ends waiting on the caller's queue and the caller stays runnable |
| `MessageOutcomes.SendOutcome` | kernel/message.c:102-226 | what every result of a send means: which refusals occur exactly when and change nothing, to whom a message may go, that MSG_NOBLOCK never blocks, that a named recipient waiting for this sender is never passed over, that the recipient gets the promised code |
| `MessageOutcomes.SendUnparked` | kernel/message.c:202-205 | a send by a thread on no list, where it would block, fails (or gives E_BLOCK) and changes nothing |
| `MessageOutcomes.FlagBits` | include/os/msg/message.h:13-16 | MSG_NOBLOCK is bit 0 and MSG_KERNEL bit 7 of the flags |
| `MessageOutcomes.RecvOutcome` | kernel/message.c:253-377 | the same for a receive (documented build): a named sender waiting for this recipient is never passed over; E_PREEMPT exactly if a kernel message was asked for and an ordinary one came |
| `MessageOutcomes.RecvCodeRightIff` | kernel/message.c:249-349 | a receive that is served returns the promised code if and only if it asked for a kernel message exactly when it got one |
| `MessageOutcomes.ReceiveFromAnyFaultsIff` | kernel/message.c:350-359 | as written, a receive from anybody faults if and only if it may block and takes nobody, or the caller's buffer faults |
| `MessageOutcomes.RecvAsWritten` | kernel/message.c:289-372 | every outcome of a receive from a named sender in the code as written |
| `MessageOutcomes.SendPassesOverIff` | kernel/message.c:152-201 | a send passes over a thread that listens to it if and only if it is meant for anybody and nobody waits for this sender by name, or its recipient ignores ordinary messages |
| `MessageOutcomes.RecvPassesOverIff` | kernel/message.c:298-351 | a receive passes over a thread that speaks to it if and only if it is meant for anybody and asks for no bytes or nobody sends to this recipient by name, or it ignores its sender's ordinary message |
| `MessageOutcomes.NoneMissed` | kernel/message.c:174-372 | over every run from boot (documented build, message calls made by running threads) no thread waits to send to one that waits to receive from it: a named rendezvous is never missed |
| `MessageOutcomes.AssertedIff` | kernel/message.c:175 | over every run of the documented build, the assertion holds of every thread a send could deliver to, in every state, if and only if nobody has blocked in a receive of kernel messages from a named sender |
| `Departures.SendToAnyPassesOver` | kernel/message.c:152-201 | in a run from boot a send to anybody is refused while a thread waits for anybody |
| `Departures.HeaderReceivePassesOver` | kernel/message.c:298-303 | in a run from boot a receive of the header alone is refused while a thread is queued to send to the caller |
| `Departures.KernelMessageNotReported` | kernel/message.c:349 | a run from boot in which a kernel message nobody asked for is received with E_OK |
| `Departures.OrdinaryMessageReported` | kernel/message.c:349 | a run from boot in which an ordinary message is received with E_PREEMPT |
| `Departures.AssertionFails` | kernel/message.c:174-175 | a run from boot in which a send delivers to a thread of which the assertion is false |
| `Departures.CreateLosesReceiver` | kernel/thread.c:200 | in a run from boot a thread receives from another that is released and created again, and waits on no queue |
| `Departures.FailedSendLosesRecipient` | kernel/message.c:152-184 | in a run from boot a copy to a taken recipient fails and the recipient is lost |
| `Departures.FailedReceiveLosesSender` | kernel/message.c:298-330 | in a run from boot a copy from a taken sender fails and the sender is lost |
| `Departures.NullPeerLosesSender` | kernel/message.c:19-27 | in every build with a tid for a null peer, as written or not, a send to anybody loses its caller, which waits for that tid |
| `Departures.ReceiveFromAnyFaults` | kernel/message.c:356 | a run from boot in which, as written, a receive from anybody faults |
| `Departures.NullPeerLosesCaller` | kernel/message.c:38-48 | with lines 356 and 359 put right and a tid for a null peer, a receive from anybody loses its caller, which waits for that tid |
| `LostThreads.ReleaseStrandsSender` | kernel/thread.c:256-270 | whoever blocks sending to a paused thread is READY on no list once that thread is released |
| `LostThreads.LostFromBoot` | kernel/thread.c:256-270 | a concrete run from boot that ends with a lost thread |
| `LostThreads.NeverScheduled` | kernel/schedule.c:15-48 | over every run (documented build, message calls made by running threads) without a pause or release of it, a READY thread on no list stays so and no `schedule`, wherever called from, returns it |
| `LostThreads.PauseFinds` | kernel/thread.c:107-156 | a pause and a start put such a thread back on its run queue |
| `AddressSpace.WalkIsTranslateIff` | kernel/paging.c:355-381 | the kernel's walk finds the processor's frame if and only if the page is not inside a 4 MiB page, apart from its first 4 KiB below 4 GiB |
| `FlatMemory.LargePageMissed` | kernel/paging.c:359-364 | a 4 MiB page for which the walk finds the wrong frame |
| `FlatMemory.SmallPageFound` | kernel/paging.c:355-381 | from the bytes of the two entries: with bit 7 of the first clear, an address is mapped if and only if bit 0 of both is set, to the frame the second names, by processor and kernel alike |
| `FlatMemory.LargePageFound` | kernel/paging.c:362-364 | from the bytes of an entry with bits 0 and 7 set: the processor finds the address in the 4 MiB page it names, the kernel in that page's first 4 KiB |
| `AddressSpace.Reach` | kernel/paging.c:343-400 | how many bytes of a range are mapped before the first unmapped one |
| `AddressSpace.CopyEitherWay` | kernel/paging.c:415-448 | over 4 KiB mappings a copy gives the same memory and result whether each side is reached by the processor or by the kernel's walk |
| `Copying.MoveIsCopy` | kernel/paging.c:343-448 | `poke_virt` and `peek_virt`, for any start, length and alignment, transfer exactly the bytes below the first that either side does not map, as a copy that reads everything first would, unless a table in use or a byte yet to be read is overwritten; E_NOT_MAPPED for the other side, a fault for the caller's |
| `Copying.PagedIs` | kernel/paging.c:343-400 | page-by-page access with the tables read again for each page is the byte-by-byte copy |
| `Copying.ForwardArrives` | kernel/mem.c:127-140 | each byte of the source arrives in the target, if the target maps no frame twice |
| `Copying.ForwardElsewhere` | kernel/mem.c:127-140 | no byte outside the target changes |
| `Copying.MoveWithin` | kernel/paging.c:343-448 | whatever it reads and however it ends, a copy changes no byte outside the range it writes to, if that range holds none of its own tables |
| `Copying.OverlapSmears` | kernel/mem.c:127-140 | buffers that overlap by all but one byte: what each copy leaves in memory, and that they agree if and only if the two bytes were equal |
| `Copying.OverlapMemory` | kernel/mem.c:127-140 | memories in which the two copies differ, for any page directory outside the copied frame |
| `Paging.SettledIff` | kernel/paging.c:65-111 | a mapped window page reaches its frame under every future behaviour of the TLB if and only if the TLB holds no other translation for it |
| `Paging.Machine.MapPage` | kernel/paging.c:75-81 | whatever the TLB held and cached during the four stores, after the invalidation the page is settled on its frame; other entries are kept |
| `Paging.Machine.MapTemp` | kernel/paging.c:65-84 | maps as many pages as fit in the window to consecutive frames, all settled, returns their number and keeps all other entries |
| `Paging.Machine.UnmapTemp` | kernel/paging.c:97-111 | clears as many entries as fit, returns their number and keeps all other entries; the TLB may keep the pages |
| `Paging.Machine.ReadPmapEntry` | kernel/paging.c:195-213 | returns the entry as it stands in flat physical memory, also with a stale TLB |
| `Paging.Machine.WritePmapEntry` | kernel/paging.c:227-247 | the entry reads back and no other byte of physical memory changes |
| `Paging.Machine.AccessPhys` | kernel/paging.c:287-325 | a transfer of any start and length equals a flat load or store of physical memory; E_FAIL exactly for length 0 |
| `Paging.Machine.CopyWindow` | kernel/paging.c:308-313 | a byte loop between the window and a buffer of the current space reaches the frame just mapped, whatever the TLB does, and faults at the first unmapped byte of the buffer |
| `Paging.Machine.FindFrame` | kernel/paging.c:355-381 | reading the two entries through the window gives the table walk over flat memory |
| `Paging.Machine.AccessMem` | kernel/paging.c:343-400 | for any start, length, alignment, buffer and tables, also if it overwrites the tables it reads: the page-by-page walk and copy over flat memory, with its exact end |
| `Paging.Machine.CopyDirect` | kernel/mem.c:127-140 | a copy within the current space translates each byte when its turn comes and faults at the first unmapped one |
| `Paging.Machine.PokeVirt` | kernel/paging.c:415-423 | a write to the current or any other address space, mapped or not, is `Move` over flat memory, with its exact end |
| `Paging.Machine.PeekVirt` | kernel/paging.c:440-448 | a read from the current or any other address space, mapped or not, is `Move` over flat memory, with its exact end |
| `Paging.Machine.InitializeRootPmap` | kernel/paging.c:121-145 | memory becomes that of a new directory: kernel entries copied byte by byte through the window from the recursive mapping, last entry onto itself; also for the current directory |
| `FlatMemory.DirectoryCopied` | kernel/paging.c:132-136 | the byte copy out of the recursive mapping reads every entry as it was, also when the directory is copied onto itself |
| `FlatMemory.NewDirectoryEntries` | kernel/paging.c:121-145 | from the kernel's first entry on the new directory equals the current one, its last maps itself, lower entries and all other frames are untouched |
| `FlatMemory.NewSpaceSharesKernel` | kernel/paging.c:121-145 | every page from the kernel's first entry up to 0xFFC00000 translates as in the current space, and the new directory maps itself |
| `FlatMemory.LastPageIsDirectory` | include/kernel/paging.h:30-40 | with a recursive last entry, the last page is the page directory itself |
| `FlatMemory.PutEntryAt` | include/kernel/paging.h:123-166 | writing an entry's four bytes makes it read back and changes no other byte |
| `FlatMemory.StoreConcat` | kernel/paging.c:383-397 | storing page by page equals storing all bytes, as long as the first part is mapped |
| `FlatMemory.WalkIntact` | kernel/paging.c:355-381 | writing frames that are none of the tables in use leaves the kernel's walk and the processor's translation of every page of the range as they were |
| `Paging.Machine.ClearPhysFrames` | kernel/paging.c:29-51 | as many frames as fit in the window are zeroed, and their number returned |
| `Paging.ZeroFramesAt` | kernel/paging.c:29-51 | zeroing changes exactly the bytes of the frames from the first on, around the end of memory |
| `Frames.IsReservedPage` | kernel/init/memory.c:60-122 | on boot information where no range hides inside a page and no available region is misread to harm, a page it lets pass (but the last) holds nothing of kernel or modules and lies in an available region |
| `Frames.OverlapsMissesIff` | kernel/init/memory.c:58 | the overlap test misses a range if and only if the range begins behind the first byte of the page and ends in it, or begins so in the last page |
| `Frames.OverlapsExceedsIff` | kernel/init/memory.c:58 | it sees a range that is not there if and only if the range begins right behind the page; for the last page, at 0 |
| `Frames.UnreservedTouchesIff` | kernel/init/memory.c:60-122 | a page that passes holds a byte of the kernel or a module if and only if it holds that range whole, behind its first byte, or is the last page |
| `Frames.FoundIff` | kernel/init/memory.c:84-105 | a page is found in a region if and only if the region lies below 4 GiB and is longer than the page's address; the last page in any such region |
| `Frames.AvailableIff` | kernel/init/memory.c:84-105 | a page is available if and only if the first region it is found in says so |
| `Frames.ReadRightIff` | kernel/init/memory.c:92 | every page from 1 MiB up, but the last, that is found in a region lies in it if and only if the region is above 4 GiB, or no longer than 1 MiB, or begins at 1 MiB or below with its last page inside |
| `Frames.LastPageRightIff` | kernel/init/memory.c:71-94 | the last page, if found in a region, lies in it if and only if the region reaches the end of 32-bit memory |
| `Frames.UnreservedIsSafe` | kernel/init/memory.c:60-122 | on such boot information every page that passes, but the last, is safe to give out |
| `Frames.SafeFromKernel` | kernel/init/memory.c:76 | no byte of a kernel that ends below 4 GiB lies in a safe page |
| `Frames.OrdinaryMapIsTidy` | kernel/init/memory.c:79-105 | a map of low memory, a hole, extended memory of any length from 1 MiB and memory above 4 GiB is such boot information |
| `Frames.OrdinaryMapAvailable` | kernel/init/memory.c:79-105 | of such a map exactly the pages below the length of extended memory are found, 1 MiB less than there are |
| `Frames.ModuleInsidePage` | kernel/init/memory.c:115 | a module inside a page does not keep the page from being given out |
| `Frames.RegionMisread` | kernel/init/memory.c:92 | with memory only from 2 GiB up, a page at 3 MiB is given out |
| `Frames.LastPageMisread` | kernel/init/memory.c:71 | the last page is given out where there is no such memory |
| `Frames.NextFree` | kernel/init/memory.c:44-48 | the search ends at the first page not reserved, or wraps exactly if there is none |
| `Frames.Allocator.AllocPhysFrame` | kernel/init/memory.c:38-56 | over every run the frames given out are strictly increasing, page aligned, at or above 1 MiB and exactly the pages that pass the test so far, each but the last safe on tidy boot information; INVALID_PADDR exactly when none is left, and from then on |
| `Frames.GivenAreSafe` | kernel/init/memory.c:38-122 | on tidy boot information everything ever given out, but the last page, holds nothing of kernel or modules and lies in an available region |
| `Calendar.GetTimeInSecs` | servers/rtc_server/main.c:53-73 | the number of seconds from the epoch to the date, modulo 2^32 |
| `Calendar.GregorianDays` | servers/rtc_server/main.c:38-43 | the days before a year, in closed form: a leap day every 4 years, not every 100, but every 400 |
| `Calendar.LeapDayOf2000` | servers/rtc_server/main.c:41-43 | 29 February 2000 is a date, 951782400 seconds after the epoch |
| `Calendar.MonthLengths` | servers/rtc_server/main.c:14-27 | the twelve month lengths |
| `Calendar.SecondsIncrease` | servers/rtc_server/main.c:53-73 | the second count is strictly increasing in calendar order |
| `Calendar.SecondsInjective` | servers/rtc_server/main.c:53-73 | two valid dates with the same second count are the same |
| `Calendar.SplitYear` | lib/libc/time/gmtime.c:44-50 | the year loop finds the year and the day in it for every day count |
| `Calendar.SplitMonth` | lib/libc/time/gmtime.c:54-70 | the month loop finds the month and day for every day of a year |
| `Calendar.GmTime` | lib/libc/time/gmtime.c:21-73 | for every second count, the fields are those of the valid date with that count |
| `Calendar.RoundTrip` | lib/libc/time/gmtime.c:29-70 | `gmtime` inverts the RTC encoding for every date from 2000 on that fits in 32 bits |
| `Calendar.WeekdayRightIff` | lib/libc/time/gmtime.c:62-64 | `tm_wday` is the true weekday if and only if the month is January or October |
| `Calendar.WeekdayWrong` | lib/libc/time/gmtime.c:62-64 | on 1 February 1970 the weekday is wrong |
| `Stdio.Stream.constructor` | lib/libc/stdio/fputc.c:28-46 | an open stream with an empty ring satisfies the invariant |
| `Stdio.Stream.FPutC` | lib/libc/stdio/fputc.c:8-51 | delivered output followed by the pending ring equals the characters accepted, which grow by this one exactly if the stream is open and not at its end; what was delivered stays delivered; an unbuffered character, or a newline on a line-buffered stream, leaves nothing pending, and any other is delivered only when the ring was full |
| `Stdio.Stream.WriteChar` | lib/libc/stdio/os_stub.c:13-34 | an unbuffered character is delivered at once, behind all earlier ones |
| `Stdio.Stream.DrainToDebug` | lib/libc/stdio/os_stub.c:36-62 | the debug device receives the pending characters in order and the ring is empty, also when it was full |
| `Stdio.Stream.DrainToRequest` | lib/libc/stdio/os_stub.c:36-103 | the request payload is the pending characters in order, never longer than the buffer |
| `Stdio.Stream.FFlush` | lib/libc/stdio/fflush.c:17-40 | everything pending is delivered and nothing stays pending, or EOF and nothing changed |
| `Stdio.RingSplit` | lib/libc/stdio/os_stub.c:66-85 | a ring is its straight piece followed by the ring behind it |
| `Fat.WindowedIsFlat` | apps/init_server_old/fs/fat_alloc.c:138-216 | decoding through sector buffers equals decoding the flat table for every FAT12 and FAT16 entry, also across sectors, except a last entry with no sector behind the table |
| `Fat.Decode12` | apps/init_server_old/fs/fat_alloc.c:199-204 | packing FAT12 entries two to three bytes and decoding gives every entry back |
| `Fat.Decode16` | apps/init_server_old/fs/fat_alloc.c:205-206 | packing FAT16 entries low byte first and decoding gives every entry back |
| `Fat.ReadFatIs` | apps/init_server_old/fs/fat_alloc.c:138-216 | `readFAT` gives every entry a table was packed from, apart from that last entry, and 1 for a cluster outside it |
| `Fat.GetFreeCluster` | apps/init_server_old/fs/fat_alloc.c:221-269 | the least free cluster from 2 on, and 1 exactly if there is none (or the table cannot be read); for a table packed from entries, the least entry that is 0 |
| `Fat.FreeIsReadFat` | apps/init_server_old/fs/fat_alloc.c:138-269 | a cluster is free in the scan if and only if `readFAT` gives 0, apart from that last entry |
| `Fat.FreeIsZero` | apps/init_server_old/fs/fat_alloc.c:240-263 | an entry is free in the scan if and only if 0 was packed there |
| `Fat.LastEntryMissed` | apps/init_server_old/fs/fat_alloc.c:175 | a volume on which a free last entry reads as an error |
| `Radix.ReverseInPlace` | lib/libc/stdlib/itoa.c:158-166 | the first n characters are reversed and the rest kept |
| `Radix.ULiToStr` | lib/libc/stdlib/itoa.c:142-169 | writes the digits of the value, most significant first, and their number; -1 and no change for a bad base |
| `Radix.DigitsValue` | lib/libc/stdlib/itoa.c:71-98 | the digits are valid in the base and their positional value is the number |
| `Radix.DigitCount` | lib/libc/stdlib/itoa.c:142-169 | the number of digits is the exact radix length |
| `Radix.ParseDigits` | lib/libc/stdlib/strtol.c:97-146 | the longest run of digits and its value modulo 2^32 |
| `Radix.DigitWorth` | lib/libc/stdlib/strtol.c:113-116 | digits and letters of either case are worth their place in order |
| `Radix.DigitValueIs` | lib/libc/stdlib/strtol.c:113-119 | no other character is a digit in any base |
| `Radix.SpaceIs` | lib/libc/ctype/ctype.c:23-25 | white space is a space or one of the controls from tab to return |
| `Radix.ReadHead` | lib/libc/stdlib/strtol.c:82-110 | however the text is made up of white space, sign, base prefix and rest, the digits start behind the prefix, the base is the given one or the one the prefix tells, and the minus is seen |
| `Radix.HeadOfParts` | lib/libc/stdlib/strtol.c:82-110 | putting a text together from parts and reading its head gives the parts back |
| `Radix.PartsOf` | lib/libc/stdlib/strtol.c:82-110 | every text has such parts |
| `Radix.PrefixValue` | lib/libc/stdlib/strtol.c:97-146 | no intermediate value exceeds the final one, so a number that fits never overflows on the way |
| `Radix.StrToUL` | lib/libc/stdlib/strtol.c:39-175 | for base 0 or 2 to 36: spaces, sign, base prefix and digits; where parsing stops early the end and the signed value are given, otherwise neither; in any other base the end is the start |
| `Radix.SignedIff` | lib/libc/stdlib/strtol.c:112-175 | the signed value is returned if and only if there is no minus, the digits stop early, or the value is 0 or 2^31 modulo 2^32; `endptr` is set if and only if they stop early, and to that place |
| `Radix.MinusIgnored` | lib/libc/stdlib/strtol.c:146 | "-5" in base 10 gives 5 and no `endptr` |
| `Radix.RoundTrip` | lib/libc/stdlib/strtol.c:97-146 | for every 32-bit value and base 2 to 36, parsing the printed digits gives the value back |

## Left out

- Assembly, CR3 and FXSAVE handling, stack switching, interrupt entry: hardware. `thread_switch_context` appears only as its precondition, that its argument is RUNNING.
- Deadlock freedom of messages: the code does not prevent cycles of waiting threads.
- Slot search in `thread_create` and the initialisation of the new thread's other registers: the model is given the slot.
- `handle_sys_update_tcb`, which rewrites a thread's state without relinking it, and sleeping, which the code never finishes.
- The interrupt handler table that `thread_release` also clears.
- `KASSERT`: a failing assertion has no effect in the model; when the two of `send_message` and the one of `thread_switch_context` hold is stated by `SendTakenDelivers`, `AssertedIff` and `SchedulePicksHighest`; the panic of `schedule` and a fault in the kernel are outcomes of the call that meets them, and nothing is said about what follows.
- Checks of pointer arguments for NULL, and failures of `malloc`.
- Builds whose tid of a null peer is outside the table: the code would then index outside it.
- The kernel's own tables are not part of the modelled physical memory, so a copy onto them is not modelled; the same holds for the window's page table.
- Stale TLB entries for pages outside the window: the current address space is translated by its tables as they are at each byte.
- Paging.Machine.AccessPhys: its buffer is the kernel's own, apart from the copied memory; `AccessMem` models a buffer in memory.
- Paging.Machine.InitializeRootPmap: requires the current directory to map itself, as the kernel's does.
- Page permissions (user and writable bits), PAE, 4 MiB frames above 4 GiB, and the low bits of a thread's `root_pmap`.
- `handle_sys_update_page_mappings` and `handle_sys_read_page_mappings`, whose inner loop reaches only one level; `is_accessible`; large pages in `is_reserved_page`.
- Calendar.GmTime: the second count is any natural number, so overflow of the year field is not modelled.
- `mktime`, which compares a year counted from 1900 with 1970, and the RTC's BCD and 12-hour registers.
- Stdio.Stream.FPutC: for a file that is not a device it says only that the stream stays well formed; such files are marked as not implemented.
- `setvbuf`, an empty buffer, devices without a user buffer (their drain loop makes no progress), flushing all streams at once, and sending the write request, which the source has commented out: a filled request counts as delivered.
- `writeFAT`, FAT32 entries, directories and mounting, which the source marks as incomplete; overflow of 3 * cluster in 32 bits.
- Signed and 64-bit printing and parsing, where the source drops the sign and the padding of halves.
- Radix.ULiToStr: requires room for the digits, because the source writes without a bound.
- Hash tables, dynamic arrays, drivers, console, shell, services and system-call plumbing, which none of the modelled code depends on.

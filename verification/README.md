# Verification of the MAXRTOS kernel

A Dafny model of the architecture-independent scheduling and blocking kernel of MAXRTOS,
with proofs about every state it can reach, and of the parts of the code generator that
pack process stacks into protected domains.

## How the project is built

The state is one value, `KernelState.Kernel`: the process pool, per partition the ready
queues, the current process and the halted flag, the wait lists, the mutex, semaphore, port
and buffer pools, the tick counter, the due bound and the pending deadline misses. Pool
sizes are the lengths of the sequences, the two queue capacities and the highest priority
are constants of which only what the sources assert is known, so every theorem holds for
every configuration.

- `KernelState`, `KernelCalls`: what each kernel service does to the state, with the
  branches, error statuses and roll-backs of the C code.
- `ReadyMask`, `ReadyQueues`, `Buffers`: the rings, the bit mask, the wait-list arrays and
  the byte rings as they are in memory, proved to behave as sequences.
- `Stores`: all rings, lists and byte rings together, and the part of the kernel's state that
  each of them stands for.
- `Machine`: the kernel over that memory, with the loops and roll-backs of the C code. `Valid`
  ties every ring, list and pool to one state; each method leaves memory standing for exactly
  what the service of its name makes of that state, so what is proved of the services holds
  of the memory.
- `Order`: queue order - who joined the tails of the queues, in which order, and that everybody
  else kept its place.
- `Placement`: where every process is, and what the scheduling and blocking primitives do
  to it. A process between two places inside one call is in `limbo`.
- `Inheritance`: priority inheritance on bare arrays: the equation, the bounded walk, the
  raising claim, the sweep over all mutexes, deadlock cycles, the closed form.
- `Invariants`, `Blocking`, `Mutexes`, `Semaphores`, `Channels`, `Timing`, `Ticks`,
  `Recovery`: each service keeps the invariants, and its exact outcome.
- `Arrivals`: whom a priority refresh requeues - the READY processes at which its walks end.
- `Gates`, `Runs`: system calls through the gate, single events, and whole runs.
- `Calls`: what each call does when it is made through the gate, in one place.
- `Footprints`, `Waits`: which objects a call can touch, and who stops waiting in which event.
- `Wakeups`, `Sleeps`, `Traffic`, `Units`: properties over whole runs - time, messages, units.
- `Gating`: a kernel that scans in every tick, and why no run can tell it from this one.
- `Truncation`, `Hops`: what the bound on the chain walk cuts off, on arrays and in the kernel.
- `Outcomes`: one status for each reason why a call that has to wait cannot.
- `Startup`: registration and start establish what every run keeps; the main theorem.
- `Scenes`, `LostClaim`, `CutWalk`, `Deadlock`: runs from power-on that reach the states in
  which priority inheritance does not do what its comments promise.
- `Arithmetic`: division and remainder.
- `Frame`, `Packing`: the static schedule, and the domain packing of the code generator.

`dafny verify dfyconfig.toml` checks the whole project.

## What the proofs show about the code

- **A lock can lose its claim.** `maxrtos_ipc_block_current` saves the operation before it
  pushes the caller onto the wait list and does not clear it when the push fails
  (maxrtos/kernel/src/ipc_block.c:76-85). If that process later owns a mutex of the chain and
  blocks in a timed or periodic wait, `maxrtos_mutex_refresh_chain` follows the stale record
  (maxrtos/kernel/src/mutex.c:187-195); when this leads back to the owner that was just
  raised, the second visit knows nothing of the claim and lowers it again, and the caller
  then waits for an owner that does not inherit its priority. `Mutexes.LockOk` gives the
  exact condition, which can be read off the state before the call: the owner is less urgent
  than the caller and following the records from it comes back to it, within as many steps
  as there are mutexes, over a record that is not a wait. `LostClaims.LockLosesClaim` gives a
  run from power-on that does this, for every size of the wait lists: `MAXRTOS_WAITLIST_MAX`
  + 2 processes of one partition, of which one is refused because the list is full, is handed
  the mutex, sleeps, and is then waited for. One process fewer and it cannot happen:
  inheritance is exact in every state that every configuration with at most n processes in
  each partition can reach if and only if n is at most `MAXRTOS_WAITLIST_MAX` + 1, or ready
  queues are no longer than that (`LostClaims.RoomDecides`). The defaults, eight and eight
  (maxrtos/include/maxrtos/config.h:39-113), are safe. The code generator sizes the ready
  queues for the largest partition and leaves the wait lists at eight
  (tools/maxrtos_codegen/maxrtos_codegen/generators/limits.py:15-26), so a generated
  configuration with ten processes in one partition is not.
  Everybody but the new waiter is still inherited from, and the next walk from the owner it
  waits for puts every priority right again (`Mutexes.LostClaimIsLocal`).
- **The bound on the walk can be noticed.** One hop more than there are mutexes is enough for
  every walk that takes a priority back (`Mutexes.HopsSuffice`) and for the pass over all
  mutexes as a whole (`Hops.SweepHopsSuffice`), though single walks of it may be truncated
  (`Truncation.SweepWalkIsCut`). It is not enough for a raising walk that loses its claim: such
  a walk raises the real waits of the owner on its way out and takes them back on a second
  round, and if the records lead back after t hops, the hops from (mutexes + 1 - t) on are not
  reached again. `Hops.RaiseHopsDecide` gives the exact condition, `Hops.LostClaimLeaves` exactly
  who stays raised, and `CutWalks.LockCutShort` a run from power-on. Twice as many hops as
  there are mutexes would always do (`Truncation.TwiceIsEnough`).
- **A deadlock can keep a raised priority.** On a cycle of waits the inheritance equation has
  more than one solution. A lock that does not wait leaves every priority as it was unless it
  raised an owner whose wait chain runs into a cycle with a process less urgent than the
  caller on it; then, and only then, the processes of that cycle stay raised
  (`Mutexes.RefusedLockRestores`). `Deadlocks.RefusalKeepsRaise` reaches such a lock from
  power-on with four processes and two mutexes.
- **A priority refresh reorders a level.** A READY owner is requeued at the tail even when
  its priority does not change (maxrtos/kernel/src/partition.c:236-245), which is not what
  the comment in maxrtos/kernel/include/maxrtos/kernel/partition.h about keeping its queue
  position says. The model follows the code (`Placement.RequeuedAtTail`). Whom a refresh requeues is exactly
  the READY processes to which the records lead (`Arrivals.ChainEndIs`, `Arrivals.SweepEndsAre`).
- **Capacity.** The proofs use that no partition has more processes than one ready queue
  holds, which the generated configuration header asserts
  (tools/maxrtos_codegen/maxrtos_codegen/generators/limits.py:40). Under it no enqueue can
  fail, and the branches for unusable waiters are never taken.

## Model

| member | source | states |
|---|---|---|
| Startup.EveryReachableState | maxrtos/arch/cortex_m7/src/start_scheduler.c:54-91 | From any created pool, after registration, start and any sequence of calls, ticks and faults, the placement, object and clock invariants hold; every effective priority is exactly the inherited one when no lock loses its claim, and always when the wait lists have room for the processes of each partition |
| Runs.RunOk | maxrtos/arch/cortex_m7/src/svc.c:92-225 | Every run keeps the invariant, and the inheritance equation unless one of its locks loses a claim |
| Runs.RunIsExact | maxrtos/kernel/src/mutex.c:147-154 | With wait lists large enough no claim can be lost, so exact priority inheritance holds at every point of every run, raising and lowering alike |
| Runs.NoInversion | maxrtos/kernel/src/mutex.c:287-294 | If H waits, directly or through a chain, for a READY process of the active partition, the running process there is at least as urgent as H |
| Runs.RunIsSafe | maxrtos/arch/cortex_m7/src/svc.c:206-225 | After every call and every dispatching tick of every run nobody READY in that partition outranks the process that runs there |
| Runs.RunNeverInverts | maxrtos/kernel/src/mutex.c:287-294 | At these points of every run that loses no claim, the running process is at least as urgent as everybody who waits, directly or through a chain, for a process READY in the partition |
| Runs.StepOk | maxrtos/arch/cortex_m7/src/systick.c:37-101 | Each single call, tick (misses drained first) and fault keeps the invariant and, but for a lost claim, the inheritance equation |
| Runs.SystickOk | maxrtos/arch/cortex_m7/src/systick.c:47-66 | The tick interrupt acts on the recorded misses before the tick, so the dispatch sees the recovered state; afterwards nobody READY outranks the process of the active partition |
| Runs.CleanKeepsClaims | maxrtos/kernel/src/mutex.c:187-195 | When every lock on record is a wait under way, the walk follows real waits only and no claim can be lost |
| Runs.MutexListHasRoom | maxrtos/kernel/src/waitlist.c:27-50 | If a partition has at most one process more than a wait list holds, a mutex wait list is never full for a running caller |
| Mutexes.LockOk | maxrtos/kernel/src/mutex.c:240-338 | Lock keeps every invariant, waits exactly when the mutex is held by another process and the wait can start, and keeps the inheritance equation if and only if it is not the case that the wait starts and its claim is lost over a stale record |
| Mutexes.LockOutcome | maxrtos/kernel/src/mutex.c:262-333 | When lock takes a free mutex, refuses an invalid one or one the caller has, waits, or finds the list full, and the state it leaves: ownership taken, the caller at the tail of the list with its wake tick and operation, or nothing but priorities and the operation record touched; exactly a full list leaves the new operation on record |
| Outcomes.LockAnswers | maxrtos/kernel/src/mutex.c:276-333 | With the mutex held by another process, one status for each reason and no other: timed out if and only if the timeout is zero or nobody could run instead, overflow if the wake tick cannot be represented, pool full if the list is full, halted if the partition is, pending if none of these |
| Hops.LockRaises | maxrtos/kernel/src/mutex.c:287-294 | A lock that waits and keeps its claim raises the owner and everybody it waits for who is less urgent to exactly the caller's priority, and changes nobody else |
| Mutexes.LockQueues | maxrtos/kernel/src/mutex.c:282-333 | A lock with a timeout of a mutex somebody else has requeues the READY process at which the owner's chain ends, also when it is refused; besides, a caller that waits is replaced by the first of the most urgent level; any other lock leaves the queues alone |
| Mutexes.RefusedLockRestores | maxrtos/kernel/src/mutex.c:326-332 | A lock that does not wait leaves every priority as it was, if and only if it is not the case that it raised an owner whose chain of waits runs into a deadlock cycle with a process less urgent than the caller on it |
| Deadlocks.RefusalKeepsRaise | maxrtos/kernel/src/mutex.c:326-332 | A run from power-on of four processes, two of them deadlocked over two mutexes, whose last lock is refused and leaves the deadlocked ones raised |
| Inheritance.TakenBackExactly | maxrtos/kernel/src/mutex.c:147-154 | Raising along a chain and walking it again without the claim restores every priority if and only if no less urgent process is deadlocked ahead |
| LostClaims.LockLosesClaim | maxrtos/kernel/src/ipc_block.c:76-85 | For every wait-list size, a run from power-on of two more processes than a list holds, all priorities exact, whose last lock loses its claim over an operation kept on record after a full list, so that the owner is less urgent than its waiter |
| LostClaims.RoomDecides | maxrtos/kernel/src/waitlist.c:27-50 | Exact inheritance in every state every configuration with at most n processes in each partition can reach holds if and only if n is at most one more than a wait list holds, or a ready queue holds no more than that |
| Mutexes.LostClaimIsLocal | maxrtos/kernel/src/mutex.c:147-154 | After a lost claim the owner is less urgent than the new waiter and nobody else is held up; one walk from that owner makes every priority exact again |
| Inheritance.WalkRepairs | maxrtos/kernel/src/mutex.c:155-202 | A walk from the owner that one waiter waits for in vain settles every process, cycles and stale records included |
| Inheritance.ClaimWalk | maxrtos/kernel/src/mutex.c:155-202 | The raising walk holds the owner at the claim and changes only less urgent processes along its wait chain - unless it returns to the owner over a record that is no wait, and then it always loses the claim |
| Mutexes.UnlockOk | maxrtos/kernel/src/mutex.c:340-374 | Unlock succeeds exactly for the owner, keeps every invariant and the inheritance equation, and otherwise changes nothing |
| Mutexes.UnlockQueues | maxrtos/kernel/src/mutex.c:340-374 | An unlock puts the new owner at the tail of its level and moves nobody else |
| Mutexes.HandOffOk | maxrtos/kernel/src/mutex.c:205-238 | A released mutex goes to its most urgent waiter (the longest waiting among equals) or is free; the old owner no longer inherits, and the new owner needs no adjustment |
| Mutexes.HandOffQueues | maxrtos/kernel/src/mutex.c:205-238 | A hand-off puts the new owner at the tail of its level and, behind it, the READY process at which the old owner's chain ends; nobody else moves |
| Mutexes.ReleaseAllOk | maxrtos/kernel/src/mutex.c:376-393 | A process that forgets what it held owns nothing afterwards; each mutex is with the waiter most urgent when it is passed on (the longest waiting among equals; under exact inheritance the one that was best before anything was passed on), or free and unwanted; nothing else changes but priorities, and inheritance still holds |
| Mutexes.RefreshPrioritiesOk | maxrtos/kernel/src/mutex.c:395-412 | One index-order pass re-establishes the inheritance equation for every process after any number of waiters left |
| Arrivals.SweepEndsAre | maxrtos/kernel/src/mutex.c:395-412 | The pass requeues a process if and only if it is READY and the records lead to it from the owner of some mutex |
| Inheritance.SweepSettles | maxrtos/kernel/src/mutex.c:395-412 | Whatever is not exact lies ahead, on real waits, of an owner whose mutex is still to be visited, so a single sweep is enough even with stale records and deadlock cycles |
| Mutexes.HopsSuffice | maxrtos/kernel/src/mutex.c:170-174 | A walk that takes a priority back, from the one owner who may have become too urgent, is never truncated by its bound of one hop more than there are mutexes |
| Hops.RaiseHopsDecide | maxrtos/kernel/src/mutex.c:170-174 | From exact inheritance, more hops change what the raising walk of a lock does if and only if the walk loses its claim after t hops and the hop on the owner's real waits that it has no visit left for is less urgent than the claim |
| Hops.LostClaimLeaves | maxrtos/kernel/src/mutex.c:187-195 | A lock that loses its claim leaves raised exactly the processes its walk had no hops left to visit again; all priorities are what they were if and only if the walk was not cut short |
| CutWalks.LockCutShort | maxrtos/kernel/src/mutex.c:170-174 | For every wait-list size, a run from power-on with two mutexes whose last lock makes a walk that is cut short: the owner drops back and the process it waits for stays raised |
| Hops.SweepHopsSuffice | maxrtos/kernel/src/mutex.c:395-412 | However many more hops each of its walks is allowed, the pass over all mutexes leaves every priority the same |
| Truncation.HopsDecide | maxrtos/kernel/src/mutex.c:155-202 | The exact condition for the raising walk to notice its bound, on any wait graph and any records |
| Truncation.TwiceIsEnough | maxrtos/kernel/src/mutex.c:170-174 | With twice as many hops as there are mutexes the raising walk is never cut short |
| Truncation.SweepWalkIsCut | maxrtos/kernel/src/mutex.c:395-412 | Four processes in whose sweep a single walk is truncated by the bound, and what one more hop would have done |
| Inheritance.WalkRestores | maxrtos/kernel/src/mutex.c:147-154 | A walk that starts where the trouble is makes every process exact again, cycles included |
| Mutexes.ChainIsWalk | maxrtos/kernel/src/mutex.c:155-202 | The kernel's walk over queues, records and owners computes the abstract walk, changes nothing but priorities and never fails |
| Arrivals.ChainEndIs | maxrtos/kernel/src/mutex.c:155-202 | A walk requeues a process if and only if it is READY and the records lead to it from where the walk starts; the bound never hides it |
| Invariants.WantedIs | maxrtos/kernel/src/mutex.c:99-145 | The double loop over owned mutexes and their waiters yields the minimum of base priority, claim and all waiters' effective priorities |
| Invariants.ExactIsWanted | maxrtos/kernel/src/mutex.c:99-145 | Inheritance is exact if and only if recomputing the wanted priority of any process gives the priority it has |
| Mutexes.InheritedPriority | maxrtos/kernel/src/mutex.c:99-102 | The effective priority of a process that is not deadlocked is the least base priority over the process and all its transitive waiters |
| Inheritance.StableIsUnique | maxrtos/kernel/src/mutex.c:99-102 | All solutions of the inheritance equation agree on every process that is not deadlocked |
| Inheritance.ClosedForm | maxrtos/kernel/src/mutex.c:99-102 | The effective priority of a process that is not deadlocked is below nobody's base priority among its transitive waiters and equal to that of one of them |
| Placement.OnePlaceEach | maxrtos/kernel/src/dispatch.c:134-138 | Every process is in exactly one place: a READY one once in its own partition's queue at its current priority, a RUNNING one in no queue and current, a BLOCKED one on the one list its record names or in one timed wait |
| Placement.SelectOk | maxrtos/kernel/src/dispatch.c:32-183 | A selection picks a process nobody READY outranks, or fails because the partition is halted or empty and leaves everything as it was |
| Placement.SelectIs | maxrtos/kernel/src/dispatch.c:32-183 | A selection takes the first of the most urgent level exactly when it is to take over, puts the outgoing process first or last of its own level, and does nothing else |
| Gates.SelectedOnce | maxrtos/kernel/src/dispatch.c:32-183 | What is said of a selection determines the state it leaves |
| Placement.DispatchOutcome | maxrtos/kernel/src/dispatch.c:19-30 | A strictly more urgent process takes over; an equal one only if the running process gives way; a preempted process stays first of its level, one that gave way goes last |
| Placement.BlockOk | maxrtos/kernel/src/partition.c:167-199 | Blocking hands the CPU to the best READY process, or changes nothing when there is none or the partition is halted |
| Placement.SetPriorityOk | maxrtos/kernel/src/partition.c:201-259 | A priority change keeps the placement and cannot fail for a live process |
| Placement.RequeuedAtTail | maxrtos/kernel/src/partition.c:236-245 | A queued process whose priority is set moves to the tail of its level even when the value is unchanged |
| Placement.ResolveOk | maxrtos/kernel/src/ipc_block.c:205-246 | A blocked process becomes READY at the tail of its own partition's queue with its result recorded; under the per-partition bound this never finds the queue full |
| Placement.BlockCurrentOk | maxrtos/kernel/src/ipc_block.c:42-117 | A wait starts with the caller at the tail of the list, or is rolled back; only a full list leaves the operation on record |
| Placement.TakeBestOk | maxrtos/kernel/src/ipc_priority.c:12-68 | The waiter taken is the most urgent, the longest waiting among equals, and is on no list afterwards |
| Placement.WakeOneOk | maxrtos/kernel/src/ipc_block.c:120-157 | The waiter released is the one that waited longest |
| Gates.GateOk | maxrtos/arch/cortex_m7/src/svc.c:206-225 | After every call of a running process: invariants kept, time and every other process left alone or granted what it waits for, and nobody READY outranks the process that runs; a caller that still runs is subject to one selection in which it does not give way, and a yield or a zero delay succeeds and is one in which it does |
| Footprints.GateOnly | maxrtos/arch/cortex_m7/src/svc.c:92-225 | A call touches the object it names and no other, and of that one only the owner, the count or the messages: every other mutex, semaphore and channel and its wait list, the tick, the pending misses and the halted partitions stay as they were |
| Gates.PreemptOk | maxrtos/arch/cortex_m7/src/svc.c:513-547 | A caller that still runs is preempted at once by anybody more urgent the call made READY: the first of the most urgent level runs, the caller is first of its own level, and no other queue changes; with nobody more urgent READY, nothing changes at all |
| Calls.GateDoes | maxrtos/arch/cortex_m7/src/svc.c:92-225 | What each of the nine calls does, with its status, its queues and its wait or grant, and that the gate does this and then nothing but the check for preemption |
| Gates.YieldRotates | maxrtos/kernel/src/yield.c:13-39 | A yield puts the caller behind its READY peers and runs the first of them |
| Gates.RoundRobin | maxrtos/kernel/src/partition.c:136-142 | Successive yields give every READY peer its turn in order, and once round the order is restored |
| Gates.ZeroDelayRotates | maxrtos/arch/cortex_m7/src/svc.c:505-509 | A timed wait of no ticks answers with success and puts the caller behind its READY peers; with nobody READY at its level or above it changes nothing |
| Semaphores.SemWaitOk | maxrtos/kernel/src/semaphore.c:122-192 | A wait takes a unit exactly when one is free; otherwise it queues at the tail when it can, or leaves only the operation record touched |
| Semaphores.SemSignalOk | maxrtos/kernel/src/semaphore.c:194-247 | A signal frees a unit when nobody waits, overflows exactly at the maximum, and otherwise hands the unit to the most urgent waiter with the count staying at zero |
| Outcomes.SemWaitAnswers | maxrtos/kernel/src/semaphore.c:150-190 | With no unit free, one status for each reason and no other: timed out if and only if the timeout is zero or nobody could run instead, overflow if the wake tick cannot be represented, pool full if the list is full, halted if the partition is, pending if none of these |
| Units.RunUnits | maxrtos/kernel/src/semaphore.c:122-247 | Over any run the initial count plus successful signals equals the final count plus units obtained, where a unit is obtained by a wait that succeeds at once or by a waiter that leaves the list and resumes with success; the count stays within its maximum and never coexists with a waiter |
| Units.NobodyWaitsInVain | maxrtos/kernel/src/buffer.c:190-192 | A free mutex, an available unit, a queued message and a free slot never coexist with a waiter for them, and receivers and senders never wait on the same channel |
| Channels.SendOk | maxrtos/kernel/src/queue_port.c:205-314 | A message goes to the waiting receiver that is next in the discipline, else into the ring, else the sender waits when it can; when exactly each happens, when the port or the message is refused, and that any other refusal leaves only the operation record touched |
| Channels.ReceiveOk | maxrtos/kernel/src/queue_port.c:316-415 | A receive takes the oldest message and admits one waiting sender into the freed slot, or waits when it can; when exactly each happens, when the port or the size is refused, and that any other refusal leaves only the operation record touched |
| Outcomes.SendAnswers | maxrtos/kernel/src/queue_port.c:236-309 | With the ring full, one status for each reason and no other: queue full if and only if the timeout is zero or nobody could run instead, and overflow, pool full, halted and pending as for a semaphore |
| Outcomes.ReceiveAnswers | maxrtos/kernel/src/queue_port.c:349-410 | With the ring empty, the same with queue empty for a zero timeout or nobody to run |
| Channels.SendHandsOver | maxrtos/kernel/src/buffer.c:184-207 | A send that finds a receiver waiting delivers straight to it: the ring is empty and no sender waits |
| Channels.ReceiveAdmits | maxrtos/kernel/src/buffer.c:296-324 | The freed slot refills the ring with the message of the sender next in the discipline, and that sender resumes with success |
| Channels.WaitersAreUsable | maxrtos/kernel/src/buffer.c:208-217 | Every waiting receiver and sender is usable, so the branches for unusable ones are never taken in a reachable state |
| Channels.SendCarries | maxrtos/kernel/src/queue_port.c:236-309 | An accepted or waiting send adds its message behind all earlier ones; a refused one adds nothing |
| Channels.ReceiveCarries | maxrtos/kernel/src/queue_port.c:349-377 | A receive delivers the oldest message and keeps the order of all others in a FIFO channel, and their number and contents in any |
| Traffic.RunCarries | maxrtos/kernel/src/queue_port.c:205-415 | Over any run, delivered messages, ring and waiting senders' messages are exactly what was there or was sent during the run, less the messages of exactly those senders that gave up while waiting: as the same sequence, in call order, in a FIFO channel, and as the same multiset under either discipline |
| Traffic.RunCarriesAll | maxrtos/kernel/src/queue_port.c:205-415 | A FIFO channel carries every message entrusted to it, in order, if and only if no sender gives up during the run |
| Waits.LeaversGiveUp | maxrtos/kernel/src/ipc_block.c:248-289 | A tick or fault takes exactly those off a list that time out or are restarted; all others go on waiting with the record they had |
| Timing.TimedWaitOk | maxrtos/kernel/src/timing.c:222-285 | A timed wait of d ticks at counter T sleeps until T + d, idling the partition if nobody is READY; a wake tick that cannot be represented is refused |
| Timing.PeriodicWaitOk | maxrtos/kernel/src/timing.c:145-220 | A periodic wait meets the deadline and sleeps until exactly one period after the release, or on an overrun advances the release by exactly one period |
| Ticks.OnTickOk | maxrtos/kernel/src/tick.c:23-66 | A tick keeps every invariant, does to each process exactly what its expiry, release and deadline call for, queues those that give up and those that are released in id order behind everybody else, and then makes one selection in the active partition, in which nobody gives way; a failed selection leaves all as the scans left it |
| Ticks.DueGateInvisible | maxrtos/kernel/src/tick.c:38-55 | The gated tick and one that always scans give the same status, selection and state but for the bound itself |
| Gating.RunGateInvisible | maxrtos/kernel/src/tick.c:38-55 | Over every run, a kernel that makes the three scans in every tick answers every call and selects at every event as the gated one does, and ends in the same state but for the bound |
| Ticks.ScansIdle | maxrtos/kernel/src/timing.c:21-27 | Before the bound the three scans change nothing |
| Ticks.ExpireFromOk | maxrtos/kernel/src/ipc_block.c:248-289 | The expiry scan resumes exactly the processes whose wake tick has come, takes them and nobody else off their lists, and leaves at most mutex owners too urgent |
| Ticks.ExpireTimeoutsOk | maxrtos/kernel/src/ipc_block.c:248-299 | After the scan and the refresh it triggers the inheritance equation holds again; without a lock among the expired waits priorities stay and every queue is what it was followed by those that gave up, in id order; with one, exactly the READY ends of the owners' chains are requeued besides |
| Ticks.ReleasePeriodicOk | maxrtos/kernel/src/timing.c:287-333 | A periodic release begins at exactly the tick it was due and arms its deadline; a timed wait ends; both join the tails of their levels in id order and nobody else moves |
| Ticks.CheckDeadlinesOk | maxrtos/kernel/src/timing.c:335-362 | Exactly the passed deadlines of processes in running partitions are disarmed, counted and recorded as pending |
| Ticks.EarliestIs | maxrtos/kernel/src/timing.c:48-73 | The recomputed bound is the least recorded wake tick or deadline |
| Wakeups.WakesExactly | maxrtos/kernel/src/tick.c:44-48 | A wait recorded for tick w goes on through every run that leaves the counter below w unless granted, and runs out in exactly the tick that makes it w |
| Sleeps.WaitLasts | maxrtos/kernel/src/tick.c:68-95 | A lock, semaphore wait, send, receive or timed wait of n ticks that starts to wait at tick T sleeps until T + n: it goes on through every run that leaves the counter below that unless granted, and runs out in exactly the tick that makes it T + n |
| Wakeups.RunIsPartitioned | maxrtos/kernel/src/frame.c:78-117 | Every run with as many ticks as a major frame, wherever it starts and whatever else happens in it, gives each partition exactly the sum of its slot durations, as long as the counter does not wrap in it |
| Wakeups.NeverEarly | maxrtos/kernel/src/ipc_block.c:270-274 | No call, tick or fault of a run ends a wait before its tick except by granting it |
| Wakeups.NoDrift | maxrtos/kernel/src/timing.c:175-186 | Without restarts the release time is always the first one plus exactly one period for each release begun since, by a due tick or by an overrun, modulo the 32-bit counter |
| Wakeups.MissRecordedOnce | maxrtos/kernel/src/timing.c:335-362 | A deadline that is not met is recorded exactly once, by the first tick at or after it, if the partition is not halted by then |
| Recovery.RestartOk | maxrtos/kernel/src/fault_recovery.c:23-91 | A restart succeeds from every state; the process owns no mutex, and each it held is with its best waiter or free; it is on no list, is queued READY (a suspended one stays suspended) at its base priority with a new release, behind everybody the hand-offs and its own leaving requeued; everybody else is spared |
| Recovery.EnactFaultOk | maxrtos/arch/cortex_m7/src/fault_dispatch.c:47-149 | Every recovery action keeps the invariants; a restarted process that was on the CPU gives way and its partition runs somebody nobody outranks; a restart of any other process succeeds and nobody else gets or loses a CPU; ignoring and halting succeed, and a halt marks exactly the partition |
| Recovery.DrainOk | maxrtos/arch/cortex_m7/src/systick.c:47-61 | Every pending miss is taken exactly once in ascending id order, and exactly the processes whose partition's policy says so are restarted |
| Recovery.DrainInOrder | maxrtos/arch/cortex_m7/src/systick.c:47-61 | The drain handles the recorded misses one after the other in ascending id order, each as the policy of its partition says; only the process that was on the CPU at its beginning gives way |
| Startup.RegistrationEstablishes | maxrtos/arch/cortex_m7/src/start_scheduler.c:70-85 | Registration succeeds for every created pool; each queue holds the READY processes of its level in ascending id order |
| Startup.StartOk | maxrtos/kernel/src/start_scheduler.c:13-48 | Starting begins every first release at tick zero, arms its deadline, and runs the first tick from there with every invariant in place; the status says why nobody was selected, and a successful start selects a process of the first partition nobody READY there outranks |
| Startup.BootOk | maxrtos/arch/cortex_m7/src/start_scheduler.c:54-91 | A created pool ends registration and start with the first release of every process begun at tick zero, the queues in id order but for one tick and one selection, and, unless the first partition is halted, nobody READY there above who runs |
| Machines.Machine.constructor | maxrtos/kernel/src/scheduler.c:71-94 | Fresh rings, lists and byte rings, all separate from one another, that stand for a state in which nothing is queued yet |
| Machines.Machine.PutBack | maxrtos/kernel/src/dispatch.c:143-171 | The outgoing process is queued again, or state and candidate are put back step by step when that fails |
| Machines.Machine.BlockCurrent | maxrtos/kernel/src/ipc_block.c:42-117 | Blocks the caller or rolls the attempt back step by step, ending in exactly the state of the proved service |
| Machines.Machine.TakeBest | maxrtos/kernel/src/ipc_priority.c:12-68 | The scanning loop finds the waiter the proved service takes |
| Machines.Machine.WantedPriority | maxrtos/kernel/src/mutex.c:103-145 | The double loop computes the wanted priority |
| Machines.Machine.Refresh | maxrtos/kernel/src/mutex.c:155-202 | The loop over current, extra and hops is the bounded chain walk |
| Machines.Machine.ReleaseAll | maxrtos/kernel/src/mutex.c:376-393 | The loop hands off every owned mutex in index order |
| Machines.Machine.RefreshPriorities | maxrtos/kernel/src/mutex.c:395-412 | The loop walks from every owner in index order |
| Machines.Machine.ExpireTimeouts | maxrtos/kernel/src/ipc_block.c:248-299 | The loop over the pool and the refresh after it are the proved scan |
| Machines.Machine.ReleasePeriodic | maxrtos/kernel/src/timing.c:287-333 | The loop over the pool is the proved scan |
| Machines.Machine.CheckDeadlines | maxrtos/kernel/src/timing.c:335-362 | The loop over the pool is the proved scan |
| Machines.Machine.RefreshDue | maxrtos/kernel/src/timing.c:48-73 | The loop computes the earliest recorded tick |
| Machines.Machine.TakeDeadlineMiss | maxrtos/kernel/src/timing.c:364-383 | Takes the pending miss of the lowest id, and reports none exactly when none is pending |
| Machines.Machine.Drain | maxrtos/arch/cortex_m7/src/systick.c:47-61 | Taking the lowest pending miss until none is left, acting on each, is the ascending pass over the pool |
| Machines.Machine.Systick | maxrtos/arch/cortex_m7/src/systick.c:37-101 | Taking misses one at a time until none is left, acting on each and making the tick is the proved tick event; afterwards the invariants and exact inheritance still hold, and in the rings of the active partition no level more urgent than the running process is occupied |
| Machines.Machine.Gate | maxrtos/arch/cortex_m7/src/svc.c:92-225 | A call carried out on memory leaves it standing for the outcome of the proved call; the invariants hold again, inheritance stays exact unless the call loses its claim, and in the rings of the caller's partition no level more urgent than the running process is occupied |
| ReadyMask.LowestIsLeast | maxrtos/kernel/include/maxrtos/kernel/scheduler.h:135-147 | For every non-zero 32-bit mask the de Bruijn lookup returns the lowest set bit |
| ReadyMask.OneBitChanges | maxrtos/kernel/include/maxrtos/kernel/scheduler.h:239-253 | Setting or clearing the bit of a level changes that bit only |
| ReadyMask.NoneBelow | maxrtos/kernel/include/maxrtos/kernel/scheduler.h:371-378 | The mask test for higher priorities is clear exactly when no more urgent level is set |
| ReadyQueues.Ring.Push | maxrtos/kernel/include/maxrtos/kernel/scheduler.h:159-182 | The ring is a sequence: push appends, or reports full exactly at capacity |
| ReadyQueues.Ring.PushFront | maxrtos/kernel/include/maxrtos/kernel/scheduler.h:333-362 | Front push prepends, or reports full exactly at capacity |
| ReadyQueues.Ring.RemoveId | maxrtos/kernel/src/scheduler.c:23-69 | Removal by id with shifting takes out the first occurrence and keeps the order of the rest |
| ReadyQueues.Context.Enqueue | maxrtos/kernel/include/maxrtos/kernel/scheduler.h:302-322 | Enqueue appends to one level and keeps mask and levels in step |
| ReadyQueues.Context.EnqueueFront | maxrtos/kernel/include/maxrtos/kernel/scheduler.h:333-362 | Front enqueue prepends to one level and keeps mask and levels in step |
| ReadyQueues.Context.Next | maxrtos/kernel/include/maxrtos/kernel/scheduler.h:205-236 | The next process is the head of the most urgent level that is not empty |
| ReadyQueues.Context.TakeNext | maxrtos/kernel/include/maxrtos/kernel/scheduler.h:265-294 | Taking the next process pops that head and clears the bit of an emptied level |
| ReadyQueues.Context.Remove | maxrtos/kernel/src/scheduler.c:128-165 | Removal by id on one level keeps mask and levels in step |
| ReadyQueues.Context.HasHigher | maxrtos/kernel/include/maxrtos/kernel/scheduler.h:371-378 | The mask test answers whether a more urgent level has a process |
| ReadyQueues.RemoveRefines | maxrtos/kernel/src/scheduler.c:128-165 | Removal by id on the rings is removal from the kernel's sequences, status included |
| ReadyQueues.TakeRefines | maxrtos/kernel/include/maxrtos/kernel/scheduler.h:265-294 | Popping the level the mask names is taking the head of the queue the kernel selects |
| Buffers.WaitList.Push | maxrtos/kernel/src/waitlist.c:27-50 | Push appends, or reports full exactly at capacity |
| Buffers.WaitList.PopFront | maxrtos/kernel/src/waitlist.c:52-83 | Pop takes the first and keeps the order of the rest |
| Buffers.WaitList.Remove | maxrtos/kernel/src/waitlist.c:85-128 | Removal takes out the first occurrence, keeps the order, and says whether it was there |
| Buffers.Fifo.Push | maxrtos/kernel/src/fifo.c:38-71 | The byte ring is a sequence of messages: push appends the bytes, or reports a wrong size or a full ring |
| Buffers.Fifo.Pop | maxrtos/kernel/src/fifo.c:73-103 | Pop returns the oldest message byte for byte, or reports a small buffer or an empty ring, in this order |
| Stores.ReadyTable.Remove | maxrtos/kernel/src/scheduler.c:128-165 | One partition's rings follow a removal by id and the rings of all others stay put, so memory stands for the new state |
| Stores.ReadyTable.Next | maxrtos/kernel/include/maxrtos/kernel/scheduler.h:205-236 | The mask lookup finds the process and level the kernel's state selects, or reports nobody exactly when nobody is queued |
| Stores.WaitTable.Remove | maxrtos/kernel/src/waitlist.c:85-128 | One list loses the process and all others stay put; the answer is whether it was there |
| Stores.RingTable.Pop | maxrtos/kernel/src/fifo.c:73-103 | The bytes copied out are the oldest message of that channel's state, and all other rings stay put |
| Frame.Init | maxrtos/kernel/src/frame.c:18-76 | A schedule is accepted exactly when its slots are valid and their total fits a tick, and the major frame is that total |
| Frame.Lookup | maxrtos/kernel/src/frame.c:78-117 | The scan finds the partition of the slot that covers the reduced tick |
| Frame.LookupSucceeds | maxrtos/kernel/src/frame.c:78-117 | With an accepted schedule the lookup never fails and names a partition of the table |
| Frame.ExactPartitioning | maxrtos/kernel/src/frame.c:78-117 | Any window of one major frame, wherever it starts, selects each partition for exactly the sum of its slot durations |
| Packing.NextPow2 | tools/maxrtos_codegen/maxrtos_codegen/schema.py:232-236 | The least power of two that is at least n |
| Packing.PackDomain | tools/maxrtos_codegen/maxrtos_codegen/schema.py:249-266 | Stacks are aligned and disjoint; the domain is the least power of two, at least the minimum region, that holds them; regular stacks leave no gap and end exactly at the sum of their sizes |
| Packing.DomainBytes | tools/maxrtos_codegen/maxrtos_codegen/schema.py:239-246 | Domains in id order are aligned and disjoint with less than one alignment of padding each, and the result is the end of the last |

## Left out

- Queuing ports and buffers are one kind of channel that carries its discipline, its sender and receiver partitions and its capacity; a port is one with FIFO discipline.
- Messages are values: copies into receivers' memory are recorded in the order they are made, and a waiting sender's message is taken to stay as it was when the call was made.
- A blocked process's operation record also names its port, where the C record of a port operation does not; only the kind of channel is compared, as in the code.
- `Machine` keeps ready queues, wait lists and messages in arrays; the pools of control blocks, mutexes and semaphores it holds as sequences that are reassigned, not as arrays of records.
- The ready queues of one partition are a fixed list of ring objects rather than one block of memory.
- Null pointer checks and invalid identifiers below the pool size: a pointer is always there, an identifier is an index or absent.
- Identifiers and counters other than ticks and miss counts are unbounded; sizes in bytes do not overflow.
- Creation of processes, mutexes, semaphores, ports and buffers, setting of timings and suspension come before the start; `Startup.Created` describes what they leave.
- A halt takes the partition off the CPU at once, so calls come from partitions that are not halted.
- The health-monitor policy is one action per partition; a missing policy entry, which stops the machine, is skipped, and so are the other fatal stops of the architecture layer.
- The process on the CPU is a parameter of the tick event: the choice of context, the PendSV switch, stacks, registers, FPU and MPU are not modelled.
- Resetting a restarted process's stack and its pending result there is the architecture layer's work and not part of this model.
- The claim that a processor exception arrives only between two calls is part of the model: an event is one call, one tick or one fault.
- Sampling ports, status and count calls, the privilege table and argument checking of the SVC wrappers: one-branch properties only.
- Tick arithmetic that is not guarded in the code (deadlines and next releases) wraps in the model as in the code; `Wakeups.NoDrift` is stated modulo the counter, the other time properties for waits and deadlines reached without a wrap.
- JSON parsing, validation messages, templates and the linker script of the code generator.

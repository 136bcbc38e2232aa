/** The kernel's data: process control blocks, per-partition ready queues, wait lists and
    the object pools, as one value. Pool sizes are the lengths of the sequences, so every
    theorem holds for every configuration; the two queue capacities are constants about
    which nothing is known beyond what the sources assert. */
module KernelState {
  import opened Wrappers

  type Pid = nat
  type Byte = b: int | 0 <= b < 256
  type Message = seq<Byte>

  // The ready mask holds one bit per priority in 32 bits.
  type PriorityLimit = n: nat | 0 < n < 32 witness 31
  type Positive = n: nat | 0 < n witness 1

  const MAX_PRIORITY: PriorityLimit
  const MAX_READY_PER_PRIORITY: Positive
  const WAITLIST_MAX: Positive

  // Ticks are 32-bit; the largest value means "no tick".
  const TICK_MODULUS: nat := 0x1_0000_0000
  const TICK_NONE: nat := 0xFFFF_FFFF
  const TIMEOUT_INFINITE: nat := 0xFFFF_FFFF

  function Wrap(n: nat): nat { n % TICK_MODULUS }

  datatype Status =
    | Ok | InvalidArg | InvalidId | InvalidState | PoolFull | QueueFull | QueueEmpty
    | Overflow | PartitionHalted | Pending | NotFound | TimedOut

  datatype ProcState = Unused | Ready | Running | Blocked | Suspended

  // A queuing port or an intra-partition buffer.
  datatype ChannelId = Port(port: nat) | Buffer(buffer: nat)

  // A pointer to one of the wait lists embedded in the kernel objects.
  datatype ListId =
    | NoList | OnMutex(mutex: nat) | OnSemaphore(sem: nat) | OnReceive(ch: ChannelId) | OnSend(ch: ChannelId)

  datatype Op =
    | NoOp
    | LockOp(mutex: nat)
    | WaitOp(sem: nat)
    | SendOp(ch: ChannelId, message: Message)
    | ReceiveOp(ch: ChannelId, size: nat)

  datatype Pcb = Pcb(
    partition: nat,
    priority: nat,
    base: nat,
    state: ProcState,
    wakeTick: nat,
    waitlist: ListId,
    op: Op,
    result: Status,
    resultPending: bool,
    period: nat,
    capacity: nat,
    release: nat,
    deadline: nat,
    periodicWaiting: bool,
    timedWaiting: bool,
    misses: nat)

  // One ready queue: the processes of one partition at one priority.
  datatype Slot = Slot(partition: nat, priority: nat)

  datatype Mutex = Mutex(inUse: bool, partition: nat, owner: Option<Pid>)
  datatype Semaphore = Semaphore(inUse: bool, partition: nat, count: nat, max: nat)
  datatype Discipline = Fifo | ByPriority

  // What was copied to which process's receive buffer.
  datatype Delivery = Delivery(to: Pid, message: Message)

  // `delivered` records the copies made into receivers' memory, in order.
  datatype Channel = Channel(
    inUse: bool,
    senders: set<nat>,
    receivers: set<nat>,
    discipline: Discipline,
    messageSize: nat,
    capacity: nat,
    ring: seq<Message>,
    delivered: seq<Delivery>)

  datatype Kernel = Kernel(
    procs: seq<Pcb>,
    ready: map<Slot, seq<Pid>>,
    current: seq<Option<Pid>>,
    halted: seq<bool>,
    lists: map<ListId, seq<Pid>>,
    mutexes: seq<Mutex>,
    sems: seq<Semaphore>,
    channels: map<ChannelId, Channel>,
    tick: nat,
    nextDue: nat,
    pending: set<Pid>)

  // A status and the state left behind; `Sel` also names the process selected to run.
  datatype Out = Out(st: Status, k: Kernel)
  datatype Sel = Sel(st: Status, k: Kernel, next: Option<Pid>)

  // ---------------------------------------------------------------- lookups

  predicate IsProc(k: Kernel, id: Pid) {
    id < |k.procs| && k.procs[id].state != Unused
  }

  function Queue(k: Kernel, s: Slot): seq<Pid> {
    if s in k.ready then k.ready[s] else []
  }

  function WithQueue(k: Kernel, s: Slot, q: seq<Pid>): Kernel {
    k.(ready := k.ready[s := q])
  }

  function Waiters(k: Kernel, h: ListId): seq<Pid> {
    if h in k.lists then k.lists[h] else []
  }

  function WithWaiters(k: Kernel, h: ListId, l: seq<Pid>): Kernel {
    k.(lists := k.lists[h := l])
  }

  function WithProc(k: Kernel, id: Pid, c: Pcb): Kernel
    requires id < |k.procs|
  {
    k.(procs := k.procs[id := c])
  }

  function SetState(k: Kernel, id: Pid, s: ProcState): Out {
    if IsProc(k, id) then Out(Ok, WithProc(k, id, k.procs[id].(state := s))) else Out(InvalidId, k)
  }

  /** The list without the first occurrence of x. */
  function Remove(s: seq<Pid>, x: Pid): seq<Pid> {
    if s == [] then []
    else if s[0] == x then s[1..]
    else [s[0]] + Remove(s[1..], x)
  }

  lemma {:induction false} RemoveAbsent(s: seq<Pid>, x: Pid)
    requires x !in s
    ensures Remove(s, x) == s
  {
    if s != [] { RemoveAbsent(s[1..], x); }
  }

  // ---------------------------------------------------------------- ready queues

  function Enqueue(k: Kernel, s: Slot, id: Pid): Out {
    if s.priority > MAX_PRIORITY then Out(InvalidArg, k)
    else if |Queue(k, s)| >= MAX_READY_PER_PRIORITY then Out(QueueFull, k)
    else Out(Ok, WithQueue(k, s, Queue(k, s) + [id]))
  }

  function EnqueueFront(k: Kernel, s: Slot, id: Pid): Out {
    if s.priority > MAX_PRIORITY then Out(InvalidArg, k)
    else if |Queue(k, s)| >= MAX_READY_PER_PRIORITY then Out(QueueFull, k)
    else Out(Ok, WithQueue(k, s, [id] + Queue(k, s)))
  }

  function AddProcess(k: Kernel, p: nat, id: Pid): Out {
    if !IsProc(k, id) then Out(InvalidId, k)
    else if k.procs[id].state != Ready then Out(InvalidState, k)
    else Enqueue(k, Slot(p, k.procs[id].priority), id)
  }

  function RemoveProcess(k: Kernel, p: nat, id: Pid): Out {
    if !IsProc(k, id) then Out(InvalidId, k)
    else if k.procs[id].state != Ready then Out(InvalidState, k)
    else
      var s := Slot(p, k.procs[id].priority);
      if id in Queue(k, s) then Out(Ok, WithQueue(k, s, Remove(Queue(k, s), id))) else Out(NotFound, k)
  }

  /** The most urgent non-empty level of partition p at or below q; MAX_PRIORITY + 1 if none. */
  function BestFrom(k: Kernel, p: nat, q: nat): (r: nat)
    requires q <= MAX_PRIORITY + 1
    ensures q <= r <= MAX_PRIORITY + 1
    ensures forall x :: q <= x < r ==> Queue(k, Slot(p, x)) == []
    ensures r <= MAX_PRIORITY ==> Queue(k, Slot(p, r)) != []
    decreases MAX_PRIORITY + 1 - q
  {
    if q > MAX_PRIORITY || Queue(k, Slot(p, q)) != [] then q else BestFrom(k, p, q + 1)
  }

  function Best(k: Kernel, p: nat): nat { BestFrom(k, p, 0) }

  // ---------------------------------------------------------------- dispatch

  predicate TakesOver(next: nat, current: nat, giveWay: bool) {
    if giveWay then next <= current else next < current
  }

  /** Swap the running process for the one at the head of the best queue, if it may take over. */
  function DispatchSelect(k: Kernel, p: nat, current: Option<Pid>, giveWay: bool): Sel {
    if current.Some? && !IsProc(k, current.value) then Sel(InvalidId, k, None)
    else if current.Some? && k.procs[current.value].state != Running then Sel(InvalidState, k, None)
    else if Best(k, p) > MAX_PRIORITY then
      if current.Some? then Sel(Ok, k, current) else Sel(QueueEmpty, k, None)
    else
      var level := Best(k, p);
      var s := Slot(p, level);
      var next := Queue(k, s)[0];
      if !IsProc(k, next) then Sel(InvalidId, k, None)
      else if k.procs[next].state != Ready then Sel(InvalidState, k, None)
      else if current.Some? && !TakesOver(level, k.procs[current.value].priority, giveWay) then Sel(Ok, k, current)
      else
        var popped := WithQueue(k, s, Queue(k, s)[1..]);
        if current.None? then
          Sel(Ok, WithProc(popped, next, popped.procs[next].(state := Running)), Some(next))
        else
          var id := current.value;
          var out := WithProc(popped, id, popped.procs[id].(state := Ready));
          var back := Slot(p, out.procs[id].priority);
          var e := if giveWay then Enqueue(out, back, id) else EnqueueFront(out, back, id);
          if e.st != Ok then
            Sel(e.st, EnqueueFront(WithProc(out, id, out.procs[id].(state := Running)), s, next).k, None)
          else
            Sel(Ok, WithProc(e.k, next, e.k.procs[next].(state := Running)), Some(next))
  }

  function KernelBlockAndDispatch(k: Kernel, p: nat, id: Pid): Sel {
    if !IsProc(k, id) then Sel(InvalidId, k, None)
    else if k.procs[id].state != Running then Sel(InvalidState, k, None)
    else if Best(k, p) > MAX_PRIORITY then Sel(QueueEmpty, k, None)
    else
      var s := Slot(p, Best(k, p));
      var next := Queue(k, s)[0];
      if !IsProc(k, next) then Sel(InvalidId, k, None)
      else if k.procs[next].state != Ready then Sel(InvalidState, k, None)
      else
        var popped := WithQueue(k, s, Queue(k, s)[1..]);
        var blocked := WithProc(popped, id, popped.procs[id].(state := Blocked));
        Sel(Ok, WithProc(blocked, next, blocked.procs[next].(state := Running)), Some(next))
  }

  // ---------------------------------------------------------------- partitions

  function WithCurrent(k: Kernel, p: nat, id: Option<Pid>): Kernel
    requires p < |k.current|
  {
    k.(current := k.current[p := id])
  }

  function PartitionSelect(k: Kernel, p: nat, giveWay: bool): Sel {
    if p >= |k.current| || p >= |k.halted| then Sel(InvalidArg, k, None)
    else if k.halted[p] then Sel(PartitionHalted, k, None)
    else
      var r := DispatchSelect(k, p, k.current[p], giveWay);
      if r.st == Ok && p < |r.k.current| then Sel(Ok, WithCurrent(r.k, p, r.next), r.next) else r
  }

  function PartitionBlockAndDispatch(k: Kernel, p: nat, id: Pid): Sel {
    if p >= |k.current| || p >= |k.halted| then Sel(InvalidArg, k, None)
    else if k.halted[p] then Sel(PartitionHalted, k, None)
    else
      var r := KernelBlockAndDispatch(k, p, id);
      if r.st == Ok && p < |r.k.current| then Sel(Ok, WithCurrent(r.k, p, r.next), r.next) else r
  }

  /** partition_add_process: queue a READY process in its own partition. */
  function PartitionAddProcess(k: Kernel, id: Pid): Out {
    if !IsProc(k, id) then Out(InvalidId, k)
    else if k.procs[id].partition >= |k.current| then Out(InvalidArg, k)
    else AddProcess(k, k.procs[id].partition, id)
  }

  function ReadyProcess(k: Kernel, p: nat, id: Pid): Out {
    if p >= |k.current| then Out(InvalidArg, k)
    else
      var r := SetState(k, id, Ready);
      if r.st != Ok then r else AddProcess(r.k, p, id)
  }

  /** Change the effective priority; a queued process moves to the tail of its new level. */
  function SetPriority(k: Kernel, id: Pid, priority: nat): Out {
    if priority > MAX_PRIORITY then Out(InvalidArg, k)
    else if !IsProc(k, id) then Out(InvalidId, k)
    else if k.procs[id].partition >= |k.current| then Out(InvalidArg, k)
    else
      var p := k.procs[id].partition;
      var before := k.procs[id].priority;
      var r := RemoveProcess(k, p, id);
      var changed := WithProc(r.k, id, r.k.procs[id].(priority := priority));
      if r.st != Ok then Out(Ok, changed)
      else
        var a := AddProcess(changed, p, id);
        if a.st == Ok then a
        else Out(a.st, AddProcess(WithProc(a.k, id, a.k.procs[id].(priority := before)), p, id).k)
  }

  // ---------------------------------------------------------------- timing basics

  function NoteDue(k: Kernel, tick: nat): Kernel {
    if tick != TICK_NONE && tick < k.nextDue then k.(nextDue := tick) else k
  }

  function TickAfter(k: Kernel, timeout: nat): (Status, nat) {
    if timeout == TIMEOUT_INFINITE then (Ok, TICK_NONE)
    else if timeout >= TICK_NONE - k.tick then (Overflow, TICK_NONE)
    else (Ok, k.tick + timeout)
  }

  // ---------------------------------------------------------------- blocking and waking

  function PushWaiter(k: Kernel, h: ListId, id: Pid): Out {
    if |Waiters(k, h)| >= WAITLIST_MAX then Out(PoolFull, k)
    else Out(Ok, WithWaiters(k, h, Waiters(k, h) + [id]))
  }

  function BlockCurrent(k: Kernel, id: Pid, h: ListId, wake: nat, op: Op): Sel {
    if !IsProc(k, id) then Sel(InvalidId, k, None)
    else if k.procs[id].state != Running then Sel(InvalidState, k, None)
    else
      var saved := WithProc(k, id, k.procs[id].(op := op));
      var pushed := PushWaiter(saved, h, id);
      if pushed.st != Ok then Sel(pushed.st, pushed.k, None)
      else
        var waiting := NoteDue(WithProc(pushed.k, id, pushed.k.procs[id].(waitlist := h, wakeTick := wake)), wake);
        var r := PartitionBlockAndDispatch(waiting, waiting.procs[id].partition, id);
        if r.st == Ok then r
        else
          Sel(r.st, Withdraw(waiting, h, id), None)
  }

  /** Undo a wait that could not start. */
  function Withdraw(k: Kernel, h: ListId, id: Pid): Kernel
    requires id < |k.procs|
  {
    WithWaiters(WithProc(k, id, k.procs[id].(waitlist := NoList, wakeTick := TICK_NONE, op := NoOp)), h,
      Remove(Waiters(k, h), id))
  }

  // A waiter taken off its list, and the operation it was blocked in.
  datatype Taken = Taken(st: Status, k: Kernel, id: Pid, op: Op)

  function ClearBlocked(k: Kernel, id: Pid): Kernel
    requires id < |k.procs|
  {
    WithProc(k, id, k.procs[id].(op := NoOp, waitlist := NoList, wakeTick := TICK_NONE))
  }

  /** ipc_wake_one: the longest waiting process. */
  function WakeOne(k: Kernel, h: ListId): Taken {
    if Waiters(k, h) == [] then Taken(QueueEmpty, k, 0, NoOp)
    else
      var id := Waiters(k, h)[0];
      var popped := WithWaiters(k, h, Waiters(k, h)[1..]);
      if !IsProc(popped, id) then Taken(InvalidId, popped, id, NoOp)
      else Taken(Ok, ClearBlocked(popped, id), id, popped.procs[id].op)
  }

  /** ipc_timeout_current: take one given process off a wait list. */
  function TakeWaiter(k: Kernel, h: ListId, id: Pid): Taken {
    if id !in Waiters(k, h) then Taken(NotFound, k, id, NoOp)
    else
      var removed := WithWaiters(k, h, Remove(Waiters(k, h), id));
      if !IsProc(removed, id) then Taken(InvalidId, removed, id, NoOp)
      else Taken(Ok, ClearBlocked(removed, id), id, removed.procs[id].op)
  }

  /** The most urgent of the first n waiters; the longest waiting among equals. */
  function BestWaiter(k: Kernel, l: seq<Pid>, n: nat): Option<Pid>
    requires n <= |l|
  {
    if n == 0 then None
    else
      var b := BestWaiter(k, l, n - 1);
      if IsProc(k, l[n - 1]) && (b.None?
        || (b.value < |k.procs| && k.procs[l[n - 1]].priority < k.procs[b.value].priority))
      then Some(l[n - 1]) else b
  }

  function TakeBest(k: Kernel, h: ListId): Taken {
    var b := BestWaiter(k, Waiters(k, h), |Waiters(k, h)|);
    if b.None? then Taken(QueueEmpty, k, 0, NoOp) else TakeWaiter(k, h, b.value)
  }

  /** Make a blocked process READY in its own partition and record its result. */
  function Resolve(k: Kernel, id: Pid, result: Status): Out {
    if !IsProc(k, id) then Out(InvalidId, k)
    else if k.procs[id].state != Blocked then Out(InvalidState, k)
    else
      var r := ReadyProcess(k, k.procs[id].partition, id);
      if r.st == Ok && id < |r.k.procs| then
        Out(Ok, WithProc(r.k, id, r.k.procs[id].(result := result, resultPending := true)))
      else r
  }

}

/** What every kernel service does to the state: mutexes, semaphores, channels (queuing
    ports and buffers), timing, ticks and fault recovery, each with its error branches. */
module KernelCalls {
  import opened Wrappers
  import opened KernelState
  import Frame
  import opened Inheritance

  // ---------------------------------------------------------------- mutexes

  function MutexOwner(k: Kernel, m: nat): Option<Pid> {
    if m < |k.mutexes| && k.mutexes[m].inUse then k.mutexes[m].owner else None
  }

  function WithOwner(k: Kernel, m: nat, o: Option<Pid>): Kernel
    requires m < |k.mutexes|
  {
    k.(mutexes := k.mutexes[m := k.mutexes[m].(owner := o)])
  }

  /** The least of acc and the priorities of the first n processes of l. */
  function LeastOf(k: Kernel, l: seq<Pid>, n: nat, acc: nat): nat
    requires n <= |l|
  {
    if n == 0 then acc
    else
      var w := LeastOf(k, l, n - 1, acc);
      if IsProc(k, l[n - 1]) && k.procs[l[n - 1]].priority < w then k.procs[l[n - 1]].priority else w
  }

  /** ... and of all waiters of the first m mutexes that id owns. */
  function LeastOwned(k: Kernel, id: Pid, m: nat, acc: nat): nat
    requires m <= |k.mutexes|
  {
    if m == 0 then acc
    else
      var w := LeastOwned(k, id, m - 1, acc);
      var l := Waiters(k, OnMutex(m - 1));
      if k.mutexes[m - 1].inUse && k.mutexes[m - 1].owner == Some(id) then LeastOf(k, l, |l|, w) else w
  }

  function WantedPriority(k: Kernel, id: Pid, claim: nat): nat
    requires id < |k.procs|
  {
    LeastOwned(k, id, |k.mutexes|, Min(k.procs[id].base, claim))
  }

  /** The owner of the mutex a process's record says it is blocked on. */
  function NextInChain(k: Kernel, id: Pid): Option<Pid>
    requires id < |k.procs|
  {
    if k.procs[id].state == Blocked && k.procs[id].op.LockOp? then MutexOwner(k, k.procs[id].op.mutex) else None
  }

  function RefreshChain(k: Kernel, cur: Option<Pid>, claim: nat, hops: nat): Out
    decreases hops
  {
    if hops == 0 || cur.None? || !IsProc(k, cur.value) then Out(Ok, k)
    else
      var r := SetPriority(k, cur.value, WantedPriority(k, cur.value, claim));
      if r.st != Ok || cur.value >= |r.k.procs| then r
      else RefreshChain(r.k, NextInChain(r.k, cur.value), NO_CLAIM, hops - 1)
  }

  function Refresh(k: Kernel, cur: Option<Pid>, claim: nat): Out {
    RefreshChain(k, cur, claim, |k.mutexes| + 1)
  }

  /** Give mutex m to its best waiter, if any; the part of a hand-off before the refresh. */
  function PassOn(k: Kernel, m: nat): Out
    requires m < |k.mutexes|
  {
    var t := TakeBest(WithOwner(k, m, None), OnMutex(m));
    if t.st != Ok || m >= |t.k.mutexes| then Out(Ok, t.k)
    else
      var r := Resolve(WithOwner(t.k, m, Some(t.id)), t.id, Ok);
      if r.st == Ok || m >= |r.k.mutexes| then r else Out(r.st, WithOwner(r.k, m, None))
  }

  function HandOff(k: Kernel, m: nat): Out
    requires m < |k.mutexes|
  {
    var p := PassOn(k, m);
    Out(p.st, Refresh(p.k, k.mutexes[m].owner, NO_CLAIM).k)
  }

  function Lock(k: Kernel, m: nat, timeout: nat, id: Pid): Sel {
    if m >= |k.mutexes| || !k.mutexes[m].inUse || !IsProc(k, id)
      || k.mutexes[m].partition != k.procs[id].partition then Sel(InvalidId, k, None)
    else if k.mutexes[m].owner == Some(id) then Sel(InvalidState, k, None)
    else if k.mutexes[m].owner == None then Sel(Ok, WithOwner(k, m, Some(id)), None)
    else if timeout == 0 then Sel(TimedOut, k, None)
    else
      var r := LockWait(k, m, timeout, id);
      if r.st == Pending then r else Sel(r.st, Refresh(r.k, MutexOwner(r.k, m), NO_CLAIM).k, None)
  }

  /** The waiting part of a lock, before anything raised in vain is taken back. */
  function LockWait(k: Kernel, m: nat, timeout: nat, id: Pid): Sel
    requires m < |k.mutexes| && id < |k.procs|
  {
    var (st, wake) := TickAfter(k, timeout);
    if st != Ok then Sel(st, k, None)
    else
      var raised := Refresh(k, k.mutexes[m].owner, k.procs[id].priority);
      if raised.st != Ok then Sel(raised.st, raised.k, None)
      else
        var b := BlockCurrent(raised.k, id, OnMutex(m), wake, LockOp(m));
        Sel(if b.st == Ok then Pending else if b.st == QueueEmpty then TimedOut else b.st, b.k, b.next)
  }

  function Unlock(k: Kernel, m: nat, id: Pid): Out {
    if m >= |k.mutexes| || !k.mutexes[m].inUse || !IsProc(k, id)
      || k.mutexes[m].partition != k.procs[id].partition then Out(InvalidId, k)
    else if k.mutexes[m].owner != Some(id) then Out(InvalidState, k)
    else HandOff(k, m)
  }

  /** Release, in index order from m on, every mutex of `id`. `n` is the pool size. */
  function ReleaseFrom(k: Kernel, id: Pid, m: nat, n: nat): Kernel
    decreases n - m
  {
    if m >= n || m >= |k.mutexes| then k
    else
      var k' := if k.mutexes[m].inUse && k.mutexes[m].owner == Some(id) then HandOff(k, m).k else k;
      ReleaseFrom(k', id, m + 1, n)
  }

  function ReleaseAll(k: Kernel, id: Pid): Kernel { ReleaseFrom(k, id, 0, |k.mutexes|) }

  /** Walk, in index order from m on, from the owner of every mutex. */
  function RefreshFrom(k: Kernel, m: nat, n: nat): Kernel
    decreases n - m
  {
    if m >= n || m >= |k.mutexes| then k
    else
      var k' := if k.mutexes[m].inUse && k.mutexes[m].owner.Some? then Refresh(k, k.mutexes[m].owner, NO_CLAIM).k
        else k;
      RefreshFrom(k', m + 1, n)
  }

  function RefreshPriorities(k: Kernel): Kernel { RefreshFrom(k, 0, |k.mutexes|) }

  // ---------------------------------------------------------------- semaphores

  predicate SemaphoreFor(k: Kernel, s: nat, id: Pid) {
    s < |k.sems| && k.sems[s].inUse && IsProc(k, id) && k.sems[s].partition == k.procs[id].partition
  }

  function WithCount(k: Kernel, s: nat, c: nat): Kernel
    requires s < |k.sems|
  {
    k.(sems := k.sems[s := k.sems[s].(count := c)])
  }

  function SemWait(k: Kernel, s: nat, timeout: nat, id: Pid): Sel {
    if !SemaphoreFor(k, s, id) then Sel(InvalidId, k, None)
    else if k.sems[s].count > 0 then Sel(Ok, WithCount(k, s, k.sems[s].count - 1), None)
    else if timeout == 0 then Sel(TimedOut, k, None)
    else
      var (st, wake) := TickAfter(k, timeout);
      if st != Ok then Sel(st, k, None)
      else
        var b := BlockCurrent(k, id, OnSemaphore(s), wake, WaitOp(s));
        Sel(if b.st == Ok then Pending else if b.st == QueueEmpty then TimedOut else b.st, b.k, b.next)
  }

  function SemSignal(k: Kernel, s: nat, id: Pid): Out {
    if !SemaphoreFor(k, s, id) then Out(InvalidId, k)
    else if Waiters(k, OnSemaphore(s)) == [] then
      if k.sems[s].count >= k.sems[s].max then Out(Overflow, k) else Out(Ok, WithCount(k, s, k.sems[s].count + 1))
    else
      var t := TakeBest(k, OnSemaphore(s));
      if t.st != Ok then Out(t.st, t.k)
      else
        var r := Resolve(t.k, t.id, Ok);
        if r.st != Ok && s < |r.k.sems| then Out(r.st, WithCount(r.k, s, r.k.sems[s].count + 1)) else r
  }

  // ---------------------------------------------------------------- channels

  /** The channel exists and the process's partition is in the set the call needs. */
  predicate ChannelFor(k: Kernel, ch: ChannelId, id: Pid, sending: bool) {
    && ch in k.channels && k.channels[ch].inUse && IsProc(k, id)
    && k.procs[id].partition in (if sending then k.channels[ch].senders else k.channels[ch].receivers)
  }

  function WithChannel(k: Kernel, ch: ChannelId, c: Channel): Kernel {
    k.(channels := k.channels[ch := c])
  }

  function FifoPush(c: Channel, message: Message): (Status, Channel) {
    if |message| != c.messageSize then (InvalidArg, c)
    else if |c.ring| < c.capacity then (Ok, c.(ring := c.ring + [message]))
    else (QueueFull, c)
  }

  function FifoPop(c: Channel, to: Pid, size: nat): (Status, Channel) {
    if size < c.messageSize then (InvalidArg, c)
    else if c.ring == [] then (QueueEmpty, c)
    else (Ok, c.(ring := c.ring[1..], delivered := c.delivered + [Delivery(to, c.ring[0])]))
  }

  function PushInto(k: Kernel, ch: ChannelId, message: Message): Out {
    if ch !in k.channels then Out(InvalidArg, k)
    else
      var (st, c) := FifoPush(k.channels[ch], message);
      if st == Ok then Out(Ok, WithChannel(k, ch, c)) else Out(st, k)
  }

  function HandTo(k: Kernel, ch: ChannelId, to: Pid, message: Message): Kernel {
    if ch !in k.channels then k
    else WithChannel(k, ch, k.channels[ch].(delivered := k.channels[ch].delivered + [Delivery(to, message)]))
  }

  /** Release one waiter per the channel's queuing discipline. */
  function WakeBy(k: Kernel, h: ListId, d: Discipline): Taken {
    if d == ByPriority then TakeBest(k, h) else WakeOne(k, h)
  }

  predicate SameKind(a: ChannelId, b: ChannelId) { a.Port? == b.Port? }

  predicate UsableReceiver(op: Op, ch: ChannelId, size: nat) {
    op.ReceiveOp? && SameKind(op.ch, ch) && op.size >= size
  }

  /** Hand the message to a waiting receiver, or queue it. */
  function SendNow(k: Kernel, ch: ChannelId, message: Message): Out
    requires ch in k.channels
  {
    var t := WakeBy(k, OnReceive(ch), k.channels[ch].discipline);
    if t.st == Ok then
      if UsableReceiver(t.op, ch, |message|) then Resolve(HandTo(t.k, ch, t.id, message), t.id, Ok)
      else PushInto(Resolve(t.k, t.id, InvalidState).k, ch, message)
    else PushInto(t.k, ch, message)
  }

  function Send(k: Kernel, ch: ChannelId, message: Message, timeout: nat, id: Pid): Sel {
    if !ChannelFor(k, ch, id, true) then Sel(InvalidId, k, None)
    else if |message| != k.channels[ch].messageSize then Sel(InvalidArg, k, None)
    else
      var s := SendNow(k, ch, message);
      if s.st != QueueFull || timeout == 0 then Sel(s.st, s.k, None)
      else
        var (st, wake) := TickAfter(s.k, timeout);
        if st != Ok then Sel(st, s.k, None)
        else
          var b := BlockCurrent(s.k, id, OnSend(ch), wake, SendOp(ch, message));
          Sel(if b.st == Ok then Pending else if b.st == QueueEmpty then QueueFull else b.st, b.k, b.next)
  }

  /** A slot just freed: admit one blocked sender. */
  function AdmitSender(k: Kernel, ch: ChannelId): Kernel
    requires ch in k.channels
  {
    var t := WakeBy(k, OnSend(ch), k.channels[ch].discipline);
    if t.st != Ok then t.k
    else if t.op.SendOp? && SameKind(t.op.ch, ch) then
      var p := PushInto(t.k, ch, t.op.message);
      Resolve(p.k, t.id, p.st).k
    else Resolve(t.k, t.id, InvalidState).k
  }

  function Receive(k: Kernel, ch: ChannelId, size: nat, timeout: nat, id: Pid): Sel {
    if !ChannelFor(k, ch, id, false) then Sel(InvalidId, k, None)
    else
      var (st, c) := FifoPop(k.channels[ch], id, size);
      if st == Ok then Sel(Ok, AdmitSender(WithChannel(k, ch, c), ch), None)
      else if st == QueueEmpty && timeout != 0 then
        var (st', wake) := TickAfter(k, timeout);
        if st' != Ok then Sel(st', k, None)
        else
          var b := BlockCurrent(k, id, OnReceive(ch), wake, ReceiveOp(ch, size));
          Sel(if b.st == Ok then Pending else b.st, b.k, b.next)
      else Sel(st, k, None)
  }

  // ---------------------------------------------------------------- timing

  function ArmDeadline(k: Kernel, id: Pid): Kernel
    requires id < |k.procs|
  {
    var c := k.procs[id];
    if c.capacity > 0 then
      var d := Wrap(c.release + c.capacity);
      NoteDue(WithProc(k, id, c.(deadline := d)), d)
    else WithProc(k, id, c.(deadline := TICK_NONE))
  }

  /** A new release begins now. */
  function Rearm(k: Kernel, id: Pid, now: nat): Kernel
    requires id < |k.procs|
  {
    ArmDeadline(WithProc(k, id, k.procs[id].(periodicWaiting := false, timedWaiting := false, release := now)), id)
  }

  /** Block the caller for a timed wait, idling the partition if nobody else is READY. */
  function BlockTimed(k: Kernel, id: Pid): Sel
    requires id < |k.procs|
  {
    var p := k.procs[id].partition;
    var r := PartitionBlockAndDispatch(k, p, id);
    if r.st == QueueEmpty && p < |r.k.current| then
      var s := SetState(r.k, id, Blocked);
      Sel(s.st, WithCurrent(s.k, p, None), None)
    else r
  }

  function PeriodicWait(k: Kernel, id: Pid): Sel {
    if !IsProc(k, id) then Sel(InvalidId, k, None)
    else if k.procs[id].state != Running || k.procs[id].period == 0 then Sel(InvalidState, k, None)
    else
      var next := Wrap(k.procs[id].release + k.procs[id].period);
      var met := WithProc(k, id, k.procs[id].(deadline := TICK_NONE));
      if k.tick >= next then
        Sel(Ok, ArmDeadline(WithProc(met, id, met.procs[id].(release := next)), id), None)
      else
        var b := BlockTimed(met, id);
        if b.st == Ok && id < |b.k.procs| then
          Sel(Pending, NoteDue(WithProc(b.k, id, b.k.procs[id].(periodicWaiting := true, wakeTick := next)), next),
            b.next)
        else if id < |b.k.procs| then Sel(b.st, ArmDeadline(b.k, id), None)
        else b
  }

  function TimedWait(k: Kernel, id: Pid, delay: nat): Sel {
    if delay == TIMEOUT_INFINITE then Sel(InvalidArg, k, None)
    else if !IsProc(k, id) then Sel(InvalidId, k, None)
    else if k.procs[id].state != Running then Sel(InvalidState, k, None)
    else if delay == 0 then Sel(Ok, k, None)
    else
      var (st, wake) := TickAfter(k, delay);
      if st != Ok then Sel(st, k, None)
      else
        var b := BlockTimed(k, id);
        if b.st == Ok && id < |b.k.procs| then
          Sel(Pending, NoteDue(WithProc(b.k, id, b.k.procs[id].(timedWaiting := true, wakeTick := wake)), wake), b.next)
        else b
  }

  predicate Expired(k: Kernel, i: Pid, now: nat) {
    && IsProc(k, i) && k.procs[i].state == Blocked && k.procs[i].waitlist != NoList
    && k.procs[i].wakeTick != TICK_NONE && now >= k.procs[i].wakeTick
  }

  // The state after a scan, and whether a mutex waiter gave up in it.
  datatype Scan = Scan(k: Kernel, mutexWaiterLeft: bool)

  function ExpireOne(k: Kernel, i: Pid, now: nat): Scan {
    if !Expired(k, i, now) then Scan(k, false)
    else
      var t := TakeWaiter(k, k.procs[i].waitlist, i);
      if t.st != Ok then Scan(t.k, false)
      else
        var r := Resolve(t.k, i, TimedOut);
        Scan(r.k, r.st == Ok && t.op.LockOp?)
  }

  /** Resume, in id order from i on, the processes whose IPC wait has expired. */
  function ExpireFrom(k: Kernel, now: nat, i: Pid, n: nat): Scan
    decreases n - i
  {
    if i >= n then Scan(k, false)
    else
      var one := ExpireOne(k, i, now);
      var rest := ExpireFrom(one.k, now, i + 1, n);
      Scan(rest.k, one.mutexWaiterLeft || rest.mutexWaiterLeft)
  }

  function ExpireTimeouts(k: Kernel, now: nat): Kernel {
    var s := ExpireFrom(k, now, 0, |k.procs|);
    if s.mutexWaiterLeft then RefreshPriorities(s.k) else s.k
  }

  function ReleaseOne(k: Kernel, i: Pid, now: nat): Kernel {
    if IsProc(k, i) && k.procs[i].state == Blocked && k.procs[i].periodicWaiting && now >= k.procs[i].wakeTick then
      var c := k.procs[i];
      Resolve(ArmDeadline(WithProc(k, i, c.(release := c.wakeTick, wakeTick := TICK_NONE, periodicWaiting := false)),
        i), i, Ok).k
    else if IsProc(k, i) && k.procs[i].state == Blocked && k.procs[i].timedWaiting && now >= k.procs[i].wakeTick then
      Resolve(WithProc(k, i, k.procs[i].(wakeTick := TICK_NONE, timedWaiting := false)), i, Ok).k
    else k
  }

  function ReleasePeriodic(k: Kernel, now: nat, i: Pid, n: nat): Kernel
    decreases n - i
  {
    if i >= n then k else ReleasePeriodic(ReleaseOne(k, i, now), now, i + 1, n)
  }

  predicate Missed(k: Kernel, i: Pid, now: nat) {
    && IsProc(k, i) && k.procs[i].state != Suspended
    && k.procs[i].deadline != TICK_NONE && now >= k.procs[i].deadline
    && k.procs[i].partition < |k.halted| && !k.halted[k.procs[i].partition]
  }

  function CheckOne(k: Kernel, i: Pid, now: nat): Kernel {
    if Missed(k, i, now) then
      WithProc(k, i, k.procs[i].(deadline := TICK_NONE, misses := Wrap(k.procs[i].misses + 1))).(pending := k.pending
        + {i})
    else k
  }

  function CheckDeadlines(k: Kernel, now: nat, i: Pid, n: nat): Kernel
    decreases n - i
  {
    if i >= n then k else CheckDeadlines(CheckOne(k, i, now), now, i + 1, n)
  }

  /** The earliest wake-up or deadline of the first n processes. */
  function Earliest(k: Kernel, n: nat): (e: nat)
    requires n <= |k.procs|
  {
    if n == 0 then TICK_NONE
    else
      var e := Earliest(k, n - 1);
      var c := k.procs[n - 1];
      if c.state == Unused then e else Min(c.deadline, Min(c.wakeTick, e))
  }

  function RefreshDue(k: Kernel): Kernel { k.(nextDue := Earliest(k, |k.procs|)) }

  // ---------------------------------------------------------------- the tick

  /** The three scans a tick makes when something may be due. */
  function Scans(k: Kernel): Kernel {
    var expired := ExpireTimeouts(k, k.tick);
    var released := ReleasePeriodic(expired, k.tick, 0, |expired.procs|);
    CheckDeadlines(released, k.tick, 0, |released.procs|)
  }

  function OnTick(k: Kernel, sched: Frame.Schedule): Sel {
    var slot := Frame.PartitionAt(sched, k.tick);
    var t := k.(tick := Wrap(k.tick + 1));
    var s := if t.tick >= t.nextDue then RefreshDue(Scans(t)) else t;
    if slot.None? then Sel(InvalidArg, s, None) else PartitionSelect(s, slot.value, false)
  }

  // ---------------------------------------------------------------- fault recovery

  datatype Action = Ignore | RestartProcess | HaltPartition

  function Restart(k: Kernel, id: Pid): Out {
    var freed := ReleaseAll(k, id);
    if !IsProc(freed, id) then Out(InvalidId, freed)
    else
      var r := Requeue(freed, id);
      if r.st == Ok && id < |r.k.procs| then Out(Ok, Rearm(r.k, id, r.k.tick)) else r
  }

  /** Make a process that owns nothing runnable again, whatever it was doing. */
  function Requeue(k: Kernel, id: Pid): Out
    requires IsProc(k, id)
  {
    var c := k.procs[id];
    if c.state == Running then
      var a := PartitionAddProcess(SetState(k, id, Ready).k, id);
      if a.st == Ok && c.partition < |a.k.current| then Out(Ok, WithCurrent(a.k, c.partition, None)) else a
    else if c.state == Blocked then
      var left := if c.waitlist != NoList then WithWaiters(k, c.waitlist, Remove(Waiters(k, c.waitlist), id)) else k;
      var lowered := RefreshPriorities(left);
      if id >= |lowered.procs| then Out(InvalidId, lowered)
      else
        var cleared := WithProc(lowered, id,
          lowered.procs[id].(waitlist := NoList, wakeTick := TICK_NONE, op := NoOp, resultPending := false));
        var s := SetState(cleared, id, Ready);
        if s.st != Ok then s else PartitionAddProcess(s.k, id)
    else Out(Ok, k)
  }

  function HandleFault(k: Kernel, id: Pid, action: Action): Out {
    if !IsProc(k, id) then Out(InvalidId, k)
    else
      match action
      case Ignore => Out(Ok, k)
      case RestartProcess => Restart(k, id)
      case HaltPartition =>
        if k.procs[id].partition < |k.halted| then Out(Ok, k.(halted := k.halted[k.procs[id].partition := true]))
          else Out(InvalidArg, k)
  }

  /** Fault dispatch: a restarted process that was on the CPU gives way to its peers. */
  function EnactFault(k: Kernel, id: Pid, action: Action, onCpu: bool): Out {
    var h := HandleFault(k, id, action);
    if h.st == Ok && action == RestartProcess && onCpu && id < |h.k.procs| then
      var y := PartitionSelect(h.k, h.k.procs[id].partition, true);
      Out(y.st, y.k)
    else h
  }

  /** Act, in id order from i on, on the misses recorded by earlier ticks. `cpu` is the
      process on the CPU, until a restart discards its context. */
  function DrainFrom(k: Kernel, policy: seq<Action>, cpu: Option<Pid>, i: Pid, n: nat): Kernel
    decreases n - i
  {
    if i >= n then k
    else if i !in k.pending then DrainFrom(k, policy, cpu, i + 1, n)
    else
      var taken := k.(pending := k.pending - {i});
      if !IsProc(taken, i) || taken.procs[i].partition >= |policy| then DrainFrom(taken, policy, cpu, i + 1, n)
      else
        var action := policy[taken.procs[i].partition];
        var e := EnactFault(taken, i, action, cpu == Some(i));
        DrainFrom(e.k, policy, if action == RestartProcess && cpu == Some(i) then None else cpu, i + 1, n)
  }

  /** The tick interrupt: misses first, so that the dispatch sees the recovered state. */
  function Systick(k: Kernel, sched: Frame.Schedule, policy: seq<Action>, cpu: Option<Pid>): Sel {
    OnTick(DrainFrom(k, policy, cpu, 0, |k.procs|), sched)
  }

  // ---------------------------------------------------------------- system calls

  datatype Call =
    | LockCall(mutex: nat, timeout: nat)
    | UnlockCall(mutex: nat)
    | WaitCall(sem: nat, timeout: nat)
    | SignalCall(sem: nat)
    | SendCall(ch: ChannelId, message: Message, timeout: nat)
    | ReceiveCall(ch: ChannelId, size: nat, timeout: nat)
    | TimedWaitCall(delay: nat)
    | PeriodicWaitCall
    | YieldCall

  function Yield(k: Kernel, id: Pid): Sel {
    if IsProc(k, id) then PartitionSelect(k, k.procs[id].partition, true) else Sel(InvalidId, k, None)
  }

  function FromOut(o: Out): Sel { Sel(o.st, o.k, None) }

  function Serve(k: Kernel, id: Pid, call: Call): Sel {
    match call
    case LockCall(m, timeout) => Lock(k, m, timeout, id)
    case UnlockCall(m) => FromOut(Unlock(k, m, id))
    case WaitCall(s, timeout) => SemWait(k, s, timeout, id)
    case SignalCall(s) => FromOut(SemSignal(k, s, id))
    case SendCall(ch, message, timeout) => Send(k, ch, message, timeout, id)
    case ReceiveCall(ch, size, timeout) => Receive(k, ch, size, timeout, id)
    case TimedWaitCall(delay) =>
      var w := TimedWait(k, id, delay);
      if w.st == Ok && delay == 0 then Sel(Ok, Yield(w.k, id).k, None) else w
    case PeriodicWaitCall => PeriodicWait(k, id)
    case YieldCall => Yield(k, id)
  }

  predicate HasHigher(k: Kernel, p: nat, priority: nat) { Best(k, p) <= MAX_PRIORITY && Best(k, p) < priority }

  /** After a call: a caller that is still running is preempted at once by a more urgent
      process of its partition that the call made READY. */
  function PreemptCheck(k: Kernel, id: Pid): Kernel {
    if IsProc(k, id) && k.procs[id].state == Running && k.procs[id].partition < |k.current|
       && HasHigher(k, k.procs[id].partition, k.procs[id].priority)
    then PartitionSelect(k, k.procs[id].partition, false).k
    else k
  }

  /** One system call through the gate. */
  function Gate(k: Kernel, id: Pid, call: Call): Sel {
    var r := Serve(k, id, call);
    if call.YieldCall? then r else r.(k := PreemptCheck(r.k, id))
  }
}

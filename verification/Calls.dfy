/** What each system call does when it is made through the gate, all of it in one place. */
module Calls {
  import opened Wrappers
  import opened KernelState
  import opened Order
  import opened Placement
  import opened KernelCalls
  import opened Invariants
  import opened Blocking
  import opened Arrivals
  import opened Mutexes
  import opened Semaphores
  import opened Channels
  import opened Timing
  import opened Outcomes
  import opened Gates

  /** The record of a process whose wait of d ticks starts. */
  function Dozing(c: Pcb, wake: nat): Pcb { c.(state := Blocked, timedWaiting := true, wakeTick := wake) }

  /** ... and that of one that waits for its next release, its deadline met. */
  function Resting(c: Pcb): Pcb {
    c.(state := Blocked, periodicWaiting := true, wakeTick := NextRelease(c), deadline := TICK_NONE)
  }

  /** A lock: taken, refused for a reason the status names, or waited for. */
  ghost predicate LockDone(k: Kernel, r: Sel, m: nat, timeout: nat, id: Pid)
    requires id < |k.procs|
  {
    && (r.st == InvalidId <==> !MutexFor(k, m, id))
    && (r.st == InvalidState <==> MutexFor(k, m, id) && k.mutexes[m].owner == Some(id))
    && (r.st == Ok <==> MutexFor(k, m, id) && k.mutexes[m].owner.None?)
    && (r.st == Ok ==> r.k == k.(mutexes := k.mutexes[m := k.mutexes[m].(owner := Some(id))]))
    && (MutexFor(k, m, id) && k.mutexes[m].owner.Some? && k.mutexes[m].owner != Some(id) ==>
          Answers(k, OnMutex(m), timeout, k.procs[id].partition, TimedOut, r.st))
    && (r.st == Pending ==> NowWaiting(k, r, m, timeout, id) && WaitsBehind(k, r, m, timeout, id))
    && (r.st !in {Ok, Pending} ==>
          if WalksChain(k, m, timeout, id) then
            Untouched(k, r.k) && Moved(k, r.k, ChainEnd(k, MutexOwner(k, m)))
          else r.k == k)
  }

  /** An unlock: by the owner, or refused without a trace. */
  ghost predicate UnlockDone(k: Kernel, r: Sel, m: nat, id: Pid) {
    && (r.st == Ok <==> MutexFor(k, m, id) && k.mutexes[m].owner == Some(id))
    && (r.st != Ok ==> r.k == k && r.st == if MutexFor(k, m, id) then InvalidState else InvalidId)
    && (r.st == Ok ==> Released(k, r.k, id, m, m + 1) && Moved(k, r.k, NewOwner(r.k, m)))
  }

  /** A wait for a unit: taken, refused, or waited for. */
  ghost predicate WaitDone(k: Kernel, r: Sel, s: nat, timeout: nat, id: Pid)
    requires id < |k.procs|
  {
    && (r.st == InvalidId <==> !SemaphoreFor(k, s, id))
    && (r.st == Ok <==> SemaphoreFor(k, s, id) && k.sems[s].count > 0)
    && (r.st == Ok ==> r.k == k.(sems := k.sems[s := k.sems[s].(count := k.sems[s].count - 1)]))
    && (SemaphoreFor(k, s, id) && k.sems[s].count == 0 ==>
          Answers(k, OnSemaphore(s), timeout, k.procs[id].partition, TimedOut, r.st))
    && (r.st == Pending ==> StartedWait(k, r, id, OnSemaphore(s), TickAfter(k, timeout).1, WaitOp(s)))
    && (r.st !in {Ok, Pending} ==> TouchedBy(k, r.k, id, WaitOp(s)))
  }

  /** A signal: a unit more, or the most urgent waiter has it. */
  ghost predicate SignalDone(k: Kernel, r: Sel, s: nat, id: Pid) {
    && r.st in {Ok, InvalidId, Overflow} && (r.st != Ok ==> r.k == k)
    && (r.st == InvalidId <==> !SemaphoreFor(k, s, id))
    && (r.st == Overflow <==>
          SemaphoreFor(k, s, id) && Waiters(k, OnSemaphore(s)) == [] && k.sems[s].count == k.sems[s].max)
    && (r.st == Ok ==>
          if Waiters(k, OnSemaphore(s)) == [] then
            r.k == k.(sems := k.sems[s := k.sems[s].(count := k.sems[s].count + 1)])
          else
            && r.k.sems == k.sems && r.k.mutexes == k.mutexes && r.k.channels == k.channels
            && exists n :: MostUrgent(k, Waiters(k, OnSemaphore(s)), n) && Granted(k, r.k, OnSemaphore(s), n, Ok))
  }

  ghost predicate SendDone(k: Kernel, r: Sel, ch: ChannelId, message: Message, timeout: nat, id: Pid)
    requires id < |k.procs|
  {
    && (r.st == InvalidId <==> !ChannelFor(k, ch, id, true))
    && (r.st == InvalidArg <==> ChannelFor(k, ch, id, true) && |message| != k.channels[ch].messageSize)
    && (ChannelFor(k, ch, id, true) && |message| == k.channels[ch].messageSize ==>
          if |k.channels[ch].ring| < k.channels[ch].capacity then r.st == Ok
          else Answers(k, OnSend(ch), timeout, k.procs[id].partition, QueueFull, r.st))
    && (r.st == Ok ==> ch in k.channels && SentNow(k, r.k, ch, message))
    && (r.st == Pending ==> StartedWait(k, r, id, OnSend(ch), TickAfter(k, timeout).1, SendOp(ch, message)))
    && (r.st !in {Ok, Pending} ==> TouchedBy(k, r.k, id, SendOp(ch, message)))
  }

  ghost predicate ReceiveDone(k: Kernel, r: Sel, ch: ChannelId, size: nat, timeout: nat, id: Pid)
    requires id < |k.procs|
  {
    && (r.st == InvalidId <==> !ChannelFor(k, ch, id, false))
    && (r.st == InvalidArg <==> ChannelFor(k, ch, id, false) && size < k.channels[ch].messageSize)
    && (ChannelFor(k, ch, id, false) && size >= k.channels[ch].messageSize ==>
          if k.channels[ch].ring != [] then r.st == Ok
          else Answers(k, OnReceive(ch), timeout, k.procs[id].partition, QueueEmpty, r.st))
    && (r.st == Ok ==> ch in k.channels && Received(k, r.k, ch, id))
    && (r.st == Pending ==> StartedWait(k, r, id, OnReceive(ch), TickAfter(k, timeout).1, ReceiveOp(ch, size)))
    && (r.st !in {Ok, Pending} ==> TouchedBy(k, r.k, id, ReceiveOp(ch, size)))
  }

  /** A timed wait: a turn given away, a sleep that starts, or refused without a trace. */
  ghost predicate TimedDone(k: Kernel, r: Sel, delay: nat, id: Pid)
    requires id < |k.procs|
  {
    && (r.st == InvalidArg <==> delay == TIMEOUT_INFINITE)
    && (r.st == Ok <==> delay == 0)
    && (r.st == Overflow <==> delay != TIMEOUT_INFINITE && delay != 0 && k.tick + delay >= TICK_NONE)
    && r.st in {InvalidArg, Ok, Overflow, Pending}
    && (r.st in {InvalidArg, Overflow} ==> r.k == k)
    && (r.st == Ok ==> Selected(k, r.k, k.procs[id].partition, true))
    && (r.st == Pending ==>
          && Asleep(k, r, id, Dozing(k.procs[id], k.tick + delay))
          && r.k.nextDue == Sooner(k.nextDue, k.tick + delay))
  }

  /** A periodic wait: a rest until the next release, or the release advanced if it is due already. */
  ghost predicate PeriodicDone(k: Kernel, r: Sel, id: Pid)
    requires id < |k.procs|
  {
    var c := k.procs[id];
    var next := NextRelease(c);
    && r.st == (if c.period == 0 then InvalidState else if k.tick >= next then Ok else Pending)
    && (r.st == InvalidState ==> r.k == k)
    && (r.st == Ok ==>
          r.k == k.(procs := k.procs[id := c.(release := next, deadline := DeadlineOf(c, next))],
                    nextDue := Sooner(k.nextDue, DeadlineOf(c, next))))
    && (r.st == Pending ==> Asleep(k, r, id, Resting(c)) && r.k.nextDue == Sooner(k.nextDue, next))
  }

  ghost predicate CallDone(k: Kernel, r: Sel, id: Pid, call: Call)
    requires id < |k.procs|
  {
    match call
    case LockCall(m, timeout) => LockDone(k, r, m, timeout, id)
    case UnlockCall(m) => UnlockDone(k, r, m, id)
    case WaitCall(s, timeout) => WaitDone(k, r, s, timeout, id)
    case SignalCall(s) => SignalDone(k, r, s, id)
    case SendCall(ch, message, timeout) => SendDone(k, r, ch, message, timeout, id)
    case ReceiveCall(ch, size, timeout) => ReceiveDone(k, r, ch, size, timeout, id)
    case TimedWaitCall(delay) => TimedDone(k, r, delay, id)
    case PeriodicWaitCall => PeriodicDone(k, r, id)
    case YieldCall => r.st == Ok && Selected(k, r.k, k.procs[id].partition, true)
  }

  /** The process on the CPU of its partition makes the call, and the partition is not halted. */
  predicate Calls(k: Kernel, id: Pid) {
    && IsProc(k, id) && k.procs[id].state == Running
    && k.procs[id].partition < |k.halted| && !k.halted[k.procs[id].partition]
  }

  lemma LockDoes(k: Kernel, m: nat, timeout: nat, id: Pid)
    requires Inv(k) && Calls(k, id)
    ensures LockDone(k, Lock(k, m, timeout, id), m, timeout, id)
  {
    hide Inv, Lock, NowWaiting, WaitsBehind, Untouched, Moved, Answers, ChainEnd;
    LockOutcome(k, m, timeout, id);
    LockQueues(k, m, timeout, id);
    if MutexFor(k, m, id) && k.mutexes[m].owner.Some? && k.mutexes[m].owner != Some(id) {
      LockAnswers(k, m, timeout, id);
      if timeout == 0 { assert Answers(k, OnMutex(m), 0, k.procs[id].partition, TimedOut, Lock(k, m, 0, id).st); }
    }
  }

  lemma UnlockDoes(k: Kernel, m: nat, id: Pid)
    requires Inv(k) && Calls(k, id)
    ensures UnlockDone(k, FromOut(Unlock(k, m, id)), m, id)
  {
    hide Inv, Unlock, PassOn, PassedOn, PriorityOnly, Released, Moved, Framed, Exact;
    UnlockOk(k, m, id);
    UnlockQueues(k, m, id);
  }

  lemma WaitDoes(k: Kernel, s: nat, timeout: nat, id: Pid)
    requires Inv(k) && Calls(k, id)
    ensures WaitDone(k, SemWait(k, s, timeout, id), s, timeout, id)
  {
    hide Inv, SemWait, StartedWait, TouchedBy, Answers, Framed, Exact;
    var r := SemWaitOk(k, s, timeout, id);
    if SemaphoreFor(k, s, id) && k.sems[s].count == 0 { SemWaitAnswers(k, s, timeout, id); }
  }

  lemma SignalDoes(k: Kernel, s: nat, id: Pid)
    requires Inv(k) && Calls(k, id)
    ensures SignalDone(k, FromOut(SemSignal(k, s, id)), s, id)
  {
    hide Inv, SemSignal, Granted, MostUrgent, Framed, Exact;
    var r := SemSignalOk(k, s, id);
  }

  lemma SendDoes(k: Kernel, ch: ChannelId, message: Message, timeout: nat, id: Pid)
    requires Inv(k) && Calls(k, id)
    ensures SendDone(k, Send(k, ch, message, timeout, id), ch, message, timeout, id)
  {
    if ChannelFor(k, ch, id, true) { assert ChannelOk(k.channels[ch]); }
    hide Inv, Send, StartedWait, TouchedBy, Answers, Framed, Exact, SentNow, ChannelOk;
    var r := SendOk(k, ch, message, timeout, id);
    if ChannelFor(k, ch, id, true) && |message| == k.channels[ch].messageSize
       && |k.channels[ch].ring| == k.channels[ch].capacity {
      SendAnswers(k, ch, message, timeout, id);
    }
  }

  lemma ReceiveDoes(k: Kernel, ch: ChannelId, size: nat, timeout: nat, id: Pid)
    requires Inv(k) && Calls(k, id)
    ensures ReceiveDone(k, Receive(k, ch, size, timeout, id), ch, size, timeout, id)
  {
    hide Inv, Receive, StartedWait, TouchedBy, Answers, Framed, Exact, Received;
    var r := ReceiveOk(k, ch, size, timeout, id);
    if ChannelFor(k, ch, id, false) && size >= k.channels[ch].messageSize && k.channels[ch].ring == [] {
      ReceiveAnswers(k, ch, size, timeout, id);
    }
  }

  lemma TimedDoes(k: Kernel, delay: nat, id: Pid)
    requires Inv(k) && Calls(k, id)
    ensures TimedDone(k, Serve(k, id, TimedWaitCall(delay)), delay, id)
  {
    hide Inv, TimedWait, Asleep, Selected, Yield, Framed, Exact, Served, Safe;
    TickFits(k);
    if delay == 0 {
      TimedServes(k, id, 0);
    } else {
      var w := TimedWaitOk(k, id, delay);
      assert Serve(k, id, TimedWaitCall(delay)) == w;
    }
  }

  lemma TickFits(k: Kernel)
    requires Inv(k)
    ensures k.tick <= TICK_NONE
  {
  }

  lemma PeriodicDoes(k: Kernel, id: Pid)
    requires Inv(k) && Calls(k, id)
    ensures PeriodicDone(k, PeriodicWait(k, id), id)
  {
    hide Inv, PeriodicWait, Asleep, Framed, Exact;
    var r := PeriodicWaitOk(k, id);
  }

  lemma ServeDoes(k: Kernel, id: Pid, call: Call)
    requires Inv(k) && Calls(k, id)
    ensures CallDone(k, Serve(k, id, call), id, call)
  {
    hide Inv, LockDone, UnlockDone, WaitDone, SignalDone, SendDone, ReceiveDone, TimedDone, PeriodicDone, Selected,
         Lock, Unlock, SemWait, SemSignal, Send, Receive, TimedWait, PeriodicWait, Yield;
    match call
    case LockCall(m, timeout) => LockDoes(k, m, timeout, id);
    case UnlockCall(m) => UnlockDoes(k, m, id);
    case WaitCall(s, timeout) => WaitDoes(k, s, timeout, id);
    case SignalCall(s) => SignalDoes(k, s, id);
    case SendCall(ch, message, timeout) => SendDoes(k, ch, message, timeout, id);
    case ReceiveCall(ch, size, timeout) => ReceiveDoes(k, ch, size, timeout, id);
    case TimedWaitCall(delay) => TimedDoes(k, delay, id);
    case PeriodicWaitCall => PeriodicDoes(k, id);
    case YieldCall => YieldSelects(k, id);
  }

  /** A call through the gate does what the call stands for, and then, if the caller still
      runs, makes one selection in which nobody gives way. The answer is that of the call. */
  lemma GateDoes(k: Kernel, id: Pid, call: Call) returns (s: Sel, r: Sel)
    requires Inv(k) && Calls(k, id)
    ensures r == Gate(k, id, call) && CallDone(k, s, id, call) && r.st == s.st && r.next == s.next
    ensures if call.YieldCall? then r == s else AfterCall(s.k, r.k, id, k.procs[id].partition)
  {
    hide Inv, Serve, CallDone, AfterCall, PreemptCheck, Framed, Exact, Safe, LosesInheritance, ReleaseKept, OpHonest,
         SameTimes;
    s := Serve(k, id, call);
    r := GateOk(k, id, call);
    ServeDoes(k, id, call);
  }
}

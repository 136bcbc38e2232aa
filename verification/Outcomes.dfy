/** What a call that has to wait tells its caller when it cannot: one status for each reason. */
module Outcomes {
  import opened Wrappers
  import opened KernelState
  import opened Placement
  import opened KernelCalls
  import opened Invariants
  import opened Blocking
  import opened Mutexes
  import opened Semaphores
  import opened Channels
  import opened Inheritance

  // ---------------------------------------------------------------- the reasons, in the order they are looked at

  /** The tick at which the wait would end is past the last one that can be represented. */
  predicate TooLate(k: Kernel, timeout: nat) {
    timeout != 0 && timeout != TIMEOUT_INFINITE && k.tick + timeout >= TICK_NONE
  }

  predicate Timely(k: Kernel, timeout: nat) {
    timeout != 0 && (timeout == TIMEOUT_INFINITE || k.tick + timeout < TICK_NONE)
  }

  predicate NoRoom(k: Kernel, h: ListId, timeout: nat) {
    Timely(k, timeout) && |Waiters(k, h)| >= WAITLIST_MAX
  }

  /** The caller's partition was halted. */
  predicate Stopped(k: Kernel, h: ListId, timeout: nat, p: nat) {
    Timely(k, timeout) && |Waiters(k, h)| < WAITLIST_MAX && p < |k.halted| && k.halted[p]
  }

  /** Nobody could run in the caller's place. */
  ghost predicate Lonely(k: Kernel, h: ListId, timeout: nat, p: nat) {
    && Timely(k, timeout) && |Waiters(k, h)| < WAITLIST_MAX && p < |k.halted| && !k.halted[p]
    && forall i :: !Candidate(k, p, i)
  }

  /** None of the reasons holds. */
  ghost predicate Free(k: Kernel, h: ListId, timeout: nat, p: nat) {
    && Timely(k, timeout) && |Waiters(k, h)| < WAITLIST_MAX && p < |k.halted| && !k.halted[p]
    && exists i :: Candidate(k, p, i)
  }

  /** st is what a wait of the caller in partition p answers; `none` is the status that stands
      for a timeout of zero and for having nobody to run. */
  ghost predicate Answers(k: Kernel, h: ListId, timeout: nat, p: nat, none: Status, st: Status) {
    && (st == none <==> timeout == 0 || Lonely(k, h, timeout, p))
    && (st == Overflow <==> TooLate(k, timeout))
    && (st == PoolFull <==> NoRoom(k, h, timeout))
    && (st == PartitionHalted <==> Stopped(k, h, timeout, p))
    && (st == Pending <==> Free(k, h, timeout, p))
  }

  /** What the blocking primitive answers, put in these terms. */
  lemma BlockAnswers(k: Kernel, id: Pid, h: ListId, timeout: nat, op: Op, none: Status)
    requires Inv(k) && IsProc(k, id) && k.procs[id].state == Running && h != NoList
    requires timeout != 0 && TickAfter(k, timeout).0 == Ok
             && none !in {Ok, Pending, Overflow, PoolFull, PartitionHalted}
    ensures var b := BlockCurrent(k, id, h, TickAfter(k, timeout).1, op);
            Answers(k, h, timeout, k.procs[id].partition, none,
              if b.st == Ok then Pending else if b.st == QueueEmpty then none else b.st)
  {
    var p := k.procs[id].partition;
    assert p < |k.halted| by { assert ProcOk(k, {}, id); }
    CanBlockIs(k, p);
    hide BlockCurrent, Placed, Objects, Clocked, NoneAbove, Waiting;
    BlockCurrentOk(k, id, h, TickAfter(k, timeout).1, op);
  }

  lemma NotTimely(k: Kernel, h: ListId, timeout: nat, p: nat, none: Status)
    requires k.tick <= TICK_NONE && none !in {Pending, Overflow, PoolFull, PartitionHalted}
    ensures timeout == 0 ==> Answers(k, h, timeout, p, none, none)
    ensures timeout != 0 && TickAfter(k, timeout).0 != Ok ==>
            TickAfter(k, timeout).0 == Overflow && Answers(k, h, timeout, p, none, Overflow)
  {
  }

  // ---------------------------------------------------------------- the calls

  /** A wait for a unit that is not free. */
  lemma SemWaitAnswers(k: Kernel, s: nat, timeout: nat, id: Pid)
    requires Inv(k) && IsProc(k, id) && k.procs[id].state == Running && SemaphoreFor(k, s, id) && k.sems[s].count == 0
    ensures Answers(k, OnSemaphore(s), timeout, k.procs[id].partition, TimedOut, SemWait(k, s, timeout, id).st)
  {
    hide BlockCurrent, Placed, Objects, Answers;
    NotTimely(k, OnSemaphore(s), timeout, k.procs[id].partition, TimedOut);
    if timeout != 0 && TickAfter(k, timeout).0 == Ok {
      BlockAnswers(k, id, OnSemaphore(s), timeout, WaitOp(s), TimedOut);
    }
  }

  /** A send to a full ring. */
  lemma SendAnswers(k: Kernel, ch: ChannelId, message: Message, timeout: nat, id: Pid)
    requires Inv(k) && IsProc(k, id) && k.procs[id].state == Running && ChannelFor(k, ch, id, true)
    requires |message| == k.channels[ch].messageSize && |k.channels[ch].ring| == k.channels[ch].capacity
    ensures Answers(k, OnSend(ch), timeout, k.procs[id].partition, QueueFull, Send(k, ch, message, timeout, id).st)
  {
    hide BlockCurrent, Placed, Objects, Answers, SendNow, Framed, Exact, SentNow;
    var s := SendTries(k, ch, message, id);
    NotTimely(k, OnSend(ch), timeout, k.procs[id].partition, QueueFull);
    if timeout != 0 && TickAfter(k, timeout).0 == Ok {
      BlockAnswers(k, id, OnSend(ch), timeout, SendOp(ch, message), QueueFull);
    }
  }

  /** A receive from an empty ring. */
  lemma ReceiveAnswers(k: Kernel, ch: ChannelId, size: nat, timeout: nat, id: Pid)
    requires Inv(k) && IsProc(k, id) && k.procs[id].state == Running && ChannelFor(k, ch, id, false)
    requires size >= k.channels[ch].messageSize && k.channels[ch].ring == []
    ensures Answers(k, OnReceive(ch), timeout, k.procs[id].partition, QueueEmpty, Receive(k, ch, size, timeout, id).st)
  {
    hide BlockCurrent, Placed, Objects, Answers, AdmitSender;
    NotTimely(k, OnReceive(ch), timeout, k.procs[id].partition, QueueEmpty);
    if timeout != 0 && TickAfter(k, timeout).0 == Ok {
      BlockAnswers(k, id, OnReceive(ch), timeout, ReceiveOp(ch, size), QueueEmpty);
    }
  }

  /** A lock on a mutex that another process holds. */
  lemma LockAnswers(k: Kernel, m: nat, timeout: nat, id: Pid)
    requires Inv(k) && IsProc(k, id) && k.procs[id].state == Running && MutexFor(k, m, id)
    requires k.mutexes[m].owner.Some? && k.mutexes[m].owner != Some(id)
    ensures Answers(k, OnMutex(m), timeout, k.procs[id].partition, TimedOut, Lock(k, m, timeout, id).st)
  {
    var p := k.procs[id].partition;
    assert k.tick <= TICK_NONE;
    hide Inv, LockWait, Answers, Refresh, BlockCurrent;
    NotTimely(k, OnMutex(m), timeout, p, TimedOut);
    if timeout != 0 {
      LockIs(k, m, timeout, id);
      hide Lock;
      if TickAfter(k, timeout).0 == Ok {
        var raised, b := LockBlocks(k, m, timeout, id);
        RaisedAnswers(k, raised, m, timeout, id, p);
      }
    }
  }

  /** Raising the owner changes none of the reasons. */
  lemma RaisedAnswers(k: Kernel, raised: Kernel, m: nat, timeout: nat, id: Pid, p: nat)
    requires Inv(raised) && PriorityOnly(k, raised) && IsProc(k, id) && k.procs[id].state == Running
             && k.procs[id].partition == p
    requires timeout != 0 && TickAfter(k, timeout).0 == Ok
    ensures var b := BlockCurrent(raised, id, OnMutex(m), TickAfter(k, timeout).1, LockOp(m));
            Answers(k, OnMutex(m), timeout, p, TimedOut,
              if b.st == Ok then Pending else if b.st == QueueEmpty then TimedOut else b.st)
  {
    hide *;
    RaisedCaller(k, raised, timeout, id);
    BlockAnswers(raised, id, OnMutex(m), timeout, LockOp(m), TimedOut);
    AnswersSame(k, raised, m, timeout, p);
  }

  lemma RaisedCaller(k: Kernel, raised: Kernel, timeout: nat, id: Pid)
    requires PriorityOnly(k, raised) && IsProc(k, id)
    ensures TickAfter(raised, timeout) == TickAfter(k, timeout) && IsProc(raised, id)
    ensures id < |k.procs| == |raised.procs|
    ensures raised.procs[id].state == k.procs[id].state && raised.procs[id].partition == k.procs[id].partition
  {
    RaisedSame(k, raised, id);
  }

  lemma AnswersSame(k: Kernel, raised: Kernel, m: nat, timeout: nat, p: nat)
    requires PriorityOnly(k, raised)
    ensures forall st :: Answers(raised, OnMutex(m), timeout, p, TimedOut, st) ==>
              Answers(k, OnMutex(m), timeout, p, TimedOut, st)
  {
    assert Waiters(raised, OnMutex(m)) == Waiters(k, OnMutex(m));
    forall i ensures Candidate(raised, p, i) <==> Candidate(k, p, i) {}
    hide PriorityOnly, Candidate;
  }
}

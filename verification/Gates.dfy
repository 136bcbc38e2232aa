/** System calls through the gate: what every call keeps, and scheduling safety after it. */
module Gates {
  import opened Wrappers
  import opened KernelState
  import opened Placement
  import opened KernelCalls
  import opened Invariants
  import opened Blocking
  import opened Mutexes
  import opened Semaphores
  import opened Channels
  import opened Timing
  import opened Ticks

  /** Nobody READY in partition p outranks its running process; an idle partition has nobody READY. */
  ghost predicate Safe(k: Kernel, p: nat) {
    && p < |k.current|
    && match k.current[p]
       case None => forall i :: !Candidate(k, p, i)
       case Some(i) => i < |k.procs| && NoneAbove(k, p, i)
  }

  /** A periodic wait may advance the release of its caller by one period; nothing else touches it. */
  predicate ReleaseKept(c: Pcb, c': Pcb) {
    c'.release == c.release || (c.period > 0 && c'.release == NextRelease(c))
  }

  /** A lock on record is the old one, or one the process really waits for. */
  predicate OpHonest(c: Pcb, c': Pcb) {
    c'.op.LockOp? ==> (c'.op == c.op && c'.waitlist == c.waitlist) || c'.waitlist == OnMutex(c'.op.mutex)
  }

  /** ... and the times of the process are as they were. */
  predicate CallerKept(c: Pcb, c': Pcb) { OpHonest(c, c') && SameTimes(c, c') }

  /** What any call does: the invariant and everybody else are kept, and the caller either
      still runs or its partition is already safe. */
  ghost predicate Served(k: Kernel, k': Kernel, id: Pid) {
    && Inv(k') && Framed(k, k', id) && id < |k.procs| == |k'.procs|
    && ReleaseKept(k.procs[id], k'.procs[id]) && k'.procs[id].state in {Ready, Running, Blocked}
    && (k'.procs[id].state == Running || Safe(k', k.procs[id].partition))
  }

  lemma StartedServes(k: Kernel, r: Sel, id: Pid, h: ListId, wake: nat, op: Op)
    requires Inv(r.k) && Framed(k, r.k, id) && StartedWait(k, r, id, h, wake, op) && !op.LockOp?
    ensures Served(k, r.k, id) && CallerKept(k.procs[id], r.k.procs[id])
  {
    hide Inv, Framed, NoneAbove;
  }

  lemma TouchedServes(k: Kernel, k': Kernel, id: Pid, op: Op)
    requires Inv(k') && Framed(k, k', id) && TouchedBy(k, k', id, op) && k.procs[id].state == Running && !op.LockOp?
    ensures Served(k, k', id) && CallerKept(k.procs[id], k'.procs[id])
  {
    hide Inv, Framed;
  }

  /** The caller's record changed in its priority at most. */
  lemma StillRunsServes(k: Kernel, k': Kernel, id: Pid)
    requires Inv(k') && Framed(k, k', id) && id < |k.procs| && k.procs[id].state == Running
    requires |k'.procs| == |k.procs| && k'.procs[id] == k.procs[id].(priority := k'.procs[id].priority)
    ensures Served(k, k', id) && CallerKept(k.procs[id], k'.procs[id])
  {
    hide Inv, Framed;
  }

  lemma AsleepServes(k: Kernel, r: Sel, id: Pid, c: Pcb)
    requires Inv(r.k) && Framed(k, r.k, id) && Asleep(k, r, id, c) && c.release == k.procs[id].release
             && k.procs[id].state == Running
    requires c.state == Blocked && c.op == k.procs[id].op && c.waitlist == k.procs[id].waitlist
    ensures Served(k, r.k, id) && OpHonest(k.procs[id], r.k.procs[id])
            && (SameTimes(k.procs[id], c) ==> SameTimes(k.procs[id], r.k.procs[id]))
  {
    hide Inv, Framed, NoneAbove;
    var p := k.procs[id].partition;
    if r.next.None? {
      forall i: Pid ensures !Candidate(r.k, p, i) {
        assert !Candidate(k, p, i);
        if i < |k.procs| && i != id { assert r.k.procs[i] == k.procs[i]; }
      }
    }
  }

  lemma LockServes(k: Kernel, m: nat, timeout: nat, id: Pid)
    requires Inv(k) && IsProc(k, id) && k.procs[id].state == Running
    ensures var r := Lock(k, m, timeout, id);
            Served(k, r.k, id) && SameTimes(k.procs[id], r.k.procs[id])
              && (r.st != PoolFull ==> OpHonest(k.procs[id], r.k.procs[id]))
                 && (Exact(k) && !(LockWaits(k, m, timeout, id) && Lost(k, m, id)) ==> Exact(r.k))
  {
    hide Lock, Inv, Exact, Lost, LockWaits;
    var r := Lock(k, m, timeout, id);
    LockOk(k, m, timeout, id);
    LockOutcome(k, m, timeout, id);
    LockFramed(k, m, timeout, id);
    LockRecord(k, r, m, timeout, id);
  }

  lemma LockRecord(k: Kernel, r: Sel, m: nat, timeout: nat, id: Pid)
    requires Inv(r.k) && Framed(k, r.k, id) && IsProc(k, id) && k.procs[id].state == Running
    requires r.st == Ok ==> r.k.procs == k.procs
    requires r.st == Pending ==> NowWaiting(k, r, m, timeout, id)
    requires r.st !in {Ok, Pending} ==> Untouched(k, r.k)
    requires r.st !in {Ok, Pending, PoolFull} ==> r.k.procs[id].op in {k.procs[id].op, NoOp}
    ensures Served(k, r.k, id) && SameTimes(k.procs[id], r.k.procs[id])
            && (r.st != PoolFull ==> OpHonest(k.procs[id], r.k.procs[id]))
  {
    hide Inv, Framed, NoneAbove;
  }

  lemma UnlockServes(k: Kernel, m: nat, id: Pid)
    requires Inv(k) && IsProc(k, id) && k.procs[id].state == Running
    ensures var r := Unlock(k, m, id);
            Served(k, r.k, id) && CallerKept(k.procs[id], r.k.procs[id]) && (Exact(k) ==> Exact(r.k))
  {
    hide Unlock, Inv, Exact, Framed, Served, PassedOn, PriorityOnly, PassOn;
    var r := Unlock(k, m, id);
    UnlockOk(k, m, id);
    StillRunsServes(k, r.k, id);
  }

  lemma WaitServes(k: Kernel, s: nat, timeout: nat, id: Pid)
    requires Inv(k) && IsProc(k, id) && k.procs[id].state == Running
    ensures var r := SemWait(k, s, timeout, id);
            Served(k, r.k, id) && CallerKept(k.procs[id], r.k.procs[id]) && (Exact(k) ==> Exact(r.k))
  {
    hide SemWait, Inv, Exact, Framed, Served, StartedWait, TouchedBy, SemWaits;
    var r := SemWaitOk(k, s, timeout, id);
    if r.st == Ok {
      StillRunsServes(k, r.k, id);
    } else if r.st == Pending {
      StartedServes(k, r, id, OnSemaphore(s), TickAfter(k, timeout).1, WaitOp(s));
    } else {
      TouchedServes(k, r.k, id, WaitOp(s));
    }
  }

  lemma GrantedServes(k: Kernel, k': Kernel, h: ListId, n: Pid, id: Pid)
    requires Inv(k) && Inv(k') && Framed(k, k', id) && Granted(k, k', h, n, Ok) && IsProc(k, id)
             && k.procs[id].state == Running
    ensures Served(k, k', id) && CallerKept(k.procs[id], k'.procs[id])
  {
    assert n != id by { assert ListOk(k, {}, h); }
    hide Inv, Framed, Served;
    StillRunsServes(k, k', id);
  }

  lemma SignalServes(k: Kernel, s: nat, id: Pid)
    requires Inv(k) && IsProc(k, id) && k.procs[id].state == Running
    ensures var r := SemSignal(k, s, id);
            Served(k, r.k, id) && CallerKept(k.procs[id], r.k.procs[id]) && (Exact(k) ==> Exact(r.k))
  {
    hide SemSignal, Inv, Exact, Framed, Served, Granted, MostUrgent;
    var r := SemSignalOk(k, s, id);
    if r.st == Ok && Waiters(k, OnSemaphore(s)) != [] {
      var n :| MostUrgent(k, Waiters(k, OnSemaphore(s)), n) && Granted(k, r.k, OnSemaphore(s), n, Ok);
      GrantedServes(k, r.k, OnSemaphore(s), n, id);
    } else {
      StillRunsServes(k, r.k, id);
    }
  }

  lemma SendServes(k: Kernel, ch: ChannelId, message: Message, timeout: nat, id: Pid)
    requires Inv(k) && IsProc(k, id) && k.procs[id].state == Running
    ensures var r := Send(k, ch, message, timeout, id);
            Served(k, r.k, id) && CallerKept(k.procs[id], r.k.procs[id]) && (Exact(k) ==> Exact(r.k))
  {
    hide Send, Inv, Exact, Framed, Served, StartedWait, TouchedBy, SendWaits, Granted, MostUrgent;
    var r := SendOk(k, ch, message, timeout, id);
    if r.st == Ok {
      if Waiters(k, OnReceive(ch)) != [] {
        var n :| ServedBy(k, r.k, ch, n, message);
        GrantedServes(k, r.k, OnReceive(ch), n, id);
      } else {
        StillRunsServes(k, r.k, id);
      }
    } else if r.st == Pending {
      StartedServes(k, r, id, OnSend(ch), TickAfter(k, timeout).1, SendOp(ch, message));
    } else {
      TouchedServes(k, r.k, id, SendOp(ch, message));
    }
  }

  lemma ReceiveServes(k: Kernel, ch: ChannelId, size: nat, timeout: nat, id: Pid)
    requires Inv(k) && IsProc(k, id) && k.procs[id].state == Running
    ensures var r := Receive(k, ch, size, timeout, id);
            Served(k, r.k, id) && CallerKept(k.procs[id], r.k.procs[id]) && (Exact(k) ==> Exact(r.k))
  {
    hide Receive, Inv, Exact, Framed, Served, StartedWait, TouchedBy, ReceiveWaits, Granted, MostUrgent;
    var r := ReceiveOk(k, ch, size, timeout, id);
    if r.st == Ok {
      if Waiters(k, OnSend(ch)) != [] {
        var n :| AdmittedFrom(k, r.k, ch, id, n);
        GrantedServes(k, r.k, OnSend(ch), n, id);
      } else {
        StillRunsServes(k, r.k, id);
      }
    } else if r.st == Pending {
      StartedServes(k, r, id, OnReceive(ch), TickAfter(k, timeout).1, ReceiveOp(ch, size));
    } else {
      TouchedServes(k, r.k, id, ReceiveOp(ch, size));
    }
  }

  lemma PeriodicServes(k: Kernel, id: Pid)
    requires Inv(k) && IsProc(k, id) && k.procs[id].state == Running
    ensures var r := PeriodicWait(k, id);
            Served(k, r.k, id) && OpHonest(k.procs[id], r.k.procs[id]) && (Exact(k) ==> Exact(r.k))
  {
    hide PeriodicWait, Inv, Exact, Framed, Asleep, Safe, DeadlineOf;
    var r := PeriodicWaitOk(k, id);
    if r.st == Pending {
      var c := k.procs[id];
      AsleepServes(k, r, id, c.(state := Blocked, periodicWaiting := true, wakeTick := NextRelease(c),
        deadline := TICK_NONE));
    }
  }

  /** Giving way leaves the partition safe whenever it dispatches at all. */
  lemma YieldServes(k: Kernel, id: Pid)
    requires Inv(k) && IsProc(k, id) && k.procs[id].state == Running
    ensures var r := Yield(k, id);
            Served(k, r.k, id) && CallerKept(k.procs[id], r.k.procs[id]) && (Exact(k) ==> Exact(r.k))
              && (r.st != Ok ==> r.k == k)
    ensures k.procs[id].partition < |k.halted|
            && (!k.halted[k.procs[id].partition] ==> Safe(Yield(k, id).k, k.procs[id].partition))
  {
    var p := k.procs[id].partition;
    assert ProcOk(k, {}, id);
    assert k.current[p] == Some(id) && p < |k.halted| == |k.current|;
    hide Inv, Exact, PartitionSelect, NoneAbove, Placed;
    var r := PartitionSelect(k, p, true);
    DispatchKeeps(k, p, true, r);
    SelectStatus(k, p, id, r);
    StaysFramed(k, id);
    FramedThenSoft(k, k, r.k, id);
    assert Gentle(k.procs[id], r.k.procs[id]);
  }

  lemma SelectStatus(k: Kernel, p: nat, id: Pid, r: Sel)
    requires Inv(k) && p < |k.current| && k.current[p] == Some(id) && r == PartitionSelect(k, p, true)
    ensures p < |k.halted| && (r.st == Ok || k.halted[p])
  {
    hide PartitionSelect, NoneAbove, Rescheduled;
    SelectOk(k, p, true);
  }

  /** Giving way is one selection in which the caller lets its peers go first. */
  lemma YieldSelects(k: Kernel, id: Pid)
    requires Inv(k) && IsProc(k, id) && k.procs[id].state == Running
    requires k.procs[id].partition < |k.halted| && !k.halted[k.procs[id].partition]
    ensures var r := Yield(k, id); var p := k.procs[id].partition;
            r.st == Ok && Selected(k, r.k, p, true) && p < |r.k.current| && r.next == r.k.current[p]
  {
    var p := k.procs[id].partition;
    RunningIsCurrent(k, id);
    hide Inv, PartitionSelect, NoneAbove, Selected, Rescheduled;
    SelectStatus(k, p, id, PartitionSelect(k, p, true));
    DispatchKeeps(k, p, true, PartitionSelect(k, p, true));
    InvParts(k);
    SelectIs(k, p, true);
  }

  lemma TimedServes(k: Kernel, id: Pid, delay: nat)
    requires Inv(k) && IsProc(k, id) && k.procs[id].state == Running
    ensures var r := Serve(k, id, TimedWaitCall(delay));
            Served(k, r.k, id) && CallerKept(k.procs[id], r.k.procs[id]) && (Exact(k) ==> Exact(r.k))
    ensures k.procs[id].partition < |k.halted|
    ensures delay == 0 && !k.halted[k.procs[id].partition] ==>
              var r := Serve(k, id, TimedWaitCall(delay)); var p := k.procs[id].partition;
              r.st == Ok && Selected(k, r.k, p, true) && Safe(r.k, p)
  {
    hide TimedWait, Inv, Exact, Framed, Asleep, Served, Yield, Safe;
    var w := TimedWaitOk(k, id, delay);
    if w.st == Pending {
      AsleepServes(k, w, id, k.procs[id].(state := Blocked, timedWaiting := true, wakeTick := k.tick + delay));
    } else if w.st == Ok && delay == 0 {
      YieldServes(k, id);
      hide Selected;
      if !k.halted[k.procs[id].partition] { YieldSelects(k, id); }
    } else {
      StaysFramed(k, id);
      StillRunsServes(k, k, id);
    }
  }

  /** The one call that can break the inheritance equation, and when it does. */
  ghost predicate LosesInheritance(k: Kernel, id: Pid, call: Call)
    requires id < |k.procs|
  {
    call.LockCall? && LockWaits(k, call.mutex, call.timeout, id) && Lost(k, call.mutex, id)
  }

  lemma ServeOk(k: Kernel, id: Pid, call: Call)
    requires Inv(k) && IsProc(k, id) && k.procs[id].state == Running
    ensures var r := Serve(k, id, call);
            && Served(k, r.k, id) && (Exact(k) && !LosesInheritance(k, id, call) ==> Exact(r.k))
            && (!(call.LockCall? && r.st == PoolFull) ==> OpHonest(k.procs[id], r.k.procs[id]))
            && (!call.PeriodicWaitCall? ==> SameTimes(k.procs[id], r.k.procs[id]))
  {
    hide Inv, Exact, Served, Lost, LockWaits, Lock, Unlock, SemWait, SemSignal, Send, Receive, TimedWait,
         PeriodicWait, Yield, PreemptCheck;
    match call
    case LockCall(m, timeout) => LockServes(k, m, timeout, id);
    case UnlockCall(m) => UnlockServes(k, m, id);
    case WaitCall(s, timeout) => WaitServes(k, s, timeout, id);
    case SignalCall(s) => SignalServes(k, s, id);
    case SendCall(ch, message, timeout) => SendServes(k, ch, message, timeout, id);
    case ReceiveCall(ch, size, timeout) => ReceiveServes(k, ch, size, timeout, id);
    case TimedWaitCall(delay) => TimedServes(k, id, delay);
    case PeriodicWaitCall => PeriodicServes(k, id);
    case YieldCall => YieldServes(k, id);
  }

  // ---------------------------------------------------------------- after the call

  lemma NoneHigher(k: Kernel, id: Pid, p: nat)
    requires Inv(k) && IsProc(k, id) && k.procs[id].state == Running && k.procs[id].partition == p
             && !HasHigher(k, p, k.procs[id].priority)
    ensures Safe(k, p)
  {
    assert ProcOk(k, {}, id);
    forall j | 0 <= j < |k.procs| && k.procs[j].state == Ready && k.procs[j].partition == p
      ensures k.procs[id].priority <= k.procs[j].priority
    {
      BestIsLeast(k, {}, p, j);
      assert ProcOk(k, {}, j);
    }
  }

  /** What the check after a call of process id makes of partition p: one selection, in which
      nobody gives way, if the caller still runs; nothing otherwise. */
  ghost predicate AfterCall(k: Kernel, r: Kernel, id: Pid, p: nat) {
    id < |k.procs| && if k.procs[id].state == Running then Selected(k, r, p, false) else r == k
  }

  /** h, the first of a more urgent level, has the CPU of p; the preempted process id is the
      first of its own level, and nobody else moved. */
  ghost predicate Preempted(k: Kernel, r: Kernel, p: nat, id: Pid, h: Pid)
    requires id < |k.procs|
  {
    && FirstReady(k, p, h) && k.procs[h].priority < k.procs[id].priority && p < |k.current|
    && r.current == k.current[p := Some(h)]
    && forall s :: Queue(r, s) ==
         if s == Slot(p, k.procs[id].priority) then [id] + Queue(k, s)
         else if s == Slot(p, k.procs[h].priority) && Queue(k, s) != [] then Queue(k, s)[1..]
         else Queue(k, s)
  }

  /** Somebody READY in p is strictly more urgent than process id. */
  ghost predicate Outranked(k: Kernel, p: nat, id: Pid)
    requires id < |k.procs|
  {
    exists i: Pid :: Candidate(k, p, i) && k.procs[i].priority < k.procs[id].priority
  }

  lemma SelectedPreempts(k: Kernel, r: Kernel, id: Pid, p: nat)
    requires id < |k.procs| && p < |k.current| && k.current[p] == Some(id) && Selected(k, r, p, false)
    ensures if Outranked(k, p, id) then exists h: Pid :: Preempted(k, r, p, id, h) else r == k
  {
    if Outranked(k, p, id) {
      var i: Pid :| Candidate(k, p, i) && k.procs[i].priority < k.procs[id].priority;
      assert MayRun(k, p, i, false);
      var h: Pid :| FirstReady(k, p, h) && TakenOver(k, r, p, false, Slot(p, k.procs[h].priority), h);
      assert k.procs[h].priority < k.procs[id].priority;
      assert Preempted(k, r, p, id, h);
    }
  }

  /** In a partition that is safe already the check changes nothing. */
  lemma SafeStays(k: Kernel, r: Kernel, id: Pid, p: nat)
    requires Inv(k) && IsProc(k, id) && k.procs[id].partition == p && Safe(k, p) && AfterCall(k, r, id, p)
    ensures r == k
  {
    if k.procs[id].state == Running {
      RunningIsCurrent(k, id);
      hide Inv;
      assert forall i :: !MayRun(k, p, i, false);
    }
  }

  lemma RunningIsCurrent(k: Kernel, id: Pid)
    requires Inv(k) && IsProc(k, id) && k.procs[id].state == Running
    ensures k.procs[id].partition < |k.current| == |k.halted| && k.current[k.procs[id].partition] == Some(id)
  {
    assert ProcOk(k, {}, id);
  }

  /** The check after a call preempts the caller at once if the call made somebody more
      urgent READY, and so leaves the partition safe. Who takes over is the first of the most
      urgent level, and the preempted caller is the first of its own. */
  lemma PreemptOk(k: Kernel, id: Pid, p: nat) returns (r: Kernel)
    requires Inv(k) && IsProc(k, id) && k.procs[id].partition == p < |k.halted| && !k.halted[p]
    requires k.procs[id].state == Running || Safe(k, p)
    ensures r == PreemptCheck(k, id) && Inv(r) && (Exact(r) <==> Exact(k)) && Soft(k, r) && Safe(r, p)
    ensures AfterCall(k, r, id, p)
    ensures if k.procs[id].state == Running && Outranked(k, p, id) then exists h: Pid :: Preempted(k, r, p, id, h)
            else r == k
  {
    hide Inv, Exact, PartitionSelect, NoneAbove, BestFrom, Selected, Outranked, Preempted;
    r := PreemptCheck(k, id);
    StaysSoft(k);
    if k.procs[id].state == Running {
      RunningIsCurrent(k, id);
      if HasHigher(k, p, k.procs[id].priority) {
        var s := PartitionSelect(k, p, false);
        DispatchKeeps(k, p, false, s);
        DispatchStatus(k, p, s);
        InvParts(k);
        SelectIs(k, p, false);
      } else {
        NoneHigher(k, id, p);
        SafeSelects(k, id, p);
      }
      SelectedPreempts(k, r, id, p);
    }
  }

  lemma SafeSelects(k: Kernel, id: Pid, p: nat)
    requires IsProc(k, id) && p < |k.current| && k.current[p] == Some(id) && NoneAbove(k, p, id)
    ensures Selected(k, k, p, false)
  {
    assert forall i :: !MayRun(k, p, i, false);
  }

  lemma DispatchStatus(k: Kernel, p: nat, r: Sel)
    requires Inv(k) && p < |k.current| && k.current[p].Some? && r == PartitionSelect(k, p, false)
    ensures p < |k.halted| && (r.st == Ok || k.halted[p])
  {
    hide PartitionSelect, NoneAbove, Rescheduled;
    SelectOk(k, p, false);
  }

  /** One system call through the gate by a running process of a partition that is not
      halted: every invariant is kept, time and every other process are left alone (or granted
      what they wait for), the inheritance equation survives unless the claim is lost, and
      nobody READY outranks the process that runs afterwards. A caller that still runs is
      subject to one selection; a yield or a timed wait of no ticks lets its peers go first. */
  lemma GateOk(k: Kernel, id: Pid, call: Call) returns (r: Sel)
    requires Inv(k) && IsProc(k, id) && k.procs[id].state == Running
    requires k.procs[id].partition < |k.halted| && !k.halted[k.procs[id].partition]
    ensures r == Gate(k, id, call) && Inv(r.k) && Framed(k, r.k, id) && id < |r.k.procs|
            && ReleaseKept(k.procs[id], r.k.procs[id])
    ensures r.k.procs[id].state in {Ready, Running, Blocked}
    ensures Exact(k) && !LosesInheritance(k, id, call) ==> Exact(r.k)
    ensures Safe(r.k, k.procs[id].partition)
    ensures call.YieldCall? ==> r == Serve(k, id, call)
    ensures !call.YieldCall? ==> Soft(Serve(k, id, call).k, r.k) && r.st == Serve(k, id, call).st
    ensures !call.YieldCall? ==> AfterCall(Serve(k, id, call).k, r.k, id, k.procs[id].partition)
    ensures LetsPeersRun(call) ==> r.st == Ok && Selected(k, r.k, k.procs[id].partition, true)
    ensures !(call.LockCall? && r.st == PoolFull) ==> OpHonest(k.procs[id], r.k.procs[id])
    ensures !call.PeriodicWaitCall? ==> SameTimes(k.procs[id], r.k.procs[id])
  {
    hide Inv, Exact, Framed, Safe, Serve, LosesInheritance, PreemptCheck, ReleaseKept, OpHonest, Selected, AfterCall,
         Outranked, Preempted;
    var p := k.procs[id].partition;
    r := Gate(k, id, call);
    var s := Serve(k, id, call);
    ServeOk(k, id, call);
    if call.YieldCall? {
      YieldIsServe(k, id);
      YieldServes(k, id);
      YieldSelects(k, id);
    } else {
      FramedProc(k, s.k, id);
      var c := PreemptOk(s.k, id, p);
      FramedThenSoft(k, s.k, c, id);
      SoftKept(k.procs[id], s.k, c, id);
      if LetsPeersRun(call) {
        TimedServes(k, id, 0);
        SafeStays(s.k, c, id, p);
      }
    }
  }

  /** The calls by which a process lets its peers run: a yield and a timed wait of no ticks. */
  predicate LetsPeersRun(call: Call) { call.YieldCall? || (call.TimedWaitCall? && call.delay == 0) }

  lemma YieldIsServe(k: Kernel, id: Pid)
    ensures Serve(k, id, YieldCall) == Yield(k, id)
  {
  }

  lemma FramedProc(k: Kernel, k': Kernel, id: Pid)
    requires Framed(k, k', id) && IsProc(k, id)
    ensures IsProc(k', id) && k'.procs[id].partition == k.procs[id].partition && k'.halted == k.halted
  {
  }

  lemma SoftKept(c: Pcb, k: Kernel, k': Kernel, id: Pid)
    requires id < |k.procs| && ReleaseKept(c, k.procs[id]) && Soft(k, k')
    ensures id < |k'.procs| && ReleaseKept(c, k'.procs[id])
    ensures k.procs[id].state in {Ready, Running, Blocked} ==> k'.procs[id].state in {Ready, Running, Blocked}
    ensures OpHonest(c, k.procs[id]) ==> OpHonest(c, k'.procs[id])
    ensures SameTimes(c, k.procs[id]) ==> SameTimes(c, k'.procs[id])
  {
    assert Gentle(k.procs[id], k'.procs[id]);
  }

  // ---------------------------------------------------------------- round robin

  /** The running process of p followed by its READY peers, in turn. */
  ghost function Turns(k: Kernel, p: nat): seq<Pid> {
    if p < |k.current| && k.current[p].Some? && k.current[p].value < |k.procs|
    then [k.current[p].value] + Queue(k, Slot(p, k.procs[k.current[p].value].priority)) else []
  }

  /** The running process of p has READY peers, and nobody READY outranks it. */
  ghost predicate HasPeers(k: Kernel, p: nat) {
    && p < |k.halted| && !k.halted[p] && p < |k.current| && k.current[p].Some? && k.current[p].value < |k.procs|
    && Best(k, p) == k.procs[k.current[p].value].priority <= MAX_PRIORITY
  }

  /** One yield moves the front of the turn order to its end. */
  lemma YieldRotates(k: Kernel, p: nat) returns (r: Sel)
    requires Inv(k) && HasPeers(k, p)
    ensures IsProc(k, k.current[p].value) && r == Yield(k, k.current[p].value) && r.st == Ok
            && r.next == Some(Turns(k, p)[1])
    ensures Inv(r.k) && HasPeers(r.k, p) && Turns(r.k, p) == Turns(k, p)[1..] + [Turns(k, p)[0]]
  {
    var o := k.current[p].value;
    assert CurrentOk(k, p);
    assert ProcOk(k, {}, o);
    var level := Best(k, p);
    var s := Slot(p, level);
    HeadIsReady(k, {}, p);
    var next := Queue(k, s)[0];
    r := PartitionSelect(k, p, true);
    TakeOverState(k, p, true);
    DispatchKeeps(k, p, true, r);
    assert r.k.procs[next].priority == level && r.k.current[p] == Some(next);
    assert Queue(r.k, s) == Queue(k, s)[1..] + [o];
    assert forall x: nat :: x < level ==> Queue(r.k, Slot(p, x)) == Queue(k, Slot(p, x)) == [];
    LeastLevel(r.k, p, 0, level);
  }

  /** A timed wait of no ticks is a turn given away: it succeeds and moves the front of the turn
      order to its end, and changes nothing when nobody READY is at the caller's level or above. */
  lemma ZeroDelayRotates(k: Kernel, p: nat) returns (r: Sel)
    requires Inv(k) && p < |k.halted| && !k.halted[p] && p < |k.current| && k.current[p].Some?
    ensures IsProc(k, k.current[p].value) && r == Gate(k, k.current[p].value, TimedWaitCall(0)) && r.st == Ok
    ensures HasPeers(k, p) ==> Turns(r.k, p) == Turns(k, p)[1..] + [Turns(k, p)[0]]
    ensures (forall i: Pid :: Candidate(k, p, i) ==> k.procs[i].priority > k.procs[k.current[p].value].priority)
            ==> r.k == k
  {
    var o := k.current[p].value;
    assert CurrentOk(k, p);
    hide Inv, PartitionSelect, Exact, Framed, Safe, Serve, AfterCall, LosesInheritance, Turns, Yield, NoneAbove, Gate;
    r := GateOk(k, o, TimedWaitCall(0));
    if HasPeers(k, p) {
      var y := YieldRotates(k, p);
      YieldSelects(k, o);
      SelectedOnce(k, y.k, r.k, p, true);
    }
  }

  /** What a selection does to the queues and the CPU is determined. */
  lemma SelectedOnce(k: Kernel, a: Kernel, b: Kernel, p: nat, giveWay: bool)
    requires Inv(k) && Selected(k, a, p, giveWay) && Selected(k, b, p, giveWay)
    ensures a == b
  {
    if exists i :: MayRun(k, p, i, giveWay) {
      var g: Pid :| FirstReady(k, p, g) && p < |k.current|
        && TakenOver(k, a, p, giveWay, Slot(p, k.procs[g].priority), g);
      var h: Pid :| FirstReady(k, p, h) && p < |k.current|
        && TakenOver(k, b, p, giveWay, Slot(p, k.procs[h].priority), h);
      assert k.procs[g].priority == k.procs[h].priority;
      assert g == h;
    }
  }

  lemma {:induction false} LeastLevel(k: Kernel, p: nat, q: nat, level: nat)
    requires q <= level <= MAX_PRIORITY && Queue(k, Slot(p, level)) != []
    requires forall x: nat :: x < level ==> Queue(k, Slot(p, x)) == []
    ensures BestFrom(k, p, q) == level
    decreases level - q
  {
    if q < level { LeastLevel(k, p, q + 1, level); }
  }

  /** n yields in a row, each by whoever runs. */
  function Yields(k: Kernel, p: nat, n: nat): Kernel
    decreases n
  {
    if n == 0 || p >= |k.current| || k.current[p].None? then k else Yields(Yield(k, k.current[p].value).k, p, n - 1)
  }

  /** Round robin: successive yields give every peer its turn in order, and once round the
      order is as it was. */
  lemma {:induction false} RoundRobin(k: Kernel, p: nat, n: nat)
    requires Inv(k) && HasPeers(k, p) && n <= |Turns(k, p)|
    ensures Inv(Yields(k, p, n)) && Turns(Yields(k, p, n), p) == Turns(k, p)[n..] + Turns(k, p)[..n]
    decreases n
  {
    hide Inv, HasPeers, Turns, Yield;
    if n == 0 {
      assert Yields(k, p, 0) == k;
      assert Turns(k, p)[0..] + Turns(k, p)[..0] == Turns(k, p);
    } else {
      PeersRun(k, p);
      var r := YieldRotates(k, p);
      var t := Turns(k, p);
      assert Yields(k, p, n) == Yields(r.k, p, n - 1);
      hide Yields;
      RoundRobin(r.k, p, n - 1);
      assert (t[1..] + [t[0]])[n - 1..] + (t[1..] + [t[0]])[..n - 1] == t[n..] + t[..n];
    }
  }

  lemma PeersRun(k: Kernel, p: nat)
    requires HasPeers(k, p)
    ensures p < |k.current| && k.current[p].Some? && |Turns(k, p)| > 1
  {
  }
}

/** The due bound is invisible: a kernel that makes its three scans in every tick goes through
    the same states, apart from the bound, as one that skips them until something may be due. */
module Gating {
  import opened Wrappers
  import opened KernelState
  import opened KernelCalls
  import opened Inheritance
  import opened Invariants
  import opened Placement
  import opened Ticks
  import opened Recovery
  import opened Runs
  import Frame

  /** Two states that differ in the due bound at most. */
  predicate Alike(a: Kernel, b: Kernel) { b == a.(nextDue := b.nextDue) }

  predicate AlikeOut(r: Out, s: Out) { r.st == s.st && Alike(r.k, s.k) }

  predicate AlikeSel(r: Sel, s: Sel) { r.st == s.st && r.next == s.next && Alike(r.k, s.k) }

  predicate AlikeTaken(r: Taken, s: Taken) { r.st == s.st && r.id == s.id && r.op == s.op && Alike(r.k, s.k) }

  predicate AlikeScan(r: Scan, s: Scan) { r.mutexWaiterLeft == s.mutexWaiterLeft && Alike(r.k, s.k) }

  // ---------------------------------------------------------------- one service at a time

  lemma SelectLaw()
    ensures forall a: Kernel, b: Kernel, p: nat, giveWay: bool :: Alike(a, b) ==>
              AlikeSel(PartitionSelect(a, p, giveWay), PartitionSelect(b, p, giveWay))
  {
    hide PartitionSelect;
    forall a: Kernel, b: Kernel, p: nat, giveWay: bool | Alike(a, b)
      ensures AlikeSel(PartitionSelect(a, p, giveWay), PartitionSelect(b, p, giveWay))
    {
      SelectIgnoresDue(a, p, giveWay, b.nextDue);
    }
  }

  lemma BlockAndDispatchLaw()
    ensures forall a: Kernel, b: Kernel, p: nat, id: Pid :: Alike(a, b) ==>
              AlikeSel(PartitionBlockAndDispatch(a, p, id), PartitionBlockAndDispatch(b, p, id))
  {
    hide BestFrom;
    forall a: Kernel, b: Kernel, p: nat, id: Pid | Alike(a, b)
      ensures AlikeSel(PartitionBlockAndDispatch(a, p, id), PartitionBlockAndDispatch(b, p, id))
    {
      BestSame(a, b, p, 0);
    }
  }

  lemma QueueLaw()
    ensures forall a: Kernel, b: Kernel, p: nat, id: Pid :: Alike(a, b) ==>
              AlikeOut(AddProcess(a, p, id), AddProcess(b, p, id))
    ensures forall a: Kernel, b: Kernel, id: Pid :: Alike(a, b) ==>
              AlikeOut(PartitionAddProcess(a, id), PartitionAddProcess(b, id))
    ensures forall a: Kernel, b: Kernel, p: nat, id: Pid :: Alike(a, b) ==>
              AlikeOut(RemoveProcess(a, p, id), RemoveProcess(b, p, id))
    ensures forall a: Kernel, b: Kernel, p: nat, id: Pid :: Alike(a, b) ==>
              AlikeOut(ReadyProcess(a, p, id), ReadyProcess(b, p, id))
  {
  }

  lemma KeepProcs(k: Kernel, p: nat, id: Pid)
    ensures RemoveProcess(k, p, id).k.procs == k.procs && AddProcess(k, p, id).k.procs == k.procs
  {
  }

  lemma SetPriorityLaw()
    ensures forall a: Kernel, b: Kernel, id: Pid, priority: nat :: Alike(a, b) ==>
              AlikeOut(SetPriority(a, id, priority), SetPriority(b, id, priority))
  {
    QueueLaw();
    forall a: Kernel, b: Kernel, id: Pid, priority: nat | Alike(a, b)
      ensures AlikeOut(SetPriority(a, id, priority), SetPriority(b, id, priority))
    {
      hide RemoveProcess, AddProcess, ReadyProcess, PartitionAddProcess;
      forall k: Kernel, p: nat ensures RemoveProcess(k, p, id).k.procs == k.procs == AddProcess(k, p, id).k.procs {
        KeepProcs(k, p, id);
      }
    }
  }

  lemma ResolveLaw()
    ensures forall a: Kernel, b: Kernel, id: Pid, result: Status :: Alike(a, b) ==>
              AlikeOut(Resolve(a, id, result), Resolve(b, id, result))
  {
    hide ReadyProcess, PartitionAddProcess, AddProcess, RemoveProcess;
    QueueLaw();
  }

  lemma PushedLaw()
    ensures forall a: Kernel, b: Kernel, h: ListId, id: Pid :: Alike(a, b) ==>
              AlikeOut(PushWaiter(a, h, id), PushWaiter(b, h, id))
    ensures forall a: Kernel, b: Kernel, tick: nat :: Alike(a, b) ==>
              Alike(NoteDue(a, tick), NoteDue(b, tick))
    ensures forall a: Kernel, b: Kernel, h: ListId, id: Pid :: Alike(a, b) && id < |a.procs| ==>
              Alike(Withdraw(a, h, id), Withdraw(b, h, id))
  {
  }

  lemma BlockLaw()
    ensures forall a: Kernel, b: Kernel, id: Pid, h: ListId, wake: nat, op: Op :: Alike(a, b) ==>
              AlikeSel(BlockCurrent(a, id, h, wake, op), BlockCurrent(b, id, h, wake, op))
  {
    hide PartitionBlockAndDispatch, Withdraw;
    BlockAndDispatchLaw();
    PushedLaw();
    forall a: Kernel, b: Kernel, id: Pid, h: ListId, wake: nat, op: Op | Alike(a, b)
      ensures AlikeSel(BlockCurrent(a, id, h, wake, op), BlockCurrent(b, id, h, wake, op))
    {
    }
  }

  lemma {:induction false} BestWaiterSame(a: Kernel, b: Kernel, l: seq<Pid>, n: nat)
    requires Alike(a, b) && n <= |l|
    ensures BestWaiter(a, l, n) == BestWaiter(b, l, n)
  {
    if n > 0 { BestWaiterSame(a, b, l, n - 1); }
  }

  lemma TakeLaw()
    ensures forall a: Kernel, b: Kernel, h: ListId, id: Pid :: Alike(a, b) ==>
              AlikeTaken(TakeWaiter(a, h, id), TakeWaiter(b, h, id))
    ensures forall a: Kernel, b: Kernel, h: ListId :: Alike(a, b) ==>
              AlikeTaken(WakeOne(a, h), WakeOne(b, h))
  {
  }

  lemma WakeLaw()
    ensures forall a: Kernel, b: Kernel, h: ListId :: Alike(a, b) ==>
              AlikeTaken(TakeBest(a, h), TakeBest(b, h))
    ensures forall a: Kernel, b: Kernel, h: ListId, d: Discipline :: Alike(a, b) ==>
              AlikeTaken(WakeBy(a, h, d), WakeBy(b, h, d))
  {
    hide TakeWaiter, WakeOne;
    TakeLaw();
    forall a: Kernel, b: Kernel, h: ListId | Alike(a, b)
      ensures AlikeTaken(TakeBest(a, h), TakeBest(b, h))
    {
      BestWaiterSame(a, b, Waiters(a, h), |Waiters(a, h)|);
    }
  }

  // ---------------------------------------------------------------- mutexes

  lemma {:induction false} LeastOfSame(a: Kernel, b: Kernel, l: seq<Pid>, n: nat, acc: nat)
    requires Alike(a, b) && n <= |l|
    ensures LeastOf(a, l, n, acc) == LeastOf(b, l, n, acc)
  {
    if n > 0 { LeastOfSame(a, b, l, n - 1, acc); }
  }

  lemma {:induction false} LeastOwnedSame(a: Kernel, b: Kernel, id: Pid, m: nat, acc: nat)
    requires Alike(a, b) && m <= |a.mutexes|
    ensures LeastOwned(a, id, m, acc) == LeastOwned(b, id, m, acc)
  {
    if m > 0 {
      LeastOwnedSame(a, b, id, m - 1, acc);
      var l := Waiters(a, OnMutex(m - 1));
      LeastOfSame(a, b, l, |l|, LeastOwned(a, id, m - 1, acc));
    }
  }

  lemma {:induction false} ChainAlike(a: Kernel, b: Kernel, cur: Option<Pid>, claim: nat, hops: nat)
    requires Alike(a, b)
    ensures AlikeOut(RefreshChain(a, cur, claim, hops), RefreshChain(b, cur, claim, hops))
    decreases hops
  {
    hide SetPriority, LeastOwned;
    SetPriorityLaw();
    if hops > 0 && cur.Some? && IsProc(a, cur.value) {
      LeastOwnedSame(a, b, cur.value, |a.mutexes|, Min(a.procs[cur.value].base, claim));
      var w := WantedPriority(a, cur.value, claim);
      var r, s := SetPriority(a, cur.value, w), SetPriority(b, cur.value, w);
      if r.st == Ok && cur.value < |r.k.procs| {
        ChainAlike(r.k, s.k, NextInChain(r.k, cur.value), NO_CLAIM, hops - 1);
      }
    }
  }

  lemma RefreshLaw()
    ensures forall a: Kernel, b: Kernel, cur: Option<Pid>, claim: nat :: Alike(a, b) ==>
              AlikeOut(Refresh(a, cur, claim), Refresh(b, cur, claim))
  {
    hide RefreshChain;
    forall a: Kernel, b: Kernel, cur: Option<Pid>, claim: nat | Alike(a, b)
      ensures AlikeOut(Refresh(a, cur, claim), Refresh(b, cur, claim))
    {
      ChainAlike(a, b, cur, claim, |a.mutexes| + 1);
    }
  }

  lemma HandOffLaw()
    ensures forall a: Kernel, b: Kernel, m: nat :: Alike(a, b) && m < |a.mutexes| ==>
              AlikeOut(HandOff(a, m), HandOff(b, m))
  {
    hide TakeBest, WakeBy, Resolve, Refresh;
    WakeLaw();
    ResolveLaw();
    RefreshLaw();
  }

  lemma LockWaitLaw()
    ensures forall a: Kernel, b: Kernel, m: nat, timeout: nat, id: Pid ::
            Alike(a, b) && m < |a.mutexes| && id < |a.procs| ==>
              AlikeSel(LockWait(a, m, timeout, id), LockWait(b, m, timeout, id))
  {
    hide Refresh, BlockCurrent;
    RefreshLaw();
    BlockLaw();
    forall a: Kernel, b: Kernel, m: nat, timeout: nat, id: Pid | Alike(a, b) && m < |a.mutexes| && id < |a.procs|
      ensures AlikeSel(LockWait(a, m, timeout, id), LockWait(b, m, timeout, id))
    {
    }
  }

  lemma LockLaw()
    ensures forall a: Kernel, b: Kernel, m: nat, timeout: nat, id: Pid :: Alike(a, b) ==>
              AlikeSel(Lock(a, m, timeout, id), Lock(b, m, timeout, id))
  {
    hide Refresh, LockWait;
    RefreshLaw();
    LockWaitLaw();
    forall a: Kernel, b: Kernel, m: nat, timeout: nat, id: Pid | Alike(a, b)
      ensures AlikeSel(Lock(a, m, timeout, id), Lock(b, m, timeout, id))
    {
    }
  }

  lemma UnlockLaw()
    ensures forall a: Kernel, b: Kernel, m: nat, id: Pid :: Alike(a, b) ==>
              AlikeOut(Unlock(a, m, id), Unlock(b, m, id))
  {
    hide HandOff;
    HandOffLaw();
  }

  lemma {:induction false} ReleaseAlike(a: Kernel, b: Kernel, id: Pid, m: nat, n: nat)
    requires Alike(a, b)
    ensures Alike(ReleaseFrom(a, id, m, n), ReleaseFrom(b, id, m, n))
    decreases n - m
  {
    hide HandOff;
    HandOffLaw();
    if m < n && m < |a.mutexes| {
      var held := a.mutexes[m].inUse && a.mutexes[m].owner == Some(id);
      ReleaseAlike(if held then HandOff(a, m).k else a, if held then HandOff(b, m).k else b, id, m + 1, n);
    }
  }

  lemma {:induction false} SweepAlike(a: Kernel, b: Kernel, m: nat, n: nat)
    requires Alike(a, b)
    ensures Alike(RefreshFrom(a, m, n), RefreshFrom(b, m, n))
    decreases n - m
  {
    hide Refresh;
    RefreshLaw();
    if m < n && m < |a.mutexes| {
      var owner := a.mutexes[m].owner;
      var walks := a.mutexes[m].inUse && owner.Some?;
      SweepAlike(if walks then Refresh(a, owner, NO_CLAIM).k else a, if walks then Refresh(b, owner, NO_CLAIM).k
        else b, m + 1, n);
    }
  }

  lemma SweepLaw()
    ensures forall a: Kernel, b: Kernel :: Alike(a, b) ==>
              Alike(RefreshPriorities(a), RefreshPriorities(b))
    ensures forall a: Kernel, b: Kernel, id: Pid :: Alike(a, b) ==>
              Alike(ReleaseAll(a, id), ReleaseAll(b, id))
  {
    hide RefreshFrom, ReleaseFrom;
    forall a: Kernel, b: Kernel | Alike(a, b)
      ensures Alike(RefreshPriorities(a), RefreshPriorities(b))
    {
      SweepAlike(a, b, 0, |a.mutexes|);
    }
    forall a: Kernel, b: Kernel, id: Pid | Alike(a, b)
      ensures Alike(ReleaseAll(a, id), ReleaseAll(b, id))
    {
      ReleaseAlike(a, b, id, 0, |a.mutexes|);
    }
  }

  // ---------------------------------------------------------------- semaphores and channels

  lemma SemaphoreLaw()
    ensures forall a: Kernel, b: Kernel, s: nat, timeout: nat, id: Pid :: Alike(a, b) ==>
              AlikeSel(SemWait(a, s, timeout, id), SemWait(b, s, timeout, id))
    ensures forall a: Kernel, b: Kernel, s: nat, id: Pid :: Alike(a, b) ==>
              AlikeOut(SemSignal(a, s, id), SemSignal(b, s, id))
  {
    hide BlockCurrent, TakeBest, WakeBy, Resolve;
    BlockLaw();
    WakeLaw();
    ResolveLaw();
  }

  lemma PushLaw()
    ensures forall a: Kernel, b: Kernel, ch: ChannelId, message: Message :: Alike(a, b) ==>
              AlikeOut(PushInto(a, ch, message), PushInto(b, ch, message))
    ensures forall a: Kernel, b: Kernel, ch: ChannelId, to: Pid, message: Message :: Alike(a, b) ==>
              Alike(HandTo(a, ch, to, message), HandTo(b, ch, to, message))
  {
  }

  lemma SendNowLaw()
    ensures forall a: Kernel, b: Kernel, ch: ChannelId, message: Message :: Alike(a, b) && ch in a.channels ==>
              AlikeOut(SendNow(a, ch, message), SendNow(b, ch, message))
  {
    hide PushInto, HandTo, WakeBy, TakeBest, Resolve;
    PushLaw();
    WakeLaw();
    ResolveLaw();
  }

  lemma AdmitLaw()
    ensures forall a: Kernel, b: Kernel, ch: ChannelId :: Alike(a, b) && ch in a.channels ==>
              Alike(AdmitSender(a, ch), AdmitSender(b, ch))
  {
    hide PushInto, HandTo, WakeBy, TakeBest, Resolve;
    PushLaw();
    WakeLaw();
    ResolveLaw();
  }

  lemma SendLaw()
    ensures forall a: Kernel, b: Kernel, ch: ChannelId, message: Message, timeout: nat, id: Pid :: Alike(a, b) ==>
              AlikeSel(Send(a, ch, message, timeout, id), Send(b, ch, message, timeout, id))
  {
    hide SendNow, BlockCurrent;
    SendNowLaw();
    BlockLaw();
    forall a: Kernel, b: Kernel, ch: ChannelId, message: Message, timeout: nat, id: Pid | Alike(a, b)
      ensures AlikeSel(Send(a, ch, message, timeout, id), Send(b, ch, message, timeout, id))
    {
    }
  }

  lemma ReceiveLaw()
    ensures forall a: Kernel, b: Kernel, ch: ChannelId, size: nat, timeout: nat, id: Pid :: Alike(a, b) ==>
              AlikeSel(Receive(a, ch, size, timeout, id), Receive(b, ch, size, timeout, id))
  {
    hide AdmitSender, BlockCurrent;
    AdmitLaw();
    BlockLaw();
    forall a: Kernel, b: Kernel, ch: ChannelId, size: nat, timeout: nat, id: Pid | Alike(a, b)
      ensures AlikeSel(Receive(a, ch, size, timeout, id), Receive(b, ch, size, timeout, id))
    {
    }
  }

  // ---------------------------------------------------------------- timing

  lemma DeadlineLaw()
    ensures forall a: Kernel, b: Kernel, id: Pid :: Alike(a, b) && id < |a.procs| ==>
              Alike(ArmDeadline(a, id), ArmDeadline(b, id))
    ensures forall a: Kernel, b: Kernel, id: Pid, now: nat :: Alike(a, b) && id < |a.procs| ==>
              Alike(Rearm(a, id, now), Rearm(b, id, now))
  {
  }

  lemma TimedLaw()
    ensures forall a: Kernel, b: Kernel, id: Pid :: Alike(a, b) && id < |a.procs| ==>
              AlikeSel(BlockTimed(a, id), BlockTimed(b, id))
  {
    hide PartitionBlockAndDispatch;
    BlockAndDispatchLaw();
  }

  lemma TimedWaitLaw()
    ensures forall a: Kernel, b: Kernel, id: Pid, delay: nat :: Alike(a, b) ==>
              AlikeSel(TimedWait(a, id, delay), TimedWait(b, id, delay))
  {
    hide BlockTimed, ArmDeadline, Rearm;
    TimedLaw();
    forall a: Kernel, b: Kernel, id: Pid, delay: nat | Alike(a, b)
      ensures AlikeSel(TimedWait(a, id, delay), TimedWait(b, id, delay))
    {
    }
  }

  /** How a periodic wait ends once its process gave the CPU away, or could not. */
  function Released(b: Sel, id: Pid, next: nat): Sel {
    if b.st == Ok && id < |b.k.procs| then
      Sel(Pending, NoteDue(WithProc(b.k, id, b.k.procs[id].(periodicWaiting := true, wakeTick := next)), next), b.next)
    else if id < |b.k.procs| then Sel(b.st, ArmDeadline(b.k, id), None)
    else b
  }

  lemma PeriodicIs(k: Kernel, id: Pid)
    requires IsProc(k, id) && k.procs[id].state == Running && k.procs[id].period != 0
    ensures var next := Wrap(k.procs[id].release + k.procs[id].period);
            var met := WithProc(k, id, k.procs[id].(deadline := TICK_NONE));
            PeriodicWait(k, id) ==
            if k.tick >= next then Sel(Ok, ArmDeadline(WithProc(met, id, met.procs[id].(release := next)), id), None)
            else Released(BlockTimed(met, id), id, next)
  {
    hide BlockTimed, ArmDeadline;
  }

  lemma ReleasedAlike(b: Sel, d: Sel, id: Pid, next: nat)
    requires AlikeSel(b, d)
    ensures AlikeSel(Released(b, id, next), Released(d, id, next))
  {
    hide ArmDeadline, Rearm;
    DeadlineLaw();
  }

  lemma PeriodicAlike(a: Kernel, b: Kernel, id: Pid)
    requires Alike(a, b)
    ensures AlikeSel(PeriodicWait(a, id), PeriodicWait(b, id))
  {
    if IsProc(a, id) && a.procs[id].state == Running && a.procs[id].period != 0 {
      PeriodicIs(a, id);
      PeriodicIs(b, id);
      hide PeriodicWait, BlockTimed, ArmDeadline, Rearm, Released;
      var next := Wrap(a.procs[id].release + a.procs[id].period);
      var c, d := WithProc(a, id, a.procs[id].(deadline := TICK_NONE)),
        WithProc(b, id, b.procs[id].(deadline := TICK_NONE));
      if a.tick >= next {
        var e, f := WithProc(c, id, c.procs[id].(release := next)), WithProc(d, id, d.procs[id].(release := next));
        assert Alike(ArmDeadline(e, id), ArmDeadline(f, id)) by { DeadlineLaw(); }
      } else {
        assert AlikeSel(BlockTimed(c, id), BlockTimed(d, id)) by { TimedLaw(); }
        ReleasedAlike(BlockTimed(c, id), BlockTimed(d, id), id, next);
      }
    }
  }

  lemma PeriodicWaitLaw()
    ensures forall a: Kernel, b: Kernel, id: Pid :: Alike(a, b) ==>
              AlikeSel(PeriodicWait(a, id), PeriodicWait(b, id))
  {
    hide PeriodicWait;
    forall a: Kernel, b: Kernel, id: Pid | Alike(a, b)
      ensures AlikeSel(PeriodicWait(a, id), PeriodicWait(b, id))
    {
      PeriodicAlike(a, b, id);
    }
  }

  lemma {:induction false} ExpireAlike(a: Kernel, b: Kernel, now: nat, i: Pid, n: nat)
    requires Alike(a, b)
    ensures AlikeScan(ExpireFrom(a, now, i, n), ExpireFrom(b, now, i, n))
    decreases n - i
  {
    hide TakeWaiter, WakeOne, Resolve;
    TakeLaw();
    ResolveLaw();
    if i < n { ExpireAlike(ExpireOne(a, i, now).k, ExpireOne(b, i, now).k, now, i + 1, n); }
  }

  lemma {:induction false} ReleasesAlike(a: Kernel, b: Kernel, now: nat, i: Pid, n: nat)
    requires Alike(a, b)
    ensures Alike(ReleasePeriodic(a, now, i, n), ReleasePeriodic(b, now, i, n))
    decreases n - i
  {
    hide ArmDeadline, Rearm, Resolve;
    DeadlineLaw();
    ResolveLaw();
    if i < n { ReleasesAlike(ReleaseOne(a, i, now), ReleaseOne(b, i, now), now, i + 1, n); }
  }

  lemma {:induction false} ChecksAlike(a: Kernel, b: Kernel, now: nat, i: Pid, n: nat)
    requires Alike(a, b)
    ensures Alike(CheckDeadlines(a, now, i, n), CheckDeadlines(b, now, i, n))
    decreases n - i
  {
    if i < n { ChecksAlike(CheckOne(a, i, now), CheckOne(b, i, now), now, i + 1, n); }
  }

  lemma ScansAlike(a: Kernel, b: Kernel)
    requires Alike(a, b)
    ensures Alike(RefreshDue(Scans(a)), RefreshDue(Scans(b)))
  {
    hide ExpireFrom, ReleasePeriodic, CheckDeadlines, RefreshPriorities;
    ExpireAlike(a, b, a.tick, 0, |a.procs|);
    SweepLaw();
    var c, d := ExpireTimeouts(a, a.tick), ExpireTimeouts(b, b.tick);
    ReleasesAlike(c, d, a.tick, 0, |c.procs|);
    var e, f := ReleasePeriodic(c, a.tick, 0, |c.procs|), ReleasePeriodic(d, a.tick, 0, |c.procs|);
    ChecksAlike(e, f, a.tick, 0, |e.procs|);
  }

  lemma UngatedAlike(a: Kernel, b: Kernel, sched: Frame.Schedule)
    requires Alike(a, b)
    ensures AlikeSel(OnTickUngated(a, sched), OnTickUngated(b, sched))
  {
    hide RefreshDue, Scans, PartitionSelect, Frame.PartitionAt;
    ScansAlike(a.(tick := Wrap(a.tick + 1)), b.(tick := Wrap(b.tick + 1)));
    SelectLaw();
  }

  // ---------------------------------------------------------------- recovery and calls

  lemma RequeueLaw()
    ensures forall a: Kernel, b: Kernel, id: Pid :: Alike(a, b) && IsProc(a, id) ==>
              AlikeOut(Requeue(a, id), Requeue(b, id))
  {
    hide RefreshPriorities, ReleaseAll, PartitionAddProcess, AddProcess, RemoveProcess, ReadyProcess;
    SweepLaw();
    QueueLaw();
    forall a: Kernel, b: Kernel, id: Pid | Alike(a, b) && IsProc(a, id)
      ensures AlikeOut(Requeue(a, id), Requeue(b, id))
    {
    }
  }

  lemma RestartLaw()
    ensures forall a: Kernel, b: Kernel, id: Pid :: Alike(a, b) ==>
              AlikeOut(Restart(a, id), Restart(b, id))
  {
    hide RefreshPriorities, ReleaseAll, Requeue, Rearm, ArmDeadline;
    SweepLaw();
    RequeueLaw();
    DeadlineLaw();
    forall a: Kernel, b: Kernel, id: Pid | Alike(a, b)
      ensures AlikeOut(Restart(a, id), Restart(b, id))
    {
    }
  }

  lemma EnactLaw()
    ensures forall a: Kernel, b: Kernel, id: Pid, action: Action, onCpu: bool :: Alike(a, b) ==>
              AlikeOut(EnactFault(a, id, action, onCpu), EnactFault(b, id, action, onCpu))
  {
    hide Restart, PartitionSelect;
    RestartLaw();
    SelectLaw();
  }

  lemma {:induction false} DrainAlike(a: Kernel, b: Kernel, policy: seq<Action>, cpu: Option<Pid>, i: Pid, n: nat)
    requires Alike(a, b)
    ensures Alike(DrainFrom(a, policy, cpu, i, n), DrainFrom(b, policy, cpu, i, n))
    decreases n - i
  {
    hide EnactFault;
    EnactLaw();
    if i >= n {
    } else if i !in a.pending {
      DrainAlike(a, b, policy, cpu, i + 1, n);
    } else {
      var c, d := a.(pending := a.pending - {i}), b.(pending := b.pending - {i});
      if !IsProc(c, i) || c.procs[i].partition >= |policy| {
        DrainAlike(c, d, policy, cpu, i + 1, n);
      } else {
        var action := policy[c.procs[i].partition];
        DrainAlike(EnactFault(c, i, action, cpu == Some(i)).k, EnactFault(d, i, action, cpu == Some(i)).k, policy,
          if action == RestartProcess && cpu == Some(i) then None else cpu, i + 1, n);
      }
    }
  }

  lemma ServeLaw()
    ensures forall a: Kernel, b: Kernel, id: Pid, call: Call :: Alike(a, b) ==>
              AlikeSel(Serve(a, id, call), Serve(b, id, call))
  {
    hide Lock, Unlock, SemWait, SemSignal, Send, Receive, TimedWait, PeriodicWait, PartitionSelect;
    LockLaw();
    UnlockLaw();
    SemaphoreLaw();
    SendLaw();
    ReceiveLaw();
    TimedWaitLaw();
    PeriodicWaitLaw();
    SelectLaw();
  }

  lemma GateLaw()
    ensures forall a: Kernel, b: Kernel, id: Pid, call: Call :: Alike(a, b) ==>
              AlikeSel(Gate(a, id, call), Gate(b, id, call))
  {
    hide Serve, PartitionSelect, BestFrom;
    ServeLaw();
    SelectLaw();
    forall a: Kernel, b: Kernel, id: Pid, call: Call | Alike(a, b)
      ensures AlikeSel(Gate(a, id, call), Gate(b, id, call))
    {
      var r, s := Serve(a, id, call).k, Serve(b, id, call).k;
      if IsProc(r, id) { BestSame(r, s, r.procs[id].partition, 0); }
    }
  }

  // ---------------------------------------------------------------- runs

  /** An event of a kernel that scans in every tick: what the caller is told, and the state left. */
  function Ungated(sys: System, k: Kernel, e: Event): Sel {
    match e
    case Svc(id, call) => Gate(k, id, call)
    case Tick(cpu) => OnTickUngated(DrainFrom(k, sys.policy, cpu, 0, |k.procs|), sys.sched)
    case Fault(id, action, onCpu) => FromOut(EnactFault(k, id, action, onCpu))
  }

  /** ... and of the kernel itself. */
  function Gated(sys: System, k: Kernel, e: Event): Sel {
    match e
    case Svc(id, call) => Gate(k, id, call)
    case Tick(cpu) => Systick(k, sys.sched, sys.policy, cpu)
    case Fault(id, action, onCpu) => FromOut(EnactFault(k, id, action, onCpu))
  }

  function RunUngated(sys: System, k: Kernel, es: seq<Event>): Kernel
    decreases |es|
  {
    if es == [] then k else RunUngated(sys, Ungated(sys, k, es[0]).k, es[1..])
  }

  /** The status and selection of every event of a run. */
  function Answers(sys: System, k: Kernel, es: seq<Event>): (r: seq<(Status, Option<Pid>)>)
    ensures |r| == |es|
    decreases |es|
  {
    if es == [] then []
    else
      var s := Gated(sys, k, es[0]);
      [(s.st, s.next)] + Answers(sys, s.k, es[1..])
  }

  function AnswersUngated(sys: System, k: Kernel, es: seq<Event>): (r: seq<(Status, Option<Pid>)>)
    ensures |r| == |es|
    decreases |es|
  {
    if es == [] then []
    else
      var s := Ungated(sys, k, es[0]);
      [(s.st, s.next)] + AnswersUngated(sys, s.k, es[1..])
  }

  lemma StepAlike(sys: System, a: Kernel, b: Kernel, e: Event)
    requires Alike(a, b) && Inv(a) && InTable(sys, |a.current|) && Legal(a, e)
    ensures AlikeSel(Gated(sys, a, e), Ungated(sys, b, e)) && Gated(sys, a, e).k == Step(sys, a, e)
  {
    hide Inv, InTable, Gate, EnactFault, OnTick, OnTickUngated, DrainFrom;
    match e
    case Svc(id, call) => GateLaw();
    case Fault(id, action, onCpu) => EnactLaw();
    case Tick(cpu) =>
      var d, r := SystickOk(sys, a, cpu);
      DueGateInvisible(d, sys.sched);
      DrainAlike(a, b, sys.policy, cpu, 0, |a.procs|);
      UngatedAlike(d, DrainFrom(b, sys.policy, cpu, 0, |b.procs|), sys.sched);
  }

  /** Whatever happens, scanning in every tick makes no difference: the same calls are answered
      and the same processes selected, and the same state is left but for the bound. */
  lemma {:induction false} RunGateInvisible(sys: System, k: Kernel, other: Kernel, es: seq<Event>)
    requires Alike(k, other) && Inv(k) && InTable(sys, |k.current|) && LegalRun(sys, k, es)
    ensures RunUngated(sys, other, es) == Run(sys, k, es).(nextDue := RunUngated(sys, other, es).nextDue)
    ensures AnswersUngated(sys, other, es) == Answers(sys, k, es)
    decreases |es|
  {
    hide Inv, InTable, Gated, Ungated, Step, Legal;
    if es != [] {
      StepAlike(sys, k, other, es[0]);
      StepOk(sys, k, es[0]);
      RunGateInvisible(sys, Step(sys, k, es[0]), Ungated(sys, other, es[0]).k, es[1..]);
    }
  }
}

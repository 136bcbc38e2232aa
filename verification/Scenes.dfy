/** Stages for concrete runs: systems of one partition whose processes have no period and no
    deadline, and what each kind of event does there. */
module Scenes {
  import opened Wrappers
  import opened KernelState
  import opened Order
  import opened Placement
  import opened KernelCalls
  import opened Invariants
  import opened Blocking
  import opened Mutexes
  import opened Timing
  import opened Ticks
  import opened Recovery
  import opened Gates
  import opened Footprints
  import opened Runs
  import opened Wakeups
  import opened Startup
  import opened Inheritance
  import Frame

  /** One partition that has every tick. */
  const SOLO: System := System(Frame.Schedule([Frame.FrameSlot(0, 1)], 1), [])

  lemma SoloIsAccepted()
    ensures Frame.Accepted(SOLO.sched.slots) && SOLO.sched.major == Frame.Length(SOLO.sched.slots)
    ensures forall t: nat :: Frame.PartitionAt(SOLO.sched, t) == Some(0)
    ensures Configured(SOLO, 1) && InTable(SOLO, 1)
  {
    var s := SOLO.sched.slots;
    assert s[..0] == [];
    forall t: nat ensures Frame.PartitionAt(SOLO.sched, t) == Some(0) { assert t % 1 == 0; }
  }

  /** A process of the partition without timing, that is not suspended. */
  predicate Simple(c: Pcb) {
    c.partition == 0 && c.period == 0 && c.capacity == 0 && c.state in {Ready, Running, Blocked}
  }

  /** A READY process of partition 0 without timing. */
  function Plain(priority: nat): Pcb {
    Pcb(0, priority, priority, Ready, TICK_NONE, NoList, NoOp, Ok, false, 0, 0, 0, TICK_NONE, false, false, 0)
  }

  ghost predicate Stage(k: Kernel) {
    && Inv(k) && Exact(k) && |k.current| == 1 && k.halted == [false] && k.pending == {} && Safe(k, 0)
    && forall i :: 0 <= i < |k.procs| ==> Simple(k.procs[i])
  }

  /** Process id has the CPU. */
  ghost predicate OnCpu(k: Kernel, id: Pid) {
    k.current == [Some(id)]
  }

  lemma RunnerRuns(k: Kernel, id: Pid)
    requires Stage(k) && OnCpu(k, id)
    ensures IsProc(k, id) && k.procs[id].state == Running && Legal(k, Svc(id, YieldCall))
    ensures forall i :: 0 <= i < |k.procs| && k.procs[i].state == Running ==> i == id
    ensures k.procs[id].waitlist == NoList && !k.procs[id].timedWaiting && !k.procs[id].periodicWaiting
  {
    assert CurrentOk(k, 0);
    assert ProcOk(k, {}, id);
    forall i: nat | i < |k.procs| && k.procs[i].state == Running ensures i == id { assert ProcOk(k, {}, i); }
  }

  // ---------------------------------------------------------------- calls

  lemma CallKeepsStage(k: Kernel, id: Pid, call: Call) returns (r: Sel)
    requires Stage(k) && OnCpu(k, id) && id < |k.procs| && !LosesInheritance(k, id, call)
    ensures Legal(k, Svc(id, call)) && r == Gate(k, id, call) && Step(SOLO, k, Svc(id, call)) == r.k
    ensures Stage(r.k) && r.k.tick == k.tick && |r.k.procs| == |k.procs|
    ensures forall i :: 0 <= i < |k.procs| ==>
              SameSettings(k.procs[i], r.k.procs[i]) && (i != id ==> Spared(k.procs[i], r.k.procs[i]))
  {
    RunnerRuns(k, id);
    hide Inv, Exact, Gate, Safe, LosesInheritance, ReleaseKept, OpHonest, SameTimes;
    r := GateOk(k, id, call);
    forall i | 0 <= i < |k.procs| ensures Simple(r.k.procs[i]) {
      assert SameSettings(k.procs[i], r.k.procs[i]);
    }
  }

  /** Nobody READY is more urgent: the check after a call lets the caller go on. */
  lemma CallerGoesOn(k: Kernel, id: Pid)
    requires Placed(k, {}) && id < |k.procs| && k.procs[id].partition == 0
    requires k.procs[id].state == Running ==> NoneAbove(k, 0, id)
    ensures PreemptCheck(k, id) == k
  {
    if IsProc(k, id) && k.procs[id].state == Running && HasHigher(k, 0, k.procs[id].priority) {
      HeadIsReady(k, {}, 0);
    }
  }

  lemma FreeLock(k: Kernel, id: Pid, m: nat, timeout: nat) returns (r: Kernel)
    requires Stage(k) && OnCpu(k, id) && MutexFor(k, m, id) && k.mutexes[m].owner.None?
    ensures Legal(k, Svc(id, LockCall(m, timeout))) && r == Step(SOLO, k, Svc(id, LockCall(m, timeout)))
    ensures Stage(r) && r == WithOwner(k, m, Some(id))
  {
    RunnerRuns(k, id);
    var g := CallKeepsStage(k, id, LockCall(m, timeout));
    hide Inv, Lock, NowWaiting, Untouched, Exact, PreemptCheck;
    LockOutcome(k, m, timeout, id);
    LockOk(k, m, timeout, id);
    r := Lock(k, m, timeout, id).k;
    StillPlaced(r);
    CallerGoesOn(r, id);
  }

  lemma StillPlaced(k: Kernel)
    requires Inv(k)
    ensures Placed(k, {})
  {
  }

  /** The caller joins the wait list, and somebody who was READY takes the CPU. */
  lemma WaitingLock(k: Kernel, id: Pid, m: nat, timeout: nat) returns (r: Kernel, next: Pid)
    requires Stage(k) && OnCpu(k, id) && LockWaits(k, m, timeout, id)
    requires k.mutexes[m].owner.value < |k.procs| && k.procs[k.mutexes[m].owner.value].priority <= k.procs[id].priority
    ensures Legal(k, Svc(id, LockCall(m, timeout))) && r == Step(SOLO, k, Svc(id, LockCall(m, timeout)))
    ensures Stage(r) && OnCpu(r, next) && |r.procs| == |k.procs| && r.tick == k.tick && Prios(r) == Prios(k)
    ensures next < |k.procs| && next != id && k.procs[next].state == Ready
    ensures Waiters(r, OnMutex(m)) == Waiters(k, OnMutex(m)) + [id] && r.mutexes == k.mutexes
    ensures forall h :: h != OnMutex(m) ==> Waiters(r, h) == Waiters(k, h)
    ensures id < |k.procs| && r.procs[id].waitlist == OnMutex(m) && r.procs[id].wakeTick == TickAfter(k, timeout).1
    ensures SameSettings(k.procs[id], r.procs[id])
    ensures forall i :: 0 <= i < |k.procs| && i != id ==> Gentle(k.procs[i], r.procs[i])
  {
    hide Inv, Exact, Safe, Lock, LockWaits, Lost, NoneAbove, Spared, TickAfter, Prios, Simple;
    RunnerRuns(k, id);
    LockWaitsMeans(k, m, timeout, id);
    UrgentOwnerStays(k, m, timeout, id);
    var g := CallKeepsStage(k, id, LockCall(m, timeout));
    r := g.k;
    LockOutcome(k, m, timeout, id);
    LockOk(k, m, timeout, id);
    var s := Lock(k, m, timeout, id);
    assert r == s.k;
    next := s.next.value;
    assert r.current == [Some(next)];
    RunnerRuns(r, next);
    forall i | 0 <= i < |k.procs| && i != id ensures Gentle(k.procs[i], r.procs[i]) {
      StillListed(k, r, OnMutex(m), id, i);
    }
  }

  /** A process that was waiting and whose lists only grew was not woken. */
  lemma StillListed(k: Kernel, r: Kernel, h: ListId, id: Pid, i: Pid)
    requires Inv(k) && Inv(r) && i < |k.procs| == |r.procs| && Spared(k.procs[i], r.procs[i])
    requires Waiters(r, h) == Waiters(k, h) + [id] && forall g :: g != h ==> Waiters(r, g) == Waiters(k, g)
    ensures Gentle(k.procs[i], r.procs[i])
  {
    var g := k.procs[i].waitlist;
    assert ProcOk(k, {}, i) && ListOk(r, {}, g);
  }

  /** With its wait list full the lock is refused, and its operation stays on record. */
  lemma RefusedLock(k: Kernel, id: Pid, m: nat, timeout: nat) returns (r: Kernel)
    requires Stage(k) && OnCpu(k, id) && Raises(k, m, timeout, id) && |Waiters(k, OnMutex(m))| >= WAITLIST_MAX
    requires forall i :: !Candidate(k, 0, i)
    ensures Legal(k, Svc(id, LockCall(m, timeout))) && r == Step(SOLO, k, Svc(id, LockCall(m, timeout)))
    ensures Stage(r) && OnCpu(r, id) && r.tick == k.tick && id < |k.procs| && r.procs[id].op == LockOp(m)
    ensures Untouched(k, r)
  {
    RunnerRuns(k, id);
    assert !LockWaits(k, m, timeout, id);
    hide Inv, Exact, Lock, NowWaiting, PreemptCheck, Safe, Lost, LockWaits, NoneAbove;
    var g := CallKeepsStage(k, id, LockCall(m, timeout));
    LockOutcome(k, m, timeout, id);
    LockOk(k, m, timeout, id);
    r := Lock(k, m, timeout, id).k;
    StillPlaced(r);
    NobodyReadyStill(k, r, id);
    CallerGoesOn(r, id);
  }

  lemma NobodyReadyStill(k: Kernel, r: Kernel, id: Pid)
    requires Untouched(k, r) && id < |k.procs| && forall i :: !Candidate(k, 0, i)
    ensures NoneAbove(r, 0, id)
  {
    forall j: nat | j < |r.procs| ensures r.procs[j].state == k.procs[j].state && !Candidate(k, 0, j) {}
  }

  /** The caller sleeps for d ticks, and the head of the best queue takes the CPU, if anybody is READY. */
  lemma Nap(k: Kernel, id: Pid, d: nat) returns (r: Kernel)
    requires Stage(k) && OnCpu(k, id) && 0 < d && k.tick + d < TICK_NONE
    ensures Legal(k, Svc(id, TimedWaitCall(d))) && r == Step(SOLO, k, Svc(id, TimedWaitCall(d)))
    ensures Stage(r) && |r.procs| == |k.procs| && r.tick == k.tick && id < |k.procs|
    ensures r.procs[id] == k.procs[id].(state := Blocked, timedWaiting := true, wakeTick := k.tick + d)
    ensures forall i :: 0 <= i < |k.procs| && i != id ==>
            r.procs[i] == k.procs[i].(state := r.procs[i].state) && Gentle(k.procs[i], r.procs[i])
    ensures r.lists == k.lists && r.mutexes == k.mutexes
    ensures if Best(k, 0) > MAX_PRIORITY then r.current == [None] && forall i :: !Candidate(k, 0, i)
            else OnCpu(r, Queue(k, Slot(0, Best(k, 0)))[0]) && Candidate(k, 0, Queue(k, Slot(0, Best(k, 0)))[0])
  {
    hide Inv, Exact, TimedWait, NoneAbove, Safe, BestFrom, Simple, Queue;
    RunnerRuns(k, id);
    var g := CallKeepsStage(k, id, TimedWaitCall(d));
    r := g.k;
    var t := NapDispatches(k, id, d);
    assert t.k.procs[id].state == Blocked;
    assert r == t.k;
  }

  lemma NapDispatches(k: Kernel, id: Pid, d: nat) returns (t: Sel)
    requires Stage(k) && IsProc(k, id) && k.procs[id].state == Running && OnCpu(k, id) && 0 < d
             && k.tick + d < TICK_NONE
    ensures t == TimedWait(k, id, d) && t.st == Pending
    ensures Asleep(k, t, id, k.procs[id].(state := Blocked, timedWaiting := true, wakeTick := k.tick + d))
    ensures t.next == if Best(k, 0) > MAX_PRIORITY then None else Some(Queue(k, Slot(0, Best(k, 0)))[0])
    ensures if Best(k, 0) > MAX_PRIORITY then forall i :: !Candidate(k, 0, i)
            else Candidate(k, 0, Queue(k, Slot(0, Best(k, 0)))[0])
  {
    t := TimedWaitOk(k, id, d);
    BlockOk(k, 0, id);
    if Best(k, 0) > MAX_PRIORITY {
      CanBlockIs(k, 0);
    } else {
      assert CanBlock(k, 0);
    }
  }

  /** An owner that nobody waits for and that runs at the top priority gives its mutex up, and
      nothing else changes. */
  lemma QuietUnlock(k: Kernel, id: Pid, m: nat) returns (r: Kernel)
    requires Stage(k) && OnCpu(k, id) && MutexFor(k, m, id) && k.mutexes[m].owner == Some(id)
    requires Waiters(k, OnMutex(m)) == [] && k.procs[id].base == k.procs[id].priority == 0
    ensures Legal(k, Svc(id, UnlockCall(m))) && r == Step(SOLO, k, Svc(id, UnlockCall(m)))
    ensures Stage(r) && r == WithOwner(k, m, None)
  {
    RunnerRuns(k, id);
    var g := CallKeepsStage(k, id, UnlockCall(m));
    QuietHandOff(k, id, m);
    hide Inv, Exact, HandOff, PreemptCheck, Safe;
    r := WithOwner(k, m, None);
    UnlockOk(k, m, id);
    StillPlaced(r);
    CallerGoesOn(r, id);
  }

  lemma QuietHandOff(k: Kernel, id: Pid, m: nat)
    requires Placed(k, {}) && id < |k.procs| && k.procs[id].state == Running && m < |k.mutexes|
             && k.mutexes[m].owner == Some(id)
    requires Waiters(k, OnMutex(m)) == [] && k.procs[id].base == k.procs[id].priority == 0
    ensures HandOff(k, m) == Out(Ok, WithOwner(k, m, None))
  {
    var f := WithOwner(k, m, None);
    assert ProcOk(k, {}, id);
    assert PassOn(k, m) == Out(Ok, f) by { assert BestWaiter(f, [], 0) == None; }
    RetouchedPlaced(k, f, {});
    LeastOwnedIs(f, {}, id, |f.mutexes|, 0);
    assert WantedPriority(f, id, NO_CLAIM) == 0;
    assert f.procs[id := f.procs[id].(priority := 0)] == f.procs;
    assert SetPriority(f, id, 0) == Out(Ok, f);
    assert NextInChain(f, id) == None;
    assert RefreshChain(f, None, NO_CLAIM, |f.mutexes|) == Out(Ok, f);
  }

  // ---------------------------------------------------------------- ticks

  lemma NoMisses(k: Kernel, now: nat)
    requires Stage(k)
    ensures TickMisses(k, now) == {}
  {
    forall i | 0 <= i < |k.procs|
      ensures !HasMissed(ReleasedPcb(ExpiredPcb(k.procs[i], now), now), now, HaltedOf(k, k.procs[i]))
    {
      assert ClockOk(k, k.procs[i]) && Simple(k.procs[i]);
    }
  }

  /** A tick: `s` is the state after the scans, from which the partition is dispatched. */
  lemma TickParts(k: Kernel) returns (s: Kernel, r: Sel)
    requires Stage(k)
    ensures Legal(k, Tick(None)) && Step(SOLO, k, Tick(None)) == r.k && r == PartitionSelect(s, 0, false)
    ensures Inv(s) && Exact(s) && Scanned(k.(tick := Wrap(k.tick + 1)), s, Wrap(k.tick + 1)) && s.current == k.current
            && s.halted == k.halted
    ensures var t := k.(tick := Wrap(k.tick + 1)); s == if t.tick >= t.nextDue then RefreshDue(Scans(t)) else t
    ensures Inv(r.k) && Exact(r.k) && OneTick(k, r.k) && Safe(r.k, 0)
  {
    hide Inv, Exact, Simple, OnTick, Scanned, OneTick, Safe, Frame.PartitionAt, PartitionSelect;
    SoloIsAccepted();
    DrainEnds(k, [], None, 0, |k.procs|);
    var d;
    d, r := SystickOk(SOLO, k, None);
    s := ScannedOrIdle(k);
    SameCurrent(k, k.(tick := Wrap(k.tick + 1)), s);
    hide Scans, RefreshDue;
    assert r == OnTick(k, SOLO.sched);
    OnTickIs(k, s, r);
    var r' := OnTickOk(k, SOLO.sched);
  }

  lemma OnTickIs(k: Kernel, s: Kernel, r: Sel)
    requires r == OnTick(k, SOLO.sched) && Frame.PartitionAt(SOLO.sched, k.tick) == Some(0)
    requires var t := k.(tick := Wrap(k.tick + 1)); s == if t.tick >= t.nextDue then RefreshDue(Scans(t)) else t
    ensures r == PartitionSelect(s, 0, false)
  {
    hide Scans, RefreshDue, PartitionSelect, Frame.PartitionAt;
  }

  /** A tick keeps the stage, and each process either waits on or has its wait ended by it. */
  lemma TickKeepsStage(k: Kernel) returns (s: Kernel, r: Kernel)
    requires Stage(k)
    ensures Legal(k, Tick(None)) && Step(SOLO, k, Tick(None)) == r && r == PartitionSelect(s, 0, false).k
    ensures Inv(s) && Exact(s) && s.current == k.current && s.halted == k.halted && |s.procs| == |k.procs|
    ensures forall i :: 0 <= i < |k.procs| ==>
              s.procs[i] == Ticked(k.procs[i], Wrap(k.tick + 1), false).(priority := s.procs[i].priority)
    ensures Stage(r) && r.tick == Wrap(k.tick + 1) && |r.procs| == |k.procs| && r.mutexes == k.mutexes
    ensures forall i :: 0 <= i < |k.procs| ==> Gentle(Ticked(k.procs[i], r.tick, false), r.procs[i])
  {
    hide Inv, Exact, Safe, PartitionSelect, Ticked, BestFrom;
    var o;
    s, o := TickParts(k);
    r := o.k;
    NoMisses(k, r.tick);
    forall i | 0 <= i < |k.procs| ensures HaltedOf(k, k.procs[i]) == false { assert Simple(k.procs[i]); }
    var t := k.(tick := Wrap(k.tick + 1));
    forall i | 0 <= i < |k.procs| ensures HaltedOf(t, t.procs[i]) == false { assert HaltedOf(k, k.procs[i]) == false; }
    forall i | 0 <= i < |k.procs| ensures Simple(r.procs[i]) {
      assert Simple(k.procs[i]);
      TickedSimple(k.procs[i], r.tick, r.procs[i]);
    }
  }

  lemma TickedSimple(c: Pcb, now: nat, c': Pcb)
    requires Simple(c) && Gentle(Ticked(c, now, false), c')
    ensures Simple(c')
  {
  }

  // ---------------------------------------------------------------- who runs, and how urgently

  lemma FirstIsIn(l: seq<Pid>)
    ensures l == [] || exists i :: i in l
  {
    if l != [] { assert l[0] in l; }
  }

  /** With nobody on a wait list every process has its base priority. */
  lemma NobodyRaised(k: Kernel)
    requires Inv(k) && Exact(k) && forall i :: 0 <= i < |k.procs| ==> k.procs[i].waitlist == NoList
    ensures forall i :: 0 <= i < |k.procs| ==> k.procs[i].priority == k.procs[i].base
    ensures forall h :: Waiters(k, h) == []
  {
    forall h ensures Waiters(k, h) == [] {
      FirstIsIn(Waiters(k, h));
      assert ListOk(k, {}, h);
    }
    forall i: nat | i < |k.procs| ensures k.procs[i].priority == k.procs[i].base {
      assert Tight(GraphOf(k), Prios(k), i);
      forall j: nat | j < |k.procs| ensures Boss(k, j) == None {}
    }
  }

  /** A runnable process more urgent than all others runs. */
  lemma TopRuns(k: Kernel, h: Pid)
    requires Stage(k) && h < |k.procs| && k.procs[h].state in {Ready, Running}
    requires forall i :: 0 <= i < |k.procs| && i != h ==> k.procs[i].priority > k.procs[h].priority
    ensures OnCpu(k, h)
  {
    assert ProcOk(k, {}, h) && CurrentOk(k, 0);
    if k.procs[h].state == Ready { assert Candidate(k, 0, h); }
  }

  /** A process that is preempted in a tick by somebody more urgent goes to the front of its level. */
  lemma PreemptedIsFirst(s: Kernel, o: Pid, h: Pid)
    requires Inv(s) && s.current == [Some(o)] && s.halted == [false] && o < |s.procs|
    requires Candidate(s, 0, h) && s.procs[h].priority < s.procs[o].priority
    ensures var q := Queue(PartitionSelect(s, 0, false).k, Slot(0, s.procs[o].priority)); q != [] && q[0] == o
  {
    assert ProcOk(s, {}, h);
    BestIsLeast(s, {}, 0, h);
    hide PartitionSelect, BestFrom;
    DispatchOutcome(s, 0, false);
  }

  /** With the only process of level 0 on the CPU, the first of level 1 is next. */
  lemma NextIsFirst(k: Kernel, o: Pid)
    requires Inv(k) && OnCpu(k, 0) && 0 < |k.procs| && k.procs[0].state == Running
    requires forall i :: 0 < i < |k.procs| ==> k.procs[i].priority == 1
    requires Queue(k, Slot(0, 1)) != [] && Queue(k, Slot(0, 1))[0] == o
    ensures Best(k, 0) == 1
  {
    FirstIsIn(Queue(k, Slot(0, 0)));
    assert QueueOk(k, Slot(0, 0));
    LeastLevel(k, 0, 0, 1);
  }

  lemma SomebodyNext(k: Kernel, i: Pid)
    requires Stage(k) && Candidate(k, 0, i)
    ensures Best(k, 0) <= MAX_PRIORITY
  {
    assert ProcOk(k, {}, i);
    BestIsLeast(k, {}, 0, i);
  }

  lemma NextLevel(k: Kernel, i: Pid)
    requires Stage(k) && Candidate(k, 0, i)
    requires forall j :: 0 <= j < |k.procs| && k.procs[j].state == Ready ==> k.procs[j].priority == 1
    ensures Best(k, 0) == 1
  {
    SomebodyNext(k, i);
    HeadIsReady(k, {}, 0);
  }

  /** The caller goes behind its peers and one of them runs; nothing else changes. */
  lemma GivesWay(k: Kernel, id: Pid, i: Pid) returns (r: Kernel, next: Pid)
    requires Stage(k) && OnCpu(k, id) && id < |k.procs| && k.procs[id].priority == 1 && Candidate(k, 0, i)
    requires forall j :: 0 <= j < |k.procs| && k.procs[j].state == Ready ==> k.procs[j].priority == 1
    ensures Legal(k, Svc(id, YieldCall)) && r == Step(SOLO, k, Svc(id, YieldCall))
    ensures Stage(r) && OnCpu(r, next) && Candidate(k, 0, next) && |r.procs| == |k.procs| && r.tick == k.tick
    ensures r.mutexes == k.mutexes && r.lists == k.lists
    ensures forall j :: 0 <= j < |k.procs| ==>
            r.procs[j] == k.procs[j].(state := r.procs[j].state) && Gentle(k.procs[j], r.procs[j])
  {
    RunnerRuns(k, id);
    NextLevel(k, i);
    HeadIsReady(k, {}, 0);
    var g := CallKeepsStage(k, id, YieldCall);
    r := g.k;
    next := Queue(k, Slot(0, 1))[0];
    hide Exact, Safe, PartitionSelect, BestFrom, Gate, NoneAbove;
    YieldSelects(k, id, r, next);
  }

  lemma YieldSelects(k: Kernel, id: Pid, r: Kernel, next: Pid)
    requires Stage(k) && OnCpu(k, id) && IsProc(k, id) && k.procs[id].priority == 1 == Best(k, 0)
             && r == Gate(k, id, YieldCall).k
    requires Queue(k, Slot(0, 1)) != [] && Queue(k, Slot(0, 1))[0] == next
    ensures OnCpu(r, next) && Rescheduled(k, r)
  {
    var y := YieldRotates(k, 0);
    assert Turns(k, 0) == [id] + Queue(k, Slot(0, 1));
    assert y.k == r;
    hide PartitionSelect, NoneAbove, Rescheduled;
    assert y == PartitionSelect(k, 0, true) by { assert Simple(k.procs[id]); }
    SelectOk(k, 0, true);
  }

  // ---------------------------------------------------------------- from power-on

  lemma {:induction false} RearmTouchesTimes(k: Kernel, i: Pid)
    ensures var r := RearmAll(k, i, |k.procs|); r == k.(procs := r.procs, nextDue := r.nextDue)
    decreases |k.procs| - i
  {
    if i < |k.procs| {
      RearmTouchesTimes(if IsProc(k, i) then Rearm(k, i, 0) else k, i + 1);
    }
  }

  /** Runnable, with the record it was created with. */
  predicate Awake(c: Pcb, c': Pcb) {
    c'.state in {Ready, Running} && c'.waitlist == NoList && c'.op == c.op && SameSettings(c, c')
  }

  lemma BootedRecord(c: Pcb, c': Pcb)
    requires Simple(c) && c.state == Ready && c.waitlist == NoList && Gentle(Ticked(Begun(c, 0), 1, false), c')
    ensures Awake(c, c') && Simple(c') && !HasMissed(ReleasedPcb(ExpiredPcb(Begun(c, 0), 1), 1), 1, false)
  {
  }

  /** The first tick, process by process. */
  lemma FirstTick(k: Kernel, a: Kernel, b: Kernel)
    requires OneTick(a, b) && a.tick == 0 && |a.procs| == |k.procs| && a.halted == [false] && a.pending == {}
    requires forall i :: 0 <= i < |k.procs| ==>
             Simple(k.procs[i]) && k.procs[i].state == Ready && k.procs[i].waitlist == NoList
    requires forall i :: 0 <= i < |k.procs| ==> a.procs[i] == Begun(k.procs[i], 0)
    ensures forall i :: 0 <= i < |k.procs| ==> Awake(k.procs[i], b.procs[i]) && Simple(b.procs[i])
    ensures b.pending == {} && b.halted == [false] && b.tick == 1 && b.mutexes == a.mutexes && |b.procs| == |k.procs|
  {
    hide Ticked, HasMissed, ReleasedPcb, ExpiredPcb, Awake;
    forall i | 0 <= i < |k.procs|
      ensures Awake(k.procs[i], b.procs[i]) && Simple(b.procs[i])
      ensures !HasMissed(ReleasedPcb(ExpiredPcb(a.procs[i], 1), 1), 1, HaltedOf(a, a.procs[i]))
    {
      assert HaltedOf(a, a.procs[i]) == false;
      BootedRecord(k.procs[i], b.procs[i]);
    }
    assert TickMisses(a, 1) == {};
  }

  /** Booting READY processes without timing sets the stage: nobody waits, and all can run. */
  lemma BootSetsStage(k: Kernel) returns (b: Kernel)
    requires Created(k) && |k.current| == 1 && k.halted == [false] && k.pending == {}
    requires forall i :: 0 <= i < |k.procs| ==>
             Simple(k.procs[i]) && k.procs[i].state == Ready && k.procs[i].waitlist == NoList
    ensures b == Booted(k, SOLO) && Stage(b) && b.tick == 1 && b.mutexes == k.mutexes && |b.procs| == |k.procs|
    ensures forall i :: 0 <= i < |k.procs| ==> Awake(k.procs[i], b.procs[i])
  {
    hide Inv, Exact, OnTick, RearmAll, Safe, OneTick, Scanned, Ticked, Frame.PartitionAt, Begun, NoneAbove, Simple,
         Created, Awake, NotWaiting;
    SoloIsAccepted();
    var r := RegistrationEstablishes(k);
    RegisteredWaits(k, r);
    var z := ZeroTick(r);
    var a := RearmAllOk(z, 0);
    RearmTouchesTimes(z, 0);
    var t := OnTickOk(a, SOLO.sched);
    TickSizes(a, t.k);
    TickSafe(a, SOLO.sched, t);
    b := t.k;
    forall i | 0 <= i < |k.procs|
      ensures a.procs[i] == Begun(k.procs[i], 0)
    {
      assert IsProc(z, i) by { assert Simple(k.procs[i]); }
    }
    FirstTick(k, a, b);
  }

  // ---------------------------------------------------------------- putting events together

  /** A run that starts at b and has come to k. */
  ghost predicate CameTo(b: Kernel, es: seq<Event>, k: Kernel) {
    LegalRun(SOLO, b, es) && k == Run(SOLO, b, es)
  }

  lemma OneMore(b: Kernel, es: seq<Event>, k: Kernel, e: Event) returns (all: seq<Event>)
    requires CameTo(b, es, k) && Legal(k, e)
    ensures all == es + [e] && CameTo(b, all, Step(SOLO, k, e))
  {
    hide Step, Legal;
    all := es + [e];
    RunJoins(SOLO, b, es, [e]);
    assert [e][1..] == [];
    assert Run(SOLO, k, [e]) == Run(SOLO, Step(SOLO, k, e), []) && LegalRun(SOLO, Step(SOLO, k, e), []);
  }

  // ---------------------------------------------------------------- ticks that end no wait on a list

  ghost predicate NobodyDue(k: Kernel, now: nat) {
    forall i :: 0 <= i < |k.procs| ==> !Expired(k, i, now)
  }

  lemma StillNobodyDue(k: Kernel, t: Kernel, now: nat)
    requires NobodyDue(k, now) && t.procs == k.procs
    ensures NobodyDue(t, now)
  {
    forall i | 0 <= i < |t.procs| ensures !Expired(t, i, now) { assert !Expired(k, i, now); }
  }

  lemma {:induction false} NobodyExpires(k: Kernel, now: nat, i: Pid, n: nat)
    requires forall j :: i <= j < n ==> !Expired(k, j, now)
    ensures ExpireFrom(k, now, i, n) == Scan(k, false)
    decreases n - i
  {
    if i < n { NobodyExpires(k, now, i + 1, n); }
  }

  /** When nobody gives up, no priority is refreshed. */
  lemma QuietScans(t: Kernel)
    requires Inv(t) && NobodyDue(t, t.tick)
    ensures Prios(RefreshDue(Scans(t))) == Prios(t)
  {
    hide Inv, Exact, ExpireTimeouts, ReleasePeriodic, CheckDeadlines, NobodyDue, HasMissed, Earliest;
    ScanIdles(t);
    var a := ReleasePeriodicOk(t, t.tick, 0);
    var b := CheckDeadlinesOk(a, t.tick, 0);
  }

  lemma ScanIdles(t: Kernel)
    requires NobodyDue(t, t.tick)
    ensures ExpireTimeouts(t, t.tick) == t
  {
    NobodyExpires(t, t.tick, 0, |t.procs|);
  }

  lemma QuietTick(k: Kernel) returns (r: Kernel)
    requires Stage(k) && NobodyDue(k, Wrap(k.tick + 1))
    ensures r == Step(SOLO, k, Tick(None)) && Prios(r) == Prios(k)
    ensures forall h :: Waiters(r, h) == Waiters(k, h)
  {
    var o, s;
    s, o := TickParts(k);
    r := o.k;
    var t := k.(tick := Wrap(k.tick + 1));
    LaterInv(k, t.tick);
    assert NobodyDue(t, t.tick) by { StillNobodyDue(k, t, t.tick); }
    hide Inv, Exact, Scans, RefreshDue, PartitionSelect, Safe, OneTick, Scanned, NoneAbove, Expired;
    if t.tick >= t.nextDue { QuietScans(t); }
    QuietDispatch(k, s, o);
  }

  lemma QuietDispatch(k: Kernel, s: Kernel, o: Sel)
    requires Inv(s) && Scanned(k.(tick := Wrap(k.tick + 1)), s, Wrap(k.tick + 1)) && s.current == k.current
             && |k.current| == 1
    requires o == PartitionSelect(s, 0, false) && Prios(s) == Prios(k)
    requires NobodyDue(k, Wrap(k.tick + 1))
    ensures Prios(o.k) == Prios(k) && forall h :: Waiters(o.k, h) == Waiters(k, h)
  {
    hide PartitionSelect, NoneAbove, Ticked, TickMisses;
    SelectOk(s, 0, false);
    var t := k.(tick := Wrap(k.tick + 1));
    StillNobodyDue(k, t, t.tick);
    assert ExpiredSet(t, t.tick, 0, |t.procs|) == {};
    forall h ensures Waiters(o.k, h) == Waiters(k, h) {
      WithoutNone(Waiters(k, h));
      assert Waiters(t, h) == Waiters(k, h) && Waiters(s, h) == Without(Waiters(t, h), {});
    }
    assert Prios(o.k) == Prios(s);
  }
}

/** Whole runs: any sequence of system calls, ticks and faults. */
module Runs {
  import opened Wrappers
  import opened KernelState
  import opened Placement
  import opened KernelCalls
  import opened Invariants
  import opened Blocking
  import opened Mutexes
  import opened Timing
  import opened Ticks
  import opened Recovery
  import opened Gates
  import opened Inheritance
  import Frame

  /** What is fixed when the system is built. */
  datatype System = System(sched: Frame.Schedule, policy: seq<Action>)

  datatype Event =
    | Svc(id: Pid, call: Call)
    | Tick(cpu: Option<Pid>)
    | Fault(id: Pid, action: Action, onCpu: bool)

  function Step(sys: System, k: Kernel, e: Event): Kernel {
    match e
    case Svc(id, call) => Gate(k, id, call).k
    case Tick(cpu) => Systick(k, sys.sched, sys.policy, cpu).k
    case Fault(id, action, onCpu) => EnactFault(k, id, action, onCpu).k
  }

  /** Calls come from running processes of partitions that are not halted (a halt takes the
      partition off the CPU at once); faults concern processes. */
  predicate Legal(k: Kernel, e: Event) {
    match e
    case Svc(id, call) => IsProc(k, id) && k.procs[id].state == Running && k.procs[id].partition < |k.halted|
      && !k.halted[k.procs[id].partition]
    case Tick(cpu) => true
    case Fault(id, action, onCpu) => IsProc(k, id)
  }

  function Run(sys: System, k: Kernel, es: seq<Event>): Kernel
    decreases |es|
  {
    if es == [] then k else Run(sys, Step(sys, k, es[0]), es[1..])
  }

  predicate LegalRun(sys: System, k: Kernel, es: seq<Event>)
    decreases |es|
  {
    es == [] || (Legal(k, es[0]) && LegalRun(sys, Step(sys, k, es[0]), es[1..]))
  }

  /** The schedule only names partitions of the table. */
  ghost predicate InTable(sys: System, partitions: nat) {
    forall t: nat :: Frame.PartitionAt(sys.sched, t).Some? ==> Frame.PartitionAt(sys.sched, t).value < partitions
  }

  /** The schedule is one that initialisation accepts, for the partitions of the table. */
  predicate Configured(sys: System, partitions: nat) {
    && Frame.Accepted(sys.sched.slots) && sys.sched.major == Frame.Length(sys.sched.slots)
    && forall i :: 0 <= i < |sys.sched.slots| ==> sys.sched.slots[i].partition < partitions
  }

  lemma ConfiguredIsInTable(sys: System, partitions: nat)
    requires Configured(sys, partitions)
    ensures InTable(sys, partitions)
  {
    forall t: nat | Frame.PartitionAt(sys.sched, t).Some? ensures Frame.PartitionAt(sys.sched, t).value < partitions {
      Frame.LookupSucceeds(sys.sched.slots, t);
    }
  }

  // ---------------------------------------------------------------- one event

  /** An event that takes the owner's inherited claim away. */
  ghost predicate LosesClaimAt(k: Kernel, e: Event) {
    e.Svc? && e.id < |k.procs| && LosesInheritance(k, e.id, e.call)
  }

  /** The event restarts process i. */
  predicate RestartsAt(sys: System, k: Kernel, e: Event, i: Pid)
    requires i < |k.procs|
  {
    match e
    case Svc(id, call) => false
    case Tick(cpu) => WillRestart(k, sys.policy, i)
    case Fault(id, action, onCpu) => id == i && action == RestartProcess
  }

  lemma SystickOk(sys: System, k: Kernel, cpu: Option<Pid>) returns (d: Kernel, r: Sel)
    requires Inv(k) && InTable(sys, |k.current|)
    ensures d == DrainFrom(k, sys.policy, cpu, 0, |k.procs|)
            && r == OnTick(d, sys.sched) == Systick(k, sys.sched, sys.policy, cpu)
    ensures Inv(d) && Drained(k, d, sys.policy, 0, |k.procs|) && OneTick(d, r.k) && Inv(r.k)
            && (Exact(k) ==> Exact(r.k))
    ensures |d.procs| == |k.procs| == |r.k.procs| && |d.current| == |k.current| == |r.k.current| && d.tick == k.tick
    ensures r.st in {Ok, QueueEmpty} ==>
            Frame.PartitionAt(sys.sched, k.tick).Some? && Safe(r.k, Frame.PartitionAt(sys.sched, k.tick).value)
  {
    hide Inv, Exact, Drained, OneTick, Scanned, OnTick, DrainFrom, NoneAbove, Frame.PartitionAt;
    d := DrainOk(k, sys.policy, cpu, 0);
    DrainedSizes(k, d, sys.policy, 0, |k.procs|);
    r := OnTickOk(d, sys.sched);
    TickSizes(d, r.k);
    if r.st in {Ok, QueueEmpty} { TickSafe(d, sys.sched, r); }
  }

  lemma TickSizes(k: Kernel, r: Kernel)
    requires OneTick(k, r)
    ensures |r.procs| == |k.procs| && |r.current| == |k.current| && r.tick == Wrap(k.tick + 1)
  {
  }

  /** After a tick that dispatched, or found nobody to dispatch, the active partition is safe. */
  lemma TickSafe(k: Kernel, sched: Frame.Schedule, r: Sel)
    requires Inv(k) && r == OnTick(k, sched) && r.st in {Ok, QueueEmpty}
    requires var p := Frame.PartitionAt(sched, k.tick); p.Some? ==> p.value < |k.current|
    ensures Frame.PartitionAt(sched, k.tick).Some? && Safe(r.k, Frame.PartitionAt(sched, k.tick).value)
  {
    hide Inv, Exact, Scans, RefreshDue, PartitionSelect, NoneAbove, Scanned, Frame.PartitionAt;
    var s := ScannedOrIdle(k);
    SameCurrent(k, k.(tick := Wrap(k.tick + 1)), s);
    var slot := Frame.PartitionAt(sched, k.tick);
    if slot.Some? { SelectSafe(s, slot.value, r); }
  }

  lemma SelectSafe(s: Kernel, p: nat, r: Sel)
    requires Inv(s) && p < |s.current| && r == PartitionSelect(s, p, false) && r.st in {Ok, QueueEmpty}
    ensures Safe(r.k, p)
  {
    hide PartitionSelect, NoneAbove, Rescheduled, BestFrom;
    SelectOk(s, p, false);
    if r.st == QueueEmpty {
      forall i ensures !Candidate(s, p, i) {
        if Candidate(s, p, i) {
          assert ProcOk(s, {}, i);
          BestIsLeast(s, {}, p, i);
        }
      }
    }
  }

  /** Every event keeps the invariant, and the inheritance equation unless it loses a claim. */
  lemma StepOk(sys: System, k: Kernel, e: Event)
    requires Inv(k) && InTable(sys, |k.current|) && Legal(k, e)
    ensures var r := Step(sys, k, e);
            && Inv(r) && |r.procs| == |k.procs| && |r.current| == |k.current|
            && (Exact(k) && !LosesClaimAt(k, e) ==> Exact(r))
  {
    hide Inv, Exact, Gate, Systick, EnactFault, LosesInheritance, Drained, OneTick, Framed, Safe, InTable, Recovered,
         FreshRecord;
    match e
    case Svc(id, call) =>
      var r := GateOk(k, id, call);
      FramedSizes(k, r.k, id);
    case Tick(cpu) =>
      var d, r := SystickOk(sys, k, cpu);
    case Fault(id, action, onCpu) =>
      var r := EnactFaultOk(k, id, action, onCpu);
      RecoveredSizes(k, r.k, id, action);
  }

  lemma RecoveredSizes(k: Kernel, r: Kernel, id: Pid, action: Action)
    requires Recovered(k, r, id, action)
    ensures |r.procs| == |k.procs| && |r.current| == |k.current| && |r.halted| == |k.halted| && r.tick == k.tick
            && r.pending == k.pending
  {
  }

  // ---------------------------------------------------------------- safety over runs

  /** No event of the run loses a claim. */
  ghost predicate KeepsClaims(sys: System, k: Kernel, es: seq<Event>)
    decreases |es|
  {
    es == [] || (!LosesClaimAt(k, es[0]) && KeepsClaims(sys, Step(sys, k, es[0]), es[1..]))
  }

  /** The placement, object and clock invariants hold after every run; the inheritance
      equation too, as long as no lock of the run loses its claim. */
  lemma {:induction false} RunOk(sys: System, k: Kernel, es: seq<Event>)
    requires Inv(k) && InTable(sys, |k.current|) && LegalRun(sys, k, es)
    ensures var r := Run(sys, k, es);
            && Inv(r) && |r.procs| == |k.procs| && |r.current| == |k.current|
            && (Exact(k) && KeepsClaims(sys, k, es) ==> Exact(r))
    decreases |es|
  {
    hide Inv, Exact, Step, Legal, LosesClaimAt, InTable;
    if es != [] {
      StepOk(sys, k, es[0]);
      RunOk(sys, Step(sys, k, es[0]), es[1..]);
    }
  }

  /** Two runs in a row are one run. */
  lemma {:induction false} RunJoins(sys: System, k: Kernel, a: seq<Event>, b: seq<Event>)
    ensures Run(sys, k, a + b) == Run(sys, Run(sys, k, a), b)
    ensures LegalRun(sys, k, a + b) <==> LegalRun(sys, k, a) && LegalRun(sys, Run(sys, k, a), b)
    decreases |a|
  {
    hide Step, Legal;
    if a == [] {
      assert a + b == b;
    } else {
      assert (a + b)[0] == a[0] && (a + b)[1..] == a[1..] + b;
      RunJoins(sys, Step(sys, k, a[0]), a[1..], b);
    }
  }

  // ---------------------------------------------------------------- when no claim can be lost

  /** A lock on record is a wait for that mutex, under way. */
  ghost predicate Clean(k: Kernel) {
    forall i :: 0 <= i < |k.procs| ==> CleanRecord(k.procs[i])
  }

  predicate CleanRecord(c: Pcb) { c.op.LockOp? ==> c.waitlist == OnMutex(c.op.mutex) }

  /** Every wait list of a mutex has room for all of its partition's other processes. */
  ghost predicate ListsFit(k: Kernel) {
    forall p: nat :: |Members(k, p)| <= WAITLIST_MAX + 1
  }

  lemma SameMembersFit(k: Kernel, r: Kernel)
    requires ListsFit(k) && |r.procs| == |k.procs|
             && forall i :: 0 <= i < |k.procs| ==> SameSettings(k.procs[i], r.procs[i])
    ensures ListsFit(r)
  {
    forall p: nat ensures Members(r, p) == Members(k, p) {
      forall i | 0 <= i < |k.procs|
        ensures i in Members(r, p) <==> i in Members(k, p)
      {
        assert SameSettings(k.procs[i], r.procs[i]);
      }
    }
  }

  /** With clean records a walk only follows real waits, so it cannot lose a claim. */
  lemma CleanKeepsClaims(k: Kernel, m: nat, id: Pid)
    requires Inv(k) && Clean(k) && id < |k.procs|
    ensures !Lost(k, m, id)
  {
    forall i: nat | i < |k.procs| ensures Records(k)[i] == GraphOf(k).boss[i] {
      assert ProcOk(k, {}, i) && CleanRecord(k.procs[i]) && ListFine(k, k.procs[i].waitlist);
    }
    assert Records(k) == GraphOf(k).boss;
  }

  /** A wait list of a mutex with an owner and a running caller is never full. */
  lemma MutexListHasRoom(k: Kernel, m: nat, id: Pid)
    requires Inv(k) && ListsFit(k) && MutexFor(k, m, id) && k.mutexes[m].owner.Some? && k.mutexes[m].owner != Some(id)
             && k.procs[id].state == Running
    ensures |Waiters(k, OnMutex(m))| < WAITLIST_MAX
  {
    var l, o, p := Waiters(k, OnMutex(m)), k.mutexes[m].owner.value, k.procs[id].partition;
    assert MutexFine(k, m) && ListOk(k, {}, OnMutex(m)) && ListFine(k, OnMutex(m));
    var others := Members(k, p) - {id} - {o};
    forall i | i in l ensures i in others { assert MemberOk(k, OnMutex(m), i); }
    DistinctFit(l, others);
    assert |Members(k, p)| <= WAITLIST_MAX + 1;
  }

  lemma SparedClean(c: Pcb, c': Pcb)
    requires Spared(c, c') && CleanRecord(c)
    ensures CleanRecord(c')
  {
  }

  lemma FramedClean(k: Kernel, r: Kernel, id: Pid)
    requires Framed(k, r, id) && Clean(k) && (id < |r.procs| ==> CleanRecord(r.procs[id]))
    ensures Clean(r)
  {
    forall i | 0 <= i < |r.procs| ensures CleanRecord(r.procs[i]) {
      if i != id { SparedClean(k.procs[i], r.procs[i]); }
    }
  }

  lemma GateClean(k: Kernel, id: Pid, call: Call)
    requires Inv(k) && IsProc(k, id) && k.procs[id].state == Running && k.procs[id].partition < |k.halted|
             && !k.halted[k.procs[id].partition]
    requires Clean(k) && ListsFit(k)
    ensures Clean(Gate(k, id, call).k) && ListsFit(Gate(k, id, call).k) && !LosesInheritance(k, id, call)
  {
    hide Inv, Gate, Framed, Safe, Lost, LockWaits;
    var r := GateOk(k, id, call);
    FramedSettings(k, r.k, id);
    SameMembersFit(k, r.k);
    if call.LockCall? {
      NeverFull(k, id, call.mutex, call.timeout, r);
      CleanKeepsClaims(k, call.mutex, id);
    }
    assert CleanRecord(k.procs[id]);
    FramedClean(k, r.k, id);
  }

  lemma FramedSettings(k: Kernel, r: Kernel, id: Pid)
    requires Framed(k, r, id)
    ensures |r.procs| == |k.procs| && forall i :: 0 <= i < |k.procs| ==> SameSettings(k.procs[i], r.procs[i])
  {
  }

  lemma NeverFull(k: Kernel, id: Pid, m: nat, timeout: nat, r: Sel)
    requires Inv(k) && IsProc(k, id) && k.procs[id].state == Running && ListsFit(k)
             && r.st == Serve(k, id, LockCall(m, timeout)).st
    ensures r.st != PoolFull
  {
    hide Inv, Lock, NowWaiting, Untouched;
    LockOutcome(k, m, timeout, id);
    if r.st == PoolFull { MutexListHasRoom(k, m, id); }
  }

  lemma DrainedClean(k: Kernel, r: Kernel, policy: seq<Action>)
    requires Inv(k) && Drained(k, r, policy, 0, |k.procs|) && Clean(k) && ListsFit(k)
    ensures Clean(r) && ListsFit(r)
  {
    forall i: nat | i < |k.procs| ensures SameSettings(k.procs[i], r.procs[i]) && CleanRecord(r.procs[i]) {
      assert DrainedProc(k, r, policy, 0, |k.procs|, i) && CleanRecord(k.procs[i]) && ProcOk(k, {}, i);
    }
    hide Inv;
    SameMembersFit(k, r);
  }

  lemma TickClean(k: Kernel, r: Kernel)
    requires OneTick(k, r) && Clean(k) && ListsFit(k)
    ensures Clean(r) && ListsFit(r)
  {
    forall i | 0 <= i < |k.procs| ensures SameSettings(k.procs[i], r.procs[i]) && CleanRecord(r.procs[i]) {
      assert CleanRecord(k.procs[i]);
      assert Gentle(Ticked(k.procs[i], Wrap(k.tick + 1), HaltedOf(k, k.procs[i])), r.procs[i]);
    }
    SameMembersFit(k, r);
  }

  lemma RecoveredClean(k: Kernel, r: Kernel, id: Pid, action: Action)
    requires Inv(k) && IsProc(k, id) && Recovered(k, r, id, action) && Clean(k) && ListsFit(k) && |r.procs| == |k.procs|
    requires action == RestartProcess ==> RestartedTo(k.procs[id], r.procs[id], k.tick)
    ensures Clean(r) && ListsFit(r)
  {
    forall i: nat | i < |k.procs| ensures SameSettings(k.procs[i], r.procs[i]) && CleanRecord(r.procs[i]) {
      assert CleanRecord(k.procs[i]) && ProcOk(k, {}, i);
      if i == id && action != RestartProcess { assert r.procs[i] == k.procs[i]; }
    }
    hide Inv;
    SameMembersFit(k, r);
  }

  lemma StepClean(sys: System, k: Kernel, e: Event)
    requires Inv(k) && InTable(sys, |k.current|) && Legal(k, e) && Clean(k) && ListsFit(k)
    ensures Clean(Step(sys, k, e)) && ListsFit(Step(sys, k, e)) && !LosesClaimAt(k, e)
  {
    hide Inv, Clean, ListsFit, Gate, Systick, EnactFault, LosesInheritance, Drained, OneTick, Safe, InTable,
         Recovered, RestartedTo, DrainFrom, OnTick;
    match e
    case Svc(id, call) => GateClean(k, id, call);
    case Tick(cpu) =>
      var d, r := SystickOk(sys, k, cpu);
      DrainedClean(k, d, sys.policy);
      TickClean(d, r.k);
    case Fault(id, action, onCpu) =>
      var r := EnactFaultOk(k, id, action, onCpu);
      RecoveredClean(k, r.k, id, action);
  }

  /** Exact priority inheritance at every point of every run: when the wait lists are large
      enough for the processes of each partition, every process runs at exactly the minimum of
      its base priority and the priorities of all waiters on the mutexes it owns. */
  lemma {:induction false} RunIsExact(sys: System, k: Kernel, es: seq<Event>)
    requires Inv(k) && InTable(sys, |k.current|) && LegalRun(sys, k, es) && Exact(k) && Clean(k) && ListsFit(k)
    ensures KeepsClaims(sys, k, es) && Inv(Run(sys, k, es)) && Exact(Run(sys, k, es))
    decreases |es|
  {
    hide Inv, Exact, Clean, ListsFit, Step, Legal, LosesClaimAt, InTable;
    if es != [] {
      StepOk(sys, k, es[0]);
      StepClean(sys, k, es[0]);
      RunIsExact(sys, Step(sys, k, es[0]), es[1..]);
    }
  }

  /** No priority inversion by in-between processes: the process that runs is at least as
      urgent as anybody who waits, directly or through a chain, for a READY process. */
  lemma NoInversion(k: Kernel, p: nat, h: Pid, n: nat, o: Pid)
    requires Inv(k) && Exact(k) && Safe(k, p) && h < |k.procs| && o < |k.procs|
    requires Iter(GraphOf(k).boss, h, n) == Some(o) && k.procs[o].state == Ready && k.procs[o].partition == p
    ensures k.current[p].Some? && k.current[p].value < |k.procs|
            && k.procs[k.current[p].value].priority <= k.procs[h].priority
  {
    GraphEdges(k, {});
    assert Candidate(k, p, o);
    hide Inv;
    ChainIsMonotone(GraphOf(k), Prios(k), h, n, o);
  }

  /** The partition an event dispatches, if it does: the caller's, or the one that has the tick. */
  ghost predicate Dispatches(sys: System, k: Kernel, e: Event, p: nat) {
    match e
    case Svc(id, call) => id < |k.procs| && k.procs[id].partition == p
    case Tick(cpu) => Systick(k, sys.sched, sys.policy, cpu).st in {Ok, QueueEmpty}
      && Frame.PartitionAt(sys.sched, k.tick) == Some(p)
    case Fault(id, action, onCpu) => false
  }

  /** Scheduling safety over runs: after every call and every tick that dispatched, nobody READY
      in the partition outranks the process that runs there. */
  lemma RunIsSafe(sys: System, k: Kernel, es: seq<Event>, e: Event, p: nat)
    requires Inv(k) && InTable(sys, |k.current|) && LegalRun(sys, k, es + [e]) && Dispatches(sys, Run(sys, k, es), e, p)
    ensures Safe(Run(sys, k, es + [e]), p)
  {
    hide Inv, InTable, Exact, Step, Legal, LegalRun, Run, Dispatches, Safe, KeepsClaims;
    RunJoins(sys, k, es, [e]);
    RunOk(sys, k, es);
    var b := Run(sys, k, es);
    LastEvent(sys, b, e);
    EventIsSafe(sys, b, e, p);
  }

  lemma LastEvent(sys: System, b: Kernel, e: Event)
    ensures Run(sys, b, [e]) == Step(sys, b, e) && (LegalRun(sys, b, [e]) <==> Legal(b, e))
  {
    hide Step, Legal;
    assert [e][1..] == [];
    assert Run(sys, Step(sys, b, e), []) == Step(sys, b, e) && LegalRun(sys, Step(sys, b, e), []);
  }

  lemma EventIsSafe(sys: System, k: Kernel, e: Event, p: nat)
    requires Inv(k) && InTable(sys, |k.current|) && Legal(k, e) && Dispatches(sys, k, e, p)
    ensures Safe(Step(sys, k, e), p)
  {
    hide Inv, InTable, Exact, Gate, Systick, LosesInheritance, Safe, Frame.PartitionAt, OneTick, Drained, ReleaseKept,
         OpHonest;
    match e
    case Svc(id, call) => var r := GateOk(k, id, call);
    case Tick(cpu) => var d, r := SystickOk(sys, k, cpu);
  }

  /** No inversion over runs: as long as no claim is lost, whoever runs after such an event is
      at least as urgent as everybody who waits, directly or through a chain, for a process
      that is READY in the partition. */
  lemma RunNeverInverts(sys: System, k: Kernel, es: seq<Event>, e: Event, p: nat, h: Pid, n: nat, o: Pid)
    requires Inv(k) && Exact(k) && InTable(sys, |k.current|) && LegalRun(sys, k, es + [e])
             && KeepsClaims(sys, k, es + [e])
    requires Dispatches(sys, Run(sys, k, es), e, p)
    requires var r := Run(sys, k, es + [e]);
             && h < |r.procs| && o < |r.procs| && Iter(GraphOf(r).boss, h, n) == Some(o)
             && r.procs[o].state == Ready && r.procs[o].partition == p
    ensures var r := Run(sys, k, es + [e]);
            && p < |r.current| && r.current[p].Some? && r.current[p].value < |r.procs|
            && r.procs[r.current[p].value].priority <= r.procs[h].priority
  {
    hide Inv, InTable, Exact, LegalRun, Run, Dispatches, KeepsClaims;
    RunOk(sys, k, es + [e]);
    RunIsSafe(sys, k, es, e, p);
    NoInversion(Run(sys, k, es + [e]), p, h, n, o);
  }
}

/** Start-up: registering the created processes and starting the scheduler establish what
    every run then keeps. */
module Startup {
  import opened Wrappers
  import opened KernelState
  import opened Order
  import opened Placement
  import opened KernelCalls
  import opened Invariants
  import opened Blocking
  import opened Mutexes
  import opened Timing
  import opened Ticks
  import opened Recovery
  import opened Gates
  import opened Runs
  import opened Inheritance
  import Frame

  /** A process as created, possibly given a timing or suspended since. */
  predicate NewRecord(c: Pcb, partitions: nat) {
    && c.priority == c.base <= MAX_PRIORITY && c.state in {Unused, Ready, Suspended}
    && (c.state != Unused ==> c.partition < partitions)
    && c.waitlist == NoList && c.wakeTick == TICK_NONE && !c.periodicWaiting && !c.timedWaiting && !c.op.LockOp?
  }

  /** Nothing has run yet: no queue, list, owner or current process. */
  ghost predicate Created(k: Kernel) {
    && |k.halted| == |k.current| && Fits(k) && Clocked(k)
    && (forall i :: 0 <= i < |k.procs| ==> NewRecord(k.procs[i], |k.current|))
    && (forall s :: Queue(k, s) == []) && (forall h :: Waiters(k, h) == [])
    && (forall p :: 0 <= p < |k.current| ==> k.current[p] == None)
    && (forall m :: 0 <= m < |k.mutexes| ==> k.mutexes[m].owner == None)
    && (forall s :: 0 <= s < |k.sems| ==> k.sems[s].count <= k.sems[s].max)
    && (forall ch :: ch in k.channels && k.channels[ch].inUse ==> ChannelOk(k.channels[ch]))
  }

  /** Register, in id order from i on, every READY process with its partition. */
  function Register(k: Kernel, i: Pid, n: nat): Out
    decreases n - i
  {
    if i >= n then Out(Ok, k)
    else if IsProc(k, i) && k.procs[i].state == Ready then
      var a := PartitionAddProcess(k, i);
      if a.st != Ok then a else Register(a.k, i + 1, n)
    else Register(k, i + 1, n)
  }

  // ---------------------------------------------------------------- registration

  /** The state with the READY processes that are not registered yet set aside. */
  ghost function View(k: Kernel, i: nat): Kernel {
    k.(procs := seq(|k.procs|, j requires 0 <= j < |k.procs| => if j >= i && k.procs[j].state == Ready then
      k.procs[j].(state := Blocked) else k.procs[j]))
  }

  ghost function Unregistered(k: Kernel, i: nat): set<Pid> {
    set j | i <= j < |k.procs| && k.procs[j].state == Ready
  }

  ghost function ReadyAt(k: Kernel, s: Slot): set<Pid> {
    set x: Pid | x < |k.procs| && PlaceOf(k, x) == Some(s)
  }

  lemma CreatedPlaced(k: Kernel)
    requires Created(k)
    ensures Placed(View(k, 0), Unregistered(k, 0))
  {
    var v := View(k, 0);
    SameMembers(k, v);
    forall i: nat | i < |v.procs|
      ensures ProcOk(v, Unregistered(k, 0), i)
    {
      assert NewRecord(k.procs[i], |k.current|);
    }
    forall s ensures QueueOk(v, s) { assert Queue(v, s) == Queue(k, s); }
    forall h ensures ListOk(v, Unregistered(k, 0), h) { assert Waiters(v, h) == Waiters(k, h); }
  }

  lemma RegisterOne(k: Kernel, i: Pid) returns (a: Out)
    requires i < |k.procs| && k.procs[i].state == Ready && Placed(View(k, i), Unregistered(k, i))
    requires NewRecord(k.procs[i], |k.current|)
    ensures a == PartitionAddProcess(k, i) && a.st == Ok && a.k == k.(ready := a.k.ready)
    ensures Placed(View(a.k, i + 1), Unregistered(a.k, i + 1))
    ensures forall s :: Queue(a.k, s) == Queue(k, s) + if PlaceOf(k, i) == Some(s) then [i] else []
  {
    var v := View(k, i);
    var c := k.procs[i];
    var s := Slot(c.partition, c.priority);
    a := PartitionAddProcess(k, i);
    assert v.procs[i] == c.(state := Blocked);
    ReadyPlaced(v, Unregistered(k, i), i);
    var r := ReadyProcess(v, c.partition, i).k;
    assert Queue(v, s) == Queue(k, s);
    assert a.st == Ok && a.k.ready == r.ready;
    assert View(a.k, i + 1).procs == r.procs;
    assert View(a.k, i + 1) == r;
    LeaveLimbo(r, Unregistered(k, i), i);
    assert Unregistered(a.k, i + 1) == Unregistered(k, i) - {i};
  }

  lemma {:induction false} RegisterOk(k: Kernel, i: Pid) returns (r: Out)
    requires i <= |k.procs| && Placed(View(k, i), Unregistered(k, i))
    requires forall j :: 0 <= j < |k.procs| ==> NewRecord(k.procs[j], |k.current|)
    ensures r == Register(k, i, |k.procs|) && r.st == Ok && r.k == k.(ready := r.k.ready)
    ensures Placed(r.k, {})
    ensures forall s :: Queue(r.k, s) == Queue(k, s) + Ascending(ReadyAt(k, s), i, |k.procs|)
    decreases |k.procs| - i
  {
    hide Placed, PartitionAddProcess, Ascending, ReadyAt, NewRecord, PlaceOf;
    if i == |k.procs| {
      r := Out(Ok, k);
      NobodyLeft(k, i);
    } else {
      NextReady(k, i);
      if IsProc(k, i) && k.procs[i].state == Ready {
        var a := RegisterOne(k, i);
        r := RegisterOk(a.k, i + 1);
        forall s ensures ReadyAt(a.k, s) == ReadyAt(k, s) { SameReady(k, a.k, s); }
      } else {
        PassedOver(k, i);
        r := RegisterOk(k, i + 1);
      }
    }
  }

  lemma NobodyLeft(k: Kernel, i: Pid)
    requires i == |k.procs|
    ensures View(k, i) == k && Unregistered(k, i) == {} && forall s :: Ascending(ReadyAt(k, s), i, |k.procs|) == []
  {
    assert View(k, i).procs == k.procs;
  }

  lemma PassedOver(k: Kernel, i: Pid)
    requires i < |k.procs| && !(IsProc(k, i) && k.procs[i].state == Ready)
    ensures View(k, i) == View(k, i + 1) && Unregistered(k, i) == Unregistered(k, i + 1)
    ensures forall s :: PlaceOf(k, i) != Some(s)
  {
    assert View(k, i).procs == View(k, i + 1).procs;
  }

  lemma NextReady(k: Kernel, i: Pid)
    requires i < |k.procs|
    ensures forall s :: Ascending(ReadyAt(k, s), i, |k.procs|) ==
              (if PlaceOf(k, i) == Some(s) then [i] else []) + Ascending(ReadyAt(k, s), i + 1, |k.procs|)
  {
  }

  lemma SameReady(k: Kernel, r: Kernel, s: Slot)
    requires r.procs == k.procs
    ensures ReadyAt(r, s) == ReadyAt(k, s)
  {
  }

  /** Registration succeeds for every created pool and establishes every invariant: each queue
      holds the READY processes of its level in ascending id order, nobody waits, and priorities
      are the configured ones. */
  lemma RegistrationEstablishes(k: Kernel) returns (r: Kernel)
    requires Created(k)
    ensures Register(k, 0, |k.procs|) == Out(Ok, r) && Inv(r) && Exact(r) && Clean(r)
    ensures r == k.(ready := r.ready)
    ensures forall s :: Queue(r, s) == Ascending(ReadyAt(k, s), 0, |k.procs|)
  {
    CreatedPlaced(k);
    var o := RegisterOk(k, 0);
    r := o.k;
    forall s ensures Queue(r, s) == Ascending(ReadyAt(k, s), 0, |k.procs|) {
      assert Queue(k, s) == [];
    }
    forall h ensures Waiters(r, h) == [] { assert Waiters(k, h) == []; }
    forall h ensures ListFine(r, h) {}
    forall m: nat | m < |r.mutexes| ensures MutexFine(r, m) {}
    forall i | 0 <= i < |r.procs|
      ensures ClockOk(r, r.procs[i]) && CleanRecord(r.procs[i])
    {
      assert ClockOk(k, k.procs[i]) && NewRecord(k.procs[i], |k.current|);
    }
    GraphShaped(r, {});
    forall i: nat | i < |r.procs|
      ensures Prios(r)[i] == GraphOf(r).base[i] && GraphOf(r).boss[i] == None
    {
      assert NewRecord(k.procs[i], |k.current|);
    }
    assert Over(GraphOf(r), Prios(r));
    forall i | 0 <= i < |r.procs| ensures Tight(GraphOf(r), Prios(r), i) {}
  }

  // ---------------------------------------------------------------- start

  /** Begin, in id order from i on, the first release of every process. */
  function RearmAll(k: Kernel, i: Pid, n: nat): Kernel
    decreases n - i
  {
    if i >= n then k
    else RearmAll(if IsProc(k, i) then Rearm(k, i, 0) else k, i + 1, n)
  }

  function Start(k: Kernel, sched: Frame.Schedule): Sel {
    OnTick(RearmAll(NoteDue(k.(tick := 0), 0), 0, |k.procs|), sched)
  }

  ghost predicate NotWaiting(k: Kernel) {
    forall i :: 0 <= i < |k.procs| ==>
      k.procs[i].waitlist == NoList && k.procs[i].wakeTick == TICK_NONE && k.procs[i].state != Blocked
  }

  lemma {:induction false} RearmAllOk(k: Kernel, i: Pid) returns (r: Kernel)
    requires Inv(k) && NotWaiting(k) && k.tick == 0 && i <= |k.procs|
    ensures r == RearmAll(k, i, |k.procs|) && Inv(r) && (Exact(r) <==> Exact(k)) && r.current == k.current
            && |r.procs| == |k.procs|
    ensures forall j :: i <= j < |k.procs| && IsProc(k, j) ==> r.procs[j] == Begun(k.procs[j], 0)
    ensures forall j :: 0 <= j < i || (i <= j < |k.procs| && !IsProc(k, j)) ==> r.procs[j] == k.procs[j]
    ensures r == k.(procs := r.procs, nextDue := r.nextDue) && (k.nextDue == 0 ==> r.nextDue == 0)
    decreases |k.procs| - i
  {
    hide Placed, Objects, Exact, Rearm, Begun, DeadlineOf;
    if i == |k.procs| {
      r := k;
    } else if IsProc(k, i) {
      assert ClockedBut(k, i) by { assert ClockOk(k, k.procs[i]); }
      var b := RearmOk(k, {}, i);
      BegunWaits(k.procs[i]);
      r := RearmAllOk(b, i + 1);
    } else {
      r := RearmAllOk(k, i + 1);
    }
  }

  lemma BegunWaits(c: Pcb)
    requires c.waitlist == NoList && c.wakeTick == TICK_NONE && c.state != Blocked
    ensures var b := Begun(c, 0);
            b.waitlist == NoList && b.wakeTick == TICK_NONE && b.state != Blocked && b.state == c.state
  {
  }

  /** k with the clock at zero and the first release of every process begun there. */
  ghost function AllBegun(k: Kernel): Kernel {
    k.(tick := 0, nextDue := 0,
       procs := seq(|k.procs|, j requires 0 <= j < |k.procs| =>
         if IsProc(k, j) then Begun(k.procs[j], 0) else k.procs[j]))
  }

  lemma StartBegins(k: Kernel) returns (b: Kernel)
    requires Inv(k) && Exact(k) && NotWaiting(k)
    ensures b == AllBegun(k) == RearmAll(NoteDue(k.(tick := 0), 0), 0, |k.procs|) && Inv(b) && Exact(b)
  {
    hide Inv, Exact, RearmAll, Begun;
    var z := ZeroTick(k);
    b := RearmAllOk(z, 0);
    assert b.procs == AllBegun(k).procs;
  }

  /** Process j as its first release and the first tick leave it, but for scheduling. */
  predicate Started(k: Kernel, r: Kernel, j: Pid) {
    j < |k.procs| && j < |r.procs|
    && Gentle(Ticked(Begun(k.procs[j], 0), 1, HaltedOf(k, k.procs[j])), r.procs[j])
  }

  /** Starting the scheduler begins every process's first release at tick 0 and runs the first
      tick from there, with every invariant and the inheritance equation in place; a successful
      start selects a process of the first partition that nobody READY there outranks. */
  lemma StartOk(k: Kernel, sys: System) returns (r: Sel)
    requires Inv(k) && Exact(k) && NotWaiting(k) && InTable(sys, |k.current|)
    ensures r == Start(k, sys.sched) && Inv(r.k) && Exact(r.k) && r.k.tick == 1
    ensures |r.k.current| == |k.current| && |r.k.procs| == |k.procs|
    ensures OneTick(AllBegun(k), r.k) && forall j :: IsProc(k, j) ==> Started(k, r.k, j)
    ensures r.st in {Ok, InvalidArg, PartitionHalted, QueueEmpty}
    ensures r.st == InvalidArg <==> Frame.PartitionAt(sys.sched, 0).None?
    ensures r.st == PartitionHalted <==>
            Frame.PartitionAt(sys.sched, 0).Some? && k.halted[Frame.PartitionAt(sys.sched, 0).value]
    ensures r.st == Ok ==> (
              var p := Frame.PartitionAt(sys.sched, 0).value;
              r.next.Some? && r.next.value < |r.k.procs| && r.k.current == k.current[p := r.next]
                && NoneAbove(r.k, p, r.next.value))
    ensures r.st in {Ok, QueueEmpty} ==>
              var p := Frame.PartitionAt(sys.sched, 0).value;
              TickDispatched(AllBegun(k), r.k, p) && r.next == r.k.current[p] && Safe(r.k, p)
    ensures r.st != Ok ==> AfterScans(AllBegun(k), r.k)
  {
    hide Inv, Exact, OnTick, RearmAll, OneTick, Frame.PartitionAt, Scanned, NoneAbove, TickDispatched, AfterScans,
         Ticked, Begun, Safe;
    var b := StartBegins(k);
    r := OnTickOk(b, sys.sched);
    TickSizes(b, r.k);
    if r.st in {Ok, QueueEmpty} { TickSafe(b, sys.sched, r); }
    forall j: Pid | IsProc(k, j) ensures Started(k, r.k, j) {
      TickedTo(b, r.k, j);
      assert b.procs[j] == Begun(k.procs[j], 0);
      BegunStays(k, b, j);
    }
  }

  lemma TickedTo(k: Kernel, r: Kernel, j: Pid)
    requires OneTick(k, r) && j < |k.procs| && k.tick == 0
    ensures j < |r.procs| && Gentle(Ticked(k.procs[j], 1, HaltedOf(k, k.procs[j])), r.procs[j])
  {
  }

  lemma BegunStays(k: Kernel, b: Kernel, j: Pid)
    requires j < |k.procs| && j < |b.procs| && b.procs[j] == Begun(k.procs[j], 0) && b.halted == k.halted
    ensures HaltedOf(b, b.procs[j]) == HaltedOf(k, k.procs[j])
  {
  }

  lemma {:induction false} StillZero(k: Kernel, i: Pid)
    ensures RearmAll(k, i, |k.procs|).tick == k.tick
    decreases |k.procs| - i
  {
    if i < |k.procs| {
      StillZero(if IsProc(k, i) then Rearm(k, i, 0) else k, i + 1);
    }
  }

  lemma ZeroTick(k: Kernel) returns (z: Kernel)
    requires Inv(k) && Exact(k) && NotWaiting(k)
    ensures z == NoteDue(k.(tick := 0), 0) && Inv(z) && Exact(z) && NotWaiting(z) && z.current == k.current
            && |z.procs| == |k.procs| && z.tick == 0
  {
    z := NoteDue(k.(tick := 0), 0);
    RetouchedPlaced(k, z, {});
    forall j | 0 <= j < |k.procs| ensures ClockOk(z, z.procs[j]) { assert ClockOk(k, k.procs[j]); }
    hide Placed, Objects;
    SameObjectsFine(k, z);
    forall j: nat | j < |k.procs|
      ensures Boss(z, j) == Boss(k, j)
    {
      assert z.procs[j].waitlist == k.procs[j].waitlist;
    }
    SameGraph(k, z);
  }

  // ---------------------------------------------------------------- from power-on to any point of any run

  lemma {:induction false} RearmAllClean(k: Kernel, i: Pid)
    requires Clean(k) && ListsFit(k)
    ensures Clean(RearmAll(k, i, |k.procs|)) && ListsFit(RearmAll(k, i, |k.procs|))
    decreases |k.procs| - i
  {
    if i < |k.procs| {
      var b := if IsProc(k, i) then Rearm(k, i, 0) else k;
      RearmClean(k, b, i);
      RearmAllClean(b, i + 1);
    }
  }

  lemma RearmClean(k: Kernel, b: Kernel, i: Pid)
    requires Clean(k) && ListsFit(k) && i < |k.procs| && b == if IsProc(k, i) then Rearm(k, i, 0) else k
    ensures |b.procs| == |k.procs| && Clean(b) && ListsFit(b)
  {
    forall j | 0 <= j < |k.procs|
      ensures CleanRecord(b.procs[j]) && SameSettings(k.procs[j], b.procs[j])
    {
      assert CleanRecord(k.procs[j]);
    }
    SameMembersFit(k, b);
  }

  /** The system, registered and started. */
  function Booted(k: Kernel, sys: System): Kernel { Start(Register(k, 0, |k.procs|).k, sys.sched).k }

  /** r is k with every queue holding the READY processes of its level in ascending id order. */
  ghost predicate Registered(k: Kernel, r: Kernel) {
    r == k.(ready := r.ready) && forall s :: Queue(r, s) == Ascending(ReadyAt(k, s), 0, |k.procs|)
  }

  lemma StartedAlike(k: Kernel, r: Kernel, b: Kernel, j: Pid)
    requires r == k.(ready := r.ready) && Started(r, b, j)
    ensures Started(k, b, j)
  {
  }

  /** The booted system: every first release begun at tick zero, every queue in id order, one
      tick, and the first partition's most urgent process on the CPU. */
  lemma BootOk(k: Kernel, sys: System) returns (b: Kernel)
    requires Created(k) && InTable(sys, |k.current|)
    ensures b == Booted(k, sys) && Inv(b) && Exact(b) && |b.current| == |k.current| && |b.procs| == |k.procs|
    ensures ListsFit(k) ==> Clean(b) && ListsFit(b)
    ensures forall j :: IsProc(k, j) ==> Started(k, b, j)
    ensures var p := Frame.PartitionAt(sys.sched, 0);
            if p.Some? && !k.halted[p.value] then
              && Safe(b, p.value)
              && exists r: Kernel :: Registered(k, r) && TickDispatched(AllBegun(r), b, p.value)
            else exists r: Kernel :: Registered(k, r) && AfterScans(AllBegun(r), b)
  {
    hide Inv, Exact, Start, RearmAll, OneTick, InTable, Clean, ListsFit, NotWaiting, NoneAbove, TickDispatched,
         AfterScans, Frame.PartitionAt, Safe, Started, Register, AllBegun;
    var r := RegistrationEstablishes(k);
    RegisteredWaits(k, r);
    assert Registered(k, r);
    var s := StartOk(r, sys);
    b := s.k;
    forall j | IsProc(k, j) ensures Started(k, b, j) { StartedAlike(k, r, b, j); }
    if ListsFit(k) { StartClean(k, r, sys); }
  }

  lemma RegisteredWaits(k: Kernel, r: Kernel)
    requires Created(k) && r == k.(ready := r.ready)
    ensures NotWaiting(r) && |r.procs| == |k.procs| && r.current == k.current
  {
    forall i | 0 <= i < |r.procs|
      ensures r.procs[i].waitlist == NoList && r.procs[i].wakeTick == TICK_NONE && r.procs[i].state != Blocked
    {
      assert NewRecord(k.procs[i], |k.current|);
    }
  }

  lemma StartClean(k: Kernel, r: Kernel, sys: System)
    requires Inv(r) && Exact(r) && NotWaiting(r) && InTable(sys, |r.current|) && Clean(r) && ListsFit(k)
             && r == k.(ready := r.ready)
    ensures Clean(Start(r, sys.sched).k) && ListsFit(Start(r, sys.sched).k)
  {
    assert ListsFit(NoteDue(r.(tick := 0), 0)) by {
      forall p: nat ensures Members(NoteDue(r.(tick := 0), 0), p) == Members(k, p) {}
    }
    assert Clean(NoteDue(r.(tick := 0), 0));
    hide Inv, Exact, OnTick, RearmAll, OneTick, Frame.PartitionAt, Scanned, NoneAbove, Clean, ListsFit;
    var z := ZeroTick(r);
    RearmAllClean(z, 0);
    var b := RearmAllOk(z, 0);
    var t := OnTickOk(b, sys.sched);
    TickClean(b, t.k);
  }

  /** The main theorem: from any created pool and any schedule that initialisation accepts,
      after registration, start and any sequence of calls, ticks and faults, every process is
      where its record says, no object makes anybody wait in vain, the due bound holds - and,
      when the wait lists have room for the processes of each partition, every effective
      priority is exactly the inherited one. */
  lemma EveryReachableState(k: Kernel, sys: System, es: seq<Event>)
    requires Created(k) && Configured(sys, |k.current|) && LegalRun(sys, Booted(k, sys), es)
    ensures var r := Run(sys, Booted(k, sys), es);
            && Inv(r)
            && (KeepsClaims(sys, Booted(k, sys), es) ==> Exact(r))
            && (ListsFit(k) ==> KeepsClaims(sys, Booted(k, sys), es) && Exact(r))
  {
    hide Inv, Exact, Booted, Run, LegalRun, InTable, Configured, Clean, ListsFit, Created, KeepsClaims;
    ConfiguredIsInTable(sys, |k.current|);
    var b := BootOk(k, sys);
    RunOk(sys, b, es);
    if ListsFit(k) { RunIsExact(sys, b, es); }
  }
}

/** A run from power-on in which locking a mutex breaks priority inheritance, for every size of
    the wait lists, and with it the exact limit on the processes of a partition. */
module LostClaims {
  import opened Wrappers
  import opened KernelState
  import opened Order
  import opened Placement
  import opened KernelCalls
  import opened Invariants
  import opened Blocking
  import opened Mutexes
  import opened Timing
  import opened Ticks
  import opened Gates
  import opened Runs
  import opened Startup
  import opened Scenes
  import opened Inheritance

  // Two processes more than a wait list holds.
  const CROWD: nat := WAITLIST_MAX + 2

  /** One mutex; process 0 is more urgent than all others, which are equals. */
  function Pool(): (k: Kernel)
    ensures |k.procs| == CROWD && forall i :: 0 <= i < CROWD ==> k.procs[i] == Plain(if i == 0 then 0 else 1)
  {
    Kernel(
      procs := seq(CROWD, i => Plain(if i == 0 then 0 else 1)),
      ready := map[],
      current := [None],
      halted := [false],
      lists := map[],
      mutexes := [Mutex(true, 0, None)],
      sems := [],
      channels := map[],
      tick := 0,
      nextDue := TICK_NONE,
      pending := {})
  }

  lemma PoolMembers(p: nat)
    ensures |Members(Pool(), p)| <= CROWD
  {
    SeenBelow(Members(Pool(), p), CROWD);
  }

  lemma PoolCreated()
    requires MAX_READY_PER_PRIORITY >= CROWD
    ensures Created(Pool())
  {
    var k := Pool();
    forall p: nat ensures |Members(k, p)| <= MAX_READY_PER_PRIORITY { PoolMembers(p); }
    forall i | 0 <= i < |k.procs| ensures NewRecord(k.procs[i], 1) && ClockOk(k, k.procs[i]) {}
  }

  /** What stays the same throughout the run. */
  ghost predicate Scene(k: Kernel, tick: nat, owner: Option<Pid>) {
    && Stage(k) && |k.procs| == CROWD && k.tick == tick && k.mutexes == [Mutex(true, 0, owner)]
    && forall i :: 0 <= i < CROWD ==> k.procs[i].base == if i == 0 then 0 else 1
  }

  /** Nobody waits for the mutex. */
  ghost predicate NobodyWaits(k: Kernel) {
    forall i :: 0 <= i < |k.procs| ==> k.procs[i].waitlist == NoList
  }

  lemma SceneUrgency(k: Kernel, tick: nat, owner: Option<Pid>)
    requires Scene(k, tick, owner) && NobodyWaits(k)
    ensures forall i :: 0 <= i < CROWD ==> k.procs[i].priority == if i == 0 then 0 else 1
    ensures Waiters(k, OnMutex(0)) == []
  {
    hide Inv, Exact, Safe;
    NobodyRaised(k);
  }

  /** Process 0 runs whenever it is not blocked and nobody waits. */
  lemma ZeroRuns(k: Kernel, tick: nat, owner: Option<Pid>)
    requires Scene(k, tick, owner) && NobodyWaits(k) && k.procs[0].state != Blocked
    ensures OnCpu(k, 0)
  {
    hide Inv, Exact, Safe;
    SceneUrgency(k, tick, owner);
    assert Simple(k.procs[0]);
    TopRuns(k, 0);
  }

  // ---------------------------------------------------------------- process 0 takes the mutex and sleeps

  /** Process 0 owns the mutex and sleeps until tick 2; j others wait for it until then; the
      rest can run, and one of them does. */
  ghost predicate Filling(k: Kernel, j: nat) {
    && Scene(k, 1, Some(0)) && k.current[0].Some?
    && k.procs[0].state == Blocked && k.procs[0].timedWaiting && k.procs[0].wakeTick == 2
    && |Waiters(k, OnMutex(0))| == j
    && forall i :: 0 < i < CROWD ==>
         if i in Waiters(k, OnMutex(0)) then k.procs[i].wakeTick == 2 else k.procs[i].state != Blocked
  }

  lemma Opening() returns (es: seq<Event>, k: Kernel)
    requires MAX_READY_PER_PRIORITY >= CROWD
    ensures CameTo(Booted(Pool(), SOLO), es, k) && Filling(k, 0)
  {
    hide Inv, Exact, Safe, Created, Booted, Step, Legal;
    PoolCreated();
    var b := BootSetsStage(Pool());
    assert forall i :: 0 <= i < CROWD ==> Awake(Pool().procs[i], b.procs[i]);
    assert Scene(b, 1, None) && NobodyWaits(b);
    ZeroRuns(b, 1, None);
    RunnerRuns(b, 0);
    var a := FreeLock(b, 0, 0, 0);
    SceneUrgency(a, 1, Some(0));
    assert a.procs[1].state == Ready;
    SomebodyNext(a, 1);
    k := Nap(a, 0, 1);
    es := OneMore(b, [], b, Svc(0, LockCall(0, 0)));
    es := OneMore(b, es, a, Svc(0, TimedWaitCall(1)));
    assert Waiters(k, OnMutex(0)) == Waiters(a, OnMutex(0));
  }

  // ---------------------------------------------------------------- the wait list fills up

  ghost function Elements(l: seq<Pid>): set<Pid> { set i | i in l }

  lemma {:induction false} ElementsFit(l: seq<Pid>)
    ensures |Elements(l)| <= |l|
  {
    if l == [] {
      assert Elements(l) == {};
    } else {
      ElementsFit(l[1..]);
      assert Elements(l) == Elements(l[1..]) + {l[0]};
      SumSize(Elements(l[1..]), l[0]);
    }
  }

  /** A short list leaves somebody out. */
  lemma SomebodyLeft(l: seq<Pid>, x: Pid) returns (i: Pid)
    requires |l| < WAITLIST_MAX
    ensures 0 < i < CROWD && i !in l && i != x
  {
    var taken := Elements(l) + {x};
    ElementsFit(l);
    SumSize(Elements(l), x);
    var s := seq(CROWD - 1, j => j + 1);
    if forall j :: 0 < j < CROWD ==> j in taken {
      DistinctFit(s, taken);
    }
    i :| 0 < i < CROWD && i !in taken;
  }

  /** A full list and one more leave nobody out. */
  lemma NobodyLeft(l: seq<Pid>, x: Pid, i: Pid)
    requires NoDup(l) && |l| == WAITLIST_MAX && (forall j :: j in l ==> 0 < j < CROWD)
    requires 0 < x < CROWD && x !in l && 0 < i < CROWD && i !in l
    ensures i == x
  {
    if i != x {
      AppendFacts(l, x);
      AppendFacts(l + [x], i);
      AppendFacts(l + [x] + [i], 0);
      var all := l + [x] + [i] + [0];
      SeenBelow(Elements(all), CROWD);
      DistinctFit(all, Elements(all));
    }
  }

  lemma FillingLocks(k: Kernel, j: nat, x: Pid)
    requires Filling(k, j) && OnCpu(k, x) && j < WAITLIST_MAX
    ensures 0 < x < CROWD && LockWaits(k, 0, 1, x) && k.procs[0].priority <= k.procs[x].priority
  {
    RunnerRuns(k, x);
    var i := SomebodyLeft(Waiters(k, OnMutex(0)), x);
    assert Simple(k.procs[i]) && Simple(k.procs[x]);
    assert Candidate(k, 0, i);
    assert Prios(k)[0] <= GraphOf(k).base[0];
  }

  lemma FillStep(k: Kernel, j: nat) returns (x: Pid, r: Kernel)
    requires Filling(k, j) && j < WAITLIST_MAX
    ensures Legal(k, Svc(x, LockCall(0, 1))) && r == Step(SOLO, k, Svc(x, LockCall(0, 1))) && Filling(r, j + 1)
  {
    hide Inv, Exact, Safe, LockWaits, Step, Legal;
    x := k.current[0].value;
    FillingLocks(k, j, x);
    var next;
    r, next := WaitingLock(k, x, 0, 1);
    var l := Waiters(k, OnMutex(0));
    assert forall i :: i in l + [x] <==> i in l || i == x;
    SameBases(k, r, x);
  }

  lemma SameBases(k: Kernel, r: Kernel, x: Pid)
    requires Scene(k, k.tick, Some(0)) && |r.procs| == |k.procs| && Stage(r) && r.tick == k.tick
             && r.mutexes == k.mutexes
    requires forall i :: 0 <= i < |k.procs| && i != x ==> Gentle(k.procs[i], r.procs[i])
    requires x < |k.procs| && r.procs[x].base == k.procs[x].base
    ensures Scene(r, k.tick, Some(0))
  {
    hide Inv, Exact, Safe;
  }

  lemma {:induction false} FillUp(b: Kernel, es: seq<Event>, k: Kernel, j: nat) returns (all: seq<Event>, r: Kernel)
    requires CameTo(b, es, k) && Filling(k, j) && j <= WAITLIST_MAX
    ensures CameTo(b, all, r) && Filling(r, WAITLIST_MAX)
    decreases WAITLIST_MAX - j
  {
    if j == WAITLIST_MAX {
      all, r := es, k;
    } else {
      hide CameTo, Filling, Step, Legal;
      var x, k' := FillStep(k, j);
      all := OneMore(b, es, k, Svc(x, LockCall(0, 1)));
      all, r := FillUp(b, all, k', j + 1);
    }
  }

  // ---------------------------------------------------------------- one process too many

  /** The list is full; process o runs with a refused lock on its record. */
  ghost predicate Turned(k: Kernel, o: Pid) {
    Filling(k, WAITLIST_MAX) && OnCpu(k, o) && 0 < o < CROWD && k.procs[o].op == LockOp(0)
  }

  lemma TurnedAway(k: Kernel) returns (o: Pid, r: Kernel)
    requires Filling(k, WAITLIST_MAX)
    ensures Legal(k, Svc(o, LockCall(0, 1))) && r == Step(SOLO, k, Svc(o, LockCall(0, 1))) && Turned(r, o)
  {
    o := k.current[0].value;
    RunnerRuns(k, o);
    NobodyReady(k, o);
    assert Simple(k.procs[o]);
    hide Inv, Exact, Safe, Step, Legal;
    r := RefusedLock(k, o, 0, 1);
    SceneStays(k, r);
  }

  lemma NobodyReady(k: Kernel, o: Pid)
    requires Filling(k, WAITLIST_MAX) && OnCpu(k, o)
    ensures 0 < o < CROWD && forall i :: !Candidate(k, 0, i)
  {
    RunnerRuns(k, o);
    var l := Waiters(k, OnMutex(0));
    assert ListOk(k, {}, OnMutex(0)) && ListFine(k, OnMutex(0));
    forall i: Pid ensures !Candidate(k, 0, i) {
      if 0 < i < CROWD && i !in l && i != o { NobodyLeft(l, o, i); }
    }
  }

  lemma SceneStays(k: Kernel, r: Kernel)
    requires Filling(k, WAITLIST_MAX) && Untouched(k, r) && Stage(r) && r.tick == k.tick
    ensures Filling(r, WAITLIST_MAX)
  {
    hide Inv, Exact, Safe;
  }

  // ---------------------------------------------------------------- the list empties

  /** Tick 2: everybody's wait is over and process 0 runs; o is first in line behind it. */
  ghost predicate Cleared(k: Kernel, o: Pid, owner: Option<Pid>) {
    && Scene(k, 2, owner) && NobodyWaits(k) && OnCpu(k, 0) && 0 < o < CROWD && k.procs[o].op == LockOp(0)
    && (forall i :: 0 <= i < CROWD ==> k.procs[i].state != Blocked)
    && Queue(k, Slot(0, 1)) != [] && Queue(k, Slot(0, 1))[0] == o
  }

  lemma Ends(k: Kernel, i: Pid)
    requires Filling(k, WAITLIST_MAX) && i < CROWD
    ensures var c := Ticked(k.procs[i], 2, false);
            c.state in {Ready, Running} && c.waitlist == NoList && c.base == k.procs[i].base
    ensures k.procs[i].state == Running ==> Ticked(k.procs[i], 2, false) == k.procs[i]
    ensures i == 0 ==> Ticked(k.procs[i], 2, false).state == Ready
  {
    assert ProcOk(k, {}, i) && ListOk(k, {}, OnMutex(0)) && Simple(k.procs[i]) && ClockOk(k, k.procs[i]);
  }

  lemma AllAwake(k: Kernel, o: Pid) returns (r: Kernel)
    requires Turned(k, o)
    ensures Legal(k, Tick(None)) && r == Step(SOLO, k, Tick(None)) && Cleared(r, o, Some(0))
  {
    hide Inv, Exact, Safe, Step, Legal, Ticked, PartitionSelect;
    RunnerRuns(k, o);
    var s;
    s, r := TickKeepsStage(k);
    forall i | 0 <= i < CROWD
      ensures s.procs[i].state in {Ready, Running} && s.procs[i].waitlist == NoList
              && s.procs[i].base == k.procs[i].base
      ensures r.procs[i].state in {Ready, Running} && r.procs[i].waitlist == NoList
              && r.procs[i].base == k.procs[i].base
    {
      Ends(k, i);
    }
    Ends(k, o);
    Ends(k, 0);
    assert Scene(r, 2, Some(0)) && NobodyWaits(r);
    ZeroRuns(r, 2, Some(0));
    NobodyRaised(s);
    SamePartition(k, s);
    PreemptedIsFirst(s, o, 0);
  }

  lemma SamePartition(k: Kernel, s: Kernel)
    requires Filling(k, WAITLIST_MAX) && |s.procs| == |k.procs|
             && s.procs[0] == Ticked(k.procs[0], 2, false).(priority := s.procs[0].priority)
    ensures s.procs[0].partition == 0
  {
    assert Simple(k.procs[0]);
  }

  // ---------------------------------------------------------------- the mutex comes down to it

  /** Process 0 gives the mutex up and sleeps until tick 3; o takes the mutex and sleeps longer. */
  lemma HandedDown(b: Kernel, es: seq<Event>, k: Kernel, o: Pid) returns (all: seq<Event>, r: Kernel)
    requires CameTo(b, es, k) && Cleared(k, o, Some(0))
    ensures CameTo(b, all, r) && Scene(r, 2, Some(o)) && NobodyWaits(r) && 0 < o < CROWD && r.current[0].Some?
    ensures r.procs[0].state == Blocked && r.procs[0].timedWaiting && r.procs[0].wakeTick == 3
    ensures r.procs[o].state == Blocked && r.procs[o].timedWaiting && r.procs[o].wakeTick == 7
            && r.procs[o].op == LockOp(0)
  {
    hide Inv, Exact, Safe, Step, Legal, CameTo, BestFrom;
    RunnerRuns(k, 0);
    SceneUrgency(k, 2, Some(0));
    assert Simple(k.procs[0]);
    var u := QuietUnlock(k, 0, 0);
    all := OneMore(b, es, k, Svc(0, UnlockCall(0)));
    SceneUrgency(u, 2, None);
    NextIsFirst(u, o);
    var n := Nap(u, 0, 1);
    all := OneMore(b, all, u, Svc(0, TimedWaitCall(1)));
    assert OnCpu(n, o);
    assert Simple(n.procs[o]);
    RunnerRuns(n, o);
    var f := FreeLock(n, o, 0, 0);
    all := OneMore(b, all, n, Svc(o, LockCall(0, 0)));
    var i := ThirdIsReady(n, o);
    SomebodyNext(f, i);
    r := Nap(f, o, 5);
    all := OneMore(b, all, f, Svc(o, TimedWaitCall(5)));
  }

  lemma ThirdIsReady(n: Kernel, o: Pid) returns (i: Pid)
    requires Scene(n, 2, None) && OnCpu(n, o) && forall i :: 0 < i < CROWD ==> n.procs[i].state != Blocked
    ensures Candidate(n, 0, i)
  {
    RunnerRuns(n, o);
    i := if o == 1 then 2 else 1;
    assert Simple(n.procs[i]);
  }

  /** Tick 3: process 0 wakes and preempts whoever runs; o sleeps on. */
  lemma ZeroWakes(k: Kernel, o: Pid) returns (r: Kernel)
    requires Scene(k, 2, Some(o)) && NobodyWaits(k) && 0 < o < CROWD && k.current[0].Some?
    requires k.procs[0].state == Blocked && k.procs[0].timedWaiting && k.procs[0].wakeTick == 3
    requires k.procs[o].state == Blocked && k.procs[o].timedWaiting && k.procs[o].wakeTick == 7
             && k.procs[o].op == LockOp(0)
    ensures Legal(k, Tick(None)) && r == Step(SOLO, k, Tick(None)) && Scene(r, 3, Some(o)) && NobodyWaits(r)
            && OnCpu(r, 0)
    ensures r.procs[o].state == Blocked && r.procs[o].op == LockOp(0) && exists x :: Candidate(r, 0, x)
  {
    hide Inv, Exact, Safe, Step, Legal, PartitionSelect;
    var x := k.current[0].value;
    RunnerRuns(k, x);
    var s;
    s, r := TickKeepsStage(k);
    forall i | 0 <= i < CROWD ensures r.procs[i].waitlist == NoList && r.procs[i].base == k.procs[i].base {
      assert Simple(k.procs[i]);
    }
    Sleepers(k, 0);
    Sleepers(k, o);
    assert Scene(r, 3, Some(o)) && NobodyWaits(r);
    ZeroRuns(r, 3, Some(o));
    RunnerRuns(r, 0);
    assert Simple(r.procs[x]);
    assert Candidate(r, 0, x);
  }

  lemma Sleepers(k: Kernel, i: Pid)
    requires Stage(k) && i < |k.procs| && k.procs[i].timedWaiting
    ensures !k.procs[i].periodicWaiting && k.procs[i].waitlist == NoList
  {
    assert ProcOk(k, {}, i);
  }

  // ---------------------------------------------------------------- the claim is lost

  lemma RecordLeadsBack(k: Kernel, o: Pid)
    requires Scene(k, 3, Some(o)) && NobodyWaits(k) && 0 < o < CROWD && OnCpu(k, 0)
    requires k.procs[o].state == Blocked && k.procs[o].op == LockOp(0)
    ensures Lost(k, 0, 0)
  {
    SceneUrgency(k, 3, Some(o));
    var g, s := GraphOf(k), Records(k);
    assert s[o] == NextInChain(k, o) == Some(o);
    assert g.boss[o] == Boss(k, o) == None;
    assert Iter(s, o, 1) == Some(o) by { assert Iter(s, o, 0) == Some(o); }
    assert Iter(g.boss, o, 1) != Some(o);
  }

  lemma LosesIt(k: Kernel, o: Pid) returns (r: Kernel)
    requires Scene(k, 3, Some(o)) && NobodyWaits(k) && 0 < o < CROWD && OnCpu(k, 0)
    requires k.procs[o].state == Blocked && k.procs[o].op == LockOp(0) && exists x :: Candidate(k, 0, x)
    ensures Legal(k, Svc(0, LockCall(0, TIMEOUT_INFINITE))) && r == Step(SOLO, k, Svc(0, LockCall(0, TIMEOUT_INFINITE)))
    ensures LosesClaimAt(k, Svc(0, LockCall(0, TIMEOUT_INFINITE)))
    ensures !Exact(r) && Waiters(r, OnMutex(0)) == [0] && MutexOwner(r, 0) == Some(o)
  {
    RunnerRuns(k, 0);
    SceneUrgency(k, 3, Some(o));
    RecordLeadsBack(k, o);
    assert Simple(k.procs[0]);
    assert LockWaits(k, 0, TIMEOUT_INFINITE, 0);
    hide Inv, Exact, Lock, Lost, LockWaits, NoneAbove, PreemptCheck, Safe;
    LockOk(k, 0, TIMEOUT_INFINITE, 0);
    LockOutcome(k, 0, TIMEOUT_INFINITE, 0);
    r := Lock(k, 0, TIMEOUT_INFINITE, 0).k;
    StillPlaced(r);
    CallerGoesOn(r, 0);
  }

  /** From power-on to a lost claim: in a partition of two processes more than a wait list
      holds, a legal run leads to a lock that leaves the owner of a mutex less urgent than its
      waiter, so that the inheritance equation no longer holds. */
  lemma LockLosesClaim() returns (es: seq<Event>, e: Event)
    requires MAX_READY_PER_PRIORITY >= CROWD
    ensures Created(Pool()) && forall p: nat :: |Members(Pool(), p)| <= WAITLIST_MAX + 2
    ensures LegalRun(SOLO, Booted(Pool(), SOLO), es + [e])
    ensures Exact(Run(SOLO, Booted(Pool(), SOLO), es)) && LosesClaimAt(Run(SOLO, Booted(Pool(), SOLO), es), e)
    ensures !Exact(Run(SOLO, Booted(Pool(), SOLO), es + [e]))
  {
    hide Inv, Exact, Safe, Created, Booted, Step, Legal, Filling, Turned, LosesClaimAt;
    PoolCreated();
    forall p: nat ensures |Members(Pool(), p)| <= WAITLIST_MAX + 2 { PoolMembers(p); }
    var b := Booted(Pool(), SOLO);
    var k, o;
    es, k := Opening();
    es, k := FillUp(b, es, k, 0);
    var t;
    o, t := TurnedAway(k);
    es := OneMore(b, es, k, Svc(o, LockCall(0, 1)));
    k := AllAwake(t, o);
    es := OneMore(b, es, t, Tick(None));
    es, k := HandedDown(b, es, k, o);
    var w := ZeroWakes(k, o);
    es := OneMore(b, es, k, Tick(None));
    e := Svc(0, LockCall(0, TIMEOUT_INFINITE));
    var r := LosesIt(w, o);
    var all := OneMore(b, es, w, e);
  }

  // ---------------------------------------------------------------- the exact limit

  /** However the system is built and whatever happens, inheritance is exact as long as no
      partition has more than n processes. */
  ghost predicate AlwaysExact(n: nat) {
    forall k: Kernel, sys: System, es: seq<Event> ::
      Created(k) && Configured(sys, |k.current|) && LegalRun(sys, Booted(k, sys), es)
        && (forall p: nat :: |Members(k, p)| <= n)
      ==> Exact(Run(sys, Booted(k, sys), es))
  }

  /** Inheritance is always exact if and only if no partition can have more than one process
      more than a wait list holds. */
  lemma RoomDecides(n: nat)
    ensures AlwaysExact(n) <==> n <= WAITLIST_MAX + 1 || MAX_READY_PER_PRIORITY <= WAITLIST_MAX + 1
  {
    hide Inv, Exact, Booted, Run, LegalRun, KeepsClaims;
    if n <= WAITLIST_MAX + 1 || MAX_READY_PER_PRIORITY <= WAITLIST_MAX + 1 {
      forall k: Kernel, sys: System, es: seq<Event>
        | Created(k) && Configured(sys, |k.current|) && LegalRun(sys, Booted(k, sys), es)
          && (forall p: nat :: |Members(k, p)| <= n)
        ensures Exact(Run(sys, Booted(k, sys), es))
      {
        EveryReachableState(k, sys, es);
      }
    } else {
      SoloIsAccepted();
      var es, e := LockLosesClaim();
    }
  }
}

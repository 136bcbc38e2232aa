/** A run from power-on in which a refused lock leaves two deadlocked processes raised. */
module Deadlocks {
  import opened Wrappers
  import opened KernelState
  import opened Placement
  import opened KernelCalls
  import opened Invariants
  import opened Blocking
  import opened Mutexes
  import opened Ticks
  import opened Gates
  import opened Runs
  import opened Startup
  import opened Scenes
  import opened Inheritance

  /** Two mutexes; process 0 is more urgent than the three others, which are equals. */
  function Quartet(): (k: Kernel)
    ensures |k.procs| == 4 && forall i :: 0 <= i < 4 ==> k.procs[i] == Plain(if i == 0 then 0 else 1)
  {
    Kernel(
      procs := [Plain(0), Plain(1), Plain(1), Plain(1)],
      ready := map[],
      current := [None],
      halted := [false],
      lists := map[],
      mutexes := [Mutex(true, 0, None), Mutex(true, 0, None)],
      sems := [],
      channels := map[],
      tick := 0,
      nextDue := TICK_NONE,
      pending := {})
  }

  lemma QuartetCreated()
    requires MAX_READY_PER_PRIORITY >= 4
    ensures Created(Quartet())
  {
    var k := Quartet();
    forall p: nat ensures |Members(k, p)| <= MAX_READY_PER_PRIORITY { SeenBelow(Members(k, p), 4); }
    forall i | 0 <= i < |k.procs| ensures NewRecord(k.procs[i], 1) && ClockOk(k, k.procs[i]) {}
  }

  /** What stays the same throughout the run: everybody has its base priority. */
  ghost predicate Scene(k: Kernel, tick: nat, a: Option<Pid>, b: Option<Pid>) {
    && Stage(k) && |k.procs| == 4 && k.tick == tick && k.mutexes == [Mutex(true, 0, a), Mutex(true, 0, b)]
    && forall i :: 0 <= i < 4 ==> k.procs[i].base == k.procs[i].priority == if i == 0 then 0 else 1
  }

  /** Process 0 sleeps until tick 2. */
  ghost predicate ZeroSleeps(k: Kernel) {
    0 < |k.procs| && k.procs[0].state == Blocked && k.procs[0].timedWaiting && k.procs[0].wakeTick == 2
  }

  /** x has the CPU and the other two are READY or on no list. */
  ghost predicate Free(k: Kernel, i: Pid) {
    i < |k.procs| && k.procs[i].state != Blocked
  }

  ghost predicate Others(x: Pid, y: Pid, z: Pid) {
    0 < x < 4 && 0 < y < 4 && 0 < z < 4 && x != y && y != z && x != z
  }

  lemma KeepsScene(k: Kernel, r: Kernel, tick: nat, a: Option<Pid>, b: Option<Pid>)
    requires Scene(k, tick, a, b) && Stage(r) && |r.procs| == 4 && r.tick == tick && r.mutexes == k.mutexes
             && Prios(r) == Prios(k)
    requires forall i :: 0 <= i < 4 ==> r.procs[i].base == k.procs[i].base
    ensures Scene(r, tick, a, b)
  {
    hide Inv, Exact, Safe;
    assert forall i :: 0 <= i < 4 ==> r.procs[i].priority == Prios(r)[i] == Prios(k)[i] == k.procs[i].priority;
  }

  lemma IsCandidate(k: Kernel, id: Pid, i: Pid)
    requires Stage(k) && OnCpu(k, id) && Free(k, i) && i != id
    ensures Candidate(k, 0, i)
  {
    RunnerRuns(k, id);
    assert Simple(k.procs[i]);
  }

  lemma PowerOn() returns (b: Kernel)
    requires MAX_READY_PER_PRIORITY >= 4
    ensures b == Booted(Quartet(), SOLO) && Scene(b, 1, None, None) && OnCpu(b, 0) && Candidate(b, 0, 1)
    ensures (forall i :: 0 <= i < 4 ==> Free(b, i)) && forall h :: Waiters(b, h) == []
  {
    hide Inv, Exact, Safe, Created, Booted;
    QuartetCreated();
    b := BootSetsStage(Quartet());
    assert forall i :: 0 <= i < 4 ==> Awake(Quartet().procs[i], b.procs[i]);
    NobodyRaised(b);
    assert Scene(b, 1, None, None);
    TopRuns(b, 0);
    IsCandidate(b, 0, 1);
  }

  /** Process 0 runs first and goes to sleep; x takes the first mutex. */
  lemma Opening() returns (es: seq<Event>, k: Kernel, x: Pid)
    requires MAX_READY_PER_PRIORITY >= 4
    ensures CameTo(Booted(Quartet(), SOLO), es, k) && Scene(k, 1, Some(x), None) && ZeroSleeps(k) && OnCpu(k, x)
            && 0 < x < 4
    ensures (forall i :: 0 < i < 4 ==> Free(k, i)) && forall h :: Waiters(k, h) == []
  {
    hide Inv, Exact, Safe, Booted, Step, Legal, BestFrom;
    var b := PowerOn();
    SomebodyNext(b, 1);
    var n := Nap(b, 0, 1);
    es := OneMore(b, [], b, Svc(0, TimedWaitCall(1)));
    x := n.current[0].value;
    RunnerRuns(n, x);
    assert Simple(n.procs[x]);
    k := FreeLock(n, x, 0, 0);
    es := OneMore(b, es, n, Svc(x, LockCall(0, 0)));
    forall i | 0 < i < 4 ensures Free(k, i) { assert Free(b, i) && Gentle(b.procs[i], n.procs[i]); }
    forall h ensures Waiters(k, h) == [] { assert Waiters(k, h) == Waiters(n, h) == Waiters(b, h); }
  }

  /** y gets its turn and takes the second mutex. */
  lemma SecondTakes(b: Kernel, es: seq<Event>, k: Kernel, x: Pid) returns (all: seq<Event>, r: Kernel, y: Pid)
    requires CameTo(b, es, k) && Scene(k, 1, Some(x), None) && ZeroSleeps(k) && OnCpu(k, x) && 0 < x < 4
    requires (forall i :: 0 < i < 4 ==> Free(k, i)) && forall h :: Waiters(k, h) == []
    ensures CameTo(b, all, r) && Scene(r, 1, Some(x), Some(y)) && ZeroSleeps(r) && OnCpu(r, y) && 0 < y < 4 && y != x
    ensures (forall i :: 0 < i < 4 ==> Free(r, i)) && forall h :: Waiters(r, h) == []
  {
    hide Inv, Exact, Safe, Step, Legal, CameTo;
    var i: Pid := if x == 1 then 2 else 1;
    IsCandidate(k, x, i);
    var u;
    u, y := GivesWay(k, x, i);
    all := OneMore(b, es, k, Svc(x, YieldCall));
    RunnerRuns(k, x);
    assert Simple(u.procs[y]) && Scene(u, 1, Some(x), None);
    RunnerRuns(u, y);
    r := FreeLock(u, y, 1, 0);
    all := OneMore(b, all, u, Svc(y, LockCall(1, 0)));
    forall i | 0 < i < 4 ensures Free(r, i) { assert Free(k, i) && Gentle(k.procs[i], u.procs[i]); }
    forall h ensures Waiters(r, h) == [] { assert Waiters(r, h) == Waiters(k, h); }
  }

  /** y waits for the first mutex; x and z can still run. */
  ghost predicate Held(k: Kernel, x: Pid, y: Pid, z: Pid) {
    && Scene(k, 1, Some(x), Some(y)) && ZeroSleeps(k) && Others(x, y, z) && Free(k, x) && Free(k, z)
    && k.procs[y].waitlist == OnMutex(0) && k.procs[y].wakeTick == TICK_NONE
    && Waiters(k, OnMutex(0)) == [y] && forall h :: h != OnMutex(0) ==> Waiters(k, h) == []
  }

  lemma SecondWaits(b: Kernel, es: seq<Event>, k: Kernel, x: Pid, y: Pid, z: Pid)
      returns (all: seq<Event>, r: Kernel, n: Pid)
    requires CameTo(b, es, k) && Scene(k, 1, Some(x), Some(y)) && ZeroSleeps(k) && OnCpu(k, y) && Others(x, y, z)
    requires (forall i :: 0 < i < 4 ==> Free(k, i)) && forall h :: Waiters(k, h) == []
    ensures CameTo(b, all, r) && Held(r, x, y, z) && OnCpu(r, n) && n in {x, z}
  {
    hide Inv, Exact, Safe, Step, Legal, CameTo, LockWaits;
    MayWaitFor(k, y, 0, x, x);
    r, n := WaitingLock(k, y, 0, TIMEOUT_INFINITE);
    all := OneMore(b, es, k, Svc(y, LockCall(0, TIMEOUT_INFINITE)));
    KeepsScene(k, r, 1, Some(x), Some(y));
    forall i | i in {x, z} ensures Free(r, i) { assert Free(k, i) && Gentle(k.procs[i], r.procs[i]); }
  }

  lemma MayWaitFor(k: Kernel, id: Pid, m: nat, o: Pid, i: Pid)
    requires Stage(k) && OnCpu(k, id) && |k.procs| == 4 && |k.mutexes| == 2 && m < 2
             && k.mutexes[m] == Mutex(true, 0, Some(o))
    requires o != id && o < 4 && Waiters(k, OnMutex(m)) == [] && i != id && Free(k, i)
    ensures LockWaits(k, m, TIMEOUT_INFINITE, id)
  {
    RunnerRuns(k, id);
    assert Simple(k.procs[id]);
    IsCandidate(k, id, i);
  }

  /** If z runs, it gives way to x. */
  lemma FirstRuns(b: Kernel, es: seq<Event>, k: Kernel, x: Pid, y: Pid, z: Pid, n: Pid)
      returns (all: seq<Event>, r: Kernel)
    requires CameTo(b, es, k) && Held(k, x, y, z) && OnCpu(k, n) && n in {x, z}
    ensures CameTo(b, all, r) && Held(r, x, y, z) && OnCpu(r, x)
  {
    all, r := es, k;
    if n == z {
      hide *;
      OnlyFirst(k, x, y, z);
      var next;
      r, next := GivesWay(k, z, x);
      all := OneMore(b, es, k, Svc(z, YieldCall));
      StillHeld(k, r, x, y, z);
    }
  }

  lemma OnlyFirst(k: Kernel, x: Pid, y: Pid, z: Pid)
    requires Held(k, x, y, z) && OnCpu(k, z)
    ensures Stage(k) && |k.procs| == 4 && z < 4 && k.procs[z].priority == 1
    ensures forall j :: Candidate(k, 0, j) <==> j == x
    ensures forall j :: 0 <= j < |k.procs| && k.procs[j].state == Ready ==> k.procs[j].priority == 1
  {
    hide Inv, Exact, Safe;
    IsCandidate(k, z, x);
    RunnerRuns(k, z);
    BlockedByList(k, y);
  }

  lemma StillHeld(k: Kernel, r: Kernel, x: Pid, y: Pid, z: Pid)
    requires Held(k, x, y, z) && Stage(r) && |r.procs| == 4 && r.tick == k.tick && r.mutexes == k.mutexes
             && r.lists == k.lists
    requires forall j :: 0 <= j < 4 ==>
             r.procs[j] == k.procs[j].(state := r.procs[j].state) && Gentle(k.procs[j], r.procs[j])
    ensures Held(r, x, y, z)
  {
    hide Inv, Exact, Safe;
    forall h ensures Waiters(r, h) == Waiters(k, h) {}
    assert Gentle(k.procs[0], r.procs[0]) && Gentle(k.procs[x], r.procs[x]) && Gentle(k.procs[z], r.procs[z]);
  }

  lemma BlockedByList(k: Kernel, y: Pid)
    requires Stage(k) && y < |k.procs| && k.procs[y].waitlist != NoList
    ensures k.procs[y].state == Blocked
  {
    assert ProcOk(k, {}, y);
  }

  /** x and y wait for each other, and only z can run. */
  ghost predicate Locked(k: Kernel, tick: nat, x: Pid, y: Pid, z: Pid) {
    && Scene(k, tick, Some(x), Some(y)) && Others(x, y, z)
    && k.procs[y].waitlist == OnMutex(0) && k.procs[y].wakeTick == TICK_NONE && y in Waiters(k, OnMutex(0))
    && k.procs[x].waitlist == OnMutex(1) && k.procs[x].wakeTick == TICK_NONE && x in Waiters(k, OnMutex(1))
  }

  lemma CycleCloses(b: Kernel, es: seq<Event>, k: Kernel, x: Pid, y: Pid, z: Pid) returns (all: seq<Event>, r: Kernel)
    requires CameTo(b, es, k) && Held(k, x, y, z) && OnCpu(k, x)
    ensures CameTo(b, all, r) && Locked(r, 1, x, y, z) && ZeroSleeps(r) && OnCpu(r, z)
  {
    hide Inv, Exact, Safe, Step, Legal, CameTo, LockWaits;
    BlockedByList(k, y);
    MayWaitFor(k, x, 1, y, z);
    var n;
    r, n := WaitingLock(k, x, 1, TIMEOUT_INFINITE);
    all := OneMore(b, es, k, Svc(x, LockCall(1, TIMEOUT_INFINITE)));
    KeepsScene(k, r, 1, Some(x), Some(y));
    assert Waiters(r, OnMutex(1)) == [x];
  }

  /** z goes to sleep for longer than process 0: the partition idles. */
  lemma LastSleeps(b: Kernel, es: seq<Event>, k: Kernel, x: Pid, y: Pid, z: Pid) returns (all: seq<Event>, r: Kernel)
    requires CameTo(b, es, k) && Locked(k, 1, x, y, z) && ZeroSleeps(k) && OnCpu(k, z)
    ensures CameTo(b, all, r) && Locked(r, 1, x, y, z) && ZeroSleeps(r)
    ensures r.procs[z].state == Blocked && r.procs[z].timedWaiting && r.procs[z].wakeTick == 6
  {
    hide Inv, Exact, Safe, Step, Legal, CameTo, BestFrom;
    RunnerRuns(k, z);
    r := Nap(k, z, 5);
    all := OneMore(b, es, k, Svc(z, TimedWaitCall(5)));
    assert Waiters(r, OnMutex(0)) == Waiters(k, OnMutex(0)) && Waiters(r, OnMutex(1)) == Waiters(k, OnMutex(1));
  }

  /** Process 0 wakes while everybody else is blocked. */
  lemma ZeroWakes(k: Kernel, x: Pid, y: Pid, z: Pid) returns (r: Kernel)
    requires Locked(k, 1, x, y, z) && ZeroSleeps(k)
    requires k.procs[z].state == Blocked && k.procs[z].timedWaiting && k.procs[z].wakeTick == 6
    ensures Legal(k, Tick(None)) && r == Step(SOLO, k, Tick(None)) && Locked(r, 2, x, y, z) && OnCpu(r, 0)
    ensures forall i :: !Candidate(r, 0, i)
  {
    hide Inv, Exact, Safe, Step, Legal, PartitionSelect;
    BlockedByList(k, x);
    BlockedByList(k, y);
    Asleep(k, 0);
    Asleep(k, z);
    assert NobodyDue(k, 2) by { OnlySleepers(k, x, y, z); }
    var s;
    s, r := TickKeepsStage(k);
    var q := QuietTick(k);
    forall i | 0 <= i < 4 ensures Gentle(Ticked(k.procs[i], 2, false), r.procs[i]) {}
    AfterTick(k, r, x, y, z);
    TopRuns(r, 0);
    RunnerRuns(r, 0);
  }

  lemma Asleep(k: Kernel, i: Pid)
    requires Stage(k) && i < |k.procs| && k.procs[i].timedWaiting
    ensures k.procs[i].waitlist == NoList && !k.procs[i].periodicWaiting
  {
    assert ProcOk(k, {}, i);
  }

  lemma OnlySleepers(k: Kernel, x: Pid, y: Pid, z: Pid)
    requires Locked(k, 1, x, y, z) && k.procs[0].waitlist == NoList == k.procs[z].waitlist
    ensures NobodyDue(k, 2)
  {
    hide Inv, Exact, Safe, Stage;
    forall i | 0 <= i < |k.procs| ensures !Expired(k, i, 2) { assert i in {0, x, y, z}; }
  }

  lemma AfterTick(k: Kernel, r: Kernel, x: Pid, y: Pid, z: Pid)
    requires Locked(k, 1, x, y, z) && ZeroSleeps(k) && Stage(r) && |r.procs| == 4 && r.tick == 2
             && r.mutexes == k.mutexes
    requires Prios(r) == Prios(k) && (forall h :: Waiters(r, h) == Waiters(k, h))
    requires forall i :: 0 <= i < 4 ==> Gentle(Ticked(k.procs[i], 2, false), r.procs[i])
    requires k.procs[z].state == Blocked && k.procs[z].timedWaiting && k.procs[z].wakeTick == 6
             && k.procs[x].state == k.procs[y].state == Blocked
    requires k.procs[0].waitlist == NoList == k.procs[z].waitlist && !k.procs[0].periodicWaiting
             && !k.procs[z].periodicWaiting
    ensures Locked(r, 2, x, y, z) && r.procs[0].state in {Ready, Running}
            && forall i :: 0 < i < 4 ==> r.procs[i].state == Blocked
  {
    hide Inv, Exact, Safe;
    assert Simple(k.procs[0]) && Simple(k.procs[x]) && Simple(k.procs[y]) && Simple(k.procs[z]);
    assert ClockOk(k, k.procs[0]) && ClockOk(k, k.procs[x]) && ClockOk(k, k.procs[y]) && ClockOk(k, k.procs[z]) by {
      Clocks(k);
    }
    forall i | 0 <= i < 4
      ensures r.procs[i].base == k.procs[i].base && r.procs[i].priority == k.procs[i].priority
      ensures i != 0 ==> r.procs[i].state == Blocked
    {
      assert i in {0, x, y, z};
      assert r.procs[i].priority == Prios(r)[i] == Prios(k)[i];
    }
  }

  lemma Clocks(k: Kernel)
    requires Inv(k)
    ensures forall i :: 0 <= i < |k.procs| ==> ClockOk(k, k.procs[i])
  {
  }

  /** The deadlock is ahead of the owner of the first mutex. */
  lemma DeadlockIsAhead(k: Kernel, x: Pid, y: Pid, z: Pid)
    requires Locked(k, 2, x, y, z)
    ensures DeadlockBehind(k, 0, 0)
  {
    hide Inv, Exact, Safe;
    var g := GraphOf(k);
    assert g.boss[x] == Boss(k, x) == Some(y) && g.boss[y] == Boss(k, y) == Some(x);
    assert Iter(g.boss, x, 0) == Some(x);
    assert Iter(g.boss, y, 1) == Some(x);
    assert Iter(g.boss, x, 2) == Some(x);
    assert Leads(g, x, x) && OnRealCycle(g, x) && Prios(k)[x] > k.procs[0].priority;
  }

  /** From power-on to a raise that stays: two processes wait for each other, the third sleeps,
      and a more urgent one is refused one of their mutexes because nobody could run in its
      place. It goes on with the lock refused, and the deadlocked processes stay raised. */
  lemma RefusalKeepsRaise() returns (es: seq<Event>, e: Event)
    requires MAX_READY_PER_PRIORITY >= 4
    ensures Created(Quartet()) && LegalRun(SOLO, Booted(Quartet(), SOLO), es + [e])
    ensures e == Svc(0, LockCall(0, TIMEOUT_INFINITE))
    ensures var k := Run(SOLO, Booted(Quartet(), SOLO), es);
            && Exact(k) && Gate(k, 0, e.call).st !in {Ok, Pending}
            && Prios(Run(SOLO, Booted(Quartet(), SOLO), es + [e])) != Prios(k)
  {
    hide Inv, Exact, Safe, Created, Booted, Step, Legal, Gate, Scene, Held, Locked, CameTo;
    QuartetCreated();
    var b := Booted(Quartet(), SOLO);
    var k, x, y, n;
    es, k, x := Opening();
    es, k, y := SecondTakes(b, es, k, x);
    var z: Pid := 6 - x - y;
    es, k, n := SecondWaits(b, es, k, x, y, z);
    es, k := FirstRuns(b, es, k, x, y, z, n);
    es, k := CycleCloses(b, es, k, x, y, z);
    es, k := LastSleeps(b, es, k, x, y, z);
    var w := ZeroWakes(k, x, y, z);
    es := OneMore(b, es, k, Tick(None));
    e := Svc(0, LockCall(0, TIMEOUT_INFINITE));
    var r := Refused(w, x, y, z);
    var all := OneMore(b, es, w, e);
    Arrived(b, es, w);
    Arrived(b, all, r);
  }

  lemma Arrived(b: Kernel, es: seq<Event>, k: Kernel)
    requires CameTo(b, es, k)
    ensures LegalRun(SOLO, b, es) && k == Run(SOLO, b, es)
  {
  }

  lemma Refused(k: Kernel, x: Pid, y: Pid, z: Pid) returns (r: Kernel)
    requires Locked(k, 2, x, y, z) && OnCpu(k, 0) && forall i :: !Candidate(k, 0, i)
    ensures Legal(k, Svc(0, LockCall(0, TIMEOUT_INFINITE))) && r == Step(SOLO, k, Svc(0, LockCall(0, TIMEOUT_INFINITE)))
    ensures Exact(k) && Gate(k, 0, LockCall(0, TIMEOUT_INFINITE)).st !in {Ok, Pending} && Prios(r) != Prios(k)
  {
    hide *;
    RefusalIs(k, x, y, z);
    DeadlockIsAhead(k, x, y, z);
    LockOk(k, 0, TIMEOUT_INFINITE, 0);
    RefusedLockRestores(k, 0, TIMEOUT_INFINITE, 0);
    r := RefusedRuns(k);
  }

  lemma RefusalIs(k: Kernel, x: Pid, y: Pid, z: Pid)
    requires Locked(k, 2, x, y, z) && OnCpu(k, 0) && forall i :: !Candidate(k, 0, i)
    ensures Stage(k) && Inv(k) && Exact(k) && IsProc(k, 0) && k.procs[0].state == Running
    ensures !LockWaits(k, 0, TIMEOUT_INFINITE, 0) && Raises(k, 0, TIMEOUT_INFINITE, 0)
  {
    hide Inv, Exact, Safe;
    RunnerRuns(k, 0);
    assert Simple(k.procs[0]);
  }

  lemma RefusedRuns(k: Kernel) returns (r: Kernel)
    requires Stage(k) && OnCpu(k, 0) && IsProc(k, 0) && k.procs[0].state == Running && (forall i :: !Candidate(k, 0, i))
    requires !LockWaits(k, 0, TIMEOUT_INFINITE, 0) && Raises(k, 0, TIMEOUT_INFINITE, 0)
    ensures Legal(k, Svc(0, LockCall(0, TIMEOUT_INFINITE))) && r == Step(SOLO, k, Svc(0, LockCall(0, TIMEOUT_INFINITE)))
    ensures r == Lock(k, 0, TIMEOUT_INFINITE, 0).k
            && Gate(k, 0, LockCall(0, TIMEOUT_INFINITE)).st == Lock(k, 0, TIMEOUT_INFINITE, 0).st
    ensures Lock(k, 0, TIMEOUT_INFINITE, 0).st !in {Ok, Pending}
  {
    RunnerRuns(k, 0);
    hide Inv, Exact, Safe, Lock, LockWaits, NowWaiting, NoneAbove, PreemptCheck;
    LockOk(k, 0, TIMEOUT_INFINITE, 0);
    LockOutcome(k, 0, TIMEOUT_INFINITE, 0);
    r := Lock(k, 0, TIMEOUT_INFINITE, 0).k;
    StillPlaced(r);
    NobodyReadyStill(k, r, 0);
    assert Simple(k.procs[0]);
    CallerGoesOn(r, 0);
  }
}

/** A run from power-on in which the raising walk of a lock runs out of hops, for every size of
    the wait lists: with two mutexes its third visit is its last, and a process that nobody
    more urgent waits for any more stays raised. */
module CutWalks {
  import opened Wrappers
  import opened KernelState
  import opened Order
  import opened Placement
  import opened KernelCalls
  import opened Invariants
  import opened Blocking
  import opened Mutexes
  import opened Timing
  import opened Ticks
  import opened Gates
  import opened Runs
  import opened Startup
  import opened Scenes
  import opened Inheritance
  import opened Truncation
  import opened Hops
  import LostClaims

  // Three processes more than a wait list holds.
  const PARTY: nat := WAITLIST_MAX + 3

  /** Two mutexes; process 0 is more urgent than all others, which are equals. */
  function Cast(): (k: Kernel)
    ensures |k.procs| == PARTY && forall i :: 0 <= i < PARTY ==> k.procs[i] == Plain(if i == 0 then 0 else 1)
  {
    Kernel(
      procs := seq(PARTY, i => Plain(if i == 0 then 0 else 1)),
      ready := map[],
      current := [None],
      halted := [false],
      lists := map[],
      mutexes := [Mutex(true, 0, None), Mutex(true, 0, None)],
      sems := [],
      channels := map[],
      tick := 0,
      nextDue := TICK_NONE,
      pending := {})
  }

  lemma CastCreated()
    requires MAX_READY_PER_PRIORITY >= PARTY
    ensures Created(Cast())
  {
    var k := Cast();
    forall p: nat ensures |Members(k, p)| <= MAX_READY_PER_PRIORITY { SeenBelow(Members(k, p), PARTY); }
    forall i | 0 <= i < |k.procs| ensures NewRecord(k.procs[i], 1) && ClockOk(k, k.procs[i]) {}
  }

  /** What stays the same throughout the run: everybody has its base priority. */
  ghost predicate Scene(k: Kernel, tick: nat, a: Option<Pid>, b: Option<Pid>) {
    && Stage(k) && |k.procs| == PARTY && k.tick == tick && k.mutexes == [Mutex(true, 0, a), Mutex(true, 0, b)]
    && forall i :: 0 <= i < PARTY ==> k.procs[i].base == k.procs[i].priority == if i == 0 then 0 else 1
  }

  lemma KeepsScene(k: Kernel, r: Kernel, tick: nat, a: Option<Pid>, b: Option<Pid>)
    requires Scene(k, tick, a, b) && Stage(r) && |r.procs| == PARTY && r.mutexes == k.mutexes && Prios(r) == Prios(k)
    requires forall i :: 0 <= i < PARTY ==> r.procs[i].base == k.procs[i].base
    ensures Scene(r, r.tick, a, b)
  {
    hide Inv, Exact, Safe;
    assert forall i :: 0 <= i < PARTY ==> r.procs[i].priority == Prios(r)[i] == Prios(k)[i] == k.procs[i].priority;
  }

  /** Process i sleeps until tick w. */
  ghost predicate Sleeps(k: Kernel, i: Pid, w: nat) {
    i < |k.procs| && k.procs[i].state == Blocked && k.procs[i].timedWaiting && k.procs[i].wakeTick == w
  }

  ghost predicate Awake(k: Kernel, i: Pid) {
    i < |k.procs| && k.procs[i].state != Blocked
  }

  lemma IsCandidate(k: Kernel, id: Pid, i: Pid)
    requires Stage(k) && OnCpu(k, id) && Awake(k, i) && i != id
    ensures Candidate(k, 0, i)
  {
    RunnerRuns(k, id);
    assert Simple(k.procs[i]);
  }

  lemma SleeperIsOff(k: Kernel, i: Pid, w: nat)
    requires Stage(k) && Sleeps(k, i, w)
    ensures k.procs[i].waitlist == NoList && !k.procs[i].periodicWaiting && Simple(k.procs[i])
  {
    assert ProcOk(k, {}, i);
  }

  // ---------------------------------------------------------------- the second mutex is taken

  /** Process 0 sleeps until tick 3, o owns the second mutex and sleeps until tick 2; j others
      wait for it until tick 3; the rest can run, and one of them does. */
  ghost predicate Filling(k: Kernel, j: nat, o: Pid) {
    && Scene(k, 1, None, Some(o)) && k.current[0].Some? && 0 < o < PARTY
    && Sleeps(k, 0, 3) && Sleeps(k, o, 2) && |Waiters(k, OnMutex(1))| == j
    && forall i :: 0 < i < PARTY && i != o ==>
         if i in Waiters(k, OnMutex(1)) then k.procs[i].wakeTick == 3 else Awake(k, i)
  }

  lemma PowerOn() returns (b: Kernel)
    requires MAX_READY_PER_PRIORITY >= PARTY
    ensures b == Booted(Cast(), SOLO) && Scene(b, 1, None, None) && OnCpu(b, 0) && Candidate(b, 0, 1)
    ensures (forall i :: 0 <= i < PARTY ==> Awake(b, i)) && forall h :: Waiters(b, h) == []
  {
    hide Inv, Exact, Safe, Created, Booted;
    CastCreated();
    b := BootSetsStage(Cast());
    assert forall i :: 0 <= i < PARTY ==> Scenes.Awake(Cast().procs[i], b.procs[i]);
    NobodyRaised(b);
    assert Scene(b, 1, None, None);
    TopRuns(b, 0);
    IsCandidate(b, 0, 1);
  }

  lemma Opening() returns (es: seq<Event>, k: Kernel, o: Pid)
    requires MAX_READY_PER_PRIORITY >= PARTY
    ensures CameTo(Booted(Cast(), SOLO), es, k) && Filling(k, 0, o)
  {
    hide Inv, Exact, Safe, Booted, Step, Legal, BestFrom;
    var b := PowerOn();
    SomebodyNext(b, 1);
    var n := Nap(b, 0, 2);
    es := OneMore(b, [], b, Svc(0, TimedWaitCall(2)));
    o := n.current[0].value;
    RunnerRuns(n, o);
    assert Simple(n.procs[o]);
    var f := FreeLock(n, o, 1, 0);
    es := OneMore(b, es, n, Svc(o, LockCall(1, 0)));
    forall i | 0 < i < PARTY ensures Awake(f, i) { assert Awake(b, i) && Gentle(b.procs[i], n.procs[i]); }
    var i: Pid := if o == 1 then 2 else 1;
    IsCandidate(f, o, i);
    SomebodyNext(f, i);
    k := Nap(f, o, 1);
    es := OneMore(b, es, f, Svc(o, TimedWaitCall(1)));
    forall i | 0 < i < PARTY && i != o ensures Awake(k, i) { assert Awake(f, i) && Gentle(f.procs[i], k.procs[i]); }
    assert Waiters(k, OnMutex(1)) == Waiters(n, OnMutex(1)) == Waiters(b, OnMutex(1));
  }

  // ---------------------------------------------------------------- its wait list fills up

  /** A short list leaves somebody out. */
  lemma SomebodyLeft(l: seq<Pid>, x: Pid, o: Pid) returns (i: Pid)
    requires |l| < WAITLIST_MAX
    ensures 0 < i < PARTY && i !in l && i != x && i != o
  {
    var taken := LostClaims.Elements(l) + {x} + {o};
    LostClaims.ElementsFit(l);
    SumSize(LostClaims.Elements(l), x);
    SumSize(LostClaims.Elements(l) + {x}, o);
    var s := seq(PARTY - 1, j => j + 1);
    if forall j :: 0 < j < PARTY ==> j in taken {
      DistinctFit(s, taken);
    }
    i :| 0 < i < PARTY && i !in taken;
  }

  /** A full list and two more leave nobody out. */
  lemma NobodyLeft(l: seq<Pid>, x: Pid, o: Pid, i: Pid)
    requires NoDup(l) && |l| == WAITLIST_MAX && (forall j :: j in l ==> 0 < j < PARTY)
    requires 0 < x < PARTY && x !in l && 0 < o < PARTY && o !in l && o != x && 0 < i < PARTY && i !in l && i != o
    ensures i == x
  {
    if i != x {
      AppendFacts(l, x);
      AppendFacts(l + [x], i);
      AppendFacts(l + [x] + [i], o);
      AppendFacts(l + [x] + [i] + [o], 0);
      var all := l + [x] + [i] + [o] + [0];
      SeenBelow(LostClaims.Elements(all), PARTY);
      DistinctFit(all, LostClaims.Elements(all));
    }
  }

  lemma FillingLocks(k: Kernel, j: nat, o: Pid, x: Pid)
    requires Filling(k, j, o) && OnCpu(k, x) && j < WAITLIST_MAX
    ensures 0 < x < PARTY && x != o && LockWaits(k, 1, 2, x)
  {
    RunnerRuns(k, x);
    var i := SomebodyLeft(Waiters(k, OnMutex(1)), x, o);
    assert Simple(k.procs[x]);
    IsCandidate(k, x, i);
  }

  lemma FillStep(k: Kernel, j: nat, o: Pid) returns (x: Pid, r: Kernel)
    requires Filling(k, j, o) && j < WAITLIST_MAX
    ensures Legal(k, Svc(x, LockCall(1, 2))) && r == Step(SOLO, k, Svc(x, LockCall(1, 2))) && Filling(r, j + 1, o)
  {
    hide Inv, Exact, Safe, LockWaits, Step, Legal;
    x := k.current[0].value;
    FillingLocks(k, j, o, x);
    var next;
    r, next := WaitingLock(k, x, 1, 2);
    var l := Waiters(k, OnMutex(1));
    assert forall i :: i in l + [x] <==> i in l || i == x;
    KeepsScene(k, r, 1, None, Some(o));
  }

  lemma {:induction false} FillUp(b: Kernel, es: seq<Event>, k: Kernel, j: nat, o: Pid)
      returns (all: seq<Event>, r: Kernel)
    requires CameTo(b, es, k) && Filling(k, j, o) && j <= WAITLIST_MAX
    ensures CameTo(b, all, r) && Filling(r, WAITLIST_MAX, o)
    decreases WAITLIST_MAX - j
  {
    if j == WAITLIST_MAX {
      all, r := es, k;
    } else {
      hide CameTo, Filling, Step, Legal;
      var x, k' := FillStep(k, j, o);
      all := OneMore(b, es, k, Svc(x, LockCall(1, 2)));
      all, r := FillUp(b, all, k', j + 1, o);
    }
  }

  // ---------------------------------------------------------------- one process is turned away

  lemma NobodyReady(k: Kernel, o: Pid, n: Pid)
    requires Filling(k, WAITLIST_MAX, o) && OnCpu(k, n)
    ensures 0 < n < PARTY && n != o && n !in Waiters(k, OnMutex(1)) && forall i :: !Candidate(k, 0, i)
    ensures forall i :: 0 < i < PARTY && i != o && i != n ==> i in Waiters(k, OnMutex(1))
  {
    RunnerRuns(k, n);
    var l := Waiters(k, OnMutex(1));
    assert ListOk(k, {}, OnMutex(1)) && ListFine(k, OnMutex(1));
    assert n !in l && o !in l by { SleeperIsOff(k, o, 2); }
    assert 0 !in l by { SleeperIsOff(k, 0, 3); }
    forall i: Pid ensures !Candidate(k, 0, i) && (0 < i < PARTY && i != o && i != n ==> i in l) {
      if 0 < i < PARTY && i !in l && i != n && i != o { NobodyLeft(l, n, o, i); }
    }
  }

  /** The list is full: process n is refused the second mutex, takes the first and sleeps. */
  ghost predicate Idle(k: Kernel, o: Pid, n: Pid) {
    && Scene(k, 1, Some(n), Some(o)) && k.current == [None] && 0 < o < PARTY && 0 < n < PARTY && o != n
    && Sleeps(k, 0, 3) && Sleeps(k, o, 2) && Sleeps(k, n, 7) && k.procs[n].op == LockOp(1)
    && forall i :: 0 < i < PARTY && i != o && i != n ==> i in Waiters(k, OnMutex(1)) && k.procs[i].wakeTick == 3
  }

  lemma NothingAhead(k: Kernel, m: nat, id: Pid)
    requires id < |k.procs| && forall i :: 0 <= i < |k.procs| ==> k.procs[i].priority <= k.procs[id].priority
    ensures !DeadlockBehind(k, m, id)
  {
    assert forall x :: 0 <= x < |Prios(k)| ==> Prios(k)[x] == k.procs[x].priority;
  }

  lemma TurnedAway(k: Kernel, o: Pid, n: Pid) returns (r: Kernel)
    requires Filling(k, WAITLIST_MAX, o) && OnCpu(k, n)
    ensures Legal(k, Svc(n, LockCall(1, 1))) && r == Step(SOLO, k, Svc(n, LockCall(1, 1)))
    ensures Filling(r, WAITLIST_MAX, o) && OnCpu(r, n) && 0 < n < PARTY && r.procs[n].op == LockOp(1)
  {
    NobodyReady(k, o, n);
    RunnerRuns(k, n);
    assert Simple(k.procs[n]);
    hide Inv, Exact, Safe, Step, Legal, DeadlockBehind;
    r := RefusedLock(k, n, 1, 1);
    NothingAhead(k, 1, n);
    RefusedPrios(k, n, r);
    KeepsScene(k, r, 1, None, Some(o));
  }

  lemma RefusedPrios(k: Kernel, n: Pid, r: Kernel)
    requires Stage(k) && OnCpu(k, n) && IsProc(k, n) && k.procs[n].state == Running && !DeadlockBehind(k, 1, n)
    requires r == Step(SOLO, k, Svc(n, LockCall(1, 1))) && |Waiters(k, OnMutex(1))| >= WAITLIST_MAX
    requires Raises(k, 1, 1, n) && k.procs[n].partition == 0 && forall i :: !Candidate(k, 0, i)
    ensures Prios(r) == Prios(k)
  {
    assert !LockWaits(k, 1, 1, n);
    hide Inv, Exact, Lock, LockWaits, NowWaiting, DeadlockBehind, NoneAbove, PreemptCheck;
    LockOk(k, 1, 1, n);
    LockOutcome(k, 1, 1, n);
    RefusedLockRestores(k, 1, 1, n);
    var s := Lock(k, 1, 1, n).k;
    StillPlaced(s);
    NobodyReadyStill(k, s, n);
    CallerGoesOn(s, n);
  }

  lemma FallsAsleep(b: Kernel, es: seq<Event>, k: Kernel, o: Pid, n: Pid) returns (all: seq<Event>, r: Kernel)
    requires CameTo(b, es, k) && Filling(k, WAITLIST_MAX, o) && OnCpu(k, n) && n < PARTY && k.procs[n].op == LockOp(1)
    ensures CameTo(b, all, r) && Idle(r, o, n)
  {
    hide Inv, Exact, Safe, Step, Legal, CameTo, BestFrom;
    NobodyReady(k, o, n);
    RunnerRuns(k, n);
    assert Simple(k.procs[n]);
    var f := FreeLock(k, n, 0, 0);
    all := OneMore(b, es, k, Svc(n, LockCall(0, 0)));
    r := Nap(f, n, 6);
    all := OneMore(b, all, f, Svc(n, TimedWaitCall(6)));
    assert forall i :: Candidate(f, 0, i) <==> Candidate(k, 0, i);
    NobodyNext(f);
    assert Waiters(r, OnMutex(1)) == Waiters(f, OnMutex(1)) == Waiters(k, OnMutex(1));
    KeepsScene(f, r, 1, Some(n), Some(o));
  }

  lemma NobodyNext(k: Kernel)
    requires Stage(k) && forall i :: !Candidate(k, 0, i)
    ensures Best(k, 0) > MAX_PRIORITY
  {
    if Best(k, 0) <= MAX_PRIORITY {
      HeadIsReady(k, {}, 0);
      assert Candidate(k, 0, Queue(k, Slot(0, Best(k, 0)))[0]);
    }
  }

  // ---------------------------------------------------------------- the owner wakes

  lemma {:induction false} QuietScene(k: Kernel, tick: nat, a: Option<Pid>, b: Option<Pid>) returns (r: Kernel)
    requires Scene(k, tick, a, b) && NobodyDue(k, tick + 1) && tick < 100
    ensures Legal(k, Tick(None)) && r == Step(SOLO, k, Tick(None)) && Scene(r, tick + 1, a, b)
    ensures forall i :: 0 <= i < PARTY ==> Gentle(Ticked(k.procs[i], tick + 1, false), r.procs[i])
    ensures forall h :: Waiters(r, h) == Waiters(k, h)
  {
    hide Inv, Exact, Safe, Step, PartitionSelect, NobodyDue, Ticked;
    var s;
    s, r := TickKeepsStage(k);
    var q := QuietTick(k);
    forall i | 0 <= i < PARTY ensures r.procs[i].base == k.procs[i].base {
      TickedBase(k.procs[i], tick + 1, r.procs[i]);
    }
    KeepsScene(k, r, tick, a, b);
  }

  lemma TickedBase(c: Pcb, now: nat, c': Pcb)
    requires Gentle(Ticked(c, now, false), c')
    ensures c'.base == c.base
  {
  }

  /** What a tick before the end of its sleep leaves of a sleeper, and the tick that ends it. */
  lemma SleeperTicks(k: Kernel, i: Pid, w: nat, now: nat, c': Pcb)
    requires Stage(k) && Sleeps(k, i, w) && Gentle(Ticked(k.procs[i], now, false), c')
    ensures if now < w then c' == k.procs[i].(priority := c'.priority)
            else c'.state in {Ready, Running} && c'.waitlist == NoList && c'.op == k.procs[i].op
  {
    SleeperIsOff(k, i, w);
    assert ClockOk(k, k.procs[i]);
  }

  lemma ListedTicks(k: Kernel, h: ListId, i: Pid, now: nat, c': Pcb)
    requires Stage(k) && i in Waiters(k, h) && i < |k.procs| && Gentle(Ticked(k.procs[i], now, false), c')
    ensures k.procs[i].state == Blocked && k.procs[i].waitlist == h != NoList
    ensures now < k.procs[i].wakeTick ==> c' == k.procs[i].(priority := c'.priority)
    ensures now >= k.procs[i].wakeTick != TICK_NONE ==> c'.state in {Ready, Running} && c'.waitlist == NoList
  {
    assert ListOk(k, {}, h) && ProcOk(k, {}, i) && ClockOk(k, k.procs[i]) && Simple(k.procs[i]);
  }

  /** Tick 2: o runs, alone. */
  ghost predicate Alone(k: Kernel, o: Pid, n: Pid) {
    && Scene(k, 2, Some(n), Some(o)) && OnCpu(k, o) && 0 < o < PARTY && 0 < n < PARTY && o != n
    && Sleeps(k, 0, 3) && Sleeps(k, n, 7) && k.procs[n].op == LockOp(1)
    && forall i :: 0 < i < PARTY && i != o && i != n ==> i in Waiters(k, OnMutex(1)) && k.procs[i].wakeTick == 3
  }

  lemma OwnerWakes(k: Kernel, o: Pid, n: Pid) returns (r: Kernel)
    requires Idle(k, o, n)
    ensures Legal(k, Tick(None)) && r == Step(SOLO, k, Tick(None)) && Alone(r, o, n)
  {
    hide Inv, Exact, Safe, Step, Ticked;
    forall i | 0 <= i < |k.procs| ensures !Expired(k, i, 2) {
      if i == 0 { SleeperIsOff(k, 0, 3); }
      if i == o { SleeperIsOff(k, o, 2); }
      if i == n { SleeperIsOff(k, n, 7); }
    }
    r := QuietScene(k, 1, Some(n), Some(o));
    SleeperTicks(k, 0, 3, 2, r.procs[0]);
    SleeperTicks(k, n, 7, 2, r.procs[n]);
    SleeperTicks(k, o, 2, 2, r.procs[o]);
    forall i | 0 < i < PARTY && i != o && i != n
      ensures i in Waiters(r, OnMutex(1)) && r.procs[i].wakeTick == 3 && r.procs[i].state == Blocked
    {
      ListedTicks(k, OnMutex(1), i, 2, r.procs[i]);
    }
    OnlyOneRuns(r, o);
  }

  lemma OnlyOneRuns(k: Kernel, o: Pid)
    requires Stage(k) && Awake(k, o) && forall i :: 0 <= i < |k.procs| && i != o ==> k.procs[i].state == Blocked
    ensures OnCpu(k, o)
  {
    assert Simple(k.procs[o]) && ProcOk(k, {}, o) && CurrentOk(k, 0);
    if k.procs[o].state == Ready { assert Candidate(k, 0, o); }
  }

  // ---------------------------------------------------------------- everybody else wakes

  /** Tick 3: process 0 runs, o is first behind it, and nobody is on a wait list. */
  ghost predicate Cleared(k: Kernel, o: Pid, n: Pid) {
    && Scene(k, 3, Some(n), Some(o)) && OnCpu(k, 0) && 0 < o < PARTY && 0 < n < PARTY && o != n
    && Sleeps(k, n, 7) && k.procs[n].op == LockOp(1)
    && (forall i :: 0 <= i < PARTY ==> k.procs[i].waitlist == NoList && (i != n ==> Awake(k, i)))
    && Queue(k, Slot(0, 1)) != [] && Queue(k, Slot(0, 1))[0] == o
  }

  lemma WhoTicks(k: Kernel, o: Pid, n: Pid, i: Pid, c': Pcb)
    requires Alone(k, o, n) && i < PARTY && Gentle(Ticked(k.procs[i], 3, false), c')
    ensures c'.waitlist == NoList && c'.base == k.procs[i].base && c'.partition == 0
    ensures if i == n then c' == k.procs[i].(priority := c'.priority) else c'.state in {Ready, Running}
    ensures i == o ==> Ticked(k.procs[i], 3, false) == k.procs[i]
  {
    TickedBase(k.procs[i], 3, c');
    assert Simple(k.procs[i]);
    if i == 0 {
      SleeperTicks(k, 0, 3, 3, c');
    } else if i == n {
      SleeperIsOff(k, n, 7);
      SleeperTicks(k, n, 7, 3, c');
    } else if i == o {
      RunnerRuns(k, o);
      assert ClockOk(k, k.procs[o]);
    } else {
      ListedTicks(k, OnMutex(1), i, 3, c');
    }
  }

  lemma AllWake(k: Kernel, o: Pid, n: Pid) returns (r: Kernel)
    requires Alone(k, o, n)
    ensures Legal(k, Tick(None)) && r == Step(SOLO, k, Tick(None)) && Cleared(r, o, n)
  {
    hide Inv, Exact, Safe, Step, Legal, Ticked, PartitionSelect, Simple;
    RunnerRuns(k, o);
    var s;
    s, r := TickKeepsStage(k);
    forall i | 0 <= i < PARTY
      ensures r.procs[i].waitlist == NoList && r.procs[i].base == k.procs[i].base && (i != n ==> Awake(r, i))
      ensures s.procs[i].waitlist == NoList && s.procs[i].base == k.procs[i].base && s.procs[i].partition == 0
    {
      WhoTicks(k, o, n, i, r.procs[i]);
      WhoTicks(k, o, n, i, s.procs[i]);
    }
    WhoTicks(k, o, n, n, r.procs[n]);
    NobodyRaised(r);
    NobodyRaised(s);
    assert Scene(r, 3, Some(n), Some(o));
    ZeroRuns(r);
    WhoTicks(k, o, n, o, s.procs[o]);
    WhoTicks(k, o, n, 0, s.procs[0]);
    ZeroWasAsleep(k, s);
    PreemptedIsFirst(s, o, 0);
  }

  lemma ZeroWasAsleep(k: Kernel, s: Kernel)
    requires Sleeps(k, 0, 3) && Stage(k) && 0 < |s.procs|
             && s.procs[0] == Ticked(k.procs[0], 3, false).(priority := s.procs[0].priority)
    ensures s.procs[0].state == Ready
  {
    SleeperIsOff(k, 0, 3);
  }

  lemma ZeroRuns(k: Kernel)
    requires Stage(k) && |k.procs| > 0 && Awake(k, 0)
    requires forall i :: 0 <= i < |k.procs| ==> k.procs[i].priority == if i == 0 then 0 else 1
    ensures OnCpu(k, 0)
  {
    assert Simple(k.procs[0]);
    TopRuns(k, 0);
  }

  // ---------------------------------------------------------------- the owner waits for the process turned away

  /** o waits for the first mutex, which n has; one of the others runs. */
  ghost predicate Chained(k: Kernel, tick: nat, o: Pid, n: Pid, x: Pid) {
    && Scene(k, tick, Some(n), Some(o)) && OnCpu(k, x) && x < PARTY
    && 0 < o < PARTY && 0 < n < PARTY && o != n && x != o && x != n
    && Sleeps(k, n, 7) && k.procs[n].op == LockOp(1)
    && o in Waiters(k, OnMutex(0)) && k.procs[o].wakeTick == TICK_NONE && k.procs[o].waitlist == OnMutex(0)
    && (forall i :: 0 <= i < PARTY && i != o ==> k.procs[i].waitlist == NoList)
    && Waiters(k, OnMutex(1)) == []
  }

  lemma OwnerWaits(b: Kernel, es: seq<Event>, k: Kernel, o: Pid, n: Pid) returns (all: seq<Event>, r: Kernel, x: Pid)
    requires CameTo(b, es, k) && Cleared(k, o, n)
    ensures CameTo(b, all, r) && Chained(r, 3, o, n, x) && Sleeps(r, 0, 4)
  {
    hide Inv, Exact, Safe, Step, Legal, CameTo, BestFrom, LockWaits;
    RunnerRuns(k, 0);
    NobodyRaised(k);
    NextIsFirst(k, o);
    var a := Nap(k, 0, 1);
    all := OneMore(b, es, k, Svc(0, TimedWaitCall(1)));
    assert OnCpu(a, o);
    KeepsScene(k, a, 3, Some(n), Some(o));
    forall i | 0 <= i < PARTY ensures a.procs[i].waitlist == NoList && (i != 0 && i != n ==> Awake(a, i)) {
      assert k.procs[i].waitlist == NoList;
      assert i != 0 ==> Gentle(k.procs[i], a.procs[i]);
    }
    OwnerMayWait(a, o, n);
    r, x := WaitingLock(a, o, 0, TIMEOUT_INFINITE);
    all := OneMore(b, all, a, Svc(o, LockCall(0, TIMEOUT_INFINITE)));
    KeepsScene(a, r, 3, Some(n), Some(o));
    assert Gentle(a.procs[n], r.procs[n]) && Gentle(a.procs[0], r.procs[0]);
    assert forall h :: Waiters(a, h) == [];
    assert Waiters(r, OnMutex(0)) == [o];
  }

  lemma OwnerMayWait(k: Kernel, o: Pid, n: Pid)
    requires Scene(k, 3, Some(n), Some(o)) && OnCpu(k, o) && 0 < o < PARTY && 0 < n < PARTY && o != n
    requires forall i :: 0 <= i < PARTY ==> k.procs[i].waitlist == NoList && (i != 0 && i != n ==> Awake(k, i))
    ensures LockWaits(k, 0, TIMEOUT_INFINITE, o) && forall h :: Waiters(k, h) == []
  {
    RunnerRuns(k, o);
    NobodyRaised(k);
    assert Simple(k.procs[o]);
    var i := SomebodyLeft([], o, n);
    IsCandidate(k, o, i);
  }

  lemma ZeroWakes(k: Kernel, o: Pid, n: Pid, x: Pid) returns (r: Kernel)
    requires Chained(k, 3, o, n, x) && Sleeps(k, 0, 4)
    ensures Legal(k, Tick(None)) && r == Step(SOLO, k, Tick(None)) && Chained(r, 4, o, n, 0) && Candidate(r, 0, x)
  {
    hide Inv, Exact, Safe, Step, Ticked;
    RunnerRuns(k, x);
    forall i | 0 <= i < |k.procs| ensures !Expired(k, i, 4) {}
    r := QuietScene(k, 3, Some(n), Some(o));
    SleeperTicks(k, 0, 4, 4, r.procs[0]);
    SleeperTicks(k, n, 7, 4, r.procs[n]);
    ListedTicks(k, OnMutex(0), o, 4, r.procs[o]);
    ZeroRuns(r);
    forall i | 0 <= i < PARTY && i != o
      ensures r.procs[i].waitlist == NoList && (i == x ==> Awake(r, x))
    {
      OffList(k, i, 4, r.procs[i]);
    }
    IsCandidate(r, 0, x);
  }

  lemma OffList(k: Kernel, i: Pid, now: nat, c': Pcb)
    requires Stage(k) && i < |k.procs| && k.procs[i].waitlist == NoList && Gentle(Ticked(k.procs[i], now, false), c')
    ensures c'.waitlist == NoList && (k.procs[i].state != Blocked ==> c'.state != Blocked)
  {
    assert Simple(k.procs[i]);
  }

  // ---------------------------------------------------------------- the walk is cut short

  /** From o over n back to o, over the record of a lock that was refused. */
  lemma RecordsLeadBack(k: Kernel, o: Pid, n: Pid)
    requires Chained(k, 4, o, n, 0)
    ensures Lost(k, 1, 0) && RaiseCut(k, o, 0) && MutexOwner(k, 1) == Some(o)
  {
    var g, s, p := GraphOf(k), Records(k), Prios(k);
    GraphEdges(k, {});
    assert g.boss[o] == Boss(k, o) == Some(n) && s[o] == Some(n);
    assert s[n] == NextInChain(k, n) == Some(o);
    assert g.boss[n] == Boss(k, n) == None;
    assert Iter(s, n, 0) == Some(n) && Iter(s, o, 0) == Some(o) && Iter(g.boss, n, 0) == Some(n);
    assert Iter(s, n, 1) == Some(o) && Iter(s, o, 1) == Some(n) && Iter(g.boss, o, 1) == Some(n);
    assert Iter(s, o, 2) == Some(o) && Iter(g.boss, n, 1) == None;
    assert Iter(g.boss, o, 2) == Iter(g.boss, n, 1);
    assert p[o] == k.procs[o].priority == 1 && p[n] == k.procs[n].priority == 1;
    assert FirstReturn(s, o, 2);
    assert Unvisited(g, p, o, 0, 1);
  }

  lemma WalkIsCut(k: Kernel, o: Pid, n: Pid, x: Pid) returns (r: Kernel)
    requires Chained(k, 4, o, n, 0) && Candidate(k, 0, x)
    ensures Legal(k, Svc(0, LockCall(1, TIMEOUT_INFINITE))) && r == Step(SOLO, k, Svc(0, LockCall(1, TIMEOUT_INFINITE)))
    ensures RaiseCut(k, o, 0) && MutexOwner(k, 1) == Some(o) && |r.procs| == PARTY
    ensures r.procs[o].priority == 1 && r.procs[n].priority == 0 < k.procs[n].priority
  {
    RunnerRuns(k, 0);
    RecordsLeadBack(k, o, n);
    assert Simple(k.procs[0]);
    assert LockWaits(k, 1, TIMEOUT_INFINITE, 0);
    hide Inv, Exact, Lock, Lost, LockWaits, NoneAbove, PreemptCheck, Safe, RaiseCut;
    LeavesRaised(k, o, n);
    LockOk(k, 1, TIMEOUT_INFINITE, 0);
    LockOutcome(k, 1, TIMEOUT_INFINITE, 0);
    r := Lock(k, 1, TIMEOUT_INFINITE, 0).k;
    StillPlaced(r);
    CallerGoesOn(r, 0);
  }

  lemma LeavesRaised(k: Kernel, o: Pid, n: Pid)
    requires Chained(k, 4, o, n, 0) && LockWaits(k, 1, TIMEOUT_INFINITE, 0) && Lost(k, 1, 0)
    ensures var r := Lock(k, 1, TIMEOUT_INFINITE, 0).k;
            |r.procs| == |k.procs| && r.procs[o].priority == 1 && r.procs[n].priority == 0
  {
    RunnerRuns(k, 0);
    RecordsLeadBack(k, o, n);
    hide Inv, Exact, Lock, Lost, LockWaits, Safe, RaiseCut, FirstReturn, LeftRaised;
    var t := LostClaimLeaves(k, 1, TIMEOUT_INFINITE, 0);
    assert LeftRaised(k, 1, 0, t, n) && !LeftRaised(k, 1, 0, t, o) by { LeftAt(k, o, n, t); }
  }

  lemma NIsLeft(k: Kernel, o: Pid, n: Pid)
    requires Chained(k, 4, o, n, 0)
    ensures FirstReturn(Records(k), o, 2) && LeftRaised(k, 1, 0, 2, n) && !LeftRaised(k, 1, 0, 2, o)
  {
    RecordsLeadBack(k, o, n);
    var g, s, p := GraphOf(k), Records(k), Prios(k);
    GraphEdges(k, {});
    assert g.boss[o] == Boss(k, o) == Some(n) && s[o] == Some(n) && s[n] == NextInChain(k, n) == Some(o);
    assert Iter(g.boss, n, 0) == Some(n) && Iter(s, o, 0) == Some(o);
    assert Iter(g.boss, o, 1) == Some(n) && Iter(s, n, 1) == Some(o) && Iter(s, o, 1) == Iter(s, n, 0) == Some(n);
    assert Iter(s, o, 2) == Some(o);
    assert p[n] == k.procs[n].priority == 1;
  }

  lemma LeftAt(k: Kernel, o: Pid, n: Pid, t: nat)
    requires Chained(k, 4, o, n, 0) && MutexOwner(k, 1) == Some(o) && FirstReturn(Records(k), o, t)
    ensures t == 2 && LeftRaised(k, 1, 0, t, n) && !LeftRaised(k, 1, 0, t, o)
  {
    hide *;
    NIsLeft(k, o, n);
    OneFirstReturn(Records(k), o, t, 2);
  }

  /** From power-on to a walk that is cut short: in a partition of three processes more than a
      wait list holds, a legal run leads to a lock whose raising walk returns to the owner and
      ends there. One more hop would have lowered the process it leaves raised. */
  lemma LockCutShort() returns (es: seq<Event>, e: Event, o: Pid, n: Pid)
    requires MAX_READY_PER_PRIORITY >= PARTY
    ensures Created(Cast()) && LegalRun(SOLO, Booted(Cast(), SOLO), es + [e])
    ensures e == Svc(0, LockCall(1, TIMEOUT_INFINITE))
    ensures var k, r := Run(SOLO, Booted(Cast(), SOLO), es), Run(SOLO, Booted(Cast(), SOLO), es + [e]);
            && Exact(k) && MutexOwner(k, 1) == Some(o) && o < |k.procs| && RaiseCut(k, o, 0)
            && n < |k.procs| == |r.procs| && r.procs[n].priority < k.procs[n].priority
            && r.procs[o].priority == k.procs[o].priority
  {
    hide Inv, Exact, Safe, Created, Booted, Step, Legal, Filling, Idle, Alone, Cleared, Sleeps, RaiseCut;
    CastCreated();
    var b := Booted(Cast(), SOLO);
    var k;
    es, k, o := Opening();
    es, k := FillUp(b, es, k, 0, o);
    n := Runner(k, o);
    var t := TurnedAway(k, o, n);
    es := OneMore(b, es, k, Svc(n, LockCall(1, 1)));
    es, k := FallsAsleep(b, es, t, o, n);
    var a := OwnerWakes(k, o, n);
    es := OneMore(b, es, k, Tick(None));
    var c := AllWake(a, o, n);
    es := OneMore(b, es, a, Tick(None));
    var x;
    es, k, x := OwnerWaits(b, es, c, o, n);
    var w := ZeroWakes(k, o, n, x);
    es := OneMore(b, es, k, Tick(None));
    e := Svc(0, LockCall(1, TIMEOUT_INFINITE));
    var r := WalkIsCut(w, o, n, x);
    var all := OneMore(b, es, w, e);
  }

  lemma Runner(k: Kernel, o: Pid) returns (n: Pid)
    requires Filling(k, WAITLIST_MAX, o)
    ensures OnCpu(k, n) && 0 < n < PARTY
  {
    n := k.current[0].value;
    RunnerRuns(k, n);
    NobodyReady(k, o, n);
  }
}

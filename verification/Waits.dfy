/** How waits on anything but a mutex end in ticks and faults: who leaves a list, and why. */
module Waits {
  import opened Wrappers
  import opened KernelState
  import opened Order
  import opened Placement
  import opened KernelCalls
  import opened Invariants
  import opened Blocking
  import opened Ticks
  import opened Recovery
  import opened Gates
  import opened Runs
  import opened Wakeups

  /** The event ends the wait of process i without success: it runs out, or i is restarted. */
  ghost predicate GivesUp(sys: System, k: Kernel, e: Event, i: Pid) {
    && i < |k.procs| && i < |Step(sys, k, e).procs|
    && (RestartsAt(sys, k, e, i) || EndedWith(k.procs[i], Step(sys, k, e).procs[i], TimedOut))
  }

  /** No call makes anybody give up. */
  lemma CallsAreKind(sys: System, k: Kernel, e: Event, i: Pid)
    requires Inv(k) && Legal(k, e) && e.Svc? && i < |k.procs| && k.procs[i].state == Blocked
    ensures !GivesUp(sys, k, e, i)
  {
    hide Inv, Gate, Safe, Exact, LosesInheritance, ReleaseKept, OpHonest, SameTimes;
    var r := GateOk(k, e.id, e.call);
    assert Spared(k.procs[i], r.k.procs[i]);
  }

  /** The processes whose wait a tick or a restart may end. */
  ghost function Leavers(sys: System, k: Kernel, e: Event): set<Pid> {
    match e
    case Svc(id, call) => {}
    case Fault(id, action, onCpu) => if action == RestartProcess then {id} else {}
    case Tick(cpu) =>
      var d := DrainFrom(k, sys.policy, cpu, 0, |k.procs|);
      RestartSet(k, sys.policy, 0, |k.procs|) + ExpiredSet(d, Wrap(d.tick + 1), 0, |d.procs|)
  }

  lemma TickLists(sys: System, k: Kernel, cpu: Option<Pid>, h: ListId)
    requires Inv(k) && InTable(sys, |k.current|) && !h.OnMutex?
    ensures var r := Step(sys, k, Tick(cpu));
            r.channels == k.channels && r.sems == k.sems
              && Waiters(r, h) == Without(Waiters(k, h), Leavers(sys, k, Tick(cpu)))
  {
    hide Inv, Exact, DrainFrom, OnTick, Safe, RestartSet, ExpiredSet, DrainedProc, Ticked, TickMisses, HaltedOf,
         Without;
    var d, r := SystickOk(sys, k, cpu);
    WithoutTwice(Waiters(k, h), RestartSet(k, sys.policy, 0, |k.procs|), ExpiredSet(d, Wrap(d.tick + 1), 0, |d.procs|));
  }

  lemma FaultLists(sys: System, k: Kernel, e: Event, h: ListId)
    requires Inv(k) && e.Fault? && Legal(k, e) && !h.OnMutex?
    ensures var r := Step(sys, k, e);
            r.channels == k.channels && r.sems == k.sems && Waiters(r, h) == Without(Waiters(k, h), Leavers(sys, k, e))
  {
    assert NoDup(Waiters(k, h)) by { assert ListOk(k, {}, h); }
    hide Inv, Exact, EnactFault, RestartedTo;
    var r := EnactFaultOk(k, e.id, e.action, e.onCpu);
    WithoutNone(Waiters(k, h));
    WithoutRemoved(Waiters(k, h), e.id, {});
    WithoutNone(Remove(Waiters(k, h), e.id));
    assert {} + {e.id} == {e.id};
  }

  /** Ticks and faults take waiters off the lists of everything but mutexes only by ending
      their wait, and leave the rest of the list in order. */
  lemma QuietLists(sys: System, k: Kernel, e: Event, h: ListId)
    requires Inv(k) && InTable(sys, |k.current|) && Legal(k, e) && !e.Svc? && !h.OnMutex?
    ensures var r := Step(sys, k, e);
            r.channels == k.channels && r.sems == k.sems && Waiters(r, h) == Without(Waiters(k, h), Leavers(sys, k, e))
  {
    hide Inv, InTable, Step, Leavers;
    if e.Tick? { TickLists(sys, k, e.cpu, h); } else { FaultLists(sys, k, e, h); }
  }

  lemma {:induction false} WithoutIn(l: seq<Pid>, gone: set<Pid>, i: Pid)
    ensures i in Without(l, gone) <==> i in l && i !in gone
  {
    if l != [] {
      WithoutIn(l[1..], gone, i);
      assert i in l <==> i == l[0] || i in l[1..];
    }
  }

  lemma WaiterIs(k: Kernel, h: ListId, i: Pid)
    requires Inv(k) && i in Waiters(k, h)
    ensures i < |k.procs| && k.procs[i].state == Blocked && k.procs[i].waitlist == h != NoList
  {
    assert ListOk(k, {}, h);
  }

  /** The waiters a tick or a fault takes off are exactly those that give up; the others wait
      on with the record they had. */
  lemma LeaversGiveUp(sys: System, k: Kernel, e: Event, h: ListId, i: Pid)
    requires Inv(k) && InTable(sys, |k.current|) && Legal(k, e) && !e.Svc? && !h.OnMutex? && i in Waiters(k, h)
    ensures i < |k.procs| && (GivesUp(sys, k, e, i) <==> i in Leavers(sys, k, e))
    ensures i !in Leavers(sys, k, e) ==>
            i < |Step(sys, k, e).procs| && StillWaiting(k.procs[i], Step(sys, k, e).procs[i])
  {
    var r := Step(sys, k, e);
    WaiterIs(k, h, i);
    QuietLists(sys, k, e, h);
    WithoutIn(Waiters(k, h), Leavers(sys, k, e), i);
    StepOk(sys, k, e);
    hide Inv, InTable, Exact, Step, Leavers, Without;
    if i in Waiters(r, h) {
      WaiterIs(r, h, i);
      StaysIn(sys, k, e, h, i);
    } else {
      GoesOut(sys, k, e, i);
    }
  }

  lemma StaysIn(sys: System, k: Kernel, e: Event, h: ListId, i: Pid)
    requires Inv(k) && InTable(sys, |k.current|) && Legal(k, e) && !e.Svc? && i < |k.procs|
             && k.procs[i].state == Blocked && k.procs[i].waitlist == h != NoList
    requires i < |Step(sys, k, e).procs| && Step(sys, k, e).procs[i].state == Blocked
    ensures !GivesUp(sys, k, e, i) && StillWaiting(k.procs[i], Step(sys, k, e).procs[i])
  {
    hide Inv, InTable, Step;
    if RestartsAt(sys, k, e, i) {
      NotBlockedAfterRestart(sys, k, e, i);
    } else {
      WaitStep(sys, k, e, i);
    }
  }

  lemma GoesOut(sys: System, k: Kernel, e: Event, i: Pid)
    requires Inv(k) && InTable(sys, |k.current|) && Legal(k, e) && !e.Svc? && i < |k.procs|
             && k.procs[i].state == Blocked && k.procs[i].waitlist != NoList
    requires i in Leavers(sys, k, e)
    ensures GivesUp(sys, k, e, i)
  {
    StepOk(sys, k, e);
    if !RestartsAt(sys, k, e, i) {
      assert e.Tick?;
      TickEnds(sys, k, e.cpu, i);
    }
  }

  lemma TickEnds(sys: System, k: Kernel, cpu: Option<Pid>, i: Pid)
    requires Inv(k) && InTable(sys, |k.current|) && i < |k.procs| && k.procs[i].state == Blocked
             && k.procs[i].waitlist != NoList
    requires !WillRestart(k, sys.policy, i) && i in Leavers(sys, k, Tick(cpu))
    ensures i < |Step(sys, k, Tick(cpu)).procs| && EndedWith(k.procs[i], Step(sys, k, Tick(cpu)).procs[i], TimedOut)
  {
    hide Inv, InTable, Exact, DrainFrom, OnTick, Safe;
    var d, r := SystickOk(sys, k, cpu);
    assert DrainedProc(k, d, sys.policy, 0, |k.procs|, i);
    TickedOne(d, r.k, i);
    assert Expired(d, i, Wrap(d.tick + 1));
  }

  lemma NotBlockedAfterRestart(sys: System, k: Kernel, e: Event, i: Pid)
    requires Inv(k) && InTable(sys, |k.current|) && Legal(k, e) && i < |k.procs| && RestartsAt(sys, k, e, i)
    ensures i < |Step(sys, k, e).procs| && Step(sys, k, e).procs[i].state != Blocked
  {
    hide Inv, InTable, Exact, EnactFault, DrainFrom, OnTick, Safe;
    match e
    case Fault(id, action, onCpu) => var r := EnactFaultOk(k, id, action, onCpu);
    case Tick(cpu) =>
      var d, r := SystickOk(sys, k, cpu);
      assert DrainedProc(k, d, sys.policy, 0, |k.procs|, i);
      TickedOne(d, r.k, i);
  }
}

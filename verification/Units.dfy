/** Semaphore units over whole runs: none appears from nowhere and none is lost. */
module Units {
  import opened Wrappers
  import opened KernelState
  import opened Order
  import opened Placement
  import opened KernelCalls
  import opened Invariants
  import opened Blocking
  import opened Semaphores
  import opened Channels
  import opened Ticks
  import opened Recovery
  import opened Gates
  import opened Footprints
  import opened Runs
  import opened Wakeups
  import opened Waits

  /** The event signals semaphore s successfully. */
  function Signalled(k: Kernel, e: Event, s: nat): nat {
    if e.Svc? && e.call == SignalCall(s) && Gate(k, e.id, e.call).st == Ok then 1 else 0
  }

  /** The caller of a wait on s is given a unit. */
  function TookUnit(k: Kernel, e: Event, s: nat): nat {
    if e.Svc? && e.call.WaitCall? && e.call.sem == s && Gate(k, e.id, e.call).st == Ok then 1 else 0
  }

  /** The event ends the wait of process i with success. */
  ghost predicate GetsThrough(sys: System, k: Kernel, e: Event, i: Pid) {
    && i < |k.procs| && i < |Step(sys, k, e).procs| && !RestartsAt(sys, k, e, i)
    && EndedWith(k.procs[i], Step(sys, k, e).procs[i], Ok)
  }

  /** The waiters of s that the event resumes with a unit. */
  ghost function Resuming(sys: System, k: Kernel, e: Event, s: nat): set<Pid> {
    set i | i in Waiters(k, OnSemaphore(s)) && GetsThrough(sys, k, e, i)
  }

  /** The units of s that processes obtain in the event. */
  ghost function Obtained(sys: System, k: Kernel, e: Event, s: nat): nat {
    TookUnit(k, e, s) + |Resuming(sys, k, e, s)|
  }

  /** A waiter that is still on the list did not get through. */
  lemma StillInLine(sys: System, k: Kernel, e: Event, s: nat)
    requires Inv(Step(sys, k, e))
    ensures forall i :: i in Resuming(sys, k, e, s) ==> i !in Waiters(Step(sys, k, e), OnSemaphore(s))
  {
    var r := Step(sys, k, e);
    forall i | i in Resuming(sys, k, e, s) ensures i !in Waiters(r, OnSemaphore(s)) {
      if i in Waiters(r, OnSemaphore(s)) { WaiterIs(r, OnSemaphore(s), i); }
    }
  }

  lemma NobodyResumes(sys: System, k: Kernel, e: Event, s: nat)
    requires Inv(Step(sys, k, e)) && forall i :: i in Waiters(k, OnSemaphore(s)) ==>
             i in Waiters(Step(sys, k, e), OnSemaphore(s))
    ensures Resuming(sys, k, e, s) == {}
  {
    hide Step, GetsThrough, Inv;
    StillInLine(sys, k, e, s);
  }

  // ---------------------------------------------------------------- one event

  lemma ElsewhereUnits(sys: System, k: Kernel, e: Event, s: nat)
    requires Inv(k) && InTable(sys, |k.current|) && Legal(k, e) && e.Svc? && s < |k.sems|
             && !Concerns(e.call, OnSemaphore(s))
    ensures |Step(sys, k, e).sems| == |k.sems| && Step(sys, k, e).sems[s] == k.sems[s]
    ensures Obtained(sys, k, e, s) == 0 && Signalled(k, e, s) == 0
  {
    hide Inv, InTable, Exact, Gate, LosesClaimAt;
    StepOk(sys, k, e);
    GateOnly(k, e.id, e.call);
    NobodyResumes(sys, k, e, s);
    if e.call.WaitCall? || e.call.SignalCall? { OtherSemaphore(k, e.id, e.call, s); }
  }

  lemma OtherSemaphore(k: Kernel, id: Pid, call: Call, s: nat)
    requires Inv(k) && Legal(k, Svc(id, call)) && s < |k.sems|
    requires (call.WaitCall? || call.SignalCall?) && call.sem != s
    ensures |Gate(k, id, call).k.sems| == |k.sems| && Gate(k, id, call).k.sems[s] == k.sems[s]
  {
    hide Inv, SemWait, SemSignal, Framed, Exact, SemWaits, MostUrgent, NoneAbove, Gate, Safe, LosesInheritance,
         ReleaseKept, OpHonest, SameTimes;
    var g := GateOk(k, id, call);
    if call.WaitCall? {
      var w := SemWaitOk(k, call.sem, call.timeout, id);
    } else {
      var r := SemSignalOk(k, call.sem, id);
    }
  }

  lemma WaitUnits(sys: System, k: Kernel, e: Event, s: nat)
    requires Inv(k) && InTable(sys, |k.current|) && Legal(k, e) && e.Svc? && e.call.WaitCall?
             && e.call.sem == s < |k.sems|
    ensures |Step(sys, k, e).sems| == |k.sems|
            && Step(sys, k, e).sems[s].count + Obtained(sys, k, e, s) == k.sems[s].count
  {
    hide Inv, InTable, Exact, Gate, LosesClaimAt, GetsThrough, Resuming;
    StepOk(sys, k, e);
    WaitLists(k, e.id, s, e.call.timeout);
    NobodyResumes(sys, k, e, s);
  }

  lemma WaitLists(k: Kernel, id: Pid, s: nat, timeout: nat)
    requires Inv(k) && Legal(k, Svc(id, WaitCall(s, timeout))) && s < |k.sems|
    ensures var r := Gate(k, id, WaitCall(s, timeout));
            && |r.k.sems| == |k.sems| && r.k.sems[s].count + (if r.st == Ok then 1 else 0) == k.sems[s].count
            && forall i :: i in Waiters(k, OnSemaphore(s)) ==> i in Waiters(r.k, OnSemaphore(s))
  {
    hide Inv, SemWait, Framed, Exact, SemWaits, NoneAbove, Gate, Safe, LosesInheritance, ReleaseKept, OpHonest,
         SameTimes;
    var g := GateOk(k, id, WaitCall(s, timeout));
    var w := SemWaitOk(k, s, timeout, id);
    assert forall i :: i in Waiters(k, OnSemaphore(s)) ==> i in Waiters(w.k, OnSemaphore(s));
  }

  lemma SignalUnits(sys: System, k: Kernel, e: Event, s: nat)
    requires Inv(k) && InTable(sys, |k.current|) && Legal(k, e) && e.Svc? && e.call == SignalCall(s) && s < |k.sems|
    ensures |Step(sys, k, e).sems| == |k.sems|
    ensures Step(sys, k, e).sems[s].count + Obtained(sys, k, e, s) == k.sems[s].count + Signalled(k, e, s)
  {
    hide Inv, InTable, Exact, Gate, LosesClaimAt, GetsThrough, Resuming;
    StepOk(sys, k, e);
    var n := SignalLists(k, e.id, s);
    var r := Gate(k, e.id, e.call);
    if r.st == Ok && Waiters(k, OnSemaphore(s)) != [] {
      OneResumes(sys, k, e, s, n);
    } else {
      NobodyResumes(sys, k, e, s);
    }
  }

  lemma SignalLists(k: Kernel, id: Pid, s: nat) returns (n: Pid)
    requires Inv(k) && Legal(k, Svc(id, SignalCall(s))) && s < |k.sems|
    ensures var r := Gate(k, id, SignalCall(s)); var l := Waiters(k, OnSemaphore(s));
            && |r.k.sems| == |k.sems| && |r.k.procs| == |k.procs| && NoDup(l)
            && r.k.sems[s].count == k.sems[s].count + (if r.st == Ok && l == [] then 1 else 0)
            && (r.st == Ok && l != [] ==>
                  && n in l && Waiters(r.k, OnSemaphore(s)) == Remove(l, n)
                  && n < |k.procs| && EndedWith(k.procs[n], r.k.procs[n], Ok))
            && (r.st != Ok ==> Waiters(r.k, OnSemaphore(s)) == l)
  {
    var h := OnSemaphore(s);
    assert NoDup(Waiters(k, h)) by { assert ListOk(k, {}, h); }
    hide Inv, SemSignal, Framed, Exact, MostUrgent, Gate, Safe, LosesInheritance, ReleaseKept, OpHonest, SameTimes;
    var g := GateOk(k, id, SignalCall(s));
    var r := SemSignalOk(k, s, id);
    n := 0;
    if r.st == Ok && Waiters(k, h) != [] {
      n :| MostUrgent(k, Waiters(k, h), n) && Granted(k, r.k, h, n, Ok);
      WaiterIs(k, h, n);
      assert Gentle(r.k.procs[n], g.k.procs[n]);
    }
  }

  lemma OneResumes(sys: System, k: Kernel, e: Event, s: nat, n: Pid)
    requires e.Svc? && Inv(Step(sys, k, e)) && n in Waiters(k, OnSemaphore(s)) && NoDup(Waiters(k, OnSemaphore(s)))
    requires Waiters(Step(sys, k, e), OnSemaphore(s)) == Remove(Waiters(k, OnSemaphore(s)), n)
    requires n < |k.procs| && n < |Step(sys, k, e).procs| && EndedWith(k.procs[n], Step(sys, k, e).procs[n], Ok)
    ensures |Resuming(sys, k, e, s)| == 1
  {
    RemoveFacts(Waiters(k, OnSemaphore(s)), n);
    assert GetsThrough(sys, k, e, n);
    hide Step, GetsThrough, Inv;
    StillInLine(sys, k, e, s);
    assert Resuming(sys, k, e, s) == {n};
  }

  /** Neither ticks nor faults give units away: a waiter they take off the list gave up. */
  lemma QuietUnits(sys: System, k: Kernel, e: Event, s: nat)
    requires Inv(k) && InTable(sys, |k.current|) && Legal(k, e) && !e.Svc?
    ensures Step(sys, k, e).sems == k.sems && Obtained(sys, k, e, s) == 0
  {
    hide Inv, InTable, Exact, Step, Leavers, LosesClaimAt;
    var h := OnSemaphore(s);
    StepOk(sys, k, e);
    QuietLists(sys, k, e, h);
    forall i | i in Waiters(k, h) ensures !GetsThrough(sys, k, e, i) {
      LeaversGiveUp(sys, k, e, h, i);
    }
  }

  /** One event: units left and units obtained are the units there were and those signalled. */
  lemma StepUnits(sys: System, k: Kernel, e: Event, s: nat)
    requires Inv(k) && InTable(sys, |k.current|) && Legal(k, e) && s < |k.sems|
    ensures var r := Step(sys, k, e);
            |r.sems| == |k.sems| && r.sems[s].count + Obtained(sys, k, e, s) == k.sems[s].count + Signalled(k, e, s)
  {
    hide Inv, InTable, Gate, Step, Obtained, Legal;
    if !e.Svc? {
      QuietUnits(sys, k, e, s);
    } else if !Concerns(e.call, OnSemaphore(s)) {
      ElsewhereUnits(sys, k, e, s);
    } else if e.call.WaitCall? {
      WaitUnits(sys, k, e, s);
    } else {
      SignalUnits(sys, k, e, s);
    }
  }

  // ---------------------------------------------------------------- over whole runs

  function SignalledAlong(sys: System, k: Kernel, es: seq<Event>, s: nat): nat
    decreases |es|
  {
    if es == [] then 0 else Signalled(k, es[0], s) + SignalledAlong(sys, Step(sys, k, es[0]), es[1..], s)
  }

  ghost function ObtainedAlong(sys: System, k: Kernel, es: seq<Event>, s: nat): nat
    decreases |es|
  {
    if es == [] then 0 else Obtained(sys, k, es[0], s) + ObtainedAlong(sys, Step(sys, k, es[0]), es[1..], s)
  }

  lemma UnitsStart(sys: System, k: Kernel, es: seq<Event>, s: nat)
    ensures es == [] ==> Run(sys, k, es) == k && SignalledAlong(sys, k, es, s) == 0 && ObtainedAlong(sys, k, es, s) == 0
    ensures es != [] ==> (
              var k' := Step(sys, k, es[0]);
              && Run(sys, k, es) == Run(sys, k', es[1..])
              && SignalledAlong(sys, k, es, s) == Signalled(k, es[0], s) + SignalledAlong(sys, k', es[1..], s)
              && ObtainedAlong(sys, k, es, s) == Obtained(sys, k, es[0], s) + ObtainedAlong(sys, k', es[1..], s))
    ensures es != [] && LegalRun(sys, k, es) ==> Legal(k, es[0]) && LegalRun(sys, Step(sys, k, es[0]), es[1..])
  {
    hide Step, Signalled, Obtained, Legal;
  }

  /** Conservation of units over any run: the initial count and all successful signals are the
      final count and the units processes obtained - each by a wait that found one free, or by
      resuming from its wait with success. The count stays within its maximum, and a positive
      count and a waiter never coexist. */
  lemma {:induction false} RunUnits(sys: System, k: Kernel, es: seq<Event>, s: nat)
    requires Inv(k) && InTable(sys, |k.current|) && LegalRun(sys, k, es) && s < |k.sems|
    ensures var r := Run(sys, k, es);
            && s < |r.sems| && r.sems[s].count + ObtainedAlong(sys, k, es, s) == k.sems[s].count
               + SignalledAlong(sys, k, es, s)
            && r.sems[s].count <= r.sems[s].max && (r.sems[s].count > 0 ==> Waiters(r, OnSemaphore(s)) == [])
    decreases |es|
  {
    hide Inv, InTable, Legal, LegalRun, Step, Exact, Run, SignalledAlong, ObtainedAlong, Signalled, Obtained;
    UnitsStart(sys, k, es, s);
    if es == [] {
      FreeMeansUnwanted(k, s);
    } else {
      StepOk(sys, k, es[0]);
      StepUnits(sys, k, es[0], s);
      RunUnits(sys, Step(sys, k, es[0]), es[1..], s);
    }
  }

  lemma FreeMeansUnwanted(k: Kernel, s: nat)
    requires Inv(k) && s < |k.sems|
    ensures k.sems[s].count <= k.sems[s].max && (k.sems[s].count > 0 ==> Waiters(k, OnSemaphore(s)) == [])
  {
    assert ListFine(k, OnSemaphore(s));
  }

  /** Nobody waits for a free mutex, on an available unit, for a message that is there, or for
      a slot that is free; receivers and senders never wait on the same channel. */
  lemma NobodyWaitsInVain(k: Kernel)
    requires Inv(k)
    ensures forall m: nat :: m < |k.mutexes| && k.mutexes[m].owner.None? ==> Waiters(k, OnMutex(m)) == []
    ensures forall s: nat :: s < |k.sems| && k.sems[s].count > 0 ==> Waiters(k, OnSemaphore(s)) == []
    ensures forall ch :: ch in k.channels && k.channels[ch].ring != [] ==> Waiters(k, OnReceive(ch)) == []
    ensures forall ch :: ch in k.channels && |k.channels[ch].ring| < k.channels[ch].capacity ==>
            Waiters(k, OnSend(ch)) == []
    ensures forall ch :: ch in k.channels ==> Waiters(k, OnReceive(ch)) == [] || Waiters(k, OnSend(ch)) == []
  {
    forall m: nat | m < |k.mutexes| && k.mutexes[m].owner.None?
      ensures Waiters(k, OnMutex(m)) == []
    {
      assert ListFine(k, OnMutex(m));
    }
    forall s: nat | s < |k.sems| && k.sems[s].count > 0
      ensures Waiters(k, OnSemaphore(s)) == []
    {
      assert ListFine(k, OnSemaphore(s));
    }
    forall ch | ch in k.channels
      ensures k.channels[ch].ring != [] ==> Waiters(k, OnReceive(ch)) == []
    {
      assert ListFine(k, OnReceive(ch));
    }
    forall ch | ch in k.channels
      ensures |k.channels[ch].ring| < k.channels[ch].capacity ==> Waiters(k, OnSend(ch)) == []
      ensures Waiters(k, OnReceive(ch)) == [] || Waiters(k, OnSend(ch)) == []
    {
      assert ListFine(k, OnSend(ch)) && ListFine(k, OnReceive(ch));
      if Waiters(k, OnSend(ch)) != [] { assert ChannelOk(k.channels[ch]); }
    }
  }
}

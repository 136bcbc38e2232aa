/** Time over whole runs: waits end at exactly their tick, periodic releases do not drift, and
    every missed deadline is recorded once. */
module Wakeups {
  import opened Wrappers
  import opened KernelState
  import opened Placement
  import opened KernelCalls
  import opened Invariants
  import opened Blocking
  import opened Timing
  import opened Ticks
  import opened Recovery
  import opened Gates
  import opened Runs
  import Frame

  // ---------------------------------------------------------------- one event, one process

  /** A process that is not restarted and does not make the call: spared by calls and faults;
      at a tick spared by the drain (leaving it as d), then ticked, then at most rescheduled. */
  lemma StepSpares(sys: System, k: Kernel, e: Event, i: Pid) returns (d: Pcb)
    requires Inv(k) && InTable(sys, |k.current|) && Legal(k, e) && i < |k.procs| && !RestartsAt(sys, k, e, i)
             && (e.Svc? ==> e.id != i)
    ensures var r := Step(sys, k, e);
            && |r.procs| == |k.procs| && SameSettings(k.procs[i], r.procs[i])
            && r.tick == (if e.Tick? then Wrap(k.tick + 1) else k.tick)
            && Spared(k.procs[i], d)
            && (!e.Tick? ==> d == r.procs[i])
            && (e.Tick? ==> Gentle(Ticked(d, r.tick, HaltedOf(r, d)), r.procs[i]))
            && (e.Tick? && HasMissed(ReleasedPcb(ExpiredPcb(d, r.tick), r.tick), r.tick, HaltedOf(r, d)) ==>
               i in r.pending)
  {
    hide Inv, Gate, Systick, EnactFault, LosesInheritance, Safe, InTable, RestartedTo, DrainFrom, OnTick, Ticked,
         Exact, HasMissed, ReleasedPcb, ExpiredPcb;
    match e
    case Svc(id, call) =>
      var r := GateOk(k, id, call);
      d := r.k.procs[i];
    case Fault(id, action, onCpu) =>
      var r := EnactFaultOk(k, id, action, onCpu);
      if action == RestartProcess {
        assert i != id;
      } else {
        assert r.k.procs[i] == k.procs[i];
      }
      d := r.k.procs[i];
    case Tick(cpu) =>
      var dr, r := SystickOk(sys, k, cpu);
      assert DrainedProc(k, dr, sys.policy, 0, |k.procs|, i);
      d := dr.procs[i];
      TickedOne(dr, r.k, i);
      TickedSettings(d, r.k.tick, HaltedOf(r.k, d), r.k.procs[i]);
  }

  lemma TickedOne(k: Kernel, r: Kernel, i: Pid)
    requires OneTick(k, r) && i < |k.procs|
    ensures r.tick == Wrap(k.tick + 1) && |r.procs| == |k.procs|
    ensures Gentle(Ticked(k.procs[i], r.tick, HaltedOf(r, k.procs[i])), r.procs[i])
    ensures HasMissed(ReleasedPcb(ExpiredPcb(k.procs[i], r.tick), r.tick), r.tick, HaltedOf(r, k.procs[i])) ==>
            i in r.pending
  {
    assert HaltedOf(r, k.procs[i]) == HaltedOf(k, k.procs[i]);
    hide Ticked, HasMissed, ReleasedPcb, ExpiredPcb;
  }

  lemma TickedSettings(c: Pcb, now: nat, halted: bool, c': Pcb)
    requires Gentle(Ticked(c, now, halted), c')
    ensures SameSettings(c, c')
  {
  }

  // ---------------------------------------------------------------- waits

  /** The same wait is still under way. */
  predicate StillWaiting(c: Pcb, c': Pcb) {
    c.state == Blocked && c' == c.(priority := c'.priority, deadline := c'.deadline, misses := c'.misses)
  }

  /** The IPC wait c ended with this result. */
  predicate EndedWith(c: Pcb, c': Pcb, result: Status) {
    && c.waitlist != NoList && c'.state in {Ready, Running}
    && c' == Resumed(c, result).(state := c'.state, priority := c'.priority, deadline := c'.deadline,
       misses := c'.misses)
  }

  /** The wait c ran out: an IPC wait with a timeout, a timed or periodic one as asked. */
  predicate RanOut(c: Pcb, c': Pcb) {
    if c.waitlist != NoList then EndedWith(c, c', TimedOut)
    else
      && c'.state in {Ready, Running} && c'.wakeTick == TICK_NONE && c'.result == Ok && c'.resultPending
      && !c'.periodicWaiting && !c'.timedWaiting
      && c'.release == if c.periodicWaiting then c.wakeTick else c.release
  }

  /** The counter reaches the wake tick of c with this event. */
  predicate Reaches(k: Kernel, e: Event, c: Pcb) {
    e.Tick? && c.wakeTick != TICK_NONE && Wrap(k.tick + 1) >= c.wakeTick
  }

  /** One event in the life of a wait: it goes on, is granted, or runs out - and it runs out
      only in, and at the latest in, the tick that brings the counter to its wake tick. */
  lemma WaitStep(sys: System, k: Kernel, e: Event, i: Pid)
    requires Inv(k) && InTable(sys, |k.current|) && Legal(k, e) && i < |k.procs| && !RestartsAt(sys, k, e, i)
    requires k.procs[i].state == Blocked && (k.procs[i].wakeTick != TICK_NONE || k.procs[i].waitlist != NoList)
    ensures i < |Step(sys, k, e).procs|
    ensures var c, c' := k.procs[i], Step(sys, k, e).procs[i];
            || EndedWith(c, c', Ok)
            || if Reaches(k, e, c) then RanOut(c, c') else StillWaiting(c, c')
  {
    assert WaitOk(k, i) by { assert ProcOk(k, {}, i); }
    hide Inv, InTable, Step;
    var d := StepSpares(sys, k, e, i);
    var c' := Step(sys, k, e).procs[i];
    if e.Tick? {
      WaitTicked(k.procs[i], d, c', Wrap(k.tick + 1), HaltedOf(Step(sys, k, e), d));
    }
  }

  lemma WaitTicked(c: Pcb, d: Pcb, c': Pcb, now: nat, halted: bool)
    requires c.state == Blocked && Spared(c, d) && Gentle(Ticked(d, now, halted), c') && now <= TICK_NONE
    requires c.waitlist != NoList <==> !c.periodicWaiting && !c.timedWaiting
    requires !(c.periodicWaiting && c.timedWaiting) && (c.wakeTick != TICK_NONE || c.waitlist != NoList)
    ensures || EndedWith(c, c', Ok)
            || if c.wakeTick != TICK_NONE && now >= c.wakeTick then RanOut(c, c') else StillWaiting(c, c')
  {
  }

  function TickCount(es: seq<Event>): nat {
    if es == [] then 0 else (if es[0].Tick? then 1 else 0) + TickCount(es[1..])
  }

  lemma RunStarts(sys: System, k: Kernel, es: seq<Event>)
    ensures es == [] ==> Run(sys, k, es) == k && TickCount(es) == 0
    ensures es != [] ==> Run(sys, k, es) == Run(sys, Step(sys, k, es[0]), es[1..])
    ensures es != [] ==> TickCount(es) == (if es[0].Tick? then 1 else 0) + TickCount(es[1..])
    ensures es != [] && LegalRun(sys, k, es) ==> Legal(k, es[0]) && LegalRun(sys, Step(sys, k, es[0]), es[1..])
  {
    hide Step, Legal;
  }

  /** Process i is not restarted in the run. */
  ghost predicate Unrestarted(sys: System, k: Kernel, es: seq<Event>, i: Pid)
    decreases |es|
  {
    es == [] || (i < |k.procs| && !RestartsAt(sys, k, es[0], i) && Unrestarted(sys, Step(sys, k, es[0]), es[1..], i))
  }

  /** All along the run the wait c goes on, or until an event of the run grants it. */
  ghost predicate WaitsAlong(sys: System, k: Kernel, es: seq<Event>, i: Pid, c: Pcb)
    decreases |es|
  {
    && i < |k.procs| && StillWaiting(c, k.procs[i])
    && (es == [] ||
        (var k' := Step(sys, k, es[0]);
         (i < |k'.procs| && EndedWith(c, k'.procs[i], Ok)) || WaitsAlong(sys, k', es[1..], i, c)))
  }

  /** Never early: while the counter has not reached the wake tick, a wait that was not
      granted goes on, through every call, tick and fault of every run. */
  lemma {:induction false} NeverEarly(sys: System, k: Kernel, es: seq<Event>, i: Pid, c: Pcb)
    requires Inv(k) && InTable(sys, |k.current|) && LegalRun(sys, k, es) && Unrestarted(sys, k, es, i)
    requires i < |k.procs| && StillWaiting(c, k.procs[i]) && (c.wakeTick != TICK_NONE || c.waitlist != NoList)
    requires c.wakeTick == TICK_NONE || k.tick + TickCount(es) < c.wakeTick
    ensures WaitsAlong(sys, k, es, i, c)
    decreases |es|
  {
    if es != [] {
      var k' := Step(sys, k, es[0]);
      assert Legal(k, es[0]) && LegalRun(sys, k', es[1..]) && Unrestarted(sys, k', es[1..], i)
             && !RestartsAt(sys, k, es[0], i);
      assert c.wakeTick <= TICK_NONE by { assert ClockOk(k, k.procs[i]); }
      assert k.tick <= TICK_NONE;
      hide Inv, InTable, Legal, LegalRun, Unrestarted, RestartsAt, Step, StillWaiting, Exact;
      StepOk(sys, k, es[0]);
      WaitGoesOn(sys, k, es[0], i, c);
      if StillWaiting(c, k'.procs[i]) {
        NeverEarly(sys, k', es[1..], i, c);
      }
    }
  }

  lemma WaitGoesOn(sys: System, k: Kernel, e: Event, i: Pid, c: Pcb)
    requires Inv(k) && InTable(sys, |k.current|) && Legal(k, e) && i < |k.procs| && !RestartsAt(sys, k, e, i)
    requires StillWaiting(c, k.procs[i]) && (c.wakeTick != TICK_NONE || c.waitlist != NoList)
    requires c.wakeTick == TICK_NONE || (k.tick + (if e.Tick? then 1 else 0) < c.wakeTick <= TICK_NONE)
    ensures var r := Step(sys, k, e);
            && i < |r.procs| && (StillWaiting(c, r.procs[i]) || EndedWith(c, r.procs[i], Ok))
            && (c.wakeTick == TICK_NONE || r.tick == k.tick + if e.Tick? then 1 else 0)
  {
    hide Inv, InTable, Legal, RestartsAt, Step;
    WaitStep(sys, k, e, i);
    StepTicks(sys, k, e);
  }

  lemma StepTicks(sys: System, k: Kernel, e: Event)
    requires Inv(k) && InTable(sys, |k.current|) && Legal(k, e)
    ensures Step(sys, k, e).tick == if e.Tick? then Wrap(k.tick + 1) else k.tick
  {
    hide Inv, Gate, Systick, EnactFault, Drained, OneTick, Safe, InTable, RestartedTo, DrainFrom, OnTick, Exact,
         LosesInheritance;
    match e
    case Svc(id, call) => var r := GateOk(k, id, call);
    case Fault(id, action, onCpu) =>
      var r := EnactFaultOk(k, id, action, onCpu);
      RecoveredSizes(k, r.k, id, action);
    case Tick(cpu) =>
      var d, r := SystickOk(sys, k, cpu);
      TickSizes(d, r.k);
  }

  /** Exact wake-up: a wait recorded for tick w goes on until granted through every run that
      leaves the counter below w, and if it is still under way then, it runs out in exactly the
      tick that brings the counter to w. A timed or periodic wait cannot be granted at all. */
  lemma WakesExactly(sys: System, k: Kernel, es: seq<Event>, cpu: Option<Pid>, i: Pid)
    requires Inv(k) && InTable(sys, |k.current|) && LegalRun(sys, k, es) && Unrestarted(sys, k, es, i)
    requires i < |k.procs| && k.procs[i].state == Blocked && k.procs[i].wakeTick != TICK_NONE
    requires k.tick + TickCount(es) + 1 == k.procs[i].wakeTick
    ensures var c, b := k.procs[i], Run(sys, k, es);
            && WaitsAlong(sys, k, es, i, c) && i < |b.procs| && |Step(sys, b, Tick(cpu)).procs| == |b.procs|
            && (c.waitlist == NoList ==> StillWaiting(c, b.procs[i]))
            && (StillWaiting(c, b.procs[i]) && !RestartsAt(sys, b, Tick(cpu), i) ==>
                  var c' := Step(sys, b, Tick(cpu)).procs[i]; RanOut(c, c') || EndedWith(c, c', Ok))
  {
    var c, b := k.procs[i], Run(sys, k, es);
    assert c.wakeTick <= TICK_NONE by { assert ClockOk(k, c); }
    hide Inv, InTable, LegalRun, Unrestarted, RestartsAt, Step, StillWaiting, Exact, Run;
    assert StillWaiting(c, c) by { WaitsNow(c); }
    NeverEarly(sys, k, es, i, c);
    RunOk(sys, k, es);
    WaitsToTheEnd(sys, k, es, i, c);
    StepOk(sys, b, Tick(cpu));
    if StillWaiting(c, b.procs[i]) && !RestartsAt(sys, b, Tick(cpu), i) {
      LastTick(sys, b, cpu, i, c);
    }
  }

  lemma WaitsNow(c: Pcb)
    requires c.state == Blocked
    ensures StillWaiting(c, c)
  {
  }

  lemma {:induction false} WaitsToTheEnd(sys: System, k: Kernel, es: seq<Event>, i: Pid, c: Pcb)
    requires Inv(k) && InTable(sys, |k.current|) && LegalRun(sys, k, es) && WaitsAlong(sys, k, es, i, c)
    requires c.wakeTick != TICK_NONE && k.tick + TickCount(es) < c.wakeTick <= TICK_NONE
    ensures c.waitlist == NoList ==> i < |Run(sys, k, es).procs| && StillWaiting(c, Run(sys, k, es).procs[i])
    ensures Run(sys, k, es).tick == k.tick + TickCount(es)
    decreases |es|
  {
    hide Inv, InTable, Legal, LegalRun, Step, StillWaiting, Exact, Run, TickCount;
    RunStarts(sys, k, es);
    if es != [] {
      var k' := Step(sys, k, es[0]);
      StepOk(sys, k, es[0]);
      StepTicks(sys, k, es[0]);
      if WaitsAlong(sys, k', es[1..], i, c) {
        WaitsToTheEnd(sys, k', es[1..], i, c);
      } else {
        RunTicks(sys, k', es[1..]);
      }
    }
  }

  lemma {:induction false} RunTicks(sys: System, k: Kernel, es: seq<Event>)
    requires Inv(k) && InTable(sys, |k.current|) && LegalRun(sys, k, es) && k.tick + TickCount(es) <= TICK_NONE
    ensures Run(sys, k, es).tick == k.tick + TickCount(es)
    decreases |es|
  {
    hide Inv, InTable, Legal, LegalRun, Step, Exact, Run, TickCount;
    RunStarts(sys, k, es);
    if es != [] {
      StepOk(sys, k, es[0]);
      StepTicks(sys, k, es[0]);
      RunTicks(sys, Step(sys, k, es[0]), es[1..]);
    }
  }

  lemma LastTick(sys: System, b: Kernel, cpu: Option<Pid>, i: Pid, c: Pcb)
    requires Inv(b) && InTable(sys, |b.current|) && i < |b.procs| && StillWaiting(c, b.procs[i])
             && !RestartsAt(sys, b, Tick(cpu), i)
    requires b.tick + 1 == c.wakeTick < TICK_NONE
    ensures i < |Step(sys, b, Tick(cpu)).procs|
    ensures var c' := Step(sys, b, Tick(cpu)).procs[i]; RanOut(c, c') || EndedWith(c, c', Ok)
  {
    assert Legal(b, Tick(cpu));
    hide Inv, InTable, Legal, RestartsAt, Step;
    WaitStep(sys, b, Tick(cpu), i);
  }

  // ---------------------------------------------------------------- releases do not drift

  lemma WrapAdds(a: nat, b: nat)
    ensures Wrap(Wrap(a) + b) == Wrap(a + b)
  {
    var q := a / TICK_MODULUS;
    assert a == q * TICK_MODULUS + Wrap(a);
    assert (Wrap(a) + b + q * TICK_MODULUS) % TICK_MODULUS == (Wrap(a) + b) % TICK_MODULUS;
  }

  /** A release of process i begins in the event: at the tick it was due, or late, when the
      process asks for the next one after that has come already. */
  predicate BeginsRelease(k: Kernel, e: Event, i: Pid)
    requires i < |k.procs|
  {
    match e
    case Svc(id, call) => id == i && call.PeriodicWaitCall? && Gate(k, id, call).st == Ok
    case Tick(cpu) => k.procs[i].periodicWaiting && Wrap(k.tick + 1) >= k.procs[i].wakeTick
    case Fault(id, action, onCpu) => false
  }

  /** A release that begins is exactly one period after the last one, and nothing else moves it. */
  lemma ReleaseStep(sys: System, k: Kernel, e: Event, i: Pid)
    requires Inv(k) && InTable(sys, |k.current|) && Legal(k, e) && i < |k.procs| && !RestartsAt(sys, k, e, i)
    ensures i < |Step(sys, k, e).procs| && SameSettings(k.procs[i], Step(sys, k, e).procs[i])
    ensures Step(sys, k, e).procs[i].release == if BeginsRelease(k, e, i) then NextRelease(k.procs[i])
            else k.procs[i].release
  {
    assert ClockOk(k, k.procs[i]);
    assert k.procs[i].periodicWaiting ==>
           k.procs[i].state == Blocked && k.procs[i].waitlist == NoList && !k.procs[i].timedWaiting by {
      assert ProcOk(k, {}, i);
    }
    hide Inv, InTable, Gate, Systick, EnactFault, Framed, Safe, Exact, LosesInheritance;
    if e.Svc? && e.id == i {
      CallerRelease(k, i, e.call);
    } else {
      var d := StepSpares(sys, k, e, i);
      if e.Tick? {
        var r := Step(sys, k, e);
        TickedRelease(k.procs[i], d, r.procs[i], r.tick, HaltedOf(r, d));
      }
    }
  }

  lemma CallerRelease(k: Kernel, i: Pid, call: Call)
    requires Inv(k) && Legal(k, Svc(i, call))
    ensures var r := Gate(k, i, call);
            && i < |k.procs| && i < |r.k.procs| && SameSettings(k.procs[i], r.k.procs[i])
            && r.k.procs[i].release == if call.PeriodicWaitCall? && r.st == Ok then NextRelease(k.procs[i])
               else k.procs[i].release
  {
    hide Inv, Framed, Safe, Exact, LosesInheritance, Gate, Serve, PeriodicWait, NextRelease, DeadlineOf;
    var r := GateOk(k, i, call);
    FramedSizes(k, r.k, i);
    if call.PeriodicWaitCall? {
      var w := PeriodicWaitOk(k, i);
      PeriodicIsServe(k, i);
      assert Gentle(w.k.procs[i], r.k.procs[i]);
    }
  }

  lemma PeriodicIsServe(k: Kernel, id: Pid)
    ensures Serve(k, id, PeriodicWaitCall) == PeriodicWait(k, id)
  {
  }

  lemma TickedRelease(c: Pcb, d: Pcb, c': Pcb, now: nat, halted: bool)
    requires Spared(c, d) && Gentle(Ticked(d, now, halted), c')
    requires c.periodicWaiting ==>
             c.wakeTick == NextRelease(c) && c.waitlist == NoList && c.state == Blocked && !c.timedWaiting
    ensures c'.release == if c.periodicWaiting && now >= c.wakeTick then NextRelease(c) else c.release
  {
  }

  /** The releases of process i that begin in the run. */
  function Releases(sys: System, k: Kernel, es: seq<Event>, i: Pid): nat
    decreases |es|
  {
    if es == [] || i >= |k.procs| then 0
    else (if BeginsRelease(k, es[0], i) then 1 else 0) + Releases(sys, Step(sys, k, es[0]), es[1..], i)
  }

  lemma OneMorePeriod(start: nat, period: nat, next: nat, n: nat)
    requires next == Wrap(start + period)
    ensures Wrap(next + n * period) == Wrap(start + (n + 1) * period)
  {
    WrapAdds(start + period, n * period);
    assert start + period + n * period == start + (n + 1) * period;
  }

  lemma NoPeriodYet(start: nat, period: nat)
    ensures Wrap(start + 0 * period) == Wrap(start)
  {
  }

  /** The release time of process i is n periods on, modulo the counter. */
  predicate PeriodsOn(k: Kernel, r: Kernel, i: Pid, n: nat) {
    && i < |k.procs| && i < |r.procs| && r.procs[i].period == k.procs[i].period
    && Wrap(r.procs[i].release) == Wrap(k.procs[i].release + n * k.procs[i].period)
  }

  /** No drift: however late a process runs and however often it overruns, without restarts its
      release time is always its first one plus one period for each release begun since. */
  lemma {:induction false} NoDrift(sys: System, k: Kernel, es: seq<Event>, i: Pid)
    requires Inv(k) && InTable(sys, |k.current|) && LegalRun(sys, k, es) && Unrestarted(sys, k, es, i) && i < |k.procs|
    ensures PeriodsOn(k, Run(sys, k, es), i, Releases(sys, k, es, i))
    decreases |es|
  {
    hide Inv, InTable, Legal, LegalRun, RestartsAt, Step, Exact, Run, TickCount, Wrap, LosesClaimAt, BeginsRelease;
    RunStarts(sys, k, es);
    if es == [] {
      NoPeriodYet(k.procs[i].release, k.procs[i].period);
    } else {
      var k' := Step(sys, k, es[0]);
      StepOk(sys, k, es[0]);
      ReleaseStep(sys, k, es[0], i);
      NoDrift(sys, k', es[1..], i);
      if BeginsRelease(k, es[0], i) {
        OneMorePeriod(k.procs[i].release, k.procs[i].period, k'.procs[i].release, Releases(sys, k', es[1..], i));
      }
    }
  }

  // ---------------------------------------------------------------- missed deadlines

  /** The run contains no periodic wait of process i, which would meet its deadline. */
  predicate NeverMeets(es: seq<Event>, i: Pid) {
    forall e :: e in es ==> !(e.Svc? && e.id == i && e.call.PeriodicWaitCall?)
  }

  lemma DeadlineStays(sys: System, k: Kernel, e: Event, i: Pid)
    requires Inv(k) && InTable(sys, |k.current|) && Legal(k, e) && i < |k.procs| && !RestartsAt(sys, k, e, i)
    requires !(e.Svc? && e.id == i && e.call.PeriodicWaitCall?)
    requires k.procs[i].deadline != TICK_NONE && (e.Tick? ==> Wrap(k.tick + 1) < k.procs[i].deadline)
    ensures i < |Step(sys, k, e).procs| && SameTimes(k.procs[i], Step(sys, k, e).procs[i])
            && SameSettings(k.procs[i], Step(sys, k, e).procs[i])
    ensures k.procs[i].state == Suspended <==> Step(sys, k, e).procs[i].state == Suspended
  {
    assert ClockOk(k, k.procs[i]);
    hide Inv, InTable, Framed, Safe, Exact, LosesInheritance, Gate, Systick, EnactFault;
    if e.Svc? && e.id == i {
      CallerTimes(k, i, e.call);
    } else {
      var d := StepSpares(sys, k, e, i);
      if e.Tick? {
        var r := Step(sys, k, e);
        TickedDeadline(k.procs[i], d, r.procs[i], r.tick, HaltedOf(r, d));
      }
    }
  }

  lemma CallerTimes(k: Kernel, i: Pid, call: Call)
    requires Inv(k) && Legal(k, Svc(i, call)) && !call.PeriodicWaitCall?
    ensures i < |k.procs| && i < |Gate(k, i, call).k.procs| && SameTimes(k.procs[i], Gate(k, i, call).k.procs[i])
    ensures SameSettings(k.procs[i], Gate(k, i, call).k.procs[i]) && Gate(k, i, call).k.procs[i].state != Suspended
  {
    hide Inv, Framed, Safe, Exact, LosesInheritance, Gate;
    var r := GateOk(k, i, call);
    FramedSizes(k, r.k, i);
  }

  lemma TickedDeadline(c: Pcb, d: Pcb, c': Pcb, now: nat, halted: bool)
    requires Spared(c, d) && Gentle(Ticked(d, now, halted), c') && c.deadline != TICK_NONE
    requires c.periodicWaiting ==> c.deadline == TICK_NONE
    ensures now < c.deadline ==> SameTimes(c, c')
    ensures c.state == Suspended <==> c'.state == Suspended
    ensures now >= c.deadline && !halted && c.state !in {Unused, Suspended} ==>
              HasMissed(ReleasedPcb(ExpiredPcb(d, now), now), now, halted) && c'.deadline == TICK_NONE
                && c'.misses == Wrap(c.misses + 1) && c'.release == c.release
  {
  }

  lemma DeadlineFitsTick(k: Kernel, i: Pid)
    requires Inv(k) && i < |k.procs|
    ensures k.tick <= TICK_NONE && k.procs[i].deadline <= TICK_NONE
  {
    assert ClockOk(k, k.procs[i]);
  }

  lemma FirstNeverMeets(es: seq<Event>, i: Pid)
    requires NeverMeets(es, i)
    ensures es != [] ==> !(es[0].Svc? && es[0].id == i && es[0].call.PeriodicWaitCall?) && NeverMeets(es[1..], i)
  {
  }

  lemma {:induction false} DeadlineStaysAlong(sys: System, k: Kernel, es: seq<Event>, i: Pid)
    requires Inv(k) && InTable(sys, |k.current|) && LegalRun(sys, k, es) && Unrestarted(sys, k, es, i)
             && NeverMeets(es, i) && i < |k.procs|
    requires k.procs[i].deadline != TICK_NONE && (TickCount(es) > 0 ==> k.tick + TickCount(es) < k.procs[i].deadline)
    ensures var b := Run(sys, k, es);
            && i < |b.procs| && SameTimes(k.procs[i], b.procs[i]) && SameSettings(k.procs[i], b.procs[i])
            && (k.procs[i].state == Suspended <==> b.procs[i].state == Suspended)
    decreases |es|
  {
    hide Inv, InTable, Legal, LegalRun, RestartsAt, Step, Exact, Run, TickCount, LosesClaimAt, NeverMeets;
    DeadlineFitsTick(k, i);
    FirstNeverMeets(es, i);
    RunStarts(sys, k, es);
    if es != [] {
      var k' := Step(sys, k, es[0]);
      StepOk(sys, k, es[0]);
      StepTicks(sys, k, es[0]);
      DeadlineStays(sys, k, es[0], i);
      DeadlineStaysAlong(sys, k', es[1..], i);
    }
  }

  /** A deadline that is not met is recorded as a miss exactly once: not before the first tick
      at or after it, and in that tick if the partition is not halted by then. */
  lemma MissRecordedOnce(sys: System, k: Kernel, es: seq<Event>, cpu: Option<Pid>, i: Pid)
    requires Inv(k) && InTable(sys, |k.current|) && LegalRun(sys, k, es) && Unrestarted(sys, k, es, i)
             && NeverMeets(es, i) && i < |k.procs|
    requires k.procs[i].deadline != TICK_NONE && k.procs[i].state != Suspended
    requires TickCount(es) > 0 ==> k.tick + TickCount(es) < k.procs[i].deadline
    requires k.procs[i].deadline <= k.tick + TickCount(es) + 1 < TICK_MODULUS
    ensures var c, b := k.procs[i], Run(sys, k, es); var r := Step(sys, b, Tick(cpu));
            && i < |b.procs| && SameTimes(c, b.procs[i]) && |r.procs| == |b.procs|
            && (!RestartsAt(sys, b, Tick(cpu), i) && !HaltedOf(r, c) ==>
                  r.procs[i].deadline == TICK_NONE && r.procs[i].misses == Wrap(c.misses + 1) && i in r.pending)
  {
    hide Inv, InTable, Legal, LegalRun, RestartsAt, Step, Exact, Run, TickCount, Unrestarted, NeverMeets,
         LosesClaimAt, KeepsClaims;
    var c, b := k.procs[i], Run(sys, k, es);
    DeadlineStaysAlong(sys, k, es, i);
    RunOk(sys, k, es);
    RunTicks(sys, k, es);
    TickIsLegal(b, cpu);
    StepOk(sys, b, Tick(cpu));
    if !RestartsAt(sys, b, Tick(cpu), i) {
      DeadlinePasses(sys, b, cpu, i);
    }
  }

  lemma TickIsLegal(k: Kernel, cpu: Option<Pid>)
    ensures Legal(k, Tick(cpu))
  {
  }

  lemma RecordsAreClocked(k: Kernel, i: Pid)
    requires Inv(k) && i < |k.procs|
    ensures ClockOk(k, k.procs[i])
  {
  }

  lemma DeadlinePasses(sys: System, b: Kernel, cpu: Option<Pid>, i: Pid)
    requires Inv(b) && InTable(sys, |b.current|) && i < |b.procs| && !RestartsAt(sys, b, Tick(cpu), i)
    requires b.procs[i].deadline != TICK_NONE && b.procs[i].state != Suspended
             && b.procs[i].deadline <= b.tick + 1 < TICK_MODULUS
    ensures var r := Step(sys, b, Tick(cpu));
            && i < |r.procs|
            && (!HaltedOf(r, b.procs[i]) ==>
               r.procs[i].deadline == TICK_NONE && r.procs[i].misses == Wrap(b.procs[i].misses + 1) && i in r.pending)
  {
    hide Inv, InTable, Legal, RestartsAt, Step, Ticked, HasMissed, ReleasedPcb, ExpiredPcb;
    RecordsAreClocked(b, i);
    TickIsLegal(b, cpu);
    var d := StepSpares(sys, b, Tick(cpu), i);
    var r := Step(sys, b, Tick(cpu));
    TickedDeadline(b.procs[i], d, r.procs[i], r.tick, HaltedOf(r, d));
  }

  // ---------------------------------------------------------------- time partitioning

  /** The ticks of the run that are given to partition p. */
  function TicksOf(sys: System, k: Kernel, es: seq<Event>, p: nat): nat
    decreases |es|
  {
    if es == [] then 0
    else
      (if es[0].Tick? && Frame.PartitionAt(sys.sched, k.tick) == Some(p) then 1 else 0)
      + TicksOf(sys, Step(sys, k, es[0]), es[1..], p)
  }

  lemma {:induction false} TicksAreSelected(sys: System, k: Kernel, es: seq<Event>, p: nat)
    requires Inv(k) && InTable(sys, |k.current|) && LegalRun(sys, k, es) && k.tick + TickCount(es) <= TICK_NONE
    ensures TicksOf(sys, k, es, p) == Frame.Selected(sys.sched, p, k.tick, TickCount(es))
    decreases |es|
  {
    hide Inv, InTable, Legal, LegalRun, Step, Exact, Run, TickCount, Frame.PartitionAt;
    RunStarts(sys, k, es);
    if es != [] {
      StepOk(sys, k, es[0]);
      StepTicks(sys, k, es[0]);
      TicksAreSelected(sys, Step(sys, k, es[0]), es[1..], p);
      if es[0].Tick? { Frame.SelectedFirst(sys.sched, p, k.tick, TickCount(es[1..])); }
    }
  }

  /** Exact time partitioning of runs: whatever else happens, any stretch of a run with as many
      ticks as a major frame gives each partition exactly the sum of its slot durations. */
  lemma RunIsPartitioned(sys: System, k: Kernel, es: seq<Event>, p: nat)
    requires Inv(k) && Configured(sys, |k.current|) && LegalRun(sys, k, es)
    requires TickCount(es) == sys.sched.major && k.tick + TickCount(es) <= TICK_NONE
    ensures TicksOf(sys, k, es, p) == Frame.Share(sys.sched.slots, p)
  {
    hide Inv, LegalRun, InTable, TicksOf, TickCount, Frame.PartitionAt;
    ConfiguredIsInTable(sys, |k.current|);
    TicksAreSelected(sys, k, es, p);
    Frame.ExactPartitioning(sys.sched.slots, p, k.tick);
    assert sys.sched == Frame.Schedule(sys.sched.slots, Frame.Length(sys.sched.slots));
  }
}

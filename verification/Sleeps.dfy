/** How long a call waits: every call with a timeout puts its caller to sleep for exactly so
    many ticks, and the sleep ends in exactly the last of them unless granted before. */
module Sleeps {
  import opened Wrappers
  import opened KernelState
  import opened Placement
  import opened KernelCalls
  import opened Invariants
  import opened Blocking
  import opened Mutexes
  import opened Semaphores
  import opened Channels
  import opened Timing
  import opened Gates
  import opened Runs
  import opened Wakeups

  /** The length of the wait a call asks for. */
  function WaitLength(call: Call): nat {
    match call
    case LockCall(m, timeout) => timeout
    case WaitCall(s, timeout) => timeout
    case SendCall(ch, message, timeout) => timeout
    case ReceiveCall(ch, size, timeout) => timeout
    case TimedWaitCall(delay) => delay
    case _ => TIMEOUT_INFINITE
  }

  /** Process id sleeps until tick w. */
  predicate SleepsUntil(k: Kernel, id: Pid, w: nat) {
    id < |k.procs| && k.procs[id].state == Blocked && k.procs[id].wakeTick == w < TICK_NONE
  }

  lemma LockSleeps(k: Kernel, m: nat, timeout: nat, id: Pid)
    requires Inv(k) && IsProc(k, id) && k.procs[id].state == Running && Lock(k, m, timeout, id).st == Pending
    ensures timeout != TIMEOUT_INFINITE ==> SleepsUntil(Lock(k, m, timeout, id).k, id, k.tick + timeout)
  {
    assert k.tick <= TICK_NONE;
    hide Inv, Lock, NoneAbove, Exact, Lost;
    LockOk(k, m, timeout, id);
    LockOutcome(k, m, timeout, id);
  }

  lemma UnitSleeps(k: Kernel, s: nat, timeout: nat, id: Pid)
    requires Inv(k) && IsProc(k, id) && k.procs[id].state == Running && SemWait(k, s, timeout, id).st == Pending
    ensures timeout != TIMEOUT_INFINITE ==> SleepsUntil(SemWait(k, s, timeout, id).k, id, k.tick + timeout)
  {
    assert k.tick <= TICK_NONE;
    hide Inv, SemWait, NoneAbove, Exact, Framed;
    var r := SemWaitOk(k, s, timeout, id);
    WaitingSleeps(k, r, id, OnSemaphore(s), timeout, WaitOp(s));
  }

  lemma SendSleeps(k: Kernel, ch: ChannelId, message: Message, timeout: nat, id: Pid)
    requires Inv(k) && IsProc(k, id) && k.procs[id].state == Running && Send(k, ch, message, timeout, id).st == Pending
    ensures timeout != TIMEOUT_INFINITE ==> SleepsUntil(Send(k, ch, message, timeout, id).k, id, k.tick + timeout)
  {
    assert k.tick <= TICK_NONE;
    hide Inv, Send, NoneAbove, Exact, Framed;
    var r := SendOk(k, ch, message, timeout, id);
    WaitingSleeps(k, r, id, OnSend(ch), timeout, SendOp(ch, message));
  }

  lemma ReceiveSleeps(k: Kernel, ch: ChannelId, size: nat, timeout: nat, id: Pid)
    requires Inv(k) && IsProc(k, id) && k.procs[id].state == Running && Receive(k, ch, size, timeout, id).st == Pending
    ensures timeout != TIMEOUT_INFINITE ==> SleepsUntil(Receive(k, ch, size, timeout, id).k, id, k.tick + timeout)
  {
    assert k.tick <= TICK_NONE;
    hide Inv, Receive, NoneAbove, Exact, Framed;
    var r := ReceiveOk(k, ch, size, timeout, id);
    WaitingSleeps(k, r, id, OnReceive(ch), timeout, ReceiveOp(ch, size));
  }

  lemma WaitingSleeps(k: Kernel, r: Sel, id: Pid, h: ListId, timeout: nat, op: Op)
    requires IsProc(k, id) && k.procs[id].state == Running && TickAfter(k, timeout).0 == Ok
    requires StartedWait(k, r, id, h, TickAfter(k, timeout).1, op)
    ensures timeout != TIMEOUT_INFINITE ==> SleepsUntil(r.k, id, k.tick + timeout)
  {
  }

  /** Every call that waits for a limited time puts its caller to sleep for exactly so long. */
  lemma CallSleeps(k: Kernel, id: Pid, call: Call)
    requires Inv(k) && IsProc(k, id) && k.procs[id].state == Running
    requires Serve(k, id, call).st == Pending && WaitLength(call) != TIMEOUT_INFINITE
    ensures SleepsUntil(Serve(k, id, call).k, id, k.tick + WaitLength(call))
  {
    hide Inv, Lock, Unlock, SemWait, SemSignal, Send, Receive, TimedWait, PeriodicWait, Yield, SleepsUntil;
    match call
    case LockCall(m, timeout) => LockSleeps(k, m, timeout, id);
    case WaitCall(s, timeout) => UnitSleeps(k, s, timeout, id);
    case SendCall(ch, message, timeout) => SendSleeps(k, ch, message, timeout, id);
    case ReceiveCall(ch, size, timeout) => ReceiveSleeps(k, ch, size, timeout, id);
    case TimedWaitCall(delay) => DelaySleeps(k, delay, id);
    case _ =>
  }

  lemma DelaySleeps(k: Kernel, delay: nat, id: Pid)
    requires Inv(k) && IsProc(k, id) && k.procs[id].state == Running && TimedWait(k, id, delay).st == Pending
    ensures SleepsUntil(TimedWait(k, id, delay).k, id, k.tick + delay)
  {
    hide Inv, TimedWait, Exact, Framed, NoneAbove;
    var r := TimedWaitOk(k, id, delay);
  }

  /** A wait of n ticks begun at tick T, by whatever call, goes on until granted through every
      run that leaves the counter below T + n, and otherwise runs out in exactly the tick that
      makes it T + n. */
  lemma WaitLasts(sys: System, k: Kernel, id: Pid, call: Call, es: seq<Event>, cpu: Option<Pid>)
    requires Inv(k) && InTable(sys, |k.current|) && Legal(k, Svc(id, call)) && Gate(k, id, call).st == Pending
    requires WaitLength(call) != TIMEOUT_INFINITE && TickCount(es) + 1 == WaitLength(call)
    requires var s := Step(sys, k, Svc(id, call)); LegalRun(sys, s, es) && Unrestarted(sys, s, es, id)
    ensures var s := Step(sys, k, Svc(id, call)); var b := Run(sys, s, es);
            && SleepsUntil(s, id, k.tick + WaitLength(call)) && s.tick == k.tick
            && var c := s.procs[id];
            && WaitsAlong(sys, s, es, id, c) && id < |b.procs| && |Step(sys, b, Tick(cpu)).procs| == |b.procs|
            && (c.waitlist == NoList ==> StillWaiting(c, b.procs[id]))
            && (StillWaiting(c, b.procs[id]) && !RestartsAt(sys, b, Tick(cpu), id) ==>
                  var c' := Step(sys, b, Tick(cpu)).procs[id]; RanOut(c, c') || EndedWith(c, c', Ok))
  {
    var s := Step(sys, k, Svc(id, call));
    GateSleeps(k, id, call);
    hide Inv, InTable, LegalRun, Unrestarted, RestartsAt, StillWaiting, Exact, Run, Gate, WaitsAlong, RanOut, EndedWith,
         LosesClaimAt;
    StepOk(sys, k, Svc(id, call));
    assert s == Gate(k, id, call).k;
    hide Step, Legal;
    WakesExactly(sys, s, es, cpu, id);
  }

  lemma GateSleeps(k: Kernel, id: Pid, call: Call)
    requires Inv(k) && Legal(k, Svc(id, call)) && Gate(k, id, call).st == Pending
    requires WaitLength(call) != TIMEOUT_INFINITE
    ensures var s := Gate(k, id, call).k;
            SleepsUntil(s, id, k.tick + WaitLength(call)) && s.tick == k.tick && k.tick + WaitLength(call) < TICK_NONE
  {
    hide Inv, Exact, Gate, Serve, LosesInheritance, Safe, ReleaseKept, OpHonest;
    var r := GateOk(k, id, call);
    if !call.YieldCall? {
      CallSleeps(k, id, call);
    }
  }
}

/** What a call leaves alone: time, and every mutex, semaphore, channel and wait list it is not about. */
module Footprints {
  import opened Wrappers
  import opened KernelState
  import opened Placement
  import opened KernelCalls
  import opened Invariants
  import opened Blocking
  import opened Mutexes
  import opened Semaphores
  import opened Channels
  import opened Timing
  import opened Ticks
  import opened Gates

  /** The wait lists a call may change. */
  predicate Concerns(call: Call, h: ListId) {
    match call
    case LockCall(m, timeout) => h == OnMutex(m)
    case UnlockCall(m) => h == OnMutex(m)
    case WaitCall(s, timeout) => h == OnSemaphore(s)
    case SignalCall(s) => h == OnSemaphore(s)
    case SendCall(ch, message, timeout) => h in {OnSend(ch), OnReceive(ch)}
    case ReceiveCall(ch, size, timeout) => h in {OnSend(ch), OnReceive(ch)}
    case TimedWaitCall(delay) => false
    case PeriodicWaitCall => false
    case YieldCall => false
  }

  /** Only the object the call is about changed, in its owner, its count or its contents, and
      only its wait lists. */
  ghost predicate OnlyAbout(k: Kernel, k': Kernel, call: Call) {
    && k'.tick == k.tick && k'.pending == k.pending && k'.halted == k.halted && Elsewhere(k, k', call)
  }

  /** All other objects and lists are as they were. */
  ghost predicate Elsewhere(k: Kernel, k': Kernel, call: Call) {
    && (forall h :: !Concerns(call, h) ==> Waiters(k', h) == Waiters(k, h))
    && SameMutexes(k, k', call) && SameSemaphores(k, k', call) && SameChannels(k, k', call)
  }

  lemma NoneChanged(k: Kernel, k': Kernel, call: Call)
    ensures k'.mutexes == k.mutexes ==> SameMutexes(k, k', call)
    ensures k'.sems == k.sems ==> SameSemaphores(k, k', call)
    ensures k'.channels == k.channels ==> SameChannels(k, k', call)
  {
  }

  predicate SameMutexes(k: Kernel, k': Kernel, call: Call) {
    && |k'.mutexes| == |k.mutexes|
    && forall x: nat :: x < |k.mutexes| ==>
       k'.mutexes[x] == if Concerns(call, OnMutex(x)) then k.mutexes[x].(owner := k'.mutexes[x].owner) else k.mutexes[x]
  }

  predicate SameSemaphores(k: Kernel, k': Kernel, call: Call) {
    && |k'.sems| == |k.sems|
    && forall x: nat :: x < |k.sems| ==>
       k'.sems[x] == if Concerns(call, OnSemaphore(x)) then k.sems[x].(count := k'.sems[x].count) else k.sems[x]
  }

  ghost predicate SameChannels(k: Kernel, k': Kernel, call: Call) {
    && k'.channels.Keys == k.channels.Keys
    && forall ch :: ch in k.channels ==>
       && ch in k'.channels
       && if Concerns(call, OnSend(ch)) then SameTerms(k.channels[ch], k'.channels[ch])
          else k'.channels[ch] == k.channels[ch]
  }

  lemma LockOnly(k: Kernel, m: nat, timeout: nat, id: Pid)
    requires Inv(k) && IsProc(k, id) && k.procs[id].state == Running
    ensures Elsewhere(k, Lock(k, m, timeout, id).k, LockCall(m, timeout))
  {
    var r := Lock(k, m, timeout, id);
    hide Inv, Lock, NoneAbove;
    LockOutcome(k, m, timeout, id);
    NoneChanged(k, r.k, LockCall(m, timeout));
  }

  lemma UnlockOnly(k: Kernel, m: nat, id: Pid)
    requires Inv(k)
    ensures Elsewhere(k, Unlock(k, m, id).k, UnlockCall(m))
  {
    hide Inv, Unlock, Framed, PriorityOnly, PassOn, GivenAway, MostUrgent, GivenToBest;
    UnlockOk(k, m, id);
    var r := Unlock(k, m, id);
    NoneChanged(k, r.k, UnlockCall(m));
    if r.st == Ok {
      UnlockOwner(k, m, id);
      forall x: nat | x < |k.mutexes|
        ensures x != m ==> r.k.mutexes[x] == k.mutexes[x] && Waiters(r.k, OnMutex(x)) == Waiters(k, OnMutex(x))
      {
        assert MutexReleased(k, r.k, id, x, m, m + 1);
      }
    }
  }

  lemma UnlockOwner(k: Kernel, m: nat, id: Pid)
    requires Inv(k) && Unlock(k, m, id).st == Ok
    ensures var r := Unlock(k, m, id).k;
            m < |k.mutexes| == |r.mutexes| && r.mutexes[m] == k.mutexes[m].(owner := r.mutexes[m].owner)
  {
    hide Inv, HandOff, PassOn, Released, Framed, Exact;
    UnlockOk(k, m, id);
  }

  lemma WaitOnly(k: Kernel, s: nat, timeout: nat, id: Pid)
    requires Inv(k) && IsProc(k, id) && k.procs[id].state == Running
    ensures Elsewhere(k, SemWait(k, s, timeout, id).k, WaitCall(s, timeout))
  {
    hide Inv, SemWait, Framed, Exact, SemWaits, NoneAbove;
    var r := SemWaitOk(k, s, timeout, id);
    hide SameSemaphores, SameMutexes, SameChannels;
    NoneChanged(k, r.k, WaitCall(s, timeout));
    CountOnly(k, r.k, WaitCall(s, timeout), s);
  }

  lemma SignalOnly(k: Kernel, s: nat, id: Pid)
    requires Inv(k) && IsProc(k, id) && k.procs[id].state == Running
    ensures Elsewhere(k, SemSignal(k, s, id).k, SignalCall(s))
  {
    hide Inv, SemSignal, Framed, Exact, MostUrgent, NoneAbove;
    var r := SemSignalOk(k, s, id);
    hide SameSemaphores, SameMutexes, SameChannels;
    NoneChanged(k, r.k, SignalCall(s));
    CountOnly(k, r.k, SignalCall(s), s);
  }

  lemma CountOnly(k: Kernel, k': Kernel, call: Call, s: nat)
    requires Concerns(call, OnSemaphore(s))
    ensures s < |k.sems| == |k'.sems| && k'.sems == k.sems[s := k.sems[s].(count := k'.sems[s].count)] ==>
            SameSemaphores(k, k', call)
  {
  }

  lemma ChannelOnly(k: Kernel, k': Kernel, call: Call, ch: ChannelId)
    requires ch in k.channels && Concerns(call, OnSend(ch))
    ensures ch in k'.channels && k'.channels == k.channels[ch := k'.channels[ch]] ==>
            SameTerms(k.channels[ch], k'.channels[ch]) ==> SameChannels(k, k', call)
  {
    if ch in k'.channels && k'.channels == k.channels[ch := k'.channels[ch]] {
      assert k.channels[ch := k'.channels[ch]].Keys == k.channels.Keys;
    }
  }

  lemma SendOnly(k: Kernel, ch: ChannelId, message: Message, timeout: nat, id: Pid)
    requires Inv(k) && IsProc(k, id) && k.procs[id].state == Running
    ensures Elsewhere(k, Send(k, ch, message, timeout, id).k, SendCall(ch, message, timeout))
  {
    hide Inv, Send, Framed, Exact, SendWaits, MostUrgent, NoneAbove;
    var r := SendOk(k, ch, message, timeout, id);
    hide SameSemaphores, SameMutexes, SameChannels;
    NoneChanged(k, r.k, SendCall(ch, message, timeout));
    if r.st == Ok { ChannelOnly(k, r.k, SendCall(ch, message, timeout), ch); }
  }

  lemma ReceiveOnly(k: Kernel, ch: ChannelId, size: nat, timeout: nat, id: Pid)
    requires Inv(k) && IsProc(k, id) && k.procs[id].state == Running
    ensures Elsewhere(k, Receive(k, ch, size, timeout, id).k, ReceiveCall(ch, size, timeout))
  {
    hide Inv, Receive, Framed, Exact, ReceiveWaits, MostUrgent, NoneAbove;
    var r := ReceiveOk(k, ch, size, timeout, id);
    hide SameSemaphores, SameMutexes, SameChannels;
    NoneChanged(k, r.k, ReceiveCall(ch, size, timeout));
    if r.st == Ok { ChannelOnly(k, r.k, ReceiveCall(ch, size, timeout), ch); }
  }

  lemma YieldOnly(k: Kernel, id: Pid, call: Call)
    requires Inv(k) && IsProc(k, id) && k.procs[id].state == Running
    ensures Elsewhere(k, Yield(k, id).k, call)
  {
    assert k.procs[id].partition < |k.current| by { RunningIsCurrent(k, id); }
    hide Inv, PartitionSelect, NoneAbove, Exact, SameSemaphores, SameMutexes, SameChannels;
    DispatchKeeps(k, k.procs[id].partition, true, PartitionSelect(k, k.procs[id].partition, true));
    NoneChanged(k, Yield(k, id).k, call);
  }

  lemma TimedOnly(k: Kernel, delay: nat, id: Pid)
    requires Inv(k) && IsProc(k, id) && k.procs[id].state == Running
    ensures Elsewhere(k, Serve(k, id, TimedWaitCall(delay)).k, TimedWaitCall(delay))
  {
    hide Inv, TimedWait, Framed, Exact, NoneAbove, Yield, SameSemaphores, SameMutexes, SameChannels;
    var t := TimedWaitOk(k, id, delay);
    NoneChanged(k, t.k, TimedWaitCall(delay));
    YieldOnly(k, id, TimedWaitCall(delay));
  }

  lemma PeriodicOnly(k: Kernel, id: Pid)
    requires Inv(k) && IsProc(k, id) && k.procs[id].state == Running
    ensures Elsewhere(k, PeriodicWait(k, id).k, PeriodicWaitCall)
  {
    hide Inv, PeriodicWait, Framed, Exact, NoneAbove, SameSemaphores, SameMutexes, SameChannels;
    var p := PeriodicWaitOk(k, id);
    NoneChanged(k, p.k, PeriodicWaitCall);
  }

  lemma ServeOnly(k: Kernel, id: Pid, call: Call)
    requires Inv(k) && IsProc(k, id) && k.procs[id].state == Running
    ensures OnlyAbout(k, Serve(k, id, call).k, call)
  {
    ServeElsewhere(k, id, call);
    hide Inv, Exact, Elsewhere, Serve, LosesInheritance, OpHonest, Safe;
    ServeOk(k, id, call);
  }

  lemma ServeElsewhere(k: Kernel, id: Pid, call: Call)
    requires Inv(k) && IsProc(k, id) && k.procs[id].state == Running
    ensures Elsewhere(k, Serve(k, id, call).k, call)
  {
    hide Inv, Elsewhere, Lock, Unlock, SemWait, SemSignal, Send, Receive, TimedWait, PeriodicWait, Yield;
    match call
    case LockCall(m, timeout) => LockOnly(k, m, timeout, id);
    case UnlockCall(m) => UnlockOnly(k, m, id);
    case WaitCall(s, timeout) => WaitOnly(k, s, timeout, id);
    case SignalCall(s) => SignalOnly(k, s, id);
    case SendCall(ch, message, timeout) => SendOnly(k, ch, message, timeout, id);
    case ReceiveCall(ch, size, timeout) => ReceiveOnly(k, ch, size, timeout, id);
    case TimedWaitCall(delay) => TimedOnly(k, delay, id);
    case PeriodicWaitCall => PeriodicOnly(k, id);
    case YieldCall => YieldOnly(k, id, YieldCall);
  }

  /** A whole call through the gate touches nothing else either. */
  lemma GateOnly(k: Kernel, id: Pid, call: Call)
    requires Inv(k) && IsProc(k, id) && k.procs[id].state == Running
    requires k.procs[id].partition < |k.halted| && !k.halted[k.procs[id].partition]
    ensures OnlyAbout(k, Gate(k, id, call).k, call)
  {
    hide Inv, Exact, Framed, Safe, Serve, Gate, LosesInheritance, ReleaseKept, OpHonest, SameTimes, OnlyAbout;
    var r := GateOk(k, id, call);
    ServeOnly(k, id, call);
    if !call.YieldCall? { SoftOnly(k, Serve(k, id, call).k, r.k, call); }
  }

  lemma SoftOnly(k: Kernel, s: Kernel, r: Kernel, call: Call)
    requires OnlyAbout(k, s, call) && Soft(s, r)
    ensures OnlyAbout(k, r, call)
  {
    forall h ensures Waiters(r, h) == Waiters(s, h) {}
    assert r.mutexes == s.mutexes && r.sems == s.sems && r.channels == s.channels;
  }
}

/** Counting semaphores: a free unit and a waiter never coexist, and units are conserved. */
module Semaphores {
  import opened Wrappers
  import opened KernelState
  import opened Placement
  import opened KernelCalls
  import opened Invariants
  import opened Blocking

  lemma CountChanged(k: Kernel, s: nat, c: nat, id: Pid) returns (k': Kernel)
    requires Inv(k) && s < |k.sems| && Waiters(k, OnSemaphore(s)) == [] && c <= k.sems[s].max
    ensures k' == WithCount(k, s, c) && Inv(k') && (Exact(k') <==> Exact(k)) && Framed(k, k', id)
  {
    k' := WithCount(k, s, c);
    RetouchedPlaced(k, k', {});
    hide Placed;
    forall h ensures ListFine(k', h) { assert ListFine(k, h) && Waiters(k', h) == Waiters(k, h); }
    forall m: nat | m < |k.mutexes| ensures MutexFine(k', m) { assert MutexFine(k, m); }
    forall i | 0 <= i < |k.procs| ensures ClockOk(k', k'.procs[i]) { assert ClockOk(k, k.procs[i]); }
    SameGraph(k, k');
  }

  /** The caller has to wait for a unit, and can. */
  ghost predicate SemWaits(k: Kernel, s: nat, timeout: nat, id: Pid) {
    && SemaphoreFor(k, s, id) && k.sems[s].count == 0 && timeout != 0 && TickAfter(k, timeout).0 == Ok
    && |Waiters(k, OnSemaphore(s))| < WAITLIST_MAX && CanBlock(k, k.procs[id].partition)
  }

  /** Waiting takes a unit exactly when one is free; otherwise the caller joins the tail of
      the wait list, or is told why not and nothing but its operation record changes. */
  lemma SemWaitOk(k: Kernel, s: nat, timeout: nat, id: Pid) returns (r: Sel)
    requires Inv(k) && IsProc(k, id) && k.procs[id].state == Running
    ensures r == SemWait(k, s, timeout, id) && Inv(r.k) && (Exact(r.k) <==> Exact(k)) && Framed(k, r.k, id)
    ensures r.st == InvalidId <==> !SemaphoreFor(k, s, id)
    ensures r.st == Ok <==> SemaphoreFor(k, s, id) && k.sems[s].count > 0
    ensures r.st == Ok ==> r.k == k.(sems := k.sems[s := k.sems[s].(count := k.sems[s].count - 1)])
    ensures r.st == Pending <==> SemWaits(k, s, timeout, id)
    ensures r.st == Pending ==> StartedWait(k, r, id, OnSemaphore(s), TickAfter(k, timeout).1, WaitOp(s))
    ensures r.st !in {Ok, Pending} ==> TouchedBy(k, r.k, id, WaitOp(s))
  {
    r := SemWait(k, s, timeout, id);
    if SemaphoreFor(k, s, id) {
      if k.sems[s].count > 0 {
        assert ListFine(k, OnSemaphore(s));
        var k' := CountChanged(k, s, k.sems[s].count - 1, id);
      } else {
        r := SemWaitBlocks(k, s, timeout, id);
      }
    }
  }

  lemma SemWaitBlocks(k: Kernel, s: nat, timeout: nat, id: Pid) returns (r: Sel)
    requires Inv(k) && IsProc(k, id) && k.procs[id].state == Running && SemaphoreFor(k, s, id) && k.sems[s].count == 0
    ensures r == SemWait(k, s, timeout, id) && Inv(r.k) && (Exact(r.k) <==> Exact(k)) && Framed(k, r.k, id)
    ensures r.st !in {Ok, InvalidId} && (r.st == Pending <==> SemWaits(k, s, timeout, id))
    ensures r.st == Pending ==> StartedWait(k, r, id, OnSemaphore(s), TickAfter(k, timeout).1, WaitOp(s))
    ensures r.st != Pending ==> TouchedBy(k, r.k, id, WaitOp(s))
  {
    hide BlockCurrent, Exact, CanBlock, Waiting, Placed, Objects;
    r := SemWait(k, s, timeout, id);
    if timeout != 0 && TickAfter(k, timeout).0 == Ok {
      TickAfterOk(k, timeout);
      var b := BlockCurrentKeeps(k, id, OnSemaphore(s), TickAfter(k, timeout).1, WaitOp(s));
    }
  }

  /** A signal frees a unit when nobody waits, and otherwise hands it straight to the most
      urgent waiter (the longest waiting among equals) without the count moving. */
  lemma SemSignalOk(k: Kernel, s: nat, id: Pid) returns (r: Out)
    requires Inv(k)
    ensures r == SemSignal(k, s, id) && Inv(r.k) && (Exact(r.k) <==> Exact(k)) && Framed(k, r.k, id)
    ensures r.st == InvalidId <==> !SemaphoreFor(k, s, id)
    ensures r.st == Overflow <==>
            SemaphoreFor(k, s, id) && Waiters(k, OnSemaphore(s)) == [] && k.sems[s].count == k.sems[s].max
    ensures r.st in {Ok, InvalidId, Overflow} && (r.st != Ok ==> r.k == k)
    ensures r.k.channels == k.channels && r.k.mutexes == k.mutexes
    ensures r.st == Ok && Waiters(k, OnSemaphore(s)) == [] ==>
            r.k == k.(sems := k.sems[s := k.sems[s].(count := k.sems[s].count + 1)])
    ensures r.st == Ok && Waiters(k, OnSemaphore(s)) != [] ==>
              k.sems[s].count == 0 && r.k.sems == k.sems
                && exists n :: MostUrgent(k, Waiters(k, OnSemaphore(s)), n) && Granted(k, r.k, OnSemaphore(s), n, Ok)
  {
    r := SemSignal(k, s, id);
    var h := OnSemaphore(s);
    if SemaphoreFor(k, s, id) {
      if Waiters(k, h) == [] {
        if k.sems[s].count < k.sems[s].max {
          hide Inv;
          var k' := CountChanged(k, s, k.sems[s].count + 1, id);
        }
      } else {
        assert ListFine(k, h);
        var n := SignalHandsOver(k, s, id);
      }
    }
  }

  lemma SignalHandsOver(k: Kernel, s: nat, id: Pid) returns (n: Pid)
    requires Inv(k) && SemaphoreFor(k, s, id) && Waiters(k, OnSemaphore(s)) != []
    ensures var r := SemSignal(k, s, id);
            && r.st == Ok && Inv(r.k) && (Exact(r.k) <==> Exact(k)) && Framed(k, r.k, id) && r.k.sems == k.sems
               && r.k.channels == k.channels && r.k.mutexes == k.mutexes
            && MostUrgent(k, Waiters(k, OnSemaphore(s)), n) && Granted(k, r.k, OnSemaphore(s), n, Ok)
  {
    var h := OnSemaphore(s);
    TakeBestOk(k, {}, h);
    n := TakeBest(k, h).id;
    var t := TakenOff(k, h, n);
    GrantOk(k, t, h, n, Ok);
    var k' := Resolve(t, n, Ok).k;
    assert SemSignal(k, s, id) == Out(Ok, k');
    hide Placed, Objects, Clocked, Granted, Resolve, TakenOff, TakeBest, SemSignal, Exact, Framed, MostUrgent;
    GrantedFine(k, k', h, n, Ok);
    GrantedClocked(k, k', h, n, Ok);
    GrantedGraph(k, k', h, n, Ok);
    GrantedFramed(k, k', h, n, id);
  }
}

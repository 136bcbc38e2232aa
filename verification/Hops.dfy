/** The bound on the chain walk in the kernel: which walks notice it, and exactly what a lock
    leaves behind when its walk does. */
module Hops {
  import opened Wrappers
  import opened KernelState
  import opened Placement
  import opened KernelCalls
  import opened Invariants
  import opened Blocking
  import opened Mutexes
  import opened Inheritance
  import opened Truncation

  /** The walk that raises o for a claim c is cut short. */
  ghost predicate RaiseCut(k: Kernel, o: Pid, c: nat)
    requires o < |k.procs|
  {
    CutShort(GraphOf(k), Records(k), |k.mutexes|, Prios(k), o, c)
  }

  lemma ExactGraph(k: Kernel)
    requires Inv(k) && Exact(k)
    ensures Shaped(GraphOf(k), Prios(k)) && Stable(GraphOf(k), Prios(k)) && Placed(k, {}) && Objects(k)
    ensures Edges(GraphOf(k), Records(k), Owners(k)) && |Owners(k)| <= |k.mutexes| && InRange(GraphOf(k).boss)
  {
    GraphEdges(k, {});
  }

  /** Allowing the raising walk of a lock more hops changes a priority if and only if the walk
      is cut short. */
  lemma RaiseHopsDecide(k: Kernel, o: Pid, c: nat)
    requires Inv(k) && Exact(k) && IsProc(k, o)
    ensures RaiseCut(k, o, c) <==>
            exists n: nat ::
              n > |k.mutexes| && Prios(RefreshChain(k, Some(o), c, n).k) != Prios(Refresh(k, Some(o), c).k)
  {
    hide *;
    ExactGraph(k);
    CutIs(k, o, c);
    HopsDecide(GraphOf(k), Records(k), Owners(k), |k.mutexes|, Prios(k), o, c);
    RaiseIsWalk(k, o, c, |k.mutexes| + 1);
    forall n: nat
      ensures Prios(RefreshChain(k, Some(o), c, n).k) == Walk(GraphOf(k), Records(k), Prios(k), Some(o), c, n)
    {
      RaiseIsWalk(k, o, c, n);
    }
    var g, s, p := GraphOf(k), Records(k), Prios(k);
    if RaiseCut(k, o, c) {
      var n: nat :| n > |k.mutexes| && Walk(g, s, p, Some(o), c, n) != Walk(g, s, p, Some(o), c, |k.mutexes| + 1);
      assert Prios(RefreshChain(k, Some(o), c, n).k) != Prios(Refresh(k, Some(o), c).k);
    } else {
      forall n: nat | n > |k.mutexes|
        ensures Prios(RefreshChain(k, Some(o), c, n).k) == Prios(Refresh(k, Some(o), c).k)
      {
        assert Walk(g, s, p, Some(o), c, n) == Walk(g, s, p, Some(o), c, |k.mutexes| + 1);
      }
    }
  }

  lemma CutIs(k: Kernel, o: Pid, c: nat)
    requires IsProc(k, o)
    ensures o < |k.procs| == |Prios(k)|
    ensures RaiseCut(k, o, c) == CutShort(GraphOf(k), Records(k), |k.mutexes|, Prios(k), o, c)
    ensures Refresh(k, Some(o), c) == RefreshChain(k, Some(o), c, |k.mutexes| + 1)
  {
  }

  lemma RaiseIsWalk(k: Kernel, o: Pid, c: nat, n: nat)
    requires Inv(k) && IsProc(k, o)
    ensures Shaped(GraphOf(k), Prios(k))
    ensures Prios(RefreshChain(k, Some(o), c, n).k) == Walk(GraphOf(k), Records(k), Prios(k), Some(o), c, n)
  {
    var r := ChainIsWalk(k, {}, Some(o), c, n);
  }

  // ---------------------------------------------------------------- what a lock leaves behind

  /** The owner of mutex m and everybody it waits for, less urgent than the caller. */
  ghost predicate BehindOwner(k: Kernel, m: nat, id: Pid, x: Pid)
    requires id < |k.procs|
  {
    MutexOwner(k, m).Some? && x < |k.procs| && Leads(GraphOf(k), MutexOwner(k, m).value, x)
    && k.procs[x].priority > k.procs[id].priority
  }

  /** ... of them those that a walk which comes back to the owner after t hops does not visit
      a second time. */
  ghost predicate LeftRaised(k: Kernel, m: nat, id: Pid, t: nat, x: Pid)
    requires id < |k.procs| && t <= |k.mutexes|
  {
    && MutexOwner(k, m).Some?
    && Lifted(GraphOf(k), Prios(k), MutexOwner(k, m).value, k.procs[id].priority, |k.mutexes| + 1 - t, t, x)
  }

  lemma WaitingPrios(k: Kernel, m: nat, timeout: nat, id: Pid)
    requires Inv(k) && IsProc(k, id) && k.procs[id].state == Running && LockWaits(k, m, timeout, id)
    ensures m < |k.mutexes| && k.mutexes[m].owner.Some? && MutexOwner(k, m) == k.mutexes[m].owner
            && IsProc(k, k.mutexes[m].owner.value)
    ensures var r := Lock(k, m, timeout, id).k;
            |r.procs| == |k.procs| && Prios(r) == Prios(Refresh(k, MutexOwner(k, m), k.procs[id].priority).k)
  {
    hide *;
    LockWaitsMeans(k, m, timeout, id);
    OwnerIsProc(k, m);
    LockOk(k, m, timeout, id);
    LockIs(k, m, timeout, id);
    var raised, b := LockBlocks(k, m, timeout, id);
    RaisedSame(k, raised, id);
    StartedPrios(raised, b, id, OnMutex(m), TickAfter(k, timeout).1, LockOp(m));
    SamePool(raised, b.k);
  }

  lemma SamePool(a: Kernel, b: Kernel)
    requires Prios(a) == Prios(b)
    ensures |a.procs| == |b.procs|
  {
  }

  /** A lock that waits and keeps its claim raises the owner and everybody it waits for to the
      caller's priority, and changes nobody else. */
  lemma LockRaises(k: Kernel, m: nat, timeout: nat, id: Pid)
    requires Inv(k) && Exact(k) && IsProc(k, id) && k.procs[id].state == Running && LockWaits(k, m, timeout, id)
    requires !Lost(k, m, id)
    ensures var r := Lock(k, m, timeout, id).k;
            |r.procs| == |k.procs| && forall x :: 0 <= x < |k.procs| ==>
              r.procs[x].priority == if BehindOwner(k, m, id, x) then k.procs[id].priority else k.procs[x].priority
  {
    hide LockWaits, Lock, Refresh, Walk, Inv, Exact, Stable, Held, RaisedTo, Edges, Leads;
    WaitingPrios(k, m, timeout, id);
    ExactGraph(k);
    var o, c, r := MutexOwner(k, m).value, k.procs[id].priority, Lock(k, m, timeout, id).k;
    RaisedOk(k, o, c);
    var p := ClaimWalk(GraphOf(k), Records(k), Owners(k), |k.mutexes|, Prios(k), o, c);
    forall x | 0 <= x < |k.procs|
      ensures r.procs[x].priority == if BehindOwner(k, m, id, x) then c else k.procs[x].priority
    {
      HeldIs(GraphOf(k), Prios(k), p, o, c, x);
      assert Prios(r)[x] == p[x];
    }
  }

  /** A lock that loses its claim raises nobody for good, unless its walk is cut short: then
      exactly the processes it had no hops left for stay raised. */
  lemma LostClaimLeaves(k: Kernel, m: nat, timeout: nat, id: Pid) returns (t: nat)
    requires Inv(k) && Exact(k) && IsProc(k, id) && k.procs[id].state == Running && LockWaits(k, m, timeout, id)
    requires Lost(k, m, id)
    ensures MutexOwner(k, m).Some? && MutexOwner(k, m).value < |k.procs|
    ensures FirstReturn(Records(k), MutexOwner(k, m).value, t) && t <= |k.mutexes|
    ensures var r := Lock(k, m, timeout, id).k;
            && |r.procs| == |k.procs|
            && (forall x :: 0 <= x < |k.procs| ==>
                  r.procs[x].priority == if LeftRaised(k, m, id, t, x) then k.procs[id].priority
                    else k.procs[x].priority)
            && (Prios(r) == Prios(k) <==> !RaiseCut(k, MutexOwner(k, m).value, k.procs[id].priority))
  {
    hide LockWaits, Lock, Refresh, Walk, Inv, Exact, Stable, Edges, Lifted, Unvisited, FirstReturn, Iter, CutShort,
         LosesClaim;
    WaitingPrios(k, m, timeout, id);
    ExactGraph(k);
    var o, c, r := MutexOwner(k, m).value, k.procs[id].priority, Lock(k, m, timeout, id).k;
    RaisedOk(k, o, c);
    t := LostWalkIs(GraphOf(k), Records(k), Owners(k), |k.mutexes|, Prios(k), o, c);
    var p := Lift(GraphOf(k), Prios(k), o, c, |k.mutexes| + 1 - t, t);
    assert Prios(r) == p;
    forall x | 0 <= x < |k.procs|
      ensures r.procs[x].priority == if LeftRaised(k, m, id, t, x) then c else k.procs[x].priority
    {
      assert Prios(r)[x] == p[x];
    }
  }

  // ---------------------------------------------------------------- sweeps

  /** maxrtos_mutex_refresh_priorities with another bound on its walks. */
  function RefreshFromWith(k: Kernel, m: nat, hops: nat): Kernel
    requires m <= |k.mutexes|
    decreases |k.mutexes| - m
  {
    if m == |k.mutexes| then k
    else
      var k' := if k.mutexes[m].inUse && k.mutexes[m].owner.Some? then
        RefreshChain(k, k.mutexes[m].owner, NO_CLAIM, hops).k
                else k;
      if |k'.mutexes| != |k.mutexes| then k' else RefreshFromWith(k', m + 1, hops)
  }

  lemma {:induction false} RefreshWithIs(k: Kernel, limbo: set<Pid>, m: nat, hops: nat)
    requires Placed(k, limbo) && Objects(k) && m <= |k.mutexes|
    ensures Shaped(GraphOf(k), Prios(k))
    ensures Prios(RefreshFromWith(k, m, hops)) == Sweep(GraphOf(k), Records(k), Prios(k), Holders(k), hops, m)
    decreases |k.mutexes| - m
  {
    assert Shaped(GraphOf(k), Prios(k)) by { GraphShaped(k, limbo); }
    hide Placed, Objects, Walk, RefreshChain, GraphOf, Records, Prios;
    if m < |k.mutexes| {
      var k' := WithStep(k, limbo, m, hops);
      PriorityOnlyGraph(k, k');
      RefreshWithIs(k', limbo, m + 1, hops);
    }
  }

  lemma WithStep(k: Kernel, limbo: set<Pid>, m: nat, hops: nat) returns (k': Kernel)
    requires Placed(k, limbo) && Objects(k) && m < |k.mutexes| && Shaped(GraphOf(k), Prios(k))
    ensures k' == if k.mutexes[m].inUse && k.mutexes[m].owner.Some? then
              RefreshChain(k, k.mutexes[m].owner, NO_CLAIM, hops).k else k
    ensures Placed(k', limbo) && Objects(k') && PriorityOnly(k, k') && k'.mutexes == k.mutexes
    ensures Prios(k') == Walk(GraphOf(k), Records(k), Prios(k), Holders(k)[m], NO_CLAIM, hops)
  {
    if k.mutexes[m].inUse && k.mutexes[m].owner.Some? {
      assert MutexFine(k, m);
      hide Placed, Objects, RefreshChain, Walk;
      var r := ChainIsWalk(k, limbo, k.mutexes[m].owner, NO_CLAIM, hops);
      k' := r.k;
      PriorityOnlyFine(k, k');
    } else {
      k' := k;
    }
  }

  /** With the bound the kernel uses it is the kernel's own sweep. */
  lemma {:induction false} SameSweep(k: Kernel, limbo: set<Pid>, m: nat)
    requires Placed(k, limbo) && Objects(k) && m <= |k.mutexes|
    ensures RefreshFromWith(k, m, |k.mutexes| + 1) == RefreshFrom(k, m, |k.mutexes|)
    decreases |k.mutexes| - m
  {
    assert Shaped(GraphOf(k), Prios(k)) by { GraphShaped(k, limbo); }
    hide Placed, Objects, RefreshChain, PriorityOnly, Shaped;
    if m < |k.mutexes| {
      var k' := WithStep(k, limbo, m, |k.mutexes| + 1);
      SameSweep(k', limbo, m + 1);
    }
  }

  /** Walks inside a sweep may be cut short, but the sweep never ends differently for it. */
  lemma SweepHopsSuffice(k: Kernel, limbo: set<Pid>, hops: nat)
    requires Placed(k, limbo) && Objects(k) && hops > |k.mutexes| && Shaped(GraphOf(k), Prios(k))
    requires Over(GraphOf(k), Prios(k)) && Settled(GraphOf(k), Prios(k), Owners(k))
    ensures Prios(RefreshFromWith(k, 0, hops)) == Prios(RefreshPriorities(k))
  {
    hide *;
    SweepFacts(k, limbo);
    var r := RefreshFromIs(k, limbo, 0);
    RefreshWithIs(k, limbo, 0, hops);
    SweepIgnoresHops(GraphOf(k), Records(k), Owners(k), Prios(k), Holders(k), |k.mutexes| + 1, hops - |k.mutexes| - 1);
  }

  lemma SweepFacts(k: Kernel, limbo: set<Pid>)
    requires Placed(k, limbo) && Objects(k)
    ensures Edges(GraphOf(k), Records(k), Owners(k)) && |Owners(k)| <= |k.mutexes| && InRange(GraphOf(k).boss)
    ensures Owners(k) == HoldersFrom(Holders(k), 0) && RefreshPriorities(k) == RefreshFrom(k, 0, |k.mutexes|)
    ensures forall m: nat :: m < |k.mutexes| && Holders(k)[m].Some? ==> Holders(k)[m].value < |Prios(k)|
  {
    GraphEdges(k, limbo);
    forall m: nat | m < |k.mutexes| && Holders(k)[m].Some? ensures Holders(k)[m].value < |Prios(k)| {
      assert MutexFine(k, m);
    }
  }
}

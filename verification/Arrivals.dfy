/** Who is requeued when priorities are refreshed: the READY owners at which the walks end. */
module Arrivals {
  import opened Wrappers
  import opened KernelState
  import opened Order
  import opened Placement
  import opened KernelCalls
  import opened Invariants
  import opened Blocking
  import opened Inheritance

  /** The READY process at which the records lead from cur within so many visits, if any. */
  ghost function WalkEnd(k: Kernel, cur: Option<Pid>, hops: nat): seq<Pid>
    decreases hops
  {
    if hops == 0 || cur.None? || cur.value >= |k.procs| then []
    else if k.procs[cur.value].state == Ready then [cur.value]
    else WalkEnd(k, NextInChain(k, cur.value), hops - 1)
  }

  /** ... within the visits the kernel allows. */
  ghost function ChainEnd(k: Kernel, o: Option<Pid>): (e: seq<Pid>)
    ensures |e| <= 1
  {
    WalkEndShort(k, o, |k.mutexes| + 1);
    WalkEnd(k, o, |k.mutexes| + 1)
  }

  lemma {:induction false} WalkEndShort(k: Kernel, cur: Option<Pid>, hops: nat)
    ensures |WalkEnd(k, cur, hops)| <= 1
    decreases hops
  {
    if hops != 0 && cur.Some? && cur.value < |k.procs| { WalkEndShort(k, NextInChain(k, cur.value), hops - 1); }
  }

  /** The ends of the chains of all owners, in the order of the mutexes from m on. */
  ghost function SweepEnds(k: Kernel, m: nat): seq<Pid>
    decreases |k.mutexes| - m
  {
    if m >= |k.mutexes| then [] else ChainEnd(k, MutexOwner(k, m)) + SweepEnds(k, m + 1)
  }

  /** Same READY processes, same records, same owners. */
  ghost predicate SameChains(k: Kernel, k': Kernel) {
    && |k'.procs| == |k.procs| && |k'.mutexes| == |k.mutexes|
    && (forall m: nat :: m < |k.mutexes| ==> MutexOwner(k', m) == MutexOwner(k, m))
    && forall i :: 0 <= i < |k.procs| ==>
         NextInChain(k', i) == NextInChain(k, i) && (k'.procs[i].state == Ready <==> k.procs[i].state == Ready)
  }

  lemma {:induction false} WalkEndSame(k: Kernel, k': Kernel, cur: Option<Pid>, hops: nat)
    requires SameChains(k, k')
    ensures WalkEnd(k', cur, hops) == WalkEnd(k, cur, hops)
    decreases hops
  {
    if hops != 0 && cur.Some? && cur.value < |k.procs| {
      WalkEndSame(k, k', NextInChain(k, cur.value), hops - 1);
    }
  }

  lemma {:induction false} SweepEndsSame(k: Kernel, k': Kernel, m: nat)
    requires SameChains(k, k')
    ensures SweepEnds(k', m) == SweepEnds(k, m)
    decreases |k.mutexes| - m
  {
    if m < |k.mutexes| {
      WalkEndSame(k, k', MutexOwner(k, m), |k.mutexes| + 1);
      SweepEndsSame(k, k', m + 1);
    }
  }

  lemma PriorityOnlyChains(k: Kernel, k': Kernel)
    requires PriorityOnly(k, k')
    ensures SameChains(k, k')
  {
    forall i | 0 <= i < |k.procs|
      ensures NextInChain(k', i) == NextInChain(k, i) && k'.procs[i].state == k.procs[i].state
    {
      assert k'.procs[i] == k.procs[i].(priority := k'.procs[i].priority);
    }
  }

  lemma TouchedChains(k: Kernel, k': Kernel, id: Pid)
    requires Touched(k, k', id) && k.procs[id].state == Running
    ensures SameChains(k, k')
  {
  }

  // ---------------------------------------------------------------- what the ends are

  /** From o the records lead to x, and x is READY. */
  ghost predicate EndsAt(k: Kernel, o: Pid, x: Pid) {
    x < |k.procs| && k.procs[x].state == Ready && exists t: nat :: Iter(Records(k), o, t) == Some(x)
  }

  lemma {:induction false} WalkEndLeads(k: Kernel, o: Pid, hops: nat)
    ensures forall x :: x in WalkEnd(k, Some(o), hops) ==> EndsAt(k, o, x)
    decreases hops
  {
    if hops != 0 && o < |k.procs| {
      if k.procs[o].state == Ready {
        assert Iter(Records(k), o, 0) == Some(o);
      } else if NextInChain(k, o).Some? {
        var n := NextInChain(k, o).value;
        WalkEndLeads(k, n, hops - 1);
        forall x | x in WalkEnd(k, Some(n), hops - 1) ensures EndsAt(k, o, x) {
          var t: nat :| Iter(Records(k), n, t) == Some(x);
          assert Iter(Records(k), o, t + 1) == Some(x);
        }
      }
    }
  }

  /** A walk of one visit more than there are mutexes gets to the READY process its records lead to. */
  lemma {:induction false} EndIsReached(k: Kernel, owners: set<Pid>, start: Pid, cur: Pid, x: Pid, t: nat, hops: nat,
      visited: set<Pid>)
    requires |owners| <= |k.mutexes| && (forall i :: 0 <= i < |k.procs| && Records(k)[i].Some? ==>
             Records(k)[i].value in owners)
    requires x < |k.procs| && k.procs[x].state == Ready && Iter(Records(k), cur, t) == Some(x) && InRange(Records(k))
    requires cur < |k.procs| && |visited| + hops == |k.mutexes| + 1 && visited <= owners + {start}
             && cur in owners + {start} && Reach(Graph([], Records(k)), visited, cur)
    ensures WalkEnd(k, Some(cur), hops) == [x]
    decreases t
  {
    var s := Records(k);
    if cur in visited {
      var n: nat :| n > 0 && Iter(s, cur, n) == Some(cur);
      LoopIsEndless(s, cur, n, t + 1);
      IterNext(s, cur, t, x);
      assert false;
    }
    Pigeonhole(owners, |k.mutexes|, start, cur, visited);
    if k.procs[cur].state == Ready {
      assert s[cur] == None;
    } else {
      assert t != 0 && s[cur].Some?;
      ReachStep(Graph([], s), visited, cur);
      EndIsReached(k, owners, start, s[cur].value, x, t - 1, hops - 1, visited + {cur});
    }
  }

  /** The kernel's bound never hides the end of a chain: x is requeued by a walk from o if and
      only if x is READY and the records lead from o to x, however far away it is. */
  lemma ChainEndIs(k: Kernel, limbo: set<Pid>, o: Pid, x: Pid)
    requires Placed(k, limbo) && Objects(k) && o < |k.procs|
    ensures x in ChainEnd(k, Some(o)) <==> EndsAt(k, o, x)
  {
    WalkEndLeads(k, o, |k.mutexes| + 1);
    if EndsAt(k, o, x) {
      GraphEdges(k, limbo);
      var t: nat :| Iter(Records(k), o, t) == Some(x);
      EndIsReached(k, Owners(k), o, o, x, t, |k.mutexes| + 1, {});
    }
  }

  /** Who the pass over all mutexes requeues: every READY process to which the records lead from
      an owner, the one of the later mutex later. */
  lemma {:induction false} SweepEndsAre(k: Kernel, limbo: set<Pid>, m: nat, x: Pid)
    requires Placed(k, limbo) && Objects(k) && m <= |k.mutexes|
    ensures x in SweepEnds(k, m) <==>
            exists n: nat :: m <= n < |k.mutexes| && MutexOwner(k, n).Some? && EndsAt(k, MutexOwner(k, n).value, x)
    decreases |k.mutexes| - m
  {
    if m < |k.mutexes| {
      SweepEndsAre(k, limbo, m + 1, x);
      var o := MutexOwner(k, m);
      if o.Some? {
        assert MutexFine(k, m);
        ChainEndIs(k, limbo, o.value, x);
      }
      hide Placed, Objects, EndsAt;
    }
  }
}

/** Mutexes: the kernel's chain walk is the abstract walk, so every operation keeps the
    inheritance equation; lock is the one operation with a case where it does not. */
module Mutexes {
  import opened Wrappers
  import opened KernelState
  import opened Order
  import opened Placement
  import opened KernelCalls
  import opened Invariants
  import opened Blocking
  import opened Arrivals
  import opened Inheritance

  // ---------------------------------------------------------------- priority refresh

  lemma PriorityOnlyGraph(k: Kernel, k': Kernel)
    requires PriorityOnly(k, k')
    ensures GraphOf(k') == GraphOf(k) && Records(k') == Records(k) && Holders(k') == Holders(k)
  {
    assert GraphOf(k').base == GraphOf(k).base;
    forall i | 0 <= i < |k.procs| ensures Boss(k', i) == Boss(k, i) && NextInChain(k', i) == NextInChain(k, i) {
      assert k'.procs[i].waitlist == k.procs[i].waitlist && k'.procs[i].op == k.procs[i].op;
      assert Waiters(k', k.procs[i].waitlist) == Waiters(k, k.procs[i].waitlist);
    }
    assert GraphOf(k').boss == GraphOf(k).boss;
    assert Records(k') == Records(k);
    assert Holders(k') == Holders(k);
  }

  lemma PriorityOnlyFine(k: Kernel, k': Kernel)
    requires PriorityOnly(k, k')
    ensures Objects(k) ==> Objects(k')
    ensures Clocked(k) ==> Clocked(k')
  {
    if Objects(k) {
      forall h ensures Waiters(k', h) == Waiters(k, h) {}
      SameObjectsFine(k, k');
    }
    if Clocked(k) {
      forall i | 0 <= i < |k'.procs| ensures ClockOk(k', k'.procs[i]) { assert ClockOk(k, k.procs[i]); }
    }
  }

  lemma PriorityOnlyTrans(a: Kernel, b: Kernel, c: Kernel)
    requires PriorityOnly(a, b) && PriorityOnly(b, c)
    ensures PriorityOnly(a, c)
  {
    forall i | 0 <= i < |a.procs| ensures c.procs[i] == a.procs[i].(priority := c.procs[i].priority) {
      assert b.procs[i] == a.procs[i].(priority := b.procs[i].priority);
    }
  }

  /** One visit of the walk on the kernel is one visit on the arrays. */
  lemma VisitIs(k: Kernel, limbo: set<Pid>, id: Pid, claim: nat)
    requires Placed(k, limbo) && IsProc(k, id)
    ensures Shaped(GraphOf(k), Prios(k))
    ensures var r := SetPriority(k, id, WantedPriority(k, id, claim));
            && r.st == Ok && Placed(r.k, limbo) && PriorityOnly(k, r.k)
            && Prios(r.k) == Prios(k)[id := Wanted(GraphOf(k), Prios(k), id, claim)]
            && Moved(k, r.k, if k.procs[id].state == Ready then [id] else [])
  {
    GraphShaped(k, limbo);
    WantedIs(k, limbo, id, claim);
    assert ProcOk(k, limbo, id);
    var w := WantedPriority(k, id, claim);
    assert w <= k.procs[id].base;
    SetPriorityOk(k, limbo, id, w);
    SetPriorityMoves(k, limbo, id, w);
    var r := SetPriority(k, id, w);
    assert Prios(r.k) == Prios(k)[id := w];
  }

  /** The first step of the kernel's chain walk, seen on the arrays. */
  lemma ChainStep(k: Kernel, limbo: set<Pid>, id: Pid, claim: nat, hops: nat)
      returns (k': Kernel, next: Option<Pid>, first: seq<Pid>)
    requires Placed(k, limbo) && Objects(k) && IsProc(k, id) && hops > 0
    ensures Placed(k', limbo) && Objects(k') && PriorityOnly(k, k') && (next.Some? ==> IsProc(k', next.value))
    ensures Shaped(GraphOf(k), Prios(k)) && GraphOf(k') == GraphOf(k) && Records(k') == Records(k)
    ensures RefreshChain(k, Some(id), claim, hops) == RefreshChain(k', next, NO_CLAIM, hops - 1)
    ensures Walk(GraphOf(k), Records(k), Prios(k), Some(id), claim, hops) ==
            Walk(GraphOf(k), Records(k), Prios(k'), next, NO_CLAIM, hops - 1)
    ensures Moved(k, k', first) && WalkEnd(k, Some(id), hops) == first + WalkEnd(k', next, hops - 1)
  {
    VisitIs(k, limbo, id, claim);
    k' := SetPriority(k, id, WantedPriority(k, id, claim)).k;
    first := if k.procs[id].state == Ready then [id] else [];
    PriorityOnlyGraph(k, k');
    PriorityOnlyFine(k, k');
    GraphEdges(k, limbo);
    next := NextInChain(k', id);
    assert next == Records(k)[id];
    hide Placed, Objects, SetPriority, WantedPriority, Wanted, Moved;
    StepEnds(k, k', id, hops);
  }

  lemma StepEnds(k: Kernel, k': Kernel, id: Pid, hops: nat)
    requires PriorityOnly(k, k') && id < |k.procs| && hops > 0
    ensures WalkEnd(k, Some(id), hops) ==
            (if k.procs[id].state == Ready then [id] else []) + WalkEnd(k', NextInChain(k', id), hops - 1)
  {
    PriorityOnlyChains(k, k');
    WalkEndSame(k, k', NextInChain(k, id), hops - 1);
    assert NextInChain(k', id) == NextInChain(k, id);
    hide PriorityOnly;
  }

  lemma ChainEnds(k: Kernel, cur: Option<Pid>, claim: nat, hops: nat)
    requires Shaped(GraphOf(k), Prios(k)) && (hops == 0 || cur.None?)
    ensures RefreshChain(k, cur, claim, hops) == Out(Ok, k) && PriorityOnly(k, k)
    ensures Walk(GraphOf(k), Records(k), Prios(k), cur, claim, hops) == Prios(k)
    ensures Moved(k, k, WalkEnd(k, cur, hops))
  {
    MovedNobody(k, k);
  }

  /** The kernel's bounded chain walk, seen on the arrays; in the queues, the READY process at
      which it ends goes to the tail of its level and nobody else moves. */
  lemma {:induction false} ChainIsWalk(k: Kernel, limbo: set<Pid>, cur: Option<Pid>, claim: nat, hops: nat)
      returns (r: Out)
    requires Placed(k, limbo) && Objects(k) && (cur.Some? ==> IsProc(k, cur.value))
    ensures Shaped(GraphOf(k), Prios(k)) && r == RefreshChain(k, cur, claim, hops)
    ensures r.st == Ok && Placed(r.k, limbo) && PriorityOnly(k, r.k)
    ensures Prios(r.k) == Walk(GraphOf(k), Records(k), Prios(k), cur, claim, hops)
    ensures Moved(k, r.k, WalkEnd(k, cur, hops))
    decreases hops
  {
    hide *;
    GraphShaped(k, limbo);
    if hops == 0 || cur.None? {
      ChainEnds(k, cur, claim, hops);
      r := Out(Ok, k);
    } else {
      var k', next, first := ChainStep(k, limbo, cur.value, claim, hops);
      r := ChainIsWalk(k', limbo, next, NO_CLAIM, hops - 1);
      PriorityOnlyTrans(k, k', r.k);
      MovedTrans(k, k', r.k, first, WalkEnd(k', next, hops - 1));
    }
  }

  /** Walking from the only process that may not be exact makes every process exact. */
  lemma RefreshRestores(k: Kernel, limbo: set<Pid>, o: Pid)
    requires Placed(k, limbo) && Objects(k) && IsProc(k, o) && Shaped(GraphOf(k), Prios(k))
    requires Over(GraphOf(k), Prios(k)) && Settled(GraphOf(k), Prios(k), {o})
    ensures var r := Refresh(k, Some(o), NO_CLAIM);
            r.st == Ok && Placed(r.k, limbo) && PriorityOnly(k, r.k) && Exact(r.k)
  {
    GraphEdges(k, limbo);
    var r := ChainIsWalk(k, limbo, Some(o), NO_CLAIM, |k.mutexes| + 1);
    PriorityOnlyGraph(k, r.k);
    hide Placed, Objects, RefreshChain, Walk;
    WalkRestores(GraphOf(k), Records(k), Owners(k), |k.mutexes|, Prios(k), o);
  }

  lemma RaisedOk(k: Kernel, o: Pid, claim: nat)
    requires Inv(k) && IsProc(k, o)
    ensures Shaped(GraphOf(k), Prios(k))
    ensures var r := Refresh(k, Some(o), claim);
            && r.st == Ok && Inv(r.k) && PriorityOnly(k, r.k)
            && Prios(r.k) == Walk(GraphOf(k), Records(k), Prios(k), Some(o), claim, |k.mutexes| + 1)
            && Moved(k, r.k, ChainEnd(k, Some(o)))
  {
    var w := ChainIsWalk(k, {}, Some(o), claim, |k.mutexes| + 1);
    PriorityOnlyFine(k, Refresh(k, Some(o), claim).k);
  }

  /** Taking back what was raised in vain. */
  lemma TakenBack(k: Kernel, o: Pid)
    requires Inv(k) && IsProc(k, o)
    ensures var r := Refresh(k, Some(o), NO_CLAIM).k;
            && Inv(r) && PriorityOnly(k, r) && Moved(k, r, ChainEnd(k, Some(o)))
            && (Shaped(GraphOf(k), Prios(k)) && Over(GraphOf(k), Prios(k)) && Settled(GraphOf(k), Prios(k), {o}) ==>
               Exact(r))
  {
    RaisedOk(k, o, NO_CLAIM);
    if Over(GraphOf(k), Prios(k)) && Settled(GraphOf(k), Prios(k), {o}) { RefreshRestores(k, {}, o); }
  }

  // ---------------------------------------------------------------- hand-off

  /** Mutex m without an owner, or passed on to its most urgent waiter. */
  ghost predicate PassedOn(k: Kernel, k': Kernel, m: nat)
    requires m < |k.mutexes|
  {
    if Waiters(k, OnMutex(m)) == [] then k' == WithOwner(k, m, None)
    else
      |k'.mutexes| == |k.mutexes| && k'.mutexes[m].owner.Some? &&
      var n := k'.mutexes[m].owner.value;
      MostUrgent(k, Waiters(k, OnMutex(m)), n) && Granted(k, k', OnMutex(m), n, Ok)
      && k'.mutexes == k.mutexes[m := k.mutexes[m].(owner := Some(n))] && k'.sems == k.sems && k'.channels == k.channels
  }

  lemma PassOnOk(k: Kernel, m: nat)
    requires Placed(k, {}) && m < |k.mutexes|
    ensures var r := PassOn(k, m); r.st == Ok && Placed(r.k, {}) && PassedOn(k, r.k, m)
  {
    var free := WithOwner(k, m, None);
    var h := OnMutex(m);
    RetouchedPlaced(k, free, {});
    TakeBestOk(free, {}, h);
    assert Waiters(free, h) == Waiters(k, h);
    if Waiters(k, h) != [] {
      var n := TakeBest(free, h).id;
      assert MostUrgent(k, Waiters(k, h), n);
      GrantOk(k, WithOwner(TakenOff(free, h, n), m, Some(n)), h, n, Ok);
    }
  }

  lemma PassedOnFine(k: Kernel, k': Kernel, m: nat)
    requires Placed(k, {}) && Objects(k) && m < |k.mutexes| && PassedOn(k, k', m)
    ensures Objects(k') && (Clocked(k) ==> Clocked(k'))
  {
    var h := OnMutex(m);
    if Waiters(k, h) == [] {
      assert forall g :: Waiters(k', g) == Waiters(k, g);
      forall g ensures ListFine(k', g) { assert ListFine(k, g); }
    } else {
      var n := k'.mutexes[m].owner.value;
      TakeWaiterOk(k, {}, h, n);
      assert ListOk(k, {}, h);
      RemoveFacts(Waiters(k, h), n);
      if Clocked(k) { GrantedClocked(k, k', h, n, Ok); }
      forall g ensures ListFine(k', g) { assert ListFine(k, g) && ListOk(k, {}, g); }
    }
    forall x: nat | x < |k'.mutexes| ensures MutexFine(k', x) { assert MutexFine(k, x) && ListFine(k, h); }
  }

  /** After a mutex of o was passed on, at most o is not exact. */
  lemma PassedOnGraph(k: Kernel, k': Kernel, m: nat, o: Pid)
    requires Placed(k, {}) && Placed(k', {}) && Objects(k) && Exact(k) && m < |k.mutexes| && PassedOn(k, k', m)
    requires k.mutexes[m].inUse && k.mutexes[m].owner == Some(o)
    ensures o < |k'.procs| && Shaped(GraphOf(k'), Prios(k'))
    ensures Over(GraphOf(k'), Prios(k')) && Settled(GraphOf(k'), Prios(k'), {o})
  {
    var g, g' := GraphOf(k), GraphOf(k');
    var h := OnMutex(m);
    assert MutexFine(k, m);
    GraphShaped(k', {});
    assert Prios(k') == Prios(k) && g'.base == g.base;
    if Waiters(k, h) == [] {
      forall i | 0 <= i < |k.procs| ensures g'.boss[i] == g.boss[i] {}
      assert g' == g;
    } else {
      var n := k'.mutexes[m].owner.value;
      TakeWaiterOk(k, {}, h, n);
      assert ListFine(k, h) && ListOk(k, {}, h);
      RemoveFacts(Waiters(k, h), n);
      var moved := set w | w in Waiters(k, h) && w != n;
      forall i | 0 <= i < |k.procs|
        ensures g'.boss[i] == if i == n then None else if i in moved then Some(n) else g.boss[i]
      {
        PassedOnBoss(k, k', m, n, i);
      }
      forall w | w in moved ensures w < |k.procs| && g.boss[w] == Some(o) && Prios(k)[n] <= Prios(k)[w] {
        BossIs(k, {}, m, w);
        UrgentIsLeast(k, Waiters(k, h), n, w);
      }
      BossIs(k, {}, m, n);
      HandOver(g, g', Prios(k), o, n, moved);
    }
  }

  lemma UrgentIsLeast(k: Kernel, l: seq<Pid>, n: Pid, w: Pid)
    requires MostUrgent(k, l, n) && w in l
    ensures n < |k.procs| && w < |k.procs| && k.procs[n].priority <= k.procs[w].priority
  {
  }

  lemma PassedOnBoss(k: Kernel, k': Kernel, m: nat, n: Pid, i: Pid)
    requires Placed(k, {}) && m < |k.mutexes| && PassedOn(k, k', m) && Waiters(k, OnMutex(m)) != []
             && k.mutexes[m].inUse
    requires k'.mutexes[m].owner == Some(n) && i < |k.procs|
    ensures Boss(k', i) == if i == n then None else if i in Waiters(k, OnMutex(m)) then Some(n) else Boss(k, i)
  {
    var h := OnMutex(m);
    assert ListOk(k, {}, h);
    RemoveFacts(Waiters(k, h), n);
  }

  /** Handing a mutex off keeps every invariant, and the best waiter gets the mutex. */
  lemma HandOffOk(k: Kernel, m: nat)
    requires Inv(k) && m < |k.mutexes| && k.mutexes[m].inUse && k.mutexes[m].owner.Some?
    ensures var r := HandOff(k, m); var p := PassOn(k, m).k;
            && r.st == Ok && Inv(r.k) && (Exact(k) ==> Exact(r.k))
            && PassedOn(k, p, m) && PriorityOnly(p, r.k) && Moved(p, r.k, ChainEnd(p, k.mutexes[m].owner))
  {
    var o := k.mutexes[m].owner.value;
    var p := PassOn(k, m).k;
    assert MutexFine(k, m);
    PassOnOk(k, m);
    PassedOnFine(k, p, m);
    assert IsProc(p, o);
    assert HandOff(k, m) == Out(Ok, Refresh(p, Some(o), NO_CLAIM).k);
    if Exact(k) { PassedOnGraph(k, p, m, o); }
    assert Inv(p);
    hide *;
    TakenBack(p, o);
  }

  /** The process that has mutex m, as a list of arrivals. */
  ghost function NewOwner(k: Kernel, m: nat): seq<Pid> {
    if m < |k.mutexes| && k.mutexes[m].owner.Some? then [k.mutexes[m].owner.value] else []
  }

  /** After a hand-off the new owner, if any, is last of its level, behind it the READY process
      at which the chain of the old owner ends, if it does; nobody else moved. */
  lemma HandOffQueues(k: Kernel, m: nat)
    requires Inv(k) && m < |k.mutexes| && k.mutexes[m].inUse && k.mutexes[m].owner.Some?
    ensures var r, p := HandOff(k, m).k, PassOn(k, m).k;
            Moved(k, r, NewOwner(r, m) + ChainEnd(p, k.mutexes[m].owner))
  {
    var r, p := HandOff(k, m).k, PassOn(k, m).k;
    HandOffOk(k, m);
    PassOnOk(k, m);
    assert Placed(k, {});
    hide HandOff, PassOn, Inv, Placed, Exact, Moved, MostUrgent;
    PassedOnMoves(k, p, m);
    assert r.mutexes == p.mutexes;
    MovedTrans(k, p, r, NewOwner(p, m), ChainEnd(p, k.mutexes[m].owner));
  }

  lemma PassedOnMoves(k: Kernel, p: Kernel, m: nat)
    requires Placed(k, {}) && m < |k.mutexes| && PassedOn(k, p, m)
    ensures Moved(k, p, NewOwner(p, m))
  {
    hide Placed, Moved, MostUrgent;
    if Waiters(k, OnMutex(m)) == [] {
      MovedNobody(k, p);
    } else {
      GrantedMoves(k, p, OnMutex(m), p.mutexes[m].owner.value, Ok);
    }
  }

  // ---------------------------------------------------------------- lock

  /** Locking m would make `id` the victim of a stale record: the walk that raises the owner
      comes back to it over a record that is not a wait, and drops the claim. */
  ghost predicate Lost(k: Kernel, m: nat, id: Pid)
    requires id < |k.procs|
  {
    && MutexOwner(k, m).Some? && MutexOwner(k, m).value < |k.procs|
    && LosesClaim(GraphOf(k), Records(k), |k.mutexes|, Prios(k), MutexOwner(k, m).value, k.procs[id].priority)
  }

  /** The owner raised for a running process about to wait: held at its priority, unless the
      claim is lost; the caller's own priority does not change. */
  lemma RaisedExact(k: Kernel, m: nat, o: Pid, id: Pid)
    requires Inv(k) && Exact(k) && IsProc(k, id) && k.procs[id].state == Running && MutexOwner(k, m) == Some(o)
             && IsProc(k, o)
    ensures var r := Refresh(k, Some(o), k.procs[id].priority).k; var c := k.procs[id].priority;
            && PriorityOnly(k, r) && Prios(r)[id] == c && Shaped(GraphOf(r), Prios(r))
            && Over(GraphOf(r), Prios(r)) && Settled(GraphOf(r), Prios(r), {o})
            && (if Lost(k, m, id) then Prios(r)[o] > c else Held(GraphOf(r), Prios(r), o, c))
  {
    var c := k.procs[id].priority;
    var r := Refresh(k, Some(o), c).k;
    RaisedOk(k, o, c);
    GraphEdges(k, {});
    PriorityOnlyGraph(k, r);
    assert Records(k)[id] == None;
    hide Placed, Objects, Walk, Refresh, Inv;
    var w := ClaimWalk(GraphOf(k), Records(k), Owners(k), |k.mutexes|, Prios(k), o, c);
    if Lost(k, m, id) {
      ClaimantUntouched(GraphOf(k), Records(k), |k.mutexes|, Prios(k), o, c, id);
    }
  }

  /** The wait graph after a running process started to wait on mutex m. */
  lemma WaitingGraph(k: Kernel, id: Pid, next: Pid, m: nat, wake: nat)
    requires Placed(k, {}) && IsProc(k, id) && k.procs[id].state == Running && k.procs[id].partition < |k.current|
             && next < |k.procs|
    requires next != id && MutexOwner(k, m).Some?
    ensures var k' := Waiting(k, id, next, OnMutex(m), wake, LockOp(m));
            && GraphOf(k').base == GraphOf(k).base && Prios(k') == Prios(k)
            && GraphOf(k').boss == GraphOf(k).boss[id := MutexOwner(k, m)]
            && GraphOf(k).boss[id] == None
  {
    var k' := Waiting(k, id, next, OnMutex(m), wake, LockOp(m));
    assert WaitOk(k, id) by { assert ProcOk(k, {}, id); }
    hide Placed;
    WaitingFrame(k, id, next, m, wake);
    hide Waiting;
    forall i: nat | i < |k.procs| ensures Boss(k', i) == if i == id then MutexOwner(k, m) else Boss(k, i) {
      WaitingBoss(k, k', id, m, i);
    }
    hide Boss;
    assert GraphOf(k').boss == GraphOf(k).boss[id := MutexOwner(k, m)];
    assert GraphOf(k').base == GraphOf(k).base;
    assert Prios(k') == Prios(k);
  }

  lemma WaitingFrame(k: Kernel, id: Pid, next: Pid, m: nat, wake: nat)
    requires id < |k.procs| && next < |k.procs| && next != id && k.procs[id].partition < |k.current|
    ensures var k' := Waiting(k, id, next, OnMutex(m), wake, LockOp(m));
            && |k'.procs| == |k.procs| && k'.mutexes == k.mutexes
            && (forall h :: Waiters(k', h) == if h == OnMutex(m) then Waiters(k, h) + [id] else Waiters(k, h))
            && forall i :: 0 <= i < |k.procs| ==>
                 && k'.procs[i].base == k.procs[i].base && k'.procs[i].priority == k.procs[i].priority
                 && k'.procs[i].waitlist == if i == id then OnMutex(m) else k.procs[i].waitlist
  {
  }

  lemma WaitingBoss(k: Kernel, k': Kernel, id: Pid, m: nat, i: Pid)
    requires id < |k.procs| && i < |k.procs| == |k'.procs| && k'.mutexes == k.mutexes
    requires k'.procs[i].waitlist == if i == id then OnMutex(m) else k.procs[i].waitlist
    requires forall h :: Waiters(k', h) == if h == OnMutex(m) then Waiters(k, h) + [id] else Waiters(k, h)
    ensures Boss(k', i) == if i == id then MutexOwner(k, m) else Boss(k, i)
  {
  }

  predicate MutexFor(k: Kernel, m: nat, id: Pid) {
    m < |k.mutexes| && k.mutexes[m].inUse && IsProc(k, id) && k.mutexes[m].partition == k.procs[id].partition
  }

  /** The caller of a lock has to wait, and can: the mutex is held by another process, the
      wake tick can be represented, the wait list has room and somebody else can run. */
  ghost predicate LockWaits(k: Kernel, m: nat, timeout: nat, id: Pid) {
    && MutexFor(k, m, id) && k.mutexes[m].owner.Some? && k.mutexes[m].owner != Some(id)
    && timeout != 0 && TickAfter(k, timeout).0 == Ok && |Waiters(k, OnMutex(m))| < WAITLIST_MAX
    && k.procs[id].partition < |k.halted| && !k.halted[k.procs[id].partition]
    && exists i :: Candidate(k, k.procs[id].partition, i)
  }

  /** The lock gets as far as raising the owner of the mutex. */
  predicate Raises(k: Kernel, m: nat, timeout: nat, id: Pid) {
    && MutexFor(k, m, id) && k.mutexes[m].owner.Some? && k.mutexes[m].owner != Some(id)
    && timeout != 0 && TickAfter(k, timeout).0 == Ok
  }

  lemma FreeMutexTaken(k: Kernel, m: nat, id: Pid)
    requires Inv(k) && MutexFor(k, m, id) && k.mutexes[m].owner.None?
    ensures var k' := WithOwner(k, m, Some(id)); Inv(k') && (Exact(k') <==> Exact(k))
  {
    var k' := WithOwner(k, m, Some(id));
    RetouchedPlaced(k, k', {});
    assert ListFine(k, OnMutex(m));
    forall g ensures ListFine(k', g) { assert ListFine(k, g) && Waiters(k', g) == Waiters(k, g); }
    forall x: nat | x < |k'.mutexes| ensures MutexFine(k', x) { assert MutexFine(k, x); }
    forall i | 0 <= i < |k'.procs| ensures ClockOk(k', k'.procs[i]) { assert ClockOk(k, k.procs[i]); }
    forall i: nat | i < |k.procs| ensures Boss(k', i) == Boss(k, i) {}
    assert GraphOf(k').boss == GraphOf(k).boss && GraphOf(k').base == GraphOf(k).base;
    assert Prios(k') == Prios(k);
  }

  lemma OwnerIsProc(k: Kernel, m: nat)
    requires Inv(k) && m < |k.mutexes| && k.mutexes[m].owner.Some?
    ensures k.mutexes[m].inUse && IsProc(k, k.mutexes[m].owner.value)
  {
    assert MutexFine(k, m);
  }

  lemma RaisedSame(k: Kernel, raised: Kernel, id: Pid)
    requires PriorityOnly(k, raised) && id < |k.procs|
    ensures |raised.procs| == |k.procs| && raised.procs[id] == k.procs[id].(priority := raised.procs[id].priority)
            && raised.mutexes == k.mutexes
  {
  }

  lemma MayWaitForMutex(k: Kernel, m: nat, id: Pid)
    requires MutexFor(k, m, id) && k.mutexes[m].owner.Some? && k.mutexes[m].owner != Some(id)
    ensures MayWait(k, id, OnMutex(m), LockOp(m))
  {
  }

  lemma LockBlocks(k: Kernel, m: nat, timeout: nat, id: Pid) returns (raised: Kernel, b: Sel)
    requires Inv(k) && MutexFor(k, m, id) && k.procs[id].state == Running && k.mutexes[m].owner.Some?
             && k.mutexes[m].owner != Some(id)
    requires TickAfter(k, timeout).0 == Ok
    ensures IsProc(k, k.mutexes[m].owner.value)
    ensures raised == Refresh(k, k.mutexes[m].owner, k.procs[id].priority).k && Inv(raised) && PriorityOnly(k, raised)
    ensures b == BlockCurrent(raised, id, OnMutex(m), TickAfter(k, timeout).1, LockOp(m))
    ensures LockWait(k, m, timeout, id) ==
            Sel(if b.st == Ok then Pending else if b.st == QueueEmpty then TimedOut else b.st, b.k, b.next)
    ensures Inv(b.k) && b.st in {Ok, PoolFull, PartitionHalted, QueueEmpty} && (b.st != Ok ==> Touched(raised, b.k, id))
    ensures b.st !in {Ok, PoolFull} ==> b.k.procs[id].op == NoOp
    ensures b.st == PoolFull ==> b.k.procs[id].op == LockOp(m)
    ensures b.st == PoolFull <==> |Waiters(k, OnMutex(m))| >= WAITLIST_MAX
    ensures |raised.procs| == |k.procs| && id < |raised.procs|
    ensures b.st == Ok ==> StartedWait(raised, b, id, OnMutex(m), TickAfter(k, timeout).1, LockOp(m))
    ensures b.st == Ok <==> |Waiters(k, OnMutex(m))| < WAITLIST_MAX && CanBlock(raised, k.procs[id].partition)
  {
    hide BlockCurrent, RefreshChain, Placed, Objects, Clocked, MayWait, CanBlock, NoneAbove, Waiting, Touched;
    var o := k.mutexes[m].owner.value;
    OwnerIsProc(k, m);
    RaisedOk(k, o, k.procs[id].priority);
    raised := Refresh(k, Some(o), k.procs[id].priority).k;
    RaisedSame(k, raised, id);
    assert Waiters(raised, OnMutex(m)) == Waiters(k, OnMutex(m));
    MayWaitForMutex(raised, m, id);
    var wake := TickAfter(k, timeout).1;
    b := BlockCurrent(raised, id, OnMutex(m), wake, LockOp(m));
    BlockCurrentInv(raised, id, OnMutex(m), wake, LockOp(m));
    BlockCurrentOk(raised, id, OnMutex(m), wake, LockOp(m));
  }

  lemma WaitsIffCanBlock(k: Kernel, raised: Kernel, m: nat, timeout: nat, id: Pid)
    requires Inv(k) && MutexFor(k, m, id) && k.procs[id].state == Running && k.mutexes[m].owner.Some?
             && k.mutexes[m].owner != Some(id)
    requires timeout != 0 && TickAfter(k, timeout).0 == Ok && Placed(raised, {}) && PriorityOnly(k, raised)
    ensures |Waiters(k, OnMutex(m))| < WAITLIST_MAX && CanBlock(raised, k.procs[id].partition) <==>
            LockWaits(k, m, timeout, id)
  {
    assert k.procs[id].partition < |k.halted| by { assert ProcOk(k, {}, id); }
    CanBlockIs(raised, k.procs[id].partition);
    hide Inv, Placed, CanBlock, TickAfter;
    forall i ensures Candidate(raised, k.procs[id].partition, i) <==> Candidate(k, k.procs[id].partition, i) {}
  }

  /** Lock on a mutex held by another process, computed. */
  lemma LockIs(k: Kernel, m: nat, timeout: nat, id: Pid)
    requires MutexFor(k, m, id) && k.mutexes[m].owner.Some? && k.mutexes[m].owner != Some(id) && timeout != 0
    ensures var r := Lock(k, m, timeout, id); var w := LockWait(k, m, timeout, id);
            r == if w.st == Pending then w else Sel(w.st, Refresh(w.k, MutexOwner(w.k, m), NO_CLAIM).k, None)
    ensures TickAfter(k, timeout).0 != Ok ==> LockWait(k, m, timeout, id) == Sel(TickAfter(k, timeout).0, k, None)
  {
  }

  /** Raising and blocking for a mutex: the invariant holds on every path, and the equation
      too unless the wait started and its claim was lost. */
  lemma LockWaitOk(k: Kernel, m: nat, timeout: nat, id: Pid)
    requires Inv(k) && MutexFor(k, m, id) && k.procs[id].state == Running && k.mutexes[m].owner.Some?
             && k.mutexes[m].owner != Some(id)
    requires timeout != 0
    ensures var r := Lock(k, m, timeout, id);
            && Inv(r.k) && (r.st == Pending <==> LockWaits(k, m, timeout, id))
            && (Exact(k) ==> (Exact(r.k) <==> !(r.st == Pending && Lost(k, m, id))))
  {
    var o := k.mutexes[m].owner.value;
    var r := Lock(k, m, timeout, id);
    assert MutexFine(k, m);
    assert MutexOwner(k, m) == Some(o) && IsProc(k, o);
    LockIs(k, m, timeout, id);
    if TickAfter(k, timeout).0 != Ok {
      hide *;
      LockOverflows(k, m, timeout, id, o, r);
    } else {
      var raised, b := LockBlocks(k, m, timeout, id);
      assert Placed(raised, {});
      assert b.st != Ok ==> MutexOwner(b.k, m) == Some(o);
      hide *;
      WaitsIffCanBlock(k, raised, m, timeout, id);
      if b.st == Ok {
        assert r.k == b.k && r.st == Pending;
        if Exact(k) { LockWaitingExact(k, raised, b, m, timeout, id); }
      } else {
        assert r.st != Pending && r.k == Refresh(b.k, Some(o), NO_CLAIM).k;
        LockRefusedExact(k, raised, b.k, m, id);
      }
    }
  }

  lemma LockOverflows(k: Kernel, m: nat, timeout: nat, id: Pid, o: Pid, r: Sel)
    requires Inv(k) && IsProc(k, o) && TickAfter(k, timeout).0 != Ok
    requires r == Sel(TickAfter(k, timeout).0, Refresh(k, Some(o), NO_CLAIM).k, None)
    ensures Inv(r.k) && r.st != Pending && !LockWaits(k, m, timeout, id)
    ensures Exact(k) ==> Exact(r.k)
  {
    hide Refresh, Inv;
    TakenBack(k, o);
  }

  lemma LockRefusedExact(k: Kernel, raised: Kernel, b: Kernel, m: nat, id: Pid)
    requires Inv(k) && MutexFor(k, m, id) && k.procs[id].state == Running && k.mutexes[m].owner.Some?
             && IsProc(k, k.mutexes[m].owner.value)
    requires raised == Refresh(k, k.mutexes[m].owner, k.procs[id].priority).k && PriorityOnly(k, raised)
    requires Inv(b) && Touched(raised, b, id)
    ensures var r := Refresh(b, k.mutexes[m].owner, NO_CLAIM).k; Inv(r) && (Exact(k) ==> Exact(r))
  {
    var o := k.mutexes[m].owner.value;
    assert IsProc(b, o);
    hide Inv, Refresh, Stable;
    if Exact(k) {
      RaisedExact(k, m, o, id);
      TouchedGraph(raised, b, id);
    }
    TakenBack(b, o);
  }

  lemma LockWaitingExact(k: Kernel, raised: Kernel, b: Sel, m: nat, timeout: nat, id: Pid)
    requires Inv(k) && Exact(k) && MutexFor(k, m, id) && k.procs[id].state == Running && k.mutexes[m].owner.Some?
             && IsProc(k, k.mutexes[m].owner.value)
    requires raised == Refresh(k, k.mutexes[m].owner, k.procs[id].priority).k && Inv(raised) && PriorityOnly(k, raised)
    requires Inv(b.k) && StartedWait(raised, b, id, OnMutex(m), TickAfter(k, timeout).1, LockOp(m))
    ensures Exact(b.k) <==> !Lost(k, m, id)
  {
    var o := k.mutexes[m].owner.value;
    RaisedExact(k, m, o, id);
    assert raised.procs[id].partition == k.procs[id].partition && raised.procs[id].state == Running;
    assert Placed(raised, {});
    GraphShaped(b.k, {});
    hide Refresh, Inv, Placed, Lost, Waiting, Held, Over, Settled;
    WaitingGraph(raised, id, b.next.value, m, TickAfter(k, timeout).1);
    Joins(GraphOf(raised), GraphOf(b.k), Prios(raised), id, o);
  }

  /** Lock keeps every invariant. It keeps the inheritance equation in every case but one:
      the caller starts to wait and its claim is lost over a stale record. */
  lemma LockOk(k: Kernel, m: nat, timeout: nat, id: Pid)
    requires Inv(k) && IsProc(k, id) && k.procs[id].state == Running
    ensures var r := Lock(k, m, timeout, id);
            && Inv(r.k) && (r.st == Pending <==> LockWaits(k, m, timeout, id))
            && (Exact(k) ==> (Exact(r.k) <==> !(LockWaits(k, m, timeout, id) && Lost(k, m, id))))
  {
    if MutexFor(k, m, id) && k.mutexes[m].owner != Some(id) && (k.mutexes[m].owner.None? || timeout != 0) {
      hide Inv, Exact, Lost;
      if k.mutexes[m].owner.None? { FreeMutexTaken(k, m, id); } else { hide Lock; LockWaitOk(k, m, timeout, id); }
    }
  }

  /** Nothing but effective priorities, queue positions, operation records and the due bound changed. */
  ghost predicate Untouched(k: Kernel, k': Kernel) {
    && k'.mutexes == k.mutexes && k'.sems == k.sems && k'.channels == k.channels && k'.current == k.current
    && |k'.procs| == |k.procs|
    && (forall h :: Waiters(k', h) == Waiters(k, h))
    && forall i :: 0 <= i < |k.procs| ==>
       k'.procs[i] == k.procs[i].(priority := k'.procs[i].priority, op := k'.procs[i].op)
  }

  /** The caller is at the tail of the mutex's wait list and somebody nobody READY outranks runs. */
  ghost predicate NowWaiting(k: Kernel, r: Sel, m: nat, timeout: nat, id: Pid) {
    && id < |k.procs| && |r.k.procs| == |k.procs| && k.procs[id].partition < |k.current|
    && r.next.Some? && r.next.value < |k.procs| && NoneAbove(r.k, k.procs[id].partition, r.next.value)
    && r.k.current == k.current[k.procs[id].partition := r.next]
    && Waiters(r.k, OnMutex(m)) == Waiters(k, OnMutex(m)) + [id]
    && (forall h :: h != OnMutex(m) ==> Waiters(r.k, h) == Waiters(k, h))
    && r.k.procs[id] == k.procs[id].(state := Blocked, waitlist := OnMutex(m), op := LockOp(m),
       wakeTick := TickAfter(k, timeout).1, priority := r.k.procs[id].priority)
    && r.k.mutexes == k.mutexes && r.k.sems == k.sems && r.k.channels == k.channels
  }

  /** What lock tells its caller, and what it leaves behind in each case. */
  lemma LockOutcome(k: Kernel, m: nat, timeout: nat, id: Pid)
    requires Inv(k) && IsProc(k, id) && k.procs[id].state == Running
    ensures var r := Lock(k, m, timeout, id);
            && (r.st == Ok <==> MutexFor(k, m, id) && k.mutexes[m].owner.None?)
            && (r.st == Ok ==> r.k == k.(mutexes := k.mutexes[m := k.mutexes[m].(owner := Some(id))]))
            && (r.st == InvalidId <==> !MutexFor(k, m, id))
            && (r.st == InvalidState <==> MutexFor(k, m, id) && k.mutexes[m].owner == Some(id))
            && (r.st in {InvalidId, InvalidState} || (timeout == 0 && r.st != Ok) ==> r.k == k)
            && (r.st == Pending ==> NowWaiting(k, r, m, timeout, id))
            && (r.st !in {Ok, Pending} ==> Untouched(k, r.k))
            && (r.st !in {Ok, Pending, PoolFull} ==> id < |r.k.procs| && r.k.procs[id].op in {k.procs[id].op, NoOp})
            && (r.st == PoolFull <==> Raises(k, m, timeout, id) && |Waiters(k, OnMutex(m))| >= WAITLIST_MAX)
            && (r.st == PoolFull ==> id < |r.k.procs| && r.k.procs[id].op == LockOp(m))
  {
    if MutexFor(k, m, id) && k.mutexes[m].owner != Some(id) && k.mutexes[m].owner.Some? && timeout != 0 {
      LockOutcomeHeld(k, m, timeout, id);
    }
  }

  lemma LockOutcomeHeld(k: Kernel, m: nat, timeout: nat, id: Pid)
    requires Inv(k) && MutexFor(k, m, id) && k.procs[id].state == Running && k.mutexes[m].owner.Some?
             && k.mutexes[m].owner != Some(id) && timeout != 0
    ensures var r := Lock(k, m, timeout, id);
            && r.st !in {Ok, InvalidId, InvalidState}
            && (r.st == Pending ==> NowWaiting(k, r, m, timeout, id))
            && (r.st != Pending ==> Untouched(k, r.k))
            && (r.st !in {Pending, PoolFull} ==> id < |r.k.procs| && r.k.procs[id].op in {k.procs[id].op, NoOp})
            && (r.st == PoolFull <==> TickAfter(k, timeout).0 == Ok && |Waiters(k, OnMutex(m))| >= WAITLIST_MAX)
            && (r.st == PoolFull ==> id < |r.k.procs| && r.k.procs[id].op == LockOp(m))
  {
    hide Inv, Lock, LockWait, RefreshChain, BlockCurrent, NoneAbove, Waiting, NowWaiting;
    var o := k.mutexes[m].owner.value;
    OwnerIsProc(k, m);
    LockIs(k, m, timeout, id);
    if TickAfter(k, timeout).0 != Ok {
      TakenBack(k, o);
    } else {
      var raised, b := LockBlocks(k, m, timeout, id);
      if b.st != Ok {
        RefusedUntouched(k, raised, b.k, o, id);
      } else {
        StartedWaits(k, raised, b, m, timeout, id);
        assert Lock(k, m, timeout, id).st == Pending;
      }
    }
  }

  lemma RefusedUntouched(k: Kernel, raised: Kernel, b: Kernel, o: Pid, id: Pid)
    requires PriorityOnly(k, raised) && Touched(raised, b, id) && Inv(b) && IsProc(k, o)
    ensures var r := Refresh(b, Some(o), NO_CLAIM).k;
            Untouched(k, r) && |r.procs| == |b.procs| && r.procs[id].op == b.procs[id].op
  {
    hide Inv, Refresh;
    TakenBack(b, o);
    var r := Refresh(b, Some(o), NO_CLAIM).k;
    forall i | 0 <= i < |k.procs|
      ensures r.procs[i] == k.procs[i].(priority := r.procs[i].priority, op := r.procs[i].op)
    {
      assert raised.procs[i] == k.procs[i].(priority := raised.procs[i].priority);
      assert b.procs[i] == raised.procs[i].(op := b.procs[i].op);
      assert r.procs[i] == b.procs[i].(priority := r.procs[i].priority);
    }
    forall h ensures Waiters(r, h) == Waiters(k, h) { assert Waiters(b, h) == Waiters(raised, h); }
  }

  lemma StartedWaits(k: Kernel, raised: Kernel, b: Sel, m: nat, timeout: nat, id: Pid)
    requires PriorityOnly(k, raised) && IsProc(k, id) && k.procs[id].state == Running
    requires StartedWait(raised, b, id, OnMutex(m), TickAfter(k, timeout).1, LockOp(m))
    ensures NowWaiting(k, Sel(Pending, b.k, b.next), m, timeout, id)
  {
    hide NoneAbove, TickAfter;
  }

  /** The lock of a mutex that another process holds, which gets as far as walking the chain of
      the owner. */
  predicate WalksChain(k: Kernel, m: nat, timeout: nat, id: Pid) {
    MutexFor(k, m, id) && k.mutexes[m].owner.Some? && k.mutexes[m].owner != Some(id) && timeout != 0
  }

  /** With its owner's chain raised and requeued, the caller started to wait and the first of
      the most urgent level took its place. */
  ghost predicate WaitsBehind(k: Kernel, r: Sel, m: nat, timeout: nat, id: Pid) {
    exists mid: Kernel :: PriorityOnly(k, mid) && Moved(k, mid, ChainEnd(k, MutexOwner(k, m)))
      && StartedWait(mid, r, id, OnMutex(m), TickAfter(k, timeout).1, LockOp(m))
  }

  /** What a lock does to the ready queues: nothing, unless it walks the chain of the owner.
      Then the READY process at which the chain ends goes to the tail of its level - also when
      the lock is refused and no priority changes - and if the caller waits, the first of the
      most urgent level leaves the queue for the CPU. */
  lemma LockQueues(k: Kernel, m: nat, timeout: nat, id: Pid)
    requires Inv(k) && IsProc(k, id) && k.procs[id].state == Running
    ensures var r := Lock(k, m, timeout, id);
            && (!WalksChain(k, m, timeout, id) ==> r.k.ready == k.ready)
            && (WalksChain(k, m, timeout, id) && r.st != Pending ==> Moved(k, r.k, ChainEnd(k, MutexOwner(k, m))))
            && (r.st == Pending ==> WalksChain(k, m, timeout, id) && WaitsBehind(k, r, m, timeout, id))
  {
    if WalksChain(k, m, timeout, id) {
      hide Lock;
      WalkQueues(k, m, timeout, id);
    }
  }

  lemma WalkQueues(k: Kernel, m: nat, timeout: nat, id: Pid)
    requires Inv(k) && WalksChain(k, m, timeout, id) && k.procs[id].state == Running
    ensures var r := Lock(k, m, timeout, id);
            && (r.st != Pending ==> Moved(k, r.k, ChainEnd(k, MutexOwner(k, m))))
            && (r.st == Pending ==> WaitsBehind(k, r, m, timeout, id))
  {
    hide Inv, Lock, LockWait, RefreshChain, BlockCurrent, NoneAbove, Waiting, Moved, WalkEnd, Touched, PriorityOnly,
         CanBlock;
    var o := k.mutexes[m].owner.value;
    OwnerIsProc(k, m);
    LockIs(k, m, timeout, id);
    if TickAfter(k, timeout).0 != Ok {
      TakenBack(k, o);
    } else {
      var raised, b := LockBlocks(k, m, timeout, id);
      RaisedOk(k, o, k.procs[id].priority);
      if b.st == Ok {
        assert StartedWait(raised, Lock(k, m, timeout, id), id, OnMutex(m), TickAfter(k, timeout).1, LockOp(m));
      } else {
        RaisedSame(k, raised, id);
        TouchedOwner(raised, b.k, id);
        OwnerIsProc(b.k, m);
        TakenBack(b.k, o);
        WalkedTwice(k, raised, b.k, Refresh(b.k, Some(o), NO_CLAIM).k, o, id);
      }
    }
  }

  /** Raising in vain and taking it back requeues the end of the chain twice, which shows once. */
  lemma WalkedTwice(k: Kernel, raised: Kernel, b: Kernel, r: Kernel, o: Pid, id: Pid)
    requires PriorityOnly(k, raised) && Touched(raised, b, id) && id < |k.procs| && k.procs[id].state == Running
    requires Moved(k, raised, ChainEnd(k, Some(o))) && Moved(b, r, ChainEnd(b, Some(o)))
    ensures Moved(k, r, ChainEnd(k, Some(o)))
  {
    var e := ChainEnd(k, Some(o));
    PriorityOnlyChains(k, raised);
    RaisedSame(k, raised, id);
    TouchedChains(raised, b, id);
    WalkEndSame(k, raised, Some(o), |k.mutexes| + 1);
    WalkEndSame(raised, b, Some(o), |k.mutexes| + 1);
    forall s ensures Queue(b, s) == Queue(raised, s) {}
    forall x: Pid | x < |raised.procs| ensures PlaceOf(b, x) == PlaceOf(raised, x) {}
    hide Moved, PriorityOnly, Touched, WalkEnd;
    MovedSame(k, raised, b, e);
    MovedTrans(k, b, r, e, e);
    MovedTwice(k, r, e);
  }

  lemma LockFramed(k: Kernel, m: nat, timeout: nat, id: Pid)
    requires Inv(k) && IsProc(k, id) && k.procs[id].state == Running
    ensures Framed(k, Lock(k, m, timeout, id).k, id)
  {
    if MutexFor(k, m, id) && k.mutexes[m].owner != Some(id) && k.mutexes[m].owner.Some? && timeout != 0 {
      hide Lock;
      LockHeldFramed(k, m, timeout, id);
    }
  }

  lemma LockHeldFramed(k: Kernel, m: nat, timeout: nat, id: Pid)
    requires Inv(k) && MutexFor(k, m, id) && k.procs[id].state == Running && k.mutexes[m].owner.Some?
             && k.mutexes[m].owner != Some(id) && timeout != 0
    ensures Framed(k, Lock(k, m, timeout, id).k, id)
  {
    hide Inv, Lock, LockWait, Refresh, BlockCurrent, PriorityOnly, Framed, Soft, Waiting, NoneAbove, CanBlock;
    var o := k.mutexes[m].owner.value;
    OwnerIsProc(k, m);
    LockIs(k, m, timeout, id);
    StaysFramed(k, id);
    if TickAfter(k, timeout).0 != Ok {
      TakenBackFramed(k, k, o, id);
    } else {
      var raised, b := LockBlocks(k, m, timeout, id);
      SoftKinds(k, raised);
      StaysFramed(raised, id);
      SoftThenFramed(k, raised, raised, id);
      if b.st == Ok {
        RaisedSame(k, raised, id);
        WaitingFramed(raised, id, b.next.value, OnMutex(m), TickAfter(k, timeout).1, LockOp(m));
        FramedTrans(k, raised, b.k, id);
      } else {
        TouchedFramed(raised, b.k, id);
        FramedTrans(k, raised, b.k, id);
        TouchedOwner(raised, b.k, id);
        OwnerIsProc(b.k, m);
        RaisedSame(k, raised, id);
        TakenBackFramed(k, b.k, o, id);
      }
    }
  }

  lemma TouchedOwner(k: Kernel, k': Kernel, id: Pid)
    requires Touched(k, k', id)
    ensures k'.mutexes == k.mutexes
  {
  }

  lemma StaysFramed(k: Kernel, id: Pid)
    ensures Framed(k, k, id)
  {
  }

  lemma TakenBackFramed(k: Kernel, b: Kernel, o: Pid, id: Pid)
    requires Framed(k, b, id) && Inv(b) && IsProc(b, o)
    ensures Framed(k, Refresh(b, Some(o), NO_CLAIM).k, id)
  {
    hide Inv, Refresh, Framed, PriorityOnly, Soft;
    TakenBack(b, o);
    SoftKinds(b, Refresh(b, Some(o), NO_CLAIM).k);
    FramedThenSoft(k, b, Refresh(b, Some(o), NO_CLAIM).k, id);
  }

  /** The owner of m waits, directly or through a chain, for a deadlocked process that is less
      urgent than id. */
  ghost predicate DeadlockBehind(k: Kernel, m: nat, id: Pid)
    requires id < |k.procs|
  {
    && MutexOwner(k, m).Some? && MutexOwner(k, m).value < |k.procs|
    && DeadlockAhead(GraphOf(k), Prios(k), MutexOwner(k, m).value, k.procs[id].priority)
  }

  /** A refused lock takes back everything it raised, unless the owner it raised leads into a
      deadlock of less urgent processes: these, and only these, stay raised. */
  lemma RefusedLockRestores(k: Kernel, m: nat, timeout: nat, id: Pid)
    requires Inv(k) && Exact(k) && IsProc(k, id) && k.procs[id].state == Running
    requires Lock(k, m, timeout, id).st != Pending
    ensures Prios(Lock(k, m, timeout, id).k) == Prios(k) <==> !(Raises(k, m, timeout, id) && DeadlockBehind(k, m, id))
  {
    if MutexFor(k, m, id) && k.mutexes[m].owner.Some? && k.mutexes[m].owner != Some(id) && timeout != 0 {
      hide Lock;
      if TickAfter(k, timeout).0 == Ok {
        RefusedAfterRaising(k, m, timeout, id);
      } else {
        RefusedBefore(k, m, timeout, id);
      }
    }
  }

  lemma RefusedBefore(k: Kernel, m: nat, timeout: nat, id: Pid)
    requires Inv(k) && Exact(k) && MutexFor(k, m, id) && k.mutexes[m].owner.Some? && k.mutexes[m].owner != Some(id)
             && timeout != 0
    requires TickAfter(k, timeout).0 != Ok && Lock(k, m, timeout, id).st != Pending
    ensures Prios(Lock(k, m, timeout, id).k) == Prios(k)
  {
    hide Inv, Lock, Refresh, Walk, Stable;
    var o := k.mutexes[m].owner.value;
    OwnerIsProc(k, m);
    LockIs(k, m, timeout, id);
    RaisedOk(k, o, NO_CLAIM);
    WalkIdles(GraphOf(k), Records(k), Prios(k), Some(o), |k.mutexes| + 1);
  }

  lemma RefusedAfterRaising(k: Kernel, m: nat, timeout: nat, id: Pid)
    requires Inv(k) && Exact(k) && Raises(k, m, timeout, id) && k.procs[id].state == Running
             && Lock(k, m, timeout, id).st != Pending
    ensures Prios(Lock(k, m, timeout, id).k) == Prios(k) <==> !DeadlockBehind(k, m, id)
  {
    hide Inv, Exact, Lock, LockWait, RefreshChain, BlockCurrent, NoneAbove, Waiting, Touched, CanBlock, PriorityOnly,
         DeadlockAhead, Walk;
    var o := k.mutexes[m].owner.value;
    OwnerIsProc(k, m);
    LockIs(k, m, timeout, id);
    var raised, b := LockBlocks(k, m, timeout, id);
    RaisedOk(k, o, k.procs[id].priority);
    TouchedOwner(raised, b.k, id);
    RaisedSame(k, raised, id);
    OwnerIsProc(b.k, m);
    LockOk(k, m, timeout, id);
    RefusedPrios(k, raised, b.k, o, k.procs[id].priority, id);
  }

  lemma RefusedPrios(k: Kernel, raised: Kernel, b: Kernel, o: Pid, c: nat, id: Pid)
    requires Inv(k) && Exact(k) && IsProc(k, o) && raised == Refresh(k, Some(o), c).k && PriorityOnly(k, raised)
    requires Inv(b) && Touched(raised, b, id) && IsProc(b, o) && |b.mutexes| == |k.mutexes|
             && Exact(Refresh(b, Some(o), NO_CLAIM).k)
    ensures Prios(Refresh(b, Some(o), NO_CLAIM).k) == Prios(k) <==> !DeadlockAhead(GraphOf(k), Prios(k), o, c)
  {
    hide Refresh, Inv, DeadlockAhead, Walk, Stable, Touched, PriorityOnly;
    RaisedOk(k, o, c);
    RaisedOk(b, o, NO_CLAIM);
    PriorityOnlyGraph(k, raised);
    TouchedGraph(raised, b, id);
    var r := Refresh(b, Some(o), NO_CLAIM).k;
    PriorityOnlyGraph(b, r);
    InvGraph(k);
    TakenBackExactly(GraphOf(k), Records(k), Owners(k), |k.mutexes|, Prios(k), o, c, Records(b), Prios(r));
  }

  lemma InvGraph(k: Kernel)
    requires Inv(k)
    ensures Edges(GraphOf(k), Records(k), Owners(k)) && |Owners(k)| <= |k.mutexes| && InRange(GraphOf(k).boss)
  {
    GraphEdges(k, {});
  }

  /** Waiting for an owner that is urgent enough already changes no priority. */
  lemma UrgentOwnerStays(k: Kernel, m: nat, timeout: nat, id: Pid)
    requires Inv(k) && Exact(k) && IsProc(k, id) && k.procs[id].state == Running && LockWaits(k, m, timeout, id)
    requires k.mutexes[m].owner.Some? && k.mutexes[m].owner.value < |k.procs|
             && k.procs[k.mutexes[m].owner.value].priority <= k.procs[id].priority
    ensures !Lost(k, m, id) && Prios(Lock(k, m, timeout, id).k) == Prios(k)
  {
    hide *;
    LockWaitsMeans(k, m, timeout, id);
    NotLost(k, m, id);
    var o := k.mutexes[m].owner.value;
    OwnerIsProc(k, m);
    LockOk(k, m, timeout, id);
    LockIs(k, m, timeout, id);
    var raised, b := LockBlocks(k, m, timeout, id);
    RaisedOk(k, o, k.procs[id].priority);
    InvGraph(k);
    ExactIsStable(k);
    var r := ClaimWalk(GraphOf(k), Records(k), Owners(k), |k.mutexes|, Prios(k), o, k.procs[id].priority);
    StartedPrios(raised, b, id, OnMutex(m), TickAfter(k, timeout).1, LockOp(m));
  }

  lemma LockWaitsMeans(k: Kernel, m: nat, timeout: nat, id: Pid)
    requires LockWaits(k, m, timeout, id)
    ensures m < |k.mutexes| && MutexFor(k, m, id) && k.mutexes[m].owner.Some? && k.mutexes[m].owner != Some(id)
            && timeout != 0
    ensures MutexOwner(k, m) == k.mutexes[m].owner && TickAfter(k, timeout).0 == Ok
    ensures id < |k.procs|
  {
  }

  lemma NotLost(k: Kernel, m: nat, id: Pid)
    requires id < |k.procs| && MutexOwner(k, m).Some? && MutexOwner(k, m).value < |k.procs|
    requires k.procs[MutexOwner(k, m).value].priority <= k.procs[id].priority
    ensures !Lost(k, m, id)
  {
  }

  lemma StartedPrios(k: Kernel, r: Sel, id: Pid, h: ListId, wake: nat, op: Op)
    requires StartedWait(k, r, id, h, wake, op)
    ensures Prios(r.k) == Prios(k)
  {
    hide NoneAbove;
  }

  /** When a claim is lost, the new waiter is the only process held up by a less urgent one;
      the next walk from the owner it waits for puts every priority right again. */
  lemma LostClaimIsLocal(k: Kernel, m: nat, timeout: nat, id: Pid)
    requires Inv(k) && Exact(k) && IsProc(k, id) && k.procs[id].state == Running && LockWaits(k, m, timeout, id)
             && Lost(k, m, id)
    ensures var r, o := Lock(k, m, timeout, id).k, MutexOwner(k, m);
            && |r.procs| == |k.procs| && o.Some? && o.value < |k.procs|
            && r.procs[o.value].priority > r.procs[id].priority
            && Shaped(GraphOf(r), Prios(r)) && OverBut(GraphOf(r), Prios(r), id)
            && Inv(Refresh(r, o, NO_CLAIM).k) && Exact(Refresh(r, o, NO_CLAIM).k)
  {
    hide *;
    LockWaitsMeans(k, m, timeout, id);
    var o := k.mutexes[m].owner.value;
    OwnerIsProc(k, m);
    LockOk(k, m, timeout, id);
    LockIs(k, m, timeout, id);
    var raised, b := LockBlocks(k, m, timeout, id);
    RaisedExact(k, m, o, id);
    RaisedSame(k, raised, id);
    LostJoins(k, raised, b, m, timeout, id, o);
    RepairedAfter(b.k, id, o);
  }

  lemma LostJoins(k: Kernel, raised: Kernel, b: Sel, m: nat, timeout: nat, id: Pid, o: Pid)
    requires Inv(raised) && Inv(b.k) && id < |raised.procs| && raised.procs[id].state == Running && o < |raised.procs|
    requires raised.mutexes == k.mutexes && MutexOwner(k, m) == Some(o)
    requires Shaped(GraphOf(raised), Prios(raised)) && Over(GraphOf(raised), Prios(raised))
             && Settled(GraphOf(raised), Prios(raised), {o})
    requires Prios(raised)[o] > Prios(raised)[id]
    requires StartedWait(raised, b, id, OnMutex(m), TickAfter(k, timeout).1, LockOp(m))
    ensures |b.k.procs| == |raised.procs| && Shaped(GraphOf(b.k), Prios(b.k)) && OverBut(GraphOf(b.k), Prios(b.k), id)
    ensures Settled(GraphOf(b.k), Prios(b.k), {o}) && GraphOf(b.k).boss[id] == Some(o)
    ensures b.k.procs[o].priority > b.k.procs[id].priority && IsProc(b.k, o)
  {
    assert Placed(raised, {}) && MutexOwner(raised, m) == Some(o);
    OwnerIsProc(b.k, m);
    GraphShaped(b.k, {});
    hide Inv, Placed, Waiting, Over, Settled, OverBut, NoneAbove, TickAfter;
    WaitingGraph(raised, id, b.next.value, m, TickAfter(k, timeout).1);
    JoinsInVain(GraphOf(raised), GraphOf(b.k), Prios(raised), id, o);
    assert Prios(b.k)[o] == Prios(raised)[o] && Prios(b.k)[id] == Prios(raised)[id];
  }

  lemma RepairedAfter(k: Kernel, h: Pid, o: Pid)
    requires Inv(k) && IsProc(k, o) && h < |k.procs| && Shaped(GraphOf(k), Prios(k))
    requires OverBut(GraphOf(k), Prios(k), h) && Settled(GraphOf(k), Prios(k), {o}) && GraphOf(k).boss[h] == Some(o)
    ensures Inv(Refresh(k, Some(o), NO_CLAIM).k) && Exact(Refresh(k, Some(o), NO_CLAIM).k)
  {
    hide Inv, Refresh, OverBut, Settled, Stable, Walk, PriorityOnly, Edges;
    RaisedOk(k, o, NO_CLAIM);
    InvGraph(k);
    var r := Refresh(k, Some(o), NO_CLAIM).k;
    PriorityOnlyGraph(k, r);
    WalkRepairs(GraphOf(k), Records(k), Owners(k), |k.mutexes|, Prios(k), h, o);
  }

  // ---------------------------------------------------------------- unlock and release

  /** Unlock keeps every invariant and the inheritance equation; it succeeds exactly for the
      owner, and then the mutex is free or with its most urgent waiter. */
  lemma UnlockOk(k: Kernel, m: nat, id: Pid)
    requires Inv(k)
    ensures var r := Unlock(k, m, id);
            && Inv(r.k) && (Exact(k) ==> Exact(r.k))
            && (r.st == Ok <==> MutexFor(k, m, id) && k.mutexes[m].owner == Some(id))
            && (r.st != Ok ==> r.k == k && r.st == if MutexFor(k, m, id) then InvalidState else InvalidId)
            && (r.st == Ok ==>
               PassedOn(k, PassOn(k, m).k, m) && PriorityOnly(PassOn(k, m).k, r.k) && Released(k, r.k, id, m, m + 1))
            && Framed(k, r.k, id)
  {
    StaysFramed(k, id);
    if MutexFor(k, m, id) && k.mutexes[m].owner == Some(id) {
      hide HandOff, PassOn, Exact, PriorityOnly, PassedOn;
      HandOffOk(k, m);
      HandOffReleases(k, PassOn(k, m).k, HandOff(k, m).k, id, m);
    }
  }

  /** A running process that unlocks a mutex puts its new owner, if any, at the tail of its
      level; nobody else moves. */
  lemma UnlockQueues(k: Kernel, m: nat, id: Pid)
    requires Inv(k) && IsProc(k, id) && k.procs[id].state == Running
    ensures var r := Unlock(k, m, id); Moved(k, r.k, if r.st == Ok then NewOwner(r.k, m) else [])
  {
    hide HandOff, PassOn, Moved, Inv;
    if MutexFor(k, m, id) && k.mutexes[m].owner == Some(id) {
      HandOffQueues(k, m);
      HandOffOk(k, m);
      RunningEndsNowhere(k, PassOn(k, m).k, m, id);
      assert NewOwner(HandOff(k, m).k, m) + [] == NewOwner(HandOff(k, m).k, m);
    } else {
      MovedNobody(k, k);
    }
  }

  lemma RunningEndsNowhere(k: Kernel, p: Kernel, m: nat, id: Pid)
    requires Inv(k) && m < |k.mutexes| && PassedOn(k, p, m) && id < |k.procs| && k.procs[id].state == Running
    ensures ChainEnd(p, Some(id)) == []
  {
    if Waiters(k, OnMutex(m)) != [] {
      var n := p.mutexes[m].owner.value;
      assert ListOk(k, {}, OnMutex(m));
      assert n != id;
    }
    assert p.procs[id] == k.procs[id] && NextInChain(p, id) == None;
    assert WalkEnd(p, None, |p.mutexes|) == [];
  }

  /** Mutex x is free and nobody waits for it, or one of its waiters has it. */
  ghost predicate GivenAway(k: Kernel, k': Kernel, x: nat)
    requires x < |k.mutexes| && x < |k'.mutexes|
  {
    var l, l' := Waiters(k, OnMutex(x)), Waiters(k', OnMutex(x));
    var o := k'.mutexes[x].owner;
    && k'.mutexes[x] == k.mutexes[x].(owner := o)
    && if l == [] then o == None && l' == [] else o.Some? && o.value in l && l' == Remove(l, o.value)
  }

  /** ... and that waiter was the most urgent one (the longest waiting among equals) when the
      mutexes from m up to x had been passed on. */
  ghost predicate GivenToBest(k: Kernel, k': Kernel, id: Pid, m: nat, x: nat)
    requires x < |k.mutexes| && x < |k'.mutexes|
  {
    var l, o := Waiters(k, OnMutex(x)), k'.mutexes[x].owner;
    GivenAway(k, k', x) && (l != [] ==> o.Some? && MostUrgent(ReleaseFrom(k, id, m, x), l, o.value))
  }

  /** Process id gave away exactly the mutexes it owned among those from m up to n. */
  ghost predicate Released(k: Kernel, k': Kernel, id: Pid, m: nat, n: nat) {
    && |k'.mutexes| == |k.mutexes| && |k'.procs| == |k.procs| && id < |k.procs|
    && k'.procs[id] == k.procs[id].(priority := k'.procs[id].priority) && Framed(k, k', id)
    && k' == k.(procs := k'.procs, ready := k'.ready, lists := k'.lists, mutexes := k'.mutexes)
    && (forall h: ListId :: !h.OnMutex? ==> Waiters(k', h) == Waiters(k, h))
    && (forall x: nat :: |k.mutexes| <= x ==> Waiters(k', OnMutex(x)) == Waiters(k, OnMutex(x)))
    && forall x :: 0 <= x < |k.mutexes| ==> MutexReleased(k, k', id, x, m, n)
  }

  ghost predicate MutexReleased(k: Kernel, k': Kernel, id: Pid, x: nat, m: nat, n: nat)
    requires x < |k.mutexes| == |k'.mutexes|
  {
    if m <= x < n && MutexOwner(k, x) == Some(id) then GivenToBest(k, k', id, m, x)
    else k'.mutexes[x] == k.mutexes[x] && Waiters(k', OnMutex(x)) == Waiters(k, OnMutex(x))
  }

  lemma ReleasedTrans(a: Kernel, b: Kernel, c: Kernel, id: Pid, m: nat, n: nat)
    requires Released(a, b, id, m, m + 1) && Released(b, c, id, m + 1, n) && m < n
    requires forall x :: m < x ==> ReleaseFrom(a, id, m, x) == ReleaseFrom(b, id, m + 1, x)
    ensures Released(a, c, id, m, n)
  {
    assert Framed(a, c, id) by { FramedTrans(a, b, c, id); }
    hide Framed, ReleaseFrom, MostUrgent;
    forall x | 0 <= x < |a.mutexes| ensures MutexReleased(a, c, id, x, m, n) {
      assert MutexReleased(a, b, id, x, m, m + 1) && MutexReleased(b, c, id, x, m + 1, n);
    }
    forall h: ListId | !h.OnMutex? ensures Waiters(c, h) == Waiters(a, h) { assert Waiters(b, h) == Waiters(a, h); }
    forall x: nat | |a.mutexes| <= x ensures Waiters(c, OnMutex(x)) == Waiters(a, OnMutex(x)) {
      assert Waiters(b, OnMutex(x)) == Waiters(a, OnMutex(x));
    }
  }

  lemma HandOffFramed(k: Kernel, p: Kernel, k': Kernel, id: Pid, m: nat)
    requires Placed(k, {}) && m < |k.mutexes| && PassedOn(k, p, m) && PriorityOnly(p, k')
    ensures Framed(k, k', id)
  {
    if Waiters(k, OnMutex(m)) != [] {
      GrantedFramed(k, p, OnMutex(m), p.mutexes[m].owner.value, id);
    }
    assert Framed(k, p, id);
    hide Framed, PassedOn, Placed;
    SoftKinds(p, k');
    FramedThenSoft(k, p, k', id);
  }

  /** Nobody waits for a mutex of its own. */
  lemma WaitersAreOthers(k: Kernel, m: nat, id: Pid, n: Pid)
    requires Objects(k) && MutexOwner(k, m) == Some(id) && n in Waiters(k, OnMutex(m))
    ensures n != id
  {
    assert ListFine(k, OnMutex(m));
    assert MemberOk(k, OnMutex(m), n);
  }

  lemma HandOffReleases(k: Kernel, p: Kernel, k': Kernel, id: Pid, m: nat)
    requires Placed(k, {}) && Objects(k) && MutexOwner(k, m) == Some(id) && id < |k.procs|
    requires PassedOn(k, p, m) && PriorityOnly(p, k')
    ensures Released(k, k', id, m, m + 1)
  {
    hide Framed, Placed, Objects, MostUrgent;
    HandOffFramed(k, p, k', id, m);
    assert ReleaseFrom(k, id, m, m) == k;
    hide ReleaseFrom;
    var h := OnMutex(m);
    if Waiters(k, h) != [] {
      WaitersAreOthers(k, m, id, p.mutexes[m].owner.value);
    }
    assert forall g :: Waiters(k', g) == Waiters(p, g);
    assert k'.procs[id] == p.procs[id].(priority := k'.procs[id].priority);
  }

  lemma NothingReleased(k: Kernel, id: Pid, m: nat, n: nat)
    requires id < |k.procs| && forall x :: m <= x < n && x < |k.mutexes| ==> MutexOwner(k, x) != Some(id)
    ensures Released(k, k, id, m, n)
  {
  }

  /** Who is requeued when process id gives its mutexes from m on away, in index order: the new
      owner of each, and the READY process at which the chain of id then ends. */
  ghost function ReleaseArrivals(k: Kernel, id: Pid, m: nat, n: nat): seq<Pid>
    decreases n - m
  {
    if m >= n || m >= |k.mutexes| then []
    else if k.mutexes[m].inUse && k.mutexes[m].owner == Some(id) then
      var h := HandOff(k, m).k;
      NewOwner(h, m) + ChainEnd(PassOn(k, m).k, Some(id)) + ReleaseArrivals(h, id, m + 1, n)
    else ReleaseArrivals(k, id, m + 1, n)
  }

  lemma {:induction false} ReleaseFromOk(k: Kernel, id: Pid, m: nat) returns (r: Kernel)
    requires Inv(k) && id < |k.procs| && m <= |k.mutexes|
    ensures r == ReleaseFrom(k, id, m, |k.mutexes|) && Inv(r) && (Exact(k) ==> Exact(r))
    ensures Released(k, r, id, m, |k.mutexes|) && Moved(k, r, ReleaseArrivals(k, id, m, |k.mutexes|))
    decreases |k.mutexes| - m
  {
    hide Inv, Exact, Released, Moved, HandOff, PassOn;
    if m == |k.mutexes| {
      NothingReleased(k, id, m, m);
      MovedNobody(k, k);
      r := k;
    } else {
      var k' := ReleaseStep(k, id, m);
      assert |k'.mutexes| == |k.mutexes| && id < |k'.procs| by {
        assert Released(k, k', id, m, m + 1); ReleasedSizes(k, k', id, m, m + 1);
      }
      r := ReleaseFromOk(k', id, m + 1);
      ReleasedTrans(k, k', r, id, m, |k.mutexes|);
      if k.mutexes[m].inUse && k.mutexes[m].owner == Some(id) {
        HandOffQueues(k, m);
        MovedTrans(k, k', r, NewOwner(k', m) + ChainEnd(PassOn(k, m).k, Some(id)),
          ReleaseArrivals(k', id, m + 1, |k.mutexes|));
      }
    }
  }

  lemma ReleasedSizes(k: Kernel, k': Kernel, id: Pid, m: nat, n: nat)
    requires Released(k, k', id, m, n)
    ensures |k'.mutexes| == |k.mutexes| && |k'.procs| == |k.procs|
  {
  }

  lemma ReleaseStep(k: Kernel, id: Pid, m: nat) returns (k': Kernel)
    requires Inv(k) && id < |k.procs| && m < |k.mutexes|
    ensures forall x :: m < x ==> ReleaseFrom(k, id, m, x) == ReleaseFrom(k', id, m + 1, x)
    ensures k' == if k.mutexes[m].inUse && k.mutexes[m].owner == Some(id) then HandOff(k, m).k else k
    ensures Inv(k') && (Exact(k) ==> Exact(k')) && Released(k, k', id, m, m + 1)
  {
    if k.mutexes[m].inUse && k.mutexes[m].owner == Some(id) {
      hide HandOff, Exact, Released;
      k' := HandOff(k, m).k;
      HandOffOk(k, m);
      HandOffReleases(k, PassOn(k, m).k, k', id, m);
    } else {
      k' := k;
      NothingReleased(k, id, m, m + 1);
    }
  }

  /** Handing a mutex off leaves the priorities of the waiters for the owner's other mutexes
      alone: nothing leads from the owner to them, unless they are deadlocked with it. */
  lemma HandOffSpares(k: Kernel, m: nat, id: Pid, w: Pid)
    requires Inv(k) && Exact(k) && m < |k.mutexes| && k.mutexes[m].inUse && k.mutexes[m].owner == Some(id)
    requires w < |k.procs| && Boss(k, w) == Some(id) && k.procs[w].waitlist != OnMutex(m)
    ensures var r := HandOff(k, m).k;
            && |r.procs| == |k.procs| && r.procs[w].priority == k.procs[w].priority
            && r.procs[w].waitlist == k.procs[w].waitlist
            && Boss(r, w) == Some(id)
  {
    hide *;
    var p := PassOn(k, m).k;
    HandOffIs(k, m, id);
    PassedOnSpares(k, p, m, id, w);
    RaisedOk(p, id, NO_CLAIM);
    InvGraph(p);
    var r := Refresh(p, Some(id), NO_CLAIM).k;
    PriorityOnlyGraph(p, r);
    SparedOutside(GraphOf(p), w, id);
    WalkSpares(GraphOf(p), Records(p), Prios(p), Some(id), |p.mutexes| + 1, {id}, w);
    SparedRecord(p, r, w);
  }

  lemma HandOffIs(k: Kernel, m: nat, id: Pid)
    requires Inv(k) && Exact(k) && m < |k.mutexes| && k.mutexes[m].inUse && k.mutexes[m].owner == Some(id)
    ensures var p := PassOn(k, m).k;
            && HandOff(k, m).k == Refresh(p, Some(id), NO_CLAIM).k && Inv(p) && IsProc(p, id) && PassedOn(k, p, m)
            && Shaped(GraphOf(p), Prios(p)) && Over(GraphOf(p), Prios(p)) && Settled(GraphOf(p), Prios(p), {id})
  {
    hide Exact, PassOn, Refresh, PassedOn;
    var p := PassOn(k, m).k;
    OwnerIsProc(k, m);
    PassOnOk(k, m);
    PassedOnFine(k, p, m);
    PassedOnGraph(k, p, m, id);
    PassedOnProcs(k, p, m, id);
  }

  lemma PassedOnProcs(k: Kernel, p: Kernel, m: nat, id: Pid)
    requires m < |k.mutexes| && PassedOn(k, p, m) && IsProc(k, id)
    ensures IsProc(p, id)
  {
  }

  lemma PassedOnSpares(k: Kernel, p: Kernel, m: nat, id: Pid, w: Pid)
    requires Inv(k) && m < |k.mutexes| && PassedOn(k, p, m) && k.mutexes[m].inUse && k.mutexes[m].owner == Some(id)
    requires w < |k.procs| && Boss(k, w) == Some(id) && k.procs[w].waitlist != OnMutex(m)
    ensures |p.procs| == |k.procs| && p.procs[w] == k.procs[w] && Boss(p, w) == Some(id)
  {
    assert ListOk(k, {}, OnMutex(m));
    if Waiters(k, OnMutex(m)) != [] {
      var n := p.mutexes[m].owner.value;
      PassedOnBoss(k, p, m, n, w);
    }
  }

  lemma SparedOutside(g: Graph, w: nat, id: nat)
    requires w < |g.boss| && g.boss[w] == Some(id)
    ensures Outside(g, {id}, w) || OnRealCycle(g, w)
  {
    if n: nat :| Iter(g.boss, id, n) == Some(w) {
      assert Iter(g.boss, w, n + 1) == Iter(g.boss, id, n);
    }
  }

  lemma SparedRecord(p: Kernel, r: Kernel, w: Pid)
    requires PriorityOnly(p, r) && w < |p.procs| && Prios(r)[w] == Prios(p)[w] && GraphOf(r) == GraphOf(p)
    ensures |r.procs| == |p.procs| && r.procs[w].priority == p.procs[w].priority
            && r.procs[w].waitlist == p.procs[w].waitlist
    ensures Boss(r, w) == Boss(p, w)
  {
    assert GraphOf(r).boss[w] == GraphOf(p).boss[w];
  }

  /** Passing on the mutexes from m up to x leaves the priorities of all who wait for a later
      mutex of the same owner alone. */
  lemma {:induction false} ReleaseSpares(k: Kernel, id: Pid, m: nat, x: nat, w: Pid)
    requires Inv(k) && Exact(k) && m <= x < |k.mutexes| && id < |k.procs| && w < |k.procs|
    requires Boss(k, w) == Some(id) && k.procs[w].waitlist == OnMutex(x)
    ensures var r := ReleaseFrom(k, id, m, x); |r.procs| == |k.procs| && r.procs[w].priority == k.procs[w].priority
    decreases x - m
  {
    hide Inv, Exact, Boss, Released;
    if m < x {
      var k' := ReleaseStep(k, id, m);
      ReleasedSizes(k, k', id, m, m + 1);
      if k.mutexes[m].inUse && k.mutexes[m].owner == Some(id) { HandOffSpares(k, m, id, w); }
      hide HandOff;
      ReleaseSpares(k', id, m + 1, x, w);
    }
  }

  lemma SameUrgency(k: Kernel, k': Kernel, l: seq<Pid>, b: Pid)
    requires MostUrgent(k', l, b) && |k'.procs| == |k.procs|
    requires forall w :: w in l ==> w < |k.procs| && k'.procs[w].priority == k.procs[w].priority
    ensures MostUrgent(k, l, b)
  {
    var x: nat :| x < |l| && l[x] == b && UrgentAt(k', l, x);
    forall j | 0 <= j < |l|
      ensures l[j] < |k.procs| && k'.procs[l[j]].priority == k.procs[l[j]].priority
    {
      assert l[j] in l;
    }
    assert UrgentAt(k, l, x);
  }

  /** With exact inheritance the best waiter can be told before anything is passed on. */
  lemma BestAtOnce(k: Kernel, r: Kernel, id: Pid, x: nat)
    requires Inv(k) && Exact(k) && id < |k.procs| && x < |k.mutexes| == |r.mutexes| && MutexOwner(k, x) == Some(id)
    requires GivenToBest(k, r, id, 0, x) && Waiters(k, OnMutex(x)) != []
    ensures r.mutexes[x].owner.Some? && MostUrgent(k, Waiters(k, OnMutex(x)), r.mutexes[x].owner.value)
  {
    hide Inv, Exact, ReleaseFrom, MostUrgent, Boss;
    var l := Waiters(k, OnMutex(x));
    var before := ReleaseFrom(k, id, 0, x);
    WaitersWait(k, x);
    forall w | w in l ensures |before.procs| == |k.procs| && before.procs[w].priority == k.procs[w].priority {
      ReleaseSpares(k, id, 0, x, w);
    }
    assert |before.procs| == |k.procs| by { assert l[0] in l; }
    SameUrgency(k, before, l, r.mutexes[x].owner.value);
  }

  lemma WaitersWait(k: Kernel, x: nat)
    requires Inv(k)
    ensures forall w :: w in Waiters(k, OnMutex(x)) ==>
              w < |k.procs| && k.procs[w].waitlist == OnMutex(x) && Boss(k, w) == MutexOwner(k, x)
  {
    assert ListOk(k, {}, OnMutex(x));
  }

  /** Releasing everything: the process owns nothing afterwards; each mutex it held is free and
      unwanted, or went to its best waiter - best when its turn came, and with exact inheritance
      best from the start; and nothing else but priorities changed. */
  lemma ReleaseAllOk(k: Kernel, id: Pid) returns (r: Kernel)
    requires Inv(k) && id < |k.procs|
    ensures r == ReleaseAll(k, id) && Inv(r) && (Exact(k) ==> Exact(r))
    ensures Released(k, r, id, 0, |k.mutexes|) && Moved(k, r, ReleaseArrivals(k, id, 0, |k.mutexes|))
    ensures forall x: nat :: x < |r.mutexes| ==> MutexOwner(r, x) != Some(id)
    ensures Exact(k) ==> forall x: nat :: x < |k.mutexes| && MutexOwner(k, x) == Some(id) ==> BestTakes(k, r, x)
  {
    r := ReleaseFromOk(k, id, 0);
    ReleasedOwners(k, r, id);
    if Exact(k) {
      forall x: nat | x < |k.mutexes| && MutexOwner(k, x) == Some(id) ensures BestTakes(k, r, x) {
        assert MutexReleased(k, r, id, x, 0, |k.mutexes|);
        hide Inv, Exact, Released, ReleaseFrom, MostUrgent;
        if Waiters(k, OnMutex(x)) != [] { BestAtOnce(k, r, id, x); }
      }
    }
  }

  /** Mutex x is with the process that is its best waiter in k, if anybody waits for it there. */
  ghost predicate BestTakes(k: Kernel, r: Kernel, x: nat) {
    Waiters(k, OnMutex(x)) != [] ==>
      x < |r.mutexes| && r.mutexes[x].owner.Some? && MostUrgent(k, Waiters(k, OnMutex(x)), r.mutexes[x].owner.value)
  }

  lemma ReleasedOwners(k: Kernel, r: Kernel, id: Pid)
    requires Inv(k) && Released(k, r, id, 0, |k.mutexes|)
    ensures forall x: nat :: x < |r.mutexes| ==> MutexOwner(r, x) != Some(id)
  {
    forall x: nat | x < |r.mutexes| ensures MutexOwner(r, x) != Some(id) {
      assert MutexReleased(k, r, id, x, 0, |k.mutexes|);
      assert ListFine(k, OnMutex(x));
      if MutexOwner(k, x) == Some(id) && Waiters(k, OnMutex(x)) != [] {
        assert MemberOk(k, OnMutex(x), r.mutexes[x].owner.value);
      }
    }
  }

  // ---------------------------------------------------------------- refreshing everybody

  /** The index-order pass over all mutexes, seen on the arrays. */
  lemma {:induction false} RefreshFromIs(k: Kernel, limbo: set<Pid>, m: nat) returns (r: Kernel)
    requires Placed(k, limbo) && Objects(k) && m <= |k.mutexes|
    ensures r == RefreshFrom(k, m, |k.mutexes|) && Placed(r, limbo) && Objects(r) && PriorityOnly(k, r)
            && Shaped(GraphOf(k), Prios(k))
    ensures Prios(r) == Sweep(GraphOf(k), Records(k), Prios(k), Holders(k), |k.mutexes| + 1, m)
    ensures Moved(k, r, SweepEnds(k, m))
    decreases |k.mutexes| - m
  {
    assert Shaped(GraphOf(k), Prios(k)) by { GraphShaped(k, limbo); }
    hide Placed, Objects, Walk, Moved, Shaped, GraphOf, Prios, Records, Holders, MutexOwner, ChainEnd;
    if m == |k.mutexes| {
      r := k;
      SweptAll(k, m);
    } else {
      var k' := RefreshStep(k, limbo, m);
      PriorityOnlyGraph(k, k');
      SameMutexes(k, k');
      r := RefreshFromIs(k', limbo, m + 1);
      PriorityOnlyTrans(k, k', r);
      SweptOn(k, k', r, m);
    }
  }

  lemma SweptAll(k: Kernel, m: nat)
    requires m == |k.mutexes| && Shaped(GraphOf(k), Prios(k))
    ensures PriorityOnly(k, k) && Moved(k, k, SweepEnds(k, m)) && |Holders(k)| == m
    ensures Prios(k) == Sweep(GraphOf(k), Records(k), Prios(k), Holders(k), m + 1, m)
  {
    MovedNobody(k, k);
  }

  lemma SameMutexes(k: Kernel, k': Kernel)
    requires PriorityOnly(k, k')
    ensures |k'.mutexes| == |k.mutexes| == |Holders(k)|
  {
  }

  lemma SweptOn(k: Kernel, k': Kernel, r: Kernel, m: nat)
    requires PriorityOnly(k, k') && m < |k.mutexes| && Moved(k, k', ChainEnd(k, MutexOwner(k, m)))
             && Moved(k', r, SweepEnds(k', m + 1))
    ensures Moved(k, r, SweepEnds(k, m))
  {
    hide Moved, PriorityOnly, SameChains, ChainEnd;
    PriorityOnlyChains(k, k');
    SweepEndsSame(k, k', m + 1);
    MovedTrans(k, k', r, ChainEnd(k, MutexOwner(k, m)), SweepEnds(k', m + 1));
  }

  lemma RefreshStep(k: Kernel, limbo: set<Pid>, m: nat) returns (k': Kernel)
    requires Placed(k, limbo) && Objects(k) && m < |k.mutexes| && Shaped(GraphOf(k), Prios(k))
    ensures k' == if k.mutexes[m].inUse && k.mutexes[m].owner.Some? then Refresh(k, k.mutexes[m].owner, NO_CLAIM).k
            else k
    ensures Placed(k', limbo) && Objects(k') && PriorityOnly(k, k')
    ensures Prios(k') == Walk(GraphOf(k), Records(k), Prios(k), Holders(k)[m], NO_CLAIM, |Holders(k)| + 1)
    ensures Moved(k, k', ChainEnd(k, MutexOwner(k, m)))
  {
    hide Moved;
    if k.mutexes[m].inUse && k.mutexes[m].owner.Some? {
      assert MutexFine(k, m);
      hide Placed, Objects, RefreshChain, Walk, Shaped, GraphOf;
      var r := ChainIsWalk(k, limbo, k.mutexes[m].owner, NO_CLAIM, |k.mutexes| + 1);
      k' := r.k;
      PriorityOnlyFine(k, k');
    } else {
      k' := k;
      MovedNobody(k, k);
    }
  }

  /** One pass suffices: whatever number of waiters left, if nobody is too unimportant and
      only mutex owners and the processes they wait for can be too urgent, a single
      index-order pass makes every process exact. In the queues, the READY processes at which
      the owners' chains end go to the tails of their levels, in the order of the mutexes. */
  lemma RefreshPrioritiesOk(k: Kernel, limbo: set<Pid>) returns (r: Kernel)
    requires Placed(k, limbo) && Objects(k)
    ensures r == RefreshPriorities(k) && Placed(r, limbo) && Objects(r) && PriorityOnly(k, r)
            && (Clocked(k) ==> Clocked(r)) && Moved(k, r, SweepEnds(k, 0))
    ensures Shaped(GraphOf(k), Prios(k))
    ensures Over(GraphOf(k), Prios(k)) && Settled(GraphOf(k), Prios(k), Owners(k)) ==> Exact(r)
  {
    r := RefreshFromIs(k, limbo, 0);
    PriorityOnlyGraph(k, r);
    PriorityOnlyFine(k, r);
    GraphEdges(k, limbo);
    forall m: nat | m < |k.mutexes| && Holders(k)[m].Some?
      ensures Holders(k)[m].value < |Prios(k)|
    {
      assert MutexFine(k, m);
    }
    if Over(GraphOf(k), Prios(k)) && Settled(GraphOf(k), Prios(k), Owners(k)) {
      hide Placed, Objects, Clocked, Sweep, Over, Settled, Stable;
      SweepSettles(GraphOf(k), Records(k), Owners(k), Prios(k), Holders(k), |k.mutexes| + 1, 0);
    }
  }

  /** A walk that takes a priority back, from the one owner who may have become too urgent, is
      never cut short: however many more hops were allowed, every process would end with the
      same priority. */
  lemma HopsSuffice(k: Kernel, limbo: set<Pid>, o: Pid, more: nat)
    requires Placed(k, limbo) && Objects(k) && IsProc(k, o) && Shaped(GraphOf(k), Prios(k))
    requires Over(GraphOf(k), Prios(k)) && Settled(GraphOf(k), Prios(k), {o})
    ensures Prios(RefreshChain(k, Some(o), NO_CLAIM, |k.mutexes| + 1 + more).k) ==
            Prios(Refresh(k, Some(o), NO_CLAIM).k)
  {
    hide Placed, Objects, RefreshChain, Walk, Over, Settled, Edges, PriorityOnly, InRange;
    GraphEdges(k, limbo);
    var a := ChainIsWalk(k, limbo, Some(o), NO_CLAIM, |k.mutexes| + 1 + more);
    var b := ChainIsWalk(k, limbo, Some(o), NO_CLAIM, |k.mutexes| + 1);
    BoundIsEnough(GraphOf(k), Records(k), Owners(k), |k.mutexes|, Prios(k), o, more);
  }

  /** The exact priority of a process that is not deadlocked is the least base priority among the
      process and everybody who waits for it, directly or through a chain. */
  lemma InheritedPriority(k: Kernel, i: Pid)
    requires Inv(k) && Exact(k) && i < |k.procs| && !OnRealCycle(GraphOf(k), i)
    ensures forall w: nat, n: nat :: w < |k.procs| && Iter(GraphOf(k).boss, w, n) == Some(i) ==>
            k.procs[i].priority <= k.procs[w].base
    ensures exists w: nat, n: nat ::
            w < |k.procs| && Iter(GraphOf(k).boss, w, n) == Some(i) && k.procs[i].priority == k.procs[w].base
  {
    GraphEdges(k, {});
    hide Inv, Exact;
    assert Stable(GraphOf(k), Prios(k)) by { ExactIsStable(k); }
    hide Stable, OnRealCycle;
    ClosedForm(GraphOf(k), Prios(k), i);
    var w: nat, n: nat :| w < |Prios(k)| && Iter(GraphOf(k).boss, w, n) == Some(i) && Prios(k)[i] == GraphOf(k).base[w];
    assert Iter(GraphOf(k).boss, w, n) == Some(i) && k.procs[i].priority == k.procs[w].base;
  }

  lemma ExactIsStable(k: Kernel)
    requires Exact(k)
    ensures Shaped(GraphOf(k), Prios(k)) && Stable(GraphOf(k), Prios(k))
  {
  }
}

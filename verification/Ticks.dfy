/** The tick: expiry of IPC waits, timed and periodic releases, deadline supervision, the
    bound that gates these scans, and the dispatch that ends the tick. */
module Ticks {
  import opened Wrappers
  import opened KernelState
  import opened Order
  import opened Placement
  import opened KernelCalls
  import opened Invariants
  import opened Blocking
  import opened Arrivals
  import opened Mutexes
  import opened Timing
  import opened Inheritance
  import Frame

  // ---------------------------------------------------------------- expiry of IPC waits

  /** Nobody is too unimportant; only mutex owners may be too urgent. */
  ghost predicate Loose(k: Kernel) {
    && Shaped(GraphOf(k), Prios(k)) && Over(GraphOf(k), Prios(k))
    && forall y :: 0 <= y < |k.procs| && y !in Owners(k) ==> Tight(GraphOf(k), Prios(k), y)
  }

  lemma LooseIsSettled(k: Kernel)
    ensures Exact(k) ==> Loose(k)
    ensures Loose(k) ==> Settled(GraphOf(k), Prios(k), Owners(k))
  {
    if Loose(k) {
      forall y | 0 <= y < |k.procs| && Outside(GraphOf(k), Owners(k), y) ensures Tight(GraphOf(k), Prios(k), y) {
        assert Iter(GraphOf(k).boss, y, 0) == Some(y);
      }
    }
  }

  /** A waiter that gave up: its owner may now be too urgent, nobody else is affected. */
  lemma LeftLoose(k: Kernel, k': Kernel, h: ListId, n: Pid)
    requires Placed(k, {}) && Objects(k) && Placed(k', {}) && Granted(k, k', h, n, TimedOut) && k'.mutexes == k.mutexes
    ensures Loose(k) ==> Loose(k')
  {
    TakeWaiterOk(k, {}, h, n);
    GraphShaped(k', {});
    forall i: nat | i < |k.procs| ensures Boss(k', i) == if i == n then None else Boss(k, i) {
      assert ListOk(k, {}, k.procs[i].waitlist) && ListOk(k, {}, h);
      RemoveFacts(Waiters(k, h), n);
    }
    assert Prios(k') == Prios(k) && GraphOf(k').base == GraphOf(k).base && Holders(k') == Holders(k);
    GraphEdges(k, {});
    if Loose(k) {
      hide Placed, Objects, Granted;
      Departures(GraphOf(k), GraphOf(k'), Prios(k), Owners(k));
    }
  }

  /** What the expiry scan does to one process. */
  function ExpiredPcb(c: Pcb, now: nat): Pcb {
    if c.state == Blocked && c.waitlist != NoList && c.wakeTick != TICK_NONE && now >= c.wakeTick then
      Resumed(c, TimedOut) else c
  }

  lemma ExpireOneOk(k: Kernel, i: Pid, now: nat) returns (s: Scan)
    requires Inv(k) && i < |k.procs|
    ensures s == ExpireOne(k, i, now) && Inv(s.k) && (Loose(k) ==> Loose(s.k))
            && (!s.mutexWaiterLeft && Exact(k) ==> Exact(s.k))
    ensures s.mutexWaiterLeft <==> Expired(k, i, now) && k.procs[i].op.LockOp?
    ensures Moved(k, s.k, if Expired(k, i, now) then [i] else [])
    ensures s.k == k.(procs := k.procs[i := ExpiredPcb(k.procs[i], now)], ready := s.k.ready, lists := s.k.lists)
    ensures forall h :: Waiters(s.k, h) == if Expired(k, i, now) then Remove(Waiters(k, h), i) else Waiters(k, h)
  {
    s := ExpireOne(k, i, now);
    if Expired(k, i, now) {
      s := ExpiryGrants(k, i, now);
    } else {
      assert k.procs[i := k.procs[i]] == k.procs;
      MovedNobody(k, k);
    }
  }

  lemma ExpiryGrants(k: Kernel, i: Pid, now: nat) returns (s: Scan)
    requires Inv(k) && i < |k.procs| && Expired(k, i, now)
    ensures s == ExpireOne(k, i, now) && Inv(s.k) && (Loose(k) ==> Loose(s.k))
            && (!s.mutexWaiterLeft && Exact(k) ==> Exact(s.k))
    ensures (s.mutexWaiterLeft <==> k.procs[i].op.LockOp?) && Moved(k, s.k, [i])
    ensures s.k == k.(procs := k.procs[i := ExpiredPcb(k.procs[i], now)], ready := s.k.ready, lists := s.k.lists)
    ensures forall h :: Waiters(s.k, h) == Remove(Waiters(k, h), i)
  {
    var h := k.procs[i].waitlist;
    assert ProcOk(k, {}, i) && ListFine(k, h);
    TakeWaiterOk(k, {}, h, i);
    var t := TakenOff(k, h, i);
    GrantOk(k, t, h, i, TimedOut);
    s := ExpireOne(k, i, now);
    assert s == Scan(Resolve(t, i, TimedOut).k, k.procs[i].op.LockOp?);
    assert MemberOk(k, h, i);
    forall g ensures Waiters(s.k, g) == Remove(Waiters(k, g), i) {
      if g != h {
        assert ListOk(k, {}, g);
        RemoveAbsent(Waiters(k, g), i);
      }
    }
    hide Placed, Objects, Clocked, Resolve, TakenOff, ExpireOne, Expired, Loose, Exact;
    LeftLoose(k, s.k, h, i);
    GrantedMoves(k, s.k, h, i, TimedOut);
    GrantedFine(k, s.k, h, i, TimedOut);
    GrantedClocked(k, s.k, h, i, TimedOut);
    if !h.OnMutex? { GrantedGraph(k, s.k, h, i, TimedOut); }
  }

  ghost function ExpiredSet(k: Kernel, now: nat, i: nat, n: nat): set<Pid> {
    set j | i <= j < n && Expired(k, j, now)
  }

  /** Process j of those from i up to n gives up waiting for a mutex. */
  ghost predicate LockExpires(k: Kernel, now: nat, i: nat, n: nat) {
    exists j :: i <= j < n && Expired(k, j, now) && k.procs[j].op.LockOp?
  }

  lemma LaterExpire(k: Kernel, one: Kernel, now: nat, i: Pid)
    requires i < |k.procs| && one.procs == k.procs[i := ExpiredPcb(k.procs[i], now)]
    ensures LockExpires(k, now, i, |k.procs|) <==>
            (Expired(k, i, now) && k.procs[i].op.LockOp?) || LockExpires(one, now, i + 1, |k.procs|)
    ensures Ascending(ExpiredSet(k, now, i, |k.procs|), i, |k.procs|) ==
            (if Expired(k, i, now) then [i] else [])
            + Ascending(ExpiredSet(one, now, i + 1, |k.procs|), i + 1, |k.procs|)
  {
    forall j | i < j < |k.procs| ensures Expired(one, j, now) <==> Expired(k, j, now) {}
    if LockExpires(k, now, i, |k.procs|) {
      var j :| i <= j < |k.procs| && Expired(k, j, now) && k.procs[j].op.LockOp?;
      assert j == i || Expired(one, j, now);
    }
    AscendingSame(ExpiredSet(k, now, i, |k.procs|), ExpiredSet(one, now, i + 1, |k.procs|), i + 1, |k.procs|);
  }

  /** The whole expiry scan from process i on: exactly the processes whose time has come leave
      their lists, whatever the scan did before it reached them, and are queued in id order. */
  lemma {:induction false} ExpireFromOk(k: Kernel, now: nat, i: Pid) returns (s: Scan)
    requires Inv(k) && i <= |k.procs|
    ensures s == ExpireFrom(k, now, i, |k.procs|) && Inv(s.k) && (Loose(k) ==> Loose(s.k))
            && (!s.mutexWaiterLeft && Exact(k) ==> Exact(s.k))
    ensures s.mutexWaiterLeft <==> LockExpires(k, now, i, |k.procs|)
    ensures Moved(k, s.k, Ascending(ExpiredSet(k, now, i, |k.procs|), i, |k.procs|))
    ensures s.k == k.(procs := s.k.procs, ready := s.k.ready, lists := s.k.lists) && |s.k.procs| == |k.procs|
    ensures forall j :: 0 <= j < |k.procs| ==> s.k.procs[j] == if i <= j then ExpiredPcb(k.procs[j], now)
            else k.procs[j]
    ensures forall h :: Waiters(s.k, h) == Without(Waiters(k, h), ExpiredSet(k, now, i, |k.procs|))
    decreases |k.procs| - i
  {
    hide Inv, Loose, Exact, Moved, ExpiredPcb;
    if i == |k.procs| {
      s := Scan(k, false);
      MovedNobody(k, k);
      assert ExpiredSet(k, now, i, |k.procs|) == {};
      forall h ensures Waiters(k, h) == Without(Waiters(k, h), {}) { WithoutNone(Waiters(k, h)); }
    } else {
      var one := ExpireOneOk(k, i, now);
      var rest := ExpireFromOk(one.k, now, i + 1);
      s := Scan(rest.k, one.mutexWaiterLeft || rest.mutexWaiterLeft);
      LaterExpire(k, one.k, now, i);
      MovedTrans(k, one.k, s.k, if Expired(k, i, now) then [i] else [],
        Ascending(ExpiredSet(one.k, now, i + 1, |k.procs|), i + 1, |k.procs|));
      forall h ensures Waiters(s.k, h) == Without(Waiters(k, h), ExpiredSet(k, now, i, |k.procs|)) {
        ListsExpired(k, one.k, now, i, h);
      }
    }
  }

  lemma ListsExpired(k: Kernel, one: Kernel, now: nat, i: Pid, h: ListId)
    requires Inv(k) && i < |k.procs| && one.procs == k.procs[i := ExpiredPcb(k.procs[i], now)]
    requires Waiters(one, h) == if Expired(k, i, now) then Remove(Waiters(k, h), i) else Waiters(k, h)
    ensures Without(Waiters(one, h), ExpiredSet(one, now, i + 1, |k.procs|)) ==
            Without(Waiters(k, h), ExpiredSet(k, now, i, |k.procs|))
  {
    var rest := ExpiredSet(one, now, i + 1, |k.procs|);
    assert rest == ExpiredSet(k, now, i + 1, |k.procs|);
    if Expired(k, i, now) {
      assert ListOk(k, {}, h);
      assert ExpiredSet(k, now, i, |k.procs|) == rest + {i};
      WithoutRemoved(Waiters(k, h), i, rest);
    } else {
      assert ExpiredSet(k, now, i, |k.procs|) == rest;
    }
  }

  /** The pool after the expiry scan, with the priorities it was entered with. */
  function AfterExpiry(k: Kernel, now: nat): Kernel {
    k.(procs := seq(|k.procs|, i requires 0 <= i < |k.procs| => ExpiredPcb(k.procs[i], now)))
  }

  /** Who is queued by the expiry scan: the processes that give up, in id order, and if one of
      them gave up a lock, the READY processes at which the owners' chains end. */
  ghost function ExpiryArrivals(k: Kernel, now: nat): seq<Pid> {
    Ascending(ExpiredSet(k, now, 0, |k.procs|), 0, |k.procs|)
    + if LockExpires(k, now, 0, |k.procs|) then SweepEnds(AfterExpiry(k, now), 0) else []
  }

  /** Nobody in a queue gives up a wait. */
  lemma QueuedDoNotExpire(k: Kernel, now: nat)
    requires Placed(k, {})
    ensures forall s, x :: x in Queue(k, s) ==> x !in ExpiredSet(k, now, 0, |k.procs|)
  {
    forall s, x | x in Queue(k, s) ensures x !in ExpiredSet(k, now, 0, |k.procs|) { assert QueueOk(k, s); }
  }

  lemma ExpiryGrows(k: Kernel, r: Kernel, now: nat)
    requires Inv(k) && !LockExpires(k, now, 0, |k.procs|)
    requires Moved(k, r, Ascending(ExpiredSet(k, now, 0, |k.procs|), 0, |k.procs|))
    ensures Moved(k, r, ExpiryArrivals(k, now))
    ensures forall s :: Queue(r, s) == Queue(k, s)
              + Ascending((set j | j in ExpiredSet(k, now, 0, |k.procs|) && PlaceOf(r, j) == Some(s)), 0, |k.procs|)
  {
    InvParts(k);
    QueuedDoNotExpire(k, now);
    hide Inv, Placed, Moved, ExpiredSet, LockExpires;
    var gone := Ascending(ExpiredSet(k, now, 0, |k.procs|), 0, |k.procs|);
    assert gone + [] == gone;
    QueuesGrow(k, r, ExpiredSet(k, now, 0, |k.procs|), |k.procs|);
  }

  lemma ExpiryRefreshed(k: Kernel, s: Kernel, r: Kernel, now: nat)
    requires LockExpires(k, now, 0, |k.procs|) && |s.procs| == |k.procs| && s.mutexes == k.mutexes
    requires forall j :: 0 <= j < |k.procs| ==> s.procs[j] == ExpiredPcb(k.procs[j], now)
    requires Moved(k, s, Ascending(ExpiredSet(k, now, 0, |k.procs|), 0, |k.procs|)) && Moved(s, r, SweepEnds(s, 0))
    ensures Moved(k, r, ExpiryArrivals(k, now))
  {
    assert s.procs == AfterExpiry(k, now).procs;
    SweepEndsSame(s, AfterExpiry(k, now), 0);
    hide Moved, ExpiredSet, LockExpires, ExpiredPcb;
    MovedTrans(k, s, r, Ascending(ExpiredSet(k, now, 0, |k.procs|), 0, |k.procs|), SweepEnds(s, 0));
  }

  /** The expiry scan and the refresh that may follow it. Only if somebody gives up a lock are
      priorities refreshed and owners requeued; otherwise every queue is followed by the
      processes that give up and belong in it, in id order, and nothing else happens to it. */
  lemma ExpireTimeoutsOk(k: Kernel, now: nat) returns (r: Kernel)
    requires Inv(k)
    ensures r == ExpireTimeouts(k, now) && Inv(r) && (Exact(k) ==> Exact(r))
    ensures r == k.(procs := r.procs, ready := r.ready, lists := r.lists) && |r.procs| == |k.procs|
    ensures forall j :: 0 <= j < |k.procs| ==>
            r.procs[j] == ExpiredPcb(k.procs[j], now).(priority := r.procs[j].priority)
    ensures forall h :: Waiters(r, h) == Without(Waiters(k, h), ExpiredSet(k, now, 0, |k.procs|))
    ensures Moved(k, r, ExpiryArrivals(k, now))
    ensures !LockExpires(k, now, 0, |k.procs|) ==>
            && (forall j :: 0 <= j < |k.procs| ==> r.procs[j] == ExpiredPcb(k.procs[j], now))
            && forall s :: Queue(r, s) == Queue(k, s)
                 + Ascending((set j | j in ExpiredSet(k, now, 0, |k.procs|) && PlaceOf(r, j) == Some(s)), 0, |k.procs|)
  {
    hide Inv, Loose, Exact, Over, Settled, RefreshPriorities, ExpireFrom, ExpiredPcb, Moved, ExpiryArrivals,
         LockExpires, Landed;
    var s := ExpireFromOk(k, now, 0);
    LooseIsSettled(k);
    LooseIsSettled(s.k);
    r := s.k;
    if !s.mutexWaiterLeft {
      ExpiryGrows(k, r, now);
    } else {
      InvParts(s.k);
      r := RefreshPrioritiesOk(s.k, {});
      PartsInv(r);
      ExpiryRefreshed(k, s.k, r, now);
      LooseOver(s.k);
      forall j | 0 <= j < |k.procs|
        ensures r.procs[j] == ExpiredPcb(k.procs[j], now).(priority := r.procs[j].priority)
      {
        assert r.procs[j] == s.k.procs[j].(priority := r.procs[j].priority);
      }
      forall h ensures Waiters(r, h) == Waiters(s.k, h) {}
    }
  }

  lemma LooseOver(k: Kernel)
    ensures Loose(k) ==> Shaped(GraphOf(k), Prios(k)) && Over(GraphOf(k), Prios(k))
  {
  }

  // ---------------------------------------------------------------- timed and periodic releases

  /** What the release scan does to one process: a periodic release begins exactly at the
      tick it was due, whenever the scan gets to it. */
  function ReleasedPcb(c: Pcb, now: nat): Pcb {
    if c.state == Blocked && c.periodicWaiting && now >= c.wakeTick then
      c.(state := Ready, periodicWaiting := false, release := c.wakeTick, wakeTick := TICK_NONE,
         deadline := DeadlineOf(c, c.wakeTick), result := Ok, resultPending := true)
    else if c.state == Blocked && c.timedWaiting && now >= c.wakeTick then
      c.(state := Ready, timedWaiting := false, wakeTick := TICK_NONE, result := Ok, resultPending := true)
    else c
  }

  /** The release scan finds the release, or the end of the timed wait, of this process. */
  predicate IsDue(c: Pcb, now: nat) {
    c.state == Blocked && (c.periodicWaiting || c.timedWaiting) && now >= c.wakeTick
  }

  ghost function DueSet(k: Kernel, now: nat, i: nat, n: nat): set<Pid> {
    set j | i <= j < n && j < |k.procs| && IsDue(k.procs[j], now)
  }

  /** A process whose release came: it leaves limbo for its ready queue. */
  lemma Wakes(k: Kernel, t: Kernel, i: Pid) returns (r: Kernel)
    requires Inv(k) && i < |k.procs| && k.procs[i].state == Blocked
             && (k.procs[i].periodicWaiting || k.procs[i].timedWaiting)
    requires |t.procs| == |k.procs| && t == k.(procs := k.procs[i := t.procs[i]], nextDue := t.nextDue)
             && t.nextDue <= k.nextDue
    requires var c := t.procs[i];
             && c == k.procs[i].(release := c.release, deadline := c.deadline, wakeTick := TICK_NONE,
                periodicWaiting := false, timedWaiting := false)
             && ClockOk(t, c)
    ensures r == Resolve(t, i, Ok).k && Inv(r) && (Exact(r) <==> Exact(k))
    ensures r == t.(procs := t.procs[i := t.procs[i].(state := Ready, result := Ok, resultPending := true)],
            ready := r.ready)
    ensures Moved(k, r, [i])
  {
    hide Inv, Resolve;
    r := WakesState(k, t, i);
    WakesKeeps(k, t, r, i);
  }

  lemma WakesState(k: Kernel, t: Kernel, i: Pid) returns (r: Kernel)
    requires Inv(k) && i < |k.procs| && k.procs[i].state == Blocked
             && (k.procs[i].periodicWaiting || k.procs[i].timedWaiting)
    requires |t.procs| == |k.procs| && t == k.(procs := k.procs[i := t.procs[i]], nextDue := t.nextDue)
    requires var c := t.procs[i];
             c == k.procs[i].(release := c.release, deadline := c.deadline, wakeTick := TICK_NONE,
               periodicWaiting := false, timedWaiting := false)
    ensures r == Resolve(t, i, Ok).k && Placed(r, {})
    ensures r == t.(procs := t.procs[i := t.procs[i].(state := Ready, result := Ok, resultPending := true)],
            ready := r.ready)
    ensures Moved(k, r, [i])
  {
    assert ProcOk(k, {}, i);
    EnterLimbo(k, {}, i);
    assert {} + {i} == {i} && {i} - {i} == {};
    RetouchedPlaced(k, t, {i});
    ResolveOk(t, {i}, i, Ok);
    r := Resolve(t, i, Ok).k;
    hide Resolve;
    JoinMoves(k, r, i);
  }

  lemma WakesKeeps(k: Kernel, t: Kernel, r: Kernel, i: Pid)
    requires Inv(k) && Placed(r, {}) && i < |k.procs| && k.procs[i].state == Blocked
             && (k.procs[i].periodicWaiting || k.procs[i].timedWaiting)
    requires |t.procs| == |k.procs| && t == k.(procs := k.procs[i := t.procs[i]], nextDue := t.nextDue)
             && t.nextDue <= k.nextDue
    requires var c := t.procs[i];
             && c == k.procs[i].(release := c.release, deadline := c.deadline, wakeTick := TICK_NONE,
                periodicWaiting := false, timedWaiting := false)
             && ClockOk(t, c)
    requires r == t.(procs := t.procs[i := t.procs[i].(state := Ready, result := Ok, resultPending := true)],
             ready := r.ready)
    ensures Inv(r) && (Exact(r) <==> Exact(k))
  {
    assert WaitOk(k, i) by { assert ProcOk(k, {}, i); }
    forall h ensures i !in Waiters(k, h) { assert ListOk(k, {}, h); }
    forall j | 0 <= j < |k.procs| ensures ClockOk(r, r.procs[j]) { assert ClockOk(k, k.procs[j]); }
    hide Placed, Objects;
    SameObjectsFine(k, r);
    forall j: nat | j < |k.procs|
      ensures Boss(r, j) == Boss(k, j)
    {
      assert r.procs[j].waitlist == k.procs[j].waitlist;
    }
    SameGraph(k, r);
  }

  lemma ReleaseOneOk(k: Kernel, i: Pid, now: nat) returns (r: Kernel)
    requires Inv(k) && i < |k.procs|
    ensures r == ReleaseOne(k, i, now) && Inv(r) && (Exact(r) <==> Exact(k))
    ensures r == k.(procs := k.procs[i := ReleasedPcb(k.procs[i], now)], ready := r.ready, nextDue := r.nextDue)
    ensures Moved(k, r, if IsDue(k.procs[i], now) then [i] else [])
  {
    r := ReleaseOne(k, i, now);
    var c := k.procs[i];
    assert ClockOk(k, c) && ProcOk(k, {}, i);
    if c.state == Blocked && c.periodicWaiting && now >= c.wakeTick {
      r := PeriodComes(k, i, now);
    } else if c.state == Blocked && c.timedWaiting && now >= c.wakeTick {
      var t := WithProc(k, i, c.(wakeTick := TICK_NONE, timedWaiting := false));
      assert ClockOk(t, t.procs[i]);
      hide Inv, Resolve;
      r := Wakes(k, t, i);
    } else {
      assert k.procs[i := c] == k.procs;
      MovedNobody(k, k);
    }
  }

  lemma PeriodComes(k: Kernel, i: Pid, now: nat) returns (r: Kernel)
    requires Inv(k) && i < |k.procs| && ClockOk(k, k.procs[i]) && WaitOk(k, i)
    requires k.procs[i].state == Blocked && k.procs[i].periodicWaiting && now >= k.procs[i].wakeTick
    ensures r == ReleaseOne(k, i, now) && Inv(r) && (Exact(r) <==> Exact(k))
    ensures r == k.(procs := k.procs[i := ReleasedPcb(k.procs[i], now)], ready := r.ready, nextDue := r.nextDue)
    ensures Moved(k, r, [i])
  {
    var c := k.procs[i];
    var begun := WithProc(k, i, c.(release := c.wakeTick, wakeTick := TICK_NONE, periodicWaiting := false));
    ArmDeadlineIs(begun, i);
    var t := ArmDeadline(begun, i);
    assert t.procs == k.procs[i := t.procs[i]];
    DueBound(k, i, DeadlineOf(c, c.wakeTick));
    assert ClockOk(t, t.procs[i]);
    hide Inv, Resolve, ArmDeadline;
    r := Wakes(k, t, i);
  }

  lemma {:induction false} ReleasePeriodicOk(k: Kernel, now: nat, i: Pid) returns (r: Kernel)
    requires Inv(k) && i <= |k.procs|
    ensures r == ReleasePeriodic(k, now, i, |k.procs|) && Inv(r) && (Exact(r) <==> Exact(k))
    ensures r == k.(procs := r.procs, ready := r.ready, nextDue := r.nextDue) && |r.procs| == |k.procs|
    ensures forall j :: 0 <= j < |k.procs| ==> r.procs[j] == if i <= j then ReleasedPcb(k.procs[j], now) else k.procs[j]
    ensures Moved(k, r, Ascending(DueSet(k, now, i, |k.procs|), i, |k.procs|))
    decreases |k.procs| - i
  {
    hide Inv, Exact, ReleasedPcb, Moved;
    if i == |k.procs| {
      r := k;
      MovedNobody(k, k);
    } else {
      var one := ReleaseOneOk(k, i, now);
      r := ReleasePeriodicOk(one, now, i + 1);
      AscendingSame(DueSet(k, now, i, |k.procs|), DueSet(one, now, i + 1, |k.procs|), i + 1, |k.procs|);
      MovedTrans(k, one, r, if IsDue(k.procs[i], now) then [i] else [],
        Ascending(DueSet(one, now, i + 1, |k.procs|), i + 1, |k.procs|));
    }
  }

  // ---------------------------------------------------------------- deadlines

  function MissedPcb(c: Pcb, now: nat, halted: bool): Pcb {
    if HasMissed(c, now, halted) then c.(deadline := TICK_NONE, misses := Wrap(c.misses + 1)) else c
  }

  predicate HasMissed(c: Pcb, now: nat, halted: bool) {
    c.state !in {Unused, Suspended} && c.deadline != TICK_NONE && now >= c.deadline && !halted
  }

  function HaltedOf(k: Kernel, c: Pcb): bool { c.partition >= |k.halted| || k.halted[c.partition] }

  ghost function MissedSet(k: Kernel, now: nat, i: nat, n: nat): set<Pid> {
    set j | i <= j < n && j < |k.procs| && HasMissed(k.procs[j], now, HaltedOf(k, k.procs[j]))
  }

  lemma CheckOneOk(k: Kernel, i: Pid, now: nat) returns (r: Kernel)
    requires Inv(k) && i < |k.procs|
    ensures r == CheckOne(k, i, now) && Inv(r) && (Exact(r) <==> Exact(k))
    ensures r == k.(procs := k.procs[i := MissedPcb(k.procs[i], now, HaltedOf(k, k.procs[i]))], pending := k.pending
            + MissedSet(k, now, i, i + 1))
  {
    r := CheckOne(k, i, now);
    if Missed(k, i, now) {
      assert MissedSet(k, now, i, i + 1) == {i};
      RetouchedPlaced(k, r, {});
      forall j | 0 <= j < |k.procs| ensures ClockOk(r, r.procs[j]) { assert ClockOk(k, k.procs[j]); }
      hide Placed, Objects;
      SameObjectsFine(k, r);
      forall j: nat | j < |k.procs|
        ensures Boss(r, j) == Boss(k, j)
      {
        assert r.procs[j].waitlist == k.procs[j].waitlist;
      }
      SameGraph(k, r);
    } else {
      assert MissedSet(k, now, i, i + 1) == {};
      assert k.procs[i := k.procs[i]] == k.procs && k.pending + {} == k.pending;
    }
  }

  lemma {:induction false} CheckDeadlinesOk(k: Kernel, now: nat, i: Pid) returns (r: Kernel)
    requires Inv(k) && i <= |k.procs|
    ensures r == CheckDeadlines(k, now, i, |k.procs|) && Inv(r) && (Exact(r) <==> Exact(k))
    ensures r == k.(procs := r.procs, pending := k.pending + MissedSet(k, now, i, |k.procs|)) && |r.procs| == |k.procs|
    ensures forall j :: 0 <= j < |k.procs| ==> r.procs[j] == if i <= j then
            MissedPcb(k.procs[j], now, HaltedOf(k, k.procs[j])) else k.procs[j]
    decreases |k.procs| - i
  {
    hide Inv, Exact, MissedPcb, HasMissed;
    if i == |k.procs| {
      r := k;
      assert k.pending + MissedSet(k, now, i, i) == k.pending;
    } else {
      var one := CheckOneOk(k, i, now);
      r := CheckDeadlinesOk(one, now, i + 1);
      assert MissedSet(k, now, i, |k.procs|) == MissedSet(k, now, i, i + 1) + MissedSet(one, now, i + 1, |k.procs|);
      forall j | 0 <= j < |k.procs| ensures HaltedOf(one, k.procs[j]) == HaltedOf(k, k.procs[j]) {}
    }
  }

  // ---------------------------------------------------------------- the due bound

  lemma {:induction false} EarliestIs(k: Kernel, n: nat)
    requires n <= |k.procs|
    ensures Earliest(k, n) <= TICK_NONE
    ensures forall i :: 0 <= i < n && k.procs[i].state != Unused ==>
            Earliest(k, n) <= k.procs[i].wakeTick && Earliest(k, n) <= k.procs[i].deadline
    ensures Earliest(k, n) == TICK_NONE || exists i ::
            0 <= i < n && k.procs[i].state != Unused && Earliest(k, n) in {k.procs[i].wakeTick, k.procs[i].deadline}
  {
    if n != 0 { EarliestIs(k, n - 1); }
  }

  /** The bound is the least recorded wake tick or deadline. */
  ghost predicate LeastDue(k: Kernel) {
    && (forall i :: 0 <= i < |k.procs| ==> k.nextDue <= k.procs[i].wakeTick && k.nextDue <= k.procs[i].deadline)
    && (k.nextDue == TICK_NONE
        || exists i :: 0 <= i < |k.procs| && k.nextDue in {k.procs[i].wakeTick, k.procs[i].deadline})
  }

  /** Recomputing the bound keeps the invariant and changes nothing else. */
  lemma RefreshDueOk(k: Kernel) returns (r: Kernel)
    requires Inv(k)
    ensures r == RefreshDue(k) && Inv(r) && (Exact(r) <==> Exact(k)) && r == k.(nextDue := r.nextDue)
    ensures LeastDue(r)
  {
    r := RefreshDue(k);
    EarliestIs(k, |k.procs|);
    RetouchedPlaced(k, r, {});
    forall j: nat | j < |k.procs| ensures ClockOk(r, r.procs[j]) { assert ClockOk(k, k.procs[j]) && ProcOk(k, {}, j); }
    hide Placed, Objects;
    SameObjectsFine(k, r);
    forall j: nat | j < |k.procs|
      ensures Boss(r, j) == Boss(k, j)
    {
      assert r.procs[j].waitlist == k.procs[j].waitlist;
    }
    SameGraph(k, r);
  }

  // ---------------------------------------------------------------- the three scans together

  /** What a tick does to one process before the dispatch. */
  function Ticked(c: Pcb, now: nat, halted: bool): Pcb {
    MissedPcb(ReleasedPcb(ExpiredPcb(c, now), now), now, halted)
  }

  ghost function TickMisses(k: Kernel, now: nat): set<Pid> {
    set j | 0 <= j < |k.procs| && HasMissed(ReleasedPcb(ExpiredPcb(k.procs[j], now), now), now, HaltedOf(k, k.procs[j]))
  }

  /** r is k after the scans of tick `now`; effective priorities may have been refreshed. */
  ghost predicate Scanned(k: Kernel, r: Kernel, now: nat) {
    && r == k.(procs := r.procs, ready := r.ready, lists := r.lists, nextDue := r.nextDue, pending := k.pending
       + TickMisses(k, now))
    && |r.procs| == |k.procs|
    && (forall j :: 0 <= j < |k.procs| ==>
       r.procs[j] == Ticked(k.procs[j], now, HaltedOf(k, k.procs[j])).(priority := r.procs[j].priority))
    && forall h :: Waiters(r, h) == Without(Waiters(k, h), ExpiredSet(k, now, 0, |k.procs|))
  }

  /** Who is queued by the scans of tick `now`, in this order: those who give up a wait, the
      owners requeued if one of them gave up a lock, and those whose release or timed wait is due. */
  ghost function TickArrivals(k: Kernel, now: nat): seq<Pid> {
    ExpiryArrivals(k, now) + Ascending(DueSet(k, now, 0, |k.procs|), 0, |k.procs|)
  }

  lemma TickedPriority(c: Pcb, now: nat, halted: bool, p: nat)
    ensures MissedPcb(ReleasedPcb(c.(priority := p), now), now, halted) ==
            MissedPcb(ReleasedPcb(c, now), now, halted).(priority := p)
    ensures HasMissed(ReleasedPcb(c.(priority := p), now), now, halted) <==> HasMissed(ReleasedPcb(c, now), now, halted)
    ensures ReleasedPcb(c, now).partition == c.partition
  {
  }

  lemma ScansOk(k: Kernel) returns (r: Kernel)
    requires Inv(k)
    ensures r == Scans(k) && Inv(r) && (Exact(k) ==> Exact(r)) && Scanned(k, r, k.tick)
    ensures Moved(k, r, TickArrivals(k, k.tick))
  {
    InvParts(k);
    hide Inv, Placed, Exact, Scans, Scanned, Moved, ExpiryArrivals, TickArrivals, ExpiredPcb;
    var a, b;
    a, b, r := ScansDo(k);
    ScansMove(k, a, b, r, k.tick);
  }

  /** The scans one after the other. */
  lemma ScansDo(k: Kernel) returns (a: Kernel, b: Kernel, r: Kernel)
    requires Inv(k)
    ensures r == Scans(k) && Inv(r) && (Exact(k) ==> Exact(r)) && Scanned(k, r, k.tick)
    ensures |a.procs| == |k.procs| == |b.procs| == |r.procs| && r.ready == b.ready
    ensures forall j :: 0 <= j < |k.procs| ==>
            a.procs[j] == ExpiredPcb(k.procs[j], k.tick).(priority := a.procs[j].priority)
    ensures forall j :: 0 <= j < |k.procs| ==> PlaceOf(r, j) == PlaceOf(b, j)
    ensures Moved(k, a, ExpiryArrivals(k, k.tick))
            && Moved(a, b, Ascending(DueSet(a, k.tick, 0, |k.procs|), 0, |k.procs|))
  {
    hide Inv, Exact, ReleasedPcb, MissedPcb, HasMissed, ExpireTimeouts, ReleasePeriodic, CheckDeadlines, Moved,
         ExpiryArrivals, Ascending;
    var now := k.tick;
    a := ExpireTimeoutsOk(k, now);
    b := ReleasePeriodicOk(a, now, 0);
    r := CheckDeadlinesOk(b, now, 0);
    forall j | 0 <= j < |k.procs| ensures PlaceOf(r, j) == PlaceOf(b, j) {
      MissedPlace(b.procs[j], now, HaltedOf(b, b.procs[j]));
    }
    ScansScanned(k, a, b, r, now);
  }

  lemma ScansScanned(k: Kernel, a: Kernel, b: Kernel, r: Kernel, now: nat)
    requires a == k.(procs := a.procs, ready := a.ready, lists := a.lists) && |a.procs| == |k.procs|
    requires forall j :: 0 <= j < |k.procs| ==>
             a.procs[j] == ExpiredPcb(k.procs[j], now).(priority := a.procs[j].priority)
    requires forall h :: Waiters(a, h) == Without(Waiters(k, h), ExpiredSet(k, now, 0, |k.procs|))
    requires b == a.(procs := b.procs, ready := b.ready, nextDue := b.nextDue) && |b.procs| == |k.procs|
    requires forall j :: 0 <= j < |k.procs| ==> b.procs[j] == ReleasedPcb(a.procs[j], now)
    requires r == b.(procs := r.procs, pending := b.pending + MissedSet(b, now, 0, |b.procs|)) && |r.procs| == |k.procs|
    requires forall j :: 0 <= j < |k.procs| ==> r.procs[j] == MissedPcb(b.procs[j], now, HaltedOf(b, b.procs[j]))
    ensures Scanned(k, r, now)
  {
    hide ReleasedPcb, MissedPcb, HasMissed;
    forall j | 0 <= j < |k.procs|
      ensures r.procs[j] == Ticked(k.procs[j], now, HaltedOf(k, k.procs[j])).(priority := r.procs[j].priority)
      ensures HasMissed(b.procs[j], now, HaltedOf(b, b.procs[j])) <==>
              HasMissed(ReleasedPcb(ExpiredPcb(k.procs[j], now), now), now, HaltedOf(k, k.procs[j]))
    {
      TickedPriority(ExpiredPcb(k.procs[j], now), now, HaltedOf(k, k.procs[j]), a.procs[j].priority);
      assert a.procs[j] == ExpiredPcb(k.procs[j], now).(priority := a.procs[j].priority);
      assert b.procs[j] == ReleasedPcb(a.procs[j], now);
      TickedPriority(a.procs[j], now, HaltedOf(k, k.procs[j]), a.procs[j].priority);
    }
    assert MissedSet(b, now, 0, |b.procs|) == TickMisses(k, now);
    forall h ensures Waiters(r, h) == Waiters(a, h) {}
  }

  lemma MissedPlace(c: Pcb, now: nat, halted: bool)
    ensures var m := MissedPcb(c, now, halted);
            m.state == c.state && m.partition == c.partition && m.priority == c.priority
  {
  }

  lemma ScansMove(k: Kernel, a: Kernel, b: Kernel, r: Kernel, now: nat)
    requires Placed(k, {}) && |a.procs| == |k.procs| == |b.procs| == |r.procs| && r.ready == b.ready
    requires forall j :: 0 <= j < |k.procs| ==>
             a.procs[j] == ExpiredPcb(k.procs[j], now).(priority := a.procs[j].priority)
    requires forall j :: 0 <= j < |k.procs| ==> PlaceOf(r, j) == PlaceOf(b, j)
    requires Moved(k, a, ExpiryArrivals(k, now)) && Moved(a, b, Ascending(DueSet(a, now, 0, |k.procs|), 0, |k.procs|))
    ensures Moved(k, r, TickArrivals(k, now))
  {
    forall j: nat | j < |k.procs|
      ensures IsDue(a.procs[j], now) <==> IsDue(k.procs[j], now)
    {
      assert ProcOk(k, {}, j);
    }
    AscendingSame(DueSet(a, now, 0, |k.procs|), DueSet(k, now, 0, |k.procs|), 0, |k.procs|);
    forall s ensures Queue(r, s) == Queue(b, s) {}
    hide Placed, Moved, ExpiryArrivals, ExpiredPcb;
    var due := Ascending(DueSet(k, now, 0, |k.procs|), 0, |k.procs|);
    MovedSame(a, b, r, due);
    MovedTrans(k, a, r, ExpiryArrivals(k, now), due);
  }

  // ---------------------------------------------------------------- the due gate

  lemma NothingDue(k: Kernel, now: nat, i: Pid)
    requires Clocked(k) && now < k.nextDue && i < |k.procs|
    ensures ExpireOne(k, i, now) == Scan(k, false) && ReleaseOne(k, i, now) == k && CheckOne(k, i, now) == k
  {
    assert ClockOk(k, k.procs[i]);
  }

  lemma {:induction false} NothingDueFrom(k: Kernel, now: nat, i: Pid, n: nat)
    requires Clocked(k) && now < k.nextDue && n == |k.procs|
    ensures ExpireFrom(k, now, i, n) == Scan(k, false) && ReleasePeriodic(k, now, i, n) == k
            && CheckDeadlines(k, now, i, n) == k
    decreases n - i
  {
    if i < n {
      NothingDue(k, now, i);
      hide ExpireOne, ReleaseOne, CheckOne;
      NothingDueFrom(k, now, i + 1, n);
    }
  }

  /** Before the bound the scans do nothing at all: skipping them is invisible. */
  lemma ScansIdle(k: Kernel)
    requires Clocked(k) && k.tick < k.nextDue
    ensures Scans(k) == k
  {
    NothingDueFrom(k, k.tick, 0, |k.procs|);
  }

  /** A tick that always makes the three scans. */
  function OnTickUngated(k: Kernel, sched: Frame.Schedule): Sel {
    var slot := Frame.PartitionAt(sched, k.tick);
    var s := RefreshDue(Scans(k.(tick := Wrap(k.tick + 1))));
    if slot.None? then Sel(InvalidArg, s, None) else PartitionSelect(s, slot.value, false)
  }

  lemma QueuesIgnoreDue(k: Kernel, s: Slot, id: Pid, d: nat)
    ensures Queue(k.(nextDue := d), s) == Queue(k, s)
    ensures forall q :: WithQueue(k.(nextDue := d), s, q) == WithQueue(k, s, q).(nextDue := d)
    ensures Enqueue(k.(nextDue := d), s, id) == Out(Enqueue(k, s, id).st, Enqueue(k, s, id).k.(nextDue := d))
    ensures EnqueueFront(k.(nextDue := d), s, id) ==
            Out(EnqueueFront(k, s, id).st, EnqueueFront(k, s, id).k.(nextDue := d))
  {
  }

  /** The last step of a selection: the outgoing process goes back to its queue. */
  function SwapOut(out: Kernel, s: Slot, back: Slot, id: Pid, next: Pid, giveWay: bool): Sel
    requires id < |out.procs| && next < |out.procs|
  {
    var e := if giveWay then Enqueue(out, back, id) else EnqueueFront(out, back, id);
    if e.st != Ok then
      Sel(e.st, EnqueueFront(WithProc(out, id, out.procs[id].(state := Running)), s, next).k, None)
    else
      Sel(Ok, WithProc(e.k, next, e.k.procs[next].(state := Running)), Some(next))
  }

  lemma SwapOutIgnoresDue(out: Kernel, s: Slot, back: Slot, id: Pid, next: Pid, giveWay: bool, d: nat)
    requires id < |out.procs| && next < |out.procs|
    ensures var r := SwapOut(out, s, back, id, next, giveWay);
            SwapOut(out.(nextDue := d), s, back, id, next, giveWay) == r.(k := r.k.(nextDue := d))
  {
    QueuesIgnoreDue(out, back, id, d);
    QueuesIgnoreDue(WithProc(out, id, out.procs[id].(state := Running)), s, next, d);
    hide EnqueueFront;
  }

  /** A selection that changes hands, in the form of its last step. */
  lemma SelectSwaps(k: Kernel, p: nat, id: Pid, giveWay: bool)
    requires IsProc(k, id) && k.procs[id].state == Running && Best(k, p) <= MAX_PRIORITY
    requires var next := Queue(k, Slot(p, Best(k, p)))[0]; IsProc(k, next) && k.procs[next].state == Ready
    requires TakesOver(Best(k, p), k.procs[id].priority, giveWay)
    ensures var s := Slot(p, Best(k, p)); var popped := WithQueue(k, s, Queue(k, s)[1..]);
            DispatchSelect(k, p, Some(id), giveWay) ==
            SwapOut(WithProc(popped, id, popped.procs[id].(state := Ready)), s, Slot(p, k.procs[id].priority), id,
              Queue(k, s)[0], giveWay)
  {
  }

  lemma DispatchIgnoresDue(k: Kernel, p: nat, current: Option<Pid>, giveWay: bool, d: nat)
    ensures var r := DispatchSelect(k, p, current, giveWay);
            DispatchSelect(k.(nextDue := d), p, current, giveWay) == r.(k := r.k.(nextDue := d))
  {
    var k' := k.(nextDue := d);
    BestSame(k, k', p, 0);
    var s := Slot(p, Best(k, p));
    if current.Some? && IsProc(k, current.value) && k.procs[current.value].state == Running
      && Best(k, p) <= MAX_PRIORITY
       && IsProc(k, Queue(k, s)[0]) && k.procs[Queue(k, s)[0]].state == Ready
       && TakesOver(Best(k, p), k.procs[current.value].priority, giveWay)
    {
      var id := current.value;
      SelectSwaps(k, p, id, giveWay);
      SelectSwaps(k', p, id, giveWay);
      var popped := WithQueue(k, s, Queue(k, s)[1..]);
      hide DispatchSelect, SwapOut, BestFrom;
      SwapOutIgnoresDue(WithProc(popped, id, popped.procs[id].(state := Ready)), s, Slot(p, k.procs[id].priority), id,
        Queue(k, s)[0], giveWay, d);
    }
  }

  lemma SelectIgnoresDue(k: Kernel, p: nat, giveWay: bool, d: nat)
    ensures var r := PartitionSelect(k, p, giveWay);
            PartitionSelect(k.(nextDue := d), p, giveWay) == r.(k := r.k.(nextDue := d))
  {
    hide DispatchSelect;
    if p < |k.current| { DispatchIgnoresDue(k, p, k.current[p], giveWay, d); }
  }

  /** Reachable states cannot tell the gated tick from one that always scans: same status,
      same selection, same state but for the bound itself. */
  lemma DueGateInvisible(k: Kernel, sched: Frame.Schedule)
    requires Inv(k)
    ensures var g := OnTick(k, sched); var u := OnTickUngated(k, sched);
            g.st == u.st && g.next == u.next && g.k.(nextDue := 0) == u.k.(nextDue := 0)
  {
    hide Inv, Clocked, Scans, PartitionSelect, Frame.PartitionAt, RefreshDue, Exact;
    var t := k.(tick := Wrap(k.tick + 1));
    LaterInv(k, t.tick);
    InvParts(t);
    if t.tick < t.nextDue {
      ScansIdle(t);
      RefreshOnlyDue(t);
      var slot := Frame.PartitionAt(sched, k.tick);
      if slot.Some? {
        SelectIgnoresDue(t, slot.value, false, RefreshDue(t).nextDue);
      }
    }
  }

  lemma RefreshOnlyDue(k: Kernel)
    ensures RefreshDue(k) == k.(nextDue := RefreshDue(k).nextDue)
  {
  }

  lemma LaterInv(k: Kernel, now: nat)
    requires Inv(k) && now <= TICK_NONE
    ensures Inv(k.(tick := now)) && (Exact(k.(tick := now)) <==> Exact(k))
  {
    var t := k.(tick := now);
    RetouchedPlaced(k, t, {});
    forall j | 0 <= j < |k.procs| ensures ClockOk(t, t.procs[j]) { assert ClockOk(k, k.procs[j]); }
    hide Placed, Objects;
    SameObjectsFine(k, t);
    forall j: nat | j < |k.procs|
      ensures Boss(t, j) == Boss(k, j)
    {
      assert t.procs[j].waitlist == k.procs[j].waitlist;
    }
    SameGraph(k, t);
  }

  // ---------------------------------------------------------------- the whole tick

  /** r is k one tick later: every process as Ticked says, then at most rescheduled. */
  ghost predicate OneTick(k: Kernel, r: Kernel) {
    var now := Wrap(k.tick + 1);
    && |r.procs| == |k.procs| && |r.current| == |k.current|
    && r == k.(procs := r.procs, ready := r.ready, current := r.current, lists := r.lists, nextDue := r.nextDue,
               tick := now, pending := k.pending + TickMisses(k, now))
    && (forall j :: 0 <= j < |k.procs| ==> Gentle(Ticked(k.procs[j], now, HaltedOf(k, k.procs[j])), r.procs[j]))
    && forall h :: Waiters(r, h) == Without(Waiters(k, h), ExpiredSet(k, now, 0, |k.procs|))
  }

  /** The state a tick dispatches from. */
  lemma ScannedOrIdle(k: Kernel) returns (s: Kernel)
    requires Inv(k)
    ensures var t := k.(tick := Wrap(k.tick + 1));
            && s == (if t.tick >= t.nextDue then RefreshDue(Scans(t)) else t)
            && Inv(s) && (Exact(k) ==> Exact(s)) && Scanned(t, s, t.tick) && Moved(t, s, TickArrivals(t, t.tick))
            && if t.tick >= t.nextDue then LeastDue(s) else s == t
  {
    hide Inv, Clocked, Scans, RefreshDue, Exact, Scanned, Moved, TickArrivals, LeastDue;
    var t := k.(tick := Wrap(k.tick + 1));
    LaterInv(k, t.tick);
    s := ScansOk(t);
    if t.tick >= t.nextDue {
      var s' := RefreshDueOk(s);
      ScannedDue(t, s, s');
      s := s';
    } else {
      InvParts(t);
      ScansIdle(t);
    }
  }

  lemma ScannedDue(t: Kernel, s: Kernel, s': Kernel)
    requires Scanned(t, s, t.tick) && s' == s.(nextDue := s'.nextDue)
    ensures Scanned(t, s', t.tick)
    ensures Moved(t, s, TickArrivals(t, t.tick)) ==> Moved(t, s', TickArrivals(t, t.tick))
  {
    hide Ticked;
    if Moved(t, s, TickArrivals(t, t.tick)) {
      hide Moved, TickArrivals;
      MovedSame(t, s, s', TickArrivals(t, t.tick));
    }
    forall h ensures Waiters(s', h) == Waiters(s, h) {}
  }

  /** The counter has moved on, nothing else yet. */
  function Advanced(k: Kernel): Kernel { k.(tick := Wrap(k.tick + 1)) }

  /** s is what the scans of the tick leave: who they queue, and in which order. */
  ghost predicate AfterScans(k: Kernel, s: Kernel) {
    var t := Advanced(k);
    && Scanned(t, s, t.tick) && Moved(t, s, TickArrivals(t, t.tick))
    && if t.tick >= k.nextDue then LeastDue(s) else s == t
  }

  /** r is k after a tick that had a partition p to dispatch: after the scans p makes one
      selection, in which nobody gives way. */
  ghost predicate TickDispatched(k: Kernel, r: Kernel, p: nat) {
    exists s: Kernel :: AfterScans(k, s) && Selected(s, r, p, false)
  }

  /** The tick keeps every invariant and the inheritance equation; a successful one selects a
      process of the active partition that nobody READY there outranks, and a failed selection
      leaves queues, states and current processes as the scans left them. */
  lemma OnTickOk(k: Kernel, sched: Frame.Schedule) returns (r: Sel)
    requires Inv(k)
    requires var p := Frame.PartitionAt(sched, k.tick); p.Some? ==> p.value < |k.current|
    ensures r == OnTick(k, sched) && Inv(r.k) && (Exact(k) ==> Exact(r.k)) && OneTick(k, r.k)
    ensures r.st in {Ok, InvalidArg, PartitionHalted, QueueEmpty}
    ensures r.st == InvalidArg <==> Frame.PartitionAt(sched, k.tick).None?
    ensures r.st == PartitionHalted <==>
            Frame.PartitionAt(sched, k.tick).Some? && k.halted[Frame.PartitionAt(sched, k.tick).value]
    ensures r.st == Ok ==> (
              var p := Frame.PartitionAt(sched, k.tick).value;
              r.next.Some? && r.next.value < |r.k.procs| && r.k.current == k.current[p := r.next]
                && NoneAbove(r.k, p, r.next.value))
    ensures r.st != Ok ==> AfterScans(k, r.k)
    ensures r.st in {Ok, QueueEmpty} ==>
              var p := Frame.PartitionAt(sched, k.tick).value; TickDispatched(k, r.k, p) && r.next == r.k.current[p]
  {
    var t := Advanced(k);
    hide Inv, Exact, Scans, RefreshDue, PartitionSelect, Frame.PartitionAt, NoneAbove, Ticked, Scanned, OneTick,
         Rescheduled, Moved, TickArrivals, LeastDue, Selected;
    var s := ScannedOrIdle(k);
    assert AfterScans(k, s);
    r := OnTick(k, sched);
    var slot := Frame.PartitionAt(sched, k.tick);
    SameCurrent(k, t, s);
    if slot.Some? {
      DispatchKeeps(s, slot.value, false, r);
      if !s.halted[slot.value] { SelectDispatches(s, slot.value, r); }
    } else {
      StaysSoft(s);
    }
    ScannedTicks(k, t, s, r.k);
  }

  lemma SelectDispatches(s: Kernel, p: nat, r: Sel)
    requires Inv(s) && p < |s.current| && !s.halted[p] && r == PartitionSelect(s, p, false)
    ensures Selected(s, r.k, p, false) && p < |r.k.current| && r.next == r.k.current[p]
  {
    hide PartitionSelect, Selected, NoneAbove, Rescheduled;
    SelectOk(s, p, false);
    SelectIs(s, p, false);
  }

  lemma SameCurrent(k: Kernel, t: Kernel, s: Kernel)
    requires t == k.(tick := Wrap(k.tick + 1)) && Scanned(t, s, t.tick)
    ensures s.current == k.current && s.halted == k.halted
  {
  }

  lemma StaysSoft(k: Kernel)
    ensures Soft(k, k)
  {
  }

  lemma DispatchKeeps(s: Kernel, p: nat, giveWay: bool, r: Sel)
    requires Inv(s) && p < |s.current| && r == PartitionSelect(s, p, giveWay)
    ensures Inv(r.k) && (Exact(r.k) <==> Exact(s)) && Soft(s, r.k) && |s.halted| == |s.current|
    ensures r.st in {Ok, PartitionHalted, QueueEmpty} && (r.st == PartitionHalted <==> s.halted[p])
            && (r.st != Ok ==> r.k == s)
    ensures r.st == Ok ==>
            r.next.Some? && r.next.value < |r.k.procs| && r.k.current == s.current[p := r.next]
              && NoneAbove(r.k, p, r.next.value)
  {
    hide PartitionSelect, NoneAbove, Rescheduled, Exact;
    assert Placed(s, {}) && |s.halted| == |s.current|;
    hide Placed;
    SelectOk(s, p, giveWay);
    RescheduledKeeps(s, r.k);
    RescheduledSizes(s, r.k);
    SoftKinds(s, r.k);
  }

  lemma RescheduledSizes(k: Kernel, k': Kernel)
    requires Rescheduled(k, k')
    ensures |k'.procs| == |k.procs| && |k'.current| == |k.current|
  {
  }

  /** Rescheduling keeps everything but the placement, which is proved where it happens. */
  lemma RescheduledKeeps(k: Kernel, k': Kernel)
    requires Inv(k) && Rescheduled(k, k') && Placed(k', {})
    ensures Inv(k') && (Exact(k') <==> Exact(k))
  {
    forall h ensures Waiters(k', h) == Waiters(k, h) {}
    forall j | 0 <= j < |k.procs| ensures ClockOk(k', k'.procs[j]) { assert ClockOk(k, k.procs[j]); }
    hide Placed, Objects;
    SameObjectsFine(k, k');
    forall j: nat | j < |k.procs|
      ensures Boss(k', j) == Boss(k, j)
    {
      assert k'.procs[j].waitlist == k.procs[j].waitlist;
    }
    SameGraph(k, k');
  }

  lemma SameMisses(k: Kernel, t: Kernel, now: nat)
    requires t.procs == k.procs && t.halted == k.halted
    ensures TickMisses(t, now) == TickMisses(k, now)
    ensures ExpiredSet(t, now, 0, |t.procs|) == ExpiredSet(k, now, 0, |k.procs|)
    ensures forall j :: 0 <= j < |k.procs| ==> HaltedOf(t, k.procs[j]) == HaltedOf(k, k.procs[j])
  {
  }

  lemma GentleTick(c: Pcb, s: Pcb, r: Pcb)
    requires s == c.(priority := s.priority) && Gentle(s, r)
    ensures Gentle(c, r)
  {
  }

  lemma ScannedTicks(k: Kernel, t: Kernel, s: Kernel, r: Kernel)
    requires t == k.(tick := Wrap(k.tick + 1)) && Scanned(t, s, t.tick) && Soft(s, r)
    ensures OneTick(k, r)
  {
    hide Ticked, TickMisses, HasMissed, ReleasedPcb, ExpiredPcb, Without, ExpiredSet, HaltedOf, Gentle;
    SameMisses(k, t, t.tick);
    forall j | 0 <= j < |k.procs| ensures Gentle(Ticked(k.procs[j], t.tick, HaltedOf(k, k.procs[j])), r.procs[j]) {
      GentleTick(Ticked(k.procs[j], t.tick, HaltedOf(t, t.procs[j])), s.procs[j], r.procs[j]);
    }
    forall h ensures Waiters(r, h) == Waiters(s, h) && Waiters(t, h) == Waiters(k, h) {}
  }
}

/** Fault recovery: restarting a process from any state leaves nothing of it behind. */
module Recovery {
  import opened Wrappers
  import opened KernelState
  import opened Order
  import opened Placement
  import opened KernelCalls
  import opened Invariants
  import opened Blocking
  import opened Arrivals
  import opened Mutexes
  import opened Timing
  import opened Ticks
  import opened Inheritance

  // ---------------------------------------------------------------- becoming READY again

  /** A process taken off wherever it was and put at the tail of its ready queue. */
  function Requeued(k: Kernel, id: Pid, c: Pcb): Kernel
    requires id < |k.procs|
  {
    var s := Slot(c.partition, c.priority);
    k.(procs := k.procs[id := c], ready := k.ready[s := Queue(k, s) + [id]])
  }

  lemma RunningRequeued(k: Kernel, id: Pid) returns (r: Kernel)
    requires Inv(k) && IsProc(k, id) && k.procs[id].state == Running
    ensures Requeue(k, id) == Out(Ok, r) && Inv(r) && (Exact(r) <==> Exact(k)) && k.procs[id].partition < |k.current|
    ensures r == Requeued(k, id, k.procs[id].(state := Ready)).(current := k.current[k.procs[id].partition := None])
    ensures Moved(k, r, [id])
  {
    var c := k.procs[id];
    assert ProcOk(k, {}, id);
    IdleBlockPlaced(k, id);
    var b := k.(procs := k.procs[id := c.(state := Blocked)], current := k.current[c.partition := None]);
    ReadyPlaced(b, {id}, id);
    r := ReadyProcess(b, c.partition, id).k;
    assert {id} - {id} == {};
    LeaveLimbo(r, {id}, id);
    assert r.procs == k.procs[id := c.(state := Ready)];
    assert Requeue(k, id) == Out(Ok, r);
    hide Requeue, ReadyProcess;
    JoinMoves(k, r, id);
    RunningRequeuedKeeps(k, r, id);
  }

  lemma RunningRequeuedKeeps(k: Kernel, r: Kernel, id: Pid)
    requires Inv(k) && Placed(r, {}) && IsProc(k, id) && k.procs[id].partition < |k.current|
    requires k.procs[id].state == Running
             && r == Requeued(k, id, k.procs[id].(state := Ready)).(current := k.current[k.procs[id].partition := None])
    ensures Inv(r) && (Exact(r) <==> Exact(k))
  {
    forall h ensures Waiters(r, h) == Waiters(k, h) {}
    forall j | 0 <= j < |k.procs| ensures ClockOk(r, r.procs[j]) { assert ClockOk(k, k.procs[j]); }
    hide Placed, Objects;
    SameObjectsFine(k, r);
    forall j: nat | j < |k.procs|
      ensures Boss(r, j) == Boss(k, j)
    {
      assert r.procs[j].waitlist == k.procs[j].waitlist;
    }
    SameGraph(k, r);
  }

  /** The state once a blocked process has left its list, its record still saying otherwise. */
  function Departed(k: Kernel, id: Pid): Kernel
    requires id < |k.procs|
  {
    if k.procs[id].waitlist != NoList then
      WithWaiters(k, k.procs[id].waitlist, Remove(Waiters(k, k.procs[id].waitlist), id)) else k
  }

  lemma DepartedOk(k: Kernel, id: Pid)
    requires Inv(k) && id < |k.procs| && k.procs[id].state == Blocked
    ensures var d := Departed(k, id);
            && Placed(d, {id}) && Objects(d) && Clocked(d) && (Exact(k) ==> Loose(d))
            && forall h :: Waiters(d, h) == Remove(Waiters(k, h), id)
  {
    var h := k.procs[id].waitlist;
    var d := Departed(k, id);
    assert ProcOk(k, {}, id);
    assert {} + {id} == {id};
    if h == NoList {
      EnterLimbo(k, {}, id);
      forall g ensures Waiters(d, g) == Remove(Waiters(k, g), id) {
        assert ListOk(k, {}, g);
        RemoveAbsent(Waiters(k, g), id);
      }
      LooseIsSettled(k);
    } else {
      LeaveList(k, {}, h, id);
      RetouchedPlaced(ClearBlocked(d, id), d, {id});
      DepartedLists(k, id);
      DepartedFine(k, id);
      if Exact(k) { DepartedLoose(k, id); }
    }
    forall j | 0 <= j < |d.procs| ensures ClockOk(d, d.procs[j]) { assert ClockOk(k, k.procs[j]); }
  }

  lemma DepartedLists(k: Kernel, id: Pid)
    requires Placed(k, {}) && id < |k.procs| && k.procs[id].waitlist != NoList
    ensures forall h :: Waiters(Departed(k, id), h) == Remove(Waiters(k, h), id)
  {
    forall g ensures Waiters(Departed(k, id), g) == Remove(Waiters(k, g), id) {
      if g != k.procs[id].waitlist {
        assert ListOk(k, {}, g);
        RemoveAbsent(Waiters(k, g), id);
      }
    }
  }

  lemma DepartedFine(k: Kernel, id: Pid)
    requires Placed(k, {}) && Objects(k) && id < |k.procs| && k.procs[id].waitlist != NoList
    ensures Objects(Departed(k, id))
  {
    var d := Departed(k, id);
    DepartedLists(k, id);
    forall g ensures ListFine(d, g) {
      assert ListFine(k, g) && ListOk(k, {}, g);
      RemoveFacts(Waiters(k, g), id);
    }
    forall m: nat | m < |d.mutexes| ensures MutexFine(d, m) { assert MutexFine(k, m); }
  }

  lemma DepartedLoose(k: Kernel, id: Pid)
    requires Placed(k, {}) && Objects(k) && id < |k.procs| && k.procs[id].waitlist != NoList
             && k.procs[id].state == Blocked && Exact(k)
    ensures Loose(Departed(k, id))
  {
    var d := Departed(k, id);
    LooseIsSettled(k);
    DepartedLists(k, id);
    forall i: nat | i < |k.procs| ensures Boss(d, i) == if i == id then None else Boss(k, i) {
      assert ListOk(k, {}, k.procs[i].waitlist);
      RemoveFacts(Waiters(k, k.procs[i].waitlist), id);
    }
    assert Prios(d) == Prios(k) && GraphOf(d).base == GraphOf(k).base && Holders(d) == Holders(k);
    GraphEdges(k, {});
    hide Placed, Objects, Departed;
    Departures(GraphOf(k), GraphOf(d), Prios(k), Owners(k));
  }

  /** What is left of a blocked process's record when it is made READY again. */
  function Woke(c: Pcb): Pcb {
    c.(state := Ready, waitlist := NoList, wakeTick := TICK_NONE, op := NoOp, resultPending := false)
  }

  lemma BlockedRequeued(k: Kernel, id: Pid) returns (r: Kernel)
    requires Inv(k) && IsProc(k, id) && k.procs[id].state == Blocked
    ensures Requeue(k, id) == Out(Ok, r) && Placed(r, {id}) && Objects(r) && (Exact(k) ==> Exact(r))
    ensures r == k.(procs := r.procs, ready := r.ready, lists := r.lists) && |r.procs| == |k.procs|
    ensures forall i :: 0 <= i < |k.procs| ==>
            r.procs[i] == (if i == id then Woke(k.procs[i]) else k.procs[i]).(priority := r.procs[i].priority)
    ensures forall h :: Waiters(r, h) == Remove(Waiters(k, h), id)
    ensures ReadyQueued(r, id) && Moved(k, r, SweepEnds(k, 0) + [id])
  {
    hide Placed, Objects, Clocked, Exact, Loose, RefreshPriorities, Over, Settled, Moved;
    var d := Departed(k, id);
    DepartedOk(k, id);
    LooseIsSettled(d);
    LooseOver(d);
    var l := RefreshPrioritiesOk(d, {id});
    assert l.procs[id] == k.procs[id].(priority := l.procs[id].priority) && d.procs == k.procs;
    r := WokenQueued(l, id);
    assert Requeue(k, id) == Out(Ok, r);
    DepartedEnds(k, id);
    MovedTrans(d, l, r, SweepEnds(d, 0), [id]);
    MovedFrom(k, d, r, SweepEnds(k, 0) + [id]);
  }

  lemma DepartedEnds(k: Kernel, id: Pid)
    requires id < |k.procs|
    ensures SweepEnds(Departed(k, id), 0) == SweepEnds(k, 0)
    ensures Departed(k, id).procs == k.procs && Departed(k, id).ready == k.ready
  {
    SweepEndsSame(k, Departed(k, id), 0);
  }

  lemma MovedFrom(k: Kernel, d: Kernel, r: Kernel, arrivals: seq<Pid>)
    requires d.procs == k.procs && d.ready == k.ready && Moved(d, r, arrivals)
    ensures Moved(k, r, arrivals)
  {
    MovedNobody(k, d);
    MovedTrans(k, d, r, [], arrivals);
    assert [] + arrivals == arrivals;
  }

  /** The process is in the queue its record names. */
  predicate ReadyQueued(k: Kernel, id: Pid) {
    id < |k.procs| && k.procs[id].state == Ready && id in Queue(k, Slot(k.procs[id].partition, k.procs[id].priority))
  }

  lemma WokenQueued(l: Kernel, id: Pid) returns (r: Kernel)
    requires Placed(l, {id}) && Objects(l) && IsProc(l, id) && l.procs[id].state == Blocked
    ensures PartitionAddProcess(SetState(WithProc(l, id,
            l.procs[id].(waitlist := NoList, wakeTick := TICK_NONE, op := NoOp, resultPending := false)), id,
              Ready).k, id) == Out(Ok, r)
    ensures Placed(r, {id}) && Objects(r) && (Exact(r) <==> Exact(l)) && ReadyQueued(r, id)
    ensures r == Requeued(l, id, Woke(l.procs[id])) && Moved(l, r, [id])
  {
    var c := WithProc(l, id, l.procs[id].(waitlist := NoList, wakeTick := TICK_NONE, op := NoOp,
      resultPending := false));
    assert ProcOk(l, {id}, id);
    RetouchedPlaced(l, c, {id});
    ReadyPlaced(c, {id}, id);
    r := ReadyProcess(c, c.procs[id].partition, id).k;
    assert r.procs == l.procs[id := Woke(l.procs[id])];
    hide ReadyProcess;
    JoinMoves(l, r, id);
    WokenKeeps(l, r, id);
  }

  lemma WokenKeeps(l: Kernel, r: Kernel, id: Pid)
    requires Placed(l, {id}) && Objects(l) && IsProc(l, id) && r == Requeued(l, id, Woke(l.procs[id]))
    ensures Objects(r) && (Exact(r) <==> Exact(l))
  {
    forall h ensures Waiters(r, h) == Waiters(l, h) && id !in Waiters(l, h) { assert ListOk(l, {id}, h); }
    hide Placed, Objects;
    SameObjectsFine(l, r);
    forall j: nat | j < |l.procs| ensures Boss(r, j) == Boss(l, j) { }
    SameGraph(l, r);
  }

  // ---------------------------------------------------------------- restart

  /** A new release begins now, with no wait left over. */
  function Begun(c: Pcb, now: nat): Pcb {
    c.(periodicWaiting := false, timedWaiting := false, release := now, deadline := DeadlineOf(c, now))
  }

  /** Clocked, but for the times of process id. */
  ghost predicate ClockedBut(k: Kernel, id: Pid) {
    k.tick <= TICK_NONE && k.nextDue <= TICK_NONE && (forall j :: j in k.pending ==> j < |k.procs|)
      && forall i :: 0 <= i < |k.procs| && i != id ==> ClockOk(k, k.procs[i])
  }

  lemma RearmOk(k: Kernel, limbo: set<Pid>, id: Pid) returns (r: Kernel)
    requires Placed(k, limbo) && limbo <= {id} && Objects(k) && ClockedBut(k, id) && IsProc(k, id)
    requires k.procs[id].waitlist == NoList && k.procs[id].wakeTick == TICK_NONE && k.procs[id].state != Blocked
    ensures r == Rearm(k, id, k.tick) && Inv(r) && (Exact(r) <==> Exact(k))
    ensures r == k.(procs := k.procs[id := Begun(k.procs[id], k.tick)],
            nextDue := Sooner(k.nextDue, DeadlineOf(k.procs[id], k.tick)))
  {
    var begun := WithProc(k, id, k.procs[id].(periodicWaiting := false, timedWaiting := false, release := k.tick));
    ArmDeadlineIs(begun, id);
    r := Rearm(k, id, k.tick);
    assert r.procs == k.procs[id := Begun(k.procs[id], k.tick)];
    EnterLimbo(k, limbo, id);
    assert limbo + {id} == {id} && {id} - {id} == {};
    RetouchedPlaced(k, r, {id});
    LeaveLimbo(r, {id}, id);
    forall j | 0 <= j < |k.procs| ensures ClockOk(r, r.procs[j]) { assert j != id ==> ClockOk(k, k.procs[j]); }
    hide Placed, Objects, Rearm;
    SameObjectsFine(k, r);
    forall j: nat | j < |k.procs|
      ensures Boss(r, j) == Boss(k, j)
    {
      assert r.procs[j].waitlist == k.procs[j].waitlist;
    }
    SameGraph(k, r);
  }

  /** What a restart promises about the process: it owns nothing, waits for nothing, is queued
      READY (a suspended one stays suspended), and its new release begins at the current tick. */
  ghost predicate Fresh(k: Kernel, r: Kernel, id: Pid) {
    && id < |k.procs| == |r.procs|
    && (forall m: nat :: m < |r.mutexes| ==> MutexOwner(r, m) != Some(id))
    && (forall h :: id !in Waiters(r, h))
    && FreshRecord(k.procs[id], r.procs[id], k.tick) && (k.procs[id].state == Blocked ==> !r.procs[id].resultPending)
    && (r.procs[id].state == Ready ==> ReadyQueued(r, id))
    && (r.procs[id].state == Ready || k.procs[id].state == Suspended)
    && (forall p :: 0 <= p < |r.current| ==> r.current[p] != Some(id))
    && (Exact(k) ==> r.procs[id].priority == r.procs[id].base)
  }

  predicate FreshRecord(c: Pcb, c': Pcb, now: nat) {
    && SameSettings(c, c')
    && (c.state == Suspended <==> c'.state == Suspended)
    && c'.waitlist == NoList && c'.wakeTick == TICK_NONE && !c'.periodicWaiting && !c'.timedWaiting
    && c'.release == now && c'.deadline == DeadlineOf(c, now) && c'.misses == c.misses
    && c'.op == if c.state == Blocked then NoOp else c.op
  }

  /** ... and it may have been dispatched since. */
  predicate RestartedTo(c: Pcb, c': Pcb, now: nat) {
    && FreshRecord(c, c'.(state := if c.state == Suspended then Suspended else Ready), now)
    && (c'.state == Suspended || (c.state != Suspended && c'.state in {Ready, Running}))
  }

  /** Every mutex the process held is free and unwanted, or went to its best waiter: the best
      one when its turn came, and with exact inheritance the best one from the start. */
  ghost predicate MutexesGone(k: Kernel, r: Kernel, id: Pid) {
    && |r.mutexes| == |k.mutexes|
    && (forall m: nat :: m < |k.mutexes| ==>
          if MutexOwner(k, m) == Some(id) then GivenToBest(k, r, id, 0, m) else r.mutexes[m] == k.mutexes[m])
    && (Exact(k) ==> forall m: nat :: m < |k.mutexes| && MutexOwner(k, m) == Some(id) ==> BestTakes(k, r, m))
  }

  lemma OwnsNothingIsBase(r: Kernel, id: Pid)
    requires Exact(r) && id < |r.procs| && forall m: nat :: m < |r.mutexes| ==> MutexOwner(r, m) != Some(id)
    ensures r.procs[id].priority == r.procs[id].base
  {
    assert Tight(GraphOf(r), Prios(r), id);
    forall j: nat | j < |r.procs| ensures Boss(r, j) != Some(id) {}
  }

  lemma NotCurrent(r: Kernel, id: Pid, p: nat)
    requires Placed(r, {}) && id < |r.procs| && r.procs[id].state != Running && p < |r.current|
    ensures r.current[p] != Some(id)
  {
    assert CurrentOk(r, p);
  }

  /** Assembling what a restart promises from where its steps leave the process. */
  lemma FreshFrom(k: Kernel, f: Kernel, q: Kernel, r: Kernel, id: Pid)
    requires Inv(r) && (Exact(k) ==> Exact(r)) && id < |k.procs| == |f.procs| && |q.procs| == |k.procs|
             && |r.procs| == |k.procs|
    requires forall m: nat :: m < |r.mutexes| ==> MutexOwner(r, m) != Some(id)
    requires f.procs[id] == k.procs[id].(priority := f.procs[id].priority) && k.procs[id].state != Unused
    requires q.procs[id].state == (if k.procs[id].state == Suspended then Suspended else Ready)
    requires q.procs[id] == (if k.procs[id].state == Blocked then Woke(f.procs[id])
             else f.procs[id]).(priority := q.procs[id].priority, state := q.procs[id].state)
    requires r.procs[id] == Begun(q.procs[id], k.tick) && q.procs[id].waitlist == NoList
             && q.procs[id].wakeTick == TICK_NONE
    ensures Fresh(k, r, id)
  {
    if Exact(k) { OwnsNothingIsBase(r, id); }
    forall h ensures id !in Waiters(r, h) { assert ListOk(r, {}, h); }
    forall p: nat | p < |r.current| ensures r.current[p] != Some(id) { NotCurrent(r, id, p); }
    assert ProcOk(r, {}, id);
    hide Exact, Placed, Objects, Clocked;
  }

  /** Who is requeued with process id: if it was BLOCKED, first the READY processes at which the
      owners' chains end; then itself, unless it was READY and keeps its place, or suspended. */
  ghost function RequeueArrivals(k: Kernel, id: Pid): seq<Pid> {
    if id >= |k.procs| then []
    else
      match k.procs[id].state
      case Running => [id]
      case Blocked => SweepEnds(k, 0) + [id]
      case _ => []
  }

  /** The processes on the CPUs without process id. */
  function Vacated(k: Kernel, id: Pid): seq<Option<Pid>>
    requires id < |k.procs|
  {
    if k.procs[id].state == Running && k.procs[id].partition < |k.current| then
      k.current[k.procs[id].partition := None] else k.current
  }

  /** Requeueing, whatever the process was doing. */
  lemma RequeueOk(k: Kernel, id: Pid) returns (q: Kernel, limbo: set<Pid>)
    requires Inv(k) && IsProc(k, id)
    ensures Requeue(k, id) == Out(Ok, q) && Placed(q, limbo) && limbo <= {id} && Objects(q) && ClockedBut(q, id)
            && (Exact(k) ==> Exact(q))
    ensures q == k.(procs := q.procs, ready := q.ready, lists := q.lists, current := Vacated(k, id))
            && |q.procs| == |k.procs| && |q.current| == |k.current|
    ensures Moved(k, q, RequeueArrivals(k, id))
    ensures q.procs[id].state == (if k.procs[id].state == Suspended then Suspended else Ready)
    ensures q.procs[id] == (if k.procs[id].state == Blocked then Woke(k.procs[id])
            else k.procs[id]).(priority := q.procs[id].priority, state := q.procs[id].state)
    ensures q.procs[id].waitlist == NoList && q.procs[id].wakeTick == TICK_NONE
    ensures forall i :: 0 <= i < |k.procs| && i != id ==> q.procs[i] == k.procs[i].(priority := q.procs[i].priority)
    ensures forall h :: Waiters(q, h) == Remove(Waiters(k, h), id)
  {
    hide Exact, Objects, Requeue, Moved;
    assert WaitOk(k, id) by { assert ProcOk(k, {}, id); }
    if k.procs[id].state == Blocked {
      q := BlockedRequeued(k, id);
      limbo := {id};
      assert ClockOk(k, k.procs[id]);
      forall j | 0 <= j < |q.procs| && j != id ensures ClockOk(q, q.procs[j]) { assert ClockOk(k, k.procs[j]); }
    } else {
      limbo := {};
      forall h ensures Remove(Waiters(k, h), id) == Waiters(k, h) {
        assert ListOk(k, {}, h);
        RemoveAbsent(Waiters(k, h), id);
      }
      if k.procs[id].state == Running {
        q := RunningRequeued(k, id);
        assert ClockOk(k, k.procs[id]);
        forall h ensures Waiters(q, h) == Waiters(k, h) {}
      } else {
        q := k;
        assert ClockOk(k, k.procs[id]);
        MovedNobody(k, k);
        RequeueIdles(k, id);
      }
    }
  }

  lemma RequeueIdles(k: Kernel, id: Pid)
    requires IsProc(k, id) && k.procs[id].state !in {Running, Blocked}
    ensures Requeue(k, id) == Out(Ok, k)
  {
  }

  /** Who is requeued by a restart of process id, in this order: as its mutexes are given away,
      then with the process itself. */
  ghost function RestartArrivals(k: Kernel, id: Pid): seq<Pid> {
    ReleaseArrivals(k, id, 0, |k.mutexes|) + RequeueArrivals(ReleaseAll(k, id), id)
  }

  /** A restart succeeds from every state, leaves nothing of the process behind, keeps every
      invariant and the inheritance equation, and spares everybody else. */
  lemma RestartOk(k: Kernel, id: Pid) returns (r: Kernel)
    requires Inv(k) && IsProc(k, id)
    ensures Restart(k, id) == Out(Ok, r) && Inv(r) && (Exact(k) ==> Exact(r))
    ensures Fresh(k, r, id) && MutexesGone(k, r, id) && Framed(k, r, id)
    ensures r.sems == k.sems && r.channels == k.channels
            && forall h: ListId :: !h.OnMutex? ==> Waiters(r, h) == Remove(Waiters(k, h), id)
    ensures r.current == Vacated(k, id) && Moved(k, r, RestartArrivals(k, id))
  {
    hide Inv, Placed, Objects, ClockedBut, Exact, Requeue, ReleaseFrom, Rearm, Fresh, Framed, Released, MutexesGone,
         DeadlineOf, Sooner, BestTakes, Moved, ReleaseArrivals, RequeueArrivals;
    var f := ReleaseAllOk(k, id);
    ReleasedSame(k, f, id);
    var q, limbo := RequeueOk(f, id);
    r := RearmOk(q, limbo, id);
    assert Restart(k, id) == Out(Ok, r);
    RestartRecords(k, f, q, r, id);
    RestartLists(k, f, r, id);
    forall m: nat | m < |r.mutexes|
      ensures MutexOwner(r, m) != Some(id)
    {
      assert MutexOwner(r, m) == MutexOwner(f, m);
    }
    FreshFrom(k, f, q, r, id);
    RestartMoves(k, f, q, r, id);
  }

  lemma RestartMoves(k: Kernel, f: Kernel, q: Kernel, r: Kernel, id: Pid)
    requires Inv(k) && id < |k.procs| == |f.procs| == |q.procs| && f == ReleaseAll(k, id) && f.current == k.current
    requires f.procs[id] == k.procs[id].(priority := f.procs[id].priority) && q.current == Vacated(f, id)
    requires r == q.(procs := q.procs[id := Begun(q.procs[id], q.tick)], nextDue := r.nextDue)
    requires Moved(k, f, ReleaseArrivals(k, id, 0, |k.mutexes|)) && Moved(f, q, RequeueArrivals(f, id))
    ensures r.current == Vacated(k, id) && Moved(k, r, RestartArrivals(k, id))
  {
    forall s ensures Queue(r, s) == Queue(q, s) {}
    forall j: nat | j < |q.procs| ensures PlaceOf(r, j) == PlaceOf(q, j) {}
    hide Inv, ReleaseFrom, Moved, ReleaseArrivals, RequeueArrivals;
    MovedSame(f, q, r, RequeueArrivals(f, id));
    MovedTrans(k, f, r, ReleaseArrivals(k, id, 0, |k.mutexes|), RequeueArrivals(f, id));
  }

  lemma ReleasedSame(k: Kernel, f: Kernel, id: Pid)
    requires Released(k, f, id, 0, |k.mutexes|)
    ensures f == k.(procs := f.procs, ready := f.ready, lists := f.lists, mutexes := f.mutexes)
            && |f.procs| == |k.procs| && id < |k.procs|
    ensures f.procs[id] == k.procs[id].(priority := f.procs[id].priority) && Framed(k, f, id)
            && |f.mutexes| == |k.mutexes|
    ensures forall h: ListId :: !h.OnMutex? ==> Waiters(f, h) == Waiters(k, h)
  {
  }

  lemma RestartRecords(k: Kernel, f: Kernel, q: Kernel, r: Kernel, id: Pid)
    requires Framed(k, f, id) && id < |f.procs| == |q.procs| == |r.procs| && |q.current| == |f.current|
    requires q == f.(procs := q.procs, ready := q.ready, lists := q.lists, current := q.current)
    requires forall i :: 0 <= i < |f.procs| && i != id ==> q.procs[i] == f.procs[i].(priority := q.procs[i].priority)
    requires q.procs[id].state == (if f.procs[id].state == Suspended then Suspended else Ready)
             && f.procs[id].state != Unused
    requires q.procs[id] == (if f.procs[id].state == Blocked then Woke(f.procs[id])
             else f.procs[id]).(priority := q.procs[id].priority, state := q.procs[id].state)
    requires r == q.(procs := q.procs[id := Begun(q.procs[id], q.tick)], nextDue := r.nextDue)
    ensures Framed(k, r, id)
  {
    forall i | 0 <= i < |k.procs|
      ensures SameSettings(k.procs[i], r.procs[i]) && (i != id ==> Spared(k.procs[i], r.procs[i]))
    {
      assert SameSettings(k.procs[i], f.procs[i]) && (i != id ==> Spared(k.procs[i], f.procs[i]));
      if i != id {
        assert Gentle(f.procs[i], r.procs[i]);
        SparedTrans(k.procs[i], f.procs[i], r.procs[i]);
      }
    }
  }

  lemma RestartLists(k: Kernel, f: Kernel, r: Kernel, id: Pid)
    requires Inv(k) && Released(k, f, id, 0, |k.mutexes|) && r.mutexes == f.mutexes
    requires forall h :: Waiters(r, h) == Remove(Waiters(f, h), id)
    requires Exact(k) ==> forall m: nat :: m < |k.mutexes| && MutexOwner(k, m) == Some(id) ==> BestTakes(k, f, m)
    ensures MutexesGone(k, r, id)
  {
    hide Exact, MostUrgent, ReleaseFrom, Inv, Framed;
    forall m: nat | m < |k.mutexes|
      ensures if MutexOwner(k, m) == Some(id) then GivenToBest(k, r, id, 0, m) else r.mutexes[m] == k.mutexes[m]
    {
      assert MutexReleased(k, f, id, m, 0, |k.mutexes|);
      if MutexOwner(k, m) == Some(id) {
        GivenAwayStill(k, f, r, id, m);
      }
    }
  }

  lemma GivenAwayStill(k: Kernel, f: Kernel, r: Kernel, id: Pid, m: nat)
    requires Inv(k) && m < |k.mutexes| == |f.mutexes| && MutexOwner(k, m) == Some(id) && GivenToBest(k, f, id, 0, m)
    requires r.mutexes == f.mutexes && Waiters(r, OnMutex(m)) == Remove(Waiters(f, OnMutex(m)), id)
    ensures GivenToBest(k, r, id, 0, m)
  {
    hide MostUrgent, ReleaseFrom;
    var l := Waiters(k, OnMutex(m));
    assert ListOk(k, {}, OnMutex(m));
    assert id !in l by { if id in l { WaitersAreOthers(k, m, id, id); } }
    if l != [] { RemoveFacts(l, f.mutexes[m].owner.value); }
    RemoveAbsent(Waiters(f, OnMutex(m)), id);
  }

  // ---------------------------------------------------------------- acting on a fault

  /** What the recovery of a fault of process id may change: its own record, whatever its
      mutexes and its partition's dispatch entail, and with a halt the partition's flag. */
  ghost predicate Recovered(k: Kernel, r: Kernel, id: Pid, action: Action) {
    && Framed(k.(halted := r.halted), r, id) && |r.halted| == |k.halted|
    && (action != HaltPartition ==> r.halted == k.halted)
    && (action != RestartProcess ==> r == k.(halted := r.halted))
    && (forall p :: 0 <= p < |k.halted| && k.halted[p] ==> r.halted[p])
    && r.sems == k.sems && r.channels == k.channels
    && forall h: ListId :: !h.OnMutex? ==> Waiters(r, h) == if action == RestartProcess then Remove(Waiters(k, h), id)
       else Waiters(k, h)
  }

  lemma HaltKeeps(k: Kernel, p: nat) returns (r: Kernel)
    requires Inv(k) && p < |k.halted|
    ensures r == k.(halted := k.halted[p := true]) && Inv(r) && (Exact(r) <==> Exact(k))
  {
    r := k.(halted := k.halted[p := true]);
    RetouchedPlaced(k, r, {});
    forall j | 0 <= j < |k.procs| ensures ClockOk(r, r.procs[j]) { assert ClockOk(k, k.procs[j]); }
    hide Placed, Objects;
    SameObjectsFine(k, r);
    forall j: nat | j < |k.procs|
      ensures Boss(r, j) == Boss(k, j)
    {
      assert r.procs[j].waitlist == k.procs[j].waitlist;
    }
    SameGraph(k, r);
  }

  /** q is k after a restart of process id and before anything is dispatched: nothing of it is
      left behind, nobody but it left a CPU, and who was requeued, in which order. */
  ghost predicate RestartDone(k: Kernel, q: Kernel, id: Pid) {
    && id < |k.procs| && Fresh(k, q, id) && MutexesGone(k, q, id) && Framed(k, q, id)
    && q.current == Vacated(k, id) && Moved(k, q, RestartArrivals(k, id))
    && q.sems == k.sems && q.channels == k.channels
    && forall h: ListId :: !h.OnMutex? ==> Waiters(q, h) == Remove(Waiters(k, h), id)
  }

  /** A restarted process that was on the CPU gives way to its peers, unless the partition is
      halted; any other restart dispatches nothing. */
  ghost predicate RestartEnacted(k: Kernel, r: Out, id: Pid, onCpu: bool)
    requires id < |k.procs|
  {
    var p := k.procs[id].partition;
    p < |k.halted| &&
    exists q: Kernel :: RestartDone(k, q, id) &&
      if !onCpu then r == Out(Ok, q)
      else if k.halted[p] then r == Out(PartitionHalted, q)
      else p < |r.k.current| && Selected(q, r.k, p, true) && r.st == if r.k.current[p].Some? then Ok else QueueEmpty
  }

  /** Without a dispatch every other process keeps or keeps off the CPU. */
  lemma RestartKeepsRunning(k: Kernel, q: Kernel, id: Pid, j: Pid)
    requires Inv(k) && Inv(q) && IsProc(k, id) && Framed(k, q, id) && q.current == Vacated(k, id)
    requires j < |k.procs| && j != id
    ensures j < |q.procs| && (q.procs[j].state == Running <==> k.procs[j].state == Running)
  {
    assert ProcOk(k, {}, j) && ProcOk(q, {}, j) && ProcOk(k, {}, id);
    assert SameSettings(k.procs[j], q.procs[j]);
    var p := k.procs[j].partition;
    if p < |k.current| { assert CurrentOk(k, p) && CurrentOk(q, p); }
  }

  /** Nobody but process id left a CPU, and nobody was put on one. */
  ghost predicate SparesCpus(k: Kernel, q: Kernel, id: Pid) {
    && |q.procs| == |k.procs| && |q.current| == |k.current|
    && (forall p :: 0 <= p < |k.current| ==> q.current[p] == if k.current[p] == Some(id) then None else k.current[p])
    && forall j: Pid :: j < |k.procs| && j != id ==> (q.procs[j].state == Running <==> k.procs[j].state == Running)
  }

  lemma RestartSpares(k: Kernel, q: Kernel, id: Pid)
    requires Inv(k) && Inv(q) && IsProc(k, id) && Framed(k, q, id) && q.current == Vacated(k, id)
    ensures SparesCpus(k, q, id)
  {
    assert ProcOk(k, {}, id);
    forall p: nat | p < |k.current|
      ensures q.current[p] == if k.current[p] == Some(id) then None else k.current[p]
    {
      assert CurrentOk(k, p);
    }
    forall j: Pid | j < |k.procs| && j != id
      ensures j < |q.procs| && (q.procs[j].state == Running <==> k.procs[j].state == Running)
    {
      RestartKeepsRunning(k, q, id, j);
    }
  }

  /** Enacting a recovery action keeps every invariant and the inheritance equation. Ignoring
      and halting succeed and change nothing but the halted flag; a restarted process that was
      on the CPU goes behind its equals and the partition makes one selection; a restart of any
      other process succeeds and takes the CPU from nobody. */
  lemma EnactFaultOk(k: Kernel, id: Pid, action: Action, onCpu: bool) returns (r: Out)
    requires Inv(k) && IsProc(k, id)
    ensures r == EnactFault(k, id, action, onCpu) && |r.k.procs| == |k.procs| && Inv(r.k) && (Exact(k) ==> Exact(r.k))
            && Recovered(k, r.k, id, action)
    ensures action != RestartProcess ==> r.st == Ok
    ensures action == HaltPartition ==>
            k.procs[id].partition < |k.halted| && r.k.halted == k.halted[k.procs[id].partition := true]
    ensures action == RestartProcess ==> RestartEnacted(k, r, id, onCpu)
    ensures action == RestartProcess && !onCpu ==> r.st == Ok && SparesCpus(k, r.k, id)
    ensures action == RestartProcess ==> RestartedTo(k.procs[id], r.k.procs[id], k.tick)
    ensures action == RestartProcess && onCpu && r.st == Ok ==> NobodyAbove(r.k, k.procs[id].partition)
    ensures action == RestartProcess && onCpu && k.procs[id].state != Suspended ==>
              k.procs[id].partition < |k.halted| && (r.st == Ok || k.halted[k.procs[id].partition])
  {
    hide Selected, Moved, RestartArrivals, MutexesGone, FreshRecord, NoneAbove, RestartEnacted;
    var c := k.procs[id];
    assert c.partition < |k.halted| && WaitOk(k, id) by { assert ProcOk(k, {}, id); }
    match action
    case Ignore =>
      r := Out(Ok, k);
      StaysFramed(k, id);
    case HaltPartition =>
      var h := HaltKeeps(k, c.partition);
      StaysFramed(h, id);
      assert k.(halted := h.halted) == h;
      r := Out(Ok, h);
    case RestartProcess =>
      r := EnactRestart(k, id, onCpu);
  }

  /** Partition p has a running process that nobody READY there outranks. */
  ghost predicate NobodyAbove(k: Kernel, p: nat) {
    p < |k.current| && k.current[p].Some? && k.current[p].value < |k.procs| && NoneAbove(k, p, k.current[p].value)
  }

  lemma EnactRestart(k: Kernel, id: Pid, onCpu: bool) returns (r: Out)
    requires Inv(k) && IsProc(k, id) && k.procs[id].partition < |k.current|
    ensures r == EnactFault(k, id, RestartProcess, onCpu) && Inv(r.k) && (Exact(k) ==> Exact(r.k))
            && Recovered(k, r.k, id, RestartProcess)
    ensures RestartEnacted(k, r, id, onCpu)
    ensures !onCpu ==> r.st == Ok && SparesCpus(k, r.k, id)
    ensures RestartedTo(k.procs[id], r.k.procs[id], k.tick)
    ensures onCpu && r.st == Ok ==> NobodyAbove(r.k, k.procs[id].partition)
    ensures onCpu && k.procs[id].state != Suspended ==>
              k.procs[id].partition < |k.halted| && (r.st == Ok || k.halted[k.procs[id].partition])
  {
    assert k.procs[id].partition < |k.halted|;
    hide Inv, Exact, Restart, PartitionSelect, Framed, MutexesGone, NoneAbove, FreshRecord, SameSettings, Moved,
         RestartArrivals, Selected, Vacated, Fresh, RestartEnacted, Recovered, RestartedTo, SparesCpus;
    var q := RestartOk(k, id);
    FramedSizes(k, q, id);
    r := EnactFault(k, id, RestartProcess, onCpu);
    if onCpu {
      RestartOnCpu(k, q, id, r);
    } else {
      RestartOffCpu(k, q, id, r);
    }
  }

  lemma RestartOffCpu(k: Kernel, q: Kernel, id: Pid, r: Out)
    requires Inv(k) && Inv(q) && IsProc(k, id) && k.procs[id].partition < |k.halted| && RestartDone(k, q, id)
             && r == Out(Ok, q)
    ensures Recovered(k, r.k, id, RestartProcess) && RestartEnacted(k, r, id, false) && SparesCpus(k, r.k, id)
    ensures RestartedTo(k.procs[id], r.k.procs[id], k.tick)
  {
    hide Inv, Framed, MutexesGone, FreshRecord, SameSettings, Moved, RestartArrivals, Vacated, Selected, SparesCpus;
    FreshFacts(k, q, id);
    FramedSizes(k, q, id);
    RestartSpares(k, q, id);
    assert k.(halted := r.k.halted) == k;
  }

  lemma RestartOnCpu(k: Kernel, q: Kernel, id: Pid, r: Out)
    requires Inv(k) && Inv(q) && IsProc(k, id) && k.procs[id].partition < |k.current| && RestartDone(k, q, id)
    requires id < |q.procs| && var y := PartitionSelect(q, q.procs[id].partition, true); r == Out(y.st, y.k)
    ensures Inv(r.k) && (Exact(q) ==> Exact(r.k))
    ensures Recovered(k, r.k, id, RestartProcess) && RestartEnacted(k, r, id, true)
    ensures RestartedTo(k.procs[id], r.k.procs[id], k.tick)
    ensures r.st == Ok ==> NobodyAbove(r.k, k.procs[id].partition)
    ensures k.procs[id].state != Suspended ==>
              k.procs[id].partition < |k.halted| && (r.st == Ok || k.halted[k.procs[id].partition])
  {
    hide Inv, Exact, PartitionSelect, Framed, MutexesGone, NoneAbove, FreshRecord, SameSettings, Moved,
         RestartArrivals, Selected, Vacated, Fresh, RestartedTo, SparesCpus;
    FreshFacts(k, q, id);
    FramedSizes(k, q, id);
    var p := q.procs[id].partition;
    var y := PartitionSelect(q, p, true);
    DispatchKeeps(q, p, true, y);
    if k.procs[id].state != Suspended { RestartDispatches(k, q, id, p, y); }
    FramedThenSoft(k, q, y.k, id);
    FramedSizes(k, y.k, id);
    SoftFresh(k.procs[id], q, y.k, id, k.tick);
    forall h ensures Waiters(y.k, h) == Waiters(q, h) {}
    RestartSelects(q, p, y);
    assert k.(halted := r.k.halted) == k;
  }

  lemma RestartSelects(q: Kernel, p: nat, y: Sel)
    requires Inv(q) && p < |q.current| && y == PartitionSelect(q, p, true)
    ensures p < |q.halted| && p < |y.k.current|
    ensures if q.halted[p] then y.st == PartitionHalted && y.k == q
            else Selected(q, y.k, p, true) && y.st == if y.k.current[p].Some? then Ok else QueueEmpty
  {
    hide PartitionSelect, Selected, NoneAbove, Rescheduled;
    SelectOk(q, p, true);
    if !q.halted[p] { SelectIs(q, p, true); }
  }

  /** The restarted process itself is READY, so the dispatch finds somebody. */
  lemma RestartDispatches(k: Kernel, q: Kernel, id: Pid, p: nat, y: Sel)
    requires Inv(q) && Fresh(k, q, id) && k.procs[id].state != Suspended && p == q.procs[id].partition
             && p < |q.current|
    requires y == PartitionSelect(q, p, true)
    ensures p < |q.halted| && (y.st == Ok || q.halted[p])
  {
    hide PartitionSelect, NoneAbove, Rescheduled;
    SelectOk(q, p, true);
    assert ProcOk(q, {}, id);
    BestIsLeast(q, {}, p, id);
  }

  lemma FramedSizes(k: Kernel, r: Kernel, id: Pid)
    requires Framed(k, r, id) && id < |k.procs|
    ensures |r.procs| == |k.procs| && |r.current| == |k.current| && r.halted == k.halted && r.tick == k.tick
            && SameSettings(k.procs[id], r.procs[id])
    ensures r.procs[id].partition == k.procs[id].partition
  {
  }

  lemma FreshFacts(k: Kernel, r: Kernel, id: Pid)
    requires Fresh(k, r, id)
    ensures id < |k.procs| == |r.procs| && FreshRecord(k.procs[id], r.procs[id], k.tick)
            && r.procs[id].state in {Ready, Suspended}
    ensures r.procs[id].state == if k.procs[id].state == Suspended then Suspended else Ready
  {
  }

  lemma SoftFresh(c: Pcb, q: Kernel, r: Kernel, id: Pid, now: nat)
    requires Soft(q, r) && id < |q.procs| && FreshRecord(c, q.procs[id], now)
             && q.procs[id].state == if c.state == Suspended then Suspended else Ready
    requires c.state != Unused
    ensures id < |r.procs| && RestartedTo(c, r.procs[id], now)
  {
    assert Gentle(q.procs[id], r.procs[id]);
  }

  // ---------------------------------------------------------------- draining recorded misses

  predicate WillRestart(k: Kernel, policy: seq<Action>, j: Pid)
    requires j < |k.procs|
  {
    j in k.pending && k.procs[j].state != Unused && k.procs[j].partition < |policy|
      && policy[k.procs[j].partition] == RestartProcess
  }

  /** What handling the pending misses from i up to n may do to process j: nothing but
      rescheduling and grants, unless its own miss is pending and its policy restarts it. */
  ghost predicate DrainedProc(k: Kernel, r: Kernel, policy: seq<Action>, i: nat, n: nat, j: Pid)
    requires j < |k.procs| == |r.procs|
  {
    && SameSettings(k.procs[j], r.procs[j])
    && if i <= j < n && WillRestart(k, policy, j) then RestartedTo(k.procs[j], r.procs[j], k.tick)
       else Spared(k.procs[j], r.procs[j])
  }

  ghost function RestartSet(k: Kernel, policy: seq<Action>, i: nat, n: nat): set<Pid> {
    set j | i <= j < n && j < |k.procs| && WillRestart(k, policy, j)
  }

  ghost predicate Drained(k: Kernel, r: Kernel, policy: seq<Action>, i: nat, n: nat) {
    && r.tick == k.tick && |r.procs| == |k.procs| && |r.current| == |k.current| && |r.halted| == |k.halted|
    && r.sems == k.sems && r.channels == k.channels
    && (forall p :: 0 <= p < |k.halted| && k.halted[p] ==> r.halted[p])
    && (forall j: nat :: j in r.pending <==> j in k.pending && !(i <= j < n))
    && (forall h: ListId :: !h.OnMutex? ==> Waiters(r, h) == Without(Waiters(k, h), RestartSet(k, policy, i, n)))
    && forall j: nat :: j < |k.procs| ==> DrainedProc(k, r, policy, i, n, j)
  }

  lemma DrainedNothing(k: Kernel, policy: seq<Action>, i: nat, n: nat)
    requires forall j: nat :: i <= j < n ==> j !in k.pending
    ensures Drained(k, k, policy, i, n)
  {
    assert RestartSet(k, policy, i, n) == {};
    forall h ensures Without(Waiters(k, h), {}) == Waiters(k, h) { WithoutNone(Waiters(k, h)); }
  }

  lemma DrainedTrans(a: Kernel, b: Kernel, c: Kernel, policy: seq<Action>, i: nat, n: nat)
    requires i < n && Drained(a, b, policy, i, i + 1) && Drained(b, c, policy, i + 1, n)
    ensures Drained(a, c, policy, i, n)
  {
    forall j: nat | j < |a.procs| ensures DrainedProc(a, c, policy, i, n, j) {
      assert DrainedProc(a, b, policy, i, i + 1, j) && DrainedProc(b, c, policy, i + 1, n, j);
      if !(i <= j < n && WillRestart(a, policy, j)) { SparedTrans(a.procs[j], b.procs[j], c.procs[j]); }
    }
    forall h: ListId | !h.OnMutex? ensures Waiters(c, h) == Without(Waiters(a, h), RestartSet(a, policy, i, n)) {
      WithoutTwice(Waiters(a, h), RestartSet(a, policy, i, i + 1), RestartSet(b, policy, i + 1, n));
      RestartSets(a, b, policy, i, n);
    }
  }

  lemma RestartSets(a: Kernel, b: Kernel, policy: seq<Action>, i: nat, n: nat)
    requires i < n && Drained(a, b, policy, i, i + 1)
    ensures RestartSet(a, policy, i, n) == RestartSet(a, policy, i, i + 1) + RestartSet(b, policy, i + 1, n)
  {
    forall j: nat | j < |a.procs| && j != i ensures WillRestart(b, policy, j) <==> WillRestart(a, policy, j) {
      assert DrainedProc(a, b, policy, i, i + 1, j);
    }
  }

  /** One pending miss is taken and acted on. */
  lemma DrainStep(k: Kernel, policy: seq<Action>, cpu: Option<Pid>, i: Pid) returns (k': Kernel, cpu': Option<Pid>)
    requires Inv(k) && i < |k.procs|
    ensures forall n :: i < n ==> DrainFrom(k, policy, cpu, i, n) == DrainFrom(k', policy, cpu', i + 1, n)
    ensures Inv(k') && (Exact(k) ==> Exact(k')) && Drained(k, k', policy, i, i + 1)
  {
    hide Inv, Exact, Drained, EnactFault, Recovered, RestartedTo;
    k', cpu' := k, cpu;
    if i !in k.pending {
      DrainedNothing(k, policy, i, i + 1);
    } else {
      var taken := MissTaken(k, i);
      k' := taken;
      if IsProc(taken, i) && taken.procs[i].partition < |policy| {
        var action := policy[taken.procs[i].partition];
        var e := EnactFaultOk(taken, i, action, cpu == Some(i));
        k' := e.k;
        cpu' := if action == RestartProcess && cpu == Some(i) then None else cpu;
        RecoveredDrains(k, taken, e.k, policy, i, action);
      } else {
        DrainedTaken(k, taken, policy, i);
      }
    }
  }

  lemma MissTaken(k: Kernel, i: Pid) returns (r: Kernel)
    requires Inv(k) && i in k.pending
    ensures r == k.(pending := k.pending - {i}) && Inv(r) && (Exact(r) <==> Exact(k))
  {
    r := k.(pending := k.pending - {i});
    RetouchedPlaced(k, r, {});
    forall j | 0 <= j < |k.procs| ensures ClockOk(r, r.procs[j]) { assert ClockOk(k, k.procs[j]); }
    hide Placed, Objects;
    SameObjectsFine(k, r);
    forall j: nat | j < |k.procs|
      ensures Boss(r, j) == Boss(k, j)
    {
      assert r.procs[j].waitlist == k.procs[j].waitlist;
    }
    SameGraph(k, r);
  }

  lemma DrainedTaken(k: Kernel, taken: Kernel, policy: seq<Action>, i: Pid)
    requires taken == k.(pending := k.pending - {i}) && (i < |k.procs| ==> !WillRestart(k, policy, i))
    ensures Drained(k, taken, policy, i, i + 1)
  {
    assert RestartSet(k, policy, i, i + 1) == {};
    forall h ensures Without(Waiters(k, h), {}) == Waiters(taken, h) { WithoutNone(Waiters(k, h)); }
  }

  lemma RecoveredDrains(k: Kernel, taken: Kernel, r: Kernel, policy: seq<Action>, i: Pid, action: Action)
    requires Inv(k) && i < |k.procs| && i in k.pending && taken == k.(pending := k.pending - {i})
             && Recovered(taken, r, i, action)
    requires IsProc(k, i) && k.procs[i].partition < |policy| && action == policy[k.procs[i].partition]
    requires action == RestartProcess ==> i < |r.procs| && RestartedTo(taken.procs[i], r.procs[i], taken.tick)
    ensures Drained(k, r, policy, i, i + 1)
  {
    var n := i + 1;
    assert RestartSet(k, policy, i, n) == if action == RestartProcess then {i} else {};
    forall h: ListId | !h.OnMutex? ensures Waiters(r, h) == Without(Waiters(k, h), RestartSet(k, policy, i, n)) {
      WithoutNone(Waiters(k, h));
      assert Waiters(taken, h) == Waiters(k, h);
      if action == RestartProcess {
        assert ListOk(k, {}, h);
        WithoutRemoved(Waiters(k, h), i, {});
        WithoutNone(Remove(Waiters(k, h), i));
        assert {} + {i} == {i};
      }
    }
    hide Placed, Objects, Clocked;
    forall j: nat | j < |k.procs| ensures DrainedProc(k, r, policy, i, n, j) {
      assert SameSettings(taken.procs[j], r.procs[j]) && (i != j ==> Spared(taken.procs[j], r.procs[j]));
    }
  }

  /** Draining takes every pending miss of a process of the pool exactly once, in ascending id
      order, keeps every invariant and the inheritance equation, and restarts exactly the
      processes whose partition's policy says so. */
  lemma {:induction false} DrainOk(k: Kernel, policy: seq<Action>, cpu: Option<Pid>, i: Pid) returns (r: Kernel)
    requires Inv(k) && i <= |k.procs|
    ensures r == DrainFrom(k, policy, cpu, i, |k.procs|) && Inv(r) && (Exact(k) ==> Exact(r))
            && Drained(k, r, policy, i, |k.procs|)
    decreases |k.procs| - i
  {
    hide Inv, Exact, Drained;
    if i == |k.procs| {
      DrainedNothing(k, policy, i, i);
      r := k;
    } else {
      var k', cpu' := DrainStep(k, policy, cpu, i);
      DrainedSizes(k, k', policy, i, i + 1);
      r := DrainOk(k', policy, cpu', i + 1);
      DrainedTrans(k, k', r, policy, i, |k.procs|);
    }
  }

  lemma DrainedSizes(k: Kernel, r: Kernel, policy: seq<Action>, i: nat, n: nat)
    requires Drained(k, r, policy, i, n)
    ensures |r.procs| == |k.procs| && |r.current| == |k.current| && r.tick == k.tick
  {
  }

  /** What is done about the recorded miss of process i: it is taken, and the policy of the
      partition decides what else happens. */
  ghost predicate MissHandled(k: Kernel, r: Kernel, policy: seq<Action>, cpu: Option<Pid>, i: Pid) {
    var taken := k.(pending := k.pending - {i});
    if !IsProc(k, i) || k.procs[i].partition >= |policy| then r == taken
    else
      match policy[k.procs[i].partition]
      case Ignore => r == taken
      case HaltPartition =>
        k.procs[i].partition < |k.halted| && r == taken.(halted := k.halted[k.procs[i].partition := true])
      case RestartProcess => exists st :: RestartEnacted(taken, Out(st, r), i, cpu == Some(i))
  }

  /** Misses handled one after the other, in this order. */
  ghost predicate MissesHandled(k: Kernel, r: Kernel, policy: seq<Action>, cpu: Option<Pid>, ids: seq<Pid>)
    decreases |ids|
  {
    if ids == [] then r == k
    else exists q: Kernel :: MissHandled(k, q, policy, cpu, ids[0]) && MissesHandled(q, r, policy, cpu, ids[1..])
  }

  lemma TakenHandled(k: Kernel, policy: seq<Action>, cpu: Option<Pid>, now: Option<Pid>, i: Pid, n: nat)
      returns (q: Kernel, next: Option<Pid>)
    requires Inv(k) && i < |k.procs| && i in k.pending && i < n
    requires now == cpu || (now == None && cpu.Some? && cpu.value < i)
    ensures DrainFrom(k, policy, now, i, n) == DrainFrom(q, policy, next, i + 1, n)
    ensures Inv(q) && |q.procs| == |k.procs| && q.pending == k.pending - {i} && MissHandled(k, q, policy, cpu, i)
    ensures next == cpu || (next == None && cpu.Some? && cpu.value <= i)
  {
    hide Inv, Exact, EnactFault, RestartEnacted, RestartedTo, Framed, NobodyAbove, SparesCpus;
    q := MissTaken(k, i);
    next := now;
    if IsProc(k, i) && k.procs[i].partition < |policy| {
      var action := policy[k.procs[i].partition];
      var e := EnactFaultOk(q, i, action, now == Some(i));
      assert q.halted == k.halted && q.procs == k.procs;
      assert e.k.pending == q.pending by { FramedPending(q.(halted := e.k.halted), e.k, i); }
      if action == RestartProcess { assert RestartEnacted(q, Out(e.st, e.k), i, cpu == Some(i)); }
      assert MissHandled(k, e.k, policy, cpu, i);
      if action == RestartProcess && now == Some(i) { next := None; }
      q := e.k;
    }
  }

  lemma FramedPending(k: Kernel, r: Kernel, id: Pid)
    requires Framed(k, r, id)
    ensures r.pending == k.pending
  {
  }

  /** The drain handles exactly the pending misses, each once and in ascending id order; only the
      process that was on the CPU when it began gives way when it is restarted. */
  lemma {:induction false} DrainInOrder(k: Kernel, policy: seq<Action>, cpu: Option<Pid>, now: Option<Pid>, i: Pid)
    requires Inv(k) && i <= |k.procs|
    requires now == cpu || (now == None && cpu.Some? && cpu.value < i)
    ensures MissesHandled(k, DrainFrom(k, policy, now, i, |k.procs|), policy, cpu, Ascending(k.pending, i, |k.procs|))
    decreases |k.procs| - i
  {
    hide Inv, MissHandled;
    var n := |k.procs|;
    if i < n && i in k.pending {
      var q, next := TakenHandled(k, policy, cpu, now, i, n);
      DrainInOrder(q, policy, cpu, next, i + 1);
      AscendingSame(k.pending, q.pending, i + 1, n);
      assert Ascending(k.pending, i, n)[1..] == Ascending(k.pending, i + 1, n);
    } else if i < n {
      DrainInOrder(k, policy, cpu, now, i + 1);
      assert [] + Ascending(k.pending, i + 1, n) == Ascending(k.pending, i + 1, n);
    }
  }

  /** Processes without a pending miss are passed over. */
  lemma {:induction false} DrainSkips(k: Kernel, policy: seq<Action>, cpu: Option<Pid>, i: Pid, j: Pid, n: nat)
    requires i <= j <= n && forall x :: x in k.pending ==> j <= x
    ensures DrainFrom(k, policy, cpu, i, n) == DrainFrom(k, policy, cpu, j, n)
    decreases j - i
  {
    if i < j { DrainSkips(k, policy, cpu, i + 1, j, n); }
  }

  lemma DrainEnds(k: Kernel, policy: seq<Action>, cpu: Option<Pid>, i: Pid, n: nat)
    requires i <= n
    ensures k.pending == {} ==> DrainFrom(k, policy, cpu, i, n) == k
  {
    if k.pending == {} { DrainSkips(k, policy, cpu, i, n, n); }
  }
}

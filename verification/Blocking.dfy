/** Waits that start, are granted, or run out, whatever the object waited for: what the
    blocking services do to the whole invariant. */
module Blocking {
  import opened Wrappers
  import opened KernelState
  import opened Order
  import opened Placement
  import opened KernelCalls
  import opened Invariants
  import opened Inheritance

  // ---------------------------------------------------------------- what a step may do to a process

  /** Only effective priorities, and the queue positions that go with them, changed. */
  ghost predicate PriorityOnly(k: Kernel, k': Kernel) {
    && k' == k.(procs := k'.procs, ready := k'.ready) && |k'.procs| == |k.procs|
    && forall i :: 0 <= i < |k.procs| ==> k'.procs[i] == k.procs[i].(priority := k'.procs[i].priority)
  }

  /** Rescheduled or reprioritised at most. */
  predicate Gentle(c: Pcb, c': Pcb) {
    && c' == c.(state := c'.state, priority := c'.priority)
    && (c'.state == c.state || (c.state in {Ready, Running} && c'.state in {Ready, Running}))
  }

  /** A process whose IPC wait ended with this result. */
  predicate Woken(c: Pcb, c': Pcb, result: Status) {
    && c.waitlist != NoList && c'.state in {Ready, Running}
    && c' == Resumed(c, result).(state := c'.state, priority := c'.priority)
  }

  /** A process that is not the caller: at most rescheduled, or granted what it waits for. */
  predicate Spared(c: Pcb, c': Pcb) {
    Gentle(c, c') || (c.state == Blocked && Woken(c, c', Ok))
  }

  predicate SameSettings(c: Pcb, c': Pcb) {
    && c'.partition == c.partition && c'.base == c.base && c'.period == c.period && c'.capacity == c.capacity
    && (c'.state == Unused <==> c.state == Unused)
  }

  predicate SameTimes(c: Pcb, c': Pcb) {
    c'.release == c.release && c'.deadline == c.deadline && c'.misses == c.misses
  }

  /** One step on behalf of process id: time stands still and every other process is spared. */
  ghost predicate Framed(k: Kernel, k': Kernel, id: Pid) {
    && k'.tick == k.tick && k'.halted == k.halted && k'.pending == k.pending && |k'.current| == |k.current|
    && |k'.procs| == |k.procs|
    && forall i :: 0 <= i < |k.procs| ==>
         && SameSettings(k.procs[i], k'.procs[i])
         && (i != id ==> Spared(k.procs[i], k'.procs[i]))
  }

  /** Nothing but scheduling states, priorities and queue positions changed. */
  ghost predicate Soft(k: Kernel, k': Kernel) {
    && k' == k.(procs := k'.procs, ready := k'.ready, current := k'.current)
    && |k'.procs| == |k.procs| && |k'.current| == |k.current|
    && forall i :: 0 <= i < |k.procs| ==> Gentle(k.procs[i], k'.procs[i])
  }

  lemma SoftKinds(k: Kernel, k': Kernel)
    ensures PriorityOnly(k, k') ==> Soft(k, k')
    ensures Rescheduled(k, k') ==> Soft(k, k')
  {
    if PriorityOnly(k, k') || Rescheduled(k, k') {
      forall i | 0 <= i < |k.procs| ensures Gentle(k.procs[i], k'.procs[i]) {}
    }
  }

  lemma SparedTrans(a: Pcb, b: Pcb, c: Pcb)
    requires Spared(a, b) && Spared(b, c)
    ensures Spared(a, c)
  {
  }

  lemma FramedTrans(a: Kernel, b: Kernel, c: Kernel, id: Pid)
    requires Framed(a, b, id) && Framed(b, c, id)
    ensures Framed(a, c, id)
  {
    forall i | 0 <= i < |a.procs|
      ensures SameSettings(a.procs[i], c.procs[i]) && (i != id ==> Spared(a.procs[i], c.procs[i]))
    {
      assert SameSettings(a.procs[i], b.procs[i]) && SameSettings(b.procs[i], c.procs[i]);
      if i != id { SparedTrans(a.procs[i], b.procs[i], c.procs[i]); }
    }
  }

  lemma FramedThenSoft(a: Kernel, b: Kernel, c: Kernel, id: Pid)
    requires Framed(a, b, id) && Soft(b, c)
    ensures Framed(a, c, id)
  {
    forall i | 0 <= i < |a.procs|
      ensures SameSettings(a.procs[i], c.procs[i]) && (i != id ==> Spared(a.procs[i], c.procs[i]))
    {
      assert Gentle(b.procs[i], c.procs[i]);
    }
  }

  lemma SoftThenFramed(a: Kernel, b: Kernel, c: Kernel, id: Pid)
    requires Soft(a, b) && Framed(b, c, id)
    ensures Framed(a, c, id)
  {
    forall i | 0 <= i < |a.procs|
      ensures SameSettings(a.procs[i], c.procs[i]) && (i != id ==> Spared(a.procs[i], c.procs[i]))
    {
      assert Gentle(a.procs[i], b.procs[i]) && (i != id ==> Spared(b.procs[i], c.procs[i]));
    }
  }

  /** The graph of waits is read off records, lists and owners only. */
  lemma SameGraph(k: Kernel, k': Kernel)
    requires |k'.procs| == |k.procs|
    requires forall i :: 0 <= i < |k.procs| ==>
             k'.procs[i].base == k.procs[i].base && k'.procs[i].priority == k.procs[i].priority
    requires forall i: nat :: i < |k.procs| ==> Boss(k', i) == Boss(k, i)
    ensures GraphOf(k') == GraphOf(k) && Prios(k') == Prios(k) && (Exact(k') <==> Exact(k))
  {
    assert GraphOf(k').boss == GraphOf(k).boss && GraphOf(k').base == GraphOf(k).base;
    assert Prios(k') == Prios(k);
  }

  // ---------------------------------------------------------------- ending a wait

  /** A waiter taken off a list becomes READY with a result. */
  function Resumed(c: Pcb, result: Status): Pcb {
    c.(op := NoOp, waitlist := NoList, wakeTick := TICK_NONE, state := Ready, result := result, resultPending := true)
  }

  /** The ready queues with process n at the tail of one of them. */
  function Queued(k: Kernel, s: Slot, n: Pid): map<Slot, seq<Pid>> { k.ready[s := Queue(k, s) + [n]] }

  /** Waiter n got its wait on h granted or ended: it is READY, last of its level, and on no list. */
  ghost predicate Granted(k: Kernel, k': Kernel, h: ListId, n: Pid, result: Status) {
    && n < |k.procs| && n in Waiters(k, h)
    && k'.procs == k.procs[n := Resumed(k.procs[n], result)]
    && k'.lists == k.lists[h := Remove(Waiters(k, h), n)]
    && k'.ready == Queued(k, Slot(k.procs[n].partition, k.procs[n].priority), n)
    && k' == k.(procs := k'.procs, lists := k'.lists, ready := k'.ready, mutexes := k'.mutexes, sems := k'.sems,
       channels := k'.channels)
  }

  lemma GrantOk(k: Kernel, t: Kernel, h: ListId, n: Pid, result: Status)
    requires Placed(k, {}) && n in Waiters(k, h) && n < |k.procs|
    requires t == TakenOff(k, h, n).(mutexes := t.mutexes, sems := t.sems, channels := t.channels)
    ensures var r := Resolve(t, n, result); r.st == Ok && Placed(r.k, {}) && Granted(k, r.k, h, n, result)
    ensures var r := Resolve(t, n, result); r.k.mutexes == t.mutexes && r.k.sems == t.sems && r.k.channels == t.channels
  {
    TakeWaiterOk(k, {}, h, n);
    assert {} + {n} == {n};
    RetouchedPlaced(TakenOff(k, h, n), t, {n});
    assert t.procs == k.procs[n := t.procs[n]];
    ResolveOk(t, {n}, n, result);
    var r := Resolve(t, n, result);
    assert r.k.procs[n] == Resumed(k.procs[n], result);
    assert r.k.procs == k.procs[n := Resumed(k.procs[n], result)];
    assert {n} - {n} == {};
  }

  /** Whose wait ends joins the tail of its level; nobody else moves. */
  lemma GrantedMoves(k: Kernel, k': Kernel, h: ListId, n: Pid, result: Status)
    requires Placed(k, {}) && Granted(k, k', h, n, result)
    ensures Moved(k, k', [n])
  {
    TakeWaiterOk(k, {}, h, n);
    JoinMoves(k, k', n);
  }

  lemma GrantedClocked(k: Kernel, k': Kernel, h: ListId, n: Pid, result: Status)
    requires Placed(k, {}) && Clocked(k) && Granted(k, k', h, n, result)
    ensures Clocked(k')
  {
    TakeWaiterOk(k, {}, h, n);
    forall i | 0 <= i < |k'.procs| ensures ClockOk(k', k'.procs[i]) { assert ClockOk(k, k.procs[i]); }
  }

  /** Granting a wait leaves every other waiter and all objects as they were. */
  lemma GrantedFine(k: Kernel, k': Kernel, h: ListId, n: Pid, result: Status)
    requires Placed(k, {}) && Objects(k) && Granted(k, k', h, n, result)
    requires k'.mutexes == k.mutexes && k'.sems == k.sems && k'.channels == k.channels
    ensures Objects(k')
  {
    TakeWaiterOk(k, {}, h, n);
    assert ListOk(k, {}, h);
    RemoveFacts(Waiters(k, h), n);
    forall g ensures ListFine(k', g) { assert ListFine(k, g) && ListOk(k, {}, g); }
    forall x: nat | x < |k'.mutexes| ensures MutexFine(k', x) { assert MutexFine(k, x); }
  }

  lemma GrantedFramed(k: Kernel, k': Kernel, h: ListId, n: Pid, id: Pid)
    requires Placed(k, {}) && Granted(k, k', h, n, Ok)
    ensures Framed(k, k', id)
  {
    TakeWaiterOk(k, {}, h, n);
    hide Placed;
    forall i | 0 <= i < |k.procs| ensures SameSettings(k.procs[i], k'.procs[i]) && Spared(k.procs[i], k'.procs[i]) {
    }
  }

  /** Waiters of anything but a mutex do not matter to inheritance. */
  lemma GrantedGraph(k: Kernel, k': Kernel, h: ListId, n: Pid, result: Status)
    requires Placed(k, {}) && Granted(k, k', h, n, result) && !h.OnMutex? && k'.mutexes == k.mutexes
    ensures GraphOf(k') == GraphOf(k) && Prios(k') == Prios(k) && (Exact(k') <==> Exact(k))
  {
    TakeWaiterOk(k, {}, h, n);
    forall i: nat | i < |k.procs| ensures Boss(k', i) == Boss(k, i) {
      assert ListOk(k, {}, k.procs[i].waitlist);
    }
    SameGraph(k, k');
  }

  // ---------------------------------------------------------------- starting a wait

  /** Process id, with this operation recorded, may wait on list h. */
  ghost predicate MayWait(k: Kernel, id: Pid, h: ListId, op: Op)
    requires id < |k.procs|
  {
    ListUsed(k, h) && MemberOk(WithProc(k, id, k.procs[id].(op := op)), h, id)
  }

  /** One wait list after process id joined list h and `next` took the CPU. */
  lemma WaitingList(k: Kernel, k': Kernel, id: Pid, next: Pid, h: ListId, wake: nat, op: Op, g: ListId)
    requires id < |k.procs| && next < |k.procs| && k.procs[id].partition < |k.current|
             && k' == Waiting(k, id, next, h, wake, op)
    requires k.procs[id].state == Running && k.procs[next].state == Ready && MayWait(k, id, h, op)
    requires ListOk(k, {}, g) && ListFine(k, g)
    ensures ListFine(k', g)
  {
    assert Waiters(k', g) == if g == h then Waiters(k, g) + [id] else Waiters(k, g);
    assert ListUsed(k', g) == ListUsed(k, g);
    forall i | i in Waiters(k', g) ensures ListUsed(k', g) && i < |k'.procs| && MemberOk(k', g, i) {
      if i == id {
        assert g == h;
      } else {
        assert i in Waiters(k, g);
        assert k'.procs[i] == k.procs[i];
      }
    }
  }

  lemma WaitingFine(k: Kernel, id: Pid, next: Pid, h: ListId, wake: nat, op: Op)
    requires Placed(k, {}) && Objects(k) && IsProc(k, id) && k.procs[id].state == Running
             && k.procs[id].partition < |k.current|
    requires Candidate(k, k.procs[id].partition, next) && MayWait(k, id, h, op)
    ensures Objects(Waiting(k, id, next, h, wake, op))
  {
    var k' := Waiting(k, id, next, h, wake, op);
    forall g ensures ListFine(k', g) {
      assert ListFine(k, g) && ListOk(k, {}, g);
      hide Placed, Objects, Waiting, ListFine, MayWait, ListOk;
      WaitingList(k, k', id, next, h, wake, op, g);
    }
    forall x: nat | x < |k'.mutexes| ensures MutexFine(k', x) {
      assert MutexFine(k, x);
      hide Placed, Objects;
    }
  }

  lemma WaitingClocked(k: Kernel, id: Pid, next: Pid, h: ListId, wake: nat, op: Op)
    requires Clocked(k) && id < |k.procs| && next < |k.procs| && k.procs[id].partition < |k.current|
             && wake <= TICK_NONE
    requires !k.procs[id].periodicWaiting
    ensures Clocked(Waiting(k, id, next, h, wake, op))
  {
    var k' := Waiting(k, id, next, h, wake, op);
    forall i | 0 <= i < |k'.procs| ensures ClockOk(k', k'.procs[i]) { assert ClockOk(k, k.procs[i]); }
  }

  /** k' is k with the operation record of process id, the due bound and the way empty wait
      lists are stored touched, and nothing else. */
  ghost predicate Touched(k: Kernel, k': Kernel, id: Pid) {
    && id < |k.procs| && |k'.procs| == |k.procs|
    && k'.procs[id] == k.procs[id].(op := k'.procs[id].op)
    && (forall i :: 0 <= i < |k.procs| && i != id ==> k'.procs[i] == k.procs[i])
    && (forall h :: Waiters(k', h) == Waiters(k, h))
    && k'.nextDue <= k.nextDue
    && k' == k.(procs := k'.procs, lists := k'.lists, nextDue := k'.nextDue)
  }

  /** ... and the operation left on record is the attempted one, if it is a new one. */
  ghost predicate TouchedBy(k: Kernel, k': Kernel, id: Pid, op: Op) {
    Touched(k, k', id) && k'.procs[id].op in {k.procs[id].op, NoOp, op}
  }

  lemma TouchedInv(k: Kernel, k': Kernel, id: Pid)
    requires Inv(k) && Touched(k, k', id) && k.procs[id].state != Blocked
    ensures Inv(k')
  {
    RetouchedPlaced(k, k', {});
    forall g ensures id !in Waiters(k, g) { assert ListOk(k, {}, g); }
    hide Placed, Objects, ListFine;
    SameObjectsFine(k, k');
    forall i | 0 <= i < |k.procs| ensures ClockOk(k', k'.procs[i]) { assert ClockOk(k, k.procs[i]); }
  }

  /** ipc_block_current keeps the whole invariant; when the wait does not start, only the
      operation record and the due bound were touched. */
  lemma BlockCurrentInv(k: Kernel, id: Pid, h: ListId, wake: nat, op: Op)
    requires Inv(k) && IsProc(k, id) && k.procs[id].state == Running && MayWait(k, id, h, op) && wake <= TICK_NONE
    ensures var r := BlockCurrent(k, id, h, wake, op);
            Inv(r.k) && (r.st != Ok ==> TouchedBy(k, r.k, id, op))
  {
    hide BlockCurrent, Placed, Objects, Clocked, Waiting, CanBlock, MayWait, NoneAbove, Touched;
    var r := BlockCurrent(k, id, h, wake, op);
    MayWaitSomewhere(k, id, h, op);
    BlockCurrentOk(k, id, h, wake, op);
    RunningWaitsForNothing(k, id);
    if |Waiters(k, h)| < WAITLIST_MAX && CanBlock(k, k.procs[id].partition) {
      WaitingFine(k, id, r.next.value, h, wake, op);
      WaitingClocked(k, id, r.next.value, h, wake, op);
    } else {
      StaysTouched(k, id, h, wake, op);
      TouchedInv(k, r.k, id);
    }
  }

  lemma MayWaitSomewhere(k: Kernel, id: Pid, h: ListId, op: Op)
    requires id < |k.procs| && MayWait(k, id, h, op)
    ensures h != NoList
  {
  }

  lemma RunningWaitsForNothing(k: Kernel, id: Pid)
    requires Placed(k, {}) && id < |k.procs| && k.procs[id].state == Running
    ensures WaitOk(k, id) && !k.procs[id].periodicWaiting && !k.procs[id].timedWaiting && k.procs[id].waitlist == NoList
  {
    assert ProcOk(k, {}, id);
  }

  lemma StaysTouched(k: Kernel, id: Pid, h: ListId, wake: nat, op: Op)
    requires id < |k.procs|
    ensures TouchedBy(k, WithProc(k, id, k.procs[id].(op := op)), id, op)
    ensures TouchedBy(k, NoteDue(WithProc(k, id, k.procs[id].(op := NoOp)),
            wake).(lists := k.lists[h := Waiters(k, h)]), id, op)
  {
  }

  lemma TouchedGraph(k: Kernel, k': Kernel, id: Pid)
    requires Touched(k, k', id)
    ensures GraphOf(k') == GraphOf(k) && Prios(k') == Prios(k) && (Exact(k') <==> Exact(k))
  {
    forall i: nat | i < |k.procs| ensures Boss(k', i) == Boss(k, i) {
      assert k'.procs[i].waitlist == k.procs[i].waitlist;
    }
    SameGraph(k, k');
  }

  lemma WaitingKeepsGraph(k: Kernel, id: Pid, next: Pid, h: ListId, wake: nat, op: Op)
    requires Placed(k, {}) && IsProc(k, id) && k.procs[id].state == Running && k.procs[id].partition < |k.current|
             && next < |k.procs|
    requires next != id && !h.OnMutex?
    ensures var k' := Waiting(k, id, next, h, wake, op);
            GraphOf(k') == GraphOf(k) && Prios(k') == Prios(k) && (Exact(k') <==> Exact(k))
  {
    var k' := Waiting(k, id, next, h, wake, op);
    assert WaitOk(k, id) by { assert ProcOk(k, {}, id); }
    forall i: nat | i < |k.procs| ensures Boss(k', i) == Boss(k, i) {
      if i != id { assert k'.procs[i].waitlist == k.procs[i].waitlist; }
    }
    SameGraph(k, k');
  }

  lemma WaitingFramed(k: Kernel, id: Pid, next: Pid, h: ListId, wake: nat, op: Op)
    requires IsProc(k, id) && k.procs[id].state == Running && k.procs[id].partition < |k.current|
    requires Candidate(k, k.procs[id].partition, next)
    ensures Framed(k, Waiting(k, id, next, h, wake, op), id)
  {
    var k' := Waiting(k, id, next, h, wake, op);
    forall i | 0 <= i < |k.procs|
      ensures SameSettings(k.procs[i], k'.procs[i]) && (i != id ==> Spared(k.procs[i], k'.procs[i]))
    {
    }
  }

  /** Process id joined the tail of list h with operation op, and `next`, which nobody READY
      in the partition outranks, runs instead. */
  ghost predicate StartedWait(k: Kernel, r: Sel, id: Pid, h: ListId, wake: nat, op: Op) {
    && id < |k.procs| && k.procs[id].partition < |k.current|
    && r.next.Some? && Candidate(k, k.procs[id].partition, r.next.value)
    && r.k == Waiting(k, id, r.next.value, h, wake, op)
    && NoneAbove(r.k, k.procs[id].partition, r.next.value)
  }

  lemma TouchedFramed(k: Kernel, k': Kernel, id: Pid)
    requires Touched(k, k', id)
    ensures Framed(k, k', id)
  {
    forall i | 0 <= i < |k.procs|
      ensures SameSettings(k.procs[i], k'.procs[i]) && (i != id ==> Gentle(k.procs[i], k'.procs[i]))
    {
    }
  }

  /** ipc_block_current on anything but a mutex: every invariant, the inheritance equation
      and every other process are kept, and the caller waits exactly when it can. */
  lemma BlockCurrentKeeps(k: Kernel, id: Pid, h: ListId, wake: nat, op: Op) returns (r: Sel)
    requires Inv(k) && IsProc(k, id) && k.procs[id].state == Running && MayWait(k, id, h, op) && wake <= TICK_NONE
             && !h.OnMutex?
    ensures r == BlockCurrent(k, id, h, wake, op)
    ensures Inv(r.k) && (Exact(r.k) <==> Exact(k)) && Framed(k, r.k, id)
    ensures r.st == Ok ==> StartedWait(k, r, id, h, wake, op)
    ensures r.st != Ok ==> r.st in {PoolFull, PartitionHalted, QueueEmpty} && TouchedBy(k, r.k, id, op)
    ensures r.st == Ok <==> |Waiters(k, h)| < WAITLIST_MAX && CanBlock(k, k.procs[id].partition)
  {
    hide BlockCurrent, Placed, Objects, Clocked, Waiting, Exact, CanBlock, MayWait, NoneAbove, Touched, Framed;
    r := BlockCurrent(k, id, h, wake, op);
    MayWaitSomewhere(k, id, h, op);
    BlockCurrentInv(k, id, h, wake, op);
    BlockCurrentOk(k, id, h, wake, op);
    if r.st == Ok {
      WaitingKeepsGraph(k, id, r.next.value, h, wake, op);
      WaitingFramed(k, id, r.next.value, h, wake, op);
    } else {
      TouchedGraph(k, r.k, id);
      TouchedFramed(k, r.k, id);
    }
  }

  lemma TickAfterOk(k: Kernel, timeout: nat)
    requires k.tick <= TICK_NONE
    ensures TickAfter(k, timeout).0 in {Ok, Overflow} && TickAfter(k, timeout).1 <= TICK_NONE
    ensures timeout != TIMEOUT_INFINITE && TickAfter(k, timeout).0 == Ok ==>
            TickAfter(k, timeout).1 == k.tick + timeout < TICK_NONE
  {
  }
}

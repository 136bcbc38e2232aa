/** Where every process is: the placement invariant and what the scheduling and blocking
    primitives do to it. A process in `limbo` is between two places inside one kernel call:
    it is on no wait list, and its record of a wait is not to be trusted. */
module Placement {
  import opened Wrappers
  import opened KernelState
  import opened Order

  ghost predicate WaitOk(k: Kernel, i: Pid)
    requires i < |k.procs|
  {
    var c := k.procs[i];
    && (c.waitlist != NoList <==> c.state == Blocked && !c.periodicWaiting && !c.timedWaiting)
    && (c.waitlist != NoList ==> i in Waiters(k, c.waitlist))
    && (c.periodicWaiting || c.timedWaiting ==> c.state == Blocked)
    && !(c.periodicWaiting && c.timedWaiting)
    && (c.state != Blocked ==> c.wakeTick == TICK_NONE)
  }

  ghost predicate ProcOk(k: Kernel, limbo: set<Pid>, i: Pid)
    requires i < |k.procs|
  {
    var c := k.procs[i];
    && c.priority <= MAX_PRIORITY && c.base <= MAX_PRIORITY && (c.state != Unused ==> c.partition < |k.current|)
    && (c.state == Ready ==> i in Queue(k, Slot(c.partition, c.priority)))
    && (c.state == Running ==> k.current[c.partition] == Some(i))
    && (i !in limbo ==> WaitOk(k, i))
  }

  ghost predicate QueueOk(k: Kernel, s: Slot) {
    && NoDup(Queue(k, s))
    && forall i :: i in Queue(k, s) ==>
       i < |k.procs| && k.procs[i].state == Ready && Slot(k.procs[i].partition, k.procs[i].priority) == s
  }

  ghost predicate ListOk(k: Kernel, limbo: set<Pid>, h: ListId) {
    && NoDup(Waiters(k, h))
    && (h == NoList ==> Waiters(k, h) == [])
    && forall i :: i in Waiters(k, h) ==>
       i < |k.procs| && i !in limbo && k.procs[i].state == Blocked && k.procs[i].waitlist == h
  }

  ghost predicate CurrentOk(k: Kernel, p: nat)
    requires p < |k.current|
  {
    k.current[p].Some? ==>
      var i := k.current[p].value;
      i < |k.procs| && k.procs[i].state == Running && k.procs[i].partition == p
  }

  ghost function Members(k: Kernel, p: nat): set<Pid> {
    set i | 0 <= i < |k.procs| && k.procs[i].state != Unused && k.procs[i].partition == p
  }

  /** The generated configuration header asserts this of every partition. */
  ghost predicate Fits(k: Kernel) {
    forall p: nat :: |Members(k, p)| <= MAX_READY_PER_PRIORITY
  }

  /** Every READY process sits exactly once in its own partition's queue at its current
      priority, a RUNNING one is its partition's current process and in no queue, and a
      BLOCKED one is on exactly the wait list its record names, or in one timed wait. */
  ghost predicate Placed(k: Kernel, limbo: set<Pid>) {
    && |k.halted| == |k.current| && Fits(k)
    && (forall i: nat :: i < |k.procs| ==> ProcOk(k, limbo, i))
    && (forall s :: QueueOk(k, s))
    && (forall h :: ListOk(k, limbo, h))
    && (forall p: nat :: p < |k.current| ==> CurrentOk(k, p))
  }

  // ---------------------------------------------------------------- sequences

  lemma {:induction false} RemoveFacts(s: seq<Pid>, x: Pid)
    requires NoDup(s)
    ensures NoDup(Remove(s, x)) && forall y :: y in Remove(s, x) <==> y in s && y != x
    ensures x !in s ==> Remove(s, x) == s
  {
    if s != [] {
      RemoveFacts(s[1..], x);
      assert forall y :: y in s <==> y == s[0] || y in s[1..];
      if s[0] != x {
        var r := Remove(s[1..], x);
        assert s[0] !in r by { assert s[0] !in s[1..]; }
        assert forall y :: y in [s[0]] + r <==> y == s[0] || y in r;
      }
    }
  }

  lemma {:induction false} RemoveLast(s: seq<Pid>, x: Pid)
    requires x !in s
    ensures Remove(s + [x], x) == s
  {
    if s != [] {
      assert (s + [x])[1..] == s[1..] + [x];
      RemoveLast(s[1..], x);
    }
  }

  lemma AppendFacts(s: seq<Pid>, x: Pid)
    requires NoDup(s) && x !in s
    ensures NoDup(s + [x]) && NoDup([x] + s)
    ensures forall y :: y in s + [x] <==> y in s || y == x
    ensures forall y :: y in [x] + s <==> y in s || y == x
  {
  }

  lemma TailFacts(s: seq<Pid>)
    requires NoDup(s) && s != []
    ensures NoDup(s[1..]) && forall y :: y in s[1..] <==> y in s && y != s[0]
  {
    assert forall y :: y in s <==> y == s[0] || y in s[1..];
  }

  lemma {:induction false} DistinctFit(s: seq<Pid>, m: set<Pid>)
    requires NoDup(s) && forall y :: y in s ==> y in m
    ensures |s| <= |m|
  {
    if s != [] {
      TailFacts(s);
      DistinctFit(s[1..], m - {s[0]});
    }
  }

  /** A process of a partition always fits in a queue that does not hold it. */
  lemma Room(k: Kernel, q: seq<Pid>, p: nat, id: Pid)
    requires Fits(k) && NoDup(q) && id in Members(k, p) && id !in q
    requires forall y :: y in q ==> y in Members(k, p)
    ensures |q| < MAX_READY_PER_PRIORITY
  {
    DistinctFit(q, Members(k, p) - {id});
  }

  lemma SameMembers(k: Kernel, k': Kernel)
    requires Fits(k) && |k'.procs| == |k.procs|
    requires forall i :: 0 <= i < |k.procs| ==>
             k'.procs[i].partition == k.procs[i].partition
               && (k'.procs[i].state == Unused <==> k.procs[i].state == Unused)
    ensures Fits(k')
  {
    forall p: nat ensures Members(k', p) == Members(k, p) {}
  }

  // ---------------------------------------------------------------- frames

  /** k' differs from k only in what placement does not look at. */
  ghost predicate Retouched(k: Kernel, k': Kernel, limbo: set<Pid>) {
    && k'.ready == k.ready && k'.current == k.current && |k'.halted| == |k.halted| && |k'.procs| == |k.procs|
    && (forall h :: Waiters(k', h) == Waiters(k, h))
    && forall i :: 0 <= i < |k.procs| ==>
         && SamePlace(k.procs[i], k'.procs[i])
         && (i !in limbo ==> SameWait(k.procs[i], k'.procs[i]))
  }

  ghost predicate SamePlace(c: Pcb, c': Pcb) {
    c'.partition == c.partition && c'.priority == c.priority && c'.base == c.base && c'.state == c.state
  }

  ghost predicate SameWait(c: Pcb, c': Pcb) {
    && c'.waitlist == c.waitlist && c'.wakeTick == c.wakeTick
    && c'.periodicWaiting == c.periodicWaiting && c'.timedWaiting == c.timedWaiting
  }

  lemma RetouchedPlaced(k: Kernel, k': Kernel, limbo: set<Pid>)
    requires Placed(k, limbo) && Retouched(k, k', limbo)
    ensures Placed(k', limbo)
  {
    SameMembers(k, k');
    forall i: nat | i < |k'.procs| ensures ProcOk(k', limbo, i) {
      assert ProcOk(k, limbo, i);
    }
    forall s ensures QueueOk(k', s) { assert QueueOk(k, s); }
    forall h ensures ListOk(k', limbo, h) { assert ListOk(k, limbo, h); }
    forall p: nat | p < |k'.current| ensures CurrentOk(k', p) { assert CurrentOk(k, p); }
  }

  /** A process whose record is right again is no longer in limbo. */
  lemma LeaveLimbo(k: Kernel, limbo: set<Pid>, id: Pid)
    requires Placed(k, limbo) && id < |k.procs| && WaitOk(k, id)
    ensures Placed(k, limbo - {id})
  {
    forall i: nat | i < |k.procs| ensures ProcOk(k, limbo - {id}, i) { assert ProcOk(k, limbo, i); }
    forall h ensures ListOk(k, limbo - {id}, h) { assert ListOk(k, limbo, h); }
  }

  lemma EnterLimbo(k: Kernel, limbo: set<Pid>, id: Pid)
    requires Placed(k, limbo) && id < |k.procs| && (k.procs[id].state != Blocked || k.procs[id].waitlist == NoList)
    ensures Placed(k, limbo + {id})
  {
    forall i: nat | i < |k.procs| ensures ProcOk(k, limbo + {id}, i) { assert ProcOk(k, limbo, i); }
    forall h ensures ListOk(k, limbo + {id}, h) { assert ListOk(k, limbo, h); }
  }

  // ---------------------------------------------------------------- priority changes

  lemma SetPriorityOk(k: Kernel, limbo: set<Pid>, id: Pid, pr: nat)
    requires Placed(k, limbo) && IsProc(k, id) && pr <= MAX_PRIORITY
    ensures var r := SetPriority(k, id, pr);
            && r.st == Ok && Placed(r.k, limbo)
            && r.k == k.(procs := k.procs[id := k.procs[id].(priority := pr)], ready := r.k.ready)
  {
    var c := k.procs[id];
    var p := c.partition;
    var s0, s1 := Slot(p, c.priority), Slot(p, pr);
    assert ProcOk(k, limbo, id);
    assert QueueOk(k, s0) && QueueOk(k, s1);
    RemoveFacts(Queue(k, s0), id);
    var r := SetPriority(k, id, pr);
    if c.state == Ready {
      var removed := WithQueue(k, s0, Remove(Queue(k, s0), id));
      var q := Queue(removed, s1);
      assert id !in q && NoDup(q);
      assert forall y :: y in q ==> y in Members(k, p);
      Room(k, q, p, id);
      AppendFacts(q, id);
      assert r.k.ready == removed.ready[s1 := q + [id]];
    }
    PriorityPlaced(k, r.k, limbo, id, pr);
  }

  /** A process whose priority is set joins the tail of its level, if it is READY; nobody else moves. */
  lemma SetPriorityMoves(k: Kernel, limbo: set<Pid>, id: Pid, pr: nat)
    requires Placed(k, limbo) && IsProc(k, id) && pr <= MAX_PRIORITY
    ensures Moved(k, SetPriority(k, id, pr).k, if k.procs[id].state == Ready then [id] else [])
  {
    var c := k.procs[id];
    var s0, s1 := Slot(c.partition, c.priority), Slot(c.partition, pr);
    var r := SetPriority(k, id, pr);
    SetPriorityOk(k, limbo, id, pr);
    assert ProcOk(k, limbo, id) && QueueOk(k, s0) && QueueOk(k, s1);
    if c.state == Ready {
      RequeuedAtTail(k, limbo, id, pr);
      forall s ensures Queue(r.k, s) == Remove(Queue(k, s), id) + if PlaceOf(r.k, id) == Some(s) then [id] else [] {
        assert QueueOk(k, s);
        if s != s0 { RemoveAbsent(Queue(k, s), id); }
      }
      forall s ensures NoDup(Queue(k, s)) { assert QueueOk(k, s); }
      MovedOne(k, r.k, id);
    } else {
      MovedNobody(k, r.k);
    }
  }

  /** Moving between levels keeps every queue in order. */
  lemma PriorityQueueOk(k: Kernel, k': Kernel, id: Pid, pr: nat, s: Slot)
    requires QueueOk(k, s) && IsProc(k, id)
    requires k' == k.(procs := k.procs[id := k.procs[id].(priority := pr)], ready := k'.ready)
    requires k.procs[id].state != Ready ==> k'.ready == k.ready
    requires k.procs[id].state == Ready ==>
               var s0, s1 := Slot(k.procs[id].partition, k.procs[id].priority), Slot(k.procs[id].partition, pr);
               var removed := k.ready[s0 := Remove(Queue(k, s0), id)];
               k'.ready == removed[s1 := (if s1 in removed then removed[s1] else []) + [id]]
    ensures QueueOk(k', s)
  {
    RemoveFacts(Queue(k, s), id);
    if k.procs[id].state == Ready { AppendFacts(Remove(Queue(k, s), id), id); }
  }

  lemma PriorityPlaced(k: Kernel, k': Kernel, limbo: set<Pid>, id: Pid, pr: nat)
    requires Placed(k, limbo) && IsProc(k, id) && pr <= MAX_PRIORITY
    requires k' == k.(procs := k.procs[id := k.procs[id].(priority := pr)], ready := k'.ready)
    requires k.procs[id].state != Ready ==> k'.ready == k.ready
    requires k.procs[id].state == Ready ==>
               var s0, s1 := Slot(k.procs[id].partition, k.procs[id].priority), Slot(k.procs[id].partition, pr);
               var removed := k.ready[s0 := Remove(Queue(k, s0), id)];
               k'.ready == removed[s1 := (if s1 in removed then removed[s1] else []) + [id]]
    ensures Placed(k', limbo)
  {
    SameMembers(k, k');
    forall s ensures QueueOk(k', s) { PriorityQueueOk(k, k', id, pr, s); }
    forall i: nat | i < |k'.procs| ensures ProcOk(k', limbo, i) {
      assert ProcOk(k, limbo, i);
      if k.procs[i].state == Ready && i != id {
        var s := Slot(k.procs[i].partition, k.procs[i].priority);
        assert QueueOk(k, s);
        RemoveFacts(Queue(k, s), id);
      }
    }
    forall h ensures ListOk(k', limbo, h) { assert ListOk(k, limbo, h); }
    forall p: nat | p < |k'.current| ensures CurrentOk(k', p) { assert CurrentOk(k, p); }
  }

  // ---------------------------------------------------------------- becoming READY

  /** Queue a process that is in limbo and not READY; its record is repaired later. */
  lemma ReadyPlaced(k: Kernel, limbo: set<Pid>, id: Pid)
    requires Placed(k, limbo) && IsProc(k, id) && id in limbo && k.procs[id].state == Blocked
    ensures var r := ReadyProcess(k, k.procs[id].partition, id);
            var s := Slot(k.procs[id].partition, k.procs[id].priority);
            && r.st == Ok && Placed(r.k, limbo)
            && r.k == k.(procs := k.procs[id := k.procs[id].(state := Ready)],
               ready := k.ready[s := Queue(k, s) + [id]])
  {
    var c := k.procs[id];
    var s := Slot(c.partition, c.priority);
    var r := ReadyProcess(k, c.partition, id);
    assert ProcOk(k, limbo, id);
    assert QueueOk(k, s);
    assert forall y :: y in Queue(k, s) ==> y in Members(k, c.partition);
    Room(k, Queue(k, s), c.partition, id);
    assert Queue(k.(procs := k.procs[id := c.(state := Ready)]), s) == Queue(k, s);
    var k' := k.(procs := k.procs[id := c.(state := Ready)], ready := k.ready[s := Queue(k, s) + [id]]);
    assert r.k == k';
    AppendFacts(Queue(k, s), id);
    QueuedPlaced(k, k', limbo, id, s);
  }

  /** Common to every way of becoming READY: the process joins its queue, alone. */
  lemma QueuedPlaced(k: Kernel, k': Kernel, limbo: set<Pid>, id: Pid, s: Slot)
    requires Placed(k, limbo) && IsProc(k, id) && id in limbo && k.procs[id].state == Blocked
    requires s == Slot(k.procs[id].partition, k.procs[id].priority)
    requires k' == k.(procs := k.procs[id := k.procs[id].(state := Ready)], ready := k'.ready)
    requires forall t :: t != s ==> Queue(k', t) == Queue(k, t)
    requires NoDup(Queue(k', s)) && forall y :: y in Queue(k', s) <==> y in Queue(k, s) || y == id
    ensures Placed(k', limbo)
  {
    SameMembers(k, k');
    forall t ensures QueueOk(k', t) { assert QueueOk(k, t); }
    forall i: nat | i < |k'.procs| ensures ProcOk(k', limbo, i) { assert ProcOk(k, limbo, i); }
    forall h ensures ListOk(k', limbo, h) { assert ListOk(k, limbo, h); }
    forall p: nat | p < |k'.current| ensures CurrentOk(k', p) { assert CurrentOk(k, p); }
  }

  /** A blocked process that has left its list and its timed wait is queued READY. */
  lemma ResolveOk(k: Kernel, limbo: set<Pid>, id: Pid, result: Status)
    requires Placed(k, limbo) && IsProc(k, id) && id in limbo && k.procs[id].state == Blocked
    requires k.procs[id].waitlist == NoList && k.procs[id].wakeTick == TICK_NONE
    requires !k.procs[id].periodicWaiting && !k.procs[id].timedWaiting
    ensures var r := Resolve(k, id, result); var s := Slot(k.procs[id].partition, k.procs[id].priority);
            && r.st == Ok && Placed(r.k, limbo - {id})
            && r.k == k.(procs := k.procs[id := k.procs[id].(state := Ready, result := result, resultPending := true)],
                         ready := k.ready[s := Queue(k, s) + [id]])
  {
    var r1 := ReadyProcess(k, k.procs[id].partition, id);
    ReadyPlaced(k, limbo, id);
    var r := Resolve(k, id, result);
    assert r.k.procs == k.procs[id := k.procs[id].(state := Ready, result := result, resultPending := true)];
    RetouchedPlaced(r1.k, r.k, limbo);
    LeaveLimbo(r.k, limbo, id);
  }

  /** A process that was in no queue joined the tail of the one it belongs in. */
  lemma JoinMoves(k: Kernel, r: Kernel, id: Pid)
    requires id < |k.procs| == |r.procs| && k.procs[id].state != Ready && r.procs[id].state == Ready
    requires forall s :: QueueOk(k, s)
    requires forall i :: 0 <= i < |k.procs| && i != id ==> PlaceOf(r, i) == PlaceOf(k, i)
    requires var s := Slot(r.procs[id].partition, r.procs[id].priority); r.ready == k.ready[s := Queue(k, s) + [id]]
    ensures Moved(k, r, [id])
  {
    forall s ensures NoDup(Queue(k, s))
      && Queue(r, s) == Remove(Queue(k, s), id) + if PlaceOf(r, id) == Some(s) then [id] else [] {
      assert QueueOk(k, s);
      RemoveAbsent(Queue(k, s), id);
    }
    MovedOne(k, r, id);
  }

  // ---------------------------------------------------------------- joining and leaving a wait list

  lemma JoinList(k: Kernel, limbo: set<Pid>, id: Pid, h: ListId, wake: nat, op: Op)
    requires Placed(k, limbo) && IsProc(k, id) && id in limbo && k.procs[id].state == Blocked && h != NoList
    requires !k.procs[id].periodicWaiting && !k.procs[id].timedWaiting
    ensures Placed(WithWaiters(WithProc(k, id, k.procs[id].(waitlist := h, wakeTick := wake, op := op)), h,
            Waiters(k, h) + [id]), limbo - {id})
  {
    var k' := WithWaiters(WithProc(k, id, k.procs[id].(waitlist := h, wakeTick := wake, op := op)), h, Waiters(k, h)
      + [id]);
    SameMembers(k, k');
    assert ListOk(k, limbo, h);
    AppendFacts(Waiters(k, h), id);
    forall s ensures QueueOk(k', s) { assert QueueOk(k, s); }
    forall i: nat | i < |k'.procs| ensures ProcOk(k', limbo - {id}, i) {
      assert ProcOk(k, limbo, i);
    }
    forall g ensures ListOk(k', limbo - {id}, g) { assert ListOk(k, limbo, g); }
    forall p: nat | p < |k'.current| ensures CurrentOk(k', p) { assert CurrentOk(k, p); }
  }

  lemma LeaveList(k: Kernel, limbo: set<Pid>, h: ListId, id: Pid)
    requires Placed(k, limbo) && id in Waiters(k, h)
    ensures id < |k.procs| && Placed(ClearBlocked(WithWaiters(k, h, Remove(Waiters(k, h), id)), id), limbo + {id})
  {
    assert ListOk(k, limbo, h);
    var k' := ClearBlocked(WithWaiters(k, h, Remove(Waiters(k, h), id)), id);
    SameMembers(k, k');
    RemoveFacts(Waiters(k, h), id);
    forall s ensures QueueOk(k', s) { assert QueueOk(k, s); }
    forall i: nat | i < |k'.procs| ensures ProcOk(k', limbo + {id}, i) {
      assert ProcOk(k, limbo, i);
    }
    forall g ensures ListOk(k', limbo + {id}, g) { assert ListOk(k, limbo, g); }
    forall p: nat | p < |k'.current| ensures CurrentOk(k', p) { assert CurrentOk(k, p); }
  }

  // ---------------------------------------------------------------- dispatch

  /** The head of the best queue is a READY process of the partition. */
  lemma HeadIsReady(k: Kernel, limbo: set<Pid>, p: nat)
    requires Placed(k, limbo) && Best(k, p) <= MAX_PRIORITY
    ensures var s := Slot(p, Best(k, p)); var i := Queue(k, s)[0];
            IsProc(k, i) && k.procs[i].state == Ready && k.procs[i].partition == p && k.procs[i].priority == Best(k, p)
  {
    assert QueueOk(k, Slot(p, Best(k, p)));
    assert Queue(k, Slot(p, Best(k, p)))[0] in Queue(k, Slot(p, Best(k, p)));
  }

  /** The running process `out` (if any) leaves the CPU and the head `next` of level s takes
      it. The outgoing process is queued somewhere READY, or becomes BLOCKED in limbo. */
  lemma SwapPlaced(k: Kernel, k': Kernel, limbo: set<Pid>, limbo': set<Pid>, p: nat, s: Slot, next: Pid,
      out: Option<Pid>)
    requires Placed(k, limbo) && p < |k.current| && s.partition == p && Queue(k, s) != [] && next == Queue(k, s)[0]
    requires IsProc(k, next) && next !in limbo && out == k.current[p] && limbo <= limbo'
    requires out.Some? ==> IsProc(k, out.value) && out.value != next
    requires |k'.procs| == |k.procs| && k'.current == k.current[p := Some(next)] && k'.lists == k.lists
             && k'.halted == k.halted
    requires k'.procs[next] == k.procs[next].(state := Running)
    requires forall i :: 0 <= i < |k.procs| && i != next && out != Some(i) ==> k'.procs[i] == k.procs[i]
    requires out.Some? ==>
               (|| (k'.procs[out.value] == k.procs[out.value].(state := Ready) && limbo' == limbo)
                || (k'.procs[out.value] == k.procs[out.value].(state := Blocked) && limbo' == limbo + {out.value}))
    requires out.None? ==> limbo' == limbo
    requires forall t :: NoDup(Queue(k', t)) && forall y :: y in Queue(k', t) <==>
               (|| (y in Queue(k, t) && y != next)
                || (out == Some(y) && k'.procs[y].state == Ready
                  && t == Slot(k.procs[y].partition, k.procs[y].priority)))
    ensures Placed(k', limbo')
  {
    assert QueueOk(k, s);
    assert next in Queue(k, s);
    assert CurrentOk(k, p);
    SameMembers(k, k');
    forall t ensures QueueOk(k', t) { assert QueueOk(k, t); }
    forall i: nat | i < |k'.procs| ensures ProcOk(k', limbo', i) {
      assert ProcOk(k, limbo, i);
    }
    forall h ensures ListOk(k', limbo', h) { assert ListOk(k, limbo, h); }
    forall q: nat | q < |k'.current| ensures CurrentOk(k', q) { assert CurrentOk(k, q); }
  }

  /** Nobody READY in partition p is strictly more urgent than process i. */
  ghost predicate NoneAbove(k: Kernel, p: nat, i: Pid)
    requires i < |k.procs|
  {
    forall j :: 0 <= j < |k.procs| && k.procs[j].state == Ready && k.procs[j].partition == p
      ==> k.procs[i].priority <= k.procs[j].priority
  }

  lemma BestIsLeast(k: Kernel, limbo: set<Pid>, p: nat, j: Pid)
    requires Placed(k, limbo) && j < |k.procs| && k.procs[j].state == Ready && k.procs[j].partition == p
    ensures Best(k, p) <= k.procs[j].priority
  {
    assert ProcOk(k, limbo, j);
    assert Queue(k, Slot(p, k.procs[j].priority)) != [];
  }

  /** Only processes that were READY or RUNNING changed, and only between these two states. */
  ghost predicate Rescheduled(k: Kernel, k': Kernel) {
    && k' == k.(procs := k'.procs, ready := k'.ready, current := k'.current)
    && |k'.procs| == |k.procs| && |k'.current| == |k.current|
    && forall i :: 0 <= i < |k.procs| ==>
         && k'.procs[i] == k.procs[i].(state := k'.procs[i].state)
         && (k'.procs[i].state in {Ready, Running} <==> k.procs[i].state in {Ready, Running})
         && (k'.procs[i].state !in {Ready, Running} ==> k'.procs[i] == k.procs[i])
  }

  /** Selection either picks a process nobody READY outranks, or fails and changes nothing. */
  lemma SelectOk(k: Kernel, p: nat, giveWay: bool)
    requires Placed(k, {}) && p < |k.current|
    ensures var r := PartitionSelect(k, p, giveWay);
            && Placed(r.k, {}) && Rescheduled(k, r.k)
            && (r.st == PartitionHalted <==> k.halted[p])
            && (r.st == QueueEmpty <==> !k.halted[p] && k.current[p].None? && Best(k, p) > MAX_PRIORITY)
            && (r.st != Ok ==> r.st in {PartitionHalted, QueueEmpty} && r.k == k)
            && (r.st == Ok ==>
                 && r.next.Some? && r.k.current == k.current[p := r.next]
                 && r.next.value < |k.procs| && NoneAbove(r.k, p, r.next.value))
  {
    var r := PartitionSelect(k, p, giveWay);
    assert CurrentOk(k, p);
    if k.halted[p] {
    } else if Best(k, p) > MAX_PRIORITY {
      assert k.current[p := k.current[p]] == k.current;
      forall j | 0 <= j < |k.procs| && k.procs[j].state == Ready && k.procs[j].partition == p ensures false {
        assert ProcOk(k, {}, j);
        BestIsLeast(k, {}, p, j);
      }
    } else {
      HeadIsReady(k, {}, p);
      forall j | 0 <= j < |k.procs| && k.procs[j].state == Ready && k.procs[j].partition == p
        ensures Best(k, p) <= k.procs[j].priority
      {
        BestIsLeast(k, {}, p, j);
      }
      if k.current[p].Some? && !TakesOver(Best(k, p), k.procs[k.current[p].value].priority, giveWay) {
        assert k.current[p := k.current[p]] == k.current;
      } else {
        TakeOverState(k, p, giveWay);
        TakenOverPlaced(k, r.k, p, giveWay);
      }
    }
  }

  /** The change of hands: `next` leaves the head of its queue; the outgoing process goes
      behind its peers if it gave way and in front of them if it was preempted. */
  ghost predicate TakenOver(k: Kernel, k': Kernel, p: nat, giveWay: bool, s: Slot, next: Pid)
    requires p < |k.current| && next < |k.procs|
  {
    var popped := k.ready[s := if Queue(k, s) == [] then [] else Queue(k, s)[1..]];
    && k' == k.(procs := k'.procs, ready := k'.ready, current := k.current[p := Some(next)])
    && match k.current[p]
       case None => k'.procs == k.procs[next := k.procs[next].(state := Running)] && k'.ready == popped
       case Some(o) =>
         && o < |k.procs| && o != next
         && k'.procs == k.procs[o := k.procs[o].(state := Ready)][next := k.procs[next].(state := Running)]
         && var b := Slot(p, k.procs[o].priority);
            var behind := if b in popped then popped[b] else [];
            k'.ready == popped[b := if giveWay then behind + [o] else [o] + behind]
  }

  lemma TakeOverState(k: Kernel, p: nat, giveWay: bool)
    requires Placed(k, {}) && p < |k.current| && !k.halted[p] && Best(k, p) <= MAX_PRIORITY
    requires k.current[p].Some? ==>
             k.current[p].value < |k.procs| && TakesOver(Best(k, p), k.procs[k.current[p].value].priority, giveWay)
    ensures var r := PartitionSelect(k, p, giveWay); var s := Slot(p, Best(k, p));
            r.st == Ok && r.next == Some(Queue(k, s)[0]) && Queue(k, s)[0] < |k.procs|
              && TakenOver(k, r.k, p, giveWay, s, Queue(k, s)[0])
  {
    var s := Slot(p, Best(k, p));
    HeadIsReady(k, {}, p);
    assert CurrentOk(k, p);
    var popped := WithQueue(k, s, Queue(k, s)[1..]);
    if k.current[p].Some? {
      var o := k.current[p].value;
      assert ProcOk(k, {}, o);
      var b := Slot(p, k.procs[o].priority);
      assert QueueOk(k, b) && QueueOk(k, s);
      TailFacts(Queue(k, s));
      var q := Queue(popped, b);
      assert forall y :: y in q ==> y in Members(k, p);
      Room(k, q, p, o);
      assert Queue(popped.(procs := k.procs[o := k.procs[o].(state := Ready)]), b) == q;
    }
  }

  lemma TakenOverPlaced(k: Kernel, k': Kernel, p: nat, giveWay: bool)
    requires Placed(k, {}) && p < |k.current| && Best(k, p) <= MAX_PRIORITY
    requires var s := Slot(p, Best(k, p)); Queue(k, s)[0] < |k.procs| && TakenOver(k, k', p, giveWay, s, Queue(k, s)[0])
    ensures Placed(k', {}) && Rescheduled(k, k')
  {
    var s := Slot(p, Best(k, p));
    var next := Queue(k, s)[0];
    HeadIsReady(k, {}, p);
    assert CurrentOk(k, p);
    forall t ensures NoDup(Queue(k', t)) && forall y :: y in Queue(k', t) <==>
      (|| (y in Queue(k, t) && y != next)
       || (k.current[p] == Some(y) && k'.procs[y].state == Ready
         && t == Slot(k.procs[y].partition, k.procs[y].priority)))
    {
      TakenOverQueue(k, k', p, giveWay, t);
    }
    SwapPlaced(k, k', {}, {}, p, s, next, k.current[p]);
  }

  lemma TakenOverQueue(k: Kernel, k': Kernel, p: nat, giveWay: bool, t: Slot)
    requires Placed(k, {}) && p < |k.current| && Best(k, p) <= MAX_PRIORITY
    requires var s := Slot(p, Best(k, p)); Queue(k, s)[0] < |k.procs| && TakenOver(k, k', p, giveWay, s, Queue(k, s)[0])
    ensures NoDup(Queue(k', t)) && forall y :: y in Queue(k', t) <==>
      (|| (y in Queue(k, t) && y != Queue(k, Slot(p, Best(k, p)))[0])
       || (k.current[p] == Some(y) && t == Slot(p, k.procs[y].priority)))
  {
    var s := Slot(p, Best(k, p));
    assert QueueOk(k, s) && QueueOk(k, t) && CurrentOk(k, p);
    TailFacts(Queue(k, s));
    if k.current[p].Some? {
      var o := k.current[p].value;
      var q := if t == s then Queue(k, s)[1..] else Queue(k, t);
      assert o !in q;
      AppendFacts(q, o);
    }
  }

  // ---------------------------------------------------------------- what a selection does

  /** h is the most urgent READY process of p, and the first of its level. */
  ghost predicate FirstReady(k: Kernel, p: nat, h: Pid) {
    && Candidate(k, p, h) && NoneAbove(k, p, h)
    && var q := Queue(k, Slot(p, k.procs[h].priority)); q != [] && q[0] == h
  }

  /** i may have the CPU of p: nobody runs there, or only somebody less urgent (or as urgent,
      if it gives way). */
  predicate MayRun(k: Kernel, p: nat, i: Pid, giveWay: bool) {
    && Candidate(k, p, i) && p < |k.current|
    && (k.current[p].Some? ==>
          && k.current[p].value < |k.procs|
          && TakesOver(k.procs[i].priority, k.procs[k.current[p].value].priority, giveWay))
  }

  /** If anybody READY may have the CPU of p, the first of the most urgent level has it, and the
      process that had it is first of its own level, or last if it gave way; nothing else moves.
      Otherwise nothing changes. */
  ghost predicate Selected(k: Kernel, r: Kernel, p: nat, giveWay: bool) {
    if exists i :: MayRun(k, p, i, giveWay) then
      exists h: Pid :: FirstReady(k, p, h) && p < |k.current|
        && TakenOver(k, r, p, giveWay, Slot(p, k.procs[h].priority), h)
    else r == k
  }

  /** A selection does this and nothing else. */
  lemma SelectIs(k: Kernel, p: nat, giveWay: bool)
    requires Placed(k, {}) && p < |k.current| && !k.halted[p]
    ensures var r := PartitionSelect(k, p, giveWay);
            && Selected(k, r.k, p, giveWay) && r.next == r.k.current[p]
            && (r.st == Ok <==> r.next.Some?) && r.st in {Ok, QueueEmpty}
  {
    var r := PartitionSelect(k, p, giveWay);
    var level := Best(k, p);
    assert CurrentOk(k, p);
    if level > MAX_PRIORITY {
      forall i ensures !Candidate(k, p, i) {
        if Candidate(k, p, i) {
          assert ProcOk(k, {}, i);
          BestIsLeast(k, {}, p, i);
        }
      }
      assert k.current[p := k.current[p]] == k.current;
    } else {
      HeadIsReady(k, {}, p);
      var h := Queue(k, Slot(p, level))[0];
      forall j | 0 <= j < |k.procs| && k.procs[j].state == Ready && k.procs[j].partition == p
        ensures level <= k.procs[j].priority
      {
        BestIsLeast(k, {}, p, j);
      }
      assert FirstReady(k, p, h);
      if k.current[p].Some? && !TakesOver(level, k.procs[k.current[p].value].priority, giveWay) {
        assert k.current[p := k.current[p]] == k.current;
      } else {
        TakeOverState(k, p, giveWay);
        assert MayRun(k, p, h, giveWay);
      }
    }
  }

  // ---------------------------------------------------------------- blocking

  lemma {:induction false} BestSame(k: Kernel, k': Kernel, p: nat, q: nat)
    requires k'.ready == k.ready && q <= MAX_PRIORITY + 1
    ensures BestFrom(k', p, q) == BestFrom(k, p, q)
    decreases MAX_PRIORITY + 1 - q
  {
    if q <= MAX_PRIORITY && Queue(k, Slot(p, q)) == [] { BestSame(k, k', p, q + 1); }
  }

  /** The running process of p can be replaced: p is not halted and somebody is READY. */
  predicate CanBlock(k: Kernel, p: nat) {
    p < |k.halted| && !k.halted[p] && Best(k, p) <= MAX_PRIORITY
  }

  /** `id` gave the CPU of its partition to the head of the best queue. */
  function Replaced(k: Kernel, p: nat, id: Pid, next: Pid): Kernel
    requires id < |k.procs| && next < |k.procs| && p < |k.current|
  {
    var s := Slot(p, Best(k, p));
    k.(procs := k.procs[id := k.procs[id].(state := Blocked)][next := k.procs[next].(state := Running)],
       ready := k.ready[s := if Queue(k, s) == [] then [] else Queue(k, s)[1..]],
       current := k.current[p := Some(next)])
  }

  /** h, the first of queue s, left it; no other queue changed. */
  ghost predicate Leaves(k: Kernel, k': Kernel, s: Slot, h: Pid) {
    Queue(k, s) != [] && Queue(k, s)[0] == h && k'.ready == k.ready[s := Queue(k, s)[1..]]
  }

  /** Block-and-dispatch computed, for any state whose best READY process is as it should be. */
  lemma BlockState(k: Kernel, p: nat, id: Pid)
    requires p < |k.current| == |k.halted| && IsProc(k, id) && k.procs[id].state == Running
    requires CanBlock(k, p) ==> var i := Queue(k, Slot(p, Best(k, p)))[0]; IsProc(k, i) && k.procs[i].state == Ready
    ensures var r := PartitionBlockAndDispatch(k, p, id);
            if CanBlock(k, p) then
              var next := Queue(k, Slot(p, Best(k, p)))[0];
              r.st == Ok && r.next == Some(next) && r.k == Replaced(k, p, id, next)
            else
              r == Sel(if k.halted[p] then PartitionHalted else QueueEmpty, k, None)
  {
  }

  lemma BlockOk(k: Kernel, p: nat, id: Pid)
    requires Placed(k, {}) && p < |k.current| && IsProc(k, id) && k.procs[id].state == Running
             && k.procs[id].partition == p
    ensures var r := PartitionBlockAndDispatch(k, p, id);
            && (!CanBlock(k, p) ==> r.k == k && r.st == if k.halted[p] then PartitionHalted else QueueEmpty)
            && (CanBlock(k, p) ==>
                  && r.st == Ok && r.next == Some(Queue(k, Slot(p, Best(k, p)))[0]) && Candidate(k, p, r.next.value)
                  && r.k == Replaced(k, p, id, r.next.value)
                  && Placed(r.k, {id}) && NoneAbove(r.k, p, r.next.value))
  {
    if CanBlock(k, p) { HeadIsReady(k, {}, p); }
    BlockState(k, p, id);
    if CanBlock(k, p) {
      var next := Queue(k, Slot(p, Best(k, p)))[0];
      assert ProcOk(k, {}, id);
      var k' := Replaced(k, p, id, next);
      hide PartitionBlockAndDispatch;
      ReplacedPlaced(k, k', p, id, next);
      forall j | 0 <= j < |k.procs| && k.procs[j].state == Ready && k.procs[j].partition == p
        ensures Best(k, p) <= k.procs[j].priority
      {
        BestIsLeast(k, {}, p, j);
      }
    }
  }

  /** A READY process of p, which a blocking process may be replaced by. */
  predicate Candidate(k: Kernel, p: nat, next: Pid) {
    next < |k.procs| && k.procs[next].state == Ready && k.procs[next].partition == p
  }

  /** A running process can be replaced exactly when its partition runs and somebody is READY. */
  lemma CanBlockIs(k: Kernel, p: nat)
    requires Placed(k, {})
    ensures CanBlock(k, p) <==> p < |k.halted| && !k.halted[p] && exists i :: Candidate(k, p, i)
  {
    if CanBlock(k, p) {
      HeadIsReady(k, {}, p);
      assert Candidate(k, p, Queue(k, Slot(p, Best(k, p)))[0]);
    }
    if i :| Candidate(k, p, i) {
      BestIsLeast(k, {}, p, i);
      assert ProcOk(k, {}, i);
    }
  }

  lemma ReplacedPlaced(k: Kernel, k': Kernel, p: nat, id: Pid, next: Pid)
    requires Placed(k, {}) && p < |k.current| && IsProc(k, id) && k.procs[id].state == Running
             && k.procs[id].partition == p
    requires Best(k, p) <= MAX_PRIORITY && next == Queue(k, Slot(p, Best(k, p)))[0] && next < |k.procs|
    requires k' == Replaced(k, p, id, next)
    ensures Placed(k', {id})
  {
    HeadIsReady(k, {}, p);
    assert ProcOk(k, {}, id);
    var s := Slot(p, Best(k, p));
    forall t ensures NoDup(Queue(k', t)) && forall y :: y in Queue(k', t) <==> y in Queue(k, t) && y != next {
      assert QueueOk(k, t) && QueueOk(k, s);
      TailFacts(Queue(k, s));
    }
    SwapPlaced(k, k', {}, {id}, p, s, next, Some(id));
  }

  /** What a wait on list h leaves behind when it starts. */
  function Waiting(k: Kernel, id: Pid, next: Pid, h: ListId, wake: nat, op: Op): (r: Kernel)
    requires id < |k.procs| && next < |k.procs| && k.procs[id].partition < |k.current|
    ensures |r.procs| == |k.procs|
  {
    var b := Replaced(k, k.procs[id].partition, id, next);
    NoteDue(b.(procs := b.procs[id := b.procs[id].(waitlist := h, wakeTick := wake, op := op)],
               lists := b.lists[h := Waiters(k, h) + [id]]), wake)
  }

  /** ipc_block_current: the wait starts, or the caller keeps running with at most its
      operation record and the due bound touched. */
  lemma BlockCurrentOk(k: Kernel, id: Pid, h: ListId, wake: nat, op: Op)
    requires Placed(k, {}) && IsProc(k, id) && k.procs[id].state == Running && h != NoList
    ensures k.procs[id].partition < |k.current|
    ensures var r := BlockCurrent(k, id, h, wake, op); var p := k.procs[id].partition;
            if |Waiters(k, h)| >= WAITLIST_MAX then
              r.st == PoolFull && r.k == WithProc(k, id, k.procs[id].(op := op)) && Placed(r.k, {})
            else if !CanBlock(k, p) then
              && r.st == (if k.halted[p] then PartitionHalted else QueueEmpty) && Placed(r.k, {})
              && r.k == NoteDue(WithProc(k, id, k.procs[id].(op := NoOp)), wake).(lists := k.lists[h := Waiters(k, h)])
            else
              && r.st == Ok && r.next.Some? && Candidate(k, p, r.next.value)
              && r.k == Waiting(k, id, r.next.value, h, wake, op)
              && Placed(r.k, {}) && NoneAbove(r.k, p, r.next.value)
  {
    var p := k.procs[id].partition;
    assert ProcOk(k, {}, id);
    if |Waiters(k, h)| >= WAITLIST_MAX {
      RetouchedPlaced(k, WithProc(k, id, k.procs[id].(op := op)), {});
    } else if !CanBlock(k, p) {
      hide NoneAbove, Waiting;
      BlockStays(k, id, h, wake, op);
    } else {
      hide Placed, CanBlock, NoneAbove, Waiting;
      BlockStarts(k, id, h, wake, op);
    }
  }

  /** The state in which ipc_block_current asks for a replacement. */
  function AboutToWait(k: Kernel, id: Pid, h: ListId, wake: nat, op: Op): Kernel
    requires id < |k.procs|
  {
    NoteDue(WithProc(WithWaiters(k, h, Waiters(k, h) + [id]), id,
      k.procs[id].(op := op, waitlist := h, wakeTick := wake)), wake)
  }

  lemma BlockCurrentState(k: Kernel, id: Pid, h: ListId, wake: nat, op: Op)
    requires IsProc(k, id) && k.procs[id].state == Running && |Waiters(k, h)| < WAITLIST_MAX
    ensures var a := AboutToWait(k, id, h, wake, op); var r := PartitionBlockAndDispatch(a, k.procs[id].partition, id);
            BlockCurrent(k, id, h, wake, op) == if r.st == Ok then r else Sel(r.st, Withdraw(a, h, id), None)
  {
    var pushed := PushWaiter(WithProc(k, id, k.procs[id].(op := op)), h, id).k;
    assert WithProc(pushed, id, pushed.procs[id].(waitlist := h, wakeTick := wake)).procs ==
           k.procs[id := k.procs[id].(op := op, waitlist := h, wakeTick := wake)];
  }

  lemma AboutToWaitSame(k: Kernel, id: Pid, h: ListId, wake: nat, op: Op)
    requires IsProc(k, id)
    ensures var a := AboutToWait(k, id, h, wake, op);
            && a.ready == k.ready && a.current == k.current && a.halted == k.halted && |a.procs| == |k.procs|
            && (forall p :: Best(a, p) == Best(k, p) && CanBlock(a, p) == CanBlock(k, p))
            && (forall s :: Queue(a, s) == Queue(k, s))
            && (forall i :: 0 <= i < |k.procs| ==> SamePlace(k.procs[i], a.procs[i]))
  {
    var a := AboutToWait(k, id, h, wake, op);
    forall p ensures Best(a, p) == Best(k, p) { BestSame(k, a, p, 0); }
  }

  lemma WithdrawUndoes(k: Kernel, id: Pid, h: ListId, wake: nat, op: Op)
    requires IsProc(k, id) && id !in Waiters(k, h) && k.procs[id].waitlist == NoList
             && k.procs[id].wakeTick == TICK_NONE
    ensures Withdraw(AboutToWait(k, id, h, wake, op), h, id)
         == NoteDue(WithProc(k, id, k.procs[id].(op := NoOp)), wake).(lists := k.lists[h := Waiters(k, h)])
  {
    var a := AboutToWait(k, id, h, wake, op);
    RemoveLast(Waiters(k, h), id);
    assert Withdraw(a, h, id).procs == k.procs[id := k.procs[id].(op := NoOp)];
    assert a.lists[h := Waiters(k, h)] == k.lists[h := Waiters(k, h)];
  }

  lemma BlockStays(k: Kernel, id: Pid, h: ListId, wake: nat, op: Op)
    requires Placed(k, {}) && IsProc(k, id) && k.procs[id].state == Running && h != NoList
    requires |Waiters(k, h)| < WAITLIST_MAX && !CanBlock(k, k.procs[id].partition)
             && k.procs[id].partition < |k.current|
    ensures var r := BlockCurrent(k, id, h, wake, op); var p := k.procs[id].partition;
            && r.st == (if k.halted[p] then PartitionHalted else QueueEmpty) && Placed(r.k, {})
            && r.k == NoteDue(WithProc(k, id, k.procs[id].(op := NoOp)), wake).(lists := k.lists[h := Waiters(k, h)])
  {
    var k' := NoteDue(WithProc(k, id, k.procs[id].(op := NoOp)), wake).(lists := k.lists[h := Waiters(k, h)]);
    assert WaitOk(k, id) by { assert ProcOk(k, {}, id); }
    RetouchedPlaced(k, k', {});
    assert id !in Waiters(k, h) by { assert ListOk(k, {}, h); }
    hide Placed, BlockCurrent, Withdraw;
    var a := AboutToWait(k, id, h, wake, op);
    AboutToWaitSame(k, id, h, wake, op);
    BlockCurrentState(k, id, h, wake, op);
    BlockState(a, k.procs[id].partition, id);
    WithdrawUndoes(k, id, h, wake, op);
  }

  lemma BlockStarts(k: Kernel, id: Pid, h: ListId, wake: nat, op: Op)
    requires Placed(k, {}) && IsProc(k, id) && k.procs[id].state == Running && h != NoList
    requires |Waiters(k, h)| < WAITLIST_MAX && CanBlock(k, k.procs[id].partition) && k.procs[id].partition < |k.current|
    ensures var r := BlockCurrent(k, id, h, wake, op); var p := k.procs[id].partition;
            && r.st == Ok && r.next.Some? && Candidate(k, p, r.next.value)
            && r.k == Waiting(k, id, r.next.value, h, wake, op)
            && Placed(r.k, {}) && NoneAbove(r.k, p, r.next.value)
  {
    var p := k.procs[id].partition;
    BlockOk(k, p, id);
    var next := Queue(k, Slot(p, Best(k, p)))[0];
    assert WaitOk(k, id) by { assert ProcOk(k, {}, id); }
    WaitingPlaced(k, id, next, h, wake, op);
    assert |k.halted| == |k.current| && next != id;
    assert NoneAbove(Waiting(k, id, next, h, wake, op), p, next);
    hide Placed, BlockCurrent, Waiting, WaitOk;
    var a := AboutToWait(k, id, h, wake, op);
    AboutToWaitSame(k, id, h, wake, op);
    BlockCurrentState(k, id, h, wake, op);
    BlockState(a, p, id);
    ReplacedWaits(k, id, next, h, wake, op);
  }

  lemma ReplacedWaits(k: Kernel, id: Pid, next: Pid, h: ListId, wake: nat, op: Op)
    requires IsProc(k, id) && next < |k.procs| && k.procs[id].partition < |k.current| && next != id
    ensures var a := AboutToWait(k, id, h, wake, op);
            |a.procs| == |k.procs| && |a.current| == |k.current|
              && Replaced(a, k.procs[id].partition, id, next) == Waiting(k, id, next, h, wake, op)
  {
    var a := AboutToWait(k, id, h, wake, op);
    var b := Replaced(k, k.procs[id].partition, id, next);
    BestSame(k, a, k.procs[id].partition, 0);
    assert Replaced(a, k.procs[id].partition, id, next).procs ==
           b.procs[id := b.procs[id].(waitlist := h, wakeTick := wake, op := op)];
  }

  lemma WaitingPlaced(k: Kernel, id: Pid, next: Pid, h: ListId, wake: nat, op: Op)
    requires IsProc(k, id) && next < |k.procs| && k.procs[id].partition < |k.current| && h != NoList && next != id
    requires Placed(Replaced(k, k.procs[id].partition, id, next), {id}) && !k.procs[id].periodicWaiting
             && !k.procs[id].timedWaiting
    ensures Placed(Waiting(k, id, next, h, wake, op), {})
  {
    var b := Replaced(k, k.procs[id].partition, id, next);
    hide Placed;
    JoinList(b, {id}, id, h, wake, op);
    assert {id} - {id} == {};
    RetouchedPlaced(WithWaiters(WithProc(b, id, b.procs[id].(waitlist := h, wakeTick := wake, op := op)), h,
      Waiters(b, h) + [id]),
                    Waiting(k, id, next, h, wake, op), {});
  }

  /** A timed wait may block even when nobody else is READY: the partition idles. */
  lemma IdleBlockPlaced(k: Kernel, id: Pid)
    requires Placed(k, {}) && IsProc(k, id) && k.procs[id].state == Running
    ensures k.procs[id].partition < |k.current|
    ensures Placed(k.(procs := k.procs[id := k.procs[id].(state := Blocked)],
            current := k.current[k.procs[id].partition := None]), {id})
  {
    assert ProcOk(k, {}, id);
    var k' := k.(procs := k.procs[id := k.procs[id].(state := Blocked)],
      current := k.current[k.procs[id].partition := None]);
    SameMembers(k, k');
    forall s ensures QueueOk(k', s) { assert QueueOk(k, s); }
    forall i: nat | i < |k'.procs| ensures ProcOk(k', {id}, i) { assert ProcOk(k, {}, i); }
    forall h ensures ListOk(k', {id}, h) { assert ListOk(k, {}, h); }
    forall p: nat | p < |k'.current| ensures CurrentOk(k', p) { assert CurrentOk(k, p); }
  }

  // ---------------------------------------------------------------- choosing a waiter

  /** Entry x of l is the most urgent, and no earlier entry is as urgent. */
  ghost predicate UrgentAt(k: Kernel, l: seq<Pid>, x: nat) {
    && x < |l| && (forall j :: 0 <= j < |l| ==> l[j] < |k.procs|)
    && (forall j :: 0 <= j < |l| ==> k.procs[l[x]].priority <= k.procs[l[j]].priority)
    && (forall j :: 0 <= j < x ==> k.procs[l[x]].priority < k.procs[l[j]].priority)
  }

  /** b is the most urgent process of l, the longest waiting among equals. */
  ghost predicate MostUrgent(k: Kernel, l: seq<Pid>, b: Pid) {
    exists x: nat :: x < |l| && l[x] == b && UrgentAt(k, l, x)
  }

  lemma {:induction false} BestWaiterIs(k: Kernel, l: seq<Pid>, n: nat) returns (x: nat)
    requires n <= |l| && forall j :: 0 <= j < |l| ==> l[j] < |k.procs| && IsProc(k, l[j])
    ensures n == 0 ==> BestWaiter(k, l, n) == None
    ensures n > 0 ==> x < n && BestWaiter(k, l, n) == Some(l[x])
    ensures n > 0 ==> forall j :: 0 <= j < n ==> k.procs[l[x]].priority <= k.procs[l[j]].priority
    ensures n > 0 ==> forall j :: 0 <= j < x ==> k.procs[l[x]].priority < k.procs[l[j]].priority
  {
    x := 0;
    if n != 0 {
      x := BestWaiterIs(k, l, n - 1);
      if n == 1 || BestWaiter(k, l, n) != BestWaiter(k, l, n - 1) { x := n - 1; }
    }
  }

  /** The list and the process's record after it was taken off list h. */
  function TakenOff(k: Kernel, h: ListId, id: Pid): Kernel
    requires id < |k.procs|
  {
    ClearBlocked(WithWaiters(k, h, Remove(Waiters(k, h), id)), id)
  }

  lemma TakeWaiterOk(k: Kernel, limbo: set<Pid>, h: ListId, id: Pid)
    requires Placed(k, limbo) && id in Waiters(k, h)
    ensures IsProc(k, id) && k.procs[id].state == Blocked && k.procs[id].waitlist == h != NoList && id !in limbo
    ensures !k.procs[id].periodicWaiting && !k.procs[id].timedWaiting
    ensures TakeWaiter(k, h, id) == Taken(Ok, TakenOff(k, h, id), id, k.procs[id].op)
            && Placed(TakenOff(k, h, id), limbo + {id})
  {
    assert ListOk(k, limbo, h) && ProcOk(k, limbo, id);
    LeaveList(k, limbo, h, id);
  }

  lemma TakeBestOk(k: Kernel, limbo: set<Pid>, h: ListId)
    requires Placed(k, limbo)
    ensures Waiters(k, h) == [] ==> TakeBest(k, h) == Taken(QueueEmpty, k, 0, NoOp)
    ensures Waiters(k, h) != [] ==>
              var t := TakeBest(k, h);
              && t.id in Waiters(k, h) && IsProc(k, t.id) && MostUrgent(k, Waiters(k, h), t.id)
              && t == Taken(Ok, TakenOff(k, h, t.id), t.id, k.procs[t.id].op) && Placed(t.k, limbo + {t.id})
  {
    var l := Waiters(k, h);
    assert ListOk(k, limbo, h);
    forall j | 0 <= j < |l| ensures l[j] < |k.procs| && IsProc(k, l[j]) { assert l[j] in l; }
    var x := BestWaiterIs(k, l, |l|);
    if l != [] {
      assert UrgentAt(k, l, x);
      TakeWaiterOk(k, limbo, h, l[x]);
    }
  }

  /** Taking the first of a duplicate-free list is taking that process off it. */
  lemma WakeOneOk(k: Kernel, limbo: set<Pid>, h: ListId)
    requires Placed(k, limbo)
    ensures Waiters(k, h) == [] ==> WakeOne(k, h) == Taken(QueueEmpty, k, 0, NoOp)
    ensures Waiters(k, h) != [] ==>
              var id := Waiters(k, h)[0];
              && IsProc(k, id) && WakeOne(k, h) == Taken(Ok, TakenOff(k, h, id), id, k.procs[id].op)
              && Placed(TakenOff(k, h, id), limbo + {id})
  {
    if Waiters(k, h) != [] {
      var id := Waiters(k, h)[0];
      assert id in Waiters(k, h);
      TakeWaiterOk(k, limbo, h, id);
      assert Remove(Waiters(k, h), id) == Waiters(k, h)[1..];
    }
  }

  // ---------------------------------------------------------------- what placement means

  /** Everybody is in exactly one place: a READY process once in one queue, a RUNNING one in
      none, a BLOCKED one on the one list its record names or in one timed or periodic wait. */
  lemma OnePlaceEach(k: Kernel, i: Pid)
    requires Placed(k, {}) && IsProc(k, i)
    ensures var c := k.procs[i];
            && (c.state == Ready ==> forall s :: i in Queue(k, s) <==> s == Slot(c.partition, c.priority))
            && (c.state != Ready ==> forall s :: i !in Queue(k, s))
            && (forall s :: NoDup(Queue(k, s)))
            && (c.state == Running ==> forall p :: 0 <= p < |k.current| ==>
               (k.current[p] == Some(i) <==> p == c.partition))
            && (c.state != Running ==> forall p :: 0 <= p < |k.current| ==> k.current[p] != Some(i))
            && (c.state == Blocked && !c.periodicWaiting && !c.timedWaiting ==> forall h :: i in Waiters(k, h) <==>
               h == c.waitlist)
            && (c.state != Blocked || c.periodicWaiting || c.timedWaiting ==> forall h :: i !in Waiters(k, h))
            && !(c.periodicWaiting && c.timedWaiting) && (forall h :: NoDup(Waiters(k, h)))
  {
    var c := k.procs[i];
    assert ProcOk(k, {}, i);
    forall s ensures NoDup(Queue(k, s))
      && (i in Queue(k, s) <==> c.state == Ready && s == Slot(c.partition, c.priority)) {
      assert QueueOk(k, s);
    }
    forall h ensures NoDup(Waiters(k, h)) && (i in Waiters(k, h) <==> c.waitlist != NoList && h == c.waitlist) {
      assert ListOk(k, {}, h);
    }
    forall p: nat | p < |k.current| ensures k.current[p] == Some(i) <==> c.state == Running && p == c.partition {
      assert CurrentOk(k, p);
    }
  }

  /** Who runs after a selection, and where the outgoing process goes: it keeps the CPU unless
      somebody strictly more urgent is READY (as urgent, if it gives way); a preempted process
      goes to the front of its level, one that gave way to the end. */
  lemma DispatchOutcome(k: Kernel, p: nat, giveWay: bool)
    requires Placed(k, {}) && p < |k.current| && !k.halted[p]
    ensures var r := PartitionSelect(k, p, giveWay); var s := Slot(p, Best(k, p));
            match k.current[p]
            case None =>
              if Best(k, p) > MAX_PRIORITY then r == Sel(QueueEmpty, k, None)
              else r.st == Ok && r.next == Some(Queue(k, s)[0]) && Queue(r.k, s) == Queue(k, s)[1..]
            case Some(o) =>
              && o < |k.procs|
              && var mine := k.procs[o].priority;
                 var back := Slot(p, mine);
                 if Best(k, p) > MAX_PRIORITY || (if giveWay then Best(k, p) > mine else Best(k, p) >= mine) then
                   r == Sel(Ok, k, Some(o))
                 else
                   && r.st == Ok && r.next == Some(Queue(k, s)[0])
                   && r.k.procs[o] == k.procs[o].(state := Ready)
                   && (s != back ==> Queue(r.k, s) == Queue(k, s)[1..])
                   && var rest := if s == back then Queue(k, s)[1..] else Queue(k, back);
                      Queue(r.k, back) == if giveWay then rest + [o] else [o] + rest
  {
    assert CurrentOk(k, p);
    if Best(k, p) > MAX_PRIORITY {
      assert k.current[p := k.current[p]] == k.current;
    } else {
      HeadIsReady(k, {}, p);
      if k.current[p].Some? && !TakesOver(Best(k, p), k.procs[k.current[p].value].priority, giveWay) {
        assert k.current[p := k.current[p]] == k.current;
      } else {
        TakeOverState(k, p, giveWay);
        hide PartitionSelect, Placed;
      }
    }
  }

  /** A READY process whose priority is set ends at the tail of its level, even if it does not change. */
  lemma RequeuedAtTail(k: Kernel, limbo: set<Pid>, id: Pid, pr: nat)
    requires Placed(k, limbo) && IsProc(k, id) && pr <= MAX_PRIORITY && k.procs[id].state == Ready
    ensures var r := SetPriority(k, id, pr); var p := k.procs[id].partition;
            && r.st == Ok && Queue(r.k, Slot(p, pr)) == Remove(Queue(k, Slot(p, pr)), id) + [id]
            && (pr != k.procs[id].priority ==>
               Queue(r.k, Slot(p, k.procs[id].priority)) == Remove(Queue(k, Slot(p, k.procs[id].priority)), id))
  {
    var c := k.procs[id];
    var s0, s1 := Slot(c.partition, c.priority), Slot(c.partition, pr);
    SetPriorityOk(k, limbo, id, pr);
    assert ProcOk(k, limbo, id) && QueueOk(k, s0) && QueueOk(k, s1);
    if s0 != s1 { RemoveAbsent(Queue(k, s1), id); }
  }
}

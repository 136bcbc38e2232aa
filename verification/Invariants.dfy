/** The rest of the kernel invariant: what every wait list and pool object promises, what
    the timing fields mean, and the inheritance equation read off the process records. */
module Invariants {
  import opened Wrappers
  import opened KernelState
  import opened Placement
  import opened KernelCalls
  import opened Inheritance

  // ---------------------------------------------------------------- objects

  ghost predicate ChannelOk(c: Channel) {
    && c.capacity > 0 && |c.ring| <= c.capacity
    && forall j :: 0 <= j < |c.ring| ==> |c.ring[j]| == c.messageSize
  }

  /** A wait list is only used while its object makes processes wait: receivers wait on an
      empty channel, senders on a full one, and nobody on a free mutex or an available unit. */
  ghost predicate ListUsed(k: Kernel, h: ListId) {
    match h
    case NoList => false
    case OnMutex(m) => m < |k.mutexes| && k.mutexes[m].inUse && k.mutexes[m].owner.Some?
    case OnSemaphore(s) => s < |k.sems| && k.sems[s].inUse && k.sems[s].count == 0
    case OnReceive(ch) => ch in k.channels && k.channels[ch].inUse && k.channels[ch].ring == []
    case OnSend(ch) => ch in k.channels && k.channels[ch].inUse && |k.channels[ch].ring| == k.channels[ch].capacity
  }

  /** The record of a waiter names the operation its list stands for. */
  ghost predicate MemberOk(k: Kernel, h: ListId, i: Pid)
    requires ListUsed(k, h) && i < |k.procs|
  {
    var c := k.procs[i];
    match h
    case NoList => false
    case OnMutex(m) => c.op == LockOp(m) && c.partition == k.mutexes[m].partition && k.mutexes[m].owner != Some(i)
    case OnSemaphore(s) => c.op == WaitOp(s) && c.partition == k.sems[s].partition
    case OnReceive(ch) => c.op.ReceiveOp? && c.op.ch == ch && c.op.size >= k.channels[ch].messageSize
    case OnSend(ch) => c.op.SendOp? && c.op.ch == ch && |c.op.message| == k.channels[ch].messageSize
  }

  ghost predicate ListFine(k: Kernel, h: ListId) {
    Waiters(k, h) != [] ==> ListUsed(k, h) && forall i :: i in Waiters(k, h) ==> i < |k.procs| && MemberOk(k, h, i)
  }

  ghost predicate MutexFine(k: Kernel, m: nat)
    requires m < |k.mutexes|
  {
    k.mutexes[m].owner.Some? ==>
      && k.mutexes[m].inUse && IsProc(k, k.mutexes[m].owner.value)
      && k.procs[k.mutexes[m].owner.value].partition == k.mutexes[m].partition
  }

  ghost predicate Objects(k: Kernel) {
    && (forall h :: ListFine(k, h))
    && (forall m: nat :: m < |k.mutexes| ==> MutexFine(k, m))
    && (forall s :: 0 <= s < |k.sems| ==> k.sems[s].count <= k.sems[s].max)
    && (forall ch :: ch in k.channels && k.channels[ch].inUse ==> ChannelOk(k.channels[ch]))
  }

  /** k' has the same pool objects and wait lists, and the same operation records. */
  ghost predicate SameObjects(k: Kernel, k': Kernel) {
    && k'.mutexes == k.mutexes && k'.sems == k.sems && k'.channels == k.channels
    && (forall h :: Waiters(k', h) == Waiters(k, h))
    && |k'.procs| == |k.procs|
    && forall i :: 0 <= i < |k.procs| ==>
         && (k'.procs[i].op == k.procs[i].op || forall h :: i !in Waiters(k, h))
         && k'.procs[i].partition == k.procs[i].partition
         && (k'.procs[i].state == Unused <==> k.procs[i].state == Unused)
  }

  lemma SameObjectsFine(k: Kernel, k': Kernel)
    requires Objects(k) && SameObjects(k, k')
    ensures Objects(k')
  {
    forall h ensures ListFine(k', h) { assert ListFine(k, h); }
    forall m: nat | m < |k'.mutexes| ensures MutexFine(k', m) { assert MutexFine(k, m); }
  }

  // ---------------------------------------------------------------- timing

  ghost predicate ClockOk(k: Kernel, c: Pcb) {
    && k.nextDue <= c.wakeTick <= TICK_NONE && k.nextDue <= c.deadline <= TICK_NONE
    && (c.state == Unused ==> c.deadline == TICK_NONE)
    && (c.deadline != TICK_NONE ==> c.capacity > 0 && c.deadline == Wrap(c.release + c.capacity))
    && (c.periodicWaiting ==> c.period > 0 && c.wakeTick == Wrap(c.release + c.period) && c.deadline == TICK_NONE)
  }

  /** The due bound never exceeds a recorded wake-up or deadline, and an armed deadline is
      the current release plus the time capacity. */
  ghost predicate Clocked(k: Kernel) {
    && k.tick <= TICK_NONE && (forall j :: j in k.pending ==> j < |k.procs|)
    && forall i :: 0 <= i < |k.procs| ==> ClockOk(k, k.procs[i])
  }

  ghost predicate Inv(k: Kernel) {
    Placed(k, {}) && Objects(k) && Clocked(k)
  }

  lemma InvParts(k: Kernel)
    requires Inv(k)
    ensures Placed(k, {}) && Objects(k) && Clocked(k) && |k.halted| == |k.current|
  {
  }

  lemma PartsInv(k: Kernel)
    requires Placed(k, {}) && Objects(k) && Clocked(k)
    ensures Inv(k)
  {
  }

  // ---------------------------------------------------------------- inheritance

  /** The owner of the mutex on whose wait list i is. */
  ghost function Boss(k: Kernel, i: Pid): Option<Pid>
    requires i < |k.procs|
  {
    if k.procs[i].waitlist.OnMutex? && i in Waiters(k, k.procs[i].waitlist) then
      MutexOwner(k, k.procs[i].waitlist.mutex) else None
  }

  ghost function GraphOf(k: Kernel): (g: Graph)
    ensures |g.base| == |g.boss| == |k.procs|
    ensures forall i :: 0 <= i < |k.procs| ==> g.base[i] == k.procs[i].base && g.boss[i] == Boss(k, i)
  {
    Graph(seq(|k.procs|, i requires 0 <= i < |k.procs| => k.procs[i].base),
          seq(|k.procs|, i requires 0 <= i < |k.procs| => Boss(k, i)))
  }

  ghost function Prios(k: Kernel): (p: seq<nat>)
    ensures |p| == |k.procs| && forall i :: 0 <= i < |k.procs| ==> p[i] == k.procs[i].priority
  {
    seq(|k.procs|, i requires 0 <= i < |k.procs| => k.procs[i].priority)
  }

  ghost function Records(k: Kernel): (s: seq<Option<nat>>)
    ensures |s| == |k.procs| && forall i :: 0 <= i < |k.procs| ==> s[i] == NextInChain(k, i)
  {
    seq(|k.procs|, i requires 0 <= i < |k.procs| => NextInChain(k, i))
  }

  ghost function Holders(k: Kernel): (s: seq<Option<nat>>)
    ensures |s| == |k.mutexes| && forall m :: 0 <= m < |k.mutexes| ==> s[m] == MutexOwner(k, m)
  {
    seq(|k.mutexes|, m requires 0 <= m < |k.mutexes| => MutexOwner(k, m))
  }

  ghost function Owners(k: Kernel): set<Pid> { HoldersFrom(Holders(k), 0) }

  lemma {:induction false} HoldersBounded(s: seq<Option<nat>>, i: nat)
    requires i <= |s|
    ensures |HoldersFrom(s, i)| <= |s| - i
    decreases |s| - i
  {
    if i == |s| {
      assert HoldersFrom(s, i) == {};
    } else {
      HoldersBounded(s, i + 1);
      if s[i].Some? {
        assert HoldersFrom(s, i) == HoldersFrom(s, i + 1) + {s[i].value};
        SumSize(HoldersFrom(s, i + 1), s[i].value);
      } else {
        assert HoldersFrom(s, i) == HoldersFrom(s, i + 1);
      }
    }
  }

  /** Every process's effective priority is exactly the minimum of its base priority and the
      priorities of all waiters on the mutexes it owns. */
  ghost predicate Exact(k: Kernel) {
    Shaped(GraphOf(k), Prios(k)) && Stable(GraphOf(k), Prios(k))
  }

  lemma GraphShaped(k: Kernel, limbo: set<Pid>)
    requires Placed(k, limbo)
    ensures Shaped(GraphOf(k), Prios(k))
  {
    forall i: nat | i < |k.procs| ensures k.procs[i].base < NO_CLAIM { assert ProcOk(k, limbo, i); }
  }

  lemma GraphEdges(k: Kernel, limbo: set<Pid>)
    requires Placed(k, limbo) && Objects(k)
    ensures Edges(GraphOf(k), Records(k), Owners(k)) && |Owners(k)| <= |k.mutexes|
    ensures InRange(GraphOf(k).boss) && InRange(Records(k))
    ensures forall i :: 0 <= i < |k.procs| && Records(k)[i].Some? ==> IsProc(k, Records(k)[i].value)
  {
    HoldersBounded(Holders(k), 0);
    forall i: nat | i < |k.procs| && Records(k)[i].Some?
      ensures Records(k)[i].value in Owners(k) && IsProc(k, Records(k)[i].value)
    {
      var m := k.procs[i].op.mutex;
      assert MutexFine(k, m) && Holders(k)[m] == Records(k)[i];
    }
    forall i: nat | i < |k.procs| && GraphOf(k).boss[i].Some? ensures Records(k)[i] == GraphOf(k).boss[i] {
      assert ListOk(k, limbo, k.procs[i].waitlist) && ListFine(k, k.procs[i].waitlist);
    }
  }

  /** Membership of a mutex wait list decides the edge. */
  lemma BossIs(k: Kernel, limbo: set<Pid>, m: nat, i: Pid)
    requires Placed(k, limbo) && i in Waiters(k, OnMutex(m))
    ensures i < |k.procs| && Boss(k, i) == MutexOwner(k, m)
  {
    assert ListOk(k, limbo, OnMutex(m));
  }

  // ---------------------------------------------------------------- wanted priority

  lemma {:induction false} LeastOfIs(k: Kernel, l: seq<Pid>, n: nat, acc: nat)
    requires n <= |l| && forall j :: 0 <= j < n ==> IsProc(k, l[j])
    ensures var w := LeastOf(k, l, n, acc);
            && w <= acc && (forall j :: 0 <= j < n ==> l[j] < |k.procs| && w <= k.procs[l[j]].priority)
            && (w == acc || exists j :: 0 <= j < n && l[j] < |k.procs| && k.procs[l[j]].priority == w)
  {
    if n != 0 { LeastOfIs(k, l, n - 1, acc); }
  }

  lemma {:induction false} LeastOwnedIs(k: Kernel, limbo: set<Pid>, id: Pid, n: nat, acc: nat)
    requires Placed(k, limbo) && n <= |k.mutexes|
    ensures var w := LeastOwned(k, id, n, acc);
            && w <= acc
            && (forall m: nat :: m < n && MutexOwner(k, m) == Some(id) ==>
                  forall i :: i in Waiters(k, OnMutex(m)) ==> i < |k.procs| && w <= k.procs[i].priority)
            && (w == acc || exists i :: 0 <= i < |k.procs| && Boss(k, i) == Some(id) && k.procs[i].priority == w)
  {
    if n != 0 {
      LeastOwnedIs(k, limbo, id, n - 1, acc);
      var l := Waiters(k, OnMutex(n - 1));
      assert ListOk(k, limbo, OnMutex(n - 1));
      if MutexOwner(k, n - 1) == Some(id) {
        forall j | 0 <= j < |l| ensures IsProc(k, l[j]) { assert l[j] in l; }
        LeastOfIs(k, l, |l|, LeastOwned(k, id, n - 1, acc));
        forall i | i in l
          ensures i < |k.procs| && Boss(k, i) == Some(id) && LeastOwned(k, id, n, acc) <= k.procs[i].priority
        {
          BossIs(k, limbo, n - 1, i);
          var j :| 0 <= j < |l| && l[j] == i;
        }
      }
    }
  }

  /** The kernel's double loop over mutexes and waiters computes the wanted priority. */
  lemma WantedIs(k: Kernel, limbo: set<Pid>, id: Pid, claim: nat)
    requires Placed(k, limbo) && id < |k.procs| && Shaped(GraphOf(k), Prios(k))
    ensures WantedPriority(k, id, claim) == Wanted(GraphOf(k), Prios(k), id, claim)
  {
    var g, p := GraphOf(k), Prios(k);
    var acc := Min(k.procs[id].base, claim);
    LeastOwnedIs(k, limbo, id, |k.mutexes|, acc);
    var w := Wanted(g, p, id, claim);
    forall j | 0 <= j < |p| && g.boss[j] == Some(id) ensures WantedPriority(k, id, claim) <= p[j] {
      var m := k.procs[j].waitlist.mutex;
      assert m < |k.mutexes| && MutexOwner(k, m) == Some(id) && j in Waiters(k, OnMutex(m));
    }
  }

  /** Inheritance is exact if and only if recomputing any priority, as the kernel would, finds
      the value that is there. */
  lemma ExactIsWanted(k: Kernel)
    requires Inv(k)
    ensures Exact(k) <==> forall i :: 0 <= i < |k.procs| ==> k.procs[i].priority == WantedPriority(k, i, NO_CLAIM)
  {
    GraphShaped(k, {});
    forall i: nat | i < |k.procs| ensures WantedPriority(k, i, NO_CLAIM) == Wanted(GraphOf(k), Prios(k), i, NO_CLAIM) {
      WantedIs(k, {}, i, NO_CLAIM);
    }
    hide Inv, Stable, Wanted, WantedPriority;
    StableIsEquation(GraphOf(k), Prios(k));
  }
}

/** Timed and periodic waits, the three scans of a tick, and the bound that gates them. */
module Timing {
  import opened Wrappers
  import opened KernelState
  import opened Placement
  import opened KernelCalls
  import opened Invariants
  import opened Blocking

  // ---------------------------------------------------------------- starting a timed wait

  /** Process id is BLOCKED with record c; `next` has its place, or nobody if none was READY. */
  ghost predicate Asleep(k: Kernel, r: Sel, id: Pid, c: Pcb) {
    && id < |k.procs| && k.procs[id].partition < |k.current| && |r.k.procs| == |k.procs|
    && r.k == k.(procs := r.k.procs, ready := r.k.ready, current := k.current[k.procs[id].partition := r.next],
       nextDue := r.k.nextDue)
    && r.k.procs[id] == c
    && (forall i :: 0 <= i < |k.procs| && i != id && r.next != Some(i) ==> r.k.procs[i] == k.procs[i])
    && (r.next.Some? ==>
          && Candidate(k, k.procs[id].partition, r.next.value) && r.next.value != id
          && r.k.procs[r.next.value] == k.procs[r.next.value].(state := Running)
          && Leaves(k, r.k, Slot(k.procs[id].partition, k.procs[r.next.value].priority), r.next.value)
          && NoneAbove(r.k, k.procs[id].partition, r.next.value))
    && (r.next.None? ==> r.k.ready == k.ready && forall i :: !Candidate(k, k.procs[id].partition, i))
  }

  lemma BlockTimedOk(k: Kernel, id: Pid) returns (r: Sel)
    requires Placed(k, {}) && IsProc(k, id) && k.procs[id].state == Running
    ensures r == BlockTimed(k, id) && k.procs[id].partition < |k.halted| == |k.current|
    ensures r.st == if k.halted[k.procs[id].partition] then PartitionHalted else Ok
    ensures r.st == Ok ==>
            Placed(r.k, {id}) && r.k.nextDue == k.nextDue && Asleep(k, r, id, k.procs[id].(state := Blocked))
    ensures r.st != Ok ==> r.k == k
  {
    assert ProcOk(k, {}, id);
    var p := k.procs[id].partition;
    r := BlockTimed(k, id);
    BlockOk(k, p, id);
    CanBlockIs(k, p);
    if CanBlock(k, p) {
      HeadIsReady(k, {}, p);
      hide PartitionBlockAndDispatch, Placed, NoneAbove, CanBlock;
      ReplacedSleeps(k, r, p, id);
    } else if !k.halted[p] {
      IdleBlockPlaced(k, id);
      IdleSleeps(k, r, p, id);
    }
  }

  lemma ReplacedSleeps(k: Kernel, r: Sel, p: nat, id: Pid)
    requires id < |k.procs| && k.procs[id].state == Running && k.procs[id].partition == p < |k.current| && r.next.Some?
    requires Candidate(k, p, r.next.value) && r.k == Replaced(k, p, id, r.next.value) && NoneAbove(r.k, p, r.next.value)
    requires var s := Slot(p, Best(k, p));
             Queue(k, s) != [] && Queue(k, s)[0] == r.next.value && k.procs[r.next.value].priority == Best(k, p)
    ensures Asleep(k, r, id, k.procs[id].(state := Blocked))
  {
    hide NoneAbove;
  }

  lemma IdleSleeps(k: Kernel, r: Sel, p: nat, id: Pid)
    requires id < |k.procs| && k.procs[id].partition == p < |k.current| && (forall i :: !Candidate(k, p, i))
    requires r.next == None && r.k ==
             k.(procs := k.procs[id := k.procs[id].(state := Blocked)], current := k.current[p := None])
    ensures Asleep(k, r, id, k.procs[id].(state := Blocked))
  {
  }

  /** Recording what a blocked process waits for completes its placement. */
  lemma SleepRecorded(k: Kernel, r: Sel, id: Pid, c: Pcb, due: nat) returns (k': Kernel)
    requires id < |k.procs| && Placed(r.k, {id}) && Asleep(k, r, id, k.procs[id].(state := Blocked))
             && k.procs[id].state == Running
    requires SamePlace(r.k.procs[id], c) && c.waitlist == NoList && (c.periodicWaiting <==> !c.timedWaiting)
             && due <= k.nextDue
    ensures k' == WithProc(r.k, id, c).(nextDue := due) && Placed(k', {}) && Asleep(k, Sel(r.st, k', r.next), id, c)
  {
    hide NoneAbove;
    k' := WithProc(r.k, id, c).(nextDue := due);
    RetouchedPlaced(r.k, k', {id});
    LeaveLimbo(k', {id}, id);
    assert {id} - {id} == {};
    AsleepRecorded(k, r, id, c, due);
  }

  lemma AsleepRecorded(k: Kernel, r: Sel, id: Pid, c: Pcb, due: nat)
    requires id < |k.procs| && Asleep(k, r, id, k.procs[id].(state := Blocked)) && k.procs[id].state == Running
             && SamePlace(r.k.procs[id], c)
    ensures Asleep(k, Sel(r.st, WithProc(r.k, id, c).(nextDue := due), r.next), id, c)
  {
  }

  /** Falling asleep leaves every object, every other process and the wait graph as they were. */
  lemma AsleepKeeps(k: Kernel, r: Sel, id: Pid, c: Pcb)
    requires Inv(k) && Asleep(k, r, id, c) && Placed(r.k, {}) && r.k.nextDue <= k.nextDue && ClockOk(r.k, c)
    requires k.procs[id].state == Running
             && c == k.procs[id].(state := Blocked, wakeTick := c.wakeTick, deadline := c.deadline,
                periodicWaiting := c.periodicWaiting, timedWaiting := c.timedWaiting)
    ensures Inv(r.k) && (Exact(r.k) <==> Exact(k)) && Framed(k, r.k, id)
  {
    hide NoneAbove;
    forall h ensures id !in Waiters(k, h) && Waiters(r.k, h) == Waiters(k, h) { assert ListOk(k, {}, h); }
    assert ProcOk(k, {}, id);
    forall i | 0 <= i < |k.procs|
      ensures ClockOk(r.k, r.k.procs[i]) && SameSettings(k.procs[i], r.k.procs[i])
              && (i != id ==> Gentle(k.procs[i], r.k.procs[i]))
    {
      assert ClockOk(k, k.procs[i]);
    }
    hide Placed, Objects;
    SameObjectsFine(k, r.k);
    forall i: nat | i < |k.procs| ensures Boss(r.k, i) == Boss(k, i) {
      assert r.k.procs[i].waitlist == k.procs[i].waitlist;
    }
    SameGraph(k, r.k);
  }

  /** What a timed wait tells its caller, and what it leaves behind. */
  lemma TimedWaitOk(k: Kernel, id: Pid, delay: nat) returns (r: Sel)
    requires Inv(k) && IsProc(k, id) && k.procs[id].state == Running
    ensures r == TimedWait(k, id, delay) && Inv(r.k) && (Exact(r.k) <==> Exact(k)) && Framed(k, r.k, id)
    ensures r.st == InvalidArg <==> delay == TIMEOUT_INFINITE
    ensures r.st == Ok <==> delay == 0
    ensures r.st == Overflow <==> delay != TIMEOUT_INFINITE && delay != 0 && delay >= TICK_NONE - k.tick
    ensures r.st == Pending <==>
            0 < delay != TIMEOUT_INFINITE && delay < TICK_NONE - k.tick && !k.halted[k.procs[id].partition]
    ensures r.st == Pending ==>
            Asleep(k, r, id, k.procs[id].(state := Blocked, timedWaiting := true, wakeTick := k.tick + delay))
              && r.k.nextDue == Sooner(k.nextDue, k.tick + delay)
    ensures r.st != Pending ==> r.k == k
    ensures k.procs[id].partition < |k.halted|
  {
    var b := BlockTimedOk(k, id);
    hide Placed, Objects, Exact, Asleep, BlockTimed;
    r := TimedWait(k, id, delay);
    if 0 < delay != TIMEOUT_INFINITE && delay < TICK_NONE - k.tick && b.st == Ok {
      r := TimedSleeps(k, id, delay, b);
    }
  }

  lemma TimedSleeps(k: Kernel, id: Pid, delay: nat, b: Sel) returns (r: Sel)
    requires Inv(k) && IsProc(k, id) && k.procs[id].state == Running && 0 < delay < TICK_NONE - k.tick
    requires b == BlockTimed(k, id) && b.st == Ok && Placed(b.k, {id}) && b.k.nextDue == k.nextDue
             && Asleep(k, b, id, k.procs[id].(state := Blocked))
    ensures r == TimedWait(k, id, delay) && r.st == Pending && Inv(r.k) && (Exact(r.k) <==> Exact(k))
            && Framed(k, r.k, id)
    ensures Asleep(k, r, id, k.procs[id].(state := Blocked, timedWaiting := true, wakeTick := k.tick + delay))
    ensures r.k.nextDue == Sooner(k.nextDue, k.tick + delay)
  {
    hide NoneAbove, BlockTimed;
    assert ProcOk(k, {}, id);
    var wake := k.tick + delay;
    var c := k.procs[id].(state := Blocked, timedWaiting := true, wakeTick := wake);
    var k' := SleepRecorded(k, b, id, c, if wake < k.nextDue then wake else k.nextDue);
    r := Sel(Pending, k', b.next);
    assert ClockOk(k', c) by { assert ClockOk(k, k.procs[id]); }
    hide Placed, Objects, Framed, Exact;
    AsleepKeeps(k, r, id, c);
  }

  // ---------------------------------------------------------------- periodic waits

  /** The deadline of a release that begins at `release`. */
  function DeadlineOf(c: Pcb, release: nat): nat {
    if c.capacity > 0 then Wrap(release + c.capacity) else TICK_NONE
  }

  function Sooner(due: nat, tick: nat): nat { if tick != TICK_NONE && tick < due then tick else due }

  lemma ArmDeadlineIs(k: Kernel, id: Pid)
    requires id < |k.procs|
    ensures var d := DeadlineOf(k.procs[id], k.procs[id].release);
            ArmDeadline(k, id) == k.(procs := k.procs[id := k.procs[id].(deadline := d)],
              nextDue := Sooner(k.nextDue, d))
  {
  }

  /** Only the release and the deadline of a process that does not wait for a release changed. */
  lemma TimesChanged(k: Kernel, id: Pid, release: nat, deadline: nat, due: nat) returns (k': Kernel)
    requires Inv(k) && IsProc(k, id) && !k.procs[id].periodicWaiting
    requires due <= k.nextDue && due <= deadline && deadline in {TICK_NONE, DeadlineOf(k.procs[id], release)}
    ensures k' == k.(procs := k.procs[id := k.procs[id].(release := release, deadline := deadline)], nextDue := due)
    ensures Inv(k') && (Exact(k') <==> Exact(k)) && Framed(k, k', id)
  {
    k' := k.(procs := k.procs[id := k.procs[id].(release := release, deadline := deadline)], nextDue := due);
    RetouchedPlaced(k, k', {});
    forall i | 0 <= i < |k.procs| ensures ClockOk(k', k'.procs[i]) { assert ClockOk(k, k.procs[i]); }
    hide Placed, Objects;
    SameObjectsFine(k, k');
    forall i: nat | i < |k.procs|
      ensures Boss(k', i) == Boss(k, i)
    {
      assert k'.procs[i].waitlist == k.procs[i].waitlist;
    }
    SameGraph(k, k');
  }

  /** The next release of a periodic process. */
  function NextRelease(c: Pcb): nat { Wrap(c.release + c.period) }

  /** Waiting for the next release: at once if it is already due, with the release advanced by
      exactly one period; otherwise the caller sleeps until it, with its deadline met. */
  lemma PeriodicWaitOk(k: Kernel, id: Pid) returns (r: Sel)
    requires Inv(k) && IsProc(k, id) && k.procs[id].state == Running
    ensures r == PeriodicWait(k, id) && Inv(r.k) && (Exact(r.k) <==> Exact(k)) && Framed(k, r.k, id)
    ensures k.procs[id].partition < |k.halted|
    ensures r.st == InvalidState <==> k.procs[id].period == 0
    ensures r.st == Ok <==> k.procs[id].period > 0 && k.tick >= NextRelease(k.procs[id])
    ensures r.st == Pending <==>
            k.procs[id].period > 0 && k.tick < NextRelease(k.procs[id]) && !k.halted[k.procs[id].partition]
    ensures r.st in {Ok, Pending, InvalidState, PartitionHalted} && (r.st == InvalidState ==> r.k == k)
    ensures var c := k.procs[id]; var next := NextRelease(c);
            && (r.st == Ok ==>
               r.k == k.(procs := k.procs[id := c.(release := next, deadline := DeadlineOf(c, next))],
                 nextDue := Sooner(k.nextDue, DeadlineOf(c, next))))
            && (r.st == Pending ==>
               Asleep(k, r, id, c.(state := Blocked, periodicWaiting := true, wakeTick := next, deadline := TICK_NONE))
               && r.k.nextDue == Sooner(k.nextDue, next))
            && (r.st == PartitionHalted ==>
               r.k == k.(procs := k.procs[id := c.(deadline := DeadlineOf(c, c.release))],
                 nextDue := Sooner(k.nextDue, DeadlineOf(c, c.release))))
  {
    assert !k.procs[id].periodicWaiting && k.procs[id].partition < |k.halted| by { assert ProcOk(k, {}, id); }
    if k.procs[id].period == 0 {
      r := PeriodicWait(k, id);
    } else if k.tick >= NextRelease(k.procs[id]) {
      r := PeriodicOverrun(k, id);
    } else {
      r := PeriodicBlocks(k, id);
    }
  }

  lemma DueBound(k: Kernel, id: Pid, d: nat)
    requires Clocked(k) && id < |k.procs| && d <= TICK_NONE
    ensures Sooner(k.nextDue, d) <= d && Sooner(k.nextDue, d) <= k.nextDue
  {
    assert ClockOk(k, k.procs[id]);
  }

  lemma PeriodicOverrun(k: Kernel, id: Pid) returns (r: Sel)
    requires Inv(k) && IsProc(k, id) && k.procs[id].state == Running && k.procs[id].period > 0
             && k.tick >= NextRelease(k.procs[id])
    requires !k.procs[id].periodicWaiting
    ensures r == PeriodicWait(k, id) && r.st == Ok && Inv(r.k) && (Exact(r.k) <==> Exact(k)) && Framed(k, r.k, id)
    ensures var c := k.procs[id]; var next := NextRelease(c);
            r.k == k.(procs := k.procs[id := c.(release := next, deadline := DeadlineOf(c, next))],
              nextDue := Sooner(k.nextDue, DeadlineOf(c, next)))
  {
    hide Inv, PeriodicWait, Placed, Objects, Clocked, Exact, Framed, NextRelease, DeadlineOf;
    InvParts(k);
    var c := k.procs[id];
    var next := NextRelease(c);
    r := OverrunIs(k, id);
    DeadlineFits(c, next);
    DueBound(k, id, DeadlineOf(c, next));
    var k' := TimesChanged(k, id, next, DeadlineOf(c, next), Sooner(k.nextDue, DeadlineOf(c, next)));
  }

  lemma DeadlineFits(c: Pcb, release: nat)
    ensures DeadlineOf(c, release) <= TICK_NONE
  {
  }

  lemma OverrunIs(k: Kernel, id: Pid) returns (r: Sel)
    requires IsProc(k, id) && k.procs[id].state == Running && k.procs[id].period > 0
             && k.tick >= NextRelease(k.procs[id])
    ensures var c := k.procs[id]; var next := NextRelease(c);
            && r == PeriodicWait(k, id) && r.st == Ok
            && r.k == k.(procs := k.procs[id := c.(release := next, deadline := DeadlineOf(c, next))],
               nextDue := Sooner(k.nextDue, DeadlineOf(c, next)))
  {
    var c := k.procs[id];
    r := PeriodicWait(k, id);
    ArmDeadlineIs(WithProc(k, id, c.(deadline := TICK_NONE, release := NextRelease(c))), id);
    assert r.k.procs == k.procs[id := c.(release := NextRelease(c), deadline := DeadlineOf(c, NextRelease(c)))];
  }

  lemma PeriodicBlocks(k: Kernel, id: Pid) returns (r: Sel)
    requires Inv(k) && IsProc(k, id) && k.procs[id].state == Running && k.procs[id].period > 0
             && k.tick < NextRelease(k.procs[id])
    requires !k.procs[id].periodicWaiting && k.procs[id].partition < |k.halted|
    ensures r == PeriodicWait(k, id) && Inv(r.k) && (Exact(r.k) <==> Exact(k)) && Framed(k, r.k, id)
    ensures r.st == if k.halted[k.procs[id].partition] then PartitionHalted else Pending
    ensures var c := k.procs[id]; var next := NextRelease(c);
            && (r.st == Pending ==>
               Asleep(k, r, id, c.(state := Blocked, periodicWaiting := true, wakeTick := next, deadline := TICK_NONE))
               && r.k.nextDue == Sooner(k.nextDue, next))
            && (r.st == PartitionHalted ==>
               r.k == k.(procs := k.procs[id := c.(deadline := DeadlineOf(c, c.release))],
                 nextDue := Sooner(k.nextDue, DeadlineOf(c, c.release))))
  {
    hide Placed, Objects, Exact, Framed, Asleep, BlockTimed;
    var c := k.procs[id];
    assert ClockOk(k, c);
    var met := TimesChanged(k, id, c.release, TICK_NONE, k.nextDue);
    var b := BlockTimedOk(met, id);
    r := PeriodicWait(k, id);
    assert met == WithProc(k, id, c.(deadline := TICK_NONE));
    if b.st == Ok {
      r := PeriodicSleeps(k, met, id, b);
    } else {
      assert r == Sel(PartitionHalted, ArmDeadline(met, id), None);
      var k' := Rearmed(k, met, id);
    }
  }

  /** A wait that could not start leaves the release open, with its deadline armed. */
  lemma Rearmed(k: Kernel, met: Kernel, id: Pid) returns (k': Kernel)
    requires Inv(k) && IsProc(k, id) && !k.procs[id].periodicWaiting
             && met == WithProc(k, id, k.procs[id].(deadline := TICK_NONE))
    ensures k' == ArmDeadline(met, id) && Inv(k') && (Exact(k') <==> Exact(k)) && Framed(k, k', id)
    ensures var c := k.procs[id];
            k' == k.(procs := k.procs[id := c.(deadline := DeadlineOf(c, c.release))],
                     nextDue := Sooner(k.nextDue, DeadlineOf(c, c.release)))
  {
    var c := k.procs[id];
    ArmDeadlineIs(met, id);
    DueBound(k, id, DeadlineOf(c, c.release));
    hide Inv, ArmDeadline;
    k' := TimesChanged(k, id, c.release, DeadlineOf(c, c.release), Sooner(k.nextDue, DeadlineOf(c, c.release)));
    assert met.procs[id := met.procs[id].(deadline := DeadlineOf(c, c.release))] == k'.procs;
  }

  lemma AsleepFrom(k: Kernel, met: Kernel, r: Sel, id: Pid, c: Pcb)
    requires id < |k.procs| == |met.procs| && met == k.(procs := k.procs[id := met.procs[id]]) && Asleep(met, r, id, c)
    requires met.procs[id].partition == k.procs[id].partition && met.procs[id].state == k.procs[id].state == Running
    ensures Asleep(k, r, id, c)
  {
    hide NoneAbove;
    forall i ensures Candidate(k, k.procs[id].partition, i) ==> Candidate(met, k.procs[id].partition, i) {}
  }

  lemma PeriodicSleeps(k: Kernel, met: Kernel, id: Pid, b: Sel) returns (r: Sel)
    requires Inv(k) && IsProc(k, id) && k.procs[id].state == Running && k.procs[id].period > 0
             && k.tick < NextRelease(k.procs[id])
    requires met == WithProc(k, id, k.procs[id].(deadline := TICK_NONE)) && !k.procs[id].periodicWaiting
    requires b == BlockTimed(met, id) && b.st == Ok && Placed(b.k, {id}) && b.k.nextDue == met.nextDue
             && Asleep(met, b, id, met.procs[id].(state := Blocked))
    ensures r == PeriodicWait(k, id) && r.st == Pending && Inv(r.k) && (Exact(r.k) <==> Exact(k)) && Framed(k, r.k, id)
    ensures Asleep(k, r, id, k.procs[id].(state := Blocked, periodicWaiting := true,
            wakeTick := NextRelease(k.procs[id]), deadline := TICK_NONE))
    ensures r.k.nextDue == Sooner(k.nextDue, NextRelease(k.procs[id]))
  {
    hide NoneAbove, BlockTimed;
    assert ProcOk(k, {}, id);
    var next := NextRelease(k.procs[id]);
    var c := k.procs[id].(state := Blocked, periodicWaiting := true, wakeTick := next, deadline := TICK_NONE);
    var k' := SleepRecorded(met, b, id, c, Sooner(k.nextDue, next));
    r := Sel(Pending, k', b.next);
    AsleepFrom(k, met, r, id, c);
    DueBound(k, id, next);
    assert ClockOk(k', c) by { assert ClockOk(k, k.procs[id]); }
    hide Placed, Objects, Framed, Exact;
    AsleepKeeps(k, r, id, c);
  }
}

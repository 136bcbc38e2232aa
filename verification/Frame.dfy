/** The static major-frame schedule: validation, lookup, and exact time partitioning. */
module Frame {
  import opened Wrappers
  import opened KernelState
  import opened Arithmetic

  datatype FrameSlot = FrameSlot(partition: nat, duration: nat)
  datatype Schedule = Schedule(slots: seq<FrameSlot>, major: nat)

  // The size of the slot table and of the partition table.
  const MAX_FRAME_SLOTS: Positive
  const MAX_PARTITIONS: Positive

  // ---------------------------------------------------------------- specification

  /** The slot of `slots`, laid end to end from `start`, that covers tick t. */
  function SlotAt(slots: seq<FrameSlot>, start: nat, t: nat): Option<nat> {
    if slots == [] then None
    else if start <= t < start + slots[0].duration then Some(slots[0].partition)
    else SlotAt(slots[1..], start + slots[0].duration, t)
  }

  function PartitionAt(sched: Schedule, tick: nat): Option<nat> {
    if sched.major == 0 || sched.slots == [] then None else SlotAt(sched.slots, 0, tick % sched.major)
  }

  function Length(slots: seq<FrameSlot>): nat {
    if slots == [] then 0 else Length(slots[..|slots| - 1]) + slots[|slots| - 1].duration
  }

  /** A schedule that frame initialisation accepts. */
  predicate Accepted(slots: seq<FrameSlot>) {
    && 0 < |slots| <= MAX_FRAME_SLOTS
    && (forall i :: 0 <= i < |slots| ==> slots[i].partition < MAX_PARTITIONS && slots[i].duration > 0)
    && Length(slots) <= TICK_NONE
  }

  // ---------------------------------------------------------------- validation

  /** Validate the slots and add up the major frame without letting the sum overflow. */
  method Init(slots: seq<FrameSlot>) returns (st: Status, sched: Schedule)
    ensures st == Ok <==> Accepted(slots)
    ensures st == Ok ==> sched == Schedule(slots, Length(slots)) && 0 < sched.major <= TICK_NONE
    ensures st != Ok ==> st in {InvalidArg, Overflow}
    ensures st == Overflow ==> Length(slots) > TICK_NONE
  {
    st, sched := InvalidArg, Schedule([], 0);
    if 0 < |slots| <= MAX_FRAME_SLOTS {
      var i, valid, length := 0, true, 0;
      while i < |slots| && valid
        invariant i <= |slots| && (valid ==> length == Length(slots[..i]) <= TICK_NONE && (i > 0 ==> length > 0))
        invariant valid ==> forall j :: 0 <= j < i ==> slots[j].partition < MAX_PARTITIONS && slots[j].duration > 0
        invariant !valid ==>
                  !Accepted(slots) && st in {InvalidArg, Overflow} && (st == Overflow ==> Length(slots) > TICK_NONE)
      {
        assert slots[..i + 1][..i] == slots[..i];
        if slots[i].partition >= MAX_PARTITIONS || slots[i].duration == 0 {
          valid, st := false, InvalidArg;
        } else if slots[i].duration > TICK_NONE || length > TICK_NONE - slots[i].duration {
          LengthGrows(slots, i + 1);
          valid, st := false, Overflow;
        } else {
          length := length + slots[i].duration;
        }
        i := i + 1;
      }
      if valid {
        assert slots[..i] == slots;
        sched, st := Schedule(slots, length), Ok;
      }
    }
  }

  lemma {:induction false} LengthGrows(slots: seq<FrameSlot>, n: nat)
    requires n <= |slots|
    ensures Length(slots[..n]) <= Length(slots)
  {
    if n == |slots| {
      assert slots[..n] == slots;
    } else {
      LengthGrows(slots[..|slots| - 1], n);
      assert slots[..|slots| - 1][..n] == slots[..n];
    }
  }

  // ---------------------------------------------------------------- lookup

  /** Find the partition whose slot covers the tick. */
  method Lookup(sched: Schedule, tick: nat) returns (found: Option<nat>)
    ensures found == PartitionAt(sched, tick)
  {
    found := None;
    if sched.major > 0 && |sched.slots| > 0 {
      var reduced: nat, start: nat, i := tick % sched.major, 0, 0;
      while i < |sched.slots| && found.None?
        invariant i <= |sched.slots|
        invariant found.None? ==> SlotAt(sched.slots, 0, reduced) == SlotAt(sched.slots[i..], start, reduced)
        invariant found.Some? ==> SlotAt(sched.slots, 0, reduced) == found
      {
        assert sched.slots[i..][1..] == sched.slots[i + 1..];
        if start <= reduced < start + sched.slots[i].duration {
          found := Some(sched.slots[i].partition);
        } else {
          start := start + sched.slots[i].duration;
        }
        i := i + 1;
      }
    }
  }

  /** Slot i covers exactly the ticks from the sum of the earlier durations on. */
  lemma {:induction false} SlotCovers(slots: seq<FrameSlot>, start: nat, t: nat)
    requires start <= t < start + Total(slots)
    ensures SlotAt(slots, start, t).Some?
            && exists i :: 0 <= i < |slots| && slots[i].partition == SlotAt(slots, start, t).value
  {
    if start <= t < start + slots[0].duration {
    } else {
      SlotCovers(slots[1..], start + slots[0].duration, t);
      var i :| 0 <= i < |slots[1..]| && slots[1..][i].partition == SlotAt(slots, start, t).value;
      assert slots[i + 1].partition == SlotAt(slots, start, t).value;
    }
  }

  /** The sum of the durations, counted from the front. */
  function Total(slots: seq<FrameSlot>): nat {
    if slots == [] then 0 else slots[0].duration + Total(slots[1..])
  }

  lemma {:induction false} TotalSplits(a: seq<FrameSlot>, b: seq<FrameSlot>)
    ensures Total(a + b) == Total(a) + Total(b)
  {
    if a == [] {
      assert a + b == b;
    } else {
      TotalSplits(a[1..], b);
      assert (a + b)[1..] == a[1..] + b;
    }
  }

  lemma {:induction false} TotalIsLength(slots: seq<FrameSlot>)
    ensures Total(slots) == Length(slots)
  {
    if slots != [] {
      var n := |slots| - 1;
      TotalIsLength(slots[..n]);
      TotalSplits(slots[..n], [slots[n]]);
      assert slots == slots[..n] + [slots[n]];
    }
  }

  /** With an accepted schedule the lookup never fails, and names the partition of a slot. */
  lemma LookupSucceeds(slots: seq<FrameSlot>, tick: nat)
    requires Accepted(slots)
    ensures var p := PartitionAt(Schedule(slots, Length(slots)), tick);
            p.Some? && p.value < MAX_PARTITIONS && exists i :: 0 <= i < |slots| && slots[i].partition == p.value
  {
    TotalIsLength(slots);
    NotEmpty(slots);
    SlotCovers(slots, 0, tick % Length(slots));
  }

  lemma NotEmpty(slots: seq<FrameSlot>)
    requires Accepted(slots)
    ensures Length(slots) > 0
  {
  }

  // ---------------------------------------------------------------- exact time partitioning

  /** The number of the n ticks from t on that select partition p. */
  function Selected(sched: Schedule, p: nat, t: nat, n: nat): nat {
    if n == 0 then 0 else Selected(sched, p, t, n - 1) + if PartitionAt(sched, t + n - 1) == Some(p) then 1 else 0
  }

  /** The time the schedule gives to partition p. */
  function Share(slots: seq<FrameSlot>, p: nat): nat {
    if slots == [] then 0 else (if slots[0].partition == p then slots[0].duration else 0) + Share(slots[1..], p)
  }

  /** Ticks of [start, start + n) whose slot in `slots` belongs to p. */
  function Covered(slots: seq<FrameSlot>, start: nat, p: nat, t: nat, n: nat): nat {
    if n == 0 then 0 else Covered(slots, start, p, t, n - 1) + if SlotAt(slots, start, t + n - 1) == Some(p) then 1
      else 0
  }

  lemma {:induction false} CoveredSplits(slots: seq<FrameSlot>, start: nat, p: nat, t: nat, a: nat, b: nat)
    ensures Covered(slots, start, p, t, a + b) == Covered(slots, start, p, t, a) + Covered(slots, start, p, t + a, b)
    decreases b
  {
    if b != 0 {
      CoveredSplits(slots, start, p, t, a, b - 1);
      assert t + (a + b) - 1 == (t + a) + b - 1;
    }
  }

  lemma {:induction false} FirstSlotCovered(slots: seq<FrameSlot>, start: nat, p: nat, n: nat)
    requires slots != [] && n <= slots[0].duration
    ensures Covered(slots, start, p, start, n) == if slots[0].partition == p then n else 0
  {
    if n != 0 { FirstSlotCovered(slots, start, p, n - 1); }
  }

  lemma {:induction false} RestCovered(slots: seq<FrameSlot>, start: nat, p: nat, n: nat)
    requires slots != []
    ensures var s := start + slots[0].duration; Covered(slots, start, p, s, n) == Covered(slots[1..], s, p, s, n)
  {
    if n != 0 { RestCovered(slots, start, p, n - 1); }
  }

  /** One pass over the slots gives each partition exactly its share. */
  lemma {:induction false} FrameCovered(slots: seq<FrameSlot>, start: nat, p: nat)
    ensures Covered(slots, start, p, start, Total(slots)) == Share(slots, p)
  {
    if slots != [] {
      var d := slots[0].duration;
      CoveredSplits(slots, start, p, start, d, Total(slots[1..]));
      FirstSlotCovered(slots, start, p, d);
      RestCovered(slots, start, p, Total(slots[1..]));
      FrameCovered(slots[1..], start + d, p);
    }
  }

  lemma {:induction false} SelectedSplits(sched: Schedule, p: nat, t: nat, a: nat, b: nat)
    ensures Selected(sched, p, t, a + b) == Selected(sched, p, t, a) + Selected(sched, p, t + a, b)
    decreases b
  {
    if b != 0 {
      SelectedSplits(sched, p, t, a, b - 1);
      assert t + (a + b) - 1 == (t + a) + b - 1;
    }
  }

  lemma SelectedFirst(sched: Schedule, p: nat, t: nat, n: nat)
    ensures Selected(sched, p, t, n + 1) == (if PartitionAt(sched, t) == Some(p) then 1 else 0)
            + Selected(sched, p, t + 1, n)
  {
    SelectedSplits(sched, p, t, 1, n);
    assert Selected(sched, p, t, 0) == 0;
  }

  /** Within one major frame the ticks are looked up in the slots directly. */
  lemma {:induction false} WithinFrame(sched: Schedule, p: nat, n: nat)
    requires sched.slots != [] && n <= sched.major
    ensures Selected(sched, p, 0, n) == Covered(sched.slots, 0, p, 0, n)
  {
    if n != 0 {
      WithinFrame(sched, p, n - 1);
      FirstFrame(sched, n - 1);
      hide PartitionAt, SlotAt;
    }
  }

  lemma FirstFrame(sched: Schedule, t: nat)
    requires sched.slots != [] && t < sched.major
    ensures PartitionAt(sched, t) == SlotAt(sched.slots, 0, t)
  {
    assert t % sched.major == t;
  }

  lemma SamePhase(sched: Schedule, t: nat)
    ensures PartitionAt(sched, t + sched.major) == PartitionAt(sched, t)
  {
    hide SlotAt;
    if sched.major > 0 { ModShift(t, sched.major); }
  }

  /** A window of one major frame may be moved by one tick without changing its count. */
  lemma {:induction false} WindowMoves(sched: Schedule, p: nat, t: nat)
    ensures Selected(sched, p, t, sched.major) == Selected(sched, p, 0, sched.major)
    decreases t
  {
    if t != 0 && sched.major != 0 {
      WindowMoves(sched, p, t - 1);
      var m := sched.major;
      SelectedSplits(sched, p, t - 1, 1, m - 1);
      SelectedSplits(sched, p, t, m - 1, 1);
      SamePhase(sched, t - 1);
      assert Selected(sched, p, t - 1, 1) == if PartitionAt(sched, t - 1) == Some(p) then 1 else 0 by {
        assert Selected(sched, p, t - 1, 0) == 0;
      }
      assert Selected(sched, p, t + (m - 1), 1) == if PartitionAt(sched, t - 1 + m) == Some(p) then 1 else 0 by {
        assert Selected(sched, p, t + (m - 1), 0) == 0;
      }
    }
  }

  /** Exact time partitioning: any window of one major frame, wherever it starts, selects each
      partition for exactly the sum of its slot durations. */
  lemma ExactPartitioning(slots: seq<FrameSlot>, p: nat, t: nat)
    requires Accepted(slots)
    ensures Selected(Schedule(slots, Length(slots)), p, t, Length(slots)) == Share(slots, p)
  {
    var sched := Schedule(slots, Length(slots));
    TotalIsLength(slots);
    WindowMoves(sched, p, t);
    WithinFrame(sched, p, sched.major);
    FrameCovered(slots, 0, p);
  }
}

/** The ready queues as they are in memory: rings of fixed size and a bit mask, which behave
    as one sequence per priority. */
module ReadyQueues {
  import opened KernelState
  import opened ReadyMask
  import opened Arithmetic
  import KernelCalls

  /** One bounded FIFO ring of process ids. */
  class Ring {
    const items: array<Pid>
    var head: nat
    var count: nat

    ghost predicate Valid()
      reads this
    {
      items.Length == MAX_READY_PER_PRIORITY && head < items.Length && count <= items.Length
    }

    /** The index of the j-th entry. */
    ghost function Place(j: nat): nat
      requires Valid()
      reads this
    {
      if head + j < items.Length then head + j else head + j - items.Length
    }

    ghost function Contents(): (s: seq<Pid>)
      requires Valid()
      reads this, items
      ensures |s| == count && forall j :: 0 <= j < count ==> s[j] == items[Place(j)]
    {
      seq(count, j requires 0 <= j < count && Valid() reads this, items => items[Place(j)])
    }

    constructor ()
      ensures Valid() && Contents() == [] && fresh(items)
    {
      items := new Pid[MAX_READY_PER_PRIORITY](_ => 0);
      head, count := 0, 0;
    }

    method Push(id: Pid) returns (st: Status)
      requires Valid()
      modifies this, items
      ensures Valid()
      ensures st == if |old(Contents())| < MAX_READY_PER_PRIORITY then Ok else QueueFull
      ensures Contents() == if st == Ok then old(Contents()) + [id] else old(Contents())
    {
      st := QueueFull;
      if count < MAX_READY_PER_PRIORITY {
        WrapIs(head + count, items.Length);
        var tail := (head + count) % MAX_READY_PER_PRIORITY;
        items[tail] := id;
        count := count + 1;
        st := Ok;
      }
    }

    method PushFront(id: Pid) returns (st: Status)
      requires Valid()
      modifies this, items
      ensures Valid()
      ensures st == if |old(Contents())| < MAX_READY_PER_PRIORITY then Ok else QueueFull
      ensures Contents() == if st == Ok then [id] + old(Contents()) else old(Contents())
    {
      st := QueueFull;
      if count < MAX_READY_PER_PRIORITY {
        WrapIs(head + MAX_READY_PER_PRIORITY - 1, items.Length);
        head := (head + MAX_READY_PER_PRIORITY - 1) % MAX_READY_PER_PRIORITY;
        items[head] := id;
        count := count + 1;
        st := Ok;
      }
    }

    method First() returns (id: Pid)
      requires Valid() && Contents() != []
      ensures id == Contents()[0]
    {
      id := items[head];
    }

    method Pop()
      requires Valid() && Contents() != []
      modifies this
      ensures Valid() && Contents() == old(Contents())[1..]
    {
      WrapIs(head + 1, items.Length);
      head := (head + 1) % MAX_READY_PER_PRIORITY;
      count := count - 1;
    }

    /** Search for id; if it is there, shift the entries behind it towards the head. */
    method RemoveId(id: Pid) returns (st: Status)
      requires Valid()
      modifies this, items
      ensures Valid()
      ensures st == if id in old(Contents()) then Ok else NotFound
      ensures Contents() == Remove(old(Contents()), id)
    {
      var scan, found := 0, false;
      while scan < count && !found
        invariant scan <= count && Valid() && Contents() == old(Contents())
        invariant forall j :: 0 <= j < scan ==> Contents()[j] != id
        invariant found ==> scan < count && Contents()[scan] == id
        decreases count - scan, !found
      {
        WrapIs(head + scan, items.Length);
        if items[(head + scan) % MAX_READY_PER_PRIORITY] == id { found := true; } else { scan := scan + 1; }
      }
      ghost var before := Contents();
      RemoveFirst(before, id, scan);
      st := NotFound;
      if found {
        CloseGap(scan);
        st := Ok;
      }
    }

    /** Copy entry at + 1 over entry at. */
    method Shift(at: nat)
      requires Valid() && at + 1 < |Contents()|
      modifies items
      ensures Contents() == old(Contents())[at := old(Contents())[at + 1]]
    {
      WrapIs(head + at, items.Length);
      WrapIs(head + at + 1, items.Length);
      items[(head + at) % MAX_READY_PER_PRIORITY] := items[(head + at + 1) % MAX_READY_PER_PRIORITY];
    }

    method CloseGap(at: nat)
      requires Valid() && at < |Contents()|
      modifies this, items
      ensures Valid() && Contents() == old(Contents()[..at] + Contents()[at + 1..])
    {
      hide Shifted;
      ghost var before := Contents();
      var scan := at;
      NothingShifted(before, at);
      while scan + 1 < count
        invariant at <= scan < count && Valid() && count == old(count) && Contents() == Shifted(before, at, scan)
      {
        ShiftedStep(before, at, scan);
        Shift(scan);
        scan := scan + 1;
      }
      ghost var shifted := Contents();
      count := count - 1;
      assert Contents() == shifted[..count];
      AllShifted(before, at);
    }
  }

  /** The entries from `at` up to `scan` replaced by their successors. */
  ghost function Shifted(s: seq<Pid>, at: nat, scan: nat): (r: seq<Pid>)
    requires at <= scan < |s|
    ensures |r| == |s|
  {
    seq(|s|, j requires 0 <= j < |s| => if at <= j < scan then s[j + 1] else s[j])
  }

  lemma NothingShifted(s: seq<Pid>, at: nat)
    requires at < |s|
    ensures Shifted(s, at, at) == s
  {
  }

  lemma ShiftedStep(s: seq<Pid>, at: nat, scan: nat)
    requires at <= scan && scan + 1 < |s|
    ensures Shifted(s, at, scan)[scan := Shifted(s, at, scan)[scan + 1]] == Shifted(s, at, scan + 1)
  {
  }

  lemma AllShifted(s: seq<Pid>, at: nat)
    requires at < |s|
    ensures Shifted(s, at, |s| - 1)[..|s| - 1] == s[..at] + s[at + 1..]
  {
  }

  ghost predicate AllEmpty(l: seq<seq<Pid>>) {
    forall p :: 0 <= p < |l| ==> l[p] == []
  }

  /** p is the most urgent level that is not empty. */
  ghost predicate FirstLevel(l: seq<seq<Pid>>, p: nat) {
    p < |l| && l[p] != [] && forall q :: 0 <= q < p ==> l[q] == []
  }

  /** The ready queues of one partition: one ring per priority, never replaced, and the mask. */
  class Context {
    const queues: seq<Ring>
    var mask: bv32

    ghost const Repr: set<object>

    ghost predicate Apart() {
      && this in Repr && |queues| == MAX_PRIORITY + 1
      && (forall p :: 0 <= p < |queues| ==> queues[p] in Repr && queues[p].items in Repr)
      && forall p, q :: 0 <= p < q < |queues| ==> queues[p] != queues[q] && queues[p].items != queues[q].items
    }

    ghost predicate RingsValid()
      reads Repr
    {
      Apart() && forall p :: 0 <= p < |queues| ==> queues[p].Valid()
    }

    ghost predicate Valid()
      reads Repr
    {
      RingsValid() && forall p: nat :: p < 32 ==> (IsSet(mask, p) <==> p <= MAX_PRIORITY && Levels()[p] != [])
    }

    /** One sequence per priority. */
    ghost function Levels(): (l: seq<seq<Pid>>)
      requires RingsValid()
      reads Repr
      ensures |l| == MAX_PRIORITY + 1 && forall p :: 0 <= p <= MAX_PRIORITY ==> l[p] == queues[p].Contents()
    {
      seq(MAX_PRIORITY + 1, p requires 0 <= p <= MAX_PRIORITY && RingsValid() reads Repr => queues[p].Contents())
    }

    constructor ()
      ensures Valid() && AllEmpty(Levels()) && fresh(Repr)
    {
      var made: seq<Ring> := [];
      ghost var parts: set<object> := {};
      while |made| < MAX_PRIORITY + 1
        invariant |made| <= MAX_PRIORITY + 1 && fresh(parts)
        invariant forall p :: 0 <= p < |made| ==>
                  made[p] in parts && made[p].items in parts && made[p].Valid() && made[p].Contents() == []
        invariant forall p, q :: 0 <= p < q < |made| ==> made[p] != made[q] && made[p].items != made[q].items
      {
        var ring := new Ring();
        made := made + [ring];
        parts := parts + {ring, ring.items};
      }
      queues, mask, Repr := made, 0, parts + {this};
      new;
      forall p: nat | p < 32 ensures !IsSet(mask, p) { NothingSet(p); }
    }

    /** One ring changed; the mask follows it. */
    method SetBit(p: nat)
      requires RingsValid() && p <= MAX_PRIORITY
      requires forall q: nat :: q < 32 && q != p ==> (IsSet(mask, q) <==> q <= MAX_PRIORITY && Levels()[q] != [])
      requires Levels()[p] != [] || IsSet(mask, p)
      modifies this
      ensures Valid() && Levels() == old(Levels())
    {
      ghost var before := mask;
      if queues[p].count > 0 { mask := Or(mask, Bit(p)); } else { mask := Clear(mask, Bit(p)); }
      forall q: nat | q < 32
        ensures IsSet(mask, q) <==> q <= MAX_PRIORITY && Levels()[q] != []
      {
        OneBitChanges(before, p, q);
      }
    }

    method Enqueue(id: Pid, p: nat) returns (st: Status)
      requires Valid()
      modifies Repr
      ensures Valid()
      ensures st == (if p > MAX_PRIORITY then InvalidArg else if |old(Levels())[p]| < MAX_READY_PER_PRIORITY then Ok
              else QueueFull)
      ensures Levels() == if st == Ok then old(Levels())[p := old(Levels())[p] + [id]] else old(Levels())
    {
      st := InvalidArg;
      if p <= MAX_PRIORITY {
        ghost var l := Levels();
        st := queues[p].Push(id);
        OneRing(l, p);
        if st == Ok { SetBit(p); }
      }
    }

    method EnqueueFront(id: Pid, p: nat) returns (st: Status)
      requires Valid()
      modifies Repr
      ensures Valid()
      ensures st == (if p > MAX_PRIORITY then InvalidArg else if |old(Levels())[p]| < MAX_READY_PER_PRIORITY then Ok
              else QueueFull)
      ensures Levels() == if st == Ok then old(Levels())[p := [id] + old(Levels())[p]] else old(Levels())
    {
      st := InvalidArg;
      if p <= MAX_PRIORITY {
        ghost var l := Levels();
        st := queues[p].PushFront(id);
        OneRing(l, p);
        if st == Ok { SetBit(p); }
      }
    }

    /** Levels after the contents of one ring changed. */
    lemma OneRing(l: seq<seq<Pid>>, p: nat)
      requires RingsValid() && p <= MAX_PRIORITY && |l| == MAX_PRIORITY + 1
      requires forall q :: 0 <= q <= MAX_PRIORITY && q != p ==> queues[q].Contents() == l[q]
      ensures Levels() == l[p := queues[p].Contents()]
    {
    }

    lemma MaskIsZero()
      requires Valid()
      ensures mask == 0 <==> AllEmpty(Levels())
      ensures mask != 0 ==> FirstLevel(Levels(), LowestSetBit(mask))
    {
      if mask == 0 {
        forall p: nat | p <= MAX_PRIORITY ensures Levels()[p] == [] { NothingSet(p); }
      } else {
        LowestIsLeast(mask);
        var p := LowestSetBit(mask);
        assert Levels()[p] != [];
        forall q: nat | q < p ensures Levels()[q] == [] { assert !IsSet(mask, q); }
      }
    }

    /** Peek at the process to run next, and its level. */
    method Next() returns (st: Status, p: nat, id: Pid)
      requires Valid()
      ensures st == if AllEmpty(Levels()) then QueueEmpty else Ok
      ensures st == Ok ==> FirstLevel(Levels(), p) && id == Levels()[p][0]
    {
      MaskIsZero();
      st, p, id := QueueEmpty, 0, 0;
      if mask != 0 {
        p := LowestSetBit(mask);
        id := queues[p].First();
        st := Ok;
      }
    }

    /** Take the head off a level that is not empty. */
    method Pop(p: nat)
      requires Valid() && p <= MAX_PRIORITY && Levels()[p] != []
      modifies Repr
      ensures Valid() && Levels() == old(Levels())[p := old(Levels())[p][1..]]
    {
      ghost var l := Levels();
      queues[p].Pop();
      OneRing(l, p);
      SetBit(p);
    }

    /** Take the process to run next off its ring. */
    method TakeNext() returns (st: Status, id: Pid)
      requires Valid()
      modifies Repr
      ensures Valid()
      ensures st == if AllEmpty(old(Levels())) then QueueEmpty else Ok
      ensures st != Ok ==> Levels() == old(Levels())
      ensures st == Ok ==> exists p: nat :: TookFrom(old(Levels()), Levels(), p, id)
    {
      var p;
      st, p, id := Next();
      if st == Ok {
        ghost var l := Levels();
        Pop(p);
        assert TookFrom(l, Levels(), p, id);
      }
    }

    method Remove(id: Pid, p: nat) returns (st: Status)
      requires Valid() && p <= MAX_PRIORITY
      modifies Repr
      ensures Valid()
      ensures st == if id in old(Levels())[p] then Ok else NotFound
      ensures Levels() == old(Levels())[p := KernelState.Remove(old(Levels())[p], id)]
    {
      ghost var l := Levels();
      st := queues[p].RemoveId(id);
      OneRing(l, p);
      if st == Ok { SetBit(p); } else { RemoveAbsent(l[p], id); }
    }

    method HasHigher(p: nat) returns (higher: bool)
      requires Valid() && p <= MAX_PRIORITY
      ensures higher <==> exists q :: 0 <= q < p && Levels()[q] != []
    {
      higher := And(mask, Below(Bit(p))) != 0;
      NoneBelow(mask, p);
      if higher {
        var q: nat :| q < p && IsSet(mask, q);
        assert Levels()[q] != [];
      }
    }
  }

  /** id was the head of the most urgent level p. */
  ghost predicate TookFrom(l: seq<seq<Pid>>, l': seq<seq<Pid>>, p: nat, id: Pid) {
    FirstLevel(l, p) && id == l[p][0] && l' == l[p := l[p][1..]]
  }

  lemma NothingSet(p: nat)
    requires p < 32
    ensures !IsSet(0, p)
  {
  }

  /** The first occurrence is the one that goes. */
  lemma {:induction false} RemoveFirst(s: seq<Pid>, x: Pid, at: nat)
    requires at <= |s| && (forall j :: 0 <= j < at ==> s[j] != x) && (at < |s| ==> s[at] == x)
    ensures Remove(s, x) == if at < |s| then s[..at] + s[at + 1..] else s
    ensures x in s <==> at < |s|
  {
    if s != [] && at > 0 {
      RemoveFirst(s[1..], x, at - 1);
      assert x in s <==> x == s[0] || x in s[1..];
      if at < |s| { assert s[1..][..at - 1] == s[1..at] && s[1..][at..] == s[at + 1..]; }
    }
  }

  // ---------------------------------------------------------------- the kernel's view

  /** The levels are the queues of partition part. */
  ghost predicate Represents(l: seq<seq<Pid>>, k: Kernel, part: nat) {
    |l| == MAX_PRIORITY + 1 && forall p: nat :: p <= MAX_PRIORITY ==> Queue(k, Slot(part, p)) == l[p]
  }

  /** Enqueueing on the rings is enqueueing on the kernel's sequences, with the same status. */
  lemma EnqueueRefines(l: seq<seq<Pid>>, k: Kernel, part: nat, p: nat, id: Pid)
    requires Represents(l, k, part)
    ensures var st := if p > MAX_PRIORITY then InvalidArg else if |l[p]| < MAX_READY_PER_PRIORITY then Ok
            else QueueFull;
            && Enqueue(k, Slot(part, p), id).st == st == EnqueueFront(k, Slot(part, p), id).st
            && Represents(if st == Ok then l[p := l[p] + [id]] else l, Enqueue(k, Slot(part, p), id).k, part)
            && Represents(if st == Ok then l[p := [id] + l[p]] else l, EnqueueFront(k, Slot(part, p), id).k, part)
  {
  }

  /** The mask lookup selects the level the kernel selects. */
  lemma {:induction false} BestRefines(l: seq<seq<Pid>>, k: Kernel, part: nat, p: nat)
    requires Represents(l, k, part)
    ensures AllEmpty(l) <==> Best(k, part) > MAX_PRIORITY
    ensures FirstLevel(l, p) ==> p == Best(k, part)
    ensures p <= MAX_PRIORITY ==> (KernelCalls.HasHigher(k, part, p) <==> exists q :: 0 <= q < p && l[q] != [])
  {
    var b := Best(k, part);
    if b <= MAX_PRIORITY {
      assert l[b] == Queue(k, Slot(part, b)) != [];
    } else {
      forall q: nat | q < |l| ensures l[q] == [] { assert Queue(k, Slot(part, q)) == []; }
    }
    if FirstLevel(l, p) {
      assert Queue(k, Slot(part, p)) != [];
    }
    if p <= MAX_PRIORITY && b > MAX_PRIORITY {
      assert forall q :: 0 <= q < p ==> l[q] == [];
    } else if p <= b {
      forall q: nat | q < p ensures l[q] == [] { assert Queue(k, Slot(part, q)) == []; }
    }
  }

  lemma BestIsFirst(l: seq<seq<Pid>>, k: Kernel, part: nat)
    requires Represents(l, k, part) && Best(k, part) <= MAX_PRIORITY
    ensures FirstLevel(l, Best(k, part))
  {
    forall q: nat | q < Best(k, part) ensures l[q] == [] { assert Queue(k, Slot(part, q)) == []; }
  }

  /** Taking the head off the best level is taking it off the kernel's queue. */
  lemma TakeRefines(l: seq<seq<Pid>>, k: Kernel, part: nat, p: nat)
    requires Represents(l, k, part) && FirstLevel(l, p)
    ensures p == Best(k, part) <= MAX_PRIORITY && Queue(k, Slot(part, p)) == l[p] != []
    ensures Represents(l[p := l[p][1..]], WithQueue(k, Slot(part, p), Queue(k, Slot(part, p))[1..]), part)
  {
    BestRefines(l, k, part, p);
  }

  /** Removal by id on the rings is removal from the kernel's queue, with the same status. */
  lemma RemoveRefines(l: seq<seq<Pid>>, k: Kernel, part: nat, id: Pid)
    requires Represents(l, k, part) && IsProc(k, id) && k.procs[id].state == Ready
             && k.procs[id].priority <= MAX_PRIORITY
    ensures var p := k.procs[id].priority; var r := RemoveProcess(k, part, id);
            && r.st == (if id in l[p] then Ok else NotFound)
            && Represents(l[p := KernelState.Remove(l[p], id)], r.k, part)
  {
    var p := k.procs[id].priority;
    if id !in l[p] { RemoveAbsent(l[p], id); }
  }
}

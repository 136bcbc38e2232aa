/** All ready queues, all wait lists and all message rings of the kernel as they are in memory,
    and the part of the kernel's state each of them stands for. */
module Stores {
  import opened Wrappers
  import opened KernelState
  import opened KernelCalls
  import opened ReadyQueues
  import opened Buffers

  // ---------------------------------------------------------------- ready queues

  /** The ready queues of every partition. */
  class ReadyTable {
    const contexts: seq<Context>
    ghost const Repr: set<object>

    ghost predicate Apart() {
      && (forall p :: 0 <= p < |contexts| ==> contexts[p].Repr <= Repr)
      && forall p, q :: 0 <= p < q < |contexts| ==> contexts[p].Repr !! contexts[q].Repr
    }

    ghost predicate Valid()
      reads Repr
    {
      Apart() && forall p :: 0 <= p < |contexts| ==> contexts[p].Valid()
    }

    /** The queues are those of state k. */
    ghost predicate Holds(k: Kernel)
      requires Valid()
      reads Repr
    {
      forall p :: 0 <= p < |contexts| ==> Represents(contexts[p].Levels(), k, p)
    }

    constructor (partitions: nat, ghost k: Kernel)
      requires forall s :: Queue(k, s) == []
      ensures Valid() && |contexts| == partitions && fresh(Repr) && Holds(k)
    {
      var made: seq<Context> := [];
      ghost var repr: set<object> := {};
      while |made| < partitions
        invariant |made| <= partitions && fresh(repr)
        invariant forall p :: 0 <= p < |made| ==> made[p].Repr <= repr && made[p].Valid() && AllEmpty(made[p].Levels())
        invariant forall p, q :: 0 <= p < q < |made| ==> made[p].Repr !! made[q].Repr
      {
        var context := new Context();
        made := made + [context];
        repr := repr + context.Repr;
      }
      contexts, Repr := made, repr;
    }

    method Enqueue(p: nat, q: nat, id: Pid, ghost k: Kernel) returns (st: Status)
      requires Valid() && Holds(k) && p < |contexts|
      modifies Repr
      ensures var r := KernelState.Enqueue(k, Slot(p, q), id); Valid() && Holds(r.k) && st == r.st
    {
      ghost var l := contexts[p].Levels();
      st := contexts[p].Enqueue(id, q);
      EnqueueRefines(l, k, p, q, id);
      OtherQueues(k, KernelState.Enqueue(k, Slot(p, q), id).k, p);
    }

    method EnqueueFront(p: nat, q: nat, id: Pid, ghost k: Kernel) returns (st: Status)
      requires Valid() && Holds(k) && p < |contexts|
      modifies Repr
      ensures var r := KernelState.EnqueueFront(k, Slot(p, q), id); Valid() && Holds(r.k) && st == r.st
    {
      ghost var l := contexts[p].Levels();
      st := contexts[p].EnqueueFront(id, q);
      EnqueueRefines(l, k, p, q, id);
      OtherQueues(k, KernelState.EnqueueFront(k, Slot(p, q), id).k, p);
    }

    /** Take process id off its level, if it is there. */
    method Remove(p: nat, id: Pid, ghost k: Kernel, q: nat) returns (st: Status)
      requires Valid() && Holds(k) && p < |contexts|
      requires IsProc(k, id) && k.procs[id].state == Ready && k.procs[id].priority == q <= MAX_PRIORITY
      modifies Repr
      ensures var r := RemoveProcess(k, p, id); Valid() && Holds(r.k) && st == r.st
    {
      ghost var l := contexts[p].Levels();
      st := contexts[p].Remove(id, q);
      RemoveRefines(l, k, p, id);
      OtherQueues(k, RemoveProcess(k, p, id).k, p);
    }

    /** Peek at the process of partition p to run next, and its level. */
    method Next(p: nat, ghost k: Kernel) returns (st: Status, level: nat, id: Pid)
      requires Valid() && Holds(k) && p < |contexts|
      ensures st == if Best(k, p) > MAX_PRIORITY then QueueEmpty else Ok
      ensures st == Ok ==> level == Best(k, p) && id == Queue(k, Slot(p, level))[0]
    {
      st, level, id := contexts[p].Next();
      BestRefines(contexts[p].Levels(), k, p, level);
    }

    /** Take the process to run next off its queue. */
    method Pop(p: nat, level: nat, ghost k: Kernel)
      requires Valid() && Holds(k) && p < |contexts| && Best(k, p) == level <= MAX_PRIORITY
      modifies Repr
      ensures Valid() && Holds(WithQueue(k, Slot(p, level), Queue(k, Slot(p, level))[1..]))
    {
      hide BestFrom, FirstLevel;
      ghost var l := contexts[p].Levels();
      BestIsFirst(l, k, p);
      TakeRefines(l, k, p, level);
      ghost var k' := WithQueue(k, Slot(p, level), Queue(k, Slot(p, level))[1..]);
      contexts[p].Pop(level);
      assert Represents(contexts[p].Levels(), k', p);
      OtherQueues(k, k', p);
    }

    /** Is anybody READY in partition p more urgent than this? */
    method Higher(p: nat, priority: nat, ghost k: Kernel) returns (higher: bool)
      requires Valid() && Holds(k) && p < |contexts| && priority <= MAX_PRIORITY
      ensures higher == HasHigher(k, p, priority)
    {
      higher := contexts[p].HasHigher(priority);
      BestRefines(contexts[p].Levels(), k, p, priority);
    }

    lemma SameQueues(k: Kernel, k': Kernel)
      requires Valid() && Holds(k) && k'.ready == k.ready
      ensures Holds(k')
    {
      forall s ensures Queue(k', s) == Queue(k, s) {}
    }

    /** The other partitions are not concerned. */
    lemma OtherQueues(k: Kernel, k': Kernel, p: nat)
      requires Valid() && p < |contexts| && forall s: Slot :: s.partition != p ==> Queue(k', s) == Queue(k, s)
      requires forall q :: 0 <= q < |contexts| && q != p ==> Represents(contexts[q].Levels(), k, q)
      requires Represents(contexts[p].Levels(), k', p)
      ensures Holds(k')
    {
    }
  }

  // ---------------------------------------------------------------- wait lists

  /** The wait lists of all mutexes, semaphores, ports and buffers. */
  class WaitTable {
    const lists: map<ListId, WaitList>
    ghost const Repr: set<object>

    ghost predicate Apart() {
      && (forall h :: h in lists ==> lists[h] in Repr && lists[h].items in Repr)
      && forall g, h :: g in lists && h in lists && g != h ==> lists[g] != lists[h] && lists[g].items != lists[h].items
    }

    ghost predicate Valid()
      reads Repr
    {
      Apart() && NoList !in lists && forall h :: h in lists ==> lists[h].Valid()
    }

    ghost function Waiting(h: ListId): seq<Pid>
      requires Valid()
      reads Repr
    {
      if h in lists then lists[h].Contents() else []
    }

    /** The lists are those of state k. */
    ghost predicate Holds(k: Kernel)
      requires Valid()
      reads Repr
    {
      forall h :: Waiters(k, h) == Waiting(h)
    }

    constructor (handles: set<ListId>, ghost k: Kernel)
      requires NoList !in handles && forall h :: Waiters(k, h) == []
      ensures Valid() && lists.Keys == handles && fresh(Repr) && Holds(k)
    {
      var made: map<ListId, WaitList> := map[];
      var rest := handles;
      ghost var parts: set<object> := {};
      while rest != {}
        invariant made.Keys == handles - rest && rest <= handles && fresh(parts)
        invariant forall h :: h in made ==>
                  made[h] in parts && made[h].items in parts && made[h].Valid() && made[h].Contents() == []
        invariant forall g, h :: g in made && h in made && g != h ==>
                  made[g] != made[h] && made[g].items != made[h].items
      {
        var h :| h in rest;
        var list := new WaitList();
        made := made[h := list];
        parts := parts + {list, list.items};
        rest := rest - {h};
      }
      lists, Repr := made, parts;
    }

    method Push(h: ListId, id: Pid, ghost k: Kernel) returns (st: Status)
      requires Valid() && Holds(k) && h in lists
      modifies Repr
      ensures var r := PushWaiter(k, h, id); Valid() && Holds(r.k) && st == r.st
    {
      assert Waiters(k, h) == lists[h].Contents();
      st := lists[h].Push(id);
      OtherLists(k, PushWaiter(k, h, id).k, h);
    }

    /** Take the process that waits longest off the list. */
    method PopFront(h: ListId, ghost k: Kernel) returns (st: Status, id: Pid)
      requires Valid() && Holds(k) && h in lists
      modifies Repr
      ensures Valid() && st == if Waiters(k, h) == [] then QueueEmpty else Ok
      ensures if st == Ok then id == Waiters(k, h)[0] && Holds(WithWaiters(k, h, Waiters(k, h)[1..])) else Holds(k)
    {
      assert Waiters(k, h) == lists[h].Contents();
      st, id := lists[h].PopFront();
      if st == Ok {
        OtherLists(k, WithWaiters(k, h, Waiters(k, h)[1..]), h);
      } else {
        OtherLists(k, k, h);
      }
    }

    /** Take process id off the list, if it is there. */
    method Remove(h: ListId, id: Pid, ghost k: Kernel) returns (removed: bool)
      requires Valid() && Holds(k)
      modifies Repr
      ensures Valid() && (removed <==> id in Waiters(k, h))
              && Holds(WithWaiters(k, h, KernelState.Remove(Waiters(k, h), id)))
    {
      assert Waiters(k, h) == Waiting(h);
      removed := false;
      if h in lists { removed := lists[h].Remove(id); }
      OtherLists(k, WithWaiters(k, h, KernelState.Remove(Waiters(k, h), id)), h);
    }

    method Count(h: ListId, ghost k: Kernel) returns (n: nat)
      requires Valid() && Holds(k) && h in lists
      ensures n == |Waiters(k, h)|
    {
      assert Waiters(k, h) == lists[h].Contents();
      n := lists[h].count;
    }

    method Get(h: ListId, i: nat, ghost k: Kernel) returns (id: Pid)
      requires Valid() && Holds(k) && h in lists && i < |Waiters(k, h)|
      ensures id == Waiters(k, h)[i]
    {
      assert Waiters(k, h) == lists[h].Contents();
      id := lists[h].items[i];
    }

    /** The other lists are not concerned. */
    lemma OtherLists(k: Kernel, k': Kernel, h: ListId)
      requires Valid() && (forall g :: g != h ==> Waiters(k', g) == Waiters(k, g) == Waiting(g))
      requires Waiters(k', h) == Waiting(h)
      ensures Holds(k')
    {
    }

    lemma SameLists(k: Kernel, k': Kernel)
      requires Valid() && Holds(k) && forall h :: Waiters(k', h) == Waiters(k, h)
      ensures Holds(k')
    {
    }
  }

  // ---------------------------------------------------------------- message rings

  method NewRing(size: nat, slots: nat) returns (ring: Fifo)
    requires size > 0 && slots > 0
    ensures fresh(ring) && fresh(ring.buffer) && ring.Valid() && ring.Contents() == []
    ensures ring.messageSize == size && ring.capacity == slots
  {
    var storage := new Byte[size * slots](_ => 0);
    ring := new Fifo(storage, size, slots);
  }

  method NewRings(sizes: map<ChannelId, (nat, nat)>) returns (made: map<ChannelId, Fifo>, ghost parts: set<object>)
    requires forall ch :: ch in sizes ==> sizes[ch].0 > 0 && sizes[ch].1 > 0
    ensures made.Keys == sizes.Keys && fresh(parts)
    ensures forall ch :: ch in made ==>
              && made[ch] in parts && made[ch].buffer in parts && made[ch].Valid() && made[ch].Contents() == []
              && made[ch].messageSize == sizes[ch].0 && made[ch].capacity == sizes[ch].1
    ensures forall a, b :: a in made && b in made && a != b ==> made[a] != made[b] && made[a].buffer != made[b].buffer
  {
    made, parts := map[], {};
    var rest := sizes.Keys;
    while rest != {}
      invariant made.Keys == sizes.Keys - rest && rest <= sizes.Keys && fresh(parts)
      invariant forall ch :: ch in made ==> made[ch] in parts && made[ch].buffer in parts && made[ch].Valid()
      invariant forall ch :: ch in made ==>
                  made[ch].Contents() == [] && made[ch].messageSize == sizes[ch].0 && made[ch].capacity == sizes[ch].1
      invariant forall a, b :: a in made && b in made && a != b ==>
                made[a] != made[b] && made[a].buffer != made[b].buffer
    {
      var ch :| ch in rest;
      var ring := NewRing(sizes[ch].0, sizes[ch].1);
      made := made[ch := ring];
      parts := parts + {ring, ring.buffer};
      rest := rest - {ch};
    }
  }

  /** The rings of all ports and buffers. */
  class RingTable {
    const rings: map<ChannelId, Fifo>
    ghost const Repr: set<object>

    ghost predicate Apart() {
      && (forall ch :: ch in rings ==> rings[ch] in Repr && rings[ch].buffer in Repr)
      && forall a, b :: a in rings && b in rings && a != b ==>
         rings[a] != rings[b] && rings[a].buffer != rings[b].buffer
    }

    ghost predicate Valid()
      reads Repr
    {
      Apart() && forall ch :: ch in rings ==> rings[ch].Valid()
    }

    /** Ring ch holds the messages of channel c, in its size and number. */
    ghost predicate Stores(ch: ChannelId, c: Channel)
      requires Valid() && ch in rings
      reads Repr
    {
      c.ring == rings[ch].Contents() && c.messageSize == rings[ch].messageSize && c.capacity == rings[ch].capacity
    }

    /** The rings are those of state k. */
    ghost predicate Holds(k: Kernel)
      requires Valid()
      reads Repr
    {
      forall ch :: ch in rings ==> ch in k.channels && Stores(ch, k.channels[ch])
    }

    constructor (sizes: map<ChannelId, (nat, nat)>, ghost k: Kernel)
      requires forall ch :: ch in sizes ==>
                 && ch in k.channels && k.channels[ch].ring == []
                 && 0 < k.channels[ch].messageSize == sizes[ch].0 && 0 < k.channels[ch].capacity == sizes[ch].1
      ensures Valid() && rings.Keys == sizes.Keys && fresh(Repr) && Holds(k)
    {
      var made, parts := NewRings(sizes);
      rings, Repr := made, parts;
      new;
      forall ch | ch in rings ensures ch in k.channels && Stores(ch, k.channels[ch]) { assert ch in sizes.Keys; }
    }

    method Push(ch: ChannelId, message: Message, ghost k: Kernel) returns (st: Status)
      requires Valid() && Holds(k) && ch in rings
      modifies Repr
      ensures ch in k.channels && var r := FifoPush(k.channels[ch], message);
              Valid() && Holds(WithChannel(k, ch, r.1)) && st == r.0
    {
      assert Stores(ch, k.channels[ch]);
      st := rings[ch].Push(message);
      OtherRings(k, WithChannel(k, ch, FifoPush(k.channels[ch], message).1), ch);
    }

    method Pop(ch: ChannelId, size: nat, ghost to: Pid, ghost k: Kernel) returns (st: Status, message: Message)
      requires Valid() && Holds(k) && ch in rings
      modifies Repr
      ensures ch in k.channels && var r := FifoPop(k.channels[ch], to, size);
              Valid() && Holds(WithChannel(k, ch, r.1)) && st == r.0
      ensures st == Ok ==> k.channels[ch].ring != [] && message == k.channels[ch].ring[0]
    {
      assert Stores(ch, k.channels[ch]);
      st, message := rings[ch].Pop(size);
      OtherRings(k, WithChannel(k, ch, FifoPop(k.channels[ch], to, size).1), ch);
    }

    /** The other rings are not concerned. */
    lemma OtherRings(k: Kernel, k': Kernel, ch: ChannelId)
      requires Valid() && ch in rings && ch in k'.channels && Stores(ch, k'.channels[ch])
      requires forall c :: c in rings && c != ch ==>
               c in k.channels && c in k'.channels && k'.channels[c] == k.channels[c] && Stores(c, k.channels[c])
      ensures Holds(k')
    {
    }

    lemma SameRings(k: Kernel, k': Kernel)
      requires Valid() && Holds(k)
      requires forall ch :: ch in k.channels ==>
                 && ch in k'.channels && k'.channels[ch].ring == k.channels[ch].ring
                 && k'.channels[ch].messageSize == k.channels[ch].messageSize
                 && k'.channels[ch].capacity == k.channels[ch].capacity
      ensures Holds(k')
    {
    }
  }
}

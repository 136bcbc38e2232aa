/** The kernel as it runs: rings, wait-list arrays, byte rings and static pools updated in place.
    `model` is the state the memory stands for; every method changes the memory so that it
    stands for what the kernel service of its name makes of that state. */
module Machines {
  import opened Wrappers
  import opened KernelState
  import opened KernelCalls
  import opened Inheritance
  import opened Invariants
  import opened Recovery
  import opened Stores
  import opened Buffers
  import opened ReadyQueues
  import Placement
  import Gates
  import Runs
  import Frame

  /** What a port or buffer has besides its ring and its wait lists. */
  datatype Endpoint = Endpoint(inUse: bool, senders: set<nat>, receivers: set<nat>, discipline: Discipline,
      delivered: seq<Delivery>)

  ghost predicate PortsFit(ports: map<ChannelId, Endpoint>, channels: map<ChannelId, Channel>) {
    ports.Keys == channels.Keys && forall ch :: ch in ports ==> SameEnd(ports[ch], channels[ch])
  }

  lemma DeliveryFits(ports: map<ChannelId, Endpoint>, channels: map<ChannelId, Channel>, ch: ChannelId, d: Delivery)
    requires PortsFit(ports, channels) && ch in ports
    ensures ch in channels
    ensures PortsFit(ports[ch := ports[ch].(delivered := ports[ch].delivered + [d])],
                     channels[ch := channels[ch].(delivered := channels[ch].delivered + [d])])
  {
    assert ch in channels.Keys;
  }

  predicate SameEnd(e: Endpoint, c: Channel) {
    && e.inUse == c.inUse && e.senders == c.senders && e.receivers == c.receivers
    && e.discipline == c.discipline && e.delivered == c.delivered
  }

  function EndOf(c: Channel): Endpoint { Endpoint(c.inUse, c.senders, c.receivers, c.discipline, c.delivered) }

  function Ends(channels: map<ChannelId, Channel>): (r: map<ChannelId, Endpoint>)
    ensures r.Keys == channels.Keys && forall ch :: ch in channels ==> SameEnd(r[ch], channels[ch])
  {
    map ch | ch in channels :: EndOf(channels[ch])
  }

  function Sizes(channels: map<ChannelId, Channel>): (r: map<ChannelId, (nat, nat)>)
    ensures r.Keys == channels.Keys
            && forall ch :: ch in channels ==> r[ch] == (channels[ch].messageSize, channels[ch].capacity)
  {
    map ch | ch in channels :: (channels[ch].messageSize, channels[ch].capacity)
  }

  lemma EndsFit(channels: map<ChannelId, Channel>)
    ensures PortsFit(Ends(channels), channels) && Ends(channels).Keys == Sizes(channels).Keys == channels.Keys
    ensures forall ch :: ch in channels ==> Sizes(channels)[ch] == (channels[ch].messageSize, channels[ch].capacity)
  {
  }

  /** The wait lists of the objects of k. */
  function Handles(k: Kernel): set<ListId> {
    (set m | 0 <= m < |k.mutexes| :: OnMutex(m)) + (set s | 0 <= s < |k.sems| :: OnSemaphore(s))
    + (set ch | ch in k.channels :: OnSend(ch)) + (set ch | ch in k.channels :: OnReceive(ch))
  }

  lemma HandlesCover(k: Kernel)
    ensures NoList !in Handles(k)
    ensures forall m: nat :: m < |k.mutexes| ==> OnMutex(m) in Handles(k)
    ensures forall s: nat :: s < |k.sems| ==> OnSemaphore(s) in Handles(k)
    ensures forall ch :: ch in k.channels ==> OnSend(ch) in Handles(k) && OnReceive(ch) in Handles(k)
  {
  }

  /** Empty containers for the objects of k. */
  method Containers(k: Kernel) returns (queues: ReadyTable, waits: WaitTable, rings: RingTable)
    requires (forall s :: Queue(k, s) == []) && (forall h :: Waiters(k, h) == [])
    requires forall ch :: ch in k.channels ==>
               k.channels[ch].ring == [] && k.channels[ch].messageSize > 0 && k.channels[ch].capacity > 0
    ensures queues.Valid() && queues.Holds(k) && waits.Valid() && waits.Holds(k) && rings.Valid() && rings.Holds(k)
    ensures fresh(queues.Repr) && fresh(waits.Repr) && fresh(rings.Repr)
    ensures queues.Repr !! waits.Repr && queues.Repr !! rings.Repr && waits.Repr !! rings.Repr
    ensures |queues.contexts| == |k.current| && waits.lists.Keys == Handles(k) && rings.rings.Keys == k.channels.Keys
  {
    hide Handles, Sizes;
    EndsFit(k.channels);
    HandlesCover(k);
    queues := new ReadyTable(|k.current|, k);
    hide ReadyTable.Valid, ReadyTable.Holds;
    waits := new WaitTable(Handles(k), k);
    hide WaitTable.Valid, WaitTable.Holds;
    rings := new RingTable(Sizes(k.channels), k);
    hide RingTable.Valid, RingTable.Holds;
  }

  class Machine {
    var procs: seq<Pcb>
    var current: seq<Option<Pid>>
    var halted: seq<bool>
    var mutexes: seq<Mutex>
    var sems: seq<Semaphore>
    var ports: map<ChannelId, Endpoint>
    var tick: nat
    var nextDue: nat
    var pending: set<Pid>
    const queues: ReadyTable
    const waits: WaitTable
    const rings: RingTable
    ghost var model: Kernel

    /** Everything the containers are stored in. */
    ghost function Memory(): set<object> { queues.Repr + waits.Repr + rings.Repr }

    ghost predicate Separate() {
      this !in Memory() && queues.Repr !! waits.Repr && queues.Repr !! rings.Repr && waits.Repr !! rings.Repr
    }

    /** The containers hold the queues, lists and messages of state k. */
    ghost predicate Contain(k: Kernel)
      reads Memory()
    {
      && queues.Valid() && queues.Holds(k) && waits.Valid() && waits.Holds(k) && rings.Valid() && rings.Holds(k)
    }

    /** The pools are those of the state the memory stands for, and every list a pool object has
        is there. */
    ghost predicate Fields()
      reads this
    {
      && model == Kernel(procs, model.ready, current, halted, model.lists, mutexes, sems, model.channels, tick,
         nextDue, pending)
      && (forall i :: 0 <= i < |procs| ==> procs[i].priority <= MAX_PRIORITY) && |queues.contexts| == |current|
      && Separate() && PortsFit(ports, model.channels) && ports.Keys == rings.rings.Keys
      && (forall m: nat :: m < |mutexes| ==> OnMutex(m) in waits.lists)
      && (forall s: nat :: s < |sems| ==> OnSemaphore(s) in waits.lists)
      && (forall ch :: ch in rings.rings ==> OnSend(ch) in waits.lists && OnReceive(ch) in waits.lists)
    }

    ghost predicate Valid()
      reads this, Memory()
    {
      Fields() && Contain(model)
    }

    /** A machine with empty queues, lists and rings. */
    constructor (k: Kernel)
      requires (forall s :: Queue(k, s) == []) && (forall h :: Waiters(k, h) == [])
      requires forall ch :: ch in k.channels ==>
                 k.channels[ch].ring == [] && k.channels[ch].messageSize > 0 && k.channels[ch].capacity > 0
      requires forall i :: 0 <= i < |k.procs| ==> k.procs[i].priority <= MAX_PRIORITY
      ensures Valid() && model == k && fresh(Memory())
    {
      hide *;
      EndsFit(k.channels);
      HandlesCover(k);
      var q, w, r := Containers(k);
      queues, waits, rings, model := q, w, r, k;
      procs, current, halted, mutexes, sems := k.procs, k.current, k.halted, k.mutexes, k.sems;
      ports := Ends(k.channels);
      tick, nextDue, pending := k.tick, k.nextDue, k.pending;
      new;
      Assembled();
    }

    lemma Assembled()
      requires model == Kernel(procs, model.ready, current, halted, model.lists, mutexes, sems, model.channels, tick,
               nextDue, pending)
      requires queues.Valid() && queues.Holds(model) && waits.Valid() && waits.Holds(model) && rings.Valid()
               && rings.Holds(model)
      requires this !in queues.Repr + waits.Repr + rings.Repr
      requires queues.Repr !! waits.Repr && queues.Repr !! rings.Repr && waits.Repr !! rings.Repr
      requires PortsFit(ports, model.channels) && ports.Keys == rings.rings.Keys && |queues.contexts| == |current|
      requires forall i :: 0 <= i < |procs| ==> procs[i].priority <= MAX_PRIORITY
      requires waits.lists.Keys == Handles(model) && model.channels.Keys == ports.Keys
      ensures Valid() && Memory() == queues.Repr + waits.Repr + rings.Repr
    {
      HandlesCover(model);
      hide Handles, ReadyTable.Valid, ReadyTable.Holds, WaitTable.Valid, WaitTable.Holds, RingTable.Valid,
           RingTable.Holds, PortsFit;
      forall m: nat | m < |mutexes| ensures OnMutex(m) in waits.lists { assert OnMutex(m) in waits.lists.Keys; }
      forall s: nat | s < |sems| ensures OnSemaphore(s) in waits.lists { assert OnSemaphore(s) in waits.lists.Keys; }
      forall ch | ch in rings.rings ensures OnSend(ch) in waits.lists && OnReceive(ch) in waits.lists {
        assert ch in rings.rings.Keys && ch in model.channels.Keys;
        assert OnSend(ch) in waits.lists.Keys && OnReceive(ch) in waits.lists.Keys;
      }
    }

    /** In the rings of partition p nobody is queued at a level more urgent than the running
        process, or nobody at all if none runs. */
    ghost predicate Calm(p: nat)
      requires Valid()
      reads this, Memory()
    {
      && p < |current|
      && match current[p]
         case None => AllEmpty(queues.contexts[p].Levels())
         case Some(i) => i < |procs| && forall q: nat :: q <= MAX_PRIORITY && q < procs[i].priority ==>
           queues.contexts[p].Levels()[q] == []
    }

    lemma SafeIsCalm(p: nat)
      requires Valid() && Inv(model) && Gates.Safe(model, p)
      ensures Calm(p)
    {
      hide Inv, PortsFit, WaitTable.Valid, WaitTable.Holds, RingTable.Valid, RingTable.Holds;
      forall q: nat | q <= MAX_PRIORITY && queues.contexts[p].Levels()[q] != []
        ensures current[p].Some? && current[p].value < |procs| && procs[current[p].value].priority <= q
      {
        assert Queue(model, Slot(p, q)) == queues.contexts[p].Levels()[q];
        HeadIsCandidate(model, p, q);
      }
    }

    predicate Live(id: Pid)
      reads this
    {
      id < |procs| && procs[id].state != Unused
    }

    // -------------------------------------------------------------- single cells

    /** Only what the pools hold changed: the containers stand for the new state too. */
    lemma StillContain(k: Kernel, k': Kernel)
      requires Contain(k) && k'.ready == k.ready && k'.lists == k.lists
      requires k'.channels.Keys == k.channels.Keys
      requires forall ch :: ch in k.channels ==>
                 && k'.channels[ch].ring == k.channels[ch].ring
                 && k'.channels[ch].messageSize == k.channels[ch].messageSize
                 && k'.channels[ch].capacity == k.channels[ch].capacity
      ensures Contain(k')
    {
      queues.SameQueues(k, k');
      forall h ensures Waiters(k', h) == Waiters(k, h) {}
      waits.SameLists(k, k');
      forall ch | ch in k.channels ensures ch in k'.channels { assert ch in k'.channels.Keys; }
      rings.SameRings(k, k');
    }

    method StoreProc(id: Pid, c: Pcb)
      requires Valid() && id < |procs| && c.priority <= MAX_PRIORITY
      modifies this
      ensures Valid() && model == WithProc(old(model), id, c)
    {
      hide Contain, Memory;
      StillContain(model, WithProc(model, id, c));
      procs := procs[id := c];
      model := model.(procs := procs);
    }

    method StoreCurrent(p: nat, id: Option<Pid>)
      requires Valid() && p < |current|
      modifies this
      ensures Valid() && model == WithCurrent(old(model), p, id)
    {
      hide Contain, Memory;
      StillContain(model, WithCurrent(model, p, id));
      current := current[p := id];
      model := model.(current := current);
    }

    method StoreOwner(m: nat, o: Option<Pid>)
      requires Valid() && m < |mutexes|
      modifies this
      ensures Valid() && model == WithOwner(old(model), m, o)
    {
      hide Contain, Memory;
      StillContain(model, WithOwner(model, m, o));
      mutexes := mutexes[m := mutexes[m].(owner := o)];
      model := model.(mutexes := mutexes);
    }

    method StoreCount(s: nat, c: nat)
      requires Valid() && s < |sems|
      modifies this
      ensures Valid() && model == WithCount(old(model), s, c)
    {
      hide Contain, Memory;
      StillContain(model, WithCount(model, s, c));
      sems := sems[s := sems[s].(count := c)];
      model := model.(sems := sems);
    }

    method StoreClock(now: nat, due: nat)
      requires Valid()
      modifies this
      ensures Valid() && model == old(model).(tick := now, nextDue := due)
    {
      hide Contain, Memory;
      StillContain(model, model.(tick := now, nextDue := due));
      tick, nextDue := now, due;
      model := model.(tick := tick, nextDue := nextDue);
    }

    method StorePending(misses: set<Pid>)
      requires Valid()
      modifies this
      ensures Valid() && model == old(model).(pending := misses)
    {
      hide Contain, Memory;
      StillContain(model, model.(pending := misses));
      pending := misses;
      model := model.(pending := pending);
    }

    method StoreHalt(p: nat)
      requires Valid() && p < |halted|
      modifies this
      ensures Valid() && model == old(model).(halted := old(halted)[p := true])
    {
      hide Contain, Memory;
      StillContain(model, model.(halted := halted[p := true]));
      halted := halted[p := true];
      model := model.(halted := halted);
    }

    lemma DeliveredContain(k: Kernel, ch: ChannelId, to: Pid, message: Message)
      requires Contain(k)
      ensures Contain(HandTo(k, ch, to, message))
    {
      hide Contain;
      StillContain(k, HandTo(k, ch, to, message));
    }

    /** A message was copied to a receiver. */
    method StoreDelivery(ch: ChannelId, to: Pid, message: Message)
      requires Valid() && ch in ports
      modifies this
      ensures Valid() && model == HandTo(old(model), ch, to, message)
    {
      hide Contain, Memory, PortsFit;
      DeliveryFits(ports, model.channels, ch, Delivery(to, message));
      DeliveredContain(model, ch, to, message);
      ports := ports[ch := ports[ch].(delivered := ports[ch].delivered + [Delivery(to, message)])];
      model := HandTo(model, ch, to, message);
      assert ports.Keys == rings.rings.Keys;
    }

    // -------------------------------------------------------------- ready queues

    /** The queues follow a new state, and nothing else does. */
    lemma AfterQueues(k: Kernel, k': Kernel)
      requires queues.Valid() && queues.Holds(k') && waits.Valid() && waits.Holds(k) && rings.Valid() && rings.Holds(k)
      requires k'.lists == k.lists && k'.channels == k.channels
      ensures Contain(k')
    {
      hide ReadyTable.Holds, ReadyTable.Valid, WaitTable.Valid, RingTable.Valid;
      forall h ensures Waiters(k', h) == Waiters(k, h) {}
      waits.SameLists(k, k');
      rings.SameRings(k, k');
    }

    method Enqueue(s: Slot, id: Pid) returns (st: Status)
      requires Valid() && s.partition < |current|
      modifies this, Memory()
      ensures Valid() && procs == old(procs) && Out(st, model) == KernelState.Enqueue(old(model), s, id)
    {
      hide ReadyTable.Valid, ReadyTable.Holds, WaitTable.Valid, WaitTable.Holds, RingTable.Valid, RingTable.Holds,
           PortsFit;
      ghost var k := model;
      st := queues.Enqueue(s.partition, s.priority, id, k);
      model := KernelState.Enqueue(k, s, id).k;
      AfterQueues(k, model);
    }

    method EnqueueFront(s: Slot, id: Pid) returns (st: Status)
      requires Valid() && s.partition < |current|
      modifies this, Memory()
      ensures Valid() && Out(st, model) == KernelState.EnqueueFront(old(model), s, id)
    {
      hide ReadyTable.Valid, ReadyTable.Holds, WaitTable.Valid, WaitTable.Holds, RingTable.Valid, RingTable.Holds,
           PortsFit;
      ghost var k := model;
      st := queues.EnqueueFront(s.partition, s.priority, id, k);
      model := KernelState.EnqueueFront(k, s, id).k;
      AfterQueues(k, model);
    }

    method NextReady(p: nat) returns (st: Status, level: nat, id: Pid)
      requires Valid() && p < |current|
      ensures st == if Best(model, p) > MAX_PRIORITY then QueueEmpty else Ok
      ensures st == Ok ==> level == Best(model, p) && id == Queue(model, Slot(p, level))[0]
    {
      st, level, id := queues.Next(p, model);
    }

    method PopReady(p: nat, level: nat)
      requires Valid() && p < |current| && Best(model, p) == level <= MAX_PRIORITY
      modifies this, Memory()
      ensures Valid() && model == WithQueue(old(model), Slot(p, level), Queue(old(model), Slot(p, level))[1..])
    {
      hide ReadyTable.Valid, ReadyTable.Holds, WaitTable.Valid, WaitTable.Holds, RingTable.Valid, RingTable.Holds,
           PortsFit;
      ghost var k := model;
      queues.Pop(p, level, k);
      model := WithQueue(k, Slot(p, level), Queue(k, Slot(p, level))[1..]);
      AfterQueues(k, model);
    }

    method AddProcess(p: nat, id: Pid) returns (st: Status)
      requires Valid() && p < |current|
      modifies this, Memory()
      ensures Valid() && |procs| == |old(procs)| && Out(st, model) == KernelState.AddProcess(old(model), p, id)
    {
      hide Contain, PortsFit, KernelState.Enqueue;
      if !Live(id) {
        st := InvalidId;
      } else if procs[id].state != Ready {
        st := InvalidState;
      } else {
        st := Enqueue(Slot(p, procs[id].priority), id);
      }
    }

    method RemoveProcess(p: nat, id: Pid) returns (st: Status)
      requires Valid() && p < |current|
      modifies this, Memory()
      ensures Valid() && Out(st, model) == KernelState.RemoveProcess(old(model), p, id)
    {
      hide ReadyTable.Valid, ReadyTable.Holds, WaitTable.Valid, WaitTable.Holds, RingTable.Valid, RingTable.Holds,
           PortsFit;
      if !Live(id) {
        st := InvalidId;
      } else if procs[id].state != Ready {
        st := InvalidState;
      } else {
        ghost var k := model;
        st := queues.Remove(p, id, k, procs[id].priority);
        model := KernelState.RemoveProcess(k, p, id).k;
        AfterQueues(k, model);
      }
    }

    // -------------------------------------------------------------- dispatch

    method SetState(id: Pid, s: ProcState) returns (st: Status)
      requires Valid()
      modifies this
      ensures Valid() && Out(st, model) == KernelState.SetState(old(model), id, s)
    {
      hide Contain, PortsFit;
      st := InvalidId;
      if Live(id) {
        StoreProc(id, procs[id].(state := s));
        st := Ok;
      }
    }

    method DispatchSelect(p: nat, cur: Option<Pid>, giveWay: bool) returns (st: Status, next: Option<Pid>)
      requires Valid() && p < |current|
      modifies this, Memory()
      ensures Valid() && Sel(st, model, next) == KernelState.DispatchSelect(old(model), p, cur, giveWay)
    {
      hide Contain, PortsFit, KernelState.Enqueue, KernelState.EnqueueFront, BestFrom;
      st, next := Ok, None;
      if cur.Some? && !Live(cur.value) {
        st := InvalidId;
      } else if cur.Some? && procs[cur.value].state != Running {
        st := InvalidState;
      } else {
        var found, level, id := NextReady(p);
        if found != Ok {
          if cur.Some? { next := cur; } else { st := QueueEmpty; }
        } else if !Live(id) {
          st := InvalidId;
        } else if procs[id].state != Ready {
          st := InvalidState;
        } else if cur.Some? && !TakesOver(level, procs[cur.value].priority, giveWay) {
          next := cur;
        } else {
          PopReady(p, level);
          if cur.Some? { st := PutBack(Slot(p, level), cur.value, id, giveWay); }
          if st == Ok {
            StoreProc(id, procs[id].(state := Running));
            next := Some(id);
          }
        }
      }
    }

    /** The outgoing process returns to its queue; if it cannot, everything is put back. */
    method PutBack(s: Slot, id: Pid, candidate: Pid, giveWay: bool) returns (st: Status)
      requires Valid() && id < |procs| && s.partition < |current|
      modifies this, Memory()
      ensures Valid() && |procs| == |old(procs)|
      ensures var k := old(model);
              var out := WithProc(k, id, k.procs[id].(state := Ready));
              var back := Slot(s.partition, k.procs[id].priority);
              var e := if giveWay then KernelState.Enqueue(out, back, id) else KernelState.EnqueueFront(out, back, id);
              && st == e.st
              && model == if e.st == Ok then e.k
                          else KernelState.EnqueueFront(WithProc(out, id, out.procs[id].(state := Running)), s,
                            candidate).k
    {
      hide Contain, PortsFit;
      StoreProc(id, procs[id].(state := Ready));
      var back := Slot(s.partition, procs[id].priority);
      if giveWay { st := Enqueue(back, id); } else { st := EnqueueFront(back, id); }
      if st != Ok {
        StoreProc(id, procs[id].(state := Running));
        var undone := EnqueueFront(s, candidate);
      }
    }

    method KernelBlockAndDispatch(p: nat, id: Pid) returns (st: Status, next: Option<Pid>)
      requires Valid() && p < |current|
      modifies this, Memory()
      ensures Valid() && Sel(st, model, next) == KernelState.KernelBlockAndDispatch(old(model), p, id)
    {
      hide Contain, PortsFit, BestFrom;
      next := None;
      if !Live(id) {
        st := InvalidId;
      } else if procs[id].state != Running {
        st := InvalidState;
      } else {
        var level, taken;
        st, level, taken := NextReady(p);
        if st == Ok {
          if !Live(taken) {
            st := InvalidId;
          } else if procs[taken].state != Ready {
            st := InvalidState;
          } else {
            PopReady(p, level);
            StoreProc(id, procs[id].(state := Blocked));
            StoreProc(taken, procs[taken].(state := Running));
            next := Some(taken);
          }
        }
      }
    }

    method Select(p: nat, giveWay: bool) returns (st: Status, next: Option<Pid>)
      requires Valid()
      modifies this, Memory()
      ensures Valid() && Sel(st, model, next) == PartitionSelect(old(model), p, giveWay)
    {
      hide Contain, PortsFit, KernelState.DispatchSelect;
      next := None;
      if p >= |current| || p >= |halted| {
        st := InvalidArg;
      } else if halted[p] {
        st := PartitionHalted;
      } else {
        st, next := DispatchSelect(p, current[p], giveWay);
        if st == Ok && p < |current| { StoreCurrent(p, next); }
      }
    }

    method BlockAndDispatch(p: nat, id: Pid) returns (st: Status, next: Option<Pid>)
      requires Valid()
      modifies this, Memory()
      ensures Valid() && Sel(st, model, next) == PartitionBlockAndDispatch(old(model), p, id)
    {
      hide Contain, PortsFit, KernelState.KernelBlockAndDispatch;
      next := None;
      if p >= |current| || p >= |halted| {
        st := InvalidArg;
      } else if halted[p] {
        st := PartitionHalted;
      } else {
        st, next := KernelBlockAndDispatch(p, id);
        if st == Ok && p < |current| { StoreCurrent(p, next); }
      }
    }

    method AddToPartition(id: Pid) returns (st: Status)
      requires Valid()
      modifies this, Memory()
      ensures Valid() && Out(st, model) == PartitionAddProcess(old(model), id)
    {
      hide Contain, PortsFit, KernelState.AddProcess;
      if !Live(id) {
        st := InvalidId;
      } else if procs[id].partition >= |current| {
        st := InvalidArg;
      } else {
        st := AddProcess(procs[id].partition, id);
      }
    }

    method ReadyProcess(p: nat, id: Pid) returns (st: Status)
      requires Valid()
      modifies this, Memory()
      ensures Valid() && Out(st, model) == KernelState.ReadyProcess(old(model), p, id)
    {
      hide Contain, PortsFit, KernelState.AddProcess;
      st := InvalidArg;
      if p < |current| {
        st := SetState(id, Ready);
        if st == Ok { st := AddProcess(p, id); }
      }
    }

    method SetPriority(id: Pid, priority: nat) returns (st: Status)
      requires Valid()
      modifies this, Memory()
      ensures Valid() && Out(st, model) == KernelState.SetPriority(old(model), id, priority)
    {
      hide Contain, PortsFit, KernelState.AddProcess;
      st := InvalidArg;
      if priority <= MAX_PRIORITY {
        if !Live(id) {
          st := InvalidId;
        } else if procs[id].partition < |current| {
          var p, before := procs[id].partition, procs[id].priority;
          var removed := RemoveProcess(p, id);
          StoreProc(id, procs[id].(priority := priority));
          st := Ok;
          if removed == Ok {
            st := AddProcess(p, id);
            if st != Ok {
              StoreProc(id, procs[id].(priority := before));
              var undone := AddProcess(p, id);
            }
          }
        }
      }
    }

    // -------------------------------------------------------------- wait lists

    /** The wait lists follow a new state, and nothing else does. */
    lemma AfterLists(k: Kernel, k': Kernel)
      requires queues.Valid() && queues.Holds(k) && waits.Valid() && waits.Holds(k') && rings.Valid() && rings.Holds(k)
      requires k'.ready == k.ready && k'.channels == k.channels
      ensures Contain(k')
    {
      hide ReadyTable.Holds, ReadyTable.Valid, WaitTable.Valid, RingTable.Valid;
      queues.SameQueues(k, k');
      rings.SameRings(k, k');
    }

    method PushWaiter(h: ListId, id: Pid) returns (st: Status)
      requires Valid() && h in waits.lists
      modifies this, Memory()
      ensures Valid() && Out(st, model) == KernelState.PushWaiter(old(model), h, id)
    {
      hide ReadyTable.Valid, ReadyTable.Holds, WaitTable.Valid, WaitTable.Holds, RingTable.Valid, RingTable.Holds,
           PortsFit;
      ghost var k := model;
      st := waits.Push(h, id, k);
      model := KernelState.PushWaiter(k, h, id).k;
      AfterLists(k, model);
    }

    /** Take process id off a list, if it is there. */
    method Drop(h: ListId, id: Pid) returns (removed: bool)
      requires Valid()
      modifies this, Memory()
      ensures Valid() && (removed <==> id in Waiters(old(model), h))
      ensures model == if removed then WithWaiters(old(model), h, Remove(Waiters(old(model), h), id)) else old(model)
    {
      hide ReadyTable.Valid, ReadyTable.Holds, WaitTable.Valid, WaitTable.Holds, RingTable.Valid, RingTable.Holds,
           PortsFit;
      ghost var k := model;
      removed := waits.Remove(h, id, k);
      ghost var left := WithWaiters(k, h, Remove(Waiters(k, h), id));
      AfterLists(k, left);
      if removed {
        model := left;
      } else {
        RemoveAbsent(Waiters(k, h), id);
        SameWaiters(left, k);
      }
    }

    lemma SameWaiters(k: Kernel, k': Kernel)
      requires Contain(k) && k'.ready == k.ready && k'.channels == k.channels
               && forall h :: Waiters(k', h) == Waiters(k, h)
      ensures Contain(k')
    {
      hide ReadyTable.Holds, ReadyTable.Valid, WaitTable.Valid, RingTable.Valid;
      waits.SameLists(k, k');
      AfterLists(k, k');
    }

    /** Take process id off a list, whether or not it is there. */
    method Unlist(h: ListId, id: Pid)
      requires Valid()
      modifies this, Memory()
      ensures Valid() && model == WithWaiters(old(model), h, Remove(Waiters(old(model), h), id))
    {
      hide Contain, PortsFit;
      ghost var k := model;
      var removed := Drop(h, id);
      RemoveAbsentFrom(k, h, id);
      model := WithWaiters(k, h, Remove(Waiters(k, h), id));
      SameWaiters(if removed then model else k, model);
    }

    method PopWaiter(h: ListId) returns (st: Status, id: Pid)
      requires Valid() && h in waits.lists
      modifies this, Memory()
      ensures Valid() && st == if Waiters(old(model), h) == [] then QueueEmpty else Ok
      ensures if st == Ok then
                id == Waiters(old(model), h)[0] && model == WithWaiters(old(model), h, Waiters(old(model), h)[1..])
              else model == old(model)
    {
      hide ReadyTable.Valid, ReadyTable.Holds, WaitTable.Valid, WaitTable.Holds, RingTable.Valid, RingTable.Holds,
           PortsFit;
      ghost var k := model;
      st, id := waits.PopFront(h, k);
      if st == Ok { model := WithWaiters(k, h, Waiters(k, h)[1..]); }
      AfterLists(k, model);
    }

    method CountWaiters(h: ListId) returns (n: nat)
      requires Valid() && h in waits.lists
      ensures n == |Waiters(model, h)|
    {
      n := waits.Count(h, model);
    }

    method WaiterAt(h: ListId, i: nat) returns (id: Pid)
      requires Valid() && h in waits.lists && i < |Waiters(model, h)|
      ensures id == Waiters(model, h)[i]
    {
      id := waits.Get(h, i, model);
    }

    // -------------------------------------------------------------- blocking and waking

    method NoteDue(t: nat)
      requires Valid()
      modifies this
      ensures Valid() && procs == old(procs) && model == KernelState.NoteDue(old(model), t)
    {
      hide Contain, PortsFit;
      if t != TICK_NONE && t < nextDue { StoreClock(tick, t); }
    }

    method BlockCurrent(id: Pid, h: ListId, wake: nat, op: Op) returns (st: Status, next: Option<Pid>)
      requires Valid() && h in waits.lists
      modifies this, Memory()
      ensures Valid() && Sel(st, model, next) == KernelState.BlockCurrent(old(model), id, h, wake, op)
    {
      hide Contain, PortsFit, PartitionBlockAndDispatch, KernelState.Withdraw, KernelState.NoteDue;
      next := None;
      if !Live(id) {
        st := InvalidId;
      } else if procs[id].state != Running {
        st := InvalidState;
      } else {
        StoreProc(id, procs[id].(op := op));
        st := PushWaiter(h, id);
        if st == Ok {
          StoreProc(id, procs[id].(waitlist := h, wakeTick := wake));
          NoteDue(wake);
          ghost var waiting := model;
          st, next := BlockAndDispatch(procs[id].partition, id);
          if st != Ok {
            BlockFails(waiting, id);
            Withdraw(h, id);
            next := None;
          }
        }
      }
    }

    /** Undo a wait that could not start. */
    method Withdraw(h: ListId, id: Pid)
      requires Valid() && id < |procs|
      modifies this, Memory()
      ensures Valid() && model == KernelState.Withdraw(old(model), h, id)
    {
      hide Contain, PortsFit;
      StoreProc(id, procs[id].(waitlist := NoList, wakeTick := TICK_NONE, op := NoOp));
      Unlist(h, id);
    }

    /** Take the given process off a wait list and clear its record. */
    method TakeWaiter(h: ListId, id: Pid) returns (st: Status, op: Op)
      requires Valid()
      modifies this, Memory()
      ensures Valid() && Taken(st, model, id, op) == KernelState.TakeWaiter(old(model), h, id)
    {
      hide Contain, PortsFit;
      op, st := NoOp, NotFound;
      var removed := Drop(h, id);
      if removed {
        st := InvalidId;
        if Live(id) {
          op := procs[id].op;
          StoreProc(id, procs[id].(op := NoOp, waitlist := NoList, wakeTick := TICK_NONE));
          st := Ok;
        }
      }
    }

    method WakeOne(h: ListId) returns (st: Status, id: Pid, op: Op)
      requires Valid() && h in waits.lists
      modifies this, Memory()
      ensures Valid() && Taken(st, model, id, op) == KernelState.WakeOne(old(model), h)
    {
      hide Contain, PortsFit;
      op := NoOp;
      st, id := PopWaiter(h);
      if st == Ok {
        st := InvalidId;
        if Live(id) {
          op := procs[id].op;
          StoreProc(id, procs[id].(op := NoOp, waitlist := NoList, wakeTick := TICK_NONE));
          st := Ok;
        }
      } else {
        id := 0;
      }
    }

    /** Scan a wait list for its most urgent process and take it off. */
    method TakeBest(h: ListId) returns (st: Status, id: Pid, op: Op)
      requires Valid() && h in waits.lists
      modifies this, Memory()
      ensures Valid() && Taken(st, model, id, op) == KernelState.TakeBest(old(model), h)
    {
      hide Contain, PortsFit, KernelState.TakeWaiter;
      var n := CountWaiters(h);
      var best: Option<Pid> := None;
      var i := 0;
      while i < n
        invariant i <= n == |Waiters(model, h)| && Valid() && model == old(model)
        invariant best == BestWaiter(model, Waiters(model, h), i)
      {
        var id := WaiterAt(h, i);
        if Live(id) && (best.None? || (best.value < |procs| && procs[id].priority < procs[best.value].priority)) {
          best := Some(id);
        }
        i := i + 1;
      }
      st, id, op := QueueEmpty, 0, NoOp;
      if best.Some? {
        id := best.value;
        st, op := TakeWaiter(h, id);
      }
    }

    method Resolve(id: Pid, result: Status) returns (st: Status)
      requires Valid()
      modifies this, Memory()
      ensures Valid() && Out(st, model) == KernelState.Resolve(old(model), id, result)
    {
      hide Contain, PortsFit, KernelState.ReadyProcess;
      if !Live(id) {
        st := InvalidId;
      } else if procs[id].state != Blocked {
        st := InvalidState;
      } else {
        st := ReadyProcess(procs[id].partition, id);
        if st == Ok && id < |procs| {
          StoreProc(id, procs[id].(result := result, resultPending := true));
        }
      }
    }

    // -------------------------------------------------------------- mutexes

    function OwnerOf(m: nat): Option<Pid>
      reads this
    {
      if m < |mutexes| && mutexes[m].inUse then mutexes[m].owner else None
    }

    /** The double loop over owned mutexes and their waiters. */
    method WantedPriority(id: Pid, claim: nat) returns (w: nat)
      requires Valid() && id < |procs|
      ensures w == KernelCalls.WantedPriority(model, id, claim)
    {
      hide Contain, PortsFit;
      w := if procs[id].base < claim then procs[id].base else claim;
      ghost var acc := w;
      var i := 0;
      while i < |mutexes|
        invariant i <= |mutexes| && w == LeastOwned(model, id, i, acc)
      {
        if mutexes[i].inUse && mutexes[i].owner == Some(id) {
          var n := CountWaiters(OnMutex(i));
          var j := 0;
          while j < n
            invariant j <= n == |Waiters(model, OnMutex(i))|
            invariant w == LeastOf(model, Waiters(model, OnMutex(i)), j, LeastOwned(model, id, i, acc))
          {
            var x := WaiterAt(OnMutex(i), j);
            if Live(x) && procs[x].priority < w { w := procs[x].priority; }
            j := j + 1;
          }
        }
        i := i + 1;
      }
    }

    /** Re-derive the priority of an owner, then of whoever its record says it waits for. */
    method Refresh(owner: Option<Pid>, claim: nat) returns (st: Status)
      requires Valid()
      modifies this, Memory()
      ensures Valid() && Out(st, model) == KernelCalls.Refresh(old(model), owner, claim)
    {
      hide Contain, PortsFit, KernelState.SetPriority, KernelCalls.WantedPriority;
      st := Ok;
      var cur: Option<Pid>, extra, hops, n := owner, claim, 0, |mutexes|;
      while hops <= n && cur.Some? && st == Ok
        invariant hops <= n + 1 && Valid()
        invariant RefreshChain(old(model), owner, claim, n + 1) ==
                  if st == Ok then RefreshChain(model, cur, extra, n + 1 - hops) else Out(st, model)
      {
        var next: Option<Pid> := None;
        if Live(cur.value) {
          var w := WantedPriority(cur.value, extra);
          st := SetPriority(cur.value, w);
          if st == Ok && cur.value < |procs| {
            if procs[cur.value].state == Blocked && procs[cur.value].op.LockOp? {
              next := OwnerOf(procs[cur.value].op.mutex);
            }
          }
        }
        extra, cur, hops := NO_CLAIM, next, hops + 1;
      }
    }

    method HandOff(m: nat) returns (st: Status)
      requires Valid() && m < |mutexes|
      modifies this, Memory()
      ensures Valid() && Out(st, model) == KernelCalls.HandOff(old(model), m)
    {
      hide Contain, PortsFit, KernelCalls.PassOn, KernelCalls.Refresh;
      var previous := mutexes[m].owner;
      st := PassOn(m);
      var refreshed := Refresh(previous, NO_CLAIM);
    }

    method PassOn(m: nat) returns (st: Status)
      requires Valid() && m < |mutexes|
      modifies this, Memory()
      ensures Valid() && Out(st, model) == KernelCalls.PassOn(old(model), m)
    {
      hide Contain, PortsFit, KernelState.TakeBest, KernelState.Resolve;
      StoreOwner(m, None);
      var taken, id, op := TakeBest(OnMutex(m));
      st := Ok;
      if taken == Ok && m < |mutexes| {
        StoreOwner(m, Some(id));
        st := Resolve(id, Ok);
        if st != Ok && m < |mutexes| { StoreOwner(m, None); }
      }
    }

    method Lock(m: nat, timeout: nat, id: Pid) returns (st: Status, next: Option<Pid>)
      requires Valid()
      modifies this, Memory()
      ensures Valid() && Sel(st, model, next) == KernelCalls.Lock(old(model), m, timeout, id)
    {
      hide Contain, PortsFit, KernelCalls.LockWait, KernelCalls.Refresh;
      next := None;
      if m >= |mutexes| || !mutexes[m].inUse || !Live(id) || mutexes[m].partition != procs[id].partition {
        st := InvalidId;
      } else if mutexes[m].owner == Some(id) {
        st := InvalidState;
      } else if mutexes[m].owner == None {
        StoreOwner(m, Some(id));
        st := Ok;
      } else if timeout == 0 {
        st := TimedOut;
      } else {
        st, next := LockWait(m, timeout, id);
        if st != Pending {
          var refreshed := Refresh(OwnerOf(m), NO_CLAIM);
          next := None;
        }
      }
    }

    method LockWait(m: nat, timeout: nat, id: Pid) returns (st: Status, next: Option<Pid>)
      requires Valid() && m < |mutexes| && id < |procs|
      modifies this, Memory()
      ensures Valid() && Sel(st, model, next) == KernelCalls.LockWait(old(model), m, timeout, id)
    {
      hide Contain, PortsFit, KernelCalls.Refresh, KernelState.BlockCurrent;
      next := None;
      var wake;
      st, wake := TickAfter(timeout);
      if st == Ok {
        st := Refresh(mutexes[m].owner, procs[id].priority);
        if st == Ok {
          st, next := BlockCurrent(id, OnMutex(m), wake, LockOp(m));
          if st == Ok { st := Pending; } else if st == QueueEmpty { st := TimedOut; }
        }
      }
    }

    method TickAfter(timeout: nat) returns (st: Status, wake: nat)
      requires Valid()
      ensures (st, wake) == KernelState.TickAfter(model, timeout)
    {
      st, wake := Ok, TICK_NONE;
      if timeout != TIMEOUT_INFINITE {
        if timeout >= TICK_NONE - tick { st := Overflow; } else { wake := tick + timeout; }
      }
    }

    method Unlock(m: nat, id: Pid) returns (st: Status)
      requires Valid()
      modifies this, Memory()
      ensures Valid() && Out(st, model) == KernelCalls.Unlock(old(model), m, id)
    {
      hide Contain, PortsFit, KernelCalls.HandOff;
      if m >= |mutexes| || !mutexes[m].inUse || !Live(id) || mutexes[m].partition != procs[id].partition {
        st := InvalidId;
      } else if mutexes[m].owner != Some(id) {
        st := InvalidState;
      } else {
        st := HandOff(m);
      }
    }

    /** Hand off every mutex of a process, in index order. */
    method ReleaseAll(id: Pid)
      requires Valid()
      modifies this, Memory()
      ensures Valid() && model == KernelCalls.ReleaseAll(old(model), id)
    {
      hide Contain, PortsFit, KernelCalls.HandOff;
      var i, n := 0, |mutexes|;
      while i < n
        invariant Valid() && ReleaseFrom(old(model), id, 0, n) == ReleaseFrom(model, id, i, n)
      {
        if i < |mutexes| && mutexes[i].inUse && mutexes[i].owner == Some(id) {
          var handed := HandOff(i);
        }
        i := i + 1;
      }
    }

    /** Re-derive the priorities of all owners, mutex by mutex. */
    method RefreshPriorities()
      requires Valid()
      modifies this, Memory()
      ensures Valid() && model == KernelCalls.RefreshPriorities(old(model))
    {
      hide Contain, PortsFit, KernelCalls.Refresh;
      var i, n := 0, |mutexes|;
      while i < n
        invariant Valid() && RefreshFrom(old(model), 0, n) == RefreshFrom(model, i, n)
      {
        if i < |mutexes| && mutexes[i].inUse && mutexes[i].owner.Some? {
          var refreshed := Refresh(mutexes[i].owner, NO_CLAIM);
        }
        i := i + 1;
      }
    }

    // -------------------------------------------------------------- semaphores

    predicate MayUse(s: nat, id: Pid)
      reads this
    {
      s < |sems| && sems[s].inUse && Live(id) && sems[s].partition == procs[id].partition
    }

    method SemWait(s: nat, timeout: nat, id: Pid) returns (st: Status, next: Option<Pid>)
      requires Valid()
      modifies this, Memory()
      ensures Valid() && Sel(st, model, next) == KernelCalls.SemWait(old(model), s, timeout, id)
    {
      hide Contain, PortsFit, KernelState.BlockCurrent;
      next := None;
      if !MayUse(s, id) {
        st := InvalidId;
      } else if sems[s].count > 0 {
        StoreCount(s, sems[s].count - 1);
        st := Ok;
      } else if timeout == 0 {
        st := TimedOut;
      } else {
        var wake;
        st, wake := TickAfter(timeout);
        if st == Ok {
          st, next := BlockCurrent(id, OnSemaphore(s), wake, WaitOp(s));
          if st == Ok { st := Pending; } else if st == QueueEmpty { st := TimedOut; }
        }
      }
    }

    method SemSignal(s: nat, id: Pid) returns (st: Status)
      requires Valid()
      modifies this, Memory()
      ensures Valid() && Out(st, model) == KernelCalls.SemSignal(old(model), s, id)
    {
      hide Contain, PortsFit, KernelState.TakeBest, KernelState.Resolve;
      if !MayUse(s, id) {
        st := InvalidId;
      } else {
        var n := CountWaiters(OnSemaphore(s));
        if n == 0 {
          if sems[s].count >= sems[s].max {
            st := Overflow;
          } else {
            StoreCount(s, sems[s].count + 1);
            st := Ok;
          }
        } else {
          var taken, waiter, op := TakeBest(OnSemaphore(s));
          st := taken;
          if taken == Ok {
            st := Resolve(waiter, Ok);
            if st != Ok && s < |sems| { StoreCount(s, sems[s].count + 1); }
          }
        }
      }
    }

    // -------------------------------------------------------------- queuing ports and buffers

    /** What is known of a port from its parts. */
    lemma PortIs(ch: ChannelId)
      requires Valid()
      ensures (ch in ports <==> ch in model.channels) && (ch in ports <==> ch in rings.rings)
      ensures ch in ports ==>
              SameEnd(ports[ch], model.channels[ch]) && rings.rings[ch].messageSize == model.channels[ch].messageSize
      ensures ch in ports ==> OnSend(ch) in waits.lists && OnReceive(ch) in waits.lists
    {
      InRings(ch);
      if ch in rings.rings { assert rings.Stores(ch, model.channels[ch]); }
    }

    /** The rings follow a new state, and nothing else does. */
    lemma AfterRings(k: Kernel, k': Kernel)
      requires queues.Valid() && queues.Holds(k) && waits.Valid() && waits.Holds(k) && rings.Valid() && rings.Holds(k')
      requires k'.ready == k.ready && k'.lists == k.lists
      ensures Contain(k')
    {
      hide ReadyTable.Holds, ReadyTable.Valid, WaitTable.Valid, RingTable.Valid;
      queues.SameQueues(k, k');
      forall h ensures Waiters(k', h) == Waiters(k, h) {}
      waits.SameLists(k, k');
    }

    lemma InRings(ch: ChannelId)
      requires Fields()
      ensures (ch in ports <==> ch in model.channels) && (ch in ports <==> ch in rings.rings)
    {
      assert ch in ports <==> ch in ports.Keys;
      assert ch in rings.rings <==> ch in rings.rings.Keys;
      assert ch in model.channels <==> ch in model.channels.Keys;
    }

    /** Copy a message into a ring. */
    method Fill(ch: ChannelId, message: Message) returns (st: Status)
      requires Valid() && ch in rings.rings && ch in model.channels
      modifies Memory()
      ensures var r := FifoPush(model.channels[ch], message); st == r.0 && Contain(WithChannel(model, ch, r.1))
    {
      hide ReadyTable.Valid, ReadyTable.Holds, WaitTable.Valid, WaitTable.Holds, RingTable.Valid, RingTable.Holds;
      hide PortsFit, FifoPush;
      st := rings.Push(ch, message, model);
      AfterRings(model, WithChannel(model, ch, FifoPush(model.channels[ch], message).1));
    }

    /** Copy the oldest message out of a ring. */
    method Empty(ch: ChannelId, size: nat, ghost to: Pid) returns (st: Status, message: Message)
      requires Valid() && ch in rings.rings && ch in model.channels
      modifies Memory()
      ensures var r := FifoPop(model.channels[ch], to, size); st == r.0 && Contain(WithChannel(model, ch, r.1))
      ensures st == Ok ==> model.channels[ch].ring != [] && message == model.channels[ch].ring[0]
    {
      hide ReadyTable.Valid, ReadyTable.Holds, WaitTable.Valid, WaitTable.Holds, RingTable.Valid, RingTable.Holds;
      hide PortsFit, FifoPop;
      st, message := rings.Pop(ch, size, to, model);
      AfterRings(model, WithChannel(model, ch, FifoPop(model.channels[ch], to, size).1));
    }

    method PushInto(ch: ChannelId, message: Message) returns (st: Status)
      requires Valid()
      modifies this, Memory()
      ensures Valid() && Out(st, model) == KernelCalls.PushInto(old(model), ch, message)
    {
      hide Contain, PortsFit, FifoPush, WithChannel;
      InRings(ch);
      st := InvalidArg;
      if ch in ports {
        PushedFits(ports, model, ch, message);
        st := Fill(ch, message);
        model := WithChannel(model, ch, FifoPush(model.channels[ch], message).1);
      }
    }

    /** The oldest message goes to a receiver. */
    method PopFrom(ch: ChannelId, size: nat, to: Pid) returns (st: Status)
      requires Valid() && ch in ports
      modifies this, Memory()
      ensures Valid() && ch in old(model).channels && ch in ports
      ensures var r := FifoPop(old(model).channels[ch], to, size);
              st == r.0 && model == if st == Ok then WithChannel(old(model), ch, r.1) else old(model)
    {
      hide Contain, PortsFit, FifoPop, WithChannel;
      InRings(ch);
      PoppedFits(ports, model, ch, to, size);
      var message;
      st, message := Empty(ch, size, to);
      model := WithChannel(model, ch, FifoPop(model.channels[ch], to, size).1);
      if st == Ok { ports := ports[ch := ports[ch].(delivered := ports[ch].delivered + [Delivery(to, message)])]; }
    }

    /** The process may send to (or receive from) the port. */
    predicate Reaches(ch: ChannelId, id: Pid, sending: bool)
      reads this
    {
      ch in ports && ports[ch].inUse && Live(id)
        && procs[id].partition in (if sending then ports[ch].senders else ports[ch].receivers)
    }

    method WakeBy(h: ListId, d: Discipline) returns (st: Status, id: Pid, op: Op)
      requires Valid() && h in waits.lists
      modifies this, Memory()
      ensures Valid() && Taken(st, model, id, op) == KernelCalls.WakeBy(old(model), h, d)
    {
      hide Contain, PortsFit, KernelState.TakeBest, KernelState.WakeOne;
      if d == ByPriority { st, id, op := TakeBest(h); } else { st, id, op := WakeOne(h); }
    }

    method SendNow(ch: ChannelId, message: Message) returns (st: Status)
      requires Valid() && ch in ports
      modifies this, Memory()
      ensures Valid() && ch in old(model).channels && Out(st, model) == KernelCalls.SendNow(old(model), ch, message)
    {
      hide Contain, PortsFit, KernelCalls.WakeBy, KernelState.Resolve, KernelCalls.PushInto;
      PortIs(ch);
      var woken, id, op := WakeBy(OnReceive(ch), ports[ch].discipline);
      if woken == Ok {
        if UsableReceiver(op, ch, |message|) {
          PortIs(ch);
          if ch in ports { StoreDelivery(ch, id, message); }
          st := Resolve(id, Ok);
        } else {
          var refused := Resolve(id, InvalidState);
          st := PushInto(ch, message);
        }
      } else {
        st := PushInto(ch, message);
      }
    }

    method Send(ch: ChannelId, message: Message, timeout: nat, id: Pid) returns (st: Status, next: Option<Pid>)
      requires Valid()
      modifies this, Memory()
      ensures Valid() && Sel(st, model, next) == KernelCalls.Send(old(model), ch, message, timeout, id)
    {
      hide Contain, PortsFit, KernelCalls.SendNow, KernelState.BlockCurrent;
      next := None;
      PortIs(ch);
      if !Reaches(ch, id, true) {
        st := InvalidId;
      } else if |message| != rings.rings[ch].messageSize {
        st := InvalidArg;
      } else {
        st := SendNow(ch, message);
        if st == QueueFull && timeout != 0 {
          var wake;
          st, wake := TickAfter(timeout);
          if st == Ok {
            st, next := BlockCurrent(id, OnSend(ch), wake, SendOp(ch, message));
            if st == Ok { st := Pending; } else if st == QueueEmpty { st := QueueFull; }
          }
        }
      }
    }

    method AdmitSender(ch: ChannelId)
      requires Valid() && ch in ports
      modifies this, Memory()
      ensures Valid() && ch in old(model).channels && model == KernelCalls.AdmitSender(old(model), ch)
    {
      hide Contain, PortsFit, KernelCalls.WakeBy, KernelState.Resolve, KernelCalls.PushInto;
      PortIs(ch);
      var woken, id, op := WakeBy(OnSend(ch), ports[ch].discipline);
      if woken == Ok {
        if op.SendOp? && SameKind(op.ch, ch) {
          var pushed := PushInto(ch, op.message);
          var resolved := Resolve(id, pushed);
        } else {
          var refused := Resolve(id, InvalidState);
        }
      }
    }

    method Receive(ch: ChannelId, size: nat, timeout: nat, id: Pid) returns (st: Status, next: Option<Pid>)
      requires Valid()
      modifies this, Memory()
      ensures Valid() && Sel(st, model, next) == KernelCalls.Receive(old(model), ch, size, timeout, id)
    {
      hide Contain, PortsFit, KernelCalls.AdmitSender, KernelState.BlockCurrent, FifoPop;
      next := None;
      PortIs(ch);
      if !Reaches(ch, id, false) {
        st := InvalidId;
      } else {
        st := PopFrom(ch, size, id);
        if st == Ok {
          AdmitSender(ch);
        } else if st == QueueEmpty && timeout != 0 {
          var wake;
          st, wake := TickAfter(timeout);
          if st == Ok {
            st, next := BlockCurrent(id, OnReceive(ch), wake, ReceiveOp(ch, size));
            if st == Ok { st := Pending; }
          }
        }
      }
    }

    // -------------------------------------------------------------- timing

    method ArmDeadline(id: Pid)
      requires Valid() && id < |procs|
      modifies this
      ensures Valid() && model == KernelCalls.ArmDeadline(old(model), id)
    {
      hide Contain, PortsFit;
      if procs[id].capacity > 0 {
        var d := Wrap(procs[id].release + procs[id].capacity);
        StoreProc(id, procs[id].(deadline := d));
        NoteDue(d);
      } else {
        StoreProc(id, procs[id].(deadline := TICK_NONE));
      }
    }

    method Rearm(id: Pid, now: nat)
      requires Valid() && id < |procs|
      modifies this
      ensures Valid() && model == KernelCalls.Rearm(old(model), id, now)
    {
      hide Contain, PortsFit, KernelCalls.ArmDeadline;
      StoreProc(id, procs[id].(periodicWaiting := false, timedWaiting := false, release := now));
      ArmDeadline(id);
    }

    method BlockTimed(id: Pid) returns (st: Status, next: Option<Pid>)
      requires Valid() && id < |procs|
      modifies this, Memory()
      ensures Valid() && Sel(st, model, next) == KernelCalls.BlockTimed(old(model), id)
    {
      hide Contain, PortsFit, PartitionBlockAndDispatch;
      var p := procs[id].partition;
      st, next := BlockAndDispatch(p, id);
      if st == QueueEmpty && p < |current| {
        st := SetState(id, Blocked);
        StoreCurrent(p, None);
        next := None;
      }
    }

    method PeriodicWait(id: Pid) returns (st: Status, next: Option<Pid>)
      requires Valid()
      modifies this, Memory()
      ensures Valid() && Sel(st, model, next) == KernelCalls.PeriodicWait(old(model), id)
    {
      hide Contain, PortsFit, KernelCalls.BlockTimed, KernelCalls.ArmDeadline, KernelState.NoteDue;
      next := None;
      if !Live(id) {
        st := InvalidId;
      } else if procs[id].state != Running || procs[id].period == 0 {
        st := InvalidState;
      } else {
        var release := Wrap(procs[id].release + procs[id].period);
        StoreProc(id, procs[id].(deadline := TICK_NONE));
        if tick >= release {
          StoreProc(id, procs[id].(release := release));
          ArmDeadline(id);
          st := Ok;
        } else {
          st, next := BlockTimed(id);
          if st == Ok && id < |procs| {
            StoreProc(id, procs[id].(periodicWaiting := true, wakeTick := release));
            NoteDue(release);
            st := Pending;
          } else if id < |procs| {
            ArmDeadline(id);
            next := None;
          }
        }
      }
    }

    method TimedWait(id: Pid, delay: nat) returns (st: Status, next: Option<Pid>)
      requires Valid()
      modifies this, Memory()
      ensures Valid() && Sel(st, model, next) == KernelCalls.TimedWait(old(model), id, delay)
    {
      hide Contain, PortsFit, KernelCalls.BlockTimed, KernelState.NoteDue;
      next := None;
      if delay == TIMEOUT_INFINITE {
        st := InvalidArg;
      } else if !Live(id) {
        st := InvalidId;
      } else if procs[id].state != Running {
        st := InvalidState;
      } else if delay == 0 {
        st := Ok;
      } else {
        var wake;
        st, wake := TickAfter(delay);
        if st == Ok {
          st, next := BlockTimed(id);
          if st == Ok && id < |procs| {
            StoreProc(id, procs[id].(timedWaiting := true, wakeTick := wake));
            NoteDue(wake);
            st := Pending;
          }
        }
      }
    }

    predicate HasExpired(i: Pid, now: nat)
      reads this
    {
      && Live(i) && procs[i].state == Blocked && procs[i].waitlist != NoList
      && procs[i].wakeTick != TICK_NONE && now >= procs[i].wakeTick
    }

    /** Resume every process whose IPC wait has expired, in id order. */
    method ExpireTimeouts(now: nat)
      requires Valid()
      modifies this, Memory()
      ensures Valid() && model == KernelCalls.ExpireTimeouts(old(model), now)
    {
      hide Contain, PortsFit, KernelState.TakeWaiter, KernelState.Resolve, KernelCalls.RefreshPriorities;
      var i, n, left := 0, |procs|, false;
      while i < n
        invariant Valid() && ExpireFrom(old(model), now, 0, n).k == ExpireFrom(model, now, i, n).k
        invariant ExpireFrom(old(model), now, 0, n).mutexWaiterLeft <==>
                  left || ExpireFrom(model, now, i, n).mutexWaiterLeft
      {
        if HasExpired(i, now) {
          var st, op := TakeWaiter(procs[i].waitlist, i);
          if st == Ok {
            st := Resolve(i, TimedOut);
            if st == Ok && op.LockOp? { left := true; }
          }
        }
        i := i + 1;
      }
      if left { RefreshPriorities(); }
    }

    method ReleaseOne(i: Pid, now: nat)
      requires Valid()
      modifies this, Memory()
      ensures Valid() && model == KernelCalls.ReleaseOne(old(model), i, now)
    {
      hide Contain, PortsFit, KernelState.Resolve, KernelCalls.ArmDeadline;
      if Live(i) && procs[i].state == Blocked && procs[i].periodicWaiting && now >= procs[i].wakeTick {
        StoreProc(i, procs[i].(release := procs[i].wakeTick, wakeTick := TICK_NONE, periodicWaiting := false));
        ArmDeadline(i);
        var st := Resolve(i, Ok);
      } else if Live(i) && procs[i].state == Blocked && procs[i].timedWaiting && now >= procs[i].wakeTick {
        StoreProc(i, procs[i].(wakeTick := TICK_NONE, timedWaiting := false));
        var st := Resolve(i, Ok);
      }
    }

    /** Resume, in id order, every process whose release or timed wait is due. */
    method ReleasePeriodic(now: nat)
      requires Valid()
      modifies this, Memory()
      ensures Valid() && model == KernelCalls.ReleasePeriodic(old(model), now, 0, |old(procs)|)
    {
      hide Contain, PortsFit, KernelCalls.ReleaseOne;
      var i, n := 0, |procs|;
      while i < n
        invariant Valid() && KernelCalls.ReleasePeriodic(old(model), now, 0, n) ==
                  KernelCalls.ReleasePeriodic(model, now, i, n)
      {
        ReleaseOne(i, now);
        i := i + 1;
      }
    }

    predicate HasMissed(i: Pid, now: nat)
      reads this
    {
      && Live(i) && procs[i].state != Suspended && procs[i].deadline != TICK_NONE && now >= procs[i].deadline
      && procs[i].partition < |halted| && !halted[procs[i].partition]
    }

    /** Disarm, count and record, in id order, every deadline that has passed. */
    method CheckDeadlines(now: nat)
      requires Valid()
      modifies this, Memory()
      ensures Valid() && model == KernelCalls.CheckDeadlines(old(model), now, 0, |old(procs)|)
    {
      hide Contain, PortsFit;
      var i, n := 0, |procs|;
      while i < n
        invariant Valid() && KernelCalls.CheckDeadlines(old(model), now, 0, n) ==
                  KernelCalls.CheckDeadlines(model, now, i, n)
      {
        if HasMissed(i, now) {
          StoreProc(i, procs[i].(deadline := TICK_NONE, misses := Wrap(procs[i].misses + 1)));
          StorePending(pending + {i});
        }
        i := i + 1;
      }
    }

    /** Recompute the bound before which nothing is due. */
    method RefreshDue()
      requires Valid()
      modifies this
      ensures Valid() && model == KernelCalls.RefreshDue(old(model))
    {
      hide Contain, PortsFit;
      var earliest, i := TICK_NONE, 0;
      while i < |procs|
        invariant i <= |procs| && Valid() && model == old(model) && earliest == Earliest(model, i)
      {
        if procs[i].state != Unused {
          if procs[i].wakeTick < earliest { earliest := procs[i].wakeTick; }
          if procs[i].deadline < earliest { earliest := procs[i].deadline; }
        }
        i := i + 1;
      }
      StoreClock(tick, earliest);
    }

    // -------------------------------------------------------------- the tick

    method Scans()
      requires Valid()
      modifies this, Memory()
      ensures Valid() && model == KernelCalls.Scans(old(model))
    {
      hide Contain, PortsFit, KernelCalls.ExpireTimeouts, KernelCalls.ReleasePeriodic, KernelCalls.CheckDeadlines;
      var now := tick;
      ExpireTimeouts(now);
      ReleasePeriodic(now);
      CheckDeadlines(now);
    }

    method OnTick(sched: Frame.Schedule) returns (st: Status, next: Option<Pid>)
      requires Valid()
      modifies this, Memory()
      ensures Valid() && Sel(st, model, next) == KernelCalls.OnTick(old(model), sched)
    {
      hide Contain, PortsFit, KernelCalls.Scans, KernelCalls.RefreshDue, PartitionSelect, Frame.PartitionAt;
      var slot := Frame.Lookup(sched, tick);
      StoreClock(Wrap(tick + 1), nextDue);
      if tick >= nextDue {
        Scans();
        RefreshDue();
      }
      st, next := InvalidArg, None;
      if slot.Some? { st, next := Select(slot.value, false); }
    }

    // -------------------------------------------------------------- fault recovery

    method Restart(id: Pid) returns (st: Status)
      requires Valid()
      modifies this, Memory()
      ensures Valid() && Out(st, model) == KernelCalls.Restart(old(model), id)
    {
      hide Contain, PortsFit, KernelCalls.ReleaseAll, KernelCalls.Requeue, KernelCalls.Rearm;
      ReleaseAll(id);
      st := InvalidId;
      if Live(id) {
        st := Requeue(id);
        if st == Ok && id < |procs| { Rearm(id, tick); }
      }
    }

    method Requeue(id: Pid) returns (st: Status)
      requires Valid() && Live(id)
      modifies this, Memory()
      ensures Valid() && Out(st, model) == KernelCalls.Requeue(old(model), id)
    {
      hide Contain, PortsFit, PartitionAddProcess, KernelCalls.RefreshPriorities;
      st := Ok;
      if procs[id].state == Running {
        var p := procs[id].partition;
        st := SetState(id, Ready);
        st := AddToPartition(id);
        if st == Ok && p < |current| { StoreCurrent(p, None); }
      } else if procs[id].state == Blocked {
        if procs[id].waitlist != NoList { Unlist(procs[id].waitlist, id); }
        RefreshPriorities();
        st := InvalidId;
        if id < |procs| {
          StoreProc(id, procs[id].(waitlist := NoList, wakeTick := TICK_NONE, op := NoOp, resultPending := false));
          st := SetState(id, Ready);
          if st == Ok { st := AddToPartition(id); }
        }
      }
    }

    method EnactFault(id: Pid, action: Action, onCpu: bool) returns (st: Status)
      requires Valid()
      modifies this, Memory()
      ensures Valid() && Out(st, model) == KernelCalls.EnactFault(old(model), id, action, onCpu)
    {
      hide Contain, PortsFit, KernelCalls.Restart, PartitionSelect;
      if !Live(id) {
        st := InvalidId;
      } else {
        match action
        case Ignore => st := Ok;
        case HaltPartition =>
          st := InvalidArg;
          if procs[id].partition < |halted| {
            StoreHalt(procs[id].partition);
            st := Ok;
          }
        case RestartProcess =>
          st := Restart(id);
          if st == Ok && onCpu && id < |procs| {
            var next;
            st, next := Select(procs[id].partition, true);
          }
      }
    }

    /** Take the pending miss of the lowest process id, if there is one. */
    method TakeDeadlineMiss() returns (missed: Option<Pid>)
      requires Valid()
      modifies this
      ensures Valid() && (missed.None? <==> old(pending) == {})
      ensures missed.None? ==> model == old(model)
      ensures missed.Some? ==>
                && missed.value in old(pending) && (forall j :: j in old(pending) ==> missed.value <= j)
                && model == old(model).(pending := old(pending) - {missed.value})
    {
      hide Contain, PortsFit;
      missed := None;
      if pending != {} {
        ghost var bound :| bound in pending;
        var id := 0;
        while id !in pending
          invariant id <= bound && forall j :: j in pending ==> id <= j
          decreases bound - id
        {
          id := id + 1;
        }
        StorePending(pending - {id});
        missed := Some(id);
      }
    }

    /** Take the misses of earlier ticks one by one and act on each. */
    method Drain(policy: seq<Action>, cpu: Option<Pid>)
      requires Valid() && Inv(model)
      modifies this, Memory()
      ensures Valid() && model == DrainFrom(old(model), policy, cpu, 0, |old(procs)|)
    {
      hide Contain, PortsFit, Inv, KernelCalls.EnactFault, DrainFrom;
      var running, n := cpu, |procs|;
      ghost var start := model;
      PendingInPool(start);
      DrainEnds(start, policy, cpu, 0, n);
      var missed := TakeDeadlineMiss();
      if missed.Some? { MissLeft(start, policy, cpu, 0, missed.value, n); }
      while missed.Some?
        invariant Valid() && Inv(model) && |procs| == n
        invariant missed.Some? ==> missed.value !in pending && missed.value < n
        invariant missed.Some? ==> forall j :: j in pending ==> missed.value <= j < n
        invariant DrainFrom(start, policy, cpu, 0, n) ==
                  if missed.Some? then DrainFrom(WithMiss(model, missed.value), policy, running, missed.value, n)
                    else model
        decreases if missed.Some? then n - missed.value else -1
      {
        var i := missed.value;
        running := ActOn(i, policy, running);
        ghost var after := model;
        DrainEnds(after, policy, running, i + 1, n);
        missed := TakeDeadlineMiss();
        if missed.Some? { MissLeft(after, policy, running, i + 1, missed.value, n); }
      }
    }

    /** Act on one miss, just taken, as the policy of its partition says. */
    method ActOn(i: Pid, policy: seq<Action>, cpu: Option<Pid>) returns (running: Option<Pid>)
      requires Valid() && Inv(model) && i < |procs| && i !in pending
      modifies this, Memory()
      ensures Valid() && Inv(model) && |procs| == |old(procs)| && pending == old(pending)
      ensures DrainFrom(WithMiss(old(model), i), policy, cpu, i, |procs|) ==
              DrainFrom(model, policy, running, i + 1, |procs|)
    {
      hide Contain, PortsFit, Inv, KernelCalls.EnactFault, DrainFrom;
      running := cpu;
      DrainTakes(model, policy, running, i, |procs|);
      if Live(i) && procs[i].partition < |policy| {
        var action := policy[procs[i].partition];
        EnactKeeps(model, i, action, running == Some(i));
        var enacted := EnactFault(i, action, running == Some(i));
        if action == RestartProcess && running == Some(i) { running := None; }
      }
    }

    /** The tick interrupt: every miss of an earlier tick is acted on, then the tick is made. */
    method Systick(sched: Frame.Schedule, policy: seq<Action>, cpu: Option<Pid>) returns (st: Status, next: Option<Pid>)
      requires Valid() && Inv(model)
      modifies this, Memory()
      ensures Valid() && Sel(st, model, next) == KernelCalls.Systick(old(model), sched, policy, cpu)
      ensures Runs.InTable(Runs.System(sched, policy), |old(current)|) ==>
                && Inv(model) && (old(Exact(model)) ==> Exact(model))
                && (st in {Ok, QueueEmpty} ==>
                   Frame.PartitionAt(sched, old(tick)).Some? && Calm(Frame.PartitionAt(sched, old(tick)).value))
    {
      hide Contain, PortsFit, Inv, Exact, KernelCalls.OnTick, DrainFrom, Runs.InTable, Gates.Safe, Calm,
           Frame.PartitionAt;
      ghost var k := model;
      Drain(policy, cpu);
      st, next := OnTick(sched);
      if Runs.InTable(Runs.System(sched, policy), |k.current|) {
        ghost var d, r := Runs.SystickOk(Runs.System(sched, policy), k, cpu);
        if st in {Ok, QueueEmpty} { SafeIsCalm(Frame.PartitionAt(sched, k.tick).value); }
      }
    }

    // -------------------------------------------------------------- system calls

    method Yield(id: Pid) returns (st: Status, next: Option<Pid>)
      requires Valid()
      modifies this, Memory()
      ensures Valid() && Sel(st, model, next) == KernelCalls.Yield(old(model), id)
    {
      hide Contain, PortsFit, PartitionSelect;
      st, next := InvalidId, None;
      if Live(id) { st, next := Select(procs[id].partition, true); }
    }

    method Serve(id: Pid, call: Call) returns (st: Status, next: Option<Pid>)
      requires Valid()
      modifies this, Memory()
      ensures Valid() && Sel(st, model, next) == KernelCalls.Serve(old(model), id, call)
    {
      hide Contain, PortsFit, KernelCalls.Lock, KernelCalls.Unlock, KernelCalls.SemWait, KernelCalls.SemSignal;
      hide KernelCalls.Send, KernelCalls.Receive, KernelCalls.PeriodicWait, KernelCalls.TimedWait, KernelCalls.Yield;
      next := None;
      match call
      case LockCall(m, timeout) => st, next := Lock(m, timeout, id);
      case UnlockCall(m) => st := Unlock(m, id);
      case WaitCall(s, timeout) => st, next := SemWait(s, timeout, id);
      case SignalCall(s) => st := SemSignal(s, id);
      case SendCall(ch, message, timeout) => st, next := Send(ch, message, timeout, id);
      case ReceiveCall(ch, size, timeout) => st, next := Receive(ch, size, timeout, id);
      case TimedWaitCall(delay) =>
        st, next := TimedWait(id, delay);
        if st == Ok && delay == 0 {
          var yielded, other := Yield(id);
          next := None;
        }
      case PeriodicWaitCall => st, next := PeriodicWait(id);
      case YieldCall => st, next := Yield(id);
    }

    method PreemptCheck(id: Pid)
      requires Valid()
      modifies this, Memory()
      ensures Valid() && model == KernelCalls.PreemptCheck(old(model), id)
    {
      hide PortsFit, PartitionSelect, HasHigher, ReadyTable.Valid, ReadyTable.Holds;
      if Live(id) && procs[id].state == Running && procs[id].partition < |current| {
        var higher := queues.Higher(procs[id].partition, procs[id].priority, model);
        if higher {
          var st, next := Select(procs[id].partition, false);
        }
      }
    }

    method Gate(id: Pid, call: Call) returns (st: Status, next: Option<Pid>)
      requires Valid()
      modifies this, Memory()
      ensures Valid() && Sel(st, model, next) == KernelCalls.Gate(old(model), id, call)
      ensures old(Inv(model) && Runs.Legal(model, Runs.Svc(id, call))) ==>
                && Inv(model) && Calm(old(procs)[id].partition)
                && (old(Exact(model) && !Gates.LosesInheritance(model, id, call)) ==> Exact(model))
    {
      hide Contain, PortsFit, KernelCalls.Serve, KernelCalls.PreemptCheck, Inv, Exact, Gates.Safe,
           Gates.LosesInheritance, Calm;
      ghost var k := model;
      st, next := Serve(id, call);
      if !call.YieldCall? { PreemptCheck(id); }
      if Inv(k) && Runs.Legal(k, Runs.Svc(id, call)) {
        ghost var r := Gates.GateOk(k, id, call);
        SafeIsCalm(k.procs[id].partition);
      }
    }
  }

  /** A message in the ring does not concern the rest of the port. */
  lemma PushedFits(ports: map<ChannelId, Endpoint>, k: Kernel, ch: ChannelId, message: Message)
    requires PortsFit(ports, k.channels) && ch in ports
    ensures ch in k.channels
    ensures var (st, c) := FifoPush(k.channels[ch], message);
            var k' := WithChannel(k, ch, c);
            k' == k.(channels := k'.channels) && PortsFit(ports, WithChannel(k, ch, c).channels)
              && (st != Ok ==> WithChannel(k, ch, c) == k)
  {
    assert ch in k.channels.Keys;
    var (st, c) := FifoPush(k.channels[ch], message);
    assert k.channels[ch := c].Keys == k.channels.Keys;
    if st != Ok { assert k.channels[ch := c] == k.channels; }
  }

  /** The message taken out of the ring is the one that was copied to the receiver. */
  lemma PoppedFits(ports: map<ChannelId, Endpoint>, k: Kernel, ch: ChannelId, to: Pid, size: nat)
    requires PortsFit(ports, k.channels) && ch in ports
    ensures ch in k.channels
    ensures var (st, c) := FifoPop(k.channels[ch], to, size);
            var k' := WithChannel(k, ch, c);
            && k' == k.(channels := k'.channels)
            && (st != Ok ==> k' == k)
            && (st == Ok ==>
                  && k.channels[ch].ring != []
                  && var d := ports[ch].delivered + [Delivery(to, k.channels[ch].ring[0])];
                     PortsFit(ports[ch := ports[ch].(delivered := d)], k'.channels))
  {
    assert ch in k.channels.Keys;
    var (st, c) := FifoPop(k.channels[ch], to, size);
    if st == Ok {
      assert k.channels[ch := c].Keys == k.channels.Keys;
    } else {
      assert k.channels[ch := c] == k.channels;
    }
  }

  lemma RemoveAbsentFrom(k: Kernel, h: ListId, id: Pid)
    ensures id !in Waiters(k, h) ==> Remove(Waiters(k, h), id) == Waiters(k, h)
  {
    if id !in Waiters(k, h) { RemoveAbsent(Waiters(k, h), id); }
  }

  /** A failed block-and-dispatch leaves the state as it was and names nobody. */
  lemma BlockFails(k: Kernel, id: Pid)
    requires id < |k.procs|
    ensures var r := PartitionBlockAndDispatch(k, k.procs[id].partition, id); r.st != Ok ==> r.k == k && r.next == None
  {
  }

  lemma HeadIsCandidate(k: Kernel, p: nat, q: nat)
    requires Inv(k) && Queue(k, Slot(p, q)) != []
    ensures var i := Queue(k, Slot(p, q))[0]; Placement.Candidate(k, p, i) && k.procs[i].priority == q
  {
    assert Placement.QueueOk(k, Slot(p, q));
    assert Queue(k, Slot(p, q))[0] in Queue(k, Slot(p, q));
  }

  /** The state in which the miss of process i is still pending. */
  function WithMiss(k: Kernel, i: Pid): Kernel { k.(pending := k.pending + {i}) }

  lemma PendingInPool(k: Kernel)
    requires Inv(k)
    ensures forall j :: j in k.pending ==> j < |k.procs|
  {
  }

  /** The lowest pending miss was taken: the drain continues with it. */
  lemma MissLeft(k: Kernel, policy: seq<Action>, cpu: Option<Pid>, i: Pid, j: Pid, n: nat)
    requires Inv(k) && j in k.pending && (forall x :: x in k.pending ==> j <= x < n) && i <= j < n
    ensures var t := k.(pending := k.pending - {j});
            && Inv(t) && WithMiss(t, j) == k
            && DrainFrom(k, policy, cpu, i, n) == DrainFrom(WithMiss(t, j), policy, cpu, j, n)
  {
    hide Inv;
    var t := Recovery.MissTaken(k, j);
    assert t.pending + {j} == k.pending;
    DrainSkips(k, policy, cpu, i, j, n);
  }

  /** One step of the drain, from a miss just taken. */
  lemma DrainTakes(k: Kernel, policy: seq<Action>, cpu: Option<Pid>, i: Pid, n: nat)
    requires i < n && i !in k.pending
    ensures DrainFrom(WithMiss(k, i), policy, cpu, i, n) ==
            if IsProc(k, i) && k.procs[i].partition < |policy| then
              var action := policy[k.procs[i].partition];
              DrainFrom(KernelCalls.EnactFault(k, i, action, cpu == Some(i)).k, policy,
                        if action == RestartProcess && cpu == Some(i) then None else cpu, i + 1, n)
            else DrainFrom(k, policy, cpu, i + 1, n)
  {
    assert WithMiss(k, i).pending - {i} == k.pending;
  }

  lemma EnactKeeps(k: Kernel, i: Pid, action: Action, onCpu: bool)
    requires Inv(k) && IsProc(k, i)
    ensures var r := KernelCalls.EnactFault(k, i, action, onCpu).k;
            Inv(r) && |r.procs| == |k.procs| && r.pending == k.pending
  {
    hide Inv, Recovery.Recovered, KernelCalls.EnactFault, Exact;
    var r := Recovery.EnactFaultOk(k, i, action, onCpu);
    Runs.RecoveredSizes(k, r.k, i, action);
  }
}

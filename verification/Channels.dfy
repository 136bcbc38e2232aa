/** Queuing ports and buffers: messages are handed to waiting receivers and admitted from
    waiting senders, with nothing lost, duplicated or overtaken. */
module Channels {
  import opened Wrappers
  import opened KernelState
  import opened Order
  import opened Placement
  import opened KernelCalls
  import opened Invariants
  import opened Blocking

  // ---------------------------------------------------------------- the ledger

  function MessageOf(k: Kernel, i: Pid): Message {
    if i < |k.procs| && k.procs[i].op.SendOp? then k.procs[i].op.message else []
  }

  /** The messages the processes of l are waiting to send, in list order. */
  function Messages(k: Kernel, l: seq<Pid>): (r: seq<Message>)
    ensures |r| == |l|
  {
    seq(|l|, j requires 0 <= j < |l| => MessageOf(k, l[j]))
  }

  function Contents(d: seq<Delivery>): seq<Message> {
    seq(|d|, j requires 0 <= j < |d| => d[j].message)
  }

  /** Everything channel ch was ever entrusted with and has not given back to a sender whose
      wait ended: what was delivered, then the ring, then what waiting senders hold. */
  function Carried(k: Kernel, ch: ChannelId): seq<Message>
    requires ch in k.channels
  {
    Contents(k.channels[ch].delivered) + k.channels[ch].ring + Messages(k, Waiters(k, OnSend(ch)))
  }

  // ---------------------------------------------------------------- releasing one waiter

  lemma WakeByOk(k: Kernel, h: ListId, d: Discipline) returns (t: Taken)
    requires Placed(k, {})
    ensures t == WakeBy(k, h, d)
    ensures Waiters(k, h) == [] ==> t == Taken(QueueEmpty, k, 0, NoOp)
    ensures Waiters(k, h) != [] ==> (
              && t.id in Waiters(k, h) && IsProc(k, t.id)
              && t == Taken(Ok, TakenOff(k, h, t.id), t.id, k.procs[t.id].op)
              && if d == Fifo then t.id == Waiters(k, h)[0] else MostUrgent(k, Waiters(k, h), t.id))
  {
    t := WakeBy(k, h, d);
    TakeBestOk(k, {}, h);
    WakeOneOk(k, {}, h);
  }

  /** c' holds as many messages as c, on the same terms. */
  ghost predicate SameFill(c: Channel, c': Channel) {
    c' == c.(ring := c'.ring, delivered := c'.delivered) && |c'.ring| == |c.ring|
      && (c.inUse && ChannelOk(c) ==> ChannelOk(c'))
  }

  /** A waiter of a channel was served and the channel is as full as before. */
  lemma ServedFine(k: Kernel, k': Kernel, h: ListId, n: Pid, ch: ChannelId)
    requires Placed(k, {}) && Objects(k) && Granted(k, k', h, n, Ok) && ch in k.channels
    requires k'.mutexes == k.mutexes && k'.sems == k.sems && ch in k'.channels
             && SameFill(k.channels[ch], k'.channels[ch])
    requires k'.channels == k.channels[ch := k'.channels[ch]]
    ensures Objects(k')
  {
    TakeWaiterOk(k, {}, h, n);
    assert ListOk(k, {}, h);
    RemoveFacts(Waiters(k, h), n);
    forall g ensures ListFine(k', g) {
      assert ListFine(k, g) && ListOk(k, {}, g);
      hide Placed, Objects;
      ServedList(k, k', h, n, ch, g);
    }
    forall x: nat | x < |k'.mutexes| ensures MutexFine(k', x) { assert MutexFine(k, x); }
  }

  lemma ServedList(k: Kernel, k': Kernel, h: ListId, n: Pid, ch: ChannelId, g: ListId)
    requires Granted(k, k', h, n, Ok) && ch in k.channels && ch in k'.channels
             && SameFill(k.channels[ch], k'.channels[ch])
    requires k'.mutexes == k.mutexes && k'.sems == k.sems && k'.channels == k.channels[ch := k'.channels[ch]]
    requires ListFine(k, g) && ListOk(k, {}, g) && NoDup(Waiters(k, h)) && k.procs[n].waitlist == h
    ensures ListFine(k', g)
  {
    RemoveFacts(Waiters(k, h), n);
    assert Waiters(k', g) == if g == h then Remove(Waiters(k, h), n) else Waiters(k, g);
    assert ListUsed(k, g) ==> ListUsed(k', g);
    forall i | i in Waiters(k', g) ensures i < |k'.procs| && MemberOk(k', g, i) {
      assert i in Waiters(k, g) && i != n;
      assert k'.procs[i] == k.procs[i];
    }
  }

  lemma ServedKeeps(k: Kernel, k': Kernel, h: ListId, n: Pid, ch: ChannelId, id: Pid)
    requires Inv(k) && Placed(k', {}) && Granted(k, k', h, n, Ok) && ch in k.channels && !h.OnMutex?
    requires k'.mutexes == k.mutexes && k'.sems == k.sems && ch in k'.channels
             && SameFill(k.channels[ch], k'.channels[ch])
    requires k'.channels == k.channels[ch := k'.channels[ch]]
    ensures Inv(k') && (Exact(k') <==> Exact(k)) && Framed(k, k', id)
  {
    hide Placed, Objects, Clocked, Granted, Exact, Framed;
    ServedFine(k, k', h, n, ch);
    GrantedClocked(k, k', h, n, Ok);
    GrantedGraph(k, k', h, n, Ok);
    GrantedFramed(k, k', h, n, id);
  }

  /** A channel nobody waits on may be filled and emptied freely. */
  lemma ChannelChanged(k: Kernel, ch: ChannelId, c: Channel, id: Pid) returns (k': Kernel)
    requires Inv(k) && ch in k.channels && Waiters(k, OnSend(ch)) == [] && Waiters(k, OnReceive(ch)) == []
    requires k.channels[ch].inUse ==> ChannelOk(c)
    requires c.inUse == k.channels[ch].inUse
    ensures k' == WithChannel(k, ch, c) && Inv(k') && (Exact(k') <==> Exact(k)) && Framed(k, k', id)
  {
    k' := WithChannel(k, ch, c);
    RetouchedPlaced(k, k', {});
    hide Placed;
    forall h ensures ListFine(k', h) { assert ListFine(k, h) && Waiters(k', h) == Waiters(k, h); }
    forall m: nat | m < |k.mutexes| ensures MutexFine(k', m) { assert MutexFine(k, m); }
    forall i | 0 <= i < |k.procs| ensures ClockOk(k', k'.procs[i]) { assert ClockOk(k, k.procs[i]); }
    SameGraph(k, k');
  }

  // ---------------------------------------------------------------- sending

  /** The channel after message was handed to process n, which waited for one. */
  function Handed(c: Channel, n: Pid, message: Message): Channel {
    c.(delivered := c.delivered + [Delivery(n, message)])
  }

  /** A waiting receiver gets the message: every waiting receiver is usable, because each was
      admitted with enough room and only while the ring was empty. */
  lemma SendHandsOver(k: Kernel, ch: ChannelId, message: Message, id: Pid) returns (n: Pid, k': Kernel)
    requires Inv(k) && ch in k.channels && k.channels[ch].inUse && |message| == k.channels[ch].messageSize
    requires Waiters(k, OnReceive(ch)) != []
    ensures SendNow(k, ch, message) == Out(Ok, k') && Inv(k') && (Exact(k') <==> Exact(k)) && Framed(k, k', id)
    ensures Granted(k, k', OnReceive(ch), n, Ok) && k'.channels == k.channels[ch := Handed(k.channels[ch], n, message)]
    ensures k'.mutexes == k.mutexes && k'.sems == k.sems
    ensures k.channels[ch].ring == [] && Waiters(k, OnSend(ch)) == []
    ensures if k.channels[ch].discipline == Fifo then n == Waiters(k, OnReceive(ch))[0]
            else MostUrgent(k, Waiters(k, OnReceive(ch)), n)
  {
    var h := OnReceive(ch);
    var t := WakeByOk(k, h, k.channels[ch].discipline);
    n := t.id;
    assert ListFine(k, h) && ListFine(k, OnSend(ch)) && ChannelOk(k.channels[ch]);
    assert MemberOk(k, h, n);
    var t' := HandTo(t.k, ch, n, message);
    GrantOk(k, t', h, n, Ok);
    k' := Resolve(t', n, Ok).k;
    hide Placed, Granted, Resolve, TakenOff, WakeBy, MostUrgent, Framed, Exact;
    ServedKeeps(k, k', h, n, ch, id);
  }

  lemma SendQueues(k: Kernel, ch: ChannelId, message: Message, id: Pid) returns (r: Out)
    requires Inv(k) && ch in k.channels && k.channels[ch].inUse && |message| == k.channels[ch].messageSize
    requires Waiters(k, OnReceive(ch)) == []
    ensures r == SendNow(k, ch, message) && Inv(r.k) && (Exact(r.k) <==> Exact(k)) && Framed(k, r.k, id)
    ensures r.st == if |k.channels[ch].ring| < k.channels[ch].capacity then Ok else QueueFull
    ensures r.st == QueueFull ==> r.k == k
    ensures r.st == Ok ==>
            Waiters(k, OnSend(ch)) == [] && r.k ==
              k.(channels := k.channels[ch := k.channels[ch].(ring := k.channels[ch].ring + [message])])
  {
    var t := WakeByOk(k, OnReceive(ch), k.channels[ch].discipline);
    r := SendNow(k, ch, message);
    assert r == PushInto(k, ch, message);
    assert ListFine(k, OnSend(ch)) && ChannelOk(k.channels[ch]);
    hide Placed, WakeBy, SendNow;
    if r.st == Ok {
      var k' := ChannelChanged(k, ch, k.channels[ch].(ring := k.channels[ch].ring + [message]), id);
    }
  }

  /** The sender has to wait, and can. */
  ghost predicate SendWaits(k: Kernel, ch: ChannelId, message: Message, timeout: nat, id: Pid) {
    && ChannelFor(k, ch, id, true) && |message| == k.channels[ch].messageSize
    && |k.channels[ch].ring| == k.channels[ch].capacity
    && timeout != 0 && TickAfter(k, timeout).0 == Ok && |Waiters(k, OnSend(ch))| < WAITLIST_MAX
    && CanBlock(k, k.procs[id].partition)
  }

  /** A message a waiting receiver or the ring took at once. */
  ghost predicate SentNow(k: Kernel, k': Kernel, ch: ChannelId, message: Message)
    requires ch in k.channels
  {
    var h := OnReceive(ch);
    var c := k.channels[ch];
    && Waiters(k, OnSend(ch)) == []
    && if Waiters(k, h) == [] then k' == k.(channels := k.channels[ch := c.(ring := c.ring + [message])])
       else c.ring == [] && exists n :: ServedBy(k, k', ch, n, message)
  }

  /** n, the next receiver in the channel's discipline, was given the message. */
  ghost predicate ServedBy(k: Kernel, k': Kernel, ch: ChannelId, n: Pid, message: Message)
    requires ch in k.channels
  {
    var l := Waiters(k, OnReceive(ch));
    && Granted(k, k', OnReceive(ch), n, Ok) && k'.channels == k.channels[ch := Handed(k.channels[ch], n, message)]
    && k'.mutexes == k.mutexes && k'.sems == k.sems
    && if k.channels[ch].discipline == Fifo then l != [] && n == l[0] else MostUrgent(k, l, n)
  }

  lemma SendOk(k: Kernel, ch: ChannelId, message: Message, timeout: nat, id: Pid) returns (r: Sel)
    requires Inv(k) && IsProc(k, id) && k.procs[id].state == Running
    ensures r == Send(k, ch, message, timeout, id) && Inv(r.k) && (Exact(r.k) <==> Exact(k)) && Framed(k, r.k, id)
    ensures r.st == InvalidId <==> !ChannelFor(k, ch, id, true)
    ensures r.st == InvalidArg <==> ChannelFor(k, ch, id, true) && |message| != k.channels[ch].messageSize
    ensures r.st == Ok <==>
      ChannelFor(k, ch, id, true) && |message| == k.channels[ch].messageSize
        && |k.channels[ch].ring| < k.channels[ch].capacity
    ensures r.st == Ok ==> ch in k.channels && SentNow(k, r.k, ch, message)
    ensures r.st == Pending <==> SendWaits(k, ch, message, timeout, id)
    ensures r.st == Pending ==> StartedWait(k, r, id, OnSend(ch), TickAfter(k, timeout).1, SendOp(ch, message))
    ensures r.st !in {Ok, Pending} ==> TouchedBy(k, r.k, id, SendOp(ch, message))
  {
    hide Inv, Exact, CanBlock, Framed, SentNow, StartedWait, TickAfter, SendNow, BlockCurrent;
    if ChannelFor(k, ch, id, true) && |message| == k.channels[ch].messageSize {
      r := SendAdmissible(k, ch, message, timeout, id);
    } else {
      r := Send(k, ch, message, timeout, id);
      StaysAsIs(k, id, SendOp(ch, message));
    }
  }

  lemma StaysAsIs(k: Kernel, id: Pid, op: Op)
    requires id < |k.procs|
    ensures Framed(k, k, id) && TouchedBy(k, k, id, op)
  {
  }

  lemma SendAdmissible(k: Kernel, ch: ChannelId, message: Message, timeout: nat, id: Pid) returns (r: Sel)
    requires Inv(k) && IsProc(k, id) && k.procs[id].state == Running && ChannelFor(k, ch, id, true)
             && |message| == k.channels[ch].messageSize
    ensures r == Send(k, ch, message, timeout, id) && Inv(r.k) && (Exact(r.k) <==> Exact(k)) && Framed(k, r.k, id)
    ensures r.st !in {InvalidId, InvalidArg} && (r.st == Ok <==> |k.channels[ch].ring| < k.channels[ch].capacity)
    ensures r.st == Ok ==> SentNow(k, r.k, ch, message)
    ensures r.st == Pending <==> SendWaits(k, ch, message, timeout, id)
    ensures r.st == Pending ==> StartedWait(k, r, id, OnSend(ch), TickAfter(k, timeout).1, SendOp(ch, message))
    ensures r.st !in {Ok, Pending} ==> TouchedBy(k, r.k, id, SendOp(ch, message))
  {
    hide Placed, Objects, Exact, CanBlock, Framed, SentNow, Waiting, NoneAbove, SendNow, BlockCurrent;
    r := Send(k, ch, message, timeout, id);
    var s := SendTries(k, ch, message, id);
    if s.st == QueueFull && timeout != 0 && TickAfter(k, timeout).0 == Ok {
      TickAfterOk(k, timeout);
      var b := BlockCurrentKeeps(k, id, OnSend(ch), TickAfter(k, timeout).1, SendOp(ch, message));
    }
  }

  lemma SendTries(k: Kernel, ch: ChannelId, message: Message, id: Pid) returns (s: Out)
    requires Inv(k) && ch in k.channels && k.channels[ch].inUse && |message| == k.channels[ch].messageSize
    ensures s == SendNow(k, ch, message) && Inv(s.k) && (Exact(s.k) <==> Exact(k)) && Framed(k, s.k, id)
    ensures s.st == if |k.channels[ch].ring| < k.channels[ch].capacity then Ok else QueueFull
    ensures s.st == Ok ==> SentNow(k, s.k, ch, message)
    ensures s.st == QueueFull ==> s.k == k && |k.channels[ch].ring| == k.channels[ch].capacity
  {
    assert ChannelOk(k.channels[ch]);
    if Waiters(k, OnReceive(ch)) != [] {
      var n, k' := SendHandsOver(k, ch, message, id);
      s := Out(Ok, k');
      assert ServedBy(k, k', ch, n, message);
    } else {
      s := SendQueues(k, ch, message, id);
    }
  }

  // ---------------------------------------------------------------- receiving

  /** The channel after its oldest message was copied to process id. */
  function Popped(c: Channel, id: Pid): Channel {
    if c.ring == [] then c else c.(ring := c.ring[1..], delivered := c.delivered + [Delivery(id, c.ring[0])])
  }

  function Admitting(c: Channel, id: Pid, message: Message): Channel {
    Popped(c, id).(ring := Popped(c, id).ring + [message])
  }

  /** The freed slot was given to sender n, the next in the channel's discipline. */
  ghost predicate AdmittedFrom(k: Kernel, k': Kernel, ch: ChannelId, id: Pid, n: Pid)
    requires ch in k.channels
  {
    var l := Waiters(k, OnSend(ch));
    && Granted(k, k', OnSend(ch), n, Ok)
    && k'.channels == k.channels[ch := Admitting(k.channels[ch], id, MessageOf(k, n))]
    && k'.mutexes == k.mutexes && k'.sems == k.sems
    && if k.channels[ch].discipline == Fifo then l != [] && n == l[0] else MostUrgent(k, l, n)
  }

  /** The oldest message was taken, and a waiting sender, if any, refilled the ring. */
  ghost predicate Received(k: Kernel, k': Kernel, ch: ChannelId, id: Pid)
    requires ch in k.channels
  {
    && k.channels[ch].ring != []
    && if Waiters(k, OnSend(ch)) == [] then k' == k.(channels := k.channels[ch := Popped(k.channels[ch], id)])
       else exists n :: AdmittedFrom(k, k', ch, id, n)
  }

  lemma ReceiveAdmits(k: Kernel, ch: ChannelId, id: Pid) returns (n: Pid, k': Kernel)
    requires Inv(k) && ch in k.channels && k.channels[ch].inUse && k.channels[ch].ring != []
             && Waiters(k, OnSend(ch)) != []
    ensures k' == AdmitSender(WithChannel(k, ch, Popped(k.channels[ch], id)), ch)
    ensures Inv(k') && (Exact(k') <==> Exact(k)) && Framed(k, k', id) && AdmittedFrom(k, k', ch, id, n)
  {
    hide Placed, Objects, Clocked, Granted, AdmitSender, Framed, Exact, MostUrgent, ChannelOk;
    n, k' := AdmitsState(k, ch, id);
    ServedKeeps(k, k', OnSend(ch), n, ch, id);
  }

  /** The admission computed: the served sender's message refills the ring exactly. */
  lemma AdmitsState(k: Kernel, ch: ChannelId, id: Pid) returns (n: Pid, k': Kernel)
    requires Inv(k) && ch in k.channels && k.channels[ch].inUse && k.channels[ch].ring != []
             && Waiters(k, OnSend(ch)) != []
    ensures k' == AdmitSender(WithChannel(k, ch, Popped(k.channels[ch], id)), ch) && Placed(k', {})
    ensures AdmittedFrom(k, k', ch, id, n) && SameFill(k.channels[ch], k'.channels[ch])
  {
    var h := OnSend(ch);
    var c := k.channels[ch];
    var p := WithChannel(k, ch, Popped(c, id));
    assert ListFine(k, h) && ChannelOk(c);
    RetouchedPlaced(k, p, {});
    var t := WakeByOk(p, h, c.discipline);
    n := t.id;
    assert Waiters(p, h) == Waiters(k, h) && MemberOk(k, h, n);
    var t' := PushInto(t.k, ch, t.op.message).k;
    assert t'.channels == k.channels[ch := Admitting(c, id, MessageOf(k, n))];
    GrantOk(k, t', h, n, Ok);
    k' := Resolve(t', n, Ok).k;
    assert AdmitSender(p, ch) == k';
    assert c.discipline != Fifo ==> MostUrgent(k, Waiters(k, h), n);
  }

  lemma ReceiveTakes(k: Kernel, ch: ChannelId, id: Pid) returns (k': Kernel)
    requires Inv(k) && ch in k.channels && k.channels[ch].inUse && k.channels[ch].ring != []
    ensures k' == AdmitSender(WithChannel(k, ch, Popped(k.channels[ch], id)), ch)
    ensures Inv(k') && (Exact(k') <==> Exact(k)) && Framed(k, k', id) && Received(k, k', ch, id)
  {
    if Waiters(k, OnSend(ch)) != [] {
      var n;
      n, k' := ReceiveAdmits(k, ch, id);
    } else {
      assert ListFine(k, OnReceive(ch)) && ChannelOk(k.channels[ch]);
      k' := ChannelChanged(k, ch, Popped(k.channels[ch], id), id);
      assert Placed(k', {});
      hide Placed, WakeBy;
      var t := WakeByOk(k', OnSend(ch), k.channels[ch].discipline);
    }
  }

  /** The receiver has to wait, and can. */
  ghost predicate ReceiveWaits(k: Kernel, ch: ChannelId, size: nat, timeout: nat, id: Pid) {
    && ChannelFor(k, ch, id, false) && size >= k.channels[ch].messageSize && k.channels[ch].ring == []
    && timeout != 0 && TickAfter(k, timeout).0 == Ok && |Waiters(k, OnReceive(ch))| < WAITLIST_MAX
    && CanBlock(k, k.procs[id].partition)
  }

  lemma ReceiveOk(k: Kernel, ch: ChannelId, size: nat, timeout: nat, id: Pid) returns (r: Sel)
    requires Inv(k) && IsProc(k, id) && k.procs[id].state == Running
    ensures r == Receive(k, ch, size, timeout, id) && Inv(r.k) && (Exact(r.k) <==> Exact(k)) && Framed(k, r.k, id)
    ensures r.st == InvalidId <==> !ChannelFor(k, ch, id, false)
    ensures r.st == InvalidArg <==> ChannelFor(k, ch, id, false) && size < k.channels[ch].messageSize
    ensures r.st == Ok <==>
            ChannelFor(k, ch, id, false) && size >= k.channels[ch].messageSize && k.channels[ch].ring != []
    ensures r.st == Ok ==> ch in k.channels && Received(k, r.k, ch, id)
    ensures r.st == Pending <==> ReceiveWaits(k, ch, size, timeout, id)
    ensures r.st == Pending ==> StartedWait(k, r, id, OnReceive(ch), TickAfter(k, timeout).1, ReceiveOp(ch, size))
    ensures r.st !in {Ok, Pending} ==> TouchedBy(k, r.k, id, ReceiveOp(ch, size))
  {
    hide Placed, Objects, Exact, CanBlock, Waiting, AdmitSender, BlockCurrent, Received;
    r := Receive(k, ch, size, timeout, id);
    if ChannelFor(k, ch, id, false) && size >= k.channels[ch].messageSize {
      if k.channels[ch].ring != [] {
        var k' := ReceiveTakes(k, ch, id);
      } else if timeout != 0 && TickAfter(k, timeout).0 == Ok {
        TickAfterOk(k, timeout);
        var b := BlockCurrentKeeps(k, id, OnReceive(ch), TickAfter(k, timeout).1, ReceiveOp(ch, size));
      }
    }
  }

  // ---------------------------------------------------------------- conservation and order

  /** What a step may do to the senders and the contents of a channel it is not about. */
  ghost predicate SameTraffic(k: Kernel, k': Kernel, ch: ChannelId) {
    && ch in k.channels && ch in k'.channels && k'.channels[ch] == k.channels[ch]
    && Waiters(k', OnSend(ch)) == Waiters(k, OnSend(ch))
    && forall i :: i in Waiters(k, OnSend(ch)) ==> MessageOf(k', i) == MessageOf(k, i)
  }

  lemma SameTrafficCarries(k: Kernel, k': Kernel, ch: ChannelId)
    requires SameTraffic(k, k', ch)
    ensures Carried(k', ch) == Carried(k, ch)
  {
    assert Messages(k', Waiters(k, OnSend(ch))) == Messages(k, Waiters(k, OnSend(ch)));
  }

  /** The channel's terms are fixed, and what was delivered stays delivered. */
  predicate SameTerms(c: Channel, c': Channel) {
    c' == c.(ring := c'.ring, delivered := c'.delivered) && c.delivered <= c'.delivered
  }

  /** Every accepted or waiting send adds its message behind all earlier ones, whether it went
      to a receiver, into the ring or onto the wait list; a refused one adds nothing. */
  lemma SendCarries(k: Kernel, ch: ChannelId, message: Message, timeout: nat, id: Pid)
    requires Inv(k) && IsProc(k, id) && k.procs[id].state == Running && ch in k.channels
    ensures var r := Send(k, ch, message, timeout, id);
            && ch in r.k.channels && SameTerms(k.channels[ch], r.k.channels[ch])
            && Carried(r.k, ch) == Carried(k, ch) + if r.st in {Ok, Pending} then [message] else []
  {
    hide Inv, Send;
    var r := SendOk(k, ch, message, timeout, id);
    if r.st == Ok {
      SentNowCarries(k, r.k, ch, message);
    } else if r.st == Pending {
      StartedSendCarries(k, r, ch, message, TickAfter(k, timeout).1, id);
    } else {
      TouchedCarries(k, r.k, ch, id);
    }
  }

  lemma TouchedCarries(k: Kernel, k': Kernel, ch: ChannelId, id: Pid)
    requires Inv(k) && Touched(k, k', id) && k.procs[id].state == Running && ch in k.channels
    ensures ch in k'.channels && Carried(k', ch) == Carried(k, ch) && SameTerms(k.channels[ch], k'.channels[ch])
  {
    assert ListOk(k, {}, OnSend(ch));
    hide Inv;
    SameTrafficCarries(k, k', ch);
  }

  lemma SentNowCarries(k: Kernel, k': Kernel, ch: ChannelId, message: Message)
    requires ch in k.channels && SentNow(k, k', ch, message)
    ensures ch in k'.channels && Carried(k', ch) == Carried(k, ch) + [message]
            && SameTerms(k.channels[ch], k'.channels[ch])
  {
    assert Waiters(k', OnSend(ch)) == [];
    if Waiters(k, OnReceive(ch)) != [] {
      var n :| ServedBy(k, k', ch, n, message);
      assert Contents(k'.channels[ch].delivered) == Contents(k.channels[ch].delivered) + [message];
    }
  }

  lemma StartedSendCarries(k: Kernel, r: Sel, ch: ChannelId, message: Message, wake: nat, id: Pid)
    requires Inv(k) && IsProc(k, id) && k.procs[id].state == Running && ch in k.channels
    requires StartedWait(k, r, id, OnSend(ch), wake, SendOp(ch, message))
    ensures ch in r.k.channels && Carried(r.k, ch) == Carried(k, ch) + [message]
            && SameTerms(k.channels[ch], r.k.channels[ch])
  {
    var l := Waiters(k, OnSend(ch));
    assert id !in l && forall i :: i in l ==> i < |k.procs| && k.procs[i].state == Blocked by {
      assert ListOk(k, {}, OnSend(ch));
    }
    hide Inv;
    assert Waiters(r.k, OnSend(ch)) == l + [id] && r.k.channels == k.channels;
    forall i | i in l ensures MessageOf(r.k, i) == MessageOf(k, i) {}
    hide Waiting, NoteDue;
    assert Messages(r.k, l + [id]) == Messages(k, l) + [message];
  }

  /** A receive hands over the oldest message carried and never disturbs the rest: in a FIFO
      channel the ledger stays as it is, letter by letter; where urgent senders go first it
      holds the same messages. */
  lemma ReceiveCarries(k: Kernel, ch: ChannelId, size: nat, timeout: nat, id: Pid)
    requires Inv(k) && IsProc(k, id) && k.procs[id].state == Running && ch in k.channels
    ensures var r := Receive(k, ch, size, timeout, id);
            && ch in r.k.channels && SameTerms(k.channels[ch], r.k.channels[ch])
            && (k.channels[ch].discipline == Fifo || r.st != Ok ==> Carried(r.k, ch) == Carried(k, ch))
            && multiset(Carried(r.k, ch)) == multiset(Carried(k, ch))
            && (r.st == Ok ==>
               k.channels[ch].ring != [] && r.k.channels[ch].delivered == k.channels[ch].delivered
                 + [Delivery(id, k.channels[ch].ring[0])])
  {
    hide Inv, Receive;
    var r := ReceiveOk(k, ch, size, timeout, id);
    if r.st == Ok {
      ReceivedCarries(k, r.k, ch, id);
    } else if r.st == Pending {
      StartedReceiveCarries(k, r, ch, size, TickAfter(k, timeout).1, id);
    } else {
      TouchedCarries(k, r.k, ch, id);
    }
  }

  lemma StartedReceiveCarries(k: Kernel, r: Sel, ch: ChannelId, size: nat, wake: nat, id: Pid)
    requires Inv(k) && IsProc(k, id) && k.procs[id].state == Running && ch in k.channels
    requires StartedWait(k, r, id, OnReceive(ch), wake, ReceiveOp(ch, size))
    ensures ch in r.k.channels && Carried(r.k, ch) == Carried(k, ch) && SameTerms(k.channels[ch], r.k.channels[ch])
  {
    assert ListOk(k, {}, OnSend(ch));
    hide Inv;
    SameTrafficCarries(k, r.k, ch);
  }

  lemma ReceivedCarries(k: Kernel, k': Kernel, ch: ChannelId, id: Pid)
    requires Inv(k) && ch in k.channels && Received(k, k', ch, id)
    ensures ch in k'.channels
    ensures k.channels[ch].discipline == Fifo ==> Carried(k', ch) == Carried(k, ch)
    ensures multiset(Carried(k', ch)) == multiset(Carried(k, ch))
    ensures k'.channels[ch].delivered == k.channels[ch].delivered + [Delivery(id, k.channels[ch].ring[0])]
            && SameTerms(k.channels[ch], k'.channels[ch])
  {
    var l := Waiters(k, OnSend(ch));
    assert NoDup(l) by { assert ListOk(k, {}, OnSend(ch)); }
    hide Inv, AdmittedFrom, Carried;
    if l == [] {
      PoppedCarries(k, k', ch, id);
    } else {
      var n :| AdmittedFrom(k, k', ch, id, n);
      AdmittedCarries(k, k', ch, id, n);
    }
  }

  lemma PoppedCarries(k: Kernel, k': Kernel, ch: ChannelId, id: Pid)
    requires ch in k.channels && k.channels[ch].ring != [] && Waiters(k, OnSend(ch)) == []
    requires k' == k.(channels := k.channels[ch := Popped(k.channels[ch], id)])
    ensures Carried(k', ch) == Carried(k, ch)
  {
    var c := k.channels[ch];
    assert Contents(Popped(c, id).delivered) == Contents(c.delivered) + [c.ring[0]];
    assert c.ring == [c.ring[0]] + c.ring[1..];
  }

  lemma AdmittedCarries(k: Kernel, k': Kernel, ch: ChannelId, id: Pid, n: Pid)
    requires ch in k.channels && k.channels[ch].ring != [] && NoDup(Waiters(k, OnSend(ch)))
             && AdmittedFrom(k, k', ch, id, n)
    ensures ch in k'.channels
    ensures k.channels[ch].discipline == Fifo ==> Carried(k', ch) == Carried(k, ch)
    ensures multiset(Carried(k', ch)) == multiset(Carried(k, ch))
    ensures k'.channels[ch].delivered == k.channels[ch].delivered + [Delivery(id, k.channels[ch].ring[0])]
            && SameTerms(k.channels[ch], k'.channels[ch])
  {
    hide MostUrgent, Messages, Contents;
    var c := k.channels[ch];
    var l := Waiters(k, OnSend(ch));
    var x := Admission(k, k', l, n);
    PoppedContents(c, id);
    Refill(Contents(c.delivered), c.ring, Messages(k, l), x);
    assert Carried(k', ch) == (Contents(c.delivered) + [c.ring[0]]) + (c.ring[1..] + [MessageOf(k, n)])
           + Messages(k', Remove(l, n));
  }

  lemma PoppedContents(c: Channel, id: Pid)
    requires c.ring != []
    ensures Contents(Popped(c, id).delivered) == Contents(c.delivered) + [c.ring[0]]
  {
  }

  /** The front of the ring moves on and the x-th waiting message takes the free slot. */
  lemma Refill(d: seq<Message>, ring: seq<Message>, held: seq<Message>, x: nat)
    requires ring != [] && x < |held|
    ensures var after := (d + [ring[0]]) + (ring[1..] + [held[x]]) + (held[..x] + held[x + 1..]);
            && (x == 0 ==> after == d + ring + held)
            && multiset(after) == multiset(d + ring + held)
  {
    assert ring == [ring[0]] + ring[1..];
    assert held == held[..x] + [held[x]] + held[x + 1..];
  }

  /** Taking one sender out leaves the messages of the others as they were. */
  lemma Admission(k: Kernel, k': Kernel, l: seq<Pid>, n: Pid) returns (x: nat)
    requires NoDup(l) && n in l && n < |k.procs| && |k'.procs| == |k.procs|
    requires forall i :: 0 <= i < |k.procs| && i != n ==> k'.procs[i] == k.procs[i]
    ensures x < |l| && l[x] == n && (n == l[0] ==> x == 0)
    ensures Messages(k', Remove(l, n)) == Messages(k, l)[..x] + Messages(k, l)[x + 1..]
            && Messages(k, l)[x] == MessageOf(k, n)
  {
    hide Messages;
    x :| x < |l| && l[x] == n;
    RemoveAt(l, n, x);
    RemoveFacts(l, n);
    SameMessages(k, k', n, Remove(l, n));
    MessagesSplit(k, l, x);
  }

  lemma SameMessages(k: Kernel, k': Kernel, n: Pid, l: seq<Pid>)
    requires |k'.procs| == |k.procs| && n !in l
             && forall i :: 0 <= i < |k.procs| && i != n ==> k'.procs[i] == k.procs[i]
    ensures Messages(k', l) == Messages(k, l)
  {
    forall j | 0 <= j < |l| ensures MessageOf(k', l[j]) == MessageOf(k, l[j]) { assert l[j] in l; }
  }

  lemma MessagesSplit(k: Kernel, l: seq<Pid>, x: nat)
    requires x < |l|
    ensures Messages(k, l[..x] + l[x + 1..]) == Messages(k, l)[..x] + Messages(k, l)[x + 1..]
            && Messages(k, l)[x] == MessageOf(k, l[x])
  {
  }

  lemma {:induction false} RemoveAt(l: seq<Pid>, n: Pid, x: nat)
    requires NoDup(l) && x < |l| && l[x] == n
    ensures Remove(l, n) == l[..x] + l[x + 1..]
  {
    if x != 0 {
      RemoveAt(l[1..], n, x - 1);
    }
  }

  /** Every process waiting on a channel waits in the operation its list stands for, with a
      buffer or message of the right size: the branches for anything else are never taken. */
  lemma WaitersAreUsable(k: Kernel, ch: ChannelId, i: Pid)
    requires Inv(k)
    ensures i in Waiters(k, OnReceive(ch)) ==>
            ch in k.channels && i < |k.procs| && UsableReceiver(k.procs[i].op, ch, k.channels[ch].messageSize)
    ensures i in Waiters(k, OnSend(ch)) ==> (
              && ch in k.channels && i < |k.procs| && k.procs[i].op.SendOp? && SameKind(k.procs[i].op.ch, ch)
              && |k.procs[i].op.message| == k.channels[ch].messageSize)
  {
    assert ListFine(k, OnReceive(ch)) && ListFine(k, OnSend(ch));
    if i in Waiters(k, OnReceive(ch)) { assert MemberOk(k, OnReceive(ch), i); }
    if i in Waiters(k, OnSend(ch)) { assert MemberOk(k, OnSend(ch), i); }
  }
}

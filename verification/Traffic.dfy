/** Channels over whole runs: what goes in comes out once and in order, but for exactly the
    messages of senders that gave up waiting. */
module Traffic {
  import opened Wrappers
  import opened KernelState
  import opened Order
  import opened Placement
  import opened KernelCalls
  import opened Invariants
  import opened Blocking
  import opened Channels
  import opened Timing
  import opened Ticks
  import opened Recovery
  import opened Gates
  import opened Footprints
  import opened Runs
  import opened Wakeups
  import opened Waits

  // ---------------------------------------------------------------- the fate of a waiting sender

  /** Process i, which waits to send to ch, gives that wait up in the course of the run. */
  ghost predicate Withdraws(sys: System, k: Kernel, es: seq<Event>, ch: ChannelId, i: Pid)
    decreases |es|
  {
    es != [] &&
    (GivesUp(sys, k, es[0], i) ||
     (i in Waiters(Step(sys, k, es[0]), OnSend(ch)) && Withdraws(sys, Step(sys, k, es[0]), es[1..], ch, i)))
  }

  ghost function Withdrawing(sys: System, k: Kernel, es: seq<Event>, ch: ChannelId): set<Pid> {
    set i | i in Waiters(k, OnSend(ch)) && Withdraws(sys, k, es, ch, i)
  }

  /** The status of a send to ch, if the event is one. */
  function SendStatus(k: Kernel, e: Event, ch: ChannelId): Option<Status> {
    if e.Svc? && e.call.SendCall? && e.call.ch == ch then Some(Gate(k, e.id, e.call).st) else None
  }

  /** The message the first event of a run entrusts to ch for good: the send is accepted at
      once, or waits and does not give up later in the run. */
  ghost function KeptAt(sys: System, k: Kernel, es: seq<Event>, ch: ChannelId): seq<Message>
    requires es != []
  {
    var st := SendStatus(k, es[0], ch);
    if st == Some(Ok) || (st == Some(Pending) && !Withdraws(sys, Step(sys, k, es[0]), es[1..], ch, es[0].id))
    then [es[0].call.message] else []
  }

  /** The messages of all sends of the run that were accepted or still wait, in call order. */
  ghost function Kept(sys: System, k: Kernel, es: seq<Event>, ch: ChannelId): seq<Message>
    decreases |es|
  {
    if es == [] then [] else KeptAt(sys, k, es, ch) + Kept(sys, Step(sys, k, es[0]), es[1..], ch)
  }

  /** What ch has passed on or stored. */
  function Stored(k: Kernel, ch: ChannelId): seq<Message>
    requires ch in k.channels
  {
    Contents(k.channels[ch].delivered) + k.channels[ch].ring
  }

  /** What ch carries, without the messages of the waiting senders that will give up. */
  ghost function Lasting(sys: System, k: Kernel, es: seq<Event>, ch: ChannelId): seq<Message>
    requires ch in k.channels
  {
    Stored(k, ch) + Messages(k, Without(Waiters(k, OnSend(ch)), Withdrawing(sys, k, es, ch)))
  }

  // ---------------------------------------------------------------- what one event does to a channel

  /** The terms of ch are kept, and the senders that wait before and after hold the same messages. */
  ghost predicate SameHolders(k: Kernel, k': Kernel, ch: ChannelId) {
    && ch in k.channels && ch in k'.channels && SameTerms(k.channels[ch], k'.channels[ch])
    && forall i :: i in Waiters(k, OnSend(ch)) && i in Waiters(k', OnSend(ch)) ==> MessageOf(k', i) == MessageOf(k, i)
  }

  /** Nothing was added and nobody joined or left. */
  ghost predicate Quiet(k: Kernel, k': Kernel, ch: ChannelId) {
    SameHolders(k, k', ch) && Stored(k', ch) == Stored(k, ch) && Waiters(k', OnSend(ch)) == Waiters(k, OnSend(ch))
  }

  /** A message went to a receiver or into the ring. */
  ghost predicate Sent(k: Kernel, k': Kernel, ch: ChannelId, message: Message) {
    && SameHolders(k, k', ch) && Stored(k', ch) == Stored(k, ch) + [message]
    && Waiters(k, OnSend(ch)) == [] == Waiters(k', OnSend(ch))
  }

  /** Process id joined the waiting senders with its message. */
  ghost predicate Joined(k: Kernel, k': Kernel, ch: ChannelId, message: Message, id: Pid) {
    && SameHolders(k, k', ch) && Stored(k', ch) == Stored(k, ch) && id !in Waiters(k, OnSend(ch))
    && Waiters(k', OnSend(ch)) == Waiters(k, OnSend(ch)) + [id] && MessageOf(k', id) == message
  }

  /** The message of waiting sender n was stored, and n left. */
  ghost predicate Admits(k: Kernel, k': Kernel, ch: ChannelId, n: Pid) {
    && SameHolders(k, k', ch) && n in Waiters(k, OnSend(ch)) && Stored(k', ch) == Stored(k, ch) + [MessageOf(k, n)]
    && Waiters(k', OnSend(ch)) == Remove(Waiters(k, OnSend(ch)), n)
    && (k.channels[ch].discipline == Fifo ==> n == Waiters(k, OnSend(ch))[0])
  }

  /** What a call does to channel ch. */
  ghost predicate Moves(k: Kernel, k': Kernel, ch: ChannelId, id: Pid, call: Call, st: Status) {
    if call.SendCall? && call.ch == ch && st == Ok then Sent(k, k', ch, call.message)
    else if call.SendCall? && call.ch == ch && st == Pending then Joined(k, k', ch, call.message, id)
    else Quiet(k, k', ch) || exists n :: Admits(k, k', ch, n)
  }

  lemma SendersAre(k: Kernel, ch: ChannelId, id: Pid)
    requires Inv(k) && id < |k.procs| && k.procs[id].state == Running
    ensures var l := Waiters(k, OnSend(ch)); NoDup(l) && forall i :: i in l ==> i < |k.procs| && i != id
  {
    assert ListOk(k, {}, OnSend(ch));
  }

  lemma SendMoves(k: Kernel, ch: ChannelId, message: Message, timeout: nat, id: Pid)
    requires Inv(k) && IsProc(k, id) && k.procs[id].state == Running && ch in k.channels
    ensures var r := Send(k, ch, message, timeout, id); Moves(k, r.k, ch, id, SendCall(ch, message, timeout), r.st)
  {
    hide Inv, Send, Framed, Exact, SendWaits, NoneAbove, MostUrgent, SentNow, StartedWait, Touched, Sent, Joined,
         Quiet, Admits;
    SendersAre(k, ch, id);
    var r := SendOk(k, ch, message, timeout, id);
    if r.st == Ok {
      SentMoves(k, r.k, ch, message);
    } else if r.st == Pending {
      StartedMoves(k, r, ch, message, TickAfter(k, timeout).1, id);
    } else {
      TouchedMoves(k, r.k, ch, id);
    }
  }

  lemma SentMoves(k: Kernel, k': Kernel, ch: ChannelId, message: Message)
    requires ch in k.channels && SentNow(k, k', ch, message)
    ensures Sent(k, k', ch, message)
  {
    if Waiters(k, OnReceive(ch)) != [] {
      var n :| ServedBy(k, k', ch, n, message);
      assert Contents(k'.channels[ch].delivered) == Contents(k.channels[ch].delivered) + [message];
    }
  }

  lemma StartedMoves(k: Kernel, r: Sel, ch: ChannelId, message: Message, wake: nat, id: Pid)
    requires ch in k.channels && StartedWait(k, r, id, OnSend(ch), wake, SendOp(ch, message))
    requires k.procs[id].state == Running && forall i :: i in Waiters(k, OnSend(ch)) ==> i < |k.procs| && i != id
    ensures Joined(k, r.k, ch, message, id)
  {
    hide NoneAbove;
    assert r.k.procs[id].op == SendOp(ch, message);
    forall i | i in Waiters(k, OnSend(ch)) ensures MessageOf(r.k, i) == MessageOf(k, i) {}
  }

  lemma TouchedMoves(k: Kernel, k': Kernel, ch: ChannelId, id: Pid)
    requires Touched(k, k', id) && ch in k.channels && id !in Waiters(k, OnSend(ch))
    ensures Quiet(k, k', ch)
  {
    forall i | i in Waiters(k, OnSend(ch)) ensures MessageOf(k', i) == MessageOf(k, i) {}
  }

  lemma ReceiveMoves(k: Kernel, ch: ChannelId, size: nat, timeout: nat, id: Pid)
    requires Inv(k) && IsProc(k, id) && k.procs[id].state == Running && ch in k.channels
    ensures var r := Receive(k, ch, size, timeout, id); Moves(k, r.k, ch, id, ReceiveCall(ch, size, timeout), r.st)
  {
    hide NoDup, Inv, Receive, Framed, Exact, ReceiveWaits, AdmittedFrom, StartedWait, Touched, Sent, Joined, Quiet,
         Admits;
    SendersAre(k, ch, id);
    var l := Waiters(k, OnSend(ch));
    var r := ReceiveOk(k, ch, size, timeout, id);
    if r.st == Ok {
      if l == [] {
        PoppedMoves(k, r.k, ch, id);
      } else {
        var n :| AdmittedFrom(k, r.k, ch, id, n);
        AdmittedMoves(k, r.k, ch, id, n);
      }
    } else if r.st == Pending {
      StartedReceiveMoves(k, r, ch, size, TickAfter(k, timeout).1, id);
    } else {
      TouchedMoves(k, r.k, ch, id);
    }
  }

  lemma PoppedMoves(k: Kernel, k': Kernel, ch: ChannelId, id: Pid)
    requires ch in k.channels && k.channels[ch].ring != []
             && k' == k.(channels := k.channels[ch := Popped(k.channels[ch], id)])
    ensures Quiet(k, k', ch)
  {
    PoppedContents(k.channels[ch], id);
    assert k.channels[ch].ring == [k.channels[ch].ring[0]] + k.channels[ch].ring[1..];
    assert Waiters(k', OnSend(ch)) == Waiters(k, OnSend(ch));
    forall i | i in Waiters(k, OnSend(ch)) ensures MessageOf(k', i) == MessageOf(k, i) {}
  }

  lemma AdmittedMoves(k: Kernel, k': Kernel, ch: ChannelId, id: Pid, n: Pid)
    requires ch in k.channels && k.channels[ch].ring != [] && NoDup(Waiters(k, OnSend(ch)))
             && AdmittedFrom(k, k', ch, id, n)
    ensures Admits(k, k', ch, n)
  {
    hide MostUrgent;
    var c := k.channels[ch];
    PoppedContents(c, id);
    assert c.ring == [c.ring[0]] + c.ring[1..];
    assert Stored(k', ch) == (Contents(c.delivered) + [c.ring[0]]) + (c.ring[1..] + [MessageOf(k, n)]);
    RemoveFacts(Waiters(k, OnSend(ch)), n);
    forall i | i in Waiters(k', OnSend(ch)) ensures MessageOf(k', i) == MessageOf(k, i) {}
  }

  lemma StartedReceiveMoves(k: Kernel, r: Sel, ch: ChannelId, size: nat, wake: nat, id: Pid)
    requires ch in k.channels && StartedWait(k, r, id, OnReceive(ch), wake, ReceiveOp(ch, size))
    requires k.procs[id].state == Running && forall i :: i in Waiters(k, OnSend(ch)) ==> i < |k.procs| && i != id
    ensures Quiet(k, r.k, ch)
  {
    hide NoneAbove;
    forall i | i in Waiters(k, OnSend(ch)) ensures MessageOf(r.k, i) == MessageOf(k, i) {}
  }

  /** A call about something else: waiting senders are not woken, so they hold what they held. */
  lemma ElsewhereMoves(k: Kernel, k': Kernel, id: Pid, call: Call, ch: ChannelId)
    requires Inv(k) && Inv(k') && Framed(k, k', id) && OnlyAbout(k, k', call) && !Concerns(call, OnSend(ch))
    requires id < |k.procs| && k.procs[id].state == Running && ch in k.channels
    ensures Quiet(k, k', ch)
  {
    forall i | i in Waiters(k, OnSend(ch)) ensures MessageOf(k', i) == MessageOf(k, i) {
      assert ListOk(k, {}, OnSend(ch)) && ListOk(k', {}, OnSend(ch));
      assert Spared(k.procs[i], k'.procs[i]);
    }
  }

  /** The states look the same from channel ch. */
  ghost predicate SameView(s: Kernel, r: Kernel, ch: ChannelId) {
    && Waiters(r, OnSend(ch)) == Waiters(s, OnSend(ch)) && r.channels == s.channels
    && forall i: Pid :: MessageOf(r, i) == MessageOf(s, i)
  }

  lemma SoftView(s: Kernel, r: Kernel, ch: ChannelId)
    requires Soft(s, r)
    ensures SameView(s, r, ch)
  {
    forall i: Pid ensures MessageOf(r, i) == MessageOf(s, i) {
      if i < |s.procs| { assert Gentle(s.procs[i], r.procs[i]); }
    }
  }

  lemma HoldersView(k: Kernel, s: Kernel, r: Kernel, ch: ChannelId)
    requires SameHolders(k, s, ch) && SameView(s, r, ch)
    ensures SameHolders(k, r, ch) && Stored(r, ch) == Stored(s, ch)
  {
    hide MessageOf, SameTerms, Contents;
  }

  lemma SoftMoves(k: Kernel, s: Kernel, r: Kernel, ch: ChannelId, id: Pid, call: Call, st: Status)
    requires Moves(k, s, ch, id, call, st) && Soft(s, r)
    ensures Moves(k, r, ch, id, call, st)
  {
    hide Soft, MessageOf, SameHolders, Stored;
    SoftView(s, r, ch);
    assert SameHolders(k, s, ch);
    HoldersView(k, s, r, ch);
    if n :| Admits(k, s, ch, n) { assert Admits(k, r, ch, n); }
  }

  lemma ServeMoves(k: Kernel, id: Pid, call: Call, ch: ChannelId)
    requires Inv(k) && IsProc(k, id) && k.procs[id].state == Running && ch in k.channels
    ensures var s := Serve(k, id, call); Moves(k, s.k, ch, id, call, s.st)
  {
    hide Inv, Moves, Lock, Unlock, SemWait, SemSignal, Send, Receive, TimedWait, PeriodicWait, Yield;
    if call.SendCall? && call.ch == ch {
      SendMoves(k, ch, call.message, call.timeout, id);
    } else if call.ReceiveCall? && call.ch == ch {
      ReceiveMoves(k, ch, call.size, call.timeout, id);
    } else {
      OtherMoves(k, id, call, ch);
    }
  }

  lemma OtherMoves(k: Kernel, id: Pid, call: Call, ch: ChannelId)
    requires Inv(k) && IsProc(k, id) && k.procs[id].state == Running && ch in k.channels && !Concerns(call, OnSend(ch))
    ensures var s := Serve(k, id, call); Moves(k, s.k, ch, id, call, s.st)
  {
    hide Inv, Serve, Safe, Exact, LosesInheritance, Framed, OnlyAbout, Quiet;
    ServeOk(k, id, call);
    ServeOnly(k, id, call);
    ElsewhereMoves(k, Serve(k, id, call).k, id, call, ch);
  }

  lemma GateMoves(k: Kernel, id: Pid, call: Call, ch: ChannelId)
    requires Inv(k) && Legal(k, Svc(id, call)) && ch in k.channels
    ensures var r := Gate(k, id, call); Moves(k, r.k, ch, id, call, r.st)
  {
    hide Inv, Serve, Safe, Exact, LosesInheritance, Framed, Moves, Gate, Soft, ReleaseKept, OpHonest, SameTimes;
    ServeMoves(k, id, call, ch);
    var r := GateOk(k, id, call);
    if !call.YieldCall? { SoftMoves(k, Serve(k, id, call).k, r.k, ch, id, call, r.st); }
  }

  // ---------------------------------------------------------------- one event in the ledger

  lemma {:induction false} WithoutSame(l: seq<Pid>, a: set<Pid>, b: set<Pid>)
    requires forall i :: i in l ==> (i in a <==> i in b)
    ensures Without(l, a) == Without(l, b)
  {
    if l != [] { WithoutSame(l[1..], a, b); }
  }

  lemma {:induction false} WithoutLast(l: seq<Pid>, id: Pid, gone: set<Pid>)
    ensures Without(l + [id], gone) == Without(l, gone) + if id in gone then [] else [id]
  {
    if l == [] {
      assert l + [id] == [id];
    } else {
      WithoutLast(l[1..], id, gone);
      assert (l + [id])[1..] == l[1..] + [id];
    }
  }

  /** The same messages, held by the same processes. */
  lemma HeldSame(k: Kernel, k': Kernel, l: seq<Pid>)
    requires forall i :: i in l ==> MessageOf(k', i) == MessageOf(k, i)
    ensures Messages(k', l) == Messages(k, l)
  {
  }

  lemma MessagesCons(k: Kernel, i: Pid, l: seq<Pid>)
    ensures Messages(k, [i] + l) == [MessageOf(k, i)] + Messages(k, l)
  {
  }

  lemma WithoutCons(l: seq<Pid>, gone: set<Pid>)
    requires l != []
    ensures Without(l, gone) == (if l[0] in gone then [] else [l[0]]) + Without(l[1..], gone)
  {
  }

  lemma RemoveCons(l: seq<Pid>, n: Pid)
    requires l != []
    ensures l[0] == n ==> Remove(l, n) == l[1..]
    ensures l[0] != n ==> Remove(l, n) != [] && Remove(l, n)[0] == l[0] && Remove(l, n)[1..] == Remove(l[1..], n)
  {
  }

  /** Taking a process that stays off the list takes out its message, the first one if it was
      first. */
  lemma {:induction false} HeldSplit(k: Kernel, l: seq<Pid>, n: Pid, gone: set<Pid>)
    requires NoDup(l) && n in l && n !in gone
    ensures multiset(Messages(k, Without(l, gone))) ==
            multiset([MessageOf(k, n)] + Messages(k, Without(Remove(l, n), gone)))
    ensures n == l[0] ==> Messages(k, Without(l, gone)) == [MessageOf(k, n)] + Messages(k, Without(Remove(l, n), gone))
  {
    hide Messages, MessageOf, Without, Remove;
    var rest := Without(l[1..], gone);
    WithoutCons(l, gone);
    RemoveCons(l, n);
    if l[0] == n {
      MessagesCons(k, n, rest);
    } else {
      HeldSplit(k, l[1..], n, gone);
      WithoutCons(Remove(l, n), gone);
      var less := Without(Remove(l[1..], n), gone);
      if l[0] in gone {
        assert [] + rest == rest && [] + less == less;
      } else {
        MessagesCons(k, l[0], rest);
        MessagesCons(k, l[0], less);
      }
    }
  }

  /** What an event leaves of the senders that wait: who gives up later in the run, before and
      after the event. */
  lemma WithdrawingStep(sys: System, k: Kernel, es: seq<Event>, ch: ChannelId, i: Pid)
    requires es != [] && i in Waiters(k, OnSend(ch))
    ensures i in Withdrawing(sys, k, es, ch) <==>
            GivesUp(sys, k, es[0], i) || i in Withdrawing(sys, Step(sys, k, es[0]), es[1..], ch)
  {
    hide GivesUp, Step;
  }

  /** A tick or a fault takes off exactly the senders that give up in it. */
  lemma QuietKeeps(sys: System, k: Kernel, es: seq<Event>, ch: ChannelId)
    requires es != [] && Inv(k) && InTable(sys, |k.current|) && Legal(k, es[0]) && !es[0].Svc? && ch in k.channels
    ensures ch in Step(sys, k, es[0]).channels && SameTerms(k.channels[ch], Step(sys, k, es[0]).channels[ch])
    ensures Lasting(sys, k, es, ch) == Lasting(sys, Step(sys, k, es[0]), es[1..], ch) && KeptAt(sys, k, es, ch) == []
  {
    var e, r, h := es[0], Step(sys, k, es[0]), OnSend(ch);
    var l, gone, later := Waiters(k, h), Leavers(sys, k, e), Withdrawing(sys, r, es[1..], ch);
    hide Inv, InTable, Legal, Step, Leavers, Withdrawing, Without, GivesUp, StillWaiting;
    QuietLists(sys, k, e, h);
    WithoutTwice(l, gone, later);
    forall i | i in l ensures i in Withdrawing(sys, k, es, ch) <==> i in gone + later {
      WithdrawingStep(sys, k, es, ch, i);
      LeaversGiveUp(sys, k, e, h, i);
    }
    WithoutSame(l, Withdrawing(sys, k, es, ch), gone + later);
    var stay := Without(l, gone + later);
    forall i | i in stay ensures MessageOf(r, i) == MessageOf(k, i) {
      WithoutIn(l, gone + later, i);
      LeaversGiveUp(sys, k, e, h, i);
      StillHolds(k, r, i);
    }
    HeldSame(k, r, stay);
  }

  lemma StillHolds(k: Kernel, r: Kernel, i: Pid)
    requires i < |k.procs| && i < |r.procs| && StillWaiting(k.procs[i], r.procs[i])
    ensures MessageOf(r, i) == MessageOf(k, i)
  {
  }

  /** A call keeps every sender that was waiting, and stores or queues what it adds. */
  lemma CallKeeps(sys: System, k: Kernel, es: seq<Event>, ch: ChannelId)
    requires es != [] && Inv(k) && Legal(k, es[0]) && es[0].Svc? && ch in k.channels
    ensures ch in Step(sys, k, es[0]).channels && SameTerms(k.channels[ch], Step(sys, k, es[0]).channels[ch])
    ensures var before := Lasting(sys, k, es, ch) + KeptAt(sys, k, es, ch);
            var after := Lasting(sys, Step(sys, k, es[0]), es[1..], ch);
            (k.channels[ch].discipline == Fifo ==> before == after) && multiset(before) == multiset(after)
  {
    hide *;
    var id, call, k' := es[0].id, es[0].call, Step(sys, k, es[0]);
    var st := Gate(k, id, call).st;
    CallMoves(sys, k, es, ch);
    CallKeepsSenders(sys, k, es, ch);
    var now, later := Withdrawing(sys, k, es, ch), Withdrawing(sys, k', es[1..], ch);
    if call.SendCall? && call.ch == ch && st == Pending {
      MovesJoins(k, k', ch, id, call, st);
      JoinedWithdraws(sys, k, k', es[1..], ch, call.message, id);
    }
    forall n | Admits(k, k', ch, n) ensures n !in later { AdmittedStays(sys, k, k', es[1..], ch, n); }
    MovesKeep(k, k', ch, id, call, st, now, later, Withdraws(sys, k', es[1..], ch, id));
    CallLasting(sys, k, es, ch);
  }

  lemma CallMoves(sys: System, k: Kernel, es: seq<Event>, ch: ChannelId)
    requires es != [] && Inv(k) && Legal(k, es[0]) && es[0].Svc? && ch in k.channels
    ensures Step(sys, k, es[0]) == Gate(k, es[0].id, es[0].call).k
    ensures Moves(k, Step(sys, k, es[0]), ch, es[0].id, es[0].call, Gate(k, es[0].id, es[0].call).st)
  {
    hide Inv, Gate, Moves;
    GateMoves(k, es[0].id, es[0].call, ch);
  }

  /** What lasts and what is kept, spelled out for a call. */
  lemma CallLasting(sys: System, k: Kernel, es: seq<Event>, ch: ChannelId)
    requires es != [] && es[0].Svc? && ch in k.channels && ch in Step(sys, k, es[0]).channels
    ensures var k', st := Step(sys, k, es[0]), Gate(k, es[0].id, es[0].call).st;
            && Lasting(sys, k, es, ch) ==
               Stored(k, ch) + Messages(k, Without(Waiters(k, OnSend(ch)), Withdrawing(sys, k, es, ch)))
            && Lasting(sys, k', es[1..], ch) ==
               Stored(k', ch) + Messages(k', Without(Waiters(k', OnSend(ch)), Withdrawing(sys, k', es[1..], ch)))
            && KeptAt(sys, k, es, ch) ==
               if es[0].call.SendCall? && es[0].call.ch == ch
                  && (st == Ok || (st == Pending && !Withdraws(sys, k', es[1..], ch, es[0].id)))
               then [es[0].call.message] else []
  {
    hide Gate, Withdrawing, Withdraws, Step, Without, Messages, Stored;
  }

  lemma MovesJoins(k: Kernel, r: Kernel, ch: ChannelId, id: Pid, call: Call, st: Status)
    requires Moves(k, r, ch, id, call, st) && call.SendCall? && call.ch == ch && st == Pending
    ensures Joined(k, r, ch, call.message, id)
  {
  }

  /** ... whatever becomes of the senders in `later`; w tells whether the caller is one of them. */
  lemma MovesKeep(k: Kernel, r: Kernel, ch: ChannelId, id: Pid, call: Call, st: Status, now: set<Pid>, later: set<Pid>,
      w: bool)
    requires ch in k.channels && Moves(k, r, ch, id, call, st) && NoDup(Waiters(k, OnSend(ch)))
    requires Without(Waiters(k, OnSend(ch)), now) == Without(Waiters(k, OnSend(ch)), later)
    requires forall n :: Admits(k, r, ch, n) ==> n !in later
    requires call.SendCall? && call.ch == ch && st == Pending ==> (id in later <==> w)
    ensures ch in r.channels && SameTerms(k.channels[ch], r.channels[ch])
    ensures var kept := if call.SendCall? && call.ch == ch && (st == Ok || (st == Pending && !w)) then [call.message]
                        else [];
            var before := Stored(k, ch) + Messages(k, Without(Waiters(k, OnSend(ch)), now)) + kept;
            var after := Stored(r, ch) + Messages(r, Without(Waiters(r, OnSend(ch)), later));
            (k.channels[ch].discipline == Fifo ==> before == after) && multiset(before) == multiset(after)
  {
    hide Without, Quiet, Sent, Joined, Admits, NoDup, Messages, Stored;
    MovesTerms(k, r, ch, id, call, st);
    if call.SendCall? && call.ch == ch && st == Ok {
      SentKeeps(k, r, ch, call.message, now, later);
    } else if call.SendCall? && call.ch == ch && st == Pending {
      JoinedKeeps(k, r, ch, call.message, id, later);
    } else if Quiet(k, r, ch) {
      QuietHolds(k, r, ch, later);
    } else {
      var n :| Admits(k, r, ch, n);
      AdmitsKeeps(k, r, ch, n, later);
    }
  }

  lemma MovesTerms(k: Kernel, r: Kernel, ch: ChannelId, id: Pid, call: Call, st: Status)
    requires Moves(k, r, ch, id, call, st)
    ensures ch in k.channels && ch in r.channels && SameTerms(k.channels[ch], r.channels[ch])
  {
  }

  /** Nobody gives up in a call. */
  lemma CallKeepsSenders(sys: System, k: Kernel, es: seq<Event>, ch: ChannelId)
    requires es != [] && Inv(k) && Legal(k, es[0]) && es[0].Svc?
    ensures NoDup(Waiters(k, OnSend(ch)))
    ensures var l := Waiters(k, OnSend(ch));
            Without(l, Withdrawing(sys, k, es, ch)) ==
            Without(l, Withdrawing(sys, Step(sys, k, es[0]), es[1..], ch))
  {
    hide Step, Withdrawing, Without;
    var l := Waiters(k, OnSend(ch));
    assert NoDup(l) by { assert ListOk(k, {}, OnSend(ch)); }
    var now, later := Withdrawing(sys, k, es, ch), Withdrawing(sys, Step(sys, k, es[0]), es[1..], ch);
    forall i | i in l ensures i in now <==> i in later {
      WaiterIs(k, OnSend(ch), i);
      CallsAreKind(sys, k, es[0], i);
      WithdrawingStep(sys, k, es, ch, i);
    }
    WithoutSame(l, now, later);
  }

  lemma SentKeeps(k: Kernel, r: Kernel, ch: ChannelId, message: Message, now: set<Pid>, later: set<Pid>)
    requires Sent(k, r, ch, message)
    ensures Stored(k, ch) + Messages(k, Without(Waiters(k, OnSend(ch)), now)) + [message]
         == Stored(r, ch) + Messages(r, Without(Waiters(r, OnSend(ch)), later))
  {
  }

  lemma JoinedWithdraws(sys: System, k: Kernel, r: Kernel, es: seq<Event>, ch: ChannelId, message: Message, id: Pid)
    requires Joined(k, r, ch, message, id)
    ensures id in Withdrawing(sys, r, es, ch) <==> Withdraws(sys, r, es, ch, id)
  {
    hide Withdraws;
    assert (Waiters(k, OnSend(ch)) + [id])[|Waiters(k, OnSend(ch))|] == id;
  }

  lemma JoinedKeeps(k: Kernel, r: Kernel, ch: ChannelId, message: Message, id: Pid, later: set<Pid>)
    requires Joined(k, r, ch, message, id)
    ensures Stored(k, ch) + Messages(k, Without(Waiters(k, OnSend(ch)), later))
            + (if id in later then [] else [message])
         == Stored(r, ch) + Messages(r, Without(Waiters(r, OnSend(ch)), later))
  {
    var l := Waiters(k, OnSend(ch));
    hide Messages, MessageOf, Without;
    WithoutLast(l, id, later);
    var stay := Without(l, later);
    forall i | i in stay ensures MessageOf(r, i) == MessageOf(k, i) { WithoutIn(l, later, i); }
    HeldSame(k, r, stay);
    if id in later { assert stay + [] == stay; } else { MessagesLast(r, stay, id); }
  }

  lemma MessagesLast(k: Kernel, l: seq<Pid>, i: Pid)
    ensures Messages(k, l + [i]) == Messages(k, l) + [MessageOf(k, i)]
  {
  }

  lemma QuietHolds(k: Kernel, r: Kernel, ch: ChannelId, later: set<Pid>)
    requires Quiet(k, r, ch)
    ensures Stored(k, ch) + Messages(k, Without(Waiters(k, OnSend(ch)), later)) + []
         == Stored(r, ch) + Messages(r, Without(Waiters(r, OnSend(ch)), later))
  {
    var l := Waiters(k, OnSend(ch));
    hide Messages, MessageOf, Without;
    var stay := Without(l, later);
    forall i | i in stay ensures MessageOf(r, i) == MessageOf(k, i) { WithoutIn(l, later, i); }
    HeldSame(k, r, stay);
  }

  lemma AdmittedStays(sys: System, k: Kernel, r: Kernel, es: seq<Event>, ch: ChannelId, n: Pid)
    requires Admits(k, r, ch, n) && NoDup(Waiters(k, OnSend(ch)))
    ensures n !in Withdrawing(sys, r, es, ch)
  {
    hide Withdraws;
    RemoveFacts(Waiters(k, OnSend(ch)), n);
  }

  lemma AdmitsKeeps(k: Kernel, r: Kernel, ch: ChannelId, n: Pid, later: set<Pid>)
    requires Admits(k, r, ch, n) && NoDup(Waiters(k, OnSend(ch))) && n !in later
    ensures var before := Stored(k, ch) + Messages(k, Without(Waiters(k, OnSend(ch)), later)) + [];
            var after := Stored(r, ch) + Messages(r, Without(Waiters(r, OnSend(ch)), later));
            (k.channels[ch].discipline == Fifo ==> before == after) && multiset(before) == multiset(after)
  {
    var l := Waiters(k, OnSend(ch));
    hide Messages, MessageOf, Without, Remove;
    RemoveFacts(l, n);
    var stay := Without(Remove(l, n), later);
    forall i | i in stay ensures MessageOf(r, i) == MessageOf(k, i) { WithoutIn(Remove(l, n), later, i); }
    HeldSame(k, r, stay);
    HeldSplit(k, l, n, later);
    hide Admits, Stored;
    assert Stored(k, ch) + ([MessageOf(k, n)] + Messages(k, stay)) == Stored(k, ch) + [MessageOf(k, n)]
           + Messages(k, stay);
  }

  // ---------------------------------------------------------------- over whole runs

  /** One event: what lasts before it, with what it adds for good, is what lasts after it. */
  lemma EventKeeps(sys: System, k: Kernel, es: seq<Event>, ch: ChannelId)
    requires es != [] && Inv(k) && InTable(sys, |k.current|) && Legal(k, es[0]) && ch in k.channels
    ensures ch in Step(sys, k, es[0]).channels && SameTerms(k.channels[ch], Step(sys, k, es[0]).channels[ch])
    ensures var before := Lasting(sys, k, es, ch) + KeptAt(sys, k, es, ch);
            var after := Lasting(sys, Step(sys, k, es[0]), es[1..], ch);
            (k.channels[ch].discipline == Fifo ==> before == after) && multiset(before) == multiset(after)
  {
    hide Inv, InTable, Legal, Step, Lasting, KeptAt, SameTerms;
    if es[0].Svc? {
      CallKeeps(sys, k, es, ch);
    } else {
      QuietKeeps(sys, k, es, ch);
      assert Lasting(sys, k, es, ch) + [] == Lasting(sys, k, es, ch);
    }
  }

  lemma KeptStarts(sys: System, k: Kernel, es: seq<Event>, ch: ChannelId)
    ensures es == [] ==> Run(sys, k, es) == k && Kept(sys, k, es, ch) == []
    ensures es == [] && ch in k.channels ==> Lasting(sys, k, es, ch) == Carried(k, ch)
    ensures es != [] ==> Run(sys, k, es) == Run(sys, Step(sys, k, es[0]), es[1..])
    ensures es != [] ==> Kept(sys, k, es, ch) == KeptAt(sys, k, es, ch) + Kept(sys, Step(sys, k, es[0]), es[1..], ch)
    ensures es != [] && LegalRun(sys, k, es) ==> Legal(k, es[0]) && LegalRun(sys, Step(sys, k, es[0]), es[1..])
  {
    hide Step, KeptAt, Legal, Withdraws;
    if es == [] {
      NobodyLater(sys, k, ch);
      assert Withdrawing(sys, k, es, ch) == {};
      WithoutNone(Waiters(k, OnSend(ch)));
    }
  }

  lemma NobodyLater(sys: System, k: Kernel, ch: ChannelId)
    ensures forall i :: !Withdraws(sys, k, [], ch, i)
  {
  }

  /** Conservation over any run and under either discipline: what was delivered, what is in the
      ring and what waiting senders hold is what was there before the run, and every message
      the run accepted, without exactly the messages of the senders that gave up. In a FIFO
      channel the order is that of the calls. */
  lemma {:induction false} RunCarries(sys: System, k: Kernel, es: seq<Event>, ch: ChannelId)
    requires Inv(k) && InTable(sys, |k.current|) && LegalRun(sys, k, es) && ch in k.channels
    ensures var r := Run(sys, k, es); var all := Lasting(sys, k, es, ch) + Kept(sys, k, es, ch);
            && ch in r.channels && SameTerms(k.channels[ch], r.channels[ch])
            && multiset(Carried(r, ch)) == multiset(all)
            && (k.channels[ch].discipline == Fifo ==> Carried(r, ch) == all)
    decreases |es|
  {
    hide Inv, InTable, Legal, LegalRun, Step, Exact, Run, Carried, Kept, KeptAt, Lasting;
    KeptStarts(sys, k, es, ch);
    if es == [] {
      assert Lasting(sys, k, es, ch) + [] == Carried(k, ch);
    } else {
      var k' := Step(sys, k, es[0]);
      StepOk(sys, k, es[0]);
      EventKeeps(sys, k, es, ch);
      RunCarries(sys, k', es[1..], ch);
      var here, rest := KeptAt(sys, k, es, ch), Kept(sys, k', es[1..], ch);
      assert Lasting(sys, k, es, ch) + (here + rest) == (Lasting(sys, k, es, ch) + here) + rest;
    }
  }

  /** The messages of all accepted or waiting sends of the run, in call order. */
  function Entrusted(sys: System, k: Kernel, es: seq<Event>, ch: ChannelId): seq<Message>
    decreases |es|
  {
    if es == [] then []
    else
      (if SendStatus(k, es[0], ch) in {Some(Ok), Some(Pending)} then [es[0].call.message] else [])
      + Entrusted(sys, Step(sys, k, es[0]), es[1..], ch)
  }

  /** Every sender that starts to wait on ch in the run gets through, or still waits at its end. */
  ghost predicate AllGetThrough(sys: System, k: Kernel, es: seq<Event>, ch: ChannelId)
    decreases |es|
  {
    es == [] ||
    (&& (SendStatus(k, es[0], ch) == Some(Pending) ==> !Withdraws(sys, Step(sys, k, es[0]), es[1..], ch, es[0].id))
     && AllGetThrough(sys, Step(sys, k, es[0]), es[1..], ch))
  }

  lemma {:induction false} KeptOrNot(sys: System, k: Kernel, es: seq<Event>, ch: ChannelId)
    ensures |Kept(sys, k, es, ch)| <= |Entrusted(sys, k, es, ch)|
    ensures AllGetThrough(sys, k, es, ch) ==> Kept(sys, k, es, ch) == Entrusted(sys, k, es, ch)
    ensures !AllGetThrough(sys, k, es, ch) ==> |Kept(sys, k, es, ch)| < |Entrusted(sys, k, es, ch)|
    decreases |es|
  {
    hide Step, Withdraws, SendStatus;
    if es != [] { KeptOrNot(sys, Step(sys, k, es[0]), es[1..], ch); }
  }

  lemma {:induction false} WithoutSize(l: seq<Pid>, gone: set<Pid>)
    ensures |Without(l, gone)| <= |l|
    ensures (exists i :: i in l && i in gone) ==> |Without(l, gone)| < |l|
  {
    if l != [] {
      WithoutSize(l[1..], gone);
      if i :| i in l && i in gone { assert i == l[0] || i in l[1..]; }
    }
  }

  lemma LastingOrNot(sys: System, k: Kernel, es: seq<Event>, ch: ChannelId)
    requires ch in k.channels
    ensures Withdrawing(sys, k, es, ch) == {} ==> Lasting(sys, k, es, ch) == Carried(k, ch)
    ensures Withdrawing(sys, k, es, ch) != {} ==> |Lasting(sys, k, es, ch)| < |Carried(k, ch)|
    ensures |Lasting(sys, k, es, ch)| <= |Carried(k, ch)|
  {
    hide Withdraws;
    var l, gone := Waiters(k, OnSend(ch)), Withdrawing(sys, k, es, ch);
    WithoutSize(l, gone);
    if gone == {} {
      WithoutNone(l);
    } else {
      var i :| i in gone;
      assert i in l && i in gone;
    }
  }

  /** A FIFO channel carries what it carried and everything entrusted to it since, in call
      order, exactly when no sender gives up. */
  lemma RunCarriesAll(sys: System, k: Kernel, es: seq<Event>, ch: ChannelId)
    requires Inv(k) && InTable(sys, |k.current|) && LegalRun(sys, k, es) && ch in k.channels
             && k.channels[ch].discipline == Fifo
    ensures ch in Run(sys, k, es).channels
    ensures Carried(Run(sys, k, es), ch) == Carried(k, ch) + Entrusted(sys, k, es, ch) <==>
            Withdrawing(sys, k, es, ch) == {} && AllGetThrough(sys, k, es, ch)
  {
    hide Inv, InTable, LegalRun, Run, Carried, Entrusted, Kept, Lasting, Withdrawing, AllGetThrough;
    RunCarries(sys, k, es, ch);
    KeptOrNot(sys, k, es, ch);
    LastingOrNot(sys, k, es, ch);
  }
}

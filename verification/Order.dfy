/** Queue order: who joined the tails of the ready queues, in which order, and that everybody
    else kept its place. */
module Order {
  import opened Wrappers
  import opened KernelState

  ghost predicate NoDup(s: seq<Pid>) {
    forall a, b :: 0 <= a < b < |s| ==> s[a] != s[b]
  }

  // ---------------------------------------------------------------- lists with members left out

  /** The list without the members of `gone`, in the same order. */
  function Without(l: seq<Pid>, gone: set<Pid>): seq<Pid> {
    if l == [] then []
    else if l[0] in gone then Without(l[1..], gone)
    else [l[0]] + Without(l[1..], gone)
  }

  lemma {:induction false} WithoutRemoved(l: seq<Pid>, x: Pid, gone: set<Pid>)
    requires NoDup(l)
    ensures Without(Remove(l, x), gone) == Without(l, gone + {x})
  {
    if l != [] {
      if l[0] == x {
        WithoutAbsent(l[1..], x, gone);
      } else {
        WithoutRemoved(l[1..], x, gone);
        assert Remove(l, x)[1..] == Remove(l[1..], x);
      }
    }
  }

  lemma {:induction false} WithoutAbsent(l: seq<Pid>, x: Pid, gone: set<Pid>)
    requires x !in l
    ensures Without(l, gone + {x}) == Without(l, gone)
  {
    if l != [] { WithoutAbsent(l[1..], x, gone); }
  }

  lemma {:induction false} WithoutTwice(l: seq<Pid>, a: set<Pid>, b: set<Pid>)
    ensures Without(Without(l, a), b) == Without(l, a + b)
  {
    if l != [] { WithoutTwice(l[1..], a, b); }
  }

  lemma {:induction false} WithoutNone(l: seq<Pid>)
    ensures Without(l, {}) == l
  {
    if l != [] { WithoutNone(l[1..]); }
  }

  lemma {:induction false} WithoutJoined(a: seq<Pid>, b: seq<Pid>, gone: set<Pid>)
    ensures Without(a + b, gone) == Without(a, gone) + Without(b, gone)
  {
    if a == [] {
      assert a + b == b;
    } else {
      assert (a + b)[1..] == a[1..] + b;
      WithoutJoined(a[1..], b, gone);
    }
  }

  lemma {:induction false} WithoutStrangers(l: seq<Pid>, gone: set<Pid>)
    requires forall x :: x in l ==> x !in gone
    ensures Without(l, gone) == l
  {
    if l != [] { WithoutStrangers(l[1..], gone); }
  }

  /** Taking one process off a list that holds it once. */
  lemma WithoutOne(l: seq<Pid>, x: Pid)
    requires NoDup(l)
    ensures Without(l, {x}) == Remove(l, x)
  {
    WithoutRemoved(l, x, {});
    WithoutNone(Remove(l, x));
    assert {} + {x} == {x};
  }

  // ---------------------------------------------------------------- arrivals

  /** The queue a process belongs in, if it is READY. */
  function PlaceOf(k: Kernel, x: Pid): Option<Slot> {
    if x < |k.procs| && k.procs[x].state == Ready then Some(Slot(k.procs[x].partition, k.procs[x].priority)) else None
  }

  /** Those of a list of arrivals that belong in queue s; who arrives twice counts where it
      arrives last. */
  ghost function Landed(k: Kernel, s: Slot, arrivals: seq<Pid>): seq<Pid> {
    if arrivals == [] then []
    else
      (if PlaceOf(k, arrivals[0]) == Some(s) && arrivals[0] !in arrivals[1..] then [arrivals[0]] else [])
      + Landed(k, s, arrivals[1..])
  }

  ghost function Elements(l: seq<Pid>): set<Pid> { set x | x in l }

  /** From k to r the arrivals went to the tails of the queues they belong in, in this order;
      everybody else stayed where it was. */
  ghost predicate Moved(k: Kernel, r: Kernel, arrivals: seq<Pid>) {
    && (forall x: Pid :: x !in arrivals ==> PlaceOf(r, x) == PlaceOf(k, x))
    && forall s :: Queue(r, s) == Without(Queue(k, s), Elements(arrivals)) + Landed(r, s, arrivals)
  }

  /** Nobody moved, or all there is to see of it. */
  lemma MovedNobody(k: Kernel, r: Kernel)
    requires |r.procs| == |k.procs| && forall x :: 0 <= x < |k.procs| ==> PlaceOf(r, x) == PlaceOf(k, x)
    ensures (forall s :: Queue(r, s) == Queue(k, s)) <==> Moved(k, r, [])
  {
    assert Elements([]) == {};
    forall s ensures Without(Queue(k, s), {}) + Landed(r, s, []) == Queue(k, s) { WithoutNone(Queue(k, s)); }
  }

  lemma {:induction false} LandedJoined(b: Kernel, c: Kernel, s: Slot, p: seq<Pid>, q: seq<Pid>)
    requires forall x: Pid :: x !in q ==> PlaceOf(c, x) == PlaceOf(b, x)
    ensures Landed(c, s, p + q) == Without(Landed(b, s, p), Elements(q)) + Landed(c, s, q)
  {
    hide PlaceOf;
    if p == [] {
      assert p + q == q;
    } else {
      assert (p + q)[1..] == p[1..] + q;
      LandedJoined(b, c, s, p[1..], q);
      var h := if PlaceOf(b, p[0]) == Some(s) && p[0] !in p[1..] then [p[0]] else [];
      WithoutJoined(h, Landed(b, s, p[1..]), Elements(q));
    }
  }

  /** One move after the other is one move. */
  lemma MovedTrans(a: Kernel, b: Kernel, c: Kernel, p: seq<Pid>, q: seq<Pid>)
    requires Moved(a, b, p) && Moved(b, c, q)
    ensures Moved(a, c, p + q)
  {
    assert Elements(p + q) == Elements(p) + Elements(q);
    hide Without, Landed, Elements, PlaceOf, Queue;
    forall s ensures Queue(c, s) == Without(Queue(a, s), Elements(p + q)) + Landed(c, s, p + q) {
      LandedJoined(b, c, s, p, q);
      TwoLegs(Queue(a, s), Landed(b, s, p), Landed(c, s, q), Elements(p), Elements(q));
    }
  }

  lemma TwoLegs(l: seq<Pid>, mid: seq<Pid>, last: seq<Pid>, p: set<Pid>, q: set<Pid>)
    ensures Without(Without(l, p) + mid, q) + last == Without(l, p + q) + (Without(mid, q) + last)
  {
    hide Without;
    WithoutJoined(Without(l, p), mid, q);
    WithoutTwice(l, p, q);
  }

  /** Arriving twice in a row is arriving once. */
  lemma MovedTwice(k: Kernel, r: Kernel, p: seq<Pid>)
    requires Moved(k, r, p + p) && |p| <= 1
    ensures Moved(k, r, p)
  {
    if p != [] {
      var x := p[0];
      assert p + p == [x, x] && p == [x];
      assert Elements([x, x]) == Elements([x]) == {x};
      forall s ensures Landed(r, s, [x, x]) == Landed(r, s, [x]) {
        assert [x, x][1..] == [x] && [x][1..] == [];
      }
    }
  }

  /** What a move looks like from the states around it does not depend on how empty queues are stored. */
  lemma MovedSame(k: Kernel, r: Kernel, r': Kernel, arrivals: seq<Pid>)
    requires Moved(k, r, arrivals) && |r'.procs| == |r.procs| && (forall s :: Queue(r', s) == Queue(r, s))
    requires forall x :: 0 <= x < |r.procs| ==> PlaceOf(r', x) == PlaceOf(r, x)
    ensures Moved(k, r', arrivals)
  {
    assert Elements([]) == {};
    MovedNobody(r, r');
    MovedTrans(k, r, r', arrivals, []);
    assert arrivals + [] == arrivals;
  }

  /** One process leaves its queue, if it was in one, for the tail of another, or of the same. */
  lemma MovedOne(k: Kernel, r: Kernel, x: Pid)
    requires forall y: Pid :: y != x ==> PlaceOf(r, y) == PlaceOf(k, y)
    requires forall s :: NoDup(Queue(k, s))
    requires forall s :: Queue(r, s) == Remove(Queue(k, s), x) + if PlaceOf(r, x) == Some(s) then [x] else []
    ensures Moved(k, r, [x])
  {
    assert Elements([x]) == {x};
    forall s ensures Queue(r, s) == Without(Queue(k, s), {x}) + Landed(r, s, [x]) {
      WithoutOne(Queue(k, s), x);
      assert [x][1..] == [];
    }
  }

  // ---------------------------------------------------------------- ascending order

  /** The members of ids from i up to n, in ascending order. */
  ghost function Ascending(ids: set<Pid>, i: nat, n: nat): seq<Pid>
    decreases n - i
  {
    if i >= n then [] else (if i in ids then [i] else []) + Ascending(ids, i + 1, n)
  }

  lemma {:induction false} AscendingHas(ids: set<Pid>, i: nat, n: nat)
    ensures forall x :: x in Ascending(ids, i, n) <==> x in ids && i <= x < n
    decreases n - i
  {
    if i < n { AscendingHas(ids, i + 1, n); }
  }

  /** Arrivals in ascending order land in ascending order. */
  lemma {:induction false} LandedAscending(k: Kernel, s: Slot, ids: set<Pid>, i: nat, n: nat)
    ensures Landed(k, s, Ascending(ids, i, n)) == Ascending((set x | x in ids && PlaceOf(k, x) == Some(s)), i, n)
    decreases n - i
  {
    if i < n {
      var rest := Ascending(ids, i + 1, n);
      AscendingHas(ids, i + 1, n);
      LandedAscending(k, s, ids, i + 1, n);
      if i in ids { assert ([i] + rest)[1..] == rest; } else { assert [] + rest == rest; }
    }
  }

  /** When processes that were in no queue arrive in ascending order, every queue is what it was
      followed by its arrivals in ascending order. */
  lemma QueuesGrow(k: Kernel, r: Kernel, ids: set<Pid>, n: nat)
    requires Moved(k, r, Ascending(ids, 0, n)) && forall s, x :: x in Queue(k, s) ==> x !in ids
    ensures forall s :: Queue(r, s) == Queue(k, s) + Ascending((set x | x in ids && PlaceOf(r, x) == Some(s)), 0, n)
  {
    AscendingHas(ids, 0, n);
    forall s ensures Queue(r, s) == Queue(k, s) + Ascending((set x | x in ids && PlaceOf(r, x) == Some(s)), 0, n) {
      WithoutStrangers(Queue(k, s), Elements(Ascending(ids, 0, n)));
      LandedAscending(r, s, ids, 0, n);
    }
  }

  lemma {:induction false} AscendingSame(a: set<Pid>, b: set<Pid>, i: nat, n: nat)
    requires forall x: nat :: i <= x < n ==> (x in a <==> x in b)
    ensures Ascending(a, i, n) == Ascending(b, i, n)
    decreases n - i
  {
    if i < n { AscendingSame(a, b, i + 1, n); }
  }
}

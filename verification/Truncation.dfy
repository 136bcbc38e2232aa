/** What the bound on the walk cuts off. A walk without a claim that starts where the trouble
    is never notices its bound; the raising walk of a lock can, when it loses its claim on the
    way, and then leaves raised exactly the processes it had no hops left to visit again. */
module Truncation {
  import opened Wrappers
  import opened Inheritance

  // ---------------------------------------------------------------- coming back to the owner

  /** Following the records from o leads back to it after t hops, and not before. */
  ghost predicate FirstReturn(succ: seq<Option<nat>>, o: nat, t: nat) {
    t >= 1 && Iter(succ, o, t) == Some(o) && forall m: nat :: 1 <= m < t ==> Iter(succ, o, m) != Some(o)
  }

  lemma {:induction false} ReturnsFirst(succ: seq<Option<nat>>, o: nat, n: nat) returns (t: nat)
    requires n >= 1 && Iter(succ, o, n) == Some(o)
    ensures FirstReturn(succ, o, t) && t <= n
  {
    if m: nat :| 1 <= m < n && Iter(succ, o, m) == Some(o) {
      t := ReturnsFirst(succ, o, m);
    } else {
      t := n;
    }
  }

  lemma OneFirstReturn(succ: seq<Option<nat>>, o: nat, t: nat, t': nat)
    requires FirstReturn(succ, o, t) && FirstReturn(succ, o, t')
    ensures t == t'
  {
  }

  /** Before it comes back the path meets nobody twice. */
  lemma NobodyTwice(succ: seq<Option<nat>>, o: nat, t: nat, a: nat, b: nat)
    requires FirstReturn(succ, o, t) && a < b < t
    ensures Iter(succ, o, b).Some? && Iter(succ, o, a) != Iter(succ, o, b)
  {
    IterPrefix(succ, o, b, t);
    IterAdd(succ, o, b, t - b);
    if Iter(succ, o, a) == Iter(succ, o, b) { IterAdd(succ, o, a, t - b); }
  }

  /** The real waits of the owner end before the records lead back to it. */
  ghost predicate FalseReturn(g: Graph, succ: seq<Option<nat>>, o: nat, t: nat) {
    FirstReturn(succ, o, t) && Iter(g.boss, o, t) != Some(o)
  }

  lemma RealEnds(g: Graph, succ: seq<Option<nat>>, owners: set<nat>, o: nat, t: nat, i: nat)
    requires Edges(g, succ, owners) && FalseReturn(g, succ, o, t) && Iter(g.boss, o, i).Some?
    ensures i < t && Iter(succ, o, i) == Iter(g.boss, o, i)
  {
    RealPathAgrees(g, succ, owners, o, i);
    if i >= t {
      IterPrefix(g.boss, o, t, i);
      RealPathAgrees(g, succ, owners, o, t);
    }
  }

  /** A claim is lost exactly when the first return is false and within the bound. */
  lemma LosesAtFirst(g: Graph, succ: seq<Option<nat>>, owners: set<nat>, bound: nat, prio: seq<nat>, o: nat, c: nat)
    requires Edges(g, succ, owners) && o < |prio|
    ensures LosesClaim(g, succ, bound, prio, o, c) <==>
            prio[o] > c && exists t: nat :: t <= bound && FalseReturn(g, succ, o, t)
  {
    if LosesClaim(g, succ, bound, prio, o, c) {
      var n: nat :| 1 <= n <= bound && Iter(succ, o, n) == Some(o) && Iter(g.boss, o, n) != Some(o);
      var t := ReturnsFirst(succ, o, n);
      if Iter(g.boss, o, t) == Some(o) { RealCycleAgrees(g, succ, owners, o, t, n); }
      assert FalseReturn(g, succ, o, t);
    }
  }

  /** Every first return takes one hop for each owner at most. */
  lemma ReturnIsShort(g: Graph, succ: seq<Option<nat>>, owners: set<nat>, o: nat, t: nat)
    requires Edges(g, succ, owners) && o < |succ| && FirstReturn(succ, o, t)
    ensures t <= |owners|
  {
    var s := MetOnTheWay(g, succ, owners, o, t, t);
    SubsetSize(s, owners);
  }

  ghost predicate HopWithin(succ: seq<Option<nat>>, o: nat, n: nat, y: nat) {
    exists m: nat :: 1 <= m <= n && Iter(succ, o, m) == Some(y)
  }

  lemma {:induction false} MetOnTheWay(g: Graph, succ: seq<Option<nat>>, owners: set<nat>, o: nat, t: nat, n: nat)
    returns (s: set<nat>)
    requires Edges(g, succ, owners) && o < |succ| && FirstReturn(succ, o, t) && n <= t
    ensures s <= owners && |s| == n && forall y :: y in s ==> HopWithin(succ, o, n, y)
  {
    if n == 0 {
      s := {};
    } else {
      var s' := MetOnTheWay(g, succ, owners, o, t, n - 1);
      IterPrefix(succ, o, n, t);
      IterPrefix(succ, o, n - 1, n);
      IterInRange(succ, o, n - 1);
      var x := Iter(succ, o, n - 1).value;
      IterNext(succ, o, n - 1, x);
      var y := succ[x].value;
      assert Iter(succ, o, n) == Some(y);
      if y in s' {
        var m: nat :| 1 <= m <= n - 1 && Iter(succ, o, m) == Some(y);
        if n < t { NobodyTwice(succ, o, t, m, n); }
      }
      s := s' + {y};
      forall z | z in s ensures HopWithin(succ, o, n, z) {
        if z != y { var m: nat :| 1 <= m <= n - 1 && Iter(succ, o, m) == Some(z); }
      }
    }
  }

  // ---------------------------------------------------------------- the raising walk, visit by visit

  /** x is one of the hops lo up to hi on the real waits of o, and less urgent than c. */
  ghost predicate Lifted(g: Graph, prio: seq<nat>, o: nat, c: nat, lo: nat, hi: nat, x: nat) {
    x < |prio| && prio[x] > c && exists i: nat :: lo <= i < hi && Iter(g.boss, o, i) == Some(x)
  }

  /** The priorities with these processes at c. */
  ghost function Lift(g: Graph, prio: seq<nat>, o: nat, c: nat, lo: nat, hi: nat): (r: seq<nat>)
    ensures |r| == |prio|
    ensures forall x :: 0 <= x < |prio| ==> r[x] == if Lifted(g, prio, o, c, lo, hi, x) then c else prio[x]
  {
    seq(|prio|, x requires 0 <= x < |prio| => if Lifted(g, prio, o, c, lo, hi, x) then c else prio[x])
  }

  lemma NothingLifted(g: Graph, prio: seq<nat>, o: nat, c: nat, lo: nat, hi: nat)
    requires lo >= hi
    ensures Lift(g, prio, o, c, lo, hi) == prio
  {
  }

  /** A process none of whose waiters is lifted is wanted at its old priority. */
  lemma PlainWanted(g: Graph, prio: seq<nat>, q: seq<nat>, x: nat)
    requires Shaped(g, prio) && |q| == |prio| && Stable(g, prio) && x < |prio|
    requires forall j :: 0 <= j < |prio| && g.boss[j] == Some(x) ==> q[j] == prio[j]
    ensures Wanted(g, q, x, NO_CLAIM) == prio[x]
  {
    assert Tight(g, prio, x);
  }

  /** A process next on the real chain is wanted at c, if it is less urgent, or as it was. */
  lemma ChainWanted(g: Graph, prio: seq<nat>, o: nat, c: nat, k: nat, x: nat)
    requires Shaped(g, prio) && Stable(g, prio) && InRange(g.boss) && o < |prio| && prio[o] > c && x < |prio|
    requires k >= 1 && Iter(g.boss, o, k) == Some(x)
    ensures Wanted(g, Lift(g, prio, o, c, 0, k), x, NO_CLAIM) == Min(c, prio[x])
  {
    var q := Lift(g, prio, o, c, 0, k);
    IterPrefix(g.boss, o, k - 1, k);
    IterInRange(g.boss, o, k - 1);
    var y := Iter(g.boss, o, k - 1).value;
    IterNext(g.boss, o, k - 1, y);
    assert g.boss[y] == Some(x);
    assert Tight(g, prio, x);
    assert prio[x] > c ==> Lifted(g, prio, o, c, 0, k, y);
    forall j | 0 <= j < |prio| && g.boss[j] == Some(x) ensures q[j] >= Min(c, prio[x]) {}
    assert prio[x] <= c ==>
           prio[x] == g.base[x] || exists j :: 0 <= j < |prio| && g.boss[j] == Some(x) && q[j] == prio[x];
  }

  /** One hop more, or one hop less, changes only the process of that hop. */
  lemma NextHop(g: Graph, prio: seq<nat>, o: nat, c: nat, lo: nat, hi: nat, y: nat)
    requires lo < hi
    ensures Iter(g.boss, o, hi) != Some(y) ==>
            (Lifted(g, prio, o, c, lo, hi + 1, y) <==> Lifted(g, prio, o, c, lo, hi, y))
    ensures Iter(g.boss, o, lo) != Some(y) ==>
            (Lifted(g, prio, o, c, lo + 1, hi, y) <==> Lifted(g, prio, o, c, lo, hi, y))
    ensures y < |prio| && prio[y] > c && Iter(g.boss, o, hi) == Some(y) ==> Lifted(g, prio, o, c, lo, hi + 1, y)
  {
  }

  lemma UnurgentLift(g: Graph, prio: seq<nat>, o: nat, c: nat, lo: nat, hi: nat, x: nat)
    ensures x < |prio| && prio[x] <= c ==> !Lifted(g, prio, o, c, lo, hi, x)
    ensures Lifted(g, prio, o, c, lo, hi, x) ==> exists i: nat :: lo <= i < hi && Iter(g.boss, o, i) == Some(x)
  {
  }

  /** What has to be known throughout the walk. */
  ghost predicate Losing(g: Graph, succ: seq<Option<nat>>, owners: set<nat>, prio: seq<nat>, o: nat, c: nat, t: nat) {
    && Shaped(g, prio) && Stable(g, prio) && Edges(g, succ, owners) && o < |prio| && prio[o] > c
    && FalseReturn(g, succ, o, t)
  }

  /** Visit k on the way out raises the next process of the real chain, if there is one. */
  lemma VisitOut(g: Graph, succ: seq<Option<nat>>, owners: set<nat>, prio: seq<nat>, o: nat, c: nat, t: nat, k: nat)
    requires Losing(g, succ, owners, prio, o, c, t) && 1 <= k < t
    ensures Iter(succ, o, k).Some? && Iter(succ, o, k).value < |prio|
    ensures var x := Iter(succ, o, k).value; var q := Lift(g, prio, o, c, 0, k);
            q[x := Wanted(g, q, x, NO_CLAIM)] == Lift(g, prio, o, c, 0, k + 1)
  {
    IterPrefix(succ, o, k, t);
    IterInRange(succ, o, k);
    var x := Iter(succ, o, k).value;
    var q, r := Lift(g, prio, o, c, 0, k), Lift(g, prio, o, c, 0, k + 1);
    hide Wanted, Stable, Iter, FirstReturn, Lifted;
    if Iter(g.boss, o, k).Some? { RealPathAgrees(g, succ, owners, o, k); }
    if Iter(g.boss, o, k).Some? {
      ChainWanted(g, prio, o, c, k, x);
    } else {
      PassedBy(g, succ, owners, prio, o, c, t, 0, k, k, x);
    }
    NotYetMet(g, succ, owners, prio, o, c, t, 0, k, x);
    forall y | 0 <= y < |prio| ensures r[y] == q[x := Wanted(g, q, x, NO_CLAIM)][y] {
      NextHop(g, prio, o, c, 0, k, y);
      if y == x { UnurgentLift(g, prio, o, c, 0, k + 1, x); }
    }
  }

  /** Hop k is none of the lifted processes when their hops are others. */
  lemma NotYetMet(g: Graph, succ: seq<Option<nat>>, owners: set<nat>, prio: seq<nat>, o: nat, c: nat, t: nat,
      lo: nat, hi: nat, x: nat)
    requires Losing(g, succ, owners, prio, o, c, t) && hi <= t
    requires exists k: nat :: k < t && !(lo <= k < hi) && Iter(succ, o, k) == Some(x)
    ensures !Lifted(g, prio, o, c, lo, hi, x)
  {
    var k: nat :| k < t && !(lo <= k < hi) && Iter(succ, o, k) == Some(x);
    forall i: nat | lo <= i < hi ensures Iter(g.boss, o, i) != Some(x) {
      if Iter(g.boss, o, i) == Some(x) {
        RealEnds(g, succ, owners, o, t, i);
        NobodyTwice(succ, o, t, if i < k then i else k, if i < k then k else i);
      }
    }
  }

  /** Nobody lifted waits for hop k: the wait of each leads to another hop. */
  lemma PassedBy(g: Graph, succ: seq<Option<nat>>, owners: set<nat>, prio: seq<nat>, o: nat, c: nat, t: nat,
      lo: nat, hi: nat, k: nat, x: nat)
    requires Losing(g, succ, owners, prio, o, c, t) && hi <= t && k < t && Iter(succ, o, k) == Some(x) && x < |prio|
    requires lo >= k || (hi == k && Iter(g.boss, o, k).None?)
    ensures Wanted(g, Lift(g, prio, o, c, lo, hi), x, NO_CLAIM) == prio[x]
  {
    var q := Lift(g, prio, o, c, lo, hi);
    forall j | 0 <= j < |prio| && g.boss[j] == Some(x) ensures q[j] == prio[j] {
      if Lifted(g, prio, o, c, lo, hi, j) {
        var i: nat :| lo <= i < hi && Iter(g.boss, o, i) == Some(j);
        IterNext(g.boss, o, i, j);
        RealEnds(g, succ, owners, o, t, i + 1);
        if i + 1 != k { NobodyTwice(succ, o, t, if i + 1 < k then i + 1 else k, if i + 1 < k then k else i + 1); }
      }
    }
    PlainWanted(g, prio, q, x);
  }

  /** Visit t + k, back on hop k, gives it its old priority. */
  lemma VisitBack(g: Graph, succ: seq<Option<nat>>, owners: set<nat>, prio: seq<nat>, o: nat, c: nat, t: nat, k: nat)
    requires Losing(g, succ, owners, prio, o, c, t) && k < t
    ensures Iter(succ, o, k).Some? && Iter(succ, o, k).value < |prio|
    ensures var x := Iter(succ, o, k).value; var q := Lift(g, prio, o, c, k, t);
            q[x := Wanted(g, q, x, NO_CLAIM)] == Lift(g, prio, o, c, k + 1, t)
  {
    IterPrefix(succ, o, k, t);
    IterInRange(succ, o, k);
    var x := Iter(succ, o, k).value;
    var q, r := Lift(g, prio, o, c, k, t), Lift(g, prio, o, c, k + 1, t);
    hide Wanted, Stable, Iter, FirstReturn, Lifted;
    PassedBy(g, succ, owners, prio, o, c, t, k, t, k, x);
    NotYetMet(g, succ, owners, prio, o, c, t, k + 1, t, x);
    if Iter(g.boss, o, k).Some? { RealPathAgrees(g, succ, owners, o, k); }
    forall y | 0 <= y < |prio| && y != x ensures r[y] == q[y] { NextHop(g, prio, o, c, k, t, y); }
  }

  /** The way out, from visit k on. */
  lemma {:induction false} WayOut(g: Graph, succ: seq<Option<nat>>, owners: set<nat>, prio: seq<nat>, o: nat, c: nat,
      t: nat, k: nat, fuel: nat)
    requires Losing(g, succ, owners, prio, o, c, t) && 1 <= k <= t && fuel >= t - k
    ensures Walk(g, succ, Lift(g, prio, o, c, 0, k), Iter(succ, o, k), NO_CLAIM, fuel) ==
            Walk(g, succ, Lift(g, prio, o, c, 0, t), Some(o), NO_CLAIM, fuel - (t - k))
    decreases t - k
  {
    hide Walk, Losing, Wanted;
    if k < t {
      VisitOut(g, succ, owners, prio, o, c, t, k);
      OneVisit(g, succ, owners, prio, o, c, t, k, Lift(g, prio, o, c, 0, k), fuel);
      WayOut(g, succ, owners, prio, o, c, t, k + 1, fuel - 1);
    } else {
      assert Iter(succ, o, t) == Some(o) by { ComesBack(g, succ, owners, prio, o, c, t); }
    }
  }

  lemma ComesBack(g: Graph, succ: seq<Option<nat>>, owners: set<nat>, prio: seq<nat>, o: nat, c: nat, t: nat)
    requires Losing(g, succ, owners, prio, o, c, t)
    ensures Shaped(g, prio) && |succ| == |prio| && Stable(g, prio)
    ensures t >= 1 && Edges(g, succ, owners) && Iter(succ, o, t) == Some(o) == Iter(succ, o, 0) && o < |prio|
            && prio[o] > c
    ensures forall q, cur :: |q| == |prio| ==> Walk(g, succ, q, cur, NO_CLAIM, 0) == q
  {
  }

  lemma OneVisit(g: Graph, succ: seq<Option<nat>>, owners: set<nat>, prio: seq<nat>, o: nat, c: nat, t: nat, k: nat,
      q: seq<nat>, fuel: nat)
    requires Losing(g, succ, owners, prio, o, c, t) && k < t && |q| == |prio| && fuel > 0
    requires Iter(succ, o, k).Some? && Iter(succ, o, k).value < |prio|
    ensures Shaped(g, q) && |succ| == |q|
    ensures var x := Iter(succ, o, k).value;
            Walk(g, succ, q, Iter(succ, o, k), NO_CLAIM, fuel) ==
            Walk(g, succ, q[x := Wanted(g, q, x, NO_CLAIM)], Iter(succ, o, k + 1), NO_CLAIM, fuel - 1)
  {
    IterNext(succ, o, k, Iter(succ, o, k).value);
  }

  /** The way back, from visit t + k on: it restores one hop a visit, as long as it lasts. */
  lemma {:induction false} WayBack(g: Graph, succ: seq<Option<nat>>, owners: set<nat>, prio: seq<nat>, o: nat, c: nat,
      t: nat, k: nat, fuel: nat)
    requires Losing(g, succ, owners, prio, o, c, t) && k <= t
    ensures Shaped(g, prio) && |succ| == |prio|
    ensures Walk(g, succ, Lift(g, prio, o, c, k, t), Iter(succ, o, k), NO_CLAIM, fuel) ==
            Lift(g, prio, o, c, k + fuel, t)
    decreases t - k
  {
    hide *;
    ComesBack(g, succ, owners, prio, o, c, t);
    if k == t {
      NothingLifted(g, prio, o, c, t, t);
      NothingLifted(g, prio, o, c, t + fuel, t);
      WalkIdles(g, succ, prio, Iter(succ, o, k), fuel);
    } else if fuel > 0 {
      VisitBack(g, succ, owners, prio, o, c, t, k);
      OneVisit(g, succ, owners, prio, o, c, t, k, Lift(g, prio, o, c, k, t), fuel);
      WayBack(g, succ, owners, prio, o, c, t, k + 1, fuel - 1);
    }
  }

  lemma FirstLifted(g: Graph, prio: seq<nat>, o: nat, c: nat)
    requires o < |prio| && prio[o] > c
    ensures Lift(g, prio, o, c, 0, 1) == prio[o := c]
  {
    assert Iter(g.boss, o, 0) == Some(o);
  }

  /** A raising walk of n visits that loses its claim leaves raised exactly the hops it did not
      come back to. */
  lemma LostWalk(g: Graph, succ: seq<Option<nat>>, owners: set<nat>, prio: seq<nat>, o: nat, c: nat, t: nat, n: nat)
    requires Losing(g, succ, owners, prio, o, c, t) && n > t
    ensures Shaped(g, prio) && |succ| == |prio|
    ensures Walk(g, succ, prio, Some(o), c, n) == Lift(g, prio, o, c, n - t, t)
  {
    hide *;
    ComesBack(g, succ, owners, prio, o, c, t);
    RaiseStart(g, succ, owners, prio, o, c, n - 1);
    FirstLifted(g, prio, o, c);
    WayOut(g, succ, owners, prio, o, c, t, 1, n - 1);
    WayBack(g, succ, owners, prio, o, c, t, 0, n - t);
  }

  // ---------------------------------------------------------------- when the bound is noticed

  /** The walk loses its claim at hop t, and the first hop it does not come back to any more is
      a process of the real chain less urgent than c. */
  ghost predicate CutShort(g: Graph, succ: seq<Option<nat>>, bound: nat, prio: seq<nat>, o: nat, c: nat)
    requires o < |prio|
  {
    && LosesClaim(g, succ, bound, prio, o, c)
    && exists t: nat :: t <= bound && FirstReturn(succ, o, t) && Unvisited(g, prio, o, c, bound + 1 - t)
  }

  ghost predicate Unvisited(g: Graph, prio: seq<nat>, o: nat, c: nat, k: nat) {
    var x := Iter(g.boss, o, k);
    x.Some? && x.value < |prio| && prio[x.value] > c
  }

  /** Hop lo is lifted if any hop after it is. */
  lemma LiftStarts(g: Graph, prio: seq<nat>, o: nat, c: nat, lo: nat, hi: nat)
    requires Shaped(g, prio) && Over(g, prio) && InRange(g.boss) && o < |prio| && Iter(g.boss, o, hi).None?
    ensures Lift(g, prio, o, c, lo, hi) == prio <==> !Unvisited(g, prio, o, c, lo)
  {
    if Unvisited(g, prio, o, c, lo) {
      var x := Iter(g.boss, o, lo).value;
      if lo >= hi { IterPrefix(g.boss, o, hi, lo); }
      assert Lift(g, prio, o, c, lo, hi)[x] == c;
    } else {
      forall y | 0 <= y < |prio| ensures !Lifted(g, prio, o, c, lo, hi, y) {
        if Lifted(g, prio, o, c, lo, hi, y) {
          var i: nat :| lo <= i < hi && Iter(g.boss, o, i) == Some(y);
          IterPrefix(g.boss, o, lo, i);
          IterInRange(g.boss, o, lo);
          IterAdd(g.boss, o, lo, i - lo);
          ChainIsMonotone(g, prio, Iter(g.boss, o, lo).value, i - lo, y);
        }
      }
    }
  }

  /** What a walk that loses its claim leaves behind. */
  lemma LostWalkIs(g: Graph, succ: seq<Option<nat>>, owners: set<nat>, bound: nat, prio: seq<nat>, o: nat, c: nat)
    returns (t: nat)
    requires Shaped(g, prio) && Edges(g, succ, owners) && Stable(g, prio) && o < |prio|
    requires LosesClaim(g, succ, bound, prio, o, c)
    ensures Losing(g, succ, owners, prio, o, c, t) && t <= bound && t <= |owners| && Iter(g.boss, o, t).None?
    ensures forall n: nat :: n > bound ==> Walk(g, succ, prio, Some(o), c, n) == Lift(g, prio, o, c, n - t, t)
    ensures CutShort(g, succ, bound, prio, o, c) <==> Unvisited(g, prio, o, c, bound + 1 - t)
    ensures CutShort(g, succ, bound, prio, o, c) <==> Lift(g, prio, o, c, bound + 1 - t, t) != prio
  {
    hide Walk, Wanted, Stable, Over, Lift, Unvisited, Iter;
    LosesAtFirst(g, succ, owners, bound, prio, o, c);
    t :| t <= bound && FalseReturn(g, succ, o, t);
    ReturnIsShort(g, succ, owners, o, t);
    if Iter(g.boss, o, t).Some? { RealEnds(g, succ, owners, o, t, t); }
    assert Losing(g, succ, owners, prio, o, c, t);
    forall n: nat | n > bound ensures Walk(g, succ, prio, Some(o), c, n) == Lift(g, prio, o, c, n - t, t) {
      LostWalk(g, succ, owners, prio, o, c, t, n);
    }
    EdgesInRange(g, succ, owners, prio);
    LiftStarts(g, prio, o, c, bound + 1 - t, t);
    if CutShort(g, succ, bound, prio, o, c) {
      var t': nat :| t' <= bound && FirstReturn(succ, o, t') && Unvisited(g, prio, o, c, bound + 1 - t');
      OneFirstReturn(succ, o, t, t');
    }
  }

  lemma EdgesInRange(g: Graph, succ: seq<Option<nat>>, owners: set<nat>, prio: seq<nat>)
    requires Shaped(g, prio) && Edges(g, succ, owners) && Stable(g, prio)
    ensures InRange(g.boss) && Over(g, prio)
  {
  }

  /** A claim that is kept has one outcome, whatever the bound. */
  lemma HeldIs(g: Graph, prio: seq<nat>, r: seq<nat>, o: nat, c: nat, x: nat)
    requires Shaped(g, prio) && |r| == |prio| && Shaped(g, r) && InRange(g.boss) && o < |prio| && x < |prio|
    requires Held(g, r, o, c) && RaisedTo(g, prio, r, o, c)
    ensures r[x] == if Leads(g, o, x) && prio[x] > c then c else prio[x]
  {
    if Leads(g, o, x) { HeldReaches(g, r, o, c, x); }
  }

  lemma KeptWalk(g: Graph, succ: seq<Option<nat>>, owners: set<nat>, bound: nat, prio: seq<nat>, o: nat, c: nat, n: nat)
    requires Shaped(g, prio) && Edges(g, succ, owners) && |owners| <= bound < n && Stable(g, prio) && o < |prio|
    requires !LosesClaim(g, succ, bound, prio, o, c)
    ensures Walk(g, succ, prio, Some(o), c, n) == Walk(g, succ, prio, Some(o), c, bound + 1)
  {
    hide Walk, Wanted, Stable, Over, Held, RaisedTo, LosesClaim, Settled, FirstReturn;
    LosesAtFirst(g, succ, owners, bound, prio, o, c);
    LosesAtFirst(g, succ, owners, n - 1, prio, o, c);
    if t: nat :| t < n && FalseReturn(g, succ, o, t) { ReturnIsShort(g, succ, owners, o, t); }
    var r := ClaimWalk(g, succ, owners, bound, prio, o, c);
    var s := ClaimWalk(g, succ, owners, n - 1, prio, o, c);
    EdgesInRange(g, succ, owners, prio);
    forall x | 0 <= x < |prio| ensures r[x] == s[x] {
      HeldIs(g, prio, r, o, c, x);
      HeldIs(g, prio, s, o, c, x);
    }
  }

  /** The raising walk of a lock: being allowed more visits than one more than there are mutexes
      changes nothing, if and only if the walk is not cut short. */
  lemma HopsDecide(g: Graph, succ: seq<Option<nat>>, owners: set<nat>, bound: nat, prio: seq<nat>, o: nat, c: nat)
    requires Shaped(g, prio) && Edges(g, succ, owners) && |owners| <= bound && Stable(g, prio) && o < |prio|
    ensures CutShort(g, succ, bound, prio, o, c) <==>
            exists n: nat ::
              n > bound && Walk(g, succ, prio, Some(o), c, n) != Walk(g, succ, prio, Some(o), c, bound + 1)
  {
    hide Walk, Wanted, Stable, Over, LosesClaim, Lift, Iter, Unvisited;
    if LosesClaim(g, succ, bound, prio, o, c) {
      var t := LostWalkIs(g, succ, owners, bound, prio, o, c);
      NothingLifted(g, prio, o, c, bound + 1, t);
      assert Walk(g, succ, prio, Some(o), c, bound + 1 + t) == prio;
      if !CutShort(g, succ, bound, prio, o, c) {
        forall n: nat | n > bound ensures Walk(g, succ, prio, Some(o), c, n) == prio {
          LiftShrinks(g, prio, o, c, bound + 1 - t, n - t, t);
        }
      }
    } else {
      forall n: nat | n > bound
        ensures Walk(g, succ, prio, Some(o), c, n) == Walk(g, succ, prio, Some(o), c, bound + 1)
      {
        KeptWalk(g, succ, owners, bound, prio, o, c, n);
      }
    }
  }

  lemma LiftShrinks(g: Graph, prio: seq<nat>, o: nat, c: nat, lo: nat, lo': nat, hi: nat)
    requires lo <= lo' && Lift(g, prio, o, c, lo, hi) == prio
    ensures Lift(g, prio, o, c, lo', hi) == prio
  {
    forall x | 0 <= x < |prio| ensures Lift(g, prio, o, c, lo', hi)[x] == prio[x] {
      assert Lift(g, prio, o, c, lo, hi)[x] == prio[x];
      assert Lifted(g, prio, o, c, lo', hi, x) ==> Lifted(g, prio, o, c, lo, hi, x);
    }
  }

  /** Twice as many hops as there are mutexes are always enough. */
  lemma TwiceIsEnough(g: Graph, succ: seq<Option<nat>>, owners: set<nat>, bound: nat, prio: seq<nat>, o: nat, c: nat,
      n: nat)
    requires Shaped(g, prio) && Edges(g, succ, owners) && |owners| <= bound && Stable(g, prio) && o < |prio|
    ensures n > 2 * bound ==> Walk(g, succ, prio, Some(o), c, n) == Walk(g, succ, prio, Some(o), c, 2 * bound + 1)
  {
    hide Walk, Wanted, Stable, Over, LosesClaim, Lift, Iter, Unvisited;
    HopsDecide(g, succ, owners, 2 * bound, prio, o, c);
    if LosesClaim(g, succ, 2 * bound, prio, o, c) {
      var t := LostWalkIs(g, succ, owners, 2 * bound, prio, o, c);
      NothingLifted(g, prio, o, c, 2 * bound + 1 - t, t);
    }
  }

  // ---------------------------------------------------------------- sweeps

  /** A sweep never changes a deadlocked process. */
  lemma {:induction false} SweepSpares(g: Graph, succ: seq<Option<nat>>, owners: set<nat>, prio: seq<nat>,
      holders: seq<Option<nat>>, hops: nat, i: nat, y: nat)
    requires Shaped(g, prio) && Edges(g, succ, owners) && |owners| < hops && i <= |holders| && InRange(g.boss)
    requires Over(g, prio) && Settled(g, prio, HoldersFrom(holders, i))
    requires forall k :: 0 <= k < |holders| && holders[k].Some? ==> holders[k].value < |prio|
    requires y < |prio| && OnRealCycle(g, y)
    ensures Sweep(g, succ, prio, holders, hops, i)[y] == prio[y]
    decreases |holders| - i
  {
    hide Walk, Settled, Over, OnRealCycle;
    if i < |holders| {
      var q := Walk(g, succ, prio, holders[i], NO_CLAIM, hops);
      WalkSpares(g, succ, prio, holders[i], hops, HoldersFrom(holders, i), y);
      if holders[i].Some? {
        SweepStep(g, succ, owners, prio, holders, hops, i);
      } else {
        assert HoldersFrom(holders, i) == HoldersFrom(holders, i + 1);
        assert q == prio by { NoWalk(g, succ, prio, hops); }
      }
      SweepSpares(g, succ, owners, q, holders, hops, i + 1, y);
    }
  }

  lemma NoWalk(g: Graph, succ: seq<Option<nat>>, prio: seq<nat>, hops: nat)
    requires Shaped(g, prio) && |succ| == |prio|
    ensures Walk(g, succ, prio, None, NO_CLAIM, hops) == prio
  {
  }

  /** A walk inside a sweep may be cut short; the sweep as a whole never shows it. */
  lemma SweepIgnoresHops(g: Graph, succ: seq<Option<nat>>, owners: set<nat>, prio: seq<nat>,
      holders: seq<Option<nat>>, hops: nat, more: nat)
    requires Shaped(g, prio) && Edges(g, succ, owners) && |owners| < hops && InRange(g.boss)
    requires Over(g, prio) && Settled(g, prio, HoldersFrom(holders, 0))
    requires forall k :: 0 <= k < |holders| && holders[k].Some? ==> holders[k].value < |prio|
    ensures Sweep(g, succ, prio, holders, hops + more, 0) == Sweep(g, succ, prio, holders, hops, 0)
  {
    hide Sweep, Stable, Over, Settled, OnRealCycle;
    SweepSettles(g, succ, owners, prio, holders, hops, 0);
    SweepSettles(g, succ, owners, prio, holders, hops + more, 0);
    var p, q := Sweep(g, succ, prio, holders, hops, 0), Sweep(g, succ, prio, holders, hops + more, 0);
    forall i | 0 <= i < |prio| ensures p[i] == q[i] {
      if p[i] != q[i] {
        DifferenceIsDeadlock(g, p, q, i);
        SweepSpares(g, succ, owners, prio, holders, hops, 0, i);
        SweepSpares(g, succ, owners, prio, holders, hops + more, 0, i);
      }
    }
  }

  // Four processes, of which three own mutexes, waiting and on record as follows.
  const KNOT: Graph := Graph([6, 2, 1, 3], [Some(3), Some(0), None, None])
  const RECORDS: seq<Option<nat>> := [Some(3), Some(0), None, Some(1)]

  lemma KnotSettled()
    ensures Shaped(KNOT, [1, 1, 1, 1]) && Edges(KNOT, RECORDS, {0, 1, 3}) && Over(KNOT, [1, 1, 1, 1])
    ensures Settled(KNOT, [1, 1, 1, 1], {0, 1, 3})
  {
    forall y | 0 <= y < 4 && Outside(KNOT, {0, 1, 3}, y) ensures y == 2 { assert Iter(KNOT.boss, y, 0) == Some(y); }
  }

  lemma KnotVisits()
    ensures Wanted(KNOT, [1, 1, 1, 1], 0, NO_CLAIM) == 1 && Wanted(KNOT, [1, 1, 1, 1], 3, NO_CLAIM) == 1
    ensures Wanted(KNOT, [1, 1, 1, 1], 1, NO_CLAIM) == 2 && Wanted(KNOT, [1, 2, 1, 1], 0, NO_CLAIM) == 2
    ensures Wanted(KNOT, [2, 2, 1, 1], 3, NO_CLAIM) == 2
  {
    assert KNOT.boss[0] == Some(3) && KNOT.boss[1] == Some(0);
  }

  /** The first walk of a sweep over them is cut short: with one more visit it would lower the
      last process too. */
  lemma SweepWalkIsCut()
    ensures Walk(KNOT, RECORDS, [1, 1, 1, 1], Some(0), NO_CLAIM, 4) == [2, 2, 1, 1]
    ensures Walk(KNOT, RECORDS, [1, 1, 1, 1], Some(0), NO_CLAIM, 5) == [2, 2, 1, 2]
  {
    KnotVisits();
    hide Wanted;
    var a := [1, 1, 1, 1];
    assert a[0 := 1] == a && a[3 := 1] == a && a[1 := 2] == [1, 2, 1, 1];
    assert [1, 2, 1, 1][0 := 2] == [2, 2, 1, 1] && [2, 2, 1, 1][3 := 2] == [2, 2, 1, 2];
  }
}

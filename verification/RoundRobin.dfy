/** Fairness of round-robin selection (internal/routing/routing.go:159-172). */
module RoundRobin {
  import opened Store
  import opened Routing
  import opened Arithmetic

  /** The positions after a run of selections, for any mix of aliases. */
  function PositionsAfter(rr: map<string, nat>, run: seq<Alias>): map<string, nat> {
    if run == [] then rr
    else NextPositions(PositionsAfter(rr, run[..|run| - 1]), run[|run| - 1])
  }

  /** The indices, among `n` active targets, that the run's selections for alias `id` take. */
  function Picks(rr: map<string, nat>, run: seq<Alias>, id: string, n: nat): seq<nat>
    requires n > 0
  {
    if run == [] then []
    else
      var before, last := run[..|run| - 1], run[|run| - 1];
      var picks := Picks(rr, before, id, n);
      if last.id != id then picks
      else picks + [Choice(last.routing, PositionOf(PositionsAfter(rr, before), id), 0, n)]
  }

  ghost predicate RoundRobinFor(run: seq<Alias>, id: string) {
    forall a | a in run && a.id == id :: a.routing == "round_robin"
  }

  lemma {:induction false} PicksRotate(rr: map<string, nat>, run: seq<Alias>, id: string, n: nat)
    requires n > 0 && RoundRobinFor(run, id)
    ensures var picks := Picks(rr, run, id, n);
            && PositionOf(PositionsAfter(rr, run), id) == PositionOf(rr, id) + |picks|
            && forall i | 0 <= i < |picks| :: picks[i] == (PositionOf(rr, id) + i) % n
  {
    if run != [] {
      var before := run[..|run| - 1];
      assert run == before + [run[|run| - 1]];
      PicksRotate(rr, before, id, n);
    }
  }

  /** How often (p + k) % n hits i for k below m. */
  function Hits(p: nat, m: nat, n: nat, i: nat): nat
    requires n > 0
  {
    if m == 0 then 0 else Hits(p, m - 1, n, i) + if (p + m - 1) % n == i then 1 else 0
  }

  lemma {:induction false} HitsFromZero(m: nat, n: nat, i: nat)
    requires i < n && m <= n
    ensures Hits(0, m, n, i) == if i < m then 1 else 0
  {
    if m > 0 {
      HitsFromZero(m - 1, n, i);
      ModSmall(m - 1, n);
    }
  }

  lemma {:induction false} HitsShift(p: nat, m: nat, n: nat, i: nat)
    requires n > 0
    ensures Hits(p, m + 1, n, i) == Hits(p + 1, m, n, i) + if p % n == i then 1 else 0
  {
    if m > 0 {
      HitsShift(p, m - 1, n, i);
    }
  }

  lemma {:induction false} HitsOnceEachRound(p: nat, n: nat, i: nat)
    requires i < n
    ensures Hits(p, n, n, i) == 1
  {
    if p == 0 {
      HitsFromZero(n, n, i);
    } else {
      HitsOnceEachRound(p - 1, n, i);
      HitsShift(p - 1, n, n, i);
      ModAdd(p - 1, n);
    }
  }

  lemma {:induction false} HitsPerRound(p: nat, m: nat, n: nat, i: nat)
    requires i < n
    ensures Hits(p, m + n, n, i) == Hits(p, m, n, i) + 1
  {
    if m == 0 {
      HitsOnceEachRound(p, n, i);
    } else {
      HitsPerRound(p, m - 1, n, i);
      ModAdd(p + m - 1, n);
    }
  }

  lemma {:induction false} HitsMonotone(p: nat, m: nat, k: nat, n: nat, i: nat)
    requires n > 0 && m <= k
    ensures Hits(p, m, n, i) <= Hits(p, k, n, i)
  {
    if m < k {
      HitsMonotone(p, m, k - 1, n, i);
    }
  }

  lemma {:induction false} HitsBalanced(p: nat, m: nat, n: nat, i: nat, j: nat)
    requires i < n && j < n
    ensures Hits(p, m, n, i) <= Hits(p, m, n, j) + 1
  {
    if m >= n {
      HitsBalanced(p, m - n, n, i, j);
      HitsPerRound(p, m - n, n, i);
      HitsPerRound(p, m - n, n, j);
    } else {
      HitsMonotone(p, m, n, n, i);
      HitsOnceEachRound(p, n, i);
    }
  }

  lemma {:induction false} CountIsHits(picks: seq<nat>, p: nat, n: nat, i: nat)
    requires n > 0 && forall k | 0 <= k < |picks| :: picks[k] == (p + k) % n
    ensures multiset(picks)[i] == Hits(p, |picks|, n, i)
  {
    if picks != [] {
      var m := |picks| - 1;
      CountIsHits(picks[..m], p, n, i);
      assert picks == picks[..m] + [picks[m]];
    }
  }

  ghost predicate EachOnce(picks: seq<nat>, n: nat) {
    forall i: nat | i < n :: multiset(picks)[i] == 1
  }

  /** Over any run of selections, whatever is selected for other aliases in between, the counts of
      two of an alias's n active targets differ by at most one, and any n consecutive selections
      take each exactly once. */
  lemma RoundRobinFair(rr: map<string, nat>, run: seq<Alias>, id: string, n: nat)
    requires n > 0 && RoundRobinFor(run, id)
    ensures var picks := Picks(rr, run, id, n);
            && (forall i, j | 0 <= i < n && 0 <= j < n :: multiset(picks)[i] <= multiset(picks)[j] + 1)
            && (forall a, b | 0 <= a <= b <= |picks| && b - a == n :: EachOnce(picks[a..b], n))
  {
    var picks, p := Picks(rr, run, id, n), PositionOf(rr, id);
    PicksRotate(rr, run, id, n);
    forall i, j | 0 <= i < n && 0 <= j < n
      ensures multiset(picks)[i] <= multiset(picks)[j] + 1
    {
      CountIsHits(picks, p, n, i);
      CountIsHits(picks, p, n, j);
      HitsBalanced(p, |picks|, n, i, j);
    }
    forall a, b | 0 <= a <= b <= |picks| && b - a == n
      ensures EachOnce(picks[a..b], n)
    {
      assert forall k | 0 <= k < n :: picks[a..b][k] == picks[a + k];
      RoundHitsEach(picks[a..b], p + a, n);
    }
  }

  lemma RoundHitsEach(picks: seq<nat>, p: nat, n: nat)
    requires |picks| == n > 0 && forall k | 0 <= k < n :: picks[k] == (p + k) % n
    ensures EachOnce(picks, n)
  {
    forall i: nat | i < n
      ensures multiset(picks)[i] == 1
    {
      CountIsHits(picks, p, n, i);
      HitsOnceEachRound(p, n, i);
    }
  }
}

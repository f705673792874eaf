/** How round robin (internal/lb/lb.go) shares consecutive picks, with the cursor a 64-bit counter that wraps. */
module RoundRobinTurns {
  import opened Basics
  import LB = LoadBalancer

  // ---- runs of Pick ----

  function Ids(nodes: seq<LB.Node>): (ids: seq<string>)
    ensures |ids| == |nodes|
  {
    seq(|nodes|, i requires 0 <= i < |nodes| => nodes[i].id)
  }

  /** The ids picked in m turns over a fixed list, the cursor starting at rr and wrapping. */
  function Turns(ids: seq<string>, rr: nat, m: nat): (out: seq<string>)
    requires ids != []
    ensures |out| == m
    decreases m
  {
    if m == 0 then [] else [ids[rr % |ids|]] + Turns(ids, LB.Bumped(rr), m - 1)
  }

  /** The counter after m turns. */
  function After(rr: nat, m: nat): nat
    decreases m
  {
    if m == 0 then rr else After(LB.Bumped(rr), m - 1)
  }

  /** One run after another is one run. */
  lemma {:induction false} TurnsChain(ids: seq<string>, rr: nat, a: nat, b: nat)
    requires ids != []
    ensures Turns(ids, rr, a + b) == Turns(ids, rr, a) + Turns(ids, After(rr, a), b)
    ensures After(rr, a + b) == After(After(rr, a), b)
    decreases a
  {
    if a > 0 {
      TurnsChain(ids, LB.Bumped(rr), a - 1, b);
    }
  }

  lemma TurnsNext(ids: seq<string>, rr: nat, m: nat)
    requires ids != []
    ensures Turns(ids, rr, m + 1) == Turns(ids, rr, m) + [ids[After(rr, m) % |ids|]]
    ensures After(rr, m + 1) == LB.Bumped(After(rr, m))
  {
    TurnsChain(ids, rr, m, 1);
    var c := After(rr, m);
    assert Turns(ids, c, 1) == [ids[c % |ids|]] + Turns(ids, LB.Bumped(c), 0);
    assert After(c, 1) == After(LB.Bumped(c), 0);
  }

  /** The counter moves by one per turn and wraps at 2^64. */
  lemma {:induction false} AfterIsSum(rr: nat, m: nat)
    requires rr < LB.COUNTERS && m <= LB.COUNTERS
    ensures After(rr, m) == if rr + m < LB.COUNTERS then rr + m else rr + m - LB.COUNTERS
    decreases m
  {
    if m > 0 {
      AfterIsSum(LB.Bumped(rr), m - 1);
    }
  }

  /** The ids are those of the eligible nodes, in order. */
  ghost predicate AreEligible(ids: seq<string>, nodes: seq<LB.Node>, region: string) {
    Ids(LB.Sort(LB.Filter(nodes, region))) == ids
  }

  method PickTurn(region: string, nodes: seq<LB.Node>, rr: nat, ghost ids: seq<string>) returns (id: string, next: nat)
    requires rr < LB.COUNTERS && ids != [] && AreEligible(ids, nodes, region)
    ensures id == ids[rr % |ids|] && next == LB.Bumped(rr)
  {
    ghost var e := LB.Sort(LB.Filter(nodes, region));
    var chosen, rr' := LB.Pick(LB.RoundRobin, region, nodes, Some(rr), 0);
    LB.SortedMembers(LB.Filter(nodes, region));
    assert e[rr % |e|] in e;
    assert e[rr % |e|].id == ids[rr % |ids|];
    return chosen.value, rr'.value;
  }

  /**
   One pick per arrival on the caller's counter. Loads may change in between as long as the same exits stay eligible.
   */
  method PickRun(region: string, views: seq<seq<LB.Node>>, rr: nat, ghost ids: seq<string>)
    returns (out: seq<string>, next: nat)
    requires rr < LB.COUNTERS && ids != []
    requires forall i :: 0 <= i < |views| ==> AreEligible(ids, views[i], region)
    ensures out == Turns(ids, rr, |views|) && next == After(rr, |views|)
  {
    out, next := [], rr;
    for i := 0 to |views|
      invariant next < LB.COUNTERS && out == Turns(ids, rr, i) && next == After(rr, i)
    {
      TurnsNext(ids, rr, i);
      var id;
      id, next := PickTurn(region, views[i], next, ids);
      out := out + [id];
    }
  }

  // ---- counting ----

  function Times(out: seq<string>, id: string): nat {
    if out == [] then 0 else (if out[0] == id then 1 else 0) + Times(out[1..], id)
  }

  /** How many of the m cursor values from c on, not wrapping, fall on slot j of n. */
  function Hits(c: nat, m: nat, n: nat, j: nat): nat
    requires n > 0
    decreases m
  {
    if m == 0 then 0 else (if c % n == j then 1 else 0) + Hits(c + 1, m - 1, n, j)
  }

  /** Number of cursor values below q*n + s that fall on slot j. */
  function Below(q: int, s: int, j: int): int {
    q + if s > j then 1 else 0
  }

  /** The next cursor value, as quotient and remainder. */
  lemma Carry(q: int, s: int, n: int)
    requires 0 <= s < n
    ensures (q * n + s) / n == q && (q * n + s) % n == s
    ensures s + 1 < n ==> (q * n + s + 1) / n == q && (q * n + s + 1) % n == s + 1
    ensures s + 1 == n ==> (q * n + s + 1) / n == q + 1 && (q * n + s + 1) % n == 0
  {
    QuotientUnique(q * n + s, n, q, s);
    if s + 1 < n {
      QuotientUnique(q * n + s + 1, n, q, s + 1);
    } else {
      assert (q + 1) * n == q * n + n;
      QuotientUnique(q * n + s + 1, n, q + 1, 0);
    }
  }

  /** Below, of a cursor value. */
  function BelowAt(c: nat, n: nat, j: nat): int
    requires n > 0
  {
    Below(c / n, c % n, j)
  }

  lemma BelowNext(c: nat, n: nat, j: nat)
    requires j < n
    ensures BelowAt(c + 1, n, j) == BelowAt(c, n, j) + if c % n == j then 1 else 0
  {
    assert c == (c / n) * n + c % n;
    Carry(c / n, c % n, n);
  }

  lemma {:induction false} HitsCount(c: nat, m: nat, n: nat, j: nat)
    requires j < n
    ensures Hits(c, m, n, j) == BelowAt(c + m, n, j) - BelowAt(c, n, j)
    decreases m
  {
    if m > 0 {
      HitsCount(c + 1, m - 1, n, j);
      BelowNext(c, n, j);
    }
  }

  predicate Distinct(ids: seq<string>) {
    forall i, j :: 0 <= i < j < |ids| ==> ids[i] != ids[j]
  }

  /** While the cursor does not wrap, the turns are counted by its values. */
  lemma {:induction false} TurnsHit(ids: seq<string>, rr: nat, m: nat, j: nat)
    requires Distinct(ids) && j < |ids| && rr + m <= LB.COUNTERS
    ensures Times(Turns(ids, rr, m), ids[j]) == Hits(rr, m, |ids|, j)
    decreases m
  {
    if m > 0 {
      assert ids[rr % |ids|] == ids[j] <==> rr % |ids| == j;
      if m > 1 {
        TurnsHit(ids, rr + 1, m - 1, j);
      }
    }
  }

  /** Where it wraps, the turns go on from zero. */
  lemma {:induction false} TurnsSplit(ids: seq<string>, rr: nat, m: nat)
    requires ids != [] && rr < LB.COUNTERS <= rr + m
    ensures Turns(ids, rr, m) == Turns(ids, rr, LB.COUNTERS - rr) + Turns(ids, 0, rr + m - LB.COUNTERS)
    decreases m
  {
    if rr + 1 < LB.COUNTERS {
      TurnsSplit(ids, rr + 1, m - 1);
    }
  }

  lemma {:induction false} TimesSum(a: seq<string>, b: seq<string>, id: string)
    ensures Times(a + b, id) == Times(a, id) + Times(b, id)
  {
    if a == [] {
      assert a + b == b;
    } else {
      TimesSum(a[1..], b, id);
      assert (a + b)[1..] == a[1..] + b;
    }
  }

  /** What slot j gets in m turns, at most one of which wraps the cursor. */
  function Share(rr: nat, m: nat, n: nat, j: nat): int
    requires n > 0
  {
    if rr + m <= LB.COUNTERS then BelowAt(rr + m, n, j) - BelowAt(rr, n, j)
    else BelowAt(LB.COUNTERS, n, j) - BelowAt(rr, n, j) + BelowAt(rr + m - LB.COUNTERS, n, j)
  }

  lemma TurnsShare(ids: seq<string>, rr: nat, m: nat, j: nat)
    requires Distinct(ids) && j < |ids| && rr < LB.COUNTERS && m <= LB.COUNTERS
    ensures Times(Turns(ids, rr, m), ids[j]) == Share(rr, m, |ids|, j)
  {
    var n := |ids|;
    if rr + m <= LB.COUNTERS {
      TurnsHit(ids, rr, m, j);
      HitsCount(rr, m, n, j);
    } else {
      var a, b := LB.COUNTERS - rr, rr + m - LB.COUNTERS;
      TurnsSplit(ids, rr, m);
      TimesSum(Turns(ids, rr, a), Turns(ids, 0, b), ids[j]);
      TurnsHit(ids, rr, a, j);
      TurnsHit(ids, 0, b, j);
      HitsCount(rr, a, n, j);
      HitsCount(0, b, n, j);
    }
  }

  // ---- fairness ----

  /** Adding whole sweeps moves the quotient and keeps the remainder. */
  lemma Sweeps(c: nat, k: nat, n: nat)
    requires n > 0
    ensures (c + k * n) / n == c / n + k && (c + k * n) % n == c % n
  {
    SweepsOf(c / n, c % n, k, n);
    assert c == (c / n) * n + c % n;
  }

  lemma SweepsOf(q: int, s: int, k: int, n: int)
    requires 0 <= s < n
    ensures (q * n + s + k * n) / n == q + k && (q * n + s + k * n) % n == s
  {
    assert (q + k) * n == q * n + k * n;
    QuotientUnique(q * n + s + k * n, n, q + k, s);
  }

  /** Quotient and remainder of a difference. */
  lemma Borrow(x: nat, y: nat, n: nat)
    requires n > 0 && y <= x
    ensures var d := x % n - y % n;
            && (x - y) / n == x / n - y / n - (if d < 0 then 1 else 0)
            && (x - y) % n == if d < 0 then d + n else d
  {
    assert x == (x / n) * n + x % n && y == (y / n) * n + y % n;
    BorrowOf(x / n, x % n, y / n, y % n, n);
  }

  lemma BorrowOf(p: int, s: int, q: int, r: int, n: int)
    requires 0 <= s < n && 0 <= r < n
    ensures var d, z := s - r, (p * n + s) - (q * n + r);
            z / n == p - q - (if d < 0 then 1 else 0) && z % n == if d < 0 then d + n else d
  {
    var d, z := s - r, (p * n + s) - (q * n + r);
    assert (p - q) * n == p * n - q * n;
    if d < 0 {
      assert (p - q - 1) * n == (p - q) * n - n;
      QuotientUnique(z, n, p - q - 1, d + n);
    } else {
      QuotientUnique(z, n, p - q, d);
    }
  }

  /** Every slot's share of k sweeps, when the cursor wraps, in terms of two remainders. */
  lemma ShareAcrossWrap(rr: nat, k: nat, n: nat, j: nat)
    requires j < n && rr < LB.COUNTERS < rr + k * n
    ensures var s, r := rr % n, LB.COUNTERS % n;
            var d := s - r;
            Share(rr, k * n, n, j)
            == k + (if r > j then 1 else 0) - (if s > j then 1 else 0)
               + (if d < 0 then (if d + n > j then 0 else -1) else if d > j then 1 else 0)
  {
    Sweeps(rr, k, n);
    Borrow(rr + k * n, LB.COUNTERS, n);
  }

  /**
   Round robin gives each of n eligible exits exactly k of k*n consecutive picks if and only if the cursor does
   not wrap within them, or n divides 2^64, or the wrap falls between two whole sweeps.
   */
  lemma RoundRobinIsFairIff(ids: seq<string>, rr: nat, k: nat)
    requires ids != [] && Distinct(ids) && rr < LB.COUNTERS && k * |ids| <= LB.COUNTERS
    ensures (forall j :: 0 <= j < |ids| ==> Times(Turns(ids, rr, k * |ids|), ids[j]) == k)
            <==> rr + k * |ids| <= LB.COUNTERS || LB.COUNTERS % |ids| == 0 || rr % |ids| == LB.COUNTERS % |ids|
  {
    var n := |ids|;
    forall j | 0 <= j < n ensures Times(Turns(ids, rr, k * n), ids[j]) == Share(rr, k * n, n, j) {
      TurnsShare(ids, rr, k * n, j);
    }
    if rr + k * n <= LB.COUNTERS {
      Sweeps(rr, k, n);
    } else {
      forall j | 0 <= j < n {
        ShareAcrossWrap(rr, k, n, j);
      }
      assert ids[0] == ids[0] && ids[n - 1] == ids[n - 1];
    }
  }

  /** Across the wrap three exits do not share alike: the first gets two turns in a row. */
  lemma WrapRepeatsATurn(a: string, b: string, c: string)
    ensures Turns([a, b, c], LB.COUNTERS - 1, 2) == [a, a]
  {
  }
}

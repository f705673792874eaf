/** Selection of an exit for a new session (internal/lb/lb.go). */
module LoadBalancer {
  import opened Basics

  datatype Strategy = LeastConn | RoundRobin | Random

  datatype Node = Node(id: string, region: string, active: int, capacity: int) {

    predicate HasSpare() {
      capacity <= 0 || active < capacity
    }

    function LoadFraction(): real {
      if capacity <= 0 then active as real / 1000000000.0 else active as real / capacity as real
    }
  }

  const COUNTERS: nat := 0x1_0000_0000_0000_0000

  /** Incrementing a 64-bit counter. */
  function Bumped(rr: nat): nat {
    if rr + 1 == COUNTERS then 0 else rr + 1
  }

  // ---- node ids in byte order ----

  predicate Less(a: string, b: string) {
    b != [] && (a == [] || a[0] < b[0] || (a[0] == b[0] && Less(a[1..], b[1..])))
  }

  /** One id is less than another when it is a proper prefix, or smaller at the first character where they differ. */
  lemma {:induction false} LessMeans(a: string, b: string)
    ensures Less(a, b) <==> a < b || exists k :: 0 <= k < |a| && k < |b| && a[..k] == b[..k] && a[k] < b[k]
  {
    if a != [] && b != [] {
      if a[0] == b[0] {
        LessMeans(a[1..], b[1..]);
        assert a == [a[0]] + a[1..] && b == [b[0]] + b[1..];
        assert a < b <==> a[1..] < b[1..];
        if k :| 0 <= k < |a| && k < |b| && a[..k] == b[..k] && a[k] < b[k] {
          assert a[1..][..k - 1] == a[..k][1..] == b[..k][1..] == b[1..][..k - 1];
        }
        if k :| 0 <= k < |a[1..]| && k < |b[1..]| && a[1..][..k] == b[1..][..k] && a[1..][k] < b[1..][k] {
          assert a[..k + 1] == [a[0]] + a[1..][..k] == [b[0]] + b[1..][..k] == b[..k + 1];
        }
      } else if a[0] < b[0] {
        assert a[..0] == b[..0];
      } else if k :| 0 <= k < |a| && k < |b| && a[..k] == b[..k] && a[k] < b[k] {
        assert k > 0 ==> a[..k][0] == b[..k][0];
      }
    }
  }

  lemma {:induction false} LessTotal(a: string, b: string)
    ensures Less(a, b) || Less(b, a) || a == b
    ensures !(Less(a, b) && Less(b, a)) && (a == b ==> !Less(a, b))
  {
    if a != [] && b != [] && a[0] == b[0] {
      LessTotal(a[1..], b[1..]);
      assert a == [a[0]] + a[1..] && b == [b[0]] + b[1..];
    }
  }

  lemma {:induction false} LessTransitive(a: string, b: string, c: string)
    requires Less(a, b) && Less(b, c)
    ensures Less(a, c)
  {
    if a != [] && a[0] == b[0] == c[0] {
      LessTransitive(a[1..], b[1..], c[1..]);
    }
  }

  // ---- eligible exits, sorted by id ----

  predicate Eligible(n: Node, region: string) {
    n.region == region && n.HasSpare()
  }

  function Filter(nodes: seq<Node>, region: string): (e: seq<Node>)
    ensures forall n :: n in e <==> n in nodes && Eligible(n, region)
  {
    if nodes == [] then []
    else
      var last := nodes[|nodes| - 1];
      Filter(nodes[..|nodes| - 1], region) + if Eligible(last, region) then [last] else []
  }

  predicate SortedById(s: seq<Node>) {
    forall i, j :: 0 <= i < j < |s| ==> !Less(s[j].id, s[i].id)
  }

  function Insert(x: Node, s: seq<Node>): (r: seq<Node>)
    ensures multiset(r) == multiset(s) + multiset{x} && |r| == |s| + 1
  {
    if s == [] then [x]
    else if Less(s[0].id, x.id) then
      assert s == [s[0]] + s[1..];
      [s[0]] + Insert(x, s[1..])
    else [x] + s
  }

  function Sort(s: seq<Node>): (r: seq<Node>)
    ensures multiset(r) == multiset(s) && |r| == |s|
  {
    if s == [] then [] else assert s == [s[0]] + s[1..]; Insert(s[0], Sort(s[1..]))
  }

  lemma {:induction false} InsertSorted(x: Node, s: seq<Node>)
    requires SortedById(s)
    ensures SortedById(Insert(x, s))
  {
    if s != [] {
      if Less(s[0].id, x.id) {
        InsertSorted(x, s[1..]);
        InsertAbove(x, s);
        ConsSorted(s[0], Insert(x, s[1..]));
      } else {
        BelowAll(x, s);
        ConsSorted(x, s);
      }
    }
  }

  predicate NoneBelow(s: seq<Node>, id: string) {
    forall j :: 0 <= j < |s| ==> !Less(s[j].id, id)
  }

  lemma ConsSorted(x: Node, s: seq<Node>)
    requires SortedById(s) && NoneBelow(s, x.id)
    ensures SortedById([x] + s)
  {
  }

  lemma InsertAbove(x: Node, s: seq<Node>)
    requires SortedById(s) && s != [] && Less(s[0].id, x.id)
    ensures NoneBelow(Insert(x, s[1..]), s[0].id)
  {
    var r := Insert(x, s[1..]);
    LessTotal(s[0].id, x.id);
    forall j | 0 <= j < |r| ensures !Less(r[j].id, s[0].id) {
      assert r[j] in multiset(r);
      if r[j] in s[1..] {
        var k :| 0 <= k < |s[1..]| && s[1..][k] == r[j];
        assert s[k + 1] == r[j];
      }
    }
  }

  lemma BelowAll(x: Node, s: seq<Node>)
    requires SortedById(s) && s != [] && !Less(s[0].id, x.id)
    ensures NoneBelow(s, x.id)
  {
    LessTotal(s[0].id, x.id);
    forall j | 0 <= j < |s| ensures !Less(s[j].id, x.id) {
      LessTotal(s[0].id, s[j].id);
      if Less(s[j].id, x.id) && x.id != s[0].id && s[j].id != s[0].id {
        LessTransitive(s[j].id, x.id, s[0].id);
      }
    }
  }

  lemma {:induction false} SortSorted(s: seq<Node>)
    ensures SortedById(Sort(s))
  {
    if s != [] {
      SortSorted(s[1..]);
      InsertSorted(s[0], Sort(s[1..]));
    }
  }

  // ---- the order that least-conn minimises ----

  /** Fewer clients first, then the lower load fraction, then the smaller id. */
  predicate Better(a: Node, b: Node) {
    || a.active < b.active
    || (a.active == b.active && a.LoadFraction() < b.LoadFraction())
    || (a.active == b.active && a.LoadFraction() == b.LoadFraction() && Less(a.id, b.id))
  }

  /** The seats an exit shares out; an exit without a limit counts as one of a thousand million. */
  function Seats(n: Node): nat {
    if n.capacity <= 0 then 1000000000 else n.capacity
  }

  /** Load fractions compare as clients to seats do. */
  lemma LoadsCompare(a: Node, b: Node)
    ensures a.LoadFraction() < b.LoadFraction() <==> a.active * Seats(b) < b.active * Seats(a)
    ensures a.LoadFraction() == b.LoadFraction() <==> a.active * Seats(b) == b.active * Seats(a)
  {
    CrossMultiply(a.active as real, Seats(a) as real, b.active as real, Seats(b) as real);
  }

  lemma CrossMultiply(x: real, p: real, y: real, q: real)
    requires p > 0.0 && q > 0.0
    ensures x / p < y / q <==> x * q < y * p
    ensures x / p == y / q <==> x * q == y * p
  {
    var u, v := x / p, y / q;
    var pq := p * q;
    assert x * q == u * pq && y * p == v * pq;
    assert pq > 0.0;
    assert u < v ==> (v - u) * pq > 0.0;
    assert u > v ==> (u - v) * pq > 0.0;
  }

  /** The node is the lexicographic minimum of the eligible ones. */
  predicate IsBest(n: Node, nodes: seq<Node>, region: string) {
    n in nodes && Eligible(n, region) && forall m :: m in nodes && Eligible(m, region) ==> !Better(m, n)
  }

  /**
   Least-conn's choice, spelt out: a node of the region with a free seat that no other such node beats, by fewer
   clients, then by fewer clients to a seat, then by the smaller id.
   */
  lemma BestMeans(n: Node, nodes: seq<Node>, region: string)
    requires n in nodes
    ensures IsBest(n, nodes, region) <==>
              && n.region == region && (n.capacity <= 0 || n.active < n.capacity)
              && forall m :: m in nodes && m.region == region && (m.capacity <= 0 || m.active < m.capacity) ==>
                   n.active <= m.active &&
                   (n.active == m.active ==>
                      n.active * Seats(m) <= m.active * Seats(n) &&
                      (n.active * Seats(m) == m.active * Seats(n) ==> !Less(m.id, n.id)))
  {
    forall m | m in nodes {
      LoadsCompare(m, n);
    }
  }

  lemma BestIsUnique(a: Node, b: Node, nodes: seq<Node>, region: string)
    requires IsBest(a, nodes, region) && IsBest(b, nodes, region)
    ensures a.id == b.id && a.active == b.active
  {
    LessTotal(a.id, b.id);
  }

  lemma BetterTransitive(a: Node, b: Node, c: Node)
    requires !Better(b, a) && Better(c, a)
    ensures Better(c, b)
  {
    LessTotal(a.id, b.id);
    if Less(a.id, b.id) && Less(c.id, a.id) {
      LessTransitive(c.id, a.id, b.id);
    }
  }

  /** What a strategy says of the id it picks among the nodes; the random one picks any eligible. */
  ghost predicate PicksBy(strategy: Strategy, region: string, nodes: seq<Node>, rr: nat, id: string) {
    && (exists n :: n in nodes && Eligible(n, region) && n.id == id)
    && (strategy.LeastConn? ==> exists n :: IsBest(n, nodes, region) && n.id == id)
    && (strategy.RoundRobin? ==> var e := Sort(Filter(nodes, region)); e != [] && e[rr % |e|].id == id)
  }

  /** Pick: the counter is the caller's round-robin cursor, `draw` the random draw. */
  method Pick(strategy: Strategy, region: string, nodes: seq<Node>, rr: Option<nat>, draw: nat)
    returns (chosen: Option<string>, rr': Option<nat>)
    requires rr.Some? ==> rr.value < COUNTERS
    ensures chosen.None? <==>
              forall n :: n in nodes ==> n.region != region || (n.capacity > 0 && n.active >= n.capacity)
    ensures chosen.Some? ==> PicksBy(strategy, region, nodes, if rr.Some? then rr.value else 0, chosen.value)
    ensures rr' == if strategy.RoundRobin? && chosen.Some? && rr.Some? then Some(Bumped(rr.value)) else rr
  {
    rr' := rr;
    var eligible := [];
    for i := 0 to |nodes|
      invariant eligible == Filter(nodes[..i], region)
    {
      assert nodes[..i + 1][..i] == nodes[..i];
      if nodes[i].region == region && nodes[i].HasSpare() {
        eligible := eligible + [nodes[i]];
      }
    }
    assert nodes[..|nodes|] == nodes;
    if |eligible| == 0 {
      return None, rr;
    }
    var sorted := Sort(eligible);
    SortedMembers(eligible);
    match strategy {
      case RoundRobin =>
        var i := 0;
        if rr.Some? {
          i := rr.value;
          rr' := Some(Bumped(rr.value));
        }
        assert sorted[i % |sorted|] in sorted;
        chosen := Some(sorted[i % |sorted|].id);
      case Random =>
        assert sorted[draw % |sorted|] in sorted;
        chosen := Some(sorted[draw % |sorted|].id);
      case LeastConn =>
        var best := Least(sorted);
        assert IsBest(best, nodes, region);
        chosen := Some(best.id);
    }
  }

  lemma SortedMembers(e: seq<Node>)
    ensures SortedById(Sort(e)) && forall n :: n in Sort(e) <==> n in e
  {
    SortSorted(e);
    forall n ensures n in Sort(e) <==> n in e {
      assert n in multiset(Sort(e)) <==> n in multiset(e);
    }
  }

  /** The scan of least-conn over the sorted exits. */
  method Least(sorted: seq<Node>) returns (best: Node)
    requires sorted != [] && SortedById(sorted)
    ensures best in sorted && forall m :: m in sorted ==> !Better(m, best)
  {
    best := sorted[0];
    LessTotal(best.id, best.id);
    var i := 1;
    while i < |sorted|
      invariant 1 <= i <= |sorted| && best in sorted[..i]
      invariant forall j :: 0 <= j < i ==> !Better(sorted[j], best)
      invariant forall j :: i <= j < |sorted| ==> !Less(sorted[j].id, best.id)
    {
      var n := sorted[i];
      if n.active < best.active || (n.active == best.active && n.LoadFraction() < best.LoadFraction()) {
        forall j | 0 <= j < i ensures !Better(sorted[j], n) {
          if Better(sorted[j], n) {
            BetterTransitive(n, best, sorted[j]);
          }
        }
        LessTotal(n.id, n.id);
        best := n;
      }
      i := i + 1;
    }
    assert sorted[..i] == sorted;
  }

  /** Least-conn does not depend on the order of its input. */
  lemma OrderDoesNotMatter(a: seq<Node>, b: seq<Node>, region: string, x: Node, y: Node)
    requires multiset(a) == multiset(b) && IsBest(x, a, region) && IsBest(y, b, region)
    ensures x.id == y.id
  {
    forall n ensures n in a <==> n in b {
      assert n in multiset(a) <==> n in multiset(b);
    }
    BestIsUnique(x, y, a, region);
  }

  // ---- balance under arrivals ----

  predicate DistinctIds(nodes: seq<Node>) {
    forall i, j :: 0 <= i < j < |nodes| ==> nodes[i].id != nodes[j].id
  }

  /** A client is admitted to the exit with this id. */
  function Admit(nodes: seq<Node>, id: string): (r: seq<Node>)
    ensures |r| == |nodes|
    ensures forall i :: 0 <= i < |nodes| ==>
              r[i] == if nodes[i].id == id then nodes[i].(active := nodes[i].active + 1) else nodes[i]
  {
    seq(|nodes|, i requires 0 <= i < |nodes| =>
      if nodes[i].id == id then nodes[i].(active := nodes[i].active + 1) else nodes[i])
  }

  /** Each picked id is that of the best eligible exit at its time. */
  predicate LeastConnRun(nodes: seq<Node>, region: string, picks: seq<string>)
    decreases |picks|
  {
    picks == [] ||
      ((exists i :: 0 <= i < |nodes| && nodes[i].id == picks[0] && IsBest(nodes[i], nodes, region))
       && LeastConnRun(Admit(nodes, picks[0]), region, picks[1..]))
  }

  function AfterRun(nodes: seq<Node>, picks: seq<string>): (r: seq<Node>)
    ensures |r| == |nodes|
    decreases |picks|
  {
    if picks == [] then nodes else AfterRun(Admit(nodes, picks[0]), picks[1..])
  }

  /** No exit of the region is more than one client ahead of one that still has room. */
  predicate Balanced(nodes: seq<Node>, region: string) {
    forall i, j :: 0 <= i < |nodes| && 0 <= j < |nodes| && nodes[i].region == region && Eligible(nodes[j], region) ==>
      nodes[i].active <= nodes[j].active + 1
  }

  predicate RespectsCapacity(nodes: seq<Node>) {
    forall i :: 0 <= i < |nodes| ==> nodes[i].capacity <= 0 || nodes[i].active <= nodes[i].capacity
  }

  lemma AdmitKeepsBalance(nodes: seq<Node>, region: string, i: nat)
    requires DistinctIds(nodes) && Balanced(nodes, region) && i < |nodes| && IsBest(nodes[i], nodes, region)
    ensures DistinctIds(Admit(nodes, nodes[i].id)) && Balanced(Admit(nodes, nodes[i].id), region)
    ensures RespectsCapacity(nodes) ==> RespectsCapacity(Admit(nodes, nodes[i].id))
  {
    var r := Admit(nodes, nodes[i].id);
    forall x, y | 0 <= x < |r| && 0 <= y < |r| && r[x].region == region && Eligible(r[y], region)
      ensures r[x].active <= r[y].active + 1
    {
      assert nodes[y] in nodes && !Better(nodes[y], nodes[i]);
    }
  }

  /** From equal loads, with arrivals only, two exits of the region differ by at most one unless the lower is full. */
  lemma {:induction false} ArrivalsStayBalanced(nodes: seq<Node>, region: string, picks: seq<string>)
    requires DistinctIds(nodes) && LeastConnRun(nodes, region, picks) && Balanced(nodes, region)
             && RespectsCapacity(nodes)
    ensures Balanced(AfterRun(nodes, picks), region) && RespectsCapacity(AfterRun(nodes, picks))
    decreases |picks|
  {
    if picks != [] {
      var i :| 0 <= i < |nodes| && nodes[i].id == picks[0] && IsBest(nodes[i], nodes, region);
      AdmitKeepsBalance(nodes, region, i);
      ArrivalsStayBalanced(Admit(nodes, picks[0]), region, picks[1..]);
    }
  }

  lemma EqualLoadsAreBalanced(nodes: seq<Node>, region: string)
    requires forall i, j :: 0 <= i < |nodes| && 0 <= j < |nodes| && nodes[i].region == nodes[j].region == region ==>
               nodes[i].active == nodes[j].active
    ensures Balanced(nodes, region)
  {
  }
}

/** When the bytes already past a session's limiter break its rate bound, and when they do not. */
module PathRateExact {
  import opened Codec
  import opened RateLimit
  import opened PathSession
  import opened PathRate

  lemma {:induction false} RunsOn(sid: nat, s: State, a: seq<Step>, b: seq<Step>)
    requires IsRun(sid, s, a) && IsRun(sid, Exec(sid, s, a), b)
    ensures IsRun(sid, s, a + b) && Exec(sid, s, a + b) == Exec(sid, Exec(sid, s, a), b)
    decreases |a|
  {
    if a == [] {
      assert a + b == b;
    } else {
      RunsOn(sid, Do(sid, s, a[0]), a[1..], b);
      assert (a + b)[1..] == a[1..] + b;
    }
  }

  lemma OneStep(sid: nat, s: State, step: Step)
    requires Enabled(s, step)
    ensures IsRun(sid, s, [step]) && Exec(sid, s, [step]) == Do(sid, s, step)
  {
    assert [step][1..] == [];
  }

  /** From s to t bytes were handed, flying bytes and credit changed as said, and nothing else that matters did. */
  ghost predicate Went(s: State, t: State, handed: int, flying: int, credit: real) {
    && s.limiter.Some? && Metered(t) && t.path == s.path
    && t.limiter.value.rate == s.limiter.value.rate && t.limiter.value.burst == s.limiter.value.burst
    && PathRate.Handed(t) == PathRate.Handed(s) + handed && Flying(t) == Flying(s) + flying
       && Credit(t) == Credit(s) + credit
  }

  // ---- handing over what is in flight ----

  lemma HandStep(sid: nat, s: State, i: nat)
    requires Metered(s) && Enabled(s, Hand(i, true))
    ensures var t := DoHand(sid, s, i, true); Went(s, t, |s.sends[i].pkt|, -|s.sends[i].pkt|, 0.0) && t.now == s.now
  {
    var t := DoHand(sid, s, i, true);
    TotalUpdate(HandedBytes, s.sends, i, t.sends[i]);
    TotalUpdate(FlyingBytes, s.sends, i, t.sends[i]);
  }

  lemma ClearStep(s: State, i: nat)
    requires Metered(s) && i < |s.sends| && s.sends[i].Waiting? && !s.sends[i].limited
    ensures var t := DoAllow(s, i);
            Went(s, t, 0, 0, 0.0) && t.now == s.now && Enabled(t, Hand(i, true)) && t.sends[i].pkt == s.sends[i].pkt
  {
    var t := DoAllow(s, i);
    TotalUpdate(HandedBytes, s.sends, i, t.sends[i]);
    TotalUpdate(FlyingBytes, s.sends, i, t.sends[i]);
  }

  lemma {:induction false} SomeFlies(sends: seq<Sending>) returns (i: nat)
    requires Total(FlyingBytes, sends) > 0
    ensures i < |sends| && FlyingBytes(sends[i]) > 0
  {
    i := |sends| - 1;
    if FlyingBytes(sends[i]) == 0 {
      i := SomeFlies(sends[..i]);
    }
  }

  /** One call in flight goes out. */
  lemma OneOut(sid: nat, s: State) returns (steps: seq<Step>, n: nat)
    requires Metered(s) && Flying(s) > 0
    ensures n > 0 && IsRun(sid, s, steps)
    ensures var t := Exec(sid, s, steps); Went(s, t, n, -(n as int), 0.0) && t.now == s.now
  {
    var i := SomeFlies(s.sends);
    n := |s.sends[i].pkt|;
    if s.sends[i].Cleared? {
      HandStep(sid, s, i);
      OneStep(sid, s, Hand(i, true));
      steps := [Hand(i, true)];
    } else {
      var t := DoAllow(s, i);
      ClearStep(s, i);
      HandStep(sid, t, i);
      OneStep(sid, t, Hand(i, true));
      Prepend(sid, s, Allow(i), [Hand(i, true)]);
      steps := [Allow(i)] + [Hand(i, true)];
    }
  }

  /** Everything in flight can go out at once. */
  lemma {:induction false} AllOut(sid: nat, s: State) returns (steps: seq<Step>)
    requires Metered(s)
    ensures IsRun(sid, s, steps)
    ensures var t := Exec(sid, s, steps); Went(s, t, Flying(s), -(Flying(s) as int), 0.0) && t.now == s.now
    decreases Flying(s)
  {
    steps := [];
    if Flying(s) > 0 {
      var first, n := OneOut(sid, s);
      var rest := AllOut(sid, Exec(sid, s, first));
      RunsOn(sid, s, first, rest);
      steps := first + rest;
    }
  }

  // ---- spending credit ----

  /** A packet within the credit goes through at once. */
  lemma SendNow(sid: nat, s: State, pkt: Bytes) returns (steps: seq<Step>)
    requires Metered(s) && s.path.Some? && |pkt| as real <= Credit(s)
    ensures IsRun(sid, s, steps)
    ensures var t := Exec(sid, s, steps); Went(s, t, |pkt|, 0, -(|pkt| as real)) && t.now == s.now
  {
    var i := |s.sends|;
    var a := DoTake(s, pkt);
    var b := DoAllow(a, i);
    TakeStep(s, pkt);
    AdmitStep(a, i);
    HandStep(sid, b, i);
    OneStep(sid, b, Hand(i, true));
    Prepend(sid, a, Allow(i), [Hand(i, true)]);
    Prepend(sid, s, Take(pkt), [Allow(i)] + [Hand(i, true)]);
    steps := [Take(pkt)] + ([Allow(i)] + [Hand(i, true)]);
  }

  lemma TakeStep(s: State, pkt: Bytes)
    requires Metered(s) && s.path.Some?
    ensures var t := DoTake(s, pkt);
            Went(s, t, 0, 0, 0.0) && t.now == s.now && |t.sends| == |s.sends| + 1
                && t.sends[|s.sends|] == Waiting(pkt, s.path.value, true)
  {
    TotalAppend(HandedBytes, s.sends, Waiting(pkt, s.path.value, true));
    TotalAppend(FlyingBytes, s.sends, Waiting(pkt, s.path.value, true));
  }

  lemma AdmitStep(s: State, i: nat)
    requires Metered(s) && i < |s.sends| && s.sends[i].Waiting? && s.sends[i].limited
             && |s.sends[i].pkt| as real <= Credit(s)
    ensures var t, n := DoAllow(s, i), |s.sends[i].pkt|;
            Went(s, t, 0, n, -(n as real)) && t.now == s.now && Enabled(t, Hand(i, true))
                && t.sends[i].pkt == s.sends[i].pkt
  {
    var t := DoAllow(s, i);
    CreditSpent(s.limiter.value, s.now, |s.sends[i].pkt|);
    TotalUpdate(HandedBytes, s.sends, i, t.sends[i]);
    TotalUpdate(FlyingBytes, s.sends, i, t.sends[i]);
  }

  /** Waiting until the credit is one whole byte. */
  lemma WaitForOne(s: State) returns (dt: real)
    requires Metered(s) && Credit(s) < 1.0 <= s.limiter.value.burst
    ensures dt >= 0.0 && s.limiter.value.rate * dt == 1.0 - Credit(s)
    ensures var t := s.(now := s.now + dt); Metered(t) && Credit(t) == 1.0
  {
    var l := s.limiter.value;
    dt := Quotient(1.0 - Credit(s), l.rate);
    CreditAfter(l, s.now, dt);
  }

  lemma Quotient(x: real, r: real) returns (d: real)
    requires x >= 0.0 && r > 0.0
    ensures d >= 0.0 && r * d == x
  {
    d := x / r;
  }

  /** While the burst is not reached, time adds exactly its worth. */
  lemma CreditAfter(l: Level, now: real, dt: real)
    requires l.Valid() && l.rate > 0.0 && dt >= 0.0 && (l.last.Some? ==> l.last.value <= now)
    requires TopUp(l, now).tokens + l.rate * dt <= l.burst && TopUp(l, now).tokens < l.burst
    ensures TopUp(l, now + dt).tokens == TopUp(l, now).tokens + l.rate * dt
  {
    if l.last.Some? {
      Spread(l.rate, now - l.last.value, dt);
      Grows(l.rate, dt);
      Grows(l.rate, now - l.last.value);
    }
  }

  // ---- the exact condition ----

  /** In every continuation the bytes handed over fit the burst and what the time is worth. */
  ghost predicate AlwaysWithin(sid: nat, s: State)
    requires s.limiter.Some?
  {
    forall steps :: IsRun(sid, s, steps) ==>
      Within(s.limiter.value, Exec(sid, s, steps).now - s.now, 0,
             PathRate.Handed(Exec(sid, s, steps)) - PathRate.Handed(s))
  }

  lemma EnoughRoom(sid: nat, s: State, steps: seq<Step>)
    requires Metered(s) && IsRun(sid, s, steps) && Flying(s) as real + Credit(s) <= s.limiter.value.burst
    ensures var t := Exec(sid, s, steps);
            Within(s.limiter.value, t.now - s.now, 0, PathRate.Handed(t) - PathRate.Handed(s))
  {
    PaidRun(sid, s, steps);
    PaidFits(s, Exec(sid, s, steps));
  }

  lemma PaidFits(s: State, t: State)
    requires Paid(s, t) && Flying(s) as real + Credit(s) <= s.limiter.value.burst
    ensures Within(s.limiter.value, t.now - s.now, 0, PathRate.Handed(t) - PathRate.Handed(s))
  {
    TopUpStays(t.limiter.value, t.now);
    EarnedFits(s.limiter.value, s.now, PathRate.Handed(s), Flying(s), Credit(s), t.now, PathRate.Handed(t),
               Flying(t), Credit(t));
  }

  lemma EarnedFits(l: Level, a: real, h: nat, f: nat, c: real, b: real, h': nat, f': nat, c': real)
    requires Earned(l.rate, a, (h + f) as real + c, b, (h' + f') as real + c') && f as real + c <= l.burst && 0.0 <= c'
    ensures Within(l, b - a, 0, h' - h)
  {
  }

  /** Hand over what is in flight and spend the whole bytes of credit, in no time. */
  lemma SpendAll(sid: nat, s: State, n: nat) returns (steps: seq<Step>)
    requires Metered(s) && s.path.Some? && n as real <= Credit(s)
    ensures IsRun(sid, s, steps)
    ensures var t := Exec(sid, s, steps); Went(s, t, Flying(s) + n, -(Flying(s) as int), -(n as real)) && t.now == s.now
  {
    var a := AllOut(sid, s);
    var b := SendNow(sid, Exec(sid, s, a), Zeros(n));
    RunsOn(sid, s, a, b);
    steps := a + b;
  }

  /** Wait for one more byte of credit and send it. */
  lemma OneMore(sid: nat, s: State, rate: real, c: real) returns (steps: seq<Step>, dt: real)
    requires Metered(s) && s.path.Some? && s.limiter.value.rate == rate && Credit(s) == c < 1.0 <= s.limiter.value.burst
    ensures IsRun(sid, s, steps) && rate * dt == 1.0 - c
    ensures var t := Exec(sid, s, steps); PathRate.Handed(t) == PathRate.Handed(s) + 1 && t.now == s.now + dt
  {
    dt := WaitForOne(s);
    var t := Do(sid, s, Tick(dt));
    var c := SendNow(sid, t, Zeros(1));
    Prepend(sid, s, Tick(dt), c);
    steps := [Tick(dt)] + c;
  }

  lemma WholeBytes(c: real) returns (n: nat)
    requires c >= 0.0
    ensures n as real <= c < n as real + 1.0
  {
    n := c.Floor;
  }

  /** Do both: n whole bytes of credit, then one more in the time that takes. */
  lemma SpendAndWait(sid: nat, s: State, n: nat, rate: real, c: real) returns (steps: seq<Step>, dt: real)
    requires Metered(s) && s.path.Some? && s.limiter.value.rate == rate && s.limiter.value.burst >= 1.0
    requires n as real <= Credit(s) < n as real + 1.0 && c == Credit(s) - n as real
    ensures IsRun(sid, s, steps) && rate * dt == 1.0 - c
    ensures var t := Exec(sid, s, steps);
            PathRate.Handed(t) == PathRate.Handed(s) + Flying(s) + n + 1 && t.now == s.now + dt
  {
    var a := SpendAll(sid, s, n);
    var t := Exec(sid, s, a);
    var b;
    b, dt := OneMore(sid, t, rate, c);
    RunsOn(sid, s, a, b);
    steps := a + b;
  }

  lemma Overruns(sid: nat, s: State) returns (steps: seq<Step>)
    requires Metered(s) && s.path.Some? && s.limiter.value.burst >= 1.0
             && Flying(s) as real + Credit(s) > s.limiter.value.burst
    ensures IsRun(sid, s, steps)
    ensures var t := Exec(sid, s, steps);
            !Within(s.limiter.value, t.now - s.now, 0, PathRate.Handed(t) - PathRate.Handed(s))
  {
    TopUpStays(s.limiter.value, s.now);
    var n := WholeBytes(Credit(s));
    var dt;
    steps, dt := SpendAndWait(sid, s, n, s.limiter.value.rate, Credit(s) - n as real);
    Overdrawn(s.limiter.value, Flying(s), Credit(s), n, dt);
  }

  function Zeros(n: nat): (b: Bytes)
    ensures |b| == n
  {
    seq(n, i => 0)
  }

  lemma Overdrawn(l: Level, f: nat, c: real, n: nat, dt: real)
    requires f as real + c > l.burst && l.rate * dt == 1.0 - (c - n as real)
    ensures !Within(l, dt, 0, f + n + 1)
  {
  }

  /**
   On a path, with a burst of at least one byte, the plain bound of burst + rate * elapsed holds of every continuation
   if and only if the bytes in flight and the credit left fit the burst together.
   */
  lemma PlainBoundIff(sid: nat, s: State)
    requires Metered(s) && s.path.Some? && s.limiter.value.burst >= 1.0
    ensures AlwaysWithin(sid, s) <==> Flying(s) as real + Credit(s) <= s.limiter.value.burst
  {
    if Flying(s) as real + Credit(s) <= s.limiter.value.burst {
      forall steps | IsRun(sid, s, steps)
        ensures Within(s.limiter.value, Exec(sid, s, steps).now - s.now, 0,
                       PathRate.Handed(Exec(sid, s, steps)) - PathRate.Handed(s))
      {
        EnoughRoom(sid, s, steps);
      }
    } else {
      var steps := Overruns(sid, s);
    }
  }
}

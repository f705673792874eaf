/**
 The rate bound of a session, however often its path is swapped: internal/session/session.go with
 internal/ratelimit/ratelimit.go.
 */
module PathRate {
  import opened Basics
  import opened RateLimit
  import opened PathSession

  // ---- bytes of the Send calls, by how far they got ----

  function HandedBytes(c: Sending): nat {
    if c.Handed? then |c.pkt| else 0
  }

  /** Past the limiter and not yet with a sender. */
  function FlyingBytes(c: Sending): nat {
    if c.Cleared? || (c.Waiting? && !c.limited) then |c.pkt| else 0
  }

  function Total(f: Sending -> nat, sends: seq<Sending>): nat {
    if sends == [] then 0 else Total(f, sends[..|sends| - 1]) + f(sends[|sends| - 1])
  }

  lemma {:induction false} TotalUpdate(f: Sending -> nat, sends: seq<Sending>, i: nat, c: Sending)
    requires i < |sends|
    ensures Total(f, sends[i := c]) == Total(f, sends) - f(sends[i]) + f(c)
  {
    var n := |sends| - 1;
    if i < n {
      TotalUpdate(f, sends[..n], i, c);
      assert sends[i := c][..n] == sends[..n][i := c];
    } else {
      assert sends[i := c][..n] == sends[..n];
    }
  }

  lemma TotalAppend(f: Sending -> nat, sends: seq<Sending>, c: Sending)
    ensures Total(f, sends + [c]) == Total(f, sends) + f(c)
  {
  }

  function Handed(s: State): nat { Total(HandedBytes, s.sends) }

  function Flying(s: State): nat { Total(FlyingBytes, s.sends) }

  // ---- credit ----

  ghost predicate Metered(s: State) {
    s.limiter.Some? && s.limiter.value.Valid() && s.limiter.value.rate > 0.0
    && (s.limiter.value.last.Some? ==> s.limiter.value.last.value <= s.now)
  }

  /** Bytes the limiter would let through at once. */
  function Credit(s: State): real
    requires s.limiter.Some?
  {
    TopUp(s.limiter.value, s.now).tokens
  }

  lemma CreditGrows(l: Level, now: real, dt: real)
    requires l.Valid() && l.rate > 0.0 && dt >= 0.0 && (l.last.Some? ==> l.last.value <= now)
    ensures TopUp(l, now + dt).tokens <= TopUp(l, now).tokens + l.rate * dt
  {
    Grows(l.rate, dt);
    if l.last.Some? {
      Spread(l.rate, now - l.last.value, dt);
    }
  }

  lemma Spread(r: real, a: real, b: real)
    ensures (a + b) * r == a * r + r * b
  {
  }

  lemma CreditSpent(l: Level, now: real, n: nat)
    requires l.Valid() && l.rate > 0.0 && (l.last.Some? ==> l.last.value <= now)
    ensures var (ok, m) := Admit(l, now, n);
            && m.Valid() && m.rate == l.rate && m.burst == l.burst && m.last == Some(now)
            && TopUp(m, now).tokens == TopUp(l, now).tokens - if ok then n as real else 0.0
  {
    TopUpStays(l, now);
  }

  lemma TopUpStays(l: Level, now: real)
    requires l.Valid() && l.rate > 0.0 && (l.last.Some? ==> l.last.value <= now)
    ensures TopUp(l, now).Valid() && TopUp(l, now).last == Some(now)
    ensures 0.0 <= TopUp(l, now).tokens <= l.burst
  {
    if l.last.Some? {
      Grows(l.rate, now - l.last.value);
    }
  }

  /** What a step clears is paid for by credit, and credit comes only with time. */
  ghost predicate Paid(s: State, t: State) {
    && Metered(s) && Metered(t)
    && t.limiter.value.rate == s.limiter.value.rate && t.limiter.value.burst == s.limiter.value.burst
    && Earned(s.limiter.value.rate, s.now, Balance(s), t.now, Balance(t))
  }

  /** Bytes past the limiter so far, with those it would let through at once. */
  function Balance(s: State): real
    requires s.limiter.Some?
  {
    (Handed(s) + Flying(s)) as real + Credit(s)
  }

  predicate Earned(rate: real, a: real, x: real, b: real, y: real) {
    y <= x + rate * (b - a)
  }

  lemma EarnedTrans(rate: real, a: real, x: real, b: real, y: real, c: real, z: real)
    requires Earned(rate, a, x, b, y) && Earned(rate, b, y, c, z)
    ensures Earned(rate, a, x, c, z)
  {
    Distribute(rate, c, b, a);
  }

  lemma PaidAllow(s: State, i: nat)
    requires Metered(s) && Enabled(s, Allow(i))
    ensures Paid(s, DoAllow(s, i))
  {
    var t := DoAllow(s, i);
    TotalUpdate(HandedBytes, s.sends, i, t.sends[i]);
    TotalUpdate(FlyingBytes, s.sends, i, t.sends[i]);
    if s.sends[i].limited {
      CreditSpent(s.limiter.value, s.now, |s.sends[i].pkt|);
    }
  }

  lemma PaidHand(sid: nat, s: State, i: nat, ok: bool)
    requires Metered(s) && Enabled(s, Hand(i, ok))
    ensures Paid(s, DoHand(sid, s, i, ok))
  {
    var t := DoHand(sid, s, i, ok);
    TotalUpdate(HandedBytes, s.sends, i, t.sends[i]);
    TotalUpdate(FlyingBytes, s.sends, i, t.sends[i]);
  }

  lemma PaidTick(s: State, dt: real)
    requires Metered(s) && dt >= 0.0
    ensures Paid(s, s.(now := s.now + dt))
  {
    CreditGrows(s.limiter.value, s.now, dt);
  }

  lemma PaidStep(sid: nat, s: State, step: Step)
    requires Metered(s) && Enabled(s, step)
    ensures Paid(s, Do(sid, s, step))
  {
    match step
    case Take(pkt) =>
      var c := DoTake(s, pkt).sends[|s.sends|];
      TotalAppend(HandedBytes, s.sends, c);
      TotalAppend(FlyingBytes, s.sends, c);
    case Allow(i) => PaidAllow(s, i);
    case Hand(i, ok) => PaidHand(sid, s, i, ok);
    case Tick(dt) => PaidTick(s, dt);
    case _ =>
  }

  lemma PaidTrans(s: State, t: State, u: State)
    requires Paid(s, t) && Paid(t, u)
    ensures Paid(s, u)
  {
    EarnedTrans(s.limiter.value.rate, s.now, Balance(s), t.now, Balance(t), u.now, Balance(u));
  }

  lemma {:induction false} PaidRun(sid: nat, s: State, steps: seq<Step>)
    requires Metered(s) && IsRun(sid, s, steps)
    ensures Paid(s, Exec(sid, s, steps))
    decreases |steps|
  {
    if steps == [] {
      assert s.limiter.value.rate * (s.now - s.now) == 0.0;
    } else {
      var t := Do(sid, s, steps[0]);
      PaidStep(sid, s, steps[0]);
      PaidRun(sid, t, steps[1..]);
      PaidTrans(s, t, Exec(sid, t, steps[1..]));
    }
  }

  /** The bytes fit the burst, what the time is worth and an allowance. */
  predicate Within(l: Level, elapsed: real, allowance: nat, bytes: int) {
    bytes as real <= l.burst + l.rate * elapsed + allowance as real
  }

  lemma EarnedBounds(l: Level, a: real, h: nat, f: nat, c: real, b: real, h': nat, f': nat, c': real)
    requires Earned(l.rate, a, (h + f) as real + c, b, (h' + f') as real + c') && c <= l.burst && 0.0 <= c'
    ensures Within(l, b - a, f, h' - h)
  {
  }

  /**
   From any point of a run to any later one, whatever moves happen in between, the bytes handed to senders
   are at most the burst, plus what the time is worth, plus what was past the limiter at the first point.
   */
  lemma RateBoundAcrossMigrations(sid: nat, s: State, steps: seq<Step>)
    requires Metered(s) && IsRun(sid, s, steps)
    ensures var t := Exec(sid, s, steps); Within(s.limiter.value, t.now - s.now, Flying(s), Handed(t) - Handed(s))
  {
    PaidRun(sid, s, steps);
    PaidBounds(s, Exec(sid, s, steps));
  }

  lemma PaidBounds(s: State, t: State)
    requires Paid(s, t)
    ensures Within(s.limiter.value, t.now - s.now, Flying(s), Handed(t) - Handed(s))
  {
    TopUpStays(s.limiter.value, s.now);
    TopUpStays(t.limiter.value, t.now);
    EarnedBounds(s.limiter.value, s.now, Handed(s), Flying(s), Credit(s), t.now, Handed(t), Flying(t), Credit(t));
  }

  /** A limiter installed in a running session meters it from then on. */
  lemma LimitMeters(sid: nat, s: State, rate: real, burst: real)
    requires s.limiter.None? && rate > 0.0
    ensures Metered(Do(sid, s, SetLimit(rate, burst)))
  {
  }

  /** A session on its relay with one packet past the limiter, a second behind it, and a second gone by. */
  function Backlog(): State {
    var p := ViaRelay(1);
    State(1.0, Relaying, Some(p), Some(Level(1.0, 1.0, 0.0, Some(0.0))), [Install(Some(p), true)], Some(0),
          [Cleared([0], p), Waiting([0], p, true)], [])
  }

  lemma BacklogIsReached(sid: nat) returns (steps: seq<Step>)
    ensures IsRun(sid, Start(0.0), steps) && Exec(sid, Start(0.0), steps) == Backlog()
  {
    var s0 := Start(0.0);
    var s1 := DoFire(s0, StartRelay(1));
    var s2 := DoRunInstall(s1, 0);
    var s3 := Do(sid, s2, SetLimit(1.0, 1.0));
    var s4 := DoTake(s3, [0]);
    var s5 := DoTake(s4, [0]);
    var s6 := DoAllow(s5, 0);
    var s7 := Do(sid, s6, Tick(1.0));
    assert s7 == Backlog();
    steps := [];
    assert Exec(sid, s7, steps) == s7;
    Prepend(sid, s6, Tick(1.0), steps);
    steps := [Tick(1.0)] + steps;
    Prepend(sid, s5, Allow(0), steps);
    steps := [Allow(0)] + steps;
    Prepend(sid, s4, Take([0]), steps);
    steps := [Take([0])] + steps;
    Prepend(sid, s3, Take([0]), steps);
    steps := [Take([0])] + steps;
    Prepend(sid, s2, SetLimit(1.0, 1.0), steps);
    steps := [SetLimit(1.0, 1.0)] + steps;
    Prepend(sid, s1, RunInstall(0), steps);
    steps := [RunInstall(0)] + steps;
    Prepend(sid, s0, Fire(StartRelay(1)), steps);
    steps := [Fire(StartRelay(1))] + steps;
  }

  /** Both packets can then go out in no time at all. */
  lemma BacklogDrains(sid: nat) returns (steps: seq<Step>)
    ensures IsRun(sid, Backlog(), steps)
    ensures var t := Exec(sid, Backlog(), steps);
            t.now == Backlog().now && |t.sends| == 2 && t.sends[0] == t.sends[1] == Sending.Handed([0], ViaRelay(1))
  {
    var s1 := DoAllow(Backlog(), 1);
    assert s1.sends == [Cleared([0], ViaRelay(1)), Cleared([0], ViaRelay(1))];
    steps := HandBoth(sid, s1);
    Prepend(sid, Backlog(), Allow(1), steps);
    steps := [Allow(1)] + steps;
  }

  lemma HandBoth(sid: nat, s: State) returns (steps: seq<Step>)
    requires |s.sends| == 2 && s.sends[0].Cleared? && s.sends[1].Cleared?
    ensures IsRun(sid, s, steps)
    ensures var t := Exec(sid, s, steps);
            && t.now == s.now && |t.sends| == 2
            && t.sends[0] == Sending.Handed(s.sends[0].pkt, s.sends[0].path)
            && t.sends[1] == Sending.Handed(s.sends[1].pkt, s.sends[1].path)
  {
    var t := DoHand(sid, s, 0, true);
    var u := DoHand(sid, t, 1, true);
    steps := [];
    assert Exec(sid, u, steps) == u;
    Prepend(sid, t, Hand(1, true), steps);
    steps := [Hand(1, true)] + steps;
    Prepend(sid, s, Hand(0, true), steps);
    steps := [Hand(0, true)] + steps;
  }

  /** The in-flight term is needed: a packet cleared before the first point goes out on top of a full burst. */
  lemma InFlightCounts(sid: nat) returns (steps: seq<Step>)
    ensures IsRun(sid, Backlog(), steps)
    ensures var t := Exec(sid, Backlog(), steps);
            !Within(Backlog().limiter.value, t.now - Backlog().now, 0, Handed(t) - Handed(Backlog()))
  {
    steps := BacklogDrains(sid);
    TotalOfTwo(HandedBytes, Backlog().sends);
    TotalOfTwo(HandedBytes, Exec(sid, Backlog(), steps).sends);
  }

  lemma TotalOfTwo(f: Sending -> nat, sends: seq<Sending>)
    requires |sends| == 2
    ensures Total(f, sends) == f(sends[0]) + f(sends[1])
  {
    assert sends[..1][..0] == [];
    assert Total(f, sends[..1]) == f(sends[0]);
  }
}

/** The token bucket of internal/ratelimit/ratelimit.go, with bytes and seconds as reals. */
module RateLimit {
  import opened Basics

  /** A bucket's contents. last is the latest clock reading used, None before the first call. */
  datatype Level = Level(rate: real, burst: real, tokens: real, last: Option<real>) {
    predicate Valid() {
      rate > 0.0 ==> rate <= burst && 0.0 <= tokens <= burst && (last.None? ==> tokens == burst)
    }
  }

  /** A new bucket holds its burst, the larger of the two figures given, and has read no clock. */
  function Full(rate: real, burst: real): (l: Level)
    ensures l.Valid() && l.rate == rate && l.tokens == l.burst && l.last.None?
    ensures l.burst >= burst && l.burst >= rate && (l.burst == burst || l.burst == rate)
  {
    var b := if burst < rate then rate else burst;
    Level(rate, b, b, None)
  }

  /** The bucket after topping it up for the time that passed. A clock that went back adds nothing. */
  function TopUp(l: Level, now: real): Level {
    if l.last.None? then l.(last := Some(now))
    else if now > l.last.value then
      var t := l.tokens + (now - l.last.value) * l.rate;
      l.(tokens := if t > l.burst then l.burst else t, last := Some(now))
    else l
  }

  /** One call for n bytes: whether they may go, and the bucket afterwards. */
  function Admit(l: Level, now: real, n: nat): (bool, Level) {
    if l.rate <= 0.0 then (true, l)
    else
      var t := TopUp(l, now);
      if t.tokens >= n as real then (true, t.(tokens := t.tokens - n as real)) else (false, t)
  }

  class Bucket {
    const rate: real
    const burst: real
    var tokens: real
    var last: Option<real>

    function State(): Level
      reads this
    {
      Level(rate, burst, tokens, last)
    }

    constructor (rate: real, burst: real)
      ensures State() == Full(rate, burst)
    {
      var b := burst;
      if b < rate {
        b := rate;
      }
      this.rate, this.burst, tokens, last := rate, b, b, None;
    }

    method Allow(n: nat, now: real) returns (ok: bool)
      modifies this
      ensures (ok, State()) == Admit(old(State()), now, n)
      ensures rate <= 0.0 ==> ok && State() == old(State())
    {
      if rate <= 0.0 {
        return true;
      }
      if last.None? {
        last := Some(now);
      }
      var elapsed := now - last.value;
      if elapsed > 0.0 {
        tokens := tokens + elapsed * rate;
        if tokens > burst {
          tokens := burst;
        }
        last := Some(now);
      }
      if tokens >= n as real {
        tokens := tokens - n as real;
        return true;
      }
      return false;
    }
  }

  // ---- whole runs ----

  /** A call: the clock it reads and the bytes it asks for. */
  datatype Call = Call(now: real, bytes: nat)

  /** Where a window may open: at a call's clock (the latest reading so far), with the bytes passed before it. */
  datatype Mark = Mark(clock: real, passed: nat)

  /** A bucket with the record of its use: one mark per call, and the bytes passed in all. */
  datatype Ledger = Ledger(level: Level, marks: seq<Mark>, passed: nat)

  function Marked(g: Ledger, now: real): Ledger {
    var t := TopUp(g.level, now);
    g.(level := t, marks := g.marks + [Mark(t.last.value, g.passed)])
  }

  function Use(g: Ledger, c: Call): Ledger
    requires g.level.rate > 0.0
  {
    var (ok, l) := Admit(g.level, c.now, c.bytes);
    Marked(g, c.now).(level := l, passed := g.passed + if ok then c.bytes else 0)
  }

  function Run(l: Level, calls: seq<Call>): (g: Ledger)
    requires l.rate > 0.0
    ensures g.level.rate == l.rate && g.level.burst == l.burst && |g.marks| == |calls|
  {
    if calls == [] then Ledger(l, [], 0)
    else Use(Run(l, calls[..|calls| - 1]), calls[|calls| - 1])
  }

  /** What the window opened by call j still allows: burst + rate * elapsed, less the bytes passed in it. */
  function Room(g: Ledger, j: nat): real
    requires j < |g.marks| && g.level.last.Some?
  {
    g.level.burst + g.level.rate * (g.level.last.value - g.marks[j].clock) - (g.passed - g.marks[j].passed) as real
  }

  /** The tokens are the room of the tightest window, and the clock never runs back. */
  ghost predicate Tightest(g: Ledger) {
    && g.level.Valid() && g.level.rate > 0.0
    && (g.level.last.None? <==> g.marks == [])
    && (g.marks != [] ==>
      && (forall j :: 0 <= j < |g.marks| ==> g.level.tokens <= Room(g, j))
      && (exists j :: 0 <= j < |g.marks| && g.level.tokens == Room(g, j)))
  }

  lemma Grows(rate: real, dt: real)
    requires rate > 0.0 && dt >= 0.0
    ensures dt * rate == rate * dt && dt * rate >= 0.0
  {
  }

  /** Time adds the same to every open window. */
  lemma RoomGrows(g: Ledger, now: real, j: nat)
    requires j < |g.marks| && g.level.last.Some?
    ensures Room(Marked(g, now), j) == Room(g, j) + (TopUp(g.level, now).last.value - g.level.last.value) * g.level.rate
  {
    var r, a, b, c := g.level.rate, TopUp(g.level, now).last.value, g.level.last.value, g.marks[j].clock;
    Distribute(r, a, b, c);
  }

  lemma Distribute(r: real, a: real, b: real, c: real)
    ensures r * (a - c) == (a - b) * r + r * (b - c)
  {
  }

  lemma RoomOpens(g: Ledger, now: real)
    ensures Room(Marked(g, now), |g.marks|) == g.level.burst
  {
  }

  lemma MarkedIsTightest(g: Ledger, now: real)
    requires Tightest(g)
    ensures Tightest(Marked(g, now))
  {
    var h := Marked(g, now);
    RoomOpens(g, now);
    if g.marks != [] {
      Grows(g.level.rate, h.level.last.value - g.level.last.value);
      var gain := (h.level.last.value - g.level.last.value) * g.level.rate;
      forall j | 0 <= j < |g.marks| ensures Room(h, j) == Room(g, j) + gain {
        RoomGrows(g, now, j);
      }
      TopUpAdds(g.level, now, gain);
      var j :| 0 <= j < |g.marks| && g.level.tokens == Room(g, j);
      assert Room(h, j) == g.level.tokens + gain;
    }
  }

  /** Topping up adds what the time is worth, up to the burst. */
  lemma TopUpAdds(l: Level, now: real, gain: real)
    requires l.Valid() && l.rate > 0.0 && l.last.Some?
    requires gain == (TopUp(l, now).last.value - l.last.value) * l.rate && gain >= 0.0
    ensures TopUp(l, now).tokens == if l.tokens + gain > l.burst then l.burst else l.tokens + gain
    ensures TopUp(l, now).Valid()
  {
  }

  lemma UseIsTightest(g: Ledger, c: Call)
    requires Tightest(g)
    ensures Tightest(Use(g, c))
    ensures Admit(g.level, c.now, c.bytes).0
            <==> forall j :: 0 <= j <= |g.marks| ==> c.bytes as real <= Room(Marked(g, c.now), j)
  {
    var m, h := Marked(g, c.now), Use(g, c);
    MarkedIsTightest(g, c.now);
    forall j | 0 <= j < |m.marks| ensures Room(h, j) == Room(m, j) - (h.passed - g.passed) as real {
    }
    var j :| 0 <= j < |m.marks| && m.level.tokens == Room(m, j);
    assert h.level.tokens == Room(h, j);
  }

  /** After any calls, the tokens left are what the tightest window since the first call still allows. */
  lemma {:induction false} TokensAreTightest(l: Level, calls: seq<Call>)
    requires l.Valid() && l.last.None? && l.rate > 0.0
    ensures Tightest(Run(l, calls))
  {
    if calls != [] {
      TokensAreTightest(l, calls[..|calls| - 1]);
      UseIsTightest(Run(l, calls[..|calls| - 1]), calls[|calls| - 1]);
    }
  }

  /** In any window, from any call to any later one, at most burst + rate * elapsed bytes pass. */
  lemma WindowBound(l: Level, calls: seq<Call>, j: nat)
    requires l.Valid() && l.last.None? && l.rate > 0.0 && j < |calls|
    ensures var g := Run(l, calls);
            0.0 <= g.level.tokens <= g.level.burst && g.level.last.Some? && Room(g, j) >= 0.0
  {
    TokensAreTightest(l, calls);
  }

  /** A call is refused only for cause: it goes through exactly when it overdraws no window, its own included. */
  lemma AllowedIffEveryWindowHasRoom(l: Level, calls: seq<Call>, c: Call)
    requires l.Valid() && l.last.None? && l.rate > 0.0
    ensures var g := Run(l, calls);
            Admit(g.level, c.now, c.bytes).0
            <==> forall j :: 0 <= j <= |calls| ==> c.bytes as real <= Room(Marked(g, c.now), j)
  {
    TokensAreTightest(l, calls);
    UseIsTightest(Run(l, calls), c);
  }

  /** The clock kept is the latest reading of any call so far. */
  lemma {:induction false} ClockIsLatest(l: Level, calls: seq<Call>)
    requires l.last.None? && l.rate > 0.0 && calls != []
    ensures var last := Run(l, calls).level.last;
            && last.Some?
            && (forall i :: 0 <= i < |calls| ==> calls[i].now <= last.value)
            && (exists i :: 0 <= i < |calls| && calls[i].now == last.value)
  {
    var n := |calls| - 1;
    assert calls[n].now <= TopUp(Run(l, calls[..n]).level, calls[n].now).last.value;
    if n > 0 {
      ClockIsLatest(l, calls[..n]);
      var i :| 0 <= i < n && calls[..n][i].now == Run(l, calls[..n]).level.last.value;
      assert calls[i].now == calls[..n][i].now;
    }
  }
}

/** Throughput figures of the quality tracker: what the current and the peak rate are made of. */
module QosRates {
  import opened Basics
  import opened Qos
  import opened QosTheorems
  import opened QosAccounts

  /** The latest of the rates, zero before the first. */
  function Latest(rates: seq<real>): real {
    if rates == [] then 0.0 else rates[|rates| - 1]
  }

  /** The largest of the rates, and at least zero. */
  function Peak(rates: seq<real>): (p: real)
    ensures p >= 0.0 && forall i :: 0 <= i < |rates| ==> rates[i] <= p
    ensures p == 0.0 || p in rates
  {
    if rates == [] then 0.0
    else
      var before := Peak(rates[..|rates| - 1]);
      var last := rates[|rates| - 1];
      if last > before then last else before
  }

  lemma OneRate(rates: seq<real>, r: real)
    ensures Latest(rates + [r]) == r && Peak(rates + [r]) == if r > Peak(rates) then r else Peak(rates)
  {
    assert (rates + [r])[..|rates|] == rates;
  }

  // ---- sessions ----

  /** The rates a session was sampled at since it last connected: windows as they closed, and reports above zero. */
  function Rates(ops: seq<Op>, sid: string): seq<real> {
    if ops == [] then []
    else
      var before, op := ops[..|ops| - 1], ops[|ops| - 1];
      if op.OpConnect? && op.sid == sid then []
      else if sid in Run(before).sessions && SampleOf(Run(before), op, sid).Some? then
        Rates(before, sid) + [SampleOf(Run(before), op, sid).value]
      else Rates(before, sid)
  }

  /** The rate one call samples a tracked session at, if any. */
  function SampleOf(t: Track, op: Op, sid: string): Option<real>
    requires sid in t.sessions
  {
    if op.OpReport? && op.sid == sid && op.bps > 0.0 then Some(op.bps)
    else if op.OpAddBytes? && op.sid == sid then
      var s := Metered(t.sessions[sid].win, op.n, op.ts).1;
      if s.Some? then Some(s.value.rate) else None
    else None
  }

  lemma StepRates(t: Track, op: Op, sid: string)
    requires sid in Step(t, op).sessions && !(op.OpConnect? && op.sid == sid)
    ensures sid in t.sessions
    ensures var f, g, r := t.sessions[sid], Step(t, op).sessions[sid], SampleOf(t, op, sid);
            if r.Some? then g.bps == r.value && g.peak == (if r.value > f.peak then r.value else f.peak)
            else g.bps == f.bps && g.peak == f.peak
  {
  }

  /** In every run a session shows the latest rate sampled since it connected, and the largest. */
  lemma {:induction false} SessionRates(ops: seq<Op>, sid: string)
    requires sid in Run(ops).sessions
    ensures var f := Run(ops).sessions[sid]; f.bps == Latest(Rates(ops, sid)) && f.peak == Peak(Rates(ops, sid))
  {
    var before, op := ops[..|ops| - 1], ops[|ops| - 1];
    if !(op.OpConnect? && op.sid == sid) {
      StepRates(Run(before), op, sid);
      SessionRates(before, sid);
      var r := SampleOf(Run(before), op, sid);
      if r.Some? {
        OneRate(Rates(before, sid), r.value);
      }
    }
  }

  /** When a call samples a tracked session, and at what rate, in bytes and seconds. */
  lemma SampledWhen(t: Track, op: Op, sid: string)
    requires sid in t.sessions
    ensures var r, w := SampleOf(t, op, sid), t.sessions[sid].win;
            && (r.Some? <==> || (op.OpReport? && op.sid == sid && op.bps > 0.0)
                             || (op.OpAddBytes? && op.sid == sid && op.ts - w.start >= 1.0))
            && (r.Some? && op.OpReport? ==> r.value == op.bps)
            && (r.Some? && op.OpAddBytes? ==> r.value * (op.ts - w.start) == (w.bytes + op.n) as real)
  {
    if op.OpAddBytes? && op.sid == sid {
      WindowHolds(t.sessions[sid].win, op.n, op.ts);
    }
  }

  /** The speed event a sample adds, given the largest sample so far and whether the latest event was a drop. */
  function SpeedEvent(sid: string, bps: real, peak: real, down: bool): seq<Event> {
    if peak >= 65536.0 && !down && bps < peak / 2.0 then [SpeedDrop(sid, bps)]
    else if peak >= 65536.0 && down && bps >= peak * 4.0 / 5.0 then [Recovered(sid, bps)]
    else []
  }

  /**
   In every run a sample of a session adds a drop exactly when the largest sample since it connected reaches 64 KiB/s,
   its latest speed event is not a drop and the sample is below half of the largest; a recovery exactly when the
   largest reaches that, the latest is a drop and the sample is at least four fifths of it; and else nothing.
   */
  lemma SampleEvents(ops: seq<Op>, op: Op, sid: string)
    requires sid in Run(ops).sessions && SampleOf(Run(ops), op, sid).Some?
    ensures var bps := SampleOf(Run(ops), op, sid).value;
            Run(ops + [op]).log
            == Run(ops).log + SpeedEvent(sid, bps, Peak(Rates(ops, sid) + [bps]), Down(Run(ops).log, sid))
  {
    var bps := SampleOf(Run(ops), op, sid).value;
    RunMore(ops, op);
    SessionRates(ops, sid);
    OneRate(Rates(ops, sid), bps);
    SpeedEventsAlternate(ops);
    SampleLogs(Run(ops), op, sid);
  }

  lemma SampleLogs(t: Track, op: Op, sid: string)
    requires sid in t.sessions && SampleOf(t, op, sid).Some?
    ensures var f, bps := t.sessions[sid], SampleOf(t, op, sid).value;
            Step(t, op).log == t.log + SpeedEvent(sid, bps, if bps > f.peak then bps else f.peak, f.degraded)
  {
  }

  /** A call that samples nothing raises no speed event. */
  lemma NoSampleNoEvent(t: Track, op: Op)
    requires op.OpAddBytes? || op.OpReport?
    requires op.sid in t.sessions ==> SampleOf(t, op, op.sid).None?
    ensures Step(t, op).log == t.log
  {
  }

  // ---- exits ----

  /** The windows an exit closed since it last came up. */
  function ExitWindows(ops: seq<Op>, node: string): seq<Sample> {
    if ops == [] then []
    else
      var before, op := ops[..|ops| - 1], ops[|ops| - 1];
      if op.OpNodeUp? && op.node == node then []
      else if Feeds(Run(before), op, node) then
        Closed(ExitWindows(before, node), Metered(Run(before).exits[node].win, op.n, op.ts).1)
      else ExitWindows(before, node)
  }

  /** The call relays bytes of a session on the exit. */
  predicate Feeds(t: Track, op: Op, node: string) {
    op.OpAddBytes? && op.sid in t.sessions && t.sessions[op.sid].node == node && node in t.exits
  }

  /** When the exit last came up. */
  function UpSince(ops: seq<Op>, node: string): real {
    if ops == [] then 0.0
    else if ops[|ops| - 1].OpNodeUp? && ops[|ops| - 1].node == node then ops[|ops| - 1].ts
    else UpSince(ops[..|ops| - 1], node)
  }

  function RatesOf(w: seq<Sample>): seq<real> {
    seq(|w|, i requires 0 <= i < |w| => w[i].rate)
  }

  /** What one call does to an exit's window and rates. */
  lemma StepLoad(t: Track, op: Op, node: string)
    requires node in Step(t, op).exits
    ensures var g := Step(t, op).exits[node];
            if op.OpNodeUp? && op.node == node then g.win == Window(op.ts, 0) && g.bps == 0.0 && g.peak == 0.0
            else
              node in t.exits &&
              var e := t.exits[node];
              if Feeds(t, op, node) then
                var (w, s) := Metered(e.win, op.n, op.ts);
                && g.win == w
                && (s.None? ==> g.bps == e.bps && g.peak == e.peak)
                && (s.Some? ==>
                  && g.bps == s.value.rate
                  && g.peak == if s.value.rate > e.peak then s.value.rate else e.peak)
              else g.win == e.win && g.bps == e.bps && g.peak == e.peak
  {
  }

  /** An exit shows the latest and the largest rate of its own windows. */
  lemma {:induction false} ExitRates(ops: seq<Op>, node: string)
    requires node in Run(ops).exits
    ensures var e := Run(ops).exits[node];
            && e.bps == Latest(RatesOf(ExitWindows(ops, node)))
            && e.peak == Peak(RatesOf(ExitWindows(ops, node)))
  {
    var before, op := ops[..|ops| - 1], ops[|ops| - 1];
    StepLoad(Run(before), op, node);
    if !(op.OpNodeUp? && op.node == node) {
      ExitRates(before, node);
      if Feeds(Run(before), op, node) {
        var w := ExitWindows(before, node);
        var s := Metered(Run(before).exits[node].win, op.n, op.ts).1;
        if s.Some? {
          assert RatesOf(w + [s.value]) == RatesOf(w) + [s.value.rate];
          OneRate(RatesOf(w), s.value.rate);
        }
      }
    }
  }

  /** Its windows tile the time since it came up and hold exactly the bytes it carried. */
  lemma {:induction false} ExitWindowsHoldAllBytes(ops: seq<Op>, node: string)
    requires node in Run(ops).exits
    ensures Holds(ExitWindows(ops, node), Run(ops).exits[node].win, UpSince(ops, node),
                  CarriedBytes(ops, node, true) + CarriedBytes(ops, node, false))
  {
    var before, op := ops[..|ops| - 1], ops[|ops| - 1];
    StepLoad(Run(before), op, node);
    if !(op.OpNodeUp? && op.node == node) {
      ExitWindowsHoldAllBytes(before, node);
      if Feeds(Run(before), op, node) {
        HoldsMore(ExitWindows(before, node), Run(before).exits[node].win, UpSince(before, node),
                  CarriedBytes(before, node, true) + CarriedBytes(before, node, false), op.n, op.ts);
      }
    }
  }
}

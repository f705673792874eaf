/** Conservation in the quality tracker: bytes, windows and active clients over every run. */
module QosAccounts {
  import opened Basics
  import opened Qos

  // ---- bytes per session ----

  /** Bytes relayed for the session in one direction since it last connected. */
  function RelayedBytes(ops: seq<Op>, sid: string, fromClient: bool): nat {
    if ops == [] then 0
    else
      var before := RelayedBytes(ops[..|ops| - 1], sid, fromClient);
      match ops[|ops| - 1]
      case OpConnect(s, _, _) => if s == sid then 0 else before
      case OpAddBytes(s, c, n, _) => if s == sid && c == fromClient then before + n else before
      case _ => before
  }

  /** The largest total an endpoint reported for that direction since then. */
  function LargestReport(ops: seq<Op>, sid: string, fromClient: bool): nat {
    if ops == [] then 0
    else
      var before := LargestReport(ops[..|ops| - 1], sid, fromClient);
      match ops[|ops| - 1]
      case OpConnect(s, _, _) => if s == sid then 0 else before
      case OpReport(s, up, down, _) =>
        var r := if fromClient then up else down;
        if s == sid && r > before then r else before
      case _ => before
  }

  predicate Between(total: nat, relayed: nat, reported: nat) {
    relayed <= total && reported <= total && total <= relayed + reported
  }

  /** Each direction's total is at least what was relayed and what was reported, and at most their sum. */
  lemma {:induction false} TotalsAreBracketed(ops: seq<Op>, sid: string)
    requires sid in Run(ops).sessions
    ensures Between(Run(ops).sessions[sid].up, RelayedBytes(ops, sid, true), LargestReport(ops, sid, true))
    ensures Between(Run(ops).sessions[sid].down, RelayedBytes(ops, sid, false), LargestReport(ops, sid, false))
  {
    var before, op := ops[..|ops| - 1], ops[|ops| - 1];
    if sid in Run(before).sessions {
      TotalsAreBracketed(before, sid);
    }
    StepBytes(Run(before), op, sid);
  }

  /** What one call does to one session's totals and window. */
  lemma StepBytes(t: Track, op: Op, sid: string)
    requires sid in Step(t, op).sessions
    ensures var g := Step(t, op).sessions[sid];
            if op.OpConnect? && op.sid == sid then g.up == 0 && g.down == 0 && g.win == Window(op.ts, 0)
            else
              sid in t.sessions &&
              var f := t.sessions[sid];
              if op.OpAddBytes? && op.sid == sid then
                && g.up == f.up + (if op.fromClient then op.n else 0)
                && g.down == f.down + (if op.fromClient then 0 else op.n)
                && g.win == Metered(f.win, op.n, op.ts).0
              else if op.OpReport? && op.sid == sid then
                && g.up == (if op.up > f.up then op.up else f.up)
                && g.down == (if op.down > f.down then op.down else f.down)
                && g.win == f.win
              else g == f
  {
  }

  // ---- windows ----

  /** The windows the session closed since it last connected. */
  function Windows(ops: seq<Op>, sid: string): seq<Sample> {
    if ops == [] then []
    else
      var before, op := ops[..|ops| - 1], ops[|ops| - 1];
      if op.OpConnect? && op.sid == sid then []
      else if op.OpAddBytes? && op.sid == sid && sid in Run(before).sessions then
        Closed(Windows(before, sid), Metered(Run(before).sessions[sid].win, op.n, op.ts).1)
      else Windows(before, sid)
  }

  /** When the session last connected. */
  function Connected(ops: seq<Op>, sid: string): real {
    if ops == [] then 0.0
    else if ops[|ops| - 1].OpConnect? && ops[|ops| - 1].sid == sid then ops[|ops| - 1].ts
    else Connected(ops[..|ops| - 1], sid)
  }

  function Volume(w: seq<Sample>): real {
    if w == [] then 0.0 else Volume(w[..|w| - 1]) + w[|w| - 1].rate * w[|w| - 1].dur
  }

  function Duration(w: seq<Sample>): real {
    if w == [] then 0.0 else Duration(w[..|w| - 1]) + w[|w| - 1].dur
  }

  lemma OneWindow(w: seq<Sample>, s: Sample)
    ensures Volume(w + [s]) == Volume(w) + s.rate * s.dur && Duration(w + [s]) == Duration(w) + s.dur
  {
    assert (w + [s])[..|w|] == w;
  }

  /** A closed window's rate times its duration is the bytes it held. */
  lemma WindowHolds(w: Window, n: nat, ts: real)
    ensures var (v, s) := Metered(w, n, ts);
            && (s.Some? ==>
              && s.value.dur >= WINDOW && s.value.rate * s.value.dur == (w.bytes + n) as real
              && v.bytes == 0 && v.start == w.start + s.value.dur)
            && (s.None? ==> v.bytes == w.bytes + n && v.start == w.start)
  {
    if ts - w.start >= WINDOW {
      DivideMultiply((w.bytes + n) as real, ts - w.start);
    }
  }

  lemma DivideMultiply(b: real, d: real)
    requires d > 0.0
    ensures b / d * d == b
  {
  }

  /** The windows begin at a time and tile it, and with the open one they hold the bytes. */
  predicate Holds(closed: seq<Sample>, win: Window, since: real, bytes: nat) {
    Volume(closed) + win.bytes as real == bytes as real && since + Duration(closed) == win.start
  }

  function Closed(closed: seq<Sample>, s: Option<Sample>): seq<Sample> {
    if s.Some? then closed + [s.value] else closed
  }

  lemma HoldsMore(closed: seq<Sample>, win: Window, since: real, bytes: nat, n: nat, ts: real)
    requires Holds(closed, win, since, bytes)
    ensures var (v, s) := Metered(win, n, ts); Holds(Closed(closed, s), v, since, bytes + n)
  {
    WindowHolds(win, n, ts);
    var s := Metered(win, n, ts).1;
    if s.Some? {
      OneWindow(closed, s.value);
    }
  }

  /**
   The windows tile the time since the session connected, and their rates times durations,
   with what the open window holds, are exactly the bytes relayed in both directions.
   */
  lemma {:induction false} WindowsHoldAllBytes(ops: seq<Op>, sid: string)
    requires sid in Run(ops).sessions
    ensures Holds(Windows(ops, sid), Run(ops).sessions[sid].win, Connected(ops, sid),
                  RelayedBytes(ops, sid, true) + RelayedBytes(ops, sid, false))
  {
    var before, op := ops[..|ops| - 1], ops[|ops| - 1];
    StepBytes(Run(before), op, sid);
    if !(op.OpConnect? && op.sid == sid) {
      WindowsHoldAllBytes(before, sid);
      if op.OpAddBytes? && op.sid == sid {
        HoldsMore(Windows(before, sid), Run(before).sessions[sid].win, Connected(before, sid),
                  RelayedBytes(before, sid, true) + RelayedBytes(before, sid, false), op.n, op.ts);
      }
    }
  }

  // ---- exits ----

  /** Bytes relayed in one direction for sessions on the exit since it last came up. */
  function CarriedBytes(ops: seq<Op>, node: string, fromClient: bool): nat {
    if ops == [] then 0
    else
      var b := ops[..|ops| - 1];
      var before := CarriedBytes(b, node, fromClient);
      match ops[|ops| - 1]
      case OpNodeUp(n, _) => if n == node then 0 else before
      case OpAddBytes(s, c, n, _) =>
        if s in Run(b).sessions && Run(b).sessions[s].node == node && c == fromClient then before + n else before
      case _ => before
  }

  lemma {:induction false} ExitTotalsAreExact(ops: seq<Op>, node: string)
    requires node in Run(ops).exits
    ensures Run(ops).exits[node].up == CarriedBytes(ops, node, true)
    ensures Run(ops).exits[node].down == CarriedBytes(ops, node, false)
  {
    var before := ops[..|ops| - 1];
    if node in Run(before).exits {
      ExitTotalsAreExact(before, node);
    }
  }

  // ---- active clients ----

  /** The tracked sessions on an exit. */
  function On(sessions: map<string, Flow>, node: string): set<string> {
    set sid | sid in sessions && sessions[sid].node == node
  }

  /** The id connecting is not tracked on an exit that is up. */
  predicate FreshId(t: Track, op: Op) {
    op.OpConnect? && op.sid in t.sessions ==> t.sessions[op.sid].node !in t.exits
  }

  predicate FreshIds(ops: seq<Op>) {
    ops == [] || (FreshIds(ops[..|ops| - 1]) && FreshId(Run(ops[..|ops| - 1]), ops[|ops| - 1]))
  }

  lemma OnConnected(sessions: map<string, Flow>, sid: string, f: Flow, node: string)
    requires sid !in sessions
    ensures |On(sessions[sid := f], node)| == |On(sessions, node)| + if f.node == node then 1 else 0
  {
    if f.node == node {
      assert On(sessions[sid := f], node) == On(sessions, node) + {sid};
    } else {
      assert On(sessions[sid := f], node) == On(sessions, node);
    }
  }

  lemma OnGone(sessions: map<string, Flow>, sid: string, node: string)
    requires sid in sessions
    ensures |On(sessions, node)| == |On(sessions - {sid}, node)| + if sessions[sid].node == node then 1 else 0
  {
    if sessions[sid].node == node {
      assert On(sessions, node) == On(sessions - {sid}, node) + {sid};
    } else {
      assert On(sessions, node) == On(sessions - {sid}, node);
    }
  }

  /** Replacing a tracked session moves it from its exit to the new one. */
  lemma OnMoved(sessions: map<string, Flow>, sid: string, f: Flow, node: string)
    requires sid in sessions
    ensures |On(sessions[sid := f], node)|
            == |On(sessions, node)| - (if sessions[sid].node == node then 1 else 0) + if f.node == node then 1 else 0
  {
    OnGone(sessions, sid, node);
    OnConnected(sessions - {sid}, sid, f, node);
    assert (sessions - {sid})[sid := f] == sessions[sid := f];
  }

  lemma OnSame(sessions: map<string, Flow>, sid: string, f: Flow, node: string)
    requires sid in sessions && f.node == sessions[sid].node
    ensures On(sessions[sid := f], node) == On(sessions, node)
  {
  }

  /** How one call moves an exit's counter and the sessions tracked on it. */
  lemma StepCounts(t: Track, op: Op, node: string)
    requires node in Step(t, op).exits && FreshId(t, op)
    ensures var u := Step(t, op);
            var a, n := u.exits[node].active, |On(u.sessions, node)|;
            if op.OpNodeUp? && op.node == node then a == 0 && n == |On(t.sessions, node)|
            else
              node in t.exits &&
              var a0, n0 := t.exits[node].active, |On(t.sessions, node)|;
              if op.OpConnect? && op.node == node then a == a0 + 1 && n == n0 + 1
              else if op.OpDisconnect? && op.sid in t.sessions && t.sessions[op.sid].node == node then
                n + 1 == n0 && a == if a0 > 0 then a0 - 1 else 0
              else a == a0 && n == n0
  {
    match op
    case OpConnect(sid, _, _) =>
      if sid in t.sessions {
        OnMoved(t.sessions, sid, Step(t, op).sessions[sid], node);
      } else {
        OnConnected(t.sessions, sid, Step(t, op).sessions[sid], node);
      }
    case OpDisconnect(sid) => if sid in t.sessions { OnGone(t.sessions, sid, node); }
    case OpAddBytes(sid, _, _, _) => if sid in t.sessions { OnSame(t.sessions, sid, Step(t, op).sessions[sid], node); }
    case OpReport(sid, _, _, _) => if sid in t.sessions { OnSame(t.sessions, sid, Step(t, op).sessions[sid], node); }
    case _ =>
  }

  /** An exit never shows more active clients than sessions tracked on it. */
  lemma {:induction false} ActiveNeverExceedsTracked(ops: seq<Op>, node: string)
    requires FreshIds(ops) && node in Run(ops).exits
    ensures Run(ops).exits[node].active <= |On(Run(ops).sessions, node)|
  {
    var before := ops[..|ops| - 1];
    if node in Run(before).exits {
      ActiveNeverExceedsTracked(before, node);
    }
    StepCounts(Run(before), ops[|ops| - 1], node);
  }

  /** Every exit shows exactly the sessions tracked on it. */
  ghost predicate Exact(t: Track) {
    forall node :: node in t.exits ==> t.exits[node].active == |On(t.sessions, node)|
  }

  /**
   The call counts afresh: an exit comes up with no session on it, and a tracked id connects from an exit that is down.
   */
  predicate CountsAfresh(t: Track, op: Op) {
    FreshId(t, op) && (op.OpNodeUp? ==> On(t.sessions, op.node) == {})
  }

  /** A call keeps the count exact if and only if it counts afresh. */
  lemma StepExact(t: Track, op: Op)
    requires Exact(t)
    ensures Exact(Step(t, op)) <==> CountsAfresh(t, op)
  {
    var u := Step(t, op);
    if !FreshId(t, op) {
      ReusedIdCountsTwice(t, op.sid, op.node, op.ts);
      assert t.sessions[op.sid].node in u.exits;
    } else {
      forall node | node in u.exits && CountsAfresh(t, op) ensures u.exits[node].active == |On(u.sessions, node)| {
        StepCounts(t, op, node);
      }
      if op.OpNodeUp? {
        StepCounts(t, op, op.node);
        assert op.node in u.exits;
      }
    }
  }

  /** Every call of the run counts afresh. */
  predicate AlwaysAfresh(ops: seq<Op>) {
    ops == [] || (AlwaysAfresh(ops[..|ops| - 1]) && CountsAfresh(Run(ops[..|ops| - 1]), ops[|ops| - 1]))
  }

  /** The count is exact at every point of the run. */
  ghost predicate AlwaysExact(ops: seq<Op>) {
    Exact(Run(ops)) && (ops != [] ==> AlwaysExact(ops[..|ops| - 1]))
  }

  /**
   Every exit's count is exact at every point of a run if and only if no exit came up with sessions still tracked
   on it and no id connected while tracked on an exit that was up.
   */
  lemma {:induction false} ActiveIsExactIffCountedAfresh(ops: seq<Op>)
    ensures AlwaysExact(ops) <==> AlwaysAfresh(ops)
  {
    if ops != [] {
      ActiveIsExactIffCountedAfresh(ops[..|ops| - 1]);
      if AlwaysExact(ops[..|ops| - 1]) {
        ExactNow(ops[..|ops| - 1]);
        StepExact(Run(ops[..|ops| - 1]), ops[|ops| - 1]);
      }
    }
  }

  lemma ExactNow(ops: seq<Op>)
    requires AlwaysExact(ops)
    ensures Exact(Run(ops))
  {
  }

  /** Connecting an id that is still tracked on an exit that is up leaves that exit one too high, wherever it goes. */
  lemma ReusedIdCountsTwice(t: Track, sid: string, node: string, ts: real)
    requires sid in t.sessions && t.sessions[sid].node in t.exits
    ensures var u, was := Step(t, OpConnect(sid, node, ts)), t.sessions[sid].node;
            u.exits[was].active - |On(u.sessions, was)| == t.exits[was].active - |On(t.sessions, was)| + 1
  {
    OnMoved(t.sessions, sid, Step(t, OpConnect(sid, node, ts)).sessions[sid], t.sessions[sid].node);
  }
}

/** What holds of every run of the quality tracker. */
module QosTheorems {
  import opened Qos

  // ---- speed events ----

  /** The session's latest speed event since it connected is a drop. */
  predicate Down(log: seq<Event>, sid: string) {
    if log == [] then false
    else
      match log[|log| - 1]
      case SpeedDrop(s, _) => s == sid || Down(log[..|log| - 1], sid)
      case Recovered(s, _) => s != sid && Down(log[..|log| - 1], sid)
      case Connect(s, _) => s != sid && Down(log[..|log| - 1], sid)
      case _ => Down(log[..|log| - 1], sid)
  }

  /** Drops and recoveries alternate within each connection, drops first. */
  predicate Alternates(log: seq<Event>, sid: string) {
    log == [] ||
    var before, e := log[..|log| - 1], log[|log| - 1];
    && Alternates(before, sid)
    && (e.SpeedDrop? && e.sid == sid ==> !Down(before, sid))
    && (e.Recovered? && e.sid == sid ==> Down(before, sid))
  }

  /** Between the two thresholds a session keeps whichever side it was on. */
  predicate Steady(f: Flow) {
    && (f.degraded ==> f.peak >= FLOOR && f.bps < f.peak * 0.8)
    && (!f.degraded && f.peak >= FLOOR ==> f.bps >= f.peak * 0.5)
  }

  ghost predicate Hysteresis(t: Track) {
    && (forall sid :: Alternates(t.log, sid))
    && (forall sid :: sid in t.sessions ==> t.sessions[sid].degraded == Down(t.log, sid) && Steady(t.sessions[sid]))
  }

  lemma OneEvent(log: seq<Event>, e: Event, sid: string)
    ensures Alternates(log + [e], sid) <==>
              && Alternates(log, sid)
              && (e.SpeedDrop? && e.sid == sid ==> !Down(log, sid))
              && (e.Recovered? && e.sid == sid ==> Down(log, sid))
    ensures Down(log + [e], sid) ==
              if (e.SpeedDrop? || e.Recovered? || e.Connect?) && e.sid == sid then e.SpeedDrop? else Down(log, sid)
  {
  }

  lemma SampledIsSteady(sid: string, f: Flow, bps: real)
    requires Steady(f)
    ensures var (g, evs) := Sampled(sid, f, bps);
            && Steady(g)
            && (evs == [] ==> g.degraded == f.degraded)
            && (evs != [] ==>
              && g.degraded != f.degraded
              && evs == [if g.degraded then SpeedDrop(sid, bps) else Recovered(sid, bps)])
  {
  }

  /** One session is replaced, with the event that explains a change of side. */
  lemma HysteresisUpdate(t: Track, u: Track, sid: string, f: Flow, evs: seq<Event>)
    requires Hysteresis(t) && sid in t.sessions && u.sessions == t.sessions[sid := f] && u.log == t.log + evs
    requires Steady(f) && (evs == [] ==> f.degraded == t.sessions[sid].degraded)
    requires evs != [] ==> |evs| == 1 && f.degraded != t.sessions[sid].degraded
                           && exists b :: evs[0] == if f.degraded then SpeedDrop(sid, b) else Recovered(sid, b)
    ensures Hysteresis(u)
  {
    if evs == [] {
      assert u.log == t.log;
    } else {
      assert evs == [evs[0]];
      forall s ensures Alternates(u.log, s) && Down(u.log, s) == if s == sid then f.degraded else Down(t.log, s) {
        OneEvent(t.log, evs[0], s);
      }
    }
  }

  lemma HysteresisStep(t: Track, op: Op)
    requires Hysteresis(t)
    ensures Hysteresis(Step(t, op))
  {
    var u := Step(t, op);
    match op
    case OpNodeUp(node, _) => QuietEvent(t, u, NodeUp(node));
    case OpNodeDown(node) => QuietEvent(t, u, NodeDown(node));
    case OpConnect(sid, node, ts) =>
      forall s ensures Alternates(u.log, s) && Down(u.log, s) == (s != sid && Down(t.log, s)) {
        OneEvent(t.log, Connect(sid, node), s);
      }
    case OpDisconnect(sid) =>
      if sid in t.sessions { QuietEvent(t, u, Disconnect(sid, t.sessions[sid].node)); }
    case OpAddBytes(sid, fromClient, n, ts) =>
      if sid in t.sessions { HysteresisAdd(t, sid, fromClient, n, ts); }
    case OpReport(sid, up, down, bps) =>
      if sid in t.sessions { HysteresisReport(t, sid, up, down, bps); }
  }

  lemma QuietEvent(t: Track, u: Track, e: Event)
    requires Hysteresis(t) && u.log == t.log + [e] && (e.NodeUp? || e.NodeDown? || e.Disconnect?)
    requires forall sid :: sid in u.sessions ==> sid in t.sessions && u.sessions[sid] == t.sessions[sid]
    ensures Hysteresis(u)
  {
    forall s ensures Alternates(u.log, s) && Down(u.log, s) == Down(t.log, s) {
      OneEvent(t.log, e, s);
    }
  }

  lemma HysteresisAdd(t: Track, sid: string, fromClient: bool, n: nat, ts: real)
    requires Hysteresis(t) && sid in t.sessions
    ensures Hysteresis(Step(t, OpAddBytes(sid, fromClient, n, ts)))
  {
    var f := t.sessions[sid];
    var (w, s) := Metered(f.win, n, ts);
    var g := Counted(f, fromClient, n).(win := w);
    if s.Some? {
      SampledIsSteady(sid, g, s.value.rate);
    }
    var (h, evs) := Relayed(sid, f, fromClient, n, ts);
    HysteresisUpdate(t, Step(t, OpAddBytes(sid, fromClient, n, ts)), sid, h, evs);
  }

  lemma HysteresisReport(t: Track, sid: string, up: nat, down: nat, bps: real)
    requires Hysteresis(t) && sid in t.sessions
    ensures Hysteresis(Step(t, OpReport(sid, up, down, bps)))
  {
    var f := t.sessions[sid];
    var g := f.(up := if up > f.up then up else f.up, down := if down > f.down then down else f.down);
    SampledIsSteady(sid, g, bps);
    var (h, evs) := Reported(sid, f, up, down, bps);
    HysteresisUpdate(t, Step(t, OpReport(sid, up, down, bps)), sid, h, evs);
  }

  /** In every run, drops and recoveries alternate and the flag is the latest of them. */
  lemma {:induction false} SpeedEventsAlternate(ops: seq<Op>)
    ensures Hysteresis(Run(ops))
  {
    if ops != [] {
      SpeedEventsAlternate(ops[..|ops| - 1]);
      HysteresisStep(Run(ops[..|ops| - 1]), ops[|ops| - 1]);
    }
  }

  // ---- the log tells who is there ----

  /** The sessions that connected and did not disconnect since, each with its exit. */
  function Present(log: seq<Event>): map<string, string> {
    if log == [] then map[]
    else
      var before := Present(log[..|log| - 1]);
      match log[|log| - 1]
      case Connect(sid, node) => before[sid := node]
      case Disconnect(sid, _) => before - {sid}
      case _ => before
  }

  /** The exits that came up and did not go down since. */
  function Up(log: seq<Event>): set<string> {
    if log == [] then {}
    else
      var before := Up(log[..|log| - 1]);
      match log[|log| - 1]
      case NodeUp(node) => before + {node}
      case NodeDown(node) => before - {node}
      case _ => before
  }

  function Nodes(sessions: map<string, Flow>): map<string, string> {
    map sid | sid in sessions :: sessions[sid].node
  }

  lemma OneMore(log: seq<Event>, e: Event)
    ensures Present(log + [e]) == if e.Connect? then Present(log)[e.sid := e.node]
                                  else if e.Disconnect? then Present(log) - {e.sid} else Present(log)
    ensures Up(log + [e]) == if e.NodeUp? then Up(log) + {e.node}
                             else if e.NodeDown? then Up(log) - {e.node} else Up(log)
  {
    assert (log + [e])[..|log|] == log;
  }

  /** A speed event tells nothing about who is there, and a sample changes nobody's exit. */
  lemma SpeedTellsNothing(log: seq<Event>, sid: string, f: Flow, bps: real)
    ensures var (g, evs) := Sampled(sid, f, bps);
            g.node == f.node && Present(log + evs) == Present(log) && Up(log + evs) == Up(log)
  {
    var evs := Sampled(sid, f, bps).1;
    if evs == [] {
      assert log + evs == log;
    } else {
      OneMore(log, evs[0]);
    }
  }

  /** The log shows present the sessions and exits that are tracked. */
  ghost predicate Tells(t: Track) {
    Nodes(t.sessions) == Present(t.log) && t.exits.Keys == Up(t.log)
  }

  /** One session's figures change, no one comes or goes. */
  lemma TellsKept(t: Track, u: Track, sid: string)
    requires Tells(t) && sid in t.sessions && u.exits.Keys == t.exits.Keys
    requires sid in u.sessions && u.sessions == t.sessions[sid := u.sessions[sid]]
    requires u.sessions[sid].node == t.sessions[sid].node
    requires Present(u.log) == Present(t.log) && Up(u.log) == Up(t.log)
    ensures Tells(u)
  {
    assert Nodes(u.sessions) == Nodes(t.sessions);
  }

  lemma ReportTells(t: Track, op: Op)
    requires op.OpReport? && Tells(t)
    ensures Tells(Step(t, op))
  {
    if op.sid in t.sessions {
      var f := t.sessions[op.sid];
      assert t.log + [] == t.log;
      SpeedTellsNothing(t.log, op.sid, Reported(op.sid, f, op.up, op.down, 0.0).0, op.bps);
      TellsKept(t, Step(t, op), op.sid);
    }
  }

  lemma AddBytesTells(t: Track, op: Op)
    requires op.OpAddBytes? && Tells(t)
    ensures Tells(Step(t, op))
  {
    if op.sid in t.sessions {
      var f := t.sessions[op.sid];
      assert t.log + [] == t.log;
      var (w, s) := Metered(f.win, op.n, op.ts);
      if s.Some? {
        SpeedTellsNothing(t.log, op.sid, Counted(f, op.fromClient, op.n).(win := w), s.value.rate);
      }
      TellsKept(t, Step(t, op), op.sid);
    }
  }

  lemma NodeTells(t: Track, op: Op)
    requires (op.OpNodeUp? || op.OpNodeDown?) && Tells(t)
    ensures Tells(Step(t, op))
  {
    OneMore(t.log, if op.OpNodeUp? then NodeUp(op.node) else NodeDown(op.node));
  }

  lemma ConnectTells(t: Track, op: Op)
    requires op.OpConnect? && Tells(t)
    ensures Tells(Step(t, op))
  {
    var u := Step(t, op);
    OneMore(t.log, Connect(op.sid, op.node));
    assert Nodes(u.sessions) == Nodes(t.sessions)[op.sid := op.node];
    assert u.exits.Keys == t.exits.Keys;
  }

  lemma DisconnectTells(t: Track, op: Op)
    requires op.OpDisconnect? && Tells(t)
    ensures Tells(Step(t, op))
  {
    if op.sid in t.sessions {
      var u := Step(t, op);
      OneMore(t.log, Disconnect(op.sid, t.sessions[op.sid].node));
      assert Nodes(u.sessions) == Nodes(t.sessions) - {op.sid};
      assert u.exits.Keys == t.exits.Keys;
    }
  }

  /** In every run the tracked sessions and exits are those that the log shows present. */
  lemma {:induction false} LogTellsWhoIsThere(ops: seq<Op>)
    ensures Nodes(Run(ops).sessions) == Present(Run(ops).log) && Run(ops).exits.Keys == Up(Run(ops).log)
  {
    if ops != [] {
      var t, op := Run(ops[..|ops| - 1]), ops[|ops| - 1];
      LogTellsWhoIsThere(ops[..|ops| - 1]);
      match op
      case OpNodeUp(_, _) | OpNodeDown(_) => NodeTells(t, op);
      case OpConnect(_, _, _) => ConnectTells(t, op);
      case OpDisconnect(_) => DisconnectTells(t, op);
      case OpAddBytes(_, _, _, _) => AddBytesTells(t, op);
      case OpReport(_, _, _, _) => ReportTells(t, op);
    }
  }

  // ---- alternation across connections ----

  /** The session's latest speed event ever is a drop. */
  predicate EverDown(log: seq<Event>, sid: string) {
    if log == [] then false
    else
      match log[|log| - 1]
      case SpeedDrop(s, _) => s == sid || EverDown(log[..|log| - 1], sid)
      case Recovered(s, _) => s != sid && EverDown(log[..|log| - 1], sid)
      case _ => EverDown(log[..|log| - 1], sid)
  }

  predicate AlternatesEver(log: seq<Event>, sid: string) {
    log == [] ||
    var before, e := log[..|log| - 1], log[|log| - 1];
    && AlternatesEver(before, sid)
    && (e.SpeedDrop? && e.sid == sid ==> !EverDown(before, sid))
    && (e.Recovered? && e.sid == sid ==> EverDown(before, sid))
  }

  /** Some connection of the id began while its latest speed event was a drop. */
  predicate Overhung(log: seq<Event>, sid: string) {
    log != [] &&
    var before, e := log[..|log| - 1], log[|log| - 1];
    Overhung(before, sid) || (e.Connect? && e.sid == sid && EverDown(before, sid))
  }

  /** No drop of the id comes after a connection of it that began on a drop. */
  predicate NoDropAfterOverhang(log: seq<Event>, sid: string) {
    log == [] ||
    var before, e := log[..|log| - 1], log[|log| - 1];
    NoDropAfterOverhang(before, sid) && (e.SpeedDrop? && e.sid == sid ==> !Overhung(before, sid))
  }

  lemma {:induction false} OverhangDecides(log: seq<Event>, sid: string)
    requires Alternates(log, sid)
    ensures AlternatesEver(log, sid) <==> NoDropAfterOverhang(log, sid)
    ensures NoDropAfterOverhang(log, sid) ==>
              if Overhung(log, sid) then EverDown(log, sid) && !Down(log, sid) else EverDown(log, sid) == Down(log, sid)
  {
    if log != [] {
      OverhangDecides(log[..|log| - 1], sid);
    }
  }

  /**
   Over the whole life of an id, across its connections, the speed events of a run alternate if and only if
   no drop comes after a connection that began on a drop.
   */
  lemma AlternateEverIff(ops: seq<Op>, sid: string)
    ensures AlternatesEver(Run(ops).log, sid) <==> NoDropAfterOverhang(Run(ops).log, sid)
  {
    SpeedEventsAlternate(ops);
    OverhangDecides(Run(ops).log, sid);
  }

  /** The calls of a connection that reaches the floor and drops. */
  function Fall(sid: string, node: string, ts: real): seq<Op> {
    [OpConnect(sid, node, ts), OpReport(sid, 0, 0, FLOOR), OpReport(sid, 0, 0, 1.0)]
  }

  lemma FallDrops(ops: seq<Op>, sid: string, node: string, ts: real)
    ensures Run(ops + Fall(sid, node, ts)).log == Run(ops).log + [Connect(sid, node)] + [SpeedDrop(sid, 1.0)]
  {
    var a, b, c := Fall(sid, node, ts)[0], Fall(sid, node, ts)[1], Fall(sid, node, ts)[2];
    RunMore(ops, a);
    RunMore(ops + [a], b);
    RunMore(ops + [a] + [b], c);
    assert ops + [a] + [b] + [c] == ops + Fall(sid, node, ts);
  }

  /** A session that drops, connects again and drops again shows two drops with no recovery between them. */
  lemma ReconnectBreaksAlternation(sid: string, node: string, ts: real)
    ensures !AlternatesEver(Run(Fall(sid, node, ts) + Fall(sid, node, ts)).log, sid)
  {
    var f, c, d := Fall(sid, node, ts), Connect(sid, node), SpeedDrop(sid, 1.0);
    FallDrops([], sid, node, ts);
    FallDrops(f, sid, node, ts);
    assert [] + f == f;
    var log := Run(f + f).log;
    assert log == [c, d, c, d];
    assert log[..3] == [c, d, c] && log[..3][..2] == [c, d];
    assert EverDown([c, d], sid);
    assert EverDown(log[..3], sid);
  }

  lemma RunMore(ops: seq<Op>, op: Op)
    ensures Run(ops + [op]) == Step(Run(ops), op)
  {
  }
}

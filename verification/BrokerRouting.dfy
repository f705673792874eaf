/** The way replies go: when an exit's two maps stay inverse, and that a reply then reaches its owner. */
module BrokerRouting {
  import opened Messages
  import opened ExitTable
  import opened BrokerState
  import opened BrokerLinks
  import opened BrokerAddresses
  import opened BrokerLoad
  import opened BrokerAgreement
  import opened BrokerTheorems
  import opened BrokerExits

  // ---- the condition ----

  /**
   A start is written to r only when no ended session that r still has under the same address is waiting for its
   end to be written there.
   */
  predicate EndsFirst(s: State, step: Step, r: Reg) {
    step.WriteStart? && step.ok && Enabled(s, step) && s.procs[step.p].exit == r && r in s.logs ==>
      forall q :: q in s.procs && Lingers(s, q, r) ==> s.lives[s.procs[q].sid].ident.addr != s.procs[step.p].addr
  }

  /** The end of a session that was started on r is still to be written there. */
  predicate Lingers(s: State, q: Pid, r: Reg)
    requires q in s.procs && r in s.logs
  {
    && s.procs[q].Ending? && s.procs[q].exit == r && s.procs[q].sid in s.lives && s.lives[s.procs[q].sid].Ended?
    && HasStart(s.logs[r], s.procs[q].sid) && !HasEnd(s.logs[r], s.procs[q].sid)
  }

  predicate AlwaysEndsFirst(s: State, steps: seq<Step>, r: Reg)
    requires IsRun(s, steps)
    decreases |steps|
  {
    steps == [] || (EndsFirst(s, steps[0], r) && AlwaysEndsFirst(Do(s, steps[0]), steps[1..], r))
  }

  predicate Routed(s: State, r: Reg) {
    r in s.logs && Online(s.t.exits, s.t.info, r) && r !in s.broken ==> NoClash(s.logs[r])
  }

  function Names(ls: Lives): map<nat, nat> {
    map sid | sid in ls && (ls[sid].Held? || ls[sid].Ended?) :: ls[sid].ident.addr
  }

  /** The exit has a session under the address that the broker gave it. */
  lemma TableNames(ls: Lives, ps: Procs, logs: Logs, r: Reg, sid: nat)
    requires StartsLogged(ls, ps, logs) && r in logs && sid in Replay(logs[r]).sessions
    ensures sid in ls && (ls[sid].Held? || ls[sid].Ended?) && Replay(logs[r]).sessions[sid].addr == ls[sid].ident.addr
  {
    forall i | 0 <= i < |logs[r]| && logs[r][i].SessionStart?
      ensures logs[r][i].sid in Names(ls) && logs[r][i].addr == Names(ls)[logs[r][i].sid]
    {
      assert StartNames(logs[r][i], ls);
    }
    ReplayAddr(logs[r], Names(ls), sid);
  }

  /** Whoever the exit still has under the address of a starting session is that session. */
  lemma NobodyElse(s: State, p: Pid, sid: nat)
    requires Addressed(s.t.pool, s.lives) && Agreed(s)
    requires Enabled(s, WriteStart(p, true)) && EndsFirst(s, WriteStart(p, true), s.procs[p].exit) && StartsOwn(s, p)
    requires var r := s.procs[p].exit; r in s.logs && Online(s.t.exits, s.t.info, r) && r !in s.broken
    requires sid in Replay(s.logs[s.procs[p].exit]).sessions
    requires Replay(s.logs[s.procs[p].exit]).sessions[sid].addr == s.procs[p].addr
    ensures sid == s.procs[p].sid
  {
    var c := s.procs[p];
    ReplayKeys(s.logs[c.exit], sid);
    TableNames(s.lives, s.procs, s.logs, c.exit, sid);
    assert s.lives[sid].Ended? ==> EndTold(sid, s.lives[sid], s.procs, s.logs);
  }

  lemma RoutedWrite(s: State, x: Reg, m: Msg, r: Reg)
    requires Routed(s, r) && x in s.logs
    requires x == r && Online(s.t.exits, s.t.info, r) && r !in s.broken ==> !Clash(Replay(s.logs[r]), m)
    ensures Routed(s.(logs := Log(s.logs, x, m)), r)
  {
  }

  lemma RoutedStart(s: State, p: Pid, r: Reg)
    requires Linked(s) && Addressed(s.t.pool, s.lives) && Agreed(s) && Routed(s, r)
    requires Enabled(s, WriteStart(p, true)) && EndsFirst(s, WriteStart(p, true), r)
    ensures Routed(DoWriteStart(s, p, true), r)
  {
    var c := s.procs[p];
    StartingIsOwn(s, p);
    if c.exit == r && Online(s.t.exits, s.t.info, r) && r !in s.broken {
      var t := Replay(s.logs[r]);
      forall sid | sid in t.sessions && t.sessions[sid].addr == c.addr ensures sid == c.sid {
        NobodyElse(s, p, sid);
      }
    }
    RoutedWrite(s, c.exit, SessionStart(c.sid, c.addr), r);
  }

  lemma RoutedRegister(s: State, info: ExitInfo, r: Reg)
    requires Linked(s) && Routed(s, r)
    ensures Routed(Do(s, Register(info)), r)
  {
  }

  lemma RoutedExitGone(s: State, x: Reg, r: Reg)
    requires s.t.pool.Valid() && Routed(s, r) && Enabled(s, ExitGone(x))
    ensures Routed(Do(s, ExitGone(x)), r)
  {
  }

  /** Steps that write nothing keep the streams, the exits and the failures. */
  lemma SilentQuiet(s: State, step: Step)
    requires s.t.pool.Valid() && Enabled(s, step) && (step.Pick? || step.Count? || step.Fire? || step.Tick?)
    ensures SameStreams(s, Do(s, step))
  {
  }

  lemma SilentBusy(s: State, step: Step)
    requires s.t.pool.Valid() && Enabled(s, step) && !Quiet(step)
    ensures SameStreams(s, Do(s, step))
  {
    if step.Drop? {
      DropSilent(s, step.p, step.intentional);
    }
  }

  predicate SameStreams(s: State, s': State) {
    s'.logs == s.logs && s'.broken == s.broken && s'.t.exits == s.t.exits && s'.t.info == s.t.info
  }

  lemma DropSilent(s: State, p: Pid, intentional: bool)
    requires Enabled(s, Drop(p, intentional))
    ensures SameStreams(s, DoDrop(s, p, intentional))
  {
    var sid := s.procs[p].sid;
    if sid in s.t.sessions && Parks(s.t, s.t.sessions[sid], intentional) {
      DropParks(s, p, intentional);
      ParkSilent(Displace(s, s.t.sessions[sid].ident.key), p);
    }
  }

  lemma ParkSilent(s: State, p: Pid)
    requires p in s.procs && s.procs[p].HasSession() && s.procs[p].sid in s.t.sessions
    ensures SameStreams(s, ParkActive(s, p))
  {
  }

  /** Steps that neither write nor change the exits. */
  predicate Silent(step: Step) {
    !step.Register? && !step.ExitGone? && !step.WriteStart? && !step.WriteSuspend? && !step.WriteEnd?
  }

  lemma SilentStep(s: State, step: Step)
    requires s.t.pool.Valid() && Enabled(s, step) && Silent(step)
    ensures SameStreams(s, Do(s, step))
  {
    if Quiet(step) {
      SilentQuiet(s, step);
    } else {
      SilentBusy(s, step);
    }
  }

  lemma RoutedSilent(s: State, step: Step, r: Reg)
    requires s.t.pool.Valid() && Routed(s, r) && Enabled(s, step) && Silent(step)
    ensures Routed(Do(s, step), r)
  {
    SilentStep(s, step);
  }

  lemma RoutedTold(s: State, p: Pid, ok: bool, r: Reg)
    requires Routed(s, r) && p in s.procs && (s.procs[p].Suspending? || s.procs[p].Ending?) && s.procs[p].exit in s.logs
    ensures s.procs[p].Suspending? ==> Routed(DoWriteSuspend(s, p, ok), r)
    ensures s.procs[p].Ending? ==> Routed(DoWriteEnd(s, p, ok), r)
  {
    var c := s.procs[p];
    RoutedWrite(s, c.exit, if c.Suspending? then SessionSuspend(c.sid) else SessionEnd(c.sid), r);
  }

  lemma RoutedTables(s: State, step: Step, r: Reg)
    requires Linked(s) && Routed(s, r) && Enabled(s, step) && !Silent(step) && !step.WriteStart?
    ensures Routed(Do(s, step), r)
  {
    match step
    case Register(info) => RoutedRegister(s, info, r);
    case ExitGone(x) => RoutedExitGone(s, x, r);
    case WriteSuspend(p, ok) => RoutedTold(s, p, ok, r);
    case WriteEnd(p, ok) => RoutedTold(s, p, ok, r);
    case _ =>
  }

  lemma RoutedStep(s: State, step: Step, r: Reg)
    requires Inv(s) && Routed(s, r) && Enabled(s, step) && EndsFirst(s, step, r)
    ensures Routed(Do(s, step), r)
  {
    if step.WriteStart? {
      if step.ok { RoutedStart(s, step.p, r); }
    } else if Silent(step) {
      RoutedSilent(s, step, r);
    } else {
      RoutedTables(s, step, r);
    }
  }

  lemma {:induction false} RoutedRun(s: State, steps: seq<Step>, r: Reg)
    requires Inv(s) && Routed(s, r) && IsRun(s, steps) && AlwaysEndsFirst(s, steps, r)
    ensures Routed(Exec(s, steps), r)
    decreases |steps|
  {
    if steps != [] {
      RoutedStep(s, steps[0], r);
      InvStep(s, steps[0]);
      RoutedRun(Do(s, steps[0]), steps[1..], r);
    }
  }

  // ---- a start that comes too early shows ----

  lemma StreamsGrow(s: State, step: Step, r: Reg)
    requires Linked(s) && Enabled(s, step) && r in s.logs
    ensures r in Do(s, step).logs && s.logs[r] <= Do(s, step).logs[r]
  {
    if Silent(step) {
      SilentStep(s, step);
    }
  }

  lemma {:induction false} StreamsGrowRun(s: State, steps: seq<Step>, r: Reg)
    requires Inv(s) && IsRun(s, steps) && r in s.logs
    ensures r in Exec(s, steps).logs && s.logs[r] <= Exec(s, steps).logs[r]
    decreases |steps|
  {
    if steps != [] {
      StreamsGrow(s, steps[0], r);
      InvStep(s, steps[0]);
      StreamsGrowRun(Do(s, steps[0]), steps[1..], r);
    }
  }

  lemma {:induction false} ClashStays(a: Stream, b: Stream)
    requires a <= b && NoClash(b)
    ensures NoClash(a)
    decreases |b|
  {
    if |a| < |b| {
      ClashStays(a, b[..|b| - 1]);
    } else {
      assert a == b;
    }
  }

  /** Two sessions under one address are not inverse. */
  lemma TwoHolders(log: Stream, x: nat, y: nat)
    requires x in Replay(log).sessions && y in Replay(log).sessions && x != y
    requires Replay(log).sessions[x].addr == Replay(log).sessions[y].addr
    ensures !NoClash(log)
  {
    InverseIffNoClash(log);
  }

  /** A start for an address that an ended session still has on the exit clashes, now or before. */
  lemma EarlyStartClashes(s: State, p: Pid, q: Pid, r: Reg)
    requires Agreed(s) && Enabled(s, WriteStart(p, true)) && s.procs[p].exit == r && StartsOwn(s, p)
    requires q in s.procs && Lingers(s, q, r) && s.lives[s.procs[q].sid].ident.addr == s.procs[p].addr
    ensures !NoClash(DoWriteStart(s, p, true).logs[r])
  {
    var c, sid := s.procs[p], s.procs[q].sid;
    var log, m := s.logs[r], SessionStart(s.procs[p].sid, s.procs[p].addr);
    ReplayKeys(log, sid);
    TableNames(s.lives, s.procs, s.logs, r, sid);
    if c.sid in Replay(log).sessions {
      TableNames(s.lives, s.procs, s.logs, r, c.sid);
      TwoHolders(log, sid, c.sid);
    }
    assert (log + [m])[..|log|] == log;
  }

  lemma {:induction false} EarlyStartShows(s: State, steps: seq<Step>, r: Reg)
    requires Inv(s) && IsRun(s, steps) && !AlwaysEndsFirst(s, steps, r)
    ensures r in Exec(s, steps).logs && !NoClash(Exec(s, steps).logs[r])
    decreases |steps|
  {
    var t := Do(s, steps[0]);
    InvStep(s, steps[0]);
    if EndsFirst(s, steps[0], r) {
      EarlyStartShows(t, steps[1..], r);
    } else {
      ClashesNow(s, steps[0], r);
      StreamsGrowRun(t, steps[1..], r);
      var log := Exec(t, steps[1..]).logs[r];
      if NoClash(log) {
        ClashStays(t.logs[r], log);
      }
    }
  }

  lemma ClashesNow(s: State, step: Step, r: Reg)
    requires Inv(s) && Enabled(s, step) && !EndsFirst(s, step, r)
    ensures r in Do(s, step).logs && !NoClash(Do(s, step).logs[r])
  {
    StartingIsOwn(s, step.p);
    var q :| q in s.procs && Lingers(s, q, r) && s.lives[s.procs[q].sid].ident.addr == s.procs[step.p].addr;
    EarlyStartClashes(s, step.p, q, r);
  }

  /**
   On an exit that is online and took every write, the two maps are inverse at every point of its stream if and only
   if every start written to it came after the pending end of the address's previous holder there.
   */
  lemma ExitIndexStaysInverse(s0: State, steps: seq<Step>, r: Reg)
    requires Starts(s0) && IsRun(s0, steps)
    requires var s := Exec(s0, steps); r in s.logs && Online(s.t.exits, s.t.info, r) && r !in s.broken
    ensures AlwaysInverse(Exec(s0, steps).logs[r]) <==> AlwaysEndsFirst(s0, steps, r)
  {
    InvInit(s0);
    InverseIffNoClash(Exec(s0, steps).logs[r]);
    if AlwaysEndsFirst(s0, steps, r) {
      RoutedRun(s0, steps, r);
    } else {
      EarlyStartShows(s0, steps, r);
    }
  }

  /** Then a reply for an address goes to the one session that owns it, and through the broker to its client. */
  lemma ReplyReachesOwner(s0: State, steps: seq<Step>, r: Reg, sid: nat)
    requires Starts(s0) && IsRun(s0, steps) && AlwaysEndsFirst(s0, steps, r) && AtRest(Exec(s0, steps), r)
    requires sid in AttachedTo(Exec(s0, steps), r)
    ensures var s := Exec(s0, steps);
            var a, byIP := s.t.sessions[sid].ident.addr, Replay(s.logs[r]).byIP;
            && a in byIP && byIP[a] == sid
            && (forall b :: b in byIP && byIP[b] == sid ==> b == a)
            && s.t.sessions[byIP[a]].client in s.procs && s.procs[s.t.sessions[byIP[a]].client].HasSession()
            && s.procs[s.t.sessions[byIP[a]].client].sid == sid
  {
    InvInit(s0);
    InvRun(s0, steps);
    ExitIndexStaysInverse(s0, steps, r);
    OwnsItsAddress(Exec(s0, steps), r, sid);
  }

  lemma OwnsItsAddress(s: State, r: Reg, sid: nat)
    requires Linked(s) && Agreed(s) && AtRest(s, r) && sid in AttachedTo(s, r)
    ensures var t := Replay(s.logs[r]);
            sid in t.sessions && t.sessions[sid].addr == s.t.sessions[sid].ident.addr
    ensures s.t.sessions[sid].client in s.procs && s.procs[s.t.sessions[sid].client].HasSession()
    ensures s.procs[s.t.sessions[sid].client].sid == sid
  {
    TableIsKept(s, r);
    TableNames(s.lives, s.procs, s.logs, r, sid);
  }
}

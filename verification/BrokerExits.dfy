/**
 Broker and exit together: the tables an exit rebuilds from its control stream against the broker's
 maps, and the order of the writes.
 */
module BrokerExits {
  import opened Basics
  import opened Messages
  import opened ExitTable
  import opened BrokerState
  import opened BrokerLinks
  import opened BrokerParks
  import opened BrokerLoad
  import opened BrokerAgreement
  import opened BrokerTheorems

  // ---- load ----

  /** In every run each exit's counter is the number of its sessions less the increments still to come. */
  lemma LoadCounter(s0: State, steps: seq<Step>, r: Reg)
    requires Starts(s0) && IsRun(s0, steps) && r in Exec(s0, steps).t.active
    ensures var s := Exec(s0, steps);
            s.t.active[r] == |AttachedTo(s, r)| - |Pending(s, r)| >= 0
  {
    InvInit(s0);
    InvRun(s0, steps);
    CounterIsExact(Exec(s0, steps), r);
  }

  // ---- order and contents of the control streams ----

  /** In every interleaving, no exit is told to start a session after it was told to end it. */
  lemma StartsPrecedeEnds(s0: State, steps: seq<Step>, r: Reg)
    requires Starts(s0) && IsRun(s0, steps) && r in Exec(s0, steps).logs
    ensures Ordered(Exec(s0, steps).logs[r])
  {
    InvInit(s0);
    InvRun(s0, steps);
  }

  predicate Drained(s: State, r: Reg) {
    forall p :: p in s.procs ==> !s.procs[p].WritesTo(r)
  }

  /** The registration is current and no write to it has failed or is still to come. */
  predicate AtRest(s: State, r: Reg) {
    r in s.logs && Online(s.t.exits, s.t.info, r) && r !in s.broken && Drained(s, r)
  }

  function ParkedOn(s: State, r: Reg): set<nat> {
    set k | k in s.t.parked && s.t.parked[k].exit == r :: s.t.parked[k].id
  }

  function DisplacedOn(s: State, r: Reg): set<nat> {
    set sid | sid in s.lives && IsDisplaced(s.lives[sid]) && s.lives[sid].where.exit == r
  }

  /** Sessions that the broker keeps with r: active, parked or displaced. */
  predicate KeptOn(s: State, r: Reg, sid: nat) {
    sid in s.lives && s.lives[sid].Held? && LastExit(s.lives[sid]) == Some(r)
  }

  lemma StartedAndKept(s: State, r: Reg, sid: nat)
    requires Linked(s) && Agreed(s) && AtRest(s, r)
    ensures HasStart(s.logs[r], sid) && !HasEnd(s.logs[r], sid) <==> KeptOn(s, r, sid)
  {
    if HasStart(s.logs[r], sid) && !HasEnd(s.logs[r], sid) {
      assert sid in s.lives && LastExit(s.lives[sid]) == Some(r);
      if s.lives[sid].Ended? {
        assert EndTold(sid, s.lives[sid], s.procs, s.logs);
        assert s.procs[s.lives[sid].ender].WritesTo(r);
      }
    }
    if KeptOn(s, r, sid) {
      assert StartLogged(sid, s.lives[sid], s.procs, s.logs);
      if IsActive(s.lives[sid]) {
        var c := s.procs[s.lives[sid].where.pid];
        assert c.HasSession() && c.exit == r && !c.WritesTo(r);
      }
    }
  }

  lemma KeptIsMaps(s: State, r: Reg, sid: nat)
    requires Linked(s)
    ensures KeptOn(s, r, sid) <==> sid in AttachedTo(s, r) + ParkedOn(s, r) + DisplacedOn(s, r)
  {
    if KeptOn(s, r, sid) && IsParked(s.lives[sid]) {
      assert s.t.parked[s.lives[sid].ident.key].id == sid;
    }
  }

  lemma TableIsKept(s: State, r: Reg)
    requires Linked(s) && Agreed(s) && AtRest(s, r)
    ensures Replay(s.logs[r]).sessions.Keys == AttachedTo(s, r) + ParkedOn(s, r) + DisplacedOn(s, r)
  {
    forall sid
      ensures sid in Replay(s.logs[r]).sessions <==> sid in AttachedTo(s, r) + ParkedOn(s, r) + DisplacedOn(s, r)
    {
      ReplayKeys(s.logs[r], sid);
      StartedAndKept(s, r, sid);
      KeptIsMaps(s, r, sid);
    }
  }

  /** Once its writes are drained, an exit's table holds exactly the sessions the broker keeps with it. */
  lemma ExitTableAgrees(s0: State, steps: seq<Step>, r: Reg)
    requires Starts(s0) && IsRun(s0, steps) && AtRest(Exec(s0, steps), r)
    ensures var s := Exec(s0, steps);
            Replay(s.logs[r]).sessions.Keys == AttachedTo(s, r) + ParkedOn(s, r) + DisplacedOn(s, r)
  {
    InvInit(s0);
    InvRun(s0, steps);
    TableIsKept(Exec(s0, steps), r);
  }

  /** The exit shows a session as suspended exactly when it is parked or displaced, or its suspension came late. */
  lemma FlagIsKept(s: State, r: Reg, sid: nat)
    requires Linked(s) && Agreed(s) && AtRest(s, r) && sid in Replay(s.logs[r]).sessions
    ensures Replay(s.logs[r]).sessions[sid].suspended <==>
            sid in ParkedOn(s, r) + DisplacedOn(s, r) || (sid in AttachedTo(s, r) && sid in s.late)
  {
    ReplayKeys(s.logs[r], sid);
    ReplayFlag(s.logs[r], sid);
    StartedAndKept(s, r, sid);
    KeptIsMaps(s, r, sid);
  }

  lemma ExitFlagAgrees(s0: State, steps: seq<Step>, r: Reg, sid: nat)
    requires Starts(s0) && IsRun(s0, steps) && AtRest(Exec(s0, steps), r)
    requires sid in Replay(Exec(s0, steps).logs[r]).sessions
    ensures var s := Exec(s0, steps);
            Replay(s.logs[r]).sessions[sid].suspended <==>
            sid in ParkedOn(s, r) + DisplacedOn(s, r) || (sid in AttachedTo(s, r) && sid in s.late)
  {
    InvInit(s0);
    InvRun(s0, steps);
    FlagIsKept(Exec(s0, steps), r, sid);
  }

  // ---- writes in lock order ----

  /** No start is written while an earlier suspension of the same session is still to be written. */
  predicate InLockOrder(s: State, step: Step) {
    step.WriteStart? && step.p in s.procs && s.procs[step.p].Starting? ==>
      forall q :: q in s.procs ==> s.procs[q] != Suspending(s.procs[step.p].sid, s.procs[step.p].exit)
  }

  predicate AlwaysInLockOrder(s: State, steps: seq<Step>)
    requires IsRun(s, steps)
    decreases |steps|
  {
    steps == [] || (InLockOrder(s, steps[0]) && AlwaysInLockOrder(Do(s, steps[0]), steps[1..]))
  }

  /** No suspension of a session is outstanding while it relays. */
  predicate NoneOutstanding(ps: Procs) {
    forall p, q :: p in ps && q in ps && ps[p].Relaying? ==> ps[q] != Suspending(ps[p].sid, ps[p].exit)
  }

  lemma OutstandingOther(ps: Procs, p: Pid, c: Proc)
    requires NoneOutstanding(ps) && !c.Relaying? && !c.Suspending?
    ensures NoneOutstanding(ps[p := c])
  {
  }

  lemma OutstandingResume(s: State, key: string, user: string)
    requires NoneOutstanding(s.procs) && Enabled(s, ResumeSession(key, user))
    ensures NoneOutstanding(DoResume(s, key).procs)
  {
  }

  lemma OutstandingDrop(s: State, p: Pid, intentional: bool)
    requires ActiveLinked(s.t.sessions, s.lives, s.procs) && NoneOutstanding(s.procs)
             && Enabled(s, Drop(p, intentional))
    ensures NoneOutstanding(DoDrop(s, p, intentional).procs)
  {
    var c, key := s.procs[p], s.t.sessions[s.procs[p].sid].ident.key;
    DropShape(s, p, intentional);
    OutstandingOther(s.procs, p, Ending(c.sid, c.exit));
    OutstandingSuspend(s.procs, p, c.sid, c.exit);
    OutstandingOther(s.procs[p := Suspending(c.sid, c.exit)], s.nextPid, Armed(c.sid, key, s.now + s.t.ttl));
  }

  lemma OutstandingSuspend(ps: Procs, p: Pid, sid: nat, r: Reg)
    requires NoneOutstanding(ps) && forall q :: q in ps && q != p && ps[q].Relaying? ==> ps[q].sid != sid
    ensures NoneOutstanding(ps[p := Suspending(sid, r)])
  {
  }

  lemma OutstandingStart(s: State, p: Pid, ok: bool)
    requires NoneOutstanding(s.procs) && Enabled(s, WriteStart(p, ok)) && InLockOrder(s, WriteStart(p, ok))
    ensures NoneOutstanding(DoWriteStart(s, p, ok).procs)
  {
  }

  lemma OutstandingStep(s: State, step: Step)
    requires Linked(s) && NoneOutstanding(s.procs) && Enabled(s, step) && InLockOrder(s, step)
    ensures NoneOutstanding(Do(s, step).procs)
  {
    match step
    case Register(_) =>
    case ExitGone(_) =>
    case Tick(_) =>
    case Pick(r, user, key) => OutstandingOther(s.procs, s.nextPid, Picked(r, user, key));
    case ResumeSession(key, user) => OutstandingResume(s, key, user);
    case Drop(p, intentional) => OutstandingDrop(s, p, intentional);
    case WriteStart(p, ok) => OutstandingStart(s, p, ok);
    case _ =>
      OneProcStep(s, step);
      OutstandingOther(s.procs, step.p, Do(s, step).procs[step.p]);
  }

  lemma LateStep(s: State, step: Step)
    requires Linked(s) && NoneOutstanding(s.procs) && Enabled(s, step) && s.late == {}
    ensures Do(s, step).late == {}
  {
    if step.WriteSuspend? {
      RestartedIsRunning(s, s.procs[step.p].sid, s.procs[step.p].exit);
      assert !Restarted(s, s.procs[step.p].sid, s.procs[step.p].exit);
    }
  }

  lemma {:induction false} LockOrderRun(s: State, steps: seq<Step>)
    requires Inv(s) && NoneOutstanding(s.procs) && s.late == {} && IsRun(s, steps) && AlwaysInLockOrder(s, steps)
    ensures Exec(s, steps).late == {}
    decreases |steps|
  {
    if steps != [] {
      OutstandingStep(s, steps[0]);
      LateStep(s, steps[0]);
      InvStep(s, steps[0]);
      LockOrderRun(Do(s, steps[0]), steps[1..]);
    }
  }

  /** With each session's writes in lock order, the exit's suspended flag is exactly "parked or displaced". */
  lemma FlagIsParkedInLockOrder(s0: State, steps: seq<Step>, r: Reg, sid: nat)
    requires Starts(s0) && IsRun(s0, steps) && AlwaysInLockOrder(s0, steps) && AtRest(Exec(s0, steps), r)
    requires sid in Replay(Exec(s0, steps).logs[r]).sessions
    ensures var s := Exec(s0, steps);
            Replay(s.logs[r]).sessions[sid].suspended <==> sid in ParkedOn(s, r) + DisplacedOn(s, r)
  {
    InvInit(s0);
    LockOrderRun(s0, steps);
    ExitFlagAgrees(s0, steps, r, sid);
  }
}

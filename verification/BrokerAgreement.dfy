/**
 Broker and exit agree: what the control streams say about a session, written outside the broker's
 mutex, matches what the broker's maps say about it.
 */
module BrokerAgreement {
  import opened Basics
  import opened Messages
  import opened BrokerState
  import opened BrokerLinks
  import opened BrokerParks

  type Logs = map<Reg, Stream>

  // ---- ends are final ----

  /** Only finished sessions are reported as ended, and nothing restarts them. */
  ghost predicate EndsFinal(ls: Lives, ps: Procs, logs: Logs) {
    && (forall r :: r in logs ==> Ordered(logs[r]))
    && (forall r, sid :: r in logs && HasEnd(logs[r], sid) ==> sid in ls && ls[sid].Ended?)
    && (forall p :: p in ps && (ps[p].Suspending? || ps[p].Ending?) ==>
          ps[p].sid in ls && (ps[p].Ending? ==> ls[ps[p].sid].Ended?))
  }

  lemma EndsLife(ls: Lives, ps: Procs, logs: Logs, sid: nat, l: Life)
    requires EndsFinal(ls, ps, logs) && (sid in ls && ls[sid].Ended? ==> l.Ended?)
    ensures EndsFinal(ls[sid := l], ps, logs)
  {
  }

  lemma EndsProc(ls: Lives, ps: Procs, logs: Logs, p: Pid, c: Proc)
    requires EndsFinal(ls, ps, logs) && (c.Suspending? || c.Ending? ==> c.sid in ls && (c.Ending? ==> ls[c.sid].Ended?))
    ensures EndsFinal(ls, ps[p := c], logs)
  {
  }

  lemma EndsLog(ls: Lives, ps: Procs, logs: Logs, r: Reg, m: Msg)
    requires EndsFinal(ls, ps, logs) && r in logs && m.sid in ls
    requires m.SessionStart? ==> !ls[m.sid].Ended?
    requires m.SessionEnd? ==> ls[m.sid].Ended?
    ensures EndsFinal(ls, ps, Log(logs, r, m))
  {
  }

  // ---- running and parked sessions have been started on their exit ----

  predicate StartLogged(sid: nat, l: Life, ps: Procs, logs: Logs) {
    && (IsActive(l) && l.where.pid in ps && ps[l.where.pid].Relaying? ==>
          l.where.exit in logs && HasStart(logs[l.where.exit], sid))
    && (IsParked(l) || IsDisplaced(l) ==> l.where.exit in logs && HasStart(logs[l.where.exit], sid))
  }

  /** Starts announce the session's address. */
  predicate StartNames(m: Msg, ls: Lives) {
    m.SessionStart? ==> m.sid in ls && (ls[m.sid].Held? || ls[m.sid].Ended?) && m.addr == ls[m.sid].ident.addr
  }

  predicate StartsLogged(ls: Lives, ps: Procs, logs: Logs) {
    && (forall sid :: sid in ls ==> StartLogged(sid, ls[sid], ps, logs))
    && (forall r, i :: r in logs && 0 <= i < |logs[r]| ==> StartNames(logs[r][i], ls))
  }

  predicate SameIdent(ls: Lives, sid: nat, l: Life) {
    sid in ls && (ls[sid].Held? || ls[sid].Ended?) ==> (l.Held? || l.Ended?) && l.ident == ls[sid].ident
  }

  lemma StartsLife(ls: Lives, ps: Procs, logs: Logs, sid: nat, l: Life)
    requires StartsLogged(ls, ps, logs) && SameIdent(ls, sid, l) && StartLogged(sid, l, ps, logs)
    ensures StartsLogged(ls[sid := l], ps, logs)
  {
  }

  lemma StartsProc(ls: Lives, ps: Procs, logs: Logs, p: Pid, c: Proc)
    requires StartsLogged(ls, ps, logs) && !c.Relaying?
    ensures StartsLogged(ls, ps[p := c], logs)
  {
  }

  lemma StartsLog(ls: Lives, ps: Procs, logs: Logs, r: Reg, m: Msg)
    requires StartsLogged(ls, ps, logs) && r in logs && StartNames(m, ls)
    ensures StartsLogged(ls, ps, Log(logs, r, m))
  {
    var logs' := Log(logs, r, m);
    forall sid | sid in ls ensures StartLogged(sid, ls[sid], ps, logs') {
      assert StartLogged(sid, ls[sid], ps, logs);
      HasAppend(logs[r], m, sid);
    }
    forall x, i | x in logs' && 0 <= i < |logs'[x]| ensures StartNames(logs'[x][i], ls) {
      if x == r && i == |logs[r]| {
        assert logs'[x][i] == m;
      } else {
        assert logs'[x][i] == logs[x][i];
      }
    }
  }

  lemma StartsWrite(ls: Lives, ps: Procs, logs: Logs, p: Pid, c: Proc, addr: nat)
    requires StartsLogged(ls, ps, logs) && c.Relaying? && c.exit in logs
    requires c.sid in ls && ls[c.sid].Held? && ls[c.sid].where == Active(p, c.exit) && addr == ls[c.sid].ident.addr
    requires forall sid :: sid in ls && IsActive(ls[sid]) && ls[sid].where.pid == p ==> sid == c.sid
    ensures StartsLogged(ls, ps[p := c], Log(logs, c.exit, SessionStart(c.sid, addr)))
  {
    var m := SessionStart(c.sid, addr);
    var logs' := Log(logs, c.exit, m);
    StartsLog(ls, ps, logs, c.exit, m);
    HasAppend(logs[c.exit], m, c.sid);
    forall sid | sid in ls ensures StartLogged(sid, ls[sid], ps[p := c], logs') {
      assert StartLogged(sid, ls[sid], ps, logs');
    }
  }

  // ---- the suspended flag as the stream tells it ----

  /** A parked or displaced session has been reported suspended, or its connection is about to. */
  predicate SuspendTold(sid: nat, l: Life, ps: Procs, logs: Logs, broken: set<Reg>) {
    (IsParked(l) || IsDisplaced(l)) && l.where.exit !in broken ==>
      || (l.where.parker in ps && ps[l.where.parker] == Suspending(sid, l.where.exit))
      || (l.where.exit in logs && LastIsSuspend(logs[l.where.exit], sid))
  }

  /** A running session is told to suspend last exactly when a late suspension overtook its start. */
  predicate LateTold(sid: nat, l: Life, ps: Procs, logs: Logs, late: set<nat>) {
    IsActive(l) && l.where.pid in ps && ps[l.where.pid].Relaying? && l.where.exit in logs ==>
      (LastIsSuspend(logs[l.where.exit], sid) <==> sid in late)
  }

  predicate FlagsTold(ls: Lives, ps: Procs, logs: Logs, broken: set<Reg>, late: set<nat>) {
    && (forall sid :: sid in ls ==> SuspendTold(sid, ls[sid], ps, logs, broken))
    && (forall sid :: sid in ls ==> LateTold(sid, ls[sid], ps, logs, late))
    && (forall p :: p in ps && ps[p].Failing? ==> ps[p].exit in broken)
  }

  lemma FlagsLife(ls: Lives, ps: Procs, logs: Logs, broken: set<Reg>, late: set<nat>, sid: nat, l: Life)
    requires FlagsTold(ls, ps, logs, broken, late)
    requires SuspendTold(sid, l, ps, logs, broken) && LateTold(sid, l, ps, logs, late)
    ensures FlagsTold(ls[sid := l], ps, logs, broken, late)
  {
  }

  lemma FlagsProc(ls: Lives, ps: Procs, logs: Logs, broken: set<Reg>, late: set<nat>, p: Pid, c: Proc)
    requires FlagsTold(ls, ps, logs, broken, late) && !c.Relaying? && !c.Failing? && (p in ps ==> !ps[p].Suspending?)
    ensures FlagsTold(ls, ps[p := c], logs, broken, late)
  {
  }

  /** Writing an end changes nobody's flag. */
  lemma FlagsEndLog(ls: Lives, ps: Procs, logs: Logs, broken: set<Reg>, late: set<nat>, r: Reg, sid: nat)
    requires FlagsTold(ls, ps, logs, broken, late) && r in logs
    ensures FlagsTold(ls, ps, Log(logs, r, SessionEnd(sid)), broken, late)
  {
  }

  lemma FlagsBroken(ls: Lives, ps: Procs, logs: Logs, broken: set<Reg>, late: set<nat>, p: Pid, c: Proc)
    requires FlagsTold(ls, ps, logs, broken, late) && p in ps && !c.Relaying?
    requires ps[p].Suspending? || ps[p].Ending? || ps[p].Starting?
    requires c.Failing? ==> c.exit == ps[p].exit
    ensures FlagsTold(ls, ps[p := c], logs, broken + {ps[p].exit}, late)
  {
  }

  lemma FlagsStart(ls: Lives, ps: Procs, logs: Logs, broken: set<Reg>, late: set<nat>, p: Pid, c: Proc, addr: nat)
    requires FlagsTold(ls, ps, logs, broken, late) && c.Relaying? && c.exit in logs && p in ps && !ps[p].Suspending?
    requires c.sid in ls && ls[c.sid].Held? && ls[c.sid].where == Active(p, c.exit)
    requires forall sid :: sid in ls && IsActive(ls[sid]) && ls[sid].where.pid == p ==> sid == c.sid
    ensures FlagsTold(ls, ps[p := c], Log(logs, c.exit, SessionStart(c.sid, addr)), broken, late - {c.sid})
  {
  }

  lemma FlagsSuspend(ls: Lives, ps: Procs, logs: Logs, broken: set<Reg>, late: set<nat>, p: Pid, again: bool)
    requires FlagsTold(ls, ps, logs, broken, late) && p in ps && ps[p].Suspending? && ps[p].exit in logs
    requires ps[p].sid in ls
    requires again <==> IsActive(ls[ps[p].sid]) && ls[ps[p].sid].where.exit == ps[p].exit
                        && ls[ps[p].sid].where.pid in ps && ps[ls[ps[p].sid].where.pid].Relaying?
    ensures FlagsTold(ls, ps[p := Done], Log(logs, ps[p].exit, SessionSuspend(ps[p].sid)), broken,
                      if again then late + {ps[p].sid} else late)
  {
  }

  // ---- what is started on an online exit ends there ----

  predicate Online(exits: map<string, Reg>, info: Infos, r: Reg) {
    r in info && info[r].node in exits && exits[info[r].node] == r
  }

  predicate EndTold(sid: nat, l: Life, ps: Procs, logs: Logs) {
    l.Ended? && l.exit in logs ==>
      HasEnd(logs[l.exit], sid) || (l.ender in ps && ps[l.ender] == Ending(sid, l.exit))
  }

  ghost predicate Reported(exits: map<string, Reg>, info: Infos, ls: Lives, ps: Procs, logs: Logs, broken: set<Reg>) {
    && (forall r, sid :: r in logs && Online(exits, info, r) && HasStart(logs[r], sid) ==>
          sid in ls && LastExit(ls[sid]) == Some(r))
    && (forall sid :: sid in ls && ls[sid].Ended? && Online(exits, info, ls[sid].exit) && ls[sid].exit !in broken ==>
          EndTold(sid, ls[sid], ps, logs))
  }

  lemma ReportedLife(exits: map<string, Reg>, info: Infos, ls: Lives, ps: Procs, logs: Logs, broken: set<Reg>,
                     sid: nat, l: Life)
    requires Reported(exits, info, ls, ps, logs, broken)
    requires sid in ls && LastExit(ls[sid]).Some? && Online(exits, info, LastExit(ls[sid]).value) ==>
               LastExit(l) == LastExit(ls[sid])
    requires l.Ended? && Online(exits, info, l.exit) && l.exit !in broken ==> EndTold(sid, l, ps, logs)
    ensures Reported(exits, info, ls[sid := l], ps, logs, broken)
  {
  }

  lemma ReportedProc(exits: map<string, Reg>, info: Infos, ls: Lives, ps: Procs, logs: Logs, broken: set<Reg>,
                     p: Pid, c: Proc)
    requires Reported(exits, info, ls, ps, logs, broken) && (p in ps ==> !ps[p].Ending?)
    ensures Reported(exits, info, ls, ps[p := c], logs, broken)
  {
  }

  lemma ReportedLog(exits: map<string, Reg>, info: Infos, ls: Lives, ps: Procs, logs: Logs, broken: set<Reg>, r: Reg,
                    m: Msg)
    requires Reported(exits, info, ls, ps, logs, broken) && r in logs
    requires m.SessionStart? ==> m.sid in ls && LastExit(ls[m.sid]) == Some(r)
    ensures Reported(exits, info, ls, ps, Log(logs, r, m), broken)
  {
    var logs' := Log(logs, r, m);
    forall x, sid | x in logs' && Online(exits, info, x) && HasStart(logs'[x], sid)
      ensures sid in ls && LastExit(ls[sid]) == Some(x)
    {
      HasAppend(logs[r], m, sid);
    }
    forall sid | sid in ls && ls[sid].Ended? && Online(exits, info, ls[sid].exit) && ls[sid].exit !in broken
      ensures EndTold(sid, ls[sid], ps, logs')
    {
      assert EndTold(sid, ls[sid], ps, logs);
      HasAppend(logs[r], m, sid);
    }
  }

  lemma ReportedEnd(exits: map<string, Reg>, info: Infos, ls: Lives, ps: Procs, logs: Logs, broken: set<Reg>, p: Pid,
                    ok: bool)
    requires Reported(exits, info, ls, ps, logs, broken) && p in ps && ps[p].Ending? && ps[p].exit in logs
    ensures ok ==> Reported(exits, info, ls, ps[p := Done], Log(logs, ps[p].exit, SessionEnd(ps[p].sid)), broken)
    ensures !ok ==> Reported(exits, info, ls, ps[p := Done], logs, broken + {ps[p].exit})
  {
    var r, m := ps[p].exit, SessionEnd(ps[p].sid);
    ReportedLog(exits, info, ls, ps, logs, broken, r, m);
    var logs' := Log(logs, r, m);
    forall sid | sid in ls && ls[sid].Ended? && Online(exits, info, ls[sid].exit) && ls[sid].exit !in broken
      ensures EndTold(sid, ls[sid], ps[p := Done], logs')
      ensures ls[sid].exit != r ==> EndTold(sid, ls[sid], ps[p := Done], logs)
    {
      assert EndTold(sid, ls[sid], ps, logs);
      HasAppend(logs[r], m, sid);
    }
  }

  // ---- every step keeps the agreement ----

  ghost predicate Agreed(s: State) {
    && EndsFinal(s.lives, s.procs, s.logs)
    && StartsLogged(s.lives, s.procs, s.logs)
    && FlagsTold(s.lives, s.procs, s.logs, s.broken, s.late)
    && Reported(s.t.exits, s.t.info, s.lives, s.procs, s.logs, s.broken)
  }

  /** A process that is not about to write goes on to one that is not about to write either. */
  lemma AgreedProc(s: State, p: Pid, c: Proc)
    requires Agreed(s) && !c.Relaying? && !c.Failing? && !c.Suspending? && !c.Ending?
    requires p in s.procs ==> !s.procs[p].Suspending? && !s.procs[p].Ending?
    ensures Agreed(s.(procs := s.procs[p := c]))
  {
    EndsProc(s.lives, s.procs, s.logs, p, c);
    StartsProc(s.lives, s.procs, s.logs, p, c);
    FlagsProc(s.lives, s.procs, s.logs, s.broken, s.late, p, c);
    ReportedProc(s.t.exits, s.t.info, s.lives, s.procs, s.logs, s.broken, p, c);
  }

  /** The life of a session that is neither parked, displaced, running nor ended changes to such another. */
  lemma AgreedLife(s: State, sid: nat, l: Life)
    requires Agreed(s) && SameIdent(s.lives, sid, l) && !l.Ended? && !IsParked(l) && !IsDisplaced(l)
    requires IsActive(l) ==> l.where.pid in s.procs && !s.procs[l.where.pid].Relaying?
    requires sid in s.lives ==> !s.lives[sid].Ended?
    requires && sid in s.lives && LastExit(s.lives[sid]).Some?
             && Online(s.t.exits, s.t.info, LastExit(s.lives[sid]).value) ==>
               LastExit(l) == LastExit(s.lives[sid])
    ensures Agreed(s.(lives := s.lives[sid := l]))
  {
    EndsLife(s.lives, s.procs, s.logs, sid, l);
    StartsLife(s.lives, s.procs, s.logs, sid, l);
    FlagsLife(s.lives, s.procs, s.logs, s.broken, s.late, sid, l);
    ReportedLife(s.t.exits, s.t.info, s.lives, s.procs, s.logs, s.broken, sid, l);
  }

  lemma AgreedRegister(s: State, info: ExitInfo)
    requires Linked(s) && Agreed(s)
    ensures Agreed(Do(s, Register(info)))
  {
    var s' := Do(s, Register(info));
    forall sid | sid in s.lives
      ensures LastExit(s.lives[sid]).Some? ==> LastExit(s.lives[sid]).value in s.logs
    {
      assert LifeOnNode(s.t.info, s.lives[sid]);
    }
    RegisterKeepsLogs(s.lives, s.procs, s.logs, s.broken, s.late, s.t.nextReg);
    RegisterKeepsReports(s.t.exits, s.t.info, s.lives, s.procs, s.logs, s.broken, s.t.nextReg, s'.t.info[s.t.nextReg]);
  }

  lemma RegisterKeepsLogs(ls: Lives, ps: Procs, logs: Logs, broken: set<Reg>, late: set<nat>, r: Reg)
    requires EndsFinal(ls, ps, logs) && StartsLogged(ls, ps, logs) && FlagsTold(ls, ps, logs, broken, late)
    requires r !in logs && forall sid :: sid in ls && LastExit(ls[sid]).Some? ==> LastExit(ls[sid]).value in logs
    ensures EndsFinal(ls, ps, logs[r := []]) && StartsLogged(ls, ps, logs[r := []])
    ensures FlagsTold(ls, ps, logs[r := []], broken, late)
  {
    var logs' := logs[r := []];
    forall sid | sid in ls
      ensures StartLogged(sid, ls[sid], ps, logs')
      ensures SuspendTold(sid, ls[sid], ps, logs', broken) && LateTold(sid, ls[sid], ps, logs', late)
    {
      assert LastExit(ls[sid]).Some? ==> LastExit(ls[sid]).value in logs;
      assert StartLogged(sid, ls[sid], ps, logs);
      assert SuspendTold(sid, ls[sid], ps, logs, broken) && LateTold(sid, ls[sid], ps, logs, late);
    }
  }

  lemma RegisterKeepsReports(exits: map<string, Reg>, info: Infos, ls: Lives, ps: Procs, logs: Logs, broken: set<Reg>,
                             r: Reg, i: ExitInfo)
    requires Reported(exits, info, ls, ps, logs, broken) && r !in logs && r !in info
    requires forall sid :: sid in ls && LastExit(ls[sid]).Some? ==> LastExit(ls[sid]).value in logs
    ensures Reported(exits[i.node := r], info[r := i], ls, ps, logs[r := []], broken)
  {
  }

  lemma AgreedExitGone(s: State, r: Reg)
    requires Agreed(s) && s.t.pool.Valid() && Enabled(s, ExitGone(r))
    ensures Agreed(Do(s, ExitGone(r)))
  {
    var exits' := Do(s, ExitGone(r)).t.exits;
    assert forall x :: Online(exits', s.t.info, x) ==> Online(s.t.exits, s.t.info, x);
  }

  lemma AgreedNumber(s: State, p: Pid)
    requires Agreed(s) && Enabled(s, Number(p)) && s.t.lastSid + 1 !in s.lives
    ensures Agreed(DoNumber(s, p))
  {
    var c := DoNumber(s, p).procs[p];
    AgreedProc(s, p, c);
    AgreedLife(s.(procs := s.procs[p := c]), s.t.lastSid + 1, Issued(p));
  }

  lemma AgreedAllocate(s: State, p: Pid)
    requires Linked(s) && Agreed(s) && Enabled(s, Allocate(p))
    ensures Agreed(DoAllocate(s, p))
  {
    var c, sid := DoAllocate(s, p).procs[p], s.procs[p].sid;
    AgreedProc(s, p, c);
    AgreedLife(s.(procs := s.procs[p := c]), sid, DoAllocate(s, p).lives[sid]);
  }

  lemma AgreedInsert(s: State, p: Pid)
    requires Linked(s) && Agreed(s) && Enabled(s, InsertSession(p))
    ensures Agreed(DoInsert(s, p))
  {
    var c, sid := DoInsert(s, p).procs[p], s.procs[p].sid;
    AgreedProc(s, p, c);
    AgreedLife(s.(procs := s.procs[p := c]), sid, DoInsert(s, p).lives[sid]);
  }

  lemma AgreedResume(s: State, key: string, user: string)
    requires Linked(s) && Enabled(s, ResumeSession(key, user)) && Agreed(s)
    ensures Agreed(Do(s, ResumeSession(key, user)))
  {
    var n := Resumed(s.t, key, s.nextPid);
    AgreedStop(s, n.timer);
    ResumesOnline(s, key);
    ResumeFacts(s, key);
    AgreedReattach(s.(procs := Stop(s.procs, n.timer)), n.id, n.ident, s.nextPid, n.exit, n.ident.addr);
  }

  lemma AgreedStop(s: State, timer: Option<Pid>)
    requires Agreed(s)
    ensures Agreed(s.(procs := Stop(s.procs, timer)))
  {
    if Stop(s.procs, timer) != s.procs {
      AgreedProc(s, timer.value, Done);
    }
  }

  lemma ResumeFacts(s: State, key: string)
    requires Linked(s) && key in s.t.parked
    ensures var q := s.t.parked[key];
            && q.timer.Some? && q.id in s.lives && s.lives[q.id] == ParkedLife(q)
            && s.nextPid !in s.procs && s.nextPid !in Stop(s.procs, q.timer)
  {
  }

  /** A parked session goes to a new connection. */
  lemma AgreedReattach(s: State, sid: nat, ident: Ident, p: Pid, r: Reg, addr: nat)
    requires Agreed(s) && p !in s.procs && sid in s.lives && IsParked(s.lives[sid]) && s.lives[sid].ident == ident
    requires Online(s.t.exits, s.t.info, s.lives[sid].where.exit) ==> r == s.lives[sid].where.exit
    ensures Agreed(s.(procs := s.procs[p := Proc.Attached(sid, r, addr, true)],
                      lives := s.lives[sid := Held(ident, Active(p, r))]))
  {
    var c := Proc.Attached(sid, r, addr, true);
    AgreedProc(s, p, c);
    AgreedLife(s.(procs := s.procs[p := c]), sid, Held(ident, Active(p, r)));
  }

  /** A session whose last exit is still online is resumed there. */
  lemma ResumesOnline(s: State, key: string)
    requires Linked(s) && key in s.t.parked && s.t.parked[key].ident.node in s.t.exits
    ensures var q := s.t.parked[key];
            Online(s.t.exits, s.t.info, q.exit) ==> s.t.exits[q.ident.node] == q.exit
  {
    assert LifeOnNode(s.t.info, s.lives[s.t.parked[key].id]);
  }

  lemma AgreedDisplace(s: State, key: string)
    requires Linked(s) && Agreed(s)
    ensures Agreed(Displace(s, key))
  {
    if key in s.t.parked {
      var q := s.t.parked[key];
      var l := Held(q.ident, Displaced(q.client, q.exit));
      assert StartLogged(q.id, s.lives[q.id], s.procs, s.logs)
             && SuspendTold(q.id, s.lives[q.id], s.procs, s.logs, s.broken);
      EndsLife(s.lives, s.procs, s.logs, q.id, l);
      StartsLife(s.lives, s.procs, s.logs, q.id, l);
      FlagsLife(s.lives, s.procs, s.logs, s.broken, s.late, q.id, l);
      ReportedLife(s.t.exits, s.t.info, s.lives, s.procs, s.logs, s.broken, q.id, l);
    }
  }

  lemma AgreedPark(s: State, p: Pid)
    requires ActiveLinked(s.t.sessions, s.lives, s.procs) && Agreed(s) && p in s.procs && s.procs[p].Relaying?
    ensures Agreed(ParkActive(s, p))
  {
    var c, l := s.procs[p], ParkedLife(ParkedNow(s, p));
    var c' := Suspending(c.sid, c.exit);
    var ps := s.procs[p := c'];
    assert StartLogged(c.sid, s.lives[c.sid], s.procs, s.logs);
    EndsProc(s.lives, s.procs, s.logs, p, c');
    EndsLife(s.lives, ps, s.logs, c.sid, l);
    StartsProc(s.lives, s.procs, s.logs, p, c');
    StartsLife(s.lives, ps, s.logs, c.sid, l);
    FlagsProc(s.lives, s.procs, s.logs, s.broken, s.late, p, c');
    FlagsLife(s.lives, ps, s.logs, s.broken, s.late, c.sid, l);
    ReportedProc(s.t.exits, s.t.info, s.lives, s.procs, s.logs, s.broken, p, c');
    ReportedLife(s.t.exits, s.t.info, s.lives, ps, s.logs, s.broken, c.sid, l);
  }

  /** A session ends, and the process that ended it reports so if its exit is still online. */
  lemma AgreedFinish(s: State, p: Pid, c: Proc, sid: nat, l: Life)
    requires Agreed(s) && p in s.procs && !s.procs[p].Suspending? && !s.procs[p].Ending?
    requires c.Ending? || c.Done?
    requires sid in s.lives && s.lives[sid].Held? && l.Ended? && l.ident == s.lives[sid].ident && l.ender == p
    requires c.Ending? ==> c.sid == sid
    requires LastExit(s.lives[sid]) == Some(l.exit)
    requires Online(s.t.exits, s.t.info, l.exit) ==> c.Ending? && c.exit == l.exit
    ensures Agreed(s.(procs := s.procs[p := c], lives := s.lives[sid := l]))
  {
    var ls := s.lives[sid := l];
    EndsLife(s.lives, s.procs, s.logs, sid, l);
    EndsProc(ls, s.procs, s.logs, p, c);
    StartsProc(s.lives, s.procs, s.logs, p, c);
    StartsLife(s.lives, s.procs[p := c], s.logs, sid, l);
    FlagsProc(s.lives, s.procs, s.logs, s.broken, s.late, p, c);
    FlagsLife(s.lives, s.procs[p := c], s.logs, s.broken, s.late, sid, l);
    ReportedProc(s.t.exits, s.t.info, s.lives, s.procs, s.logs, s.broken, p, c);
    ReportedLife(s.t.exits, s.t.info, s.lives, s.procs[p := c], s.logs, s.broken, sid, l);
  }

  lemma AgreedEnd(s: State, p: Pid)
    requires Linked(s) && Agreed(s) && p in s.procs && s.procs[p].HasSession()
    ensures Agreed(EndActive(s, p))
  {
    var c := s.procs[p];
    AgreedFinish(s, p, Ending(c.sid, c.exit), c.sid, EndActive(s, p).lives[c.sid]);
  }

  lemma AgreedExpire(s: State, p: Pid)
    requires Linked(s) && Agreed(s) && Enabled(s, ExpirePark(p))
    ensures Agreed(DoExpire(s, p))
  {
    var c := s.procs[p];
    if Expires(s.t, c.key, c.sid) {
      assert LifeOnNode(s.t.info, s.lives[c.sid]);
      AgreedFinish(s, p, DoExpire(s, p).procs[p], c.sid, DoExpire(s, p).lives[c.sid]);
    } else {
      AgreedProc(s, p, Done);
    }
  }

  lemma AgreedParkAndArm(s: State, p: Pid, timer: Proc)
    requires ActiveLinked(s.t.sessions, s.lives, s.procs) && s.nextPid !in s.procs
    requires Agreed(s) && p in s.procs && s.procs[p].Relaying? && timer.Armed?
    ensures Agreed(NewProc(ParkActive(s, p), timer))
  {
    AgreedPark(s, p);
    AgreedArm(ParkActive(s, p), timer);
  }

  lemma AgreedArm(s: State, timer: Proc)
    requires Agreed(s) && timer.Armed? && s.nextPid !in s.procs
    ensures Agreed(NewProc(s, timer))
  {
    AgreedProc(s, s.nextPid, timer);
  }

  lemma AgreedDrop(s: State, p: Pid, intentional: bool)
    requires Linked(s) && Agreed(s) && Enabled(s, Drop(p, intentional))
    ensures Agreed(DoDrop(s, p, intentional))
  {
    var ss := s.t.sessions[s.procs[p].sid];
    if Parks(s.t, ss, intentional) {
      LinkedDisplace(s, ss.ident.key);
      AgreedDisplace(s, ss.ident.key);
      AgreedParkAndArm(Displace(s, ss.ident.key), p, Armed(s.procs[p].sid, ss.ident.key, s.now + s.t.ttl));
      DropParks(s, p, intentional);
    } else {
      AgreedEnd(s, p);
    }
  }

  /** The session a connection is starting is its own and nobody else's. */
  predicate StartsOwn(s: State, p: Pid)
    requires p in s.procs && s.procs[p].Starting?
  {
    var c := s.procs[p];
    && c.exit in s.logs && c.sid in s.lives && s.lives[c.sid].Held?
    && s.lives[c.sid].where == Active(p, c.exit) && s.lives[c.sid].ident.addr == c.addr
    && forall sid :: sid in s.lives && IsActive(s.lives[sid]) && s.lives[sid].where.pid == p ==> sid == c.sid
  }

  lemma StartingIsOwn(s: State, p: Pid)
    requires Linked(s) && p in s.procs && s.procs[p].Starting?
    ensures StartsOwn(s, p)
  {
  }

  lemma AgreedStartFails(s: State, p: Pid)
    requires Agreed(s) && Enabled(s, WriteStart(p, false))
    ensures Agreed(DoWriteStart(s, p, false))
  {
    var c' := DoWriteStart(s, p, false).procs[p];
    EndsProc(s.lives, s.procs, s.logs, p, c');
    ReportedProc(s.t.exits, s.t.info, s.lives, s.procs, s.logs, s.broken, p, c');
    StartsProc(s.lives, s.procs, s.logs, p, c');
    FlagsBroken(s.lives, s.procs, s.logs, s.broken, s.late, p, c');
  }

  lemma AgreedStart(s: State, p: Pid)
    requires Agreed(s) && Enabled(s, WriteStart(p, true)) && StartsOwn(s, p)
    ensures Agreed(DoWriteStart(s, p, true))
  {
    var c := s.procs[p];
    var c', m := Relaying(c.sid, c.exit, c.resumed), SessionStart(c.sid, c.addr);
    EndsProc(s.lives, s.procs, s.logs, p, c');
    EndsLog(s.lives, s.procs[p := c'], s.logs, c.exit, m);
    StartsWrite(s.lives, s.procs, s.logs, p, c', c.addr);
    FlagsStart(s.lives, s.procs, s.logs, s.broken, s.late, p, c', c.addr);
    ReportedProc(s.t.exits, s.t.info, s.lives, s.procs, s.logs, s.broken, p, c');
    ReportedLog(s.t.exits, s.t.info, s.lives, s.procs[p := c'], s.logs, s.broken, c.exit, m);
  }

  lemma RestartedIsRunning(s: State, sid: nat, r: Reg)
    requires Linked(s)
    ensures Restarted(s, sid, r) <==>
            && sid in s.lives && IsActive(s.lives[sid]) && s.lives[sid].where.exit == r
            && s.lives[sid].where.pid in s.procs && s.procs[s.lives[sid].where.pid].Relaying?
  {
  }

  lemma AgreedSuspendFails(s: State, p: Pid)
    requires Agreed(s) && Enabled(s, WriteSuspend(p, false))
    ensures Agreed(DoWriteSuspend(s, p, false))
  {
    EndsProc(s.lives, s.procs, s.logs, p, Done);
    StartsProc(s.lives, s.procs, s.logs, p, Done);
    ReportedProc(s.t.exits, s.t.info, s.lives, s.procs, s.logs, s.broken, p, Done);
    FlagsBroken(s.lives, s.procs, s.logs, s.broken, s.late, p, Done);
  }

  lemma AgreedSuspend(s: State, p: Pid)
    requires Linked(s) && Agreed(s) && Enabled(s, WriteSuspend(p, true))
    ensures Agreed(DoWriteSuspend(s, p, true))
  {
    var c := s.procs[p];
    var m := SessionSuspend(c.sid);
    EndsProc(s.lives, s.procs, s.logs, p, Done);
    EndsLog(s.lives, s.procs[p := Done], s.logs, c.exit, m);
    StartsProc(s.lives, s.procs, s.logs, p, Done);
    StartsLog(s.lives, s.procs[p := Done], s.logs, c.exit, m);
    RestartedIsRunning(s, c.sid, c.exit);
    FlagsSuspend(s.lives, s.procs, s.logs, s.broken, s.late, p, Restarted(s, c.sid, c.exit));
    ReportedProc(s.t.exits, s.t.info, s.lives, s.procs, s.logs, s.broken, p, Done);
    ReportedLog(s.t.exits, s.t.info, s.lives, s.procs[p := Done], s.logs, s.broken, c.exit, m);
  }

  lemma AgreedWriteEnd(s: State, p: Pid, ok: bool)
    requires Linked(s) && Agreed(s) && Enabled(s, WriteEnd(p, ok))
    ensures Agreed(DoWriteEnd(s, p, ok))
  {
    var c := s.procs[p];
    EndsProc(s.lives, s.procs, s.logs, p, Done);
    StartsProc(s.lives, s.procs, s.logs, p, Done);
    ReportedEnd(s.t.exits, s.t.info, s.lives, s.procs, s.logs, s.broken, p, ok);
    if ok {
      var m := SessionEnd(c.sid);
      EndsLog(s.lives, s.procs[p := Done], s.logs, c.exit, m);
      StartsLog(s.lives, s.procs[p := Done], s.logs, c.exit, m);
      FlagsProc(s.lives, s.procs, s.logs, s.broken, s.late, p, Done);
      FlagsEndLog(s.lives, s.procs[p := Done], s.logs, s.broken, s.late, c.exit, c.sid);
    } else {
      FlagsBroken(s.lives, s.procs, s.logs, s.broken, s.late, p, Done);
    }
  }

  lemma AgreedQuiet(s: State, step: Step)
    requires Linked(s) && Agreed(s) && Enabled(s, step) && Quiet(step)
    ensures Agreed(Do(s, step))
  {
    match step
    case Register(info) => AgreedRegister(s, info);
    case ExitGone(r) => AgreedExitGone(s, r);
    case Pick(r, user, key) => AgreedProc(s, s.nextPid, Picked(r, user, key));
    case Count(p) => AgreedProc(s, p, DoCount(s, p).procs[p]);
    case WriteStart(p, ok) =>
      StartingIsOwn(s, p);
      if ok { AgreedStart(s, p); } else { AgreedStartFails(s, p); }
    case WriteSuspend(p, ok) =>
      if ok { AgreedSuspend(s, p); } else { AgreedSuspendFails(s, p); }
    case WriteEnd(p, ok) => AgreedWriteEnd(s, p, ok);
    case Fire(p) => AgreedProc(s, p, Fired(s.procs[p].sid, s.procs[p].key, s.procs[p].deadline));
    case _ =>
  }

  lemma AgreedBusy(s: State, step: Step)
    requires Linked(s) && Agreed(s) && Enabled(s, step) && !Quiet(step)
    ensures Agreed(Do(s, step))
  {
    match step
    case Number(p) => AgreedNumber(s, p);
    case Allocate(p) => AgreedAllocate(s, p);
    case InsertSession(p) => AgreedInsert(s, p);
    case ResumeSession(key, user) => AgreedResume(s, key, user);
    case Drop(p, intentional) => AgreedDrop(s, p, intentional);
    case EndFailed(p) => AgreedEnd(s, p);
    case ExpirePark(p) => AgreedExpire(s, p);
    case _ =>
  }

  lemma AgreedStep(s: State, step: Step)
    requires Linked(s) && Agreed(s) && Enabled(s, step)
    ensures Agreed(Do(s, step))
  {
    if Quiet(step) {
      AgreedQuiet(s, step);
    } else {
      AgreedBusy(s, step);
    }
  }
}

/**
 The broker's maps, its processes and the history of every session number agree in every reachable
 state: each number is in exactly one place, and exactly one process is responsible for it there.
 */
module BrokerLinks {
  import opened Basics
  import opened IpPool
  import opened Messages
  import opened BrokerState

  type Sessions = map<nat, Session>
  type Lives = map<nat, Life>
  type Procs = map<Pid, Proc>
  type Infos = map<Reg, ExitInfo>

  // ---- the pieces of the invariant ----

  predicate Numbering(t: Tables, ls: Lives, ps: Procs, nextPid: Pid, logs: map<Reg, seq<Msg>>) {
    && (forall sid :: sid in ls ==> sid <= t.lastSid)
    && (forall p :: p in ps ==> p < nextPid)
    && (forall r :: r in t.info ==> r < t.nextReg)
    && t.active.Keys == t.info.Keys && logs.Keys == t.info.Keys
  }

  /** Online exits are registered under their own node id. */
  predicate ExitsLinked(exits: map<string, Reg>, info: Infos) {
    forall n :: n in exits ==> exits[n] in info && info[exits[n]].node == n
  }

  predicate IsActive(l: Life) {
    l.Held? && l.where.Active?
  }

  predicate IsParked(l: Life) {
    l.Held? && l.where.Parked?
  }

  predicate IsInFlight(l: Life) {
    l.Held? && l.where.InFlight?
  }

  function ActiveLife(s: Session): Life {
    Held(s.ident, Active(s.client, s.exit))
  }

  /** The process works on this session. */
  predicate WorksOn(c: Proc, s: Session) {
    c.HasSession() && c.sid == s.id && c.exit == s.exit && ((c.Attached? || c.Starting?) ==> c.addr == s.ident.addr)
  }

  /** An active session belongs to one connection, and that connection is working on it. */
  predicate ActiveLinked(ss: Sessions, ls: Lives, ps: Procs) {
    && (forall sid :: sid in ss ==>
          && ss[sid].id == sid && sid in ls && ls[sid] == ActiveLife(ss[sid])
          && ss[sid].client in ps && WorksOn(ps[ss[sid].client], ss[sid]))
    && (forall sid :: sid in ls && IsActive(ls[sid]) ==> sid in ss)
    && (forall p :: p in ps && ps[p].HasSession() ==> ps[p].sid in ss && ss[ps[p].sid].client == p)
  }

  function ParkedLife(s: Session): Life
    requires s.timer.Some?
  {
    Held(s.ident, Parked(s.client, s.exit, s.timer.value))
  }

  /** A parked session is filed under its own resume key. */
  predicate ParkedLinked(pk: map<string, Session>, ls: Lives) {
    && (forall k :: k in pk ==>
          && k != "" && pk[k].ident.key == k && pk[k].suspended && pk[k].timer.Some?
          && pk[k].id in ls && ls[pk[k].id] == ParkedLife(pk[k]))
    && (forall sid :: sid in ls && IsParked(ls[sid]) ==> ls[sid].ident.key in pk && pk[ls[sid].ident.key].id == sid)
  }

  predicate InHand(c: Proc) {
    c.Numbered? || c.Allocated?
  }

  /** A number or address not yet in the maps is in the hands of one connection. */
  predicate InFlightLinked(ls: Lives, ps: Procs) {
    && (forall p :: p in ps && InHand(ps[p]) ==>
          && ps[p].sid in ls
          && ls[ps[p].sid] == if ps[p].Numbered? then Issued(p) else Held(ps[p].ident, InFlight(p)))
    && (forall sid :: sid in ls && IsInFlight(ls[sid]) ==>
          ls[sid].where.pid in ps && ps[ls[sid].where.pid].Allocated? && ps[ls[sid].where.pid].sid == sid)
  }

  /** The registration a session was last attached to. */
  function LastExit(l: Life): Option<Reg> {
    if l.Ended? then Some(l.exit)
    else if l.Held? && !l.where.InFlight? then Some(l.where.exit)
    else None
  }

  predicate LifeOnNode(info: Infos, l: Life) {
    LastExit(l).Some? ==> LastExit(l).value in info && info[LastExit(l).value].node == l.ident.node
  }

  predicate ProcOnExit(info: Infos, c: Proc) {
    && (!c.Armed? && !c.Fired? && !c.Done? ==> c.exit in info)
    && (c.Allocated? ==> c.ident.node == info[c.exit].node)
  }

  /** Sessions stay with their node; every registration named anywhere exists. */
  predicate NodesLinked(info: Infos, ls: Lives, ps: Procs) {
    && (forall sid :: sid in ls ==> LifeOnNode(info, ls[sid]))
    && (forall p :: p in ps ==> ProcOnExit(info, ps[p]))
  }

  /** What does not depend on the two session maps. */
  predicate LinkedRest(s: State) {
    && s.t.pool.Valid()
    && Numbering(s.t, s.lives, s.procs, s.nextPid, s.logs)
    && ExitsLinked(s.t.exits, s.t.info)
    && InFlightLinked(s.lives, s.procs)
    && NodesLinked(s.t.info, s.lives, s.procs)
  }

  predicate Linked(s: State) {
    && LinkedRest(s)
    && ActiveLinked(s.t.sessions, s.lives, s.procs)
    && ParkedLinked(s.t.parked, s.lives)
  }

  // ---- how each piece survives a change ----

  lemma ActiveAttach(ss: Sessions, ls: Lives, ps: Procs, s: Session, c: Proc)
    requires ActiveLinked(ss, ls, ps)
    requires s.id !in ss && WorksOn(c, s) && (s.client in ps ==> !ps[s.client].HasSession())
    ensures ActiveLinked(ss[s.id := s], ls[s.id := ActiveLife(s)], ps[s.client := c])
  {
  }

  lemma ActiveDetach(ss: Sessions, ls: Lives, ps: Procs, sid: nat, l: Life, c: Proc)
    requires ActiveLinked(ss, ls, ps)
    requires sid in ss && !IsActive(l) && !c.HasSession()
    ensures ActiveLinked(ss - {sid}, ls[sid := l], ps[ss[sid].client := c])
  {
  }

  lemma ActiveOtherLife(ss: Sessions, ls: Lives, ps: Procs, sid: nat, l: Life)
    requires ActiveLinked(ss, ls, ps)
    requires sid !in ss && !IsActive(l)
    ensures ActiveLinked(ss, ls[sid := l], ps)
  {
  }

  lemma ActiveOtherProc(ss: Sessions, ls: Lives, ps: Procs, p: Pid, c: Proc)
    requires ActiveLinked(ss, ls, ps)
    requires !c.HasSession() && (p in ps ==> !ps[p].HasSession())
    ensures ActiveLinked(ss, ls, ps[p := c])
  {
  }

  lemma ActiveMoveOn(ss: Sessions, ls: Lives, ps: Procs, p: Pid, c: Proc)
    requires ActiveLinked(ss, ls, ps)
    requires p in ps && ps[p].HasSession() && c.HasSession() && c.sid == ps[p].sid && c.exit == ps[p].exit
    requires c.Starting? ==> ps[p].Attached? && c.addr == ps[p].addr
    requires !c.Attached?
    ensures ActiveLinked(ss, ls, ps[p := c])
  {
  }

  lemma ParkedAdd(pk: map<string, Session>, ls: Lives, s: Session)
    requires ParkedLinked(pk, ls)
    requires s.ident.key != "" && s.suspended && s.timer.Some?
    requires s.ident.key !in pk && (s.id in ls ==> !IsParked(ls[s.id]))
    ensures ParkedLinked(pk[s.ident.key := s], ls[s.id := ParkedLife(s)])
  {
  }

  lemma ParkedRemove(pk: map<string, Session>, ls: Lives, k: string, l: Life)
    requires ParkedLinked(pk, ls)
    requires k in pk && !IsParked(l)
    ensures ParkedLinked(pk - {k}, ls[pk[k].id := l])
  {
  }

  lemma ParkedOther(pk: map<string, Session>, ls: Lives, sid: nat, l: Life)
    requires ParkedLinked(pk, ls)
    requires (sid in ls ==> !IsParked(ls[sid])) && !IsParked(l)
    ensures ParkedLinked(pk, ls[sid := l])
  {
  }

  predicate Settled(l: Life) {
    !l.Issued? && !IsInFlight(l)
  }

  /** Lives outside the hands of connections come and go freely. */
  lemma InFlightOtherLife(ls: Lives, ps: Procs, sid: nat, l: Life)
    requires InFlightLinked(ls, ps)
    requires Settled(l) && (sid in ls ==> Settled(ls[sid]))
    ensures InFlightLinked(ls[sid := l], ps)
  {
  }

  lemma InFlightOtherProc(ls: Lives, ps: Procs, p: Pid, c: Proc)
    requires InFlightLinked(ls, ps)
    requires !InHand(c) && (p in ps ==> !InHand(ps[p]))
    ensures InFlightLinked(ls, ps[p := c])
  {
  }

  /** The connection lets go of its number. */
  lemma InFlightSettle(ls: Lives, ps: Procs, p: Pid, c: Proc, l: Life)
    requires InFlightLinked(ls, ps)
    requires p in ps && InHand(ps[p]) && !InHand(c) && Settled(l)
    ensures InFlightLinked(ls[ps[p].sid := l], ps[p := c])
  {
  }

  lemma InFlightIssue(ls: Lives, ps: Procs, p: Pid, c: Proc)
    requires InFlightLinked(ls, ps)
    requires c.Numbered? && c.sid !in ls && (p in ps ==> !InHand(ps[p]))
    ensures InFlightLinked(ls[c.sid := Issued(p)], ps[p := c])
  {
  }

  lemma InFlightAllocate(ls: Lives, ps: Procs, p: Pid, c: Proc)
    requires InFlightLinked(ls, ps)
    requires c.Allocated? && p in ps && ps[p].Numbered? && ps[p].sid == c.sid
    ensures InFlightLinked(ls[c.sid := Held(c.ident, InFlight(p))], ps[p := c])
  {
  }

  lemma NodesLife(info: Infos, ls: Lives, ps: Procs, sid: nat, l: Life)
    requires NodesLinked(info, ls, ps) && LifeOnNode(info, l)
    ensures NodesLinked(info, ls[sid := l], ps)
  {
  }

  lemma NodesProc(info: Infos, ls: Lives, ps: Procs, p: Pid, c: Proc)
    requires NodesLinked(info, ls, ps) && ProcOnExit(info, c)
    ensures NodesLinked(info, ls, ps[p := c])
  {
  }

  /** A settled session and a process outside the allocation phase change together. */
  lemma SettledChange(info: Infos, ls: Lives, ps: Procs, sid: nat, l: Life, p: Pid, c: Proc)
    requires InFlightLinked(ls, ps) && NodesLinked(info, ls, ps)
    requires Settled(l) && sid in ls && Settled(ls[sid]) && LifeOnNode(info, l)
    requires !InHand(c) && (p in ps ==> !InHand(ps[p])) && ProcOnExit(info, c)
    ensures InFlightLinked(ls[sid := l], ps[p := c]) && NodesLinked(info, ls[sid := l], ps[p := c])
  {
  }

  lemma KeepsKeys(m: map<Reg, int>, r: Reg, d: int)
    requires r in m
    ensures Add(m, r, d).Keys == m.Keys
  {
  }

  lemma LogKeepsKeys(logs: map<Reg, seq<Msg>>, r: Reg, m: Msg)
    requires r in logs
    ensures Log(logs, r, m).Keys == logs.Keys
  {
  }

  // ---- every step keeps the invariant ----

  lemma LinkedRegister(s: State, info: ExitInfo)
    requires Linked(s)
    ensures Linked(Do(s, Register(info)))
  {
  }

  lemma LinkedExitGone(s: State, r: Reg)
    requires Linked(s) && Enabled(s, ExitGone(r))
    ensures Linked(Do(s, ExitGone(r)))
  {
  }

  /** A process outside any session turns into another one. */
  lemma LinkedIdleProc(s: State, p: Pid, c: Proc)
    requires Linked(s) && p in s.procs
    requires !s.procs[p].HasSession() && !c.HasSession() && !InHand(s.procs[p]) && !InHand(c)
    requires ProcOnExit(s.t.info, c)
    ensures Linked(s.(procs := s.procs[p := c]))
  {
    ActiveOtherProc(s.t.sessions, s.lives, s.procs, p, c);
    InFlightOtherProc(s.lives, s.procs, p, c);
    NodesProc(s.t.info, s.lives, s.procs, p, c);
  }

  lemma LinkedNewProc(s: State, c: Proc)
    requires Linked(s) && !c.HasSession() && !InHand(c) && ProcOnExit(s.t.info, c)
    ensures Linked(NewProc(s, c))
  {
    ActiveOtherProc(s.t.sessions, s.lives, s.procs, s.nextPid, c);
    InFlightOtherProc(s.lives, s.procs, s.nextPid, c);
    NodesProc(s.t.info, s.lives, s.procs, s.nextPid, c);
  }

  lemma LinkedNumber(s: State, p: Pid)
    requires Linked(s) && Enabled(s, Number(p))
    ensures Linked(DoNumber(s, p))
  {
    var c, sid := DoNumber(s, p).procs[p], s.t.lastSid + 1;
    ActiveOtherLife(s.t.sessions, s.lives, s.procs, sid, Issued(p));
    ActiveOtherProc(s.t.sessions, s.lives[sid := Issued(p)], s.procs, p, c);
    ParkedOther(s.t.parked, s.lives, sid, Issued(p));
    InFlightIssue(s.lives, s.procs, p, c);
    NodesLife(s.t.info, s.lives, s.procs, sid, Issued(p));
    NodesProc(s.t.info, s.lives[sid := Issued(p)], s.procs, p, c);
  }

  lemma LinkedAllocate(s: State, p: Pid)
    requires Linked(s) && Enabled(s, Allocate(p))
    ensures Linked(DoAllocate(s, p))
  {
    var sid := s.procs[p].sid;
    var c, l := DoAllocate(s, p).procs[p], DoAllocate(s, p).lives[sid];
    ActiveOtherLife(s.t.sessions, s.lives, s.procs, sid, l);
    ActiveOtherProc(s.t.sessions, s.lives[sid := l], s.procs, p, c);
    ParkedOther(s.t.parked, s.lives, sid, l);
    NodesLife(s.t.info, s.lives, s.procs, sid, l);
    NodesProc(s.t.info, s.lives[sid := l], s.procs, p, c);
    if s.t.pool.Candidate().Some? {
      OnRing(s.t.pool, s.t.pool.Candidate().value);
      InFlightAllocate(s.lives, s.procs, p, c);
    } else {
      InFlightSettle(s.lives, s.procs, p, c, l);
    }
  }

  lemma LinkedInsert(s: State, p: Pid)
    requires Linked(s) && Enabled(s, InsertSession(p))
    ensures Linked(DoInsert(s, p))
  {
    var c := s.procs[p];
    var n := Session(c.sid, c.ident, false, 0, None, p, c.exit);
    var c' := Proc.Attached(c.sid, c.exit, c.ident.addr, false);
    ActiveAttach(s.t.sessions, s.lives, s.procs, n, c');
    ParkedOther(s.t.parked, s.lives, c.sid, ActiveLife(n));
    InFlightSettle(s.lives, s.procs, p, c', ActiveLife(n));
    NodesLife(s.t.info, s.lives, s.procs, c.sid, ActiveLife(n));
    NodesProc(s.t.info, s.lives[c.sid := ActiveLife(n)], s.procs, p, c');
  }

  /** A connection moves on to the next phase of the same session. */
  lemma LinkedMoveOn(s: State, p: Pid, c: Proc)
    requires Linked(s) && p in s.procs && s.procs[p].HasSession() && c.HasSession()
    requires c.sid == s.procs[p].sid && c.exit == s.procs[p].exit && !c.Attached?
    requires c.Starting? ==> s.procs[p].Attached? && c.addr == s.procs[p].addr
    ensures Linked(s.(procs := s.procs[p := c]))
  {
    ActiveMoveOn(s.t.sessions, s.lives, s.procs, p, c);
    InFlightOtherProc(s.lives, s.procs, p, c);
    NodesProc(s.t.info, s.lives, s.procs, p, c);
  }

  lemma LinkedCount(s: State, p: Pid)
    requires Linked(s) && Enabled(s, Count(p))
    ensures Linked(DoCount(s, p))
  {
    LinkedMoveOn(s, p, DoCount(s, p).procs[p]);
    KeepsKeys(s.t.active, s.procs[p].exit, 1);
  }

  lemma LinkedWriteStart(s: State, p: Pid, ok: bool)
    requires Linked(s) && Enabled(s, WriteStart(p, ok))
    ensures Linked(DoWriteStart(s, p, ok))
  {
    LinkedMoveOn(s, p, DoWriteStart(s, p, ok).procs[p]);
    LogKeepsKeys(s.logs, s.procs[p].exit, SessionStart(s.procs[p].sid, s.procs[p].addr));
  }

  lemma LinkedStop(s: State, timer: Option<Pid>)
    requires Linked(s)
    ensures Linked(s.(procs := Stop(s.procs, timer)))
  {
    if Stop(s.procs, timer) != s.procs {
      LinkedIdleProc(s, timer.value, Done);
    }
  }

  lemma ResumeKeepsMaps(s: State, key: string, user: string)
    requires Linked(s) && Enabled(s, ResumeSession(key, user))
    ensures var s' := DoResume(s, key);
            ActiveLinked(s'.t.sessions, s'.lives, s'.procs) && ParkedLinked(s'.t.parked, s'.lives)
  {
    var n := Resumed(s.t, key, s.nextPid);
    LinkedStop(s, n.timer);
    ActiveAttach(s.t.sessions, s.lives, Stop(s.procs, n.timer), n, Proc.Attached(n.id, n.exit, n.ident.addr, true));
    ParkedRemove(s.t.parked, s.lives, key, ActiveLife(n));
  }

  lemma ResumeKeepsRest(s: State, key: string, user: string)
    requires Linked(s) && Enabled(s, ResumeSession(key, user))
    ensures LinkedRest(DoResume(s, key))
  {
    var n := Resumed(s.t, key, s.nextPid);
    LinkedStop(s, n.timer);
    SettledChange(s.t.info, s.lives, Stop(s.procs, n.timer), n.id, ActiveLife(n), s.nextPid,
                  Proc.Attached(n.id, n.exit, n.ident.addr, true));
  }

  lemma LinkedResume(s: State, key: string, user: string)
    requires Linked(s) && Enabled(s, ResumeSession(key, user))
    ensures Linked(DoResume(s, key))
  {
    ResumeKeepsMaps(s, key, user);
    ResumeKeepsRest(s, key, user);
  }

  lemma EndKeepsMaps(s: State, p: Pid)
    requires Linked(s) && p in s.procs && s.procs[p].HasSession()
    ensures var s' := EndActive(s, p);
            ActiveLinked(s'.t.sessions, s'.lives, s'.procs) && ParkedLinked(s'.t.parked, s'.lives)
  {
    var c := s.procs[p];
    var l := Ended(s.t.sessions[c.sid].ident, c.exit, p);
    ActiveDetach(s.t.sessions, s.lives, s.procs, c.sid, l, Ending(c.sid, c.exit));
    ParkedOther(s.t.parked, s.lives, c.sid, l);
  }

  lemma EndKeepsRest(s: State, p: Pid)
    requires Linked(s) && p in s.procs && s.procs[p].HasSession()
    ensures LinkedRest(EndActive(s, p))
  {
    var c := s.procs[p];
    SettledChange(s.t.info, s.lives, s.procs, c.sid, Ended(s.t.sessions[c.sid].ident, c.exit, p), p,
                  Ending(c.sid, c.exit));
    KeepsKeys(s.t.active, c.exit, -1);
  }

  lemma LinkedEnd(s: State, p: Pid)
    requires Linked(s) && p in s.procs && s.procs[p].HasSession()
    ensures Linked(EndActive(s, p))
  {
    EndKeepsMaps(s, p);
    EndKeepsRest(s, p);
  }

  lemma LinkedDisplace(s: State, key: string)
    requires Linked(s)
    ensures Linked(Displace(s, key)) && key !in Displace(s, key).t.parked
    ensures Displace(s, key).procs == s.procs && Displace(s, key).t.sessions == s.t.sessions
    ensures Displace(s, key).now == s.now && Displace(s, key).t.ttl == s.t.ttl
  {
    if key in s.t.parked {
      var q := s.t.parked[key];
      var l := Held(q.ident, Displaced(q.client, q.exit));
      ActiveOtherLife(s.t.sessions, s.lives, s.procs, q.id, l);
      ParkedRemove(s.t.parked, s.lives, key, l);
      InFlightOtherLife(s.lives, s.procs, q.id, l);
      NodesLife(s.t.info, s.lives, s.procs, q.id, l);
    }
  }

  /** What a session becomes when its client drops now. */
  function ParkedNow(s: State, p: Pid): (n: Session)
    requires p in s.procs && s.procs[p].HasSession() && s.procs[p].sid in s.t.sessions
    ensures n.timer.Some?
  {
    s.t.sessions[s.procs[p].sid].(suspended := true, parkedAt := s.now, timer := Some(s.nextPid))
  }

  lemma ParkKeepsMaps(s: State, p: Pid)
    requires Linked(s) && p in s.procs && s.procs[p].HasSession()
    requires ParkedNow(s, p).ident.key != "" && ParkedNow(s, p).ident.key !in s.t.parked
    ensures var s' := ParkActive(s, p);
            ActiveLinked(s'.t.sessions, s'.lives, s'.procs) && ParkedLinked(s'.t.parked, s'.lives)
  {
    var c, n := s.procs[p], ParkedNow(s, p);
    ActiveDetach(s.t.sessions, s.lives, s.procs, c.sid, ParkedLife(n), Suspending(c.sid, c.exit));
    ParkedAdd(s.t.parked, s.lives, n);
  }

  lemma ParkKeepsRest(s: State, p: Pid)
    requires Linked(s) && p in s.procs && s.procs[p].HasSession()
    ensures LinkedRest(ParkActive(s, p))
  {
    var c := s.procs[p];
    SettledChange(s.t.info, s.lives, s.procs, c.sid, ParkedLife(ParkedNow(s, p)), p, Suspending(c.sid, c.exit));
    KeepsKeys(s.t.active, c.exit, -1);
  }

  lemma LinkedPark(s: State, p: Pid)
    requires Linked(s) && p in s.procs && s.procs[p].HasSession()
    requires ParkedNow(s, p).ident.key != "" && ParkedNow(s, p).ident.key !in s.t.parked
    ensures Linked(ParkActive(s, p))
  {
    ParkKeepsMaps(s, p);
    ParkKeepsRest(s, p);
  }

  lemma LinkedParkAndArm(s: State, p: Pid, timer: Proc)
    requires Linked(s) && p in s.procs && s.procs[p].HasSession() && timer.Armed?
    requires ParkedNow(s, p).ident.key != "" && ParkedNow(s, p).ident.key !in s.t.parked
    ensures Linked(NewProc(ParkActive(s, p), timer))
  {
    LinkedPark(s, p);
    LinkedArm(ParkActive(s, p), timer);
  }

  lemma LinkedArm(s: State, timer: Proc)
    requires Linked(s) && timer.Armed?
    ensures Linked(NewProc(s, timer))
  {
    LinkedNewProc(s, timer);
  }

  lemma DropParks(s: State, p: Pid, intentional: bool)
    requires Enabled(s, Drop(p, intentional)) && s.procs[p].sid in s.t.sessions
    requires Parks(s.t, s.t.sessions[s.procs[p].sid], intentional)
    ensures var ss := s.t.sessions[s.procs[p].sid];
            DoDrop(s, p, intentional) ==
            NewProc(ParkActive(Displace(s, ss.ident.key), p), Armed(s.procs[p].sid, ss.ident.key, s.now + s.t.ttl))
  {
  }

  lemma LinkedDrop(s: State, p: Pid, intentional: bool)
    requires Linked(s) && Enabled(s, Drop(p, intentional))
    ensures Linked(DoDrop(s, p, intentional))
  {
    var ss := s.t.sessions[s.procs[p].sid];
    if Parks(s.t, ss, intentional) {
      LinkedDisplace(s, ss.ident.key);
      LinkedParkAndArm(Displace(s, ss.ident.key), p, Armed(s.procs[p].sid, ss.ident.key, s.now + s.t.ttl));
      DropParks(s, p, intentional);
    } else {
      LinkedEnd(s, p);
    }
  }

  lemma LinkedWrite(s: State, p: Pid, r: Reg, m: Msg)
    requires Linked(s) && p in s.procs && (s.procs[p].Suspending? || s.procs[p].Ending?) && r in s.t.info
    ensures Linked(s.(procs := s.procs[p := Done]))
    ensures Linked(s.(procs := s.procs[p := Done], logs := Log(s.logs, r, m)))
  {
    LinkedIdleProc(s, p, Done);
    LogKeepsKeys(s.logs, r, m);
  }

  lemma ExpireKeepsMaps(s: State, p: Pid)
    requires Linked(s) && Enabled(s, ExpirePark(p)) && Expires(s.t, s.procs[p].key, s.procs[p].sid)
    ensures var s' := DoExpire(s, p);
            ActiveLinked(s'.t.sessions, s'.lives, s'.procs) && ParkedLinked(s'.t.parked, s'.lives)
  {
    var c, l := s.procs[p], DoExpire(s, p).lives[s.procs[p].sid];
    ActiveOtherLife(s.t.sessions, s.lives, s.procs, c.sid, l);
    ActiveOtherProc(s.t.sessions, s.lives[c.sid := l], s.procs, p, DoExpire(s, p).procs[p]);
    ParkedRemove(s.t.parked, s.lives, c.key, l);
  }

  lemma ExpireKeepsRest(s: State, p: Pid)
    requires Linked(s) && Enabled(s, ExpirePark(p)) && Expires(s.t, s.procs[p].key, s.procs[p].sid)
    ensures LinkedRest(DoExpire(s, p))
  {
    var sid := s.procs[p].sid;
    SettledChange(s.t.info, s.lives, s.procs, sid, DoExpire(s, p).lives[sid], p, DoExpire(s, p).procs[p]);
  }

  lemma LinkedExpire(s: State, p: Pid)
    requires Linked(s) && Enabled(s, ExpirePark(p))
    ensures Linked(DoExpire(s, p))
  {
    if Expires(s.t, s.procs[p].key, s.procs[p].sid) {
      ExpireKeepsMaps(s, p);
      ExpireKeepsRest(s, p);
    } else {
      LinkedIdleProc(s, p, Done);
    }
  }

  lemma LinkedQuiet(s: State, step: Step)
    requires Linked(s) && Enabled(s, step) && Quiet(step)
    ensures Linked(Do(s, step))
  {
    match step
    case Register(info) => LinkedRegister(s, info);
    case ExitGone(r) => LinkedExitGone(s, r);
    case Pick(r, user, key) => LinkedNewProc(s, Picked(r, user, key));
    case Count(p) => LinkedCount(s, p);
    case WriteStart(p, ok) => LinkedWriteStart(s, p, ok);
    case WriteSuspend(p, ok) => LinkedWrite(s, p, s.procs[p].exit, SessionSuspend(s.procs[p].sid));
    case WriteEnd(p, ok) => LinkedWrite(s, p, s.procs[p].exit, SessionEnd(s.procs[p].sid));
    case Fire(p) => LinkedIdleProc(s, p, Fired(s.procs[p].sid, s.procs[p].key, s.procs[p].deadline));
    case _ =>
  }

  lemma LinkedBusy(s: State, step: Step)
    requires Linked(s) && Enabled(s, step) && !Quiet(step)
    ensures Linked(Do(s, step))
  {
    match step
    case Number(p) => LinkedNumber(s, p);
    case Allocate(p) => LinkedAllocate(s, p);
    case InsertSession(p) => LinkedInsert(s, p);
    case ResumeSession(key, user) => LinkedResume(s, key, user);
    case Drop(p, intentional) => LinkedDrop(s, p, intentional);
    case EndFailed(p) => LinkedEnd(s, p);
    case ExpirePark(p) => LinkedExpire(s, p);
    case _ =>
  }

  lemma LinkedStep(s: State, step: Step)
    requires Linked(s) && Enabled(s, step)
    ensures Linked(Do(s, step))
  {
    if Quiet(step) {
      LinkedQuiet(s, step);
    } else {
      LinkedBusy(s, step);
    }
  }

  /** Steps that leave the session maps, the pool and the histories alone. */
  predicate Quiet(step: Step) {
    || step.Register? || step.ExitGone? || step.Pick? || step.Count? || step.WriteStart?
    || step.WriteSuspend? || step.WriteEnd? || step.Fire? || step.Tick?
  }

  lemma QuietStep(s: State, step: Step)
    requires s.t.pool.Valid() && Enabled(s, step) && Quiet(step)
    ensures var s' := Do(s, step);
            && s'.lives == s.lives && s'.t.pool == s.t.pool && s'.t.sessions == s.t.sessions
            && s'.t.parked == s.t.parked && s'.t.ttl == s.t.ttl
  {
  }

  /** Steps in which one process goes on. */
  predicate OneProc(step: Step) {
    || step.Number? || step.Allocate? || step.InsertSession? || step.Count? || step.WriteStart?
    || step.EndFailed? || step.WriteSuspend? || step.WriteEnd? || step.Fire? || step.ExpirePark?
  }

  /** The process moves on, the exits stay. */
  predicate OnlyProc(s: State, s': State, p: Pid) {
    && p in s'.procs && s'.procs == s.procs[p := s'.procs[p]]
    && s'.t.info == s.t.info && s'.t.exits == s.t.exits
  }

  lemma OneProcQuiet(s: State, step: Step)
    requires s.t.pool.Valid() && Enabled(s, step) && OneProc(step) && Quiet(step)
    ensures OnlyProc(s, Do(s, step), step.p)
  {
  }

  lemma OneProcAdmits(s: State, step: Step)
    requires s.t.pool.Valid() && Enabled(s, step) && (step.Number? || step.Allocate? || step.InsertSession?)
    ensures OnlyProc(s, Do(s, step), step.p)
  {
  }

  lemma OneProcEnds(s: State, step: Step)
    requires s.t.pool.Valid() && Enabled(s, step) && (step.EndFailed? || step.ExpirePark?)
    ensures OnlyProc(s, Do(s, step), step.p)
  {
  }

  lemma OneProcStep(s: State, step: Step)
    requires s.t.pool.Valid() && Enabled(s, step) && OneProc(step)
    ensures OnlyProc(s, Do(s, step), step.p)
  {
    if Quiet(step) {
      OneProcQuiet(s, step);
    } else if step.EndFailed? || step.ExpirePark? {
      OneProcEnds(s, step);
    } else {
      OneProcAdmits(s, step);
    }
  }

  lemma DropShape(s: State, p: Pid, intentional: bool)
    requires Enabled(s, Drop(p, intentional)) && s.procs[p].sid in s.t.sessions
    ensures var s', c, ss := DoDrop(s, p, intentional), s.procs[p], s.t.sessions[s.procs[p].sid];
            && s'.t.info == s.t.info && s'.t.exits == s.t.exits && s'.logs == s.logs
            && s'.procs == if Parks(s.t, ss, intentional)
                           then s.procs[p := Suspending(c.sid, c.exit)]
                                       [s.nextPid := Armed(c.sid, ss.ident.key, s.now + s.t.ttl)]
                           else s.procs[p := Ending(c.sid, c.exit)]
  {
  }
}

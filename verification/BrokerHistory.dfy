/** How the history of one session number can go on in one step, and so over whole runs. */
module BrokerHistory {
  import opened Basics
  import opened BrokerState
  import opened BrokerLinks
  import opened BrokerParks

  /** The step parks a session under a resume key that another parked session holds. */
  predicate Displaces(s: State, step: Step) {
    && step.Drop? && Enabled(s, step) && s.procs[step.p].sid in s.t.sessions
    && Parks(s.t, s.t.sessions[s.procs[step.p].sid], step.intentional)
    && s.t.sessions[s.procs[step.p].sid].ident.key in s.t.parked
  }

  /** The step resumes the session parked under a key. */
  predicate Resumes(s: State, step: Step, sid: nat) {
    step.ResumeSession? && step.key in s.t.parked && s.t.parked[step.key].id == sid
  }

  /** The step lets a park window run out. */
  predicate RunsOut(s: State, step: Step, sid: nat) {
    && step.ExpirePark? && Enabled(s, step) && s.procs[step.p].sid == sid
    && Expires(s.t, s.procs[step.p].key, sid)
  }

  /** The step pushes this session out of its place. */
  predicate PushesOut(s: State, step: Step, sid: nat) {
    Displaces(s, step) && s.t.parked[s.t.sessions[s.procs[step.p].sid].ident.key].id == sid
  }

  /** A parked session leaves its place by resumption, by expiry or by displacement, and by one of them only. */
  predicate LeavesOneWay(s: State, step: Step, sid: nat, l: Life) {
    || (Resumes(s, step, sid) && !RunsOut(s, step, sid) && !PushesOut(s, step, sid) && IsActive(l))
    || (RunsOut(s, step, sid) && !PushesOut(s, step, sid) && l.Ended?)
    || (PushesOut(s, step, sid) && IsDisplaced(l))
  }

  /** The legal continuations of one session's history. */
  predicate Follows(s: State, step: Step, sid: nat, l: Life, l': Life) {
    && (l.Held? || l.Ended? ==> (l'.Held? || l'.Ended?) && l'.ident == l.ident)
    && (l.Ended? || IsDisplaced(l) ==> l' == l)
    && (IsParked(l) && l' != l ==> LeavesOneWay(s, step, sid, l'))
    && (IsParked(l') && l' != l ==> step.Drop? && l'.where.timer == s.nextPid)
    && (IsDisplaced(l') && l' != l ==> IsParked(l))
  }

  predicate Continues(s: State, step: Step, s': State) {
    && (forall sid :: sid in s.lives ==> sid in s'.lives && Follows(s, step, sid, s.lives[sid], s'.lives[sid]))
    && (forall sid :: sid in s'.lives && sid !in s.lives ==> s'.lives[sid].Issued?)
    && s.nextPid <= s'.nextPid && s.now <= s'.now && s'.t.ttl == s.t.ttl
  }

  /** One session's history goes on, the others stand still. */
  lemma ContinuesPoint(s: State, step: Step, s': State, sid: nat)
    requires sid in s'.lives && s'.lives == s.lives[sid := s'.lives[sid]]
    requires if sid in s.lives then Follows(s, step, sid, s.lives[sid], s'.lives[sid]) else s'.lives[sid].Issued?
    requires s.nextPid <= s'.nextPid && s.now <= s'.now && s'.t.ttl == s.t.ttl
    ensures Continues(s, step, s')
  {
  }

  lemma ContinuesTwo(s: State, step: Step, s': State, a: nat, b: nat)
    requires a != b && a in s.lives && b in s.lives && a in s'.lives && b in s'.lives
    requires s'.lives == s.lives[a := s'.lives[a]][b := s'.lives[b]]
    requires Follows(s, step, a, s.lives[a], s'.lives[a]) && Follows(s, step, b, s.lives[b], s'.lives[b])
    requires s.nextPid <= s'.nextPid && s.now <= s'.now && s'.t.ttl == s.t.ttl
    ensures Continues(s, step, s')
  {
  }

  lemma ContinuesResume(s: State, key: string, user: string)
    requires Linked(s) && Enabled(s, ResumeSession(key, user))
    ensures Continues(s, ResumeSession(key, user), DoResume(s, key))
  {
    ContinuesPoint(s, ResumeSession(key, user), DoResume(s, key), s.t.parked[key].id);
  }

  lemma ContinuesExpire(s: State, p: Pid)
    requires Linked(s) && Enabled(s, ExpirePark(p))
    ensures Continues(s, ExpirePark(p), DoExpire(s, p))
  {
    if Expires(s.t, s.procs[p].key, s.procs[p].sid) {
      ContinuesPoint(s, ExpirePark(p), DoExpire(s, p), s.procs[p].sid);
    }
  }

  lemma ContinuesEnd(s: State, step: Step, p: Pid)
    requires Linked(s) && p in s.procs && s.procs[p].HasSession()
    ensures Continues(s, step, EndActive(s, p))
  {
    ContinuesPoint(s, step, EndActive(s, p), s.procs[p].sid);
  }

  lemma ContinuesAllocate(s: State, p: Pid)
    requires Linked(s) && Enabled(s, Allocate(p))
    ensures Continues(s, Allocate(p), DoAllocate(s, p))
  {
    ContinuesPoint(s, Allocate(p), DoAllocate(s, p), s.procs[p].sid);
  }

  lemma ContinuesInsert(s: State, p: Pid)
    requires Linked(s) && Enabled(s, InsertSession(p))
    ensures Continues(s, InsertSession(p), DoInsert(s, p))
  {
    ContinuesPoint(s, InsertSession(p), DoInsert(s, p), s.procs[p].sid);
  }

  lemma ContinuesNumber(s: State, p: Pid)
    requires Linked(s) && Enabled(s, Number(p))
    ensures Continues(s, Number(p), DoNumber(s, p))
  {
  }

  lemma DropLives(s: State, p: Pid, intentional: bool)
    requires Enabled(s, Drop(p, intentional)) && s.procs[p].sid in s.t.sessions
    requires Parks(s.t, s.t.sessions[s.procs[p].sid], intentional)
    ensures var s', c, n := DoDrop(s, p, intentional), s.procs[p], ParkedNow(s, p);
            && s'.lives == Displace(s, n.ident.key).lives[c.sid := Held(n.ident, Parked(p, c.exit, s.nextPid))]
            && s'.t.parked == Displace(s, n.ident.key).t.parked[n.ident.key := n]
            && s'.nextPid == s.nextPid + 1 && s'.now == s.now && s'.t.ttl == s.t.ttl
  {
  }

  lemma FollowsPark(s: State, p: Pid, intentional: bool)
    requires Linked(s) && Enabled(s, Drop(p, intentional)) && Parks(s.t, s.t.sessions[s.procs[p].sid], intentional)
    ensures var c, n := s.procs[p], ParkedNow(s, p);
            Follows(s, Drop(p, intentional), c.sid, s.lives[c.sid], Held(n.ident, Parked(p, c.exit, s.nextPid)))
  {
  }

  /** The session filed under the key, if any, is pushed out by this step. */
  predicate FollowsOut(s: State, step: Step, key: string, sid: nat) {
    key in s.t.parked ==>
      var q := s.t.parked[key];
      && q.id in s.lives && q.id != sid
      && Follows(s, step, q.id, s.lives[q.id], Held(q.ident, Displaced(q.client, q.exit)))
  }

  lemma FollowsDisplace(s: State, p: Pid, intentional: bool)
    requires Linked(s) && Enabled(s, Drop(p, intentional)) && Parks(s.t, s.t.sessions[s.procs[p].sid], intentional)
    ensures FollowsOut(s, Drop(p, intentional), ParkedNow(s, p).ident.key, s.procs[p].sid)
  {
  }

  lemma ContinuesParked(s: State, step: Step, s': State, key: string, sid: nat, l: Life)
    requires sid in s.lives && Follows(s, step, sid, s.lives[sid], l) && FollowsOut(s, step, key, sid)
    requires s'.lives == Displace(s, key).lives[sid := l]
    requires s'.nextPid == s.nextPid + 1 && s'.now == s.now && s'.t.ttl == s.t.ttl
    ensures Continues(s, step, s')
  {
    if key in s.t.parked {
      ContinuesTwo(s, step, s', s.t.parked[key].id, sid);
    } else {
      ContinuesPoint(s, step, s', sid);
    }
  }

  lemma ContinuesPark(s: State, p: Pid, intentional: bool)
    requires Linked(s) && Enabled(s, Drop(p, intentional)) && Parks(s.t, s.t.sessions[s.procs[p].sid], intentional)
    ensures Continues(s, Drop(p, intentional), DoDrop(s, p, intentional))
  {
    var c, n := s.procs[p], ParkedNow(s, p);
    DropLives(s, p, intentional);
    FollowsPark(s, p, intentional);
    FollowsDisplace(s, p, intentional);
    ContinuesParked(s, Drop(p, intentional), DoDrop(s, p, intentional), n.ident.key, c.sid,
                    Held(n.ident, Parked(p, c.exit, s.nextPid)));
  }

  lemma ContinuesDrop(s: State, p: Pid, intentional: bool)
    requires Linked(s) && Enabled(s, Drop(p, intentional))
    ensures Continues(s, Drop(p, intentional), DoDrop(s, p, intentional))
  {
    if Parks(s.t, s.t.sessions[s.procs[p].sid], intentional) {
      ContinuesPark(s, p, intentional);
    } else {
      ContinuesEnd(s, Drop(p, intentional), p);
    }
  }

  lemma ContinuesQuiet(s: State, step: Step)
    requires Linked(s) && Enabled(s, step) && Quiet(step)
    ensures Continues(s, step, Do(s, step))
  {
    QuietStep(s, step);
    QuietClock(s, step);
  }

  lemma ContinuesBusy(s: State, step: Step)
    requires Linked(s) && Enabled(s, step) && !Quiet(step)
    ensures Continues(s, step, Do(s, step))
  {
    match step
    case ResumeSession(key, user) => ContinuesResume(s, key, user);
    case ExpirePark(p) => ContinuesExpire(s, p);
    case Drop(p, intentional) => ContinuesDrop(s, p, intentional);
    case Number(p) => ContinuesNumber(s, p);
    case Allocate(p) => ContinuesAllocate(s, p);
    case InsertSession(p) => ContinuesInsert(s, p);
    case EndFailed(p) => ContinuesEnd(s, step, p);
    case _ =>
  }

  lemma ContinuesStep(s: State, step: Step)
    requires Linked(s) && Enabled(s, step)
    ensures Continues(s, step, Do(s, step))
  {
    if Quiet(step) {
      ContinuesQuiet(s, step);
    } else {
      ContinuesBusy(s, step);
    }
  }

  lemma QuietClock(s: State, step: Step)
    requires s.t.pool.Valid() && Enabled(s, step) && Quiet(step)
    ensures s.nextPid <= Do(s, step).nextPid && s.now <= Do(s, step).now
  {
  }

  /** The timer that lets a window run out is the one of the current park period, and its window has passed. */
  lemma RunsOutInTime(s: State, step: Step, sid: nat)
    requires ParkedLinked(s.t.parked, s.lives) && TimedState(s) && RunsOut(s, step, sid)
    ensures s.now >= s.t.parked[s.procs[step.p].key].parkedAt + s.t.ttl
    ensures sid in s.lives && IsParked(s.lives[sid]) && s.lives[sid].where.timer == step.p
  {
    assert Governs(step.p, s.procs[step.p], s.lives, s.t.parked, s.t.ttl);
  }

  /** The record filed for a parked session. */
  function Record(s: State, sid: nat): Option<Session> {
    if sid in s.lives && IsParked(s.lives[sid]) && s.lives[sid].ident.key in s.t.parked
    then Some(s.t.parked[s.lives[sid].ident.key]) else None
  }

  lemma RecordAfterPark(s: State, s': State, n: Session, sid: nat)
    requires ParkedLinked(s.t.parked, s.lives) && n.timer.Some? && n.id in s.lives && IsActive(s.lives[n.id])
    requires s'.lives == Displace(s, n.ident.key).lives[n.id := ParkedLife(n)]
    requires s'.t.parked == Displace(s, n.ident.key).t.parked[n.ident.key := n]
    ensures Record(s', sid).Some? ==>
              Record(s', sid) == if sid == n.id then Some(n) else Record(s, sid)
    ensures Record(s, n.id).None?
  {
  }

  lemma RecordAfterDrop(s: State, p: Pid, intentional: bool, sid: nat)
    requires Linked(s) && Enabled(s, Drop(p, intentional))
    ensures var s' := DoDrop(s, p, intentional);
            Record(s', sid).Some? ==>
              Record(s', sid) == Record(s, sid) || (Record(s', sid) == Some(ParkedNow(s, p)) && Record(s, sid).None?)
  {
    if Parks(s.t, s.t.sessions[s.procs[p].sid], intentional) {
      DropLives(s, p, intentional);
      RecordAfterPark(s, DoDrop(s, p, intentional), ParkedNow(s, p), sid);
    } else {
      RecordAfterEnd(s, p, sid);
    }
  }

  /** No session is parked by the change, and at most the one of x is unparked. */
  lemma RecordAfterOther(s: State, s': State, x: nat, sid: nat)
    requires ParkedLinked(s.t.parked, s.lives) && x in s'.lives && !IsParked(s'.lives[x])
    requires s'.lives == s.lives[x := s'.lives[x]]
    requires || s'.t.parked == s.t.parked
             || exists k :: k in s.t.parked && s.t.parked[k].id == x && s'.t.parked == s.t.parked - {k}
    ensures Record(s', sid).Some? ==> Record(s', sid) == Record(s, sid)
  {
  }

  lemma RecordAfterNew(s: State, step: Step, sid: nat)
    requires Linked(s) && Enabled(s, step)
    requires step.Number? || step.Allocate? || step.InsertSession?
    ensures Record(Do(s, step), sid).Some? ==> Record(Do(s, step), sid) == Record(s, sid)
  {
    RecordAfterOther(s, Do(s, step), if step.Number? then s.t.lastSid + 1 else s.procs[step.p].sid, sid);
  }

  lemma RecordAfterEnd(s: State, p: Pid, sid: nat)
    requires Linked(s) && p in s.procs && s.procs[p].HasSession()
    ensures Record(EndActive(s, p), sid).Some? ==> Record(EndActive(s, p), sid) == Record(s, sid)
  {
  }

  lemma RecordAfterResume(s: State, key: string, user: string, sid: nat)
    requires Linked(s) && Enabled(s, ResumeSession(key, user))
    ensures Record(DoResume(s, key), sid).Some? ==> Record(DoResume(s, key), sid) == Record(s, sid)
  {
    RecordAfterOther(s, DoResume(s, key), s.t.parked[key].id, sid);
  }

  lemma RecordAfterExpire(s: State, p: Pid, sid: nat)
    requires Linked(s) && Enabled(s, ExpirePark(p))
    ensures Record(DoExpire(s, p), sid).Some? ==> Record(DoExpire(s, p), sid) == Record(s, sid)
  {
    if Expires(s.t, s.procs[p].key, s.procs[p].sid) {
      RecordAfterOther(s, DoExpire(s, p), s.procs[p].sid, sid);
    }
  }

  lemma RecordAfterQuiet(s: State, step: Step, sid: nat)
    requires Linked(s) && Enabled(s, step) && Quiet(step)
    ensures Record(Do(s, step), sid).Some? ==>
              || Record(Do(s, step), sid) == Record(s, sid)
              || (step.Drop? && Record(Do(s, step), sid).value.parkedAt == s.now && Record(s, sid).None?)
  {
    QuietStep(s, step);
  }

  lemma RecordAfterBusy(s: State, step: Step, sid: nat)
    requires Linked(s) && Enabled(s, step) && !Quiet(step)
    ensures Record(Do(s, step), sid).Some? ==>
              || Record(Do(s, step), sid) == Record(s, sid)
              || (step.Drop? && Record(Do(s, step), sid).value.parkedAt == s.now && Record(s, sid).None?)
  {
    match step
    case Drop(p, intentional) => RecordAfterDrop(s, p, intentional, sid);
    case ResumeSession(key, user) => RecordAfterResume(s, key, user, sid);
    case ExpirePark(p) => RecordAfterExpire(s, p, sid);
    case Number(p) => RecordAfterNew(s, step, sid);
    case Allocate(p) => RecordAfterNew(s, step, sid);
    case InsertSession(p) => RecordAfterNew(s, step, sid);
    case EndFailed(p) => RecordAfterEnd(s, p, sid);
    case _ =>
  }

  /** A record appears by parking now and is otherwise not touched while its session stays parked. */
  lemma RecordAfter(s: State, step: Step, sid: nat)
    requires Linked(s) && Enabled(s, step)
    ensures Record(Do(s, step), sid).Some? ==>
              || Record(Do(s, step), sid) == Record(s, sid)
              || (step.Drop? && Record(Do(s, step), sid).value.parkedAt == s.now && Record(s, sid).None?)
  {
    if Quiet(step) {
      RecordAfterQuiet(s, step, sid);
    } else {
      RecordAfterBusy(s, step, sid);
    }
  }
}

/**
 The park lifecycle: a park period ends in one of resume, expiry or displacement; expiry comes only
 after the full window; a timer of a resumed or displaced session ends nothing.
 */
module BrokerParks {
  import opened BrokerState
  import opened BrokerLinks

  type ParkMap = map<string, Session>

  predicate IsTimer(c: Proc) {
    c.Armed? || c.Fired?
  }

  predicate IsDisplaced(l: Life) {
    l.Held? && l.where.Displaced?
  }

  /** The timer belongs to a park period that is still running, and gives it the whole window. */
  predicate Governs(p: Pid, c: Proc, ls: Lives, pk: ParkMap, ttl: int)
    requires IsTimer(c)
  {
    && c.sid in ls && IsParked(ls[c.sid]) && ls[c.sid].where.timer == p && c.key == ls[c.sid].ident.key
    && c.key in pk && pk[c.key].id == c.sid && c.deadline == pk[c.key].parkedAt + ttl
  }

  /** Every live timer governs its session's park period or belongs to a displaced session. */
  predicate Timed(ps: Procs, ls: Lives, pk: ParkMap, now: int, ttl: int) {
    && (forall p :: p in ps && IsTimer(ps[p]) ==>
          Governs(p, ps[p], ls, pk, ttl) || (ps[p].sid in ls && IsDisplaced(ls[ps[p].sid])))
    && (forall p :: p in ps && ps[p].Fired? ==> now >= ps[p].deadline)
    && (forall k :: k in pk ==>
          && pk[k].parkedAt <= now && pk[k].timer.Some? && pk[k].timer.value in ps
          && IsTimer(ps[pk[k].timer.value]) && ps[pk[k].timer.value].sid == pk[k].id)
  }

  predicate TimedState(s: State) {
    Timed(s.procs, s.lives, s.t.parked, s.now, s.t.ttl)
  }

  // ---- how it survives a change ----

  lemma TimedProc(ps: Procs, ls: Lives, pk: ParkMap, now: int, ttl: int, p: Pid, c: Proc)
    requires Timed(ps, ls, pk, now, ttl) && !IsTimer(c) && (p in ps ==> !IsTimer(ps[p]))
    ensures Timed(ps[p := c], ls, pk, now, ttl)
  {
  }

  /** Both a session that was not parked and an ordinary process change. */
  lemma TimedMove(ps: Procs, ls: Lives, pk: ParkMap, now: int, ttl: int, sid: nat, l: Life, p: Pid, c: Proc)
    requires Timed(ps, ls, pk, now, ttl) && (sid in ls ==> !IsParked(ls[sid]) && !IsDisplaced(ls[sid]))
    requires !IsTimer(c) && (p in ps ==> !IsTimer(ps[p]))
    ensures Timed(ps[p := c], ls[sid := l], pk, now, ttl)
  {
  }

  /** The period under k is over; its timer is gone or its session displaced. */
  lemma TimedUnpark(ps: Procs, ls: Lives, pk: ParkMap, now: int, ttl: int, k: string, l: Life, c: Proc)
    requires Timed(ps, ls, pk, now, ttl) && ParkedLinked(pk, ls) && k in pk
    requires IsDisplaced(l) || !IsTimer(c)
    requires IsTimer(c) ==> c == ps[pk[k].timer.value]
    ensures Timed(ps[pk[k].timer.value := c], ls[pk[k].id := l], pk - {k}, now, ttl)
  {
  }

  lemma TimedPark(ps: Procs, ls: Lives, pk: ParkMap, now: int, ttl: int, n: Session, c: Proc)
    requires Timed(ps, ls, pk, now, ttl) && n.timer.Some? && n.timer.value !in ps
    requires n.id in ls && IsActive(ls[n.id]) && n.ident.key !in pk && n.parkedAt == now
    requires c == Armed(n.id, n.ident.key, now + ttl)
    ensures Timed(ps[n.timer.value := c], ls[n.id := ParkedLife(n)], pk[n.ident.key := n], now, ttl)
  {
  }

  // ---- every step keeps it ----

  lemma TimedResume(s: State, key: string, user: string)
    requires Linked(s) && TimedState(s) && Enabled(s, ResumeSession(key, user))
    ensures TimedState(DoResume(s, key))
    ensures s.procs[s.t.parked[key].timer.value].Armed? // stopping the timer always succeeds
  {
    var n := Resumed(s.t, key, s.nextPid);
    var timer := n.timer.value;
    assert Governs(timer, s.procs[timer], s.lives, s.t.parked, s.t.ttl);
    TimedUnpark(s.procs, s.lives, s.t.parked, s.now, s.t.ttl, key, ActiveLife(n), Done);
    TimedProc(s.procs[timer := Done], s.lives[n.id := ActiveLife(n)], s.t.parked - {key}, s.now, s.t.ttl,
              s.nextPid, Proc.Attached(n.id, n.exit, n.ident.addr, true));
  }

  lemma TimedDisplace(s: State, key: string)
    requires Linked(s) && TimedState(s)
    ensures TimedState(Displace(s, key))
  {
    if key in s.t.parked {
      var q := s.t.parked[key];
      var timer := q.timer.value;
      TimedUnpark(s.procs, s.lives, s.t.parked, s.now, s.t.ttl, key, Held(q.ident, Displaced(q.client, q.exit)),
                  s.procs[timer]);
      assert s.procs[timer := s.procs[timer]] == s.procs;
    }
  }

  lemma TimedParkAndArm(s: State, p: Pid, timer: Proc)
    requires Linked(s) && TimedState(s) && p in s.procs && s.procs[p].HasSession()
    requires ParkedNow(s, p).ident.key != "" && ParkedNow(s, p).ident.key !in s.t.parked
    requires timer.Armed? && timer.sid == s.procs[p].sid && timer.deadline == s.now + s.t.ttl
    requires timer.key == s.t.sessions[s.procs[p].sid].ident.key
    ensures TimedState(NewProc(ParkActive(s, p), timer))
  {
    var c, n := s.procs[p], ParkedNow(s, p);
    TimedProc(s.procs, s.lives, s.t.parked, s.now, s.t.ttl, p, Suspending(c.sid, c.exit));
    TimedPark(s.procs[p := Suspending(c.sid, c.exit)], s.lives, s.t.parked, s.now, s.t.ttl, n, timer);
  }

  lemma TimedDrop(s: State, p: Pid, intentional: bool)
    requires Linked(s) && TimedState(s) && Enabled(s, Drop(p, intentional))
    ensures TimedState(DoDrop(s, p, intentional))
  {
    var ss := s.t.sessions[s.procs[p].sid];
    if Parks(s.t, ss, intentional) {
      LinkedDisplace(s, ss.ident.key);
      TimedDisplace(s, ss.ident.key);
      TimedParkAndArm(Displace(s, ss.ident.key), p, Armed(s.procs[p].sid, ss.ident.key, s.now + s.t.ttl));
      DropParks(s, p, intentional);
    } else {
      TimedEnd(s, p);
    }
  }

  lemma TimedEnd(s: State, p: Pid)
    requires Linked(s) && TimedState(s) && p in s.procs && s.procs[p].HasSession()
    ensures TimedState(EndActive(s, p))
  {
    var c := s.procs[p];
    TimedMove(s.procs, s.lives, s.t.parked, s.now, s.t.ttl, c.sid, EndActive(s, p).lives[c.sid], p,
              Ending(c.sid, c.exit));
  }

  lemma TimedExpire(s: State, p: Pid)
    requires Linked(s) && TimedState(s) && Enabled(s, ExpirePark(p))
    ensures TimedState(DoExpire(s, p))
  {
    var c := s.procs[p];
    if Expires(s.t, c.key, c.sid) {
      assert Governs(p, c, s.lives, s.t.parked, s.t.ttl);
      TimedUnpark(s.procs, s.lives, s.t.parked, s.now, s.t.ttl, c.key, DoExpire(s, p).lives[c.sid],
                  DoExpire(s, p).procs[p]);
    } else {
      ExpiredElsewhere(s, p);
    }
  }

  /** A timer that does not find its session parked belongs to a displaced one. */
  lemma ExpiredElsewhere(s: State, p: Pid)
    requires Linked(s) && TimedState(s) && Enabled(s, ExpirePark(p)) && !Expires(s.t, s.procs[p].key, s.procs[p].sid)
    ensures s.procs[p].sid in s.lives && IsDisplaced(s.lives[s.procs[p].sid])
    ensures TimedState(DoExpire(s, p))
  {
    var c := s.procs[p];
    assert !Governs(p, c, s.lives, s.t.parked, s.t.ttl);
    forall k | k in s.t.parked ensures s.t.parked[k].timer.value != p {
      assert s.t.parked[k].id in s.lives;
    }
  }

  lemma TimedFire(s: State, p: Pid)
    requires TimedState(s) && Enabled(s, Fire(p)) && s.t.pool.Valid()
    ensures TimedState(Do(s, Fire(p)))
  {
    var c := s.procs[p];
    assert Governs(p, c, s.lives, s.t.parked, s.t.ttl) ==>
        Governs(p, Fired(c.sid, c.key, c.deadline), s.lives, s.t.parked, s.t.ttl);
  }

  lemma TimedAllocate(s: State, p: Pid)
    requires Linked(s) && TimedState(s) && Enabled(s, Allocate(p))
    ensures TimedState(DoAllocate(s, p))
  {
    var sid := s.procs[p].sid;
    TimedMove(s.procs, s.lives, s.t.parked, s.now, s.t.ttl, sid, DoAllocate(s, p).lives[sid], p,
              DoAllocate(s, p).procs[p]);
  }

  lemma TimedInsert(s: State, p: Pid)
    requires Linked(s) && TimedState(s) && Enabled(s, InsertSession(p))
    ensures TimedState(DoInsert(s, p))
  {
    var sid := s.procs[p].sid;
    TimedMove(s.procs, s.lives, s.t.parked, s.now, s.t.ttl, sid, DoInsert(s, p).lives[sid], p, DoInsert(s, p).procs[p]);
  }

  lemma TimedNumber(s: State, p: Pid)
    requires Linked(s) && TimedState(s) && Enabled(s, Number(p))
    ensures TimedState(DoNumber(s, p))
  {
    var sid := s.t.lastSid + 1;
    TimedMove(s.procs, s.lives, s.t.parked, s.now, s.t.ttl, sid, Issued(p), p, DoNumber(s, p).procs[p]);
  }

  lemma TimedQuiet(s: State, step: Step)
    requires s.t.pool.Valid() && Numbering(s.t, s.lives, s.procs, s.nextPid, s.logs) && TimedState(s)
             && Enabled(s, step) && Quiet(step)
    ensures TimedState(Do(s, step))
  {
    match step
    case Pick(r, user, key) =>
      TimedProc(s.procs, s.lives, s.t.parked, s.now, s.t.ttl, s.nextPid, Picked(r, user, key));
    case Count(p) => TimedProc(s.procs, s.lives, s.t.parked, s.now, s.t.ttl, p, DoCount(s, p).procs[p]);
    case WriteStart(p, ok) => TimedProc(s.procs, s.lives, s.t.parked, s.now, s.t.ttl, p,
                                        DoWriteStart(s, p, ok).procs[p]);
    case WriteSuspend(p, _) => TimedProc(s.procs, s.lives, s.t.parked, s.now, s.t.ttl, p, Done);
    case WriteEnd(p, _) => TimedProc(s.procs, s.lives, s.t.parked, s.now, s.t.ttl, p, Done);
    case Fire(p) => TimedFire(s, p);
    case _ =>
  }

  lemma TimedBusy(s: State, step: Step)
    requires Linked(s) && TimedState(s) && Enabled(s, step) && !Quiet(step)
    ensures TimedState(Do(s, step))
  {
    match step
    case Number(p) => TimedNumber(s, p);
    case Allocate(p) => TimedAllocate(s, p);
    case InsertSession(p) => TimedInsert(s, p);
    case ResumeSession(key, user) => TimedResume(s, key, user);
    case Drop(p, intentional) => TimedDrop(s, p, intentional);
    case EndFailed(p) => TimedEnd(s, p);
    case ExpirePark(p) => TimedExpire(s, p);
    case _ =>
  }

  lemma TimedStep(s: State, step: Step)
    requires Linked(s) && TimedState(s) && Enabled(s, step)
    ensures TimedState(Do(s, step))
  {
    if Quiet(step) {
      TimedQuiet(s, step);
    } else {
      TimedBusy(s, step);
    }
  }
}

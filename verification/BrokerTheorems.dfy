/** What the broker guarantees over every run: any number of clients, exits and timers, interleaved in any way. */
module BrokerTheorems {
  import opened BrokerState
  import opened BrokerLinks
  import opened BrokerHistory
  import opened BrokerAddresses
  import opened BrokerParks
  import opened BrokerLoad
  import opened BrokerAgreement

  ghost predicate Inv(s: State) {
    Linked(s) && Addressed(s.t.pool, s.lives) && TimedState(s) && LoadedState(s) && Agreed(s)
  }

  lemma InvInit(s: State)
    requires Starts(s)
    ensures Inv(s)
  {
  }

  lemma InvStep(s: State, step: Step)
    requires Inv(s) && Enabled(s, step)
    ensures Inv(Do(s, step))
  {
    LinkedStep(s, step);
    AddressedStep(s, step);
    TimedStep(s, step);
    LoadedStep(s, step);
    AgreedStep(s, step);
  }

  lemma {:induction false} InvRun(s: State, steps: seq<Step>)
    requires Inv(s) && IsRun(s, steps)
    ensures Inv(Exec(s, steps))
    decreases |steps|
  {
    if steps != [] {
      InvStep(s, steps[0]);
      InvRun(Do(s, steps[0]), steps[1..]);
    }
  }

  // ---- addresses ----

  /** At every interleaving point each used address has exactly one holder and is a usable host address. */
  lemma AddressConservation(s0: State, steps: seq<Step>)
    requires Starts(s0) && IsRun(s0, steps)
    ensures Conserved(Exec(s0, steps))
  {
    InvInit(s0);
    InvRun(s0, steps);
    AddressedIsConserved(Exec(s0, steps));
  }

  predicate NeverDisplaces(s: State, steps: seq<Step>)
    requires IsRun(s, steps)
    decreases |steps|
  {
    steps == [] || (!Displaces(s, steps[0]) && NeverDisplaces(Do(s, steps[0]), steps[1..]))
  }

  lemma NoneDisplacedStep(s: State, step: Step, s': State)
    requires Continues(s, step, s') && !Displaces(s, step) && !SomeDisplaced(s)
    ensures !SomeDisplaced(s')
  {
    forall sid | sid in s'.lives ensures !IsDisplaced(s'.lives[sid]) {
      if sid in s.lives {
        assert !IsDisplaced(s.lives[sid]);
        assert Follows(s, step, sid, s.lives[sid], s'.lives[sid]);
      }
    }
  }

  lemma {:induction false} NoneDisplaced(s: State, steps: seq<Step>)
    requires Inv(s) && IsRun(s, steps) && NeverDisplaces(s, steps) && !SomeDisplaced(s)
    ensures !SomeDisplaced(Exec(s, steps))
    decreases |steps|
  {
    if steps != [] {
      InvStep(s, steps[0]);
      ContinuesStep(s, steps[0]);
      NoneDisplacedStep(s, steps[0], Do(s, steps[0]));
      NoneDisplaced(Do(s, steps[0]), steps[1..]);
    }
  }

  /** A displaced session is never ended: its address stays taken in every continuation. */
  lemma {:induction false} DisplacedLeaksForever(s: State, steps: seq<Step>, sid: nat)
    requires Inv(s) && IsRun(s, steps) && sid in s.lives && IsDisplaced(s.lives[sid])
    ensures sid in Exec(s, steps).lives && Exec(s, steps).lives[sid] == s.lives[sid]
    ensures s.lives[sid].ident.addr in Exec(s, steps).t.pool.used
    decreases |steps|
  {
    if steps != [] {
      InvStep(s, steps[0]);
      ContinuesStep(s, steps[0]);
      DisplacedLeaksForever(Do(s, steps[0]), steps[1..], sid);
    }
  }

  /** The session that a displacing step pushes out is displaced afterwards. */
  lemma DisplacedNow(s: State, step: Step) returns (sid: nat)
    requires s.t.pool.Valid() && ActiveLinked(s.t.sessions, s.lives, s.procs) && ParkedLinked(s.t.parked, s.lives)
             && Displaces(s, step)
    ensures sid in Do(s, step).lives && IsDisplaced(Do(s, step).lives[sid])
  {
    var key := s.t.sessions[s.procs[step.p].sid].ident.key;
    sid := s.t.parked[key].id;
    DropLives(s, step.p, step.intentional);
  }

  lemma {:induction false} DisplacementShows(s: State, steps: seq<Step>)
    requires Inv(s) && IsRun(s, steps) && !NeverDisplaces(s, steps)
    ensures Exec(s, steps).t.pool.used != {}
    decreases |steps|
  {
    var s' := Do(s, steps[0]);
    InvStep(s, steps[0]);
    if Displaces(s, steps[0]) {
      var sid := DisplacedNow(s, steps[0]);
      DisplacedLeaksForever(s', steps[1..], sid);
    } else {
      DisplacementShows(s', steps[1..]);
    }
  }

  /**
   A run that leaves the broker empty has given back every address if and only if no park in it displaced another
   session.
   */
  lemma EmptyBrokerLeaksNothing(s0: State, steps: seq<Step>)
    requires Starts(s0) && IsRun(s0, steps) && Empty(Exec(s0, steps))
    ensures Exec(s0, steps).t.pool.used == {} <==> NeverDisplaces(s0, steps)
  {
    InvInit(s0);
    if NeverDisplaces(s0, steps) {
      InvRun(s0, steps);
      NoneDisplaced(s0, steps);
      EmptyBrokerEmptyPool(Exec(s0, steps));
    } else {
      DisplacementShows(s0, steps);
    }
  }

  // ---- identity ----

  lemma {:induction false} HistoryKeepsIdent(s: State, steps: seq<Step>, sid: nat)
    requires Inv(s) && IsRun(s, steps) && sid in s.lives && (s.lives[sid].Held? || s.lives[sid].Ended?)
    ensures var l := Exec(s, steps).lives;
            sid in l && (l[sid].Held? || l[sid].Ended?) && l[sid].ident == s.lives[sid].ident
    decreases |steps|
  {
    if steps != [] {
      InvStep(s, steps[0]);
      ContinuesStep(s, steps[0]);
      HistoryKeepsIdent(Do(s, steps[0]), steps[1..], sid);
    }
  }

  /**
   A resumption hands a parked session, within its window, to a connection of its own user under its own key,
   on the exit now registered for its node; nothing else about the session changes, and no other session does.
   */
  lemma ResumeReattaches(s: State, key: string, user: string)
    requires s.t.pool.Valid() && ActiveLinked(s.t.sessions, s.lives, s.procs) && ParkedLinked(s.t.parked, s.lives)
    requires Enabled(s, ResumeSession(key, user))
    ensures var was := s.t.parked[key];
            var t := Do(s, ResumeSession(key, user)).t;
            && was.ident.user == user && was.ident.key == key && s.now < was.parkedAt + s.t.ttl
            && was.id !in s.t.sessions && key !in t.parked && was.id in t.sessions
            && t.sessions[was.id] == was.(suspended := false, client := s.nextPid, exit := s.t.exits[was.ident.node])
            && t.sessions - {was.id} == s.t.sessions && t.parked == s.t.parked - {key} && t.pool == s.t.pool
  {
    var was := s.t.parked[key];
    assert was.id !in s.t.sessions by {
      assert IsParked(s.lives[was.id]);
    }
    assert Resume(s.t, key, s.nextPid).sessions - {was.id} == s.t.sessions;
  }

  /** However often a session is parked and resumed, it keeps its address, user, resume key and node. */
  lemma IdentityKept(s: State, steps: seq<Step>, sid: nat)
    requires Inv(s) && IsRun(s, steps) && sid in s.t.sessions
    ensures var s' := Exec(s, steps);
            && (sid in s'.t.sessions ==>
                  s'.t.sessions[sid].id == sid && s'.t.sessions[sid].ident == s.t.sessions[sid].ident)
            && (forall k :: k in s'.t.parked && s'.t.parked[k].id == sid ==>
                s'.t.parked[k].ident == s.t.sessions[sid].ident)
  {
    InvRun(s, steps);
    HistoryKeepsIdent(s, steps, sid);
  }

  // ---- park periods ----

  predicate InPeriod(s: State, sid: nat, T: Pid) {
    sid in s.lives && IsParked(s.lives[sid]) && s.lives[sid].where.timer == T
  }

  /** The park period of timer T is running. */
  predicate PeriodOpen(s: State, T: Pid) {
    exists sid :: sid in s.lives && InPeriod(s, sid, T)
  }

  predicate PeriodEnds(s: State, step: Step, T: Pid)
    requires s.t.pool.Valid() && Enabled(s, step)
  {
    PeriodOpen(s, T) && !PeriodOpen(Do(s, step), T)
  }

  function PeriodEndCount(s: State, steps: seq<Step>, T: Pid): nat
    requires IsRun(s, steps)
    decreases |steps|
  {
    if steps == [] then 0
    else (if PeriodEnds(s, steps[0], T) then 1 else 0) + PeriodEndCount(Do(s, steps[0]), steps[1..], T)
  }

  lemma NeverReopens(s: State, step: Step, T: Pid)
    requires Inv(s) && Enabled(s, step) && T < s.nextPid && !PeriodOpen(s, T)
    ensures !PeriodOpen(Do(s, step), T) && T < Do(s, step).nextPid
  {
    ContinuesStep(s, step);
    var s' := Do(s, step);
    forall sid | sid in s'.lives ensures !InPeriod(s', sid, T) {
      assert !InPeriod(s, sid, T);
      assert sid in s.lives ==> Follows(s, step, sid, s.lives[sid], s'.lives[sid]);
    }
  }

  lemma {:induction false} ClosedForGood(s: State, steps: seq<Step>, T: Pid)
    requires Inv(s) && IsRun(s, steps) && T < s.nextPid && !PeriodOpen(s, T)
    ensures PeriodEndCount(s, steps, T) == 0
    decreases |steps|
  {
    if steps != [] {
      NeverReopens(s, steps[0], T);
      InvStep(s, steps[0]);
      ClosedForGood(Do(s, steps[0]), steps[1..], T);
    }
  }

  lemma OpenIsOld(s: State, T: Pid)
    requires Linked(s) && TimedState(s) && PeriodOpen(s, T)
    ensures T < s.nextPid
  {
  }

  /** A park period ends at most once in any run. */
  lemma {:induction false} ParkPeriodEndsOnce(s: State, steps: seq<Step>, T: Pid)
    requires Inv(s) && IsRun(s, steps)
    ensures PeriodEndCount(s, steps, T) <= 1
    decreases |steps|
  {
    if steps != [] {
      InvStep(s, steps[0]);
      if PeriodEnds(s, steps[0], T) {
        OpenIsOld(s, T);
        ContinuesStep(s, steps[0]);
        ClosedForGood(Do(s, steps[0]), steps[1..], T);
      } else {
        ParkPeriodEndsOnce(Do(s, steps[0]), steps[1..], T);
      }
    }
  }

  /** It ends in exactly one of three ways: by resumption, by expiry, or by displacement. */
  lemma ParkPeriodEndsOneWay(s: State, step: Step, T: Pid)
    requires Linked(s) && Enabled(s, step) && PeriodEnds(s, step, T)
    ensures exists sid :: sid in s.lives && InPeriod(s, sid, T) && sid in Do(s, step).lives
                          && LeavesOneWay(s, step, sid, Do(s, step).lives[sid])
  {
    var sid :| sid in s.lives && InPeriod(s, sid, T);
    ContinuesStep(s, step);
    assert !InPeriod(Do(s, step), sid, T);
  }

  /** The session is parked all along. */
  predicate StaysParked(s: State, steps: seq<Step>, sid: nat)
    requires IsRun(s, steps)
    decreases |steps|
  {
    Record(s, sid).Some? && (steps == [] || (StaysParked(Do(s, steps[0]), steps[1..], sid)))
  }

  lemma {:induction false} ParkedRecordKept(s: State, steps: seq<Step>, sid: nat)
    requires Inv(s) && IsRun(s, steps) && StaysParked(s, steps, sid)
    ensures Record(Exec(s, steps), sid) == Record(s, sid) && Exec(s, steps).t.ttl == s.t.ttl
    decreases |steps|
  {
    if steps != [] {
      InvStep(s, steps[0]);
      ContinuesStep(s, steps[0]);
      RecordAfter(s, steps[0], sid);
      ParkedRecordKept(Do(s, steps[0]), steps[1..], sid);
    }
  }

  /** Expiry ends a session only after it has been parked for the full window since its latest suspension. */
  lemma ExpiryAfterFullWindow(s: State, drop: Step, steps: seq<Step>, expiry: Step, sid: nat)
    requires Inv(s) && Enabled(s, drop) && IsRun(Do(s, drop), steps)
    requires Record(s, sid).None? && StaysParked(Do(s, drop), steps, sid) // suspended by `drop`, parked ever since
    requires RunsOut(Exec(Do(s, drop), steps), expiry, sid)
    ensures Exec(Do(s, drop), steps).now >= s.now + s.t.ttl
  {
    var s1 := Do(s, drop);
    var s2 := Exec(s1, steps);
    InvStep(s, drop);
    ContinuesStep(s, drop);
    RecordAfter(s, drop, sid);
    InvRun(s1, steps);
    ParkedRecordKept(s1, steps, sid);
    RunsOutInTime(s2, expiry, sid);
  }

  /**
   A running session has no timer. A timer that fires ends its session exactly when that was not displaced, and else
   nothing.
   */
  lemma StaleTimersAreHarmless(s: State, p: Pid)
    requires Inv(s) && p in s.procs && IsTimer(s.procs[p])
    ensures s.procs[p].sid !in s.t.sessions
    ensures s.procs[p].Fired? ==>
              && s.procs[p].sid in s.lives
              && (Expires(s.t, s.procs[p].key, s.procs[p].sid) <==> !IsDisplaced(s.lives[s.procs[p].sid]))
              && (IsDisplaced(s.lives[s.procs[p].sid]) ==> DoExpire(s, p) == s.(procs := s.procs[p := Done]))
  {
    if s.procs[p].Fired? && !Expires(s.t, s.procs[p].key, s.procs[p].sid) {
      ExpiredElsewhere(s, p);
    }
  }
}

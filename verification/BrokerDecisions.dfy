/** What the broker's decisions depend on, said of the tables and the clock alone, in every reachable state. */
module BrokerDecisions {
  import opened Basics
  import opened BrokerState
  import opened BrokerLinks
  import opened BrokerAddresses
  import opened BrokerParks
  import opened BrokerTheorems

  /** The session is filed under its key from now on, keeps its address, and its exit is to be told to suspend it. */
  ghost predicate IsPutAside(s: State, t: State, p: Pid, was: Session) {
    && was.id !in t.t.sessions && was.ident.key in t.t.parked
    && t.t.parked[was.ident.key] == was.(suspended := true, parkedAt := s.now, timer := Some(s.nextPid))
    && was.id in t.lives && IsParked(t.lives[was.id]) && was.ident.addr in t.t.pool.used
    && p in t.procs && t.procs[p] == Suspending(was.id, was.exit)
  }

  /** The session is in neither map, its address is free, and its exit is to be told that it ended. */
  ghost predicate IsOver(s: State, t: State, p: Pid, was: Session) {
    && was.id !in t.t.sessions && (forall k :: k in t.t.parked ==> t.t.parked[k].id != was.id)
    && was.id in t.lives && t.lives[was.id].Ended? && was.ident.addr !in t.t.pool.used
    && p in t.procs && t.procs[p] == Ending(was.id, was.exit)
  }

  /**
   A dropped session is put aside if and only if the drop was not intentional, it has a resume key and there is a
   resume window, whatever exits are online; otherwise it is over.
   */
  lemma DropParksIff(s: State, p: Pid, intentional: bool)
    requires Inv(s) && Enabled(s, Drop(p, intentional))
    ensures s.procs[p].sid in s.t.sessions
    ensures var was, t := s.t.sessions[s.procs[p].sid], Do(s, Drop(p, intentional));
            && (!intentional && was.ident.key != "" && s.t.ttl > 0 <==> IsPutAside(s, t, p, was))
            && (intentional || was.ident.key == "" || s.t.ttl <= 0 <==> IsOver(s, t, p, was))
  {
    var was := s.t.sessions[s.procs[p].sid];
    DropAddress(s, p, intentional);
    if !intentional && was.ident.key != "" && s.t.ttl > 0 {
      DropPutsAside(s, p, intentional);
    } else {
      DropEnds(s, p, intentional);
    }
  }

  lemma DropAddress(s: State, p: Pid, intentional: bool)
    requires Linked(s) && Addressed(s.t.pool, s.lives) && Enabled(s, Drop(p, intentional))
    ensures s.procs[p].sid in s.t.sessions
    ensures var was := s.t.sessions[s.procs[p].sid];
            was.id == s.procs[p].sid && was.exit == s.procs[p].exit && was.ident.addr in s.t.pool.used
  {
    var was := s.t.sessions[s.procs[p].sid];
    assert s.lives[was.id] == ActiveLife(was);
  }

  lemma DropPutsAside(s: State, p: Pid, intentional: bool)
    requires Enabled(s, Drop(p, intentional)) && s.procs[p].sid in s.t.sessions
    requires var was := s.t.sessions[s.procs[p].sid];
             && was.id == s.procs[p].sid && was.exit == s.procs[p].exit && was.ident.addr in s.t.pool.used
             && !intentional && was.ident.key != "" && s.t.ttl > 0
    requires s.nextPid !in s.procs
    ensures IsPutAside(s, DoDrop(s, p, intentional), p, s.t.sessions[s.procs[p].sid])
  {
    DropParks(s, p, intentional);
  }

  lemma DropEnds(s: State, p: Pid, intentional: bool)
    requires Linked(s) && Enabled(s, Drop(p, intentional)) && s.procs[p].sid in s.t.sessions
    requires var was := s.t.sessions[s.procs[p].sid];
             && was.id == s.procs[p].sid && was.exit == s.procs[p].exit
             && (intentional || was.ident.key == "" || s.t.ttl <= 0)
    ensures IsOver(s, DoDrop(s, p, intentional), p, s.t.sessions[s.procs[p].sid])
  {
    var was := s.t.sessions[s.procs[p].sid];
    assert s.lives[was.id] == ActiveLife(was);
    forall k | k in s.t.parked ensures s.t.parked[k].id != was.id {
      assert s.lives[s.t.parked[k].id] == ParkedLife(s.t.parked[k]);
    }
  }

  /**
   A client comes back to its session if and only if it gives a key under which a session of its user is filed,
   within the window, whose node is online; neither load nor capacity matters.
   */
  lemma ResumesIff(s: State, key: string, user: string)
    requires Inv(s)
    ensures Enabled(s, ResumeSession(key, user)) <==>
              && key != "" && key in s.t.parked && s.t.parked[key].ident.user == user
              && s.now < s.t.parked[key].parkedAt + s.t.ttl && s.t.parked[key].ident.node in s.t.exits
    ensures Enabled(s, ResumeSession(key, user)) ==>
              var t := Do(s, ResumeSession(key, user)).t;
              s.t.parked[key].id in t.sessions && t.sessions[s.t.parked[key].id].ident == s.t.parked[key].ident
  {
    if Enabled(s, ResumeSession(key, user)) {
      ResumeReattaches(s, key, user);
    }
  }

  /** An exit may be picked if and only if it is the one online under its node id and is unlimited or below capacity. */
  lemma PicksIff(s: State, r: Reg, user: string, key: string)
    requires Inv(s)
    ensures Enabled(s, Pick(r, user, key)) <==>
              && r in s.t.info && s.t.info[r].node in s.t.exits && s.t.exits[s.t.info[r].node] == r
              && (s.t.info[r].capacity <= 0 || s.t.active[r] < s.t.info[r].capacity)
  {
  }

  lemma TimerOf(s: State, key: string)
    requires ParkedLinked(s.t.parked, s.lives) && TimedState(s) && key in s.t.parked
    ensures var was := s.t.parked[key];
            && was.timer.Some? && was.timer.value in s.procs && IsTimer(s.procs[was.timer.value])
            && var c := s.procs[was.timer.value];
               && c.sid == was.id && c.key == key && c.deadline == was.parkedAt + s.t.ttl
               && (c.Fired? ==> s.now >= c.deadline)
  {
    var was := s.t.parked[key];
    assert s.lives[was.id] == ParkedLife(was);
    assert Governs(was.timer.value, s.procs[was.timer.value], s.lives, s.t.parked, s.t.ttl);
  }

  /** The session filed under the key is over, and the exit now registered for its node, if any, is to be told. */
  ghost predicate IsGone(was: Session, t: State, p: Pid) {
    && p in t.procs
    && t.procs[p] == (if was.ident.node in t.t.exits then Ending(was.id, t.t.exits[was.ident.node]) else Done)
    && was.ident.key !in t.t.parked && was.id !in t.t.sessions && was.ident.addr !in t.t.pool.used
    && was.id in t.lives && t.lives[was.id].Ended?
  }

  lemma ExpiryFrees(s: State, p: Pid, key: string)
    requires ActiveLinked(s.t.sessions, s.lives, s.procs) && ParkedLinked(s.t.parked, s.lives) && key in s.t.parked
    requires p in s.procs && s.procs[p].Fired? && s.procs[p].key == key && s.procs[p].sid == s.t.parked[key].id
    ensures IsGone(s.t.parked[key], DoExpire(s, p), p)
  {
    assert IsParked(s.lives[s.t.parked[key].id]);
  }

  /**
   The timer of a parked session is due exactly from the end of its window on, and once it has fired
   it ends the session and frees its address.
   */
  lemma WindowRunsOut(s: State, key: string)
    requires ActiveLinked(s.t.sessions, s.lives, s.procs) && ParkedLinked(s.t.parked, s.lives) && TimedState(s)
    requires key in s.t.parked && s.t.parked[key].timer.Some?
    ensures var was, p := s.t.parked[key], s.t.parked[key].timer.value;
            && (Enabled(s, Fire(p)) || Enabled(s, ExpirePark(p)) <==> s.now >= was.parkedAt + s.t.ttl)
            && (Enabled(s, ExpirePark(p)) ==> IsGone(was, DoExpire(s, p), p))
  {
    TimerOf(s, key);
    if Enabled(s, ExpirePark(s.t.parked[key].timer.value)) {
      ExpiryFrees(s, s.t.parked[key].timer.value, key);
    }
  }
}

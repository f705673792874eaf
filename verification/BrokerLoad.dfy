/**
 The exits' atomic client counters under interleaving: each counts exactly the sessions attached to it,
 less those whose increment is still to come.
 */
module BrokerLoad {
  import opened Basics
  import opened BrokerState
  import opened BrokerLinks

  /** Sessions attached to r whose increment has happened. */
  function Counted(ss: Sessions, ps: Procs, r: Reg): set<nat> {
    set sid | sid in ss && ss[sid].exit == r && ss[sid].client in ps && !ps[ss[sid].client].Attached?
  }

  predicate Loaded(ss: Sessions, ps: Procs, active: map<Reg, int>) {
    forall r :: r in active ==> active[r] == |Counted(ss, ps, r)|
  }

  predicate LoadedState(s: State) {
    Loaded(s.t.sessions, s.procs, s.t.active)
  }

  lemma LoadAttach(ss: Sessions, ls: Lives, ps: Procs, s: Session, c: Proc, r: Reg)
    requires ActiveLinked(ss, ls, ps) && s.id !in ss && c.Attached? && (s.client in ps ==> !ps[s.client].HasSession())
    ensures Counted(ss[s.id := s], ps[s.client := c], r) == Counted(ss, ps, r)
  {
  }

  lemma LoadedAttach(ss: Sessions, ls: Lives, ps: Procs, active: map<Reg, int>, s: Session, c: Proc)
    requires ActiveLinked(ss, ls, ps) && Loaded(ss, ps, active)
    requires s.id !in ss && c.Attached? && (s.client in ps ==> !ps[s.client].HasSession())
    ensures Loaded(ss[s.id := s], ps[s.client := c], active)
  {
    forall r | r in active ensures active[r] == |Counted(ss[s.id := s], ps[s.client := c], r)| {
      LoadAttach(ss, ls, ps, s, c, r);
    }
  }

  lemma LoadDetach(ss: Sessions, ls: Lives, ps: Procs, sid: nat, c: Proc, r: Reg)
    requires ActiveLinked(ss, ls, ps) && sid in ss && !ps[ss[sid].client].Attached?
    ensures |Counted(ss - {sid}, ps[ss[sid].client := c], r)|
            == |Counted(ss, ps, r)| - if r == ss[sid].exit then 1 else 0
  {
    assert sid in Counted(ss, ps, ss[sid].exit);
    assert Counted(ss - {sid}, ps[ss[sid].client := c], r) ==
        if r == ss[sid].exit then Counted(ss, ps, r) - {sid} else Counted(ss, ps, r);
  }

  lemma LoadCount(ss: Sessions, ls: Lives, ps: Procs, p: Pid, c: Proc, r: Reg)
    requires ActiveLinked(ss, ls, ps) && p in ps && ps[p].Attached? && c.HasSession() && !c.Attached?
    ensures |Counted(ss, ps[p := c], r)| == |Counted(ss, ps, r)| + if r == ps[p].exit then 1 else 0
  {
    assert ps[p].sid !in Counted(ss, ps, r);
    assert Counted(ss, ps[p := c], r) ==
        if r == ps[p].exit then Counted(ss, ps, r) + {ps[p].sid} else Counted(ss, ps, r);
  }

  lemma LoadOther(ss: Sessions, ls: Lives, ps: Procs, p: Pid, c: Proc, r: Reg)
    requires ActiveLinked(ss, ls, ps)
    requires (p in ps ==> !ps[p].HasSession()) || (p in ps && !ps[p].Attached? && !c.Attached?)
    ensures Counted(ss, ps[p := c], r) == Counted(ss, ps, r)
  {
  }

  /** A process that neither joins nor leaves a session changes. */
  lemma LoadedProc(s: State, p: Pid, c: Proc)
    requires Linked(s) && LoadedState(s)
    requires (p in s.procs ==> !s.procs[p].HasSession()) || (p in s.procs && !s.procs[p].Attached? && !c.Attached?)
    ensures Loaded(s.t.sessions, s.procs[p := c], s.t.active)
  {
    forall r | r in s.t.active ensures s.t.active[r] == |Counted(s.t.sessions, s.procs[p := c], r)| {
      LoadOther(s.t.sessions, s.lives, s.procs, p, c, r);
    }
  }

  lemma LoadedInsert(s: State, p: Pid)
    requires Linked(s) && LoadedState(s) && Enabled(s, InsertSession(p))
    ensures LoadedState(DoInsert(s, p))
  {
    var s' := DoInsert(s, p);
    forall r | r in s.t.active ensures s.t.active[r] == |Counted(s'.t.sessions, s'.procs, r)| {
      LoadAttach(s.t.sessions, s.lives, s.procs, s'.t.sessions[s.procs[p].sid], s'.procs[p], r);
    }
  }

  lemma LoadedCount(s: State, p: Pid)
    requires Linked(s) && LoadedState(s) && Enabled(s, Count(p))
    ensures LoadedState(DoCount(s, p))
  {
    var s' := DoCount(s, p);
    forall r | r in s'.t.active ensures s'.t.active[r] == |Counted(s'.t.sessions, s'.procs, r)| {
      LoadCount(s.t.sessions, s.lives, s.procs, p, s'.procs[p], r);
    }
  }

  lemma LoadedStop(s: State, timer: Option<Pid>)
    requires Linked(s) && LoadedState(s)
    ensures Loaded(s.t.sessions, Stop(s.procs, timer), s.t.active)
  {
    if Stop(s.procs, timer) != s.procs {
      LoadedProc(s, timer.value, Done);
    }
  }

  lemma LoadedResume(s: State, key: string, user: string)
    requires Linked(s) && LoadedState(s) && Enabled(s, ResumeSession(key, user))
    ensures LoadedState(DoResume(s, key))
  {
    var n := Resumed(s.t, key, s.nextPid);
    var ps := Stop(s.procs, n.timer);
    LinkedStop(s, n.timer);
    LoadedStop(s, n.timer);
    LoadedAttach(s.t.sessions, s.lives, ps, s.t.active, n, Proc.Attached(n.id, n.exit, n.ident.addr, true));
  }

  /** A counted session leaves the active map. */
  lemma LoadedDetach(s: State, p: Pid, c: Proc)
    requires Linked(s) && LoadedState(s) && p in s.procs && s.procs[p].HasSession() && !s.procs[p].Attached?
    ensures Loaded(s.t.sessions - {s.procs[p].sid}, s.procs[p := c], Add(s.t.active, s.procs[p].exit, -1))
  {
    var sid, exit := s.procs[p].sid, s.procs[p].exit;
    var active := Add(s.t.active, exit, -1);
    forall r | r in active ensures active[r] == |Counted(s.t.sessions - {sid}, s.procs[p := c], r)| {
      LoadDetach(s.t.sessions, s.lives, s.procs, sid, c, r);
    }
  }

  lemma LoadedParkAndArm(s: State, p: Pid, timer: Proc)
    requires Linked(s) && LoadedState(s) && p in s.procs && s.procs[p].HasSession() && !s.procs[p].Attached?
    requires ParkedNow(s, p).ident.key != "" && ParkedNow(s, p).ident.key !in s.t.parked && timer.Armed?
    ensures LoadedState(NewProc(ParkActive(s, p), timer))
  {
    LoadedDetach(s, p, Suspending(s.procs[p].sid, s.procs[p].exit));
    LinkedPark(s, p);
    LoadedProc(ParkActive(s, p), s.nextPid, timer);
  }

  lemma LoadedEnd(s: State, p: Pid)
    requires Linked(s) && LoadedState(s) && p in s.procs && s.procs[p].HasSession() && !s.procs[p].Attached?
    ensures LoadedState(EndActive(s, p))
  {
    LoadedDetach(s, p, Ending(s.procs[p].sid, s.procs[p].exit));
  }

  lemma LoadedDisplace(s: State, key: string)
    requires LoadedState(s)
    ensures LoadedState(Displace(s, key))
  {
  }

  lemma LoadedDrop(s: State, p: Pid, intentional: bool)
    requires Linked(s) && LoadedState(s) && Enabled(s, Drop(p, intentional))
    ensures LoadedState(DoDrop(s, p, intentional))
  {
    var ss := s.t.sessions[s.procs[p].sid];
    if Parks(s.t, ss, intentional) {
      LinkedDisplace(s, ss.ident.key);
      LoadedDisplace(s, ss.ident.key);
      LoadedParkAndArm(Displace(s, ss.ident.key), p, Armed(s.procs[p].sid, ss.ident.key, s.now + s.t.ttl));
      DropParks(s, p, intentional);
    } else {
      LoadedEnd(s, p);
    }
  }

  lemma LoadedRegister(s: State, info: ExitInfo)
    requires Linked(s) && LoadedState(s)
    ensures LoadedState(Do(s, Register(info)))
  {
    assert Counted(s.t.sessions, s.procs, s.t.nextReg) == {} by {
      forall sid | sid in s.t.sessions ensures s.t.sessions[sid].exit != s.t.nextReg {
        assert LifeOnNode(s.t.info, s.lives[sid]);
      }
    }
  }

  lemma LoadedQuiet(s: State, step: Step)
    requires Linked(s) && LoadedState(s) && Enabled(s, step) && Quiet(step)
    ensures LoadedState(Do(s, step))
  {
    match step
    case Register(info) => LoadedRegister(s, info);
    case Pick(r, user, key) => LoadedProc(s, s.nextPid, Picked(r, user, key));
    case Count(p) => LoadedCount(s, p);
    case WriteStart(p, ok) => LoadedProc(s, p, DoWriteStart(s, p, ok).procs[p]);
    case WriteSuspend(p, _) => LoadedProc(s, p, Done);
    case WriteEnd(p, _) => LoadedProc(s, p, Done);
    case Fire(p) => LoadedProc(s, p, Fired(s.procs[p].sid, s.procs[p].key, s.procs[p].deadline));
    case _ =>
  }

  lemma LoadedBusy(s: State, step: Step)
    requires Linked(s) && LoadedState(s) && Enabled(s, step) && !Quiet(step)
    ensures LoadedState(Do(s, step))
  {
    match step
    case Number(p) => LoadedProc(s, p, DoNumber(s, p).procs[p]);
    case Allocate(p) => LoadedProc(s, p, DoAllocate(s, p).procs[p]);
    case InsertSession(p) => LoadedInsert(s, p);
    case ResumeSession(key, user) => LoadedResume(s, key, user);
    case Drop(p, intentional) => LoadedDrop(s, p, intentional);
    case EndFailed(p) => LoadedEnd(s, p);
    case ExpirePark(p) => LoadedProc(s, p, DoExpire(s, p).procs[p]);
    case _ =>
  }

  lemma LoadedStep(s: State, step: Step)
    requires Linked(s) && LoadedState(s) && Enabled(s, step)
    ensures LoadedState(Do(s, step))
  {
    if Quiet(step) {
      LoadedQuiet(s, step);
    } else {
      LoadedBusy(s, step);
    }
  }

  // ---- in terms of the sessions attached to an exit ----

  /** Sessions whose exit connection is r. */
  function AttachedTo(s: State, r: Reg): set<nat> {
    set sid | sid in s.t.sessions && s.t.sessions[sid].exit == r
  }

  /** Those among them whose connection has still to bump the counter. */
  function Pending(s: State, r: Reg): set<nat> {
    set sid | sid in AttachedTo(s, r) && s.t.sessions[sid].client in s.procs
        && s.procs[s.t.sessions[sid].client].Attached?
  }

  lemma CounterIsExact(s: State, r: Reg)
    requires Linked(s) && LoadedState(s) && r in s.t.active
    ensures s.t.active[r] == |AttachedTo(s, r)| - |Pending(s, r)| >= 0
  {
    var c, a, p := Counted(s.t.sessions, s.procs, r), AttachedTo(s, r), Pending(s, r);
    assert a == c + p && c !! p;
  }
}

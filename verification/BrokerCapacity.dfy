/**
 The exits' capacities under interleaved admissions: what an admission takes up from its pick on, when the
 sessions admitted to an exit stay within its capacity, and when they need not.
 */
module BrokerCapacity {
  import opened Basics
  import opened IpPool
  import opened BrokerState
  import opened BrokerLinks
  import opened BrokerLoad
  import opened BrokerTheorems

  // ---- what admissions take up ----

  /** The exit whose capacity a connection takes up: by a fresh session on it or an admission headed for it. */
  function Claim(c: Proc): Option<Reg> {
    if c.Picked? || c.Numbered? || c.Allocated? || (c.HasSession() && !c.resumed) then Some(c.exit) else None
  }

  function Claims(ps: Procs, r: Reg): set<Pid> {
    set p | p in ps && Claim(ps[p]) == Some(r)
  }

  /** Sessions on r that were admitted fresh and not resumed since. */
  function NewSessions(s: State, r: Reg): set<nat> {
    set sid | sid in AttachedTo(s, r) && s.t.sessions[sid].client in s.procs
              && Claim(s.procs[s.t.sessions[sid].client]) == Some(r)
  }

  lemma {:induction false} InjectionBound(a: set<nat>, b: set<nat>, f: map<nat, nat>)
    requires f.Keys == a && forall x :: x in a ==> f[x] in b
    requires forall x, y :: x in a && y in a && x != y ==> f[x] != f[y]
    ensures |a| <= |b|
    decreases |a|
  {
    if x :| x in a {
      InjectionBound(a - {x}, b - {f[x]}, f - {x});
    }
  }

  /** Every fresh session is a claim. */
  lemma NewSessionsAreClaims(s: State, r: Reg)
    requires ActiveLinked(s.t.sessions, s.lives, s.procs)
    ensures |NewSessions(s, r)| <= |Claims(s.procs, r)|
  {
    var news := NewSessions(s, r);
    InjectionBound(news, Claims(s.procs, r), map sid | sid in news :: s.t.sessions[sid].client);
  }

  // ---- claims grow by picks only ----

  lemma SubsetSize(a: set<Pid>, b: set<Pid>)
    requires a <= b
    ensures |a| <= |b|
  {
    assert b == a + (b - a);
  }

  lemma ClaimsNoMore(ps: Procs, p: Pid, c: Proc, r: Reg)
    requires Claim(c).None? || (p in ps && Claim(ps[p]) == Claim(c))
    ensures |Claims(ps[p := c], r)| <= |Claims(ps, r)|
  {
    assert Claims(ps[p := c], r) <= Claims(ps, r);
    SubsetSize(Claims(ps[p := c], r), Claims(ps, r));
  }

  lemma ClaimsPick(ps: Procs, p: Pid, c: Proc, r: Reg)
    requires p !in ps && c.Picked?
    ensures |Claims(ps[p := c], r)| == |Claims(ps, r)| + if r == c.exit then 1 else 0
  {
    if r == c.exit {
      ClaimsMore(ps, p, c, r);
    } else {
      assert Claims(ps[p := c], r) == Claims(ps, r);
    }
  }

  lemma ClaimsMore(ps: Procs, p: Pid, c: Proc, r: Reg)
    requires p !in ps && Claim(c) == Some(r)
    ensures Claims(ps[p := c], r) == Claims(ps, r) + {p}
  {
  }

  lemma ClaimsResume(s: State, key: string, user: string, r: Reg)
    requires Enabled(s, ResumeSession(key, user))
    ensures |Claims(DoResume(s, key).procs, r)| <= |Claims(s.procs, r)|
  {
    var n := Resumed(s.t, key, s.nextPid);
    var ps := Stop(s.procs, n.timer);
    if ps != s.procs {
      ClaimsNoMore(s.procs, n.timer.value, Done, r);
    }
    ClaimsNoMore(ps, s.nextPid, Proc.Attached(n.id, n.exit, n.ident.addr, true), r);
  }

  lemma ClaimsDrop(s: State, p: Pid, intentional: bool, r: Reg)
    requires Enabled(s, Drop(p, intentional)) && s.procs[p].sid in s.t.sessions
    ensures |Claims(DoDrop(s, p, intentional).procs, r)| <= |Claims(s.procs, r)|
  {
    var c, ss := s.procs[p], s.t.sessions[s.procs[p].sid];
    DropShape(s, p, intentional);
    ClaimsNoMore(s.procs, p, Ending(c.sid, c.exit), r);
    ClaimsNoMore(s.procs, p, Suspending(c.sid, c.exit), r);
    ClaimsNoMore(s.procs[p := Suspending(c.sid, c.exit)], s.nextPid,
                 Armed(c.sid, ss.ident.key, s.now + s.t.ttl), r);
  }

  lemma ClaimKept(s: State, step: Step)
    requires s.t.pool.Valid() && Enabled(s, step) && OneProc(step)
    ensures var c, c' := s.procs[step.p], Do(s, step).procs[step.p];
            Claim(c').None? || Claim(c') == Claim(c)
  {
  }

  /** Only a pick of the exit adds a claim on it. */
  lemma ClaimsStep(s: State, step: Step, r: Reg)
    requires Linked(s) && Enabled(s, step)
    ensures |Claims(Do(s, step).procs, r)| <= |Claims(s.procs, r)| + if step.Pick? && step.r == r then 1 else 0
  {
    match step
    case Register(_) =>
    case ExitGone(_) =>
    case Tick(_) =>
    case Pick(x, user, key) => ClaimsPick(s.procs, s.nextPid, Picked(x, user, key), r);
    case ResumeSession(key, user) => ClaimsResume(s, key, user, r);
    case Drop(p, intentional) => ClaimsDrop(s, p, intentional, r);
    case _ =>
      OneProcStep(s, step);
      ClaimKept(s, step);
      ClaimsNoMore(s.procs, step.p, Do(s, step).procs[step.p], r);
  }

  lemma InfoStep(s: State, step: Step, r: Reg)
    requires Linked(s) && Enabled(s, step) && r in s.t.info
    ensures r in Do(s, step).t.info && Do(s, step).t.info[r] == s.t.info[r]
  {
    if step.Drop? && s.procs[step.p].sid in s.t.sessions {
      DropShape(s, step.p, step.intentional);
    } else if OneProc(step) {
      OneProcStep(s, step);
    }
  }

  // ---- runs that leave room ----

  /** A pick of r finds fewer claims on it than its capacity. */
  predicate LeavesRoom(s: State, step: Step, r: Reg) {
    step.Pick? && step.r == r && r in s.t.info ==> |Claims(s.procs, r)| < s.t.info[r].capacity
  }

  predicate AlwaysLeavesRoom(s: State, steps: seq<Step>, r: Reg)
    requires IsRun(s, steps)
    decreases |steps|
  {
    steps == [] || (LeavesRoom(s, steps[0], r) && AlwaysLeavesRoom(Do(s, steps[0]), steps[1..], r))
  }

  /** The claims on r fit its capacity; a registration to come has none. */
  predicate Fits(s: State, r: Reg) {
    if r in s.t.info then s.t.info[r].capacity > 0 ==> |Claims(s.procs, r)| <= s.t.info[r].capacity
    else Claims(s.procs, r) == {}
  }

  lemma NoClaimsYet(s: State, r: Reg)
    requires Linked(s) && r !in s.t.info
    ensures Claims(s.procs, r) == {}
  {
    forall p | p in s.procs ensures Claim(s.procs[p]) != Some(r) {
      assert ProcOnExit(s.t.info, s.procs[p]);
    }
  }

  lemma FitsStep(s: State, step: Step, r: Reg)
    requires Linked(s) && Enabled(s, step) && Fits(s, r) && LeavesRoom(s, step, r)
    ensures Fits(Do(s, step), r)
  {
    ClaimsStep(s, step, r);
    if r in s.t.info {
      InfoStep(s, step, r);
    } else {
      NewcomerStep(s, step, r);
    }
  }

  lemma NewcomerStep(s: State, step: Step, r: Reg)
    requires Linked(s) && Enabled(s, step) && r !in s.t.info
    ensures Claims(Do(s, step).procs, r) == {}
  {
    NoClaimsYet(s, r);
    ClaimsStep(s, step, r);
    assert !(step.Pick? && step.r == r);
  }

  lemma {:induction false} FitsRun(s: State, steps: seq<Step>, r: Reg)
    requires Inv(s) && IsRun(s, steps) && Fits(s, r) && AlwaysLeavesRoom(s, steps, r)
    ensures Fits(Exec(s, steps), r)
    decreases |steps|
  {
    if steps != [] {
      FitsStep(s, steps[0], r);
      InvStep(s, steps[0]);
      FitsRun(Do(s, steps[0]), steps[1..], r);
    }
  }

  /** If every pick of an exit finds room among the claims, the sessions admitted to it never exceed its capacity. */
  lemma CapacityRespected(s0: State, steps: seq<Step>, r: Reg)
    requires Starts(s0) && IsRun(s0, steps) && AlwaysLeavesRoom(s0, steps, r)
    requires r in Exec(s0, steps).t.info && Exec(s0, steps).t.info[r].capacity > 0
    ensures |NewSessions(Exec(s0, steps), r)| <= Exec(s0, steps).t.info[r].capacity
  {
    InvInit(s0);
    InvRun(s0, steps);
    FitsRun(s0, steps, r);
    NewSessionsAreClaims(Exec(s0, steps), r);
  }

  // ---- one admission at a time ----

  /** The connection is between picking an exit and bumping its counter. */
  predicate Admitting(c: Proc) {
    c.Picked? || c.Numbered? || c.Allocated? || (c.Attached? && !c.resumed)
  }

  /** No pick of r while another admission to it is between its pick and its increment. */
  predicate Sequential(s: State, step: Step, r: Reg) {
    step.Pick? && step.r == r ==> forall p :: p in s.procs && Admitting(s.procs[p]) ==> s.procs[p].exit != r
  }

  predicate OneAtATime(s: State, steps: seq<Step>, r: Reg)
    requires IsRun(s, steps)
    decreases |steps|
  {
    steps == [] || (Sequential(s, steps[0], r) && OneAtATime(Do(s, steps[0]), steps[1..], r))
  }

  lemma ClaimsAreCounted(ss: Sessions, ls: Lives, ps: Procs, r: Reg)
    requires ActiveLinked(ss, ls, ps) && forall p :: p in ps && Admitting(ps[p]) ==> ps[p].exit != r
    ensures |Claims(ps, r)| <= |Counted(ss, ps, r)|
  {
    var claims := Claims(ps, r);
    InjectionBound(claims, Counted(ss, ps, r), map p | p in claims :: ps[p].sid);
  }

  /** With no other admission under way all claims are counted, so the broker's own test leaves room. */
  lemma SequentialLeavesRoom(s: State, step: Step, r: Reg)
    requires Linked(s) && LoadedState(s) && Enabled(s, step) && Sequential(s, step, r)
    requires r in s.t.info ==> s.t.info[r].capacity > 0
    ensures LeavesRoom(s, step, r)
  {
    if step.Pick? && step.r == r {
      ClaimsAreCounted(s.t.sessions, s.lives, s.procs, r);
    }
  }

  lemma {:induction false} InfoRun(s: State, steps: seq<Step>, r: Reg)
    requires Inv(s) && IsRun(s, steps) && r in s.t.info
    ensures r in Exec(s, steps).t.info && Exec(s, steps).t.info[r] == s.t.info[r]
    decreases |steps|
  {
    if steps != [] {
      InfoStep(s, steps[0], r);
      InvStep(s, steps[0]);
      InfoRun(Do(s, steps[0]), steps[1..], r);
    }
  }

  /** Admissions to an exit run one at a time always leave room. */
  lemma {:induction false} OneAtATimeLeavesRoom(s: State, steps: seq<Step>, r: Reg)
    requires Inv(s) && IsRun(s, steps) && OneAtATime(s, steps, r)
    requires r in Exec(s, steps).t.info ==> Exec(s, steps).t.info[r].capacity > 0
    ensures AlwaysLeavesRoom(s, steps, r)
    decreases |steps|
  {
    if steps != [] {
      if r in s.t.info {
        InfoRun(s, steps, r);
      }
      SequentialLeavesRoom(s, steps[0], r);
      InvStep(s, steps[0]);
      OneAtATimeLeavesRoom(Do(s, steps[0]), steps[1..], r);
    }
  }

  // ---- the exact condition ----

  predicate NoPicks(steps: seq<Step>, r: Reg) {
    forall k :: 0 <= k < |steps| ==> !(steps[k].Pick? && steps[k].r == r)
  }

  /** However the admissions under way go on, the sessions admitted to r stay within its capacity. */
  ghost predicate StaysWithin(s: State, r: Reg)
    requires r in s.t.info
  {
    forall steps :: IsRun(s, steps) && NoPicks(steps, r) ==> |NewSessions(Exec(s, steps), r)| <= s.t.info[r].capacity
  }

  lemma {:induction false} ClaimsRun(s: State, steps: seq<Step>, r: Reg)
    requires Inv(s) && IsRun(s, steps) && NoPicks(steps, r)
    ensures Inv(Exec(s, steps)) && |Claims(Exec(s, steps).procs, r)| <= |Claims(s.procs, r)|
    decreases |steps|
  {
    if steps != [] {
      ClaimsStep(s, steps[0], r);
      InvStep(s, steps[0]);
      ClaimsRun(Do(s, steps[0]), steps[1..], r);
    }
  }

  /** Addresses that can still be handed out. */
  function FreeAddresses(p: PoolState): set<nat> {
    set a | p.base <= a < p.base + p.size && p.Free(a)
  }

  /** Admissions to r that have no address yet. */
  function Waiting(ps: Procs, r: Reg): set<Pid> {
    set p | p in ps && (ps[p].Picked? || ps[p].Numbered?) && ps[p].exit == r
  }

  /** Admissions to r whose session is not yet in the map. */
  function Underway(ps: Procs, r: Reg): set<Pid> {
    set p | p in ps && (ps[p].Picked? || ps[p].Numbered? || ps[p].Allocated?) && ps[p].exit == r
  }

  /** Enough free addresses for every admission to r. */
  predicate Provided(s: State, r: Reg) {
    |Waiting(s.procs, r)| <= |FreeAddresses(s.t.pool)|
  }

  lemma FreeIsCandidate(p: PoolState)
    requires p.Valid() && FreeAddresses(p) != {}
    ensures p.Candidate().Some?
    ensures var q := p.Take(p.Candidate().value); q.Valid() && |FreeAddresses(q)| == |FreeAddresses(p)| - 1
  {
    var b :| b in FreeAddresses(p);
    OnRing(p, b);
    var a := p.Candidate().value;
    OnRing(p, a);
    assert FreeAddresses(p.Take(a)) == FreeAddresses(p) - {a};
  }

  /** From s to t the admission p goes on towards r and nobody else does anything. */
  ghost predicate GoesOn(s: State, t: State, p: Pid, r: Reg) {
    && p in s.procs && p in t.procs && t.procs == s.procs[p := t.procs[p]] && t.t.info == s.t.info
    && Claim(s.procs[p]) == Claim(t.procs[p]) == Some(r)
  }

  lemma NumberGoesOn(s: State, p: Pid, r: Reg)
    requires p in s.procs && s.procs[p].Picked? && s.procs[p].exit == r
    ensures var t := DoNumber(s, p); GoesOn(s, t, p, r) && t.procs[p].Numbered? && t.t.pool == s.t.pool
  {
  }

  lemma AllocateGoesOn(s: State, p: Pid, r: Reg)
    requires s.t.pool.Valid() && p in s.procs && s.procs[p].Numbered? && s.procs[p].exit == r
    requires FreeAddresses(s.t.pool) != {}
    ensures var t := DoAllocate(s, p);
            && GoesOn(s, t, p, r) && t.procs[p].Allocated? && t.t.pool.Valid()
            && |FreeAddresses(t.t.pool)| == |FreeAddresses(s.t.pool)| - 1
  {
    FreeIsCandidate(s.t.pool);
  }

  lemma InsertGoesOn(s: State, p: Pid, r: Reg)
    requires p in s.procs && s.procs[p].Allocated? && s.procs[p].exit == r
    ensures var t := DoInsert(s, p); GoesOn(s, t, p, r) && t.procs[p].Attached? && t.t.pool == s.t.pool
  {
  }

  lemma GoesOnProvided(s: State, t: State, p: Pid, r: Reg)
    requires GoesOn(s, t, p, r) && Provided(s, r)
    requires |FreeAddresses(t.t.pool)| == |FreeAddresses(s.t.pool)| - if s.procs[p].Numbered? then 1 else 0
    requires s.procs[p].Picked? ==> t.procs[p].Numbered?
    requires s.procs[p].Numbered? || s.procs[p].Allocated? ==> t.procs[p].Allocated? || t.procs[p].Attached?
    requires s.procs[p].Picked? || s.procs[p].Numbered? || s.procs[p].Allocated?
    ensures Provided(t, r) && Claims(t.procs, r) == Claims(s.procs, r)
  {
    if s.procs[p].Numbered? {
      assert Waiting(t.procs, r) == Waiting(s.procs, r) - {p};
    } else {
      assert Waiting(t.procs, r) == Waiting(s.procs, r);
    }
  }

  /** Steps an admission still has to take before its session is in the map. */
  function Left(c: Proc): nat {
    if c.Picked? then 3 else if c.Numbered? then 2 else if c.Allocated? then 1 else 0
  }

  /** One step of an admission for which there is an address. */
  lemma Forward(s: State, p: Pid, r: Reg) returns (step: Step)
    requires s.t.pool.Valid() && Provided(s, r) && p in Underway(s.procs, r)
    ensures !step.Pick? && Enabled(s, step)
    ensures var t := Do(s, step);
            && GoesOn(s, t, p, r) && t.t.pool.Valid() && Provided(t, r) && Claims(t.procs, r) == Claims(s.procs, r)
            && Left(t.procs[p]) < Left(s.procs[p]) && (t.procs[p].Attached? || p in Underway(t.procs, r))
  {
    var c := s.procs[p];
    if c.Picked? {
      step := Number(p);
      NumberGoesOn(s, p, r);
    } else if c.Numbered? {
      step := Allocate(p);
      assert p in Waiting(s.procs, r);
      AllocateGoesOn(s, p, r);
    } else {
      step := InsertSession(p);
      InsertGoesOn(s, p, r);
    }
    GoesOnProvided(s, Do(s, step), p, r);
  }

  lemma GoesOnTwice(s: State, t: State, u: State, p: Pid, r: Reg)
    requires GoesOn(s, t, p, r) && GoesOn(t, u, p, r)
    ensures GoesOn(s, u, p, r)
  {
  }

  /** An admission goes all the way. */
  lemma {:induction false} Attaches(s: State, p: Pid, r: Reg) returns (steps: seq<Step>)
    requires s.t.pool.Valid() && Provided(s, r) && p in Underway(s.procs, r)
    ensures IsRun(s, steps) && NoPicks(steps, r)
    ensures var t := Exec(s, steps);
            && t.t.pool.Valid() && GoesOn(s, t, p, r) && t.procs[p].Attached?
            && Provided(t, r) && Claims(t.procs, r) == Claims(s.procs, r)
    decreases Left(s.procs[p])
  {
    var step := Forward(s, p, r);
    var t := Do(s, step);
    var rest := [];
    if !t.procs[p].Attached? {
      rest := Attaches(t, p, r);
      GoesOnTwice(s, t, Exec(t, rest), p, r);
    }
    steps := [step] + rest;
    assert steps[1..] == rest;
  }

  /** All admissions to r under way go all the way. */
  lemma {:induction false} AllAttach(s: State, r: Reg) returns (steps: seq<Step>)
    requires s.t.pool.Valid() && Provided(s, r)
    ensures IsRun(s, steps) && NoPicks(steps, r)
    ensures var t := Exec(s, steps); Underway(t.procs, r) == {} && Claims(t.procs, r) == Claims(s.procs, r)
    decreases |Underway(s.procs, r)|
  {
    steps := [];
    if p :| p in Underway(s.procs, r) {
      var first := Attaches(s, p, r);
      var t := Exec(s, first);
      assert Underway(t.procs, r) == Underway(s.procs, r) - {p};
      var rest := AllAttach(t, r);
      RunsOn(s, first, rest);
      steps := first + rest;
    }
  }

  lemma {:induction false} RunsOn(s: State, a: seq<Step>, b: seq<Step>)
    requires IsRun(s, a) && IsRun(Exec(s, a), b)
    ensures IsRun(s, a + b) && Exec(s, a + b) == Exec(Exec(s, a), b)
    decreases |a|
  {
    if a == [] {
      assert a + b == b;
    } else {
      RunsOn(Do(s, a[0]), a[1..], b);
      assert (a + b)[1..] == a[1..] + b;
    }
  }

  /** With no admission under way every claim is a fresh session. */
  lemma ClaimsAreNewSessions(s: State, r: Reg)
    requires ActiveLinked(s.t.sessions, s.lives, s.procs) && Underway(s.procs, r) == {}
    ensures |Claims(s.procs, r)| <= |NewSessions(s, r)|
  {
    var claims := Claims(s.procs, r);
    forall p | p in claims ensures s.procs[p].HasSession() && s.procs[p].sid in NewSessions(s, r) {
      assert p !in Underway(s.procs, r);
    }
    InjectionBound(claims, NewSessions(s, r), map p | p in claims :: s.procs[p].sid);
  }

  /**
   While there are addresses for the admissions under way, the sessions admitted to an exit stay within its capacity
   in every continuation without another pick of it if and only if the claims on it do now.
   */
  lemma StaysWithinIff(s: State, r: Reg)
    requires Inv(s) && r in s.t.info && Provided(s, r)
    ensures StaysWithin(s, r) <==> |Claims(s.procs, r)| <= s.t.info[r].capacity
  {
    if |Claims(s.procs, r)| <= s.t.info[r].capacity {
      forall steps | IsRun(s, steps) && NoPicks(steps, r)
        ensures |NewSessions(Exec(s, steps), r)| <= s.t.info[r].capacity
      {
        ClaimsRun(s, steps, r);
        NewSessionsAreClaims(Exec(s, steps), r);
      }
    } else {
      var steps := AllAttach(s, r);
      InvRun(s, steps);
      ClaimsAreNewSessions(Exec(s, steps), r);
    }
  }

  /** So a pick is safe if and only if it finds room among the claims, counted or not. */
  lemma PickIsSafeIff(s: State, r: Reg, user: string, key: string)
    requires Inv(s) && Enabled(s, Pick(r, user, key)) && |Waiting(s.procs, r)| < |FreeAddresses(s.t.pool)|
    ensures StaysWithin(Do(s, Pick(r, user, key)), r) <==> |Claims(s.procs, r)| < s.t.info[r].capacity
  {
    var t := Do(s, Pick(r, user, key));
    InvStep(s, Pick(r, user, key));
    ClaimsPick(s.procs, s.nextPid, Picked(r, user, key), r);
    WaitingPick(s, r, user, key);
    StaysWithinIff(t, r);
  }

  lemma WaitingPick(s: State, r: Reg, user: string, key: string)
    requires s.t.pool.Valid() && s.nextPid !in s.procs && Enabled(s, Pick(r, user, key))
    requires |Waiting(s.procs, r)| < |FreeAddresses(s.t.pool)|
    ensures Provided(Do(s, Pick(r, user, key)), r)
  {
    assert Waiting(Do(s, Pick(r, user, key)).procs, r) == Waiting(s.procs, r) + {s.nextPid};
  }
}

/**
 Concrete runs in which a property fails once its condition is dropped: a late suspension, an address
 announced again too early, a displaced session, overlapping admissions.
 */
module BrokerWitnesses {
  import opened Basics
  import opened IpPool
  import opened Messages
  import opened ExitTable
  import opened BrokerState
  import opened BrokerLinks
  import opened BrokerCapacity
  import opened BrokerAddresses

  const TTL := 10
  const INFO := ExitInfo("e", "us", 2)
  const CLIENT := Ident(1, "u", "k", "e")

  // Pools over prefixes at address 0: six hosts, two hosts, and two hosts of which one is reserved.
  const SIX_HOSTS := PoolState(0, 8, {}, {}, 1)
  const TWO_HOSTS := PoolState(0, 4, {}, {}, 1)
  const ONE_HOST := PoolState(0, 4, {2}, {}, 1)

  /** They are pools that New builds. */
  lemma PoolsAreNew()
    ensures SIX_HOSTS == PoolState(Masked(0, 3), Pow2(3), {}, {}, Masked(0, 3) + 1)
    ensures TWO_HOSTS == PoolState(Masked(0, 2), Pow2(2), {}, {}, Masked(0, 2) + 1)
    ensures ONE_HOST == PoolState(Masked(0, 2), Pow2(2), {2}, {}, Masked(0, 2) + 1)
  {
  }

  /** The pool's first address is 1. */
  predicate Fresh(pool: PoolState) {
    pool.Valid() && pool.Candidate() == Some(1) && pool.Take(1).Valid()
  }

  lemma FirstAddresses()
    ensures Fresh(SIX_HOSTS) && SIX_HOSTS.Take(1).Candidate() == Some(2)
    ensures Fresh(TWO_HOSTS) && TWO_HOSTS.Take(1).Candidate() == Some(2)
    ensures Fresh(ONE_HOST) && ONE_HOST.Take(1).Drop(1).Valid() && ONE_HOST.Take(1).Drop(1).Candidate() == Some(1)
  {
  }

  /** One exit and one client of user u with resume key k, relaying. */
  function OneClient(pool: PoolState): State {
    State(0,
          Tables(TTL, map["e" := 0], map[0 := INFO], map[0 := 1],
                 map[1 := Session(1, CLIENT, false, 0, None, 0, 0)], map[], pool.Take(1), 1, 1),
          map[0 := Relaying(1, 0, false)], 1, map[0 := [SessionStart(1, 1)]],
          map[1 := Held(CLIENT, Active(0, 0))], {}, {})
  }

  lemma Cons(s: State, step: Step, rest: seq<Step>)
    requires s.t.pool.Valid() && Enabled(s, step) && IsRun(Do(s, step), rest)
    ensures IsRun(s, [step] + rest) && Exec(s, [step] + rest) == Exec(Do(s, step), rest)
  {
  }

  /** The same client with its address in hand, not yet in the map. */
  function OneAddress(pool: PoolState): State {
    State(0, Tables(TTL, map["e" := 0], map[0 := INFO], map[0 := 0], map[], map[], pool.Take(1), 1, 1),
          map[0 := Allocated(1, 0, CLIENT)], 1, map[0 := []], map[1 := Held(CLIENT, InFlight(0))], {}, {})
  }

  lemma OneAddressReached(pool: PoolState) returns (steps: seq<Step>)
    requires Fresh(pool)
    ensures IsRun(Init(pool, TTL), steps) && Exec(Init(pool, TTL), steps) == OneAddress(pool)
  {
    var s0 := Init(pool, TTL);
    var s1 := Do(s0, Register(INFO));
    var s2 := Do(s1, Pick(0, "u", "k"));
    var s3 := Do(s2, Number(0));
    var s4 := Do(s3, Allocate(0));
    assert s4.procs == OneAddress(pool).procs && s4.lives == OneAddress(pool).lives;
    Cons(s3, Allocate(0), []);
    Cons(s2, Number(0), [Allocate(0)] + []);
    Cons(s1, Pick(0, "u", "k"), [Number(0)] + ([Allocate(0)] + []));
    Cons(s0, Register(INFO), [Pick(0, "u", "k")] + ([Number(0)] + ([Allocate(0)] + [])));
    steps := [Register(INFO)] + ([Pick(0, "u", "k")] + ([Number(0)] + ([Allocate(0)] + [])));
  }

  lemma OneClientReached(pool: PoolState) returns (steps: seq<Step>)
    requires Fresh(pool)
    ensures IsRun(Init(pool, TTL), steps) && Exec(Init(pool, TTL), steps) == OneClient(pool)
  {
    var first := OneAddressReached(pool);
    var more := OneClientNext(pool);
    RunsOn(Init(pool, TTL), first, more);
    steps := first + more;
  }

  lemma OneClientNext(pool: PoolState) returns (steps: seq<Step>)
    requires OneAddress(pool).t.pool.Valid()
    ensures IsRun(OneAddress(pool), steps) && Exec(OneAddress(pool), steps) == OneClient(pool)
  {
    var s4 := OneAddress(pool);
    var s5 := Do(s4, InsertSession(0));
    var s6 := Do(s5, Count(0));
    var s7 := Do(s6, WriteStart(0, true));
    assert [] + [SessionStart(1, 1)] == [SessionStart(1, 1)];
    assert s7.t.sessions == OneClient(pool).t.sessions && s7.t.active == OneClient(pool).t.active;
    assert s7.procs == OneClient(pool).procs && s7.lives == OneClient(pool).lives && s7.logs == OneClient(pool).logs;
    assert s7.late == {};
    Cons(s6, WriteStart(0, true), []);
    Cons(s5, Count(0), [WriteStart(0, true)] + []);
    Cons(s4, InsertSession(0), [Count(0)] + ([WriteStart(0, true)] + []));
    steps := [InsertSession(0)] + ([Count(0)] + ([WriteStart(0, true)] + []));
  }

  /** The client dropped and came back; the suspension of its first connection is not yet written. */
  function Back(): State {
    State(0,
          Tables(TTL, map["e" := 0], map[0 := INFO], map[0 := 0],
                 map[1 := Session(1, CLIENT, false, 0, Some(1), 2, 0)], map[], SIX_HOSTS.Take(1), 1, 1),
          map[0 := Suspending(1, 0), 1 := Done, 2 := Proc.Attached(1, 0, 1, true)], 3, map[0 := [SessionStart(1, 1)]],
          map[1 := Held(CLIENT, Active(2, 0))], {}, {})
  }

  /** The client dropped; its suspension is not yet written. */
  function Away(): State {
    State(0,
          Tables(TTL, map["e" := 0], map[0 := INFO], map[0 := 0], map[],
                 map["k" := Session(1, CLIENT, true, 0, Some(1), 0, 0)], SIX_HOSTS.Take(1), 1, 1),
          map[0 := Suspending(1, 0), 1 := Armed(1, "k", TTL)], 2, map[0 := [SessionStart(1, 1)]],
          map[1 := Held(CLIENT, Parked(0, 0, 1))], {}, {})
  }

  lemma GoesAway() returns (steps: seq<Step>)
    requires OneClient(SIX_HOSTS).t.pool.Valid()
    ensures IsRun(OneClient(SIX_HOSTS), steps) && Exec(OneClient(SIX_HOSTS), steps) == Away()
  {
    var s := Do(OneClient(SIX_HOSTS), Drop(0, false));
    assert s.procs == Away().procs && s.lives == Away().lives && s.t.active == Away().t.active;
    assert s.t.sessions == map[] && s.t.parked == Away().t.parked;
    Cons(OneClient(SIX_HOSTS), Drop(0, false), []);
    steps := [Drop(0, false)] + [];
  }

  lemma ComesBack() returns (steps: seq<Step>)
    requires Away().t.pool.Valid()
    ensures IsRun(Away(), steps) && Exec(Away(), steps) == Back()
  {
    var s := Do(Away(), ResumeSession("k", "u"));
    assert s.procs == Back().procs && s.lives == Back().lives;
    assert s.t.sessions == Back().t.sessions && s.t.parked == map[];
    Cons(Away(), ResumeSession("k", "u"), []);
    steps := [ResumeSession("k", "u")] + [];
  }

  /** Every write has been made, session 1 is running, and the exit shows it as suspended. */
  predicate ShownSuspended(s: State) {
    && 1 in s.t.sessions && s.t.sessions[1].client in s.procs && s.procs[s.t.sessions[1].client].Relaying?
    && (forall p :: p in s.procs ==> !s.procs[p].WritesTo(0))
    && 0 in s.logs && 1 in Replay(s.logs[0]).sessions && Replay(s.logs[0]).sessions[1].suspended
  }

  lemma LateLog()
    ensures Replay([SessionStart(1, 1), SessionStart(1, 1), SessionSuspend(1)]).sessions
            == map[1 := ExitSession(1, true)]
  {
    var log := [SessionStart(1, 1)];
    assert [] + [SessionStart(1, 1)] == log;
    ReplayAppend([], SessionStart(1, 1));
    ReplayAppend(log, SessionStart(1, 1));
    ReplayAppend(log + [SessionStart(1, 1)], SessionSuspend(1));
    assert log + [SessionStart(1, 1)] + [SessionSuspend(1)]
           == [SessionStart(1, 1), SessionStart(1, 1), SessionSuspend(1)];
  }

  /** The suspension has overtaken the new start. */
  function Overtaken(): State {
    Back().(t := Back().t.(active := map[0 := 1]), procs := map[0 := Done, 1 := Done, 2 := Relaying(1, 0, true)],
            logs := map[0 := [SessionStart(1, 1), SessionStart(1, 1), SessionSuspend(1)]], late := {1})
  }

  lemma OvertakenShows()
    ensures ShownSuspended(Overtaken())
  {
    LateLog();
  }

  lemma BackNext() returns (steps: seq<Step>)
    requires Back().t.pool.Valid()
    ensures IsRun(Back(), steps) && Exec(Back(), steps) == Overtaken()
  {
    var s2 := Back();
    var s3 := Do(s2, Count(2));
    var s4 := Do(s3, WriteStart(2, true));
    var s5 := Do(s4, WriteSuspend(0, true));
    assert s5.logs[0] == [SessionStart(1, 1), SessionStart(1, 1), SessionSuspend(1)];
    assert s5.logs == Overtaken().logs && s5.procs == Overtaken().procs;
    assert s5.t.active == map[0 := 1] && s5.late == {1};
    Cons(s4, WriteSuspend(0, true), []);
    Cons(s3, WriteStart(2, true), [WriteSuspend(0, true)] + []);
    Cons(s2, Count(2), [WriteStart(2, true)] + ([WriteSuspend(0, true)] + []));
    steps := [Count(2)] + ([WriteStart(2, true)] + ([WriteSuspend(0, true)] + []));
  }

  /** A suspension written after the session was resumed makes the exit show a running session as suspended. */
  lemma LateSuspensionHappens() returns (steps: seq<Step>)
    ensures IsRun(Init(SIX_HOSTS, TTL), steps) && ShownSuspended(Exec(Init(SIX_HOSTS, TTL), steps))
  {
    FirstAddresses();
    var a := OneClientReached(SIX_HOSTS);
    var b := GoesAway();
    var c := ComesBack();
    var d := BackNext();
    OvertakenShows();
    RunsOn(Init(SIX_HOSTS, TTL), a, b);
    RunsOn(Init(SIX_HOSTS, TTL), a + b, c);
    RunsOn(Init(SIX_HOSTS, TTL), a + b + c, d);
    steps := a + b + c + d;
  }

  // ---- an address announced again before its old holder is gone from the exit ----

  /** The first client left for good and another one holds its address; the end is not yet written. */
  function Reused(): State {
    State(0, Tables(TTL, map["e" := 0], map[0 := INFO], map[0 := 0], map[], map[],
                    ONE_HOST.Take(1).Drop(1).Take(1), 1, 2),
          map[0 := Ending(1, 0), 1 := Allocated(2, 0, Ident(1, "v", "", "e"))], 2, map[0 := [SessionStart(1, 1)]],
          map[1 := Life.Ended(CLIENT, 0, 0), 2 := Held(Ident(1, "v", "", "e"), InFlight(1))], {}, {})
  }

  /** The first client left for good; its end is not yet written. */
  function Vacated(): State {
    State(0, Tables(TTL, map["e" := 0], map[0 := INFO], map[0 := 0], map[], map[], ONE_HOST.Take(1).Drop(1), 1, 1),
          map[0 := Ending(1, 0)], 1, map[0 := [SessionStart(1, 1)]], map[1 := Life.Ended(CLIENT, 0, 0)], {}, {})
  }

  lemma FirstLeaves() returns (steps: seq<Step>)
    requires OneClient(ONE_HOST).t.pool.Valid()
    ensures IsRun(OneClient(ONE_HOST), steps) && Exec(OneClient(ONE_HOST), steps) == Vacated()
  {
    var s := Do(OneClient(ONE_HOST), Drop(0, true));
    assert s.procs == Vacated().procs && s.lives == Vacated().lives;
    assert s.t.active == Vacated().t.active && s.t.sessions == map[];
    Cons(OneClient(ONE_HOST), Drop(0, true), []);
    steps := [Drop(0, true)] + [];
  }

  lemma ReusesAddress() returns (steps: seq<Step>)
    requires Vacated().t.pool.Valid() && Vacated().t.pool.Candidate() == Some(1)
    ensures IsRun(Vacated(), steps) && Exec(Vacated(), steps) == Reused()
  {
    var s1 := Vacated();
    var s2 := Do(s1, Pick(0, "v", ""));
    var s3 := Do(s2, Number(1));
    var s4 := Do(s3, Allocate(1));
    assert s4.procs == Reused().procs && s4.lives == Reused().lives;
    Cons(s3, Allocate(1), []);
    Cons(s2, Number(1), [Allocate(1)] + []);
    Cons(s1, Pick(0, "v", ""), [Number(1)] + ([Allocate(1)] + []));
    steps := [Pick(0, "v", "")] + ([Number(1)] + ([Allocate(1)] + []));
  }

  /** Session 2 is running under address 1, every write has been made, and the exit finds nobody under it. */
  predicate Unreachable(s: State) {
    && 2 in s.t.sessions && s.t.sessions[2].ident.addr == 1
    && (forall p :: p in s.procs ==> !s.procs[p].WritesTo(0))
    && 0 in s.logs && 2 in Replay(s.logs[0]).sessions && 1 !in Replay(s.logs[0]).byIP
  }

  lemma ReuseLog()
    ensures Replay([SessionStart(1, 1), SessionStart(2, 1), SessionEnd(1)])
            == Index(map[2 := ExitSession(1, false)], map[])
  {
    var log := [SessionStart(1, 1)];
    assert [] + [SessionStart(1, 1)] == log;
    ReplayAppend([], SessionStart(1, 1));
    ReplayAppend(log, SessionStart(2, 1));
    ReplayAppend(log + [SessionStart(2, 1)], SessionEnd(1));
    assert log + [SessionStart(2, 1)] + [SessionEnd(1)] == [SessionStart(1, 1), SessionStart(2, 1), SessionEnd(1)];
  }

  /** Both are written: the start of session 2, then the end of session 1. */
  function Rewritten(): State {
    Reused().(t := Reused().t.(active := map[0 := 1],
                               sessions := map[2 := Session(2, Ident(1, "v", "", "e"), false, 0, None, 1, 0)]),
              procs := map[0 := Done, 1 := Relaying(2, 0, false)],
              logs := map[0 := [SessionStart(1, 1), SessionStart(2, 1), SessionEnd(1)]],
              lives := map[1 := Life.Ended(CLIENT, 0, 0), 2 := Held(Ident(1, "v", "", "e"), Active(1, 0))])
  }

  lemma RewrittenLosesRoute()
    ensures Unreachable(Rewritten())
  {
    ReuseLog();
  }

  function ReusedStarted(): State {
    Rewritten().(procs := map[0 := Ending(1, 0), 1 := Starting(2, 0, 1, false)], logs := map[0 := [SessionStart(1, 1)]])
  }

  lemma ReusedInserts() returns (steps: seq<Step>)
    requires Reused().t.pool.Valid()
    ensures IsRun(Reused(), steps) && Exec(Reused(), steps) == ReusedStarted()
  {
    var s4 := Reused();
    var s5 := Do(s4, InsertSession(1));
    var s6 := Do(s5, Count(1));
    assert s6.procs == ReusedStarted().procs && s6.lives == ReusedStarted().lives;
    assert s6.t.active == map[0 := 1] && s6.t.sessions == ReusedStarted().t.sessions;
    Cons(s5, Count(1), []);
    Cons(s4, InsertSession(1), [Count(1)] + []);
    steps := [InsertSession(1)] + ([Count(1)] + []);
  }

  lemma ReusedWrites() returns (steps: seq<Step>)
    requires ReusedStarted().t.pool.Valid()
    ensures IsRun(ReusedStarted(), steps) && Exec(ReusedStarted(), steps) == Rewritten()
  {
    var s6 := ReusedStarted();
    var s7 := Do(s6, WriteStart(1, true));
    var s8 := Do(s7, WriteEnd(0, true));
    assert s8.logs[0] == [SessionStart(1, 1), SessionStart(2, 1), SessionEnd(1)];
    assert s8.logs == Rewritten().logs && s8.procs == Rewritten().procs && s8.late == {};
    Cons(s7, WriteEnd(0, true), []);
    Cons(s6, WriteStart(1, true), [WriteEnd(0, true)] + []);
    steps := [WriteStart(1, true)] + ([WriteEnd(0, true)] + []);
  }

  /** The address is released before the end is written, so a reused address can lose its route on the exit. */
  lemma EarlyReuseHappens() returns (steps: seq<Step>)
    ensures IsRun(Init(ONE_HOST, TTL), steps) && Unreachable(Exec(Init(ONE_HOST, TTL), steps))
  {
    FirstAddresses();
    var a := OneClientReached(ONE_HOST);
    var b := FirstLeaves();
    var c := ReusesAddress();
    var d := ReusedInserts();
    var e := ReusedWrites();
    RewrittenLosesRoute();
    RunsOn(Init(ONE_HOST, TTL), a, b);
    RunsOn(Init(ONE_HOST, TTL), a + b, c);
    RunsOn(Init(ONE_HOST, TTL), a + b + c, d);
    RunsOn(Init(ONE_HOST, TTL), a + b + c + d, e);
    steps := a + b + c + d + e;
  }

  // ---- a displaced session keeps its address ----

  const SECOND := Ident(2, "u", "k", "e")

  /** Two connections of one user with the same resume key, both about to relay. */
  function TwoClients(): State {
    State(0,
          Tables(TTL, map["e" := 0], map[0 := INFO], map[0 := 2],
                 map[1 := Session(1, CLIENT, false, 0, None, 0, 0), 2 := Session(2, SECOND, false, 0, None, 1, 0)],
                 map[], TWO_HOSTS.Take(1).Take(2), 1, 2),
          map[0 := Relaying(1, 0, false), 1 := Relaying(2, 0, false)], 2,
          map[0 := [SessionStart(1, 1), SessionStart(2, 2)]],
          map[1 := Held(CLIENT, Active(0, 0)), 2 := Held(SECOND, Active(1, 0))], {}, {})
  }

  function SecondInHand(): State {
    OneClient(TWO_HOSTS).(t := OneClient(TWO_HOSTS).t.(pool := TWO_HOSTS.Take(1).Take(2), lastSid := 2),
                  procs := map[0 := Relaying(1, 0, false), 1 := Allocated(2, 0, SECOND)], nextPid := 2,
                  lives := map[1 := Held(CLIENT, Active(0, 0)), 2 := Held(SECOND, InFlight(1))])
  }

  lemma SecondArrives() returns (steps: seq<Step>)
    ensures IsRun(OneClient(TWO_HOSTS), steps) && Exec(OneClient(TWO_HOSTS), steps) == SecondInHand()
  {
    FirstAddresses();
    var s0 := OneClient(TWO_HOSTS);
    var s1 := Do(s0, Pick(0, "u", "k"));
    var s2 := Do(s1, Number(1));
    var s3 := Do(s2, Allocate(1));
    assert s3.procs == SecondInHand().procs && s3.lives == SecondInHand().lives;
    Cons(s2, Allocate(1), []);
    Cons(s1, Number(1), [Allocate(1)] + []);
    Cons(s0, Pick(0, "u", "k"), [Number(1)] + ([Allocate(1)] + []));
    steps := [Pick(0, "u", "k")] + ([Number(1)] + ([Allocate(1)] + []));
  }

  lemma SecondClient() returns (steps: seq<Step>)
    requires SecondInHand().t.pool.Valid()
    ensures IsRun(SecondInHand(), steps) && Exec(SecondInHand(), steps) == TwoClients()
  {
    var s3 := SecondInHand();
    var s4 := Do(s3, InsertSession(1));
    var s5 := Do(s4, Count(1));
    var s6 := Do(s5, WriteStart(1, true));
    assert s6.procs == TwoClients().procs && s6.lives == TwoClients().lives && s6.late == {};
    assert s6.t.active == TwoClients().t.active && s6.t.sessions == TwoClients().t.sessions;
    assert [SessionStart(1, 1)] + [SessionStart(2, 2)] == [SessionStart(1, 1), SessionStart(2, 2)];
    assert s6.logs == TwoClients().logs;
    Cons(s5, WriteStart(1, true), []);
    Cons(s4, Count(1), [WriteStart(1, true)] + []);
    Cons(s3, InsertSession(1), [Count(1)] + ([WriteStart(1, true)] + []));
    steps := [InsertSession(1)] + ([Count(1)] + ([WriteStart(1, true)] + []));
  }

  /** Both dropped: the second park displaced the first, and its window is over. */
  function OneParked(): State {
    State(TTL,
          Tables(TTL, map["e" := 0], map[0 := INFO], map[0 := 0], map[],
                 map["k" := Session(2, SECOND, true, 0, Some(3), 1, 0)], TWO_HOSTS.Take(1).Take(2), 1, 2),
          map[0 := Suspending(1, 0), 1 := Suspending(2, 0), 2 := Armed(1, "k", TTL), 3 := Armed(2, "k", TTL)], 4,
          map[0 := [SessionStart(1, 1), SessionStart(2, 2)]],
          map[1 := Held(CLIENT, Displaced(0, 0)), 2 := Held(SECOND, Parked(1, 0, 3))], {}, {})
  }

  function OneDropped(): State {
    TwoClients().(t := TwoClients().t.(active := map[0 := 1],
                                       sessions := map[2 := Session(2, SECOND, false, 0, None, 1, 0)],
                                       parked := map["k" := Session(1, CLIENT, true, 0, Some(2), 0, 0)]),
                  procs := map[0 := Suspending(1, 0), 1 := Relaying(2, 0, false), 2 := Armed(1, "k", TTL)],
                  nextPid := 3,
                  lives := map[1 := Held(CLIENT, Parked(0, 0, 2)), 2 := Held(SECOND, Active(1, 0))])
  }

  lemma FirstDrops()
    ensures Enabled(TwoClients(), Drop(0, false)) && DoDrop(TwoClients(), 0, false) == OneDropped()
  {
    ParksFirst();
    DropParks(TwoClients(), 0, false);
  }

  lemma ParksFirst()
    ensures NewProc(ParkActive(TwoClients(), 0), Armed(1, "k", TTL)) == OneDropped()
  {
    FirstTables();
    var s := NewProc(ParkActive(TwoClients(), 0), Armed(1, "k", TTL));
    assert s.procs == OneDropped().procs && s.lives == OneDropped().lives;
  }

  lemma FirstTables()
    ensures Park(TwoClients().t, TwoClients().t.sessions[1], 0, 0, 2) == OneDropped().t
  {
    var t := Park(TwoClients().t, TwoClients().t.sessions[1], 0, 0, 2);
    assert t.active == OneDropped().t.active && t.sessions == OneDropped().t.sessions
           && t.parked == OneDropped().t.parked;
  }

  function Cleared(): State {
    OneDropped().(t := OneDropped().t.(parked := map[]),
                  lives := map[1 := Held(CLIENT, Displaced(0, 0)), 2 := Held(SECOND, Active(1, 0))])
  }

  lemma ClearsKey()
    ensures Displace(OneDropped(), "k") == Cleared()
  {
    var s := Displace(OneDropped(), "k");
    assert s.t.parked == map[] && s.lives == Cleared().lives;
  }

  lemma ParksSecond()
    ensures NewProc(ParkActive(Cleared(), 1), Armed(2, "k", TTL)).(now := TTL) == OneParked()
  {
    var s := NewProc(ParkActive(Cleared(), 1), Armed(2, "k", TTL));
    assert s.procs == OneParked().procs && s.lives == OneParked().lives && s.t.active == OneParked().t.active;
    assert s.t.sessions == map[] && s.t.parked == OneParked().t.parked;
  }

  lemma SecondDrops()
    ensures Enabled(OneDropped(), Drop(1, false))
    ensures DoDrop(OneDropped(), 1, false).(now := TTL) == OneParked()
  {
    ClearsKey();
    ParksSecond();
    DropParks(OneDropped(), 1, false);
  }

  lemma BothDrop() returns (steps: seq<Step>)
    requires TwoClients().t.pool.Valid()
    ensures IsRun(TwoClients(), steps) && Exec(TwoClients(), steps) == OneParked()
  {
    FirstDrops();
    SecondDrops();
    var s2 := DoDrop(OneDropped(), 1, false);
    Cons(s2, Tick(TTL), []);
    Cons(OneDropped(), Drop(1, false), [Tick(TTL)] + []);
    Cons(TwoClients(), Drop(0, false), [Drop(1, false)] + ([Tick(TTL)] + []));
    steps := [Drop(0, false)] + ([Drop(1, false)] + ([Tick(TTL)] + []));
  }

  lemma LastExpires() returns (steps: seq<Step>)
    requires OneParked().t.pool.Valid()
    ensures IsRun(OneParked(), steps) && Empty(Exec(OneParked(), steps)) && 1 in Exec(OneParked(), steps).t.pool.used
  {
    var s0 := OneParked();
    var s1 := Do(s0, Fire(3));
    var s2 := Do(s1, ExpirePark(3));
    assert s2.t.parked == map[];
    Cons(s1, ExpirePark(3), []);
    Cons(s0, Fire(3), [ExpirePark(3)] + []);
    steps := [Fire(3)] + ([ExpirePark(3)] + []);
  }

  /** Two connections with one resume key leave an empty broker whose pool is not empty. */
  lemma DisplacementLeaks() returns (steps: seq<Step>)
    ensures IsRun(Init(TWO_HOSTS, TTL), steps)
    ensures Empty(Exec(Init(TWO_HOSTS, TTL), steps)) && 1 in Exec(Init(TWO_HOSTS, TTL), steps).t.pool.used
  {
    FirstAddresses();
    var a := OneClientReached(TWO_HOSTS);
    var b := SecondArrives();
    var c := SecondClient();
    var d := BothDrop();
    var e := LastExpires();
    RunsOn(Init(TWO_HOSTS, TTL), a, b);
    RunsOn(Init(TWO_HOSTS, TTL), a + b, c);
    RunsOn(Init(TWO_HOSTS, TTL), a + b + c, d);
    RunsOn(Init(TWO_HOSTS, TTL), a + b + c + d, e);
    steps := a + b + c + d + e;
  }

  // ---- overlapping admissions ----

  const SMALL := ExitInfo("e", "us", 1)

  /** Two clients have picked the only slot of an exit. */
  function Picking(): State {
    State(0, Tables(TTL, map["e" := 0], map[0 := SMALL], map[0 := 0], map[], map[], SIX_HOSTS, 1, 0),
          map[0 := Picked(0, "u", "k"), 1 := Picked(0, "v", "")], 2, map[0 := []], map[], {}, {})
  }

  /** Both have a session number, and the first an address. */
  function Racing(): State {
    Picking().(t := Picking().t.(pool := SIX_HOSTS.Take(1), lastSid := 2),
               procs := map[0 := Allocated(1, 0, CLIENT), 1 := Numbered(2, 0, "v", "")],
               lives := map[1 := Held(CLIENT, InFlight(0)), 2 := Issued(1)])
  }

  const OTHER := Ident(2, "v", "", "e")

  /** Both have an address. */
  function Both(): State {
    Racing().(t := Racing().t.(pool := SIX_HOSTS.Take(1).Take(2)),
              procs := map[0 := Allocated(1, 0, CLIENT), 1 := Allocated(2, 0, OTHER)],
              lives := map[1 := Held(CLIENT, InFlight(0)), 2 := Held(OTHER, InFlight(1))])
  }

  /** Both sessions are attached and neither is counted yet. */
  function Raced(): State {
    Both().(t := Both().t.(sessions := map[1 := Session(1, CLIENT, false, 0, None, 0, 0),
                                           2 := Session(2, OTHER, false, 0, None, 1, 0)]),
            procs := map[0 := Proc.Attached(1, 0, 1, false), 1 := Proc.Attached(2, 0, 2, false)],
            lives := map[1 := Held(CLIENT, Active(0, 0)), 2 := Held(OTHER, Active(1, 0))])
  }

  lemma RacedOverflows()
    ensures NewSessions(Raced(), 0) == {1, 2}
  {
  }

  lemma BothPick() returns (steps: seq<Step>)
    requires SIX_HOSTS.Valid()
    ensures IsRun(Init(SIX_HOSTS, TTL), steps) && Exec(Init(SIX_HOSTS, TTL), steps) == Picking()
  {
    var s0 := Init(SIX_HOSTS, TTL);
    var s1 := Do(s0, Register(SMALL));
    var s2 := Do(s1, Pick(0, "u", "k"));
    var s3 := Do(s2, Pick(0, "v", ""));
    assert s3.procs == Picking().procs;
    Cons(s2, Pick(0, "v", ""), []);
    Cons(s1, Pick(0, "u", "k"), [Pick(0, "v", "")] + []);
    Cons(s0, Register(SMALL), [Pick(0, "u", "k")] + ([Pick(0, "v", "")] + []));
    steps := [Register(SMALL)] + ([Pick(0, "u", "k")] + ([Pick(0, "v", "")] + []));
  }

  lemma RaceStarts() returns (steps: seq<Step>)
    requires Fresh(SIX_HOSTS)
    ensures IsRun(Picking(), steps) && Exec(Picking(), steps) == Racing()
  {
    var s3 := Picking();
    var s4 := Do(s3, Number(0));
    var s5 := Do(s4, Number(1));
    var s6 := Do(s5, Allocate(0));
    assert s6.procs == Racing().procs && s6.lives == Racing().lives;
    Cons(s5, Allocate(0), []);
    Cons(s4, Number(1), [Allocate(0)] + []);
    Cons(s3, Number(0), [Number(1)] + ([Allocate(0)] + []));
    steps := [Number(0)] + ([Number(1)] + ([Allocate(0)] + []));
  }

  lemma RaceGoesOn() returns (steps: seq<Step>)
    requires SIX_HOSTS.Take(1).Valid() && SIX_HOSTS.Take(1).Candidate() == Some(2)
    ensures IsRun(Racing(), steps) && Exec(Racing(), steps) == Both()
  {
    var s := Do(Racing(), Allocate(1));
    assert s.procs == Both().procs && s.lives == Both().lives;
    Cons(Racing(), Allocate(1), []);
    steps := [Allocate(1)] + [];
  }

  lemma RaceEnds() returns (steps: seq<Step>)
    requires Both().t.pool.Valid()
    ensures IsRun(Both(), steps) && Exec(Both(), steps) == Raced()
  {
    var s7 := Both();
    var s8 := Do(s7, InsertSession(0));
    var s9 := Do(s8, InsertSession(1));
    assert s9.t.sessions == Raced().t.sessions && s9.procs == Raced().procs && s9.lives == Raced().lives;
    Cons(s8, InsertSession(1), []);
    Cons(s7, InsertSession(0), [InsertSession(1)] + []);
    steps := [InsertSession(0)] + ([InsertSession(1)] + []);
  }

  /** Two clients that pick before either is counted put two fresh sessions on an exit of capacity one. */
  lemma OverlappingAdmissionsExceedCapacity() returns (steps: seq<Step>)
    ensures IsRun(Init(SIX_HOSTS, TTL), steps)
    ensures var s := Exec(Init(SIX_HOSTS, TTL), steps);
            0 in s.t.info && s.t.info[0].capacity == 1 && |NewSessions(s, 0)| == 2
  {
    FirstAddresses();
    var a := BothPick();
    var b := RaceStarts();
    var c := RaceGoesOn();
    var d := RaceEnds();
    RacedOverflows();
    RunsOn(Init(SIX_HOSTS, TTL), a, b);
    RunsOn(Init(SIX_HOSTS, TTL), a + b, c);
    RunsOn(Init(SIX_HOSTS, TTL), a + b + c, d);
    steps := a + b + c + d;
  }
}

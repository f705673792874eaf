/**
 The broker object of cmd/revquic-broker/main.go: one method per critical section, each proved to do to
 the broker's maps what the corresponding step of the protocol does.
 */
module BrokerObject {
  import opened Basics
  import opened IpPool
  import opened Messages
  import opened BrokerState
  import opened BrokerLinks
  import opened BrokerTheorems
  import opened BrokerExits
  import LB = LoadBalancer

  // ---- whole critical sections as functions of the tables ----

  function SuspendSection(t: Tables, sid: nat, r: Reg, intentional: bool, now: int, timer: Pid): Tables {
    if sid !in t.sessions then t
    else if Parks(t, t.sessions[sid], intentional) then Park(t, t.sessions[sid], r, now, timer)
    else End(t, t.sessions[sid], r)
  }

  function EndSection(t: Tables, sid: nat, r: Reg): Tables {
    if sid in t.sessions then End(t, t.sessions[sid], r) else t
  }

  function ExpireSection(t: Tables, key: string, sid: nat): Tables {
    if Expires(t, key, sid) then Expire(t, key) else t
  }

  function ResumeSection(t: Tables, key: string, user: string, now: int, pid: Pid): Tables {
    if Resumable(t, key, user, now) then Resume(t, key, pid) else t
  }

  /** The protocol's steps change the tables exactly as these sections do. */
  lemma DropIsSuspendSection(s: State, p: Pid, intentional: bool)
    requires Enabled(s, Drop(p, intentional))
    ensures DoDrop(s, p, intentional).t
            == SuspendSection(s.t, s.procs[p].sid, s.procs[p].exit, intentional, s.now, s.nextPid)
  {
    var sid := s.procs[p].sid;
    if sid in s.t.sessions && Parks(s.t, s.t.sessions[sid], intentional) {
      DropParks(s, p, intentional);
      ParkOverwrites(s.t, s.t.sessions[sid], s.procs[p].exit, s.now, s.nextPid);
    }
  }

  /** Overwriting a key is clearing it and filing under it. */
  lemma ParkOverwrites(t: Tables, s: Session, r: Reg, now: int, timer: Pid)
    ensures Park(t.(parked := t.parked - {s.ident.key}), s, r, now, timer) == Park(t, s, r, now, timer)
  {
  }

  // ---- choosing an exit ----

  /** Every online exit is a registration with a counter. */
  predicate Registered(t: Tables) {
    ExitsLinked(t.exits, t.info) && t.active.Keys == t.info.Keys
  }

  /** A client may name the exit: unlike the balancer, this takes only zero for unlimited. */
  predicate CanBeNamed(t: Tables, requested: string, region: string)
    requires Registered(t)
  {
    && requested in t.exits
    && var r := t.exits[requested];
       t.info[r].region == region && (t.info[r].capacity == 0 || t.active[r] < t.info[r].capacity)
  }

  /**
   In any run an online exit that announced a negative capacity is unlimited to the balancer and can never be named.
   */
  lemma NegativeCapacityIsNeverNamed(s0: State, steps: seq<Step>, node: string, region: string)
    requires Starts(s0) && IsRun(s0, steps) && Registered(Exec(s0, steps).t)
    requires var t := Exec(s0, steps).t; node in t.exits && t.info[t.exits[node]].capacity < 0
    ensures var t := Exec(s0, steps).t; Eligible(t, t.exits[node]) && !CanBeNamed(t, node, region)
  {
    LoadCounter(s0, steps, Exec(s0, steps).t.exits[node]);
  }

  /** The tables of every run are such. */
  lemma AlwaysRegistered(s0: State, steps: seq<Step>)
    requires Starts(s0) && IsRun(s0, steps)
    ensures Registered(Exec(s0, steps).t)
  {
    InvInit(s0);
    InvRun(s0, steps);
  }

  /** The balancer's view of an online exit. */
  function View(t: Tables, node: string): LB.Node
    requires Registered(t) && node in t.exits
  {
    var r := t.exits[node];
    LB.Node(node, t.info[r].region, t.active[r], t.info[r].capacity)
  }

  /** The nodes are the online exits, each once, with their current load. */
  ghost predicate AreViews(t: Tables, nodes: seq<LB.Node>)
    requires Registered(t)
  {
    && (forall n :: n in t.exits ==> View(t, n) in nodes)
    && (forall v :: v in nodes ==> v.id in t.exits && v == View(t, v.id))
    && LB.DistinctIds(nodes)
  }

  /** The balancer finds an eligible node exactly where the region has an eligible exit. */
  lemma ViewsAgree(t: Tables, nodes: seq<LB.Node>, region: string)
    requires Registered(t) && AreViews(t, nodes)
    ensures (forall n :: n in nodes ==> !LB.Eligible(n, region))
            <==> forall x :: Eligible(t, x) ==> t.info[x].region != region
  {
    forall x | Eligible(t, x) ensures LB.Eligible(View(t, t.info[x].node), region) <==> t.info[x].region == region {
    }
    forall n | n in nodes && LB.Eligible(n, region)
      ensures Eligible(t, t.exits[n.id]) && t.info[t.exits[n.id]].region == region
    {
    }
  }

  /**
   The outcome of balancing: none exactly when no exit of the region has room, else one that has, as the strategy says.
   */
  ghost predicate Balances(t: Tables, region: string, strategy: LB.Strategy, was: nat, r: Option<Reg>, next: nat)
    requires Registered(t)
  {
    && (r.None? <==> forall x :: Eligible(t, x) ==> t.info[x].region != region)
    && (r.Some? ==>
      && Eligible(t, r.value) && t.info[r.value].region == region
      && exists nodes :: AreViews(t, nodes) && LB.PicksBy(strategy, region, nodes, was, t.info[r.value].node))
    && next == if strategy.RoundRobin? && r.Some? then LB.Bumped(was) else was
  }

  /** What Pick promises about the views of the online exits makes its choice an outcome of balancing. */
  lemma PickBalances(t: Tables, nodes: seq<LB.Node>, region: string, strategy: LB.Strategy, rr: nat,
                     chosen: Option<string>, next: nat)
    requires Registered(t) && AreViews(t, nodes)
    requires chosen.None? <==> forall n :: n in nodes ==> !LB.Eligible(n, region)
    requires chosen.Some? ==> LB.PicksBy(strategy, region, nodes, rr, chosen.value)
    requires next == if strategy.RoundRobin? && chosen.Some? then LB.Bumped(rr) else rr
    ensures chosen.Some? ==> chosen.value in t.exits
    ensures Balances(t, region, strategy, rr, if chosen.Some? then Some(t.exits[chosen.value]) else None, next)
  {
    ViewsAgree(t, nodes, region);
    if chosen.Some? {
      PickedFits(t, nodes, region, strategy, rr, chosen.value);
    }
  }

  lemma PickedFits(t: Tables, nodes: seq<LB.Node>, region: string, strategy: LB.Strategy, rr: nat, id: string)
    requires Registered(t) && AreViews(t, nodes) && LB.PicksBy(strategy, region, nodes, rr, id)
    ensures id in t.exits && t.info[t.exits[id]].node == id
    ensures Eligible(t, t.exits[id]) && t.info[t.exits[id]].region == region
  {
    var n :| n in nodes && LB.Eligible(n, region) && n.id == id;
  }

  /** An exit of the region with a free seat: no limit, or fewer clients than its limit. */
  predicate HasRoom(t: Tables, node: string, region: string)
    requires Registered(t)
  {
    && node in t.exits && t.info[t.exits[node]].region == region
    && (t.info[t.exits[node]].capacity <= 0 || t.active[t.exits[node]] < t.info[t.exits[node]].capacity)
  }

  /**
   Balancing, spelt out on the exits online: it fails exactly when none of the region has a free seat, else it takes
   one that has, and least-conn takes one with the fewest clients.
   */
  lemma BalancesMeans(t: Tables, region: string, strategy: LB.Strategy, was: nat, r: Option<Reg>, next: nat)
    requires Registered(t) && Balances(t, region, strategy, was, r, next)
    ensures r.None? <==> forall n :: n in t.exits ==> !HasRoom(t, n, region)
    ensures r.Some? ==> && r.value in t.info && HasRoom(t, t.info[r.value].node, region)
                        && t.exits[t.info[r.value].node] == r.value
    ensures r.Some? && strategy.LeastConn? ==>
              forall n :: HasRoom(t, n, region) ==> t.active[r.value] <= t.active[t.exits[n]]
  {
    if forall n :: n in t.exits ==> !HasRoom(t, n, region) {
      forall x | Eligible(t, x) ensures t.info[x].region != region {
        assert !HasRoom(t, t.info[x].node, region);
      }
    }
    forall n | HasRoom(t, n, region) ensures Eligible(t, t.exits[n]) && t.info[t.exits[n]].region == region {
    }
    if r.Some? && strategy.LeastConn? {
      LeastLoaded(t, region, was, r.value);
    }
  }

  lemma LeastLoaded(t: Tables, region: string, was: nat, r: Reg)
    requires Registered(t) && Eligible(t, r)
    requires exists nodes :: AreViews(t, nodes) && LB.PicksBy(LB.LeastConn, region, nodes, was, t.info[r].node)
    ensures forall n :: HasRoom(t, n, region) ==> t.active[r] <= t.active[t.exits[n]]
  {
    var nodes :| AreViews(t, nodes) && LB.PicksBy(LB.LeastConn, region, nodes, was, t.info[r].node);
    var b :| LB.IsBest(b, nodes, region) && b.id == t.info[r].node;
    forall n | HasRoom(t, n, region) ensures t.active[r] <= t.active[t.exits[n]] {
      assert View(t, n) in nodes && LB.Eligible(View(t, n), region);
      assert !LB.Better(View(t, n), b);
    }
  }

  class Broker {
    const ttl: int
    const pool: Pool
    var exits: map<string, Reg>
    var info: map<Reg, ExitInfo>
    var active: map<Reg, int>
    var sessions: map<nat, Session>
    var parked: map<string, Session>
    var nextReg: Reg
    var lastSid: nat
    var rr: nat

    function Tables(): Tables
      reads this, pool
    {
      BrokerState.Tables.Tables(ttl, exits, info, active, sessions, parked, pool.State(), nextReg, lastSid)
    }

    predicate Valid()
      reads this, pool
    {
      && pool.Valid() && rr < LB.COUNTERS
      && Registered(Tables()) && (forall r :: r in info ==> r < nextReg)
    }

    constructor (pool: Pool, ttl: int)
      requires pool.Valid()
      ensures Valid() && this.pool == pool && Tables() == Init(pool.State(), ttl).t
    {
      this.pool, this.ttl := pool, ttl;
      exits, info, active, sessions, parked := map[], map[], map[], map[], map[];
      nextReg, lastSid, rr := 0, 0, 0;
    }

    /** handleExit's first section: a capacity of zero means the default. */
    method RegisterExit(i: ExitInfo) returns (r: Reg)
      requires Valid()
      modifies this
      ensures Valid() && r == old(nextReg) && Tables() == AddExit(old(Tables()), i) && rr == old(rr)
      ensures r in info && info[r] == i.(capacity := if i.capacity == 0 then 100 else i.capacity)
      ensures exits == old(exits)[i.node := r] && info - {r} == old(info) && active == old(active)[r := 0]
    {
      var ex := i;
      if ex.capacity == 0 {
        ex := ex.(capacity := 100);
      }
      r := nextReg;
      exits := exits[ex.node := r];
      info := info[r := ex];
      active := active[r := 0];
      nextReg := r + 1;
      assert info - {r} == old(info);
    }

    /** handleExit's last section: the entry goes by node id. */
    method RemoveExit(r: Reg)
      requires Valid() && r in info
      modifies this`exits
      ensures Valid() && Tables() == old(Tables()).(exits := old(exits) - {info[r].node})
    {
      exits := exits - {info[r].node};
    }

    /** handleClient's choice of an exit: the named one if it serves the region and has room, or one by balancing. */
    method ChooseExit(region: string, requested: string, strategy: LB.Strategy, draw: nat) returns (r: Option<Reg>)
      requires Valid()
      modifies this`rr
      ensures Valid() && Tables() == old(Tables())
      ensures requested != "" ==>
                && r == (if CanBeNamed(Tables(), requested, region) then Some(exits[requested]) else None)
                && rr == old(rr)
      ensures requested != "" ==>
                (r.Some? <==> && requested in exits && info[exits[requested]].region == region
                              && (|| info[exits[requested]].capacity == 0
                                  || active[exits[requested]] < info[exits[requested]].capacity))
      ensures requested == "" ==> Balances(Tables(), region, strategy, old(rr), r, rr)
    {
      if requested != "" {
        if requested in exits {
          var e := exits[requested];
          if info[e].region == region && (info[e].capacity == 0 || active[e] < info[e].capacity) {
            return Some(e);
          }
        }
        return None;
      }
      r := Balance(region, strategy, draw);
    }

    method Balance(region: string, strategy: LB.Strategy, draw: nat) returns (r: Option<Reg>)
      requires Valid()
      modifies this`rr
      ensures Valid() && Tables() == old(Tables()) && Balances(Tables(), region, strategy, old(rr), r, rr)
    {
      var nodes := Candidates();
      var chosen, next := LB.Pick(strategy, region, nodes, Some(rr), draw);
      PickBalances(Tables(), nodes, region, strategy, rr, chosen, next.value);
      rr := next.value;
      r := if chosen.Some? then Some(exits[chosen.value]) else None;
    }

    /** The load view of every exit online. */
    method Candidates() returns (nodes: seq<LB.Node>)
      requires Valid()
      ensures AreViews(Tables(), nodes)
    {
      nodes := [];
      var rest := exits.Keys;
      while rest != {}
        invariant rest <= exits.Keys
        invariant forall n :: n in exits && n !in rest ==> View(Tables(), n) in nodes
        invariant forall v :: v in nodes ==> v.id in exits && v.id !in rest && v == View(Tables(), v.id)
        invariant LB.DistinctIds(nodes)
        decreases rest
      {
        var n :| n in rest;
        nodes := nodes + [View(Tables(), n)];
        rest := rest - {n};
      }
    }

    /** The session number is taken atomically, outside the mutex. */
    method NextSession() returns (sid: nat)
      modifies this`lastSid
      ensures sid == old(lastSid) + 1 && Tables() == old(Tables()).(lastSid := sid)
    {
      lastSid := lastSid + 1;
      sid := lastSid;
    }

    method InsertSession(s: Session)
      modifies this`sessions
      ensures Tables() == Insert(old(Tables()), s) && sessions == old(sessions)[s.id := s]
    {
      sessions := sessions[s.id := s];
    }

    /** The counter is bumped atomically, outside the mutex. */
    method CountClient(r: Reg)
      requires Valid() && r in active
      modifies this`active
      ensures Valid() && Tables() == old(Tables()).(active := Add(old(active), r, 1))
      ensures active == old(active)[r := old(active)[r] + 1]
    {
      active := active[r := active[r] + 1];
      assert active.Keys == old(active).Keys;
    }

    /** Reattach a parked session, or leave everything as it is. */
    method TryResume(key: string, user: string, now: int, pid: Pid) returns (s: Option<Session>)
      requires Valid()
      modifies this`sessions, this`parked
      ensures Valid() && Tables() == ResumeSection(old(Tables()), key, user, now, pid)
      ensures s.Some? <==> && key in old(parked) && old(parked)[key].ident.user == user
                           && now < old(parked)[key].parkedAt + ttl && old(parked)[key].ident.node in exits
      ensures s.Some? ==> s.value == old(parked)[key].(suspended := false, client := pid,
                                                       exit := exits[old(parked)[key].ident.node])
      ensures s.Some? ==> sessions == old(sessions)[s.value.id := s.value] && parked == old(parked) - {key}
      ensures s.None? ==> sessions == old(sessions) && parked == old(parked)
    {
      if key !in parked {
        return None;
      }
      var ps := parked[key];
      if ps.ident.user != user || now - ps.parkedAt >= ttl || ps.ident.node !in exits {
        return None;
      }
      parked := parked - {key};
      ps := ps.(suspended := false, client := pid, exit := exits[ps.ident.node]);
      sessions := sessions[ps.id := ps];
      return Some(ps);
    }

    /** Park the session of a dropped client, or end it; the result says which message the exit gets. */
    method SuspendSession(sid: nat, r: Reg, intentional: bool, now: int, timer: Pid) returns (m: Option<Msg>)
      requires Valid() && r in active && (sid in sessions ==> sessions[sid].id == sid)
      modifies this, pool
      ensures Valid() && Tables() == SuspendSection(old(Tables()), sid, r, intentional, now, timer)
      ensures sid !in old(sessions) ==> m.None? && Tables() == old(Tables())
      ensures sid in old(sessions) ==>
                var was := old(sessions)[sid];
                && sessions == old(sessions) - {sid} && active == old(active)[r := old(active)[r] - 1]
                && if !intentional && was.ident.key != "" && ttl > 0 then
                     && m == Some(SessionSuspend(sid)) && pool.State() == old(pool.State())
                     && parked == old(parked)[was.ident.key := was.(suspended := true, parkedAt := now,
                                                                    timer := Some(timer))]
                   else
                     && m == Some(SessionEnd(sid)) && parked == old(parked)
                     && pool.State() == old(pool.State()).Drop(was.ident.addr)
    {
      if sid !in sessions {
        return None;
      }
      var s := sessions[sid];
      sessions := sessions - {sid};
      active := active[r := active[r] - 1];
      assert active.Keys == old(active).Keys;
      if !intentional && s.ident.key != "" && ttl > 0 {
        s := s.(suspended := true, parkedAt := now, timer := Some(timer));
        parked := parked[s.ident.key := s];
        return Some(SessionSuspend(sid));
      }
      pool.Release(s.ident.addr);
      return Some(SessionEnd(sid));
    }

    /** The park window is over: the session goes, unless it was resumed or displaced. */
    method ExpirePark(key: string, sid: nat) returns (told: Option<Reg>)
      requires Valid()
      modifies this`parked, pool
      ensures Valid() && Tables() == ExpireSection(old(Tables()), key, sid)
      ensures told == if Expires(old(Tables()), key, sid) && old(parked)[key].ident.node in exits
                      then Some(exits[old(parked)[key].ident.node]) else None
      ensures if key in old(parked) && old(parked)[key].id == sid && old(parked)[key].suspended then
                && parked == old(parked) - {key}
                && pool.State() == old(pool.State()).Drop(old(parked)[key].ident.addr)
                && (told.Some? <==> old(parked)[key].ident.node in exits)
                && (told.Some? ==> told.value == exits[old(parked)[key].ident.node])
              else told.None? && parked == old(parked) && pool.State() == old(pool.State())
    {
      if key !in parked || parked[key].id != sid || !parked[key].suspended {
        return None;
      }
      var s := parked[key];
      parked := parked - {key};
      pool.Release(s.ident.addr);
      if s.ident.node in exits {
        return Some(exits[s.ident.node]);
      }
      return None;
    }

    /** The session could not be started on its exit. */
    method EndSession(sid: nat, r: Reg) returns (ok: bool)
      requires Valid() && r in active && (sid in sessions ==> sessions[sid].id == sid)
      modifies this, pool
      ensures Valid() && ok == (sid in old(sessions)) && Tables() == EndSection(old(Tables()), sid, r)
      ensures ok ==> && sessions == old(sessions) - {sid} && active == old(active)[r := old(active)[r] - 1]
                     && pool.State() == old(pool.State()).Drop(old(sessions)[sid].ident.addr)
      ensures !ok ==> Tables() == old(Tables())
    {
      ok := sid in sessions;
      if ok {
        var addr := sessions[sid].ident.addr;
        sessions := sessions - {sid};
        active := active[r := active[r] - 1];
        assert active.Keys == old(active).Keys;
        pool.Release(addr);
      }
    }

    /** relayLoop's lookup: a datagram from the exit goes to the client, any other to the exit. */
    method Peer(sid: nat, fromExit: Reg, isExit: bool) returns (toClient: Option<Pid>, toExit: Option<Reg>)
      ensures sid !in sessions ==> toClient.None? && toExit.None?
      ensures sid in sessions && isExit && fromExit == sessions[sid].exit ==>
              toClient == Some(sessions[sid].client) && toExit.None?
      ensures sid in sessions && !(isExit && fromExit == sessions[sid].exit) ==>
              toExit == Some(sessions[sid].exit) && toClient.None?
    {
      if sid !in sessions {
        return None, None;
      }
      if isExit && fromExit == sessions[sid].exit {
        return Some(sessions[sid].client), None;
      }
      return None, Some(sessions[sid].exit);
    }
  }
}

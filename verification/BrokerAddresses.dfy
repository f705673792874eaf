/**
 Address conservation: at every interleaving point the pool's used set is exactly the set of addresses
 held by active, parked, displaced and in-flight sessions, and no two of them share one.
 */
module BrokerAddresses {
  import opened Basics
  import opened IpPool
  import opened BrokerState
  import opened BrokerLinks

  predicate IsHeld(ls: Lives, a: nat) {
    exists sid :: sid in ls && ls[sid].Held? && ls[sid].ident.addr == a
  }

  /** Held lives have distinct usable addresses, and exactly these are marked used. */
  predicate Addressed(pool: PoolState, ls: Lives) {
    && (forall sid :: sid in ls && ls[sid].Held? ==> ls[sid].ident.addr in pool.used && pool.Usable(ls[sid].ident.addr))
    && (forall a :: a in pool.used ==> IsHeld(ls, a))
    && (forall x, y :: x in ls && y in ls && ls[x].Held? && ls[y].Held? && x != y ==>
        ls[x].ident.addr != ls[y].ident.addr)
  }

  lemma AddressedSame(pool: PoolState, ls: Lives, sid: nat, l: Life)
    requires Addressed(pool, ls) && sid in ls && ls[sid].Held? && l.Held? && l.ident == ls[sid].ident
    ensures Addressed(pool, ls[sid := l])
  {
    forall a | a in pool.used ensures IsHeld(ls[sid := l], a) {
      var x :| x in ls && ls[x].Held? && ls[x].ident.addr == a;
      assert x in ls[sid := l];
    }
  }

  lemma AddressedNeutral(pool: PoolState, ls: Lives, sid: nat, l: Life)
    requires Addressed(pool, ls) && !l.Held? && (sid in ls ==> !ls[sid].Held?)
    ensures Addressed(pool, ls[sid := l])
  {
    forall a | a in pool.used ensures IsHeld(ls[sid := l], a) {
      var x :| x in ls && ls[x].Held? && ls[x].ident.addr == a;
      assert x in ls[sid := l];
    }
  }

  lemma AddressedTake(pool: PoolState, ls: Lives, sid: nat, l: Life)
    requires Addressed(pool, ls) && l.Held? && pool.Free(l.ident.addr) && (sid in ls ==> !ls[sid].Held?)
    ensures Addressed(pool.Take(l.ident.addr), ls[sid := l])
  {
    var pool', ls' := pool.Take(l.ident.addr), ls[sid := l];
    forall a | a in pool'.used ensures IsHeld(ls', a) {
      if a == l.ident.addr {
        assert sid in ls';
      } else {
        var x :| x in ls && ls[x].Held? && ls[x].ident.addr == a;
        assert x in ls';
      }
    }
  }

  lemma AddressedDrop(pool: PoolState, ls: Lives, sid: nat, l: Life)
    requires Addressed(pool, ls) && sid in ls && ls[sid].Held? && !l.Held?
    ensures Addressed(pool.Drop(ls[sid].ident.addr), ls[sid := l])
  {
    var pool', ls' := pool.Drop(ls[sid].ident.addr), ls[sid := l];
    forall a | a in pool'.used ensures IsHeld(ls', a) {
      var x :| x in ls && ls[x].Held? && ls[x].ident.addr == a;
      assert x in ls';
    }
  }

  lemma AddressedAllocate(s: State, p: Pid)
    requires Linked(s) && Addressed(s.t.pool, s.lives) && Enabled(s, Allocate(p))
    ensures Addressed(DoAllocate(s, p).t.pool, DoAllocate(s, p).lives)
  {
    var sid, l := s.procs[p].sid, DoAllocate(s, p).lives[s.procs[p].sid];
    if s.t.pool.Candidate().Some? {
      AddressedTake(s.t.pool, s.lives, sid, l);
    } else {
      AddressedNeutral(s.t.pool, s.lives, sid, l);
    }
  }

  lemma AddressedDisplace(s: State, key: string)
    requires Linked(s) && Addressed(s.t.pool, s.lives)
    ensures Addressed(s.t.pool, Displace(s, key).lives) && Displace(s, key).t.pool == s.t.pool
  {
    if key in s.t.parked {
      var q := s.t.parked[key];
      AddressedSame(s.t.pool, s.lives, q.id, Held(q.ident, Displaced(q.client, q.exit)));
    }
  }

  lemma AddressedPark(s: State, p: Pid)
    requires Linked(s) && Addressed(s.t.pool, s.lives) && p in s.procs && s.procs[p].HasSession()
    ensures Addressed(s.t.pool, ParkActive(s, p).lives)
  {
    AddressedSame(s.t.pool, s.lives, s.procs[p].sid, ParkedLife(ParkedNow(s, p)));
  }

  lemma AddressedEnd(s: State, p: Pid)
    requires Linked(s) && Addressed(s.t.pool, s.lives) && p in s.procs && s.procs[p].HasSession()
    ensures Addressed(EndActive(s, p).t.pool, EndActive(s, p).lives)
  {
    AddressedDrop(s.t.pool, s.lives, s.procs[p].sid, EndActive(s, p).lives[s.procs[p].sid]);
  }

  lemma AddressedDropStep(s: State, p: Pid, intentional: bool)
    requires Linked(s) && Addressed(s.t.pool, s.lives) && Enabled(s, Drop(p, intentional))
    ensures Addressed(DoDrop(s, p, intentional).t.pool, DoDrop(s, p, intentional).lives)
  {
    var ss := s.t.sessions[s.procs[p].sid];
    if Parks(s.t, ss, intentional) {
      LinkedDisplace(s, ss.ident.key);
      AddressedDisplace(s, ss.ident.key);
      AddressedPark(Displace(s, ss.ident.key), p);
      DropParks(s, p, intentional);
    } else {
      AddressedEnd(s, p);
    }
  }

  lemma AddressedExpire(s: State, p: Pid)
    requires Linked(s) && Addressed(s.t.pool, s.lives) && Enabled(s, ExpirePark(p))
    ensures Addressed(DoExpire(s, p).t.pool, DoExpire(s, p).lives)
  {
    var c := s.procs[p];
    if Expires(s.t, c.key, c.sid) {
      AddressedDrop(s.t.pool, s.lives, c.sid, DoExpire(s, p).lives[c.sid]);
    }
  }

  lemma AddressedResume(s: State, key: string, user: string)
    requires Linked(s) && Addressed(s.t.pool, s.lives) && Enabled(s, ResumeSession(key, user))
    ensures Addressed(DoResume(s, key).t.pool, DoResume(s, key).lives)
  {
    var n := Resumed(s.t, key, s.nextPid);
    AddressedSame(s.t.pool, s.lives, n.id, ActiveLife(n));
  }

  lemma AddressedNumber(s: State, p: Pid)
    requires Linked(s) && Addressed(s.t.pool, s.lives) && Enabled(s, Number(p))
    ensures Addressed(DoNumber(s, p).t.pool, DoNumber(s, p).lives)
  {
    AddressedNeutral(s.t.pool, s.lives, s.t.lastSid + 1, Issued(p));
  }

  lemma AddressedInsert(s: State, p: Pid)
    requires Linked(s) && Addressed(s.t.pool, s.lives) && Enabled(s, InsertSession(p))
    ensures Addressed(DoInsert(s, p).t.pool, DoInsert(s, p).lives)
  {
    AddressedSame(s.t.pool, s.lives, s.procs[p].sid, Held(s.procs[p].ident, Active(p, s.procs[p].exit)));
  }

  lemma AddressedQuiet(s: State, step: Step)
    requires Linked(s) && Addressed(s.t.pool, s.lives) && Enabled(s, step) && Quiet(step)
    ensures Addressed(Do(s, step).t.pool, Do(s, step).lives)
  {
    QuietStep(s, step);
  }

  lemma AddressedBusy(s: State, step: Step)
    requires Linked(s) && Addressed(s.t.pool, s.lives) && Enabled(s, step) && !Quiet(step)
    ensures Addressed(Do(s, step).t.pool, Do(s, step).lives)
  {
    match step
    case Number(p) => AddressedNumber(s, p);
    case Allocate(p) => AddressedAllocate(s, p);
    case InsertSession(p) => AddressedInsert(s, p);
    case ResumeSession(key, user) => AddressedResume(s, key, user);
    case Drop(p, intentional) => AddressedDropStep(s, p, intentional);
    case EndFailed(p) => AddressedEnd(s, p);
    case ExpirePark(p) => AddressedExpire(s, p);
    case _ =>
  }

  lemma AddressedStep(s: State, step: Step)
    requires Linked(s) && Addressed(s.t.pool, s.lives) && Enabled(s, step)
    ensures Addressed(Do(s, step).t.pool, Do(s, step).lives)
  {
    if Quiet(step) {
      AddressedQuiet(s, step);
    } else {
      AddressedBusy(s, step);
    }
  }

  // ---- what this means for the broker's own maps ----

  /** The ways in which the broker holds an address. */
  datatype Holder =
    | ActiveSession(sid: nat)
    | ParkedSession(key: string)
    | DisplacedSession(sid: nat)
    | Connection(pid: Pid)

  function AddressOf(s: State, h: Holder): Option<nat> {
    match h
    case ActiveSession(sid) => if sid in s.t.sessions then Some(s.t.sessions[sid].ident.addr) else None
    case ParkedSession(key) => if key in s.t.parked then Some(s.t.parked[key].ident.addr) else None
    case DisplacedSession(sid) =>
      if sid in s.lives && s.lives[sid].Held? && s.lives[sid].where.Displaced? then Some(s.lives[sid].ident.addr)
      else None
    case Connection(pid) => if pid in s.procs && s.procs[pid].Allocated? then Some(s.procs[pid].ident.addr) else None
  }

  /** Each used address has exactly one holder, and it is never the network, broadcast or a reserved address. */
  ghost predicate Conserved(s: State) {
    && (forall a :: a in s.t.pool.used <==> exists h :: AddressOf(s, h) == Some(a))
    && (forall h, k :: AddressOf(s, h).Some? && AddressOf(s, h) == AddressOf(s, k) ==> h == k)
    && (forall a :: a in s.t.pool.used ==> s.t.pool.Usable(a))
  }

  function HolderOf(s: State, sid: nat): (h: Holder)
    requires Linked(s) && sid in s.lives && s.lives[sid].Held?
    ensures AddressOf(s, h) == Some(s.lives[sid].ident.addr)
  {
    match s.lives[sid].where
    case InFlight(p) => Connection(p)
    case Active(_, _) => ActiveSession(sid)
    case Parked(_, _, _) => ParkedSession(s.lives[sid].ident.key)
    case Displaced(_, _) => DisplacedSession(sid)
  }

  function SidOf(s: State, h: Holder): (sid: nat)
    requires Linked(s) && AddressOf(s, h).Some?
    ensures sid in s.lives && s.lives[sid].Held? && AddressOf(s, h) == Some(s.lives[sid].ident.addr)
    ensures HolderOf(s, sid) == h
  {
    match h
    case ActiveSession(sid) => sid
    case ParkedSession(key) => s.t.parked[key].id
    case DisplacedSession(sid) => sid
    case Connection(p) => s.procs[p].sid
  }

  lemma AddressedIsConserved(s: State)
    requires Linked(s) && Addressed(s.t.pool, s.lives)
    ensures Conserved(s)
  {
    forall a ensures a in s.t.pool.used <==> exists h :: AddressOf(s, h) == Some(a) {
      if a in s.t.pool.used {
        var sid :| sid in s.lives && s.lives[sid].Held? && s.lives[sid].ident.addr == a;
        assert AddressOf(s, HolderOf(s, sid)) == Some(a);
      } else if h :| AddressOf(s, h) == Some(a) {
        var sid := SidOf(s, h);
      }
    }
    forall h, k | AddressOf(s, h).Some? && AddressOf(s, h) == AddressOf(s, k) ensures h == k {
      assert HolderOf(s, SidOf(s, h)) == h && HolderOf(s, SidOf(s, k)) == k;
    }
    forall a | a in s.t.pool.used ensures s.t.pool.Usable(a) {
      var sid :| sid in s.lives && s.lives[sid].Held? && s.lives[sid].ident.addr == a;
    }
  }

  predicate Empty(s: State) {
    s.t.sessions == map[] && s.t.parked == map[] && forall p :: p in s.procs ==> !s.procs[p].Allocated?
  }

  predicate SomeDisplaced(s: State) {
    exists sid :: sid in s.lives && s.lives[sid].Held? && s.lives[sid].where.Displaced?
  }

  /** An empty broker gives back every address exactly when no parked session was ever displaced. */
  lemma EmptyBrokerEmptyPool(s: State)
    requires Linked(s) && Addressed(s.t.pool, s.lives) && Empty(s)
    ensures s.t.pool.used == {} <==> !SomeDisplaced(s)
  {
    if s.t.pool.used != {} {
      var a :| a in s.t.pool.used;
      var sid :| sid in s.lives && s.lives[sid].Held? && s.lives[sid].ident.addr == a;
      assert s.lives[sid].where.Displaced?;
    }
  }
}

/**
 The broker's session protocol (cmd/revquic-broker/main.go) as a transition system.

 Each section that runs under the broker's mutex is one step. Work done outside it is a step of its
 own: taking a session number, allocating an address, bumping an exit's counter, and every write to
 an exit's control stream. Goroutines are processes: one per client connection and one per park timer.
 */
module BrokerState {
  import opened Basics
  import opened IpPool
  import opened Messages

  /** An exitNode object: one registration of an exit. */
  type Reg = nat
  /** A goroutine: a client connection's handler or a park timer. */
  type Pid = nat

  datatype ExitInfo = ExitInfo(node: string, region: string, capacity: int)

  /** What a session is from its creation on. */
  datatype Ident = Ident(addr: nat, user: string, key: string, node: string)

  datatype Session = Session(id: nat, ident: Ident, suspended: bool, parkedAt: int, timer: Option<Pid>,
                             client: Pid, exit: Reg)

  /** The broker object: the maps under its mutex, the atomic counters and the address pool. */
  datatype Tables = Tables(ttl: int, exits: map<string, Reg>, info: map<Reg, ExitInfo>, active: map<Reg, int>,
                           sessions: map<nat, Session>, parked: map<string, Session>, pool: PoolState,
                           nextReg: Reg, lastSid: nat)

  function Add(m: map<Reg, int>, r: Reg, d: int): map<Reg, int> {
    m[r := (if r in m then m[r] else 0) + d]
  }

  predicate HasSpare(capacity: int, active: int) {
    capacity <= 0 || active < capacity
  }

  // ---- critical sections ----

  function AddExit(t: Tables, info: ExitInfo): Tables {
    var i := if info.capacity == 0 then info.(capacity := 100) else info;
    t.(exits := t.exits[i.node := t.nextReg], info := t.info[t.nextReg := i],
       active := t.active[t.nextReg := 0], nextReg := t.nextReg + 1)
  }

  /** The named exit may take another client. */
  predicate Eligible(t: Tables, r: Reg) {
    && r in t.info && t.info[r].node in t.exits && t.exits[t.info[r].node] == r
    && r in t.active && HasSpare(t.info[r].capacity, t.active[r])
  }

  function Insert(t: Tables, s: Session): Tables {
    t.(sessions := t.sessions[s.id := s])
  }

  /** A parked session of this user, still within its window, whose exit is online. */
  predicate Resumable(t: Tables, key: string, user: string, now: int) {
    && key in t.parked
    && t.parked[key].ident.user == user
    && now - t.parked[key].parkedAt < t.ttl
    && t.parked[key].ident.node in t.exits
  }

  function Resumed(t: Tables, key: string, pid: Pid): Session
    requires key in t.parked && t.parked[key].ident.node in t.exits
  {
    t.parked[key].(suspended := false, client := pid, exit := t.exits[t.parked[key].ident.node])
  }

  function Resume(t: Tables, key: string, pid: Pid): Tables
    requires key in t.parked && t.parked[key].ident.node in t.exits
  {
    var s := Resumed(t, key, pid);
    t.(parked := t.parked - {key}, sessions := t.sessions[s.id := s])
  }

  predicate Parks(t: Tables, s: Session, intentional: bool) {
    !intentional && s.ident.key != "" && t.ttl > 0
  }

  /** The client is gone: the session leaves the active map and its exit's count. */
  function Detach(t: Tables, sid: nat, r: Reg): Tables {
    t.(sessions := t.sessions - {sid}, active := Add(t.active, r, -1))
  }

  function Park(t: Tables, s: Session, r: Reg, now: int, timer: Pid): Tables {
    var d := Detach(t, s.id, r);
    d.(parked := d.parked[s.ident.key := s.(suspended := true, parkedAt := now, timer := Some(timer))])
  }

  function End(t: Tables, s: Session, r: Reg): Tables {
    var d := Detach(t, s.id, r);
    d.(pool := d.pool.Drop(s.ident.addr))
  }

  predicate Expires(t: Tables, key: string, sid: nat) {
    key in t.parked && t.parked[key].id == sid && t.parked[key].suspended
  }

  function Expire(t: Tables, key: string): Tables
    requires key in t.parked
  {
    t.(parked := t.parked - {key}, pool := t.pool.Drop(t.parked[key].ident.addr))
  }

  // ---- processes ----

  datatype Proc =
    | Picked(exit: Reg, user: string, key: string)
    | Numbered(sid: nat, exit: Reg, user: string, key: string)
    | Allocated(sid: nat, exit: Reg, ident: Ident)
    | Attached(sid: nat, exit: Reg, addr: nat, resumed: bool) // in the active map, not yet counted
    | Starting(sid: nat, exit: Reg, addr: nat, resumed: bool) // about to write SessionStart
    | Relaying(sid: nat, exit: Reg, resumed: bool)
    | Failing(sid: nat, exit: Reg, resumed: bool)             // the write of SessionStart failed
    | Suspending(sid: nat, exit: Reg)                         // about to write SessionSuspend
    | Ending(sid: nat, exit: Reg)                             // about to write SessionEnd
    | Armed(sid: nat, key: string, deadline: int)             // park timer, may still be stopped
    | Fired(sid: nat, key: string, deadline: int)             // park timer past its deadline, waiting for the mutex
    | Done
  {
    predicate HasSession() {
      Attached? || Starting? || Relaying? || Failing?
    }

    /** A process with a control message still to be written to registration r. */
    predicate WritesTo(r: Reg) {
      (Attached? || Starting? || Suspending? || Ending?) && exit == r
    }
  }

  // ---- the history of each session number ----

  datatype Where =
    | InFlight(pid: Pid)
    | Active(pid: Pid, exit: Reg)
    | Parked(parker: Pid, exit: Reg, timer: Pid)
    | Displaced(parker: Pid, exit: Reg) // another session was parked under the same resume key

  datatype Life =
    | Issued(pid: Pid)
    | Refused
    | Held(ident: Ident, where: Where)
    | Ended(ident: Ident, exit: Reg, ender: Pid)

  datatype State = State(now: int, t: Tables, procs: map<Pid, Proc>, nextPid: Pid, logs: map<Reg, seq<Msg>>,
                         lives: map<nat, Life>,
                         broken: set<Reg>, // registrations on whose stream a write has failed
                         late: set<nat>)   // sessions told to suspend after their current start

  datatype Step =
    | Register(info: ExitInfo)
    | ExitGone(r: Reg)
    | Pick(r: Reg, user: string, key: string)
    | Number(p: Pid)
    | Allocate(p: Pid)
    | InsertSession(p: Pid)
    | Count(p: Pid)
    | WriteStart(p: Pid, ok: bool)
    | ResumeSession(key: string, user: string)
    | Drop(p: Pid, intentional: bool)
    | EndFailed(p: Pid)
    | WriteSuspend(p: Pid, ok: bool)
    | WriteEnd(p: Pid, ok: bool)
    | Fire(p: Pid)
    | ExpirePark(p: Pid)
    | Tick(d: nat)

  predicate Enabled(s: State, step: Step) {
    match step
    case Register(_) => true
    case ExitGone(r) => r in s.t.info
    case Pick(r, _, _) => Eligible(s.t, r)
    case Number(p) => p in s.procs && s.procs[p].Picked?
    case Allocate(p) => p in s.procs && s.procs[p].Numbered?
    case InsertSession(p) => p in s.procs && s.procs[p].Allocated?
    case Count(p) => p in s.procs && s.procs[p].Attached?
    case WriteStart(p, _) => p in s.procs && s.procs[p].Starting?
    case ResumeSession(key, user) => key != "" && Resumable(s.t, key, user, s.now)
    case Drop(p, _) => p in s.procs && s.procs[p].Relaying?
    case EndFailed(p) => p in s.procs && s.procs[p].Failing?
    case WriteSuspend(p, _) => p in s.procs && s.procs[p].Suspending?
    case WriteEnd(p, _) => p in s.procs && s.procs[p].Ending?
    case Fire(p) => p in s.procs && s.procs[p].Armed? && s.now >= s.procs[p].deadline
    case ExpirePark(p) => p in s.procs && s.procs[p].Fired?
    case Tick(_) => true
  }

  function Log(logs: map<Reg, seq<Msg>>, r: Reg, m: Msg): map<Reg, seq<Msg>> {
    logs[r := (if r in logs then logs[r] else []) + [m]]
  }

  function Init(pool: PoolState, ttl: int): State {
    State(0, Tables(ttl, map[], map[], map[], map[], map[], pool, 0, 0), map[], 0, map[], map[], {}, {})
  }

  function Do(s: State, step: Step): State
    requires s.t.pool.Valid() && Enabled(s, step)
  {
    match step
    case Register(info) => s.(t := AddExit(s.t, info), logs := s.logs[s.t.nextReg := []])
    case ExitGone(r) => s.(t := s.t.(exits := s.t.exits - {s.t.info[r].node}))
    case Pick(r, user, key) => NewProc(s, Picked(r, user, key))
    case Number(p) => DoNumber(s, p)
    case Allocate(p) => DoAllocate(s, p)
    case InsertSession(p) => DoInsert(s, p)
    case Count(p) => DoCount(s, p)
    case WriteStart(p, ok) => DoWriteStart(s, p, ok)
    case ResumeSession(key, _) => DoResume(s, key)
    case Drop(p, intentional) => DoDrop(s, p, intentional)
    case EndFailed(p) => DoEndFailed(s, p)
    case WriteSuspend(p, ok) => DoWriteSuspend(s, p, ok)
    case WriteEnd(p, ok) => DoWriteEnd(s, p, ok)
    case Fire(p) => s.(procs := s.procs[p := Fired(s.procs[p].sid, s.procs[p].key, s.procs[p].deadline)])
    case ExpirePark(p) => DoExpire(s, p)
    case Tick(d) => s.(now := s.now + d)
  }

  function DoNumber(s: State, p: Pid): State
    requires Enabled(s, Number(p))
  {
    var c, sid := s.procs[p], s.t.lastSid + 1;
    s.(t := s.t.(lastSid := sid), procs := s.procs[p := Proc.Numbered(sid, c.exit, c.user, c.key)],
       lives := s.lives[sid := Issued(p)])
  }

  function DoAllocate(s: State, p: Pid): State
    requires s.t.pool.Valid() && Enabled(s, Allocate(p))
  {
    var c := s.procs[p];
    match s.t.pool.Candidate()
    case None => s.(procs := s.procs[p := Done], lives := s.lives[c.sid := Refused])
    case Some(a) =>
      var ident := Ident(a, c.user, c.key, if c.exit in s.t.info then s.t.info[c.exit].node else "");
      s.(t := s.t.(pool := s.t.pool.Take(a)), procs := s.procs[p := Allocated(c.sid, c.exit, ident)],
         lives := s.lives[c.sid := Held(ident, InFlight(p))])
  }

  function DoInsert(s: State, p: Pid): State
    requires Enabled(s, InsertSession(p))
  {
    var c := s.procs[p];
    s.(t := Insert(s.t, Session(c.sid, c.ident, false, 0, None, p, c.exit)),
       procs := s.procs[p := Proc.Attached(c.sid, c.exit, c.ident.addr, false)],
       lives := s.lives[c.sid := Held(c.ident, Active(p, c.exit))])
  }

  function DoCount(s: State, p: Pid): State
    requires Enabled(s, Count(p))
  {
    var c := s.procs[p];
    s.(t := s.t.(active := Add(s.t.active, c.exit, 1)),
       procs := s.procs[p := Starting(c.sid, c.exit, c.addr, c.resumed)])
  }

  function DoWriteStart(s: State, p: Pid, ok: bool): State
    requires Enabled(s, WriteStart(p, ok))
  {
    var c := s.procs[p];
    if ok then
      s.(procs := s.procs[p := Relaying(c.sid, c.exit, c.resumed)],
         logs := Log(s.logs, c.exit, SessionStart(c.sid, c.addr)), late := s.late - {c.sid})
    else
      s.(procs := s.procs[p := Failing(c.sid, c.exit, c.resumed)], broken := s.broken + {c.exit})
  }

  /** Stopping a timer only helps while it has not fired. */
  function Stop(procs: map<Pid, Proc>, timer: Option<Pid>): map<Pid, Proc> {
    if timer.Some? && timer.value in procs && procs[timer.value].Armed? then procs[timer.value := Done] else procs
  }

  function DoResume(s: State, key: string): State
    requires key in s.t.parked && s.t.parked[key].ident.node in s.t.exits
  {
    var ps := Resumed(s.t, key, s.nextPid);
    s.(t := Resume(s.t, key, s.nextPid),
       procs := Stop(s.procs, ps.timer)[s.nextPid := Proc.Attached(ps.id, ps.exit, ps.ident.addr, true)],
       nextPid := s.nextPid + 1,
       lives := s.lives[ps.id := Held(ps.ident, Active(s.nextPid, ps.exit))])
  }

  /** Parking under a key that is taken: the session filed there loses its place. */
  function Displace(s: State, key: string): State {
    if key in s.t.parked then
      var q := s.t.parked[key];
      s.(t := s.t.(parked := s.t.parked - {key}),
         lives := s.lives[q.id := Held(q.ident, Displaced(q.client, q.exit))])
    else s
  }

  /** The connection's session moves to the parked map. */
  function ParkActive(s: State, p: Pid): State
    requires p in s.procs && s.procs[p].HasSession() && s.procs[p].sid in s.t.sessions
  {
    var c := s.procs[p];
    var ss := s.t.sessions[c.sid];
    s.(t := Park(s.t, ss, c.exit, s.now, s.nextPid), procs := s.procs[p := Suspending(c.sid, c.exit)],
       lives := s.lives[c.sid := Held(ss.ident, Parked(p, c.exit, s.nextPid))])
  }

  /** The connection's session leaves the broker. */
  function EndActive(s: State, p: Pid): State
    requires p in s.procs && s.procs[p].HasSession() && s.procs[p].sid in s.t.sessions
  {
    var c := s.procs[p];
    var ss := s.t.sessions[c.sid];
    s.(t := End(s.t, ss, c.exit), procs := s.procs[p := Ending(c.sid, c.exit)],
       lives := s.lives[c.sid := Ended(ss.ident, c.exit, p)])
  }

  function NewProc(s: State, c: Proc): State {
    s.(procs := s.procs[s.nextPid := c], nextPid := s.nextPid + 1)
  }

  function DoDrop(s: State, p: Pid, intentional: bool): State
    requires Enabled(s, Drop(p, intentional))
  {
    var c := s.procs[p];
    if c.sid !in s.t.sessions then s.(procs := s.procs[p := Done])
    else if Parks(s.t, s.t.sessions[c.sid], intentional) then
      var key := s.t.sessions[c.sid].ident.key;
      NewProc(ParkActive(Displace(s, key), p), Armed(c.sid, key, s.now + s.t.ttl))
    else EndActive(s, p)
  }

  function DoEndFailed(s: State, p: Pid): State
    requires Enabled(s, EndFailed(p))
  {
    if s.procs[p].sid !in s.t.sessions then s.(procs := s.procs[p := Done]) else EndActive(s, p)
  }

  function DoWriteSuspend(s: State, p: Pid, ok: bool): State
    requires Enabled(s, WriteSuspend(p, ok))
  {
    var c := s.procs[p];
    var after := s.(procs := s.procs[p := Done]);
    if ok then
      after.(logs := Log(s.logs, c.exit, SessionSuspend(c.sid)),
             late := if Restarted(s, c.sid, c.exit) then s.late + {c.sid} else s.late)
    else
      after.(broken := s.broken + {c.exit})
  }

  /** The session is already running again on r: a newer connection has written its SessionStart. */
  predicate Restarted(s: State, sid: nat, r: Reg) {
    && sid in s.t.sessions && s.t.sessions[sid].exit == r
    && s.t.sessions[sid].client in s.procs && s.procs[s.t.sessions[sid].client].Relaying?
  }

  function DoWriteEnd(s: State, p: Pid, ok: bool): State
    requires Enabled(s, WriteEnd(p, ok))
  {
    var c := s.procs[p];
    var after := s.(procs := s.procs[p := Done]);
    if ok then after.(logs := Log(s.logs, c.exit, SessionEnd(c.sid))) else after.(broken := s.broken + {c.exit})
  }

  function DoExpire(s: State, p: Pid): State
    requires Enabled(s, ExpirePark(p))
  {
    var c := s.procs[p];
    if !Expires(s.t, c.key, c.sid) then s.(procs := s.procs[p := Done])
    else
      var ss := s.t.parked[c.key];
      s.(t := Expire(s.t, c.key),
         procs := s.procs[p := if ss.ident.node in s.t.exits then Ending(c.sid, s.t.exits[ss.ident.node]) else Done],
         lives := s.lives[c.sid := Ended(ss.ident, ss.exit, p)])
  }

  // ---- runs ----

  /** The steps can be taken one after the other from s. */
  predicate IsRun(s: State, steps: seq<Step>)
    decreases |steps|
  {
    steps == [] || (s.t.pool.Valid() && Enabled(s, steps[0]) && IsRun(Do(s, steps[0]), steps[1..]))
  }

  function Exec(s: State, steps: seq<Step>): State
    requires IsRun(s, steps)
    decreases |steps|
  {
    if steps == [] then s else Exec(Do(s, steps[0]), steps[1..])
  }

  /** A fresh broker over a pool that has handed out nothing. */
  predicate Starts(s: State) {
    s == Init(s.t.pool, s.t.ttl) && s.t.pool.Valid() && s.t.pool.used == {}
  }
}

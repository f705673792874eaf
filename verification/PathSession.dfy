/**
 One client's data path: the state machine of internal/directpath/state.go and the session of
 internal/session/session.go that swaps its sender as the machine moves.
 */
module PathSession {
  import opened Basics
  import opened Codec
  import opened RateLimit

  datatype Phase = New | Relaying | Checking | Direct | Closed

  datatype Event = EvStartRelay | EvBeginChecks | EvDirectEstablished | EvChecksFailed | EvDirectLost | EvClose

  /** The transition table: anything not listed is refused. */
  function Next(p: Phase, e: Event): Option<Phase> {
    match (p, e)
    case (Closed, EvClose) => None
    case (_, EvClose) => Some(Closed)
    case (New, EvStartRelay) => Some(Relaying)
    case (Relaying, EvBeginChecks) => Some(Checking)
    case (Checking, EvDirectEstablished) => Some(Direct)
    case (Checking, EvChecksFailed) => Some(Relaying)
    case (Direct, EvDirectLost) => Some(Relaying)
    case _ => None
  }

  /** The table read the other way: the one way into each phase, and none back to New. */
  lemma WaysIn(p: Phase, e: Event, q: Phase)
    ensures Next(p, e) == Some(q) <==>
              match q
              case New => false
              case Relaying => (p, e) in {(New, EvStartRelay), (Checking, EvChecksFailed), (Direct, EvDirectLost)}
              case Checking => (p, e) == (Relaying, EvBeginChecks)
              case Direct => (p, e) == (Checking, EvDirectEstablished)
              case Closed => p != Closed && e == EvClose
  {
  }

  /** A sender with its encoder: the relay prefixes the session id, the direct path adds nothing. */
  datatype Path = ViaRelay(conn: nat) | ViaPeer(conn: nat)

  function Encode(sid: nat, p: Path, pkt: Bytes): Bytes {
    if p.ViaRelay? then Tagged(sid, pkt) else pkt
  }

  /** The calls that move a session, with the sender each was given. */
  datatype Move =
    | StartRelay(conn: nat)
    | BeginChecks
    | UpgradeDirect(conn: nat)
    | ChecksFailed
    | FallbackRelay(conn: nat)
    | Close

  function EventOf(m: Move): Event {
    match m
    case StartRelay(_) => EvStartRelay
    case BeginChecks => EvBeginChecks
    case UpgradeDirect(_) => EvDirectEstablished
    case ChecksFailed => EvChecksFailed
    case FallbackRelay(_) => EvDirectLost
    case Close => EvClose
  }

  /** What a call goes on to install once the machine answered it. Close clears the path even when refused. */
  function Installs(m: Move, ok: bool): Option<Option<Path>> {
    match m
    case StartRelay(c) => if ok then Some(Some(ViaRelay(c))) else None
    case UpgradeDirect(c) => if ok then Some(Some(ViaPeer(c))) else None
    case FallbackRelay(c) => if ok then Some(Some(ViaRelay(c))) else None
    case Close => Some(None)
    case _ => None
  }

  /** The path a phase calls for. */
  predicate Fits(phase: Phase, path: Option<Path>) {
    match phase
    case New | Closed => path.None?
    case Relaying | Checking => path.Some? && path.value.ViaRelay?
    case Direct => path.Some? && path.value.ViaPeer?
  }

  // ---- the objects, one call at a time ----

  class Machine {
    var phase: Phase

    constructor ()
      ensures phase == New
    {
      phase := New;
    }

    method Fire(e: Event) returns (ok: bool)
      modifies this
      ensures ok == Next(old(phase), e).Some?
      ensures phase == if ok then Next(old(phase), e).value else old(phase)
    {
      var next := Next(phase, e);
      if next.None? {
        return false;
      }
      phase := next.value;
      return true;
    }
  }

  /** A datagram connection, with what was put on it. */
  class Link {
    var out: seq<Bytes>

    constructor ()
      ensures out == []
    {
      out := [];
    }

    method SendDatagram(b: Bytes, up: bool) returns (ok: bool)
      modifies this
      ensures ok == up && out == if up then old(out) + [b] else old(out)
    {
      ok := up;
      if up {
        out := out + [b];
      }
    }
  }

  datatype SendResult = Delivered | NoPath | RateLimited | Broken

  class Session {
    const sid: nat
    const m: Machine
    var path: Option<Path>
    var limiter: Bucket?
    var bytesSent: nat
    var pktsSent: nat
    var drops: nat

    /** Between calls, the path installed is the one the phase calls for. */
    predicate Valid()
      reads this, m
    {
      Fits(m.phase, path)
    }

    constructor (sid: nat)
      ensures Valid() && fresh(m) && m.phase == New && this.sid == sid && limiter == null
      ensures bytesSent == 0 && pktsSent == 0 && drops == 0
    {
      this.sid := sid;
      m := new Machine();
      path, limiter, bytesSent, pktsSent, drops := None, null, 0, 0, 0;
    }

    method SetRateLimit(rate: real, burst: real)
      modifies this`limiter
      ensures limiter != null && fresh(limiter) && limiter.State() == Full(rate, burst)
    {
      limiter := new Bucket(rate, burst);
    }

    /** Any of the moving calls: refused calls change nothing, and the path follows the phase. */
    method Apply(mv: Move) returns (ok: bool)
      requires Valid()
      modifies m, this`path
      ensures Valid()
      ensures ok == Next(old(m.phase), EventOf(mv)).Some?
      ensures m.phase == if ok then Next(old(m.phase), EventOf(mv)).value else old(m.phase)
      ensures path == if Installs(mv, ok).Some? then Installs(mv, ok).value else old(path)
      ensures ok <==> || (mv.StartRelay? && old(m.phase) == New)
                      || (mv.BeginChecks? && old(m.phase) == Relaying)
                      || (mv.UpgradeDirect? && old(m.phase) == Checking)
                      || (mv.ChecksFailed? && old(m.phase) == Checking)
                      || (mv.FallbackRelay? && old(m.phase) == Direct)
                      || (mv.Close? && old(m.phase) != Closed)
      ensures !ok ==> m.phase == old(m.phase)
      ensures ok ==> m.phase == if mv.Close? then Closed else if mv.BeginChecks? then Checking
                                else if mv.UpgradeDirect? then Direct else Relaying
      ensures ok && (mv.StartRelay? || mv.FallbackRelay?) ==> path == Some(ViaRelay(mv.conn))
      ensures ok && mv.UpgradeDirect? ==> path == Some(ViaPeer(mv.conn))
      ensures mv.Close? ==> path == None
      ensures !mv.Close? && (!ok || mv.BeginChecks? || mv.ChecksFailed?) ==> path == old(path)
    {
      ok := m.Fire(EventOf(mv));
      var p := Installs(mv, ok);
      if p.Some? {
        path := p.value;
      }
    }

    /** Send one packet. Exactly one of four things happens, and the counters tell which. */
    method Send(pkt: Bytes, now: real, link: Link, up: bool) returns (r: SendResult)
      modifies this`bytesSent, this`pktsSent, this`drops, limiter, link
      ensures r == NoPath <==> path.None?
      ensures limiter != null && path.Some? ==>
              (r != RateLimited, limiter.State()) == Admit(old(limiter.State()), now, |pkt|)
      ensures limiter != null && path.None? ==> limiter.State() == old(limiter.State())
      ensures limiter == null ==> r != RateLimited
      ensures r in {Delivered, Broken} ==> up == (r == Delivered)
      ensures link.out == old(link.out) + if r == Delivered then [Encode(sid, path.value, pkt)] else []
      ensures bytesSent == old(bytesSent) + if r == Delivered then |pkt| else 0
      ensures pktsSent == old(pktsSent) + if r == Delivered then 1 else 0
      ensures drops == old(drops) + if r == RateLimited then 1 else 0
    {
      if path.None? {
        return NoPath;
      }
      if limiter != null {
        var ok := limiter.Allow(|pkt|, now);
        if !ok {
          drops := drops + 1;
          return RateLimited;
        }
      }
      var sent := link.SendDatagram(Encode(sid, path.value, pkt), up);
      if !sent {
        return Broken;
      }
      bytesSent := bytesSent + |pkt|;
      pktsSent := pktsSent + 1;
      return Delivered;
    }
  }

  // ---- every interleaving ----

  /** A moving call whose machine step is done, by the path it installs: still to be installed, or installed. */
  datatype Install = Install(path: Option<Path>, done: bool)

  /** A Send call: path and limiter read, cleared by the limiter, handed to its sender, or ended without. */
  datatype Sending =
    | Waiting(pkt: Bytes, path: Path, limited: bool)
    | Cleared(pkt: Bytes, path: Path)
    | Handed(pkt: Bytes, path: Path)
    | Ended(pkt: Bytes)

  datatype Out = Out(call: nat, path: Path, datagram: Bytes)

  /** installs and sends list the calls in the order they began; last is the install that ran most recently. */
  datatype State = State(
    now: real, phase: Phase, path: Option<Path>, limiter: Option<Level>,
    installs: seq<Install>, last: Option<nat>, sends: seq<Sending>, wire: seq<Out>)

  datatype Step =
    | Fire(m: Move)
    | RunInstall(i: nat)
    | Take(pkt: Bytes)
    | Allow(i: nat)
    | Hand(i: nat, ok: bool)
    | SetLimit(rate: real, burst: real)
    | Tick(dt: real)

  predicate Enabled(s: State, step: Step) {
    match step
    case Fire(_) | Take(_) => true
    case RunInstall(i) => i < |s.installs| && !s.installs[i].done
    case Allow(i) => i < |s.sends| && s.sends[i].Waiting? && (s.sends[i].limited ==> s.limiter.Some?)
    case Hand(i, _) => i < |s.sends| && s.sends[i].Cleared?
    case SetLimit(_, _) => s.limiter.None?
    case Tick(dt) => dt >= 0.0
  }

  function DoFire(s: State, m: Move): State {
    var next := Next(s.phase, EventOf(m));
    var p := Installs(m, next.Some?);
    s.(phase := if next.Some? then next.value else s.phase,
       installs := if p.Some? then s.installs + [Install(p.value, false)] else s.installs)
  }

  function DoRunInstall(s: State, i: nat): State
    requires Enabled(s, RunInstall(i))
  {
    s.(path := s.installs[i].path, installs := s.installs[i := s.installs[i].(done := true)], last := Some(i))
  }

  function DoTake(s: State, pkt: Bytes): State {
    s.(sends := s.sends + [if s.path.None? then Ended(pkt) else Waiting(pkt, s.path.value, s.limiter.Some?)])
  }

  function DoAllow(s: State, i: nat): State
    requires Enabled(s, Allow(i))
  {
    var c := s.sends[i];
    if !c.limited then s.(sends := s.sends[i := Cleared(c.pkt, c.path)])
    else
      var (ok, l) := Admit(s.limiter.value, s.now, |c.pkt|);
      s.(limiter := Some(l), sends := s.sends[i := if ok then Cleared(c.pkt, c.path) else Ended(c.pkt)])
  }

  function DoHand(sid: nat, s: State, i: nat, ok: bool): State
    requires Enabled(s, Hand(i, ok))
  {
    var c := s.sends[i];
    if ok then s.(sends := s.sends[i := Handed(c.pkt, c.path)],
                  wire := s.wire + [Out(i, c.path, Encode(sid, c.path, c.pkt))])
    else s.(sends := s.sends[i := Ended(c.pkt)])
  }

  function Do(sid: nat, s: State, step: Step): State
    requires Enabled(s, step)
  {
    match step
    case Fire(m) => DoFire(s, m)
    case RunInstall(i) => DoRunInstall(s, i)
    case Take(pkt) => DoTake(s, pkt)
    case Allow(i) => DoAllow(s, i)
    case Hand(i, ok) => DoHand(sid, s, i, ok)
    case SetLimit(rate, burst) => s.(limiter := Some(Full(rate, burst)))
    case Tick(dt) => s.(now := s.now + dt)
  }

  predicate IsRun(sid: nat, s: State, steps: seq<Step>)
    decreases |steps|
  {
    steps == [] || (Enabled(s, steps[0]) && IsRun(sid, Do(sid, s, steps[0]), steps[1..]))
  }

  function Exec(sid: nat, s: State, steps: seq<Step>): State
    requires IsRun(sid, s, steps)
    decreases |steps|
  {
    if steps == [] then s else Exec(sid, Do(sid, s, steps[0]), steps[1..])
  }

  function Start(now: real): State {
    State(now, New, None, None, [], None, [], [])
  }

  // ---- transparency ----

  /** Every datagram on a wire carries the packet of one Send call, unchanged, and no call puts out two. */
  ghost predicate Transparent(sid: nat, s: State) {
    && (forall k :: 0 <= k < |s.wire| ==> Faithful(sid, s.sends, s.wire[k]))
    && (forall k, l :: 0 <= k < l < |s.wire| ==> s.wire[k].call != s.wire[l].call)
  }

  /** What the far end makes of a datagram: the relay's reader finds id and packet, the peer takes it as it is. */
  predicate Faithful(sid: nat, sends: seq<Sending>, o: Out) {
    && o.call < |sends| && sends[o.call].Handed?
    && if o.path.ViaRelay? then DecodeDatagram(o.datagram) == Some((sid, sends[o.call].pkt))
       else o.datagram == sends[o.call].pkt
  }

  lemma EncodeIsFaithful(sid: nat, sends: seq<Sending>, i: nat, p: Path)
    requires sid < U64 && i < |sends| && sends[i].Handed?
    ensures Faithful(sid, sends, Out(i, p, Encode(sid, p, sends[i].pkt)))
  {
    DatagramRoundTrip(sid, sends[i].pkt);
  }

  /** A call that did not hand anything yet may change; the others keep. */
  lemma FaithfulFrame(sid: nat, s: State, sends: seq<Sending>)
    requires Transparent(sid, s) && |s.sends| <= |sends|
    requires forall i :: 0 <= i < |s.sends| && s.sends[i].Handed? ==> sends[i] == s.sends[i]
    ensures Transparent(sid, s.(sends := sends))
  {
  }

  lemma TransparentHand(sid: nat, s: State, i: nat, ok: bool)
    requires sid < U64 && Transparent(sid, s) && Enabled(s, Hand(i, ok))
    ensures Transparent(sid, DoHand(sid, s, i, ok))
  {
    var t := DoHand(sid, s, i, ok);
    FaithfulFrame(sid, s, t.sends);
    if ok {
      EncodeIsFaithful(sid, t.sends, i, s.sends[i].path);
      forall k | 0 <= k < |s.wire| ensures s.wire[k].call != i {
        assert Faithful(sid, s.sends, s.wire[k]);
      }
      forall k | 0 <= k < |t.wire| ensures Faithful(sid, t.sends, t.wire[k]) {
        if k < |s.wire| {
          assert t.wire[k] == s.wire[k];
          assert Faithful(sid, t.sends, s.(sends := t.sends).wire[k]);
        }
      }
    }
  }

  lemma TransparentStep(sid: nat, s: State, step: Step)
    requires sid < U64 && Transparent(sid, s) && Enabled(s, step)
    ensures Transparent(sid, Do(sid, s, step))
  {
    var t := Do(sid, s, step);
    match step
    case Hand(i, ok) => TransparentHand(sid, s, i, ok);
    case _ => FaithfulFrame(sid, s, t.sends);
  }

  /** In every interleaving of sends with migrations, each datagram is exact for the path it left on. */
  lemma {:induction false} TransparentMigration(sid: nat, s: State, steps: seq<Step>)
    requires sid < U64 && Transparent(sid, s) && IsRun(sid, s, steps)
    ensures Transparent(sid, Exec(sid, s, steps))
    decreases |steps|
  {
    if steps != [] {
      TransparentStep(sid, s, steps[0]);
      TransparentMigration(sid, Do(sid, s, steps[0]), steps[1..]);
    }
  }

  // ---- where a datagram leaves ----

  /** The path a call is given when it is accepted: StartRelay when new, UpgradeDirect when checking, and so on. */
  function Given(phase: Phase, m: Move): set<Path> {
    match m
    case StartRelay(c) => if phase == New then {ViaRelay(c)} else {}
    case UpgradeDirect(c) => if phase == Checking then {ViaPeer(c)} else {}
    case FallbackRelay(c) => if phase == Direct then {ViaRelay(c)} else {}
    case _ => {}
  }

  /** Every path given to the run by an accepted call. */
  function Granted(sid: nat, s: State, steps: seq<Step>): set<Path>
    requires IsRun(sid, s, steps)
    decreases |steps|
  {
    if steps == [] then {}
    else (if steps[0].Fire? then Given(s.phase, steps[0].m) else {})
         + Granted(sid, Do(sid, s, steps[0]), steps[1..])
  }

  /** The packet of each Send call of a run, in the order they began, with the session's path at that time. */
  function Begun(sid: nat, s: State, steps: seq<Step>): seq<(Bytes, Option<Path>)>
    requires IsRun(sid, s, steps)
    decreases |steps|
  {
    if steps == [] then []
    else (if steps[0].Take? then [(steps[0].pkt, s.path)] else [])
         + Begun(sid, Do(sid, s, steps[0]), steps[1..])
  }

  predicate In(p: Option<Path>, g: set<Path>) {
    p.Some? ==> p.value in g
  }

  /** The session's path, and those still to be installed, were all given. */
  ghost predicate OnGranted(s: State, g: set<Path>) {
    In(s.path, g) && forall i :: 0 <= i < |s.installs| ==> In(s.installs[i].path, g)
  }

  /** A Send call keeps the packet and the path that it began with. */
  predicate AsBegun(c: Sending, b: (Bytes, Option<Path>)) {
    c.pkt == b.0 && (!c.Ended? ==> b.1 == Some(c.path))
  }

  ghost predicate SentAsBegun(s: State, h: seq<(Bytes, Option<Path>)>, g: set<Path>) {
    && |s.sends| == |h|
    && (forall i :: 0 <= i < |h| ==> AsBegun(s.sends[i], h[i]) && In(h[i].1, g))
    && (forall k :: 0 <= k < |s.wire| ==> s.wire[k].call < |h| && h[s.wire[k].call].1 == Some(s.wire[k].path))
  }

  lemma GrantedStep(sid: nat, s: State, step: Step, h: seq<(Bytes, Option<Path>)>, g: set<Path>)
    requires Enabled(s, step) && OnGranted(s, g) && SentAsBegun(s, h, g)
    ensures var t, g1 := Do(sid, s, step), g + if step.Fire? then Given(s.phase, step.m) else {};
            OnGranted(t, g1) && SentAsBegun(t, h + if step.Take? then [(step.pkt, s.path)] else [], g1)
  {
  }

  lemma {:induction false} GrantedRun(
      sid: nat, s: State, steps: seq<Step>, h: seq<(Bytes, Option<Path>)>, g: set<Path>)
    requires IsRun(sid, s, steps) && OnGranted(s, g) && SentAsBegun(s, h, g)
    ensures var t, g1 := Exec(sid, s, steps), g + Granted(sid, s, steps);
            OnGranted(t, g1) && SentAsBegun(t, h + Begun(sid, s, steps), g1)
    decreases |steps|
  {
    if steps == [] {
      assert h + [] == h && g + {} == g;
    } else {
      var g0 := if steps[0].Fire? then Given(s.phase, steps[0].m) else {};
      var h0 := if steps[0].Take? then [(steps[0].pkt, s.path)] else [];
      var s1 := Do(sid, s, steps[0]);
      GrantedStep(sid, s, steps[0], h, g);
      GrantedRun(sid, s1, steps[1..], h + h0, g + g0);
      assert (h + h0) + Begun(sid, s1, steps[1..]) == h + Begun(sid, s, steps);
      assert (g + g0) + Granted(sid, s1, steps[1..]) == g + Granted(sid, s, steps);
    }
  }

  /**
   In every run, each datagram left on the path that the session had when its Send call began, carrying that call's
   packet, and that path was given by an accepted StartRelay, UpgradeDirect or FallbackRelay, of the matching kind.
   */
  lemma DatagramsLeaveAsBegun(sid: nat, now: real, steps: seq<Step>, k: nat)
    requires IsRun(sid, Start(now), steps) && sid < U64 && k < |Exec(sid, Start(now), steps).wire|
    ensures var o, begun := Exec(sid, Start(now), steps).wire[k], Begun(sid, Start(now), steps);
            && o.path in Granted(sid, Start(now), steps)
            && o.call < |begun| && begun[o.call].1 == Some(o.path)
            && (o.path.ViaPeer? ==> o.datagram == begun[o.call].0)
            && (o.path.ViaRelay? ==> DecodeDatagram(o.datagram) == Some((sid, begun[o.call].0)))
  {
    var t, h := Exec(sid, Start(now), steps), Begun(sid, Start(now), steps);
    GrantedRun(sid, Start(now), steps, [], {});
    TransparentMigration(sid, Start(now), steps);
    assert [] + h == h && {} + Granted(sid, Start(now), steps) == Granted(sid, Start(now), steps);
    assert Faithful(sid, t.sends, t.wire[k]);
    assert AsBegun(t.sends[t.wire[k].call], h[t.wire[k].call]);
  }

  /** The call is through: handed on, or ended without. */
  predicate Through(s: State, i: nat) {
    i < |s.sends| && (s.sends[i].Handed? || s.sends[i].Ended?)
  }

  lemma {:induction false} ThroughStays(sid: nat, s: State, steps: seq<Step>, i: nat, k: nat, ok: bool)
    requires Through(s, i) && IsRun(sid, s, steps) && k < |steps|
    ensures steps[k] != Hand(i, ok) && steps[k] != Allow(i)
    decreases |steps|
  {
    if k > 0 {
      ThroughStays(sid, Do(sid, s, steps[0]), steps[1..], i, k - 1, ok);
    }
  }

  /** No Send call hands its packet to its sender twice, not even after the sender failed. */
  lemma {:induction false} HandsOnce(sid: nat, s: State, steps: seq<Step>, j: nat, k: nat, i: nat, a: bool, b: bool)
    requires IsRun(sid, s, steps) && j < k < |steps| && steps[j] == Hand(i, a)
    ensures steps[k] != Hand(i, b)
    decreases |steps|
  {
    var t := Do(sid, s, steps[0]);
    if j == 0 {
      ThroughStays(sid, t, steps[1..], i, k - 1, b);
    } else {
      HandsOnce(sid, t, steps[1..], j - 1, k - 1, i, a, b);
    }
  }

  // ---- path and phase ----

  /** The latest install asked for is the one the phase calls for, and the path is what ran last. */
  ghost predicate Tracked(s: State) {
    && Fits(s.phase, if s.installs == [] then None else s.installs[|s.installs| - 1].path)
    && (s.last.None? ==> s.path.None? && forall i :: 0 <= i < |s.installs| ==> !s.installs[i].done)
    && (s.last.Some? ==>
      && s.last.value < |s.installs|
      && s.path == s.installs[s.last.value].path && s.installs[s.last.value].done)
  }

  lemma TrackedStep(sid: nat, s: State, step: Step)
    requires Tracked(s) && Enabled(s, step)
    ensures Tracked(Do(sid, s, step))
  {
    match step
    case Fire(m) => TrackedFire(s, m);
    case _ =>
  }

  lemma TrackedFire(s: State, m: Move)
    requires Tracked(s)
    ensures Tracked(DoFire(s, m))
  {
  }

  predicate AtRest(s: State) {
    forall i :: 0 <= i < |s.installs| ==> s.installs[i].done
  }

  predicate SameKind(a: Option<Path>, b: Option<Path>) {
    a.Some? == b.Some? && (a.Some? ==> a.value.ViaRelay? == b.value.ViaRelay?)
  }

  /** The path that the install which ran last brought in. */
  function RanLast(s: State): Option<Path> {
    if s.last.Some? && s.last.value < |s.installs| then s.installs[s.last.value].path else None
  }

  /** The path that the latest accepted move asked for. */
  function AskedLast(s: State): Option<Path> {
    if s.installs == [] then None else s.installs[|s.installs| - 1].path
  }

  /** At any time the path fits the phase exactly when the install that ran last is of the kind asked for last. */
  lemma {:induction false} PathFitsIffLatest(sid: nat, s: State, steps: seq<Step>)
    requires Tracked(s) && IsRun(sid, s, steps)
    ensures var t := Exec(sid, s, steps);
            Tracked(t) && (Fits(t.phase, t.path) <==> SameKind(RanLast(t), AskedLast(t)))
    decreases |steps|
  {
    if steps != [] {
      TrackedStep(sid, s, steps[0]);
      PathFitsIffLatest(sid, Do(sid, s, steps[0]), steps[1..]);
    }
  }

  /** Installs that ran are those asked for first, and the last one to run is the latest of them. */
  ghost predicate InOrder(s: State) {
    && (s.last.None? ==> forall i :: 0 <= i < |s.installs| ==> !s.installs[i].done)
    && (s.last.Some? ==>
      && s.last.value < |s.installs|
      && forall i :: 0 <= i < |s.installs| ==> (s.installs[i].done <==> i <= s.last.value))
  }

  /** The run carries installs out in the order their moves were accepted. */
  predicate OrderedRun(sid: nat, s: State, steps: seq<Step>)
    requires IsRun(sid, s, steps)
    decreases |steps|
  {
    steps == [] ||
    (&& (steps[0].RunInstall? ==> forall i :: 0 <= i < steps[0].i ==> s.installs[i].done)
     && OrderedRun(sid, Do(sid, s, steps[0]), steps[1..]))
  }

  /** With installs in order, the path fits the phase whenever no install is outstanding. */
  lemma {:induction false} OrderedInstallsFit(sid: nat, s: State, steps: seq<Step>)
    requires Tracked(s) && InOrder(s) && IsRun(sid, s, steps) && OrderedRun(sid, s, steps)
    ensures var t := Exec(sid, s, steps); InOrder(t) && (AtRest(t) ==> Fits(t.phase, t.path))
    decreases |steps|
  {
    if steps != [] {
      TrackedStep(sid, s, steps[0]);
      OrderedInstallsFit(sid, Do(sid, s, steps[0]), steps[1..]);
    }
  }

  /** Out of order, a closed session can be left with a live path: starting and closing race. */
  lemma ClosedWithAPath() returns (steps: seq<Step>)
    ensures IsRun(7, Start(0.0), steps)
    ensures var t := Exec(7, Start(0.0), steps); AtRest(t) && t.phase == Closed && t.path == Some(ViaRelay(1))
  {
    var s0 := Start(0.0);
    var s1 := DoFire(s0, StartRelay(1));
    var s2 := DoFire(s1, Close);
    var s3 := DoRunInstall(s2, 1);
    var s4 := DoRunInstall(s3, 0);
    var e: seq<Step> := [];
    assert IsRun(7, s4, e) && Exec(7, s4, e) == s4;
    Prepend(7, s3, RunInstall(0), e);
    Prepend(7, s2, RunInstall(1), [RunInstall(0)] + e);
    Prepend(7, s1, Fire(Close), [RunInstall(1)] + ([RunInstall(0)] + e));
    Prepend(7, s0, Fire(StartRelay(1)), [Fire(Close)] + ([RunInstall(1)] + ([RunInstall(0)] + e)));
    steps := [Fire(StartRelay(1))] + ([Fire(Close)] + ([RunInstall(1)] + ([RunInstall(0)] + e)));
  }

  lemma Prepend(sid: nat, s: State, step: Step, rest: seq<Step>)
    requires Enabled(s, step) && IsRun(sid, Do(sid, s, step), rest)
    ensures IsRun(sid, s, [step] + rest) && Exec(sid, s, [step] + rest) == Exec(sid, Do(sid, s, step), rest)
  {
  }

  /** A path is installed and nothing outstanding would clear it. */
  ghost predicate OnAPath(s: State) {
    s.path.Some? && forall i :: 0 <= i < |s.installs| && !s.installs[i].done ==> s.installs[i].path.Some?
  }

  /** However migrations interleave, traffic that has a path keeps one until somebody calls Close. */
  lemma {:induction false} MigrationKeepsAPath(sid: nat, s: State, steps: seq<Step>)
    requires OnAPath(s) && IsRun(sid, s, steps)
    requires forall k :: 0 <= k < |steps| ==> steps[k] != Fire(Close)
    ensures OnAPath(Exec(sid, s, steps))
    decreases |steps|
  {
    if steps != [] {
      MigrationKeepsAPath(sid, Do(sid, s, steps[0]), steps[1..]);
    }
  }
}

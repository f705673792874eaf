/**
 The exit's session tables (cmd/revquic-exit/main.go): a two-way index between session ids and VPN
 addresses, driven by the broker's control stream and used to route packets.
 */
module ExitTable {
  import opened Basics
  import opened Codec
  import opened Messages

  datatype ExitSession = ExitSession(addr: nat, suspended: bool)

  datatype Index = Index(sessions: map<nat, ExitSession>, byIP: map<nat, nat>)

  const EMPTY := Index(map[], map[])

  /** What one control message does to the tables. */
  function Handle(t: Index, m: Msg): Index {
    match m
    case SessionStart(sid, addr) =>
      if sid in t.sessions then t.(sessions := t.sessions[sid := t.sessions[sid].(suspended := false)])
      else Index(t.sessions[sid := ExitSession(addr, false)], t.byIP[addr := sid])
    case SessionSuspend(sid) =>
      if sid in t.sessions then t.(sessions := t.sessions[sid := t.sessions[sid].(suspended := true)]) else t
    case SessionEnd(sid) =>
      if sid in t.sessions then Index(t.sessions - {sid}, t.byIP - {t.sessions[sid].addr}) else t
  }

  /** The tables after a whole stream, from an empty connection on. */
  function Replay(log: Stream): Index {
    if log == [] then EMPTY else Handle(Replay(log[..|log| - 1]), log[|log| - 1])
  }

  /** The two maps are inverse to each other. */
  predicate Inverse(t: Index) {
    && (forall sid :: sid in t.sessions ==> t.sessions[sid].addr in t.byIP && t.byIP[t.sessions[sid].addr] == sid)
    && (forall a :: a in t.byIP ==> t.byIP[a] in t.sessions && t.sessions[t.byIP[a]].addr == a)
  }

  // ---- packets ----

  type Packet = Bytes

  /** Long enough for a header, and version 4 in the upper half of its first byte. */
  predicate IsIPv4(pkt: Packet) {
    |pkt| >= 20 && pkt[0] as int / 16 == 4
  }

  function IPv4Dst(pkt: Packet): Option<nat> {
    if IsIPv4(pkt) then Some(Value(pkt[16..20])) else None
  }

  function IPv4Src(pkt: Packet): Option<nat> {
    if IsIPv4(pkt) then Some(Value(pkt[12..16])) else None
  }

  /** A packet as section 3.1 of RFC 791 lays it out: source in octets 12 to 15, destination in octets 16 to 19. */
  function Laid(first: byte, head: Bytes, src: nat, dst: nat, rest: Bytes): Packet
    requires |head| == 11
  {
    [first] + head + BigEndian(4, src) + BigEndian(4, dst) + rest
  }

  /** A packet of version 4 names the two addresses it was laid out with; of any other version, none. */
  lemma LaidAddresses(first: byte, head: Bytes, src: nat, dst: nat, rest: Bytes)
    requires |head| == 11 && src < U32 && dst < U32
    ensures var pkt := Laid(first, head, src, dst, rest);
            if 64 <= first < 80 then IPv4Src(pkt) == Some(src) && IPv4Dst(pkt) == Some(dst)
            else IPv4Src(pkt) == None && IPv4Dst(pkt) == None
  {
    var pkt := Laid(first, head, src, dst, rest);
    Widths();
    ValueOfBigEndian(4, src);
    ValueOfBigEndian(4, dst);
    assert pkt[12..16] == BigEndian(4, src);
    assert pkt[16..20] == BigEndian(4, dst);
  }

  /** A packet too short for a header names none, and every other is laid out from some two addresses. */
  lemma EveryPacketIsLaid(pkt: Packet) returns (head: Bytes, src: nat, dst: nat, rest: Bytes)
    ensures |pkt| < 20 ==> IPv4Src(pkt) == None && IPv4Dst(pkt) == None
    ensures |head| == 11 && src < U32 && dst < U32
    ensures |pkt| >= 20 ==> pkt == Laid(pkt[0], head, src, dst, rest)
  {
    head, src, dst, rest := seq(11, i => 0), 0, 0, [];
    if |pkt| >= 20 {
      head, rest := pkt[1..12], pkt[20..];
      src, dst := Value(pkt[12..16]), Value(pkt[16..20]);
      Widths();
      BigEndianOfValue(pkt[12..16]);
      BigEndianOfValue(pkt[16..20]);
      assert pkt == [pkt[0]] + pkt[1..12] + pkt[12..16] + pkt[16..20] + pkt[20..];
    }
  }

  // ---- the exit object ----

  class Exit {
    var sessions: map<nat, ExitSession>
    var byIP: map<nat, nat>
    var tun: seq<Packet> // packets written to the TUN device

    function Tables(): Index
      reads this
    {
      Index(sessions, byIP)
    }

    constructor ()
      ensures Tables() == EMPTY && tun == []
    {
      sessions, byIP, tun := map[], map[], [];
    }

    /** serve binds the exit to a new broker connection, or drops a dead one. */
    method Reset()
      modifies this
      ensures Tables() == EMPTY && tun == old(tun)
    {
      sessions := map[];
      byIP := map[];
    }

    /** A malformed client address is ignored; a known session is only reactivated. */
    method AddSession(sid: nat, clientIP: Option<nat>)
      modifies this
      ensures tun == old(tun)
      ensures Tables() == if clientIP.Some? then Handle(old(Tables()), SessionStart(sid, clientIP.value))
              else old(Tables())
    {
      if clientIP.None? {
        return;
      }
      if sid in sessions {
        sessions := sessions[sid := sessions[sid].(suspended := false)];
        return;
      }
      sessions := sessions[sid := ExitSession(clientIP.value, false)];
      byIP := byIP[clientIP.value := sid];
    }

    method SuspendSession(sid: nat)
      modifies this
      ensures tun == old(tun) && Tables() == Handle(old(Tables()), SessionSuspend(sid))
    {
      if sid in sessions {
        sessions := sessions[sid := sessions[sid].(suspended := true)];
      }
    }

    method RemoveSession(sid: nat)
      modifies this
      ensures tun == old(tun) && Tables() == Handle(old(Tables()), SessionEnd(sid))
    {
      if sid in sessions {
        var addr := sessions[sid].addr;
        sessions := sessions - {sid};
        byIP := byIP - {addr};
      }
    }

    /** controlLoop over the session messages of one connection. */
    method ControlLoop(log: Stream)
      requires Tables() == EMPTY
      modifies this
      ensures Tables() == Replay(log) && tun == old(tun)
    {
      var i := 0;
      while i < |log|
        invariant 0 <= i <= |log| && Tables() == Replay(log[..i]) && tun == old(tun)
      {
        match log[i] {
          case SessionStart(sid, addr) => AddSession(sid, Some(addr));
          case SessionSuspend(sid) => SuspendSession(sid);
          case SessionEnd(sid) => RemoveSession(sid);
        }
        assert log[..i + 1][..i] == log[..i];
        i := i + 1;
      }
      assert log[..i] == log;
    }

    /** The session that a reply read from the TUN is sent to. */
    method RouteReply(pkt: Packet) returns (sid: Option<nat>)
      ensures sid.Some? ==> IPv4Dst(pkt).Some? && sid.value in sessions
      ensures Inverse(Tables()) ==>
                forall s :: sid == Some(s) <==> s in sessions && Some(sessions[s].addr) == IPv4Dst(pkt)
      ensures Inverse(Tables()) ==>
                forall first: byte, head, src: nat, dst: nat, rest ::
                  |head| == 11 && src < U32 && dst < U32 && pkt == Laid(first, head, src, dst, rest) ==>
                    forall s :: sid == Some(s) <==> 64 <= first < 80 && s in sessions && sessions[s].addr == dst
    {
      forall first: byte, head, src: nat, dst: nat, rest | |head| == 11 && src < U32 && dst < U32 {
        LaidAddresses(first, head, src, dst, rest);
      }
      var dst := IPv4Dst(pkt);
      if dst.None? || dst.value !in byIP || byIP[dst.value] !in sessions {
        return None;
      }
      return Some(byIP[dst.value]);
    }

    /** A client packet reaches the TUN only under its session's own source address. */
    method WriteInbound(sid: nat, pkt: Packet)
      modifies this`tun
      ensures tun == if sid in sessions && IPv4Src(pkt) == Some(sessions[sid].addr) then old(tun) + [pkt] else old(tun)
      ensures forall first: byte, head, src: nat, dst: nat, rest ::
                |head| == 11 && src < U32 && dst < U32 && pkt == Laid(first, head, src, dst, rest) ==>
                  tun == if sid in sessions && 64 <= first < 80 && sessions[sid].addr == src then old(tun) + [pkt]
                         else old(tun)
    {
      forall first: byte, head, src: nat, dst: nat, rest | |head| == 11 && src < U32 && dst < U32 {
        LaidAddresses(first, head, src, dst, rest);
      }
      if sid in sessions {
        var src := IPv4Src(pkt);
        if src.None? || src.value != sessions[sid].addr {
          return;
        }
        tun := tun + [pkt];
      }
    }
  }

  // ---- what a stream leaves behind ----

  lemma ReplayAppend(log: Stream, m: Msg)
    ensures Replay(log + [m]) == Handle(Replay(log), m)
  {
  }

  /** After an ordered stream the table holds exactly the ids started and not ended. */
  lemma {:induction false} ReplayKeys(log: Stream, sid: nat)
    requires Ordered(log)
    ensures sid in Replay(log).sessions <==> HasStart(log, sid) && !HasEnd(log, sid)
  {
    if log != [] {
      var rest, m := log[..|log| - 1], log[|log| - 1];
      assert log == rest + [m];
      ReplayKeys(rest, sid);
      HasAppend(rest, m, sid);
    }
  }

  /** The suspended flag is decided by the last start or suspension. */
  lemma {:induction false} ReplayFlag(log: Stream, sid: nat)
    requires Ordered(log) && sid in Replay(log).sessions
    ensures Replay(log).sessions[sid].suspended <==> LastIsSuspend(log, sid)
  {
    var rest, m := log[..|log| - 1], log[|log| - 1];
    assert log == rest + [m];
    ReplayKeys(rest, sid);
    ReplayKeys(log, sid);
    HasAppend(rest, m, sid);
    if sid in Replay(rest).sessions {
      ReplayFlag(rest, sid);
    }
  }

  /** Every start of a session names the same address. */
  predicate Addresses(log: Stream, addrs: map<nat, nat>) {
    forall i :: 0 <= i < |log| && log[i].SessionStart? ==> log[i].sid in addrs && log[i].addr == addrs[log[i].sid]
  }

  lemma {:induction false} ReplayAddr(log: Stream, addrs: map<nat, nat>, sid: nat)
    requires Addresses(log, addrs) && sid in Replay(log).sessions
    ensures sid in addrs && Replay(log).sessions[sid].addr == addrs[sid]
  {
    var rest, m := log[..|log| - 1], log[|log| - 1];
    assert forall i :: 0 <= i < |rest| ==> rest[i] == log[i];
    if sid in Replay(rest).sessions {
      ReplayAddr(rest, addrs, sid);
    }
  }

  // ---- when the two maps stay inverse ----

  /** A new session is announced under an address that another session still holds. */
  predicate Clash(t: Index, m: Msg) {
    m.SessionStart? && m.sid !in t.sessions && exists sid :: sid in t.sessions && t.sessions[sid].addr == m.addr
  }

  /** At no point of the stream does a start clash. */
  predicate NoClash(log: Stream) {
    log == [] || (NoClash(log[..|log| - 1]) && !Clash(Replay(log[..|log| - 1]), log[|log| - 1]))
  }

  /** At every point of the stream the maps are inverse. */
  predicate AlwaysInverse(log: Stream) {
    Inverse(Replay(log)) && (log == [] || AlwaysInverse(log[..|log| - 1]))
  }

  lemma HandleKeepsInverse(t: Index, m: Msg)
    requires Inverse(t)
    ensures Inverse(Handle(t, m)) <==> !Clash(t, m)
  {
    if Clash(t, m) {
      var sid :| sid in t.sessions && t.sessions[sid].addr == m.addr;
      assert sid in Handle(t, m).sessions;
    }
  }

  /** The maps stay inverse at every point of a stream exactly when no start clashes. */
  lemma {:induction false} InverseIffNoClash(log: Stream)
    ensures AlwaysInverse(log) <==> NoClash(log)
  {
    if log != [] {
      var rest, m := log[..|log| - 1], log[|log| - 1];
      InverseIffNoClash(rest);
      if Inverse(Replay(rest)) {
        HandleKeepsInverse(Replay(rest), m);
      }
    }
  }
}

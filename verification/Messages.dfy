/** The control messages that move a session along on the exit, and what a whole stream of them says. */
module Messages {

  /** Broker to exit: serve a session (again), mark it suspended, or drop it. */
  datatype Msg = SessionStart(sid: nat, addr: nat) | SessionSuspend(sid: nat) | SessionEnd(sid: nat)

  type Stream = seq<Msg>

  predicate HasStart(log: Stream, sid: nat) {
    exists i :: 0 <= i < |log| && log[i].SessionStart? && log[i].sid == sid
  }

  predicate HasEnd(log: Stream, sid: nat) {
    SessionEnd(sid) in log
  }

  /** No session is started after it was ended. */
  predicate Ordered(log: Stream) {
    forall i, j :: 0 <= i < j < |log| && log[i].SessionEnd? && log[j].SessionStart? ==> log[i].sid != log[j].sid
  }

  /** Of the starts and suspensions of sid, the last one is a suspension. */
  predicate LastIsSuspend(log: Stream, sid: nat) {
    if log == [] then false
    else
      var m := log[|log| - 1];
      if m.sid != sid || m.SessionEnd? then LastIsSuspend(log[..|log| - 1], sid) else m.SessionSuspend?
  }

  lemma HasAppend(log: Stream, m: Msg, sid: nat)
    ensures HasStart(log + [m], sid) <==> HasStart(log, sid) || (m.SessionStart? && m.sid == sid)
    ensures HasEnd(log + [m], sid) <==> HasEnd(log, sid) || m == SessionEnd(sid)
  {
    if HasStart(log, sid) {
      var i :| 0 <= i < |log| && log[i].SessionStart? && log[i].sid == sid;
      assert (log + [m])[i] == log[i];
    }
    assert (log + [m])[|log|] == m;
  }
}

/** Which exits are online: registrations come and go by node id, not by connection. */
module BrokerRegistry {
  import opened IpPool
  import opened BrokerState

  /** The step registers an exit under the node id, or removes what is registered there. */
  predicate Touches(s: State, step: Step, node: string) {
    || (step.Register? && step.info.node == node)
    || (step.ExitGone? && step.r in s.t.info && s.t.info[step.r].node == node)
  }

  predicate Untouched(s: State, steps: seq<Step>, node: string)
    requires IsRun(s, steps)
    decreases |steps|
  {
    steps == [] || (!Touches(s, steps[0], node) && Untouched(Do(s, steps[0]), steps[1..], node))
  }

  predicate Online(t: Tables, node: string, r: Reg) {
    node in t.exits && t.exits[node] == r
  }

  lemma OnlineStep(s: State, step: Step, node: string, r: Reg)
    requires s.t.pool.Valid() && Enabled(s, step) && r < s.t.nextReg
    ensures r < Do(s, step).t.nextReg
    ensures Online(Do(s, step).t, node, r) <==> Online(s.t, node, r) && !Touches(s, step, node)
  {
    match step
    case Drop(p, intentional) => DropKeepsExits(s, p, intentional);
    case _ =>
  }

  lemma DropKeepsExits(s: State, p: Pid, intentional: bool)
    requires Enabled(s, Drop(p, intentional))
    ensures DoDrop(s, p, intentional).t.exits == s.t.exits
    ensures DoDrop(s, p, intentional).t.nextReg == s.t.nextReg
  {
  }

  /**
   Over any run a registration is online at the end if and only if it was at the start and no step registered or removed
   anything under its node id, whichever connection that step belonged to.
   */
  lemma {:induction false} StaysOnlineIff(s: State, steps: seq<Step>, node: string, r: Reg)
    requires IsRun(s, steps) && r < s.t.nextReg
    ensures Online(Exec(s, steps).t, node, r) <==> Online(s.t, node, r) && Untouched(s, steps, node)
    decreases |steps|
  {
    if steps != [] {
      OnlineStep(s, steps[0], node, r);
      StaysOnlineIff(Do(s, steps[0]), steps[1..], node, r);
    }
  }

  /**
   An exit that reconnects before its old connection is seen to end is taken offline when it does: the registration
   made last is gone although its own connection never ended.
   */
  lemma OldConnectionTakesDownNew(pool: PoolState, ttl: int, info: ExitInfo) returns (steps: seq<Step>)
    requires pool.Valid()
    ensures IsRun(Init(pool, ttl), steps) && ExitGone(1) !in steps
    ensures var t := Exec(Init(pool, ttl), steps).t; 1 in t.info && t.info[1].node == info.node && info.node !in t.exits
  {
    var s0 := Init(pool, ttl);
    var s1 := Do(s0, Register(info));
    var s2 := Do(s1, Register(info));
    var s3 := Do(s2, ExitGone(0));
    steps := [Register(info), Register(info), ExitGone(0)];
    assert steps[1..] == [Register(info), ExitGone(0)] && steps[1..][1..] == [ExitGone(0)];
    assert steps[1..][1..][1..] == [] && IsRun(s3, []) && Exec(s3, []) == s3;
    assert IsRun(s2, [ExitGone(0)]) && Exec(s2, [ExitGone(0)]) == s3;
    assert IsRun(s1, steps[1..]) && Exec(s1, steps[1..]) == s3;
  }
}

/**
 The quality tracker of internal/qos/qos.go: live load per exit, byte totals and throughput windows per
 session, and the events it raises. Rates and seconds are reals.
 */
module Qos {
  import opened Basics
  import opened QosHistory

  const FLOOR: real := 65536.0
  const WINDOW: real := 1.0

  // ---- data ----

  datatype Window = Window(start: real, bytes: nat)

  /** A closed window: its rate and how long it was open. */
  datatype Sample = Sample(rate: real, dur: real)

  datatype Flow = Flow(node: string, up: nat, down: nat, bps: real, peak: real, degraded: bool, win: Window)

  datatype Load = Load(active: nat, up: nat, down: nat, bps: real, peak: real, win: Window)

  datatype Event =
    | NodeUp(node: string)
    | NodeDown(node: string)
    | Connect(sid: string, node: string)
    | Disconnect(sid: string, node: string)
    | SpeedDrop(sid: string, bps: real)
    | Recovered(sid: string, bps: real)

  datatype Track = Track(sessions: map<string, Flow>, exits: map<string, Load>, log: seq<Event>)

  /** The tracker's calls, each with the clock it reads. */
  datatype Op =
    | OpNodeUp(node: string, ts: real)
    | OpNodeDown(node: string)
    | OpConnect(sid: string, node: string, ts: real)
    | OpDisconnect(sid: string)
    | OpAddBytes(sid: string, fromClient: bool, n: nat, ts: real)
    | OpReport(sid: string, up: nat, down: nat, bps: real)

  // ---- operations ----

  /** Add bytes to a window; once it is a second old it closes and yields a sample. */
  function Metered(w: Window, n: nat, ts: real): (Window, Option<Sample>) {
    var d := ts - w.start;
    if d >= WINDOW then (Window(ts, 0), Some(Sample((w.bytes + n) as real / d, d)))
    else (w.(bytes := w.bytes + n), None)
  }

  /** Take a throughput sample: a session degrades below half of its peak and recovers at four fifths of it. */
  function Sampled(sid: string, f: Flow, bps: real): (Flow, seq<Event>) {
    var g := f.(bps := bps, peak := if bps > f.peak then bps else f.peak);
    if g.peak < FLOOR then (g, [])
    else if !g.degraded && bps < g.peak * 0.5 then (g.(degraded := true), [SpeedDrop(sid, bps)])
    else if g.degraded && bps >= g.peak * 0.8 then (g.(degraded := false), [Recovered(sid, bps)])
    else (g, [])
  }

  function Counted(f: Flow, fromClient: bool, n: nat): Flow {
    if fromClient then f.(up := f.up + n) else f.(down := f.down + n)
  }

  function Carried(e: Load, fromClient: bool, n: nat, ts: real): Load {
    var (w, s) := Metered(e.win, n, ts);
    var c := if fromClient then e.(up := e.up + n, win := w) else e.(down := e.down + n, win := w);
    if s.None? then c
    else c.(bps := s.value.rate, peak := if s.value.rate > c.peak then s.value.rate else c.peak)
  }

  function Relayed(sid: string, f: Flow, fromClient: bool, n: nat, ts: real): (Flow, seq<Event>) {
    var (w, s) := Metered(f.win, n, ts);
    var g := Counted(f, fromClient, n).(win := w);
    if s.Some? then Sampled(sid, g, s.value.rate) else (g, [])
  }

  function Reported(sid: string, f: Flow, up: nat, down: nat, bps: real): (Flow, seq<Event>) {
    var g := f.(up := if up > f.up then up else f.up, down := if down > f.down then down else f.down);
    if bps > 0.0 then Sampled(sid, g, bps) else (g, [])
  }

  function Step(t: Track, op: Op): Track {
    match op
    case OpNodeUp(node, ts) =>
      t.(exits := t.exits[node := Load(0, 0, 0, 0.0, 0.0, Window(ts, 0))], log := t.log + [NodeUp(node)])
    case OpNodeDown(node) =>
      t.(exits := t.exits - {node}, log := t.log + [NodeDown(node)])
    case OpConnect(sid, node, ts) =>
      Track(t.sessions[sid := Flow(node, 0, 0, 0.0, 0.0, false, Window(ts, 0))],
            if node in t.exits then t.exits[node := t.exits[node].(active := t.exits[node].active + 1)] else t.exits,
            t.log + [Connect(sid, node)])
    case OpDisconnect(sid) =>
      if sid !in t.sessions then t
      else
        var node := t.sessions[sid].node;
        Track(t.sessions - {sid},
              if node in t.exits && t.exits[node].active > 0
                  then t.exits[node := t.exits[node].(active := t.exits[node].active - 1)]
              else t.exits,
              t.log + [Disconnect(sid, node)])
    case OpAddBytes(sid, fromClient, n, ts) =>
      if sid !in t.sessions then t
      else
        var node := t.sessions[sid].node;
        var (f, evs) := Relayed(sid, t.sessions[sid], fromClient, n, ts);
        Track(t.sessions[sid := f],
              if node in t.exits then t.exits[node := Carried(t.exits[node], fromClient, n, ts)] else t.exits,
              t.log + evs)
    case OpReport(sid, up, down, bps) =>
      if sid !in t.sessions then t
      else
        var (f, evs) := Reported(sid, t.sessions[sid], up, down, bps);
        t.(sessions := t.sessions[sid := f], log := t.log + evs)
  }

  /** The state after a run of calls on a new tracker. */
  function Run(ops: seq<Op>): Track {
    if ops == [] then Track(map[], map[], []) else Step(Run(ops[..|ops| - 1]), ops[|ops| - 1])
  }

  /**
   The tracker object. hist is the capped ring and store the file behind it, if any; log records every event it was
   ever given.
   */
  class Tracker {
    const histCap: nat
    var sessions: map<string, Flow>
    var exits: map<string, Load>
    var hist: seq<Event>
    var store: FileStore?<Event>
    ghost var log: seq<Event>
    ghost var seed: seq<Event> // the part of the log that came from the store
    ghost var filed: seq<Event> // what the store had been given when it was attached

    ghost function State(): Track
      reads this
    {
      Track(sessions, exits, log)
    }

    /**
     The ring holds the newest events, as many as fit, and the store was given every event of the log that did not come
     from it.
     */
    ghost predicate Valid()
      reads this, store
    {
      && histCap > 0 && hist == Newest(log, histCap) && seed <= log
      && (store != null ==> store.Valid() && store.given == filed + log[|seed|..])
    }

    constructor (histCap: int)
      ensures Valid() && State() == Run([]) && this.histCap == (if histCap <= 0 then 1000 else histCap) && store == null
    {
      this.histCap := if histCap <= 0 then 1000 else histCap;
      sessions, exits, hist, store, log, seed, filed := map[], map[], [], null, [], [], [];
    }

    /** Attach a store, which gets every event from now on. */
    method WithStore(s: FileStore<Event>)
      requires Valid() && s.Valid()
      modifies this`store, this`seed, this`filed
      ensures Valid() && store == s && filed == s.given && seed == log
    {
      store, seed, filed := s, log, s.given;
      assert log[|seed|..] == [];
    }

    method AppendEvent(e: Event)
      requires Valid()
      modifies this`hist, this`log, store
      ensures Valid() && log == old(log) + [e]
    {
      NewestAppend(log, histCap, e);
      hist := hist + [e];
      if |hist| > histCap {
        hist := hist[|hist| - histCap..];
      }
      if store != null {
        store.Append(e);
      }
      assert (log + [e])[|seed|..] == log[|seed|..] + [e];
      log := log + [e];
    }

    method OnNodeUp(node: string, ts: real)
      requires Valid()
      modifies this`sessions, this`exits, this`hist, this`log, store
      ensures Valid() && State() == Step(old(State()), OpNodeUp(node, ts))
    {
      exits := exits[node := Load(0, 0, 0, 0.0, 0.0, Window(ts, 0))];
      AppendEvent(NodeUp(node));
    }

    method OnNodeDown(node: string)
      requires Valid()
      modifies this`sessions, this`exits, this`hist, this`log, store
      ensures Valid() && State() == Step(old(State()), OpNodeDown(node))
    {
      exits := exits - {node};
      AppendEvent(NodeDown(node));
    }

    method OnConnect(sid: string, node: string, ts: real)
      requires Valid()
      modifies this`sessions, this`exits, this`hist, this`log, store
      ensures Valid() && State() == Step(old(State()), OpConnect(sid, node, ts))
    {
      sessions := sessions[sid := Flow(node, 0, 0, 0.0, 0.0, false, Window(ts, 0))];
      if node in exits {
        exits := exits[node := exits[node].(active := exits[node].active + 1)];
      }
      AppendEvent(Connect(sid, node));
    }

    method OnDisconnect(sid: string)
      requires Valid()
      modifies this`sessions, this`exits, this`hist, this`log, store
      ensures Valid() && State() == Step(old(State()), OpDisconnect(sid))
    {
      if sid !in sessions {
        return;
      }
      var node := sessions[sid].node;
      sessions := sessions - {sid};
      if node in exits && exits[node].active > 0 {
        exits := exits[node := exits[node].(active := exits[node].active - 1)];
      }
      AppendEvent(Disconnect(sid, node));
    }

    method AddBytes(sid: string, fromClient: bool, n: nat, ts: real)
      requires Valid()
      modifies this`sessions, this`exits, this`hist, this`log, store
      ensures Valid() && State() == Step(old(State()), OpAddBytes(sid, fromClient, n, ts))
    {
      if sid !in sessions {
        return;
      }
      var f := RelayBytes(sid, sessions[sid], fromClient, n, ts);
      sessions := sessions[sid := f];
      if f.node in exits {
        exits := exits[f.node := Carried(exits[f.node], fromClient, n, ts)];
      }
    }

    /** The session's part of AddBytes. */
    method RelayBytes(sid: string, was: Flow, fromClient: bool, n: nat, ts: real) returns (f: Flow)
      requires Valid()
      modifies this`hist, this`log, store
      ensures Valid() && f == Relayed(sid, was, fromClient, n, ts).0
              && log == old(log) + Relayed(sid, was, fromClient, n, ts).1
    {
      f := Counted(was, fromClient, n);
      var w := f.win.(bytes := f.win.bytes + n);
      var d := ts - w.start;
      if d >= WINDOW {
        f := SampleSession(sid, f.(win := Window(ts, 0)), w.bytes as real / d);
      } else {
        f := f.(win := w);
      }
    }

    method Report(sid: string, up: nat, down: nat, bps: real)
      requires Valid()
      modifies this`sessions, this`exits, this`hist, this`log, store
      ensures Valid() && State() == Step(old(State()), OpReport(sid, up, down, bps))
    {
      if sid !in sessions {
        return;
      }
      var f := sessions[sid];
      if up > f.up {
        f := f.(up := up);
      }
      if down > f.down {
        f := f.(down := down);
      }
      if bps > 0.0 {
        f := SampleSession(sid, f, bps);
      }
      sessions := sessions[sid := f];
    }

    method SampleSession(sid: string, f: Flow, bps: real) returns (g: Flow)
      requires Valid()
      modifies this`hist, this`log, store
      ensures Valid() && g == Sampled(sid, f, bps).0 && log == old(log) + Sampled(sid, f, bps).1
      ensures g.bps == bps && g.peak == (if bps > f.peak then bps else f.peak)
      ensures var drops, recovers := !f.degraded && bps < g.peak / 2.0, f.degraded && bps >= g.peak * 4.0 / 5.0;
              if g.peak >= 65536.0 && drops then g.degraded && log == old(log) + [SpeedDrop(sid, bps)]
              else if g.peak >= 65536.0 && recovers then !g.degraded && log == old(log) + [Recovered(sid, bps)]
              else g.degraded == f.degraded && log == old(log)
    {
      g := f.(bps := bps);
      if bps > g.peak {
        g := g.(peak := bps);
      }
      if g.peak < FLOOR {
        return;
      }
      if !g.degraded && bps < g.peak * 0.5 {
        g := g.(degraded := true);
        AppendEvent(SpeedDrop(sid, bps));
      } else if g.degraded && bps >= g.peak * 0.8 {
        g := g.(degraded := false);
        AppendEvent(Recovered(sid, bps));
      }
    }

    /** The newest events, newest first; a limit of zero or less asks for all that are kept. */
    method History(limit: int) returns (out: seq<Event>)
      requires Valid()
      ensures out == Reversed(Newest(log, if limit > 0 then Min(histCap, limit) else histCap))
    {
      out := TakeNewest(hist, limit);
      NewestOfNewest(log, histCap, if limit > 0 then limit else histCap);
      NewestAll(hist, histCap);
    }

    /** Seed the ring from the store's rows, the newest up to a positive limit. */
    method Preload(limit: int)
      requires Valid()
      modifies this`hist, this`log, this`seed, this`filed
      ensures Valid()
      ensures store == null ==> log == old(log) && hist == old(hist)
      ensures store != null ==> log == seed == Newest(store.rows, if limit > 0 then limit else |store.rows|)
    {
      if store == null {
        return;
      }
      hist := Recall(store.rows, limit);
      log, seed, filed := hist, hist, store.given;
      assert log[|seed|..] == [];
      if |hist| > histCap {
        hist := hist[|hist| - histCap..];
      }
    }
  }

  /** A limit of zero or less asks for everything there is. */
  function Limit(limit: int, all: nat): nat { if limit > 0 then limit else all }

  /** How many events survive a restart: the file's rows, the load limit, the ring and the question each cut. */
  function Surviving(limit: int, histCap: int, k: int): (n: nat)
    ensures n <= 5000 && (limit > 0 ==> n <= limit) && (k > 0 ==> n <= k)
    ensures n <= if histCap > 0 then histCap else 1000
    ensures n == 5000 || n == limit || n == k || n == if histCap > 0 then histCap else 1000
  {
    var ring := Limit(histCap, 1000);
    Min(Min(MAX_ROWS, Limit(limit, MAX_ROWS)), Min(ring, Limit(k, ring)))
  }

  /**
   A restart: close the store a tracker left, open its file again, seed a new tracker from it and ask for history.
   The answer is the newest events on file, newest first, as many as every limit allows; and if no event was lost,
   the newest of all events the store was ever given.
   */
  method Restart(store: FileStore<Event>, works: seq<bool>, limit: int, histCap: int, k: int) returns (out: seq<Event>)
    requires store.Valid() && (store.closed ==> store.queue == []) && |works| == |store.queue|
    modifies store
    ensures out == Reversed(Newest(old(store.rows) + Kept(old(store.queue), works), Surviving(limit, histCap, k)))
    ensures old(store.lost) == 0 && false !in works ==>
            out == Reversed(Newest(store.given, Surviving(limit, histCap, k)))
    ensures store.given == old(store.given)
  {
    if false !in works {
      KeptAll(store.queue, works);
    }
    store.Close(works);
    store.FileIsWholeIffNothingLost();
    out := Reopened(store.rows, limit, histCap, k);
  }

  method Reopened(file: seq<Event>, limit: int, histCap: int, k: int) returns (out: seq<Event>)
    ensures out == Reversed(Newest(file, Surviving(limit, histCap, k)))
  {
    var store := new FileStore(file);
    var tracker := new Tracker(histCap);
    tracker.WithStore(store);
    tracker.Preload(limit);
    out := tracker.History(k);
    RestartCuts(file, limit, histCap, k);
  }

  lemma RestartCuts(file: seq<Event>, limit: int, histCap: int, k: int)
    ensures var rows, ring := Newest(file, MAX_ROWS), Limit(histCap, 1000);
            Newest(Newest(rows, if limit > 0 then limit else |rows|), if k > 0 then Min(ring, k) else ring)
            == Newest(file, Surviving(limit, histCap, k))
  {
    var rows, ring := Newest(file, MAX_ROWS), Limit(histCap, 1000);
    NewestAll(rows, MAX_ROWS);
    NewestThrice(file, MAX_ROWS, Limit(limit, MAX_ROWS), Min(ring, Limit(k, ring)));
  }
}

# Revquic: a verified model

Revquic is a VPN in which exits dial out to a broker and clients reach the Internet through an exit the
broker picks for them. This project models its core in Dafny and proves what every run of it keeps.

- **The broker's session protocol** (`BrokerState`, `BrokerLinks`, `BrokerAddresses`, `BrokerParks`,
  `BrokerLoad`, `BrokerAgreement`, `BrokerHistory`, `BrokerTheorems`, `BrokerExits`, `BrokerRouting`,
  `BrokerCapacity`, `BrokerDecisions`, `BrokerRegistry`, `BrokerWitnesses`, `BrokerObject`). Admit, start, park on
  drop, resume by key, expire by timer, end and exit loss are steps of a transition system. A section under the
  broker's mutex is one step; taking a session number, allocating an address, bumping a counter and writing to a
  control stream are steps of their own. `BrokerObject` is
  the broker as an object, one method per section; methods and steps use the same functions of the tables,
  and `DropIsSuspendSection` ties the one step that is written differently.
- **The exit's tables** (`ExitTable`, `Messages`): the other end of the control stream, a two-way index
  between sessions and addresses.
- **The address pool** (`IpPool`), **the load balancer** (`LoadBalancer`, `RoundRobinTurns`), **the rate limiter**
  (`RateLimit`) and **the data path that migrates between relay and peer** (`PathSession`, `PathRate`, `PathRateExact`).
- **The quality tracker** (`Qos`, `QosTheorems`, `QosAccounts`, `QosRates`), **its history** (`QosHistory`), **the user
  registry** (`UserStore`), **the wire formats** (`Codec`) and **password hashing** (`Pbkdf2`).

`dafny verify dfyconfig.toml` checks everything.

## What the proofs show about the code

Some statements one would like to make are false of the code. Each has a lemma that shows it fail and a theorem
with the condition under which it holds.

- The suspension message is written after the mutex is released, so it can follow the start of a resume. The
  exit then shows a running session as suspended (`LateSuspensionHappens`). The flag is right exactly when no
  suspension came late (`ExitFlagAgrees`), which lock order guarantees (`FlagIsParkedInLockOrder`).
- An address is released before its `SessionEnd` is written. Reused in between, it loses its route on the
  exit (`EarlyReuseHappens`). The exit's maps stay inverse exactly when no start clashes (`InverseIffNoClash`),
  which on a live exit is exactly when every start waited for the end of the session still held under its address
  (`ExitIndexStaysInverse`).
- Parking under a key that is taken displaces the session filed there, and its address is never released
  (`DisplacementLeaks`, `DisplacedLeaksForever`). A run that leaves the broker empty leaves an empty pool exactly
  when no park in it displaced another session (`EmptyBrokerLeaksNothing`).
- Admissions to one exit that overlap can exceed its capacity (`OverlappingAdmissionsExceedCapacity`). What counts
  is the number of claims on it, from the pick on: the sessions admitted stay within the capacity exactly when the
  claims do (`StaysWithinIff`, `PickIsSafeIff`, `CapacityRespected`), as they do for admissions one at a time
  (`OneAtATimeLeavesRoom`). Resuming does not look at the capacity.
- Exits are removed by node id, so an exit that reconnects is taken offline when its old connection ends
  (`OldConnectionTakesDownNew`). A registration stays online exactly while nothing else is registered or removed under
  its node id (`StaysOnlineIff`).
- A negative capacity means unlimited to the balancer, but such an exit can never be chosen by name
  (`NegativeCapacityIsNeverNamed`); `Broker.ChooseExit` states exactly when a named exit is.
- Round robin is not fair across the wrap of its 64-bit counter (`WrapRepeatsATurn`), except when the number of
  exits divides 2^64 or the wrap falls between two sweeps (`RoundRobinIsFairIff`).
- A state change and the path it installs are separate, so a closed session can be left with a live path
  (`ClosedWithAPath`). Path and phase fit exactly when the install that ran last is of the kind asked for last
  (`PathFitsIffLatest`), as it is for installs in order (`OrderedInstallsFit`).
- The rate bound over two points of a run needs the bytes already past the limiter (`InFlightCounts`,
  `RateBoundAcrossMigrations`); without them it holds of every continuation exactly when they and the credit left
  fit the burst (`PlainBoundIff`).
- Speed events alternate within a connection (`SpeedEventsAlternate`) but not over the whole life of an id
  (`ReconnectBreaksAlternation`): they do exactly when no drop follows a connection that began on a drop
  (`AlternateEverIff`).
- The tracker's count for an exit is one too high after an id connects while tracked on it (`ReusedIdCountsTwice`);
  it is exact exactly when that never happens and exits come up clean (`ActiveIsExactIffCountedAfresh`).
- Two users with one credential: deleting or rotating one refuses the other (`SharedCredentialLocksOut`); the
  index is exact exactly when no operation brings in a credential that is held (`AlwaysIndexedIffNoClash`).

Where code and documentation disagree the model follows the code: the comment above `suspendSession` says a
session is parked if its exit is online, while the code does not look (`cmd/revquic-broker/main.go:716-727`).

## Modelling choices

- Time is an integer number of ticks in the broker and a real number of seconds in the limiter, the session and
  the tracker. It never runs back in the broker and in the session; the limiter and the tracker take any readings.
- Addresses are numbers, a prefix is an address and its number of host bits, and packets are byte sequences.
- Names of exit registrations and goroutines are numbers handed out in order. `lives`, `late` and `broken` in
  the broker's state, `log`, `given` and `lost` in the tracker and its store, and `marks` in the limiter's
  ledger are history variables that no branch of the code reads.
- JSON, HMAC and base64 are parameters with the laws a proof needs: parsing undoes printing, outputs have the
  stated length and are not empty, base64 has no dollar sign. Random draws (user ids, salts, the random
  strategy) and the results of writes, connections and the disk are parameters as well.
- Floats are reals and byte counters are unbounded; the round-robin counter wraps at 2^64 and the PBKDF2 block
  number at 2^32.

## Model

| member | source | states |
|---|---|---|
| `BrokerTheorems.InvRun` | cmd/revquic-broker/main.go:454-790 | Every run, whatever its interleaving of locked sections, atomic counters and control writes, keeps the whole structural, address, timer, load and agreement invariant |
| `BrokerTheorems.AddressConservation` | cmd/revquic-broker/main.go:609-656 | At every point of every run the used set is exactly the addresses held by active, parked, displaced and in-flight sessions; no two hold the same one, and each is a usable host address (never network, broadcast or reserved) |
| `BrokerTheorems.EmptyBrokerLeaksNothing` | cmd/revquic-broker/main.go:719-790 | A run that leaves the broker empty has given back every address if and only if no park in it displaced another session |
| `BrokerAddresses.EmptyBrokerEmptyPool` | cmd/revquic-broker/main.go:719-767 | For an empty broker: the pool is empty if and only if no parked session was ever displaced |
| `BrokerTheorems.DisplacedLeaksForever` | cmd/revquic-broker/main.go:727-734 | A session displaced from its resume key is never ended, so its address stays taken in every continuation |
| `BrokerWitnesses.DisplacementLeaks` | cmd/revquic-broker/main.go:727-767 | A complete run in which two connections share a resume key and the broker ends up empty with an address still taken |
| `BrokerTheorems.IdentityKept` | cmd/revquic-broker/main.go:634-656 | However often it is parked and resumed, a session keeps its id, address, user, resume key and node |
| `BrokerTheorems.ResumeReattaches` | cmd/revquic-broker/main.go:634-656 | A resumption hands a parked session within its window to a connection of its own user under its own key, on the exit now registered for its node; nothing else about it and no other session changes |
| `BrokerTheorems.ParkPeriodEndsOnce` | cmd/revquic-broker/main.go:719-767 | In any run a park period ends at most once |
| `BrokerTheorems.ParkPeriodEndsOneWay` | cmd/revquic-broker/main.go:634-767 | The step that ends a park period is a resumption, an expiry or a displacement, and only one of them |
| `BrokerTheorems.ExpiryAfterFullWindow` | cmd/revquic-broker/main.go:727-767 | Expiry ends a session only after it was parked for the full window since its latest suspension |
| `BrokerTheorems.StaleTimersAreHarmless` | cmd/revquic-broker/main.go:750-756 | No timer belongs to a running session; a timer that fires ends its session if and only if that was not displaced, and the timer of a displaced one changes nothing but itself |
| `BrokerParks.TimedResume` | cmd/revquic-broker/main.go:634-656 | Resuming inside the window always finds the session's own timer unfired, so stopping it succeeds |
| `BrokerDecisions.DropParksIff` | cmd/revquic-broker/main.go:719-739 | In every reachable state a dropped session is filed under its key with its address still taken and its exit to be told to suspend it if and only if the drop was not intentional, the key is not empty and the window is positive, whatever exits are online; otherwise it is in neither map, its address is free and its exit is to be told that it ended |
| `BrokerDecisions.ResumesIff` | cmd/revquic-broker/main.go:634-656 | A resumption is possible if and only if the key is not empty, a session of the same user is filed under it, now is before its suspension time plus the window and its node is online |
| `BrokerDecisions.PicksIff` | cmd/revquic-broker/main.go:580-607 | An exit may be picked if and only if it is the registration online for its node and has no limit or fewer clients than its limit |
| `BrokerDecisions.WindowRunsOut` | cmd/revquic-broker/main.go:727-767 | The timer of a parked session is due exactly from its suspension time plus the window on; once fired it removes the session from the broker and frees its address, and the exit now registered for its node, if any, is to be told |
| `BrokerRegistry.StaysOnlineIff` | cmd/revquic-broker/main.go:459-503 | Over any run a registration is online at the end if and only if it was at the start and nothing was registered or removed under its node id, by whichever connection |
| `BrokerRegistry.OldConnectionTakesDownNew` | cmd/revquic-broker/main.go:501-503 | A complete run in which an exit reconnects, its old connection ends, and the new registration is gone though its own connection never ended |
| `BrokerExits.LoadCounter` | cmd/revquic-broker/main.go:622-625 | In every run each exit object's counter is the number of sessions attached to it less the increments still pending, and is never negative |
| `BrokerCapacity.StaysWithinIff` | cmd/revquic-broker/main.go:580-628 | With addresses for the admissions under way, the sessions admitted to an exit stay within its capacity in every continuation without another pick of it if and only if the claims on it, counted or not, do now |
| `BrokerCapacity.PickIsSafeIff` | cmd/revquic-broker/main.go:580-628 | A pick is safe in that sense if and only if it finds fewer claims on the exit than its capacity |
| `BrokerCapacity.CapacityRespected` | cmd/revquic-broker/main.go:580-628 | If every pick of an exit finds fewer claims on it than its capacity, the sessions admitted to it never exceed its positive capacity, in any run |
| `BrokerCapacity.OneAtATimeLeavesRoom` | cmd/revquic-broker/main.go:580-628 | Admissions to an exit run one at a time always do, by the broker's own test of the counter |
| `BrokerWitnesses.OverlappingAdmissionsExceedCapacity` | cmd/revquic-broker/main.go:580-625 | A complete run in which two overlapping admissions put two sessions on an exit of capacity one |
| `BrokerExits.StartsPrecedeEnds` | cmd/revquic-broker/main.go:660-790 | On every exit's control stream, in every interleaving, no SessionStart for an id follows its SessionEnd |
| `BrokerExits.ExitTableAgrees` | cmd/revquic-broker/main.go:660-790 | Once the writes to an exit are drained, replaying its stream yields exactly the sessions attached to it, parked on it or displaced there |
| `BrokerExits.ExitFlagAgrees` | cmd/revquic-broker/main.go:719-736 | At rest the exit shows a session suspended if and only if it is parked or displaced, or its suspension was written after its restart |
| `BrokerExits.FlagIsParkedInLockOrder` | cmd/revquic-broker/main.go:719-736 | If each session's writes are issued in the order of its locked sections, the exit's flag is exactly "parked or displaced" |
| `BrokerWitnesses.LateSuspensionHappens` | cmd/revquic-broker/main.go:733-733 | A complete run in which the suspension is written after the resume's start and the exit shows a running session as suspended |
| `BrokerRouting.ExitIndexStaysInverse` | cmd/revquic-broker/main.go:609-628 | On an exit that is online and took every write, the two maps are mutually inverse after every message if and only if no start was written to it while the end of a session it still had under the same address was pending |
| `BrokerRouting.EarlyStartShows` | cmd/revquic-broker/main.go:660-790 | Once such a start is written, the stream holds a clash for good |
| `BrokerRouting.ReplyReachesOwner` | cmd/revquic-exit/main.go:495-520 | Under that condition and at rest, a reply for an attached session's address is routed to that session alone and, by the broker's lookup, to that session's client |
| `BrokerWitnesses.EarlyReuseHappens` | cmd/revquic-broker/main.go:737-739 | A complete run, over a /30 with one host reserved, in which an address released before its SessionEnd was written is reused and the new holder loses its route on the exit |
| `BrokerWitnesses.PoolsAreNew` | internal/ippool/ippool.go:28-44 | The pools of these runs are pools that New builds |
| `BrokerLinks.LinkedStep` | cmd/revquic-broker/main.go:454-790 | Every step keeps sessions, parked map, processes and session histories consistent with one another |
| `BrokerAddresses.AddressedStep` | cmd/revquic-broker/main.go:609-790 | Every step keeps the pool's used set equal to the addresses of held sessions, one each |
| `BrokerAddresses.AddressedIsConserved` | cmd/revquic-broker/main.go:609-790 | That invariant gives a bijection between used addresses and their holders in the four places a session can be |
| `BrokerParks.TimedStep` | cmd/revquic-broker/main.go:634-767 | Every step keeps each parked session paired with one timer whose deadline is its suspension time plus the window |
| `BrokerParks.ExpiredElsewhere` | cmd/revquic-broker/main.go:750-756 | A fired timer finds its own session parked under its key or finds nothing it may end |
| `BrokerLoad.LoadedStep` | cmd/revquic-broker/main.go:622-656 | Every step keeps every exit's counter exact |
| `BrokerLoad.CounterIsExact` | cmd/revquic-broker/main.go:622-656 | The counter invariant says: active equals attached sessions minus pending increments |
| `BrokerCapacity.ClaimsStep` | cmd/revquic-broker/main.go:580-656 | Only a pick of the exit adds a claim on it |
| `BrokerCapacity.AllAttach` | cmd/revquic-broker/main.go:609-625 | With enough free addresses every admission under way can go all the way, with the claims unchanged |
| `BrokerCapacity.NewSessionsAreClaims` | cmd/revquic-broker/main.go:622-625 | The sessions an exit got by admission are no more than the claims on it |
| `BrokerCapacity.ClaimsAreNewSessions` | cmd/revquic-broker/main.go:622-625 | With no admission under way they are no fewer |
| `BrokerAgreement.AgreedStep` | cmd/revquic-broker/main.go:660-790 | Every step keeps the written streams in agreement with the broker's maps and the writes still pending |
| `BrokerHistory.ContinuesStep` | cmd/revquic-broker/main.go:609-790 | Every step moves each session's history along one of the allowed ways only: attached, parked, resumed, displaced, ended |
| `BrokerHistory.RunsOutInTime` | cmd/revquic-broker/main.go:750-767 | A step that ends a parked session by expiry happens no earlier than its recorded suspension plus the window |
| `BrokerHistory.RecordAfter` | cmd/revquic-broker/main.go:719-736 | A session's suspension time is set by the drop that parks it and changed by nothing while it stays parked |
| `BrokerObject.DropIsSuspendSection` | cmd/revquic-broker/main.go:719-739 | The drop step of the transition system, which displaces and then parks, changes the tables exactly as the suspend section of the object, which overwrites the key |
| `BrokerObject.Broker.constructor` | cmd/revquic-broker/main.go:133-147 | A new broker has empty tables over its pool |
| `BrokerObject.Broker.RegisterExit` | cmd/revquic-broker/main.go:459-466 | Registers the exit under its node id with a zero counter; capacity 0 becomes 100; an earlier registration object is kept apart |
| `BrokerObject.Broker.RemoveExit` | cmd/revquic-broker/main.go:501-503 | Removes whatever is registered under the node id and nothing else |
| `BrokerObject.Broker.ChooseExit` | cmd/revquic-broker/main.go:580-607 | A named exit is chosen if and only if it is online, serves the region and has capacity 0 or fewer clients than its capacity; with no name the choice is an outcome of balancing; the counter moves only then |
| `BrokerObject.Broker.Balance` | cmd/revquic-broker/main.go:592-607 | None if and only if no online exit of the region has room; otherwise one that has, the one the strategy says among the views of all online exits |
| `BrokerObject.PickBalances` | cmd/revquic-broker/main.go:594-602 | What Pick promises about the views of the online exits is the outcome promised for them |
| `BrokerObject.BalancesMeans` | cmd/revquic-broker/main.go:592-607 | Balancing fails exactly when no online exit of the region has no limit or fewer clients than its limit; else it takes one that has, and least-conn one with the fewest clients among them |
| `BrokerObject.NegativeCapacityIsNeverNamed` | cmd/revquic-broker/main.go:583-584 | In every run an online exit with negative capacity is eligible to the balancer and can never be chosen by name |
| `BrokerObject.AlwaysRegistered` | cmd/revquic-broker/main.go:459-466 | In every run each online exit is a registration under its own node id with a counter |
| `BrokerObject.Broker.Candidates` | cmd/revquic-broker/main.go:594-597 | The balancer sees one up-to-date entry per online exit and no other |
| `BrokerObject.Broker.NextSession` | cmd/revquic-broker/main.go:609-609 | Session numbers count up by one |
| `BrokerObject.Broker.InsertSession` | cmd/revquic-broker/main.go:622-624 | Adds the session to the active map and changes nothing else |
| `BrokerObject.Broker.CountClient` | cmd/revquic-broker/main.go:625-625 | Adds one to the exit's counter and changes nothing else |
| `BrokerObject.Broker.TryResume` | cmd/revquic-broker/main.go:634-656 | Resumes if and only if a session of this user is filed under the key, now is before its suspension time plus the window and its node is online; the session then moves to the active map under its id, with the new connection and the exit now registered for its node; otherwise nothing changes |
| `BrokerObject.Broker.SuspendSession` | cmd/revquic-broker/main.go:719-739 | An active session leaves the active map and its exit counts one less; if the drop was not intentional, the key is not empty and the window is positive it is filed under its key, suspended as of now, with its address kept and SessionSuspend to be sent, else nothing is filed, its address is freed and SessionEnd is to be sent; no session, no change and no message |
| `BrokerObject.Broker.ExpirePark` | cmd/revquic-broker/main.go:750-764 | If and only if a suspended session of this number is filed under the key, it leaves the map and its address is freed, and the exit now registered for its node, if there is one, is to be told; otherwise nothing changes |
| `BrokerObject.Broker.EndSession` | cmd/revquic-broker/main.go:777-790 | An active session leaves the map, its exit counts one less and its address is freed; any other number changes nothing |
| `BrokerObject.Broker.Peer` | cmd/revquic-broker/main.go:801-819 | A datagram from the session's exit goes to its client, any other to its exit, and one for no session nowhere |
| `ExitTable.Exit.constructor` | cmd/revquic-exit/main.go:327-336 | A new exit has empty tables |
| `ExitTable.Exit.Reset` | cmd/revquic-exit/main.go:327-349 | Binding to a connection or losing it empties both maps |
| `ExitTable.Exit.AddSession` | cmd/revquic-exit/main.go:399-435 | Refines the message handler: a bad address is ignored, a known id only reactivated, a new id entered in both maps |
| `ExitTable.Exit.SuspendSession` | cmd/revquic-exit/main.go:366-372 | Flags a known session and changes nothing else |
| `ExitTable.Exit.RemoveSession` | cmd/revquic-exit/main.go:456-469 | Removes the session and the route of its address |
| `ExitTable.Exit.ControlLoop` | cmd/revquic-exit/main.go:356-375 | Running the loop over a connection's messages leaves exactly the replay of the stream |
| `ExitTable.Exit.RouteReply` | cmd/revquic-exit/main.go:495-520 | While the maps are inverse, a packet laid out with first byte f, source src and destination dst is routed to a session if and only if f says version 4 and that session owns dst |
| `ExitTable.Exit.WriteInbound` | cmd/revquic-exit/main.go:607-624 | A packet laid out with first byte f and source src reaches the TUN if and only if f says version 4 and src is its session's own address |
| `ExitTable.LaidAddresses` | cmd/revquic-exit/main.go:600-613 | A packet built as section 3.1 of RFC 791 lays it out, from a first byte, two addresses and anything else, names exactly those two addresses when the first byte says version 4 and none otherwise |
| `ExitTable.EveryPacketIsLaid` | cmd/revquic-exit/main.go:600-613 | A packet shorter than 20 bytes names no address, and every other is laid out from some two addresses |
| `ExitTable.ReplayKeys` | cmd/revquic-exit/main.go:356-469 | After an ordered stream the table holds exactly the ids started and not ended |
| `ExitTable.ReplayFlag` | cmd/revquic-exit/main.go:366-372 | A session's flag is decided by its latest start or suspension |
| `ExitTable.ReplayAddr` | cmd/revquic-exit/main.go:399-435 | If the stream names one address per id, the table holds that address |
| `ExitTable.HandleKeepsInverse` | cmd/revquic-exit/main.go:399-469 | A message keeps the maps inverse if and only if it is not a new id's start for an address another session holds |
| `ExitTable.InverseIffNoClash` | cmd/revquic-exit/main.go:327-469 | Over a whole stream the maps are always inverse if and only if no start clashes |
| `IpPool.Pool.constructor` | internal/ippool/ippool.go:28-44 | The prefix is masked, the pool empty, the cursor on the first host |
| `IpPool.Pool.IsBroadcast` | internal/ippool/ippool.go:61-76 | The byte-and-bit loop answers exactly whether addr mod 2^h = 2^h - 1, the last address of its block, for every prefix length |
| `IpPool.Pool.IsUsable` | internal/ippool/ippool.go:47-58 | Exactly the addresses strictly between the network address and the last of the prefix that are not reserved |
| `IpPool.Pool.Allocate` | internal/ippool/ippool.go:79-98 | For every prefix length, reserved set and used set it terminates with a free usable address, marks it used and moves the cursor past it, and no free address comes between the old cursor and it, going up and round; or no address is free and nothing changes |
| `IpPool.Pool.Release` | internal/ippool/ippool.go:101-105 | Frees the address and leaves the cursor |
| `IpPool.CandidateIsNearest` | internal/ippool/ippool.go:79-98 | Exhaustion is reported if and only if every usable address is used; otherwise the address given is the cyclically nearest free one |
| `IpPool.FirstFit` | internal/ippool/ippool.go:79-98 | No free address is met before the one handed out, going up from the cursor and round, and without an answer none is free |
| `IpPool.OnRing` | internal/ippool/ippool.go:79-98 | Every usable address is met within one sweep, so the iteration bound covers the wrap |
| `IpPool.IssuesMarchTowards` | internal/ippool/ippool.go:79-105 | While an address b stays free, each allocation in any run of allocations and releases lies strictly nearer to b than the one before |
| `IpPool.FreeAddressComesUp` | internal/ippool/ippool.go:79-105 | While b stays free no address is issued twice before it, and b is issued within as many allocations as its distance from the cursor |
| `IpPool.OnesIsLast` | internal/ippool/ippool.go:61-76 | All host bits are set exactly in the last address of a block |
| `IpPool.MaskedIsRemainder` | internal/ippool/ippool.go:33-33 | Masking is subtracting the remainder by 2^h |
| `LoadBalancer.Pick` | internal/lb/lb.go:63-96 | None if and only if every exit is of another region or has a positive capacity and no fewer clients; least-conn picks a minimum by count, load fraction and id; round-robin picks by cursor in id order and moves the cursor by one modulo 2^64 |
| `LoadBalancer.Least` | internal/lb/lb.go:86-94 | The scan returns a best exit of the sorted list |
| `LoadBalancer.BestMeans` | internal/lb/lb.go:51-94 | An exit is least-conn's choice if and only if it is of the region with a free seat and no other such exit has fewer clients, or as many and fewer to a seat (an unlimited one counts 1e9 seats), or as many to a seat and a smaller id |
| `LoadBalancer.LoadsCompare` | internal/lb/lb.go:53-58 | Load fractions compare as clients times the other's seats |
| `LoadBalancer.OrderDoesNotMatter` | internal/lb/lb.go:63-96 | Least-conn's choice depends on the set of exits, not on their order |
| `LoadBalancer.SortSorted` | internal/lb/lb.go:74-74 | The eligible exits are put in id order |
| `LoadBalancer.LessMeans` | internal/lb/lb.go:74-74 | The id order is that of the first character that differs, a proper prefix first |
| `LoadBalancer.ArrivalsStayBalanced` | internal/lb/lb.go:86-94 | Over any sequence of arrivals each placed by least-conn, two exits of the region differ by at most one unless the lower is full, and no capacity is exceeded |
| `LoadBalancer.EqualLoadsAreBalanced` | internal/lb/lb.go:86-94 | Equal loads are a balanced start |
| `RoundRobinTurns.PickRun` | internal/lb/lb.go:77-83 | One pick per arrival on the caller's 64-bit counter, with the same exits eligible each time, yields the turns of that counter over their ids in order and leaves the counter after as many increments |
| `RoundRobinTurns.TurnsChain` | internal/lb/lb.go:77-83 | One run after another is one run |
| `RoundRobinTurns.AfterIsSum` | internal/lb/lb.go:77-83 | Up to 2^64 turns move the counter by their number, wrapping once |
| `RoundRobinTurns.TurnsShare` | internal/lb/lb.go:77-83 | Each exit's number of turns, for a counter that wraps at most once, is a difference of quotients |
| `RoundRobinTurns.RoundRobinIsFairIff` | internal/lb/lb.go:77-83 | For k*n up to 2^64, k*n consecutive picks over n exits give each exactly k if and only if the counter does not wrap within them, or n divides 2^64, or the wrap falls between two whole sweeps |
| `RoundRobinTurns.WrapRepeatsATurn` | internal/lb/lb.go:77-83 | With three exits the two picks around the wrap go to the same exit |
| `RateLimit.Bucket.constructor` | internal/ratelimit/ratelimit.go:24-29 | A full bucket whose burst is the larger of the rate and the burst given |
| `RateLimit.Bucket.Allow` | internal/ratelimit/ratelimit.go:32-55 | One call refines top-up-then-take, with a clock that never runs back; a rate of zero or less lets everything through |
| `RateLimit.TokensAreTightest` | internal/ratelimit/ratelimit.go:32-55 | After any calls the tokens equal the least, over all windows since the first call, of burst + rate * elapsed - bytes passed |
| `RateLimit.WindowBound` | internal/ratelimit/ratelimit.go:32-55 | Tokens stay in [0, burst], and from any call to any later one at most burst + rate * elapsed bytes pass |
| `RateLimit.AllowedIffEveryWindowHasRoom` | internal/ratelimit/ratelimit.go:50-54 | A call is let through if and only if that overdraws no window, its own included |
| `RateLimit.ClockIsLatest` | internal/ratelimit/ratelimit.go:38-49 | The clock kept is the maximum of the readings so far |
| `PathSession.Machine.Fire` | internal/directpath/state.go:81-90 | Moves by the table or refuses and stays |
| `PathSession.WaysIn` | internal/directpath/state.go:44-62 | Direct is entered only from checking on a nominated pair, checking only from relaying, relaying from new, failed checks or a lost direct path, closed from any other phase, new never |
| `PathSession.Session.constructor` | internal/session/session.go:54-56 | A new session has no path, no limiter and zero counters |
| `PathSession.Session.SetRateLimit` | internal/session/session.go:60-64 | Installs a full bucket |
| `PathSession.Session.Apply` | internal/session/session.go:79-122 | Each moving call is accepted in exactly one phase (Close in any but closed) and leads to exactly one; after an accepted StartRelay or FallbackRelay the path is the relay on the connection given, after UpgradeDirect the peer on it, after Close none, after any other or refused call the old one; so the path always fits the phase |
| `PathSession.Session.Send` | internal/session/session.go:125-143 | Exactly one of delivered, no path, rate limited, broken; at most the one datagram, encoded for the current path; the limiter is asked if and only if there is a path; the three counters tell which happened |
| `PathSession.TransparentMigration` | internal/session/session.go:72-143 | In every interleaving of sends with migrations each relay datagram decodes to the session id and the exact packet of one Send call, each direct datagram is that packet, and no call puts out two |
| `PathSession.DatagramsLeaveAsBegun` | internal/session/session.go:72-143 | In every run each datagram left on the path the session had when its Send call began, carrying that call's packet, and that path is one that an accepted StartRelay, UpgradeDirect or FallbackRelay of the run was given, of the matching kind |
| `PathSession.HandsOnce` | internal/session/session.go:125-143 | No Send call hands its packet to its sender twice, not even after the sender failed |
| `PathSession.PathFitsIffLatest` | internal/session/session.go:72-122 | At any point of any run the path fits the phase if and only if the install that ran last is of the kind that the latest accepted move asked for |
| `PathSession.OrderedInstallsFit` | internal/session/session.go:72-122 | If paths are installed in the order their moves were accepted, path and phase fit whenever no install is outstanding |
| `PathSession.ClosedWithAPath` | internal/session/session.go:79-122 | A run in which starting and closing race and a closed session keeps a live path |
| `PathSession.MigrationKeepsAPath` | internal/session/session.go:87-115 | However migrations interleave, a session with a path has one until Close is called |
| `PathRate.RateBoundAcrossMigrations` | internal/session/session.go:125-143 | Between any two points of a metered run the bytes handed to senders are at most burst + rate * elapsed + the bytes past the limiter at the first point, whatever moves happen |
| `PathRate.LimitMeters` | internal/session/session.go:60-64 | From the installation of a limiter with positive rate the run is metered |
| `PathRate.PaidStep` | internal/session/session.go:125-143 | Every step pays for the bytes it clears out of credit that only time adds |
| `PathRate.InFlightCounts` | internal/session/session.go:125-143 | Without the in-flight term the bound fails: a packet cleared before the first point goes out on top of a full burst |
| `PathRateExact.PlainBoundIff` | internal/session/session.go:125-143 | On a path and with a burst of at least one byte, every continuation of a metered state keeps within burst + rate * elapsed if and only if the bytes in flight and the credit left fit the burst together |
| `PathRateExact.AllOut` | internal/session/session.go:133-143 | Everything past the limiter can be handed over at once, with the credit untouched |
| `PathRateExact.SendNow` | internal/session/session.go:125-143 | A packet within the credit goes through at once and costs its length |
| `PathRate.BacklogIsReached` | internal/session/session.go:125-143 | The state that shows this is reached from a new session |
| `Codec.EncodeDatagram` | internal/proto/proto.go:198-203 | The buffer holds the eight-byte big-endian id and then the packet |
| `Codec.DatagramRoundTrip` | internal/proto/proto.go:198-213 | Decoding undoes encoding for every 64-bit id and every packet |
| `Codec.DatagramIsTagged` | internal/proto/proto.go:207-213 | Decoding fails exactly below eight bytes, and what it yields encodes to the same datagram |
| `Codec.TaggedBytes` | internal/proto/proto.go:198-203 | Byte by byte, a datagram is the id divided by 2^56, 2^48, ... 2^8, 1 modulo 256, and then the packet |
| `Codec.WriteControl` | internal/proto/proto.go:148-163 | Writes one frame, or refuses and writes nothing, or fails and leaves the part of the frame that the stream took before it broke |
| `Codec.ReadControl` | internal/proto/proto.go:166-184 | Consumes one frame and returns its message, or says why not |
| `Codec.ReadFramed` | internal/proto/proto.go:166-184 | A frame is read back whole with the bytes after it untouched |
| `Codec.ReadConsumesOneFrame` | internal/proto/proto.go:166-184 | Whatever is read as a message was exactly one frame within the limit |
| `Codec.SameLimit` | internal/proto/proto.go:153-174 | The reader turns a frame away for its size exactly when the writer would refuse it |
| `Codec.WrittenIff` | internal/proto/proto.go:148-163 | A message is written if and only if its text is at most 1048576 bytes, after a header of its length divided by 2^24, 2^16, 2^8, 1 modulo 256 |
| `Codec.StreamRoundTrip` | internal/proto/proto.go:148-184 | Writing any messages and reading as many times returns the same messages in order and leaves what follows |
| `Codec.CutStream` | internal/proto/proto.go:166-184 | A stream cut anywhere yields exactly the messages whose frames are complete, then end of stream |
| `Codec.CompleteIsMost` | internal/proto/proto.go:166-184 | That count is the largest number of whole frames that fit before the cut |
| `Qos.Tracker.constructor` | internal/qos/qos.go:173-186 | An empty tracker; a capacity of zero or less means 1000 |
| `Qos.Tracker.AppendEvent` | internal/qos/qos.go:363-371 | The ring stays the newest events of the whole log, as many as fit, and the store was given exactly the events of the log that did not come from it |
| `Qos.Tracker.WithStore` | internal/qos/qos.go:386-391 | The store gets every event from now on |
| `Qos.Tracker.RelayBytes` | internal/qos/qos.go:259-271 | The session's part of AddBytes: bytes, window and sample |
| `Qos.Tracker.OnNodeUp` | internal/qos/qos.go:197-203 | Starts the exit afresh and logs it |
| `Qos.Tracker.OnNodeDown` | internal/qos/qos.go:206-215 | Forgets the exit and logs it |
| `Qos.Tracker.OnConnect` | internal/qos/qos.go:218-231 | Starts the session afresh, counts it on its exit if known, logs it |
| `Qos.Tracker.OnDisconnect` | internal/qos/qos.go:234-246 | Forgets a known session, uncounts it, logs it; an unknown one is ignored |
| `Qos.Tracker.AddBytes` | internal/qos/qos.go:251-290 | Counts bytes and windows for session and exit, and samples the session when its window closes |
| `Qos.Tracker.Report` | internal/qos/qos.go:294-339 | Totals only grow to the reported ones; a positive throughput is sampled |
| `Qos.Tracker.SampleSession` | internal/qos/qos.go:343-359 | The rate becomes the sample and the peak the larger of peak and sample; a drop is logged exactly when the peak reaches 65536, the session is not degraded and the sample is below half of the peak, a recovery exactly when the peak reaches 65536, it is degraded and the sample is at least four fifths of it, and else nothing |
| `Qos.Tracker.History` | internal/qos/qos.go:493-505 | The newest events of the whole log, newest first, up to the limit and the capacity |
| `Qos.Tracker.Preload` | internal/qos/qos.go:395-414 | The log and ring become the newest rows of the store up to a positive limit; without a store nothing changes |
| `Qos.Restart` | internal/qos/history.go:74-174 | Closing the store, reopening its file, preloading and asking for history gives the newest events on file, newest first, as many as the file, load, ring and question limits allow, for all limits; and of all events ever given to the store if none was lost |
| `Qos.Reopened` | internal/qos/history.go:97-135 | The same from the file on |
| `QosTheorems.SpeedEventsAlternate` | internal/qos/qos.go:251-359 | In every run's full log a session's drops and recoveries alternate within each connection, drop first; degraded holds exactly when the latest is a drop; degraded implies rate < 0.8 peak, and not degraded with peak at the floor implies rate >= 0.5 peak |
| `QosTheorems.HysteresisStep` | internal/qos/qos.go:197-359 | Every call keeps that |
| `QosTheorems.AlternateEverIff` | internal/qos/qos.go:218-359 | Over the whole life of an id, across connections, the speed events of any run alternate if and only if no drop comes after a connection that began on a drop |
| `QosTheorems.ReconnectBreaksAlternation` | internal/qos/qos.go:218-231 | A run that drops, connects again and drops again shows two drops in a row |
| `QosTheorems.LogTellsWhoIsThere` | internal/qos/qos.go:197-249 | In every run the tracked sessions, each with its exit, and the tracked exits are exactly those that the log shows connected and up |
| `QosAccounts.TotalsAreBracketed` | internal/qos/qos.go:251-311 | In every run each direction's total is at least the bytes relayed and the largest report since the session connected, and at most their sum |
| `QosAccounts.WindowsHoldAllBytes` | internal/qos/qos.go:265-271 | The closed windows tile the time since the session connected, and the sum of rate * duration plus the open window is exactly the bytes relayed |
| `QosAccounts.ExitTotalsAreExact` | internal/qos/qos.go:273-289 | An exit's totals are exactly the bytes relayed for its sessions since it came up |
| `QosRates.SessionRates` | internal/qos/qos.go:343-350 | In every run a session's rate and peak are the latest and the largest sample since it connected, windows and reports together |
| `QosRates.SampleEvents` | internal/qos/qos.go:343-359 | In every run, with p the largest sample since the session connected including this one, a sample adds a drop if and only if p is at least 65536, the latest speed event is not a drop and the sample is below p/2; a recovery if and only if p is at least 65536, the latest is a drop and the sample is at least 4p/5; otherwise nothing |
| `QosRates.SampledWhen` | internal/qos/qos.go:251-341 | A session is sampled exactly by a report of a positive rate, at that rate, and by bytes that come at least one second into its window, at the bytes in it over its length |
| `QosRates.NoSampleNoEvent` | internal/qos/qos.go:251-359 | Bytes and reports that sample nothing log nothing |
| `QosRates.ExitRates` | internal/qos/qos.go:280-287 | An exit's rate and peak are the latest and the largest of its own windows since it came up |
| `QosRates.ExitWindowsHoldAllBytes` | internal/qos/qos.go:273-289 | An exit's windows tile the time since it came up and hold exactly the bytes it carried |
| `QosAccounts.ActiveNeverExceedsTracked` | internal/qos/qos.go:197-246 | If no id connects while tracked on an exit that is up, an exit never shows more clients than sessions tracked on it |
| `QosAccounts.ActiveIsExactIffCountedAfresh` | internal/qos/qos.go:197-246 | Every exit's count is exact at every point of a run if and only if no exit came up with sessions still tracked on it and no id connected while tracked on an exit that was up |
| `QosAccounts.StepExact` | internal/qos/qos.go:197-246 | The same for one call |
| `QosAccounts.ReusedIdCountsTwice` | internal/qos/qos.go:218-231 | An id that connects, anywhere, while tracked on an exit that is up leaves that exit's count one too high |
| `QosHistory.TakeNewest` | internal/qos/qos.go:493-505 | The reverse walk yields the newest part, newest first |
| `QosHistory.LoadRows` | internal/qos/history.go:121-135 | The newest rows, newest first; no positive limit means all |
| `QosHistory.Reorder` | internal/qos/qos.go:405-409 | Events that come newest first are put back in order |
| `QosHistory.FileStore.constructor` | internal/qos/history.go:97-108 | Opening keeps the newest 5000 rows |
| `QosHistory.FileStore.Append` | internal/qos/history.go:59-68 | Queues the event unless the store is closed or 1024 are waiting; what is on file or queued stays an ordered subsequence of what was given |
| `QosHistory.FileStore.WriteOne` | internal/qos/history.go:50-55 | The oldest queued event goes to the end of the file, or is lost with a failed write; order is kept |
| `QosHistory.FileStore.Drain` | internal/qos/history.go:50-55 | The writer's loop appends to the file exactly the queued events whose writes succeed, in order |
| `QosHistory.FileStore.Close` | internal/qos/history.go:74-81 | Everything queued is written, or counted as lost, before the file is closed; closing again does nothing |
| `QosHistory.FileStore.FileIsWholeIffNothingLost` | internal/qos/history.go:59-81 | With the queue drained the file is an ordered subsequence of the events given, and all of them if and only if none was lost |
| `QosHistory.NewestOfNewest` | internal/qos/history.go:147-156 | Cutting back twice is cutting back once by the smaller number |
| `QosHistory.NewestFirst` | internal/qos/qos.go:493-505 | The k-th of the newest n, newest first, is the k-th from the end of the log |
| `UserStore.Store.constructor` | internal/userstore/userstore.go:74-80 | Opening replays the file's records |
| `UserStore.Store.Create` | internal/userstore/userstore.go:103-135 | A conflict that changes nothing if and only if the name is taken; otherwise the record is filed under its id, enabled unless a status is given, indexed unless the credential is empty, and on success the file lists the table |
| `UserStore.Store.Update` | internal/userstore/userstore.go:163-188 | Regions, status and credential become what was given and stay where nothing was, id and name stay, the credential index follows, and on success the file lists the table; an unknown id changes nothing |
| `UserStore.Store.Delete` | internal/userstore/userstore.go:190-200 | Removes record and index entry, and on success the file lists the table |
| `UserStore.Store.AuthorizeUser` | internal/userstore/userstore.go:219-234 | Not found if and only if nobody has the name, else the verdict on some holder; with unique names the one holder's, in whatever order records are met |
| `UserStore.Store.Flush` | internal/userstore/userstore.go:273-295 | A flush that works leaves a file that lists exactly the table; one that fails leaves the old file |
| `UserStore.Verdict` | internal/userstore/userstore.go:209-215 | Granted if and only if the user is enabled and the region or the wildcard is allowed; otherwise the status is named before the region |
| `UserStore.RegionAllowed` | internal/userstore/userstore.go:236-243 | Allowed if and only if the list has the region or the wildcard |
| `UserStore.AlwaysIndexedIffNoClash` | internal/userstore/userstore.go:103-200 | Over every run the credential map is always the index of the records if and only if no operation brings in a credential another record holds |
| `UserStore.IndexedStepIff` | internal/userstore/userstore.go:103-200 | The same for one operation |
| `UserStore.AlwaysSound` | internal/userstore/userstore.go:103-200 | Clash or not, no run ever makes an index entry wrong, and usernames stay unique |
| `UserStore.LoginIsScan` | internal/userstore/userstore.go:202-216 | While indexed, token login equals a scan of all records: at most one holder, who gets its own verdict |
| `UserStore.UnheldTokenStaysOut` | internal/userstore/userstore.go:103-216 | A token nobody holds is refused after every run that does not bring its credential in |
| `UserStore.RotatedTokenStops` | internal/userstore/userstore.go:176-182 | A rotated token is refused after the rotation and every run that follows, unless an operation brings its credential in again |
| `UserStore.DeletedTokenStops` | internal/userstore/userstore.go:190-200 | So is the token of a deleted user |
| `UserStore.SharedCredentialLocksOut` | internal/userstore/userstore.go:176-200 | If two users hold one credential, deleting or rotating one refuses the other's token although a scan would find it |
| `UserStore.LoadAfterFlush` | internal/userstore/userstore.go:247-295 | Loading what a flush wrote, in whatever order, rebuilds the same two maps |
| `Pbkdf2.Derive` | internal/pwhash/pwhash.go:67-92 | The nested loops compute the derived key of section 5.2 of RFC 8018 for every password, salt, iteration count and key length |
| `Pbkdf2.DeriveBlock` | internal/pwhash/pwhash.go:74-88 | One block's loop computes the exclusive or of its U_1 to U_c |
| `Pbkdf2.XorInto` | internal/pwhash/pwhash.go:85-87 | The innermost loop is the exclusive or of the two buffers |
| `Pbkdf2.OctetsSpell` | internal/pwhash/pwhash.go:76-76 | The four octets of a block number are it divided by 2^24, 2^16, 2^8 and 1, each modulo 256 |
| `Pbkdf2.FirstBlocks` | internal/pwhash/pwhash.go:67-92 | With one iteration two blocks are the keyed hashes of the salt followed by 0 0 0 1 and by 0 0 0 2; with two iterations the first is exclusive-ored with its own keyed hash |
| `Pbkdf2.ShorterKeyIsPrefix` | internal/pwhash/pwhash.go:67-92 | A shorter key is a prefix of a longer one |
| `Pbkdf2.Hash` | internal/pwhash/pwhash.go:33-42 | Prints pbkdf2_sha256, 210000, the salt and the 32-byte key of 210000 iterations in base64, with dollar signs between |
| `Pbkdf2.Verify` | internal/pwhash/pwhash.go:45-64 | Accepts if and only if the string parses and the password derives the stored key |
| `Pbkdf2.ParsedPrinted` | internal/pwhash/pwhash.go:33-64 | For every 64-bit iteration count, salt and key, parsing recovers exactly what was printed |
| `Pbkdf2.AcceptsIff` | internal/pwhash/pwhash.go:45-64 | A printed count, salt and key are accepted for a password if and only if it derives that key with that count and salt at the length of the key |
| `Pbkdf2.AcceptsIffSameKey` | internal/pwhash/pwhash.go:33-64 | A printed string is accepted for its own password, and for another if and only if both derive the same key |
| `Pbkdf2.SplitJoin` | internal/pwhash/pwhash.go:46-46 | Splitting at the separator undoes joining |
| `Pbkdf2.JoinSplit` | internal/pwhash/pwhash.go:46-46 | Joining undoes splitting, and no piece holds the separator |
| `Pbkdf2.ParsesIffDigits` | internal/pwhash/pwhash.go:50-50 | A string parses as a number if and only if it is one or more digits |
| `Pbkdf2.ParsesDigits` | internal/pwhash/pwhash.go:50-50 | What parses is the digits of its value after any number of zeros |
| `Pbkdf2.ParsesInt` | internal/pwhash/pwhash.go:50-50 | A count parses if and only if it is digits, with or without a sign, within 64 bits, and its value is theirs with the sign |

## Left out

- Shared records: broker sessions and user records are values in maps, not objects shared by two maps; the model does not capture aliasing between two maps that hold the same record.
- QUIC, TLS, ICE, TUN devices, sockets and host statistics: calls into code that is not part of this model; a stream is a byte or message sequence, a lost connection a cut stream or a failed write.
- Authentication of nodes and users on connect, OIDC, PKI and TURN credentials: they decide whether a run starts, not what it does.
- The admin HTTP server, dashboard, event bus, logging, configuration and shutdown.
- `failExit` and signalling: they close client connections and forward messages; a closed connection is the drop step.
- `internal/directpath/decision.go`, SOCKS proxy, telemetry ticker, netcfg and slugify: only easy members.
- The SQLite backends of history and users.
- IPv6 prefixes in the pool.
- Report fields that are copied or raised and never read again (drops, RTT, host, interface, percentages), list views and their sorting.
- Broken lines in the history file and failed rewrites while trimming: a file is a sequence of events.
- Floating-point rounding and wrap-around of byte counters.
- BrokerExits.ExitTableAgrees: speaks of registrations that are still online and on whose stream no write failed, since nothing reaches the others.
- Pbkdf2.Derive: the block number wraps after 2^32 - 1 blocks, where the standard stops.

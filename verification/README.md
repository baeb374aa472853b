# A verified model of log-shipper

log-shipper moves log messages from sources to targets through a broker. This project models its
four state machines and its wire protocol in Dafny and proves what they promise over whole runs.

- **The broker pipeline** (`Broker`, `BrokerInvariant`, `BrokerDoom`, `BrokerCycles`, `BrokerDrain`,
  `BrokerOrder`, `BrokerFailures`, `BrokerPeers`). Source connectors, workers, target connectors and the goroutine in
  `Broker.Start` form one transition system. Channels are unbuffered, so a send and its receive are
  one step of two goroutines. Every other blocking or atomic operation is a step of its own: adding to
  `MessagesInFlight`, adding to the WaitGroup, and each of the two halves of `CompleteMessage`. A
  failing connection, codec or acknowledgement is a parameter of the step, and here so is a limiter's
  verdict: what is proved holds of all runs, whatever the limiters answer. An accepted message makes
  the broker owe one *obligation* per entry of its target list. The code has paths on which an
  obligation is dropped without being completed: an unknown target, a decode error in a worker or a
  connector, a write error, a fallback that cannot be marshalled or found. They are kept and recorded
  as leaks.
- **The broker with its limiters** (`BrokerLimits`, `BrokerFinish`, `BrokerCorner`, `BrokerMoves`,
  `BrokerLockup`, `BrokerStuck`). Every rule has a limiter, a verdict is that limiter's answer, an
  acknowledged message is counted by all limiters of its target, and ticks are steps. Its runs are runs
  of the broker above, and of the broker without the rules that can never decide (`CameReached`).
  Whatever is said to be possible is said here: which brokers can still finish, and which can lock up.
- **The failover locks** (`Failover`, `FailoverCluster`, `FailoverCoverage`, `FailoverRelapse`,
  `FailoverFaults`, `FailoverSteps`, `FailoverRace`). Clients compete for the leader and failover
  locks of each node in Consul: with a whole round as one step, with the look at one node as one step
  (`FailoverFaults`), and request by request (`FailoverSteps`). In the last two any request may fail.
  The three are tied together: an uninterrupted client performs exactly a round, whichever of its
  requests fail, and a round is a run of looks.
- **The rate limiter** (`Limiter`, `RateLimiting`, `LimiterRuns`, `Admission`). The class with its
  cached total and expiring buckets is proved against functions on its state, those against a
  history of ticks that does not mention the limiter.
- **Allocations and events** (`Allocations`, `EventSync`). A list diff drives a table of workers; a
  worker looks an event's mark up, sends the event, then marks it.
- **Framing** (`Framing`). Length-prefixed messages in the Protocol Buffers encoding.

`Common` and `Sums` hold what several parts need. `dafny verify dfyconfig.toml` checks everything.

## Where the steps come from

| function | code |
|---|---|
| `Broker.SourceStep` | `SourceConnector.Handle`, broker/connector.go:320-422; `AddMessage`, 116-119 |
| `Broker.WorkerStep`, `Broker.SendToTarget` | `Worker.Start`, broker/worker.go:58-90; `SendToTarget`, broker/connector.go:108-114 |
| `Broker.ConnectorStep`, `Broker.CheckRule` | `TargetConnector.Handle` and `handleRateLimiting`, broker/connector.go:145-318; `CompleteMessage`, 121-124 |
| `Broker.MainStep` | `Broker.Start` and `Broker.Stop`, broker/broker.go:64-78; `WorkerManager.Stop`, broker/worker.go:53-56; `StopTargets`, `StopSources`, broker/connector.go:134-143 |
| `BrokerPeers.Advance` | the source's end of a connection, source/nomad/server.go:42-90; `WaitForHello` to `SendBye`, protocol/protocol.go:123-159 |
| `BrokerLimits.Next` | verdicts, `IsAverageOverLimit`, limiter/limiter.go:139-153; counting, broker/connector.go:253-256; ticks, limiter/limiter.go:164-176; `createRateLimitRules`, cmd/run.go:209-226 |
| `Failover.Round`, `FailoverSteps.Advance` | `getAllocations`, source/nomad/client.go:219-307 |
| `Failover.Expire` | sessions with behaviour "delete", source/nomad/client.go:324-342 |
| `Limiter.UpdateKey`, `Purge`, `Flush`, `Tick` | limiter/limiter.go:71-117, 164-176 |
| `Allocations.Handle` | the loop of `ReceiveLogs`, source/nomad/client.go:164-178 |
| `FailoverFaults.Step` | acquiring and clearing, source/nomad/client.go:236-255; one round of the loop over the other nodes, 263-306 |
| `EventSync.Step` | one iteration of the event loop, source/nomad/worker.go:114-155 |

## Where the code falls short of what one would expect

Each of these is a result: a run, or a whole class of inputs, that shows it, and the exact condition
for the code to behave.

- A broker that has been stopped may never return. If its limiters can be cleared, it can still finish
  if and only if it is not *doomed* (`CanFinishIff`), failures included: nothing has leaked, no
  connector is blocked on one that is closed, about to close or blocked in the same way, no entry still
  at a source or worker is to go to such a connector or to a target that does not exist, and no source
  has a message without there being a worker. A limiter can be cleared if it ticks and what its total
  has kept of overwritten buckets is below its capacity; if every acting limiter ticks, and none twice
  in a bucket, all can (`RegularCanFinishIff`). Ways into doom, each for every configuration that allows
  it: a listed target that does not exist (`UnknownTargetLeaks`), a refused connection
  (`RefusedTargetDooms`), a missing acknowledgement (`MissedAcknowledgementDooms`), and a cycle of
  fallback rules (`CycleLocksUp`).
- A limiter with an interval under a millisecond never ticks, because the error of `Init` is ignored.
  Where such limiters are over and only pass messages around among themselves, the broker never
  finishes (`CorneredForever`), although nothing dooms it (`StuckLimiterNeverFinishes`).
- Limiters that tick lock connectors up without any failure if and only if some source lists a target
  from which rules that can decide lead into a cycle (`LocksUpIff`). Where all targets that are
  named exist, only such a cycle, or having sources and no worker, keeps a stopped broker from always being able to finish
  (`AlwaysFinishesIff`). A rule whose capacity is beyond 64 bits can never decide, nor can one behind an
  acting rule when neither limiter ticks and the earlier limit is not larger.
- Two clients can share a node without a round of its primary explaining it, exactly when the later one
  took it without seeing that another client led it (`OverlapBounded`, `BlindOverlaps`), which takes a
  failed read of the leader lock (`BlindMeansUnread`). A failover key that was released but not deleted
  leaves its node without a runner (`LeftStaysUncovered`), and on any node two failed deletes are
  enough to leave one (`KeyCanBeLeft`).
- Two clients that share a node need not stop sharing it at the earlier one's next round
  (`OverlapCanRelapse`); that round keeps the node exactly if both of its locks are free of other
  sessions (`NextRoundKeepsIff`).
- With interleaved requests both locks of a node can be held at once (`ExclusionCanBeLost`). Once a
  primary has come back, they never are again, for as long as it lives and its lock can be read, if
  and only if no live client is about to take the failover lock on what it read before
  (`StaysExclusiveIff`); a failed read of the leader lock makes a client such a one
  (`BlindReadTakes`).
- With the look at a node as one step, the locks of a node are never both held if and only if no step
  is a breach: a primary that comes back and fails to delete a held failover lock, or a client that
  fails to read a held leader lock, sees no failover key and takes it (`ExclusionIff`). Both happen
  (`UnclearedBreaks`, `BlindBreaks`).
- `RateLimiter.Stop` flushes without moving to a new key, which counts the current bucket's value
  twice (`StopCountsTwice`); the accounts balance afterwards exactly if that value was zero
  (`StopBalancesIff`).
- An allocation that is new and listed twice leaves a worker that can never be stopped; otherwise
  none is left (`SyncAccountedIff`).
- The event loop ignores the error of its lookup, so a lookup that fails after the mark sends an event
  again (`FailedLookupResends`). A single worker sends a marked event once if and only if no mark was
  lost before and every later failed lookup was cut off by a crash (`SentExactly`).
- A frame reads back if and only if its data is shorter than 2^32 bytes, to which its length is cut,
  and neither of the two reads comes back short, which the code does not check
  (`FrameReadsBackIff`).

Three places where code and intent differ without affecting the theorems. Where logging dereferences
a missing monitor or a nil error (broker/connector.go:171 and 247, broker/worker.go:72) the process
panics: such a run ends there, and every statement about reachable states holds of what came before.
`ReadToChannel` returns on end of file without reporting it, so the end-of-file branch of a source
connector (broker/connector.go:406-408) is not reached that way; the model's `Fail` covers it anyway.
A target connector whose hello fails is marked dead but goes on (broker/connector.go:181-186), as it
does here.

## Model

| member | source | states |
|---|---|---|
| `BrokerInvariant.StepInv` | broker/connector.go:145-422 | every step of every goroutine keeps the invariant: each obligation in one place, counters equal to what the goroutines hold, messages as accepted and on a fallback path, shutdown phases in order |
| `BrokerInvariant.Conservation` | broker/connector.go:116-124 | in every reachable state each obligation of an accepted message is held by exactly one goroutine, or leaked once, or settled once, and nothing else is; MessagesInFlight is the number counted and not completed modulo 2^64, the WaitGroup is that number and never negative |
| `BrokerInvariant.DecrementExact` | broker/connector.go:121-124 | adding the complement of zero lowers MessagesInFlight by exactly one and never wraps, as long as fewer than 2^64 deliveries are in flight |
| `BrokerInvariant.ShutdownSafety` | broker/broker.go:64-74 | in every run, failures included, once TargetStop is closed all sources and workers have finished, nothing has leaked, no connector carries a message, and every accepted obligation has exactly one terminal outcome |
| `BrokerInvariant.LeakPreventsShutdown` | broker/connector.go:134-138 | from any state with a leaked obligation no continuation closes TargetStop (one of the cases of `CanFinishIff`) |
| `BrokerDoom.DoomedForever` | broker/connector.go:134-138 | a leak, a connector blocked on a dead end, an entry that is to go to a dead end or to no target, or a message without a worker: whatever happens next, the broker stays so and TargetStop is never closed |
| `BrokerInvariant.DeliveredIntact` | broker/connector.go:201-296 | a delivered message has the payload and source of the accepted one and the name of the delivering connector; its connectors follow fallback rules from the target the source lists at that entry |
| `BrokerInvariant.ClosedSourceHandedOver` | broker/connector.go:398-421 | when a source connector has returned, every message it accepted is with a worker, with a connector, leaked or settled, exactly one of these per obligation |
| `BrokerFailures.FailureCloses` | broker/connector.go:168-240 | a failed connection, a message that cannot be decoded and a failed write close the connector for good in every continuation; the last two leak exactly the delivery it had |
| `BrokerFailures.MissedAcknowledgementEnds` | broker/connector.go:242-251 | in every reachable state the connector that has missed an acknowledgement has closed, or is completing that very delivery in order to close, and never carries a message again in any continuation |
| `BrokerFailures.FailedFallbackGoesOn` | broker/connector.go:279-307 | a rule that is over but cannot send its message on leaks exactly that delivery, and the connector takes the next |
| `BrokerFailures.DiscardGoesOn` | broker/connector.go:274-278 | a discarded message is settled, completed once, and the connector takes the next |
| `BrokerFailures.UndecodedGoesOn` | broker/worker.go:66-74 | a worker that cannot decode a message leaks each of its entries and nothing else, and takes the next |
| `BrokerFailures.UnknownTargetGoesOn` | broker/worker.go:76-82 | an entry for a target that does not exist is leaked alone, and the worker goes on with the next entry |
| `BrokerFailures.SourceEnds` | broker/connector.go:337-418 | after a failed connection, a failure or a stop a source connector never accepts another message, in any continuation |
| `BrokerFailures.SourceGoesOn` | broker/connector.go:367-421 | a source connector that has neither failed nor been stopped is running, and Broker.Start waits for it |
| `BrokerDrain.StepWorks` | broker/connector.go:193-318 | every faultless step but accepting lowers a weighted measure of the work left, whose weights pay for chains of fallbacks |
| `BrokerDrain.Progress` | broker/worker.go:61-89 | a broker that is not doomed and has deliveries in flight, or has been stopped and has not returned, has an enabled step that needs no failure and no new message, for some answer of its limiters, whatever has failed before |
| `BrokerLimits.ProgressLive` | broker/worker.go:61-89 | the same for whatever its limiters do answer |
| `BrokerDoom.RingForever` | broker/connector.go:315-318 | connectors blocked on one another stay so in every continuation, and TargetStop is never closed |
| `BrokerCycles.AcyclicHasNoRing` | broker/connector.go:279-296 | fallback rules without a cycle never leave connectors blocked in a ring |
| `BrokerCycles.RingHasCycle` | broker/connector.go:279-296 | connectors blocked in a ring hold messages of a source whose list leads into a cycle of fallback rules |
| `BrokerDrain.WeightsExist` | broker/connector.go:268-313 | rules over existing targets by which no source can lead into a cycle admit weights under which each target that messages can reach pays for those it falls back to |
| `BrokerDrain.RunsAreBounded` | broker/connector.go:193-318 | a faultless run that accepts nothing is no longer than the work left at its start |
| `BrokerDrain.DrainCompletes` | broker/broker.go:64-78 | existing targets, no source leading into a cycle, at least one worker: after Broker.Stop every faultless continuation without new messages is bounded, and one that cannot go on has returned with each accepted obligation delivered or discarded exactly once |
| `BrokerLimits.DrainCompletesLive` | broker/broker.go:64-78 | the same with the verdicts of the limiters and ticks at any time, where only rules that can decide count as fallbacks |
| `BrokerLimits.CameReached` | broker/connector.go:223-318 | a run of broker and limiters is a run of the broker, and of the broker without the rules that can never decide, so every statement about those applies |
| `BrokerLimits.RingHasLiveCycle` | broker/connector.go:268-313 | whatever ticks or does not, connectors blocked in a ring hold messages of a source whose list leads into a cycle of rules that can decide |
| `BrokerLimits.ChecksDecide` | broker/connector.go:268-313 | checks with the limiters' verdicts reach a rule exactly past rules that are not breached, and stop at the first that is: what `Admission.Target.HandleRateLimiting` decides |
| `BrokerFinish.ClearLimiter` | limiter/limiter.go:71-117 | two late ticks leave of any limiter one empty bucket and in its total what was kept of overwritten buckets |
| `BrokerFinish.CanFinishIff` | broker/broker.go:64-78 | any configuration, any failures and ticks so far: a stopped broker whose acting limiters can be cleared has a run to its end if and only if it is not doomed |
| `BrokerFinish.CanFinishIffNoRing` | broker/broker.go:64-78 | if nothing has failed, if and only if no source message is without a worker and no connectors are blocked in a ring |
| `BrokerFinish.RegularCanFinishIff` | cmd/run.go:209-226 | with limiters that tick, none twice in a bucket, a stopped broker has a run to its end if and only if it is not doomed |
| `BrokerCorner.CorneredForever` | cmd/run.go:212-217 | a message that only limiters which are over and never tick can decide about, and which they pass around among themselves, keeps TargetStop open in every continuation |
| `BrokerLockup.CycleLocksUp` | broker/connector.go:268-318 | for every configuration with limiters that tick and a source that lists a target from which rules that can decide lead into a cycle, a run without failures leads to connectors blocked in a ring, by messages of any size that loads the limiters |
| `BrokerLockup.LocksUpIff` | broker/connector.go:268-318 | with limiters that tick and a worker, connectors can be locked up in a ring without any failure if and only if some source lists a target from which rules that can decide lead into a cycle |
| `BrokerLockup.AlwaysFinishesIff` | broker/broker.go:64-78 | with limiters that tick and existing fallback targets, a stopped broker without failures can always still finish if and only if it has no source, or has a worker and no source leads into a cycle of rules that can decide |
| `BrokerLockup.SelfFallbackLocksUp` | broker/connector.go:296 | with limiters that tick, wherever a listed target has a rule that can decide and falls back to the target itself, steps without failure lead to a ring and a state from which no run returns |
| `BrokerStuck.UnknownTargetLeaks` | broker/worker.go:76-82 | for every configuration with a listed target that does not exist, faultless steps lead to a leak, after which no run closes TargetStop |
| `BrokerStuck.RefusedTargetDooms` | broker/connector.go:168-173 | for every configuration with a listed target, one refused connection and one message lead to a state without leak or ring from which no run closes TargetStop |
| `BrokerStuck.MissedAcknowledgementDooms` | broker/connector.go:242-251 | for every configuration with a worker and a listed target, one missing acknowledgement and one more message lead to a state without a ring, and without a leak if the targets listed before it exist, from which no run closes TargetStop |
| `BrokerStuck.StuckLimiterNeverFinishes` | cmd/run.go:212-217 | where a target's first rule falls back to the target itself by a limiter that never ticks but can be over, faultless steps lead to a stopped broker that is not doomed and yet has no run to its end |
| `BrokerOrder.PerSourceOrder` | broker/worker.go:58-90 | one worker and no fallback rules: of two deliveries of one source to one target, the earlier is of the message accepted earlier, under every interleaving |
| `BrokerPeers.BrokerRuns` | source/nomad/server.go:39-90 | whatever the sources at the other end do, the broker goes through one of its own runs, so every statement about those applies |
| `BrokerPeers.StopAndWait` | source/nomad/server.go:65-90 | in every run of broker and sources, lost replies included, what was accepted of a source is what it sent, in order and each once, except perhaps the latest; accepted minus acknowledged is 0 or 1 |
| `BrokerPeers.AcceptedMeansAcknowledged` | broker/connector.go:398 | where no reply is lost, a source that has not given up has read, or can still read, exactly one OK for each message accepted from it |
| `BrokerPeers.OkReadsOn` | source/nomad/server.go:86 | and reading that OK takes it to its next message, with all it sent acknowledged |
| `BrokerPeers.HelloReadsOn` | source/nomad/server.go:46-50 | a source whose connection the broker has opened reads the hello and is ready for its first message |
| `BrokerPeers.ByeEnds` | broker/connector.go:362-365 | a connector that fails says BYE, and a source that waits for the OK of a message not accepted reads it and gives up |
| `BrokerPeers.OtherReplyEnds` | protocol/protocol.go:123-151 | any reply but the one waited for makes a source give up |
| `BrokerPeers.AcknowledgedMeansSettled` | broker/connector.go:398-401 | once TargetStop is closed, each message for which its source has read an OK was accepted unchanged under a number of its own and has exactly one terminal outcome for every target the source lists |
| `Failover.VisitEffect` | source/nomad/client.go:263-306 | a scan in which no request fails leaves leader locks alone, decides each listed node by that node's own two locks, and leaves every other lock as it was |
| `Failover.RoundEffect` | source/nomad/client.go:236-307 | after a round in which no request fails the client leads its home node with no failover lock on it; it runs another listed node exactly if neither lock was someone else's |
| `Failover.Visit` | source/nomad/client.go:268-305 | the loop body does to the store what one visit says, releasing and deleting, skipping, or acquiring, whichever of its five requests fail; giving a lock up leaves no key, an unheld key or the key as it was, by which of its two requests succeed |
| `Failover.VisitAll` | source/nomad/client.go:263-306 | the loop over the other nodes performs the scan in list order and collects the nodes taken |
| `Failover.GetNodes` | source/nomad/client.go:198-307 | without a node every node is taken and no lock touched; otherwise a round's effect, whichever requests fail, or nothing while the leader lock is someone else's |
| `Failover.KeysAfter` | source/nomad/client.go:284-342 | what releasing, deleting, expiry and acquiring mean, key by key: a released key stays, held by nobody; an expired session's keys are gone; a key can be acquired exactly if it is absent, unheld or one's own |
| `Failover.HolderGivesUp` | source/nomad/client.go:281-290 | the holder of a failover lock that sees another client leading the node: the key is gone if the delete succeeds, left with no session if only the release does, kept if neither; no other key changes |
| `FailoverCluster.ReachedInv` | source/nomad/client.go:236-306 | over any joins, rounds in which requests may fail, and expiries, every lock is held by a live client entitled to it and a live client still holds what it took, unless a primary of that node has completed a round since |
| `FailoverCluster.LocksExclude` | source/nomad/client.go:255-305 | with atomic rounds in which no request fails the leader and failover locks of a node are never both held |
| `Failover.ScanIsLooks` | source/nomad/client.go:263-306 | whichever requests fail, a scan does to a node exactly what the look at it does, by that node's two locks |
| `FailoverCluster.OverlapBounded` | source/nomad/client.go:236-306 | whichever requests fail, two live clients share a node only if a primary of it completed a round after the earlier one's latest round and the earlier one is not that primary, or the later one took it blindly |
| `FailoverCluster.BlindOverlaps` | source/nomad/client.go:277-300 | a node that is taken blindly is at once shared with its own primary, which no round explains |
| `FailoverCluster.BlindMeansUnread` | source/nomad/client.go:277 | a node is taken blindly only if the read of its leader lock failed |
| `FailoverCluster.NextRoundKeepsIff` | source/nomad/client.go:277-305 | unless the later client took the node blindly, the earlier client's next round never waits, and if no request of it fails it keeps a shared node exactly if neither of its locks is held by another session |
| `FailoverCluster.NextRoundEndsOverlap` | source/nomad/client.go:277-305 | that round gives the node up if a primary of it is live or none completed a round after the later client |
| `FailoverRelapse.OverlapCanRelapse` | source/nomad/client.go:277-305 | a run in which the earlier client's next round takes the shared node again, so that the overlap goes on |
| `FailoverCoverage.Coverage` | source/nomad/client.go:219-306 | every live client leading its home node, one more round by each, in any order, in which the node's leader lock is read and acquiring does not fail: no round waits, and exactly one live client runs the node if and only if it has a live primary or someone has failover enabled; otherwise nobody does |
| `FailoverCoverage.LeftStaysUncovered` | source/nomad/client.go:284-296 | a failover key that was released and not deleted, with no primary, stays through any rounds that read it, and none of their clients runs the node |
| `FailoverCoverage.KeyCanBeLeft` | source/nomad/client.go:284-296 | for every node, a run from no locks at all, with failing deletes only, that leaves its failover key unheld and the node without a primary |
| `FailoverSteps.SoloRound` | source/nomad/client.go:236-307 | a client whose requests are not interrupted performs exactly an atomic round, whichever of them fail |
| `FailoverSteps.ReleasingLeavesKey` | source/nomad/client.go:284-285 | between its two requests a client that gives up leaves its key there, held by nobody, and every other key as it was; the second removes it |
| `FailoverSteps.CrashedForGood` | source/nomad/client.go:236-250 | a client whose acquire of its leader lock fails, or whose session is gone by then, changes nothing and never sends another request |
| `FailoverSteps.LeaderExclusive` | source/nomad/client.go:236-250 | under every interleaving of requests, and whichever fail, two live clients of one node never both get past its leader lock |
| `FailoverSteps.PrimaryHeals` | source/nomad/client.go:255 | whatever the locks were, an uninterrupted round of the primary leaves its node without a failover lock |
| `FailoverSteps.HolderHeals` | source/nomad/client.go:281-290 | an uninterrupted round of the failover holder gives up lock and node while another client leads the node |
| `FailoverSteps.StaysExclusiveIff` | source/nomad/client.go:277-305 | when a primary has come back, exclusion holds under every interleaving in which it lives and its lock can be read, if and only if no live client is about to take over on what it read before |
| `FailoverSteps.BlindReadTakes` | source/nomad/client.go:277 | one failed read of the leader lock makes a live client such a one |
| `FailoverFaults.RoundRuns` | source/nomad/client.go:236-307 | an uninterrupted round, whatever fails in it, is taking the lead and one look per node |
| `FailoverFaults.ExclusionIff` | source/nomad/client.go:255-305 | in any run of leads and looks with requests that may fail, both locks of a node are never held together if and only if no step is a breach |
| `FailoverFaults.UnclearedBreaks` | source/nomad/client.go:255 | for every node, a run in which a primary comes back, fails to delete the failover lock, and both are held |
| `FailoverFaults.BlindBreaks` | source/nomad/client.go:277-300 | for every node, a run in which a client fails to read the leader lock, takes the failover lock, and both are held |
| `FailoverRace.ExclusionCanBeLost` | source/nomad/client.go:277-300 | an interleaving of two live clients after which both locks of a node are held |
| `RateLimiting.RateLimiter.UpdateCurrentKey` | limiter/limiter.go:71-83 | the bucket of now becomes current with value zero, to expire StoreMultiplier flush intervals from now, all else unchanged |
| `RateLimiting.RateLimiter.PurgeExpiredKeys` | limiter/limiter.go:85-95 | in whatever order the items come, exactly the expired ones other than the current are deleted, and the total loses exactly their sum modulo 2^64 |
| `RateLimiting.RateLimiter.FlushCount` | limiter/limiter.go:102-117 | the running count goes to zero; the current bucket gains it and both totals gain the bucket's whole new value; without a current bucket the count is dropped |
| `RateLimiting.RateLimiter.Add` | limiter/limiter.go:119-121 | the running count grows by the delta in 64 bits, nothing else changes |
| `RateLimiting.RateLimiter.Init` | limiter/limiter.go:155-160 | intervals under a millisecond are refused and leave the limiter untouched; otherwise a first key is set |
| `RateLimiting.RateLimiter.OnTick` | limiter/limiter.go:167-170 | key, purge and flush in this order |
| `RateLimiting.RateLimiter.Stop` | limiter/limiter.go:97-100 | one more flush into the same key |
| `RateLimiting.RateLimiter.IsAverageOverLimit` | limiter/limiter.go:139-153 | over exactly if total and count reach (Limit+1)*(buckets+1), without overflow; the excess over the limit is then the first result |
| `Limiter.SubtractByComplement` | limiter/limiter.go:89 | adding the complement of v-1 subtracts v in 64 bits, v = 0 included |
| `Limiter.KeyCovers` | limiter/limiter.go:74-80 | a bucket takes up one interval: two times share it exactly if no multiple of the interval lies between them |
| `Limiter.FlushForm` | limiter/limiter.go:102-117 | a flush leaves no running count; without a current bucket nothing else changes, otherwise the bucket gets it and both totals the bucket's whole new value |
| `LimiterRuns.Conservation` | limiter/limiter.go:71-121 | any tick times: synced plus current count is the sum of all increments, the current key is in the store, and the total is the sum of the store plus what same-bucket ticks overwrote |
| `LimiterRuns.PurgeNeverUnderflows` | limiter/limiter.go:85-95 | no purge of any run subtracts more than the total holds |
| `LimiterRuns.StopBalancesIff` | limiter/limiter.go:97-117 | Stop adds the current bucket's stored value once more to both totals; the counts balance afterwards exactly if it was zero |
| `LimiterRuns.StopCountsTwice` | limiter/limiter.go:97-117 | five bytes and one tick before Stop are counted as ten |
| `LimiterRuns.StoreIsWindow` | limiter/limiter.go:71-95 | for ticks in time order the store is exactly the latest unexpired batch of every bucket of the history |
| `LimiterRuns.BoundedStore` | limiter/limiter.go:82-95 | ticks at least a flush interval apart: never more than StoreMultiplier + 1 buckets |
| `LimiterRuns.StoreHoldsIff` | limiter/limiter.go:74-95 | ticks at least an interval apart: a batch of the history has its bucket in the store, with its bytes, if and only if it is the latest or no more than StoreMultiplier flush intervals old |
| `LimiterRuns.FullStore` | limiter/limiter.go:82-95 | the bound is reached: ticks exactly a flush interval apart, that being the interval, and at least StoreMultiplier + 1 of them keep exactly StoreMultiplier + 1 buckets |
| `LimiterRuns.SlidingWindow` | limiter/limiter.go:139-153 | FlushInterval equal to Interval and ticks at least that far apart: the cached total is the sum of the sliding window of the history, one bucket per batch, and "over" is the comparison of window and count with the limit |
| `Admission.Target.HandleRateLimiting` | broker/connector.go:268-313 | a message passes exactly if no rule that discards or falls back is over; otherwise the first such rule decides |
| `Admission.Target.Acknowledged` | broker/connector.go:253-256 | every rule's limiter counts the message |
| `Admission.Target.Process` | broker/connector.go:223-257 | a message is delivered exactly if it passes, and only a delivery charges the limiters |
| `Admission.AdmissionBound` | broker/connector.go:223-257 | between two ticks, for every sequence of messages: right after a delivery of b bytes the load of every acting rule is below (Limit+1)*(buckets+1) + b, and a message turned away changes nothing |
| `Allocations.SliceContainsAllocation` | source/nomad/pool.go:55-63 | found if and only if some entry has the ID |
| `Allocations.AllocationPool.Has` | source/nomad/pool.go:48-53 | the pool has it if and only if some entry has the ID |
| `Allocations.AllocationPool.Sync` | source/nomad/pool.go:24-46 | sends an added event per listed allocation the pool lacks, then a removed event per pooled one the list lacks, in order, then stores the list |
| `Allocations.SyncAnnounces` | source/nomad/pool.go:24-40 | an allocation is announced as added, as it is listed, as often as it is listed if the pool lacks its ID; as removed, as it is pooled, if the list lacks it; all adds come first |
| `Allocations.AllocationWorkers.Add` | source/nomad/client.go:51-55 | the ID's entry is the new worker, others as before |
| `Allocations.AllocationWorkers.Close` | source/nomad/client.go:65-71 | closes the Stop channel of the ID's worker, if it has one |
| `Allocations.AllocationWorkers.Remove` | source/nomad/client.go:57-63 | the ID has no entry afterwards, others as before |
| `Allocations.AllocationWorkers.OnEvent` | source/nomad/client.go:164-178 | added starts a worker, removed stops and forgets one |
| `Allocations.EventsKeepTable` | source/nomad/client.go:164-178 | under any events no Stop channel is closed twice and no worker in the table is stopped |
| `Allocations.SyncMirrors` | source/nomad/pool.go:24-40 | after the events of a Sync the table has a worker for exactly the listed IDs, and IDs that were there before keep theirs, duplicates or not |
| `Allocations.SyncAccountedIff` | source/nomad/pool.go:24-40 | after a Sync every started worker is in the table or stopped if and only if no new ID was listed twice; otherwise some worker is out of reach whatever follows |
| `Allocations.OrphanForever` | source/nomad/client.go:51-71 | a running worker that has fallen out of the table is never stopped by any later events |
| `Allocations.SyncsMirror` | source/nomad/pool.go:24-46 | any sequence of Syncs keeps table and pool together, and with duplicate-free lists keeps every worker accounted for |
| `Allocations.TableMirrorsPool` | source/nomad/pool.go:24-63 | from the start, after any sequence of Syncs, the table's IDs are those of the latest list, an ID that every list since some Sync has still has the worker it had then, no channel was closed twice, and with duplicate-free lists every worker ever started is in the table or stopped |
| `EventSync.MarkedOnlyAfterSent` | source/nomad/worker.go:123-154 | under any interleaving of workers, failures and crashes, a marked event has been sent |
| `EventSync.SentAtMost` | source/nomad/worker.go:123-154 | with any number of workers an event is sent at most once per worker, plus once per lookup that failed after the mark and once per mark that failed or was cut off by a crash before it |
| `EventSync.SentExactly` | source/nomad/worker.go:123-154 | with one worker, whatever fails or crashes, the number of sends is exactly: one for the mark, one per mark lost before it, one per late failed lookup not cut off by a crash; a marked event is sent once if and only if the last two are zero |
| `EventSync.FailedLookupResends` | source/nomad/worker.go:123-127 | one worker with no lost mark and no crash sends an event twice after a failed lookup |
| `EventSync.SentExactlyOnce` | source/nomad/worker.go:98-155 | a single worker sends every event it has seen, and is done with, exactly once and marks it, if no mark was lost, no crash came before the mark and every late failed lookup was cut off |
| `EventSync.EventWatcher.SendEvents` | source/nomad/worker.go:114-155 | the events of a task, each sent and marked unless it has a mark |
| `EventSync.EventWatcher.Poll` | source/nomad/worker.go:108-157 | the same over the tasks; afterwards exactly the events of enabled and watched tasks are marked besides those that were, and if each logged event was marked and sent once before, so it is now |
| `EventSync.KeysAreDue` | source/nomad/worker.go:108-121 | the events of a round are exactly those of the tasks that are enabled and watched |
| `EventSync.DeliveredOnce` | source/nomad/worker.go:108-157 | over any rounds without failures the log has each listed event once and nothing else, and exactly those are marked |
| `Framing.VarintRoundTrip` | protocol/protocol.go:44-51 | decoding undoes encoding of base 128 varints and leaves what follows |
| `Framing.VarintForm` | protocol/protocol.go:44-51 | a varint is the number's base 128 digits, the high bit set on all bytes but the last, and as short as can be |
| `Framing.MarshalForm` | protocol/protocol.go:44-51 | a message is its command under tag 10 and its data under tag 18, each behind its length, empty fields left out |
| `Framing.DataFirst` | protocol/protocol.go:39 | fields are read in either order |
| `Framing.UnknownSkipped` | protocol/protocol.go:39 | a length-delimited field of another number is skipped |
| `Framing.LittleForm` | protocol/protocol.go:54-62 | the four bytes of a length, lowest first |
| `Framing.ReadBytesForm` | protocol/protocol.go:23-37 | one read, byte by byte: what the stream has and is ready, zeros beyond; end of file only if bytes are wanted and none are left |
| `Framing.ReadMessageCases` | protocol/protocol.go:20-42 | the end of the stream at a frame's start, or after its length unless that is zero; an empty message for length zero; otherwise a message or an error past the frame, as the bytes read decode |
| `Framing.MarshalRoundTrip` | protocol/protocol.go:44-51 | unmarshalling a marshalled message gives it back, empty fields included |
| `Framing.FrameReadsBackIff` | protocol/protocol.go:20-71 | a frame reads back as its data, leaving what follows, if and only if the data is shorter than 2^32 bytes and both reads are filled |
| `Framing.FilledFrame` | protocol/protocol.go:20-71 | with filled reads, longer data reads back cut to its length modulo 2^32, and the remainder is taken for the next frame |
| `Framing.FramingRoundTrip` | protocol/protocol.go:20-80 | reading as many messages as were written, with filled reads, returns exactly those in order and leaves trailing bytes untouched, for encodings shorter than 2^32 bytes |
| `Framing.Writer.WriteMessage` | protocol/protocol.go:53-80 | appends the frame of the marshalled message to the output |
| `Framing.Reader.Read` | protocol/protocol.go:25-37 | a buffer is filled from the stream as far as it goes and bytes are ready, and is zero beyond; end of file only when nothing is left |
| `Framing.Reader.Next` | protocol/protocol.go:20-42 | consumes one frame and gives its message, the end of the stream, or an error |

## Left out

- Failover.GetNodes: does not model the retry loop for the leader lock, because alone the client would wait for ever; it returns None there, and `FailoverSteps.Advance` tries again at every step. A failed acquire of the leader lock panics in the code and is not a call of this method.
- Allocations.AllocationWorkers.OnEvent: does not model waiting for the removed worker to finish while the table is locked, because the worker's own loop is not part of this machine; it closes and removes in one step.
- Requests that take effect although their reply is lost: a request either succeeds or does nothing.
- The kinds of Protocol Buffers errors, and varints over 64 bits: a malformed message is one case, and over-long values are not cut.
- TCP dialling, listeners and ports: a connection is a step that succeeds or fails.
- The Consul and Nomad services themselves, lock delay and session renewal: an abstract key-value store with an expiry step. Errors of list requests, on which the client panics, end a run.
- Node lists with duplicates together with failing requests, in whole rounds: Nomad lists each node once.
- The bytes that names and field tags add to a message: its size, for a limiter, is the length of its payload.
- Which brokers with limiters that never tick, or cannot be cleared, can still finish: `CanFinishIff` is about the others, and `CorneredForever` gives one side. The order in which messages of different sizes are delivered decides the rest.
- The int32 width of a WaitGroup: it is an unbounded integer.
- Floating point in the bucket number: integer division; and each tick and Init reads the clock once, where the code reads it again for the expiry.
- Races between a tick and a concurrent increment or check: each lock-protected or atomic operation, or each tick, is one step.
- IsOverLimit and the accessors of the limiter: only the web interface shows them.
- The order in which Go iterates over maps: purging is proved for every order, tasks of an allocation are taken in a given order, which the count of sends does not depend on.
- Order of deliveries with several workers or with fallback rules: nothing in the code promises it.
- Refreshing a worker's configuration, and the empty watchTasks and watchGroups.
- Configuration files and meta strings: parsed by a library, with defaults for what is missing.
- Monitoring, web interface and logging: they display state and change none that the model has.

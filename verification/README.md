# Verified model of the Torca messenger core

This project models, in Dafny, the parts of the messenger whose correctness depends on long interleavings or on
exact bytes, and proves what they promise over every run or for every input.

| part | files | what it models |
|---|---|---|
| peer delivery | `PeerTypes`, `Delivery`, `DeliveryLedger`, `DeliveryOrder`, `DeliveryRuns`, `PeerWire`, `PeerLink`, `DeliveryReports`, `DeliveryTurns`, `DeliveryAddress`, `PeerTruth`, `ContactTask` | the per-contact sender task with its deduplicating queue, one-slot window and waiters, and its sessions with a receiver |
| pairing broker | `PairingCode`, `Broker`, `BrokerLedger`, `BrokerRuns`, `BrokerSlots`, `BrokerCapacity`, `BrokerRouting`, `BrokerLimiter`, `BrokerCauses`, `BrokerTables`, `BrokerActor` | the in-memory actor over connections, slots and bridges |
| scheduler | `Scheduler` | the worker and the actor that share a watched plan and an inbox |
| snapshot codec | `ByteCodec`, `Snapshot`, `SnapshotCodec` | MLS snapshot envelopes V1 and V2 and the storage payload |
| signing and handshake | `PeerSigning`, `Handshake`, `EndpointChain`, `EndpointTable` | signed byte strings, the handshake with ideal signatures, endpoint update chains and the table several sessions share |
| anchor | `Anchor` | the anti-rollback checkpoint, its byte form and its rule |
| messages | `Messages`, `MessageRuns`, `MessageHistory`, `ClientRuntime` | message lifecycle, unread counting and attention |
| probes | `Probes` | the probe coordinator |

`Foundation` holds the shared vocabulary. `dafny verify dfyconfig.toml` checks everything.

## How it is built

Each stateful component has a specification: a value for its whole state and a function for each of its steps. Runs
are folds of steps over arbitrary inputs, so time, random draws, arrivals, write failures and the choice a `select`
makes are inputs of a step. Where the source updates state in place there is also a class whose methods, with the
source's loops, are proved to compute exactly the specification's step. The promises are then lemmas over all runs,
most of them against an independent reference: an automaton or a count read off a log of observable entries, or a
definition over the list of calls.

Assumptions about the surroundings:

- Hashing is collision-free. Fresh random values (connection ids, slot handles, session ids, message ids) have not
  been used before; an envelope id names one delivery and one ciphertext. Of the codes drawn for a slot some is free.
- Signatures are ideal: a signature verifies exactly if the key's owner signed those bytes.
- The limiter and code resolution are stated for a wall clock that does not run backwards.
- Lengths that are printed with a 32-bit prefix are below 2^32.

Findings about the code, each with its exact condition:

- The broker's expiry tick removes slots without giving them back to their owner's counter
  (`BrokerCapacity.DriftIsTotalExpiry`), so two lapsed slots lock a connection out for good
  (`BrokerCapacity.LockedOut`, `BrokerCapacity.LockOutHappens`).
- The slot clean-up at the end of a pairing never applies (`BrokerSlots.FinishFindsNoSlot`).
- The scheduler loses a wake-up one publication after its generation counter saturates, and never before
  (`SchedulerRuns.NoLostWakeUp`, `SchedulerRuns.WakeUpLostAtSaturation`).
- An anchor checkpoint without a hash forgets its version (`Anchor.GuardNeedsHash`).
- Endpoint sequences are monotone per inbound session only; the entry they share moves back when a session whose copy
  lags accepts an older update (`EndpointTable.EntryMovesBackIff`, `EndpointTable.EntryMovesBackSomewhere`).
- A message deleted locally counts as unread again when it is redelivered (`MessageRuns.UnreadCountsDistinctIff`,
  `MessageRuns.DeletedMessageCountsAgain`).
- The comment on handing out due probes says a second caller cannot get a key before a result; the code hands it out
  again once the lease has run out (`Probes.HandedOutAgainIff`).

## Model

| member | source | states |
|---|---|---|
| `PeerTypes.DedupeKeyInjective` | packages/torchat-peer/src/peer/types.rs:35-50 | different delivery tags never share a dedupe key, across all four keyed kinds |
| `DeliveryRuns.Conservation` | packages/torchat-peer/src/peer/session.rs:248-472 | in every reachable state a Message, Receipt or ReadReceipt sits in at most one of queue, window and waiters, and acceptances equal conclusions plus what is held |
| `DeliveryRuns.DedupeIsTheLedger` | packages/torchat-peer/src/peer/queue.rs:17-51 | in every reachable state the dedupe set is exactly the keys of queued, active and awaiting deliveries, and it is empty once the contact task has returned |
| `DeliveryRuns.DurabilityBoundary` | packages/torchat-peer/src/peer/session.rs:501-516 | in every run, after a Persisted acknowledgement the same acceptance is never reported as a Backoff failure |
| `DeliveryRuns.ErrorExitUnblocks` | packages/torchat-peer/src/peer/session.rs:501-529 | from every reachable state an error exit empties the queues and the dedupe set and leaves every acceptance concluded exactly once |
| `DeliveryRuns.WireOrder` | packages/torchat-peer/src/peer/session.rs:230-296 | across pops, put-backs and reconnects tracked envelopes are written in acceptance order, at most one unacknowledged at a time |
| `DeliveryRuns.TemplateIsWrittenFirst` | packages/torchat-peer/src/peer/queue.rs:64-79 | the first command popped after connecting is the template that was dialled |
| `DeliveryRuns.PutBack` | packages/torchat-peer/src/peer/queue.rs:81-96 | putting a popped command back restores the queues exactly |
| `DeliveryRuns.SoundFill` | packages/torchat-peer/src/peer/session.rs:253-296 | the send loop keeps conservation, ledger and order, whether it fills the window, stops for another endpoint or fails to write |
| `DeliveryRuns.SoundHandleFrame` | packages/torchat-peer/src/peer/outbound.rs:206-366 | every incoming frame keeps conservation, ledger and order |
| `DeliveryRuns.SoundRound` | packages/torchat-peer/src/peer/session.rs:248-472 | one turn of the connected loop, through any exit, keeps conservation, ledger and order |
| `DeliveryRuns.SoundRun` | packages/torchat-peer/src/peer/session.rs:167-217 | every run of the contact task keeps conservation, ledger and order, and leaves nothing behind when it returns |
| `DeliveryRuns.SharedEnvelopeIdStrandsAKey` | packages/torchat-peer/src/peer/outbound.rs:235-243 | without one envelope id per delivery the ledger fails: a concrete run sends two messages under one id, after which the first is held nowhere and its key is still blocked |
| `Delivery.PopShrinks` | packages/torchat-peer/src/peer/queue.rs:71-79 | a pop that yields a command makes the queues smaller, so the send loop ends |
| `DeliveryReports.ReportsAreTold` | packages/torchat-peer/src/peer/outbound.rs:207-274 | in every run, every acknowledgement reported to the engine was told by a frame: one of the session the sender was in, of the reported kind, with the hash of that delivery's envelope, or the answer to a probe of that session; and it confirms exactly the endpoint update written directly before that envelope or probe, if one was |
| `DeliveryReports.RoundReports` | packages/torchat-peer/src/peer/session.rs:248-472 | one turn, through any exit, reports only what its frame says |
| `DeliveryTurns.TurnLeavesNothingOverdue` | packages/torchat-peer/src/peer/session.rs:298-362 | a turn that leaves the session open leaves no delivery, waiter or probe unanswered for 60 seconds, no ping past its deadline, and a next ping ahead |
| `DeliveryTurns.IdleSessionCloses` | packages/torchat-peer/src/peer/session.rs:364-381 | a session with nothing to do outlasts neither 90 idle seconds nor a closed command channel |
| `DeliveryTurns.FailsOnlyForCause` | packages/torchat-peer/src/peer/session.rs:278-353 | a turn reports a failure only if a write failed, something is unanswered for 60 seconds, a ping for 15, a ping could not be written, the stream broke, or the frame is one the session cannot go on after |
| `DeliveryTurns.EndsOnlyForCause` | packages/torchat-peer/src/peer/session.rs:257-381 | a turn ends the session only for such a failure, for a command to another endpoint, or for lack of anything to do |
| `DeliveryTurns.WaitersStay` | packages/torchat-peer/src/peer/session.rs:474-490 | while its session lasts a persisted message waits until it is answered or 60 seconds are over |
| `DeliveryTurns.ActivityIsTheLastExchange` | packages/torchat-peer/src/peer/session.rs:295-295 | a session counts as active from its last incoming frame, or else from the last turn that wrote a command |
| `DeliveryAddress.EnvelopesGoWhereDialled` | packages/torchat-peer/src/peer/session.rs:230-276 | in every run, every envelope went out in a session dialled for the endpoint its command is addressed to, under that session's id |
| `DeliveryAddress.DialledCommandGoesOut` | packages/torchat-peer/src/peer/session.rs:192-205 | the first turn after a successful dial puts the dialled command on the wire |
| `DeliveryAddress.DialsIff` | packages/torchat-peer/src/peer/session.rs:181-196 | a waiting task dials exactly if a queued delivery, an endpoint update or a probe is there, and otherwise takes a command or returns |
| `DeliveryAddress.ReturnsWithNothingToDial` | packages/torchat-peer/src/peer/session.rs:181-190 | in every run, a task that has returned left nothing that is worth a dial |
| `DeliveryAddress.RefusedDialUnblocks` | packages/torchat-peer/src/peer/session.rs:212-214 | from every reachable state a refused dial reports every queued delivery as failed, empties the queues and leaves every acceptance concluded once |
| `DeliveryAddress.LostWriteIsReported` | packages/torchat-peer/src/peer/session.rs:278-294 | a durable command whose frames could not all be written is reported as failed |
| `DeliveryAddress.UpdatesRiseInEverySession` | packages/torchat-peer/src/peer/outbound.rs:98-113 | in every run, a session writes endpoint updates in strictly rising order, so none twice |
| `DeliveryAddress.ProbeIsAnswered` | packages/torchat-peer/src/peer/outbound.rs:115-150 | the answer of whoever reads a probe's frame, on either side of a session, settles the probe and reports it with the endpoint update sent along |
| `DeliveryAddress.ProbesAreQuestions` | packages/torchat-peer/src/peer/inbound.rs:166-171 | both sides of a session answer the frame that closes a probe or an endpoint update |
| `DeliveryAddress.PingIsAnswered` | packages/torchat-peer/src/peer/session.rs:340-362 | a ping is answered by whoever reads it and the answer clears it; it waits 15 seconds and the next one comes after 25 |
| `DeliveryAddress.ControlIsShown` | packages/torchat-peer/src/peer/outbound.rs:46-95 | what a presence, typing or focus command tells is what the reader of its only frame shows |
| `DeliveryAddress.LatestWaits` | packages/torchat-peer/src/peer/queue.rs:31-37 | of endpoint updates, probes and ephemeral commands the latest of each waits |
| `PeerLink.NextWaitsForPersisted` | packages/torchat-peer/src/peer/session.rs:253-296 | after every run of sender, channels and honest receiver, and for every session of it, ended or not, the next enveloped delivery is on the wire only if the receiver reported the previous one Persisted, Delivered or Rejected |
| `PeerLink.HashMismatchUnreachable` | packages/torchat-peer/src/peer/outbound.rs:218-220 | in every turn of every such run, whatever was taken, written, released or pinged before it in the turn, an answer of the honest receiver never fails the session on a ciphertext hash mismatch: it fails only for a probe response that nobody listens to any more |
| `PeerWire.WireIsInAcceptanceOrder` | packages/torchat-peer/src/peer/queue.rs:25-30 | the tracked envelopes on the wire, over any number of sessions, are the accepted deliveries in acceptance order |
| `PeerLink.HandedInAcceptanceOrder` | packages/torchat-peer/src/peer/inbound.rs:97-124 | over all sessions, ended or not, the receiver hands envelopes over in the order in which the sender accepted them, within a session and from one session to the next |
| `PeerLink.LinkAlways` | packages/torchat-peer/src/peer/inbound.rs:97-124 | the link invariant holds for every session after every interleaving of sender turns, reconnects, reads, forwarded acknowledgements and time-outs |
| `PeerLink.ForwardKeeps` | packages/torchat-peer/src/peer/inbound.rs:245-265 | forwarding an acknowledgement keeps every queued answer honest: it carries the hash of the envelope it names, and only a reported envelope is answered beyond Received |
| `PeerTruth.ReportsAreTrue` | packages/torchat-peer/src/peer/inbound.rs:245-265 | end to end, in every run over any number of sessions: a delivery the sender reports as Received, Persisted, Delivered or Rejected was before that read, persisted, delivered or rejected by a receiver |
| `PeerTruth.OnlyValidIsHanded` | packages/torchat-peer/src/peer/inbound.rs:97-124 | only envelopes with a sequence, a ciphertext and the session's id reach a receiver's application |
| `ContactTask.CommandQueues.Enqueue` | packages/torchat-peer/src/peer/queue.rs:17-38 | the queues become those of the specification; the command is taken unless its key is already held |
| `ContactTask.CommandQueues.InsertDedupe` | packages/torchat-peer/src/peer/queue.rs:40-45 | the key is added, and the result says whether it was new |
| `ContactTask.CommandQueues.Complete` | packages/torchat-peer/src/peer/queue.rs:47-51 | exactly the key of this delivery leaves the dedupe set |
| `ContactTask.CommandQueues.PopNext` | packages/torchat-peer/src/peer/queue.rs:71-79 | the command and the remaining queues are those of the specification |
| `ContactTask.CommandQueues.PushFront` | packages/torchat-peer/src/peer/queue.rs:81-96 | the command is back at the front of the place it came from |
| `ContactTask.CommandQueues.DropEphemeralWithoutSession` | packages/torchat-peer/src/peer/queue.rs:98-100 | only the ephemeral slot is cleared |
| `ContactTask.CommandQueues.DrainFailed` | packages/torchat-peer/src/peer/queue.rs:102-114 | all four places are emptied and the keys of exactly the returned commands are released |
| `ContactTask.FailQueuedAtOnce` | packages/torchat-peer/src/peer/session.rs:518-529 | draining and failing one command at a time equals failing all of them at once |
| `ContactTask.ContactTask.Take` | packages/torchat-peer/src/peer/session.rs:178-180 | one command from the channel is enqueued, and its acceptance recorded |
| `ContactTask.ContactTask.CompletePersistedWaiters` | packages/torchat-peer/src/peer/session.rs:492-499 | all waiters are removed and their keys released, with no failure reported |
| `ContactTask.ContactTask.ExpirePersistedWaiters` | packages/torchat-peer/src/peer/session.rs:474-490 | exactly the waiters past the acknowledgement time-out are released |
| `ContactTask.ContactTask.FailActiveDeliveries` | packages/torchat-peer/src/peer/session.rs:501-516 | every active delivery is failed and released, waiters are released without a failure |
| `ContactTask.ContactTask.FailQueuedCommands` | packages/torchat-peer/src/peer/session.rs:518-529 | every queued durable command is failed, the rest dropped |
| `ContactTask.ContactTask.SendUpdates` | packages/torchat-peer/src/peer/outbound.rs:98-113 | the unsent endpoint updates go out in order until a write fails |
| `ContactTask.ContactTask.SendOutboundCommand` | packages/torchat-peer/src/peer/outbound.rs:32-181 | all frames of the command are written and it enters the window, or a prefix is written and nothing else changes |
| `ContactTask.ContactTask.FillWindow` | packages/torchat-peer/src/peer/session.rs:253-296 | the send loop ends in the specified state for every point at which a write may fail |
| `ContactTask.ContactTask.FailWrite` | packages/torchat-peer/src/peer/session.rs:278-294 | after a failed write the popped command and everything active is concluded and the session is over |
| `ContactTask.ContactTask.HandleOutboundFrame` | packages/torchat-peer/src/peer/outbound.rs:191-366 | the frame has the specified effect and the result says whether the session survives it |
| `ContactTask.ContactTask.HandleAck` | packages/torchat-peer/src/peer/outbound.rs:207-261 | an acknowledgement moves or concludes exactly the delivery it names, or is ignored, or fails on a hash mismatch |
| `ContactTask.ContactTask.Select` | packages/torchat-peer/src/peer/session.rs:383-470 | whatever the select yields, the state is the specified one |
| `ContactTask.ContactTask.AfterFill` | packages/torchat-peer/src/peer/session.rs:298-381 | waiters expire, keepalive and acknowledgement time-outs fail the session, idle sessions close |
| `ContactTask.ContactTask.Turn` | packages/torchat-peer/src/peer/session.rs:248-472 | one turn of the connected loop refines the specified turn and keeps the invariant |
| `ContactTask.ContactTask.Wait` | packages/torchat-peer/src/peer/session.rs:181-190 | the waiting loop takes commands until one is worth dialling for, or returns |
| `ContactTask.ContactTask.Step` | packages/torchat-peer/src/peer/session.rs:177-216 | one step of the contact task refines the specified step and keeps the invariant |
| `ContactTask.ContactTask.Drive` | packages/torchat-peer/src/peer/session.rs:167-217 | the whole contact task refines the specified run |
| `BrokerRuns.NeverPanics` | services/torchat-relay/src/main.rs:199-243 | for every sequence of arrivals, departures, frames and ticks no index or unwrap fails, each pairing counter equals the bridges it counts and is at most 2, each slot counter bounds the live slots, and owners and parties are connected |
| `BrokerRuns.NothingSaturates` | services/torchat-relay/src/main.rs:232-238 | after every run the saturating subtractions on pairing counters and on slot counters are exact |
| `BrokerRuns.FirstFreeIsFree` | services/torchat-relay/src/main.rs:303-311 | if some drawn code is free, the code a slot gets is one of those drawn and no live slot uses it |
| `BrokerLedger.RemoveBridgesKeeps` | services/torchat-relay/src/main.rs:256-271 | removing any set of bridges keeps every counter exact |
| `BrokerLedger.DisconnectedKeeps` | services/torchat-relay/src/main.rs:220-239 | a departure keeps the books |
| `BrokerLedger.ExpireKeeps` | services/torchat-relay/src/main.rs:247-275 | the expiry tick keeps the books |
| `BrokerLedger.ProcessKeeps` | services/torchat-relay/src/main.rs:277-557 | every frame keeps the books |
| `BrokerCapacity.CapacityByDoubleCounting` | services/torchat-relay/src/main.rs:28-31 | after every run the pairing counters sum to twice the bridges, so bridges never exceed connections, connections never exceed 2000 and slots never exceed 1000 |
| `BrokerCapacity.DriftIsExpiry` | services/torchat-relay/src/main.rs:254-255 | one input raises the excess of a slot counter over the live slots by exactly the slots of that connection the expiry tick took, and every other input moves both together |
| `BrokerCapacity.DriftIsTotalExpiry` | services/torchat-relay/src/main.rs:254-255 | after every run the excess is the number of the connection's slots that expiry ticks took since it arrived, so the counter equals the live slots if and only if none lapsed |
| `BrokerCapacity.LockOutHappens` | services/torchat-relay/src/main.rs:295-298 | a concrete run in which two slots lapse, the table is empty and the next request is refused for capacity |
| `BrokerCapacity.DriftNeverShrinks` | services/torchat-relay/src/main.rs:254-255 | while a connection stays, the excess of its slot counter never shrinks |
| `BrokerCapacity.LockedOut` | services/torchat-relay/src/main.rs:295-298 | after two slots of a connection lapsed in the table it is refused every further slot for as long as it stays connected |
| `BrokerSlots.CreatedSlotIsUsable` | services/torchat-relay/src/main.rs:290-339 | the answer to a slot request is usable: its code finds its handle until its expiry, 10 to 120 seconds ahead, and its handle and capability take exactly this slot out again |
| `BrokerSlots.SingleUse` | services/torchat-relay/src/main.rs:418-433 | over every run each slot becomes at most one bridge, and then is out of the table |
| `BrokerSlots.FinishFindsNoSlot` | services/torchat-relay/src/main.rs:585-589 | when a pairing ends its slot is already gone, so the slot clean-up at the end of a pairing never applies |
| `BrokerSlots.CodeResolution` | services/torchat-relay/src/main.rs:352-373 | live slots have pairwise different codes, and a displayed code is answered with the slot it was last issued for exactly while that slot is in the table and unexpired |
| `BrokerSlots.DeadCodeStaysDead` | services/torchat-relay/src/main.rs:356-362 | a code that stopped resolving resolves to no slot until it is issued again |
| `PairingCode.NormalizeUndoesFormat` | services/torchat-relay/src/main.rs:649-665 | a code is shown as two groups of four digits; normalising that or the compact form gives the code back |
| `PairingCode.NormalizeIff` | services/torchat-relay/src/main.rs:649-657 | a text stands for a code if and only if it is eight digits with white space anywhere |
| `BrokerRouting.EveryPairingIsRouted` | services/torchat-relay/src/main.rs:386-591 | after every run the frames sent about each pairing id are accepted by the routing automaton, which stands where the bridge table says |
| `BrokerRouting.ForwardedOnlyToParties` | services/torchat-relay/src/main.rs:435-481 | a request goes only to the owner, a start or an acceptance only to the joiner, of the bridge open at that moment |
| `BrokerRouting.OneTerminalNotice` | services/torchat-relay/src/main.rs:569-584 | each bridge yields one terminal notice, to the owner and then the same to the joiner, and is then gone |
| `BrokerRouting.TokensMatchTheirSides` | services/torchat-relay/src/main.rs:412-460 | each side of a new bridge is sent the token that authorizes it, and only in its own role |
| `BrokerRouting.EndingNeedsToken` | services/torchat-relay/src/main.rs:482-568 | a frame takes a bridge out of the table if and only if it ends that pairing with a valid token of its sender |
| `BrokerCauses.EveryFrameIsWarranted` | services/torchat-relay/src/main.rs:277-591 | in every run, every frame sent answers the input of that moment: a terminal notice is the one its ending frame stands for, sent with a valid token; an acceptance is the owner's with the response unchanged; requests and answers carry what was asked, drawn and found; and every refusal is true |
| `BrokerCauses.RequestsAreAnswered` | services/torchat-relay/src/main.rs:290-460 | in every run, a request of a connected client is answered exactly once, to that client and under its request id |
| `BrokerTables.TablesFollowTheirReasons` | services/torchat-relay/src/main.rs:199-591 | in every run, a bridge leaves the table if and only if a party ends it with its token, a party leaves or a tick finds it expired; a slot if and only if it is joined, cancelled with its capability, expired at a tick or its owner leaves; what comes and when is given exactly, and everything else stays |
| `BrokerTables.MembersFollowTheirReasons` | services/torchat-relay/src/main.rs:207-239 | in every run, a client is connected exactly from an arrival that finds room until it leaves |
| `BrokerLimiter.AtMostFivePerWindow` | services/torchat-relay/src/main.rs:344-351 | for every run with a clock that does not go back, every connection and every 60-second window, at most 5 resolution frames pass |
| `BrokerLimiter.PassesIff` | services/torchat-relay/src/main.rs:344-351 | over every run with such a clock, a resolution frame passes if and only if fewer than five of that connection passed in the last 60 seconds |
| `BrokerLimiter.ResolveShape` | services/torchat-relay/src/main.rs:344-351 | what the limiter remembers and whether the frame passes |
| `BrokerActor.Actor.Connect` | services/torchat-relay/src/main.rs:207-219 | a connection is added below the limit and otherwise nothing changes |
| `BrokerActor.Actor.Disconnect` | services/torchat-relay/src/main.rs:220-239 | the connection, its slots and its bridges are gone and the other parties are credited |
| `BrokerActor.Actor.TakeBridges` | services/torchat-relay/src/main.rs:228-231 | the listed bridges leave the table, each once |
| `BrokerActor.Actor.ReleaseParties` | services/torchat-relay/src/main.rs:232-238 | the nested loop of saturating decrements equals crediting each party by the bridges it lost |
| `BrokerActor.Actor.ExpireState` | services/torchat-relay/src/main.rs:247-275 | expired slots and bridges are gone, with the bridges credited and the slots not |
| `BrokerActor.Actor.DrawCode` | services/torchat-relay/src/main.rs:303-311 | the redraw loop ends with the first drawn code that no live slot uses |
| `BrokerActor.Actor.CreatePairingSlot` | services/torchat-relay/src/main.rs:290-339 | a slot is issued with the code the redraw loop settles on and counted, or the request is refused for capacity |
| `BrokerActor.Actor.TrimAttempts` | services/torchat-relay/src/main.rs:346-346 | exactly the attempts inside the window are kept, in order |
| `BrokerActor.Actor.FindSlot` | services/torchat-relay/src/main.rs:356-359 | the unordered search finds the only slot that can match, or none matches |
| `BrokerActor.Actor.ResolvePairingCode` | services/torchat-relay/src/main.rs:340-374 | the limiter, the normalisation and the lookup have the specified effect |
| `BrokerActor.Actor.StartPairing` | services/torchat-relay/src/main.rs:375-460 | each refusal in its order, or the bridge is opened and both sides are told |
| `BrokerActor.Actor.FinishPairing` | services/torchat-relay/src/main.rs:569-591 | the bridge is removed, both parties credited and told |
| `BrokerActor.Actor.CancelPairingSlot` | services/torchat-relay/src/main.rs:542-555 | the slot is removed only for its owner with its capability |
| `BrokerActor.Actor.ProcessFrame` | services/torchat-relay/src/main.rs:277-557 | every frame has the specified effect |
| `BrokerActor.Actor.Handle` | services/torchat-relay/src/main.rs:199-243 | one turn of the actor refines the specified step and keeps the books |
| `Scheduler.NextDeadlineIsMinimum` | packages/torchat-client-engine/src/scheduler/plan.rs:14-19 | the next deadline is the least of those set, and is absent only if none is set |
| `Scheduler.WakingFires` | packages/torchat-client-engine/src/scheduler/plan.rs:21-35 | at or after the next deadline, and only then, some kind is due; exactly the due kinds are listed, each once |
| `SchedulerRuns.NoLostWakeUp` | packages/torchat-client-engine/src/scheduler/worker.rs:48-58 | in every interleaving, a worker waiting on the current generation has a timer of it in the inbox unless a new plan is on its way, a worker waiting on a past one can always go on, and a sleeping worker sleeps on the published plan or is about to see that it changed |
| `SchedulerRuns.PlanIsUpToDate` | packages/torchat-client-engine/src/actor/input_handlers.rs:181-194 | in every interleaving the published plan carries the retry deadline it was last published with, and while the actor is idle for each periodic kind the deadline set when that kind was last acted on |
| `SchedulerRuns.RetryIsFired` | packages/torchat-client-engine/src/scheduler/worker.rs:16-46 | in every interleaving a worker asleep on the published plan can wake from the published retry time on, and then has the retry on its list |
| `SchedulerRuns.DueKindIsFired` | packages/torchat-client-engine/src/scheduler/worker.rs:29-41 | a sleeping worker whose plan has a kind due can wake and has that kind on its list |
| `SchedulerRuns.AllTimersAreSent` | packages/torchat-client-engine/src/scheduler/worker.rs:41-46 | a firing worker can send its whole list, and every kind on it is then in the inbox with its generation |
| `SchedulerRuns.PublishesAfter` | packages/torchat-client-engine/src/actor/run.rs:128-131 | the actor goes on to publish exactly after an input that changes the plan or a timer of its own generation |
| `SchedulerRuns.OncePerGeneration` | packages/torchat-client-engine/src/actor/run.rs:152-157 | each generation is fired at most once and at most one of its timers is acted on |
| `SchedulerRuns.CurrentTimerActs` | packages/torchat-client-engine/src/actor/input_handlers.rs:116-123 | a timer of the current generation is acted on for the first time and a new plan follows |
| `SchedulerRuns.StaleLosesNothing` | packages/torchat-client-engine/src/actor/run.rs:153-155 | when a stale periodic timer is dropped its kind was acted on since, or the current plan has it due |
| `SchedulerRuns.WakeUpLostAtSaturation` | packages/torchat-client-engine/src/actor/run.rs:128-131 | one publication past the saturated generation a reachable state has lost its wake-up, so the bound on publications is exact |
| `SchedulerRuns.RunKeeps` | packages/torchat-client-engine/src/scheduler/worker.rs:14-59 | the protocol invariant is kept by every run of worker, actor and other inputs below that bound |
| `ByteCodec.FromBeUndoesBe` | packages/torchat-crypto/src/mls.rs:498-501 | reading a big-endian number undoes writing it |
| `ByteCodec.TakeIff` | packages/torchat-crypto/src/mls.rs:503-510 | a take succeeds exactly on inputs that start with that many bytes, and splits them off |
| `ByteCodec.TakeBlobIff` | packages/torchat-crypto/src/mls.rs:512-519 | a blob is taken off exactly the inputs that start with its written form |
| `Snapshot.ParseIff` | packages/torchat-crypto/src/mls.rs:260-308 | the parser accepts a byte string if and only if it is the printed form of an envelope, V1 or V2, and returns that envelope |
| `Snapshot.PrintInjective` | packages/torchat-crypto/src/mls.rs:223-257 | a printed envelope decomposes in one way only |
| `Snapshot.TruncatedRejected` | packages/torchat-crypto/src/mls.rs:297-300 | every proper prefix of an accepted snapshot is rejected |
| `Snapshot.ExtendedRejected` | packages/torchat-crypto/src/mls.rs:297-300 | every accepted snapshot with bytes appended is rejected |
| `Snapshot.PayloadRoundTrip` | packages/torchat-crypto/src/mls.rs:377-425 | for every iteration order of the storage, reading the payload back gives the same storage |
| `Snapshot.SnapshotRoundTrip` | packages/torchat-crypto/src/mls.rs:223-308 | restoring undoes both snapshot forms, and the metadata read from the same bytes is the conversation's |
| `Snapshot.RestoreImpliesMetadata` | packages/torchat-crypto/src/mls.rs:325-371 | whatever the restore path accepts the metadata path accepts with the same group id, epoch and hash, and a state version exactly for V2 |
| `Snapshot.MigrationPreserves` | packages/torchat-crypto/src/mls.rs:317-323 | migrating V1 to V2 keeps the conversation and stamps the requested state version |
| `Snapshot.RestoreIff` | packages/torchat-crypto/src/mls.rs:260-308 | a snapshot restores to a conversation if and only if it is a printed envelope with a matching checksum, of the supported schema, version and suite, whose payload loads as that conversation with the envelope's group id and epoch |
| `Snapshot.MetadataIff` | packages/torchat-crypto/src/mls.rs:325-371 | metadata is read exactly from printed envelopes with a matching checksum, and is what the envelope says |
| `Snapshot.PayloadIff` | packages/torchat-crypto/src/mls.rs:402-425 | the payload parser accepts exactly the byte strings that start with a printed payload, and returns it |
| `Snapshot.MigratesIff` | packages/torchat-crypto/src/mls.rs:317-323 | exactly the V1 snapshots that restore are migrated |
| `SnapshotCodec.WriteBlob` | packages/torchat-crypto/src/mls.rs:498-501 | a 32-bit length and the value are appended |
| `SnapshotCodec.SnapshotPayload` | packages/torchat-crypto/src/mls.rs:377-396 | the loop over the storage prints some enumeration of it |
| `SnapshotCodec.SnapshotCurrent` | packages/torchat-crypto/src/mls.rs:223-239 | the appended fields are the printed V1 envelope |
| `SnapshotCodec.SnapshotV2` | packages/torchat-crypto/src/mls.rs:242-257 | the appended fields are the printed V2 envelope |
| `SnapshotCodec.Cursor.TakeBytes` | packages/torchat-crypto/src/mls.rs:503-510 | the head is returned and the cursor moves past it, or nothing is consumed |
| `SnapshotCodec.Cursor.TakeText` | packages/torchat-crypto/src/mls.rs:512-519 | a length-prefixed value is returned and the cursor moves past it |
| `SnapshotCodec.RestoreItems` | packages/torchat-crypto/src/mls.rs:422-424 | the loop fills the storage from that many pairs or fails |
| `SnapshotCodec.RestorePayload` | packages/torchat-crypto/src/mls.rs:402-425 | the payload parser, with whatever follows ignored |
| `SnapshotCodec.RestoreCurrent` | packages/torchat-crypto/src/mls.rs:260-308 | checking field by field accepts exactly what the specification accepts |
| `SnapshotCodec.ReadMetadata` | packages/torchat-crypto/src/mls.rs:325-371 | the metadata path accepts exactly the envelopes with a matching checksum |
| `PeerSigning.EndpointBytesInjective` | common/torchat-core/src/peer_protocol.rs:103-125 | equal endpoint signing bytes mean equal endpoints |
| `PeerSigning.TranscriptBytesInjective` | common/torchat-core/src/peer_protocol.rs:266-287 | equal transcripts mean equal handshakes, up to the capability proof, which is not part of a transcript |
| `PeerSigning.MessageBytesInjective` | common/torchat-core/src/peer_protocol.rs:356-368 | equal message signing bytes mean equal envelopes up to the ciphertext behind the hash |
| `PeerSigning.DomainsNeverCollide` | common/torchat-core/src/peer_protocol.rs:22-24 | no byte string is signed in two of the three roles |
| `PeerSigning.PushCapabilities` | common/torchat-core/src/peer_protocol.rs:112-114 | the loop appends the capabilities in order |
| `PeerSigning.BuildEndpointBytes` | common/torchat-core/src/peer_protocol.rs:103-125 | appending field by field yields the endpoint signing bytes |
| `Handshake.OnlyHandshakesSignTranscripts` | common/torchat-core/src/peer_protocol.rs:266-287 | an honest key's signature over a transcript was made in a handshake |
| `Handshake.InitiatorAgreement` | packages/torchat-peer/src/peer/outbound.rs:455-470 | an initiator that verifies a challenge shares the whole transcript with the responder that issued it |
| `Handshake.ResponderAgreement` | packages/torchat-peer/src/peer/inbound.rs:346-350 | a responder that verifies a proof shares the whole transcript with the initiator that made it for this responder |
| `Handshake.HonestHandshakeCompletes` | packages/torchat-peer/src/peer/outbound.rs:425-493 | between honest sides with matching records every check passes and the handshake completes |
| `Handshake.SessionAgreement` | packages/torchat-peer/src/peer/inbound.rs:281-358 | when both sides complete with one session id they agree on both identities, both sequences, both nonces, the capability and the onion address |
| `Handshake.ChallengedIff` | packages/torchat-peer/src/peer/inbound.rs:290-315 | a responder challenges a hello if and only if it speaks this version, is the contact's, is not older than the endpoint on record, names the contact's capability and proves it under a non-empty secret |
| `Handshake.AcceptedIsEntitled` | packages/torchat-peer/src/peer/inbound.rs:290-350 | in every run, whoever is challenged or accepted met every one of these conditions |
| `EndpointChain.SessionMonotone` | packages/torchat-peer/src/peer/inbound.rs:125-165 | whatever updates arrive, within a session accepted sequences strictly rise and the identity is pinned |
| `EndpointChain.AppliedIff` | packages/torchat-peer/src/peer/inbound.rs:125-165 | a running session takes an update over if and only if it is its peer's, follows directly and is credible; announces it if the peer is still authorized; and ends exactly for a foreign, a newer but inadmissible or an unauthorized one |
| `EndpointChain.CredibleIff` | common/torchat-core/src/peer_protocol.rs:127-176 | validation with saturating differences means: signed, its key's own, this version and port, issued and expiring within ten minutes of now, with distinct capabilities |
| `EndpointChain.AnnouncedIsCredible` | packages/torchat-peer/src/peer/inbound.rs:137-165 | every endpoint a session announces arrived in an update and was credible then |
| `EndpointChain.ReplayConverges` | packages/torchat-peer/src/peer/inbound.rs:131-136 | a receiver that applied any prefix of a chain and is sent all of it again raises no error, ends at the last endpoint and announces exactly the rest |
| `EndpointChain.ReconnectSendsWholeChain` | packages/torchat-peer/src/peer/outbound.rs:98-113 | a new session transmits the whole chain, because nothing of it counts as sent yet |
| `EndpointChain.UnsentRises` | packages/torchat-peer/src/peer/outbound.rs:98-113 | whatever the list, the updates sent come from it, lie past the last one sent and rise strictly |
| `EndpointChain.UnsentIff` | packages/torchat-peer/src/peer/outbound.rs:98-113 | of a rising list exactly the updates past the last one sent are sent |
| `EndpointChain.Inbound.ReceiveUpdate` | packages/torchat-peer/src/peer/inbound.rs:125-165 | one update is skipped, applied or fatal as specified |
| `EndpointChain.Inbound.ServeUpdates` | packages/torchat-peer/src/peer/inbound.rs:91-165 | the loop stops at the first fatal update |
| `EndpointTable.EntryIsLastWritten` | packages/torchat-peer/src/peer/inbound.rs:138-158 | over every run of engine and inbound sessions, the shared entry of a peer is what the engine or any of its sessions wrote last |
| `EndpointTable.EntryMovesBackIff` | packages/torchat-peer/src/peer/inbound.rs:137-158 | over every such run, the entry moves back at an event if and only if the event writes a lower sequence than the last one written, and a session does so only after the engine or another session wrote |
| `EndpointTable.OneSessionNeverMovesBack` | packages/torchat-peer/src/peer/inbound.rs:137-158 | while one session writes everything about a peer its entry never moves back |
| `EndpointTable.HonestChainMovesBack` | packages/torchat-peer/src/peer/inbound.rs:137-158 | every valid chain of two updates moves the entry back when it reaches one session whole and then a second one only in part |
| `EndpointTable.EntryMovesBackSomewhere` | packages/torchat-peer/src/peer/inbound.rs:137-158 | a concrete run that does so |
| `Anchor.DecodeUndoesEncode` | apps/desktop/native/src/runtime_engine_stdio.rs:202-244 | decoding inverts encoding, and an encoded checkpoint never reads as the eight-byte form |
| `Anchor.DecodeAccepts` | apps/desktop/native/src/runtime_engine_stdio.rs:213-244 | every accepted byte string is an encoded checkpoint or an eight-byte epoch |
| `Anchor.AnchorMonotone` | packages/torchat-crypto/src/anti_rollback.rs:19-44 | along every run of hash-carrying candidates from an empty or legacy anchor, recorded versions never decrease, each version has one hash, and the first record over a legacy anchor does not lower the epoch |
| `Anchor.VerdictIff` | packages/torchat-crypto/src/anti_rollback.rs:19-44 | the verdict for every file: no file is ready; a checkpoint with a hash admits exactly what does not go back from it; one without, or an eight-byte epoch, exactly that epoch and later; anything else is unreadable |
| `Anchor.ResubmitIsReady` | packages/torchat-crypto/src/anti_rollback.rs:74-85 | submitting the recorded checkpoint again is ready and leaves the file as it is |
| `Anchor.RejectedLeavesAnchor` | packages/torchat-crypto/src/anti_rollback.rs:74-85 | a candidate is recorded exactly if the rule accepts it, and otherwise the stored bytes are unchanged |
| `Anchor.FileHoldsLastRecord` | packages/torchat-crypto/src/anti_rollback.rs:74-85 | after a run the file holds the last recorded checkpoint or is untouched |
| `Anchor.GuardNeedsHash` | packages/torchat-crypto/src/anti_rollback.rs:29-35 | a stored checkpoint protects its version if and only if it carries a hash or its version is zero |
| `Anchor.EmptyHashRollsBack` | packages/torchat-crypto/src/anti_rollback.rs:29-35 | three accepted candidates, the second without a hash, end below where they were |
| `Anchor.EncodeCheckpoint` | apps/desktop/native/src/runtime_engine_stdio.rs:202-211 | appending field by field yields the encoded checkpoint |
| `Anchor.AnchorFile.ValidateSnapshot` | packages/torchat-crypto/src/anti_rollback.rs:74-85 | verdict and stored bytes are those of the specification |
| `MessageRuns.AttentionIff` | packages/torchat-runtime/src/session.rs:28-58 | a conversation is attended exactly if the app is in the foreground and it was focused with nothing disturbing it since |
| `MessageRuns.UnreadCountsUnseen` | packages/torchat-runtime/src/runtime.rs:1206-1293 | after every run the unread count is the number of messages accepted unattended since the last reset |
| `MessageRuns.DuplicatesChangeNothing` | packages/torchat-runtime/src/runtime.rs:1219-1232 | receiving an id that is held changes nothing at all |
| `MessageRuns.AcceptedTwiceOnlyAfterDelete` | packages/torchat-runtime/src/runtime.rs:979-989 | one id is accepted twice only if it was deleted in between |
| `MessageRuns.UnseenDistinctIff` | packages/torchat-runtime/src/runtime.rs:1219-1232 | the messages counted as unread are distinct if and only if none was counted, deleted and counted again with no reset after the first time |
| `MessageRuns.UnreadCountsDistinctIff` | packages/torchat-runtime/src/runtime.rs:1206-1293 | after every run the unread count is the number of distinct unread messages under exactly that condition |
| `MessageRuns.DeletedMessageCountsAgain` | packages/torchat-runtime/src/runtime.rs:979-989 | receive, delete, receive of one id leaves two unread and one message |
| `MessageRuns.DeliveredStays` | packages/torchat-runtime/src/runtime.rs:1295-1326 | once an outgoing message is Delivered it stays Delivered or Read while it is held, whatever outcomes, retries, sends and receipts follow; once Read it stays Read |
| `MessageRuns.SettledStep` | packages/torchat-runtime/src/message_rules.rs:13-45 | a settled message changes only by a read receipt |
| `MessageRuns.EventsMirrorStorage` | packages/torchat-runtime/src/runtime.rs:933-1020 | after every run the last announced state of each held message and the last announced unread count are the stored ones |
| `MessageHistory.StateIsExplained` | packages/torchat-runtime/src/message_rules.rs:13-45 | after every run, a held outgoing message is in its state because of a call that accounts for it, and has been since that call |
| `MessageHistory.OutcomeDecides` | packages/torchat-runtime/src/message_rules.rs:24-44 | a reported outcome decides a message that is being sent; otherwise only a hopeless one moves it, and only if it has not arrived |
| `MessageHistory.ContentIsAsGiven` | packages/torchat-runtime/src/runtime.rs:1206-1293 | every held message has the sender, conversation and trimmed text it was given with and was not deleted since |
| `MessageHistory.IncomingIsDelivered` | packages/torchat-runtime/src/runtime.rs:1233-1250 | a received message is Delivered for as long as it is held |
| `MessageHistory.HeldUntilDeleted` | packages/torchat-runtime/src/runtime.rs:979-989 | nothing but its deletion takes a message out of storage |
| `MessageHistory.SendingIsPermitted` | packages/torchat-runtime/src/runtime.rs:1090-1152 | in every run, a message starts to be sent only into a conversation that accepts messages, to a verified contact that is not blocked |
| `MessageHistory.SentIff` | packages/torchat-runtime/src/runtime.rs:895-931 | a message is stored and being sent if and only if it has text, its reply is in the conversation and the conversation may be written to; otherwise nothing is stored |
| `MessageHistory.RetryDecides` | packages/torchat-runtime/src/runtime.rs:933-977 | a retry of a Failed or Queued message sends it if its conversation may be written to and leaves it Queued if not |
| `MessageHistory.PendingPreparesTheReady` | packages/torchat-runtime/src/runtime.rs:1154-1167 | the listed messages before the first that cannot be sent are being sent afterwards, and no others move |
| `MessageHistory.ArrivalsAreAnnounced` | packages/torchat-runtime/src/runtime.rs:1251-1293 | after every run, the arrivals announced are the messages accepted, each once and in order |
| `ClientRuntime.Runtime.SetConversationFocus` | packages/torchat-runtime/src/runtime.rs:731-758 | focus is set, and an attended conversation with unread messages is reset and announced |
| `ClientRuntime.Runtime.PrepareMessageSend` | packages/torchat-runtime/src/runtime.rs:1090-1152 | every refusal leaves the state alone; otherwise the message is Sending |
| `ClientRuntime.Runtime.SendMessage` | packages/torchat-runtime/src/runtime.rs:895-931 | a refused send changes nothing; an accepted one ends as a stored Sending message whose body is the trimmed text |
| `ClientRuntime.Runtime.RetryMessage` | packages/torchat-runtime/src/runtime.rs:933-977 | only Failed or Queued messages are retried; a retry whose preparation is refused stays Queued |
| `ClientRuntime.Runtime.PreparePendingSends` | packages/torchat-runtime/src/runtime.rs:1154-1167 | messages are prepared in order until one is refused |
| `ClientRuntime.Runtime.DeleteMessageLocal` | packages/torchat-runtime/src/runtime.rs:979-989 | only the local record goes |
| `ClientRuntime.Runtime.ApplyMessageRead` | packages/torchat-runtime/src/runtime.rs:991-1020 | succeeds exactly if the outgoing message is Read afterwards |
| `ClientRuntime.Runtime.ApplyTransportOutcome` | packages/torchat-runtime/src/runtime.rs:1295-1326 | the rule for outcomes is applied, and nothing is announced if it changes nothing |
| `ClientRuntime.Runtime.ReceiveMessage` | packages/torchat-runtime/src/runtime.rs:1206-1293 | a new message is stored with its trimmed body, counted and announced; a duplicate is answered from storage, and a blank one refused |
| `Messages.TrimParts` | packages/torchat-runtime/src/runtime/message_delivery.rs:5-13 | trimming takes white space off both ends and nothing else |
| `Probes.SnapshotIsState` | packages/torchat-client-engine/src/probing.rs:183-193 | after every run the retained snapshot of each probe equals its state |
| `Probes.LeasesAreSeparated` | packages/torchat-client-engine/src/probing.rs:272-291 | two hand-outs of one key with no result or removal between them lie at least the first lease's time-out apart |
| `Probes.HandedOutAgainIff` | packages/torchat-client-engine/src/probing.rs:276-281 | without a result or a removal, and whatever else is called in between, the key is handed out again exactly from the end of its last lease and its last request on |
| `Probes.FailuresCountTheStreak` | packages/torchat-client-engine/src/probing.rs:309-313 | the failure counter is the number of Offline results since the last Online or Degraded one, up to its width |
| `Probes.BackoffIsExponential` | packages/torchat-client-engine/src/probing.rs:314-316 | the next check is scheduled after base times two to the power of the streak, at most four |
| `Probes.ProbeIsItsHistory` | packages/torchat-client-engine/src/probing.rs:223-319 | after every run a probe's status, check time, latency, lease, due time and revision are those its calls amount to: the last result, the last hand-out since, the last creation, request or delay, and the count of what happened |
| `Probes.HandedOutIff` | packages/torchat-client-engine/src/probing.rs:275-283 | a call hands a key out if and only if its history makes it due and no lease of it still runs |
| `Probes.ProbeCoordinator.BeginDueWithTimeout` | packages/torchat-client-engine/src/probing.rs:272-291 | exactly the due keys are claimed, each once |
| `Probes.ProbeCoordinator.ClaimIfDue` | packages/torchat-client-engine/src/probing.rs:275-289 | the key is claimed exactly if it is due, and its snapshot published |
| `Probes.ProbeCoordinator.Request` | packages/torchat-client-engine/src/probing.rs:223-230 | the probe exists, is due now and its snapshot is published |
| `Probes.ProbeCoordinator.RecordOutcome` | packages/torchat-client-engine/src/probing.rs:293-319 | status, streak, next check and snapshot are updated as specified, or the key is unknown and nothing changes |

## Left out

- Sockets, SOCKS, WebSocket framing, JSON and base64, tokio tasks and timers: frames are values, writes may fail at any frame, and waiting is a choice of inputs.
- Ed25519, HMAC, SHA-256, OpenMLS and ChaCha20: functions with the assumptions above; loading a conversation from restored storage is a parameter.
- Error texts: failures are an absent result, a refused step or the session's end, without the message.
- The dispatcher that creates contact tasks, and commands still in a channel: conservation starts when a contact task takes a command.
- In-flight endpoint updates and probes of a session, and presence, typing and focus frames: best-effort by design, so conservation does not cover them.
- The send and expiry times inside presence, typing and focus frames: `DeliveryAddress.ControlIsShown` is about frames that have not expired.
- The branch of the send loop that stops for another endpoint while something is active: with a window of one the loop is only entered with an empty window.
- The worker and actor loops of the scheduler are steps of one interleaved state machine, not loops over a shared heap; the retry deadline is arbitrary, so `SchedulerRuns.StaleLosesNothing` covers the two periodic kinds.
- Reading the clock several times within one broker frame: one reading per frame.
- Broker metrics and the capacity of outbound channels: a frame sent is a frame offered.
- The initiator's and responder's time-outs, and the capability proof's construction: its check is a parameter of `Handshake`.
- Overflow of the 32-bit unread counter, of `Duration` and of `Instant`: unbounded numbers.
- The probe coordinator's round deadline and subscriber channels: nothing else in it depends on them.
- The attempt count, retry times, reply quotes and transport error texts of a stored message, and pairing, contact and relationship workflows: contact management is one arbitrary step that keeps messages and unread counts.
- MLS member snapshots, invitations, encryption and decryption.
- SQL storage, effect workers, the FFI handle lifecycle, platform secret stores, Tor process control, scripts and the Flutter app.

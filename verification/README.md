# Glueberry, verified

A Dafny model of the concurrent machines inside a Glueberry node, with proofs about every run of them.

Each machine is a total step function `Next` (or `Step`) over a label type. A label is one lock-held
section, one step that a goroutine takes without a lock (a byte copied, an event emitted), one timer or
network step, or one crash point; a label that is not enabled leaves
the state alone. A statement over every sequence of labels (module `Runs`) is therefore a statement
over every run, of every length, under every interleaving of any number of goroutines and peers.

Where the source is an object whose methods update its fields, there is a class whose methods are
proved to be exactly the steps of the machine (`View() == Next(old(View()), label)`), so the lemmas
about the machine speak about every sequence of calls on the object.

| file | what it covers |
|---|---|
| `Basics.dfy`, `Runs.dfy` | shared small things; runs, invariants over runs, splitting a run, what a run can reach |
| `Handshake.dfy`, `HandshakeRuns.dfy` | the two-phase handshake between two nodes over a lossy network; runs of it that go wrong |
| `Flow.dfy`, `SendFlow.dfy` | the watermark flow controller; concurrent sends sharing one controller per stream name |
| `States.dfy`, `Connections.dfy`, `ConnectionRuns.dfy`, `ConnectionManager.dfy` | the transition table; the connection manager as a machine; runs of it that go wrong; the manager object |
| `Sections.dfy` | what each of its sections does to a peer's state, events and reconnection records, said of the state alone |
| `EventOrder.dfy`, `HandshakeTimers.dfy` | the order in which its events come out; the timers behind its timer flag |
| `Backoff.dfy` | exponential backoff in 64-bit arithmetic and a whole reconnection loop |
| `Streams.dfy`, `StreamManager.dfy`, `StreamLife.dfy`, `OpenKeys.dfy` | the stream registry with lazy opening; the manager object; one encrypted stream; the key a lazily opened stream gets |
| `Primitives.dfy`, `KeyCache.dfy`, `KeyBuffers.dfy` | clamping, key agreement, sealing; the key cache under interleaving; key buffers on the heap |
| `Storage.dfy`, `AddressBook.dfy` | entries and the atomic file; the book |
| `Events.dfy` | dispatcher, forwarder, subscriptions and filters |

Cryptographic functions are fields of a record `Prims`, and every result about them is for every record
that satisfies `Lawful`: the key agreement law of section 6.1 of RFC 7748, the output length of HKDF
(section 2 of RFC 5869), seal and open (section 2.8 of RFC 8439), and that the Edwards-to-Montgomery map
takes an Ed25519 public key to the X25519 public key of the converted private key. `ToyIsLawful` shows
that such a record exists. Dialling, key derivation in the stream manager, disk failures, jitter,
time and timers are arguments or labels: anything may happen at any moment.

Main results, hardest first:

- `Handshake.TwoPhaseSafety`, `Handshake.OnePhaseSafeExactly` and `Handshake.HandshakeCompletes`, with
  `HandshakeRuns.OnePhaseIsNotSafe` and `HandshakeRuns.TornKeyHappens` showing that their conditions are needed.
- `SendFlow.NoLostWakeup`, `SendFlow.WaitersAreFreed`, `SendFlow.SendConservation`, `Flow.Hysteresis`,
  `Flow.CloseOnceExactly`.
- `Streams.NoOrphanedStreams`, `Streams.LeftOpenExactly`, `Streams.RegistryIsCoherent`, `Streams.OpenReturnsTheEntry`.
- `Connections.RecordsAreNeverStale`, `Connections.EntriesLostExactly`, `Connections.EarlyReturnIsTemporary`,
  `Connections.FirstWinsAmongAll`, `Connections.OneOutcomePerConnection`, `Connections.HistoriesAreWalks`.
- `Sections.ObservedExactly`, `Sections.EventsExactly`, `Sections.LoopExactly` and `Sections.DisconnectStopsLoop`: every section, by its effect.
- `Streams.OnlyAgreedNames`; `Primitives.SecretsSeparate`; `Events.AcceptedIsKept`.
- `EventOrder.InOrderExactly` with `EventOrder.ApartMeansInOrder`; `HandshakeTimers.WinningTimeoutExactly`.
- `KeyCache.CacheRefinesDerivation`, `KeyCache.ReturnedKeyExactly`, `OpenKeys.StreamKeyExactly`, `KeyBuffers.Node.Perform`.
- `AddressBook.FileFollowsMemory`, `AddressBook.FileIsLastSave`, `Storage.AtomicExactly`, `AddressBook.BlacklistSticks`.
- `Events.ReceivedInOrder`, `Events.EveryEventAccounted`.
- `Backoff.ClosedFormExactly`, `Backoff.ReconnectionLoop`, `Primitives.Clamping`.

## Model

| member | source | states |
|---|---|---|
| `Handshake.TwoPhaseSafety` | node.go:468-570 | in every reachable state, under any interleaving, loss, duplication, reordering, timeout, disconnect, cleanup and reconnection, an Established node's peer has completed PrepareStreams; it accepts a name if and only if it registered it and has not closed its streams since; unless it has, its key is the agreed one if and only if no removal of the cached key cost it a byte during its copy; unless either closed, both keys are equal if neither was torn and differ if one was |
| `Handshake.OnePhaseSafeExactly` | node.go:572-585 | with an application that may also finalise on its own preparation alone, in every run an Established node may rely on all of that if and only if its peer had prepared |
| `HandshakeRuns.OnePhaseIsNotSafe` | node.go:572-585 | from the start, a CompleteHandshake on receipt of the peer's key reaches Established while the peer has not prepared and accepts no stream at all |
| `HandshakeRuns.TornKeyHappens` | node.go:464-481 | from the start, with a book that knows the peer from before, two cleanups inside PrepareStreams end with the node accepting every name under a key that has lost any chosen byte that was not zero, its peer Established under the whole key |
| `HandshakeRuns.StaleEstablished` | node.go:464-481 | from the start: a node announces, loses the connection and cleans up, and its late Complete establishes a peer whose streams it refuses |
| `Handshake.HandshakeCompletes` | integration_working_test.go:152-325 | every run of the symmetric flow, in any delivery order, makes at most six deliveries and at most 28 steps that change anything, and can only stop after exactly six and exactly 28, with both nodes Established |
| `Handshake.QuiescentIsDone` | README.md:350-375 | a state of the flow in which nothing can change has both nodes Established, six deliveries made and no step left |
| `Handshake.FlowStep` | README.md:350-375 | every step of the flow keeps its invariant (what is in each inbox is exactly what is due) and either changes nothing or is one of the steps left |
| `Handshake.OwnLocal` | node.go:493-570 | a step of the handler keeps the relation between its position, its flags and what it has heard |
| `Handshake.OneLess` | node.go:493-570 | every step of a side that changes anything is exactly one of the steps it had left |
| `Handshake.OwnKeysOk` | pkg/crypto/module.go:93-139 | through lookup, store, copy, removal and zeroing a side's key is the derived one byte for byte except for bytes zeroed ahead of the copy, of which there is one exactly when it is marked torn |
| `Handshake.StepOk` | node.go:493-570 | every step of either node or the network keeps the safety invariant of both sides and never changes the parties |
| `Handshake.RunOk` | node.go:493-570 | so does every run |
| `Handshake.TurnIsHonest` | README.md:350-375 | a node only ever sends its own public key, and Complete only after PrepareStreams has succeeded |
| `Handshake.NetworkExactly` | README.md:350-375 | the network may lose and duplicate any message at any moment |
| `Handshake.MovesExactly` | pkg/connection/state.go:68-93 | the connection may move along any edge of the table but into Established at any moment, a new one being ungreeted |
| `Flow.Hysteresis` | internal/flow/controller.go:70-134 | for all constructor arguments and runs, stray releases and Close included: 0 <= pending <= high, unblocked means below high, blocked means at least min(low+1, high), and the closed channels are exactly the past ones and, after Close, the current one |
| `Flow.SwitchPoints` | internal/flow/controller.go:70-134 | a controller blocks exactly when an acquire fills it to the high watermark and unblocks exactly when a release reaches the low one, closing the waiters' channel |
| `Flow.Watermarks` | internal/flow/controller.go:40-56 | usable watermarks are kept as given; a low one not below the high one becomes a tenth of it, at least 1; the defaults are 1000 and 100 |
| `Flow.StepKeepsInv` | internal/flow/controller.go:70-162 | every section keeps the controller's invariant |
| `Flow.RunKeepsInv` | internal/flow/controller.go:70-162 | every run keeps it |
| `Flow.NoCloseNoPanic` | internal/flow/controller.go:117-134 | in a run without Close no channel is closed twice |
| `Flow.PanicAfterClose` | internal/flow/controller.go:117-162 | after Close a channel is closed twice exactly when the controller was blocked and enough releases follow |
| `Flow.CloseOnceExactly` | internal/flow/controller.go:117-162 | a run with a Close closes a channel twice if and only if the Close found the controller blocked and at least the needed number of releases follow it |
| `Flow.DoubleCloseHappens` | internal/flow/controller.go:127-161 | acquire, close, release at watermark 1 closes a closed channel |
| `Flow.Controller.constructor` | internal/flow/controller.go:40-56 | the new controller is the initial state of the machine for these arguments |
| `Flow.Controller.TryAcquire` | internal/flow/controller.go:70-114 | one pass of Acquire's retry loop is the machine's acquire step, with its three outcomes |
| `Flow.Controller.Release` | internal/flow/controller.go:118-134 | Release is the machine's release step wherever it does not close a closed channel |
| `Flow.Controller.Close` | internal/flow/controller.go:151-162 | Close is the machine's close step |
| `SendFlow.NoLostWakeup` | internal/flow/controller.go:70-134 | in every run of any number of sends, a waiter holds a closed channel and can go on, or the current one while the controller is still blocked |
| `SendFlow.WaitersAreFreed` | internal/flow/controller.go:118-134 | once the needed releases have happened since a call began to wait, its channel is closed and it is enabled, whatever else happened in between |
| `SendFlow.BlockedCountdown` | internal/flow/controller.go:118-134 | until its channel is closed a blocked controller's pending count falls by exactly the releases, and fewer than needed have happened |
| `SendFlow.ShutForever` | internal/flow/controller.go:118-134 | a closed channel stays closed |
| `SendFlow.SendConservation` | node.go:697-759 | the pending count of a controller is exactly the number of calls past Acquire and not yet released, at most high, and a blocked one has as many of them as it needs released |
| `SendFlow.RunConserves` | node.go:697-759 | every run of a node's own sections keeps pending equal to the calls in flight |
| `SendFlow.ChargedExactly` | node.go:697-759 | a section changes a pending count exactly by the sends it starts minus those it ends |
| `SendFlow.OneControllerPerName` | node.go:896-924 | a name keeps one controller for the node's life, no two names share one, and every waiting or sending call on the name uses it |
| `SendFlow.StepKeeps` | node.go:697-759 | every section keeps the invariant, never replaces a controller and never reopens a channel |
| `SendFlow.CallsExactly` | node.go:697-759 | where each section takes its call: granted exactly by an open unblocked controller, refused exactly by a closed one, waiting exactly on a blocked one, and giving up without a charge |
| `SendFlow.Sends.constructor` | node.go:896-924 | a node starts without controllers or calls, and conserving |
| `SendFlow.Sends.GetOrCreateFlowController` | node.go:896-924 | the fast and the slow path in a row give the call the name's one controller object, making it if there was none, and keep objects distinct and counts conserved |
| `SendFlow.Sends.LookUp` | node.go:896-904 | the read-locked lookup is the machine's step and finds exactly the names in the table |
| `SendFlow.Sends.Create` | node.go:906-924 | the write-locked double check and creation is the machine's step |
| `SendFlow.Sends.TryAcquire` | node.go:697-759 | acquiring on the call's controller object is the step of the whole node, keeps its pending counts conserved and touches no other controller, and is granted exactly when the call is then sending |
| `SendFlow.Sends.FinishSend` | node.go:697-759 | the deferred release on the call's controller object is the step of the whole node, keeps it conserved, and never closes a closed channel |
| `States.EachEntryLeavesOnce` | pkg/connection/state.go:68-93 | along a table walk every entry into Connected is left at most once, by establishment, by cooldown or by a fall |
| `States.TableFacts` | pkg/connection/state.go:68-93 | Established and Cooldown come only from Connected, Connected only from Connecting, and a request for Disconnected ends there from every state |
| `Connections.HistoriesAreWalks` | pkg/connection/peer.go:88-99 | in every run, Shutdown included, the history of every connection object ever made is a table walk ending in its state |
| `Connections.ObservedFollowsTable` | pkg/connection/manager.go:271-279 | the state GetState shows moves along at most one table edge per section, an incoming registration along two |
| `Sections.ObservedExactly` | pkg/connection/manager.go:96-731 | every section, and exactly when it moves which peer from which state to which |
| `Sections.EventsExactly` | pkg/connection/manager.go:389-398 | a section that moves a peer, other than a cancelled reconnection and a shutdown, leaves exactly one event of it pending, which names the new state; one that does not leaves an event exactly where it repeats itself; and no pending event is lost |
| `Sections.MovesAreAnnounced` | pkg/connection/manager.go:389-398 | in every run the moves of a peer into a state by such sections are at most the events that name it, emitted or pending |
| `Sections.LoopExactly` | pkg/connection/manager.go:437-522 | each step of a reconnection loop by its record: attempts counted, a cancelled wait ends the loop unless its timer comes first, the peer's entry deleted exactly on giving up or success, no other record or entry changed |
| `Sections.DisconnectStopsLoop` | pkg/connection/manager.go:229-244 | a disconnect of a known peer, and a cancelled reconnection, cancel the record that is the peer's entry and delete the entry, and change no other record or entry |
| `Sections.RecordsExactly` | pkg/connection/manager.go:401-434 | of the other sections only a reconnection that starts and a shutdown touch the records, and how |
| `Sections.DirectionExactly` | pkg/connection/manager.go:145-147 | a dial past the checks makes a connection outbound even if the table then refuses it, an incoming one makes it inbound, and nothing else touches the direction |
| `Connections.IgnoredErrorsAreHarmless` | pkg/connection/manager.go:260-262 | every move to Disconnected whose error is ignored by a call ends in Disconnected |
| `Connections.GivingUpDisconnects` | pkg/connection/manager.go:553-575 | so does that of a loop that is exhausted or finds its peer blacklisted, and its entry is gone |
| `Connections.TimerFollowsState` | pkg/connection/manager.go:311-330 | whatever section brings a peer into Connected sets its timer flag, the one that establishes it clears it, and the direction changes only with a new connection |
| `HandshakeTimers.FlagIsTimer` | pkg/connection/manager.go:311-330 | in every run the flag of a connection says whether it has a timer, which is then its newest and not stopped |
| `HandshakeTimers.CurrentExactly` | pkg/connection/manager.go:325-329 | in every run a timer is its connection's unless it has been stopped or overwritten, never both; an overwritten one is stale and the connection's own is not |
| `HandshakeTimers.EarlierFiresExactly` | pkg/connection/manager.go:314-323 | a timer that can still fire belongs to an earlier arming if and only if an arming found it in place and overwrote it |
| `HandshakeTimers.WinningTimeoutExactly` | pkg/connection/manager.go:335-370 | a timeout that wins is not that of the connection's own timer if and only if its timer was overwritten while in place, or stopped only after it had fired |
| `HandshakeTimers.FiresExactly` | pkg/connection/manager.go:314-323 | a timer fires only while not stopped and the manager not shut down, its handler acts once and only after that, and nothing else puts a peer in Cooldown |
| `HandshakeTimers.EarlyTimeoutHappens` | pkg/connection/manager.go:504-513 | from a new manager: an attempt arms a timer on a peer left in Reconnecting, the application connects, and that timer puts the new connection in Cooldown before its own has fired |
| `Connections.FirstWins` | pkg/connection/manager.go:335-370 | of any number of MarkEstablished calls and fired timeouts on a Connected peer, with events emitted in between, the first decides: one transition, one event announced, and no loser changes state, history, events or reconnection records |
| `Connections.FirstWinsAmongAll` | pkg/connection/manager.go:649-671 | the same with every section of every peer interleaved, until the peer disconnects or its cooldown ends: state and number of announced outcomes, emitted or pending, are those of the first competing call |
| `Connections.OnlyConnectedMoves` | pkg/connection/peer.go:180-192 | a competing call moves the peer and owes its event exactly from Connected |
| `Connections.OneOutcomePerConnection` | pkg/connection/manager.go:335-370 | in every run a peer's entries into Established and Cooldown are exactly the events that say so, emitted or still to be emitted after the unlock, together at most its entries into Connected |
| `Connections.StepTellsTheTruth` | pkg/connection/manager.go:389-398 | each section announces an outcome exactly as often as it enters it, and emitting announces nothing new |
| `Connections.RecordsAreNeverStale` | pkg/connection/manager.go:401-479 | before the context is cancelled, an entry of reconnecting is the record of an uncancelled loop of that peer that has not exited |
| `Connections.FuelRunsOut` | pkg/connection/manager.go:437-479 | with limited attempts every step a loop takes uses up a bounded supply, whatever is interleaved |
| `Connections.EarlyReturnIsTemporary` | pkg/connection/manager.go:401-434 | so after that many steps of its loop the record has exited and no entry points to it |
| `Connections.OneLoopPerPeer` | pkg/connection/manager.go:401-434 | until something cancels a loop, records and running loops correspond one to one |
| `Connections.EntryLostExactly` | pkg/connection/manager.go:467-475 | in one step a running loop comes to have no entry if and only if the step is the success, exhaustion or blacklisting of another loop of its peer |
| `Connections.EntriesLostExactly` | pkg/connection/manager.go:553-575 | in every run before the context is cancelled, a loop runs on without an entry if and only if such an end of another loop took it and the loop has not exited |
| `ConnectionRuns.LateSuccessDropsSuccessor` | pkg/connection/manager.go:467-475 | from a new manager: a reconnection cancelled while dialling succeeds after another was started, which runs on without an entry |
| `Connections.ReconnectReportsConnected` | pkg/connection/manager.go:482-522 | a successful attempt owes a Connected event and counts as success, but the peer is Connected afterwards if and only if it was Connecting or Connected before |
| `ConnectionRuns.ReconnectionNotConnected` | pkg/connection/manager.go:504-516 | from a new manager: a dial fails, the first reconnection attempt succeeds, Connected is due to be emitted, and the peer is Reconnecting |
| `ConnectionRuns.EventsOutOfOrder` | pkg/connection/manager.go:357-366 | from a new manager: a peer's handshake times out, the application disconnects it before the timeout has emitted its event, and Cooldown comes out after Disconnected |
| `EventOrder.InOrderExactly` | pkg/connection/manager.go:357-366 | in every run after which a peer's events have come out in the order of its sections, any pending event of the peer may be emitted next without breaking that order if and only if at most one distinct event of the peer is pending |
| `EventOrder.ApartMeansInOrder` | pkg/connection/manager.go:389-398 | if no section that owes an event of the peer occurs while one of the peer is pending, the peer's events come out in the order of its sections in every state of the run |
| `EventOrder.NeverMended` | pkg/connection/manager.go:389-398 | events that have come out of order stay out of order, whatever follows |
| `EventOrder.LedgerBalanced` | pkg/connection/manager.go:389-398 | in every run the events owed by the sections are exactly those emitted and those pending |
| `Connections.ConnectBeginsExactlyFrom` | pkg/connection/manager.go:96-212 | a connect starts dialling if and only if the peer is known, not blacklisted, and Disconnected or Reconnecting; an expired cooldown that has not been ended still blocks it |
| `ConnectionRuns.ExpiredCooldownBlocks` | pkg/connection/manager.go:120-152 | from a new manager: a connect to a known peer whose cooldown has run out and not been ended changes and announces nothing |
| `ConnectionManager.Manager.TransitionTo` | pkg/connection/peer.go:88-99 | moves the object and extends its history exactly when the table allows it |
| `ConnectionManager.Manager.GetOrCreateConnection` | pkg/connection/manager.go:681-691 | returns the peer's one object, made if missing |
| `ConnectionManager.Manager.EmitEvent` | pkg/connection/manager.go:389-398 | emits an event that a section has left pending |
| `ConnectionManager.Manager.BeginConnect` | pkg/connection/manager.go:96-150 | first section of ConnectCtx is the machine's step and succeeds exactly from Disconnected and Reconnecting |
| `ConnectionManager.Manager.FinishConnect` | pkg/connection/manager.go:150-212 | succeeds exactly from Connecting, and then the object is Connected with a timer and a Connected event pending |
| `ConnectionManager.Manager.HandleConnectFailure` | pkg/connection/manager.go:373-386 | leaves the peer Disconnected and a Disconnected event pending |
| `ConnectionManager.Manager.BeginDisconnect` | pkg/connection/manager.go:221-245 | for a known peer the loop that is its entry is cancelled and the entry deleted, every other record and entry, every state and every pending event being as before; for an unknown one nothing happens |
| `ConnectionManager.Manager.EndDisconnect` | pkg/connection/manager.go:245-267 | leaves the object Disconnected and a Disconnected event of its peer pending |
| `ConnectionManager.Manager.CancelReconnect` | pkg/connection/manager.go:288-308 | succeeds exactly when an entry existed, and then its loop is cancelled, the entry deleted and the peer Disconnected, without an event |
| `ConnectionManager.Manager.HandleHandshakeTimeout` | pkg/connection/manager.go:335-370 | wins exactly from Connected, and then the peer is in Cooldown and the event pending |
| `ConnectionManager.Manager.EndCooldown` | pkg/connection/manager.go:527-550 | restarts exactly from Cooldown, and then the peer is Disconnected and the event pending |
| `ConnectionManager.Manager.StartReconnect` | pkg/connection/manager.go:401-434 | starts exactly when the peer is known, not blacklisted and has no entry, and then the entry is a new record |
| `ConnectionManager.Manager.PeerLost` | pkg/connection/manager.go:579-599 | leaves the peer Disconnected and, if it was known, a Disconnected event pending |
| `ConnectionManager.Manager.Establish` | pkg/connection/manager.go:649-671 | succeeds exactly from Connected, and then the peer is Established with its timer disarmed and the event pending |
| `ConnectionManager.Manager.Register` | pkg/connection/manager.go:697-731 | an incoming connection is the machine's step through Connecting to Connected |
| `ConnectionManager.Manager.CheckAttempts` | pkg/connection/manager.go:440-448 | the retry check is the machine's step and goes on exactly while attempts are left or unlimited |
| `ConnectionManager.Manager.EndWait` | pkg/connection/manager.go:450-459 | the wait goes on exactly by its timer, and ends the loop by its context once cancelled, no other record changing |
| `ConnectionManager.Manager.CheckBlacklist` | pkg/connection/manager.go:461-465 | a loop that finds its peer blacklisted gives up |
| `ConnectionManager.Manager.GiveUp` | pkg/connection/manager.go:553-575 | both giving-up handlers delete the peer's entry, end the loop, disconnect the peer and owe the event, and change nothing else |
| `ConnectionManager.Manager.FinishAttempt` | pkg/connection/manager.go:482-522 | the section after the dial is the machine's step, its refused move ignored |
| `ConnectionManager.Manager.EndLoop` | pkg/connection/manager.go:469-475 | a loop that succeeded deletes whatever entry its peer has |
| `ConnectionManager.Manager.ShutdownAll` | pkg/connection/manager.go:602-622 | the two loops of Shutdown disarm every registered connection and cancel every record, and nothing else |
| `Backoff.Delay` | pkg/connection/reconnect.go:48-66 | the doubling loop in 64-bit arithmetic computes the recursive doubling with cap |
| `Backoff.DoublingIsExact` | pkg/connection/reconnect.go:48-66 | for base below 2^62 and cap at most 2^62 it is min(base*2^n, cap), with no overflow |
| `Backoff.ClosedFormExactly` | pkg/connection/reconnect.go:48-66 | the closed form holds for all such bases and attempts if and only if the cap is at most 2^62 |
| `Backoff.ModerateIsIdeal` | pkg/connection/reconnect.go:48-66 | within those bounds every delay before jitter is the closed form and not negative |
| `Backoff.IdealMonotone` | pkg/connection/reconnect.go:48-66 | delays never decrease with the attempt |
| `Backoff.NextDelay` | pkg/connection/reconnect.go:48-78 | for every 64-bit base and cap the result is the capped doubling plus the jitter, wrapped, replaced by the base if negative; and where the closed form holds it is that plus the jitter |
| `Backoff.ReconnectionLoop` | pkg/connection/manager.go:437-479 | for every 64-bit base and cap a whole loop dials at most MaxAttempts times and if exhausted used exactly its attempts, all failed; where the closed form holds it waits between 9/10 and 11/10 of the ideal sum |
| `Streams.NoOrphanedStreams` | pkg/streams/manager.go:234-402 | in every interleaving each stream ever made is closed, or held by exactly the one unfinished open that made it, or the registry entry of its own slot and no other |
| `Streams.LeftOpenExactly` | pkg/streams/encrypted.go:277-320 | in every run, of the streams neither registered nor held by an open, those that still have an open network stream and a live key are exactly those whose reader ended before anything closed them |
| `Streams.ReplacedStaysOpen` | pkg/streams/manager.go:443-477 | such a stream is left behind when the peer's next handshake stream replaces one whose reader has ended |
| `Streams.RegistryIsCoherent` | pkg/streams/manager.go:324-335 | a peer has allowed names exactly when it has a key, the set is never empty, and no open ever fails for want of a key |
| `Streams.OpenReturnsTheEntry` | pkg/streams/manager.go:386-402 | a completed open returns the registry entry of that moment, and a stream that lost the race is closed |
| `Streams.CheckExactly` | pkg/streams/manager.go:314-335 | a check returns an open stream, refuses an encrypted name that is not allowed, dials every other, and changes nothing else |
| `Streams.OnlyAgreedNames` | pkg/streams/manager.go:324-328 | in every run the name of an encrypted stream was in its peer's allowed set when its open was checked, or when it came in |
| `Streams.NamesExactly` | pkg/streams/manager.go:116-151 | EstablishStreams adds names and the key, CloseStreams of that peer and Shutdown drop both, and nothing else touches them |
| `Streams.EntryExactly` | pkg/streams/manager.go:386-399 | what each section does to the entry of each slot |
| `Streams.ClosedExactly` | pkg/streams/manager.go:422-516 | a stream is closed by its reader, by a close that finds it registered, or by the open that made it and lost, and by nothing else |
| `Streams.OriginExactly` | pkg/streams/manager.go:357-376 | a new stream is that of a dialled open, for its slot, or one the peer opened under an allowed name |
| `Streams.ClosingClosesAll` | pkg/streams/manager.go:480-516 | CloseStreams closes all the peer's registered streams and touches no other peer's; Shutdown closes all |
| `Streams.StepOk` | pkg/streams/manager.go:116-649 | every section keeps the registry's invariant |
| `Streams.RunOk` | pkg/streams/manager.go:116-649 | so does every run |
| `StreamManager.Manager.constructor` | pkg/streams/manager.go:59-78 | a new manager has no streams, names or keys |
| `StreamManager.Manager.EstablishStreams` | pkg/streams/manager.go:116-151 | succeeds exactly for a non-empty list and a derived key, and then exactly these names of this peer are allowed besides the former ones, with the key in place |
| `StreamManager.Manager.BeginOpen` | pkg/streams/manager.go:306-340 | returns the live entry if there is one, refuses exactly an encrypted name that is not allowed, and dials every other slot |
| `StreamManager.Manager.FinishDial` | pkg/streams/manager.go:340-384 | a dial that succeeds leaves its stream in the hands of its open |
| `StreamManager.Manager.FinishOpen` | pkg/streams/manager.go:384-402 | returns the entry of the slot, its own or the winner's |
| `StreamManager.Manager.HandleIncomingStream` | pkg/streams/manager.go:561-616 | accepts exactly an allowed name whose slot holds no open stream |
| `StreamManager.Manager.HandleIncomingHandshakeStream` | pkg/streams/manager.go:443-477 | accepts exactly when the peer has no open handshake stream |
| `StreamManager.Manager.CloseHandshakeStream` | pkg/streams/manager.go:422-440 | the handshake slot of the peer is empty, its stream closed, and every other entry, stream, name and key as before |
| `StreamManager.Manager.ClosePeer` | pkg/streams/manager.go:480-516 | the loop closes exactly the peer's streams and drops its names and key, other peers keeping theirs |
| `StreamManager.Manager.ShutdownAll` | pkg/streams/manager.go:620-649 | the loop closes every registered stream and empties the registry, the names and the keys |
| `StreamLife.FirstEndDecides` | pkg/streams/encrypted.go:277-320 | the sends let through are exactly those before the first end, and the cipher is wiped and the network stream closed if and only if that end is a Close |
| `StreamLife.EncryptedStream.SendCtx` | pkg/streams/encrypted.go:130-189 | a message reaches the wire exactly when the context is live at all three checks, the stream is not closed at the second and the write succeeds, and is then the encryption under the key that was there while the stream was open |
| `StreamLife.EncryptedStream.CloseStream` | pkg/streams/encrypted.go:277-306 | the first Close zeroes the key and closes the stream, a later one does nothing |
| `StreamLife.EncryptedStream.MarkClosed` | pkg/streams/encrypted.go:312-320 | the end of the read loop sets the flag and nothing else |
| `OpenKeys.StreamKeyExactly` | pkg/streams/manager.go:330-376 | under every interleaving each byte of a lazily opened stream's key is the agreed one if and only if no CloseStreams or Shutdown zeroed it before the cipher copied it; the whole key if and only if every byte zeroed so was zero already; and certainly if neither call took the slice after the check |
| `OpenKeys.BytesExactly` | pkg/crypto/cipher.go:47-62 | at every moment each byte copied, or still to be copied, is the agreed byte unless it was zeroed ahead of the copy |
| `OpenKeys.DoomedExactly` | pkg/streams/manager.go:506-513 | a slice is being or has been zeroed if and only if a call took it from the manager's entries |
| `OpenKeys.UnlockExactly` | pkg/streams/manager.go:506-513 | a wiping call gives up the lock exactly when all its bytes are zero |
| `OpenKeys.OpenedUnderTornKey` | pkg/streams/manager.go:330-376 | from a new manager: a peer's streams are closed while one is dialled, and it is opened under a key that has lost any chosen byte that was not zero |
| `Primitives.Clamping` | pkg/crypto/keys.go:73-77 | every 32 bytes clamp to a scalar 2^254 + 8m with 0 <= m < 2^251, all but five bits untouched; clamping is idempotent, and changes nothing if and only if the scalar was valid |
| `Primitives.ClampInPlace` | pkg/crypto/keys.go:73-77 | the three masked stores, bit by bit, are the arithmetic clamp |
| `Primitives.ScalarByBytes` | pkg/crypto/keys.go:73-77 | a little-endian scalar is valid if and only if its first and last byte are |
| `Primitives.Agreement` | pkg/crypto/ecdh.go:22-85 | the two ends derive the same 32-byte key or both refuse |
| `Primitives.AgreementFromIdentity` | pkg/crypto/keys.go:22-66 | so do nodes that convert each other's Ed25519 keys, and every converted private key is a valid scalar |
| `Primitives.DerivedExactly` | pkg/crypto/ecdh.go:22-85 | derivation refuses exactly keys of the wrong size and an all-zero secret, and otherwise gives what HKDF makes of the secret for this use |
| `Primitives.SecretsSeparate` | pkg/crypto/ecdh.go:59-85 | where HKDF separates two secrets, the derived keys are equal if and only if the secrets are, so peers with different secrets share no key |
| `Primitives.PeersHaveDifferentKeys` | pkg/crypto/ecdh.go:59-85 | a lawful instance in which a node's keys with two peers are different |
| `Primitives.SealedForEachOther` | pkg/crypto/cipher.go:106-153 | what one node seals under its derived key the other opens under its own, at a cost of exactly 28 bytes |
| `Primitives.SealedExactly` | pkg/crypto/cipher.go:106-153 | a sealed message is the nonce and the seal of exactly these inputs, and opening refuses exactly a wrong key size and a message too short |
| `Primitives.ToyIsLawful` | pkg/crypto/ecdh.go:22-85 | the laws have an instance |
| `KeyCache.CacheRefinesDerivation` | pkg/crypto/module.go:93-139 | in every interleaving, zeroing and copying byte by byte, each cached entry is the direct derivation, a closed module has none, and every byte a call returns is the derived byte or zero |
| `KeyCache.HitsAreExact` | pkg/crypto/module.go:106-111 | a hit is never torn |
| `KeyCache.LookupExactly` | pkg/crypto/module.go:93-115 | a lookup is refused exactly for a wrong size or a closed module, answered with the derived key exactly if it is cached, and computed otherwise |
| `KeyCache.StoreExactly` | pkg/crypto/module.go:126-134 | a derivation caches its key in a new buffer exactly if there is one and the module is not closed |
| `KeyCache.WipedExactly` | pkg/crypto/module.go:144-181 | a cached buffer is taken by a wiping call in a run if and only if one gets the lock before a replacing store |
| `KeyCache.CloseTakesAll` | pkg/crypto/module.go:246-265 | a Close that gets the lock closes the module, wipes its private key and takes every cached buffer |
| `KeyCache.ClosedForGood` | pkg/crypto/module.go:246-265 | in every run after a Close no key is cached, and every derivation that gets the lock is refused |
| `KeyCache.UnlockExactly` | pkg/crypto/module.go:144-181 | a wiping call gives up the lock exactly when all its bytes are zero |
| `KeyCache.ReturnedKeyExactly` | pkg/crypto/module.go:128-139 | under every interleaving a derivation returns each byte of the key if and only if no wiping call zeroed it before the unlocked copy got there; the whole key if and only if every byte torn so was zero already; and certainly if no wipe of that peer's key came before a replacing store |
| `KeyCache.TornCopyHappens` | pkg/crypto/module.go:136-152 | from a new module, any byte of the key that is not zero can be the one byte lost, so the result need be neither the key nor zeros |
| `KeyCache.CopiedExactly` | pkg/crypto/module.go:136-137 | at every moment each byte copied, or still to be copied, is the derived byte unless it was zeroed ahead of the copy |
| `KeyCache.StepOk` | pkg/crypto/module.go:93-181 | every section keeps the cache invariant |
| `KeyCache.RunOk` | pkg/crypto/module.go:93-181 | so does every run |
| `KeyBuffers.SecureZero` | pkg/crypto/secure.go:34-36 | every byte is zero afterwards |
| `KeyBuffers.IsAllZero` | pkg/crypto/ecdh.go:22-52 | the check finds exactly the all-zero secrets |
| `KeyBuffers.DeriveFresh` | pkg/crypto/ecdh.go:59-85 | returns a fresh buffer with what HKDF makes of the shared secret, or refuses exactly wrong sizes and an all-zero secret |
| `KeyBuffers.Node.constructor` | pkg/crypto/module.go:31-59 | the X25519 private key is the clamped conversion of the seed, a valid scalar, the caller's Ed25519 key is kept itself, and no key is held |
| `KeyBuffers.Node.DeriveSharedKey` | pkg/crypto/module.go:93-139 | hit or miss, the result is a fresh buffer with the direct derivation, now cached, and all buffers stay distinct |
| `KeyBuffers.Node.ZeroAndForget` | pkg/crypto/module.go:144-152 | the owner's buffer is all zeros and no other key changes |
| `KeyBuffers.Node.ClearPeerKeys` | pkg/crypto/module.go:174-181 | every cached buffer is zeroed and every key outside the cache is unchanged |
| `KeyBuffers.Node.Close` | pkg/crypto/module.go:246-265 | both private keys and the cache are zeroed and every key outside them is unchanged |
| `KeyBuffers.Node.SetSharedKey` | pkg/connection/peer.go:128-135 | the connection manager holds its own copy |
| `KeyBuffers.Node.EstablishStreams` | pkg/streams/manager.go:126-135 | the stream manager holds a buffer of its own with the derived key |
| `KeyBuffers.Node.PrepareStreams` | node.go:493-536 | cache, connection manager and stream manager hold the same key in three distinct buffers and no other key changes |
| `KeyBuffers.Node.OpenCipher` | pkg/crypto/cipher.go:47-62 | the cipher holds its own copy of the stream manager's key |
| `KeyBuffers.Node.Perform` | pkg/connection/peer.go:239-266 | after any sequence of non-overlapping calls the buffers are pairwise distinct and the keys are what the calls would make of plain values, so no zeroing is felt by another owner |
| `KeyBuffers.Node.Seal` | pkg/crypto/module.go:185-205 | seals under the cached key, exactly when there is one |
| `KeyBuffers.Node.Unseal` | pkg/crypto/module.go:209-229 | opens under the cached key, exactly when there is one |
| `KeyBuffers.CachesAgree` | pkg/crypto/module.go:185-229 | two nodes that cached each other hold the same key, and what one seals the other opens, 28 bytes longer |
| `Storage.ParseAddrs` | pkg/addressbook/types.go:67-94 | the loop keeps exactly the addresses that parse, in order |
| `Storage.ParsedPlus` | pkg/addressbook/types.go:67-94 | an address that does not parse costs itself and no other |
| `Storage.PrintedParses` | pkg/addressbook/types.go:47-94 | printed addresses parse back to the same list |
| `Storage.BookRoundTrip` | pkg/addressbook/types.go:47-94 | decoding an encoded book gives the book |
| `Storage.LoadedExactly` | pkg/addressbook/storage.go:44-94 | a missing, blank or unparsable file loads as an empty book, an unparsable one is moved away, every other is left alone and loads as its document |
| `Storage.CrashLoadsWholeBook` | pkg/addressbook/storage.go:99-157 | at every crash point of every successful or failing save, with torn unsynced data and undone renames, what loads is the old book, the new one after the rename, or a whole one from before a rename not yet on disk |
| `Storage.AtomicExactly` | pkg/addressbook/storage.go:149-156 | every save on a disk loads as old or new after any crash if and only if the earlier renames have settled |
| `Storage.SaveOutcome` | pkg/addressbook/storage.go:99-157 | a save that returns success makes the file load as the saved book, and one that fails leaves the old one |
| `Storage.SaveLeaves` | pkg/addressbook/storage.go:99-157 | a failed save leaves the file as it was, a successful one the synced document, and neither leaves a temporary file it had opened |
| `Storage.Save` | pkg/addressbook/storage.go:99-157 | the operations and cleanups of save pass through exactly the traced disk states, in order, and succeed exactly without a failing stage |
| `AddressBook.FileFollowsMemory` | pkg/addressbook/book.go:325-398 | in every run with successful saves the file equals memory except for LastSeen and UpdatedAt, fully when not dirty, and a flush makes it so |
| `AddressBook.StepAgrees` | pkg/addressbook/book.go:65-281 | every operation with a successful save keeps that agreement |
| `AddressBook.SavedAgrees` | pkg/addressbook/book.go:325-335 | a successful save establishes it from any state |
| `AddressBook.FailedSaveExactly` | pkg/addressbook/book.go:325-335 | after a failed save file and memory agree if and only if the operation changed only batched fields, and with a clear dirty flag no flush repairs it |
| `AddressBook.FailedAddIsLost` | pkg/addressbook/book.go:325-335 | on a new disk a peer is added, the rename fails, and after a flush the file is still empty |
| `AddressBook.CrashDuringOperation` | pkg/addressbook/book.go:65-121 | a crash anywhere inside an operation's save leaves the book before it, up to batched fields, or the book after it, or, only if earlier renames had not settled, one that an earlier save had replaced |
| `AddressBook.TwoSavesLoseOne` | pkg/addressbook/storage.go:149-156 | on a new disk, a crash during the second save may load the empty book, neither old nor new |
| `AddressBook.FileIsLastSave` | pkg/addressbook/book.go:325-335 | in every run, whichever saves fail, the file is the memory as of the last save that succeeded, and what loads after a crash is a book that was saved or was there before |
| `AddressBook.FieldsHaveWriters` | pkg/addressbook/book.go:65-281 | each field of an entry is changed only by its own operations, CreatedAt and LastSeen by none that writes through |
| `AddressBook.BlacklistSticks` | pkg/addressbook/book.go:65-106 | until lifted or removed a blacklisted peer stays so with its addresses frozen, in memory and file, over every run with successful saves, reloads included |
| `AddressBook.AddressBook.constructor` | pkg/addressbook/book.go:38-59 | a new book agrees with the file it was opened on |
| `AddressBook.AddressBook.SaveLocked` | pkg/addressbook/book.go:325-335 | success clears the dirty flag and makes the file load as the memory |
| `AddressBook.AddressBook.Add` | pkg/addressbook/book.go:65-106 | fails exactly for a blacklisted peer or a failed save; otherwise the entry has the given addresses and metadata, a known peer's other fields are kept, a new one's are empty, other entries are as before, and the file loads as the memory |
| `AddressBook.AddressBook.Remove` | pkg/addressbook/book.go:110-121 | the entry is gone, every other is as before, and the file follows |
| `AddressBook.AddressBook.Blacklist` | pkg/addressbook/book.go:169-199 | the flag is as given, every other field and entry as before, and the file follows |
| `AddressBook.AddressBook.SetPublicKey` | pkg/addressbook/book.go:217-232 | the key is as given, every other field and entry as before, and the file follows |
| `AddressBook.AddressBook.MergeMetadata` | pkg/addressbook/book.go:257-281 | a change to a non-empty value is there, one to the empty value deletes, everything else in the entry and the book is as before, and the file follows |
| `AddressBook.AddressBook.MergeAll` | pkg/addressbook/book.go:257-281 | the merge loop, in any order, sets, deletes and keeps |
| `AddressBook.AddressBook.Seen` | pkg/addressbook/book.go:237-252 | lastSeen is as given and the book dirty, every other field, every other entry and the file as before |
| `AddressBook.AddressBook.RemoveAll` | pkg/addressbook/book.go:315-321 | no entry is left, in memory and in the file |
| `AddressBook.AddressBook.ReloadFile` | pkg/addressbook/book.go:338-350 | the memory is what the file holds and not dirty, or nothing changes if it cannot be read |
| `AddressBook.AddressBook.FlushDirty` | pkg/addressbook/book.go:353-398 | saves exactly when dirty, after which the file loads as the memory, which is unchanged |
| `Events.MatchesEvent` | node.go:1074-1104 | the two search loops decide that the peer is listed or no peer is, and the state is listed or no state is |
| `Events.ReceivedInOrder` | node.go:963-1026 | in every run what the application and each subscription received is an in-order subsequence of the emitted events, a filtered one only matching events |
| `Events.EveryEventAccounted` | internal/eventdispatch/dispatcher.go:44-68 | an emitted event was received, waits, is in the forwarder's hands, or was dropped by a buffer that was full |
| `Events.SubscriptionAccounted` | node.go:963-1026 | the same for each subscription and what was offered to subscriptions since it was made, an event already taken from the queue by then included |
| `Events.PushFits` | internal/eventdispatch/dispatcher.go:44-68 | a non-blocking send keeps what a channel holds in order and complete up to drops at full buffer |
| `Events.PopFits` | node.go:963-1026 | so does a receive |
| `Events.PushExactly` | internal/eventdispatch/dispatcher.go:59-67 | a full channel drops the newest event and keeps what it has |
| `Events.AcceptedIsKept` | node.go:1000-1012 | in every run and continuation what the queue and the application's channel have once taken is never lost or reordered |
| `Events.EmittedExactly` | internal/eventdispatch/dispatcher.go:44-86 | each emission by an open dispatcher is one event, and a closed one emits nothing and stays closed |
| `Events.IncreasingIsSubsequence` | node.go:963-1026 | events drawn from a sequence in increasing emission order form a subsequence of it |
| `Events.Dispatcher.EmitEvent` | internal/eventdispatch/dispatcher.go:44-68 | an open dispatcher pushes the event or drops it if full, a closed one does nothing |
| `Events.Dispatcher.Receive` | internal/eventdispatch/dispatcher.go:72-74 | hands out the oldest waiting event |
| `Events.Dispatcher.Close` | internal/eventdispatch/dispatcher.go:78-86 | after any number of calls the channel has been closed exactly once |

### Where the code differs from its description

The model follows the code; each difference has a lemma.

- attemptReconnect asks for Reconnecting to Connected, which the table refuses, ignores the refusal, announces Connected and reports success: `Connections.ReconnectReportsConnected`, `ConnectionRuns.ReconnectionNotConnected`.
- ConnectCtx lets a peer through whose cooldown has run out, but the table refuses Cooldown to Connecting: `Connections.ConnectBeginsExactlyFrom`, `ConnectionRuns.ExpiredCooldownBlocks`.
- A cancelled reconnection loop that still succeeds, or gives up, deletes its successor's record: `Connections.EntriesLostExactly`, `ConnectionRuns.LateSuccessDropsSuccessor`.
- Events are emitted after unlocking and may come out of the order in which the states changed: `EventOrder.InOrderExactly`, `ConnectionRuns.EventsOutOfOrder`.
- setupHandshakeTimeout overwrites a timer without stopping it, so an old timer may time out a new connection: `HandshakeTimers.WinningTimeoutExactly`, `HandshakeTimers.EarlyTimeoutHappens`.
- The comment at pkg/streams/manager.go:330 says the shared key is copied; the slice itself is kept: `OpenKeys.StreamKeyExactly`, `OpenKeys.OpenedUnderTornKey`.
- A late Complete may establish a node whose peer has cleaned up: `Handshake.TwoPhaseSafety`, `HandshakeRuns.StaleEstablished`.
- CompleteHandshake finalises before the peer need have prepared: `Handshake.OnePhaseSafeExactly`, `HandshakeRuns.OnePhaseIsNotSafe`.
- The cleanup of an earlier connection may cost a new handshake's key bytes while the handshake completes: `Handshake.TwoPhaseSafety`, `HandshakeRuns.TornKeyHappens`.
- A save does not sync the directory, so a crash may undo several saves at once: `Storage.AtomicExactly`, `AddressBook.TwoSavesLoseOne`.
- Controller.Release after Close on a blocked controller closes a closed channel: `Flow.CloseOnceExactly`. A node never closes its controllers.
- A failed save is not retried unless something else made the book dirty: `AddressBook.FailedSaveExactly`, `AddressBook.FailedAddIsLost`.
- Close of an encrypted stream whose read loop has ended neither wipes the cipher nor closes the network stream: `StreamLife.FirstEndDecides`, `Streams.LeftOpenExactly`.
- A derived key copied after unlocking may have lost bytes: `KeyCache.ReturnedKeyExactly`, `KeyCache.TornCopyHappens`.
- A cap above 2^62 lets the backoff delay wrap negative: `Backoff.ClosedFormExactly`.
- README.md:690 gives 500 as the default low watermark; the controller's own default is 100, which the model uses: `Flow.Watermarks`.

## Left out

- The libp2p host, real streams, NAT traversal and dialling: a dial is a label that succeeds or fails.
- Cramberry framing and JSON text: encoding and decoding text are taken to be inverse.
- The insides of X25519, HKDF, SHA-512 and ChaCha20-Poly1305, and nonce generation: only their laws are used.
- Wall-clock time and tickers: timers are labels that may fire at any moment, and the time of a change is an argument.
- Backoff.NextDelay: float jitter is an integer of at most a tenth of the delay either way.
- File locks: mutual exclusion between processes is assumed, and there is one book per file.
- Flow.Controller.Release and Flow.Controller.Close: carry the guard under which the source does not panic; the machine of module Flow has the panic itself.
- Flow.Controller.TryAcquire: is one pass; the retry loop, its wake-ups and its cancellation are labels of module SendFlow.
- Connection and stream objects are indices into stores in Connections, ConnectionManager, Streams and StreamManager, so aliasing is by index and not by heap reference; heap ownership is in KeyBuffers.
- The nested maps of the stream manager are one map from slots, and the four maps of key buffers one map from owners.
- Handshake is on values: two nodes and a network are not one object of the source.
- The connection manager's copy of the shared key in module Handshake: it is stored and not used by the handshake; its copy from the first derivation may be torn like the second's.
- KeyBuffers.Node.Perform: is for non-overlapping calls; the cache under overlap is in KeyCache, and a lazy open that overlaps CloseStreams in OpenKeys.
- KeyBuffers.Node.Take: a replaced buffer is dropped without zeroing, as in the source.
- The reconnection loop's dial and its cancellation of an attempt in progress are one label each; a pending event may be emitted after later sections of the same goroutine too, which only adds runs.
- StreamLife.EncryptedStream.SendCtx: a write succeeds or fails as a whole; its deadline and partial writes are not modelled.
- Events.ReceivedInOrder: up to the closing of subscription channels; unsubscribing and stopping are not modelled, nor are zero-capacity channels with a waiting receiver.
- Messages: delivery or drop in the read loops and message forwarding.
- Storage: nil and empty collections are one value, and PeerEntry.Clone is the identity on values.
- Connection gater predicates, HandshakeStateMachine, statistics, buffer pool, configuration, version, validation and error types: easy members.
- Metrics, logging, tracing, health, debug dump, mock node and example programs.

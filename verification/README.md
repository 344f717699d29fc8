# Sylvander: verified core

Sylvander is an agent runtime written in Rust. This project models the parts of it that are small state machines and
algorithms in their own right, in Dafny, and proves what they promise for every input and every run.

- **Event delivery.** The Unix relay hub (`RelayHub`, `RelayRuns`, `RelayMembers`) records an event under its lock and
  sends it after unlocking, while clients connect, attach and leave; the byte-bounded replay buffer (`ReplayBuffer`) is
  shared with the WebSocket hub (`WsHub`). The message bus (`MessageBus`, `PublishRuns`) fans out under a lock while
  receivers drain and close. The readiness gate (`Readiness`) is waiters and markers over an atomic flag and a notifier.
  Each is a machine of atomic steps; the theorems are about every run of it.
- **Codec.** `WechatCodec` is CBC chaining, PKCS#7 padding and length framing over an abstract invertible block cipher
  and an abstract base64.
- **Windows against simple references.** `ReplayCache` against the unbounded log of accepted claims, `Utf8` splitters
  against character sequences.
- **Evidence gate.** `Bench`, `Corpus`, `OrderStats`, `Gate` and `CorpusGate` go from corpus validation over plan
  expansion, exact coverage and pairing to order statistics and the activation decision.
- **Audit and recording.** `Capability` and `AuditRuns` for actor separation and audit leases, `Atif` and `Recorder` for
  trajectories, `Aggregate` for benchmark totals, `Usage` for token accounting, `Features` for the capabilities a model
  request needs.

`Common` and `Sums` hold shared types and sums over lists.

## How the model relates to the code

- Code that mutates objects is a class whose methods state the whole new state as a function of the old one;
  concurrency is a datatype of steps over values. The hubs share those functions between class and machine, a publish of
  the bus is proved to be a run of its machine, and so are the invocations and leases of the audit.
- `requires` clauses of lemmas over runs say only that the run is a run. Machine integers are unbounded integers with the
  saturation, wrap-around and width checks of the code written out.
- Clocks, schedules, sink failures, digests, the block cipher, base64, serialized sizes and the iteration order of maps
  are parameters, so each result holds for all of them. The comparison loop of the gate and the reports of the aggregate
  walk their maps in any enumeration of the keys, of which key order is one.
- The notifier follows its documented rule: a `notified()` future receives every `notify_waiters` call made after the
  future was created.
- Relay tasks of a session see events of that session only, as the subscription in
  `sylvander-runtime/src/runtime/mod.rs:2013` is scoped to a session.
- Rewards are real numbers or not finite; rounding of floating-point sums is not modelled.
- A capability's definition is a fixed value, although the trait method could return a different one at each call.
- Where the step index of a trajectory passes 2^32 - 1 the model wraps, as a build without overflow checks does.

Three promises do not hold of the code on all inputs. Each has a concrete failing run and the exact condition:

- Every snapshot of the recorder is documented as valid. `Recorder.StrayResultIsInvalid` is a run without errors that is
  not; `Recorder.SnapshotValidIff` says when one is.
- Claims of one id are kept a time-to-live apart. `ReplayCache.LateReadingReadmits` is a run that is not, since readings
  are taken before the lock; `ReplayCache.SpacingBreaksIff` says when the spacing breaks.
- A client that attaches in the middle of a turn sees each event once. `RelayRuns.SentTwice` is a run in which it sees one
  twice; `RelayRuns.WholeTurnExactlyOnce` says when it does not.

## Model

| member | source | states |
|---|---|---|
| `RelayRuns.MidTurnDelivery` | sylvander-channel-unix/src/lib.rs:1049-1073 | For every reachable hub and every interleaving after a mid-turn attach: the client is sent the history notice and the buffered events at once, and what it has been sent of the turn plus what is in flight to it is the buffer, then the event whose recipient snapshot already named it, then every later event, in order, with no gap and no other repetition |
| `RelayRuns.WholeTurnExactlyOnce` | sylvander-channel-unix/src/lib.rs:401-411 | When the notice says nothing was truncated, the client is sent the whole turn exactly once and in order if and only if no in-flight recipient snapshot named it when it attached |
| `RelayRuns.SentTwice` | sylvander-channel-unix/src/lib.rs:1049-1073 | The exactly-once condition does fail: a reachable mid-turn world in which the client named by an in-flight snapshot attaches and is sent the event twice |
| `RelayMembers.SentToExactlyTheJoined` | sylvander-channel-unix/src/lib.rs:401-407 | In every run an event is addressed to exactly the clients that, by the steps so far, are connected and joined its session by an accepted chat or a load with no later departure or load of another session |
| `RelayMembers.NeverJoinedNeverSent` | sylvander-channel-unix/src/lib.rs:401-411 | In every run a client that never joined a session is never sent an event of it |
| `RelayMembers.MembersAreJoined` | sylvander-channel-unix/src/lib.rs:358-364 | The hub's members and connections are those the steps of the run tell |
| `RelayRuns.RelaysMatchActiveTurns` | sylvander-channel-unix/src/lib.rs:516-541 | In every run a session is in `relays` exactly while its replay is active, the buffer is the longest fitting suffix of the turn, the branch that drops a fresh event stream is never taken, and at most one relay task per session can still emit |
| `RelayRuns.StepKeepsInv` | sylvander-channel-unix/src/lib.rs:366-412 | Every step of every actor keeps the hub invariant (relay set, buffer, relay tasks) for every session |
| `RelayRuns.RunKeepsInv` | sylvander-channel-unix/src/lib.rs:366-412 | Every run keeps the hub invariant |
| `RelayRuns.LoadDelivers` | sylvander-channel-unix/src/lib.rs:1049-1073 | Attaching appends to the client exactly the notice and then the buffered events |
| `RelayRuns.RunFollows` | sylvander-channel-unix/src/lib.rs:366-412 | No run in which the client neither leaves nor attaches again disturbs what it is owed |
| `RelayRuns.NewestRecords` | sylvander-channel-unix/src/lib.rs:369-400 | Only the relay task of the newest, still active turn can record an event |
| `RelayRuns.RunLogPrefix` | sylvander-channel-unix/src/lib.rs:373-397 | The events of a turn only grow over a run |
| `RelayHub.RelayHub.constructor` | sylvander-channel-unix/src/lib.rs:66-72 | An empty hub |
| `RelayHub.RelayHub.Connect` | sylvander-channel-unix/src/lib.rs:204 | The whole new hub state after a client connects |
| `RelayHub.RelayHub.RemoveFromSessions` | sylvander-channel-unix/src/lib.rs:361-363 | The loop removes the client from every session set and changes no other entry |
| `RelayHub.RelayHub.Detach` | sylvander-channel-unix/src/lib.rs:358-364 | The whole new hub state after a client leaves |
| `RelayHub.RelayHub.RecordEvent` | sylvander-channel-unix/src/lib.rs:366-408 | The locked half of a relayed event: new buffer, relay set and recipient snapshot |
| `RelayHub.RelayHub.Activate` | sylvander-channel-unix/src/lib.rs:516-541 | A chat on an active turn is refused and changes nothing; otherwise the turn starts with a fresh buffer, and whether a relay task is spawned |
| `RelayHub.RelayHub.Attach` | sylvander-channel-unix/src/lib.rs:1049-1073 | The client is moved to exactly this session and given the buffer and its truncation flag |
| `ReplayBuffer.BufferIsLongestFit` | sylvander-channel-unix/src/lib.rs:373-397 | After any events since activation the buffer is the longest suffix that fits the limit, `bytes` is its exact size, and `truncated` holds exactly when it is proper |
| `ReplayBuffer.AppendRetains` | sylvander-channel-unix/src/lib.rs:375-390 | Buffering one more event, oversize or not, keeps the buffer the longest fitting suffix |
| `ReplayBuffer.EvictFits` | sylvander-channel-unix/src/lib.rs:383-389 | The eviction loop stops at the longest fitting suffix |
| `ReplayBuffer.LongestFitUnique` | sylvander-channel-unix/src/lib.rs:367-390 | The longest fitting suffix is unique, so the reference determines the buffer |
| `WsHub.WsBufferIsLongestFit` | sylvander-channel-ws/src/lib.rs:1533-1559 | In every run of the WebSocket hub each active buffer is the longest fitting suffix of the turn that is open, an idle one is empty |
| `WsHub.OneSessionPerClient` | sylvander-channel-ws/src/lib.rs:1492-1507 | In every run a client is in the set of at most one session |
| `WsHub.WsMembersEnteredLast` | sylvander-channel-ws/src/lib.rs:1492-1507 | In every run a session's members are exactly the clients whose last move was to enter it |
| `WsHub.WsRelayHub.constructor` | sylvander-channel-ws/src/lib.rs:200-203 | An empty hub |
| `WsHub.WsRelayHub.DetachClient` | sylvander-channel-ws/src/lib.rs:1502-1507 | The whole new state after a client leaves |
| `WsHub.WsRelayHub.AttachClient` | sylvander-channel-ws/src/lib.rs:1492-1500 | The client is moved to exactly this session |
| `WsHub.WsRelayHub.StartTurn` | sylvander-channel-ws/src/lib.rs:685-693 | A turn restarts the buffer unconditionally |
| `WsHub.WsRelayHub.RelayEvent` | sylvander-channel-ws/src/lib.rs:1522-1573 | The new buffer and the recipients of a relayed event |
| `MessageBus.PublishesAreAllOrNothing` | sylvander-channel/src/message_bus.rs:199-224 | In every run: queues never exceed capacity; a finished publish that reports backpressure reached nobody, an accepted one reached every registered match, a failed send a proper subset; and both counters count those outcomes modulo 2^64 |
| `MessageBus.FanOutNeverFull` | sylvander-channel/src/message_bus.rs:210-221 | During the fan-out a matching queue is never full, so the fan-out can only fail on a closed receiver |
| `MessageBus.OpenSubscriberSeesItsMessages` | sylvander-channel/src/message_bus.rs:199-237 | For every open subscriber of every run: received then queued is, in order, what reached it; it reached it only if it matches and was published after it subscribed; every accepted match did reach it; and without failed sends that is exactly the sequence it is owed |
| `PublishRuns.ClosedReceiversArePruned` | sylvander-channel/src/message_bus.rs:199-224 | For every concluded publish of every run: nobody whose receiver was closed when it began is among its targets, and it fails on a closed receiver only if one closed after it began |
| `PublishRuns.PublishPrunes` | sylvander-channel/src/message_bus.rs:199-224 | The same for a call of the publish method, told by its trace and its environment |
| `PublishRuns.FilterDecides` | sylvander-channel/src/message_bus.rs:70-98 | For an open subscriber of any run, an accepted publish since it subscribed reached it exactly when the filter it subscribed with admits the message |
| `PublishRuns.MatchesIff` | sylvander-channel/src/message_bus.rs:70-98 | A filter matches exactly when each allow-list that is present admits the message, an agent entry also for instances of that agent |
| `PublishRuns.SubscriptionStays` | sylvander-channel/src/message_bus.rs:226-237 | A subscription keeps the filter it was made with |
| `PublishRuns.DiagnosticsPrunes` | sylvander-channel/src/message_bus.rs:239-241 | Diagnostics unregisters exactly the closed subscribers |
| `MessageBus.ReachingIsOwed` | sylvander-channel/src/message_bus.rs:210-224 | If no failed send reached a subscriber, the messages that reached it are exactly the accepted matches since it subscribed |
| `MessageBus.RunInv` | sylvander-channel/src/message_bus.rs:199-249 | Every run from a new bus keeps the bus invariant, its counters and its capacity |
| `MessageBus.StepKeepsInv` | sylvander-channel/src/message_bus.rs:199-249 | Each atomic step of publishers, subscribers and receivers keeps the bus invariant |
| `MessageBus.StepKeepsCounters` | sylvander-channel/src/message_bus.rs:207-222 | Each step keeps both counters equal to the number of outcomes, wrapping at 2^64 |
| `MessageBus.InProcessMessageBus.constructor` | sylvander-channel/src/message_bus.rs:176-188 | An idle bus of the given capacity, which must lie in the asserted range |
| `MessageBus.InProcessMessageBus.Subscribe` | sylvander-channel/src/message_bus.rs:226-237 | The whole new state after a subscription |
| `MessageBus.InProcessMessageBus.Diagnostics` | sylvander-channel/src/message_bus.rs:239-249 | Closed subscribers are pruned, and the report holds capacity, the remaining subscribers and both counters |
| `MessageBus.InProcessMessageBus.Publish` | sylvander-channel/src/message_bus.rs:199-224 | Whatever receivers do in between, the publish is a run of the bus machine that ends with exactly one concluded publication whose outcome it returns; receivers act in it only as the environment says |
| `MessageBus.InProcessMessageBus.RetainOpen` | sylvander-channel/src/message_bus.rs:202 | The pruning loop is a run of the bus machine; it drops every receiver closed at its start, and only closed ones |
| `MessageBus.InProcessMessageBus.AnyFull` | sylvander-channel/src/message_bus.rs:203-209 | The capacity check is a run of the machine; it stops with a concluded backpressure or has visited every subscriber |
| `MessageBus.InProcessMessageBus.FanOut` | sylvander-channel/src/message_bus.rs:210-223 | The fan-out loop is a run of the machine that ends in one concluded publication |
| `Readiness.NoLostWakeup` | sylvander-channel/src/lib.rs:1077-1101 | In every run over every attempt: the notify step has run at most once, once it has no waiter is blocked, a waiter that returned saw the flag set, and a set flag without notification has exactly one marker about to notify |
| `Readiness.NotifiedWaitersReturn` | sylvander-channel/src/lib.rs:1090-1101 | Once notified, a waiter takes at most three more own steps under every schedule of everybody else |
| `Readiness.AlwaysAnOwnStep` | sylvander-channel/src/lib.rs:1090-1101 | A notified waiter that has not returned always has an enabled own step, and it brings it one closer to returning |
| `Readiness.GateStepKeepsInv` | sylvander-channel/src/lib.rs:1077-1101 | Each atomic step of waiters and markers keeps the gate invariant |
| `Readiness.RunKeepsInv` | sylvander-channel/src/lib.rs:1077-1121 | Every run, with any number of attempts, keeps the invariant of every gate |
| `WechatCodec.EnvelopeRoundTrip` | sylvander-channel-wechat/src/protocol.rs:97-145 | For every invertible cipher and base64: decrypting what was encrypted returns the reply if and only if it is shorter than 2^32 bytes |
| `WechatCodec.DecryptAcceptsExactly` | sylvander-channel-wechat/src/protocol.rs:97-122 | Decryption returns a message exactly for the fields that carry it: the base64 of the CBC encryption of some padded frame with a 16-byte prefix, its length and this corp id |
| `WechatCodec.DecryptCbcAcceptsExactly` | sylvander-channel-wechat/src/protocol.rs:206-240 | CBC decryption returns a plaintext exactly for the ciphertext that is the encryption of that plaintext with PKCS#7 padding (section 6.3 of RFC 5652) |
| `WechatCodec.CbcDecryptsWhatItEncrypts` | sylvander-channel-wechat/src/protocol.rs:185-240 | CBC decryption inverts CBC encryption for every chaining value (section 6.2 of NIST SP 800-38A) |
| `WechatCodec.CbcEncryptsWhatItDecrypts` | sylvander-channel-wechat/src/protocol.rs:185-240 | CBC encryption inverts CBC decryption for every chaining value |
| `WechatCodec.CbcChains` | sylvander-channel-wechat/src/protocol.rs:185-204 | Each cipher block is the encryption of the plain block exclusive-ored, bit by bit, with the cipher block before it (section 6.2 of NIST SP 800-38A) |
| `WechatCodec.CbcUnchains` | sylvander-channel-wechat/src/protocol.rs:206-226 | Each plain block is the decryption of the cipher block exclusive-ored, bit by bit, with the cipher block before it |
| `WechatCodec.XorBit` | sylvander-channel-wechat/src/protocol.rs:195-197 | A bit of the exclusive or is set exactly when the operands differ there |
| `WechatCodec.EncryptedFieldMeans` | sylvander-channel-wechat/src/protocol.rs:131-145 | What is on the wire for a reply of any length: fixed prefix, big-endian length modulo 2^32, reply, enterprise id, padding, chained from a zero block |
| `WechatCodec.DecryptDecides` | sylvander-channel-wechat/src/protocol.rs:97-122 | A well-formed envelope is refused exactly for invalid text or for another enterprise id |
| `WechatCodec.UnpadInvertsPad` | sylvander-channel-wechat/src/protocol.rs:228-239 | Unpadding whole blocks yields a plaintext exactly when the blocks are its padding |
| `WechatCodec.Be32RoundTrip` | sylvander-channel-wechat/src/protocol.rs:106-108 | The four length bytes and the length determine each other |
| `WechatCodec.UnframesFrame` | sylvander-channel-wechat/src/protocol.rs:103-121 | A frame unpacks to the message it was built from |
| `WechatCodec.UnframedWasFramed` | sylvander-channel-wechat/src/protocol.rs:103-121 | Whatever unpacks was a frame of that message and this corp id |
| `WechatCodec.EncryptCbc` | sylvander-channel-wechat/src/protocol.rs:185-204 | The block loop satisfies the chaining law block by block from a zero vector, and refuses a partial block |
| `WechatCodec.DecryptBlocks` | sylvander-channel-wechat/src/protocol.rs:210-226 | The block loop satisfies the unchaining law block by block from a zero vector |
| `WechatCodec.DecryptCbc` | sylvander-channel-wechat/src/protocol.rs:206-240 | Partial blocks and bad padding are errors, everything else the unpadded decryption |
| `WechatCodec.XorInto` | sylvander-channel-wechat/src/protocol.rs:193-197 | The in-place loop computes the exclusive or of every bit |
| `WechatCodec.Encrypt` | sylvander-channel-wechat/src/protocol.rs:125-145 | The encrypted field of an outgoing reply |
| `WechatCodec.Decrypt` | sylvander-channel-wechat/src/protocol.rs:97-122 | The decision, error by error, on an incoming field |
| `ReplayCache.CacheAgreesWithLog` | sylvander-channel-telegram/src/lib.rs:255-267 | With clock readings that do not decrease, a claim is accepted exactly when the unbounded log of accepted claims has no fresh claim of that id among its last `capacity` |
| `ReplayCache.WindowAgrees` | sylvander-channel-telegram/src/lib.rs:255-267 | At any later reading, the entries fresh then are the last `capacity` accepted claims fresh then |
| `ReplayCache.EntriesAreWindow` | sylvander-channel-telegram/src/lib.rs:255-267 | With clock readings that do not decrease, the entries after a call are exactly the last `capacity` accepted claims fresh at that call, if and only if the time-to-live is positive; at zero only the latest claim is kept |
| `ReplayCache.EntriesWithinCapacity` | sylvander-channel-telegram/src/lib.rs:260-265 | Whatever the readings, the cache never holds more than its capacity |
| `ReplayCache.ReadmittedIff` | sylvander-channel-wechat/src/lib.rs:218-230 | For any clock: while fewer than `capacity` claims, none of the id, were accepted since an accepted claim, the next claim of the id is accepted exactly when some reading since had the first expired |
| `ReplayCache.SpacingBreaksIff` | sylvander-channel-wechat/src/lib.rs:218-230 | An id is readmitted within its time-to-live exactly when some reading in between was past it while the later one is not, or the time-to-live is zero |
| `ReplayCache.MonotoneClaimsAreSpaced` | sylvander-channel-telegram/src/lib.rs:255-267 | Two accepted claims of one id are at least `ttl` apart or have at least `capacity` accepted claims strictly between them |
| `ReplayCache.AcceptedClaimsAreSpaced` | sylvander-channel-wechat/src/lib.rs:218-230 | For any clock at all: some reading up to the second claim had expired the first, or at least `capacity` claims were accepted in between |
| `ReplayCache.LateReadingReadmits` | sylvander-channel-dingtalk/src/lib.rs:169-181 | Without monotone readings the spacing fails: a concrete run that readmits an id within its window |
| `ReplayCache.AcceptedStays` | sylvander-channel-telegram/src/lib.rs:255-267 | An accepted claim stays held, with its position known, until it expires or enough others are accepted |
| `ReplayCache.ReplayCache.constructor` | sylvander-channel-telegram/src/lib.rs:247-253 | An empty cache; a capacity of zero counts as one |
| `ReplayCache.ReplayCache.TryClaim` | sylvander-channel-telegram/src/lib.rs:255-267 | Whether the claim is accepted and the whole new deque |
| `Utf8.TruncateUtf8Bytes` | sylvander-channel-wechat/src/lib.rs:497-506 | The longest prefix of whole characters within the byte limit; at most three bytes are lost below it |
| `Utf8.SplitMessage` | sylvander-channel-telegram/src/lib.rs:602-617 | For a positive limit: the chunks concatenate to the text, each is whole characters, and all but perhaps the last hold exactly the limit; a text within the limit is returned whole |
| `Utf8.ProgressIff` | sylvander-channel-telegram/src/lib.rs:608-615 | The cutting loop makes progress exactly for a positive limit |
| `Utf8.PiecesAreSplit` | sylvander-channel-telegram/src/lib.rs:602-617 | The pieces cut character by character meet that description |
| `Utf8.CutPieces` | sylvander-channel-telegram/src/lib.rs:606-615 | The cutting loop terminates and computes those pieces |
| `Utf8.BoundaryIsCharEdge` | sylvander-channel-wechat/src/lib.rs:502-504 | The byte test for a character boundary holds exactly where a cut leaves valid UTF-8 on both sides (section 3 of RFC 3629) |
| `Utf8.BoundaryNearby` | sylvander-channel-wechat/src/lib.rs:502-505 | There is a boundary within three bytes before any position |
| `Bench.ValidatePlan` | sylvander-benchmark-runtime/src/lib.rs:316-328 | The validation loop finds the first problem of a plan |
| `Bench.PlanPassesIff` | sylvander-benchmark-runtime/src/lib.rs:316-328 | A plan passes exactly when its schema is current, it is not empty, each coordinate is valid and none repeats |
| `Bench.CoordinateValidIff` | sylvander-benchmark-runtime/src/lib.rs:131-208 | A coordinate is valid exactly for named suite, scenario and models, pairwise different roles with a primary, the bindings its profile runs with, and a failure point only in crash recovery |
| `Bench.ResultValidIff` | sylvander-benchmark-runtime/src/lib.rs:242-270 | Exactly when a result is valid |
| `Bench.SafeIff` | sylvander-benchmark-runtime/src/lib.rs:272-278 | Safe means useful with no incident of any kind |
| `Bench.StaysFailed` | sylvander-benchmark-runtime/src/lib.rs:316-328 | The first problem of a prefix is the first problem of the plan |
| `Corpus.PairedPlansFailIff` | sylvander-benchmark-runtime/src/corpus.rs:126-175 | For every valid manifest the plans are duplicate-free with scenarios times repetitions coordinates, and are refused exactly for a perception specialist whose only auxiliary role is `Document` |
| `Corpus.PlanValidIff` | sylvander-benchmark-runtime/src/corpus.rs:126-175 | A plan of a valid manifest passes validation exactly when its roles fit its profile |
| `Corpus.CandidateAccepts` | sylvander-benchmark-runtime/src/lib.rs:172-208 | Roles that pass the manifest fit the candidate profile unless they are documents only |
| `Corpus.InPlan` | sylvander-benchmark-runtime/src/corpus.rs:134-159 | A plan holds exactly the repetitions of its scenarios |
| `Corpus.InPlanIff` | sylvander-benchmark-runtime/src/corpus.rs:134-159 | What stands in a plan, field by field |
| `Corpus.ManifestPassesIff` | sylvander-benchmark-runtime/src/corpus.rs:100-124 | A manifest passes exactly when nothing is missing, its roles fit, and its scenarios are valid with strictly increasing identifiers |
| `Corpus.AuxiliaryIff` | sylvander-benchmark-runtime/src/corpus.rs:255-296 | Auxiliary models pass exactly when all are named and their roles are one of the written-out lists of the profile |
| `Corpus.ScenariosFit` | sylvander-benchmark-runtime/src/corpus.rs:298-341 | In a manifest that passes, modality, family, bound roles, digests and names of every scenario fit together |
| `Corpus.CoverageIff` | sylvander-benchmark-runtime/src/corpus.rs:222-253 | Coverage passes exactly for a valid manifest that is not documents only, with one valid result at every coordinate of each plan and none elsewhere |
| `Corpus.PlanDistinct` | sylvander-benchmark-runtime/src/corpus.rs:134-159 | A plan of scenarios with increasing identifiers repeats no coordinate |
| `Corpus.ScenarioIdsIncrease` | sylvander-benchmark-runtime/src/corpus.rs:115-122 | Scenario identifiers of a manifest that passes are strictly increasing, so pairwise distinct |
| `Corpus.ValidateManifest` | sylvander-benchmark-runtime/src/corpus.rs:100-124 | The validation loop finds the first problem of a manifest |
| `Corpus.ValidateAuxiliaryModels` | sylvander-benchmark-runtime/src/corpus.rs:255-284 | The loop accepts exactly named, allowed roles in strictly increasing rank |
| `Corpus.ExpandPlans` | sylvander-benchmark-runtime/src/corpus.rs:134-159 | The nested loops build both plans |
| `Corpus.MakePairedPlans` | sylvander-benchmark-runtime/src/corpus.rs:126-175 | Both plans, or the first error |
| `Corpus.CollectExactCoordinates` | sylvander-benchmark-runtime/src/corpus.rs:240-253 | The loop collects the coordinates, or the first error |
| `Corpus.ExactCoordinatesIff` | sylvander-benchmark-runtime/src/corpus.rs:240-253 | Results are accepted exactly when all are valid and no two share a coordinate, and then the set holds their coordinates and no others |
| `Corpus.ValidatePairCoverage` | sylvander-benchmark-runtime/src/corpus.rs:222-238 | Coverage of both plans, or the first error |
| `CorpusGate.GateNeverMispairs` | sylvander-benchmark-runtime/src/evaluation.rs:99-131 | After exact coverage and with a valid policy the gate never reports a pairing problem: its only errors are about measured values or too many pairs, and a report covers scenarios times repetitions pairs |
| `CorpusGate.CorpusErrors` | sylvander-benchmark-runtime/src/evaluation.rs:99-131 | For every input and policy: the corpus gate fails with the coverage error exactly when coverage fails, with the policy error exactly when coverage passes and the policy is invalid, and otherwise only on a measured value, too many pairs or an ineligible report |
| `CorpusGate.CorpusAcceptsIff` | sylvander-benchmark-runtime/src/evaluation.rs:99-131 | A corpus is accepted exactly when it is covered and its report eligible; the evidence is then one result of each group for each coordinate of its plan, in plan order |
| `CorpusGate.BundleIsOrderFree` | sylvander-benchmark-runtime/src/evaluation.rs:99-158 | An accepted bundle, report and ordered evidence, is the same for any order of either group of results |
| `CorpusGate.EvidenceCertifies` | sylvander-benchmark-runtime/src/evaluation.rs:69-95 | Every figure of accepted evidence is the report's, every limit the policy's, and every figure meets its limit |
| `CorpusGate.CoverageGivesPairs` | sylvander-benchmark-runtime/src/corpus.rs:222-253 | Covering results index without duplicates, over equal keys, with the manifest's own models |
| `CorpusGate.CoveringIsOrdered` | sylvander-benchmark-runtime/src/evaluation.rs:141-158 | Results that cover a plan can be listed in plan order |
| `CorpusGate.CoverageIsOrderFree` | sylvander-benchmark-runtime/src/corpus.rs:222-253 | Coverage does not depend on the order of the results |
| `CorpusGate.OrderResults` | sylvander-benchmark-runtime/src/evaluation.rs:141-158 | The two loops index and look up, or report the first missing coordinate |
| `CorpusGate.EvaluateCorpus` | sylvander-benchmark-runtime/src/evaluation.rs:99-131 | The corpus gate, error by error, up to the encoding of its evidence |
| `Gate.EligibleIff` | sylvander-benchmark-runtime/src/evaluation.rs:181-246 | A report is eligible if and only if, counting pairs: enough pairs, no unsafe candidate, at least half plus one gains reach the minimum, 10000 times the wins reach the quality minimum times n, at least half the token increases and 95 percent of the latency increases are within limit, an increase being within L when 10000(c-b) < (L+1)b; and every figure of the report is pinned by such a count for every limit, the unsafe candidates by their number |
| `Gate.EvaluatesIff` | sylvander-benchmark-runtime/src/evaluation.rs:162-246 | Evaluation succeeds exactly for a valid policy and profile, valid results with distinct and equal keys, at most 2^32-1 pairs, and at each pair: same primary model, rewards between zero and one, positive baseline tokens and duration, increases under 2^31 basis points, and a safe baseline |
| `Gate.ComparedDescribes` | sylvander-benchmark-runtime/src/evaluation.rs:219-245 | Every figure of a report through what it is compared with, for every limit, negative ones included |
| `Gate.PairErrorIs` | sylvander-benchmark-runtime/src/evaluation.rs:186-214 | Which error a pair causes, as the first of the measured conditions that applies |
| `Gate.FirstErrorIs` | sylvander-benchmark-runtime/src/evaluation.rs:186-218 | The error of the walk is that of the first pair along it that has one |
| `Gate.RefusedIff` | sylvander-benchmark-runtime/src/evaluation.rs:168-174 | Exactly which policies and candidates are refused before any result is looked at |
| `Gate.SameKeyIff` | sylvander-benchmark-runtime/src/evaluation.rs:314-339 | Two coordinates pair exactly when they agree on everything but profile and models |
| `Gate.PrimaryIs` | sylvander-benchmark-runtime/src/evaluation.rs:268-275 | The primary model is the one bound to the primary role, wherever it stands |
| `Gate.TokensMean` | sylvander-benchmark-runtime/src/evaluation.rs:200-207 | Tokens are the exact sum of input and output, capped |
| `Gate.PairOkIff` | sylvander-benchmark-runtime/src/evaluation.rs:186-218 | The loop body accepts a pair exactly under those conditions on what was measured |
| `Gate.DeltaFitsIff` | sylvander-benchmark-runtime/src/evaluation.rs:285-292 | A delta is returned exactly for a positive baseline and an increase under 2^31 basis points |
| `Gate.EvaluationIsOrderFree` | sylvander-benchmark-runtime/src/evaluation.rs:162-246 | A successful report is unchanged by permuting either group and by the order the pairs are walked in |
| `Gate.IndexedIff` | sylvander-benchmark-runtime/src/evaluation.rs:248-266 | Indexing succeeds exactly for valid results of the profile with distinct keys, and the index holds exactly them |
| `Gate.IndexIsOrderFree` | sylvander-benchmark-runtime/src/evaluation.rs:248-266 | The index does not depend on the order of the results |
| `Gate.DeltaWithin` | sylvander-benchmark-runtime/src/evaluation.rs:285-292 | The truncated basis-point delta is within a limit exactly when the exact cross-multiplied inequality holds |
| `Gate.RewardMicros` | sylvander-benchmark-runtime/src/evaluation.rs:277-283 | Accepted exactly for finite rewards between zero and one; within half a micro of the exact value |
| `Gate.BasisPointsReach` | sylvander-benchmark-runtime/src/evaluation.rs:310-312 | The rounded-down win rate reaches a minimum exactly when the cross-multiplied inequality holds |
| `Gate.NoErrorIff` | sylvander-benchmark-runtime/src/evaluation.rs:186-218 | The comparison loop meets no error exactly when every pair can be compared |
| `Gate.IndexResults` | sylvander-benchmark-runtime/src/evaluation.rs:248-266 | The loop builds the index or reports the first error |
| `Gate.Compare` | sylvander-benchmark-runtime/src/evaluation.rs:181-246 | The comparison loop: first error in walk order, or the report of all pairs |
| `Gate.Evaluate` | sylvander-benchmark-runtime/src/evaluation.rs:162-246 | The whole evaluation, error by error |
| `OrderStats.PercentilesAgreeIff` | sylvander-benchmark-runtime/src/lib.rs:420-427 | Both percentile implementations pick the same rank, for every percentile up to 100, exactly while length times percentile is at most 2^64-16 |
| `OrderStats.MedianWithin` | sylvander-benchmark-runtime/src/evaluation.rs:294-302 | The lower median is within a limit exactly when at least half the values, rounded up, are |
| `OrderStats.MedianReaches` | sylvander-benchmark-runtime/src/evaluation.rs:294-302 | The lower median reaches a minimum exactly when more than half the values, rounded down, do |
| `OrderStats.Percentile95Within` | sylvander-benchmark-runtime/src/evaluation.rs:304-308 | The percentile is within a limit exactly when 95 percent of the values, rounded up, are |
| `OrderStats.RankWithin` | sylvander-benchmark-runtime/src/evaluation.rs:294-308 | The value at a rank is within a limit exactly when more values than the rank are |
| `OrderStats.SameCountsSameRank` | sylvander-benchmark-runtime/src/evaluation.rs:294-308 | Lists with the same counts have the same value at every rank |
| `AuditRuns.HandlerOnlyAfterAudit` | sylvander-runtime/src/capability_runtime.rs:403-425 | In every run with arbitrary sink failures, no handler starts before the record of its authorization is durable, and none without being granted |
| `AuditRuns.SuccessMeansAudited` | sylvander-runtime/src/capability_runtime.rs:403-439 | An internal success is preceded by its durable authorization and then its durable success record, the success record completed, succeeded, and otherwise equal field by field; the authorization's fields are those of the call |
| `AuditRuns.LeaseWritesOnce` | sylvander-runtime/src/capability_runtime.rs:484-524 | Every lease attempts no terminal write while held and exactly one once finished, dropped or both; its record is completed, agrees with the durable authorization field by field, and has the outcome of the finish, a mere drop counting as failed |
| `AuditRuns.AbandonedHasNoOutcome` | sylvander-runtime/src/capability_runtime.rs:418-437 | An internal invocation dropped while its handler runs leaves its authorization and never writes an outcome |
| `AuditRuns.BaseAuthorizes` | sylvander-runtime/src/capability_runtime.rs:403-413 | The fields of the authorization record, from the call and its snapshot |
| `AuditRuns.RefusalIs` | sylvander-runtime/src/capability_runtime.rs:388-402 | What is refused before anything is written, and with which error |
| `AuditRuns.AuthorizedNameIsRequested` | sylvander-runtime/src/capability_runtime.rs:404-413 | In a constructed runtime the record names the capability that was asked for |
| `AuditRuns.AdvanceKeeps` | sylvander-runtime/src/capability_runtime.rs:382-524 | Each step adds to its task's own trace exactly what the new phase tells |
| `AuditRuns.RunKeepsInv` | sylvander-runtime/src/capability_runtime.rs:382-524 | Every run keeps the trace of every task equal to the history its phase tells |
| `AuditRuns.AuditSink.Record` | sylvander-runtime/src/capability_runtime.rs:255-257 | Every attempt is appended; only a durable write answers success |
| `AuditRuns.ExternalCapabilityInvocation.constructor` | sylvander-runtime/src/capability_runtime.rs:484-491 | A new lease owes a failed terminal record |
| `AuditRuns.ExternalCapabilityInvocation.Drop` | sylvander-runtime/src/capability_runtime.rs:518-524 | Writes the owed record once, or nothing if it was taken |
| `AuditRuns.ExternalCapabilityInvocation.FinishAndDrop` | sylvander-runtime/src/capability_runtime.rs:502-524 | Finishing, destructor included, attempts exactly one write |
| `AuditRuns.InvokeIsARun` | sylvander-runtime/src/capability_runtime.rs:382-439 | The sequential invocation is a run of the step machine: one more task, its events at the end of the trace, the handler started between its two writes |
| `AuditRuns.AuthorizeIsARun` | sylvander-runtime/src/capability_runtime.rs:445-492 | Authorizing a lease is a run of the step machine that ends in a held lease only if its write is durable |
| `AuditRuns.FinishIsARun` | sylvander-runtime/src/capability_runtime.rs:502-524 | Finishing, destructor included, is a run of two steps whose writes and answer are those of the method |
| `AuditRuns.DropIsARun` | sylvander-runtime/src/capability_runtime.rs:518-524 | Dropping is one step whose writes are those of the destructor |
| `AuditRuns.HistoryWrites` | sylvander-runtime/src/capability_runtime.rs:382-524 | The records a task asked the sink to write, phase by phase |
| `AuditRuns.AuthorizeExternal` | sylvander-runtime/src/capability_runtime.rs:445-492 | Its attempts are the writes of the machine's task; refusals write nothing, otherwise one attempt, and a lease only if it was durable |
| `AuditRuns.Invoke` | sylvander-runtime/src/capability_runtime.rs:382-439 | Its attempts and its answer are the writes and the last event of the machine's task, and both case by case |
| `Capability.ActorsAreSeparated` | sylvander-runtime/src/capability_runtime.rs:274-338 | For every constructed runtime and any two snapshots it issues to different actors: granted capabilities have different names, share at most the class `Read`, and no granted input holds an owner key in any object at any depth |
| `Capability.SelectorIff` | sylvander-runtime/src/capability_runtime.rs:603-614 | The recursive scan finds exactly the inputs with an owner key in an object reachable by some path |
| `Capability.ConstructedIff` | sylvander-runtime/src/capability_runtime.rs:275-301 | A runtime is constructed exactly for a non-zero policy, allowed classes, and names the actors do not share |
| `Capability.BuiltIff` | sylvander-runtime/src/capability_runtime.rs:209-223 | Registration succeeds exactly for valid definitions of distinct names, each kept under its own name |
| `Capability.GuardianGrant` | sylvander-runtime/src/capability_runtime.rs:317-337 | A guardian grant holds the runtime's own unexpired identity, outside any session, for a guardian capability only |
| `Capability.GrantedIff` | sylvander-runtime/src/capability_runtime.rs:570-601 | Exactly what an issued snapshot grants |
| `Capability.AllowedClasses` | sylvander-runtime/src/capability_runtime.rs:46-67 | Which classes each actor may hold |
| `Capability.GuardianRunIff` | sylvander-runtime/src/capability_runtime.rs:317-337 | Exactly when a guardian run begins |
| `Capability.OnlyReadIsShared` | sylvander-runtime/src/capability_runtime.rs:46-67 | The class allowed for both actors is `Read` and no other |
| `Capability.IssuedMeans` | sylvander-runtime/src/capability_runtime.rs:303-338 | What an issued snapshot carries for its actor |
| `Recorder.SnapshotValidIff` | sylvander-benchmark-agent/src/atif.rs:29-69 | After any events, accepted or refused, a snapshot is valid exactly when it has fewer than 2^32 steps and every tool result names a call of its own iteration |
| `Recorder.NothingIsLost` | sylvander-benchmark-agent/src/recorder.rs:159-256 | In every run without errors the agent messages of the snapshot concatenate to all text chunks, with one agent step for each iteration that ended plus the open one |
| `Recorder.FinishesIff` | sylvander-benchmark-agent/src/recorder.rs:264-272 | Finishing succeeds exactly when the run was declared done at rest, no iteration is open, and the trajectory is valid |
| `Recorder.SnapshotSteps` | sylvander-benchmark-agent/src/recorder.rs:228-234 | A snapshot is the initial steps and then one agent step for each iteration of the event list |
| `Recorder.SnapshotTells` | sylvander-benchmark-agent/src/recorder.rs:228-234 | A snapshot after any events, step by step and field by field: system messages, user message, and for each iteration its text, thoughts, calls, results and usage |
| `Recorder.FinalMetricsMean` | sylvander-benchmark-agent/src/recorder.rs:190-202 | The final metrics are those of the last `Done` at rest, with the number of steps there were then |
| `Recorder.RecordAnswers` | sylvander-benchmark-agent/src/recorder.rs:159-223 | The error of every event, from the iterations recorded so far |
| `Recorder.RecorderHolds` | sylvander-benchmark-agent/src/recorder.rs:159-223 | Recording any list of events leaves exactly its iterations, errors included |
| `Recorder.StrayResultIsInvalid` | sylvander-benchmark-agent/src/recorder.rs:225-234 | The documented validity of every snapshot fails for a result whose call was never started, in a run without errors |
| `Recorder.CompletedIff` | sylvander-benchmark-agent/src/recorder.rs:190-202 | The recorder is completed exactly when some `Done` came while no iteration was open |
| `Recorder.StepValidIff` | sylvander-benchmark-agent/src/recorder.rs:339-357 | The step of an iteration is valid exactly when its results name its own calls |
| `Recorder.TrajectoryRecorder.constructor` | sylvander-benchmark-agent/src/recorder.rs:116-151 | The initial state: system steps, then the user step |
| `Recorder.TrajectoryRecorder.Record` | sylvander-benchmark-agent/src/recorder.rs:159-223 | The whole new state, the error, and the ledger entry of every event |
| `Recorder.TrajectoryRecorder.PushResult` | sylvander-benchmark-agent/src/recorder.rs:280-294 | A result is added to the open iteration, or refused |
| `Recorder.TrajectoryRecorder.Snapshot` | sylvander-benchmark-agent/src/recorder.rs:228-234 | The finished steps plus the open iteration as a step |
| `Recorder.TrajectoryRecorder.Finish` | sylvander-benchmark-agent/src/recorder.rs:264-272 | The decision, error by error |
| `Atif.StepsValidIff` | sylvander-benchmark-agent/src/atif.rs:44-68 | The step loop meets no error exactly when no step has one |
| `Aggregate.AggregateResults` | sylvander-benchmark-agent/src/aggregate.rs:54-73 | Succeeds exactly when all results are valid, coordinates are distinct and every group's sums fit; then each group holds the integer statistics and the reward sum of its own results; otherwise the first offending result and its reason |
| `Aggregate.ReportsConserve` | sylvander-benchmark-agent/src/aggregate.rs:69-73 | The reported totals over all groups add up to the number of results |
| `Aggregate.ReportIsSound` | sylvander-benchmark-agent/src/aggregate.rs:125-146 | The six statuses partition a group's cells, executed is passed plus failed, the mean reward is the mean of the group's rewards, the pass rate and mean duration are the exact ratios, and the first two lie between zero and one |
| `Aggregate.GroupsAreOrderFree` | sylvander-benchmark-agent/src/aggregate.rs:54-73 | Groups tallied from the same results in any order are the same groups: every counter, the reward sum over the reals, and whether cached tokens were reported |
| `Aggregate.AcceptableIsOrderFree` | sylvander-benchmark-agent/src/aggregate.rs:54-68 | Whether aggregation succeeds does not depend on the order of the results |
| `Aggregate.ValidResultIff` | sylvander-benchmark-agent/src/aggregate.rs:149-165 | A result is valid exactly when it has a reward between zero and one if and only if it was executed |
| `Aggregate.FitsMeans` | sylvander-benchmark-agent/src/aggregate.rs:93-123 | The individual overflow checks fail exactly when some statistic would exceed its width |
| `Aggregate.AddedMeans` | sylvander-benchmark-agent/src/aggregate.rs:93-123 | Adding a result adds its share to every statistic |
| `Aggregate.Accumulator.Add` | sylvander-benchmark-agent/src/aggregate.rs:93-123 | Succeeds exactly when all counters fit, with the whole new state |
| `Aggregate.Accumulator.CountStatus` | sylvander-benchmark-agent/src/aggregate.rs:95-112 | The counters of one status |
| `Aggregate.Accumulator.AddAmounts` | sylvander-benchmark-agent/src/aggregate.rs:116-121 | Durations and tokens |
| `Usage.FoldMeans` | sylvander-llm-core/src/usage.rs:50-65 | Folding any list gives the exact sums capped at 2^64-1; an optional field is missing exactly when no record reported it; the input total is the capped sum of the input totals |
| `Usage.FoldTotalMeans` | sylvander-llm-core/src/usage.rs:58-64 | The input total of a fold is the exact sum of input, cache writes and cache reads, capped once |
| `Usage.FoldIsOrderFree` | sylvander-llm-core/src/usage.rs:50-56 | Folding in any order gives the same record |
| `Usage.AddedIsMonoid` | sylvander-llm-core/src/usage.rs:50-56 | Addition of usages is commutative and associative with the default as unit |
| `Usage.UsageTotal.SaturatingAddAssign` | sylvander-llm-core/src/usage.rs:50-56 | The whole new record after adding another in place |
| `Features.RequiredIff` | sylvander-llm-core/src/validation.rs:148-220 | The folded union holds a capability exactly when an option of the request or a block of some message needs it |
| `Features.RequirementsIgnoreOrder` | sylvander-llm-core/src/validation.rs:148-220 | The union does not depend on the order of the messages |
| `Features.RequirementsGrow` | sylvander-llm-core/src/validation.rs:148-220 | More messages can only require more |
| `Features.ValidateRequest` | sylvander-llm-core/src/validation.rs:223-236 | Succeeds exactly when the available capabilities contain the union; otherwise the first requirement that is missing |
| `Features.ReportedIff` | sylvander-llm-core/src/validation.rs:155-211 | A requirement names a feature exactly when the request shows it, it calls for that capability, and the feature preferred to it is not shown |
| `Features.FeatureScan.Visit` | sylvander-llm-core/src/validation.rs:128-145 | The whole new scan after one block |
| `Features.FeatureScan.VisitResult` | sylvander-llm-core/src/validation.rs:133-137 | The loop over a tool result sets the flags of the kinds it holds |

## Left out

- Sockets, HTTP, WebSocket framing, databases, process spawning, files and credential fetching: only the state they carry is modelled.
- AES, SHA-1, SHA-256, base64, JSON and XML: replaced by an abstract invertible cipher, abstract digests and abstract sizes.
- Ordered exactly-once replay for the WebSocket hub: it sends history after releasing its lock and has no active-turn guard, so only its buffer and its client sets are claimed.
- Delivery of a terminal event to a client that attaches between its record and its send: the buffer is cleared by then, and the client is not in the recipient snapshot.
- Shutdown signalling through the watch channel: it rests on what the channel does without receivers.
- Workspace composition, benchmark matrix expansion, summaries, negotiation, configuration patches, provider adapters and the terminal interface: they would only add case analysis.
- Floating-point rounding in rewards and means, timing, and clearing of secrets from memory.
- Utf8.SplitMessage: a limit of zero on a non-empty text, for which the loop of the code makes no progress, is excluded by its precondition; `Utf8.ProgressIff` states that it stalls.
- Utf8.CutPieces: the same limit of zero is excluded.
- CorpusGate.EvaluateCorpus: the canonical encoding of the evidence and the two digests are library code; the ordered results that are encoded are modelled.
- WechatCodec.Encrypt: yields the encrypted field; the signature, timestamp and nonce that the envelope puts beside it are not modelled.
- Recorder.TrajectoryRecorder.Record: the ledger keeps the event itself in place of its content-free projection and timestamp.
- Recorder.TrajectoryRecorder.Snapshot: the observability block and provider audit are not modelled.
- Aggregate.AggregateResults: the accumulator of a group is read from the map, updated and put back, so aliasing inside the map is not modelled; the key order of the final list is any enumeration.
- AuditRuns.Invoke: the sequential method takes the outcomes of its writes and handler as parameters; interleaving and abandonment are in the step machine.
- Readiness.NoLostWakeup: a waiter's poll and wake-up are one step each; the internals of the notifier are not modelled.
- Features.ValidateRequest: capability bits are a set of capabilities, one for each bit.

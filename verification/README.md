# Verified model of the orchestrator core

A Dafny model of the stateful core of a hardware-bench assistant: an orchestrator that routes an
operator's question to a panel of expert models, gates the physical steps they propose, and fans
the conversation out to phones, headsets and a passive observer. Every component whose code
updates state in place is a class here, and each of its methods is proved equal to a function on
values; the whole-history theorems are lemmas about those functions.

| file | component |
|---|---|
| `Session.dfy` | one client's bounded outbound queue, duplicate suppression, liveness |
| `ReplayBuffer.dfy` | the bus's buffer of recent chat messages, as a view of the full log |
| `ChatBus.dfy` | many sessions, fan-out, pending confirmations, reconnect sequence |
| `Publications.dfy` | what a publication does to each session, what a bus run puts on each wire, who is subscribed |
| `ClientStore.dfy` | client-side assembly of streamed messages with orphan buffering |
| `ChatStore.dfy` | the phone's message store and its id-to-position index |
| `Matrix.dfy`, `Gate.dfy` | risk ladder, who may recommend what, and the safety gate |
| `Verdicts.dfy` | the gate's complete decision on every step, in the step matrix's own words |
| `Knowledge.dfy` | board profile, schematic ingest, cached documented limits |
| `Limits.dfy` | what each documented limit and each ingested entry rests on |
| `Fanout.dfy` | the concurrent fan-out to the experts |
| `Engine.dfy`, `Opinions.dfy`, `Confirmations.dfy` | the deliberation graph: turns, merge, safety pause, resumption |
| `Memory.dfy` | what a session carries over from turn to turn: last replies, opinion, extra rounds, summon notice |
| `Turns.dfy` | everything a turn and an answer say and leave behind, read off the models' answers and the gate's decisions |
| `Skips.dfy` | how skips are counted, when a step is suppressed, and why the supply rules never apply |
| `Ingesting.dfy` | sessions with schematics ingested between turns |
| `Asking.dfy` | when a session can still ask for a confirmation |
| `Scenarios.dfy` | concrete sessions in which the deliberation departs from its documentation |
| `Publishing.dfy`, `Delivery.dfy` | streamed versus drained outbound events, and the outbox traces of whole sessions |
| `ObserverStore.dfy` | the observer's event table, its migration and its pagination |
| `Contour.dfy`, `Chain.dfy`, `Saddles.dfy` | mask outline: marching squares, chaining, downsampling, diagonal neighbours |
| `Ulid.dfy`, `FrameStore.dfy` | sortable ids; the frame ring and its header |
| `Common.dfy`, `Events.dfy` | shared helpers; the wire events |

The pattern is the same throughout. A `State` datatype and spec functions follow the code branch by
branch. A class holds the source's fields; its methods run the source's loops and are proved equal to
the spec functions. A *run* is a sequence of operations in any order, and the theorems quantify over
all runs. What a theorem compares a run with is read off the operations themselves wherever it can be
(the messages published, the rows ingested, the models' answers); where it concerns a moment of a session, such as
the opinion that an approval meets, it speaks of the state at that moment.

## Where code and documentation disagree, or the code may surprise

The model follows the code. Each point below is a proved statement, with its exact condition where it has one.

- `take_backpressure_notice` says it resets its window; nothing ever does (`Sessions.NoticeNeverResets`).
- A notice is called never dropped; a full queue may evict it (`Sessions.EvictedIff`, `Sessions.NoticeIsEvicted`).
- The replay buffer is documented as the last 200 messages of the window. With timestamps out of order it
  may hold fewer (`ReplayBuffers.RunStaysExactIff`, `ReplayBuffers.StaleTimestampsLoseAMessage`).
- The provenance rule precedes the limit check, so an uncited over-limit setpoint is confirmed, not denied
  (`Gates.PsuVerdict`, `Gates.UncitedOverLimitIsConfirmed`).
- The assigned risk is documented as never below the declared one; read-only steps and part orders lower it (`Gates.RiskLoweredIff`).
- Monotonicity of the gate in the setpoint fails when an uncited step gains or loses its setpoint fields
  (`Gates.GateIsMonotoneIff`, `Gates.ProvenanceFlipConcretely`).
- `pending_count` is released only by skips of a known action, so three approvals silence the gate for the
  rest of the session; with fewer it can always ask again (`Asking.AsksAgainIff`, `Scenarios.ThreeApprovalsSilence`).
- `resume` finds its action by text in the current opinion, so an approval can land on another step, or on none when a
  later turn has replaced the opinion (`Confirmations.ApprovalHitsItsStepIff`, `Scenarios.SharedTextApprovesADeniedStep`,
  `Scenarios.LateApprovalIsLost`).
- A turn with nothing to gate completes although requests are pending (`Confirmations.CompleteLeavesPendingIff`,
  `Scenarios.CompletesWhilePending`).
- An event whose sink raises is neither streamed nor drained (`Publishing.EmittedIsDeliveredIff`).
- Live ingest and migration treat empty ids differently (`ObserverStore.MigrationAgreesIff`), so the migration,
  documented as idempotent, raises under its own index once two chat messages, or two requests,
  with an empty id have been recorded, and the store does not open any more (`ObserverStore.ReopensIff`,
  `ObserverStore.LivesIff`, `ObserverStore.TwoEmptyIdsBlockRestart`).
- Replies are never forgotten, so an approved step comes back in a later turn in which its expert is not asked
  (`Memory.SessionRemembers`, `Scenarios.ApprovedStepIsAskedAgain`).
- The summon notice is meant for the first round of a turn; it stops for good after the first turn with a second
  round (`Memory.NoticeIff`).
- Flashing and reflow are to be refused while the supply is on, but nothing ever sets that flag of the gate's session, so
  they never are (`Skips.SupplyCountsAsOff`, `Skips.SupplyRulesNeverApply`).
- A step that names the guild as its actor is allowed unchecked, a setpoint at any voltage included
  (`Gates.AllowedSetpointIff`, `Gates.GuildSetpointIsAllowed`).
- A channel that drops out of the phone's channel list stays out of it although its messages keep coming in
  (`ChatStores.ChannelsFollow`).
- The phone store calls replay idempotent; replaying a message discards the deltas applied to it
  (`ChatStores.ReplayIsNoOpIff`, `ChatStores.ReplayWipesDeltas`).
- The mask is described as padded on each edge; only top and left are (`Contours.CyclesIffBorderIsBackground`).
- The quantized vertex keys are unique only up to a mask size (`Chains.KeysIdentifyIff`).

## Model

| member | source | states |
|---|---|---|
| Sessions.ChatsAreNeverLost | orchestrator/chat_bus/bus.py:108-202 | over any run: sent by fan-out followed by still queued, restricted to chat messages, is the first occurrence of each id offered, in order |
| Sessions.Conservation | orchestrator/chat_bus/bus.py:108-174 | offers that are no repeats = sent + queued + dropped_count, after every run |
| Sessions.OriginsStayAttached | orchestrator/chat_bus/bus.py:161-202 | the outgoing (event, origin) pairs are a subsequence of the offered pairs: evictions never shift origins |
| Sessions.QueueIsBounded | orchestrator/chat_bus/bus.py:108-159 | queue length is at most max(cap, queued chat messages + 1); beyond the cap there is no delta and at most one non-chat event |
| Sessions.OfferShape | orchestrator/chat_bus/bus.py:121-159 | an offer is: ignored as repeat, counted as drop, or one victim evicted and the newcomer appended; what is refused is a repeat or a delta |
| Sessions.OfferOutgoing | orchestrator/chat_bus/bus.py:108-174 | an offer removes at most one outgoing entry, never a chat message, and adds at most one, at the end; the drop count says which |
| Sessions.NoticeNeverResets | orchestrator/chat_bus/bus.py:176-185 | once anything was dropped, every later call yields a notice |
| Sessions.EvictedIff | orchestrator/chat_bus/bus.py:128-158 | exactly when an offer evicts a given queued non-chat event, notices included |
| Sessions.NoticeIsEvicted | orchestrator/chat_bus/bus.py:128-158 | a concrete session whose first notice is evicted before it is sent |
| Sessions.DeadIff | orchestrator/chat_bus/bus.py:213-219 | a session is dead exactly when more than two pings ever stood unanswered; a late pong revives nothing |
| Sessions.FlushKeepsOutgoing | orchestrator/chat_bus/bus.py:188-202 | a flush moves the queue to the wire without loss, repeat or reordering |
| Sessions.Session.IsDuplicateEvent | orchestrator/chat_bus/bus.py:97-105 | reports a known chat id, else records it; other kinds are never duplicates |
| Sessions.Session.EnqueueEvent | orchestrator/chat_bus/bus.py:108-159 | equals the specified offer on all fields, and returns whether the event was queued |
| Sessions.Session.Append | orchestrator/chat_bus/bus.py:161-164 | queue and origins grow in lockstep |
| Sessions.Session.PopAndNote | orchestrator/chat_bus/bus.py:166-174 | removes the same position from both lists and counts a drop |
| Sessions.Session.NoteDropped | orchestrator/chat_bus/bus.py:171-174 | counts a drop; the window start is set only once |
| Sessions.Session.TakeBackpressureNotice | orchestrator/chat_bus/bus.py:176-185 | the notice built from the running totals; nothing changes |
| Sessions.Session.FlushQueue | orchestrator/chat_bus/bus.py:188-202 | the wire receives the queue in order, each event with its own origin, and the queue is empty |
| Sessions.Session.SendNow | orchestrator/chat_bus/bus.py:204-210 | sends past the queue |
| Sessions.Session.PingSent | orchestrator/chat_bus/bus.py:213-216 | one more missed ping; dead beyond two |
| Sessions.Session.PongReceived | orchestrator/chat_bus/bus.py:218-219 | resets the count only |
| ReplayBuffers.BufferIsDuplicateFreeSubsequence | orchestrator/chat_bus/bus.py:333-345 | for any clock, ids and timestamps: at most 200 messages, no id twice, a subsequence of the log in arrival order |
| ReplayBuffers.BufferRefinesLog | orchestrator/chat_bus/bus.py:333-345 | with a forward clock, distinct ids and non-decreasing timestamps, the buffer equals the last 200 logged messages inside the window |
| ReplayBuffers.StaysExactIff | orchestrator/chat_bus/bus.py:340-345 | an exact buffer stays exact under all later clocks iff the cap never pushed out a message newer than one it kept |
| ReplayBuffers.RunStaysExactIff | orchestrator/chat_bus/bus.py:333-345 | over whole runs with a forward clock and distinct ids: exact after every operation and every later eviction iff at no point the cap pushed out a message newer than one it kept |
| ReplayBuffers.BufferIsSuffixOfIdeal | orchestrator/chat_bus/bus.py:333-345 | without any assumption on timestamps the buffer is a suffix of what it is meant to hold |
| ReplayBuffers.StaleTimestampsLoseAMessage | orchestrator/chat_bus/bus.py:340-345 | a concrete run in which a message still inside the window is gone |
| ReplayBuffers.SortByTsIsStableSort | orchestrator/chat_bus/bus.py:373 | the replay order is sorted by ts, a permutation, and stable |
| ReplayBuffers.SortOfSorted | orchestrator/chat_bus/bus.py:373 | an ascending buffer is replayed as it is |
| ReplayBuffers.EvictedIdempotent | orchestrator/chat_bus/bus.py:340-345 | evicting again at the same time changes nothing |
| ChatBuses.EverySessionRunsAlone | orchestrator/chat_bus/bus.py:283-324 | after any run of the bus, each session has gone through a run of its own, and but for flushes and notices its operations are those the bus run calls for: publications, announcements with their labels, replays, pings, pongs |
| ChatBuses.FanOutLosesNoChat | orchestrator/chat_bus/bus.py:283-324 | hence, per session and over the whole bus: sent + queued chats = first occurrence of each id published while subscribed, and the queue obeys its bound |
| ChatBuses.StepReaches | orchestrator/chat_bus/bus.py:236-420 | one bus operation is, for a session that stays, a run of that session's operations, which are named |
| ChatBuses.PendingIsUnresolved | orchestrator/chat_bus/bus.py:326-355 | the pending table is exactly the requests published and not resolved since |
| ChatBuses.BusBufferIsReplayBuffer | orchestrator/chat_bus/bus.py:326-345 | the bus's buffer is the replay buffer of the chats it published and of its evictions |
| ChatBuses.ReplayLayout | orchestrator/chat_bus/bus.py:372-385 | the four sections of the reconnect sequence and their contents |
| ChatBuses.ReplayContract | orchestrator/chat_bus/bus.py:358-385 | after any run: the channels with the number of messages in each, the buffered messages in ts order without repeats (at most 200), exactly the unresolved requests each once, and the end marker with the last timestamp |
| Publications.OfferTakes | orchestrator/chat_bus/bus.py:97-174 | an offer as a relation between queues: room, else the oldest delta gives way, else the oldest non-chat event, else the newcomer is a delta and is lost, else the queue grows; totals, window start and everything else stated |
| Publications.PublicationServes | orchestrator/chat_bus/bus.py:283-314 | on any bus: the excluded session is left as it was; every other takes the event, behind it a notice without origin iff it ever dropped anything, and with flush all it queues goes on the wire |
| Publications.ServedIsSentIff | orchestrator/chat_bus/bus.py:305-314 | with flush the queue is empty and everything outgoing is on the wire; without it the wire is unchanged |
| Publications.NoticeComesLastIff | orchestrator/chat_bus/bus.py:307-312 | once anything was ever dropped, and only then, the last thing outgoing is a notice with the time of the first drop and the total before its own arrival |
| Publications.ManyWaitForOneFlush | orchestrator/chat_bus/bus.py:316-324 | publishing many changes no wire before the one flush at the end, which sends all |
| Publications.FlushedRunsDeliver | orchestrator/chat_bus/bus.py:236-324 | over any run whose publications all flush: every session's queue is empty, and its wire has the first occurrence of each chat published to it, in order |
| Publications.FramesCarryOrigins | orchestrator/chat_bus/bus.py:161-324 | over any run: what is outgoing, notices aside, is a subsequence of what was published or announced to the session, each with the origin of its publication; all of it, repeats aside, if nothing was dropped |
| Publications.DirectsAndLiveness | orchestrator/chat_bus/bus.py:358-420 | over any run: past its queue a session got exactly its replays and the pings, in order; missed pings and death are those of its heartbeats and pongs |
| Publications.WindowsAgree | orchestrator/chat_bus/bus.py:171-185 | in every run a session has a drop window iff it dropped something |
| Publications.SubscribersAreOnline | orchestrator/chat_bus/bus.py:236-261 | after any run exactly the sessions that subscribed and neither left nor were reaped are there, under the label of their last subscription |
| Publications.PendingInOrder | orchestrator/chat_bus/bus.py:326-355 | the pending requests stand in the order in which they were first asked |
| ChatBuses.ChatBus.EvictBuffer | orchestrator/chat_bus/bus.py:340-345 | the window and the cap |
| ChatBuses.ChatBus.RecordEvent | orchestrator/chat_bus/bus.py:326-338 | buffers new chats, files requests by call id, ignores the rest |
| ChatBuses.ChatBus.PublishEvent | orchestrator/chat_bus/bus.py:283-314 | equals the specified publication: record, then every session but the excluded one gets event and notice |
| ChatBuses.ChatBus.FanOut | orchestrator/chat_bus/bus.py:305-314 | the delivery to all sessions at once |
| ChatBuses.ChatBus.PublishManyEvents | orchestrator/chat_bus/bus.py:316-324 | publications in order, one flush at the end |
| ChatBuses.ChatBus.FlushSessions | orchestrator/chat_bus/bus.py:322-324 | every session's queue is flushed |
| ChatBuses.ChatBus.EmitPresence | orchestrator/chat_bus/bus.py:263-276 | announces to every other subscriber |
| ChatBuses.ChatBus.SubscribeSession | orchestrator/chat_bus/bus.py:236-248 | files the session and its label, announces it online to the others |
| ChatBuses.ChatBus.UnsubscribeSession | orchestrator/chat_bus/bus.py:250-261 | announces offline first, then forgets the session; silent for an unknown id |
| ChatBuses.ChatBus.Forget | orchestrator/chat_bus/bus.py:260-261 | drops session and label, nothing else |
| ChatBuses.ChatBus.ResolveConfirmation | orchestrator/chat_bus/bus.py:348-351 | drops the request, if any |
| ChatBuses.ChatBus.UnreadByChannel | orchestrator/chat_bus/bus.py:387-392 | counts the messages per channel |
| ChatBuses.ChatBus.BuildReplay | orchestrator/chat_bus/bus.py:372-381 | builds the specified sequence from the evicted buffer |
| ChatBuses.ChatBus.SendTo | orchestrator/chat_bus/bus.py:383-384 | the events reach that session's wire in order; no other session and no queue changes |
| ChatBuses.ChatBus.ReplayTo | orchestrator/chat_bus/bus.py:358-385 | sends it to the named session past its queue; unknown session is an error and changes nothing |
| ChatBuses.ChatBus.HeartbeatAll | orchestrator/chat_bus/bus.py:395-408 | one ping to each session, one more missed; returns the ping of every session, with the given nonce or else a generated one |
| ChatBuses.ChatBus.SendPings | orchestrator/chat_bus/bus.py:403-407 | each session gets the ping past its queue and one more missed ping |
| ChatBuses.ChatBus.PongArrived | orchestrator/chat_bus/bus.py:410-413 | reaches the named session only |
| ChatBuses.ChatBus.ReapDead | orchestrator/chat_bus/bus.py:415-420 | unsubscribes exactly the dead sessions |
| ClientStores.AssemblyIsCorrect | orchestrator/chat_bus/bus.py:441-494 | for any interleaving: body = first parent's body + its unexpired deltas in order up to the first done (none if the parent does not stream); done flag, render count and waiting orphans likewise |
| ClientStores.OrderIsFirstArrival | orchestrator/chat_bus/bus.py:448-456 | messages are rendered in order of first arrival |
| ClientStores.Confluence | orchestrator/chat_bus/bus.py:441-494 | traces that agree id by id on first parent and unexpired updates end alike, however interleaved |
| ClientStores.DuplicateParentIsNoOp | orchestrator/chat_bus/bus.py:448-452 | a second message with a known id changes nothing |
| ClientStores.SweepsOnlyDeleteExpired | orchestrator/chat_bus/bus.py:481-494 | a trace with sweeps ends as the trace without them and without exactly the expired orphans |
| ClientStores.ClientMessageStore.Ingest | orchestrator/chat_bus/bus.py:441-469 | dispatch: message, update for a known parent, or orphan filed with its time |
| ClientStores.ClientMessageStore.IngestChat | orchestrator/chat_bus/bus.py:448-462 | stores the parent, closes it if not streaming, then applies its orphans in order |
| ClientStores.ClientMessageStore.ApplyToMessage | orchestrator/chat_bus/bus.py:471-479 | appends the delta unless unknown or closed |
| ClientStores.ClientMessageStore.SweepOrphans | orchestrator/chat_bus/bus.py:481-494 | removes exactly the orphans of two seconds or more and returns their number |
| ChatStores.IndexStaysConsistent | forge_ios/Forge/State/ChatStore.swift:28-59 | after any operations every indexed id points to its message, every stored message is indexed at its place, seen ids = indexed ids |
| ChatStores.IdsAreUnique | forge_ios/Forge/State/ChatStore.swift:37-47 | no id is stored twice, in one channel or across channels |
| ChatStores.ChatContentsById | forge_ios/Forge/State/ChatStore.swift:37-59 | each id is held in its first channel with the last ingested body plus all deltas since |
| ChatStores.BucketsKeepFirstIngestOrder | forge_ios/Forge/State/ChatStore.swift:37-47 | each bucket lists its messages in order of first ingest into the channel |
| ChatStores.ApplyReportsKnownParent | forge_ios/Forge/State/ChatStore.swift:49-59 | success is reported exactly when the parent was ever ingested |
| ChatStores.ChannelsFollow | forge_ios/Forge/State/ChatStore.swift:28-79 | over any operations: which channels have a bucket, how they are listed, and which is selected |
| ChatStores.ReplayIsNoOpIff | forge_ios/Forge/State/ChatStore.swift:36-59 | replaying a message as last ingested changes nothing iff no update since then carried text, and none closed it while streaming |
| ChatStores.ReplayWipesDeltas | forge_ios/Forge/State/ChatStore.swift:36-58 | a concrete run in which a replay discards an assembled delta |
| ChatStores.ChatStore.SetChannelList | forge_ios/Forge/State/ChatStore.swift:28-34 | new list, missing buckets created, selection moved only if it vanished |
| ChatStores.ChatStore.EnsureChannel | forge_ios/Forge/State/ChatStore.swift:71-79 | creates the bucket and lists the channel once |
| ChatStores.ChatStore.IngestMessage | forge_ios/Forge/State/ChatStore.swift:37-47 | replaces in place or appends and indexes; consistency is kept |
| ChatStores.ChatStore.ApplyUpdate | forge_ios/Forge/State/ChatStore.swift:52-59 | extends the indexed message or reports false; consistency is kept |
| Knowledge.IngestIsNonInterfering | orchestrator/knowledge/board_profile.py:120-174 | ingesting any schematic changes no documented limit, for any target of any kind |
| Knowledge.AnyIngestsAreNonInterfering | orchestrator/knowledge/__init__.py:148-171 | nor does any sequence of ingests |
| Knowledge.IngestsOnlyAppend | orchestrator/knowledge/board_profile.py:124-131 | documented entries are kept in place; what is added carries no limit and no datasheet |
| Knowledge.ReingestAddsNothing | orchestrator/knowledge/board_profile.py:132-146 | ingesting again any schematic of the session, at any later time, adds nothing |
| Knowledge.IngestedIsAbsorbed | orchestrator/knowledge/board_profile.py:141-172 | every named component and net of an ingested schematic is in the profile ever after |
| Knowledge.FoundLimitIsCited | orchestrator/knowledge/limits.py:33-38 | for every table of cited datasheet entries, a found limit has a non-empty citation and names its target |
| Knowledge.BoardProfile.MergeSchematic | orchestrator/knowledge/board_profile.py:120-174 | equals the specified merge, and the counts are the numbers of entries added |
| Knowledge.BoardProfile.AddComponents | orchestrator/knowledge/board_profile.py:136-155 | the incremental set of folded refs decides as a search of the list would |
| Knowledge.BoardProfile.AddSchematicNets | orchestrator/knowledge/board_profile.py:137-172 | likewise for nets |
| Knowledge.LimitResolver.Get | orchestrator/knowledge/limits.py:55-65 | cached or not, the answer is fresh resolution on the current profile; the datasheet table is reached at most once per key |
| Limits.NetLimit | orchestrator/knowledge/limits.py:77-88 | found iff the first net with that id documents a voltage or a current, and exactly these |
| Limits.RailLimit | orchestrator/knowledge/limits.py:90-101 | found iff the first rail with that id has a current or a nominal voltage; no voltage ceiling and exactly its current |
| Limits.PartLimit | orchestrator/knowledge/limits.py:103-127 | that of the first datasheet entry with an absolute maximum under the resolved key, with its cite |
| Limits.OtherKinds | orchestrator/knowledge/limits.py:69-76 | any other kind is not found |
| Limits.MintsNewComponents | orchestrator/knowledge/board_profile.py:120-174 | the components an ingest adds: those with a new reference, in order |
| Limits.MintsNewNets | orchestrator/knowledge/board_profile.py:120-174 | the nets an ingest adds, likewise |
| Limits.MergeTouches | orchestrator/knowledge/board_profile.py:120-174 | what an ingest leaves as it was, and what it counts |
| Knowledge.LimitResolver.ResolveFresh | orchestrator/knowledge/limits.py:69-127 | equals the pure resolution; counts a datasheet access exactly for parts |
| Knowledge.KnowledgeAdapter.GetDocumentedLimit | orchestrator/knowledge/__init__.py:140-141 | the limit of the current profile |
| Knowledge.KnowledgeAdapter.IngestSchematic | orchestrator/knowledge/__init__.py:148-171 | merges, replaces the resolver, and leaves every limit as it was; even the discarded cache was still right |
| Gates.EvaluationEffect | orchestrator/safety/gate.py:82-126 | only "confirm" takes a slot and never a fourth, only a HALT bypass moves the halt window, nothing else of the session changes |
| Gates.GateIgnoresIngest | orchestrator/safety/gate.py:153-184 | decision and session effect are independent of any ingested schematics |
| Ingesting.SessionIgnoresIngest | orchestrator/knowledge/__init__.py:148-171 | over whole sessions: with schematics ingested between any operations, the session is the one without them |
| Gates.PsuVerdict | orchestrator/safety/gate.py:129-184 | for set_psu past the scope checks: deny iff sourced and over limit; allow iff sourced, documented, within limit and low band, declared LOW |
| Gates.AllowedSetpointIff | orchestrator/safety/gate.py:97-184 | over all actors: a set_psu is allowed iff the guild is its actor, or it reaches the numeric rules, is sourced, documented, within limit and low band, and declared LOW |
| Gates.GuildSetpointIsAllowed | orchestrator/safety/gate.py:97-102 | a concrete uncited setpoint of any voltage, from anyone, allowed because its actor is the guild |
| Gates.UncitedOverLimitIsConfirmed | orchestrator/safety/gate.py:129-184 | a concrete over-limit setpoint that is confirmed without a citation and denied with one |
| Gates.AllowedSetpointIsSafe | orchestrator/safety/gate.py:129-184 | an operator's allowed setpoint is cited, documented, within limit (or the default) and within 5 V / 0.5 A; the guild's is not restricted |
| Gates.GateIsMonotoneIff | orchestrator/safety/gate.py:129-184 | raising voltage or current of an operator's set_psu gives no more permissive decision and no lower risk, iff the change does not switch the provenance rule on or off |
| Gates.ProvenanceFlipConcretely | orchestrator/safety/gate.py:129-184 | a concrete pair of setpoints: the smaller is confirmed, the one without a voltage allowed |
| Gates.SetPsuMonotone | orchestrator/safety/gate.py:153-184 | behind the provenance rule the numeric rules are monotone without exception |
| Gates.RiskLoweredIff | orchestrator/safety/gate.py:97-151 | exactly when the assigned risk is below the declared one, with or without a sentinel halt |
| Gates.HaltsAreRateLimited | orchestrator/safety/gate.py:210-218 | over any evaluations with a forward clock, two HALT bypasses are at least 60 s apart |
| Verdicts.CrossCuttingVerdict | orchestrator/safety/gate.py:82-126 | the complete decision of the halt path, lookups and guild steps, unknown invokers, scope, repeated skips and part orders; everything else reaches the rules |
| Verdicts.StepVerdict | orchestrator/safety/gate.py:129-208 | the complete decision on every step but set_psu that reaches the rules: serial_send by source and the five harmful words in any case, flash_mcu and reflow_pin by the supply, shown and confirmed tools, risk and reason each |
| Verdicts.SetpointVerdict | orchestrator/safety/gate.py:153-184 | the complete decision on a set_psu that reaches the rules: source, limits, bands, floor, limit and card shown |
| Verdicts.DangerousIffHarmful | orchestrator/safety/gate.py:186-191 | a payload is dangerous iff one of the five words occurs in it in whatever case |
| Verdicts.ScopeIsDocumented | orchestrator/safety/matrix.py:17-80 | who may recommend which tool |
| Gates.SafetyGate.EvaluateAction | orchestrator/safety/gate.py:82-126 | decision and new session equal the specified evaluation on the current profile |
| Gates.SafetyGate.ClassifyAction | orchestrator/safety/gate.py:129-151 | the rule order |
| Gates.SafetyGate.SetPsuAction | orchestrator/safety/gate.py:153-184 | limit, bands, floor and card of a setpoint |
| Gates.SafetyGate.AskToConfirm | orchestrator/safety/gate.py:220-226 | confirm and take a slot, or queue when three are taken |
| Gates.SafetyGate.Halt | orchestrator/safety/gate.py:210-218 | bypass or coalesce |
| Gates.SafetyGate.RecordSkip | orchestrator/safety/gate.py:244-247 | counts the skip and releases a slot, never below zero |
| Fanout.ScheduleIndependence | orchestrator/graph/engine.py:192-289 | every interleaving of workers and collector: what is emitted is at each moment the roster-order stream of the positions collected, and at the end stream and response table depend on the job alone |
| Fanout.FanOutTerminates | orchestrator/graph/engine.py:267-289 | no schedule is longer than the total work, and none gets stuck before the collector is through |
| Fanout.CollectedAt | orchestrator/graph/engine.py:221-287 | what is collected at a roster position: a silent, unconfident reply if late or failed, else the reply and buffer of the worker submitted last under that name |
| Opinions.AnyScheduleGivesThisState | orchestrator/graph/engine.py:268-289 | the engine's collected state has the stream and responses of any complete schedule |
| Opinions.MergeKeepsFirstOccurrences | orchestrator/graph/engine.py:332-341 | merged actions = first occurrences, by tool and argument text, of all kept proposals, in order; nothing invented, repeated or dropped |
| Opinions.KeptIffConfident | orchestrator/graph/engine.py:327-329 | responses are merged iff at least 0.2 confident; the others become open questions |
| Opinions.OpinionEmptyIff | orchestrator/graph/engine.py:149-364 | a turn has nothing to gate iff, read off its inputs, its last good merge saw no proposal at least 0.2 confident, or it had no good merge and there was nothing before |
| Memory.SessionRemembers | orchestrator/graph/engine.py:149-344 | over whole sessions: the reply table is the last reply of every expert ever consulted, the opinion the first of each kind of step among the confident ones as of the last good merge, and extra rounds add up over all turns to at most two |
| Memory.NoticeIff | orchestrator/graph/engine.py:210-219 | a turn posts its summon notice, once, iff it consults the experts and no earlier turn went into a second round |
| Turns.SessionRecalls | orchestrator/graph/engine.py:149-359 | over whole sessions: headline, supporters and open questions are those of the last good merge, the dissent report is the last one found, and each step belongs to the expert who proposed it last |
| Turns.EveryTurnIs | orchestrator/graph/engine.py:93-384 | everything a turn puts out and leaves behind: checkpoint, one notice, streams, digests, failures and dissent per round, one message per gated step; then a pause, or the headline of the last good merge |
| Turns.StepActs | orchestrator/graph/engine.py:366-383 | what a gate decision leads to: row, warning, approval or a request with the step's text, the decision's risk (HIGH for HALT), its expert and its card |
| Turns.AnswerSays | orchestrator/graph/engine.py:392-424 | over whole sessions: what an answer removes and says, and the headline it ends with iff no request is left |
| Turns.AskAgainSays | orchestrator/graph/engine.py:415-418 | asking again posts every open request once, in order |
| Engine.GraphEngine.Run | orchestrator/graph/engine.py:93-164 | a whole turn, proved equal to the specified one on session, gate session and status |
| Engine.GraphEngine.Supervise | orchestrator/graph/engine.py:167-190 | two attempts at routing, then the forced mentions, equal to the specified decision |
| Opinions.RoutingHonoursMentions | orchestrator/graph/engine.py:167-190 | the complete routing: the first well-formed answer, or the second; consulted iff it says so or anyone is mentioned; its choice first, then the other mentions in order, each once; failed iff there is neither answer nor mention |
| Engine.GraphEngine.ParallelSummon | orchestrator/graph/engine.py:192-289 | first-round notice, then the roster-order collection in closed form |
| Engine.GraphEngine.Collect | orchestrator/graph/engine.py:269-287 | one position: response filed, invokers noted, buffer emitted |
| Engine.GraphEngine.Aggregate | orchestrator/graph/engine.py:313-323 | the running queue ends as one cut of the whole list (a bound of 0 keeps everything) |
| Engine.GraphEngine.Merge | orchestrator/graph/engine.py:325-344 | merge inside its error envelope: on failure the previous opinion stays, or a fallback |
| Engine.GraphEngine.TakeProposals | orchestrator/graph/engine.py:334-341 | the seen-set loop takes exactly the actions new by tool and argument text |
| Engine.GraphEngine.MergeKept | orchestrator/graph/engine.py:332-341 | over all kept responses |
| Engine.GraphEngine.Dissenting | orchestrator/graph/engine.py:346-359 | reports and files the pairs if any; a failing check counts as converged |
| Engine.GraphEngine.Deliberate | orchestrator/graph/engine.py:149-158 | rounds until converged or the session's two extra rounds are used up |
| Engine.GraphEngine.Safety | orchestrator/graph/engine.py:361-384 | every action gated in order; paused iff something is pending |
| Engine.GraphEngine.GateEach | orchestrator/graph/engine.py:366-383 | the loop over the actions gates them one after the other |
| Engine.GraphEngine.GateOne | orchestrator/graph/engine.py:366-383 | one action: evaluated under its invoker, then acted upon |
| Engine.GraphEngine.Decide | orchestrator/graph/engine.py:369-383 | audit always; warn, approve or ask according to the decision |
| Engine.GraphEngine.FindAction | orchestrator/graph/engine.py:397-398 | first merged action with the text |
| Engine.GraphEngine.Resume | orchestrator/graph/engine.py:392-413 | the operator's answer, proved equal to the specified one |
| Skips.SkipsAreCounted | orchestrator/safety/gate.py:244-247 | in every session the recorded count of a tool with its arguments is the number of answers that were no approval, met a pending request, and whose text named that step |
| Skips.SuppressedIff | orchestrator/safety/gate.py:118-122 | in every turn exactly those steps are suppressed that are in scope and were skipped twice or more before |
| Skips.SupplyCountsAsOff | orchestrator/safety/gate.py:41-47 | nothing in a session ever tells the gate that the supply is on |
| Skips.SupplyRulesNeverApply | orchestrator/safety/gate.py:193-208 | hence in every turn a flash_mcu or reflow_pin from an expert in scope is asked about, queued or suppressed, never refused |
| Engine.GraphEngine.ReplayPendingRequests | orchestrator/graph/engine.py:415-418 | re-posts every pending request in order |
| Confirmations.ConfirmationsAreBounded | orchestrator/graph/engine.py:361-413 | in every reachable state: pending <= slots taken <= 3, slots = pending + answers that released none, no call id answered twice, at most two extra rounds |
| Confirmations.ClampNeverFires | orchestrator/safety/gate.py:244-247 | when an answer to a pending request arrives, a slot is taken: the floor at zero never decides |
| Confirmations.ResumeCompletesIff | orchestrator/graph/engine.py:392-413 | resume returns complete iff it answered the only outstanding call id |
| Confirmations.SecondAnswerIsNoOp | orchestrator/graph/engine.py:393-395 | answering an issued call id again changes nothing, whatever happened in between |
| Confirmations.CompleteLeavesPendingIff | orchestrator/graph/engine.py:361-384 | a turn completes with requests pending iff it consults the experts, some request was pending before it, and it has nothing to gate |
| Confirmations.ThirdLeakSilencesTheGate | orchestrator/safety/gate.py:220-247 | after three answers that release no slot nothing is pending, whatever is done next, and no call id is handed out any more |
| Asking.AsksAgainIff | orchestrator/safety/gate.py:220-247 | some continuation of a session asks for a confirmation iff fewer than three answers have kept their slot and the gate knows an expert |
| Confirmations.ApprovalsAreSound | orchestrator/graph/engine.py:361-413 | every approved step was gated, and was either allowed or carries the text of a request the operator approved |
| Confirmations.ApprovedIsLedger | orchestrator/graph/engine.py:361-413 | the approved list is, in order, one step per crediting audit row: the action of each row that allowed one, and for each matched approval a gated step with the text of the request answered |
| Confirmations.NothingRefusedIsApproved | orchestrator/graph/engine.py:361-413 | when equal texts mean equal steps, an approved step was allowed, or was asked about and that very request approved: never only denied, queued or suppressed |
| Confirmations.ApprovalHitsItsStepIff | orchestrator/graph/engine.py:396-401 | in every session, approving a pending request reaches the step it was asked for iff that step is the first of the current opinion with its text, another step iff the first one with that text is another, and nothing iff none has it |
| Scenarios.SharedTextApprovesADeniedStep | orchestrator/graph/engine.py:396-401 | a concrete session in which approving a confirmed step approves a denied one |
| Scenarios.LateApprovalIsLost | orchestrator/graph/engine.py:396-407 | a concrete session in which a later turn replaces the opinion: the approval adds nothing, is reported as a skip and keeps its slot |
| Scenarios.CompletesWhilePending | orchestrator/graph/engine.py:361-384 | a concrete session whose second turn completes while the request of the first is pending |
| Scenarios.ThreeApprovalsSilence | orchestrator/safety/gate.py:220-247 | a concrete session with three approvals that no continuation makes ask again |
| Scenarios.ApprovedStepIsAskedAgain | orchestrator/graph/engine.py:283-344 | a concrete session in which a step approved in one turn is asked about again in the next, its expert not consulted |
| Confirmations.EveryActionIsGatedOnce | orchestrator/graph/engine.py:366-369 | each turn gates every action of its opinion exactly once, in order, under the name it was collected from; the fallback invoker is never used |
| Publishing.PublishedExactlyOnce | orchestrator/main.py:93-104 | for any outbox run whose new objects get free addresses: drained followed by next-to-drain = produced for draining, in order; nothing streamed is ever drained; remembered addresses belong to buffered events |
| Delivery.SessionPublishesExactlyOnce | orchestrator/main.py:75-104 | for every session of turns, answers, replays and drains under fresh allocation: its outbox trace is permitted, the remembered addresses mark exactly the streamed entries, drained followed by undrained = all it produced unstreamed, pushed = all it streamed, in order, and nothing pushed is drained |
| Delivery.SessionTracks | orchestrator/graph/engine.py:361-454 | the outbox trace of a session reproduces its outbound list, pending requests and history; only pending request objects are appended again |
| Delivery.SomeWorldIsFresh | orchestrator/main.py:90-104 | an allocator that reuses no address meets the condition in every session |
| Delivery.RanGrows | orchestrator/graph/engine.py:93-384 | a turn appends events only, each new request once, unstreamed, under the next call id |
| Publishing.Outbox.EmitOne | orchestrator/graph/engine.py:448-454 | buffered, remembered, then offered to the sink; a raising sink is only logged |
| Publishing.Outbox.TakeUndrained | orchestrator/main.py:98-104 | returns the unstreamed events in order and clears both |
| ObserverStore.MigrationAgreesIff | observer/observer/store.py:94-128 | migrating a legacy table records what insert-or-ignore of the same events would (events, order and keys) iff no keyed kind has an empty id |
| ObserverStore.MigrateThenIngest | observer/observer/store.py:94-173 | a migrated table goes on as if all had been ingested live |
| ObserverStore.MigrationIsIdempotent | observer/observer/store.py:94-128 | keys are unique after the first start, and a second one right away changes nothing |
| ObserverStore.SurvivesIff | observer/observer/store.py:121-125 | a keyed row survives iff no smaller id has its key |
| ObserverStore.ReopensIff | observer/observer/store.py:76-128 | after the first start and any live ingest the store opens again iff at most one chat message and at most one request with an empty id are on record; it then keeps every row and changes nothing iff no empty id came in |
| ObserverStore.LivesIff | observer/observer/store.py:76-173 | over any run of starts and arriving events the store stays openable iff at each start at most one empty-id chat message and one empty-id request have been recorded |
| ObserverStore.NoRowIsLost | observer/observer/store.py:76-173 | as long as starts succeed, every row ever recorded after the first start keeps its place, id and event |
| ObserverStore.TwoEmptyIdsBlockRestart | observer/observer/store.py:106-128 | concretely, two live chat messages with an empty id in a new database: no later start opens it |
| ObserverStore.WhatIsRecorded | observer/observer/ingest.py:30-181 | the six noise kinds leave no trace; any other event uses up an id and gets a row under its key unless that key is taken |
| ObserverStore.RedeliveryIsNoOp | observer/observer/store.py:139-173 | re-delivering a keyed event adds no row, however much was ingested since; it only uses up an id |
| ObserverStore.IngestKeepsTable | observer/observer/store.py:139-173 | ids stay ascending, keys unique, and rows are only appended |
| ObserverStore.KeysAgreeIff | observer/observer/ingest.py:36-46 | live and migration keys agree iff the id is not empty |
| ObserverStore.KeysIdentify | observer/observer/ingest.py:36-46 | equal keys mean equal kind and id |
| ObserverStore.PagesAreCompleteIff | observer/observer/web.py:178-194 | following the pages yields exactly the rows matching at the first request, once, newest first, despite inserts in between, iff the page size is not 0 (or nothing matches) |
| ObserverStore.CrawlIsBounded | observer/observer/web.py:178-194 | a client that has not reached an empty page has had at most as many pages as there are matching rows |
| ObserverStore.NewestIsDescending | observer/observer/store.py:256-297 | a page query returns the matching rows below the cursor, each once, by descending id |
| ObserverStore.Store.Migrate | observer/observer/store.py:94-128 | without the index: backfill, deletion and index; under it: fails without a change iff a key to be filled in is taken, else only fills in |
| ObserverStore.Store.Open | observer/observer/store.py:76-92 | a store with the migrated content, or the error of the migration |
| ObserverStore.Store.InsertEvent | observer/observer/store.py:139-173 | insert or ignore, with the new id or none; an ignored insert uses up its id |
| ObserverStore.Store.PersistEvent | observer/observer/ingest.py:139-181 | drops the noise kinds, otherwise inserts |
| ObserverStore.Store.Page | observer/observer/store.py:256-306 | the page query, with SQLite's reading of a negative limit |
| Contours.CellDegree | forge_ios/Forge/Vision/MaskPolygonizer.swift:46-80 | in each of the 16 cells an edge midpoint is an end of exactly one segment if its corners differ, else of none |
| Contours.DegreeOfPoint | forge_ios/Forge/Vision/MaskPolygonizer.swift:29-82 | the degree of every point over the whole mask |
| Saddles.SegmentsCutOffBackground | forge_ios/Forge/Vision/MaskPolygonizer.swift:46-80 | in each of the 16 cells every segment has an arc of the cell border with background corners only between its ends |
| Saddles.DiagonalPixelsJoin | forge_ios/Forge/Vision/MaskPolygonizer.swift:46-80 | across a saddle the outlines of two diagonally touching pixels are linked |
| Saddles.DiagonalPairSharesContour | forge_ios/Forge/Vision/MaskPolygonizer.swift:100-152 | whatever else is in the mask, a closed whole trail that has one of the eight edge midpoints around two diagonally touching pixels has all eight |
| Saddles.ContourOfDiagonalPair | forge_ios/Forge/Vision/MaskPolygonizer.swift:12-152 | on a mask with just two diagonally touching pixels the contour runs around both of them |
| Saddles.SegmentsInReadingOrder | forge_ios/Forge/Vision/MaskPolygonizer.swift:38-82 | the segments stand in reading order of their cells |
| Contours.EndpointIff | forge_ios/Forge/Vision/MaskPolygonizer.swift:29-82 | an edge midpoint is used iff its two corners differ |
| Contours.CyclesIffBorderIsBackground | forge_ios/Forge/Vision/MaskPolygonizer.swift:24-82 | every used vertex has degree two iff last row and column are background |
| Contours.SegmentsIffForeground | forge_ios/Forge/Vision/MaskPolygonizer.swift:84 | there are segments iff some pixel is foreground |
| Contours.NoLoops | forge_ios/Forge/Vision/MaskPolygonizer.swift:60-80 | no segment begins and ends at one point |
| Chains.KeysIdentifyIff | forge_ios/Forge/Vision/MaskPolygonizer.swift:103-110 | the quantized keys tell edge midpoints apart iff one side has at most 2048 pixels and the other at most 4096 |
| Chains.KeysOfMask | forge_ios/Forge/Vision/MaskPolygonizer.swift:103-117 | keys that tell edge midpoints apart are exact on the segments of every mask of that size |
| Chains.StuckMeansClosed | forge_ios/Forge/Vision/MaskPolygonizer.swift:129-144 | where degrees are two, a walk without continuation is back at its start |
| Chains.ClosedTrailIsWhole | forge_ios/Forge/Vision/MaskPolygonizer.swift:129-144 | and no segment outside it touches it |
| Chains.BuildAdjacency | forge_ios/Forge/Vision/MaskPolygonizer.swift:112-117 | each quantized key lists exactly the segments that end at a vertex with that key, in order |
| Chains.FirstUnvisited | forge_ios/Forge/Vision/MaskPolygonizer.swift:138-143 | the first unvisited neighbour, or none is left |
| Chains.Walk | forge_ios/Forge/Vision/MaskPolygonizer.swift:125-144 | the walk on keys: terminates, marks fresh segments only, goes from key to key, each time along the lowest-numbered free segment, and stops only where no unmarked segment has its key; where keys are exact it joins points, and on cycles it closes |
| Chains.ChainLargestContour | forge_ios/Forge/Vision/MaskPolygonizer.swift:100-152 | for masks of any size the first of the longest walks on keys, which use every segment exactly once, begin in turn at the first unused segment and never stop early; where keys are exact they are trails of points, and on cycles each is closed and whole |
| Chains.Downsampled | forge_ios/Forge/Vision/MaskPolygonizer.swift:91-95 | at most maxVertices points, in contour order, beginning with the first; everything if it fits |
| Chains.SamplesStopShort | forge_ios/Forge/Vision/MaskPolygonizer.swift:91-95 | a longer contour gives exactly maxVertices points at multiples of the stride; the part behind the last one, up to half of the rest, is not sampled |
| Chains.HalfIsUnsampled | forge_ios/Forge/Vision/MaskPolygonizer.swift:91-95 | one point short of twice maxVertices: the samples are the first half of the contour |
| Chains.FillGrid | forge_ios/Forge/Vision/MaskPolygonizer.swift:27-34 | thresholded pixels, background row on top and column on the left |
| Chains.CollectSegments | forge_ios/Forge/Vision/MaskPolygonizer.swift:38-82 | the cell loop yields the specified segments in row-major order |
| Chains.Polygon | forge_ios/Forge/Vision/MaskPolygonizer.swift:12-96 | samples of the first longest walk, which for sizes with exact keys is a trail, and a whole closed cycle when the border is background; something is returned iff the mask is at least 2 by 2, some pixel is at least 128 and a vertex is allowed |
| Ulid.NewUlid | orchestrator/proto/events.py:37-49 | the shift loop gives the 26 digits of the masked clock and random bits, and decoding gives that value back |
| Ulid.RoundTrip | orchestrator/proto/events.py:45-49 | decode after encode is the identity below 32^n |
| Ulid.OrderIsPreserved | orchestrator/proto/events.py:34-49 | string order is numeric order, equality is equality |
| Ulid.IdsSortByTime | orchestrator/proto/events.py:37-49 | ids sort by masked millisecond, then random bits; an earlier one is smaller whatever the random bits |
| Ulid.AlphabetIs | orchestrator/proto/events.py:34 | its 32 characters are the digits and the capital letters without I, L, O and U |
| Ulid.AlphabetIsOrdered | orchestrator/proto/events.py:34 | the alphabet is in character order |
| FrameStore.HeaderRoundTrip | orchestrator/storage/frame_store.py:14-31 | packing fails iff a field exceeds its width; otherwise 20 bytes that begin with the magic word, and payload, width, height and timestamp read back |
| FrameStore.UnwrapIff | orchestrator/storage/frame_store.py:23-31 | a blob is taken for a frame iff it begins with the magic word; the payload is what follows the header |
| FrameStore.UriIs | orchestrator/storage/frame_store.py:45 | a uri is the prefix and the number in at least five digits, without leading zeros beyond them |
| FrameStore.UrisDiffer | orchestrator/storage/frame_store.py:45 | uris identify sequence numbers, also past the padding |
| FrameStore.RetainedIff | orchestrator/storage/frame_store.py:43-51 | a put's uri is retained iff it was accepted and fewer than capacity were stored after it |
| FrameStore.EntryOf | orchestrator/storage/frame_store.py:43-47 | an accepted put is logged under its own number, refused ones leaving gaps |
| FrameStore.InMemoryFrameStore.Put | orchestrator/storage/frame_store.py:43-51 | list and map stay the latest capacity entries of the full log, with distinct uris; returns the full reference |
| FrameStore.InMemoryFrameStore.Get | orchestrator/storage/frame_store.py:53-54 | the retained blob, else a missing key |
| FrameStore.InMemoryFrameStore.GetJpeg | orchestrator/storage/frame_store.py:56-57 | for every put: its own bytes while retained, else a missing key |

## Left out

- One clock reading per public bus operation: the source reads the clock again for each drop and eviction.
- The order in which sessions are visited during fan-out, and dictionary order of sessions generally; each session is treated on its own.
- In bus runs a subscription starts a new session object; the class takes any valid one.
- The transport's fallback for sinks without the `extra` argument, WebSocket framing, asyncio queues, threads and locks.
- Case folding and whitespace stripping are arbitrary functions; JSON, YAML and regular expressions are taken as already parsed; an action keeps its argument text beside the parsed arguments.
- Volts, amps, confidences and the halt clock are reals, without NaN, rounding or conversion failures of malformed numbers.
- Gate reasons and outbound events are enumerations instead of texts; message ids and timestamps of outbound events are not modelled.
- Call ids come from a counter and stand for fresh, distinct ids; action and event objects carry explicit identities.
- Audit rows keep the whole action and the call id it was asked under, which the source's rows do not, so that the theorems can refer to them.
- The classify, summon, merge and dissent models are arbitrary scripts that may fail; the briefing, topic and deadlines given to them are absent.
- Snapshot ticks, malformed-transcript goodbyes and sentinel interrupts, which only append outbound events.
- Delivery.SessionTracks: an expert named twice in a roster has one buffer flushed twice; the repeated entries count as new objects here.
- A single run at a time per session, as in the source's handlers; cancellation in the middle of a run is absent.
- ClientStores.ClientMessageStore.SweepOrphans: the order in which the ids are swept is arbitrary, as nothing depends on it.
- Engine.GraphEngine.Run: the pending summons, which only the expert models and the dissent report's call id read, is absent: its topic, deadline, briefing and frame references.
- Engine.GraphEngine.Dissenting: the report is its list of pairs; parties, summary and time stamp are derived texts.
- Chains.KeysIdentifyIff: takes normalized coordinates as exact fractions, without the rounding of 32-bit floats.
- Chains.BuildAdjacency: its keys are those exact-fraction keys.
- Chains.Walk: likewise.
- Chains.ChainLargestContour: likewise.
- Chains.Polygon: likewise; points are returned on the half-pixel lattice, without the division by width and height, and the row stride of the pixel buffer is absent.
- ObserverStore.Store.Page: SQL filters are an arbitrary predicate on rows; the status table, the other queries and row timestamps are absent.
- ObserverStore.Store.PersistEvent: of the flattened columns only the kind, the ids and the key are kept.
- ChatBuses.ChatBus.HeartbeatAll: the generated nonce is an input.
- Ulid.NewUlid: milliseconds and random bits are inputs.
- The table of datasheet entries is a parameter; datasheet passages and their scoring, bill-of-materials ranking, procedures and test points: heuristics and plain lookups.
- Authentication, configuration, deployment, dashboards, audio, cameras and scenes.

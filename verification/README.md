# Verification of the agent gateway's protocol core

A Dafny model of nine stateful parts of the repository, with proofs about every run of each.
Every part has three layers. A *specification* module gives the state as a value and each step of
the program as a function on it, so that a run is a fold over events. *Theorem* modules prove what
all runs keep, and what the steps bring about, written out in the fields they concern. For the parts
that update an object in place, an *object* module has a class with the program's own fields and
loops. A ghost `history` lists the events it has seen, `Valid()` says that its fields are where the
run over that history leads, and every operation keeps `Valid()` and adds its event. Lemmas in the
class turn `Valid()` into the theorems, stated on the object's own fields. Further ghost fields
record what was sent, emitted, settled or aborted.

| part | files |
|---|---|
| ACP event ledger, in memory and on file | `EventLedger*.dfy` |
| LSP framing and request table | `LspFraming.dfy`, `LspSession.dfy` |
| ACP gateway agent: outages and approvals | `Gateway*.dfy` |
| ACP gateway agent: streaming and listing | `DeltaStreaming.dfy`, `SessionListing.dfy` |
| Realtime voice bridge | `VoiceBridge*.dfy` |
| ACP session store | `SessionStore*.dfy` |
| Safe server and tool names | `ToolNames.dfy` |
| Tool locations and prompt text | `ToolLocations*.dfy`, `PromptText.dfy` |
| Spawn stream relay | `SpawnRelay*.dfy` |
| Anthropic model references and defaults | `ModelRef*.dfy`, `ConfigDefaults*.dfy` |

`Common.dfy` holds the vocabulary they share: options, JSON values, JavaScript maps in insertion
order, and string helpers. `dafny verify dfyconfig.toml` checks the project.

An `await` in the program is the end of one step in the model. Between two steps anything else may
happen, so a theorem over all event lists covers every interleaving. Network, timers, clocks, fresh
ids and JSON text are events or parameters.

Where a promised property is false of the code, the model keeps the code. A lemma gives an input that
fails, and another states exactly when the property holds:

* asking the ledger for `complete` without `reset` can make it lie: `UndisciplinedStartLies`, and
  exactly when `StartHonestIff`, `TruthfulThroughoutIff`;
* a cursor past offset 10,000 is issued but refused: `LongListsFail`, `FollowingFailsIff`;
* a suppressed final tool result can strand a deferred `response.create`: `SuppressedResultStrands`,
  `StrandsExactlyWhen`, `NeverStrandedIff`;
* an empty argument delta throws buffered arguments away: `EmptyDeltaLosesText`, `KeptIsWholeIff`;
* `conversation.item.done` ignores the buffered arguments, and the completion that would deliver them
  counts as a repetition: `ItemDoneLosesDeltas`, `ArgumentsAreOwnDeltas`;
* `setActiveRun` on a busy session leaves a stale index entry: `OverwrittenRunStays`,
  `SetActiveRunKeepsIff`, `CoherentThroughoutIff`;
* an idle session with the empty id cannot be evicted: `EmptyIdBlocksEviction`,
  `CreateFailsExactlyWhen`;
* a snapshot that does not extend what was sent is streamed wrongly: `ReplacedTextIsStreamedWrongly`,
  `EmitExact`, `StreamsTheLongestSnapshot`;
* output that overflows the relay's buffer is lost: `LongDeltaOverflows`, `OutputIsConserved`;
* white space around a date in an auth profile makes a model reference change on a second pass, and
  the defaults with it: `AnUnstableReference`, `CanonicalizeIdempotentIff`, `ResolveKnownIdempotentIff`,
  `RuntimeRefsAreClosedIff`, `DefaultingCanTakeTwoPasses`, `DefaultingIsIdempotentIff`.

## Model

| member | source | states |
|---|---|---|
| EventLedgerReplay.ReplayFidelity | src/acp/event-ledger.ts:227-416 | in any disciplined run, whatever the three eviction phases removed, each of the three replay queries that answers `complete: true` returns exactly the updates recorded for that session since its last reset, numbered 1..n |
| EventLedgerReplay.UndisciplinedStartLies | src/acp/event-ledger.ts:239-246 | a concrete run in which `complete` without `reset` makes a replay say `complete` with an update missing |
| EventLedgerReplay.StepKeeps | src/acp/event-ledger.ts:334-416 | every operation keeps the stored numbers consecutive and a session that misses nothing equal to its unbounded log, and keeps the flags truthful unless it claims `complete` without `reset` for a session with something missing |
| EventLedgerReplay.SequenceInvariant | src/acp/event-ledger.ts:227-332 | in every run the stored events of a session have consecutive numbers ending at `nextSeq - 1`; in disciplined runs `complete` means there are `nextSeq - 1` of them |
| EventLedgerReplay.AlwaysWithinLimits | src/acp/event-ledger.ts:262-332 | after every start, append and non-empty prompt the store is within the session, event and byte limits |
| EventLedgerReplay.ByKeyPicksNewest | src/acp/event-ledger.ts:384-416 | the key query is complete iff some complete session has the key, and then replays one with the newest update |
| EventLedgerClaims.StartHonestIff | src/acp/event-ledger.ts:227-303 | `startSession` on a truthful ledger leaves it truthful if and only if it does not ask for `complete`, resets, nothing of the session was evicted since its last reset, or the trim takes the claim back |
| EventLedgerClaims.LostIffEvicted | src/acp/event-ledger.ts:262-332 | entries recorded for a session are missing from the store exactly when some trim since the last reset shifted, capped or deleted one of them |
| EventLedgerClaims.TruthfulThroughoutIff | src/acp/event-ledger.ts:334-382 | a run keeps every `complete` flag truthful throughout if and only if each of its starts meets the condition of `StartHonestIff` |
| EventLedgerClaims.TruthIsFidelity | src/acp/event-ledger.ts:394-402 | truthful flags mean exactly that every complete replay by session id is the whole log |
| EventLedgerClaims.ReadThenClaim | src/acp/translator.ts:746-783 | `loadSession` reads a complete replay and claims `complete` later: that keeps the ledger truthful exactly when nothing of the session was evicted in between or the trim takes the claim back |
| EventLedgerEffects.MarkedIsRefused | src/acp/event-ledger.ts:373-382 | once a session is marked incomplete no query replays it, a wrong key marks nothing, and every other session is answered as before |
| EventLedgerEffects.QueriesAnswer | src/acp/event-ledger.ts:384-402 | the queries by id answer with the stored session if it is complete and, for one of them, has the key; otherwise with nothing |
| EventLedgerEffects.StartWrites | src/acp/event-ledger.ts:227-260 | what a start leaves of its session, whatever was evicted: key, directory, times and next number |
| EventLedgerEffects.StartStores | src/acp/event-ledger.ts:227-260 | a start within the limits keeps or empties the session, and completes it when asked |
| EventLedgerEffects.AppendStores | src/acp/event-ledger.ts:305-332 | an update within the limits is stored last, under the next number, with its time and ids |
| EventLedgerEffects.PromptIsLogged | src/acp/event-ledger.ts:354-365 | a prompt is logged as one chunk per content block, in order |
| EventLedgerTrim.CapSessionsKeepsNewest | src/acp/event-ledger.ts:271-278 | phase 2 keeps as many sessions as allowed, and none it drops is newer than one it keeps |
| EventLedgerTrim.ShedEventsOldestFirst | src/acp/event-ledger.ts:280-291 | a session loses an event for space only when every session before it in eviction order has none left |
| EventLedgerTrim.ShedEventsIsMinimal | src/acp/event-ledger.ts:280-291 | the byte loop stops at the first store that fits: every shorter sequence of evictions leaves the store too large |
| EventLedgerTrim.ShedSessionsOldestFirst | src/acp/event-ledger.ts:293-302 | whole sessions go oldest first, until the store fits or is empty |
| EventLedgerTrim.ShedSessionsIsMinimal | src/acp/event-ledger.ts:293-302 | that loop too stops at the first store that fits: every smaller number of rounds leaves the store too large |
| EventLedgerTrim.SessionsGoLast | src/acp/event-ledger.ts:280-302 | a session is dropped for space only once no session has an event |
| EventLedgerTrim.TrimPostcondition | src/acp/event-ledger.ts:262-303 | every surviving session lost at most a prefix of its events, losing anything clears `complete`, and all limits hold |
| EventLedgerTrim.TrimFixpoint | src/acp/event-ledger.ts:262-303 | a store within its limits is left alone |
| EventLedgerFile.StoreRoundTrip | src/acp/event-ledger.ts:133-225 | normalizing a parsed serialized store gives the store back |
| EventLedgerFile.UnusableFileIsEmpty | src/acp/event-ledger.ts:212-225 | a missing, unreadable or foreign file is an empty ledger |
| EventLedgerFile.BadSessionIsSkipped | src/acp/event-ledger.ts:173-225 | a session that lacks a field or is stored under another id is left out, and the others stay |
| EventLedgerFile.BadEventIsSkipped | src/acp/event-ledger.ts:141-170 | so is an event without number, time, ids or a tagged update |
| EventLedgerFile.FileRefinesMemory | src/acp/event-ledger.ts:420-488 | after any operations, loading the file gives exactly the in-memory ledger |
| EventLedgerFile.FileReplayFidelity | src/acp/event-ledger.ts:334-488 | so while the ledger is truthful the file's complete replays are faithful too |
| EventLedgerObjects.MutableLedgerState.TrimLedger | src/acp/event-ledger.ts:262-303 | the in-place loops compute the trimming those lemmas describe |
| EventLedgerObjects.MutableLedgerState.AppendUpdate | src/acp/event-ledger.ts:305-332 | an append stores one event with the next number and trims |
| EventLedgerObjects.MutableLedgerState.StartSession | src/acp/event-ledger.ts:227-260 | a start creates, resets or refreshes one session and trims |
| EventLedgerObjects.MutableLedgerState.RecordUserPrompt | src/acp/event-ledger.ts:354-365 | one append per content block, in order |
| EventLedgerObjects.InMemoryAcpEventLedger.CompleteReplaysAreFaithful | src/acp/event-ledger.ts:421-433 | the replays of the in-memory ledger object are faithful under that exact condition on its own history |
| EventLedgerObjects.FileAcpEventLedger.Mutate | src/acp/event-ledger.ts:439-488 | load, mutate, write back: the file is where the history leads |
| EventLedgerObjects.FileAcpEventLedger.Read | src/acp/event-ledger.ts:439-488 | a query answers from the store as loaded and leaves the file alone |
| EventLedgerObjects.FileAcpEventLedger.FileIsFaithful | src/acp/event-ledger.ts:439-488 | the file ledger object loads to what the in-memory one would hold, and is faithful under the same condition |
| LspFraming.ParseLspMessages | src/agents/agent-bundle-lsp-runtime.ts:124-160 | the parse loop ends and yields the messages of all complete frames and the bytes after them |
| LspFraming.ChunkingIndependence | src/agents/agent-bundle-lsp-runtime.ts:124-160 | for all byte strings, parsing `a`, then its remainder followed by `b`, is parsing `a + b` |
| LspFraming.SplitsAgree | src/agents/agent-bundle-lsp-runtime.ts:179-185 | any division of a stream into chunks gives the same frames and the same buffer |
| LspFraming.RemainderHoldsNoFrame | src/agents/agent-bundle-lsp-runtime.ts:179-185 | the stored buffer never holds a complete frame |
| LspFraming.DecimalRoundTrip | src/agents/agent-bundle-lsp-runtime.ts:119-160 | reading a printed length gives it back |
| LspFraming.PartialFrameWaits | src/agents/agent-bundle-lsp-runtime.ts:119-160 | a strict prefix of a frame yields nothing and is kept whole |
| LspFraming.RoundTrip | src/agents/agent-bundle-lsp-runtime.ts:119-160 | parsing any encoded messages followed by a strict prefix of another frame gives those messages and that prefix |
| LspFraming.MalformedIsSkipped | src/agents/agent-bundle-lsp-runtime.ts:124-160 | a body that does not decode loses that body only, a header without a length its own bytes only |
| LspFraming.AnyHeaderLength | src/agents/agent-bundle-lsp-runtime.ts:135-142 | a header gives its length whatever the case of its label, the white space after it and what follows the number |
| LspSession.SettleOnce | src/agents/agent-bundle-lsp-runtime.ts:162-210 | under any interleaving of requests, chunks, timeouts and disposal each request id is either pending with its timer armed or settled exactly once |
| LspSession.ResponsesAreTheServers | src/agents/agent-bundle-lsp-runtime.ts:179-210 | a resolve or reject carries a response the server sent for that request, and the messages acted on are those of the whole byte stream |
| LspSession.ArrivalSettles | src/agents/agent-bundle-lsp-runtime.ts:179-210 | a chunk that completes an answer settles its request with the `error` or the `result` sent, and a request the chunk does not answer stays pending |
| LspSession.AnswerSettles | src/agents/agent-bundle-lsp-runtime.ts:188-205 | in the dispatch loop the first answer to a pending request is the one that counts |
| LspSession.TimeoutSettles | src/agents/agent-bundle-lsp-runtime.ts:165-172 | a deadline settles its pending request as timed out, and nothing else |
| LspSession.DisposalBegins | src/agents/agent-bundle-lsp-runtime.ts:251-262 | disposal marks the session once and asks an initialized server to shut down |
| LspSession.RejectKeeps | src/agents/agent-bundle-lsp-runtime.ts:251-276 | disposal settles the pending requests as disposed and leaves earlier settlements alone |
| LspSession.DisposeEndKeeps | src/agents/agent-bundle-lsp-runtime.ts:251-276 | after disposal nothing is pending and everything that was is settled |
| LspSession.Session.SendRequest | src/agents/agent-bundle-lsp-runtime.ts:162-177 | the id returned is pending, was not before, and has never been settled |
| LspSession.Session.DispatchMessages | src/agents/agent-bundle-lsp-runtime.ts:186-209 | the loop dispatches the messages in order, as `AnswerSettles` describes |
| LspSession.Session.HandleIncomingData | src/agents/agent-bundle-lsp-runtime.ts:179-210 | appends the chunk, stores the remainder, and settles every pending request that the chunk answers |
| LspSession.Session.RejectPending | src/agents/agent-bundle-lsp-runtime.ts:251-276 | the rejection loop settles all that is pending |
| LspSession.Session.DisposeRemaining | src/agents/agent-bundle-lsp-runtime.ts:251-276 | nothing is pending afterwards, no timer is armed, and everything that was pending is settled |
| LspSession.Session.RequestsSettleOnce | src/agents/agent-bundle-lsp-runtime.ts:162-276 | in a session object each id sent is pending with its timer armed or settled, once |
| LspSession.Session.SettlementsAreAnswers | src/agents/agent-bundle-lsp-runtime.ts:179-210 | in a session object each response settlement is a message of the server for that id, and the stream is decoded up to an incomplete frame |
| GatewayOutages.OutageSafety | src/acp/translator.ts:647-672 | over every interleaving: an active outage stamps every pending prompt; an armed grace timer means pending prompts and carries the newest generation; a run is rejected at most once |
| GatewayOutages.RejectionsAreJustified | src/acp/translator.ts:1617-1726 | a prompt is rejected as disconnected only for the deadline of its current stamp and, once its send was accepted, only while that outage is active |
| GatewayOutages.StartPromptKeeps | src/acp/translator.ts:1031-1042 | starting a prompt keeps all of that: during an outage it is stamped with it and the timer is armed |
| GatewayOutages.WaitReturnsKeeps | src/acp/translator.ts:1663-1726 | the step after each reconciliation reply keeps all of the above, whatever happened while it waited |
| GatewayProgress.RejectedExactlyWhenDue | src/acp/translator.ts:1617-1726 | at the deadline a prompt is rejected if and only if it is pending with the stamp asked about and its send was not accepted or that outage is on; it is pending no more, and one not due stays and loses that stamp |
| GatewayProgress.FinishedRunEnds | src/acp/translator.ts:1698-1710 | a run reported finished or failed ends its prompt, and rejects none |
| GatewayProgress.UnfinishedRunWaits | src/acp/translator.ts:1675-1726 | before the deadline an unfinished run is left alone and keeps the timer |
| GatewayProgress.GraceRejectsAll | src/acp/translator.ts:1582-1726 | when the grace timer of an outage fires in any run and the gateway stays away, every pending prompt is rejected, in at most as many rounds as there are prompts |
| GatewayProgress.LoopStops | src/acp/translator.ts:1628-1661 | the loop passes over entries settled meanwhile, stops at the first that needs asking, and disarms the timer at its end unless told to keep it or a newer outage began |
| GatewayProgress.ReconciliationStarts | src/acp/translator.ts:647-655 | reconnecting ends the outage and asks about its prompts without a deadline, the grace timer with one |
| GatewayProgress.PromptsComeAndGo | src/acp/translator.ts:1031-1042 | a prompt is pending from its start, with the outage in progress, until it ends; others are not touched |
| GatewayProgress.SendsAreNoted | src/acp/translator.ts:1042-1090 | an accepted send marks its own prompt, a failed one ends it unless the gateway closed |
| GatewayProgress.DisconnectArms | src/acp/translator.ts:657-672 | a disconnect with prompts pending arms the timer for its own generation |
| GatewayApprovals.RelaySafety | src/acp/translator.ts:1264-1386 | in every run an approval id has one live relay, and a relay object sends at most one non-deny decision and none after a deny |
| GatewayApprovals.AllowsAreWarranted | src/acp/translator.ts:1292-1367 | a non-deny decision is sent only for the approval's live relay, while its own prompt is pending, and only a decision that was offered and picked |
| GatewayApprovals.OnlyAnswersAllow | src/acp/translator.ts:1264-1386 | every other step sends denials only |
| GatewayProgress.ChoiceIsSent | src/acp/translator.ts:1292-1343 | the option the client picks is the decision sent if the relay is live; in every other case a denial is |
| GatewayProgress.DetailsAsk | src/acp/translator.ts:1292-1306 | a live relay offers each allowed decision once, and an allow and a denial when none is given; a dead one is denied at once |
| GatewayProgress.ApprovalStartsRelay | src/acp/translator.ts:1264-1290 | an approval that names a run starts a relay if and only if the run is pending and the approval has none, for that run's session |
| GatewayProgress.ApprovalWithoutRun | src/acp/translator.ts:1264-1290 | one that names no run does so only for the single prompt with its session key |
| GatewayProgress.ResolutionSettles | src/acp/translator.ts:1321-1331 | an accepted decision completes its relay, a failed one drops it |
| GatewayApprovals.PromptCleanup | src/acp/translator.ts:1369-1386 | however a prompt ends, none of its relays stays in the map |
| GatewayProgress.EndingDenies | src/acp/translator.ts:1369-1386 | when a prompt ends, a denial goes out for exactly its live relays |
| GatewayAgentObject.AcpGatewayAgent.HandleGatewayReconnect | src/acp/translator.ts:647-655 | ends the outage and reconciles up to the first `await` |
| GatewayAgentObject.AcpGatewayAgent.OnGraceTimer | src/acp/translator.ts:1582-1589 | clears the timer and reconciles with an expired deadline |
| GatewayAgentObject.AcpGatewayAgent.OnWaitReply | src/acp/translator.ts:1663-1726 | the rest of a reconciliation after its reply: resolve, reject, clear the stamp or keep |
| GatewayAgentObject.AcpGatewayAgent.OnTaskResumes | src/acp/translator.ts:1628-1661 | the reconciliation loop from one `await` to the next |
| GatewayAgentObject.AcpGatewayAgent.EndPrompt | src/acp/translator.ts:1494-1524 | clears the prompt's relays, so that none of them stays live, deletes the pending entry and drops an idle timer |
| GatewayAgentObject.AcpGatewayAgent.OneAllowPerRelay | src/acp/translator.ts:1264-1386 | an agent object never sends anything but denials after a relay's first decision |
| GatewayAgentObject.AcpGatewayAgent.RejectionsAreWarranted | src/acp/translator.ts:1617-1726 | an agent object rejects a run as disconnected once, for the deadline of its stamp and, if accepted, within that outage |
| GatewayAgentObject.AcpGatewayAgent.TimerIsCurrent | src/acp/translator.ts:647-672 | an armed timer of an agent object carries the newest generation, and pending prompts carry the active outage |
| DeltaStreaming.StreamsTheLongestSnapshot | src/acp/translator.ts:1435-1492 | in any order and with the two stages interleaved, each stream has emitted exactly the longest right-trimmed snapshot it processed if and only if those snapshots form a prefix chain |
| DeltaStreaming.NothingLost | src/acp/translator.ts:1435-1492 | once no event is suspended, what was sent is the longest snapshot that arrived and holds all others, exactly when they form a prefix chain |
| DeltaStreaming.EmitExact | src/acp/translator.ts:1466-1492 | slicing by the sent length keeps the stream right if and only if the snapshot and what was sent are prefixes of one another |
| DeltaStreaming.ReplacedTextIsStreamedWrongly | src/acp/translator.ts:1466-1492 | two events after which the client has a text that was never a snapshot, or not the new one |
| DeltaStreaming.TrimEndMonotone | src/acp/translator.ts:1445-1472 | right-trimming preserves the prefix order |
| DeltaStreaming.BlocksGoWhere | src/acp/translator.ts:1445-1472 | text blocks make up the message and thinking blocks the thought, in order, and neither shows in the other |
| DeltaStreaming.ThoughtComesFirst | src/acp/translator.ts:1445-1466 | a message waits for the delivery of its event's thought |
| DeltaStreaming.GrowthKeepsPrefixes | src/acp/translator.ts:1445-1472 | content that grows at its tail keeps its snapshots in prefix order through the filter, the join and the trim |
| DeltaStreaming.GrowingContentsChain | src/acp/translator.ts:1445-1472 | such contents form a prefix chain |
| DeltaStreaming.PromptStreams.HandleDelta | src/acp/translator.ts:1435-1492 | the chunks it returns are what the step adds to the streams |
| DeltaStreaming.PromptStreams.OnThoughtDelivered | src/acp/translator.ts:1466-1492 | the message stage after the awaited thought chunk, with the lengths as they are by then |
| DeltaStreaming.PromptStreams.StreamsAreExact | src/acp/translator.ts:1435-1492 | a prompt object has sent the longest snapshot exactly when the arrived ones form a prefix chain |
| SessionListing.FetchPage | src/acp/translator.ts:820-852 | the doubling loop ends within the fetch cap with the slice `[start, end)` of the rows within reach, and tells exactly whether more follow |
| SessionListing.PageIsTrueSlice | src/acp/translator.ts:820-852 | that page is the slice of the whole filtered list if and only if the rows within reach go as far as the slice does |
| SessionListing.ShortListsAreExact | src/acp/translator.ts:820-852 | a list that fits the cap is paged truly |
| SessionListing.CursorRoundTrip | src/acp/translator.ts:264-298 | a cursor reads back with its offset and cwd exactly when its offset is at most 10,000; otherwise it is refused |
| SessionListing.ListSessions | src/acp/translator.ts:808-863 | every outcome of the request, errors included |
| SessionListing.FilterSelects | src/acp/translator.ts:820-830 | a directory selects exactly the rows spawned in it, or with it as workspace, in order and number |
| SessionListing.RequestsChecked | src/acp/translator.ts:264-298 | directory and cursor are checked in order, each failing with its own error |
| SessionListing.PageSizeIs | src/acp/translator.ts:306-320 | pages have the size asked for, from 1 to 100, and 100 unless asked |
| SessionListing.FollowingCursors | src/acp/translator.ts:808-863 | following cursors visits the rows within reach in order with no gap and no duplicate |
| SessionListing.FollowingFailsIff | src/acp/translator.ts:808-863 | it fails if and only if some number of its pages ends past offset 10,000 with rows within reach and a request still to come |
| SessionListing.LongListsFail | src/acp/translator.ts:808-863 | 10,101 sessions paged by 100: the cursor for offset 10,100 is issued and refused |
| VoiceBridgeGating.OneAtATime | extensions/openai/realtime-voice-provider.ts:1255-1289 | between two `response.create` on the wire the server created, ended or refused a response or the socket reopened; likewise for `response.cancel` |
| VoiceBridgeGating.SentOnlyWhenAllowed | extensions/openai/realtime-voice-provider.ts:1172-1276 | a create is sent only with no active response, no cancel in flight and no continuing tool call; a cancel only for an active response not being cancelled |
| VoiceBridgeGating.StrandsExactlyWhen | extensions/openai/realtime-voice-provider.ts:494-516 | the one step that strands a deferred create is a suppressed final result that removes the last blocker |
| VoiceBridgeGating.NeverStrandedIff | extensions/openai/realtime-voice-provider.ts:494-516 | a run never strands a deferred create if and only if none of its steps is such a result |
| VoiceBridgeGating.DeferredCreatesAreNotStranded | extensions/openai/realtime-voice-provider.ts:494-516 | if no tool call that is continuing ends suppressed, a deferred create always has a blocker to wait for; a suppressed result of a call that never continued does no harm |
| VoiceBridgeGating.SuppressedResultStrands | extensions/openai/realtime-voice-provider.ts:511-514 | a reachable stranding |
| VoiceBridgeProgress.EndSendsDeferred | extensions/openai/realtime-voice-provider.ts:1100-1106 | the end of a response sends the deferred create, unless a tool call continues |
| VoiceBridgeProgress.RefusedCancelSendsDeferred | extensions/openai/realtime-voice-provider.ts:1157-1162 | so does a refused cancel, unless a create is in flight |
| VoiceBridgeProgress.RequestsAreMade | extensions/openai/realtime-voice-provider.ts:475-516 | a user message and a final unsuppressed result send a create at once when nothing is in the way, and defer it otherwise |
| VoiceBridgeProgress.DeferredIsNeverForgotten | extensions/openai/realtime-voice-provider.ts:1255-1276 | no step forgets a deferred create: it stays until it is sent or a new connection starts |
| VoiceBridgeProgress.ServerReportsCount | extensions/openai/realtime-voice-provider.ts:1036-1156 | a created response is active; a create refused for an active one is deferred |
| VoiceBridgeProgress.InterruptTakesEffect | extensions/openai/realtime-voice-provider.ts:1172-1224 | a barge-in is ignored only if unforced and too early; any other cancels the active response once if audio is playing, and forgets the item it cuts off |
| VoiceBridgeProgress.AudioIsTracked | extensions/openai/realtime-voice-provider.ts:1041-1060 | audio of a new item restarts the playback clock, and each piece awaits one mark |
| VoiceBridgeProgress.OpenStartsAfresh | extensions/openai/realtime-voice-provider.ts:592-608 | a new connection has nothing in the way and no delivered item, and keeps queued audio |
| VoiceBridgeDelivery.ArgumentsAreOwnDeltas | extensions/openai/realtime-voice-provider.ts:1108-1147 | every call of a run was delivered by a completion event; for a named item, with its buffered text if `function_call_arguments.done` found any and else with that event's arguments; that is all of the item's own deltas, in order and without any other's, if and only if no empty delta reset the buffer or, without buffer, the event repeats them |
| VoiceBridgeDelivery.CompletionHandsOver | extensions/openai/realtime-voice-provider.ts:1108-1147 | conversely a completion of an undelivered named item delivers it with exactly those arguments |
| VoiceBridgeProgress.CallsAreNamed | extensions/openai/realtime-voice-provider.ts:1123-1147 | a delivered call has the buffered name and call id, else the event's, else the item's own id |
| VoiceBridgeDelivery.ItemDoneLosesDeltas | extensions/openai/realtime-voice-provider.ts:1136-1147 | a run in which `conversation.item.done` without arguments loses an item's deltas for good |
| VoiceBridgeDelivery.EmptyDeltaLosesText | extensions/openai/realtime-voice-provider.ts:1108-1134 | a run in which an empty delta makes the delivered arguments lose text |
| VoiceBridgeDelivery.KeptIsWholeIff | extensions/openai/realtime-voice-provider.ts:1108-1121 | nothing of an item is lost if and only if no empty delta arrives after text of that item |
| VoiceBridgeDelivery.NonEmptyDeltasSuffice | extensions/openai/realtime-voice-provider.ts:1108-1121 | with non-empty deltas the buffer is the whole text |
| VoiceBridgeDelivery.DeliveredAtMostOnce | extensions/openai/realtime-voice-provider.ts:1226-1253 | within a connection no item is delivered twice |
| VoiceBridgeDelivery.CompletionDelivers | extensions/openai/realtime-voice-provider.ts:1123-1147 | the first completion event of an item, of either kind, delivers it; later ones change nothing |
| VoiceBridgeDelivery.AudioArrivesInOrder | extensions/openai/realtime-voice-provider.ts:458-469 | over any reconnects, what was sent upstream followed by what is queued is what was submitted, in order, minus the dropped chunks; a chunk is dropped only with 320 earlier ones queued |
| VoiceBridgeDelivery.SendAllDrains | extensions/openai/realtime-voice-provider.ts:1017-1021 | the flush sends or requeues the whole queue in order |
| VoiceBridgeObject.OpenAIRealtimeVoiceBridge.FlushQueuedAudio | extensions/openai/realtime-voice-provider.ts:1017-1021 | the loop over the removed queue keeps every chunk and their order |
| VoiceBridgeObject.OpenAIRealtimeVoiceBridge.OneRequestAtATime | extensions/openai/realtime-voice-provider.ts:1255-1289 | a bridge object never puts a second request of a kind on the wire without a release in between |
| VoiceBridgeObject.OpenAIRealtimeVoiceBridge.CallsAreExplained | extensions/openai/realtime-voice-provider.ts:1108-1147 | a bridge object delivers no item twice, and each call as its completion event explains |
| VoiceBridgeObject.OpenAIRealtimeVoiceBridge.AudioIsInOrder | extensions/openai/realtime-voice-provider.ts:458-469 | a bridge object has sent and queued the kept audio in order, and queues nothing while it could send |
| SessionStoreInvariants.DisciplinedRunsAreCoherent | src/acp/session.ts:31-202 | if every `setActiveRun` gives a fresh run id to an idle session, the run index is exactly the inverse of the sessions' active runs |
| SessionStoreInvariants.CoherentThroughoutIff | src/acp/session.ts:31-202 | the index is that inverse after every call if and only if every `setActiveRun` meets the condition of `SetActiveRunKeepsIff` |
| SessionStoreInvariants.SetActiveRunKeepsIff | src/acp/session.ts:142-151 | `setActiveRun` keeps that if and only if the session is missing, or the id is not empty and is the session's own run or new on a session running nothing |
| SessionStoreInvariants.OverwrittenRunStays | src/acp/session.ts:142-151 | a second run on a busy session leaves the first in the index |
| SessionStoreInvariants.FindsTheRunningSession | src/acp/session.ts:130-140 | looking a run up finds exactly the session it runs on |
| SessionStoreInvariants.AlwaysBounded | src/acp/session.ts:93-119 | no run ever holds more sessions than the limit, nor two records for one id |
| SessionStoreInvariants.CreateSparesTheBusy | src/acp/session.ts:53-119 | creating a session leaves busy ones untouched; another disappears only as expired or as the least recently touched idle one that is left |
| SessionStoreInvariants.OldestIdleIsLeastRecent | src/acp/session.ts:66-84 | the eviction scan finds the least recently touched idle session, the earliest on ties |
| SessionStoreInvariants.SurvivorsExactly | src/acp/session.ts:53-64 | reaping removes exactly the expired idle sessions |
| SessionStoreInvariants.CreateFailsExactlyWhen | src/acp/session.ts:86-119 | creation fails exactly for a new id in a full store with nothing expired and no evictable idle session, and then changes nothing |
| SessionStoreInvariants.CreateFailsOnlyWhenAllBusy | src/acp/session.ts:86-119 | without an empty session id: exactly when the store is full of busy sessions |
| SessionStoreInvariants.EmptyIdBlocksEviction | src/acp/session.ts:79-83 | an idle session with the empty id cannot be evicted |
| SessionStoreEffects.UseRefreshes | src/acp/session.ts:86-181 | every use of a session makes it the most recent |
| SessionStoreEffects.RunsStartAndEnd | src/acp/session.ts:142-179 | a started run is found; cleared it is not and the session is idle; cancelled its controller was aborted as well |
| SessionStoreEffects.CreationWrites | src/acp/session.ts:86-119 | a session created runs nothing; created again it keeps its age and run and takes the new key, directory and ledger id |
| SessionStoreEffects.DeletionAborts | src/acp/session.ts:37-52 | deleting a session aborts what it runs and unindexes its run |
| SessionStoreObject.AcpSessionStore.ReapIdleSessions | src/acp/session.ts:53-64 | the reaping loop leaves exactly the survivors |
| SessionStoreObject.AcpSessionStore.EvictOldestIdleSession | src/acp/session.ts:66-84 | the scanning loop finds and removes the victim |
| SessionStoreObject.AcpSessionStore.AddSession | src/acp/session.ts:86-119 | refreshes, or reaps, evicts and creates, or fails |
| SessionStoreObject.AcpSessionStore.CreateSession | src/acp/session.ts:86-119 | a creation that fails leaves sessions and index as they were |
| SessionStoreObject.AcpSessionStore.AbortEverything | src/acp/session.ts:183-189 | aborts every controller in order |
| SessionStoreObject.AcpSessionStore.LookupFindsTheRun | src/acp/session.ts:130-140 | in a store object with disciplined callers a run id leads to exactly the session running it |
| SessionStoreObject.AcpSessionStore.IsBounded | src/acp/session.ts:93-119 | a store object never exceeds its limit nor holds two records for one id |
| ToolNames.ServerNamesAreDistinct | src/agents/agent-bundle-mcp-names.ts:21-34 | any list of raw names gets pairwise different names, ignoring case, safe, starting with a letter and at most 30 characters |
| ToolNames.ServerNameIsStable | src/agents/agent-bundle-mcp-names.ts:11-34 | sanitizing a sanitized name that is free changes nothing |
| ToolNames.ToolNameIsGood | src/agents/agent-bundle-mcp-names.ts:46-67 | under a sanitized server name, a tool name is unreserved, keeps its prefix and fits in 64 characters |
| ToolNames.OwnToolNameKept | src/agents/agent-bundle-mcp-names.ts:46-67 | a tool whose own name is safe, fits and is free is called by it |
| ToolNames.FragmentIs | src/agents/agent-bundle-mcp-names.ts:11-19 | any other name gets dashes for its unsafe characters and the fallback in front if it begins with no letter |
| ToolNames.NumberIsSmallest | src/agents/agent-bundle-mcp-names.ts:25-30 | a taken name gets the smallest free number |
| ToolNames.CatalogNamesAreDistinct | src/agents/agent-bundle-mcp-materialize.ts:99-113 | no two tools of a catalog share a name and none takes a reserved one |
| ToolNames.KeysDiffer | src/agents/agent-bundle-mcp-names.ts:25-30 | different suffixes give different names however they are cut, trimmed and folded |
| NumberedNames.Pigeonhole | src/agents/agent-bundle-mcp-names.ts:25-30 | so the search cannot outlast the set of used names |
| ToolNames.SanitizeServerName | src/agents/agent-bundle-mcp-names.ts:21-34 | returns the first free candidate and adds it to the used names |
| ToolNames.FindFreeName | src/agents/agent-bundle-mcp-names.ts:25-30 | the collision loop ends with the first free candidate |
| ToolNames.BuildCatalogNames | src/agents/agent-bundle-mcp-materialize.ts:99-113 | the naming loop over a catalog |
| ToolLocationsMeaning.InsertAllIsExpected | src/acp/event-mapper.ts:148-173 | after any additions the entries are every path and line added, and a bare path exactly if it was never added with a line |
| ToolLocationsMeaning.InsertMeaning | src/acp/event-mapper.ts:148-173 | what one addition does to the set of entries |
| ToolLocationsMeaning.OrderDoesNotMatter | src/acp/event-mapper.ts:148-173 | the same additions in any order and number give the same entries |
| ToolLocationsMeaning.KeyInjective | src/acp/event-mapper.ts:168-172 | the composite key tells locations apart, whatever colons and digits a path contains |
| ToolLocationsWalk.VisitedIsBounded | src/acp/event-mapper.ts:187-243 | at most 100 nodes are visited, none deeper than 4; all of them when they fit |
| ToolLocationsWalk.ExtractIsExpected | src/acp/event-mapper.ts:403-409 | the answer lists, once each, exactly the expected locations of the visited nodes |
| ToolLocationsFound.ArgumentPathIsListed | src/acp/event-mapper.ts:187-243 | a path under a path key of an argument record is in the answer, with the record's line |
| ToolLocationsFound.AdditionIsListed | src/acp/event-mapper.ts:187-243 | so is, by its path, whatever any visited node gives |
| ToolLocationsFound.TextAdds | src/acp/event-mapper.ts:175-229 | a text, or a text block among a record's contents, gives every path marked in it |
| ToolLocationsFound.PathsAre | src/acp/event-mapper.ts:105-130 | which texts are paths: no web addresses, nothing blank, overlong or with line breaks |
| ToolLocationsWalk.LocationCollector.AddToolLocation | src/acp/event-mapper.ts:148-173 | the scanning loop over the live map |
| ToolLocationsWalk.LocationCollector.CollectToolLocations | src/acp/event-mapper.ts:187-243 | visits the nodes in preorder as far as the budget goes, and adds exactly what they contribute |
| ToolLocationsWalk.ExtractToolCallLocations | src/acp/event-mapper.ts:403-409 | a fresh budget per value, one map for all |
| PromptText.ExtractTextFromPrompt | src/acp/event-mapper.ts:245-276 | the running byte count rejects a prompt exactly when the joined text would exceed the limit |
| PromptText.TextsAre | src/acp/event-mapper.ts:245-276 | which blocks have text, and what it is |
| SpawnRelayLifecycle.OneFinalNotice | src/agents/acp-spawn-parent-stream.ts:360-497 | a relay announces completion, failure or timeout at most once |
| SpawnRelayLifecycle.SilentOnceDisposed | src/agents/acp-spawn-parent-stream.ts:376-514 | after disposal nothing but explicit start notices is emitted |
| SpawnRelayLifecycle.ResumedBetweenStalls | src/agents/acp-spawn-parent-stream.ts:337-413 | between two stall notices there is a resumed notice |
| SpawnRelayLifecycle.AlwaysOrderly | src/agents/acp-spawn-parent-stream.ts:259-509 | stall and resumed notices strictly alternate, and the buffer invariant holds, in every run |
| SpawnRelayLifecycle.BufferIsBounded | src/agents/acp-spawn-parent-stream.ts:286-428 | buffered text stays under 220 characters and never waits without its flush timer |
| SpawnRelayLifecycle.OutputIsConserved | src/agents/acp-spawn-parent-stream.ts:414-427 | the flushed buffers and the pending text concatenate to the visible output if and only if no step pushed the buffer over 4,000 characters |
| SpawnRelayLifecycle.StepAccounts | src/agents/acp-spawn-parent-stream.ts:286-428 | a step loses as many characters as exceed the cap, and no other step loses any |
| SpawnRelayLifecycle.ShortDeltasSuffice | src/agents/acp-spawn-parent-stream.ts:414-427 | deltas of at most 3,781 characters never do |
| SpawnRelayLifecycle.LongDeltaOverflows | src/agents/acp-spawn-parent-stream.ts:414-427 | a single delta of more than 4,000 characters does |
| SpawnRelayLifecycle.AlwaysReported | src/agents/acp-spawn-parent-stream.ts:286-298 | every flushed buffer that is not blank is reported by one progress notice, in order |
| SpawnRelayLifecycle.CompletionFlushes | src/agents/acp-spawn-parent-stream.ts:360-497 | completion and failure flush first; a timeout drops what was buffered |
| SpawnRelayEffects.OutputTakesEffect | src/agents/acp-spawn-parent-stream.ts:381-427 | visible output ends a stall with a notice, and is reported at once from 220 characters or a blank line on |
| SpawnRelayEffects.SilenceIsReported | src/agents/acp-spawn-parent-stream.ts:299-357 | a poll reports a stall exactly when the relay lives, none is open and nothing happened for the time given, and names the stage not reached |
| SpawnRelayEffects.EndsAreAnnounced | src/agents/acp-spawn-parent-stream.ts:461-497 | a live relay says how its child ended and is disposed |
| SpawnRelayEffects.SnippetShowsBuffer | src/agents/acp-spawn-parent-stream.ts:27-39 | a notice shows the buffer with white space compacted to single spaces and nothing else lost up to 220 characters |
| SpawnRelay.SnippetFacts | src/agents/acp-spawn-parent-stream.ts:27-39 | only a blank buffer has an empty snippet, and none is longer than 220 characters |
| SpawnRelayObject.AcpSpawnParentStreamRelay.FlushPending | src/agents/acp-spawn-parent-stream.ts:286-298 | empties the buffer into at most one notice and clears the timer |
| SpawnRelayObject.AcpSpawnParentStreamRelay.NoticesAreOrderly | src/agents/acp-spawn-parent-stream.ts:337-497 | a relay object announces one end, and a resumption between two stalls |
| SpawnRelayObject.AcpSpawnParentStreamRelay.OutputIsReported | src/agents/acp-spawn-parent-stream.ts:286-428 | a relay object has reported every flushed buffer once and in order, and lost nothing but what overflowed |
| ModelRefsFixpoint.SplitIsLossless | extensions/anthropic/claude-model-refs.ts:16-40 | for every reference, splitting off the auth profile loses only the outer white space and that around the `@` |
| ModelRefsFixpoint.CanonicalizeIdempotentIff | extensions/anthropic/claude-model-refs.ts:81-103 | canonicalizing a canonical form changes nothing if and only if the reference is not unstable: a profile that begins with a date, an `@` and white space, under a name without `@` |
| ModelRefsFixpoint.TwoPassesSuffice | extensions/anthropic/claude-model-refs.ts:81-103 | for every reference a third pass changes nothing |
| ModelRefsFixpoint.AnUnstableReference | extensions/anthropic/claude-model-refs.ts:81-103 | a concrete reference whose canonical form has another canonical form |
| ModelRefsFixpoint.PlainIsStable | extensions/anthropic/claude-model-refs.ts:81-103 | references without white space never need it |
| ModelRefsFixpoint.ResolveKnownIdempotentIff | extensions/anthropic/claude-model-refs.ts:217-226 | resolving a resolved reference changes nothing if and only if it is not unstable |
| ModelRefsFixpoint.RuntimeRefsAreClosedIff | extensions/anthropic/claude-model-refs.ts:185-215 | resolving one of the references an entry stands for adds none if and only if the entry is not unstable |
| ModelRefRewrites.RetiredOpusIsUpgraded | extensions/anthropic/claude-model-refs.ts:122-137 | a retired Opus release becomes the current Opus, whatever date or variant follows |
| ModelRefRewrites.RetiredSonnetIsUpgraded | extensions/anthropic/claude-model-refs.ts:138-151 | a retired Sonnet release becomes the current Sonnet |
| ModelRefRewrites.ThirdGenerationIsUpgraded | extensions/anthropic/claude-model-refs.ts:152-160 | third-generation names become the current Opus or Sonnet |
| ModelRefRewrites.ShortNamesStand | extensions/anthropic/claude-model-refs.ts:81-103 | a name that is not a full one is known exactly if it is in the table of short names |
| ModelRefRewrites.ProvidersResolve | extensions/anthropic/claude-model-refs.ts:185-215 | a reference resolves exactly for Anthropic and the Claude CLI, whose references become Anthropic ones |
| ConfigDefaultsFixpoint.DefaultingIsIdempotentIff | extensions/anthropic/config-defaults.ts:287-421 | applying the defaults twice is applying them once, always with an API key; under OAuth with the Claude CLI if and only if every unstable reference has its second form in the configuration too |
| ConfigDefaultsFixpoint.DefaultingCanTakeTwoPasses | extensions/anthropic/config-defaults.ts:385-408 | a concrete configuration for which it is not |
| ConfigDefaultsFixpoint.PlainRefsSettle | extensions/anthropic/config-defaults.ts:287-421 | for references without white space it always is |
| ConfigDefaultsFixpoint.CliRefsAfterIff | extensions/anthropic/config-defaults.ts:204-262 | the defaulted configuration stands for exactly the references it stood for before, and the second forms of the unstable ones |
| ConfigDefaultsFixpoint.OAuthFixpointIff | extensions/anthropic/config-defaults.ts:385-408 | a second runtime pass changes nothing if and only if those second forms are there already |
| ConfigDefaultsFixpoint.ApiKeyFixpoint | extensions/anthropic/config-defaults.ts:323-383 | every listed target ends up with cache retention, and a second pass changes nothing |
| ConfigDefaultsFixpoint.ExplicitEntriesStay | extensions/anthropic/config-defaults.ts:287-421 | no model entry disappears, and an explicit one stays as it is |
| ConfigDefaultsFixpoint.ExplicitSettingsStay | extensions/anthropic/config-defaults.ts:304-321 | model choices, agents, a set pruning mode and a set heartbeat interval are untouched |
| ConfigDefaultsEffects.HeartbeatGiven | extensions/anthropic/config-defaults.ts:315-321 | an hour under OAuth, half an hour with an API key, unless set |
| ConfigDefaultsEffects.PruningGiven | extensions/anthropic/config-defaults.ts:304-313 | pruning by cache lifetime, an hour unless a time is set |
| ConfigDefaultsEffects.RetentionGiven | extensions/anthropic/config-defaults.ts:323-383 | every listed target has retention, and the default model is listed with any |
| ConfigDefaultsEffects.TargetsAre | extensions/anthropic/config-defaults.ts:95-127 | targets are Anthropic models and Anthropic's on Amazon Bedrock |
| ConfigDefaultsEffects.RuntimesGiven | extensions/anthropic/config-defaults.ts:385-408 | every reference the configuration stands for, and the four default ones, are listed with a runtime |
| ConfigDefaultsEffects.ConfigNames | extensions/anthropic/config-defaults.ts:204-262 | the configuration names what defaults and agents choose and list |
| ConfigDefaultsLoops.ApplyDefaults | extensions/anthropic/config-defaults.ts:287-421 | the method computes the defaults, and its flag is set exactly when something changed |
| ConfigDefaultsLoops.GiveDefaults | extensions/anthropic/config-defaults.ts:323-383 | the three steps on the models and their flag |
| ConfigDefaultsLoops.AddCliRuntime | extensions/anthropic/config-defaults.ts:389-408 | the loop over runtime references and its flag |
| ConfigDefaultsLoops.CollectFromConfig | extensions/anthropic/config-defaults.ts:204-262 | the collectors gather every reference once, in order |

## Left out

- GatewayOutages.OutageSafety: safety only. A second prompt on a session overwrites the pending entry and a prompt is removed by session id alone, so no claim is made that every prompt settles.
- ToolNames.ServerNamesAreDistinct: the 30-character bound, like the 64-character one, is stated for fewer than 10^28 names; beyond that a suffix outgrows the limit, and no JavaScript set is that large.
- ToolNames.ToolNameIsGood: case folding, here and in model references, is modelled on ASCII, which is all a sanitized name contains.
- SessionListing.FetchPage: the gateway is taken to return the first rows of one fixed list; a list that changes between fetches is not modelled, nor is the mapping of rows to session information.
- SpawnRelay.SnippetFacts: a snippet shows at most 220 characters of its buffer; what it leaves out of a longer one is not modelled as lost.
- VoiceBridgeDelivery.ArgumentsAreOwnDeltas: the arguments are told for item ids other than the empty one, which is never buffered, and "unknown", which the bridge puts for a missing one; parsing the arguments as JSON is not modelled.
- LspSession.SettleOnce: an exception from the server's input stream inside `sendRequest`, and server requests that reuse a pending id, are not modelled.
- Text is a sequence of Unicode scalar values: a character above U+FFFF counts once in every length and limit, where JavaScript counts two code units, and lone surrogates are not modelled.
- Aliasing of records. Session records, pending prompts, approval relays and tool buffers are values stored in maps; a holder of the source's object would see later updates, one of the value does not.
- JSON text, UTF-8 decoding of JSON, base64url and file-URL decoding are parameters with stated laws; object keys that look like integers, which JavaScript moves to the front, and prototype keys are not modelled.
- Numbers are unbounded integers: fractions, NaN and lengths above 2^53 are not modelled. A timestamp of zero, which the relay reads as "not seen", is not modelled.
- Network, sockets, child processes, file locks, log files and heartbeats; reconnect scheduling and its back-off.
- The rest of the gateway agent: session creation and loading, configuration options, usage and transcript replay.
- How the auth section and the environment select the auth mode: its result is a parameter of the defaults, which change neither.
- Approval classification, prompt provenance, tool titles and other flat formatting, which would only add easy members.
- A relay started with a blank run or parent id, which does nothing.

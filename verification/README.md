# Verified model of lightfriend's stateful core

Lightfriend is a text-and-voice assistant backend. Most of it is glue around services; this project models the
seven parts that decide something hard on their own and proves what they promise over every input and every run.

- **Offline state-history pruner** (`StateDiffCodec`, `StateChain`, `PruneStore`, `PruneScan`, `PruneRepair`,
  `AuthClosure`, `PayloadView`, `PruneLoad`, `PrunePlan`, `Prune`, `PruneClash`). A Tuwunel database holds room states as parent-linked diffs.
  A prune run audits all state events, drops references to events without a payload in one atomic write, protects
  what retained state and its authorisation chains need, and deletes older payloads in a second atomic write. Column
  families are maps and each write batch is one step of `Database.Write`; the main theorem is the contract of
  `Prune.RunPrune`.
- **Event-stream assembler** (`Text`, `ToolCalls`, `Sse`). The `data:` lines of a chat stream (section 9.2.6 of the
  WHATWG HTML Living Standard) are folded into a response twice: over the whole text, and incrementally over arriving
  pieces. `Sse.ReadIncrementally` states that the second refines the first.
- **Provider failover** (`Breaker`, `Fallback`). A timed circuit breaker in front of Tinfoil and the ordered fallback
  to NEAR.
- **Agent loop** (`AgentLoop`). At most five rounds of tool calls over a message log, composed with the provider
  failover; between rounds other requests may do anything to the shared breaker, within one chat call nothing.
- **Voice pipeline** (`Vad`, `Wav`, `Realtime`). Voice activity detection over timed frames, WAV writing and header
  stripping, and the translation of realtime model events into caller frames.
- **Deduplicated wake-up** (`WakeUp`). Requests interleave step by step over a shared map and broadcast channels.
- **Channel router** (`Router`) and **analytics consent** (`Consent`).

`Common` and `MapSum` hold byte encodings, saturation and finite sums. Code that mutates state is modelled by classes
and methods with loops, each proved against a function or predicate; the lemmas then say what those mean.

Where the code does not do what is claimed for it, the code is kept and the exact condition is proved:
the survivors of a prune run keep their timeline index row if and only if no deleted event shares their room,
timestamp and PDU count (`Prune.SurvivorStaysLinked`, `PruneClash.RunOnClash`); a WAV file round-trips if and
only if its size field does not spell `data` (`Wav.WavRoundTrip`, `Wav.MarkerLenOccurs`); and wakes of one vehicle
never overlap if and only if every insert waits for the earlier wakes of the vehicle to return, whereas the comment at
`backend/src/api/tesla.rs:759` says that parallel wakes are prevented (`WakeUp.NoOverlapExactly`,
`WakeUp.ParallelWakesPossible`).

## Model

| member | source | states |
|---|---|---|
| `Prune.RunPrune` | backend/src/bin/tuwunel_prune_history.rs:146-257 | the whole run: each of its at most two atomic commits leaves every room's current state rebuildable with every payload present, every diff and every state equal to what it was minus dangling entries, and every event that the diffs protect, before or after, with the payload it had; success removes from the PDU store, the event map, the outliers, the originals and the timeline index exactly the rows of the unprotected events older than the cutoff (none if a protected payload was already missing), says which links between these families survive, and changes nothing else; read off the JSON of the payloads: whatever a payload of a needed event names as authorisation is needed too and keeps the payload it had, and exactly the events are lost that are not needed and older than the retention; failure deletes nothing; an incomplete or cyclic current ancestry stops the run before any write; success if and only if the store is `Prunable`; every reported figure counts what it names |
| `Prune.CommitKeepsAuthorisation` | backend/src/bin/tuwunel_prune_history.rs:167-198 | at every commit each event that the diffs, old or new, need for authorisation keeps its payload, as do the events their payloads name |
| `Prune.RunAgesOut` | backend/src/bin/tuwunel_prune_history.rs:167-198 | in terms of the payloads' own JSON, exactly the events are lost that are not needed and older than the retention, or none if a needed one lacked its payload; every payload of a lost event was older |
| `Prune.CutoffMeaning` | backend/src/bin/tuwunel_prune_history.rs:151-153 | a timestamp lies before the cutoff exactly when it is older than the retention at the start of the run |
| `Prune.RetainedMeaning` | backend/src/bin/tuwunel_prune_history.rs:474-498 | an event is retained exactly when some stored diff adds or removes a reference to it |
| `PayloadView.NeededIsProtected` | backend/src/utils/tuwunel_history_prune.rs:154-175 | what the pruner protects is what the authorisation events named in the stored JSON demand |
| `PayloadView.MetadataFor` | backend/src/utils/tuwunel_history_prune.rs:86-140 | whatever a stored payload says about an event (room, timestamp, authorisation events) the pruner reads |
| `PayloadView.PayloadFor` | backend/src/utils/tuwunel_history_prune.rs:86-140 | whatever the pruner reads about an event, a stored payload says |
| `PayloadView.HeldIsPayload` | backend/src/utils/tuwunel_history_prune.rs:86-140 | the pruner sees a payload exactly where a non-empty state event is stored |
| `Prune.RowsAfterDeletion` | backend/src/bin/tuwunel_prune_history.rs:193-198 | the deletion commit removes exactly the rows of the deletable events from each column family, in terms of the store the run started with |
| `Prune.LinksOfRows` | backend/src/bin/tuwunel_prune_history.rs:685-712 | a link from event to PDU to index survives exactly when none of its three rows belongs to a deletable event |
| `Prune.SurvivorStaysLinked` | backend/src/bin/tuwunel_prune_history.rs:685-712 | any surviving timeline event, a state event or not, stays linked if and only if no deletable event of its room has its timestamp and PDU count |
| `Prune.SlotOfIndexKey` | backend/src/utils/tuwunel_history_prune.rs:194-203 | an index row is doomed exactly when a deletable event has its room, timestamp and count |
| `PruneClash.RunOnClash` | backend/src/bin/tuwunel_prune_history.rs:146-257 | a run on a concrete store succeeds and leaves a retained event of a current room state with its payload but without its index row |
| `PruneClash.IndexSlotClash` | backend/src/bin/tuwunel_prune_history.rs:685-712 | that store is prunable, only one of its two events is deletable, and every store pruned from it lacks the other one's index row |
| `Prune.InitialProtection` | backend/src/bin/tuwunel_prune_history.rs:165-170 | what the diffs protected before the repair keeps its payload too |
| `Prune.ProtectedByLive` | backend/src/bin/tuwunel_prune_history.rs:165-170 | events with a payload are protected by all referenced events only if they are by those that have a payload |
| `Prune.RepairKeepsDiffs` | backend/src/bin/tuwunel_prune_history.rs:161 | the repair commit leaves exactly the repaired diffs, byte for byte where nothing dangled |
| `Prune.PlanDeletion` | backend/src/bin/tuwunel_prune_history.rs:163-195 | the second half: succeeds exactly when ancestries are complete, diffs parse, referenced ids name events and every historical event is linked; the candidates are exactly the historical events, each once, and none if a protected payload is missing |
| `Prune.ScanStateEvents` | backend/src/bin/tuwunel_prune_history.rs:158-160 | both scans together succeed exactly on a `Scannable` store, and then the audit map is faithful and complete |
| `Prune.IntactAfterRepair` | backend/src/bin/tuwunel_prune_history.rs:161 | after the repair commit every current state can be rebuilt and every event in it has a payload |
| `Prune.RepairKeepsLiveState` | backend/src/bin/tuwunel_prune_history.rs:161 | the repair commit turns every state into that state without its dangling entries, and nothing else |
| `Prune.IntactAfterDeletion` | backend/src/bin/tuwunel_prune_history.rs:193-198 | deleting events that no diff refers to keeps every current state intact |
| `Prune.DeletionOutcome` | backend/src/bin/tuwunel_prune_history.rs:172-198 | after the deletion commit exactly the historical payloads are gone, protected ones are kept, and nothing changes if a protected payload was missing |
| `Prune.ClosureIsProtected` | backend/src/bin/tuwunel_prune_history.rs:167-170 | the computed closure is exactly the set that every authorisation-closed set over the stored payloads contains |
| `Prune.CandidateIsHistorical` | backend/src/bin/tuwunel_prune_history.rs:172-184 | a record passes the candidate filter exactly when its event is unprotected and a stored payload is older than the cutoff |
| `Prune.AfterRepair` | backend/src/bin/tuwunel_prune_history.rs:157-162 | what the repaired store offers the deletion phase: same payloads, same audit, ancestries complete exactly where they were, a safe commit |
| `Prune.AfterDeletion` | backend/src/bin/tuwunel_prune_history.rs:193-198 | the deletion commit is safe and exact, judged from the store the run started with |
| `Prune.RetainedAfterRepair` | backend/src/bin/tuwunel_prune_history.rs:165-166 | the events retained after the repair are exactly the referenced events that have a payload |
| `Prune.PlanAcceptableAfterRepair` | backend/src/bin/tuwunel_prune_history.rs:193 | the plan is acceptable exactly when every deletable timeline event is linked in the original store |
| `Prune.PlanIsTrue` | backend/src/bin/tuwunel_prune_history.rs:246-250 | the plan's counts and byte estimate equal what disappeared between the first and the last store, up to saturation |
| `Prune.StatusIsTrue` | backend/src/bin/tuwunel_prune_history.rs:225-257 | rooms, scanned payloads, kept, missing, repaired and deleted events of the report are the cardinalities of the sets they name |
| `PruneRepair.RepairDanglingStateReferences` | backend/src/bin/tuwunel_prune_history.rs:268-354 | succeeds if and only if all diffs parse, all their ids resolve and, when something dangles, every current ancestry is complete; the still-missing-payload error is unreachable; failure leaves the store untouched; the three counters are exact up to saturation |
| `PruneRepair.RepairedStateResolves` | backend/src/bin/tuwunel_prune_history.rs:356-392 | every state rebuilt from repaired diffs resolves to recorded events, so verification can fail only on the ancestry |
| `PruneRepair.ReconstructedReferenced` | backend/src/bin/tuwunel_prune_history.rs:378-389 | every entry of a rebuilt state was added by some stored diff |
| `PruneRepair.VerifyCurrentState` | backend/src/bin/tuwunel_prune_history.rs:356-392 | accepts exactly when every current hash has a complete ancestry whose state resolves; an entry-level error names a state that does not resolve |
| `PruneRepair.CheckState` | backend/src/bin/tuwunel_prune_history.rs:378-389 | accepts a state exactly when each of its short ids resolves to a recorded event |
| `PruneRepair.LoadStateDiffs` | backend/src/bin/tuwunel_prune_history.rs:278-287 | succeeds exactly when every stored diff parses; yields all diffs and exactly the ids they refer to |
| `PruneRepair.FindDangling` | backend/src/bin/tuwunel_prune_history.rs:289-300 | succeeds exactly when all ids resolve; yields exactly the ids of events without a record |
| `PruneRepair.RepairOne` | backend/src/bin/tuwunel_prune_history.rs:313-333 | one diff of the repair: dropped references are counted, and a put that reads back as the repaired diff is made exactly when something was dropped |
| `PruneRepair.BuildRepair` | backend/src/bin/tuwunel_prune_history.rs:306-333 | the repaired diffs are the old ones without dangling entries; the batch rewrites exactly the changed ones; the counters are conserved |
| `PruneRepair.RepairWritten` | backend/src/bin/tuwunel_prune_history.rs:342-345 | the store after the batch decodes to the repaired diffs, and diffs without dangling ids keep their bytes |
| `PruneRepair.PutsAreChanges` | backend/src/bin/tuwunel_prune_history.rs:321-331 | the number of puts is the number of hashes whose diff changed |
| `StateChain.RepairCommutes` | backend/src/bin/tuwunel_prune_history.rs:289-341 | repair commutes with reconstruction: a hash is reconstructible after exactly when it was before, and its state is the old one minus dangling entries |
| `StateChain.RepairCommutesAlong` | backend/src/bin/tuwunel_prune_history.rs:313-333 | the same along any chain of stored diffs |
| `StateChain.WalkAncestry` | backend/src/bin/tuwunel_prune_history.rs:363-377 | terminates on every map, cyclic ones included; returns the root-first chain exactly when the ancestry is complete; otherwise names the repeated or missing hash it reached |
| `StateChain.AncestryUnique` | backend/src/bin/tuwunel_prune_history.rs:363-377 | every climb from a hash is a prefix of its one complete ancestry |
| `StateChain.CycleHasNoEnd` | backend/src/bin/tuwunel_prune_history.rs:367-370 | a climb that meets a hash twice belongs to no complete ancestry |
| `StateChain.MissingHasNoEnd` | backend/src/bin/tuwunel_prune_history.rs:371-373 | a climb that reaches an unstored hash belongs to no complete ancestry |
| `StateChain.ReconstructsUnique` | backend/src/bin/tuwunel_prune_history.rs:450-469 | the state at a hash is unique |
| `StateChain.ApplyStateDiffChain` | backend/src/utils/tuwunel_history_prune.rs:65-76 | computes the state of a root-first chain |
| `StateChain.ApplyChainMeaning` | backend/src/utils/tuwunel_history_prune.rs:65-76 | an entry is present exactly when some diff adds it and neither that diff nor a later one removes it |
| `StateChain.RetainKeepsOrder` | backend/src/bin/tuwunel_prune_history.rs:315-318 | the kept entries are, in order, those at the live positions |
| `StateChain.LivePositionsExact` | backend/src/bin/tuwunel_prune_history.rs:315-318 | the live positions are increasing and are exactly those whose id is not dangling |
| `StateDiffCodec.SerializeStateDiff` | backend/src/bin/tuwunel_prune_history.rs:394-409 | writes the layout, of exactly the length reserved for it |
| `StateDiffCodec.LayoutOffsets` | backend/src/bin/tuwunel_prune_history.rs:394-409 | where the big-endian parent, every added and removed entry and the separator stand in a stored value |
| `StateDiffCodec.ExtendWithEntries` | backend/src/bin/tuwunel_prune_history.rs:400-407 | appends all entries, in order |
| `StateDiffCodec.ReadStateDiff` | backend/src/utils/tuwunel_history_prune.rs:22-63 | the offset loop computes the recursive parse, with its three errors |
| `StateDiffCodec.LayoutParses` | backend/src/utils/tuwunel_history_prune.rs:22-63 | every storable diff is read back from its layout, with or without an idle separator |
| `StateDiffCodec.ParsedLayout` | backend/src/utils/tuwunel_history_prune.rs:22-63 | only layouts of storable diffs are accepted |
| `StateDiffCodec.SerializeParseRoundTrip` | backend/src/bin/tuwunel_prune_history.rs:394-409 | reading what was written gives the diff back if and only if no entry starts with eight zero bytes and the parent is not `Some(0)` |
| `StateDiffCodec.ParseSerializeRoundTrip` | backend/src/bin/tuwunel_prune_history.rs:394-409 | rewriting a stored value keeps its bytes if and only if it does not end in a separator with nothing after it |
| `AuthClosure.ProtectedAuthClosure` | backend/src/utils/tuwunel_history_prune.rs:154-175 | the result contains the seeds, is closed under authorisation events, is contained in every such set, and `missing` is exactly its part without a record |
| `AuthClosure.ClosedSame` | backend/src/bin/tuwunel_prune_history.rs:604-611 | closure over the audit map is closure over the stored payloads |
| `PruneStore.Database.Write` | backend/src/bin/tuwunel_prune_history.rs:194-198 | one atomic commit applies all puts and deletes of the batch and is recorded |
| `PruneStore.PduCount` | backend/src/utils/tuwunel_history_prune.rs:185-192 | defined exactly for keys of 16 or 24 bytes; the eight bytes that end the key |
| `PruneStore.TimelineIndexKeyInjective` | backend/src/utils/tuwunel_history_prune.rs:194-203 | the index key determines room, timestamp and count |
| `PruneStore.TimelineIndexKeyOrder` | backend/src/utils/tuwunel_history_prune.rs:194-203 | within a room, index keys sort by timestamp and then by signed count |
| `PruneScan.ScanTimelineStateEvents` | backend/src/bin/tuwunel_prune_history.rs:519-557 | succeeds exactly when every payload is acceptable and no state event occurs twice; then every timeline state event is recorded where it is |
| `PruneScan.RecordPdu` | backend/src/bin/tuwunel_prune_history.rs:524-554 | one payload: recorded faithfully, or an error that shows the timeline is not scannable |
| `PruneScan.ScanOutlierStateEvents` | backend/src/bin/tuwunel_prune_history.rs:559-602 | succeeds exactly when every outlier parses, carries its own id and agrees with its timeline twin; then the audit map misses no stored state event |
| `PruneScan.MergeOutlier` | backend/src/bin/tuwunel_prune_history.rs:566-599 | one outlier: merged exactly when acceptable, never losing a timeline location |
| `PruneScan.AuditedHasPayload` | backend/src/bin/tuwunel_prune_history.rs:519-602 | an event is in the audit map exactly when a payload of it is stored |
| `PruneScan.AuditedAuthEvents` | backend/src/bin/tuwunel_prune_history.rs:579-587 | every stored payload of an event has the timestamp and authorisation events of its record |
| `PruneLoad.LoadCurrentStateHashes` | backend/src/bin/tuwunel_prune_history.rs:429-441 | succeeds exactly when all room hashes have eight bytes; yields exactly the current hashes |
| `PruneLoad.WalkStoredAncestry` | backend/src/bin/tuwunel_prune_history.rs:450-467 | the same walk over undecoded diffs: succeeds exactly on a complete ancestry, with its chain |
| `PruneLoad.LoadCurrentShortEventIds` | backend/src/bin/tuwunel_prune_history.rs:443-472 | succeeds exactly when every current ancestry is complete; yields exactly the ids of the rebuilt current states |
| `PruneLoad.LoadStateEventIds` | backend/src/bin/tuwunel_prune_history.rs:500-517 | succeeds exactly when every id resolves to a name starting with `$`; yields exactly those events |
| `PruneLoad.SelectCandidates` | backend/src/bin/tuwunel_prune_history.rs:172-184 | lists exactly the historical records, each once |
| `PrunePlan.VerifyDeletionPlan` | backend/src/bin/tuwunel_prune_history.rs:621-683 | accepts exactly the plans whose every candidate is recorded and, where stored, linked from event to PDU to index; the counters are the saturated sums |
| `PrunePlan.PlanCandidate` | backend/src/bin/tuwunel_prune_history.rs:632-680 | one candidate is accepted exactly when acceptable, and adds its share to the counters |
| `PrunePlan.ApplyDeletionPlan` | backend/src/bin/tuwunel_prune_history.rs:685-712 | builds the deletion batch, failing exactly on an unrecorded candidate |
| `PrunePlan.BatchById` | backend/src/bin/tuwunel_prune_history.rs:697-710 | which event-keyed rows the batch deletes |
| `PrunePlan.BatchByKey` | backend/src/bin/tuwunel_prune_history.rs:701-705 | which PDU and index rows the batch deletes |
| `PrunePlan.PduRowsDeleted` | backend/src/bin/tuwunel_prune_history.rs:702 | a PDU row is deleted exactly when a candidate is stored there |
| `PrunePlan.IndexRowsDeleted` | backend/src/bin/tuwunel_prune_history.rs:704 | an index row is deleted exactly when it is the row of a stored candidate |
| `PrunePlan.IdRowsDeleted` | backend/src/bin/tuwunel_prune_history.rs:703-709 | the event mapping, outlier and original rows that are deleted, read off the store |
| `PrunePlan.PlanAccountsForDeletion` | backend/src/bin/tuwunel_prune_history.rs:621-712 | conservation: stored payload counts and bytes before equal those after plus what the plan counts |
| `PrunePlan.PayloadsAfterDeletion` | backend/src/bin/tuwunel_prune_history.rs:685-712 | after the batch an event has a payload exactly when it had one and is not a candidate |
| `PrunePlan.DeletedIsUnlinked` | backend/src/bin/tuwunel_prune_history.rs:701-705 | a deleted timeline event leaves no row in the event map, the PDU store or the index |
| `Sse.ReadIncrementally` | backend/src/ai_config.rs:1036-1280 | for every split of the text into pieces the incremental reader returns what the whole-text assembly returns on the text cut at its last newline, with the content, role, finish reason, usage, id, model and calls that its events give; an earlier error event wins over a later read error; the reasoning collected is that of all complete lines |
| `Sse.AssembleSseResponse` | backend/src/ai_config.rs:746-920 | the whole-text reader computes the fold over the lines of the text, stopping at the first error event, and its outcome is the one the events of the stream call for |
| `Sse.OutcomeExplained` | backend/src/ai_config.rs:746-920 | an error exactly if an event reports one, no data exactly without events; otherwise the content is the cleaned concatenation of all content deltas in stream order, role, finish reason and each usage figure are as last given, id and model the first non-empty ones or the default |
| `Sse.StreamCarried` | backend/src/ai_config.rs:762-852 | the fold carries exactly that at every prefix of the stream |
| `Sse.ErrorNamed` | backend/src/ai_config.rs:788-791 | a failed assembly reports the data of the first error event |
| `Sse.CleanContentMeaning` | backend/src/ai_config.rs:860-868 | the kept content has no surrounding blanks and no marker, and nothing is kept only if all before the marker is blank |
| `Sse.StreamReadBack` | backend/src/ai_config.rs:762-772 | whatever a server writes, one data line per event, is read back as exactly those events in order |
| `Sse.LastSomeMeaning` | backend/src/ai_config.rs:776-786 | as last given: the last value present, or none if none is |
| `Sse.DrainBuffer` | backend/src/ai_config.rs:1063-1170 | consumes exactly the complete lines of the buffer, or stops at an error event |
| `Sse.ProcessLine` | backend/src/ai_config.rs:1064-1169 | one raw line has the effect of the same line without its carriage return |
| `Sse.ConsumeLine` | backend/src/ai_config.rs:1064-1066 | moving one line out of the buffer keeps received text, response and reasoning in step |
| `Sse.FailedEarly` | backend/src/ai_config.rs:1182-1184 | a failure among the lines read so far is the failure of all complete lines, whatever still arrives |
| `Sse.AbsorbEventLoop` | backend/src/ai_config.rs:772-852 | one event: usage, error, first id and model, then its choices |
| `Sse.AbsorbChoicesLoop` | backend/src/ai_config.rs:809-852 | the choices of an event, in order |
| `Sse.LinesConcat` | backend/src/ai_config.rs:762 | lines of text cut after a newline are the lines of both parts |
| `Sse.CompletePart` | backend/src/ai_config.rs:1063-1066 | the part is terminated text and nothing after it contains a newline |
| `Sse.CompletePartOf` | backend/src/ai_config.rs:1063-1066 | consumed lines followed by a buffer without newline have the consumed lines as complete part |
| `Sse.ReasoningIrrelevant` | backend/src/ai_config.rs:1122-1129 | streams that differ only in reasoning deltas assemble to the same outcome |
| `Sse.StreamCalls` | backend/src/ai_config.rs:817-847 | the calls of a whole stream are the fold of all its tool-call deltas |
| `Sse.SameCallsPerIndex` | backend/src/ai_config.rs:817-897 | two streams with the same deltas per index yield the same tool calls in their responses |
| `ToolCalls.FoldIsSummary` | backend/src/ai_config.rs:817-847 | a call exists exactly for an index some delta names; first non-empty id and name, last type, all arguments joined |
| `ToolCalls.InterleavingIrrelevant` | backend/src/ai_config.rs:817-897 | however indices interleave, the assembled calls are the same and are listed by strictly increasing index |
| `ToolCalls.Ascending` | backend/src/ai_config.rs:879-897 | the key order is strictly increasing and complete |
| `ToolCalls.AbsorbDeltas` | backend/src/ai_config.rs:817-847 | the loop over one delta array computes the fold |
| `ToolCalls.MergeEntry` | backend/src/ai_config.rs:820-845 | the field updates for one delta |
| `Text.TrimIgnoresTrailing` | backend/src/ai_config.rs:1065 | trailing blanks, such as a carriage return, do not change a trimmed line |
| `Text.TrimMeaning` | backend/src/ai_config.rs:1065 | trimming cuts blanks off both ends and nothing else |
| `Text.Find` | backend/src/ai_config.rs:862-864 | the first occurrence of a pattern, or that there is none |
| `Breaker.BreakerInvariant` | backend/src/ai_config.rs:253-298 | in every reachable state the counter is the saturated length of the current failure run, and the deadline is set exactly when that run is non-empty and has reached the threshold, to its last failure plus the cooldown |
| `Breaker.DeadlineExactlyAtThreshold` | backend/src/ai_config.rs:282-298 | the deadline is set exactly when the counter has reached the threshold, in every reachable state, if and only if the threshold is positive |
| `Breaker.OpenMeansRecentRun` | backend/src/ai_config.rs:253-270 | open exactly within one cooldown of the last failure of a threshold-long run |
| `Breaker.RunIsSuffix` | backend/src/ai_config.rs:272-298 | a run is the list of all failures in a success-free suffix of the history |
| `Breaker.CircuitBreaker.constructor` | backend/src/ai_config.rs:61-72 | a new breaker is closed and has no history |
| `Breaker.CircuitBreaker.IsTinfoilCircuitOpen` | backend/src/ai_config.rs:253-270 | answers whether the deadline lies ahead, and records the query, which resets an expired breaker |
| `Breaker.CircuitBreaker.RecordSuccess` | backend/src/ai_config.rs:272-280 | the state follows the history extended by a success |
| `Breaker.CircuitBreaker.RecordFailure` | backend/src/ai_config.rs:282-298 | the state follows the history extended by a timed failure |
| `Fallback.Gateway.ProviderAttempts` | backend/src/ai_config.rs:300-331 | the ordered provider list for every option and breaker state; the breaker is consulted only in fallback mode with NEAR configured |
| `Fallback.Gateway.Chat` | backend/src/ai_config.rs:377-487 | a prefix of the list is tried; success is the answer of the last tried after all others failed, `fallback_from` is set exactly when NEAR answered after Tinfoil failed; failure means all were tried and carries the last error; the breaker history grows by exactly what happened |
| `Fallback.EveryErrorEligible` | backend/src/ai_config.rs:333-374 | no error is ineligible for fallback |
| `Fallback.TinfoilSkippedOnlyAfterRun` | backend/src/ai_config.rs:322-331 | with default options Tinfoil is skipped exactly when NEAR is configured and a threshold-long run ended less than one cooldown ago |
| `AgentLoop.RunAgentLoop` | backend/src/agent_core/runner.rs:141-442 | in every request each tool-call message is followed at once by one answer per call; the n-th exchange is about exactly the calls that the n-th response asked for, and the rounds are numbered without gaps; every model call turned to the providers that its sticky provider and the breaker's history, other requests included, demand, up to the first answer; at most five rounds; the output's log, answers, created item, failure flag, text, active and sticky provider and cost are those of the exchanges and the last response; an error is a failed model call or exactly what the last response caused |
| `AgentLoop.FreshRoundAsksTinfoil` | backend/src/agent_core/runner.rs:463-472 | without a sticky provider a call asks Tinfoil first, unless NEAR is configured and the call falls within one cooldown of a threshold-long run of failures |
| `AgentLoop.FailedRoundTriedAll` | backend/src/agent_core/runner.rs:444-482 | a fresh call without a response means that NEAR failed if configured, and Tinfoil failed unless it was skipped |
| `AgentLoop.NearTakesOver` | backend/src/agent_core/runner.rs:444-493 | if Tinfoil fails and NEAR is configured and answers, the round has NEAR's response, and NEAR sticks if Tinfoil was asked |
| `AgentLoop.CallAdded` | backend/src/agent_core/runner.rs:156-180 | one more call keeps the account of turns and of the breaker's history |
| `AgentLoop.OwnAnswer` | backend/src/agent_core/runner.rs:383-413 | with distinct ids every call is answered by its own result |
| `AgentLoop.StickyForever` | backend/src/agent_core/runner.rs:156-180 | once a round starts sticky every later round is sticky on NEAR and tries nobody else, whatever the breaker does |
| `AgentLoop.ProcessCall` | backend/src/agent_core/runner.rs:242-380 | one call: answered, ends the run, or refused with the exact error, by name, arguments, scripted answer and dispatch result |
| `AgentLoop.ProcessCalls` | backend/src/agent_core/runner.rs:240-380 | the round's answers map each id to the answer of the last call that carries it, up to the first call that ends or refuses the run |
| `AgentLoop.AnswerCalls` | backend/src/agent_core/runner.rs:383-413 | one tool message per call, in call order, with matching id |
| `AgentLoop.HandleResponse` | backend/src/agent_core/runner.rs:182-380 | each finish reason leads to the outcome it should |
| `AgentLoop.CallModel` | backend/src/agent_core/runner.rs:444-493 | goes through its turns up to the first answer or fails because all did; the breaker's history grows by exactly what happened; a sticky NEAR tries at most NEAR; the provider becomes sticky exactly when NEAR answered after Tinfoil failed |
| `AgentLoop.NextResponse` | backend/src/agent_core/runner.rs:156-180 | the scripted response in round 0, otherwise one model call, keeping log, cost, sticky and active provider in step with the rounds |
| `AgentLoop.RoundAdded` | backend/src/agent_core/runner.rs:160-180 | one more model call keeps the run invariant and adds its cost |
| `AgentLoop.ExchangeAdded` | backend/src/agent_core/runner.rs:230-415 | one more exchange keeps the run invariant and extends the log by exactly one tool-call message and its answers |
| `AgentLoop.Conclude` | backend/src/agent_core/runner.rs:420-441 | the output carries everything collected, with the final text as the last response and the tool answers demand, never empty unless a tool answered with nothing |
| `AgentLoop.FinalText` | backend/src/agent_core/runner.rs:420-431 | what was said; failing that, one of the tool answers; failing that, the apology |
| `Vad.RunDivides` | backend/src/api/voice_pipeline.rs:836-898 | over every clocked frame sequence the utterances sent are the gap-free frames of consecutive disjoint segments, the buffer is the gap-free rest since the opening loud frame, and nothing is discarded |
| `Vad.FaintIsQuiet` | backend/src/api/voice_pipeline.rs:204-210 | a frame whose samples all lie within the threshold is quiet, the empty one included |
| `Vad.StrongIsLoud` | backend/src/api/voice_pipeline.rs:204-210 | a non-empty frame whose samples all lie beyond the threshold is loud |
| `Vad.LouderStaysLoud` | backend/src/api/voice_pipeline.rs:204-210 | raising the magnitude of a sample never makes a loud frame quiet |
| `Vad.LoudIsRms` | backend/src/api/voice_pipeline.rs:204-210 | loud means that the real root mean square exceeds the threshold |
| `Vad.FaintCallSendsNothing` | backend/src/api/voice_pipeline.rs:836-898 | a call whose frames all stay within the threshold sends no utterance |
| `Vad.ElapsedMeaning` | backend/src/api/voice_pipeline.rs:853-858 | elapsed milliseconds are whole milliseconds of the clock |
| `Vad.DivisionUnique` | backend/src/api/voice_pipeline.rs:836-898 | frames divide into utterances in exactly one way |
| `Vad.SpeechLongEnough` | backend/src/api/voice_pipeline.rs:204-214 | at every end of silence the speech has lasted at least the minimum, so the discard branch is unreachable |
| `Vad.CallSession.OnFrame` | backend/src/api/voice_pipeline.rs:1102-1204 | one frame updates the session as the detector step says; a phone call ignores frames only while processing, a web call (824-898) whenever it is not listening; a dispatch leaves the session listening |
| `Vad.CallSession.OnFrames` | backend/src/api/voice_pipeline.rs:824-898 | the receive loop sends and keeps exactly what the detector run says |
| `Vad.IsLoud` | backend/src/api/voice_pipeline.rs:204-210 | loud exactly when the mean square exceeds the squared threshold; an empty frame is quiet |
| `Wav.WavRoundTrip` | backend/src/api/voice_pipeline.rs:82-127 | stripping and reading pairs returns the samples if and only if the RIFF size field does not itself spell `data` |
| `Wav.RoundTrip` | backend/src/api/voice_pipeline.rs:82-127 | the same end to end, through the encoder and the stripper |
| `Wav.StripEncoded` | backend/src/api/voice_pipeline.rs:111-127 | what stripping leaves of an encoded file in either case |
| `Wav.EncodeWav` | backend/src/api/voice_pipeline.rs:82-107 | header followed by the little-endian samples, for every rate |
| `Wav.HeaderFields` | backend/src/api/voice_pipeline.rs:88-104 | every field of the header by offset: markers, RIFF size, format 1, one channel, rate, byte rate, block align 2, 16 bits, data length |
| `Wav.SampleField` | backend/src/api/voice_pipeline.rs:103-105 | each sample is written little-endian in two's complement |
| `Wav.StripWavHeader` | backend/src/api/voice_pipeline.rs:111-127 | cuts after the first marker that has data behind it, else after a standard header |
| `Wav.SamplesRoundTrip` | backend/src/api/voice_pipeline.rs:2504-2507 | little-endian pairs decode to the samples they were written from |
| `Wav.MarkerLenOccurs` | backend/src/api/voice_pipeline.rs:82-107 | a sample count whose 32-bit size field spells the marker exists |
| `Realtime.SessionBracketed` | backend/src/api/voice_pipeline.rs:1675-1765 | for every event sequence in web mode, audio chunks and `audio_end` appear only while open, `audio_start` only while closed, and the flag is true to the log |
| `Realtime.ReactBracketed` | backend/src/api/voice_pipeline.rs:1675-1765 | every single reaction keeps that |
| `Realtime.OpenMeaning` | backend/src/api/voice_pipeline.rs:1694-1737 | open means that some `audio_start` has no `audio_end` or `audio_clear` after it |
| `Realtime.OnceOnly` | backend/src/api/voice_pipeline.rs:1837-1867 | at most one greeting request and at most one failure notice per session |
| `Realtime.AudioPreserved` | backend/src/api/voice_pipeline.rs:1677-1717 | the caller receives exactly the audio the model sent, in order |
| `Realtime.SessionForwards` | backend/src/api/voice_pipeline.rs:1677-1827 | a phone session with a stream forwards every non-empty delta in order; every session answers every well-formed function call it reads under the call's own id, in order |
| `Realtime.ReactForwards` | backend/src/api/voice_pipeline.rs:1677-1827 | the same for one message |
| `Realtime.ChunksWhole` | backend/src/api/voice_pipeline.rs:1704-1710 | cutting into frames of at most 4096 bytes loses nothing |
| `Realtime.ReaderSession.OnMessage` | backend/src/api/voice_pipeline.rs:1623-1848 | one message appends exactly its reaction to what was sent and updates the session |
| `Realtime.ReaderSession.Read` | backend/src/api/voice_pipeline.rs:1612-1848 | the loop handles messages up to the one that ends it |
| `Realtime.ReaderSession.ClaimFailureNotice` | backend/src/api/voice_pipeline.rs:1850-1857 | true for the first caller only |
| `Realtime.ReaderSession.SendFailureNotice` | backend/src/api/voice_pipeline.rs:1859-1892 | sends the notice of the mode if it was not claimed before |
| `Realtime.ReaderSession.SendChunks` | backend/src/api/voice_pipeline.rs:1704-1710 | sends the bytes as chunk frames, in order |
| `WakeUp.EveryInterleavingSafe` | backend/src/api/tesla.rs:761-812 | over every interleaving a follower succeeds exactly if the wake of the leader it subscribed to, of the same vehicle, answered that the car is awake; a map entry belongs to a leader that has not removed it; each request waits and wakes at most once |
| `WakeUp.EveryAnswerTrue` | backend/src/api/tesla.rs:776-811 | read off the schedule alone: a leader returns what its own wake returned, a follower succeeds exactly if a leader for its vehicle had a wake that returned true |
| `WakeUp.LookupJoins` | backend/src/api/tesla.rs:770-776 | a request that finds the entry of a leader that has not sent yet joins it |
| `WakeUp.JoinerNeverWakes` | backend/src/api/tesla.rs:770-812 | whoever joins never wakes the car itself and is answered by that leader only, whatever happens |
| `WakeUp.StepKeeps` | backend/src/api/tesla.rs:761-812 | every atomic action keeps the invariant |
| `WakeUp.RunKeeps` | backend/src/api/tesla.rs:761-812 | so does every run |
| `WakeUp.WaiterNotStuck` | backend/src/api/tesla.rs:778-793 | a waiter whose leader has finished can go on at once |
| `WakeUp.SomebodyCanAct` | backend/src/api/tesla.rs:761-812 | while a request is unanswered, some request can act |
| `WakeUp.RunsEnd` | backend/src/api/tesla.rs:761-812 | a run takes at most seven actions per request |
| `WakeUp.MaximalRunsAnswerAll` | backend/src/api/tesla.rs:761-812 | a run that cannot go on has answered every request |
| `WakeUp.NoOverlapExactly` | backend/src/api/tesla.rs:759-801 | two requests are never inside the wake of one vehicle together if and only if, in the schedule of the run, every insert comes after the wakes of all earlier inserts for its vehicle have returned |
| `WakeUp.HastyInsertOverlaps` | backend/src/api/tesla.rs:798-801 | an insert that does not wait for an earlier wake of its vehicle to return runs beside it |
| `WakeUp.SerialKeepsApart` | backend/src/api/tesla.rs:798-801 | a schedule whose inserts all wait never has two wakes of one vehicle under way |
| `WakeUp.ScheduleReads` | backend/src/api/tesla.rs:761-812 | a request's vehicle, insert and returned wake can be read off the schedule, at every point of every run |
| `WakeUp.NoReplacementNoOverlap` | backend/src/api/tesla.rs:770-801 | if no insert of a run replaces an entry, no two wakes of one vehicle overlap |
| `WakeUp.ReplacementWithoutOverlap` | backend/src/api/tesla.rs:770-808 | the converse fails: a run in which an insert replaces an entry and no wakes overlap |
| `WakeUp.ClaimsClashExactly` | backend/src/api/tesla.rs:798-808 | claims, held from insert to removal, never clash in a run exactly when no insert of the run replaces an entry |
| `WakeUp.ParallelWakesPossible` | backend/src/api/tesla.rs:759-798 | a run in which two requests wake one vehicle at once, against the comment above the function |
| `Router.ChannelRouter.PickChannelsFor` | backend/src/channels/router.rs:235-274 | duplicate-free, registered, starts with the registered pin, pin and route by first occurrence, non-empty exactly when a channel is registered, Twilio first when nothing is wished for |
| `Router.ChannelRouter.SendToUser` | backend/src/channels/router.rs:128-220 | empty bodies are refused, development sends nothing, no channel is an error; otherwise the picked providers are tried in order |
| `Router.ChannelRouter.TryInOrder` | backend/src/channels/router.rs:156-219 | a prefix ending at the first success; every attempt but the first carries the backup prefix; total failure tries all and returns the last error |
| `Router.ChannelRouter.WishedOrder` | backend/src/channels/router.rs:245-262 | pin and route in first-occurrence order |
| `Router.ChannelRouter.Push` | backend/src/channels/router.rs:237-243 | pushing keeps registered ids once each, by first occurrence |
| `Router.ChannelRouter.DefaultOrder` | backend/src/channels/router.rs:264-271 | Twilio, else some registered channel, else nothing |
| `Router.ChannelRouter.Register` | backend/src/channels/router.rs:49-51 | adds or replaces one channel and leaves the routes alone |
| `Router.ChannelRouter.SetRoute` | backend/src/channels/router.rs:62-66 | sets the route of the upper-cased country only |
| `Router.ChannelRouter.ClearRoute` | backend/src/channels/router.rs:68-72 | removes the route of the upper-cased country only |
| `Router.PushKeepsOrder` | backend/src/channels/router.rs:237-243 | the order argument behind the push |
| `Router.RegisteredMembers` | backend/src/channels/router.rs:245-262 | wished ids are exactly the canonical registered ones, and a registered pin is first |
| `Router.ClampSmsBody` | backend/src/utils/sms_sanitizer.rs:71-81 | short bodies unchanged; long ones become a prefix of the body plus the notice, exactly at the limit |
| `Consent.EveryRunRespectsConsent` | frontend/assets/analytics-consent.js:58-282 | over every sequence of page loads, choices and track calls, from any stored state: events are emitted only under stored granted consent, each once-key at most once, and nothing queued before a denial is emitted after it |
| `Consent.ActKeeps` | frontend/assets/analytics-consent.js:58-356 | every entry point keeps that |
| `Consent.CompletedStaysSilent` | frontend/assets/analytics-consent.js:162-193 | a key completed before the run is never emitted in it |
| `Consent.RenormalizeUnchanged` | frontend/assets/analytics-consent.js:74-89 | normalising a normalised goal again, as the flush does, changes nothing |
| `Consent.GrantDeliversQueue` | frontend/assets/analytics-consent.js:259-282 | granting consent emits every queued goal as it was queued if it has no key, or if its key is not completed and no earlier queued goal carries it; the key is completed in any case, and the queue is empty afterwards |
| `Consent.UndecidedGoalIsQueued` | frontend/assets/analytics-consent.js:147-160 | a valid goal tracked before any choice becomes the last queued one, as given, and is not emitted |
| `Consent.UndecidedGoalIsDelivered` | frontend/assets/analytics-consent.js:147-160 | and a grant that follows emits it |
| `Consent.UndecidedOnceIsDelivered` | frontend/assets/analytics-consent.js:162-180 | the same for a goal under a key that is neither completed nor queued |
| `Consent.UndecidedPaymentIsDelivered` | frontend/assets/analytics-consent.js:58-72 | a payment before any choice is kept and emitted by a grant that follows |
| `Consent.ValidGoalAccepted` | frontend/assets/analytics-consent.js:74-89 | a goal is accepted exactly if its name is valid, with each valid property among its first ten, cut to 200 characters |
| `Consent.NormalizedWithinLimits` | frontend/assets/analytics-consent.js:74-89 | an accepted goal is within all limits and its values are prefixes of the given ones |
| `Consent.OnceKeyDistinguishes` | frontend/assets/analytics-consent.js:162-168 | two uses of one goal share a once-key exactly if their trimmed keys are the same |
| `Consent.FlushDelivers` | frontend/assets/analytics-consent.js:182-193 | the flush does the same for each valid entry of any queue |
| `Consent.NewKeyStaysNew` | frontend/assets/analytics-consent.js:182-193 | a key that no valid entry carries is not completed by the flush |
| `Consent.AnalyticsTab.Emit` | frontend/assets/analytics-consent.js:139-145 | one emission under the current consent, marking its key |
| `Consent.AnalyticsTab.Enqueue` | frontend/assets/analytics-consent.js:128-137 | appended unless its key is queued, keeping the last 50 |
| `Consent.AnalyticsTab.Track` | frontend/assets/analytics-consent.js:147-160 | emitted, queued or dropped by consent; true exactly when emitted |
| `Consent.AnalyticsTab.TrackOnce` | frontend/assets/analytics-consent.js:162-180 | the same once per key; true exactly when the goal is valid and its key is completed |
| `Consent.AnalyticsTab.Flush` | frontend/assets/analytics-consent.js:182-193 | the queue is emptied, then its goals emitted in order |
| `Consent.AnalyticsTab.TrackPay` | frontend/assets/analytics-consent.js:58-72 | emitted under consent, remembered while undecided, forgotten when denied |
| `Consent.AnalyticsTab.ChooseAnalytics` | frontend/assets/analytics-consent.js:259-282 | grant: payment, then queue; denial: everything pending is dropped |
| `Consent.AnalyticsTab.Perform` | frontend/assets/analytics-consent.js:343-356 | each browser event has the effect the run model says |

## Left out

- RocksDB, JSON, HTTP, WebSocket and base64 behaviour: payloads, events, replies and decoded audio carry what the
  getters find, the JSON parser is a parameter, and read or write errors of the database do not occur.
- Database keys and names: state-diff keys and short ids are typed numbers and event names are strings, so the errors
  for keys of the wrong length and for names that are not UTF-8 are not modelled.
- The pruner's environment: opening the database, compaction, free-space and directory-size figures, timestamps and the
  status file.
- Characters split between two stream pieces: the incremental reader decodes each piece on its own, so the theorem is
  about text that is cut between characters.
- After the fold of a stream: conversion of the assembled value into the response type the agent loop reads,
  retries with back-off, the throttled reasoning previews and the wording of errors around the assembled outcome.
- A poisoned breaker lock, model names, usage logging and pricing.
- Agent loop: history rows, status messages and the insides of tools; `tool_answers.values().last()` depends on hash
  order and is some tool answer; the error of a failed model call does not repeat the provider's
  text. Tinfoil is tried in fallback mode even without a key, as in the code.
- Vad.IsLoud: compares the mean square with the squared threshold over integers, so rounding of 32-bit floats is not
  modelled; transcription and speech synthesis after a dispatch are left out, as is the time they take.
- WAV files: sizes and the byte rate wrap at 32 bits as in a release build; the round trip is for the rates 8000, 16000
  and 24000 that the pipeline uses.
- Resampling and the mu-law codec: the former is floating point, the latter has no round trip to prove.
- Realtime.ReaderSession.SendFailureNotice: the spoken notice of a phone call is one frame whose synthesis cannot fail.
- Realtime function calls are handled on two kinds of events, so that each runs only once is not claimed; billing and
  session start are left out.
- Wake-up: the polling loop is an arbitrary result and requests are never cancelled half-way.
- Router: replies and notifications by channel are left out; the country lookup, the URL filter and upper-casing are
  parameters.
- Consent: one tab with working storage; the banner, cookies, link listeners and other tabs are left out; a JavaScript
  object is a list of properties in order, without duplicate names, and values are cut by characters where JavaScript
  counts 16-bit units. Goal names may contain `:`, so two different goals can share one once-key, as in the code.
- History conversion, availability caching, handlers, schema, migration tools, the Yew frontend and the blog: they would
  only add easy members.

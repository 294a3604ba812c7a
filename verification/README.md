# HALEngine, verified

A Dafny model of the protocols inside HALEngine, a streaming chat backend, with proofs about every
chunk sequence, every interleaving and every run. Each part is modelled twice where the original
changes state: as functions over values, about which the theorems are proved, and as a class or a
method with loops that is proved to compute those functions in place.

`dafny verify dfyconfig.toml` checks the whole project.

## What is modelled

**The streaming turn** (`ThinkingTags`, `ParserRefinements`, `SessionEntries`, `EntryHistory`, `Frames`,
`StreamingTurn`, `TurnInvariant`, `TurnSteps`, `TurnTheorems`, `TurnMishaps`, `TurnSuppression`, `TurnText`,
`TurnVoices`, `TurnResumes`, `TurnPolicies`, `TurnQuestions`, `TurnBounds`, `TurnBirths`, `TurnHandlers`). Provider chunks become entry writes and wire frames; a client folds the frames, and
one that resumes folds a replay of the entries. `TurnInvariant` ties stored entry, live view and frame
history at every index; the theorems read it at the end of a turn that stopped, was cut off, threw or
was abandoned.

**Masking** (`PromptMasks`, `MaskRestorations`, `MaskExactness`, `MaskArguments`): a stream is detokenised with a bounded tail held back,
and the tail is restored again with what follows. **Rate limiting** (`RateLimits`): a token bucket in exact
arithmetic. **The Mongo store** (`MongoCache`, `MongoRaces`, `MongoErasures`, `MongoSessionStores`): a
cache in front of a collection as a step system, with a delete's effect apart from its return, and the
paged sweep. **Context and tools** (`ContextWindow`, `ToolLoop`, `ToolRounds`): the messages a provider is sent, and
the bounded loop that grows them. **Turn order** (`SessionLocks`, `LockOrder`, `TurnOrder`, `TurnEnds`, `TurnProgress`):
promises queued behind each key's newest tail, and the frames of all turns on top of them. **Socket lending**
(`SocketLending`, `SocketVisits`, `SocketCredentials`, `ConnectionSockets`): whose credentials a shared session
carries. **Retry and fallback** (`Retries`, `Fallbacks`). **Lists, sweeps and labels**
(`SessionLists`, `InMemorySessionStores`, `SessionPreviews`). `Wrappers`, `Sequences` and
`StringOrders` are shared helpers.

Providers, tools, hooks and redactors are arbitrary functions of what they are given; the clock does
not go back; a step system's run is any list of steps, a step whose guard fails changing nothing.

## What the proofs found

The model does what the code does; where a promise fails, a lemma gives an input and another says
exactly when it holds.

- A live client and a resumed one can disagree after a turn. `TurnTheorems.LiveAgreesWithReplay` is an
  if and only if; the two causes are a run cut off while a thought is open and a half-read tag is held
  outside it, whose truncated flag is stored but never sent (`TurnMishaps.StrandingHappens`), and a
  tool's entries stored for a chunk that is then dropped as abandoned (`TurnMishaps.UnsentHappens`).
  Only microtasks lie between storing those entries and the handler's check of the signal, so a socket's
  close event cannot fall there; a caller that aborts the signal from within a microtask can.
- Under an entry policy the two clients still agree on every entry that is not the model's, up to what
  went unsent or was cleared (`TurnPolicies.OthersAgreeUnderAnyPolicy`).
- `maxContentEntries` can be exceeded by one. The run clears old entries as it closes, and the handler then
  flushes what its parser held; an entry that flush opens was not counted
  (`TurnBounds.BoundHoldsExactly`, with an input in `TurnBounds.OneMoreKeepsItsContent`).
- A create that overlaps an erasure caches a session with no document
  (`MongoErasures.OverlappingCreateIsRemembered`), and one applied after the delete brings the document
  back. An erasure is final exactly when no create of the id is under way
  (`MongoErasures.FinalExactlyWithNoCreateUnderWay`).
- Held-back restoration is not whole-text restoration for every mask
  (`MaskExactness.SharedCharacterBreaksIt`). It is exactly when no end of a value that can be held back
  holds or begins a token, and no value goes on as a held beginning of a token does
  (`MaskExactness.RestoresExactlyWhenReadOnce`, for tokens that neither nest nor overlap). Sharing a
  character is no harm in itself (`MaskExactness.SharedCharacterIsHarmless`).
- `maxMessages` bounds the window only from 1 up (`ContextWindow.BoundHoldsFromOneUp`).
- A list limit from 0 up to 1 answers nothing, though the comment beside it says only an explicit 0
  does (`SessionLists.NothingIsAskedBelowOne`).
- The in-memory sweep stops at the first live session, so it misses an expired one exactly when a live
  one stands before it (`InMemorySessionStores.SweepIsExact`). Two things put one there: an unusable
  clock reading, on which a session never expires (`InMemorySessionStores.AgeOrderedSweepIsExact`), and
  an id created again, which keeps its old place (`InMemorySessionStores.ReusedIdSweepIsExact`, with a
  run in `InMemorySessionStores.ReusedIdHidesTheAged`).
- A cleared entry of an unknown role keeps its other fields when it has a string content, though
  the documented history controls keep only role and time
  (`EntryHistory.ForeignClearedToRoleAndTime`).

## Model

| member | source | states |
|---|---|---|
| ThinkingTags.ScanIsLossless | src/infrastructure/parsers/thinkingTagParser.ts:28-59 | Putting the tags back into the one-shot scan gives the input: nothing but whole tags is ever dropped. |
| ParserRefinements.ParseReads | src/infrastructure/parsers/thinkingTagParser.ts:13-75 | For every way of cutting an input into pushes and a flush, no segment is empty and the segments spell, letter by letter and kind by kind, a leftmost-tag scan of the whole. |
| ParserRefinements.ParseRefinesScan | src/infrastructure/parsers/thinkingTagParser.ts:13-75 | With same-kind neighbours joined, every chunking gives the runs of that one scan. |
| ParserRefinements.ChunkingIsInvisible | src/infrastructure/parsers/thinkingTagParser.ts:13-75 | Two chunkings of one text cannot be told apart by what they emit. |
| ThinkingTags.RunsAreTheReading | src/infrastructure/parsers/thinkingTagParser.ts:28-59 | Those runs spell the reading letter by letter, none is empty, and no two neighbours are of one kind. |
| ParserRefinements.DrainReads | src/infrastructure/parsers/thinkingTagParser.ts:28-59 | One drain is right whatever text follows: what it emits and what it keeps read as its buffer did. |
| ParserRefinements.HoldingIsNecessary | src/infrastructure/parsers/thinkingTagParser.ts:43-52 | The held tail is the least a parser may hold: met with the rest of its tag it is shown as nothing at all. |
| ThinkingTags.PartialMatch | src/infrastructure/parsers/thinkingTagParser.ts:67-75 | The longest proper beginning of the tag the buffer ends with, and no longer one is. |
| ThinkingTags.IndexFrom | src/infrastructure/parsers/thinkingTagParser.ts:33-41 | The first place the tag stands at or after an index, or proof that it stands nowhere. |
| ThinkingTags.ThinkingTagParser.Push | src/infrastructure/parsers/thinkingTagParser.ts:13-16 | The object appends and drains in place exactly as the specification drains the concatenation. |
| ThinkingTags.ThinkingTagParser.Flush | src/infrastructure/parsers/thinkingTagParser.ts:18-26 | What was held comes out as one segment of the current kind, if any, and the buffer is left empty. |
| ThinkingTags.ThinkingTagParser.DrainBuffer | src/infrastructure/parsers/thinkingTagParser.ts:28-59 | The while loop over buffer and flag computes the recursive drain, its segments and both fields. |
| EntryHistory.SlotsStay | src/orchestration/entryMutations.ts:20-57 | Under any policy, a redactor that throws or changes roles included, no sequence of writes shrinks the entries or changes the role at an index. |
| EntryHistory.ClearedStaysEmpty | src/orchestration/entryMutations.ts:27-35 | A cleared, closed entry regains no content under any sequence of writes; at most it is flagged cut short. |
| EntryHistory.FinalContentIsRedacted | src/orchestration/entryMutations.ts:27-88 | An entry of the model’s is stored as written while it streams, whatever else is written, and once committed or cut short as the redactor makes it of all the text it was given: what it returned, or the slot emptied if it threw or changed the role. |
| EntryHistory.WholeEntryIsRedacted | src/orchestration/entryMutations.ts:21-26 | An entry that comes whole is stored last as the redactor makes it, a user’s as it came. |
| EntryHistory.LateTextIsRedacted | src/orchestration/entryMutations.ts:27-35 | Text that reaches a closed entry is redacted together with it. |
| EntryHistory.TurnEndsClosed | src/orchestration/entryMutations.ts:46-55 | With a redactor that keeps the flags, after closeTurn nothing streams; everything before the newest maxContentEntries is cleared, emptied if it was not flagged so already and then only cut short; everything newer is as cut short. |
| EntryHistory.ClearedHoldsNothing | src/orchestration/entryMutations.ts:27-57 | Through any writes whose new entries come unflagged, an entry flagged cleared is closed and holds nothing, those a turn’s end found already flagged included. |
| EntryHistory.SecondCloseChangesNothing | src/orchestration/entryMutations.ts:46-55 | A second closeTurn changes nothing, the redactor being run again or not. |
| SessionEntries.Cleared | src/orchestration/entryMutations.ts:111-121 | Clearing keeps role and time and leaves no text of the conversation and no tool argument. |
| EntryHistory.ForeignClearedToRoleAndTime | src/orchestration/entryMutations.ts:111-121 | An entry of an unknown role is cut down to role and time exactly when it has no string content; with one, its other fields stay. |
| SessionEntries.ClearTo | src/orchestration/entryMutations.ts:101-108 | The loop from the front empties every entry below the bound and touches no other. |
| SessionEntries.EntryWriter.AppendEntry | src/orchestration/entryMutations.ts:21-26 | The new slot is last, redacted unless it opens streaming. |
| SessionEntries.EntryWriter.AppendDelta | src/orchestration/entryMutations.ts:27-35 | Only a model entry that is not cleared grows, and is redacted again when already closed. |
| SessionEntries.EntryWriter.MarkTruncated | src/orchestration/entryMutations.ts:36-39 | Only a model entry is flagged; nothing else changes. |
| SessionEntries.EntryWriter.CommitEntry | src/orchestration/entryMutations.ts:40-45 | An open entry stops streaming and is redacted; any other is left. |
| SessionEntries.EntryWriter.CloseTurn | src/orchestration/entryMutations.ts:46-55 | The pass over the entries and the bound together give the turn-closed sequence. |
| Frames.SeenOfReplay | src/transport/ws/sessionResume.ts:105-124 | A client that folds a replay holds at each index exactly what the frame for that index carries. |
| Frames.FaithfulIsAgreement | src/transport/ws/sessionResume.ts:109-124 | Agreement with a closed stored entry is agreement with its replay. |
| TurnHandlers.TurnHandler.constructor | src/transport/ws/messageHandler.ts:210-221 | The user’s message is stored last and sent next, word for word and at one index; nothing of the model’s is open. |
| TurnHandlers.TurnHandler.StreamSegment | src/transport/ws/messageHandler.ts:309-323 | Opens, grows and sends as the step function does, upsert before delta, or stores marked suppressed. |
| TurnHandlers.TurnHandler.CommitAndClear | src/transport/ws/messageHandler.ts:341-353 | Commits in storage and forgets the index; unless suppressed the client is told and the entry becomes retractable. |
| TurnHandlers.TurnHandler.HandleTextSegment | src/transport/ws/messageHandler.ts:292-307 | A thought is streamed; an answer first closes the open thought, and neither closes an open answer. |
| TurnHandlers.TurnHandler.ProcessSuppressChunk | src/transport/ws/messageHandler.ts:377-390 | Closes what is open and blanks every entry already shown, in place, as the specification does. |
| TurnHandlers.TurnHandler.ProcessStopChunk | src/transport/ws/messageHandler.ts:392-396 | Flushes the held text and closes both entries. |
| TurnHandlers.TurnHandler.ProcessChunk | src/transport/ws/messageHandler.ts:265-277 | Each chunk type takes the branch the specification takes. |
| TurnHandlers.TurnHandler.CloseCutOff | src/transport/ws/messageHandler.ts:405-411 | An entry cut short is flagged, shown flagged, and committed. |
| TurnHandlers.TurnHandler.HandleUserMessage | src/transport/ws/messageHandler.ts:225-237 | The loop over the chunks and its finally block compute the specified end of the turn, also when the run threw or was abandoned. |
| TurnHandlers.AnswerUserMessage | src/transport/ws/messageHandler.ts:201-243 | A whole user message in place: the entries and frames are those of `Turn`; the first new frame is the user’s message word for word, and its entry ends as sent, or emptied exactly when too old for the policy. |
| TurnQuestions.QuestionIsStoredAndSent | src/transport/ws/messageHandler.ts:210-212 | Under any policy, whatever the chunks and the ending: the first thing sent is the user’s message at its index, and the entry stored there is that message, or cleared exactly when maxContentEntries no longer keeps it. |
| TurnQuestions.EarlierEntriesStay | src/orchestration/entryMutations.ts:46-55 | What was stored before a turn is at its end as it was but closed, and cleared exactly when too old. |
| TurnBounds.BoundHoldsExactly | src/orchestration/entryMutations.ts:92-100 | All but the newest maxContentEntries are cleared as a turn ends if and only if the text still held opened no entry of its own, or there are fewer others, or the oldest of the newest was cleared before. |
| TurnBounds.AtMostOneMore | src/orchestration/entryMutations.ts:92-100 | Never more than one entry beyond the bound keeps its content. |
| TurnBounds.OneMoreKeepsItsContent | src/transport/ws/messageHandler.ts:232-237 | A bound of one and an answer cut off at its first angle bracket: two entries keep their content. |
| TurnBirths.AuthoredAreBorn | src/transport/ws/messageHandler.ts:300-331 | Every entry a turn opens carries the moment of its creation, an answer the persona of that moment and a thought none, to the turn’s end. |
| TurnSteps.ChunkKeeps | src/transport/ws/messageHandler.ts:265-416 | Every chunk keeps the invariant tying each index’s stored entry, its live view and its frame history. |
| TurnSteps.SuppressKeeps | src/transport/ws/messageHandler.ts:377-390 | Suppression keeps it: everything shown is retracted, everything open is hidden. |
| TurnTheorems.TurnKeeps | src/transport/ws/messageHandler.ts:201-243 | From any conversation at rest, a turn with any chunks and any ending leaves exactly its mishaps disagreeing with storage. |
| TurnTheorems.LiveAgreesWithReplay | src/transport/ws/messageHandler.ts:201-243 | The live fold and the replay fold agree at every index if and only if no thought was stranded and no stored tool entry went unsent. |
| TurnTheorems.ConversationAgrees | src/transport/ws/sessionResume.ts:105-124 | Over a whole conversation the live and resumed views differ at exactly the mishaps of its turns. |
| TurnTheorems.FramesFollowTheGrammar | src/transport/ws/messageHandler.ts:292-353 | Each entry the handler opened was skipped, or went upsert, deltas, at most one cut-off upsert, one commit, at most one blank; it ends shown exactly when a resume shows it. |
| TurnMishaps.StrandingHappens | src/transport/ws/messageHandler.ts:398-411 | A run cut off with a thought open and a tag half read: storage says truncated, the live client is never told. |
| TurnMishaps.UnsentHappens | src/transport/ws/messageHandler.ts:226-231 | A tool’s entry stored for a chunk that is never forwarded, its signal aborted between the two: only a resume shows it. |
| TurnSuppression.SuppressionIsTotal | src/transport/ws/messageHandler.ts:309-390 | Once suppress_output is seen, every entry the handler opened this turn, before or after, ends suppressed; from then on, the retracting upserts included, no frame carries its text; and no entry the user, a tool or an earlier turn left is changed, by the suppression or after it. |
| TurnSuppression.ToolEntriesStay | src/transport/ws/messageHandler.ts:355-375 | Every entry a tool chunk stores, wherever in the turn and suppressed or not, is at the turn’s end as it was given. |
| TurnVoices.NoAnswerWithinAThought | src/transport/ws/messageHandler.ts:292-307 | Through any turn and any ending, no answer delta is sent while the client holds a thought open, and no thought is left open. |
| TurnVoices.ConversationNeverInterrupts | src/transport/ws/messageHandler.ts:292-307 | So in the frame log of any conversation no answer is ever heard within a thought. |
| TurnResumes.ResumeInMidTurn | src/transport/ws/sessionResume.ts:105-124 | At any point of a turn, a client that resumes sees what the live one sees, with entries still streaming shown cut off and hidden ones skipped. |
| TurnPolicies.OthersAgreeUnderAnyPolicy | src/orchestration/entryMutations.ts:79-108 | Under any policy and redactor, over any conversation, a live and a resumed client agree on an entry that is not the model’s if and only if it was sent and is not cleared. |
| TurnText.NothingSaidIsLost | src/transport/ws/messageHandler.ts:292-323 | However a turn ends, the stored answers and thoughts are, letter for letter, the segments the parser gave out. |
| TurnText.CutOffTurnKeepsTheReading | src/transport/ws/messageHandler.ts:225-237 | With no stop at all, what is stored of each kind is the reference reading of the whole stream. |
| MaskRestorations.StreamRestoresRunByRun | src/providers/withMask.ts:39-51 | For every cut of the stream into chunks, the output spells each run of text restored whole, with every other chunk in its own place between the runs, when nothing held can be read as a token a second time. |
| MaskExactness.RestoresExactlyWhenReadOnce | src/providers/withMask.ts:109-126 | For every binding whose tokens neither nest nor overlap and whose values are there and not their own token: all streams are restored so if and only if no held end of a value meets a token and no value goes on as a held beginning of a token does. |
| MaskExactness.EndGoesWrong | src/providers/withMask.ts:114-120 | Wherever a short enough end of a value holds or begins a token, some stream is restored wrongly. |
| MaskExactness.FrontGoesWrong | src/providers/withMask.ts:114-120 | Wherever a value goes on as a held beginning of a token does, some stream is restored wrongly. |
| MaskExactness.SharedCharacterIsHarmless | src/providers/withMask.ts:109-126 | Every stream of a numbered token standing for a phone number with that digit in it is restored rightly. |
| MaskRestorations.PushRestores | src/providers/withMask.ts:109-126 | One push is right whatever follows: what it lets go and what it holds restore to what its input does. |
| MaskRestorations.RestoreIsIdempotent | src/providers/withMask.ts:114-120 | Restoring restored text changes nothing, when no value meets a token at either’s end or inside. |
| MaskRestorations.RestoreEarly | src/providers/withMask.ts:114-120 | Restoring a beginning first, then the whole, is restoring the whole. |
| MaskRestorations.RestoredHoldsNoToken | src/providers/withMask.ts:109-126 | No token stands anywhere in restored text. |
| MaskRestorations.FailedStreamIsAPrefix | src/providers/withMask.ts:39-51 | A vendor that fails mid-stream leaves a true beginning handed on, short by exactly what was held. |
| MaskArguments.OthersAreDelivered | src/providers/withMask.ts:39-51 | Every chunk that is not text is handed on once and in order: a tool use with the same shape and keys and every string in it, at any depth, restored; any other as it came. |
| MaskArguments.StringsAreRestored | src/providers/withMask.ts:85-103 | Along every path into a tool’s arguments: a string is the restored string, other leaves, lengths and keys are as they were. |
| MaskArguments.LeftmostIsReplaced | src/providers/withMask.ts:109-126 | Restoring puts the leftmost token’s own value in its place, keeps what is before it and reads on after it. |
| MaskArguments.PlainIsLeft | src/providers/withMask.ts:109-126 | A text no token stands in is left as it is. |
| MaskRestorations.NoEmptyText | src/providers/withMask.ts:81-83 | No text chunk handed on is empty. |
| MaskRestorations.HeldIsBounded | src/providers/withMask.ts:114-120 | Nothing longer than the announced bound is ever held. |
| MaskExactness.SharedCharacterBreaksIt | src/providers/withMask.ts:109-126 | A value that begins its token: a concrete stream of two chunks restores wrongly. |
| PromptMasks.HeldBackRestorer.PushText | src/providers/withMask.ts:112-121 | The held field and the output are those of the specification. |
| PromptMasks.HeldBackRestorer.Flush | src/providers/withMask.ts:121-125 | The rest is the held text restored, and nothing stays held. |
| PromptMasks.SendMasked | src/providers/withMask.ts:30-54 | The loop over a vendor’s chunks hands on exactly the specified list. |
| RateLimits.BudgetHolds | src/transport/rateLimit.ts:42-69 | From any state, over a stretch lasting W, one key is allowed at most burst + W·limit/windowMs requests. |
| RateLimits.AllowedExactly | src/transport/rateLimit.ts:42-69 | A key is allowed exactly when its tokens and limit/windowMs for each millisecond since reach one, or it is not held; it is then left with those, at most burst, less one if allowed, and no other key changes. |
| RateLimits.StepAllowsExactly | src/transport/rateLimit.ts:56-69 | So is the running limiter’s verdict, whatever it has pruned. |
| RateLimits.BurstIsGranted | src/transport/rateLimit.ts:56-69 | Of calls made at once exactly those are allowed that the tokens last for: floor(burst) of a fresh key. |
| RateLimits.HoldsOnlyRecentKeys | src/transport/rateLimit.ts:48-54 | After any call no key is held whose last call was 2·burst·windowMs/limit ago or more. |
| RateLimits.LimiterKeepsBudget | src/transport/rateLimit.ts:39-70 | The limiter as it runs, pruning included, keeps that budget over any stretch of its history. |
| RateLimits.PruningIsInvisible | src/transport/rateLimit.ts:48-54 | The pruned map answers every history exactly as one that never forgets. |
| RateLimits.RefusalsLeaveNoTrace | src/transport/rateLimit.ts:56-69 | Dropping refused calls from the history changes no later verdict. |
| RateLimits.RetryAfterIsLeast | src/transport/rateLimit.ts:68 | After a refusal retryAfterMs is the least whole number of milliseconds in which the key earns one token, and it is allowed after that many and no fewer. |
| RateLimits.RateLimiter.PruneIdle | src/transport/rateLimit.ts:48-54 | The pruning pass over the map gives the specified map and moment. |
| RateLimits.RateLimiter.Consume | src/transport/rateLimit.ts:57-69 | Verdict and state are those of one step; allowed exactly when the key is not held or has earned a token. |
| MongoErasures.ErasureIsFinal | src/infrastructure/stores/mongo/mongoSessionStore.ts:186-195 | With no create of that id under way or to come, in every interleaving: once the delete applied no save brings it back, and once the finally ran the cache never holds it, also when the delete rejected. |
| MongoErasures.FinalExactlyWithNoCreateUnderWay | src/infrastructure/stores/mongo/mongoSessionStore.ts:186-195 | In every state: an erasure is final in every interleaving that creates the id no more if and only if no create of it is under way. |
| MongoErasures.CreateOutlives | src/infrastructure/stores/mongo/mongoSessionStore.ts:67-89 | For every create under way, applied or not, an interleaving after which the id is back in the collection or the cache. |
| MongoErasures.NewStoreIsSound | src/infrastructure/stores/mongo/mongoSessionStore.ts:61-65 | A new store over any collection meets the invariant, so every run does. |
| MongoRaces.OnlyWritesChange | src/infrastructure/stores/mongo/mongoSessionStore.ts:67-147 | A document changes only by an erasure that covers it, a save of it while it is there, or a create of it, and then to what that wrote. |
| MongoRaces.SaveStoresItsDocument | src/infrastructure/stores/mongo/mongoSessionStore.ts:139-147 | Whatever comes between, a save stores the document it was asked with if its id still has one, and otherwise nothing, and as it returns memory holds no other object for the id. |
| MongoRaces.CreateStoresItsDocument | src/infrastructure/stores/mongo/mongoSessionStore.ts:67-89 | A create stores its document whatever comes between, and its session is cached as it returns. |
| MongoRaces.GetSeesTheDocument | src/infrastructure/stores/mongo/mongoSessionStore.ts:91-111 | A get takes with it the document there when the collection was read, or none, however long it waits. |
| MongoRaces.OnlyReadsAndCreatesCache | src/infrastructure/stores/mongo/mongoSessionStore.ts:67-111 | An entry comes into the cache only by a read that found it and was not withdrawn, or by a create. |
| MongoCache.YoungIs | src/infrastructure/stores/mongo/mongoSessionStore.ts:91-95 | Memory answers exactly with a session cached under the id no longer than maxAge ago. |
| MongoCache.AskingIs | src/infrastructure/stores/mongo/mongoSessionStore.ts:96-99 | Otherwise that id’s entry goes and the read is registered. |
| MongoCache.AnsweredIs | src/infrastructure/stores/mongo/mongoSessionStore.ts:100-111 | An answered read caches what it found, as of now, unless withdrawn, and drops what has aged. |
| MongoCache.SavedIs | src/infrastructure/stores/mongo/mongoSessionStore.ts:145 | A save leaves the object it saved and drops any other of that id, withdrawing its reads. |
| MongoCache.ForgettingIs | src/infrastructure/stores/mongo/mongoSessionStore.ts:268-274 | Forgetting takes the named entries and the reads waiting on them, and no others. |
| MongoRaces.CacheStaysOrdered | src/infrastructure/stores/mongo/mongoSessionStore.ts:257-265 | Every interleaving keeps the cache in age order and its other invariants. |
| MongoErasures.GoneStaysGone | src/infrastructure/stores/mongo/mongoSessionStore.ts:139-147 | No save recreates a document; only a create writes an id that is not there. |
| MongoErasures.ErasingForgets | src/infrastructure/stores/mongo/mongoSessionStore.ts:268-279 | The finally block drops the entry and withdraws every read that may have found the document. |
| MongoErasures.ForgottenStaysForgotten | src/infrastructure/stores/mongo/mongoSessionStore.ts:91-111 | A read withdrawn, or begun after, never caches the erased id. |
| MongoErasures.OverlappingCreateIsRemembered | src/infrastructure/stores/mongo/mongoSessionStore.ts:67-89 | The race that is left: a create overlapping the erasure caches a session that has no document. |
| MongoCache.SweepIsExact | src/infrastructure/stores/mongo/mongoSessionStore.ts:257-265 | Over a cache in age order, stopping at the first young entry drops every aged one and nothing else. |
| MongoCache.RememberKeepsOrder | src/infrastructure/stores/mongo/mongoSessionStore.ts:257-265 | remember keeps the order, holds the session under its id alone and keeps every other young entry. |
| MongoCache.WithoutStaysOrdered | src/infrastructure/stores/mongo/mongoSessionStore.ts:268-274 | Forgetting keeps the order. |
| MongoSessionStores.PageIsLeast | src/infrastructure/stores/mongo/mongoSessionStore.ts:205-215 | A page of ids is the least of what is left: everything else comes after its last id. |
| MongoSessionStores.MongoSessionStore.EraseOlderThan | src/infrastructure/stores/mongo/mongoSessionStore.ts:198-223 | On a collection no one else changes the sweep ends: a document is gone exactly if its id is a string and it was created before the cutoff, every other is unchanged, the answer is how many went, and the cache loses exactly those ids. |
| MongoSessionStores.MongoSessionStore.EraseBatch | src/infrastructure/stores/mongo/mongoSessionStore.ts:226-233 | Deletes the ids, counts them, and drops them from the cache. |
| MongoSessionStores.MongoSessionStore.BeginGet | src/infrastructure/stores/mongo/mongoSessionStore.ts:91-101 | A young cached session is answered; otherwise an aged entry goes and a read is registered. |
| MongoSessionStores.MongoSessionStore.EndGet | src/infrastructure/stores/mongo/mongoSessionStore.ts:101-111 | What was read is returned, and cached only if the read was not withdrawn. |
| MongoSessionStores.MongoSessionStore.EndSave | src/infrastructure/stores/mongo/mongoSessionStore.ts:139-147 | A cached object other than the one saved is dropped. |
| MongoSessionStores.MongoSessionStore.Remember | src/infrastructure/stores/mongo/mongoSessionStore.ts:257-265 | The map becomes the specified cache: re-inserted last, swept from the front. |
| MongoSessionStores.MongoSessionStore.ForgetIds | src/infrastructure/stores/mongo/mongoSessionStore.ts:268-274 | Entries go and the reads of those ids are withdrawn. |
| MongoSessionStores.MongoSessionStore.ForgetAll | src/infrastructure/stores/mongo/mongoSessionStore.ts:276-279 | Everything goes and every read is withdrawn. |
| ContextWindow.ConvertedIsPaired | src/orchestration/conversationContext.ts:23-54 | Every converted history has each tool call directly followed by its result. |
| ContextWindow.ClearedLeaveNoTrace | src/orchestration/conversationContext.ts:23-54 | A cleared entry is as good as absent, in messages and in ids. |
| ContextWindow.EntryIsSaid | src/orchestration/conversationContext.ts:23-54 | Each entry becomes, in its place, the user’s or the assistant’s own words as theirs, or a tool’s call with its arguments and the stand-in result under the next id; a thought, a cleared entry and an unknown role become nothing. |
| ContextWindow.SyntheticIdsCountUp | src/orchestration/conversationContext.ts:23-54 | The synthetic ids count the tool entries. |
| ContextWindow.HistIdsDiffer | src/orchestration/conversationContext.ts:23-54 | So no two of them are the same. |
| ContextWindow.WindowIsLongest | src/orchestration/conversationContext.ts:56-75 | For a bound of at least one the window is admissible and no longer suffix is. |
| ContextWindow.BelowOneIsFromTheFront | src/orchestration/conversationContext.ts:57 | A bound of zero is no bound, and one of -m leaves out the m oldest messages. |
| ContextWindow.TotalIsTheLength | src/orchestration/conversationContext.ts:59 | The length bounded is that of all that is said and of all structured content. |
| ContextWindow.BoundHoldsFromOneUp | src/orchestration/conversationContext.ts:57 | The bound on messages holds for every history exactly when it is at least 1. |
| ContextWindow.WindowIsPaired | src/orchestration/conversationContext.ts:56-75 | Whatever the bounds, the window orphans no result and no call. |
| ContextWindow.HistoryIsPaired | src/orchestration/conversationContext.ts:18-21 | Every turn’s first request is well formed. |
| ContextWindow.ToContentMessages | src/orchestration/conversationContext.ts:23-54 | The loop with its counter computes the conversion. |
| ContextWindow.ApplyMessageWindow | src/orchestration/conversationContext.ts:56-71 | The two trimming loops compute the window. |
| ToolLoop.RunIsBounded | src/orchestration/chatOrchestrator.ts:129-168 | At most maxToolRounds rounds of tools and maxToolRounds + 1 provider calls, for any provider and tools. |
| ToolLoop.EveryRequestIsPaired | src/orchestration/chatOrchestrator.ts:402-438 | Each request is well formed, is what was sent before, and grows by one call and one result message a round. |
| ToolLoop.TurnRequestsArePaired | src/orchestration/chatOrchestrator.ts:123-152 | So for any session and any context bounds every request of a turn is well formed. |
| ToolLoop.TextIsWhatWasYielded | src/orchestration/chatOrchestrator.ts:136-172 | A finished run hands afterModelResponse exactly the concatenation of the text it yielded, closing sentence included. |
| ToolLoop.UsageIsTheSum | src/orchestration/chatOrchestrator.ts:452-460 | Total usage is the sum over the rounds that reported one, and absent when none did. |
| ToolLoop.ExhaustedIsAskingBeyond | src/orchestration/chatOrchestrator.ts:224-243 | The budget is called spent exactly when the one call past it asks for tools, and the run then ends with the closing stop. |
| ToolRounds.RunTells | src/orchestration/chatOrchestrator.ts:123-172 | Every run, round by round: its chunks are yielded, then a result chunk with the number of client messages its tools returned if any, then one suppression if any tool asked; the next request adds the calls in order and each one’s own result; the run goes on exactly when the last stop asked for tools, there are some, and neither the budget nor the signal is spent; and it ends, with its last usage and its closing words, as it should. |
| ToolRounds.CallsAre | src/orchestration/chatOrchestrator.ts:252-271 | The calls of a round are the tool uses among its chunks, each once and in order. |
| ToolLoop.StreamRound | src/orchestration/chatOrchestrator.ts:252-271 | The loop over one round’s chunks collects the calls, the last reason, the text and the last usage. |
| ToolLoop.RunTools | src/orchestration/chatOrchestrator.ts:412-437 | One result a call, in call order, with the messages counted and suppression asked by any. |
| ToolLoop.Conversation.ExecuteToolCalls | src/orchestration/chatOrchestrator.ts:402-439 | The call message is pushed before the tools run, the results after, and nothing of an abandoned round is kept. |
| ToolLoop.Conversation.ProcessMessageStream | src/orchestration/chatOrchestrator.ts:105-172 | The unbounded loop over the mutated message list computes the specified run and ends. |
| LockOrder.AtMostOneRuns | src/shared/perSessionLock.ts:9-16 | In every interleaving at most one callback per key runs. |
| LockOrder.CallbacksStartInCallOrder | src/shared/perSessionLock.ts:9-16 | Callbacks on a key start in call order, also after rejections. |
| LockOrder.WaitsOnlyForItsKey | src/shared/perSessionLock.ts:9-16 | A queued callback may start exactly when every earlier one on its key is over. |
| LockOrder.NothingIsStuck | src/shared/perSessionLock.ts:9-16 | Before every queued callback some callback on its key runs or may start. |
| LockOrder.SizeCountsWaitingKeys | src/shared/perSessionLock.ts:18-26 | A key is in the map while any callback on it is queued or running, and the map is empty at quiescence. |
| SessionLocks.NextKeeps | src/shared/perSessionLock.ts:4-26 | Every step keeps the invariant all of this follows from. |
| SessionLocks.PerSessionLock.Run | src/shared/perSessionLock.ts:9-16 | The map update and the tail waited on are those of one step. |
| SessionLocks.PerSessionLock.Forget | src/shared/perSessionLock.ts:24-26 | Only the newest tail clears its key. |
| SessionLocks.PerSessionLock.Size | src/shared/perSessionLock.ts:18-21 | Zero only when every callback ever queued is over. |
| TurnEnds.FramesNeverInterleave | src/transport/ws/messageHandler.ts:58-136 | On one session no turn’s frame comes among another’s, turns speak in arrival order, and nothing follows a turn’s stream_end. |
| TurnEnds.StreamEndsComeInArrivalOrder | src/transport/ws/messageHandler.ts:58-136 | A session’s stream ends are its answered messages, each once, in the order they arrived. |
| TurnEnds.EndedExactlyWhenAnswered | src/transport/ws/messageHandler.ts:97-136 | A stream_end is sent for a message if and only if it was answered; a dropped one is sent nothing. |
| TurnEnds.EveryMessageIsSettled | src/transport/ws/messageHandler.ts:80-94 | Once its callback is over a message was answered, dropped or abandoned. |
| TurnProgress.NoMessageIsStuck | src/transport/ws/messageHandler.ts:58-136 | In every reachable state a message not over, or an earlier one of its session, may begin (dropped with nothing sent if its socket closed), end (with its stream_end, or silently if abandoned) or settle, also by throwing. |
| TurnProgress.SettledIsCleared | src/shared/perSessionLock.ts:9-26 | A settled message’s callback is cleared by its own deferred step and by no other. |
| TurnProgress.ArrivalIsQueued | src/transport/ws/messageHandler.ts:68-75 | A message of any kind joins its own session’s queue as it arrives and changes nothing else. |
| SocketCredentials.NewestStandingLends | src/transport/ws/connectionHandler.ts:265-321 | In every interleaving a joined session’s authHeaders and user both come from its newest joined socket that has not left, or are undefined. |
| SocketCredentials.NothingOutlivesItsSocket | src/transport/ws/connectionHandler.ts:165-262 | Once every socket has closed and every set-up is over, no session keeps a socket or anybody’s credentials. |
| SocketCredentials.DisconnectIsTheOtherHalf | src/transport/ws/connectionHandler.ts:290-305 | onDisconnect fires at most once, after its onConnect, and exactly where onConnect was scheduled and the session ended. |
| SocketVisits.FirstVisit | src/transport/ws/connectionHandler.ts:165-321 | From any state a socket that finds no session opens one with its own credentials, is told, fires onConnect, and as it closes leaves no credential behind and fires onDisconnect. |
| SocketVisits.ResumedVisit | src/transport/ws/connectionHandler.ts:165-321 | From any state a socket that resumes a session lends to it, and as it closes the session is as the sockets before it make it. |
| SocketVisits.RefusedVisit | src/transport/ws/connectionHandler.ts:165-262 | A socket that refuses its greeting leaves its new session empty, and no hook fires. |
| SocketCredentials.NextKeeps | src/transport/ws/connectionHandler.ts:165-339 | Every step of every connection keeps the invariant. |
| SocketLending.LeaveLends | src/transport/ws/connectionHandler.ts:308-321 | Leaving takes that socket alone and lends from the newest left. |
| ConnectionSockets.OpenSockets.Join | src/transport/ws/connectionHandler.ts:265-268 | The list grows at its end, both fields are lent, and no other session’s list changes. |
| ConnectionSockets.OpenSockets.Leave | src/transport/ws/connectionHandler.ts:308-315 | The list loses that socket, an empty one is deleted, and the last left lends. |
| ConnectionSockets.OpenSockets.Lend | src/transport/ws/connectionHandler.ts:318-321 | Both fields come from one socket, or neither is held. |
| ConnectionSockets.OpenSockets.EndSession | src/transport/ws/connectionHandler.ts:290-305 | Once per connection: leaves what it held, changes no other session’s list, and tells whether onDisconnect is due. |
| Retries.RetryHandsOnOneAttempt | src/providers/withRetry.ts:25-71 | Attempts go on past exactly those that gave nothing in time or failed first with a timeout or a retryable error; the run hands on the first other attempt’s stream, up to its own end or timeout, or raises the last such error, a timeout as retryable. |
| Retries.StreamedIsAPrefix | src/providers/withRetry.ts:108-125 | A reader gets the attempt’s chunks up to the late pull, and its own ending when none is late. |
| Retries.StreamWithIdleTimeout | src/providers/withRetry.ts:108-125 | The pull loop hands on exactly that stream. |
| Retries.RetryMessage | src/providers/withRetry.ts:25-71 | The attempt loop with its remembered error computes the specified run. |
| Fallbacks.ChainHandsOnOneVendor | src/providers/withFallback.ts:42-71 | Every vendor started but the last gave nothing and failed with a retryable error or an outage’s code, and no configuration fault’s; the last one’s answer is the caller’s, and failovers are reported exactly where a next vendor exists. |
| Fallbacks.OneVendorAnswers | src/providers/withFallback.ts:42-71 | With retries inside the chain the caller reads a prefix of the last call’s stream, every earlier call handed on nothing, calls go attempt by attempt and vendor by vendor, and are at most chain × maxAttempts. |
| Fallbacks.CallsGoInOrder | src/providers/withFallback.ts:46-68 | The provider calls in order: first attempt at the first vendor, then next attempt or next vendor. |
| Fallbacks.SendThroughChain | src/providers/withFallback.ts:42-71 | The chain loop computes the specified turn. |
| SessionLists.PagesAreTheWholeList | src/infrastructure/stores/sessionListWindow.ts:20-36 | Over an unchanging list, following the last row of every page for any limit that answers anything gives the whole sorted list, each row once. |
| SessionLists.SitsAfterIsTheOrder | src/infrastructure/stores/sessionListWindow.ts:33-36 | The cursor test is the sort’s own order, and no row sits after itself. |
| SessionLists.OrderIsTotal | src/infrastructure/stores/sessionListWindow.ts:20-24 | Of two rows with different ids exactly one precedes. |
| SessionLists.OrderIsTransitive | src/infrastructure/stores/sessionListWindow.ts:20-24 | The order is transitive, so a sort may rely on it. |
| SessionLists.SortSorts | src/infrastructure/stores/inMemorySessionStore.ts:102 | Sorting gives the same rows in order. |
| SessionLists.OrderDecides | src/infrastructure/stores/sessionListWindow.ts:20-24 | Any two sorts by this order give the same list. |
| SessionLists.NothingIsAskedBelowOne | src/infrastructure/stores/sessionListWindow.ts:12-17 | A limit answers nothing exactly from 0 up to but not including 1, and none answers more than 200. |
| SessionLists.LimitIs | src/infrastructure/stores/sessionListWindow.ts:12-17 | A usable limit asks for the whole rows in it up to 200, any other for 50. |
| SessionLists.PageIsTheNewest | src/infrastructure/stores/inMemorySessionStore.ts:97-107 | A page is the newest rows behind its cursor in order: as many as the limit asks for, or all there are. |
| SessionLists.QueryIsTheWindow | src/infrastructure/stores/mongo/mongoSessionStore.ts:306-311 | The query’s filter selects the rows the cursor leaves, and its sort is the list’s order. |
| InMemorySessionStores.SweepIsExact | src/infrastructure/stores/inMemorySessionStore.ts:122-132 | In whatever order the sessions are held, the sweep drops every expired one and nothing else if and only if no live session stands before an expired one. |
| InMemorySessionStores.AgeOrderedSweepIsExact | src/infrastructure/stores/inMemorySessionStore.ts:122-132 | In age order: exactly when no session without a usable stamp stands before an expired one. |
| InMemorySessionStores.ReusedIdSweepIsExact | src/infrastructure/stores/inMemorySessionStore.ts:35-52 | With an id created again in its old place: exactly when that session has expired too or nothing behind it has. |
| InMemorySessionStores.EverySweepIsExact | src/infrastructure/stores/inMemorySessionStore.ts:35-52 | So it is after any run of operations with fresh ids on a clock that does not go back. |
| InMemorySessionStores.SweepKeepsTheLiving | src/infrastructure/stores/inMemorySessionStore.ts:122-132 | Nothing live is ever swept, whatever the order. |
| InMemorySessionStores.ReusedIdHidesTheAged | src/infrastructure/stores/inMemorySessionStore.ts:50 | A run of operations that gets there: an id created again keeps its place and hides an expired session from the sweep. |
| InMemorySessionStores.ListHeadAndCountAgree | src/infrastructure/stores/inMemorySessionStore.ts:87-119 | The pages together are what countFor counts, and their first row is what latestFor rejoins. |
| InMemorySessionStores.LatestIsTheNewest | src/infrastructure/stores/inMemorySessionStore.ts:175-180 | Activity is the newest usable stamp, and 0 when none is later. |
| InMemorySessionStores.RowShowsActivity | src/infrastructure/stores/inMemorySessionStore.ts:163-180 | A row shows its session’s id and the newest usable stamp of its creation and its entries, or 0. |
| InMemorySessionStores.ExpiryIs | src/infrastructure/stores/inMemorySessionStore.ts:129-132 | A session expires once more than maxAge has gone by since it was created; with no usable stamp it never does. |
| InMemorySessionStores.OwnedAre | src/infrastructure/stores/inMemorySessionStore.ts:117-119 | A user owns exactly the held sessions under that id created no longer than maxAge ago, or with no usable stamp. |
| InMemorySessionStores.InMemorySessionStore.SweepExpired | src/infrastructure/stores/inMemorySessionStore.ts:122-127 | The loop that returns at the first live session computes the sweep. |
| InMemorySessionStores.InMemorySessionStore.Create | src/infrastructure/stores/inMemorySessionStore.ts:35-52 | Sweeps first, then holds the session, in its old place if its id was held, and changes no other. |
| InMemorySessionStores.InMemorySessionStore.Lookup | src/infrastructure/stores/inMemorySessionStore.ts:64-71 | Active, expired once and dropped, or missing; no other session is touched. |
| InMemorySessionStores.InMemorySessionStore.Delete | src/infrastructure/stores/inMemorySessionStore.ts:73-75 | Drops that id alone and says whether it was held. |
| InMemorySessionStores.InMemorySessionStore.ListFor | src/infrastructure/stores/inMemorySessionStore.ts:97-107 | A page of the sorted rows of what the user owns. |
| InMemorySessionStores.InMemorySessionStore.LatestFor | src/infrastructure/stores/inMemorySessionStore.ts:110-114 | None exactly when no held session is the user’s and live; otherwise one that is, and that precedes every other such session in the list’s order. |
| InMemorySessionStores.HeadIsLatest | src/infrastructure/stores/inMemorySessionStore.ts:110-114 | The first row of the sorted list is that session’s. |
| InMemorySessionStores.InMemorySessionStore.CountFor | src/infrastructure/stores/inMemorySessionStore.ts:87-90 | The number of distinct held sessions that are the user’s and have not expired. |
| SessionPreviews.LabelIsAFixedPoint | src/infrastructure/stores/sessionPreview.ts:19-33 | Labelling a label changes nothing. |
| SessionPreviews.LabelSplitsNoPair | src/infrastructure/stores/sessionPreview.ts:19-33 | A label has at most 120 code points, is a prefix of the collapsed text, and ends in no half of a pair the text held whole. |
| SessionPreviews.PreSliceIsInvisible | src/infrastructure/stores/sessionPreview.ts:24-32 | Slicing at 240 units first gives the label that cutting the whole text by code points gives. |
| SessionPreviews.LabelIsFirstPoints | src/infrastructure/stores/sessionPreview.ts:22-32 | A label is the whole text when it has at most 120 code points, and otherwise the first 120 without the breaks at their end. |
| SessionPreviews.CollapsedIsTidy | src/infrastructure/stores/sessionPreview.ts:22-23 | Collapsed text has single spaces only, and none at its ends. |
| SessionPreviews.CollapsedIsItsWords | src/infrastructure/stores/sessionPreview.ts:22-23 | Collapsing keeps every word whole and in order with one space between each two. |
| SessionPreviews.WhiteIs | src/infrastructure/stores/sessionPreview.ts:22 | The units that count as whitespace are those `\s` matches. |
| SessionPreviews.SurrogatesAre | src/infrastructure/stores/sessionPreview.ts:26-27 | The two halves of a pair are the units marked by their top six bits. |
| SessionPreviews.NoLabelWhenNothingToShow | src/infrastructure/stores/sessionPreview.ts:28-40 | There is no label exactly when the collapsed text is empty or its first 120 code points are all breaks. |
| SessionPreviews.DropTrailingDropsPoints | src/infrastructure/stores/sessionPreview.ts:32 | Tidying the cut drops whole code points. |

## Left out

- TurnTheorems.LiveAgreesWithReplay: covers turns without an entry policy, without a beforeUserInput rewrite and with tools that supply finished entries only, which is where the design promises it for the model's words; they stream before a redactor sees them, so under one a live client differs by intent. TurnPolicies covers every other entry under any policy.
- TurnSuppression.SuppressionIsTotal: proved without an entry policy, under which a redactor may itself change the suppressed flag.
- TurnBounds.BoundHoldsExactly: for a policy with a bound and no redactor, which could change the cleared flag itself.
- TurnBirths.AuthoredAreBorn: proved without an entry policy, whose redactor may rewrite the stamps.
- TurnHandlers.AnswerUserMessage: timestamps and persona are given per index, and frames without an index (error, stream_end, connected) are not in its log; TurnEnds is about stream_end.
- ToolLoop.Conversation.ProcessMessageStream: hooks that throw, the tool deadline and the saving of the session are not modelled, so neither is that the run saves before the handler flushes its held tail.
- ToolLoop.RunTools: tools are run one after another in call order; the original starts them together and awaits all, and the results' order is the same.
- MaskExactness.RestoresExactlyWhenReadOnce: that the condition is needed is proved for tokens that differ and neither nest nor overlap and for values that are there and not their own token, which tokens such as `[[NAME_1]]` meet; that it suffices is proved for any tokens that do not nest.
- MaskRestorations.StreamRestoresRunByRun: a binding is a list of token and value pairs restored leftmost first, which must meet the stated conditions; the mask that tokenises the request is not modelled.
- RateLimits.LimiterKeepsBudget: exact real arithmetic, so rounding of fractional tokens is not modelled.
- MongoErasures.ErasureIsFinal: one engine process and its cache; other processes appear only as deletes made elsewhere.
- MongoSessionStores.MongoSessionStore.EraseOlderThan: on a collection no one else changes meanwhile; ids compare as character sequences, where MongoDB's own collation may order non-ASCII ids differently.
- ContextWindow.WindowIsLongest: an entry's serialised length is an abstract non-negative number.
- SessionEntries.Cleared: what an unknown role's fields hold is opaque, a flag named isStreaming or suppressed inside it included.
- SessionLocks.NextKeeps: a callback's settlement and its tail's are one step, since nothing can be observed between them.
- SocketCredentials.NextKeeps: the store's lookup, create and evict are single steps with any outcome; message delivery and frame replay on a connection are not part of it.
- Retries.RetryHandsOnOneAttempt: the delays between attempts and the release of an attempt's generator are not modelled; a timer is the pull at which it ran out.
- SessionLists.PagesAreTheWholeList: a cursor whose date is unusable, which the original refuses with an error, is not modelled.
- SessionPreviews.LabelIsAFixedPoint: a text that is not a string, and the choice of the first entry by role, are not modelled.
- generateStructured in both provider tiers, which has no stream to hand on.
- Express and ws plumbing, upgrade parsing, credentials and header filtering, frame validation, conversation-list frames, pings, logging and prompt assembly.
- Vendor adapters, schema validation, tool executors and hook bodies.

# AILens360, modelled and proved in Dafny

AILens360 is an LLM proxy: it forwards a request to a provider, streams the answer back to
the client while a copy goes to a body store and to a stream parser, puts a trace event on a
Redis stream, and has collectors turn those events into Postgres rows and realtime counters.
This project models the parts of it whose correctness cannot be read off one function, and
proves what they promise for every input, every run and every interleaving.

`dafny verify dfyconfig.toml` checks everything.

## The parts

**Two-tier project cache** (`TieredCache`, `ProjectsTable`, `AtomicCache`,
`InterleavedCache`). One L1 per
replica, one Redis L2, the database behind both, broadcast invalidation. `TieredCache` holds
the source's objects as classes. `AtomicCache` runs them on N replicas with whole calls as
steps: the claim in tiered.go that the L1 TTL bounds a missed broadcast holds there, and is
tight. `InterleavedCache` breaks the calls into round trips. There the claim fails, and the
model says exactly when it survives: if and only if no resolve still holds an older row that
it has yet to write to L2. What survives always is a bound by the sum of both TTLs and two
call delays, which a run attains to the tick. Two race runs are given step by step.

**Ingest protocol** (`Ingest`, `IngestLimits`, `Blocks`, `IngestOutage`, `IngestRecovery`,
`Consumer`). A consumer group with its pending list and idle times, any number of collectors,
crashes, lost replies, an all-or-nothing COPY under the key (id, created_at), counters and
XACK; XAUTOCLAIM with its idle limit, its COUNT and its scan limit; rows that leave with
their project or with their month's partition. `Consumer` has `processBatch` as code and
shows each call to be a run of the protocol. At most one count for the event and one more for
each deletion of its project holds exactly for events that the proxy stamped with a
RequestIn, and is attained. XAUTOCLAIM takes the lowest idle entries together, so after an
outage the pending list falls into blocks of the batch size that stay together for good; one
stamped entry that cannot be inserted, such as one whose row is there and whose XACK was
lost, holds up its whole block, and ten such blocks hold up everything behind them.
`AckableIffRoute` states exactly which entries can still be acknowledged, by any run without
deletions: those whose block can be reached by putting through enough of the blocks below it,
none of which excludes another.

**Partitions, retention, body keys** (`Calendar`, `BodyKey`, `Partition`, `Retention`,
`Maintenance`). Month arithmetic built from month lengths, names and layouts that parse back,
the tick of the maintainer as a method, and a state machine of proxies, collectors,
maintainers and project deletions in which rows and their bodies stay together. `Maintenance`
ties the method to the machine.

**SSE scanner** (`Sse`, `SseFormat`). `Scanner.Next` as code, conservation of the raw bytes,
and a line-by-line reading in the manner of sections 9.2.5 and 9.2.6 of the WHATWG HTML Living
Standard that the scanner is proved equal to on every input. From it follow what each block
says however its lines are written, that line endings and comments do not matter, and the
print/scan round trip.

**Provider parsers** (`TraceEvent`, `Reports`, `Interleaving`, `AnthropicParser`,
`OpenAIParser`, `GeminiParser`, `PromptTokens`). Folding a stream against parsing the whole message: which of
many reports of model, usage and finish reason is kept, and exactly when both readings give
the same event, for one answer and for several in one stream.

**Pricing** (`Pricing`). Fuzzy lookup over maps in any iteration order, tiers, what a token of
each kind costs, the bill over the reals, and exactly which prices never make a larger request
cheaper.

**Response tee** (`ResponseTee`), **realtime window** (`Realtime`), **SQL filters**
(`TraceFilter`, `TraceQueries`, `TraceGroups`), **viewer** (`ChatViewer`, `ChatMessages`,
`CachedPrefix`).

`Wrappers` and `Text` hold an option type and facts about decimal numbers and separators.

## Where the code and its comments differ

The model follows the code.

- The comment at internal/partition/maintainer.go:177-179 says that a retention of 3 in June
  keeps April to June. The code keeps every month that is not before now - R, which is March
  as well (`Partition.RetentionKeeps`).
- The comment at internal/cache/tiered.go:126-128 bounds a missed broadcast by the L1 TTL.
  That is proved for atomic calls and refuted for interleaved ones, see above.
- internal/metrics/realtime.go:30 accepts a retention that equals the window, and falls back
  to 7200 seconds for any window. ProjectLive is exact only for a retention longer than the
  window (`Realtime.ExactIffRetentionIsLonger`).
- A comment line appended after the last blank line of an SSE text yields one more, empty,
  event (`SseFormat.CommentsDoNotMatter` states the exact case).
- OpenAI reasoning is kept in arrival order by the stream parser and put behind the content
  by the non-streaming one. The two texts agree whatever the stream says if and only if no
  content arrives after reasoning (`OpenAIParser.AlwaysAgreesIffContentFirst`).
- Anthropic cache counts in message_delta do not count as usage seen. When no other count is
  reported they are dropped (`AnthropicParser.StreamAgreesIffUsageKept` states the exact case).
- internal/storage/repo/types.go:132-133 describes a group's status as the worst of its spans
  and its model as that of any span. The WHERE text narrows the group to the spans of the
  model first, and the status is the worst of those (`TraceGroups.ReturnedIffDescribed`).
- The comment at internal/collector/consumer.go:227-229 leaves a failed batch to another
  collector. If one of its rows can never be inserted, every later claim takes the same
  entries together and fails with it (`IngestRecovery.HeldIsNeverAcked`).
- Gemini's `Finalize` fills in a missing total, its `ParseNonStream` does not.

## Model

| member | source | states |
|---|---|---|
| `TieredCache.SetThenGet` | internal/cache/tiered.go:87-117 | A Get after a Set, whatever the LRU evicted since and whichever Redis call failed: the value set as long as either tier has it, an older L2 entry only if the SET failed and the new L1 entry is gone; other keys as before |
| `TieredCache.DeleteThenGet` | internal/cache/tiered.go:87-136 | A Get after a Delete under the same: nothing to answer, unless the DEL failed and L2 kept the key |
| `TieredCache.GetThenGet` | internal/cache/tiered.go:87-108 | A Get after a Get, whatever became of L2 and Redis: the same answer exactly until the deadline of the L1 entry it found, which it does not extend, or for the L1 TTL from an L2 answer, and from then on what L2 answers; after a Miss or a Fault L1 answers nothing; other keys as before |
| `TieredCache.Tiered.constructor` | internal/cache/tiered.go:42-82 | Defaults of capacity and TTLs, empty L1 |
| `TieredCache.Tiered.Get` | internal/cache/tiered.go:87-108 | Answer and new L1, up to LRU eviction: only an L2 answer is copied up, an expired L1 entry goes, a Redis error is reported; what it leaves in L1 is what `GetThenGet` asks for |
| `TieredCache.Tiered.Set` | internal/cache/tiered.go:110-117 | L1 is filled first and stays filled when Redis fails |
| `TieredCache.Tiered.Delete` | internal/cache/tiered.go:119-136 | L1 is cleared before L2; nothing is published when DEL fails; a PUBLISH failure is swallowed |
| `TieredCache.Tiered.Receive` | internal/cache/tiered.go:138-190 | A broadcast removes the key, except on the replica that sent it |
| `TieredCache.Resolver.Resolve` | internal/project/resolver.go:25-41 | Cache, else database; only a row that was found is written back, and a failing write-back is ignored; it leaves in L1 what `ResolveThenResolve` asks for |
| `TieredCache.DatabaseIsAsked` | internal/project/resolver.go:25-36 | L1 answers first, L2 next, and the database exactly when neither has an answer, a Redis error counting as none |
| `TieredCache.ResolveThenResolve` | internal/project/resolver.go:25-41 | A Resolve after a Resolve that found the project: the same answer exactly until the L1 entry it left runs out, whatever became of L2, Redis and the database |
| `TieredCache.Resolver.Invalidate` | internal/project/resolver.go:43-45 | Clears both tiers for the key and broadcasts it, or clears only L1 when the DEL fails |
| `AtomicCache.InvalidationBoundedByL1Ttl` | internal/cache/tiered.go:119-190 | With atomic calls: after a write and a successful Invalidate at time T, an older row is answered only before T + L1 TTL, never by the invalidating replica, and never after the broadcast was received |
| `AtomicCache.L1TtlIsAttained` | internal/cache/tiered.go:126-128 | That bound is tight: a run in which a peer answers the old row at T + L1 TTL - 1 |
| `AtomicCache.SettledRun` | internal/api/handler/handlers.go:90-165 | What write-then-invalidate establishes is kept by every later step of every replica |
| `ProjectsTable.RowIsLatest` | internal/project/resolver.go:29-36 | A database read after a write never sees an older row |
| `InterleavedCache.BoundedStaleness` | internal/cache/tiered.go:87-134 | Under every interleaving, eviction, fault and lost message, an answer was the database row less than L1 TTL + L2 TTL + two call delays ago, by two ticks |
| `InterleavedCache.StalenessIsAttained` | internal/cache/tiered.go:87-134 | For every configuration, a run whose answer was last the database row exactly that long ago |
| `InterleavedCache.TruthfulRun` | internal/cache/tiered.go:87-117 | The invariant behind it: L1 hits never feed L2, so deadlines do not chain |
| `InterleavedCache.L1BoundIffNoStaleFill` | internal/cache/tiered.go:126-128 | Once a DEL has applied, no older row is answered L1 TTL + one call delay later, in any continuation, if and only if no resolve then holds an older row still to be written to L2 |
| `InterleavedCache.QuietGivesL1Bound` | internal/cache/tiered.go:119-134 | The positive half, for every continuation |
| `InterleavedCache.StaleFillBreaksL1Bound` | internal/project/resolver.go:25-41 | The negative half: from every state with a stale fill there is a continuation that answers the old row past the bound, whatever the two TTLs are |
| `InterleavedCache.StaleFillIsReachable` | internal/project/resolver.go:25-41 | Resolve can read the row, lose the race with an update and its DEL, and still hold the old row |
| `InterleavedCache.OwnBroadcastIsSkipped` | internal/cache/tiered.go:119-134 | A Get between the two deletes leaves the old row in the L1 of the very replica that invalidated it, after it has skipped its own broadcast |
| `InterleavedCache.SettledRun` | internal/cache/tiered.go:119-190 | Preservation, over every run, of what a quiet DEL leaves |
| `Ingest.AckSafety` | internal/collector/consumer.go:119-241 | In every run, each entry is exactly one of undelivered, pending, acked, and is acked only if it does not decode or a row for it was committed |
| `Ingest.NewConfig` | internal/collector/consumer.go:68-73 | A positive batch size and idle limit are taken as they are; otherwise they are 200 and one minute |
| `Ingest.InvRun` | internal/collector/consumer.go:119-241 | The inductive invariant, over every run of collectors, crashes, lost replies, takeovers, project deletions and dropped partitions |
| `Ingest.StampedOnce` | internal/storage/postgres/trace_repo.go:58-81 | An event with a RequestIn has at most one row at any time, and is counted at most once and once more for each deletion of its project, whatever collectors process it at the same time |
| `Ingest.KeyTells` | internal/collector/pipeline.go:126-130 | Two rows collide exactly if their ids and their times are the same, the time being RequestIn or else the reading of the clock |
| `Ingest.RowsOf` | internal/collector/pipeline.go:126-130 | The rows of a batch are those of its decodable entries, keyed by id and created_at, which is RequestIn or this entry's own reading of the clock |
| `IngestLimits.AtMostOnceIffStamped` | internal/storage/postgres/migrations/0001_init.up.sql:63 | That holds in every run exactly for events with a non-zero RequestIn |
| `IngestLimits.DeletionAllowsAnotherCount` | internal/storage/postgres/trace_repo.go:362-371 | The bound is tight: a run in which a stamped event is counted again after its project's rows were deleted |
| `IngestLimits.UnstampedTwice` | internal/collector/pipeline.go:126-130 | A run that stores and counts an unstamped event twice |
| `IngestLimits.StuckForever` | internal/collector/consumer.go:219-241 | From any reachable state: a committed row whose XACK was lost keeps its entry pending in every continuation, until the project whose row it is gets deleted |
| `IngestOutage.KeptStep` | internal/collector/consumer.go:173-196 | Every step of every collector takes, refreshes and acknowledges the blocks that an outage leaves as a whole |
| `IngestOutage.InsertableIsSound` | internal/storage/postgres/trace_repo.go:58-81 | Whatever the clock readings: what a COPY takes has no stamped entry whose key is in the table, and no two with the same key |
| `IngestOutage.AckedHasRoute` | internal/collector/consumer.go:173-230 | After an outage, an entry that any run without deletions acknowledges had a route: insertable blocks up to its own, none excluding another, that leave fewer than ten below it |
| `IngestRecovery.HeldIsNeverAcked` | internal/collector/consumer.go:173-230 | So no such run acknowledges an entry of a block that cannot be inserted, or behind ten such blocks, for all that other collectors do meanwhile |
| `IngestRecovery.ClaimedInOrder` | internal/collector/consumer.go:173-196 | Claims at one moment take block after block, up to the tenth |
| `IngestRecovery.AckableIffRoute` | internal/collector/consumer.go:173-241 | Exactly which pending entries can still be acknowledged after an outage: those whose block has a route |
| `IngestRecovery.AckableIffNotHeld` | internal/collector/consumer.go:173-241 | In the first ten blocks, and everywhere if no stamped event is waiting twice: those whose block can be inserted and has fewer than ten blocks below that cannot |
| `IngestRecovery.EveryEntryHasABlock` | internal/collector/consumer.go:173-196 | That speaks of every pending entry |
| `Consumer.Consumer.DecodeAll` | internal/collector/consumer.go:198-218 | The loop of processBatch: rows of the decodable messages, each with its own clock reading, ids of all |
| `Consumer.Consumer.ProcessBatch` | internal/collector/consumer.go:198-241 | The ordered effects of one call: nothing after a failed insert, counting before XACK |
| `Consumer.Stores.BatchCreate` | internal/storage/postgres/trace_repo.go:58-81 | COPY is all or nothing under the primary key; an empty batch succeeds |
| `Consumer.ProcessBatchIsARun` | internal/collector/consumer.go:198-241 | Every call, with every outcome and any clock readings while it runs, is a run of the protocol's steps |
| `Calendar.AddMonthsMoves` | internal/partition/maintainer.go:255-261 | Adding n months moves the month by exactly n across year ends, in both directions, and lands on its first instant |
| `Calendar.MonthOfUnique` | internal/partition/maintainer.go:255-257 | Every instant lies in exactly one month |
| `Calendar.DaysAreCivil` | internal/partition/maintainer.go:255-261 | Month starts, built up from month lengths, agree for every month with the closed form of civil days |
| `Calendar.FormatParses` | internal/partition/maintainer.go:239-253 | For the years 0 to 9999 the six-digit layout parses back to its month |
| `Calendar.ParseIsFormat` | internal/partition/maintainer.go:243-253 | Nothing else parses |
| `BodyKey.KeyIsFiled` | internal/bodystore/key.go:23-34 | A key is filed under its project and the month of its time, or of now when the time is zero |
| `BodyKey.KeysAreDistinct` | internal/bodystore/key.go:23-34 | No body overwrites another: with slash-free projects and traces, keys are equal only for the same project, month, trace, part and extension |
| `BodyKey.MonthPrefixExact` | internal/partition/maintainer.go:198-221 | For slash-free ids the purge prefix matches exactly the keys of that project and that month |
| `BodyKey.ProjectPrefixExact` | internal/api/handler/handlers.go:114-147 | The project prefix matches exactly that project's keys |
| `BodyKey.SlashBreaksIsolation` | internal/bodystore/key.go:23-34 | With a slash in a project id the purge of another project reaches its keys |
| `Partition.NameParses` | internal/partition/maintainer.go:239-253 | A partition's name parses back to its month |
| `Partition.ParsedIsName` | internal/partition/maintainer.go:243-253 | A name that parses is the name of its month |
| `Partition.CalendarTiling` | internal/partition/maintainer.go:105-141 | For every date and PreCreate: the created ranges are non-empty, contiguous from this month's start to the start of month now + PreCreate + 1, and each instant there has exactly one partition in the whole table, named after its month |
| `Partition.OnePartition` | internal/partition/maintainer.go:127-144 | Partitions are disjoint |
| `Partition.RetentionKeeps` | internal/partition/maintainer.go:170-192 | A full tick keeps exactly the months from now - R on |
| `Partition.FaultlessTick` | internal/partition/maintainer.go:105-192 | Month by month, what a tick without failures leaves: the months that were there or are due, from now - R on |
| `Partition.FaultlessPurge` | internal/partition/maintainer.go:105-221 | Object by object: one filed under a project and a month goes exactly if the project is listed and the month had a partition before now - R |
| `Partition.Maintainer.CreateMonth` | internal/partition/maintainer.go:127-144 | Creates the month's partition with the month's range, once |
| `Partition.Maintainer.DropOlderThan` | internal/partition/maintainer.go:146-192 | Drops exactly the partitions before the threshold whose DROP succeeds, and returns exactly their months |
| `Partition.Maintainer.PurgeBodiesForMonths` | internal/partition/maintainer.go:198-221 | Removes exactly the objects under the listed projects and dropped months whose deletion succeeds |
| `Partition.Maintainer.Ensure` | internal/partition/maintainer.go:105-125 | Both stores after a tick with any combination of failures; bodies go only for months dropped in the same tick |
| `Retention.RetentionLockstep` | internal/partition/maintainer.go:105-221 | In every run a row whose month is not before now - R, of a project nobody deletes, is still there with every body uploaded for it |
| `Retention.BodiesSurvive` | internal/proxy/handler.go:225-277 | No purge removes a body of a protected row, even one whose response key falls in a later month |
| `Retention.InvRun` | internal/partition/maintainer.go:105-221 | The inductive invariant over uploads, inserts, ticks and deletions with a non-decreasing clock |
| `Maintenance.TickIsARun` | internal/partition/maintainer.go:105-221 | Whatever fails during it, a tick of the maintainer is a run of the retention machine |
| `Sse.Scanner.ReadBytes` | pkg/sse/sse.go:38-46 | Reads through the first LF, or everything with an error |
| `Sse.Scanner.Next` | pkg/sse/sse.go:30-88 | The loop computes the scanning function, with the source's deviations |
| `Sse.ScanAccounts` | pkg/sse/sse.go:30-88 | One call: Raw plus what is left is what there was, it makes progress, and which tails lose their Raw |
| `Sse.Drain` | pkg/sse/sse.go:30-88 | Calling Next until it fails terminates, with exactly these events |
| `Sse.Conservation` | pkg/sse/sse.go:30-88 | The Raw slices in order are exactly the input if and only if it does not stop inside a field line; so always for inputs that are empty or end in LF |
| `SseFormat.ScanIsLineReading` | pkg/sse/sse.go:30-102 | On every input, given as lines and what is left after the last, the scanner gives exactly the events of the line-by-line reading |
| `SseFormat.EveryInputIsLines` | pkg/sse/sse.go:38-46 | Every input can be given like that |
| `SseFormat.BlocksAreRead` | pkg/sse/sse.go:30-102 | Each block gives the last id and the last event named in it and its data lines joined by LF, whether its lines have a space after the colon, none, or no colon; other fields and comments do not count; a block the input stops in comes back too, without data if it stops inside a field |
| `SseFormat.EveryLineIsWritten` | pkg/sse/sse.go:91-102 | Those are all the ways to write a line that is not blank, its ending taken off |
| `SseFormat.LineEndingsDoNotMatter` | pkg/sse/sse.go:30-102 | Turning any LF into CRLF, or back, changes nothing but Raw |
| `SseFormat.CommentsDoNotMatter` | pkg/sse/sse.go:30-102 | Inserting a comment line changes no event, with the one exception stated exactly |
| `SseFormat.PrintScanRoundTrip` | pkg/sse/sse.go:30-102 | Printing any list of events and scanning the bytes gives the list back |
| `TraceEvent.Timeline.MarkGenerated` | internal/proxy/stream/anthropic_parser.go:154-162 | First token once, last token every time |
| `TraceEvent.MarksAreFirstAndLast` | internal/proxy/stream/anthropic_parser.go:154-162 | Over a whole stream the marks are the arrival times of the first and the last generating chunk, zero exactly if there is none |
| `Interleaving.AgreesIffOneAfterAnother` | internal/proxy/stream/gemini_parser.go:74-85 | Appending pieces as they arrive gives several texts one after the other, for all texts cut alike, exactly if no text goes on once a later one has begun |
| `AnthropicParser.Parser.HandleEvent` | internal/proxy/stream/anthropic_parser.go:81-152 | One frame: the new parser state, and the timeline exactly for generated content |
| `AnthropicParser.Parser.Feed` | internal/proxy/stream/anthropic_parser.go:66-79 | A whole stream is the fold of its frames, with its timeline marks |
| `AnthropicParser.Parser.Finalize` | internal/proxy/stream/anthropic_parser.go:173-191 | The event fields written, and which are left alone without usage |
| `AnthropicParser.Parser.ParseNonStream` | internal/proxy/stream/anthropic_parser.go:193-228 | The event fields of a whole message |
| `AnthropicParser.MessageIsWritten` | internal/proxy/stream/anthropic_parser.go:193-228 | Field by field: a positive count of any kind makes all four counts and their sum the event's, and otherwise none is touched |
| `AnthropicParser.TextInOrder` | internal/proxy/stream/anthropic_parser.go:109-215 | Text deltas of a stream and text blocks of a message both give the concatenation of their texts |
| `AnthropicParser.OtherFramesHaveNoText` | internal/proxy/stream/anthropic_parser.go:104-215 | No other frame or block adds to it |
| `AnthropicParser.ReportsKept` | internal/proxy/stream/anthropic_parser.go:81-152 | The last model and the last stop reason that a stream names are kept |
| `AnthropicParser.CountsAreKept` | internal/proxy/stream/anthropic_parser.go:81-152 | Each count is its last positive report, input and output from either frame, and every frame counts as a chunk |
| `AnthropicParser.SeenIffTold` | internal/proxy/stream/anthropic_parser.go:90-149 | Usage counts as seen exactly if some frame tells of it |
| `AnthropicParser.GeneratesIf` | internal/proxy/stream/anthropic_parser.go:104-171 | Which frames move the timeline: starts of text, thinking, tool and search-result blocks, and non-empty text, thinking and JSON deltas, and no others |
| `AnthropicParser.PlainOnlyAddsText` | internal/proxy/stream/anthropic_parser.go:101-135 | Content, ping and undecodable frames only append text and count |
| `AnthropicParser.StreamedState` | internal/proxy/stream/anthropic_parser.go:81-152 | Where the fold of any streaming of a message ends up |
| `AnthropicParser.StreamAgreesIffUsageKept` | internal/proxy/stream/anthropic_parser.go:81-228 | For every way to cut a message into deltas among any other frames, and any usage in the two frames that carry some: the finalized event equals that of the whole message, but for the chunk count, if and only if the later positive reports are the message's usage (none when only cache counts of message_delta are positive) |
| `AnthropicParser.StreamAgreesWithNonStream` | internal/proxy/stream/anthropic_parser.go:81-228 | So it does when message_start reports the prompt's counts and message_delta the output, and the rest as it is or not at all |
| `AnthropicParser.CacheUsageOnlyInDeltaIsLost` | internal/proxy/stream/anthropic_parser.go:136-152 | When no positive count but cache counts in message_delta is reported, the stream has no usage, and agrees with the whole message exactly if that has none |
| `PromptTokens.TierSeesWholePrompt` | internal/pricing/pricing.go:182-187 | Normalised categories sum to the whole prompt exactly when the cached part does not exceed it |
| `PromptTokens.EventCosts` | internal/collector/pipeline.go:67-72 | What an event costs: each of its four counts, in millions, at what the price says of that kind of token for a prompt of all but the output |
| `OpenAIParser.Parser.ReadChoices` | internal/proxy/stream/openai_parser.go:141-156 | All deltas of a chunk in order, whether a tool delta came, the last finish reason |
| `OpenAIParser.Parser.HandleChunk` | internal/proxy/stream/openai_parser.go:127-174 | One chat chunk: new state, and the timeline for text or tool calls |
| `OpenAIParser.Parser.Feed` | internal/proxy/stream/openai_parser.go:32-49 | A whole stream is the fold of its chunks, with its timeline marks |
| `OpenAIParser.Parser.SetUsage` | internal/proxy/stream/openai_parser.go:286-293 | The latest usage replaces the earlier one, in either dialect of cached tokens |
| `OpenAIParser.Parser.Finalize` | internal/proxy/stream/openai_parser.go:312-327 | The event fields written, cached tokens taken out of the prompt |
| `OpenAIParser.Parser.ParseNonStream` | internal/proxy/stream/openai_parser.go:330-372 | The event fields of a whole completion |
| `OpenAIParser.DetailsAreWritten` | internal/proxy/stream/openai_parser.go:312-327 | Streamed or whole, with a positive prompt_tokens_details count d: cached is d and input max(prompt - d, 0), whatever the cache-hit count says; output, total and reasoning as reported |
| `OpenAIParser.HitsAreWritten` | internal/proxy/stream/openai_parser.go:99-104 | Otherwise the same with the cache-hit count |
| `OpenAIParser.DialectsAgree` | internal/proxy/stream/openai_parser.go:286-293 | So one count gives the same event in either dialect |
| `OpenAIParser.OtherFieldsAreWritten` | internal/proxy/stream/openai_parser.go:312-372 | Text, chunk count, finish reason, and a model only where the event has none; without usage no count is touched |
| `OpenAIParser.GeneratesIf` | internal/proxy/stream/openai_parser.go:140-170 | A chunk moves the timeline exactly if a choice of it has content, reasoning or a tool call |
| `OpenAIParser.ChoicesJoin` | internal/proxy/stream/openai_parser.go:141-151 | The text of a chunk is that of its choices in order, each its content before its reasoning |
| `OpenAIParser.LastReasonCounts` | internal/proxy/stream/openai_parser.go:152-154 | Of the finish reasons in a chunk the last one given counts |
| `OpenAIParser.TextIsEveryDelta` | internal/proxy/stream/openai_parser.go:127-174 | The text is all deltas in arrival order; every data event counts as a chunk |
| `OpenAIParser.FirstModelWins` | internal/proxy/stream/openai_parser.go:137-139 | The model is the first one named, empty exactly if none is |
| `OpenAIParser.LastUsageWins` | internal/proxy/stream/openai_parser.go:171-173 | The usage is the last one reported, absent exactly if none is |
| `OpenAIParser.LastFinishWins` | internal/proxy/stream/openai_parser.go:152-154 | The finish reason is the last one given, empty exactly if none is |
| `OpenAIParser.TextAgreesIffContentFirst` | internal/proxy/stream/openai_parser.go:142-158 | For one answer, the streamed text is its content followed by its reasoning if no content arrives after reasoning, and only then when the two share no character |
| `OpenAIParser.AlwaysAgreesIffContentFirst` | internal/proxy/stream/openai_parser.go:342-352 | And for all streams that are cut alike, whatever their characters, exactly if no content arrives after reasoning |
| `OpenAIParser.StreamAgreesWithNonStream` | internal/proxy/stream/openai_parser.go:312-372 | If the completion has the first model, the last usage and the last finish reason that the chunks of one answer report, both readings agree on every field but the text, and on that under the condition above |
| `OpenAIParser.ReplacedIsLost` | internal/proxy/stream/openai_parser.go:352-358 | The text of a whole completion is that of all its answers exactly when no answer with content follows a non-empty one, and shorter otherwise |
| `OpenAIParser.SeveralAnswersAgree` | internal/proxy/stream/openai_parser.go:127-372 | Several answers in one stream: all fields but the text agree; the text never does if an answer is replaced, and else does if the answers arrive one after the other, and only then for all texts cut alike |
| `OpenAIParser.TierSeesWholePrompt` | internal/proxy/stream/openai_parser.go:312-327 | For a whole stream, the tier is chosen on the reported prompt exactly when the cached count it uses, of the details if positive and else of the cache hits, does not exceed it |
| `GeminiParser.Parser.ReadCandidates` | internal/proxy/stream/gemini_parser.go:74-85 | All parts of all candidates in order, and the last finish reason |
| `GeminiParser.Parser.HandleChunk` | internal/proxy/stream/gemini_parser.go:66-102 | One chunk: new state and timeline; recognising the first token by the empty text is the same as by the timeline |
| `GeminiParser.Parser.Feed` | internal/proxy/stream/gemini_parser.go:50-64 | A whole stream is the fold of its chunks, with its timeline marks |
| `GeminiParser.Parser.Finalize` | internal/proxy/stream/gemini_parser.go:107-125 | The event fields written, with a missing total filled in |
| `GeminiParser.Parser.ReadWhole` | internal/proxy/stream/gemini_parser.go:135-145 | The text of a whole answer's candidates, and their last finish reason |
| `GeminiParser.Parser.ParseNonStream` | internal/proxy/stream/gemini_parser.go:127-154 | The event fields of a whole answer |
| `GeminiParser.UsageIsWritten` | internal/proxy/stream/gemini_parser.go:107-154 | Count by count, streamed and whole: input is the prompt without its cached part, the rest as reported, and only the stream adds up a missing total |
| `GeminiParser.OtherFieldsAreWritten` | internal/proxy/stream/gemini_parser.go:107-154 | Text, chunk count, finish reason, and a model only where the event has none; without usage no count is touched |
| `GeminiParser.GeneratesIf` | internal/proxy/stream/gemini_parser.go:74-92 | A chunk moves the timeline exactly if a candidate of it has text |
| `GeminiParser.CandidatesJoin` | internal/proxy/stream/gemini_parser.go:74-85 | The text of a chunk is that of its candidates in order |
| `GeminiParser.LastReasonCounts` | internal/proxy/stream/gemini_parser.go:81-83 | Of the finish reasons in a chunk the last one given counts |
| `GeminiParser.StreamText` | internal/proxy/stream/gemini_parser.go:66-102 | The streamed text of one candidate is the text of its parts, however they are cut into chunks |
| `GeminiParser.ReportsKept` | internal/proxy/stream/gemini_parser.go:66-102 | The model is the first one named, the usage the last one reported, the finish reason the last one given |
| `GeminiParser.StreamAgreesWithNonStream` | internal/proxy/stream/gemini_parser.go:107-154 | If the whole answer has the first model, the last usage and the last finish reason of the chunks, both readings agree on every field but the total, and on that exactly when it was reported or there is nothing to add up |
| `GeminiParser.SeveralCandidatesAgree` | internal/proxy/stream/gemini_parser.go:66-154 | Several candidates in one stream: as before, and the text agrees if the candidates arrive one after the other, and only then for all texts cut alike |
| `GeminiParser.TierSeesWholePrompt` | internal/proxy/stream/gemini_parser.go:107-125 | For a whole stream, the tier is chosen on the full prompt exactly when cached does not exceed it |
| `Pricing.Catalog.Lookup` | internal/pricing/pricing.go:196-233 | With its two loops over the table, in any two orders, it returns the price of the key found |
| `Pricing.Catalog.Shortening` | internal/pricing/pricing.go:211-215 | The first loop: the longest key that prefixes the model, with its price |
| `Pricing.Catalog.Extension` | internal/pricing/pricing.go:222-228 | The second: the longest key that the model prefixes, with its price |
| `Pricing.LookupFinds` | internal/pricing/pricing.go:196-233 | The exact entry, else the longest key that prefixes the model, else some longest key it prefixes, and nothing exactly when there is none |
| `Pricing.ShorteningUnique` | internal/pricing/pricing.go:209-213 | The longest prefixing key is unique |
| `Pricing.OrderFreeIffUnambiguous` | internal/pricing/pricing.go:196-233 | The price is independent of iteration order if and only if the reverse pass is not reached with two longest candidates of different prices |
| `Pricing.Picked` | internal/pricing/pricing.go:60-70 | The tier that counts is the first of those with the largest threshold crossed, and none exactly when none is crossed |
| `Pricing.Pick` | internal/pricing/pricing.go:60-70 | The loop finds that tier |
| `Pricing.Effective` | internal/pricing/pricing.go:56-87 | Its non-zero rates, and no others, replace the base rates |
| `Pricing.Catalog.Cost` | internal/pricing/pricing.go:155-176 | Zero for unknown models, else the bill at the rates for the whole prompt |
| `Pricing.MoreTokensCost` | internal/pricing/pricing.go:155-176 | At one prompt size, n more tokens of a kind cost n millionths of the rate of the tier that applies if positive, else of the base rate if there is one, else, for both cache kinds, of the input rate found like that |
| `Pricing.NoTokensCostNothing` | internal/pricing/pricing.go:155-176 | A request without tokens costs nothing |
| `Pricing.UnpricedCacheIsInput` | internal/pricing/pricing.go:164-171 | Where a cache rate is set nowhere, moving tokens between input and that category changes nothing |
| `Pricing.CostMonotone` | internal/pricing/pricing.go:155-187 | If all rates are set and none falls with size, raising any token category never lowers the cost, across tiers |
| `Pricing.FallingOutputRateBreaksMonotonicity` | internal/pricing/pricing.go:155-187 | Wherever the output rate falls with the prompt, some longer request costs less |
| `Pricing.NeverCheaperIffRatesAllow` | internal/pricing/pricing.go:155-187 | No larger request is ever cheaper if and only if no rate is negative, the output rate never falls with the prompt, and at every growth from c to d tokens the fall of any prompt rate, times c, is made up for by d - c tokens at any prompt rate |
| `Realtime.RetentionCoversWindow` | internal/metrics/realtime.go:26-34 | New guarantees retention >= window, for every retention asked for, exactly for windows of at most 7200 |
| `Realtime.New` | internal/metrics/realtime.go:26-34 | A positive window is used and else 60 seconds; a positive retention of at least the window is used and else 7200 seconds |
| `Realtime.KeysAreDistinct` | internal/metrics/realtime.go:143-145 | Different metrics, projects or seconds never share a key, also for project ids with colons |
| `Realtime.PipelineIsTotals` | internal/metrics/realtime.go:47-76 | A pipeline adds to each counter exactly what the batch is worth: one per sample, positive tokens, positive cost |
| `Realtime.PipelineExpires` | internal/metrics/realtime.go:47-70 | In every pipeline each increment is followed by an expiry of its key |
| `Realtime.InvRun` | internal/metrics/realtime.go:47-76 | Every counter is its log until retention after its second, over every interleaving of pipelines, ticks and expiries |
| `Realtime.WindowAgreesWithLog` | internal/metrics/realtime.go:81-141 | Each sum read for a window equals what Redis was told to add for that project, metric and window, with the delay a read may have |
| `Realtime.WindowAgreesWithBatches` | internal/metrics/realtime.go:47-141 | And, once pipelines are through, what the recorded batches of [now - W, now - 1] are worth |
| `Realtime.ConservedRun` | internal/metrics/realtime.go:47-76 | Recorded = applied + lost + in flight, over every run |
| `Realtime.ShortRetentionLosesTheOldestSecond` | internal/metrics/realtime.go:81-112 | For every retention up to the window, a run in which the oldest second is gone while it is read |
| `Realtime.ExactIffRetentionIsLonger` | internal/metrics/realtime.go:26-141 | ProjectLive is exact in all settled runs if and only if the retention is longer than the window |
| `Realtime.Realtime.RecordBatch` | internal/metrics/realtime.go:47-70 | The loop builds exactly the pipeline of the batch |
| `Realtime.Realtime.SumKeys` | internal/metrics/realtime.go:117-141 | Sum of the live counters; no keys need no Redis |
| `Realtime.Realtime.ProjectLive` | internal/metrics/realtime.go:81-112 | The three rates over the window, zero without a project, an error if any read fails |
| `ResponseTee.CapturingWriter.Write` | internal/proxy/intercept/writer.go:36-56 | Keeps the buffer the first min(limit, total) bytes the client took, and truncated exactly when there are more |
| `ResponseTee.CapturingWriter.Snapshot` | internal/proxy/intercept/writer.go:64-66 | Returns that buffer, the count and the flag |
| `ResponseTee.SwallowingWriter.Write` | internal/proxy/handler.go:455-468 | Never fails; after the first failure the store is not called again |
| `ResponseTee.Tee` | internal/proxy/handler.go:287-313 | What each of client, store and parser ends up with, for any chunking and any failures |
| `ResponseTee.Fidelity` | internal/proxy/handler.go:287-313 | Without a client error client and parser get exactly the upstream bytes and the store a prefix; in every case store <= parser <= client |
| `ResponseTee.Serve` | internal/proxy/handler.go:258-340 | For the whole tee and any failures: exactly what client, store, parser and snapshot end up with, and copying counts as failed exactly if upstream broke or a client write failed; a failing or missing store is never noticed by the client |
| `ResponseTee.Verdict` | internal/proxy/handler.go:362-381 | Exactly when a response is an error, aborted (and why) or a success |
| `ResponseTee.ServeToStatus` | internal/proxy/handler.go:258-381 | From the bytes to the status: a streamed response with a status below 400 is interrupted exactly if upstream broke or a client write failed, and a streamed success reached client and parser whole |
| `TraceFilter.ToPg` | internal/storage/postgres/trace_repo.go:99-112 | The byte loop computes the rewriting |
| `TraceFilter.RewrittenJoins` | internal/storage/postgres/trace_repo.go:99-112 | Rewriting distributes over concatenation, carrying the count |
| `TraceFilter.PlaceholdersCount` | internal/storage/postgres/trace_repo.go:93-112 | The rewritten query reads as $1, $2, ... with one number for each `?` |
| `TraceFilter.ClauseMeans` | internal/storage/postgres/trace_repo.go:151-154 | Evaluating the rewritten WHERE text with argument k bound to $k accepts exactly the rows that meet every condition |
| `TraceQueries.ListCondsMean` | internal/storage/postgres/trace_repo.go:119-150 | The conditions of a filter hold of exactly the rows that match every set field |
| `TraceQueries.ListWhere` | internal/storage/postgres/trace_repo.go:119-150 | The builder collects exactly those conditions, each text with its argument |
| `TraceQueries.List` | internal/storage/postgres/trace_repo.go:114-174 | Count and page query: their texts written out around the WHERE text, with its meaning, one placeholder per argument, LIMIT and OFFSET on the last two, the order, and a limit of 50 by default |
| `TraceQueries.GroupCondsMean` | internal/storage/postgres/trace_repo.go:194-221 | The same for group filters, without the status, which is the group's |
| `TraceQueries.GroupWhere` | internal/storage/postgres/trace_repo.go:194-221 | The builder collects exactly those |
| `TraceQueries.ListGroups` | internal/storage/postgres/trace_repo.go:189-278 | The same for both group queries, with HAVING bound after the WHERE arguments and before the page |
| `TraceGroups.MembersAre` | internal/storage/postgres/trace_repo.go:194-227 | A group is made of the spans with its id that pass WHERE; a span without a trace id is its own group |
| `TraceGroups.StatusIsWorst` | internal/storage/postgres/trace_repo.go:229-238 | The status of a group is the worst of its spans: an error before an aborted one before success |
| `TraceGroups.PartOfGroup` | internal/storage/postgres/trace_repo.go:229-238 | A Model filter narrows the spans that a status is taken from, and only ever makes it less bad |
| `TraceGroups.ReturnedIffDescribed` | internal/storage/postgres/trace_repo.go:229-248 | A group is returned exactly as the filter is described, unless its spans of the model have a better worst status than the group and one of these two statuses is asked for |
| `TraceGroups.FailureOfAnotherModelIsMissed` | internal/storage/repo/types.go:127-138 | So a search for failures of traces that use a model misses every trace whose failures are another model's |
| `ChatViewer.Feed` | frontend/src/components/ChatViewer.tsx:383-406 | One choice of a chunk folded into its builder |
| `ChatViewer.Collect` | frontend/src/components/ChatViewer.tsx:354-407 | The loops keep one builder per choice index, in order of appearance |
| `ChatViewer.Assemble` | frontend/src/components/ChatViewer.tsx:354-434 | The whole assembly, rendered in index order |
| `ChatViewer.EveryToolIsShown` | frontend/src/components/ChatViewer.tsx:421-430 | A message shows exactly the tool calls of its choice, each once, in order of appearance, with a kind |
| `ChatViewer.OtherChoicesDoNotMatter` | frontend/src/components/ChatViewer.tsx:348-353 | A builder depends on its own choice's sub-stream only |
| `ChatViewer.Demultiplexing` | frontend/src/components/ChatViewer.tsx:354-434 | An interleaved stream assembles to each choice's own sub-stream assembled alone, in increasing index order |
| `ChatMessages.MessageOfChoice` | frontend/src/components/ChatViewer.tsx:354-434 | The message of a choice from its own deltas: content is all content deltas in order, there exactly if one came or a finish reason did; reasoning likewise, there if not empty; the last role named, else assistant; of each tool call all argument fragments in order and the last id, kind and name; no message exactly if there is nothing to show |
| `ChatViewer.ContentSplits` | frontend/src/components/ChatViewer.tsx:389-392 | A content fragment may be cut anywhere |
| `ChatViewer.ArgsSplit` | frontend/src/components/ChatViewer.tsx:394-404 | So may the arguments of a tool call |
| `ChatViewer.SplittingChangesNothing` | frontend/src/components/ChatViewer.tsx:354-434 | Such a cut anywhere in a stream leaves every message unchanged |
| `CachedPrefix.AnnotateCachedPrefix` | frontend/src/components/ChatViewer.tsx:648-678 | Cached tokens over tools then messages sum to min(cached, total), at most one segment is partial, states are in order ignoring empty segments; unchanged without estimates |
| `CachedPrefix.MarksAccount` | frontend/src/components/ChatViewer.tsx:657-666 | That accounting, for every list of sizes |

## Left out

- HTTP servers, routing, CORS, JWT, configuration, logging, the CLI, random ids, React components, the price refresher: plumbing.
- Redis, Postgres, MinIO, gzip, bufio and io.Pipe internals: only their contracts are modelled (consumer-group bookkeeping, COPY under a primary key, key expiry, prefix deletion, line reads, in-order pipes whose reader reads to the end).
- JSON: parsers and viewer start from decoded chunks; payloads that do not decode are one extra case. A marshalling error in the cache counts as a Redis fault.
- The OpenAI Responses dialect: `*.done` events append text that their deltas already carried, so text claims do not hold there.
- Floating point: rates and costs are reals; int64 and int32 widths are not modelled, counters are unbounded integers.
- Token estimation in `Transform` when a provider reports no usage (tiktoken, DeepSeek, heuristics), latency figures and timeline entries.
- Fairness: that a collector does run, or a failed purge is retried. Which entries can be acknowledged at all is stated.
- AckableIffRoute: speaks of states in which no collector is at work and every pending entry is idle. `IngestLimits.StuckForever` speaks of any state.
- AckableIffNotHeld: the simpler condition; behind the first ten blocks it asks that no stamped event is waiting twice. `IngestRecovery.AckableIffRoute` asks nothing.
- Client retries: internal/cache/redis.go:14 leaves go-redis at its default of resending a pipeline after a network error, so that Redis may apply one twice. The counts of the ingest protocol and the sums of the realtime window are of pipelines that are applied at most once.
- Clocks: each machine has one clock that all processes share; the calendar covers the years 0 to 9999, which the month layout can name.
- Ingest runs start when the consumer group is created at `$` (internal/collector/consumer.go:112); stream trimming is not modelled. Rows without a partition are modelled for dropped months, not for months that are not created yet.
- The LRU's choice of victim: any other key may be evicted. An L1 entry without a deadline, which no code path creates, is not modelled.
- Builders of the viewer are values in maps that the loops reassign, so aliasing of the source's mutable objects is not captured; the same holds for rows and events of the ingest protocol.
- ListGroups: the fixed column lists, the group-id expression and the status CASE are parameters of the query text, without placeholders; `TraceGroups` says what grouping and the CASE compute, but not from that text. Row conditions are in the order of the source, values never appear in the SQL text.
- TierSeesWholePrompt: speaks of the token counts a provider reports, not of whether they are right.
- StreamAgreesWithNonStream: the Anthropic form speaks of one message_start and one later message_delta.
- SeveralAnswersAgree: which answer a delta belongs to is not in the chunks as the parser decodes them, so it is a parameter, here and in `SeveralCandidatesAgree`.
- L1BoundIffNoStaleFill: asks for an L2 TTL of two clock ticks, the shortest that an entry can be read in and still be late; a finer clock models every positive TTL.
- LegacyCost, Facets, UsageByDimension, GetByID, the metadata readers and path parsing of the proxy: easy members.

# Verified model of the work-item protocol and the LLM stream decoder

Two parts of the system are modelled here, each with its surroundings replaced by inputs that can be anything.

**The work-item protocol.** Any number of submitters and control-plane loops share one table of work items and one
message queue. `WorkState`, `WorkStore` and `WorkDb` hold the lifecycle, the table with its unique partial index, and the
operations on them; `Focus` is the hook pipeline; `Protocol` is the step relation, one step per committed statement,
counter access or local decision between two awaits. Loops crash between any two steps, any database access can fail after
its statement committed, the queue hands out any live message at any time, and other programs may call `transition_state`.
What these may do to Running rows is a setting: anything (`Unrestricted`), or anything but taking an item out of Running
that a loop which is up holds (`SpareUp`), or that any loop holds, crashed or not (`SpareAll`). `StoreInvariant`,
`Invariant` and `Steps` hold the inductive invariant and its proof, for all three settings; `WorkTheorems`, `Capacity`,
`Overshoot`, `Outsiders` and `Submissions` what follows for every run, and `Progress` what a reachable state still allows
(`Runs` has the tools). `ControlPlanes` shows that the imperative `process_work`, with others interleaving at every await
and free to do anything, takes exactly such steps.

**The stream decoder.** `Sse` is the incremental event parser, `SseStandard` the line-at-a-time machine of sections 9.2.5
and 9.2.6 of the WHATWG HTML Living Standard, `SseExact` the exact condition under which the two agree, `SseOutside` the same for
CR LF line ends and a leading byte order mark. `StreamDecoder` is the accumulator of `complete_stream`, `ResponseBody` and
`RequestBody` the parser and the serializers it must agree with, `StreamTheorems` what it conserves, `StreamedWhole` and
`Reencoding` how a streamed response relates to a whole one, `StreamEnd` what may follow the end marker, and `Retry` the
backoff loop.

Where the source changes things step by step the model is imperative (`Sse.SseParser`, `WorkDb.Db`,
`ControlPlanes.ControlPlane`, the loops of the decoder, the serializers, the retry loop and the hook pipeline), and each
such method is proved against a function that the theorems are about.

## What the proofs found

- With two or more tool calls and any thinking or text, streaming puts all calls but the last before the thinking and the
  text, while the whole response puts them after. The two lists are equal if and only if there is at most one call or
  nothing but calls (`StreamedWhole.ContentEqualExactly`). Sent back as history both are the same message
  (`Reencoding.SameHistory`).
- A stream that ends without `[DONE]` loses all thinking and text and the last call, and is still returned as a success;
  nothing is lost if and only if there is none of these (`StreamedWhole.TruncatedStream`). `[DONE]` only ends the chunk it arrives in: after it the chunking is irrelevant if
  and only if no second `[DONE]` follows and the documents that follow have no deltas and end with the finish reason and
  the token counts already held (`StreamEnd.AfterDoneExactly`).
- A tool-call delta is conserved if and only if its id is not empty and its argument fragment has an open call
  (`StreamTheorems.ToolStepKeepsExactly`), and so for whole streams (`StreamTheorems.StreamKeptExactly`).
- On LF-only streams the parser and the standard agree if and only if no terminated block has a bare `data` line, or has
  data and a bare `event` line that clears a type other than `message` (`SseExact.AgreesExactly`). With CR LF line
  ends the parser never yields an event, so it agrees if and only if there is none (`SseOutside.CrLfAgreesExactly`). A
  leading byte order mark hides the first line; the two still agree if and only if that line is not data, it does not
  give the first message its type, and the rest is as above (`SseOutside.MarkAgreesExactly`).
- The capacity check and the increment are separate accesses: with k loops and limit n the counter can reach n + k - 1
  and no more (`Capacity.CounterExact`), and some run reaches it, for every k and n above zero
  (`Overshoot.BoundAttained`). The counter can exceed the limit if and only if the plane has two loops or more, a limit
  above zero and a registered faculty (`Overshoot.ExceededExactly`); foci in flight can if and only if it has more loops
  than the limit, and these (`Overshoot.FociExceedExactly`).
- A failing `Focus::create` leaves the counter incremented, and so does a loop that crashes inside a focus. An idle loop can
  still take work if and only if these two together stay below the limit; otherwise it never passes the check again
  (`Progress.IdleMovesExactly`), and runs lead there (`Progress.StuckReachable`).
- `2u64.pow(retries)` overflows if and only if `max_retries` is above 64 and the first 65 replies are rate limits; with
  overflow checks that is a panic, otherwise the wait is zero seconds from then on (`Retry.Complete`).
- With others free to do anything, no item is ever run twice at a time if and only if others never take an item out of
  Running that a loop holds (`Outsiders.OnceExactly`); if they do, a run leads to two loops with the same item
  (`Outsiders.DoubleRun`). Even then a retired item reads as one of its runs (`WorkTheorems.OutcomeOfCompleted`), but the
  retirement of the other loop is refused (`ControlPlanes.ControlPlane.RetireItem`).
- Without others a Running row can still change if and only if a loop that is up holds it: rows that a crash, a failed
  creation or a database error left in Running have to be taken out by others (`Progress.RunningMovesExactly`).
- The live message of a finished item leaves the queue only if a loop is just about to archive it; after a crash or a
  database error in between it stays there for good (`Progress.StaleExactly`).
- A duplicate can be merged into an item that was finished between the lookup and the insert
  (`Submissions.TargetMayBeTerminal`).
- The error for a missing or malformed outcome always names `consolidate-out.json`; that is the file that was read if and
  only if it was there (`Focus.NamedFileExactly`).
- No limit on attempts is enforced: for every `max_attempts` some run reaches any number of attempts its column can hold
  (`Progress.AttemptsUnlimited`), although `docs/` describe one.

## Assumptions

JSON text is an abstract printer and parser. The streaming theorems assume of it only that `[DONE]` is not JSON, and speak
of any text that parses to the document in question. Sending a response back as history preserves tool inputs if and only
if their printed form parses to them again (`Reencoding.ReencodingNormalizes`); `Cargo.toml:21` takes serde_json without
`float_roundtrip`, so inputs with doubles may not. JSON numbers are 64-bit integers or finite doubles (by their bits).
Postgres statements and transactions are atomic and see committed rows.

## Model

| member | source | states |
|---|---|---|
| `Sse.SseParser.constructor` | src/llm/sse.rs:25-29 | a new parser has an empty buffer |
| `Sse.SseParser.Feed` | src/llm/sse.rs:34-78 | one feed returns exactly the events that the buffered text and the chunk complete, keeps the rest, and leaves no terminator in the buffer; the loop ends because the buffer shrinks |
| `Sse.SseParser.ReadBlock` | src/llm/sse.rs:48-67 | the pass over a block's lines gives the last event type and all data lines in order |
| `Sse.DrainLeavesNoBlank` | src/llm/sse.rs:38-41 | what is kept after a feed holds no blank line |
| `Sse.ChunkIndependence` | src/llm/sse.rs:34-78 | for every text and every way of cutting it, the events and the final buffer are those of feeding it once |
| `Sse.RoundTrip` | src/llm/sse.rs:39-75 | printing any list of events (any data, LF-free types) and feeding it in any chunking gives exactly that list and an empty buffer |
| `SseExact.BlockMeaning` | src/llm/sse.rs:43-46 | skipping blocks that trim to nothing loses no event |
| `SseExact.PlainExactly` | src/llm/sse.rs:51-67 | reading a block means the same as in the standard if and only if its bare `data` and `event` lines do not matter |
| `SseExact.AgreesExactly` | src/llm/sse.rs:34-78 | on an LF-only stream the parser emits the standard's messages if and only if every terminated block is free of bare field names that matter |
| `SseExact.RefinesStandard` | src/llm/sse.rs:34-78 | on an LF-only stream without a line that is exactly `data` or `event`, the events after every prefix are the messages the standard has dispatched by then |
| `SseOutside.CrLfIsMissed` | src/llm/sse.rs:39-41 | where every LF follows a CR no event is ever emitted and everything stays buffered |
| `SseOutside.CrLfAgreesExactly` | src/llm/sse.rs:39-41 | with CR LF line ends the standard reads what it reads with LF and the parser nothing, so they agree if and only if the stream holds no message |
| `SseOutside.MarkedFields` | src/llm/sse.rs:51-65 | a leading byte order mark hides the first line of a block from the parser, whatever the line is |
| `SseOutside.HarmlessExactly` | src/llm/sse.rs:51-73 | a block without its first line means what the standard reads from all of it if and only if that line is not data, no bare `data` follows, and, where there is data, its type comes neither from that line nor from a bare `event` |
| `SseOutside.MarkAgreesExactly` | src/llm/sse.rs:34-78 | after a leading mark, on streams without CR, the parser emits the standard's messages if and only if the first block does without its first line and all others are free of bare field names that matter |
| `SseOutside.BomIsNotSkipped` | src/llm/sse.rs:51-67 | an example: the one message of a stream that starts with a mark is lost |
| `ResponseBody.ParseResponseBody` | src/llm/openai.rs:443-496 | no choice is an error; otherwise the content is non-empty thinking, non-empty text, then every tool call in order, with the documented defaults |
| `ResponseBody.ContentOrder` | src/llm/openai.rs:448-479 | the content is the thinking unless empty, the text unless empty, then one tool use per call, in order |
| `ResponseBody.CallRead` | src/llm/openai.rs:464-478 | id, name and parsed arguments of a call come from its own members; a missing id or name is empty, unparsable arguments are `{}` |
| `ResponseBody.MetaRead` | src/llm/openai.rs:481-508 | stop, length and tool_calls mean end of turn, token limit and tool use, any other text means itself and no text the end of the turn; token counts are those of the usage member, unchanged below 2^32, and zero when absent |
| `StreamDecoder.HandleToolCalls` | src/llm/openai.rs:238-271 | the pass over `delta.tool_calls` flushes the open call at each id and collects fragments, as the accumulator specification says |
| `StreamDecoder.HandleEvents` | src/llm/openai.rs:165-272 | the events of one chunk are applied in order up to `[DONE]`, which flushes thinking, text and the open call and drops the rest of the chunk |
| `StreamDecoder.CompleteStream` | src/llm/openai.rs:111-280 | without a status the connection error, on 429 the rate limit and on other statuses the body; on success the response of all chunks if and only if no chunk is an error, and otherwise the error of the first such chunk, with only the chunks before it read and what they sent kept |
| `StreamDecoder.ReceivedExactly` | src/llm/openai.rs:161-163 | the chunks read are those before the first error, each with its own text |
| `StreamDecoder.StopsAtFirstError` | src/llm/openai.rs:161-162 | there is no transport error if and only if no chunk is one, and otherwise it is that of the first |
| `StreamDecoder.SendsInOrder` | src/llm/openai.rs:221-235 | an event without tool calls sends its thinking, then its text, each only if it is there |
| `StreamDecoder.DeltaSends` | src/llm/openai.rs:238-270 | a tool delta with an id announces the call with its name; its fragment goes out under its own id, or under that of the open call |
| `StreamDecoder.EndFlushes` | src/llm/openai.rs:166-189 | `[DONE]` appends the thinking unless empty, the text unless empty and the open call, empties all three, and keeps stop reason and usage |
| `StreamDecoder.EndSends` | src/llm/openai.rs:190 | `[DONE]` sends one end marker |
| `StreamTheorems.EventKeepsText` | src/llm/openai.rs:165-235 | whatever an event holds, flushed text followed by pending text stays equal to all text sent, and likewise for thinking; `[DONE]` keeps both |
| `StreamTheorems.StreamKeepsText` | src/llm/openai.rs:160-273 | so over every stream in every chunking |
| `StreamTheorems.ToolStepKeepsExactly` | src/llm/openai.rs:239-270 | a tool-call delta keeps the tool blocks and the open call equal to the calls sent if and only if its id is not empty and its fragment has an open call |
| `StreamTheorems.EventKeepsTools` | src/llm/openai.rs:237-271 | an event whose deltas are well cut keeps them equal, each input being the parse (or `{}`) of its own fragments |
| `StreamTheorems.FinishKeepsTools` | src/llm/openai.rs:166-191 | `[DONE]` keeps them equal and leaves no call open |
| `StreamTheorems.StreamKeepsTools` | src/llm/openai.rs:160-273 | over every well-cut stream in every chunking the tool blocks and the open call are the calls sent |
| `StreamTheorems.StreamKeptExactly` | src/llm/openai.rs:160-273 | they are so after every delta of a stream if and only if every delta of it is well cut |
| `StreamedWhole.AnyChunking` | src/llm/openai.rs:160-273 | with `[DONE]` as the last event every chunking gives the same result |
| `StreamedWhole.ContentEqualExactly` | src/llm/openai.rs:166-189 | the streamed and the whole content list are equal if and only if there is at most one tool call, or neither thinking nor text |
| `StreamedWhole.StreamedEqualsWhole` | src/llm/openai.rs:150-279 | documents that spell out a whole response, sent as events in any chunking with `[DONE]` last, give its stop reason, usage, thinking, text and tool calls; the content is the first n-1 calls, thinking, text, last call |
| `StreamedWhole.StreamedMeta` | src/llm/openai.rs:204-217 | the last finish reason of a stream and its last token counts are the ones that hold, with the meanings they have in a whole response |
| `StreamedWhole.TruncatedStream` | src/llm/openai.rs:160-279 | without `[DONE]` the content is all tool calls but the last and nothing else, which is the whole content if and only if there is no thinking, no text and no call |
| `StreamEnd.UnchangedExactly` | src/llm/openai.rs:204-271 | documents leave everything as it is if and only if they have no deltas and their last finish reason and token counts, if any, are those already held |
| `StreamEnd.EveryChunking` | src/llm/openai.rs:160-273 | when only such documents follow `[DONE]`, every chunking gives the same result |
| `StreamEnd.AfterDoneExactly` | src/llm/openai.rs:166-192 | the chunking never matters if and only if no second `[DONE]` and only such documents follow the first |
| `Reencoding.AnyCutStreamsTheWhole` | src/llm/openai.rs:150-279 | for every well-cut list of deltas, printed as documents and streamed in any chunking, the result agrees with the whole message parsed at once, and both serialize to the same assistant message |
| `Reencoding.WholeJsonRead` | src/llm/openai.rs:443-496 | a whole response spelled as a document is read back part by part |
| `Reencoding.FrameJsonsRead` | src/llm/openai.rs:204-270 | deltas spelled as documents are read back part by part |
| `Reencoding.ReencodingNormalizes` | src/llm/openai.rs:401-438 | serializing any content list and reading it back as a response gives its normal form (the LF-joined text if not empty, then the tool calls in order) if and only if the inputs of its tool calls read back |
| `Reencoding.NormalFormIdempotent` | src/llm/openai.rs:401-438 | a second round changes nothing |
| `Reencoding.NormalFormOfParsed` | src/llm/openai.rs:443-479 | on anything parsed from a response the normal form only drops the thinking |
| `Reencoding.SameHistory` | src/llm/openai.rs:401-438 | streamed and whole responses serialize to the same assistant message, however many calls there are |
| `RequestBody.SerializeUserMessage` | src/llm/openai.rs:358-396 | appends one user message with the LF-joined texts and image notes if there are any, then one `tool` message per result, in order |
| `RequestBody.OneItem` | src/llm/openai.rs:362-385 | a text adds itself, an image its note with media type and byte count, a tool result its own `tool` message with id and content, and nothing else is added |
| `RequestBody.ItemsAppend` | src/llm/openai.rs:362-386 | texts and tool messages of a concatenation are those of its parts, in order |
| `RequestBody.UserOnWire` | src/llm/openai.rs:358-396 | whatever each item adds by itself, the wire holds one object with role user and the LF-join of all texts, if there is any, and then all tool messages |
| `Text.Utf8LenOne` | src/llm/openai.rs:380-384 | the byte count in an image note: one to four bytes by the code point |
| `Text.Utf8LenAppend` | src/llm/openai.rs:380-384 | byte counts add up over the text |
| `Text.DecimalSpells` | src/llm/openai.rs:380-384 | numbers are written in decimal digits that spell them, without leading zeros |
| `RequestBody.SerializeAssistantMessage` | src/llm/openai.rs:401-438 | appends one message, with content only if not empty and calls only if there are any; thinking is not sent |
| `RequestBody.OneBlock` | src/llm/openai.rs:405-424 | a text adds itself, thinking nothing, a tool use its call with id, name and printed input |
| `RequestBody.BlocksAppend` | src/llm/openai.rs:405-424 | texts and calls of a concatenation are those of its parts, in order |
| `RequestBody.OthersOnWire` | src/llm/openai.rs:301-316 | a system message is one object with role system and the prompt; an assistant message is one object with that role, `content` exactly if there is text, `tool_calls` exactly if there are calls, and no other member |
| `RequestBody.BuildRequestBody` | src/llm/openai.rs:291-351 | the system prompt first, then one contiguous run per canonical message; temperature, tools and stream are present exactly when asked for |
| `RequestBody.ToolsOnWire` | src/llm/openai.rs:328-343 | each tool is sent as a function with its own name, description and schema, in order |
| `Json.FiniteByExponent` | src/llm/openai.rs:324-326 | a double is a JSON number if and only if its exponent bits are not all ones, whatever its sign and fraction |
| `RequestBody.FlatteningKeepsPairing` | src/llm/openai.rs:301-316 | if every tool result follows an assistant message with its call, every `tool` message on the wire follows an assistant message that lists its id |
| `RequestBody.ToolResultsOnceInOrder` | src/llm/openai.rs:358-396 | the `tool` messages on the wire are the tool results, each once and in order |
| `Retry.Complete` | src/llm/openai.rs:55-106 | at most max_retries + 1 requests; only rate limits are retried; the last reply decides the result; the power overflows if and only if max_retries exceeds 64 and the first 65 replies are rate limits |
| `Retry.ResultByReply` | src/llm/openai.rs:55-106 | the result for each kind of last reply: no reply, rate limit, other errors, malformed JSON, no choices, a response |
| `Retry.WaitsExactly` | src/llm/openai.rs:84-90 | each wait is the retry-after header if there is one, and otherwise 2^n seconds after n retries, zero from 64 retries on |
| `Retry.PowFitsExactly` | src/llm/openai.rs:84 | the power fits in 64 bits exactly up to 63 retries |
| `Retry.TotalBackoff` | src/llm/openai.rs:84-89 | without retry-after headers n waits up to the 64th add up to 2^n - 1 seconds |
| `Retry.BackoffBound` | src/llm/openai.rs:78-91 | whatever the server does, at most 2^max_retries - 1 seconds are slept without retry-after headers |
| `WorkState.TextFaithful` | src/model/work.rs:131-170 | the text column determines the state, and the SQL predicate of the index picks exactly the states that are not terminal |
| `WorkState.TextTable` | src/model/work.rs:155-170 | the text of each state |
| `WorkState.EdgesExactly` | src/model/work.rs:114-129 | the transitions allowed are these ten and no others |
| `WorkState.AttemptAccounting` | src/model/work.rs:114-129 | on every path of allowed transitions the entries into Running are the retries, plus one once started |
| `WorkState.TerminalAbsorbs` | src/model/work.rs:114-134 | a terminal state is the last of every path |
| `WorkStore.CastsRoundTrip` | src/db/work.rs:298-306 | a u64 survives the i64 column and a u32 the i32 column, and what is stored is in range |
| `WorkStore.UpdateKeepsIndex` | migrations/20260301000001_faculty_skill_fields.sql:14-15 | an update along an allowed transition that keeps faculty and key cannot violate the unique index |
| `WorkStore.InsertKeepsIndex` | src/db/work.rs:44-65 | an insert that does not conflict keeps the index |
| `WorkStore.TransitionExactly` | src/db/work.rs:253-281 | a transition succeeds if and only if it is allowed, the row is still in the expected state, and attempts has room; it never fails on the index |
| `WorkStore.RetireExactly` | src/db/work.rs:295-356 | completing and failing succeed if and only if the row is Running, and keep the index |
| `WorkStore.TransitionWrites` | src/db/work.rs:253-281 | a transition changes state, updated_at, resolved_at in terminal states and, into Running, attempts by one; no other column, row or message |
| `WorkStore.CompletionWrites` | src/db/work.rs:295-310 | completing writes state, both timestamps and the outcome, and nothing else |
| `WorkStore.FailureWrites` | src/db/work.rs:335-349 | failing writes state, updated_at, error and duration, and nothing else |
| `WorkStore.InsertableExactly` | src/db/work.rs:44-65 | an insert is accepted if and only if the id is new and the parent, if any, exists |
| `WorkStore.EnqueueWrites` | src/db/work.rs:118-158 | a new item is one new row with the submitted fields, Queued, and one new message with its id and parameters |
| `WorkStore.MergeWrites` | src/db/work.rs:80-100 | a merged item is one new row with the submitted fields but without the key, resolved, pointing to its target, and no message |
| `WorkStore.ItemReads` | src/db/work.rs:399-432 | the item read has every column of the row; the outcome is there exactly if data or an error is, and is a success exactly without an error |
| `WorkDb.Db.GetWorkItem` | src/db/work.rs:239-250 | the item of the row, or not found |
| `WorkDb.Db.TransitionState` | src/db/work.rs:253-292 | the row moves if and only if the transition is allowed and the row is still in the expected state; otherwise nothing changes; a lost read-back is an error after the move |
| `WorkDb.Db.CompleteWork` | src/db/work.rs:295-332 | a Running row, and no other, becomes Completed with the outcome; a lost read-back is an error after that |
| `WorkDb.Db.FailWork` | src/db/work.rs:335-371 | a Running row, and no other, becomes Failed with the error and keeps its other columns; a lost read-back is an error after that |
| `WorkDb.Db.SubmitWork` | src/db/work.rs:35-178 | a new item is queued with its message unless an active item has its key, in which case it is merged into that one; an error leaves everything as it was, except that a lost commit or read-back comes after the row is there |
| `WorkDb.Db.SendToQueue` | src/db/pgmq.rs:39-59 | a message is added under a fresh id |
| `WorkDb.Db.ReadFromQueue` | src/db/pgmq.rs:63-105 | some live message, or none when the queue is empty or all of it is invisible; nothing is removed |
| `WorkDb.Db.ArchiveMessage` | src/db/pgmq.rs:108-122 | a live message moves to the archive |
| `WorkDb.SubmittedReadsBack` | src/db/work.rs:399-432 | every submitted field reads back unchanged from the new item |
| `Focus.RunHook` | src/engine/focus.rs:124-158 | a hook succeeds if and only if it exits with status zero; otherwise its error is the spawn error or names phase and status |
| `Focus.Run` | src/engine/focus.rs:54-121 | completed if and only if every configured hook succeeds and the outcome file is JSON; the hooks run in order up to the first failure |
| `Focus.CompletedExactly` | src/engine/focus.rs:57-120 | completed if and only if each configured hook exits with zero and the outcome file (consolidate-out.json whenever it is there, else engage-out.json) is JSON; then orient, engage and consolidate ran, each once if configured |
| `Focus.FailedExactly` | src/engine/focus.rs:59-92 | the first of orient, engage and consolidate that is configured and does not exit with zero ends the run with its phase and error; the hooks before it succeeded and no other ran |
| `Focus.CompletedRanEverything` | src/engine/focus.rs:57-120 | a completed focus ran orient if configured, engage, and consolidate if configured, each with its own command, once and in this order, all exiting with zero; its data is the JSON of the outcome file |
| `Focus.NamedFileExactly` | src/engine/focus.rs:98-119 | when the outcome cannot be used the error names consolidate-out.json, and that file was read if and only if it was there |
| `Steps.LoopStepOk` | src/engine/control.rs:131-251 | every step of a loop keeps the invariant that ties program counters, rows, histories, messages and the index together |
| `Steps.SubmitStepOk` | src/db/work.rs:35-178 | so does every step of a submission, whatever interleaves between conflict, lookup and merged insert |
| `Steps.OutsideStepOk` | src/db/work.rs:253-292 | so does every call of `transition_state` from outside that the setting allows, on Running rows that nobody holds too |
| `Steps.ReachableOk` | src/engine/control.rs:131-251 | the invariant holds in every reachable state |
| `WorkTheorems.WorkOnce` | src/engine/control.rs:184-241 | where others spare held items, no two loops are ever between start and retirement of the same item, and the row of such an item is Running; crashed loops count where others spare those too |
| `WorkTheorems.RetirementNeverMisses` | src/engine/control.rs:208-237 | then the update that retires a finished focus always finds its row |
| `WorkTheorems.NothingLost` | src/db/work.rs:137-166 | an item that was not merged has exactly one message, the one its row names, live until the item is Completed; a merged item has none |
| `WorkTheorems.ArchivedIsCompleted` | src/engine/control.rs:208-240 | an archived message belongs to a Completed item and is not live |
| `WorkTheorems.RunLater` | src/model/work.rs:114-134 | along every run rows stay, histories only grow, and a row in a terminal state never changes again |
| `WorkTheorems.MergedForever` | src/db/work.rs:67-100 | a merged row points to an existing row of its faculty submitted with its key, and in every later state it still does and that row is not merged |
| `Submissions.ConflictEndsMergedOrNothing` | src/db/work.rs:67-114 | each step of a submission that met a conflict commits a merge into an existing row that is not merged, or nothing |
| `Submissions.LookupToMerge` | src/db/work.rs:67-100 | whatever others do between lookup and insert, the target was active with the key at the lookup, and at the insert it is still there, of the same faculty and not merged |
| `Submissions.TargetMayBeTerminal` | src/db/work.rs:69-100 | but a run leads to a merge into a target that is terminal by then |
| `Submissions.SubmitWorkIsRun` | src/db/work.rs:35-178 | whatever `submit_work` returns, what it leaves behind is where an uninterrupted run of the submission's steps ends |
| `WorkTheorems.DedupSafety` | migrations/20260301000001_faculty_skill_fields.sql:14-15 | in every reachable state two rows of one faculty that are not terminal have different keys |
| `WorkTheorems.LifecycleFacts` | src/db/work.rs:82-349 | no committed row is Created, `resolved_at` is set exactly in terminal states, outcome data only on Completed rows, and every history is a path of allowed transitions |
| `WorkTheorems.ExactAttempts` | src/db/work.rs:259-276 | with r retries in the history, attempts is r in Queued and Claimed, r + 1 in Running, Failed and Completed, and one of them in Dead |
| `WorkTheorems.ItemOfRow` | src/db/work.rs:399-432 | in every reachable state the item read has the attempts, state, merge target and timestamps of its row and the fields it was submitted with, the key of a merged one aside |
| `WorkTheorems.ParentExists` | migrations/20260227000002_work_items.sql:13 | the parent of every row is a row, in every reachable state |
| `WorkTheorems.StartedAtMostOnce` | src/engine/control.rs:184-192 | in a run without retries from outside every item enters Running at most once |
| `WorkTheorems.OutcomeOfCompleted` | src/db/work.rs:295-310 | whatever others do, an item that a loop completed reads as success with data and duration of one of its runs and no error of another; that run was of the registered faculty and ran every hook once, in order, all succeeding |
| `WorkTheorems.OutcomeOfFailed` | src/db/work.rs:335-349 | whatever others do, an item that a loop failed reads as the failure of one of its runs: no success, the error is phase, colon and error of that run, the duration its own |
| `WorkTheorems.LatestOutcome` | src/engine/control.rs:208-237 | where others spare held items it is the latest run |
| `Outsiders.OutsideExactly` | src/db/work.rs:253-281 | a successful `transition_state` by others keeps held items Running and held once if and only if it takes no held item out of Running |
| `Outsiders.OnceExactly` | src/engine/control.rs:184-241 | in a run in which others may do anything, work is done once in every state if and only if others never take an item out of Running that a loop holds |
| `Outsiders.DoubleRun` | src/db/work.rs:253-281 | if others fail a Running item and queue it again, a run from the start leads to two loops that hold it |
| `Progress.LeftBehindForever` | src/engine/control.rs:190-197 | a Running row that no loop which is up holds never changes again unless others change it |
| `Progress.RunningMovesExactly` | src/engine/control.rs:190-241 | without others a Running row can still change if and only if a loop that is up holds it |
| `Progress.StaleExactly` | src/engine/control.rs:225-226 | the live message of a finished item leaves the queue in some continuation if and only if a loop that is up is about to archive it |
| `Progress.AttemptsUnlimited` | src/db/work.rs:253-281 | whatever `max_attempts` says, some run reaches every number of attempts the column can hold |
| `Capacity.CounterExact` | src/engine/control.rs:133-205 | in every run the counter is the foci in flight plus the failed focus creations, and with the loops past the check it is at most max_concurrent + k - 1 (zero without loops or with limit zero) |
| `Capacity.OneLoopKeepsLimit` | src/engine/control.rs:133-205 | one loop never exceeds max_concurrent |
| `Capacity.NeverUnderflows` | src/engine/control.rs:205 | the counter is positive whenever it is decremented |
| `Progress.IdleMovesExactly` | src/engine/control.rs:133-205 | an idle loop can pass the check in some continuation if and only if failed creations and loops crashed inside a focus do not fill its plane's limit |
| `Progress.StuckReachable` | src/engine/control.rs:133-197 | a run of failed creations leads to a plane that is stuck with all its loops idle and up |
| `Overshoot.BoundAttained` | src/engine/control.rs:133-197 | for every limit above zero and every number of loops some run brings the counter to max_concurrent + k - 1 |
| `Overshoot.ExceededExactly` | src/engine/control.rs:133-205 | in some run the counter exceeds the limit if and only if the plane has two loops or more, a limit above zero and a registered faculty |
| `Overshoot.FociExceedExactly` | src/engine/control.rs:133-205 | in some run more foci are in flight than the limit allows if and only if the plane has more loops than the limit, a limit above zero and a registered faculty |
| `ControlPlanes.ControlPlane.constructor` | src/engine/control.rs:66-80 | a new loop is idle, its counter is zero |
| `ControlPlanes.ControlPlane.CheckLimit` | src/engine/control.rs:133-135 | goes on if and only if the counter is below the limit |
| `ControlPlanes.ControlPlane.ReadOne` | src/engine/control.rs:138-146 | the loop holds the message read, or is idle |
| `ControlPlanes.ControlPlane.FetchItem` | src/engine/control.rs:159-182 | an error if the item is missing, nothing if its faculty is not registered, and otherwise the job with the registered faculty |
| `ControlPlanes.ControlPlane.ClaimItem` | src/engine/control.rs:186-188 | the claim succeeds, is refused as an invalid transition, or commits and loses its read-back |
| `ControlPlanes.ControlPlane.StartItem` | src/engine/control.rs:190-192 | the start succeeds, is refused as an invalid transition or an overflow of attempts, or commits and loses its read-back |
| `ControlPlanes.ControlPlane.FailCreate` | src/engine/control.rs:194-197 | a failing focus creation ends the call with the counter still incremented |
| `ControlPlanes.ControlPlane.RunFocus` | src/engine/control.rs:203 | the result is the pipeline's, and the run is recorded with the item |
| `ControlPlanes.ControlPlane.CountOut` | src/engine/control.rs:205 | the counter goes down by one and is not negative |
| `ControlPlanes.ControlPlane.RetireItem` | src/engine/control.rs:208-241 | the row becomes Completed or Failed by the result if and only if it is still Running; otherwise the update is refused and changes nothing, which happens only where others take held items out of Running |
| `ControlPlanes.ControlPlane.ArchiveItem` | src/engine/control.rs:226 | the message of the completed item is archived and the loop is idle |
| `ControlPlanes.ControlPlane.ProcessWork` | src/engine/control.rs:131-251 | whatever others do and however they interleave, the call is a run of the protocol that ends idle; each result, errors after a commit included, comes with exactly the accesses made, in order; the retirement is refused only where others take held items out of Running |
| `ControlPlanes.ControlPlane.Run` | src/engine/control.rs:88-128 | every wake-up before the shutdown leads to one call of `process_work`, errors do not end the loop and the shutdown does, and all the loop does is what these calls do, each along a path that goes with its result |

## Left out

- HTTP, sqlx, Postgres and pgmq internals: statements and transactions are atomic commits, the queue is a set of live messages read in any order. Visibility timeouts only decide whether a read finds something.
- `delete_message` (src/db/pgmq.rs:125): nothing calls it on the work queue; a caller that did would lose items.
- `from_utf8_lossy` per byte chunk (src/llm/openai.rs:163): chunks are strings, so a code point split between two byte chunks, which the program replaces, is outside the model.
- Concrete JSON text: an abstract printer and parser. The parser's recursion limit is not modelled.
- Streams that mix CR with other line ends: the comparison with the standard covers LF, CR LF throughout, and a mark before LF.
- The other response headers, and the text of transport errors: inputs.
- Last event ids and reconnection times of the standard: the parser ignores those fields, and the comparison is about types and data.
- `docs/` retries, recovery and dead-lettering, and any liveness: there is no code for them. Retries are steps of others.
- A payload without a valid `work_item_id` is one case, whatever else it holds; UUIDs are naturals, and a colliding id is refused as the database would.
- The state column is an enumeration; `WorkState.TextFaithful` relates it to the text. Timestamps are naturals, and `now()` of the database and the clock of the program are one input.
- ControlPlanes.ControlPlane.ProcessWork: a crash of the loop itself is a step of the protocol and not an end of the method.
- ControlPlanes.ControlPlane.Run: creating the focus directory and connecting the listener come before the loop and can only end it; why the loop wakes up is an input.
- Submissions.ConflictEndsMergedOrNothing: one step only; `Submissions.LookupToMerge` is about the whole submission.
- A restarted process is a further plane with its own counter; a crashed loop never comes back.
- The counter is an integer: it never goes below zero, and a `usize` overflow from failed creations is not modelled.
- RequestBody.SerializeUserMessage: the message vector is a value handed in and returned, because the caller owns it and nothing else refers to it; the same holds for the other serializer.
- Focus cleanup, hook environments and working directories, file system races between the existence check and the read.
- `list_work_items`, `health_check`, the builder of new items, telemetry, configuration, command line, templates, memory search, ledger and skills.

# gori verification

A Dafny model of the concurrent and streaming core of gori, a Go library for LLM agents, with
proofs of what its documentation and comments promise. Five parts:

- **Network bus** (`NetbusHub`, `NetbusLog`, `NetbusProtocol`, `NetbusConns`, `NetbusResume`,
  `NetbusSafety`, `NetbusClient`, `NetbusTopics`, `NetbusReplay`, `Bridge`). The hub's ring and
  subscriber table are classes. Hub, subscription handlers and reconnecting clients together are a
  transition system in which assigning an id and broadcasting it are separate steps, as are
  registering a subscriber and taking its replay snapshot. The main results are exact resume and
  loop freedom of bridges.
- **A2A task engine** (`A2aTypes`, `TaskStore`, `TaskEngine`, `TaskBroker`, `TaskSubscribe`,
  `GrpcSubscribe`, `GrpcViews`, `A2aClient`, `A2aOutcomes`, `TaskOutcomes`). The task table with
  its eviction and the event broker are classes; two transition systems run any number of tasks,
  cancellations and subscribers. The main results are the lifecycle every stream renders, the
  table's size bound, convergence of subscribers on the stored task, and, from a handler's result
  to the text both clients return, agreement of the streaming with the blocking client.
- **Agent loop and session window** (`Session`, `Agent`, `AgentTurns`, `SessionValidity`): tool
  calls stay paired with their results, and the window bounded, over any history of runs.
- **Streaming decoders** (`Sse`, `SseLines`, `SseFrames`, `SseFields`, `Utf8`, `Utf8Encoding`,
  `CliBackend`, `OpenAi`, `OpenAiProtocol`, `OpenAiFragments`, `OpenAiResults`, `Anthropic`,
  `AnthropicBlocks`, `AnthropicMessages`): results do not depend on terminators, fragmentation or
  interleaving, and where they do, exactly when; streamed and blocking responses are compared.
- **JSON-RPC call matching** (`RpcClient`, `RpcProtocol`, `RpcDelivery`).

Code that changes state step by step is a method on a class or a method with a loop, proved equal
to a function of its inputs or its old state; the theorems are about those functions and about
transition systems built from them. A byte string is a sequence of characters (`Prelude.Bytes`).
`dafny verify dfyconfig.toml` checks everything.

Two limits of the code that its comments do not mention, each with a lemma:

- `internal/sse/sse.go:106-136` takes LF, CR and CRLF as terminators; a CR directly followed by an
  empty line ended by LF reads as one CRLF, so two lines become one (`SseLines.MergeChangesEvents`).
- `a2a/taskstore.go:462-463` says early deltas stay recoverable from the final artifact; with a
  buffer of one event a dropped subscriber is replayed the final status alone
  (`TaskSubscribe.FinalTwo`).

## Model

| member | source | states |
|---|---|---|
| Sse.Scanner.StripBomOnce | internal/sse/sse.go:96-104 | discards one leading byte-order mark, on the first call only |
| Sse.Scanner.ReadLine | internal/sse/sse.go:111-136 | the line, error and unread rest are those of one left-to-right reading of the unread bytes, with LF, CR and CRLF each ending a line and a line over the cap an error |
| Sse.Scanner.Next | internal/sse/sse.go:39-92 | the returned event or error, and what stays unread, are those of the field-by-field reading `NextFrom` (comments, `event`, `data`, `id`, `retry`, blank lines, the size cap, dispatch at end of stream) |
| SseLines.EventConsumes | internal/sse/sse.go:39-92 | an event returned with empty accumulators took at least four bytes of the stream |
| SseLines.EventCount | internal/sse/sse.go:39-92 | scanning ends: n bytes give at most n/4 events |
| SseLines.ScanReadsLines | internal/sse/sse.go:39-136 | for lines without CR or LF, each with its own terminator and no CR running into an LF-terminated empty line, all events and the final error are those of a reference reading of the line list (section 9.2.6 of the WHATWG HTML Living Standard), in which terminators do not occur |
| SseLines.ScanReadsKept | internal/sse/sse.go:39-136 | for every line list and every choice of terminators: the events and the final error are those of the reference reading of the lines that survive, where an LF-terminated empty line right after a CR does not |
| SseLines.KeptAll | internal/sse/sse.go:123-128 | every line survives if and only if no CR is directly followed by an LF-terminated empty line |
| SseLines.KeptDecides | internal/sse/sse.go:39-136 | two choices of terminators under which the same lines survive give the same events and the same final error |
| SseLines.TerminatorInvariance | internal/sse/sse.go:111-136 | any two choices of LF, CRLF or CR per line under which every line survives give the same events and the same final error |
| SseLines.LinesRecoveredIff | internal/sse/sse.go:111-136 | calling `readLine` to its first error gives back exactly the lines, the tail and the stream's own end if and only if no CR is followed by an LF-terminated empty line and no line is over the cap |
| SseLines.MergeChangesEvents | internal/sse/sse.go:123-128 | the excluded case does matter: a stream whose event count changes from two to one |
| Decimal.ParseFormat | netbus/hub.go:264-271 | parsing a formatted id gives the id back |
| Decimal.FormatInjective | internal/rpc/client.go:90-91 | two call numbers never share a key |
| SseFrames.FrameRoundTrip | netbus/hub.go:236-262 | scanning any run of `writeEvent` frames and keep-alive comments gives exactly the events written, in order: decimal id, kind without CR and LF, data |
| SseFrames.CutConnection | netbus/hub.go:248-262 | a connection cut after any byte delivers a prefix of the events written, and only at a clean end at most one more, the next event with its data cut short |
| SseFields.EveryLine | internal/sse/sse.go:55-77 | every line without CR and LF that is not blank is a comment, a bare field name, or a field whose value is set off by one space or none |
| SseFields.StreamSaid | internal/sse/sse.go:39-136 | from bytes to events, for any blocks of such lines with any terminators of which no two read as one, with or without a byte-order mark: one event per block with data; its data is the data values, each with a line feed, less the last one; its kind, id (none with a NUL) and retry are the last ones given, an id or retry of blocks without data going to the next event; a last block without a blank line counts only at a clean end |
| SseFields.Refused | internal/sse/sse.go:64-68 | after the events of the blocks before it, the first line over 16 MiB, or the first that takes the data of its event over 16 MiB, ends the scan with its own error, whatever follows |
| SseFields.SanitiseIs | netbus/hub.go:248-262 | the kind sanitiser goes character by character, drops CR and LF and keeps what has neither |
| Utf8.PartialIff | provider/clibackend/clibackend.go:106-116 | a character is cut short (section 4 of RFC 3629) exactly when some continuation completes it |
| Utf8.DecodeStable | provider/clibackend/clibackend.go:106-116 | once a full rune is there, later bytes do not change how it decodes |
| Utf8Encoding.EncodeWellFormed | provider/clibackend/clibackend.go:106-116 | every scalar value's encoding (section 3 of RFC 3629) is one character of the grammar, with that value |
| Utf8Encoding.WellFormedEncodes | provider/clibackend/clibackend.go:106-116 | every character of the grammar is the encoding of its value, a scalar value: no overlong form, no surrogate, nothing above U+10FFFF |
| Utf8Encoding.DecodeIs | provider/clibackend/clibackend.go:112-112 | decoding gives the scalar value whose encoding the bytes begin with and that encoding's length, and if there is none the replacement character and one byte |
| Utf8Encoding.PartialBegins | provider/clibackend/clibackend.go:109-110 | bytes wait for more exactly when they are a proper beginning of some scalar value's encoding |
| Utf8Encoding.TextRoundTrip | provider/clibackend/clibackend.go:106-116 | decoding the encoding of any text gives the text back |
| CliBackend.CompleteUtf8Prefix | provider/clibackend/clibackend.go:106-116 | the loop computes the length of the longest run of full runes |
| CliBackend.HeldBack | provider/clibackend/clibackend.go:106-116 | what is left after the prefix is empty or one character cut short, at most three bytes |
| CliBackend.PrefixDecodesAlone | provider/clibackend/clibackend.go:106-116 | for every continuation, decoding the prefix alone and then the rest is decoding the whole |
| CliBackend.FaithfulRead | provider/clibackend/clibackend.go:166-200 | every read keeps it true that pieces plus held-back bytes are the input so far, that at most three bytes are held back, and that decoding piece by piece is decoding the whole whatever follows |
| CliBackend.FaithfulEnd | provider/clibackend/clibackend.go:200-210 | at the end of output the pieces concatenate to the input and decode to its runes, valid or not |
| CliBackend.Stream | provider/clibackend/clibackend.go:155-224 | for every byte sequence and every split into reads the call ends as `Complete` would on the whole output, with faithful pieces, unless reading failed (at most three bytes are then lost) or the callback refused a piece or the final done event; nothing is handed over after a refusal |
| RpcClient.Client.Register | internal/rpc/client.go:90-105 | a fresh number with a fresh channel under its key, or no change once closed |
| RpcClient.Client.Remove | internal/rpc/client.go:113-123 | the caller's entry is gone, nothing else changed |
| RpcClient.Client.Take | internal/rpc/client.go:62-66 | the channel registered under the key, if any, and the entry is gone |
| RpcClient.Client.Fail | internal/rpc/client.go:38-47 | whatever the order: closed, nothing pending, and exactly the pending channels closed, each once |
| RpcProtocol.StepKeepsInv | internal/rpc/client.go:35-144 | every critical section, send, receive and cancellation keeps the protocol invariant (what the reader does with each frame: `RpcDelivery`) |
| RpcProtocol.RunKeepsInv | internal/rpc/client.go:35-144 | so it holds after every interleaving |
| RpcProtocol.TableReady | internal/rpc/client.go:98-105 | in every reachable state the table is as the client's methods require it |
| RpcProtocol.OwnReply | internal/rpc/client.go:62-69 | a call that returns an answer returns the reply carrying its own id (section 5 of the JSON-RPC 2.0 Specification), whatever duplicates or strays arrive |
| RpcProtocol.ChannelOnce | internal/rpc/client.go:42-69 | a call's channel sees at most one value or one close, never both, and a value answers that call |
| RpcProtocol.ReaderNeverBlocks | internal/rpc/client.go:64-69 | the reader's send is always possible and never on a closed channel |
| RpcProtocol.PendingUnresolved | internal/rpc/client.go:98-105 | every pending entry belongs to a call that has not returned and whose channel is untouched |
| RpcProtocol.FailureIsFinal | internal/rpc/client.go:38-47 | from a read failure on, nothing is pending in any later state and every waiting caller can return |
| RpcProtocol.TakenMeansAnswered | internal/rpc/client.go:62-69 | a caller still waiting without an entry has its reply or close in hand, or the reader is about to send it |
| RpcDelivery.SkippedOrStray | internal/rpc/client.go:49-69 | a frame that does not decode, one with a method and neither result nor error, and a reply nobody waits for change nothing |
| RpcDelivery.ReplyTaken | internal/rpc/client.go:49-69 | in every reachable state with the reader free and call n pending, a decodable frame with that id and a result or an error (or no method) is taken to be sent to channel n and no other, the send can be done, and its body is then in that channel |
| RpcDelivery.DeliveredStays | internal/rpc/client.go:126-143 | whatever else happens, it stays there until the call returns, with that reply or because its caller gave up |
| RpcDelivery.ReplyReaches | internal/rpc/client.go:49-143 | from the transport to the caller: after any further steps the call has returned that body, or gave up, or, if it waits, can return that body at once |
| RpcDelivery.CallAnswered | internal/rpc/client.go:85-137 | from any reachable state with the reader free a new call can register, write, be answered and return that answer, leaving the table as it was |
| RpcDelivery.CallGivesUp | internal/rpc/client.go:111-143 | a call can give up while writing, because of the write or its context, or while waiting, because of its context, and then returns that reason with its entry gone |
| RpcDelivery.FailedCalls | internal/rpc/client.go:98-129 | after a read failure a call that had not registered returns the closed error, and one that waits without a reply the read error |
| RpcDelivery.ErrorKept | internal/rpc/client.go:38-47 | the read error is the first one met, in every later state |
| Session.Session.Append | session.go:23-28 | the messages are added at the end |
| Session.Session.Trim | session.go:49-71 | the history becomes its suffix from the cut |
| Session.CutAt | session.go:49-71 | the cut is a user message or the end of the history: the last user message up to the window's start, or else the first one after it |
| Session.CutUnique | session.go:57-68 | walking back from the window and then forward finds that cut and no other |
| Agent.Agent.Observe | agent.go:125-153 | the tool message has one result per call, in call order, also when the calls finish in any order |
| Agent.Agent.AnswerTruncatedTools | agent.go:183-194 | calls of a stopped answer are answered by error results in order; no calls, no message |
| Agent.Agent.DriveLoop | agent.go:206-242 | on every exit (done, cancelled, error, out of steps) history, result and usage totals are those of the step function `Drive` |
| Agent.Agent.RunMessage | agent.go:163-176 | one run: nothing when the context is already done, otherwise input, loop and deferred trim |
| AgentTurns.UsesInOrder | message.go:53-63 | the calls of a message are exactly its call blocks, in order |
| AgentTurns.ReactionSays | agent.go:125-196 | after an answer with calls that stopped with tool_use or end_turn, result i has call i's id and name, and is the tool's output without error if and only if the tool is registered and returned it, otherwise an error with that call's own failure; after any other stop every result is an error that names that stop, whatever the tools would do |
| AgentTurns.DriveSays | agent.go:206-242 | the loop appends, for every answer it took, the answer and its results as above, in order, and nothing else |
| AgentTurns.RunSays | agent.go:163-242 | a whole run adds the input and those turns, at most eight of them unless configured otherwise, then trims; with the context done before, nothing |
| AgentTurns.TrimKeeps | session.go:49-71 | trimming to the last k keeps from the last user message at or before where the last k start |
| AgentTurns.TotalIsSums | agent.go:222-224 | each part of the total usage is the sum of that part over the answers |
| SessionValidity.ReactionAnswers | agent.go:125-153 | whatever tools do, the message after an answer with calls has exactly their ids in order, and there is none without calls |
| SessionValidity.DriveKeeps | agent.go:206-242 | the loop keeps every call answered and every tool message grounded, and adds at most two messages a step, none of them a user's |
| SessionValidity.DriveAccounts | agent.go:206-242 | what a run took from its turns: answers that call tools until one that does not, a failure, a cancellation or the step limit, as its exit says; the last message is the last answer's and every answer's usage is counted exactly once |
| SessionValidity.SuffixKeeps | session.go:49-71 | cutting at a user message keeps all of that |
| SessionValidity.TrimmedWindow | session.go:49-71 | with KeepLast = k > 0 the window starts with a user message and exceeds k by less than one turn |
| SessionValidity.SessionAlwaysValid | agent.go:163-242 | from an empty session, after any number of runs on any exits: every assistant message with calls is directly followed by the tool message answering exactly those ids in order, no tool message stands alone, and with KeepLast = k > 0 the history starts with a user message and has at most k + 2*maxSteps messages |
| SessionValidity.BoundReached | session.go:49-71 | the bound is met with equality by a run whose turn fills every step |
| OpenAi.HandleTool | provider/openai/openai.go:488-527 | one tool entry: accumulator and events as specified, stopping at the event the callback refuses |
| OpenAi.HandleChunk | provider/openai/openai.go:474-531 | one chunk: usage, text, tool entries in order, finish reason |
| OpenAi.HandleStops | provider/openai/openai.go:542-560 | the final loop: one ToolUse and one stop per named accumulator, in order of appearance (what its input is: `ArgumentsKept`) |
| OpenAi.Stream | provider/openai/openai.go:424-565 | response or error and the events are those of the fold over the frames; with a refusing callback the events are a prefix of them |
| OpenAiProtocol.ToolProtocol | provider/openai/openai.go:487-560 | for arbitrary chunks on a successful stream, in terms of the tool entries they carry: an index that is ever named has exactly one start, then deltas joining to all its arguments, then one stop under the start's id (the last id given up to the first name, or a made-up one); a nameless index has no event; the response is the joined text and then one call per named index, in order of first appearance, with that id, those arguments and the last name given |
| OpenAiProtocol.FoldIs | provider/openai/openai.go:492-514 | what any entries of one index assemble to, consistent or not: the id fixed by the first named entry, the last name, all the arguments; without a name, an unstarted accumulator |
| OpenAiProtocol.SaidTells | provider/openai/openai.go:505-527 | and what they emit meanwhile: nothing before a name, then one start and the arguments so far |
| OpenAiFragments.ScanTracks | provider/openai/openai.go:440-532 | whatever the interleaving, text, order, finish reason and every accumulator depend only on the concatenated text, the entries of each index and the order of first appearance |
| OpenAiFragments.FoldOfCut | provider/openai/openai.go:492-527 | the entries of one call, cut anywhere, assemble to the call, its id replaced by a synthetic one when the id came after the name |
| OpenAiFragments.FragmentationInvariance | provider/openai/openai.go:389-413 | every cut of a reply into chunks gives `Complete`'s stop reason, and `Complete`'s content if and only if every id arrived no later than its name (or is the one that would be made up) |
| OpenAiFragments.LateIdLost | provider/openai/openai.go:498-514 | a concrete stream with the id one entry after the name, whose call comes back under another id |
| OpenAiFragments.OneChunk | provider/openai/openai.go:480-564 | every reply whose calls have ids and names is carried by some stream, so the invariance is about every reply |
| OpenAiResults.ArgumentsKept | provider/openai/openai.go:542-560 | on every successful stream the content is the text, if any, and one call for every index announced; each call has the id and the last name of its index, and as input the concatenation of the argument events emitted for it, or `{}` if and only if there were none; so never nothing |
| OpenAiResults.WholeInputs | provider/openai/openai.go:389-413 | the blocking call's inputs are the arguments as they came, `{}` if and only if there were none |
| OpenAiResults.MadeUpIdsDiffer | provider/openai/openai.go:509-514 | ids made up for different indices differ |
| OpenAiResults.TextAndDone | provider/openai/openai.go:474-565 | on every successful stream the text events join to the text of the response, and one done event with its usage comes last |
| OpenAiResults.StreamOutcome | provider/openai/openai.go:424-565 | how a stream ends: an undecodable event, an error event and a failing read are errors; otherwise there is a response exactly if a finish reason came, with the stop reason of the last one and the last usage |
| Anthropic.HandleBlock | provider/anthropic/anthropic.go:392-480 | one block event: accumulators, highest index and events as specified, including recovery after a lost start |
| Anthropic.Stream | provider/anthropic/anthropic.go:351-531 | response or error and the events are those of the fold over the frames; with a refusing callback the events are a prefix of them |
| AnthropicBlocks.ScanProjects | provider/anthropic/anthropic.go:372-518 | a scan fails exactly with the first message-level error; otherwise each block is the fold of its own events and the message state the fold of the message-level ones |
| AnthropicBlocks.FoldsDecide | provider/anthropic/anthropic.go:520-530 | streams whose blocks fold alike and whose message-level events agree assemble the same response |
| AnthropicBlocks.InterleavingInvariance | provider/anthropic/anthropic.go:392-531 | same per-index subsequences and same message-level events, same response or error |
| AnthropicBlocks.LateStartIff | provider/anthropic/anthropic.go:404-451 | moving a start past its own deltas builds the same block if and only if the deltas ahead of the first text or thinking delta carry no signature and no JSON |
| AnthropicBlocks.DelayedStart | provider/anthropic/anthropic.go:404-451 | delaying a block's first start past its own deltas, the first of them text or thinking, with anything of other blocks in between, leaves the response as it was |
| AnthropicMessages.StreamIsComplete | provider/anthropic/anthropic.go:263-286 | a reply with a stop reason, its blocks cut into deltas in any way and interleaved in any way, start frames of text and thinking blocks lost or not, comes out with the stop reason and usage `Complete` decodes, and with its content if and only if no text block is empty and every tool input is valid JSON |
| AnthropicMessages.ContentIs | provider/anthropic/anthropic.go:520-526 | the content of such a stream, block by block: empty text dropped, missing or invalid tool input replaced by `{}` |
| AnthropicMessages.Outcome | provider/anthropic/anthropic.go:367-379 | without an error frame: the read error if there was one, otherwise a response if and only if a stop reason or a message stop came |
| AnthropicMessages.ErrorDecides | provider/anthropic/anthropic.go:383-391 | the first error event or undecodable frame is the result, whatever came before and after |
| AnthropicMessages.StopTold | provider/anthropic/anthropic.go:481-495 | the stop reason is that of the last message delta with one, by the table of four |
| AnthropicMessages.OutputTold | provider/anthropic/anthropic.go:481-498 | the output tokens are the last positive count |
| AnthropicMessages.InputTold | provider/anthropic/anthropic.go:499-514 | the input tokens are those of the last message start, cached ones included |
| AnthropicMessages.TextTold | provider/anthropic/anthropic.go:452-462 | the text events join to all text sent, and the thinking events to all thinking sent, in order of arrival |
| AnthropicMessages.ToolTold | provider/anthropic/anthropic.go:392-480 | a tool call sent in one go, anywhere in a stream, is told as its start, its argument fragments as cut, and a stop under the start's id |
| AnthropicMessages.DoneLast | provider/anthropic/anthropic.go:527-530 | a response is announced once, last, with its usage |
| NetbusHub.Ring.Add | netbus/hub.go:285-298 | the event gets the log's next id and the buffer is again the log's last `cap` entries |
| NetbusHub.Ring.EventsAfter | netbus/hub.go:300-310 | the walk over the buffer returns the log from the id on, less what was evicted |
| NetbusHub.Hub.AddSub | netbus/hub.go:148-160 | an open registered channel under a fresh id, or after shutdown a closed one and no registration |
| NetbusHub.Hub.RemoveSub | netbus/hub.go:162-169 | a registered channel gets its one close and is forgotten; otherwise nothing happens |
| NetbusHub.Hub.Broadcast | netbus/hub.go:134-146 | in any order, every matching subscriber with room gets the event and the full ones drop it; the counts of closes and of sends after a close say that no closed channel was sent to |
| NetbusHub.Hub.CloseAll | netbus/hub.go:79-87 | exactly the registered channels get one close more, which is their first, and none stays registered |
| NetbusClient.Receiver.Stream | netbus/client.go:168-210 | over everything read on all connections so far, what was injected is what the duplicate and origin filters leave, and the last id is the highest seen |
| NetbusClient.Receiver.Back | netbus/client.go:149-162 | the wait doubles up to 30 s after an unstable connection and starts over after a stable one |
| NetbusClient.Receiver.Receive | netbus/client.go:131-164 | the same over any number of reconnects |
| NetbusClient.PassedIsAccept | netbus/client.go:199-204 | on positive ids the loop's filter is the filter of the resume protocol |
| NetbusClient.InjectedIncrease | netbus/client.go:199-207 | whatever connections deliver, injected ids strictly increase across all of them and none has the client's own origin |
| NetbusClient.BackoffIs | netbus/client.go:136-163 | the wait before reconnecting is a tenth of a second, doubled for every connection in a row that did not stay up, and never above half a minute |
| NetbusTopics.PassesIff | netbus/client.go:199-204 | a numbered event is let through if and only if its id is above all ids seen before |
| NetbusTopics.UnnumberedPasses | netbus/client.go:199-204 | an event without a number is always let through and moves nothing |
| NetbusTopics.InjectedIff | netbus/client.go:205-208 | of what is let through exactly the events of other origins are injected |
| NetbusConns.BroadcastOk | netbus/hub.go:134-146 | broadcasting keeps a subscription's queue an increasing run of matching log events, all of them while none was dropped |
| NetbusConns.SnapshotOk | netbus/hub.go:203-209 | the replay snapshot, taken at any moment between add and broadcast, keeps the subscription's account |
| NetbusConns.ReplayWrites | netbus/hub.go:207-215 | so does every replayed event |
| NetbusConns.DeliverOk | netbus/hub.go:221-235 | so does every event off the queue, written or skipped as already replayed, although a live event may be older than the snapshot |
| NetbusResume.StepKeeps | netbus/hub.go:106-246 | every step of hub, handlers and clients keeps the whole invariant |
| NetbusResume.RunKeeps | netbus/hub.go:106-246 | so it holds after every interleaving |
| NetbusResume.AcceptedIncrease | netbus/client.go:131-210 | unconditionally: the ids a client accepts strictly increase across all its connections, and everything accepted is a matching event of the log |
| NetbusResume.ResumeExact | netbus/client.go:131-210 | if none of its queues overflowed and no snapshot had lost an id above Last-Event-ID, the accepted sequence is exactly the topic-filtered log from its first event on |
| NetbusResume.CaughtUp | netbus/hub.go:221-235 | once a client whose subscriptions were all clean has read what its live, drained subscription wrote, it has every event broadcast so far: exactly the matching ones since it resumed or registered, also when there are none, and the whole from its first event on |
| NetbusTopics.WithoutTopics | netbus/hub.go:134-146 | without topics a stretch of the log comes whole |
| NetbusTopics.WithTopics | netbus/hub.go:134-146 | with topics an event of the stretch comes if and only if its topic is one of them |
| NetbusTopics.BroadcastReaches | netbus/hub.go:134-146 | a registered open channel without topics, or with the event's topic among them, gets the event at its end if fewer than 64 are queued, and otherwise loses it with that recorded; any other channel is unchanged |
| NetbusTopics.ResumeSlice | netbus/client.go:131-210 | what a client without topics, none of whose subscriptions overflowed or resumed over a gap, accepted is a contiguous slice of the log |
| NetbusTopics.ResumeOnTopics | netbus/client.go:131-210 | a client with topics accepted, of that slice, exactly the events on them |
| NetbusTopics.EventReaches | netbus/hub.go:106-235 | from any reachable state of a hub that is not shut down: a new client can join, subscribe, and be given a published event of its topics, or of any topic if it names none, under the next id and with its origin |
| NetbusReplay.ResumeReaches | netbus/hub.go:203-235 | from any reachable state of a hub that is not shut down: a client that has seen events and missed none the ring has lost can reconnect and read its replay, and has then accepted exactly the events on its topics it had missed, in order |
| NetbusSafety.RingIsLog | netbus/hub.go:285-310 | in every reachable state the ring is the last min(seq, cap) log entries with consecutive ids, `after(id)` is the matching log suffix, and no logged event lacks an origin |
| NetbusTopics.PublishLogs | netbus/hub.go:121-132 | a published event is logged as it came, under the next id, only an empty origin replaced by "external" |
| NetbusTopics.SnapshotHas | netbus/hub.go:300-310 | a snapshot after an id has, in order, exactly the logged events above it that are among the last cap |
| NetbusSafety.Subscriptions | netbus/hub.go:134-235 | every queue is an increasing subsequence of the topic-filtered log, the whole of it from the last read on while nothing was dropped; no connection carries an id twice; a registered channel was never closed, any other exactly once, and none was sent to after its close |
| NetbusSafety.ClosedForGood | netbus/hub.go:79-169 | from its close on, a channel is neither closed again nor sent to in any step: its handler drains it |
| NetbusSafety.BroadcastIsBroadcast | netbus/hub.go:134-146 | the transition system's broadcast does to table and channels what `Hub.Broadcast` does |
| NetbusSafety.CloseAllIsCloseAll | netbus/hub.go:79-87 | its shutdown does what `Hub.CloseAll` does |
| NetbusSafety.SubscribeIsAddSub | netbus/hub.go:148-160 | its subscribe does what `Hub.AddSub` does |
| NetbusSafety.RemoveIsRemoveSub | netbus/hub.go:162-169 | its removal does what `Hub.RemoveSub` does |
| Bridge.StepKeeps | netbus/client.go:96-125 | emitting, forwarding, arrival, loss, strangers' posts and receiving keep the bridge invariant |
| Bridge.LoggedOnce | netbus/hub.go:121-129 | every logged event has an origin, and the log has at most one entry per local emission |
| Bridge.NeverEchoed | netbus/client.go:106-119 | every post is a local emission of the process that makes it, none is posted twice: nothing injected is republished |
| Bridge.InjectedOnce | netbus/client.go:199-208 | each bus is fed an emission at most once, and never one of its own process |
| Bridge.LoggedAsEmitted | netbus/client.go:106-119 | a logged local emission is under its process's origin, on the topic it was emitted on, and that topic may be forwarded |
| Bridge.ForwardPosts | netbus/client.go:106-119 | the bridge posts the next event of its queue if and only if it began here and its topic is on the list or there is no list |
| Bridge.ReceiveFeeds | netbus/client.go:199-208 | a received event changes nothing if seen before, only the position if it began here, and otherwise is fed to the bus |
| Bridge.RelayReaches | netbus/client.go:96-210 | from any reachable state an emission on a topic that may be forwarded can be posted, logged and fed to any other process, and feeds nothing at its own |
| TaskStore.EvictedFacts | a2a/taskstore.go:137-182 | any eviction drops only idle terminal tasks, changes no task, keeps the coupled-map invariant and leaves at most max(MaxTasks, in flight) tasks |
| TaskStore.EvictedByStamp | a2a/taskstore.go:137-182 | by the tasks' own timestamps: every idle terminal task more than the maximal age (an hour by default) old goes; any other task that goes was idle and terminal, the table stays at its cap (1024 by default) or above, and no idle task kept is older; an unknown timestamp counts as the zero time |
| TaskStore.TaskStore.Begin | a2a/taskstore.go:106-115 | a new task is stored as working and in flight, the store evicted; afterwards its size is at most max(MaxTasks, in flight) |
| TaskStore.TaskStore.Complete | a2a/taskstore.go:75-84 | a terminal task is left alone, otherwise it is completed with the artifact and its time |
| TaskStore.TaskStore.Fail | a2a/taskstore.go:86-95 | the same for failure with the error's text |
| TaskStore.TaskStore.Cancel | a2a/taskstore.go:272-287 | not found, not cancelable, or canceled with the handler interrupted; only that task's status changes |
| TaskStore.TaskStore.Register | a2a/taskstore.go:305-309 | the broker joins an in-flight task |
| TaskStore.TaskStore.End | a2a/taskstore.go:117-121 | in-flight entry and broker go together |
| TaskStore.TaskStore.EvictLocked | a2a/taskstore.go:137-182 | the two passes compute the eviction relation |
| TaskStore.TaskStore.EvictAged | a2a/taskstore.go:145-156 | an idle terminal task is dropped if and only if its time is known and before the cutoff |
| TaskStore.TaskStore.EvictOver | a2a/taskstore.go:157-181 | nothing within the cap; over it, down to the cap or the last idle task, none dropped newer than one kept, unparseable times counting as oldest |
| TaskStore.TaskStore.TerminalTime | a2a/taskstore.go:187-197 | the cached or parsed time, caching what it parsed and changing no task's time |
| TaskEngine.StepKeeps | a2a/taskstore.go:201-327 | every step of any number of Send, SendStream and SendAsync calls, with cancellations in between, keeps the engine invariant |
| TaskEngine.StoreInvariant | a2a/taskstore.go:75-213 | in every reachable state brokers are in flight, in-flight tasks are stored, terminal times belong to stored tasks, non-terminal tasks are in flight; every begin leaves at most max(MaxTasks, in flight) tasks |
| TaskEngine.LifecycleTold | a2a/taskstore.go:229-257 | every finished stream rendered working, deltas (the first restarting, the rest appending), the full artifact exactly if the task is completed, then one final terminal status, and that task is what the store holds in this and every later state |
| TaskEngine.TerminalAbsorbing | a2a/taskstore.go:75-95 | from any reachable state on, a terminal task is never changed and never comes back under its id |
| TaskOutcomes.SettleStores | a2a/taskstore.go:75-95 | in every state of a run: a handler's result finds its task working, and then stores it completed with one artifact with exactly the handler's parts, or failed with the error's text as message, stamped with the time in whole seconds; or finds it cancelled and leaves it so |
| TaskOutcomes.CancelStores | a2a/taskstore.go:272-287 | a cancellation of a task that is not terminal leaves it canceled, without message or artifact |
| TaskOutcomes.CancelIff | a2a/taskstore.go:272-287 | a cancellation changes nothing if and only if there is no such task or it is completed, failed, canceled or rejected |
| TaskOutcomes.ResultStays | a2a/taskstore.go:75-95 | from then on, in any run, the task is that one wherever it is seen: in the store while kept there, and in every snapshot |
| TaskOutcomes.CancelStays | a2a/taskstore.go:272-287 | the same after a cancellation |
| TaskOutcomes.TimesAreStamps | a2a/taskstore.go:75-95 | in every reachable state the time eviction goes by is the task's own timestamp |
| TaskOutcomes.TaskRuns | a2a/taskstore.go:217-257 | from any reachable state a streamed or detached task can run to its end, and its stream is told working, the emitted text, the handler's parts if it succeeded, and the stored final status |
| TaskBroker.TaskBroker.Publish | a2a/taskstore.go:471-487 | in any order, subscribers with room get the event, the full ones are marked, get their first and only close and are removed; no closed channel is sent to; the buffer is the log's last `max` events |
| TaskBroker.TaskBroker.CloseBroker | a2a/taskstore.go:489-500 | exactly the registered channels get one close more, which is their first, and a second call does nothing |
| TaskBroker.TaskBroker.Subscribe | a2a/taskstore.go:504-524 | the replay buffer with an open registered channel, or a closed one when done |
| TaskBroker.TaskBroker.Unsubscribe | a2a/taskstore.go:516-523 | a registered channel gets its one close; a channel that was dropped or closed gets none |
| TaskBroker.TaskBroker.EmitFinal | a2a/taskstore.go:384-410 | the backward walk finds the latest artifact and the latest status, emitted in that order |
| TaskSubscribe.StepKeeps | a2a/taskstore.go:350-380 | publish, close, subscribe, replay, receive, drop, leave and unsubscribe keep every subscriber's account |
| TaskSubscribe.Suffix | a2a/taskstore.go:471-524 | replay plus live is one contiguous stretch of the event log that starts with at least the last min(max, n) events at subscription; a suffix if the subscriber was not dropped |
| TaskSubscribe.ClosedOnce | a2a/taskstore.go:471-524 | in every interleaving of publish, drop, close and unsubscribe a registered channel was never closed, any other exactly once, and none was sent to after its close |
| TaskSubscribe.ClosedForGood | a2a/taskstore.go:471-524 | from its close on, a channel is neither closed again nor sent to in any step: its queue only drains |
| TaskSubscribe.FinalTwo | a2a/taskstore.go:384-410 | emitFinal replays the log's final artifact and status if and only if the buffer holds two events |
| TaskSubscribe.EndsOnFinal | a2a/taskstore.go:350-380 | whoever found its channel closed after the last event was given only events of the log, ending with its last two |
| TaskSubscribe.EndsOnStatus | a2a/taskstore.go:350-410 | with a buffer of any size, its last event is the final status |
| TaskSubscribe.PublishReaches | a2a/taskstore.go:471-487 | in any run, a registered subscriber with fewer than 64 events queued gets the next one and stays; a full one is dropped without it, its channel closed once; any other is untouched |
| TaskSubscribe.BufferIs | a2a/taskstore.go:471-487 | the buffer is the last events, 4096 of them unless another number is configured |
| TaskSubscribe.SubscriberHears | a2a/taskstore.go:350-380 | from any reachable state of an open broker a new subscriber can be given the buffered events, in order, then the next one published, and then find its channel closed |
| TaskSubscribe.PublishIsPublish | a2a/taskstore.go:471-487 | the transition system's publish does to buffer, channels and table what `TaskBroker.Publish` does |
| TaskSubscribe.CloseIsCloseBroker | a2a/taskstore.go:489-500 | its close does what `TaskBroker.CloseBroker` does |
| TaskSubscribe.SubscribeIsSubscribe | a2a/taskstore.go:504-524 | its subscribe does what `TaskBroker.Subscribe` does |
| TaskSubscribe.UnsubscribeIsUnsubscribe | a2a/taskstore.go:516-523 | its unsubscribe does what `TaskBroker.Unsubscribe` does |
| GrpcSubscribe.SubscribeToTask | a2a/grpc/grpc.go:442-507 | the client's fold: last payload, else last status with the last full artifact, else the deltas joined from the last restart under the first delta's identity |
| GrpcViews.PayloadWins | a2a/grpc/grpc.go:483-496 | a task payload is the result, the last one if there are more, and takes the stream's id if it has none |
| GrpcViews.StatusSeen | a2a/grpc/grpc.go:463-467 | without a payload: the last status received, and its task id if it names one |
| GrpcViews.FullSeen | a2a/grpc/grpc.go:468-474 | without a payload: the last full artifact, whatever deltas came |
| GrpcViews.DeltasSeen | a2a/grpc/grpc.go:475-489 | with deltas and message chunks only: one artifact with the first one's identity and, as its one part, everything added since the last restart |
| GrpcViews.NothingSeen | a2a/grpc/grpc.go:499-506 | with none of these: no artifact |
| GrpcSubscribe.StoredAgrees | a2a/grpc/grpc.go:249-260 | a subscription without a live broker gives the same view as GetTask |
| GrpcSubscribe.Converges | a2a/taskstore.go:350-410 | a completed detached task with a buffer of at least two: any subscriber that found its channel closed after the last event, dropped or not, has the same state and artifact as GetTask gives from the store |
| GrpcViews.UncompletedConverges | a2a/taskstore.go:350-410 | a detached task that failed or was cancelled, a buffer of any size: a subscriber that found its channel closed after the last event has the stored status, and has the task as GetTask gives it if and only if it was given no delta |
| A2aClient.StreamAssembler.AddDelta | a2a/protocol.go:173-179 | a delta joins or restarts the accumulated text |
| A2aClient.StreamAssembler.SetFinal | a2a/protocol.go:182-182 | the last final text is remembered |
| A2aClient.StreamAssembler.Text | a2a/protocol.go:186-194 | a non-empty final text, otherwise the joined deltas |
| A2aClient.SendMessageStream | a2a/client.go:204-274 | the first failure among the events, else a read error, else the assembled text of everything told |
| A2aOutcomes.StopDecides | a2a/client.go:221-257 | the first error, failed, canceled or rejected task or status is the result, with its state and message text, whatever follows |
| A2aOutcomes.BrokenOff | a2a/client.go:207-213 | without one, a failing read is the result, whatever text came |
| A2aOutcomes.LastSettledWins | a2a/protocol.go:186-194 | otherwise the last text of a full artifact or of a completed, input-required or auth-required task, unless it is empty |
| A2aOutcomes.DeltasWin | a2a/protocol.go:173-194 | otherwise everything added since the last restart, the restart included |
| A2aOutcomes.TaskTextIs | a2a/client.go:125-136 | a task's text is that of all parts of all its artifacts, and only when that is empty its status message's |
| A2aOutcomes.MessageAgrees | a2a/client.go:140-238 | a direct message gives the same text whole and streamed in any cut of its parts |
| A2aOutcomes.SnapshotAgrees | a2a/client.go:239-250 | a task sent as one snapshot gives through the stream what it gives through the blocking call if and only if it is neither submitted nor working, or has no text |
| A2aOutcomes.ArtifactIds | a2a/taskstore.go:82-82 | different tasks have different artifact ids |
| A2aClient.StreamAgrees | a2a/client.go:112-171 | a finished task's events, any deltas missing, give through the stream client what `SendMessage` gives on the task — failed and cancelled ones the same error — if and only if the task is not completed, its text is non-empty, or the deltas that arrived join to nothing |
| A2aClient.StreamAgreesWithStore | a2a/taskstore.go:201-257 | the same in any run of the engine, against the task stored at any later time |
| TaskOutcomes.ResultReaches | a2a/client.go:140-275 | from the handler to both clients, in any run, at any later time, any deltas missing: without an earlier cancellation, parts with text come out as exactly that text and an error as the failed task with the error's text, on both; after one both report a canceled task |
| TaskOutcomes.BlockingSays | a2a/client.go:139-171 | what the blocking client makes of a handler's result: the text of its parts, or the failed task with the error's text |
| A2aClient.DeltasJoin | a2a/protocol.go:173-179 | when every delta arrives they join to everything the handler emitted |

## Left out

- HTTP, gRPC and process input and output, flushes, deadlines, heartbeat timing and body caps: a connection delivers some prefix of what was written.
- JSON and protobuf text: the models work on decoded records; a codec is a parameter, and event data is an opaque string without CR and LF.
- Integer widths: ids, indices and counters are unbounded; only the decimal form of an id is limited to 64 bits.
- Topic lists are sets: a topic name that is empty or contains a comma, which the query string cannot carry, is not part of this model.
- That a client drops the last, cut-short event of a broken connection (`SseFrames.CutConnection`) because a proper prefix of a JSON object does not parse.
- Hub restarts, equal random origins, authentication, handler panics, and limits changed during a run.
- Retries below the client: a bridge's post arrives at most once (Go's transport does not repeat a POST it may have sent).
- Tool bodies, providers and handlers are arbitrary; handlers emit only before they return, providers answer with assistant messages.
- Lost waits and scheduling: the transition systems say what can happen, not that it does.
- The agent's bus events, registry contents, `Set`, `Get`, `Save`, `Load` and `DropBefore` of a session.
- The callback of the A2A stream clients, `Notify`, `List`, `ListTasks`, `Shutdown`, `OnTask` and task history.
- The gRPC `SendMessageStream` repeats the JSON-RPC client's fold on the same assembler and is not modelled a second time.
- Audio and image content, request building, usage conversion, the Google provider, MCP, HTTP retry, configuration, command line and terminal interface.
- OpenAi.Stream: tool events carry the index for the statements; the callback does not get it.
- OpenAiProtocol.ToolProtocol: does not say that a call's name is stable, because it can change after the start.
- CliBackend.Stream: trimming the answer is a parameter, `strings.TrimSpace` is not part of this model.
- Bridge.StepKeeps: a process may be offered any logged event at any time, which covers every connection of NetbusProtocol but says nothing about which events it gets.
- TaskEngine.LifecycleTold: the sink's errors go back to the handler only, as in the source, so what a broken connection loses is not in it.
- TaskStore.TaskStore.EvictOver: sorting is taken as picking an oldest idle task each time; which of equally old ones goes is not determined.
- GrpcSubscribe.Converges: says nothing about a subscriber dropped while the task still runs, which may end on a non-final status.

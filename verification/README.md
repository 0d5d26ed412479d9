# Streams, trees and queues of the proxy

A Dafny 4.11 model, with proofs, of the parts of the proxy in which an order of events decides
whether the result is right.

- **Streaming.** The proxy turns what a model provider sends into an Anthropic message stream. The
  repository says in one function what such a stream must be: indexes start once, deltas and stops
  meet an open block of the right kind, nothing stays open, the message starts and its stop is last
  (`core/anthropic/stream_contracts.py`). `stream_contract.dfy` models that function and gives the
  same contract a second time as positions in the stream. Everything that produces a stream is
  proved against it: the block policy for native streams (`native_policy*.dfy`), the builder and the
  loop for OpenAI chunks (`sse_builder.dfy`, `openai_*.dfy`), the think-tag parser
  (`think_parser.dfy`, `reasoning_replay.dfy`), and the repair of a native stream that dies half way
  (`sse_framing.dfy`, `emitted_tracker.dfy`). The contract says what is legal; what a response says,
  in which order, is proved beside it from the chunks alone (`openai_transcript.dfy`,
  `openai_response.dfy`, `openai_thinking.dfy`), and for native streams from the upstream's events
  (`native_policy_meaning.dfy`, `native_policy_thinking.dfy`).
- **Trees.** A conversation is a tree of messages, processed one at a time by a scheduler with
  cancellation and error propagation. `scheduler.dfy` makes each section that runs under the tree's
  lock one step of a state machine, `scheduler_runs.dfy` says what holds over all runs and
  `scheduler_effects.dfy` what single steps do, `tree_queue.dfy` performs the same steps in place,
  and `message_tree.dfy` treats the shape of the tree.
- **Small components.** The strict sliding-window limiter (`sliding_window.dfy`), the compacting
  queue of messaging requests (`compaction_queue.dfy`), the conversion of histories with deferred
  content (`conversion.dfy`, `conversion_deferred.dfy`, `conversion_reading.dfy`, `converter.dfy`)
  and the model fallback of one provider (`bailian.dfy`, `bailian_relay.dfy`).

Code that changes objects step by step is modelled by classes and loops with those fields; each
method is proved equal to a function of the old state, and the theorems are about these functions
over all inputs and all runs. Events are datatypes; JSON decoding and printing, clocks, replies of
upstream services and the heuristic text parser are parameters.

## What the code needs, and what happens without it

- *Native policy.* The starts that the policy keeps and the blocks that it reopens begin segments,
  numbered 0, 1, 2, ... For every upstream stream the output breaks no rule of the contract exactly
  when every event is acceptable, and it leaves open exactly the segments that are open in this
  reading of the upstream (`NativePolicyContract.PolicyMeetsContract`). Two shapes are forwarded
  under the upstream's own index: with thinking on, a stop of an index that was never seen, and a
  thinking or signature delta of such an index. The contract refuses a forwarded event exactly when
  its index is not the number of an open segment, of a thinking segment for a delta. It can
  therefore be right by chance: a stop of index 0 after a start of another index ends the first
  segment, and the block's own later stop is then refused. A second start of a live index loses its
  first segment, which stays open until a stop of its number is forwarded, so for ever with thinking
  off. Streams with a plain description, in which each index starts once and before its other
  events, are forwarded nowhere and lose nothing (`NativePolicyStreams.WellFormed`). "At most one
  open block" is not an invariant, because a delta that reopens a block closes no other. Each of
  these is a lemma.
- *Tool identity.* A reopened segment repeats the id that was announced exactly when that id is a
  non-empty string; otherwise an id made from the upstream index is used. So in every upstream
  stream, from one start of a tool block to the next start of its index, the downstream tool
  segments agree on id and name exactly when there is only one or the start came with a non-empty id
  and a name. Without a start they always agree.
- *Thinking off.* No delta whose type names thinking reaches the client of a native stream. A thinking
  block can: a signature delta does not name it, and where it wakes a text or tool block that is
  closed or overlapped, the block is started again as a thinking block. That is the only way.
- *Responses to OpenAI chunks.* A response that fails is closed and ended. The end of one that does
  not fail runs outside the handler of failures, and can raise in two places. Where the upstream
  has sent no integer count of tokens, they are estimated, and a tokenizer that refuses a text, as one
  may that finds the text of a special token in it, cuts the response off before its `message_delta`:
  for that the refused text must have been sent as text, as thinking, or as the name or the
  arguments of a native tool. And while every exception of parsing the arguments of a subagent call
  is swallowed when they are buffered, the final flush lets those pass that are not decoding, type
  or value errors, such as one for input nested too deeply: the response is then cut off with its
  blocks open. A normal ending meets the contract exactly when neither happens. A tool that is named
  `Task` only at first has its first arguments replaced by `{}`, after the others. Each is a lemma.
- *Scheduler.* A tree can become busy for good in exactly three ways: a node that is not in the tree
  is enqueued on a free tree, such a node is dispatched from the queue, or a cancellation meets an
  asyncio task outside its processor. The model lets a cancellation meet the locked sections that
  follow the processor too. That is more than the code allows: no section suspends while it holds
  the lock, so the lock is never contended, and a task that has left its processor runs its last
  sections without interruption. In such runs a cancellation does harm only before the first step
  of an asyncio task. `cancel_branch` followed by `remove_branch` can lead to the
  second, because waiting nodes that `mark_node_error` has marked stay in the queue. In every state,
  `cancel_tree` keeps the invariant exactly if nothing is running: otherwise the next request starts
  a second asyncio task beside the cancelled one. Cancelling a node or a branch is exact where the
  set beside the queue knows the waiting ids, which it does unless an id was enqueued twice. Each is
  a lemma.
- *Conversion.* Each message comes out as its blocks read, in order. Deferred content is emitted exactly once unless the message that completes the calls
  carries a further result after the completing one; then it is emitted again for each.
- *Bailian fallback.* The provider and its state hold one list of models until a response succeeds,
  and `set_working_model` appends to that list where it stands. What is offered is always what is
  configured and has not failed, and at most one model more; it stops being exactly
  that when a model works that is not among these while the list is shared, and the next failed
  attempt restores it. So a model can be marked as failed and still be offered, and a failed one
  that works on request is offered again, last.
  Failing a name marks what is left of it without one prefix: a configured name that carries the
  prefix twice stays on offer when it fails, and with such a name first in the list the last model
  is never tried; a lemma shows it for every such list of three. An empty name that comes first
  counts as no name, and then only the requested model is tried.
- *Reasoning replay.* Reasoning rendered inside think tags is read back as it was exactly when
  neither it contains the closing tag nor the text that follows contains a tag.

## Model

| member | source | states |
|---|---|---|
| StreamContract.AssertAnthropicStreamContract | core/anthropic/stream_contracts.py:97-162 | the loop with its early exits accepts a sequence of events exactly when the contract holds of it |
| StreamContract.ContractMeaning | core/anthropic/stream_contracts.py:100-162 | the one-pass check agrees with the positional contract: each index starts once, every delta and stop has an open start of a fitting kind before it, nothing stays open, the message starts and stops, and some block occurs |
| StreamContract.RunMeansLegal | core/anthropic/stream_contracts.py:111-158 | after any accepted events the check's state says exactly which indexes are open, of which kind, and which were started |
| StreamContract.StartsAreOfKnownKinds | core/anthropic/stream_contracts.py:31-42 | a start is accepted exactly if its block is of one of seven kinds and its index was never used |
| StreamContract.DeltasAreTyped | core/anthropic/stream_contracts.py:21-30 | of these only empty text, thinking and tool blocks take deltas, each its own types |
| NativePolicy.NativeSseBlockPolicyState.SyntheticCloseOtherOpenBlocks | core/anthropic/native_sse_block_policy.py:129-150 | the loop closes every open block but the current one, in dictionary order, and marks each to have its own later stop suppressed |
| NativePolicy.NativeSseBlockPolicyState.AllocateNewSegment | core/anthropic/native_sse_block_policy.py:153-169 | a segment gets the next index and replaces the one of its upstream index |
| NativePolicy.NativeSseBlockPolicyState.TransformEvent | core/anthropic/native_sse_block_policy.py:172-313 | one event: new state and output for every branch of starts, deltas, stops and other events |
| NativePolicy.TransformStream | providers/anthropic_messages.py:236-258 | feeding a whole upstream stream through one state object |
| NativePolicyContract.PolicyMeetsContract | core/anthropic/native_sse_block_policy.py:129-313 | for every upstream stream whatever: the output breaks no rule exactly when every event is acceptable in a reading of the upstream that numbers its segments, and what it then leaves open are the open segments of that reading, of the same kinds |
| NativePolicyContract.UnforwardedStreams | core/anthropic/native_sse_block_policy.py:129-313 | for every upstream stream of which nothing is forwarded raw: the output breaks no rule exactly when every kept event has a known type that fits, and ends with nothing open exactly when no live block was started again and none is live at the end |
| NativePolicyContract.IndexesAreConsecutive | core/anthropic/native_sse_block_policy.py:153-169 | for every upstream stream whatever, started blocks are numbered 0, 1, 2, ... without gap or repetition |
| NativePolicyStreams.WellFormedStreamsAreRepaired | core/anthropic/native_sse_block_policy.py:172-313 | overlapping blocks, repeated or late stops, deltas after a stop and text or tool deltas without a start are all repaired; if every block's last event is a stop, nothing is left open |
| NativePolicyStreams.CompleteStreamsSatisfy | core/anthropic/native_sse_block_policy.py:172-313 | such a stream with a complete message around it yields output that meets the whole contract |
| NativePolicyStreams.OtherEventsPass | core/anthropic/native_sse_block_policy.py:172-313 | an event that is not about a block is in the output exactly when it is in the input |
| NativePolicyStreams.RestartLeaks | core/anthropic/native_sse_block_policy.py:161-168 | after a second start of a live index, whatever follows and is accepted, the first segment is open at the end exactly if it was open and no stop of its number is forwarded |
| NativePolicyStreams.StopsAreForwardedForThinking | core/anthropic/native_sse_block_policy.py:309-311 | with thinking off no stop is forwarded |
| NativePolicyStreams.ForwardedStopEndsLost | core/anthropic/native_sse_block_policy.py:291-311 | with thinking on, a stop of the lost number ends it, and the output ends with nothing open |
| NativePolicyStreams.UnseenStopIsRefusedIff | core/anthropic/native_sse_block_policy.py:291-311 | after any accepted events, with thinking on, a stop of an index never seen is forwarded, and the contract refuses it exactly if no segment of that number is open |
| NativePolicyStreams.UnseenThinkingIsRefusedIff | core/anthropic/native_sse_block_policy.py:265-289 | after any accepted events, a thinking or signature delta of an index never seen is forwarded, and the contract refuses it exactly if no thinking segment of that number is open |
| NativePolicyStreams.ForwardedStopCanBeRight | core/anthropic/native_sse_block_policy.py:291-311 | a start of any index but 0 and a forwarded stop of index 0 give output that breaks no rule and ends with nothing open |
| NativePolicyStreams.EndedUnderItsBlock | core/anthropic/native_sse_block_policy.py:229-305 | once a forwarded stop has ended the segment of a live block, the next event that writes to that segment is refused: a delta or stop of the block, or a start that overlaps it |
| NativePolicyStreams.ReopenedBlocksOverlap | core/anthropic/native_sse_block_policy.py:235-264 | two downstream blocks can be open at once after a delta that reopens one |
| NativePolicyMeaning.ContentIsPreserved | core/anthropic/native_sse_block_policy.py:200-287 | for every upstream stream whatever: every started downstream index belongs to one upstream index; the kept deltas come out once each and in order, in a block of their own index, but for those that are forwarded, which come out in whichever block has that number; where none is forwarded, the segments of a block join to its content |
| NativePolicyMeaning.ToolIdentityIsKept | core/anthropic/native_sse_block_policy.py:85-118 | for every upstream stream whatever, the blocks started downstream are, in order, the kept starts as they came, and for each delta that begins a segment a block that repeats what its index announced last, or is made up if it announced nothing |
| NativePolicyMeaning.SegmentsAgreeIff | core/anthropic/native_sse_block_policy.py:85-118 | in every upstream stream, from a start of a tool block to the next start of its index, the downstream tool segments of that index carry one id and one name exactly if there is only one, or the start came with a non-empty id and a name |
| NativePolicyMeaning.UnstartedSegmentsAgree | core/anthropic/native_sse_block_policy.py:265-287 | up to the first start of an index, its downstream tool segments always carry one id and one name |
| NativePolicyMeaning.ResumedIdIsAnnouncedIff | core/anthropic/native_sse_block_policy.py:85-113 | a resumed tool segment repeats the id exactly if that is a non-empty string, the name exactly if there is one, and the input, or an empty object if there is none |
| NativePolicyMeaning.MadeUpStarts | core/anthropic/native_sse_block_policy.py:78-118 | text and thinking segments that a delta begins start empty, and a tool segment without a known tool block with a made-up id, no name and no input |
| NativePolicyMeaning.MadeUpIdsDiffer | core/anthropic/native_sse_block_policy.py:108-113 | made-up ids name the upstream index, so different blocks have different ones |
| NativePolicyMeaning.StartsCloseInOrder | core/anthropic/native_sse_block_policy.py:129-150 | after any events, a kept start first stops the live blocks of other indexes, in the order in which these began, and then starts its own |
| NativePolicyThinking.DropsIff | core/anthropic/native_sse_block_policy.py:121-126 | a type is dropped exactly if thinking is off and the word occurs in it |
| NativePolicyThinking.ThinkingOffIsErasure | core/anthropic/native_sse_block_policy.py:121-126 | for every upstream stream whatever, with thinking off the output is the output of the stream without the starts and deltas whose types name thinking, and without the deltas and stops that follow such a start under its index |
| NativePolicyThinking.ShownIff | core/anthropic/native_sse_block_policy.py:186-311 | for every upstream stream: with thinking off those events send nothing; every other start or delta, and every one with thinking on, sends something, with its own payload last |
| NativePolicyThinking.ThinkingIsShownIff | core/anthropic/native_sse_block_policy.py:223-264 | for every upstream stream, with thinking off no delta is sent whose type names thinking; a start whose type does is sent exactly if a signature delta wakes a closed or overlapped block that no thinking start has named |
| NativePolicyThinking.SignedTextIsShownAsThinking | core/anthropic/native_sse_block_policy.py:235-264 | a text block that is stopped and then signed is shown again as a thinking block, though thinking is off |
| NativePolicyMeaning.ConservativeOnOrderlyStreams | core/anthropic/native_sse_block_policy.py:188-313 | with thinking on, a stream of blocks 0, 1, 2, ... one after the other comes out event for event unchanged |
| ThinkParser.ThinkTagParser.ParseOutsideThink | core/anthropic/thinking.py:58-99 | one call outside a tag, with orphan closing tags and held tag prefixes |
| ThinkParser.ThinkTagParser.ParseInsideThink | core/anthropic/thinking.py:101-129 | one call inside a tag |
| ThinkParser.ThinkTagParser.FeedContent | core/anthropic/thinking.py:42-56 | the feeding loop, which ends because every turn that goes on leaves a shorter buffer |
| ThinkParser.ThinkTagParser.FlushBuffer | core/anthropic/thinking.py:131-140 | the flush returns what is held, labelled by the current mode |
| ThinkParser.LoopCorrect | core/anthropic/thinking.py:42-129 | whatever text is still to come, what the loop emits and what it holds have together the labelling of what it was given, and what it holds is a proper tag prefix |
| ThinkParser.FeedAllCorrect | core/anthropic/thinking.py:42-129 | the same over any number of pieces |
| ThinkParser.FlushCorrect | core/anthropic/thinking.py:131-140 | what is flushed has the labelling of what was held |
| ThinkParser.ParsePieces | core/anthropic/thinking.py:42-140 | for every way of cutting a text, feeding the pieces and flushing labels every character as the one-pass reading does, and at most seven characters are held |
| ReasoningReplay.ReplayIsReadBackIff | core/anthropic/conversion.py:82-83 | the think-tag rendering followed by text is parsed back to the reasoning and the text exactly when no tag hides in them |
| SseBuilder.ForegroundMeaning | core/anthropic/sse.py:161-164 | a subagent call never runs in the background, and no other argument of it changes |
| SseBuilder.SSEBuilder.SetToolId | core/anthropic/sse.py:86-91 | an id is recorded, an empty one is not |
| SseBuilder.SSEBuilder.RegisterName | core/anthropic/sse.py:93-109 | name fragments replace a prefix, extend it, or repeat it |
| SseBuilder.SSEBuilder.BufferArgs | core/anthropic/sse.py:111-126 | arguments are buffered until they parse, then emitted once; a value that is not an object raises |
| SseBuilder.SSEBuilder.FlushTaskArgs | core/anthropic/sse.py:132-158 | what is still buffered is flushed in the order in which the tools appeared; exceptions of parsing other than decoding, type and value errors, which the buffering catches, escape |
| SseBuilder.SSEBuilder.StartTool | core/anthropic/sse.py:311-325 | a tool block gets the next index; its state keeps the merged name |
| SseBuilder.SSEBuilder.EnsureThinking | core/anthropic/sse.py:338-342 | an open text block is stopped before a thinking block is started |
| SseBuilder.SSEBuilder.EnsureText | core/anthropic/sse.py:344-348 | an open thinking block is stopped before a text block is started |
| SseBuilder.SSEBuilder.CloseContent | core/anthropic/sse.py:350-354 | thinking and text are stopped |
| SseBuilder.SSEBuilder.CloseAll | core/anthropic/sse.py:356-360 | content is stopped and then every started tool, in order |
| SseBuilder.SSEBuilder.EmitErrorBlock | core/anthropic/sse.py:362-366 | a complete text block under a fresh index |
| SseBuilder.SSEBuilder.EstimateTokens | core/anthropic/sse.py:389-416 | the estimate of the tokens sent, with or without a tokenizer, which may raise |
| SseBuilder.EstimateRaisesIff | core/anthropic/sse.py:389-416 | the estimate raises exactly if there is a tokenizer and it raises for the text, for the reasoning, or for the name or the arguments of some tool |
| OpenAIProvider.EmitArgDelta | providers/openai_compat.py:142-156 | one argument fragment of a tool, buffered for a subagent call |
| OpenAIProvider.ProcessCall | providers/openai_compat.py:158-201 | one native tool call fragment, whose block may open only when its name is known |
| OpenAIProvider.UseTools | providers/openai_compat.py:34-55 | textual tool calls become complete tool blocks |
| OpenAIProvider.HandleParts | providers/openai_compat.py:297-323 | the parts of one content delta |
| OpenAIProvider.HandleChunk | providers/openai_compat.py:263-339 | one chunk: reasoning, content, native tool calls |
| OpenAIProvider.HandleChunks | providers/openai_compat.py:261-339 | the loop over the chunks, with the last finish reason and usage, up to an exception |
| OpenAIProvider.FailureEnd | providers/openai_compat.py:343-373 | the failure path: close everything, error event or error block, end of message |
| OpenAIProvider.Finish | providers/openai_compat.py:375-407 | the end of a stream: parser and heuristic flushes, padding, buffered arguments |
| OpenAIProvider.EndMessage | providers/openai_compat.py:409-431 | blocks are closed, and the message ends with the count of tokens that was sent or estimated, or not at all if the estimate raises |
| OpenAIProvider.StreamResponse | providers/openai_compat.py:223-431 | for any chunks, any textual tool calls and a failure after any chunk, or inside one after any of its parts: the whole response meets the contract exactly if its end does not raise, that is unless it is a normal ending with an exception in the flush or in the token estimate; and without leave for error events exactly if, further, it does not fail after a tool block |
| OpenAIContract.ResponseMeetsContract | providers/openai_compat.py:223-431 | the same as a lemma on values |
| OpenAIContract.LoopReaches | providers/openai_compat.py:261-339 | after any chunks the builder mirrors the contract check: text and thinking are never both open, a started tool stays open, and what the builder records as sent is what was sent |
| OpenAIContract.FlushRaisesIff | core/anthropic/sse.py:132-158 | what is still buffered does not parse; the final flush replaces each by an empty object, and raises exactly if the exception for one of them is of a kind that it does not catch |
| OpenAIContract.CloseAllCloses | core/anthropic/sse.py:356-360 | closing everything leaves no open block |
| OpenAIArguments.ArgumentsAreConserved | providers/openai_compat.py:142-201 | a native tool never named Task has a block exactly when a name arrived, and that block receives all argument fragments joined, those before the name included, also in a failing response |
| OpenAIArguments.ArgumentsAreAccounted | providers/openai_compat.py:142-201 | what any started native tool is sent, whatever it is named when: the pieces of its arguments received while the name was not Task as they are, of the texts that the others join to the first that parses, once, and in a normal ending whose flush does not raise an empty object if there are others and none parses; up to the exception, if one cuts the chunks short |
| OpenAIArguments.DeliveredMeaning | core/anthropic/sse.py:111-126 | the call stands at the place of the piece that completed its text, between the pieces sent before and after it |
| OpenAIIdentity.ToolsAreAnnounced | providers/openai_compat.py:158-201 | the block of a native tool call is started exactly once in a whole response, failing or not, under the first name that its fragments spell and the last id that had arrived by then, or a generated one; without a name it is not started |
| OpenAINames.NamesGrow | core/anthropic/sse.py:93-109 | no fragment takes anything of a name back, and one that the name begins with changes nothing |
| OpenAINames.SnapshotsAreNamed | core/anthropic/sse.py:93-109 | if each fragment repeats the one before it, the last one is the name |
| OpenAINames.PiecesAreJoined | core/anthropic/sse.py:93-109 | if no fragment and what precedes it begin with each other, the name is all of them joined |
| OpenAIArguments.TasksAreSentOnce | core/anthropic/sse.py:111-158 | a tool named Task throughout sends at most one delta: of the argument texts received after each fragment, from the name on, the first that parses, made to run in the foreground; in a normal ending whose flush does not raise it sends exactly one if arguments came, an empty object if none of these texts parses |
| OpenAIText.TextIsConserved | providers/openai_compat.py:297-404 | for any heuristic parser: the parts fed to it, with at most seven characters held back, are the text of the content without its tags; the text deltas of a response that does not fail, even if its end raises, are what it let pass, what was held back, and one space exactly when the message would be bare; without reasoning fields the thinking deltas are what the tags enclose |
| OpenAIText.PassedTextIsConserved | providers/openai_compat.py:297-404 | where the heuristic parser lets all text pass, the text deltas are the text of the content without its tags, plus that space |
| OpenAIText.FailureLosesLittle | providers/openai_compat.py:339-373 | a response that fails after or inside any chunk: its text deltas are what the heuristic parser let pass, and the message of the failure if no native tool has a block; of the text of the chunks handled, at most the seven characters that the think-tag parser may hold were not fed on |
| OpenAITranscript.LoopIsSaid | providers/openai_compat.py:261-339 | what the loop sends, in order, without indexes and stops, is a function of the chunks alone: each chunk its reasoning, its content part by part with the tools found in it, and its native tool calls fragment by fragment; an exception cuts this short somewhere among the tool calls of its chunk |
| OpenAIResponse.ResponseIsSaid | providers/openai_compat.py:223-431 | everything that a response says that does not fail, in order: the message start, what the chunks say, what the parsers still held, a space exactly if the message is bare, an empty object for each unfinished subagent call, and, unless the flush or the estimate raises, the stop reason of the last finish reason and the count of the last usage or the estimate, computed from the texts said and the fragments received |
| OpenAIResponse.FailureIsSaid | providers/openai_compat.py:339-373 | everything that a failing response says, in order: the message start, what the chunks say up to the failure, the message of the failure as an error event if a native tool has a block and as a text otherwise, "end_turn" with one token, and the message stop |
| OpenAIResponse.EndIsReported | providers/openai_compat.py:409-431 | the last two events of a response that is not cut off: a failing one reports "end_turn" and 1; any other "tool_use", "max_tokens" or "end_turn" after its last non-empty finish reason, with the integer of its last usage or the estimate |
| OpenAIThinking.ThinkingIsRelayed | providers/openai_compat.py:280-311 | every response, failing or not: with thinking on, its thinking deltas are the reasoning of each chunk followed by what its content releases of the thinking that the tags enclose, and what is flushed at a normal end; after any chunk all of that thinking but at most seven characters has been released; with thinking off there is none |
| OpenAIThinking.ReasoningIsRelayed | providers/openai_compat.py:280-284 | where the tags enclose nothing, the thinking is the reasoning of the chunks joined, also in a failing response |
| OpenAIEndings.EstimateRaisesIff | providers/openai_compat.py:409-431 | at the end of a response that does not fail, with a tokenizer, the estimate raises exactly if no count of tokens came and the tokenizer raises for the text deltas or the thinking deltas that were sent, or for the name or the sent arguments of a native tool |
| OpenAIEndings.FlushRaisesIff | core/anthropic/sse.py:132-158 | in terms of the fragments received: the final flush raises exactly if for some tool the arguments received while it was named Task are not empty, none of their texts parsed, and the exception for them escapes |
| OpenAIEndings.LoopRaisesIff | providers/openai_compat.py:261-339 | the chunks are cut short by an exception exactly if one of them is malformed, or holds a fragment that makes the arguments of a subagent call parse, for the first time, to something that is not an object |
| OpenAIEndings.FlushLeavesOpen | providers/openai_compat.py:406-410 | a flush that raises leaves a block open and the response without an end |
| OpenAIEndings.RefusedArgumentsCutTheEnd | providers/openai_compat.py:409-431 | one native tool call whose arguments the tokenizer refuses, and no count of tokens: the response does not meet the contract |
| OpenAIEndings.RefusedReasoningCutsTheEnd | providers/openai_compat.py:409-431 | the same for one chunk of reasoning that the tokenizer refuses |
| OpenAIEndings.DeepArgumentsCutTheEnd | core/anthropic/sse.py:132-158 | one subagent call whose arguments do not parse, with an exception that the flush does not catch: the response is cut off with the block of the call open |
| OpenAIEndings.RenamedTaskIsTorn | providers/openai_compat.py:142-156 | a tool whose name is Task after its first fragment and another after its second, and whose first arguments do not parse, is sent the second arguments and then an empty object |
| SseFraming.CutAnywhere | core/anthropic/emitted_sse_tracker.py:24-36 | for any text at all, reading it in two parts reads the same events and leaves the same rest |
| SseFraming.ReadBack | core/anthropic/sse.py:45-47 | printed events are read back exactly, in order, with nothing left over |
| SseFraming.LinesAreRead | core/anthropic/stream_contracts.py:51-94 | a frame of any lines reads as one event: the last event name, all data lines joined by newlines, anything else ignored |
| SseFraming.PrintedAs | core/anthropic/sse.py:45-47 | the form of a printed event |
| SseFraming.LinesAreSplit | core/anthropic/stream_contracts.py:75-76 | a text is split into lines at every break, a carriage return with its line feed being one |
| SseFraming.AsciiBreaks | core/anthropic/stream_contracts.py:75-76 | the ASCII characters at which lines break |
| Text.StripIsTrimmed | core/anthropic/stream_contracts.py:66-69 | stripping takes white space off both ends, and all of it |
| Text.AsciiSpaces | core/anthropic/stream_contracts.py:66-69 | the ASCII characters that are white space |
| EmittedTracker.EmittedNativeSseTracker.Feed | core/anthropic/emitted_sse_tracker.py:24-36 | the frames that a chunk completes are observed in order, up to an event without an index |
| EmittedTracker.EmittedNativeSseTracker.ObserveEvent | core/anthropic/emitted_sse_tracker.py:38-62 | message start, block start and block stop update the tracker |
| EmittedTracker.EmittedNativeSseTracker.CloseUnclosedBlocks | core/anthropic/emitted_sse_tracker.py:68-75 | the stack is popped and a stop emitted for each entry |
| EmittedTracker.EmittedNativeSseTracker.MidstreamErrorTail | core/anthropic/emitted_sse_tracker.py:77-97 | an error block under the next unused index and the end of the message |
| EmittedTracker.TrackPieces | core/anthropic/emitted_sse_tracker.py:24-36 | however a printed stream is cut, the tracker observes exactly the events that were printed |
| EmittedTracker.TrackerIsExact | core/anthropic/emitted_sse_tracker.py:38-66 | after any prefix that breaks no rule, the stack lists exactly the open blocks, each once, and the next index was never started |
| EmittedTracker.RepairedIff | core/anthropic/emitted_sse_tracker.py:68-97 | a stream that dies after any prefix, closed and ended by the tracker, meets the contract exactly when the prefix breaks no rule, its message has started, and it carries no error event that is not allowed |
| EmittedTracker.FailureIsTold | core/anthropic/emitted_sse_tracker.py:64-104 | whatever was sent, the repair sends stops only, and then the message in a text block of its own under an index that nothing sent has started, "end_turn" with one token, and the message stop |
| EmittedTracker.ToldAsText | core/anthropic/emitted_sse_tracker.py:77-104 | so the text of a failed response is the text sent before and the message |
| EmittedTracker.StackIsInStartOrder | core/anthropic/emitted_sse_tracker.py:38-62 | the stack lists the open blocks in the order in which they were started |
| EmittedTracker.ClosesFromTheTop | core/anthropic/emitted_sse_tracker.py:68-75 | they are stopped in the opposite order |
| EmittedTracker.SentIsLongest | providers/anthropic_messages.py:318-329 | what is sent are the events up to the first that the tracker cannot record |
| EmittedTracker.MessageIsRemembered | core/anthropic/emitted_sse_tracker.py:38-48 | the id and the model are those last given |
| EmittedTracker.NativeResponse | providers/anthropic_messages.py:279-366 | the response is what was sent and, on a failure, the repair, or a whole error message if nothing was sent; it tells the message of the failure, and meets the contract exactly if nothing or a repairable prefix was sent |
| EmittedTracker.PolicyPrefixesAreRepaired | providers/anthropic_messages.py:236-363 | a failure after any number of events of a well-formed upstream, translated by the block policy, leaves a stream that meets the contract |
| Scheduler.StepKeeps | messaging/trees/queue_manager.py:240-330 | every step keeps the scheduler's invariant |
| SchedulerRuns.SchedulerIsSafe | messaging/trees/queue_manager.py:240-330 | over all runs: at most one live asyncio task per tree, the busy flag holds exactly while there is one or the tree is stuck, a free tree has an empty queue, each request is dispatched, waiting or cancelled and only one of these, dispatch is in the order of enqueueing, and the set beside the queue is exact if no id is enqueued twice |
| SchedulerRuns.ErrorsAreSkipped | messaging/trees/queue_manager.py:246-252 | in every run, a request reaches the processor exactly when its node is not in ERROR and it is not cancelled at the moment it begins, whatever happens before and after |
| SchedulerRuns.CancelledNeverRuns | messaging/trees/queue_manager.py:579-610 | what was taken out of the queue is never dispatched or processed |
| SchedulerRuns.CancelNodeIsExact | messaging/trees/queue_manager.py:579-610 | cancelling an unsettled node marks it and no other; all its requests and no other leave the queue if the set beside the queue knows it, which it does for every waiting node unless an id was enqueued twice; only its own task can be cancelled |
| SchedulerRuns.CancelBranchClears | messaging/trees/queue_manager.py:658-689 | after a branch is cancelled, a node of it still waits exactly if it waited and was settled before, or is the current node, or is unknown to the set beside the queue; the last two cannot be unless an id was enqueued twice |
| SchedulerRuns.QueueDrains | messaging/trees/queue_manager.py:265-302 | from every reachable busy tree with existing waiting nodes and nothing cancelled, the waiting requests are dispatched in order and the tree becomes free |
| SchedulerRuns.HowTreesGetStuck | messaging/trees/queue_manager.py:276-330 | the exact conditions under which a step leaves a tree busy with nothing to free it, where a cancellation may meet any locked section |
| SchedulerRuns.HowTreesGetStuckPromptly | messaging/trees/queue_manager.py:240-302 | the exact conditions in runs in which a task that has left its processor runs its last sections without interruption, as in the code, where no section suspends under the lock: a cancellation leaves the tree busy only if it meets a task before its first step |
| SchedulerRuns.StuckForever | messaging/trees/queue_manager.py:304-330 | such a tree never dispatches again unless the whole tree is cancelled |
| SchedulerRuns.RemovingFailedNodesSticks | messaging/trees/queue_manager.py:658-719 | cancelling and then removing a branch whose waiting node was marked as failed blocks the tree |
| SchedulerRuns.CancellingTooEarlySticks | messaging/trees/data.py:350-355 | a cancellation before the first step of an asyncio task leaves the tree busy |
| SchedulerRuns.CancelTreeKeepsIff | messaging/trees/queue_manager.py:530-577 | in every state, cancelling the whole tree keeps the invariant exactly if no task is live |
| SchedulerRuns.CancelTreeNeedsQuiescence | messaging/trees/queue_manager.py:530-577 | from every state with a live task, cancelling the whole tree lets the next request start a second task beside it |
| SchedulerEffects.CurrentIsLive | messaging/trees/queue_manager.py:271-302 | over all runs, the node of the live task is the current one until it is cleared, and a free tree has none |
| SchedulerEffects.FailureMarksItsNode | messaging/trees/queue_manager.py:258-270 | a failing processor leaves its node in ERROR, unless the node was removed or its asyncio task was cancelled first; no other node changes |
| SchedulerEffects.FailedNodesEndInError | messaging/trees/queue_manager.py:254-274 | without interruption a failure ends with the node in ERROR and no current node |
| SchedulerEffects.StatesAreSet | messaging/trees/data.py:256-278 | a new node waits; setting a state changes the state of that node, if it is in the tree, and of no other |
| SchedulerEffects.CancelReachesTheTask | messaging/trees/queue_manager.py:579-610 | cancelling an unsettled node cancels the live task exactly if the node is the current one |
| SchedulerEffects.CancelBranchMarks | messaging/trees/queue_manager.py:658-689 | cancelling a branch marks exactly its unsettled nodes, and cancels the live task exactly if its node is one of them |
| SchedulerEffects.CancelTreeIsExact | messaging/trees/queue_manager.py:530-577 | cancelling a tree marks exactly the nodes that wait or are not settled, empties the queue, frees the tree and cancels whatever is live |
| SchedulerEffects.RemovingOnlyRemoves | messaging/trees/queue_manager.py:691-719 | removing a branch takes its ids out of the tree and changes nothing else of the scheduling |
| TreeQueue.SnapshotQueue.Get | messaging/trees/data.py:34-39 | first in, first out |
| TreeQueue.SnapshotQueue.RemoveIfPresent | messaging/trees/data.py:48-54 | every copy of an item leaves the deque, but only if the set knows it |
| TreeQueue.MessageTreeQueue.EnqueueAndStart | messaging/trees/queue_manager.py:304-330 | the section does exactly the step of enqueueing and keeps the invariant |
| TreeQueue.MessageTreeQueue.BeginTask | messaging/trees/queue_manager.py:240-255 | the processor is called exactly when nothing is cancelled and the node is not in ERROR |
| TreeQueue.MessageTreeQueue.LeaveProcessor | messaging/trees/queue_manager.py:254-260 | the processor returns, is cancelled or fails |
| TreeQueue.MessageTreeQueue.MarkTaskFailed | messaging/trees/queue_manager.py:259-270 | a failed processor's node becomes ERROR |
| TreeQueue.MessageTreeQueue.ClearCurrentNode | messaging/trees/queue_manager.py:271-274 | the current node is cleared before the queue is looked at |
| TreeQueue.MessageTreeQueue.ProcessNext | messaging/trees/queue_manager.py:276-302 | the tree is freed, or the first waiting node becomes current |
| TreeQueue.MessageTreeQueue.CancelNode | messaging/trees/queue_manager.py:579-610 | a node that is not settled is cancelled where it is, and only that one |
| TreeQueue.MessageTreeQueue.CancelBranch | messaging/trees/queue_manager.py:658-689 | the loop over a branch does one cancellation step for all its active nodes, in whatever order it visits them |
| TreeQueue.MessageTreeQueue.MarkNodeError | messaging/trees/queue_manager.py:489-528 | the node and its pending descendants are marked one after the other |
| TreeQueue.MarkedIsExact | messaging/trees/queue_manager.py:489-528 | marking sets exactly the listed nodes to ERROR and leaves the queue as it is |
| TreeQueue.MessageTreeQueue.CancelWholeTree | messaging/trees/queue_manager.py:530-577 | current node, drained queue and stale nodes are marked and the flags reset |
| MessageTree.MessageTree.AddNode | messaging/trees/data.py:187-223 | a child is stored, indexed by its status message and appended to its parent, or the parent is unknown |
| MessageTree.AddedIsWellFormedIff | messaging/trees/data.py:187-223 | adding keeps links mutually consistent, acyclic and rooted, and the status index a bijection, exactly when the node id is new and not empty and the status message is new |
| MessageTree.AddedIsStored | messaging/trees/data.py:187-223 | the child waits, has no children and knows its parent, which lists it last; no other node changes |
| MessageTree.MessageTree.GetDescendants | messaging/trees/data.py:435-452 | the stack loop ends and lists each node of the subtree exactly once |
| MessageTree.MessageTree.GetPendingChildren | messaging/trees/queue_manager.py:100-125 | the loop lists exactly the nodes reached through pending nodes only, each once |
| MessageTree.MessageTree.RemoveBranch | messaging/trees/data.py:454-482 | exactly the subtree is deleted from both indexes and returned, and its parent forgets it |
| MessageTree.MessageTree.AddNodeFromDict | messaging/trees/data.py:399-402 | a restored node is stored and indexed by its status message |
| MessageTree.RemovedIsWellFormedIff | messaging/trees/data.py:454-482 | what is left is well-formed exactly when the branch is not the whole tree |
| MessageTree.RemovedIsExact | messaging/trees/data.py:454-482 | a node stays exactly if no path of children leads to it from the branch; it stays as it was, but the parent of the branch forgets that one child |
| MessageTree.FromDict | messaging/trees/data.py:404-420 | a tree is restored exactly when root and entries are there, the root is one of them, and every entry has the keys it needs and a state with a known name |
| MessageTree.EntryIsRestoredIff | messaging/trees/data.py:118-145 | an entry is restored exactly if it has its four keys and one of the four state names, and then field by field; missing children are none |
| MessageTree.SaveAndRestore | messaging/trees/data.py:392-420 | saving and restoring a well-formed tree gives the same nodes, links and status index |
| SlidingWindow.AttemptKeeps | core/rate_limit.py:33-48 | an attempt is granted exactly when fewer than `limit` grants lie in the window ending now, refused exactly when `limit` do, and told to wait until the oldest expires; the deque stays the recent end of all grants |
| SlidingWindow.AtMostLimitPerWindow | core/rate_limit.py:10-15 | for any sequence of attempts, no interval of the window's length, closed on either side, holds more than `limit` grants |
| SlidingWindow.AdmittedAfterOneWait | core/rate_limit.py:45-53 | a refused caller that waits as told and is the next to try is admitted |
| SlidingWindow.StrictSlidingWindowLimiter.TryAcquire | core/rate_limit.py:36-48 | one pass through the lock, with the same condition on the history of grants |
| SlidingWindow.StrictSlidingWindowLimiter.Acquire | core/rate_limit.py:33-53 | the retry loop adds one grant at the reading at which it succeeds; alone it needs at most two passes |
| SlidingWindow.Create | core/rate_limit.py:22-31 | a limiter exists exactly for a positive limit and a positive window |
| CompactionQueue.QueueIsExact | messaging/limiter.py:217-233 | in every reachable state a key has an entry exactly when requests for it wait, with the last one's function and all futures in order, and the deque lists the keys by their first waiting request |
| CompactionQueue.KeysAreDistinct | messaging/limiter.py:217-233 | the deque has no repeats and equals the map's keys |
| CompactionQueue.FuturesSitInTheirEntry | messaging/limiter.py:217-233 | a future is in the entry of a key exactly if it belongs to a waiting request for that key |
| CompactionQueue.ServedOnce | messaging/limiter.py:85-121 | every request waits or has been served, and is served once |
| CompactionQueue.ServesLatestForAll | messaging/limiter.py:95-121 | the worker serves the key whose first request is oldest, resolves exactly the futures of the requests waiting for it, and uses the function of the last of them |
| CompactionQueue.FirstComeFirstServed | messaging/limiter.py:227-233 | without requests for the front, keys stand in the order of their first request |
| CompactionQueue.ResolvedIsExact | messaging/limiter.py:116-126 | a future keeps its first result, and the other futures of the entry get the new one |
| CompactionQueue.MessagingRateLimiter.EnqueueMulti | messaging/limiter.py:217-233 | an enqueue merges into the entry of its key or adds one, at the front or the back |
| CompactionQueue.MessagingRateLimiter.Work | messaging/limiter.py:92-126 | one turn of the worker, with any requests that arrive while the function is awaited: they are enqueued as usual, and the result goes to the futures that were taken |
| Conversion.ToolOrderIsKept | core/anthropic/conversion.py:107-131 | all tool uses become tool calls and all tool results tool messages, each once and in order, over a whole history |
| ConversionDeferred.DeferredIsNeverLost | core/anthropic/conversion.py:164-279 | the deferred content of a message is emitted as often as the later messages say, and at least once |
| ConversionDeferred.EmissionsAreDeferred | core/anthropic/conversion.py:398-408 | what is emitted as deferred is the deferred content of an earlier message |
| ConversionDeferred.ExactlyOnceIff | core/anthropic/conversion.py:410-467 | it is emitted exactly once unless a further result follows the completing one in the same message |
| ConversionDeferred.AnsweredOnce | core/anthropic/conversion.py:410-467 | if the next messages are user messages with distinct results for exactly the pending calls, it is emitted exactly once |
| ConversionDeferred.DeferredFollowsLastResult | core/anthropic/conversion.py:438-467 | over whole histories: if the next messages are user messages with distinct results for exactly the pending calls, they are converted as they are up to the last result, and the deferred content comes right after it, whatever precedes and follows |
| ConversionReading.HistoryIsRead | core/anthropic/conversion.py:164-279 | over whole histories, but for what is deferred: a user message becomes its texts before each tool result, joined by newlines, and the results; an assistant message its texts and tagged thoughts before its first tool use, with all tool uses and its reasoning; a plain message itself; all in order |
| ConversionReading.DeferredIsRead | core/anthropic/conversion.py:281-336 | what is emitted as deferred are the other blocks after the first tool use of its message, converted alike |
| ConversionReading.CallIdsIff | core/anthropic/conversion.py:321-335 | a message waits for exactly the ids of its tool uses that are not blank |
| Text.JoinSnoc | core/anthropic/conversion.py:381-396 | a separator stands between the parts that are joined, and only there |
| Converter.ConvertAssistantMessage | core/anthropic/conversion.py:338-396 | the loop over an assistant message, which refuses exactly forbidden blocks |
| Converter.ConvertAssistantMessageWithSplit | core/anthropic/conversion.py:281-336 | the message with the tool calls, and the object that carries what is deferred |
| Converter.ConvertUserMessage | core/anthropic/conversion.py:469-503 | the loop over a user message, which refuses exactly images |
| Converter.ConvertUserMessageWithInjection | core/anthropic/conversion.py:410-467 | the same loop, emitting deferred content and updating the pending object |
| Converter.ConvertMessages | core/anthropic/conversion.py:164-279 | a history is refused exactly when it holds a refused message, and is otherwise converted as the theorems describe |
| Bailian.ResponsesKeepState | providers/bailian/client.py:89-241 | every response makes at most one attempt more than there are offered models, each for the requested or an offered model; failed models only grow; and what is offered afterwards is known exactly: the old list if no attempt failed and the list was not shared, otherwise what is configured and has not failed, in order, with the model that worked added if it is not there |
| Bailian.OffersCurrentIff | providers/bailian/client.py:182-209 | what is offered after a response is what is configured and has not failed exactly if the list was kept and already right, or was renewed and no other model worked |
| Bailian.RunsKeepState | providers/bailian/client.py:29-247 | over all runs of a new provider, at most one model is offered beyond those that are configured and have not failed, none while the list is shared, and the state's list is exact |
| Bailian.FailedModelStaysOffered | providers/bailian/client.py:183-212 | a single model that fails once and then works is marked as failed and still offered |
| Bailian.FailedModelIsOfferedLast | providers/bailian/model_state.py:121-123 | a model marked as failed earlier that works on request is offered again, after the others |
| Bailian.EveryModelIsTried | providers/bailian/client.py:101-241 | if every attempt ends in an error chunk, and the other names still to be tried are non-empty and without a second prefix: the requested model, then every other configured model that has not failed once in configured order, then the requested one again are tried |
| Bailian.DoublePrefixStarvesModels | providers/bailian/model_state.py:88-106 | a configured name with a second prefix stays on offer when it fails: it is tried again before the last model, which is never tried |
| Bailian.EmptyNameStarvesModels | providers/bailian/client.py:111-132 | if an empty name comes first among the other models, every attempt is for the requested one |
| BailianRelay.RelayIsExact | providers/bailian/client.py:104-241 | the client is sent of every attempt the chunks before its first error, in order; every attempt but the last carries an error or nothing; the last succeeds or raises, or the attempts are exhausted, and then the last error is told |
| BailianRelay.AttemptsFollowTheList | providers/bailian/client.py:111-132 | the requested model is tried first, and every next one follows the one before it in the list offered by then, or is the requested one if that has no name |
| BailianRelay.WithoutModelsAllIsRelayed | providers/bailian/client.py:242-247 | without models to offer, one attempt is relayed whole |
| BailianRelay.NamesAreCleaned | providers/bailian/model_state.py:94-96 | the prefix is taken off a name once |
| BailianRelay.AvailableSnoc | providers/bailian/model_state.py:133-155 | available are the configured names, cleaned, without the failed ones, in their order |
| BailianRelay.NextGoesRound | providers/bailian/client.py:58-78 | the next model is the one after the first occurrence of the current one, round the list, or the first |
| BailianRelay.WorkingIsAddedLast | providers/bailian/model_state.py:121-123 | a model that works is added at the end, unless it is there |
| BailianRelay.FailureIsRecordedOnce | providers/bailian/model_state.py:98-103 | a failed name is recorded once, at the end |
| Bailian.BailianModelState.MarkModelFailed | providers/bailian/model_state.py:88-106 | a failed model is recorded once, without its prefix |
| Bailian.BailianModelState.SetWorkingModel | providers/bailian/model_state.py:108-131 | the working model is recorded, and added to the list of available models if missing; the list object stays, so whoever else holds it sees the addition |
| Bailian.BailianModelState.RemoveFailedFromAvailable | providers/bailian/model_state.py:133-155 | the configured models that have not failed, in order, as a new list that the state keeps and the caller gets |
| Bailian.BailianProvider.GetNextModel | providers/bailian/client.py:58-78 | the next model after the current one, or the first |
| Bailian.BailianProvider.StreamResponse | providers/bailian/client.py:89-247 | the attempt loop, its early success, its exceptions and its last error, over the list that provider and state may share |

## Left out

- JSON text, regular expressions, identifiers, the tokenizer, the counts of input tokens and timestamps: parameters or opaque values. Parsing and the tokenizer may raise; printing the parsed arguments of a subagent call may not.
- The heuristic text parser (core/anthropic/tools.py): any deterministic producer of text and tools; what it lets pass is a parameter. An exception inside a content delta is placed at the end of what was handled of that delta.
- The extra-reasoning hook of single providers and the retry of a refused request body (providers/openai_compat.py).
- OpenAIText.TextIsConserved: is about responses that do not fail, including those whose end raises; a response that fails is covered by OpenAIText.FailureLosesLittle.
- Cancellation of a response by its client: the generator simply ends there, so no claim is made about that prefix.
- The message_stopped flag of the native policy's state and the textual form of its events: nothing reads the flag, and events are datatypes.
- The line-by-line passing of native events: chunks are whole events; a stream cut inside an event is covered by the framing lemmas only.
- Contract conformance of a Bailian response across attempts: a later attempt numbers its blocks from 0 again, so it does not hold; only the choice of models is modelled.
- Bailian.EveryModelIsTried: needs the other names still to be tried to be non-empty and to carry the prefix at most once; the lemmas beside it show what happens otherwise. A condition that is also necessary would have to list all positions of such names.
- Bailian responses that run at the same time on one provider: the attempts of one response are modelled without interruption.
- ConversionDeferred.AnsweredOnce: is the positive case of ExactlyOnceIff, with its hypotheses as a reader of a history would check them.
- Runs that go on after `cancel_tree` met a running task: only that step and the next request are modelled. A node id that is added again after its removal is treated as the same object.
- The message tree's one class is modelled as two, one for its shape and one for its scheduling; the locks of the repository of trees and its id maps are left out as easy.
- Serialised trees: the fields that these operations only carry along are one opaque field.
- Floating point: the sliding window is modelled over real numbers.
- Worker shutdown, flood waits and retries of the messaging limiter; persistence and environment files of the Bailian state.
- Request builders, model routing, session stores, transcripts, markdown, voice and the chat adapters.

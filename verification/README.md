# Voice chat, prompt cache and media rules of generative-ai-use-cases-jp, in Dafny

This project models the bookkeeping at the heart of the repository's real-time voice chat,
together with a handful of small pure rules used elsewhere in the application:

- **The transcript reconciler** (module `ChatHistory`). The browser hook that merges
  out-of-order `textStart` / `textOutput` / `textStop` events into a fragment cache. It folds
  each completed fragment into role groups under the same-role / `FINAL` / new-group rule,
  and reads the groups back as conversation turns, splicing out interrupted utterances.
- **The server session worker** (module `SessionWorker`). It holds the flags and the three
  queues of the Lambda that talks to the speech model. It covers:
  - the control events routed from the browser;
  - the capped microphone queue;
  - the batched speaker queue;
  - the model input iterator;
  - the classification of model output events;
  - the `try`/`finally` frame of the handler.
- **The browser session controller** (module `SessionController`):
  - the start guard;
  - the order in which control events are published;
  - the outgoing microphone batching;
  - the event router, including the barge-in on an interrupted stop.
- **The shared audio batching loop** (module `AudioBatch`). It waits for more than 10
  chunks and then sends at most 20 non-empty chunks, oldest first.
- **The model catalogue** (module `ModelCatalog`):
  - the `MODEL_FEATURE` flag records and their spread composition;
  - the per-family structure of `modelMetadata`;
  - the `BEDROCK_*_MODELS` filters;
  - `SUPPORTED_CACHE_FIELDS`.
- **Prompt-cache insertion** (module `PromptCache`). Cross-region prefixes are stripped.
  Cache points are added to the last two eligible user messages and to the system prompt.
- **MIME tables and validators** (modules `MediaTypes` and `MediaUtils`):
  - the per-category MIME → extension tables and their merge;
  - `getFileTypeFromMimeType` and `validateMimeTypeAndExtension`;
  - the dotted accepted-extension lists;
  - the fallback and alias step that follows file-header detection.
- **Message recording** (module `CreateMessages`). The Lambda handler decides between 403,
  400, 200 and 500. The chat store is passed in as a pair of functions.

Shared pieces:

- `Wrappers`: `Option`.
- `Strings`: prefix test, truthiness, ASCII lower-casing and `join`.
- `SpeechEvents`: the wire events of `packages/types/src/speech-to-speech.d.ts`.
- `VoiceChat`: the worker and the browser together, for the text events that cross the
  channel.

Modelling choices:

- Everything stateful is an immutable record with pure step functions.
- What a component publishes to the event channel is appended to a `published` log.
- Random UUIDs, whether the server accepted the start request, and whether the recorder
  starts are all parameters.
- A JavaScript value that may be `undefined` is an `Option`.

Behaviour of the code that the contracts make explicit:

- **A completed fragment is folded again when a further event arrives for its id.**
  Sealing is not once-only, so a redelivered event duplicates the fragment in the
  transcript (`ChatHistory.RedeliveredEventFoldsAgain`,
  `ChatHistory.RedeliveryDuplicatesFragment`).
- **`closeSession` is not idempotent.** The channel reference survives it, so each call
  publishes `audioStop` again (`SessionController.CloseSessionTwicePublishesTwice`).
- **A start request the server rejects leaves the controller loading.** The start guard
  then refuses every later start (`SessionController.RejectedStartBlocksRetry`).
- **The speaker queue is flushed with one event even when it is empty** (see
  `SessionWorker.ForcePublishAudioOutput`).
- **`audioStop` discards every queued event not yet pulled by the model.** That includes
  undelivered microphone audio.
- **A model stream error is not retried.** The `catch` in `processResponseStream` checks for
  `ModelStreamErrorException`, but that exception comes from the `for await` iterator,
  outside the `try`. It ends the stream, the handler's `finally` publishes `end`, and the
  worker is reset (`SessionWorker.StreamErrorEndsSession`).
- **A player that fails to start leaves the controller loading.** `startRecording` starts
  the player after the start events and the transcript seed. A rejected worklet load is not
  caught, so loading never ends and every later start is refused
  (`SessionController.FailedPlayerStartKeepsLoading`).
- **A publish the browser's channel rejects is not caught.** If it is one of the start
  events, `ready` never ends loading and every later start is refused
  (`SessionController.RejectedPublishKeepsLoading`). If it is a microphone batch, the batch
  has already left the queue and the microphone loop stops
  (`SessionController.RejectedBatchIsLost`).
- **The worker queues a system prompt of any payload shape as the text input's content.**
  Audio input is whatever iterating the payload yields, so a string is split into
  one-character chunks (`SessionWorker.Route`, `SessionWorker.InputChunks`).
- **A body that is valid JSON but `null` is read only after the ownership lookup.** A
  foreign chat still gets 403 and an owned one gets 500
  (`CreateMessages.MalformedBodyAfterLookup`).

## Model

| member | source | states |
|---|---|---|
| `ChatHistory.ClearedIsEmpty` | packages/web/src/hooks/useSpeechToSpeech/useChatHistory.ts:20-23 | after `clear` the cache is empty, the transcript is empty and nothing is being said; a fragment that seals at once cannot be folded in until the system prompt is set up |
| `ChatHistory.SetupSystemPrompt` | packages/web/src/hooks/useSpeechToSpeech/useChatHistory.ts:25-37 | the groups become exactly one group holding the system fragment (FINAL, END_TURN); the fragment cache is untouched |
| `ChatHistory.SetupEstablishesSeeded` | packages/web/src/hooks/useSpeechToSpeech/useChatHistory.ts:25-37 | after seeding, the group list is non-empty, every group is non-empty and the system fragment heads the first group |
| `ChatHistory.Merge` | packages/web/src/hooks/useSpeechToSpeech/useChatHistory.ts:46-53 | the id is the event's; each field the event carries wins, each it lacks keeps the cached value, or none without a cache entry |
| `ChatHistory.TryUpdate` | packages/web/src/hooks/useSpeechToSpeech/useChatHistory.ts:43-93 | the cache gains the event's id and keeps every other entry; each field the event carries overrides the cached one and each field it lacks keeps the cached value; the groups change only if all four merged fields are truthy, and then earlier groups are kept, the sealed fragment lands in the last group and at most one group is added |
| `ChatHistory.EmptyContentNeverSeals` | packages/web/src/hooks/useSpeechToSpeech/useChatHistory.ts:57-62 | an event with empty content leaves the groups unchanged and caches the empty content |
| `ChatHistory.MergeCommutes` | packages/web/src/hooks/useSpeechToSpeech/useChatHistory.ts:46-53 | two events for one id that agree on the fields both carry give the same cache entry in either arrival order |
| `ChatHistory.SealsOnLastOfThree` | packages/web/src/hooks/useSpeechToSpeech/useChatHistory.ts:43-121 | for a fresh id, in each of the six arrival orders of start, output and stop, the first two events leave the groups alone and the third folds the complete fragment |
| `ChatHistory.RedeliveredEventFoldsAgain` | packages/web/src/hooks/useSpeechToSpeech/useChatHistory.ts:44-63 | an event for an id whose cache entry is already complete seals again (no once-only guarantee) |
| `ChatHistory.RedeliveryDuplicatesFragment` | packages/web/src/hooks/useSpeechToSpeech/useChatHistory.ts:82-87 | concretely, a repeated stop for the assistant's only fragment makes the fragment appear twice in its group |
| `ChatHistory.Fold` | packages/web/src/hooks/useSpeechToSpeech/useChatHistory.ts:63-91 | the group list grows by zero or one, all but the last group are kept, the fragment is in the new last group, and non-empty groups stay non-empty |
| `ChatHistory.FoldNewRole` | packages/web/src/hooks/useSpeechToSpeech/useChatHistory.ts:88-90 | a fragment whose role differs from the last group's first role is added as a new singleton group after all existing groups |
| `ChatHistory.FoldSameRoleAppends` | packages/web/src/hooks/useSpeechToSpeech/useChatHistory.ts:82-87 | a same-role fragment that is not FINAL is appended to the last group |
| `ChatHistory.FoldSameRoleFinal` | packages/web/src/hooks/useSpeechToSpeech/useChatHistory.ts:72-81 | a same-role FINAL fragment replaces the element at index k (k = number of FINAL fragments in the last group), or is appended when the group has exactly k elements |
| `ChatHistory.CountStagePositive` | packages/web/src/hooks/useSpeechToSpeech/useChatHistory.ts:174-177 | the number of fragments with a stage is positive iff some fragment has that stage |
| `ChatHistory.TryUpdatePreservesSeeded` | packages/web/src/hooks/useSpeechToSpeech/useChatHistory.ts:63-91 | on a seeded history every update is safe (the fold never reads a missing group) and the system fragment stays at the head of the first group |
| `ChatHistory.IsAssistantSpeaking` | packages/web/src/hooks/useSpeechToSpeech/useChatHistory.ts:166-182 | true iff there are groups, the last group's first role is `assistant` and that group holds a SPECULATIVE fragment |
| `ChatHistory.SpeakingAfterFold` | packages/web/src/hooks/useSpeechToSpeech/useChatHistory.ts:63-182 | right after a fragment is folded in, the indicator is on if the fragment is a SPECULATIVE assistant fragment and off if its role is not `assistant`, whatever the groups were |
| `ChatHistory.ApplyAll` | packages/web/src/hooks/useSpeechToSpeech/useChatHistory.ts:43-93 | applying a run of updates in arrival order keeps the fold safe (every later update can still be folded in) |
| `ChatHistory.FirstStop` | packages/web/src/hooks/useSpeechToSpeech/useChatHistory.ts:140-142 | the index found has the stop reason and no earlier fragment has it; none found means no fragment has it |
| `ChatHistory.Messages` | packages/web/src/hooks/useSpeechToSpeech/useChatHistory.ts:127-164 | the transcript has at most one turn per group; its exact shape is given step by step by `SpliceSnoc` and the `Messages*` lemmas below |
| `ChatHistory.SpliceLength` | packages/web/src/hooks/useSpeechToSpeech/useChatHistory.ts:132-161 | each run of the splice loop adds at most one turn |
| `ChatHistory.SpliceSnoc` | packages/web/src/hooks/useSpeechToSpeech/useChatHistory.ts:132-161 | the transcript loop over `groups + [g]` is the loop over `groups` followed by one more step on `g` |
| `ChatHistory.MessagesAppendWhole` | packages/web/src/hooks/useSpeechToSpeech/useChatHistory.ts:154-158 | a group without an interruption adds one turn: its first fragment's role and all contents joined with a space |
| `ChatHistory.MessagesAppendCut` | packages/web/src/hooks/useSpeechToSpeech/useChatHistory.ts:146-153 | a group first interrupted at index i > 0 adds one turn of the contents before i |
| `ChatHistory.MessagesDropHeadCut` | packages/web/src/hooks/useSpeechToSpeech/useChatHistory.ts:144-145 | a group interrupted at its first fragment adds no turn and marks the next group for merging |
| `ChatHistory.MessagesMergeAfterCut` | packages/web/src/hooks/useSpeechToSpeech/useChatHistory.ts:133-138 | the group after a head-cut group is appended whole to the previous turn, joined with a space, and the mark is cleared |
| `ChatHistory.SeededMessagesDefined` | packages/web/src/hooks/useSpeechToSpeech/useChatHistory.ts:127-164 | the transcript of any seeded history can be computed without reading a missing element |
| `ChatHistory.MessagesOfSystemPrompt` | packages/web/src/hooks/useSpeechToSpeech/useChatHistory.ts:127-164 | right after seeding, the transcript is the single system turn |
| `ChatHistory.ExampleHeadCutMergesUserTurns` | packages/web/src/hooks/useSpeechToSpeech/useChatHistory.ts:123-145 | user "hello", an assistant utterance cut at its start, and user "again" read as one user turn "hello again" |
| `ChatHistory.ExampleCutKeepsPrefix` | packages/web/src/hooks/useSpeechToSpeech/useChatHistory.ts:146-153 | three assistant fragments, the second interrupted, read as the first fragment's content only |
| `SessionWorker.ClearQueue` | packages/cdk/lambda/speechToSpeechTask.ts:42-46 | all three queues become empty and nothing else changes |
| `SessionWorker.Dispatch` | packages/cdk/lambda/speechToSpeechTask.ts:56-75 | publishing appends exactly one event tagged for the browser and changes nothing else, since a failed publish is caught |
| `SessionWorker.Initialize` | packages/cdk/lambda/speechToSpeechTask.ts:42-54 | all three flags are down and all three queues are empty; the prompt name, the audio content id and the publish log are kept |
| `SessionWorker.EnqueueSessionStart` | packages/cdk/lambda/speechToSpeechTask.ts:77-89 | the session start is queued last and nothing else changes |
| `SessionWorker.EnqueuePromptStart` | packages/cdk/lambda/speechToSpeechTask.ts:91-112 | the prompt start for the current prompt name is queued last and nothing else changes |
| `SessionWorker.EnqueueSystemPrompt` | packages/cdk/lambda/speechToSpeechTask.ts:114-150 | content start, text input and content end are queued last, under one content name and the current prompt name, with the payload as the text |
| `SessionWorker.EnqueueAudioStart` | packages/cdk/lambda/speechToSpeechTask.ts:152-176 | audio is started under the fresh content id and an audio content start for that id is appended to the event queue; nothing else changes |
| `SessionWorker.EnqueuePromptEnd` | packages/cdk/lambda/speechToSpeechTask.ts:178-186 | the prompt end for the current prompt name is queued last and nothing else changes |
| `SessionWorker.EnqueueSessionEnd` | packages/cdk/lambda/speechToSpeechTask.ts:188-194 | the session end is queued last and nothing else changes |
| `SessionWorker.EnqueueAudioStop` | packages/cdk/lambda/speechToSpeechTask.ts:196-209 | audio is stopped, the microphone and speaker queues are dropped and the event queue becomes exactly the content end of the current audio content; nothing else changes |
| `SessionWorker.TrimOldest` | packages/cdk/lambda/speechToSpeechTask.ts:220-223 | the result is the newest min(cap, n) elements of the queue |
| `SessionWorker.AudioInputsAppend` | packages/cdk/lambda/speechToSpeechTask.ts:321-333 | converting chunks to audio input events distributes over concatenation |
| `SessionWorker.ProcessAudioStep` | packages/cdk/lambda/speechToSpeechTask.ts:320-341 | while audio is started and the session active, every queued chunk moves in order to the event queue under the current content id; otherwise only the processing flag drops |
| `SessionWorker.EnqueueAudioInput` | packages/cdk/lambda/speechToSpeechTask.ts:211-230 | nothing changes unless audio is started and the session active; otherwise the queue keeps the newest 200 of old ++ new and the audio loop is started if it was not running |
| `SessionWorker.InputReachesModelInOrder` | packages/cdk/lambda/speechToSpeechTask.ts:211-341 | after an enqueue and one run of the audio loop, the event queue has gained the newest (at most 200) chunks, in order |
| `SessionWorker.EnqueueAudioOutput` | packages/cdk/lambda/speechToSpeechTask.ts:232-257 | a queue of at most 10 just grows; past 10 exactly one audio output event is published, whose chunks followed by the non-empty chunks still queued are the non-empty chunks of the queue, and which holds 20 chunks unless it drained the queue; a queue of at most 10 stays at most 10; nothing else changes |
| `SessionWorker.EnqueueAudioOutputConserves` | packages/cdk/lambda/speechToSpeechTask.ts:236-255 | what was published plus what is still queued is the old queue plus the new chunk, empty chunks aside, in order |
| `SessionWorker.EnqueueAllConserves` | packages/cdk/lambda/speechToSpeechTask.ts:232-257 | the same conservation holds over any sequence of buffered chunks |
| `SessionWorker.ForcePublishAudioOutput` | packages/cdk/lambda/speechToSpeechTask.ts:259-270 | the queue is emptied and exactly one audio output event carrying every queued non-empty chunk in order is published, even when none is queued |
| `SessionWorker.OutputReachesClientInOrder` | packages/cdk/lambda/speechToSpeechTask.ts:232-270 | chunks buffered one by one and then flushed are published to the channel exactly once each, in order, with only the empty ones dropped |
| `SessionWorker.Next` | packages/cdk/lambda/speechToSpeechTask.ts:279-301 | an empty queue blocks while active and ends the stream when inactive; otherwise the head is yielded and removed, and yielding session end makes the session inactive |
| `SessionWorker.PullAll` | packages/cdk/lambda/speechToSpeechTask.ts:272-306 | what the model pulls is a prefix of the event queue, at most `fuel` long, and the queue keeps exactly the rest |
| `SessionWorker.PullAllInOrder` | packages/cdk/lambda/speechToSpeechTask.ts:272-306 | the model receives the event queue in FIFO order and the session stays active only if no session end went by |
| `SessionWorker.Route` | packages/cdk/lambda/speechToSpeechTask.ts:476-497 | non-`ctob` events and unknown event names change nothing; prompt start queues the prompt start; a system prompt queues content start, text input carrying the payload as it arrived, and content end, all under one content name; audio start is `enqueueAudioStart`; audio input enqueues what iterating the payload yields (an array's chunks, a string's characters) and nothing if it cannot be iterated; audio stop leaves exactly content end, prompt end and session end queued with audio stopped and the other queues empty; nothing is published |
| `SessionWorker.InputChunks` | packages/cdk/lambda/speechToSpeechTask.ts:211-218 | an array payload gives its chunks, a string its characters one per chunk, and any other payload nothing (the loop throws) |
| `SessionWorker.TurnHeadState` | packages/cdk/lambda/speechToSpeechTask.ts:476-511 | after the session opens and prompt start, a text system prompt and audio start arrive, the event queue is session start, prompt start, the three system prompt events and the audio content start, with audio started under the drawn id |
| `SessionWorker.AudioIntoIdleLoop` | packages/cdk/lambda/speechToSpeechTask.ts:211-341 | audio input reaching an idle audio loop is queued for the model at once under the current audio content, in order, and the loop is then running |
| `SessionWorker.AudioIntoRunningLoop` | packages/cdk/lambda/speechToSpeechTask.ts:211-230 | audio input reaching a running audio loop waits in the microphone queue |
| `SessionWorker.TwoBatches` | packages/cdk/lambda/speechToSpeechTask.ts:211-341 | two audio batches followed by one more run of the audio loop put both batches on the event queue, in order |
| `SessionWorker.TurnStartQueue` | packages/cdk/lambda/speechToSpeechTask.ts:152-341 | the opening of a one-turn session queues the head events and then every chunk of both batches, in order, with the session active |
| `SessionWorker.OneTurnReachesModel` | packages/cdk/lambda/speechToSpeechTask.ts:196-306 | the model pulls every queued event of the opening in order, then after audio stop the audio content end, prompt end and session end; the session is then inactive and the input stream ends |
| `SessionWorker.Classify` | packages/cdk/lambda/speechToSpeechTask.ts:357-399 | the first matching rule decides: audio output buffers, an AUDIO content end flushes, a TEXT content start, a text output and a TEXT content end are forwarded with the role lower-cased and the documented payloads, unparsable model fields throw, anything else is ignored |
| `SessionWorker.HandleItem` | packages/cdk/lambda/speechToSpeechTask.ts:351-410 | the loop stops exactly on bad JSON, a malformed decoded body, an error of the stream itself (raised by the `for await` outside the `try`, so never retried) or an unparsable model field; a stop or an item without bytes leaves the state as it was; the publish log only grows; the speaker-queue bound and the browser-only tagging are kept |
| `SessionWorker.ProcessResponseStream` | packages/cdk/lambda/speechToSpeechTask.ts:343-411 | the publish log only grows, and an empty stream changes nothing; `ResponseStreamInvariants` and `FatalItemEndsStream` give the rest |
| `SessionWorker.ResponseStreamInvariants` | packages/cdk/lambda/speechToSpeechTask.ts:343-411 | over a whole stream the publish log only grows, the speaker queue stays at most 10 long and everything published is tagged for the browser |
| `SessionWorker.FatalItemEndsStream` | packages/cdk/lambda/speechToSpeechTask.ts:351-409 | after bad JSON, a malformed body or a stream error nothing further is processed: the result is what the items before it produced |
| `SessionWorker.Open` | packages/cdk/lambda/speechToSpeechTask.ts:419-511 | the session starts active with the fresh prompt name, only the session start queued, and `ready` published |
| `SessionWorker.Close` | packages/cdk/lambda/speechToSpeechTask.ts:532-547 | `end` is published iff a channel was connected, then all flags are down and all queues empty |
| `SessionWorker.SessionFrame` | packages/cdk/lambda/speechToSpeechTask.ts:413-547 | one run of the handler with a channel, whatever the stream holds, ends with every flag down and every queue empty; what it publishes starts with `ready`, ends with `end`, keeps what was published before, and is all tagged for the browser |
| `SessionWorker.StreamErrorEndsSession` | packages/cdk/lambda/speechToSpeechTask.ts:351-547 | a stream error ends the session: the `finally` publishes `end` right after what the items before the error published, nothing after it is handled, and the worker is reset |
| `SessionController.ResetState` | packages/web/src/hooks/useSpeechToSpeech/index.ts:76-83 | not loading, not active, no recorder, player or channel, empty microphone queue; the transcript and publish log are kept |
| `SessionController.Dispatch` | packages/web/src/hooks/useSpeechToSpeech/index.ts:85-97 | without a channel nothing is published and the call resolves; with one, an accepted publish appends one `ctob` event and resolves, a rejected one publishes nothing and does not resolve |
| `SessionController.StartSession` | packages/web/src/hooks/useSpeechToSpeech/index.ts:259-272 | no effect while active or loading; otherwise the transcript is cleared, loading begins, the prompt is stored, a channel is attached with an empty queue, and player and recorder exist once the start request succeeded |
| `SessionController.RejectedStartBlocksRetry` | packages/web/src/hooks/useSpeechToSpeech/index.ts:259-272 | after a rejected start request, every later start is turned away |
| `SessionController.StartRecording` | packages/web/src/hooks/useSpeechToSpeech/index.ts:214-241 | no effect without player, recorder and a non-empty prompt; otherwise prompt start, system prompt and audio start are published in that order until the channel rejects one; once all three went out the transcript is seeded, and the step resolves only if the player then starts; the session becomes active only if the player and the recorder started; a rejected publish leaves everything but the publish log as it was |
| `SessionController.RejectedPublishKeepsLoading` | packages/web/src/hooks/useSpeechToSpeech/index.ts:172-241 | when the channel rejects one of the start events after `ready`, the events before it went out, the transcript stays cleared, the session stays loading and inactive, and every later start is turned away |
| `SessionController.FailedPlayerStartKeepsLoading` | packages/web/src/hooks/useSpeechToSpeech/index.ts:172-241 | when the player fails to start after the three start events went out, the transcript is seeded but the session stays loading and inactive, and every later start is turned away |
| `SessionController.StopRecording` | packages/web/src/hooks/useSpeechToSpeech/index.ts:243-257 | inactive, recorder and player dropped; audio stop published iff a channel exists and takes it; the step resolves unless the channel rejects it |
| `SessionController.CloseSession` | packages/web/src/hooks/useSpeechToSpeech/index.ts:274-279 | inactive, recorder and player dropped, channel kept, audio stop published iff a channel exists and takes it; loading ends only if the publish did not reject, otherwise loading is as it was |
| `SessionController.CloseSessionTwicePublishesTwice` | packages/web/src/hooks/useSpeechToSpeech/index.ts:274-279 | with a channel, a second close reaches the same state as the first but publishes audio stop again |
| `SessionController.CloseSessionIdempotentWithoutChannel` | packages/web/src/hooks/useSpeechToSpeech/index.ts:274-279 | without a channel, closing publishes nothing and closing twice equals closing once |
| `SessionController.OnRecorderError` | packages/web/src/hooks/useSpeechToSpeech/index.ts:114-130 | a permission error resets the state and appends the microphone message; any other error changes nothing |
| `SessionController.OnAudioRecorded` | packages/web/src/hooks/useSpeechToSpeech/index.ts:104-111 | one encoded chunk is appended to the microphone queue and nothing else changes |
| `SessionController.ProcessAudioInput` | packages/web/src/hooks/useSpeechToSpeech/index.ts:136-158 | nothing happens with at most 10 chunks queued; otherwise a non-empty prefix leaves the queue and one audio input batch of its non-empty chunks is published iff a channel exists and takes it; the step (and with it the loop) goes on only if the publish did not reject |
| `SessionController.ProcessAudioInputKeepsOrder` | packages/web/src/hooks/useSpeechToSpeech/index.ts:136-155 | the batch sent (at most 20 chunks) followed by the non-empty chunks still queued is exactly the non-empty part of the queue before |
| `SessionController.RejectedBatchIsLost` | packages/web/src/hooks/useSpeechToSpeech/index.ts:136-158 | a batch the channel rejects has already left the queue and is not published: batch plus the non-empty rest is the old non-empty queue, but the log is unchanged and the loop stops |
| `SessionController.TextUpdate` | packages/web/src/hooks/useSpeechToSpeech/index.ts:189-195 | a start carries the id, role and generation stage, an output the id, role and content, a stop only the id and stop reason; every other field is absent |
| `SessionController.ReceiveText` | packages/web/src/hooks/useSpeechToSpeech/index.ts:189-201 | the text event goes to the reconciler; the player is cut off once more exactly for a stop with reason INTERRUPTED while a player exists; nothing else changes |
| `SessionController.Receive` | packages/web/src/hooks/useSpeechToSpeech/index.ts:167-204 | non-`btoc` events are ignored; `ready` runs `startRecording` and ends loading only if it resolves (every publish taken and the player started); `end` closes the session; audio output chunks are played in order, empty ones skipped, only with a player; text events go to `ReceiveText` |
| `SessionController.ReceiveTextRun` | packages/web/src/hooks/useSpeechToSpeech/index.ts:167-202 | receiving a run of text events applies the reconciler update of each event's data in arrival order; only the barge-in count also changes, growing by the number of interrupted stops while a player exists |
| `SessionController.ExampleSessionPublishOrder` | packages/web/src/hooks/useSpeechToSpeech/index.ts:214-279 | start, `ready`, close publish prompt start, system prompt, audio start and audio stop in that order and leave the transcript as the system turn |
| `AudioBatch.NonEmpty` | packages/web/src/hooks/useSpeechToSpeech/index.ts:146-151 | the kept chunks are no more than the input and none is empty |
| `AudioBatch.TakeBatch` | packages/web/src/hooks/useSpeechToSpeech/index.ts:137-152 | the rest is a suffix of the queue, the batch is the non-empty chunks of the consumed prefix, at most `limit` of them, and the loop only stops early when the queue is empty |
| `AudioBatch.TakeBatchKeepsOrder` | packages/web/src/hooks/useSpeechToSpeech/index.ts:142-152 | batch followed by the non-empty rest is the non-empty queue (FIFO, nothing lost) |
| `AudioBatch.TakeBatchDrainsShortQueue` | packages/cdk/lambda/speechToSpeechTask.ts:243-253 | a queue no longer than the limit is drained by one batch |
| `AudioBatch.TakeBatchPlain` | packages/cdk/lambda/speechToSpeechTask.ts:243-253 | without empty chunks, the batch is the oldest min(limit, n) chunks and the rest is the remainder |
| `VoiceChat.ForwardedTextReachesReconciler` | packages/cdk/lambda/speechToSpeechTask.ts:367-399 | every text event the worker forwards reaches the browser's reconciler with the id, lower-cased role and generation stage (start), content (output) or stop reason (stop) the model sent; the role sent with a stop is not used |
| `VoiceChat.ForwardedEventUpdatesTranscript` | packages/cdk/lambda/speechToSpeechTask.ts:367-399 | the browser receiving any text event the worker forwards applies the reconciler update built from the model's own fields, cuts the player off once more exactly for an INTERRUPTED stop while a player exists, and changes nothing else |
| `ModelCatalog.SpreadAdditive` | packages/common/src/application/model.ts:53-58 | spreading a record that only switches flags on yields exactly the union of the set flags |
| `ModelCatalog.TextEntryFlags` | packages/common/src/application/model.ts:53-58 | a text entry's flags are its base record's flags plus `light` and/or `legacy` when spread in |
| `ModelCatalog.TextDocImageLightLegacy` | packages/common/src/application/model.ts:52-59 | Claude 3 Sonnet's spread has exactly text, doc, image, light and legacy |
| `ModelCatalog.TextEntryKind` | packages/common/src/application/model.ts:11-21 | every text entry has `text` and none of image_gen, video_gen, embedding, reranking, speechToSpeech |
| `ModelCatalog.EntryKind` | packages/common/src/application/model.ts:22-29 | an entry of another family has, `legacy` aside, exactly its family record's flags |
| `ModelCatalog.Select` | packages/common/src/application/model.ts:503-520 | a filtered list is no longer than the catalogue; `SelectMembership` and `SelectAppend` give its members and order |
| `ModelCatalog.SelectMembership` | packages/common/src/application/model.ts:503-505 | a key is in a filtered list iff some entry with that key has the flag |
| `ModelCatalog.SelectAppend` | packages/common/src/application/model.ts:503-520 | filtering distributes over concatenation, so key order is kept |
| `ModelCatalog.SelectText` | packages/common/src/application/model.ts:503-505 | the text family is selected whole by `text` and not at all by another kind's flag |
| `ModelCatalog.SelectFamily` | packages/common/src/application/model.ts:506-520 | another family is selected whole by its own flag and not at all by any other |
| `ModelCatalog.FilterIsFamily` | packages/common/src/application/model.ts:503-520 | each `BEDROCK_*_MODELS` list is exactly the keys of the family its flag names, in key order |
| `ModelCatalog.KindsAreExclusive` | packages/common/src/application/model.ts:11-23 | no entry has more than one of text, image_gen and video_gen |
| `ModelCatalog.SpeechToSpeechIsNovaSonic` | packages/common/src/application/model.ts:518-520 | the speech-to-speech list is exactly `amazon.nova-sonic-v1:0` |
| `ModelCatalog.CacheFieldsShape` | packages/common/src/application/model.ts:524-532 | every listed model caches messages and system, some also tools |
| `ModelCatalog.CacheFieldsByModel` | packages/common/src/application/model.ts:524-532 | the four Anthropic ids cache messages, system and tools; the three Nova ids messages and system; no other id is listed |
| `PromptCache.StripCriPrefix` | packages/cdk/lambda/utils/promptCache.ts:18 | the result is a suffix of the id (only a prefix is ever removed) |
| `PromptCache.StripCriPrefixOf` | packages/cdk/lambda/utils/promptCache.ts:17-18 | one leading `us.`, `eu.` or `apac.` is removed and only one |
| `PromptCache.StripCriPrefixNone` | packages/cdk/lambda/utils/promptCache.ts:17-18 | an id without such a prefix is kept |
| `PromptCache.GetSupportedCacheFields` | packages/cdk/lambda/utils/promptCache.ts:16-20 | the result is the table entry of the id with any cross-region prefix stripped, or empty when that id is not in the table; messages and system are supported iff it is |
| `PromptCache.CacheFieldsIgnoreRegion` | packages/cdk/lambda/utils/promptCache.ts:16-20 | a cross-region id has the same cache fields as the base id |
| `PromptCache.CacheFieldsExamples` | packages/cdk/lambda/utils/promptCache.ts:16-20 | `us.` + Claude Sonnet 4 caches messages, system and tools; `apac.` + Nova Pro messages and system |
| `PromptCache.WithCachePoint` | packages/cdk/lambda/utils/promptCache.ts:52-55 | the role is kept and the content is the old content (or empty) plus one trailing cache point |
| `PromptCache.LastTrue` | packages/cdk/lambda/utils/promptCache.ts:33-43 | an index is among the last k eligible indices iff it is eligible and fewer than k eligible indices follow it |
| `PromptCache.ApplyAutoCacheToMessages` | packages/cdk/lambda/utils/promptCache.ts:22-57 | same length; each message unchanged or given one trailing cache point; the input is returned when messages are unsupported or the list is empty |
| `PromptCache.ChangedMessages` | packages/cdk/lambda/utils/promptCache.ts:26-56 | message i changes iff messages are supported, it is an eligible user message, fewer than two eligible messages follow it, and it does not already end in a cache point |
| `PromptCache.WithCachePointEligible` | packages/cdk/lambda/utils/promptCache.ts:35-41 | adding a cache point does not change eligibility |
| `PromptCache.MessagesIdempotent` | packages/cdk/lambda/utils/promptCache.ts:45-56 | applying the message pass twice equals applying it once |
| `PromptCache.ApplyAutoCacheToSystem` | packages/cdk/lambda/utils/promptCache.ts:59-72 | the result is the input or the input plus one cache point, the latter iff system is supported, the list is non-empty and its last block is not a cache point |
| `PromptCache.SystemIdempotent` | packages/cdk/lambda/utils/promptCache.ts:59-72 | applying the system pass twice equals applying it once |
| `MediaTypes.Listed` | packages/common/src/application/media.ts:73-77 | every supported MIME type is one of the listed document, image or video types |
| `MediaTypes.ExtensionCount` | packages/common/src/application/media.ts:17-70 | image/jpeg and video/mpeg have two extensions, video/x-ms-wmv none, every other type one |
| `MediaTypes.ExtensionsLowerCase` | packages/common/src/application/media.ts:17-70 | no table extension contains an upper-case letter |
| `MediaTypes.ValueInjective` | packages/common/src/application/media.ts:3-58 | distinct MIME constants have distinct string values, across categories too |
| `MediaTypes.TableEntries` | packages/common/src/application/media.ts:17-28 | an object literal over distinct keys has exactly those keys, each mapped to its own extension list |
| `MediaTypes.DocumentTable` | packages/common/src/application/media.ts:17-28 | the document table's keys are the document values, each with its extensions |
| `MediaTypes.ImageTable` | packages/common/src/application/media.ts:40-45 | the image table's keys are the image values, each with its extensions |
| `MediaTypes.VideoTable` | packages/common/src/application/media.ts:61-70 | the video table's keys are the video values, each with its extensions |
| `MediaTypes.TablesDisjoint` | packages/common/src/application/media.ts:81-85 | the three category tables have pairwise disjoint keys |
| `MediaTypes.MimeTypeToExtensionsEntries` | packages/common/src/application/media.ts:81-85 | every supported type is a key of the merged table with its own extensions, and of its own category's table |
| `MediaTypes.MimeTypeToExtensionsKeys` | packages/common/src/application/media.ts:81-85 | every key of the merged table is the value of a supported type |
| `MediaUtils.GetFileTypeFromMimeType` | packages/web/src/utils/MediaUtils.ts:57-61 | `image` iff an image MIME, `video` iff a video MIME, `file` otherwise |
| `MediaUtils.FileTypeOfSupported` | packages/web/src/utils/MediaUtils.ts:13-14 | a supported type's file type is its category (documents are `file`) |
| `MediaUtils.FileTypeOnlyOfSupported` | packages/web/src/utils/MediaUtils.ts:57-61 | only supported MIME values give `image` or `video` |
| `MediaUtils.StripDot` | packages/web/src/utils/MediaUtils.ts:70 | a leading dot is removed, otherwise the extension is kept |
| `MediaUtils.StripDotOnce` | packages/web/src/utils/MediaUtils.ts:70 | exactly one dot is removed, so `..x` becomes `.x` |
| `MediaUtils.ValidateMimeTypeAndExtension` | packages/web/src/utils/MediaUtils.ts:64-74 | true only for a MIME type in the table |
| `MediaUtils.ValidateSupported` | packages/web/src/utils/MediaUtils.ts:68-71 | a supported type validates an extension iff the dot-stripped, lower-cased extension is one of its table extensions |
| `MediaUtils.ValidateOnlySupported` | packages/web/src/utils/MediaUtils.ts:68-73 | a MIME string that validates anything is the value of a supported type |
| `MediaUtils.ValidateWmv` | packages/web/src/utils/MediaUtils.ts:68-71 | no extension validates for video/x-ms-wmv |
| `MediaUtils.ValidateJpgExample` | packages/web/src/utils/MediaUtils.ts:69-71 | (`image/jpeg`, `.JPG`) validates |
| `MediaUtils.AddDot` | packages/web/src/utils/MediaUtils.ts:49 | stripping the dot again gives the extension back |
| `MediaUtils.FlatMembers` | packages/web/src/utils/MediaUtils.ts:51-53 | a string is in the flattened table iff it is an extension of some listed type |
| `MediaUtils.AddDotsMembers` | packages/web/src/utils/MediaUtils.ts:49-54 | a string is in the dotted list iff it starts with a dot and its undotted form is in the list |
| `MediaUtils.AcceptedPerCategory` | packages/web/src/utils/MediaUtils.ts:50-54 | an accepted document, image or video extension is exactly a dot followed by an extension of a type of that category |
| `MediaUtils.AcceptedValidates` | packages/web/src/utils/MediaUtils.ts:50-74 | every accepted extension validates against some MIME type of its category |
| `MediaUtils.NormaliseDetectedMimeType` | packages/web/src/utils/MediaUtils.ts:42-45 | the result is never an alias; `NormaliseCases` gives the exact case split |
| `MediaUtils.NormaliseCases` | packages/web/src/utils/MediaUtils.ts:42-45 | a missing, empty or `application/x-cfb` detection falls back to the browser type; an alias maps to `video/mpeg`; anything else is kept |
| `MediaUtils.NormaliseKeepsSupported` | packages/web/src/utils/MediaUtils.ts:45 | a detected supported MIME value is returned unchanged |
| `MediaUtils.NormaliseExamples` | packages/web/src/utils/MediaUtils.ts:17-21 | `video/MP1S` normalises to `video/mpeg`; `application/x-cfb` falls back to the browser type |
| `Strings.ToLower` | packages/web/src/utils/MediaUtils.ts:71 | same length, each character lower-cased |
| `CreateMessages.IsValidExtraData` | packages/cdk/lambda/createMessages.ts:7-11 | a valid attachment has a URL made of the upload prefix followed by a key; with `UploadedObjectIsValid`, this is exactly what is valid |
| `CreateMessages.UploadedObjectIsValid` | packages/cdk/lambda/createMessages.ts:7-11 | any URL under `https://<bucket>.s3.<region>.amazonaws.com/` is a valid attachment |
| `CreateMessages.CheckExtraData` | packages/cdk/lambda/createMessages.ts:37-56 | the nested loops with early exit return the verdict of the first test that does not pass (400 for a URL outside the bucket, 500 for a `null` message or a missing URL), and pass iff every test passes |
| `CreateMessages.CheckMessage` | packages/cdk/lambda/createMessages.ts:39-54 | the inner loop returns the verdict of the first attachment of the message that does not pass, a `null` message throwing |
| `CreateMessages.FirstFailureIsFirst` | packages/cdk/lambda/createMessages.ts:37-56 | the verdict is `Pass` iff every test passes, and otherwise that of a test all of whose predecessors pass |
| `CreateMessages.FirstFailingTestDecides` | packages/cdk/lambda/createMessages.ts:37-56 | when every message before message i passes and attachment j is the first of message i to fail (or message i is `null`), the loops' verdict is that attachment's (or a throw) |
| `CreateMessages.ValidationPasses` | packages/cdk/lambda/createMessages.ts:37-56 | the loops let a parsed body through iff every attachment of every message is in the upload bucket |
| `CreateMessages.NoExtraDataPasses` | packages/cdk/lambda/createMessages.ts:39 | messages with absent or empty extra data always pass |
| `CreateMessages.Handler` | packages/cdk/lambda/createMessages.ts:13-81 | the CORS and JSON headers are always set and the status is 200, 400, 403 or 500 |
| `CreateMessages.NotOwnerIsForbidden` | packages/cdk/lambda/createMessages.ts:23-35 | a chat that is not the caller's gives 403 whatever the body and attachments, and the lookup is the only store call |
| `CreateMessages.MalformedBodyAfterLookup` | packages/cdk/lambda/createMessages.ts:17-41 | a body that is valid JSON but `null` is only read after the lookup: 403 for a foreign chat, 500 for an owned one, and nothing written |
| `CreateMessages.WritesOnlyValidOwnedMessages` | packages/cdk/lambda/createMessages.ts:23-58 | a write happens only for a readable event, an owned chat and a body object whose attachments all lie in the bucket, and writes the caller's messages to the caller's chat |
| `CreateMessages.InvalidExtraDataIsRejected` | packages/cdk/lambda/createMessages.ts:37-56 | for an owned chat, the first failing attachment decides: outside the bucket gives 400, a missing URL or a `null` message ahead of it gives 500; the lookup is the only store call |
| `CreateMessages.SuccessExactly` | packages/cdk/lambda/createMessages.ts:58-69 | the status is 200 iff the chat is owned, the body is an object whose attachments are valid and the write returns; the body then carries the written records |
| `CreateMessages.ExceptionIsInternalError` | packages/cdk/lambda/createMessages.ts:70-80 | the status is 500 iff reading the event or the lookup throws, or for an owned chat the body is `null`, the loops throw before rejecting anything, or the write throws; the body is then `Internal Server Error` |

## Left out

- Asynchronous scheduling in the worker and the client:
  - the 100 ms wait of the input iterator, which is modelled as a `Blocked` result;
  - the `setTimeout` re-runs of the audio loops, where one run is one step function;
  - the interleaving of callbacks.
  These are concurrency, not data logic.
- Channel connection and subscription, the speech model SDK call, the HTTP/2 handler, Amplify
  configuration, credentials, and the 1 s sleep before `ready`. These are foreign I/O. A
  failed publish on the worker is swallowed and logged, which leaves the state unchanged, so
  publishing always appends to the log. On the browser side, whether the channel takes a
  publish is a parameter.
- The fixed configuration fields of the model input events: inference settings, sample
  rates, the voice and the media types. They are constants with no influence on the logic.
- The error thrown when the model response has no body, and the iterator's `return` and
  `throw` members. These are SDK plumbing around the stream that is modelled.
- Float/PCM conversion and base64 encoding of audio (`float32ArrayToInt16Array`,
  `base64ToFloat32Array`, `arrayBufferToBase64`). This is floating point plus browser
  `btoa`/`atob`; chunks are opaque strings here.
- The Web Audio recorder and player. The player is a flag, plus a log of played chunks and
  a barge-in counter. Whether the player and the recorder start are boolean parameters.
- React state and rendering. A state update is applied immediately. The error list is
  appended to the current list, not to the stale closure value the callback captured.
- The `displayName` of each model, and the literal key list of `modelMetadata` beyond its
  per-family structure. The filters are proved for every catalogue of that structure, and
  for the concrete one only the speech-to-speech list is computed.
- `ModelCatalog.KindsAreExclusive`: states, entry by entry, that no entry has two of
  text, image_gen and video_gen. It does not state that the three key lists are disjoint.
  That also needs the keys of the object literal to be distinct across families, which is
  not stated over the literal table.
- JavaScript object lookup through the prototype chain (a MIME string such as
  `constructor` passed to `in` or to the alias map). Lookups are plain map lookups.
- `Strings.ToLower`: lower-cases ASCII letters only, whereas `toLowerCase` also folds
  non-ASCII letters.
- File-header detection in `getMimeTypeFromFileHeader` (the file-type library, streams, the
  4 KB buffer retry). Only the fallback and alias step after detection is modelled, with the
  detected value as a parameter.
- `CreateMessages.Handler`: the response body is a datatype, not JSON text. Reading
  `BUCKET_NAME` and `AWS_REGION` is a parameter (an undefined region is the text it
  stringifies to). The repository functions are parameters returning a value or throwing.
- `CreateMessages.ToBeRecordedMessage`: message entries that are numbers or strings are not
  represented. They have no `extraData`, so they pass the loops like a message without
  attachments. A truthy `messages` that cannot be iterated is represented as a list whose
  first entry is `null`, which throws at the same point.
- `SessionWorker.Route`: a payload that cannot be iterated makes the callback throw inside
  the subscription's `next`. That rejected promise is not modelled; the worker's state is
  left as it was, which is what the model states.
- Console logging everywhere.

## Dafny files

`wrappers.dfy`, `strings.dfy`, `speech_events.dfy`, `audio_batch.dfy`, `chat_history.dfy`,
`session_worker.dfy`, `session_controller.dfy`, `model_catalog.dfy`, `prompt_cache.dfy`,
`media_types.dfy`, `media_utils.dfy`, `create_messages.dfy`, `voice_chat.dfy`.

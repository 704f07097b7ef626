/** The browser side of a voice chat session: the controller hook.

    It owns the session flags, references to the microphone recorder, the speaker player
    and the channel (modelled as whether each is present), the outgoing microphone queue
    and the transcript reconciler.  What it publishes, what it hands to the player and how
    often it cuts the player off are recorded in the state. */
module SessionController {
  import opened Wrappers
  import opened Strings
  import opened SpeechEvents
  import AudioBatch
  import ChatHistory

  /** Shown when the microphone may not be used. */
  const MicrophoneUnavailable :=
    "The microphone is not available. Please grant permission to use the microphone."

  datatype Controller = Controller(
    isActive: bool,
    isLoading: bool,
    systemPrompt: string,
    hasPlayer: bool,
    hasRecorder: bool,
    hasChannel: bool,
    inputQueue: seq<string>,
    history: ChatHistory.History,
    errorMessages: seq<string>,
    published: seq<SpeechEvent>,
    played: seq<string>,
    bargeIns: nat)

  /** The controller before any session: idle, nothing attached. */
  const Idle := Controller(false, false, "", false, false, false, [], ChatHistory.Cleared,
                           [], [], [], 0)

  /** Flags down and every reference dropped, including the channel; the transcript, the
      prompt and the error list are kept. */
  function ResetState(c: Controller): (r: Controller)
    ensures !r.isLoading && !r.isActive
    ensures !r.hasRecorder && !r.hasPlayer && !r.hasChannel && r.inputQueue == []
    ensures r.history == c.history && r.published == c.published
  {
    c.(isLoading := false, isActive := false, hasRecorder := false, hasPlayer := false,
       hasChannel := false, inputQueue := [])
  }

  /** The end of an `async` step: the state it leaves and whether its promise resolved.
      `resolved` is false when a publish was rejected; the step stops at that publish. */
  datatype Run = Run(c: Controller, resolved: bool)

  /** `dispatchEvent`: without a channel nothing is published and the call resolves.  With
      one, `accepted` says whether the channel takes the publish.  A rejected publish is not
      caught: nothing is published and the rejection reaches the caller. */
  function Dispatch(c: Controller, event: EventType, data: Payload, accepted: bool): (o: Run)
    ensures !c.hasChannel ==> o == Run(c, true)
    ensures c.hasChannel && accepted
        ==> o == Run(c.(published := c.published + [SpeechEvent(Ctob, event, data)]), true)
    ensures c.hasChannel && !accepted ==> o == Run(c, false)
  {
    if !c.hasChannel then Run(c, true)
    else if accepted then Run(c.(published := c.published + [SpeechEvent(Ctob, event, data)]), true)
    else Run(c, false)
  }

  // ---------------------------------------------------------------------------------------
  // Starting and stopping

  /** `startSession`: ignored while a session is active or starting.  Otherwise the
      transcript is cleared, the session is loading, the prompt is kept, a channel is
      attached with an empty microphone queue and, once the server accepted the start
      request (`posted`), the player and the recorder are created.  A rejected start request
      leaves the session loading. */
  function StartSession(c: Controller, prompt: string, posted: bool): (r: Controller)
    ensures c.isActive || c.isLoading ==> r == c
    ensures !c.isActive && !c.isLoading ==>
              && r.isLoading && !r.isActive
              && r.history == ChatHistory.Cleared
              && r.systemPrompt == prompt
              && r.hasChannel && r.inputQueue == []
              && r.hasPlayer == (posted || c.hasPlayer) && r.hasRecorder == (posted || c.hasRecorder)
              && r.published == c.published
  {
    if c.isActive || c.isLoading then c
    else
      var c1 := c.(history := ChatHistory.Cleared, isLoading := true, systemPrompt := prompt);
      var c2 := c1.(inputQueue := [], hasChannel := true);
      if posted then c2.(hasPlayer := true, hasRecorder := true) else c2
  }

  /** The start request cannot be repeated after the server rejected it: the session stays
      loading, so the guard turns away every later start until the page is reloaded. */
  lemma RejectedStartBlocksRetry(c: Controller, prompt: string, again: string, posted: bool)
    requires !c.isActive && !c.isLoading
    ensures var r := StartSession(c, prompt, false);
            StartSession(r, again, posted) == r
  {
  }

  /** The three events that start the model's prompt, in the order they are published. */
  function StartEvents(prompt: string): seq<SpeechEvent> {
    [SpeechEvent(Ctob, PromptStart, NoData),
     SpeechEvent(Ctob, SystemPrompt, Text(prompt)),
     SpeechEvent(Ctob, AudioStart, NoData)]
  }

  /** A channel that rejects one of the start events leaves the session loading: the
      events before the rejected one went out, the transcript was not seeded, and the start
      guard now turns away every later start. */
  lemma RejectedPublishKeepsLoading(c: Controller, prompt: string, accepts: nat,
                                    playerStarted: bool, recorderStarted: bool,
                                    again: string, posted: bool)
    requires !c.isActive && !c.isLoading && prompt != ""
    requires accepts < 3
    ensures var c1 := StartSession(c, prompt, true);
            var c2 := Receive(c1, Some(SpeechEvent(Btoc, Ready, NoData)), playerStarted,
                              recorderStarted, accepts);
            && c2.isLoading && !c2.isActive
            && c2.published == c.published + StartEvents(prompt)[..accepts]
            && c2.history == ChatHistory.Cleared
            && StartSession(c2, again, posted) == c2
  {
  }

  /** A player that fails to start after the start events went out leaves the session
      loading and inactive with the transcript already seeded, and the start guard now
      turns away every later start. */
  lemma FailedPlayerStartKeepsLoading(c: Controller, prompt: string, recorderStarted: bool,
                                      again: string, posted: bool)
    requires !c.isActive && !c.isLoading && prompt != ""
    ensures var c1 := StartSession(c, prompt, true);
            var c2 := Receive(c1, Some(SpeechEvent(Btoc, Ready, NoData)), false,
                              recorderStarted, 3);
            && c2.isLoading && !c2.isActive
            && c2.published == c.published + StartEvents(prompt)
            && c2.history == ChatHistory.SetupSystemPrompt(ChatHistory.Cleared, prompt)
            && StartSession(c2, again, posted) == c2
  {
  }

  /** `startRecording`: needs a player, a recorder and a non-empty system prompt.  It then
      publishes prompt start, the system prompt and audio start, in that order; the channel
      takes the first `accepts` of them and rejects the next, which ends the step there.
      When all three went out, it seeds the transcript with the prompt and starts the
      player.  `playerStarted` is whether that start (loading the audio worklet) resolves: a
      rejection is not caught and ends the step with the transcript seeded.  Otherwise the
      session becomes active only if the recorder started. */
  function StartRecording(c: Controller, accepts: nat, playerStarted: bool, recorderStarted: bool)
    : (o: Run)
    ensures !c.hasPlayer || !c.hasRecorder || !Truthy(c.systemPrompt) ==> o == Run(c, true)
    ensures c.hasPlayer && c.hasRecorder && Truthy(c.systemPrompt) ==>
              && o.resolved == ((!c.hasChannel || accepts >= 3) && playerStarted)
              && o.c.published == c.published
                 + (if !c.hasChannel then []
                    else StartEvents(c.systemPrompt)[..if accepts < 3 then accepts else 3])
              && ((!c.hasChannel || accepts >= 3) ==>
                    && o.c.history == ChatHistory.SetupSystemPrompt(c.history, c.systemPrompt)
                    && o.c.isActive == (c.isActive || (playerStarted && recorderStarted)))
              && (c.hasChannel && accepts < 3 ==> o.c == c.(published := o.c.published))
              && o.c == c.(published := o.c.published, history := o.c.history,
                           isActive := o.c.isActive)
              && o.c.hasChannel == c.hasChannel && o.c.isLoading == c.isLoading
  {
    if !c.hasPlayer || !c.hasRecorder || !Truthy(c.systemPrompt) then Run(c, true)
    else
      var o1 := Dispatch(c, PromptStart, NoData, accepts > 0);
      if !o1.resolved then o1
      else
        var o2 := Dispatch(o1.c, SystemPrompt, Text(c.systemPrompt), accepts > 1);
        if !o2.resolved then o2
        else
          var o3 := Dispatch(o2.c, AudioStart, NoData, accepts > 2);
          if !o3.resolved then o3
          else
            var c4 := o3.c.(history := ChatHistory.SetupSystemPrompt(o3.c.history, c.systemPrompt));
            if !playerStarted then Run(c4, false)
            else Run(if recorderStarted then c4.(isActive := true) else c4, true)
  }

  /** `stopRecording`: inactive, recorder and player dropped, then audio stop published;
      `accepted` is whether the channel takes it. */
  function StopRecording(c: Controller, accepted: bool): (o: Run)
    ensures !o.c.isActive && !o.c.hasRecorder && !o.c.hasPlayer
    ensures o.resolved == (!c.hasChannel || accepted)
    ensures o.c.published == c.published
              + (if c.hasChannel && accepted then [SpeechEvent(Ctob, AudioStop, NoData)] else [])
    ensures o.c.hasChannel == c.hasChannel && o.c.history == c.history
    ensures o.c.isLoading == c.isLoading
  {
    Dispatch(c.(isActive := false, hasRecorder := false, hasPlayer := false), AudioStop, NoData,
             accepted)
  }

  /** `closeSession`: stop recording, then idle.  The channel stays attached.  If the
      channel rejects audio stop, the step ends there and loading is left as it was. */
  function CloseSession(c: Controller, accepted: bool): (o: Run)
    ensures !o.c.isActive && !o.c.hasRecorder && !o.c.hasPlayer
    ensures o.resolved == (!c.hasChannel || accepted)
    ensures o.resolved ==> !o.c.isLoading
    ensures !o.resolved ==> o.c.isLoading == c.isLoading
    ensures o.c.hasChannel == c.hasChannel && o.c.history == c.history
    ensures o.c.published == c.published
              + (if c.hasChannel && accepted then [SpeechEvent(Ctob, AudioStop, NoData)] else [])
  {
    var o := StopRecording(c, accepted);
    if o.resolved then Run(o.c.(isActive := false, isLoading := false), true) else o
  }

  /** Closing twice reaches the same flags and references as closing once, but with a
      channel attached the second close publishes audio stop a second time. */
  lemma CloseSessionTwicePublishesTwice(c: Controller)
    requires c.hasChannel
    ensures var once := CloseSession(c, true).c;
            var twice := CloseSession(once, true).c;
            && twice.published == once.published + [SpeechEvent(Ctob, AudioStop, NoData)]
            && twice.(published := once.published) == once
  {
  }

  /** Without a channel (after a reset), closing publishes nothing and is idempotent. */
  lemma CloseSessionIdempotentWithoutChannel(c: Controller, first: bool, second: bool)
    requires !c.hasChannel
    ensures CloseSession(CloseSession(c, first).c, second) == CloseSession(c, first)
    ensures CloseSession(c, first).c.published == c.published
  {
  }

  /** The recorder's error callback: a permission failure resets the state and adds one
      error message; any other error only gets logged. */
  function OnRecorderError(c: Controller, errorType: string): (r: Controller)
    ensures errorType == "NotAllowedError" || errorType == "PermissionDeniedError" ==>
              && r == ResetState(c).(errorMessages := c.errorMessages + [MicrophoneUnavailable])
              && !r.hasChannel && !r.isActive && !r.isLoading
    ensures errorType != "NotAllowedError" && errorType != "PermissionDeniedError" ==> r == c
  {
    if errorType == "NotAllowedError" || errorType == "PermissionDeniedError" then
      ResetState(c).(errorMessages := c.errorMessages + [MicrophoneUnavailable])
    else c
  }

  // ---------------------------------------------------------------------------------------
  // Microphone audio

  /** The recorder's data callback appends one encoded chunk. */
  function OnAudioRecorded(c: Controller, chunk: string): (r: Controller)
    ensures r == c.(inputQueue := c.inputQueue + [chunk])
  {
    c.(inputQueue := c.inputQueue + [chunk])
  }

  /** One run of `processAudioInput`: with more than 10 chunks queued, one batch of at
      most 20 non-empty chunks, oldest first, leaves the queue and is published as audio
      input; `accepted` is whether the channel takes it.  The loop schedules its next run
      only when the step resolves, so a rejected publish ends the microphone loop. */
  function ProcessAudioInput(c: Controller, accepted: bool): (o: Run)
    ensures |c.inputQueue| <= AudioBatch.MinQueued ==> o == Run(c, true)
    ensures |c.inputQueue| > AudioBatch.MinQueued ==>
              && |o.c.inputQueue| < |c.inputQueue|
              && o.c.inputQueue == c.inputQueue[|c.inputQueue| - |o.c.inputQueue|..]
              && o.resolved == (!c.hasChannel || accepted)
              && o.c.published == c.published + (if c.hasChannel && accepted then
                   [SpeechEvent(Ctob, AudioInput,
                      Chunks(AudioBatch.TakeBatch(c.inputQueue, AudioBatch.MaxPerBatch).chunks))]
                   else [])
    ensures o.c.history == c.history && o.c.isActive == c.isActive
  {
    if |c.inputQueue| > AudioBatch.MinQueued then
      var b := AudioBatch.TakeBatch(c.inputQueue, AudioBatch.MaxPerBatch);
      Dispatch(c.(inputQueue := b.rest), AudioInput, Chunks(b.chunks), accepted)
    else Run(c, true)
  }

  /** What one batching run sends, followed by the non-empty chunks still queued, is the
      non-empty part of the queue it started from: nothing lost, nothing reordered; and the
      batch holds at most 20 chunks. */
  lemma ProcessAudioInputKeepsOrder(c: Controller)
    requires c.hasChannel && |c.inputQueue| > AudioBatch.MinQueued
    ensures var r := ProcessAudioInput(c, true).c;
            && |r.published| == |c.published| + 1
            && r.published[|c.published|].data.Chunks?
            && |r.published[|c.published|].data.chunks| <= AudioBatch.MaxPerBatch
            && r.published[|c.published|].data.chunks + AudioBatch.NonEmpty(r.inputQueue)
               == AudioBatch.NonEmpty(c.inputQueue)
  {
    AudioBatch.TakeBatchKeepsOrder(c.inputQueue, AudioBatch.MaxPerBatch);
  }

  /** A batch the channel rejects is lost: it has already left the queue, nothing is
      published, and the loop stops. */
  lemma RejectedBatchIsLost(c: Controller)
    requires c.hasChannel && |c.inputQueue| > AudioBatch.MinQueued
    ensures var o := ProcessAudioInput(c, false);
            && !o.resolved && o.c.published == c.published
            && AudioBatch.TakeBatch(c.inputQueue, AudioBatch.MaxPerBatch).chunks
               + AudioBatch.NonEmpty(o.c.inputQueue) == AudioBatch.NonEmpty(c.inputQueue)
  {
    AudioBatch.TakeBatchKeepsOrder(c.inputQueue, AudioBatch.MaxPerBatch);
  }

  // ---------------------------------------------------------------------------------------
  // Events from the channel

  /** The reconciler input a text event carries: `onTextStart` takes the id, role and
      generation stage, `onTextOutput` the id, role and content, `onTextStop` the id and
      stop reason. */
  function TextUpdate(event: EventType, d: Payload): (p: ChatHistory.Partial)
    requires d.TextData?
    ensures p.id == d.id
    ensures p.role == (if event == TextStart || event == TextOutput then d.role else None)
    ensures p.content == (if event == TextOutput then d.content else None)
    ensures p.generationStage == (if event == TextStart then d.generationStage else None)
    ensures p.stopReason == (if event != TextStart && event != TextOutput then d.stopReason else None)
  {
    match event
    case TextStart => ChatHistory.StartData(d.id, d.role, d.generationStage)
    case TextOutput => ChatHistory.OutputData(d.id, d.role, d.content)
    case _ => ChatHistory.StopData(d.id, d.stopReason)
  }

  predicate IsTextEvent(event: EventType) {
    event == TextStart || event == TextOutput || event == TextStop
  }

  /** A `btoc` event that reaches the reconciler. */
  predicate ReachesHistory(msg: Option<SpeechEvent>) {
    msg.Some? && msg.value.direction == Btoc && IsTextEvent(msg.value.event)
    && msg.value.data.TextData?
  }

  /** The reconciler can take the event (see `ChatHistory.CanApply`). */
  predicate Accepts(c: Controller, msg: Option<SpeechEvent>) {
    ReachesHistory(msg) ==>
      ChatHistory.CanApply(c.history, TextUpdate(msg.value.event, msg.value.data))
  }

  /** A text event handed to the reconciler; an interrupted stop also cuts the player off. */
  function ReceiveText(c: Controller, e: SpeechEvent): (r: Controller)
    requires ReachesHistory(Some(e)) && Accepts(c, Some(e))
    ensures && r.history == ChatHistory.TryUpdate(c.history, TextUpdate(e.event, e.data))
            && r == c.(history := r.history, bargeIns := r.bargeIns)
            && r.bargeIns == c.bargeIns
               + if e.event == TextStop && c.hasPlayer
                    && e.data.stopReason == Some(ChatHistory.Interrupted) then 1 else 0
  {
    var c1 := c.(history := ChatHistory.TryUpdate(c.history, TextUpdate(e.event, e.data)));
    if e.event == TextStop && e.data.stopReason == Some(ChatHistory.Interrupted) && c.hasPlayer
    then c1.(bargeIns := c1.bargeIns + 1) else c1
  }

  /** The subscription callback.  Only `btoc` events are handled: `ready` starts recording
      and ends loading, `end` closes the session, audio output is played chunk by chunk (the
      empty ones skipped) when a player exists, and the three text events go to the
      reconciler; a stop with reason `INTERRUPTED` also cuts the player off.
      `playerStarted` and `recorderStarted` are whether the player and the recorder start
      when `ready` asks them to; `accepts` is
      how many publishes the channel takes before it rejects one.  Loading ends only if
      `startRecording` resolves. */
  function Receive(c: Controller, msg: Option<SpeechEvent>, playerStarted: bool,
                   recorderStarted: bool, accepts: nat)
    : (r: Controller)
    requires Accepts(c, msg)
    ensures msg.None? || msg.value.direction != Btoc ==> r == c
    ensures msg.Some? && msg.value.direction == Btoc && msg.value.event == Ready ==>
              var o := StartRecording(c, accepts, playerStarted, recorderStarted);
              r == if o.resolved then o.c.(isLoading := false) else o.c
    ensures msg.Some? && msg.value.direction == Btoc && msg.value.event == End ==>
              r == CloseSession(c, accepts > 0).c
    ensures msg.Some? && msg.value.direction == Btoc && msg.value.event == AudioOutput
            && msg.value.data.Chunks? ==>
              r == c.(played := c.played
                        + if c.hasPlayer then AudioBatch.NonEmpty(msg.value.data.chunks) else [])
    ensures ReachesHistory(msg) ==> r == ReceiveText(c, msg.value)
  {
    if msg.None? || msg.value.direction != Btoc then c
    else
      var e := msg.value;
      match e.event
      case Ready =>
        var o := StartRecording(c, accepts, playerStarted, recorderStarted);
        if o.resolved then o.c.(isLoading := false) else o.c
      case End => CloseSession(c, accepts > 0).c
      case AudioOutput =>
        if c.hasPlayer && e.data.Chunks? then
          c.(played := c.played + AudioBatch.NonEmpty(e.data.chunks))
        else c
      case TextStart => if e.data.TextData? then ReceiveText(c, e) else c
      case TextOutput => if e.data.TextData? then ReceiveText(c, e) else c
      case TextStop => if e.data.TextData? then ReceiveText(c, e) else c
      case _ => c
  }

  /** A run of events that all reach the reconciler. */
  predicate TextRun(msgs: seq<SpeechEvent>) {
    forall i :: 0 <= i < |msgs| ==> ReachesHistory(Some(msgs[i]))
  }

  /** The reconciler inputs a run of text events carries, in order. */
  function TextUpdates(msgs: seq<SpeechEvent>): (evs: seq<ChatHistory.Partial>)
    requires TextRun(msgs)
    ensures |evs| == |msgs|
    decreases |msgs|
  {
    if msgs == [] then [] else [TextUpdate(msgs[0].event, msgs[0].data)] + TextUpdates(msgs[1..])
  }

  /** How many of the events are stops with reason `INTERRUPTED`. */
  function Interruptions(msgs: seq<SpeechEvent>): nat
    decreases |msgs|
  {
    if msgs == [] then 0
    else (if msgs[0].event == TextStop && msgs[0].data.TextData?
             && msgs[0].data.stopReason == Some(ChatHistory.Interrupted) then 1 else 0)
         + Interruptions(msgs[1..])
  }

  /** The subscription callback applied to each event of a run, in arrival order. */
  function ReceiveAll(c: Controller, msgs: seq<SpeechEvent>): Controller
    requires ChatHistory.FoldDefined(c.history.groups)
    requires TextRun(msgs)
    decreases |msgs|
  {
    if msgs == [] then c
    else
      var c1 := Receive(c, Some(msgs[0]), false, false, 0);
      ReceiveAll(c1, msgs[1..])
  }

  /** Receiving a run of text events is the reconciler's update applied to each event's
      data in arrival order.  Nothing else changes except the barge-in count, which grows by
      the number of interrupted stops while a player exists. */
  lemma {:induction false} ReceiveTextRun(c: Controller, msgs: seq<SpeechEvent>)
    requires ChatHistory.FoldDefined(c.history.groups)
    requires TextRun(msgs)
    ensures var r := ReceiveAll(c, msgs);
            && r.history == ChatHistory.ApplyAll(c.history, TextUpdates(msgs))
            && r.bargeIns == c.bargeIns + (if c.hasPlayer then Interruptions(msgs) else 0)
            && r == c.(history := r.history, bargeIns := r.bargeIns)
    decreases |msgs|
  {
    if msgs != [] {
      var c1 := Receive(c, Some(msgs[0]), false, false, 0);
      assert c1 == ReceiveText(c, msgs[0]);
      ReceiveTextRun(c1, msgs[1..]);
    }
  }

  /** A whole session from the browser's side: start, `ready`, close.  The browser publishes
      prompt start, the system prompt, audio start and audio stop, in that order, and ends
      idle with the transcript seeded with the prompt. */
  lemma ExampleSessionPublishOrder(prompt: string)
    requires prompt != ""
    ensures var c1 := StartSession(Idle, prompt, true);
            var c2 := Receive(c1, Some(SpeechEvent(Btoc, Ready, NoData)), true, true, 3);
            var c3 := CloseSession(c2, true).c;
            && c2.isActive && !c2.isLoading
            && c3.published == [
                 SpeechEvent(Ctob, PromptStart, NoData),
                 SpeechEvent(Ctob, SystemPrompt, Text(prompt)),
                 SpeechEvent(Ctob, AudioStart, NoData),
                 SpeechEvent(Ctob, AudioStop, NoData)]
            && !c3.isActive && !c3.isLoading
            && ChatHistory.Messages(c3.history.groups) == [ChatHistory.Turn("system", prompt)]
  {
    var c1 := StartSession(Idle, prompt, true);
    var c2 := Receive(c1, Some(SpeechEvent(Btoc, Ready, NoData)), true, true, 3);
    assert c2.history.groups == [[ChatHistory.SystemMessage(prompt)]];
    ChatHistory.MessagesOfSystemPrompt(prompt);
  }
}

/** The server-side session worker: one duplex session with the speech model.

    Control events from the browser are turned into model input events on an event queue;
    the model's input stream pulls that queue one event at a time.  Microphone audio goes
    through a capped input queue, speaker audio through an output queue published to the
    browser in batches.  The module-level variables of the worker are one `Worker` record
    and every operation is a step function on it; what the worker publishes to the channel
    is appended to `published`. */
module SessionWorker {
  import opened Wrappers
  import opened Strings
  import opened SpeechEvents
  import AudioBatch

  /** The microphone queue keeps at most this many chunks, dropping the oldest. */
  const MaxAudioInputQueue: nat := 200

  /** The events fed to the model's input stream (their fixed configuration fields, such
      as sample rates and the voice, are not modelled). */
  datatype ModelInput =
    | SessionStart
    | PromptStart(promptName: string)
    | ContentStartText(promptName: string, contentName: string)
    | TextInput(promptName: string, contentName: string, text: Payload)
    | ContentStartAudio(promptName: string, contentName: string)
    | AudioInput(promptName: string, contentName: string, content: string)
    | ContentEnd(promptName: string, contentName: string)
    | PromptEnd(promptName: string)
    | SessionEnd

  datatype Worker = Worker(
    isActive: bool,
    isProcessingAudio: bool,
    isAudioStarted: bool,
    eventQueue: seq<ModelInput>,
    audioInputQueue: seq<string>,
    audioOutputQueue: seq<string>,
    promptName: string,
    audioContentId: string,
    published: seq<SpeechEvent>)

  /** Everything the worker publishes is tagged for the browser. */
  predicate AllToClient(events: seq<SpeechEvent>) {
    forall i :: 0 <= i < |events| ==> events[i].direction == Btoc
  }

  // ---------------------------------------------------------------------------------------
  // State reset and publishing

  function ClearQueue(w: Worker): (r: Worker)
    ensures r.eventQueue == [] && r.audioInputQueue == [] && r.audioOutputQueue == []
    ensures r == w.(eventQueue := [], audioInputQueue := [], audioOutputQueue := [])
  {
    w.(eventQueue := [], audioInputQueue := [], audioOutputQueue := [])
  }

  /** Flags down, queues empty; the prompt name, the audio content id and what was already
      published are kept. */
  function Initialize(w: Worker): (r: Worker)
    ensures !r.isActive && !r.isProcessingAudio && !r.isAudioStarted
    ensures r.eventQueue == [] && r.audioInputQueue == [] && r.audioOutputQueue == []
    ensures r.promptName == w.promptName && r.audioContentId == w.audioContentId
    ensures r.published == w.published
  {
    ClearQueue(w.(isActive := false, isProcessingAudio := false, isAudioStarted := false))
  }

  /** Publishing an event to the browser.  A failed publish is caught and only logged, so
      the worker's state does not depend on it. */
  function Dispatch(w: Worker, event: EventType, data: Payload): (r: Worker)
    ensures r == w.(published := w.published + [SpeechEvent(Btoc, event, data)])
  {
    w.(published := w.published + [SpeechEvent(Btoc, event, data)])
  }

  // ---------------------------------------------------------------------------------------
  // Control events from the browser

  function Push(w: Worker, e: ModelInput): Worker {
    w.(eventQueue := w.eventQueue + [e])
  }

  /** The session start is queued last; nothing else changes. */
  function EnqueueSessionStart(w: Worker): (r: Worker)
    ensures r == w.(eventQueue := w.eventQueue + [SessionStart])
  {
    Push(w, SessionStart)
  }

  /** The prompt start for the current prompt name is queued last; nothing else changes. */
  function EnqueuePromptStart(w: Worker): (r: Worker)
    ensures r == w.(eventQueue := w.eventQueue + [ModelInput.PromptStart(w.promptName)])
  {
    Push(w, ModelInput.PromptStart(w.promptName))
  }

  /** The system prompt becomes three events sharing one fresh content name.  The prompt is
      whatever the browser sent as the event's data. */
  function EnqueueSystemPrompt(w: Worker, prompt: Payload, contentName: string): (r: Worker)
    ensures r == w.(eventQueue := w.eventQueue + [
      ContentStartText(w.promptName, contentName),
      TextInput(w.promptName, contentName, prompt),
      ContentEnd(w.promptName, contentName)])
  {
    var w1 := Push(w, ContentStartText(w.promptName, contentName));
    var w2 := Push(w1, TextInput(w.promptName, contentName, prompt));
    Push(w2, ContentEnd(w.promptName, contentName))
  }

  /** Audio input starts under a fresh content id. */
  function EnqueueAudioStart(w: Worker, freshId: string): (r: Worker)
    ensures r.isAudioStarted && r.audioContentId == freshId
    ensures r.eventQueue == w.eventQueue + [ContentStartAudio(w.promptName, freshId)]
    ensures r == w.(audioContentId := freshId, isAudioStarted := true,
                    eventQueue := w.eventQueue + [ContentStartAudio(w.promptName, freshId)])
  {
    Push(w.(audioContentId := freshId, isAudioStarted := true),
         ContentStartAudio(w.promptName, freshId))
  }

  /** The prompt end for the current prompt name is queued last; nothing else changes. */
  function EnqueuePromptEnd(w: Worker): (r: Worker)
    ensures r == w.(eventQueue := w.eventQueue + [PromptEnd(w.promptName)])
  {
    Push(w, PromptEnd(w.promptName))
  }

  /** The session end is queued last; nothing else changes. */
  function EnqueueSessionEnd(w: Worker): (r: Worker)
    ensures r == w.(eventQueue := w.eventQueue + [SessionEnd])
  {
    Push(w, SessionEnd)
  }

  /** Audio stops: every queue is dropped, including events not yet sent to the model, and
      the audio content is closed. */
  function EnqueueAudioStop(w: Worker): (r: Worker)
    ensures !r.isAudioStarted
    ensures r.eventQueue == [ContentEnd(w.promptName, w.audioContentId)]
    ensures r.audioInputQueue == [] && r.audioOutputQueue == []
    ensures r == w.(isAudioStarted := false, eventQueue := [ContentEnd(w.promptName, w.audioContentId)],
                    audioInputQueue := [], audioOutputQueue := [])
  {
    Push(ClearQueue(w.(isAudioStarted := false)), ContentEnd(w.promptName, w.audioContentId))
  }

  // ---------------------------------------------------------------------------------------
  // Microphone audio: capped queue, moved onto the event queue

  /** The `while (length - 200 > 0) shift()` loop: drop from the head down to `cap`. */
  function TrimOldest(q: seq<string>, cap: nat): (r: seq<string>)
    ensures |r| == if |q| <= cap then |q| else cap
    ensures r == q[|q| - |r|..]
    decreases |q|
  {
    if |q| > cap then TrimOldest(q[1..], cap) else q
  }

  /** The `while (queue.length > 0 && ...)` loop of `processAudioQueue`: each chunk, oldest
      first, becomes an audio input event of the given content. */
  function AudioInputs(promptName: string, contentName: string, chunks: seq<string>)
    : (es: seq<ModelInput>)
    ensures |es| == |chunks|
    decreases |chunks|
  {
    if chunks == [] then []
    else [ModelInput.AudioInput(promptName, contentName, chunks[0])]
         + AudioInputs(promptName, contentName, chunks[1..])
  }

  lemma {:induction false} AudioInputsAppend(promptName: string, contentName: string,
                                             a: seq<string>, b: seq<string>)
    ensures AudioInputs(promptName, contentName, a + b)
         == AudioInputs(promptName, contentName, a) + AudioInputs(promptName, contentName, b)
    decreases |a|
  {
    if a != [] {
      assert (a + b)[1..] == a[1..] + b;
      AudioInputsAppend(promptName, contentName, a[1..], b);
    } else {
      assert a + b == b;
    }
  }

  /** One run of `processAudioQueue`: while audio is started and the session is active,
      every queued chunk moves to the event queue in order under the current audio content
      id and the loop is rescheduled; otherwise the loop ends. */
  function ProcessAudioStep(w: Worker): (r: Worker)
    ensures w.isAudioStarted && w.isActive ==>
              && r.audioInputQueue == []
              && r.eventQueue
                 == w.eventQueue + AudioInputs(w.promptName, w.audioContentId, w.audioInputQueue)
              && r == w.(audioInputQueue := [], eventQueue := w.eventQueue
                           + AudioInputs(w.promptName, w.audioContentId, w.audioInputQueue))
    ensures !(w.isAudioStarted && w.isActive) ==> r == w.(isProcessingAudio := false)
    ensures r.published == w.published && r.audioOutputQueue == w.audioOutputQueue
  {
    if w.isAudioStarted && w.isActive then
      w.(audioInputQueue := [],
         eventQueue := w.eventQueue + AudioInputs(w.promptName, w.audioContentId, w.audioInputQueue))
    else w.(isProcessingAudio := false)
  }

  /** Chunks are accepted only while audio is started and the session is active; the queue
      keeps the newest 200.  If the audio loop is not running it is started, and its first
      run moves the whole queue at once. */
  function EnqueueAudioInput(w: Worker, chunks: seq<string>): (r: Worker)
    ensures !(w.isAudioStarted && w.isActive) ==> r == w
    ensures w.isAudioStarted && w.isActive ==>
              var kept := TrimOldest(w.audioInputQueue + chunks, MaxAudioInputQueue);
              && r.isProcessingAudio
              && (w.isProcessingAudio ==>
                    r == w.(audioInputQueue := kept))
              && (!w.isProcessingAudio ==>
                    r == w.(isProcessingAudio := true, audioInputQueue := [],
                            eventQueue := w.eventQueue
                                          + AudioInputs(w.promptName, w.audioContentId, kept)))
  {
    if !w.isAudioStarted || !w.isActive then w
    else
      var q := TrimOldest(w.audioInputQueue + chunks, MaxAudioInputQueue);
      if !w.isProcessingAudio then ProcessAudioStep(w.(audioInputQueue := q, isProcessingAudio := true))
      else w.(audioInputQueue := q)
  }

  /** Whether or not the audio loop was running, after the enqueue and one run of the loop
      the event queue has gained the newest (at most 200) chunks, in order. */
  lemma InputReachesModelInOrder(w: Worker, chunks: seq<string>)
    requires w.isAudioStarted && w.isActive
    ensures var kept := TrimOldest(w.audioInputQueue + chunks, MaxAudioInputQueue);
            var r := ProcessAudioStep(EnqueueAudioInput(w, chunks));
            && r.eventQueue == w.eventQueue + AudioInputs(w.promptName, w.audioContentId, kept)
            && r.audioInputQueue == []
            && |kept| <= MaxAudioInputQueue
  {
    var kept := TrimOldest(w.audioInputQueue + chunks, MaxAudioInputQueue);
    if !w.isProcessingAudio {
      var r1 := EnqueueAudioInput(w, chunks);
      assert AudioInputs(w.promptName, w.audioContentId, []) == [];
      assert r1.eventQueue + [] == r1.eventQueue;
    }
  }

  // ---------------------------------------------------------------------------------------
  // Speaker audio: batched publishing

  /** An `audioOutput` event for the browser carrying at most one batch of chunks. */
  predicate IsAudioBatch(e: SpeechEvent) {
    && e.direction == Btoc && e.event == AudioOutput && e.data.Chunks?
    && |e.data.chunks| <= AudioBatch.MaxPerBatch
  }

  /** `r` differs from `w` at most in the speaker queue and the published events. */
  predicate OnlyOutputChanged(w: Worker, r: Worker) {
    r.(audioOutputQueue := w.audioOutputQueue, published := w.published) == w
  }

  /** A chunk from the model is queued; once the queue holds more than 10, one batch is
      published: the oldest non-empty chunks, 20 of them unless that empties the queue, and
      a queue of at most 10 stays at most 10.  `EnqueueAudioOutputConserves` lifts the
      no-loss, no-reordering clause to the published log. */
  function EnqueueAudioOutput(w: Worker, chunk: string): (r: Worker)
    ensures var q := w.audioOutputQueue + [chunk];
            |q| <= AudioBatch.MinQueued ==> r == w.(audioOutputQueue := q)
    ensures var q := w.audioOutputQueue + [chunk];
            |q| > AudioBatch.MinQueued ==>
              && |r.published| == |w.published| + 1
              && IsAudioBatch(r.published[|w.published|])
              && var batch := r.published[|w.published|].data.chunks;
                 && batch + AudioBatch.NonEmpty(r.audioOutputQueue) == AudioBatch.NonEmpty(q)
                 && (|batch| == AudioBatch.MaxPerBatch || r.audioOutputQueue == [])
    ensures OnlyOutputChanged(w, r)
    ensures |w.audioOutputQueue| <= AudioBatch.MinQueued
        ==> |r.audioOutputQueue| <= AudioBatch.MinQueued
  {
    var q := w.audioOutputQueue + [chunk];
    if |q| > AudioBatch.MinQueued then
      var b := AudioBatch.TakeBatch(q, AudioBatch.MaxPerBatch);
      AudioBatch.TakeBatchKeepsOrder(q, AudioBatch.MaxPerBatch);
      w.(audioOutputQueue := b.rest,
         published := w.published + [SpeechEvent(Btoc, AudioOutput, Chunks(b.chunks))])
    else
      w.(audioOutputQueue := q)
  }

  /** Every queued non-empty chunk is published in one event, even when fewer than 10
      (or none) are queued. */
  function ForcePublishAudioOutput(w: Worker): (r: Worker)
    ensures r.audioOutputQueue == []
    ensures r == w.(audioOutputQueue := [], published := w.published
                      + [SpeechEvent(Btoc, AudioOutput, Chunks(AudioBatch.NonEmpty(w.audioOutputQueue)))])
  {
    Dispatch(w.(audioOutputQueue := []), AudioOutput, Chunks(AudioBatch.NonEmpty(w.audioOutputQueue)))
  }

  /** The chunks carried by a sequence of published events, in order. */
  function PublishedChunks(events: seq<SpeechEvent>): seq<string> {
    if events == [] then []
    else (if events[0].event == AudioOutput && events[0].data.Chunks? then events[0].data.chunks
          else [])
         + PublishedChunks(events[1..])
  }

  lemma {:induction false} PublishedChunksAppend(a: seq<SpeechEvent>, b: seq<SpeechEvent>)
    ensures PublishedChunks(a + b) == PublishedChunks(a) + PublishedChunks(b)
  {
    if a == [] {
      assert a + b == b;
    } else {
      assert (a + b)[1..] == a[1..] + b;
      PublishedChunksAppend(a[1..], b);
    }
  }

  function EnqueueAllAudioOutput(w: Worker, chunks: seq<string>): Worker
    decreases |chunks|
  {
    if chunks == [] then w else EnqueueAllAudioOutput(EnqueueAudioOutput(w, chunks[0]), chunks[1..])
  }

  /** `after` is `before` with events appended. */
  predicate Extends(before: seq<SpeechEvent>, after: seq<SpeechEvent>) {
    |before| <= |after| && after[..|before|] == before
  }

  /** Going from `w` to `r` by buffering `added` lost and reordered nothing: the chunks
      published in between followed by the non-empty chunks still queued are the non-empty
      chunks of the old queue followed by `added`. */
  predicate Conserves(w: Worker, r: Worker, added: seq<string>) {
    && Extends(w.published, r.published)
    && PublishedChunks(r.published[|w.published|..]) + AudioBatch.NonEmpty(r.audioOutputQueue)
       == AudioBatch.NonEmpty(w.audioOutputQueue + added)
  }

  /** Buffering one chunk loses and reorders nothing. */
  lemma EnqueueAudioOutputConserves(w: Worker, c: string)
    ensures Conserves(w, EnqueueAudioOutput(w, c), [c])
  {
    var r := EnqueueAudioOutput(w, c);
    var q := w.audioOutputQueue + [c];
    if |q| > AudioBatch.MinQueued {
      var b := AudioBatch.TakeBatch(q, AudioBatch.MaxPerBatch);
      var e := SpeechEvent(Btoc, AudioOutput, Chunks(b.chunks));
      assert r == w.(audioOutputQueue := b.rest, published := w.published + [e]);
      assert r.published[|w.published|..] == [e];
      assert PublishedChunks([e]) == b.chunks by {
        assert PublishedChunks([e]) == b.chunks + PublishedChunks([]);
      }
      AudioBatch.TakeBatchKeepsOrder(q, AudioBatch.MaxPerBatch);
    } else {
      assert r.published[|w.published|..] == [];
    }
  }

  lemma ConservesTrans(w: Worker, w1: Worker, r: Worker, a: seq<string>, b: seq<string>)
    requires Conserves(w, w1, a) && Conserves(w1, r, b)
    ensures Conserves(w, r, a + b)
  {
    ExtendsTrans(w.published, w1.published, r.published);
    var before := w1.published[|w.published|..];
    var after := r.published[|w1.published|..];
    assert PublishedChunks(r.published[|w.published|..])
        == PublishedChunks(before) + PublishedChunks(after) by {
      PublishedChunksAppend(before, after);
    }
    assert AudioBatch.NonEmpty(w1.audioOutputQueue + b)
        == AudioBatch.NonEmpty(w1.audioOutputQueue) + AudioBatch.NonEmpty(b) by {
      AudioBatch.NonEmptyAppend(w1.audioOutputQueue, b);
    }
    assert AudioBatch.NonEmpty(w.audioOutputQueue + (a + b))
        == AudioBatch.NonEmpty(w.audioOutputQueue + a) + AudioBatch.NonEmpty(b) by {
      AudioBatch.NonEmptyAppend(w.audioOutputQueue + a, b);
      assert w.audioOutputQueue + a + b == w.audioOutputQueue + (a + b);
    }
    ChainConcat(PublishedChunks(before), PublishedChunks(after),
                AudioBatch.NonEmpty(w1.audioOutputQueue), AudioBatch.NonEmpty(r.audioOutputQueue),
                AudioBatch.NonEmpty(w.audioOutputQueue + a), AudioBatch.NonEmpty(b));
  }

  lemma ExtendsTrans<T>(a: seq<T>, b: seq<T>, c: seq<T>)
    requires |a| <= |b| && b[..|a|] == a
    requires |b| <= |c| && c[..|b|] == b
    ensures |a| <= |c| && c[..|a|] == a
    ensures c[|a|..] == b[|a|..] + c[|b|..]
  {
    assert c[..|a|] == c[..|b|][..|a|];
  }

  /** The bookkeeping step of `ConservesTrans`, on plain sequences. */
  lemma ChainConcat<T>(p1: seq<T>, p2: seq<T>, q1: seq<T>, q2: seq<T>, x: seq<T>, y: seq<T>)
    requires p1 + q1 == x
    requires p2 + q2 == q1 + y
    ensures (p1 + p2) + q2 == x + y
  {
    calc {
      (p1 + p2) + q2;
      p1 + (p2 + q2);
      p1 + (q1 + y);
      (p1 + q1) + y;
    }
  }

  lemma {:induction false} EnqueueAllConserves(w: Worker, chunks: seq<string>)
    ensures Conserves(w, EnqueueAllAudioOutput(w, chunks), chunks)
    decreases |chunks|
  {
    if chunks == [] {
      var r := EnqueueAllAudioOutput(w, chunks);
      assert r.published[|w.published|..] == [];
      assert w.audioOutputQueue + chunks == w.audioOutputQueue;
    } else {
      var w1 := EnqueueAudioOutput(w, chunks[0]);
      EnqueueAudioOutputConserves(w, chunks[0]);
      EnqueueAllConserves(w1, chunks[1..]);
      ConservesTrans(w, w1, EnqueueAllAudioOutput(w1, chunks[1..]), [chunks[0]], chunks[1..]);
      assert [chunks[0]] + chunks[1..] == chunks;
    }
  }

  /** A flush, in the terms of `Conserves`: the step `OutputReachesClientInOrder` ends with. */
  lemma ForcePublishConserves(w: Worker)
    ensures Conserves(w, ForcePublishAudioOutput(w), [])
  {
    var r := ForcePublishAudioOutput(w);
    var e := r.published[|w.published|];
    assert r.published[|w.published|..] == [e];
    assert PublishedChunks([e]) == e.data.chunks + PublishedChunks([]);
    assert w.audioOutputQueue + [] == w.audioOutputQueue;
  }

  /** End-to-end FIFO on the speaker leg: chunks buffered one by one and then force-flushed
      are published to the channel exactly once each, in order, with only the empty ones dropped. */
  lemma OutputReachesClientInOrder(w: Worker, chunks: seq<string>)
    ensures var r := ForcePublishAudioOutput(EnqueueAllAudioOutput(w, chunks));
            && r.audioOutputQueue == []
            && Extends(w.published, r.published)
            && PublishedChunks(r.published[|w.published|..])
               == AudioBatch.NonEmpty(w.audioOutputQueue + chunks)
  {
    var m := EnqueueAllAudioOutput(w, chunks);
    var r := ForcePublishAudioOutput(m);
    EnqueueAllConserves(w, chunks);
    ForcePublishConserves(m);
    ConservesTrans(w, m, r, chunks, []);
    assert chunks + [] == chunks;
    assert AudioBatch.NonEmpty(r.audioOutputQueue) == [];
  }

  // ---------------------------------------------------------------------------------------
  // The model input stream

  datatype Pull = Yield(event: ModelInput) | Blocked | Done

  /** One call of the input iterator's `next`: the head of the event queue; an empty queue
      waits while the session is active and ends the stream once it is not.  Handing out
      `sessionEnd` makes the session inactive. */
  function Next(w: Worker): (r: (Worker, Pull))
    ensures w.eventQueue == [] && w.isActive ==> r == (w, Blocked)
    ensures w.eventQueue == [] && !w.isActive ==> r == (w, Done)
    ensures w.eventQueue != [] ==>
              && r.1 == Yield(w.eventQueue[0])
              && r.0 == w.(eventQueue := w.eventQueue[1..],
                           isActive := w.isActive && w.eventQueue[0] != SessionEnd)
  {
    if w.eventQueue == [] then (w, if w.isActive then Blocked else Done)
    else
      var e := w.eventQueue[0];
      (w.(eventQueue := w.eventQueue[1..], isActive := w.isActive && !e.SessionEnd?), Yield(e))
  }

  /** Pulling until the stream blocks or ends, or `fuel` pulls were made. */
  function PullAll(w: Worker, fuel: nat): (r: (Worker, seq<ModelInput>))
    ensures |r.1| <= fuel && |r.1| <= |w.eventQueue|
    ensures r.1 == w.eventQueue[..|r.1|] && r.0.eventQueue == w.eventQueue[|r.1|..]
    decreases fuel
  {
    if fuel == 0 then (w, [])
    else
      var (w1, p) := Next(w);
      if p.Yield? then
        var (w2, rest) := PullAll(w1, fuel - 1);
        assert [p.event] + rest == w.eventQueue[..1 + |rest|];
        (w2, [p.event] + rest)
      else (w1, [])
  }

  /** The model receives the queue in FIFO order; the session is left active only if it
      was and no `sessionEnd` went by. */
  lemma {:induction false} PullAllInOrder(w: Worker)
    ensures var (r, out) := PullAll(w, |w.eventQueue|);
            && out == w.eventQueue
            && r.eventQueue == []
            && r.isActive == (w.isActive && SessionEnd !in w.eventQueue)
            && r == w.(eventQueue := [], isActive := r.isActive)
    decreases |w.eventQueue|
  {
    if w.eventQueue != [] {
      var (w1, p) := Next(w);
      PullAllInOrder(w1);
      assert w.eventQueue == [w.eventQueue[0]] + w1.eventQueue;
    }
  }

  // ---------------------------------------------------------------------------------------
  // Events from the channel

  /** What `for (const audioInput of data)` walks over: the chunks of an array, or the
      characters of a string, each as a one-character chunk.  Any other payload is not
      iterable, so the loop throws before anything is queued. */
  function InputChunks(data: Payload): (r: Option<seq<string>>)
    ensures data.Chunks? ==> r == Some(data.chunks)
    ensures data.Text? ==> && r.Some? && |r.value| == |data.text|
                           && forall i :: 0 <= i < |data.text| ==> r.value[i] == [data.text[i]]
    ensures data.NoData? || data.TextData? ==> r.None?
  {
    match data
    case Chunks(cs) => Some(cs)
    case Text(t) => Some(seq(|t|, i requires 0 <= i < |t| => [t[i]]))
    case _ => None
  }

  /** The subscription callback.  Only events tagged `ctob` are acted on; `uuid` is the
      random UUID a system prompt or an audio start draws.  The payload is used as it
      arrives: a system prompt of any shape is queued as the text input's content, and
      audio input that cannot be iterated changes nothing. */
  function Route(w: Worker, msg: Option<SpeechEvent>, uuid: string): (r: Worker)
    ensures msg.None? || msg.value.direction != Ctob ==> r == w
    ensures msg.Some? && msg.value.direction == Ctob && msg.value.event == EventType.PromptStart ==>
              r == w.(eventQueue := w.eventQueue + [ModelInput.PromptStart(w.promptName)])
    ensures msg.Some? && msg.value.direction == Ctob && msg.value.event == SystemPrompt ==>
              r == w.(eventQueue := w.eventQueue + [
                ContentStartText(w.promptName, uuid),
                TextInput(w.promptName, uuid, msg.value.data),
                ContentEnd(w.promptName, uuid)])
    ensures msg.Some? && msg.value.direction == Ctob && msg.value.event == AudioStart ==>
              r == EnqueueAudioStart(w, uuid)
    ensures msg.Some? && msg.value.direction == Ctob && msg.value.event == EventType.AudioInput ==>
              r == (if InputChunks(msg.value.data).Some?
                    then EnqueueAudioInput(w, InputChunks(msg.value.data).value) else w)
    ensures msg.Some? && msg.value.direction == Ctob && msg.value.event == AudioStop ==>
              && !r.isAudioStarted
              && r.eventQueue == [ContentEnd(w.promptName, w.audioContentId),
                                  PromptEnd(w.promptName), SessionEnd]
              && r.audioInputQueue == [] && r.audioOutputQueue == []
              && r == w.(isAudioStarted := false,
                         eventQueue := [ContentEnd(w.promptName, w.audioContentId),
                                        PromptEnd(w.promptName), SessionEnd],
                         audioInputQueue := [], audioOutputQueue := [])
    ensures msg.Some? && msg.value.direction == Ctob
            && msg.value.event !in {EventType.PromptStart, SystemPrompt, AudioStart,
                                    EventType.AudioInput, AudioStop}
            ==> r == w
    ensures r.published == w.published
    ensures r.promptName == w.promptName
  {
    if msg.None? || msg.value.direction != Ctob then w
    else
      var e := msg.value;
      match e.event
      case PromptStart => EnqueuePromptStart(w)
      case SystemPrompt => EnqueueSystemPrompt(w, e.data, uuid)
      case AudioStart => EnqueueAudioStart(w, uuid)
      case AudioInput =>
        var chunks := InputChunks(e.data);
        if chunks.Some? then EnqueueAudioInput(w, chunks.value) else w
      case AudioStop => EnqueueSessionEnd(EnqueuePromptEnd(EnqueueAudioStop(w)))
      case _ => w
  }

  /** The start of a one-turn session as the worker sees it: the session opens and the
      browser publishes prompt start, the system prompt and audio start.  `textId` and
      `audioId` are the UUIDs the system prompt and the audio start draw. */
  function TurnHead(w: Worker, pn: string, prompt: string, textId: string, audioId: string)
    : Worker
  {
    var w0 := Open(w, pn);
    var w1 := Route(w0, Some(SpeechEvent(Ctob, EventType.PromptStart, NoData)), textId);
    var w2 := Route(w1, Some(SpeechEvent(Ctob, EventType.SystemPrompt, Text(prompt))), textId);
    Route(w2, Some(SpeechEvent(Ctob, EventType.AudioStart, NoData)), audioId)
  }

  /** The model's input before any audio: session start, prompt start, the system prompt's
      three events and the audio content start. */
  function HeadEvents(pn: string, prompt: string, textId: string, audioId: string)
    : seq<ModelInput>
  {
    [SessionStart, ModelInput.PromptStart(pn),
     ContentStartText(pn, textId), TextInput(pn, textId, Text(prompt)),
     ContentEnd(pn, textId), ContentStartAudio(pn, audioId)]
  }

  lemma TurnHeadState(w: Worker, pn: string, prompt: string, textId: string, audioId: string)
    ensures TurnHead(w, pn, prompt, textId, audioId)
         == Open(w, pn).(eventQueue := HeadEvents(pn, prompt, textId, audioId),
                         audioContentId := audioId, isAudioStarted := true)
  {
    var w0 := Open(w, pn);
    var w1 := Route(w0, Some(SpeechEvent(Ctob, EventType.PromptStart, NoData)), textId);
    assert w1 == w0.(eventQueue := [SessionStart, ModelInput.PromptStart(pn)]);
    var w2 := Route(w1, Some(SpeechEvent(Ctob, EventType.SystemPrompt, Text(prompt))), textId);
    assert w2 == w1.(eventQueue := w1.eventQueue + [
      ContentStartText(pn, textId), TextInput(pn, textId, Text(prompt)), ContentEnd(pn, textId)]);
  }

  /** The rest of the opening: two audio batches, and one more run of the audio loop. */
  function TurnStart(w: Worker, pn: string, prompt: string, textId: string, audioId: string,
                     a: seq<string>, b: seq<string>): Worker
  {
    var w3 := TurnHead(w, pn, prompt, textId, audioId);
    var w4 := Route(w3, Some(SpeechEvent(Ctob, EventType.AudioInput, Chunks(a))), audioId);
    var w5 := Route(w4, Some(SpeechEvent(Ctob, EventType.AudioInput, Chunks(b))), audioId);
    ProcessAudioStep(w5)
  }

  /** Audio input reaching an idle audio loop with an empty microphone queue is queued for
      the model at once, under the current audio content, and the loop is now running. */
  lemma AudioIntoIdleLoop(w: Worker, cs: seq<string>, uuid: string)
    requires w.isActive && w.isAudioStarted && !w.isProcessingAudio && w.audioInputQueue == []
    requires |cs| <= MaxAudioInputQueue
    ensures Route(w, Some(SpeechEvent(Ctob, EventType.AudioInput, Chunks(cs))), uuid)
         == w.(isProcessingAudio := true,
               eventQueue := w.eventQueue + AudioInputs(w.promptName, w.audioContentId, cs))
  {
    assert InputChunks(Chunks(cs)) == Some(cs);
    assert Route(w, Some(SpeechEvent(Ctob, EventType.AudioInput, Chunks(cs))), uuid)
        == EnqueueAudioInput(w, cs);
    assert w.audioInputQueue + cs == cs;
  }

  /** Audio input reaching a running audio loop waits in the microphone queue. */
  lemma AudioIntoRunningLoop(w: Worker, cs: seq<string>, uuid: string)
    requires w.isActive && w.isAudioStarted && w.isProcessingAudio && w.audioInputQueue == []
    requires |cs| <= MaxAudioInputQueue
    ensures Route(w, Some(SpeechEvent(Ctob, EventType.AudioInput, Chunks(cs))), uuid)
         == w.(audioInputQueue := cs)
  {
    assert w.audioInputQueue + cs == cs;
  }

  /** What the opening queues for the model: the head events and then every chunk of both
      batches, in order (the second batch waits in the microphone queue for the next run of
      the audio loop). */
  lemma TurnStartQueue(w: Worker, pn: string, prompt: string, textId: string, audioId: string,
                       a: seq<string>, b: seq<string>)
    requires |a| <= MaxAudioInputQueue && |b| <= MaxAudioInputQueue
    ensures var r := TurnStart(w, pn, prompt, textId, audioId, a, b);
            && r.eventQueue == HeadEvents(pn, prompt, textId, audioId)
                               + AudioInputs(pn, audioId, a + b)
            && r.isActive && r.promptName == pn && r.audioContentId == audioId
  {
    var w3 := TurnHead(w, pn, prompt, textId, audioId);
    TurnHeadState(w, pn, prompt, textId, audioId);
    TwoBatches(w3, a, b, audioId);
  }

  /** Two audio batches reaching an idle audio loop, then one more run of the loop: both
      batches are queued for the model, in order. */
  lemma TwoBatches(w: Worker, a: seq<string>, b: seq<string>, uuid: string)
    requires w.isActive && w.isAudioStarted && !w.isProcessingAudio && w.audioInputQueue == []
    requires |a| <= MaxAudioInputQueue && |b| <= MaxAudioInputQueue
    ensures var w4 := Route(w, Some(SpeechEvent(Ctob, EventType.AudioInput, Chunks(a))), uuid);
            var w5 := Route(w4, Some(SpeechEvent(Ctob, EventType.AudioInput, Chunks(b))), uuid);
            ProcessAudioStep(w5)
            == w.(isProcessingAudio := true,
                  eventQueue := w.eventQueue + AudioInputs(w.promptName, w.audioContentId, a + b))
  {
    var pn, id := w.promptName, w.audioContentId;
    AudioIntoIdleLoop(w, a, uuid);
    var w4 := Route(w, Some(SpeechEvent(Ctob, EventType.AudioInput, Chunks(a))), uuid);
    AudioIntoRunningLoop(w4, b, uuid);
    var w5 := Route(w4, Some(SpeechEvent(Ctob, EventType.AudioInput, Chunks(b))), uuid);
    assert w5 == w.(isProcessingAudio := true, audioInputQueue := b,
                    eventQueue := w.eventQueue + AudioInputs(pn, id, a));
    AudioInputsAppend(pn, id, a, b);
    Associative(w.eventQueue, AudioInputs(pn, id, a), AudioInputs(pn, id, b));
  }

  /** Regrouping a concatenation, kept apart from `TwoBatches`: proved in the context of
      that lemma's queue terms the same step exhausts the solver. */
  lemma Associative<T>(x: seq<T>, y: seq<T>, z: seq<T>)
    ensures (x + y) + z == x + (y + z)
  {
  }

  /** The whole input side of a one-turn session: after the opening the model drains the
      event queue, then audio stop arrives and the model drains the queue again.  The model
      receives everything the opening queued and then the audio content end, prompt end and
      session end; after that the session is inactive and the input stream ends. */
  lemma OneTurnReachesModel(w: Worker, pn: string, prompt: string, textId: string,
                            audioId: string, a: seq<string>, b: seq<string>)
    requires |a| <= MaxAudioInputQueue && |b| <= MaxAudioInputQueue
    ensures
      var w6 := TurnStart(w, pn, prompt, textId, audioId, a, b);
      var p1 := PullAll(w6, |w6.eventQueue|);
      var w8 := Route(p1.0, Some(SpeechEvent(Ctob, EventType.AudioStop, NoData)), audioId);
      var p2 := PullAll(w8, |w8.eventQueue|);
      && p1.1 + p2.1
         == HeadEvents(pn, prompt, textId, audioId)
            + AudioInputs(pn, audioId, a + b)
            + [ContentEnd(pn, audioId), PromptEnd(pn), SessionEnd]
      && !p2.0.isActive && Next(p2.0).1 == Done
  {
    var w6 := TurnStart(w, pn, prompt, textId, audioId, a, b);
    TurnStartQueue(w, pn, prompt, textId, audioId, a, b);
    NoSessionEndBeforeStop(pn, prompt, textId, audioId, a + b);
    PullAllInOrder(w6);
    var p1 := PullAll(w6, |w6.eventQueue|);
    assert p1.1 == w6.eventQueue && p1.0.isActive;
    var w8 := Route(p1.0, Some(SpeechEvent(Ctob, EventType.AudioStop, NoData)), audioId);
    assert w8.eventQueue == [ContentEnd(pn, audioId), PromptEnd(pn), SessionEnd];
    PullAllInOrder(w8);
  }

  /** Nothing the opening queues ends the session. */
  lemma NoSessionEndBeforeStop(pn: string, prompt: string, textId: string, audioId: string,
                               cs: seq<string>)
    ensures SessionEnd !in HeadEvents(pn, prompt, textId, audioId) + AudioInputs(pn, audioId, cs)
  {
    AudioInputsShape(pn, audioId, cs);
    var audio := AudioInputs(pn, audioId, cs);
    assert forall k :: 0 <= k < |audio| ==> audio[k] != SessionEnd;
  }

  /** Every event of `AudioInputs` is an audio input. */
  lemma {:induction false} AudioInputsShape(promptName: string, contentName: string,
                                            chunks: seq<string>)
    ensures forall k :: 0 <= k < |AudioInputs(promptName, contentName, chunks)| ==>
              AudioInputs(promptName, contentName, chunks)[k].AudioInput?
    decreases |chunks|
  {
    if chunks != [] {
      AudioInputsShape(promptName, contentName, chunks[1..]);
    }
  }

  // ---------------------------------------------------------------------------------------
  // The model output stream

  /** `additionalModelFields` of a content start: absent (or empty), not valid JSON, or
      parsed with its generation stage. */
  datatype ModelFields = NoFields | Unparsable | Fields(generationStage: Option<string>)

  datatype ContentStartBody = ContentStartBody(
    contentType: Option<string>, contentId: string, role: Option<string>,
    additionalModelFields: ModelFields)

  datatype TextOutputBody = TextOutputBody(
    contentId: string, role: Option<string>, content: Option<string>)

  datatype ContentEndBody = ContentEndBody(
    contentType: Option<string>, contentId: string, role: Option<string>,
    stopReason: Option<string>)

  /** The members of a decoded output event (`jsonResponse.event`); the audio content is
      the empty string when missing. */
  datatype OutputEvent = OutputEvent(
    audioOutput: Option<string>,
    contentStart: Option<ContentStartBody>,
    textOutput: Option<TextOutputBody>,
    contentEnd: Option<ContentEndBody>)

  /** What the worker does with one output event. */
  datatype Action =
    | BufferAudio(chunk: string)
    | FlushAudio
    | Forward(event: EventType, data: Payload)
    | Ignore
    | Throw

  function LowerRole(role: Option<string>): Option<string> {
    if role.Some? then Some(ToLower(role.value)) else None
  }

  predicate IsAudioEnd(e: OutputEvent) {
    e.contentEnd.Some? && e.contentEnd.value.contentType == Some("AUDIO")
  }

  predicate IsTextStart(e: OutputEvent) {
    e.contentStart.Some? && e.contentStart.value.contentType == Some("TEXT")
  }

  predicate IsTextEnd(e: OutputEvent) {
    e.contentEnd.Some? && e.contentEnd.value.contentType == Some("TEXT")
  }

  /** The first matching rule decides: audio output is buffered, an audio content end
      flushes, a text content start, a text output and a text content end are forwarded
      with the role lower-cased.  Unparsable model fields throw. */
  function Classify(e: OutputEvent): (a: Action)
    ensures a.BufferAudio? <==> e.audioOutput.Some?
    ensures a.FlushAudio? <==> e.audioOutput.None? && IsAudioEnd(e)
    ensures a.Throw? <==> && e.audioOutput.None? && !IsAudioEnd(e) && IsTextStart(e)
                          && e.contentStart.value.additionalModelFields.Unparsable?
    ensures a.Ignore? <==> && e.audioOutput.None? && !IsAudioEnd(e) && !IsTextStart(e)
                           && e.textOutput.None? && !IsTextEnd(e)
    ensures a.Forward? && a.event == TextStart <==>
              && e.audioOutput.None? && !IsAudioEnd(e) && IsTextStart(e)
              && !e.contentStart.value.additionalModelFields.Unparsable?
    ensures a.Forward? && a.event == TextOutput <==>
              e.audioOutput.None? && !IsAudioEnd(e) && !IsTextStart(e) && e.textOutput.Some?
    ensures a.Forward? && a.event == TextStop <==>
              && e.audioOutput.None? && !IsAudioEnd(e) && !IsTextStart(e) && e.textOutput.None?
              && IsTextEnd(e)
    ensures a.Forward? && a.event == TextStart ==>
              var cs := e.contentStart.value;
              a.data == TextData(cs.contentId, LowerRole(cs.role), None,
                                 if cs.additionalModelFields.Fields?
                                 then cs.additionalModelFields.generationStage else None,
                                 None)
    ensures a.Forward? && a.event == TextOutput ==>
              var t := e.textOutput.value;
              a.data == TextData(t.contentId, LowerRole(t.role), t.content, None, None)
    ensures a.Forward? && a.event == TextStop ==>
              var c := e.contentEnd.value;
              a.data == TextData(c.contentId, LowerRole(c.role), None, None, c.stopReason)
    ensures a.Forward? ==> a.event in {TextStart, TextOutput, TextStop}
  {
    if e.audioOutput.Some? then BufferAudio(e.audioOutput.value)
    else if IsAudioEnd(e) then FlushAudio
    else if IsTextStart(e) then
      var cs := e.contentStart.value;
      match cs.additionalModelFields
      case Unparsable => Throw
      case NoFields => Forward(TextStart, TextData(cs.contentId, LowerRole(cs.role), None, None, None))
      case Fields(stage) =>
        Forward(TextStart, TextData(cs.contentId, LowerRole(cs.role), None, stage, None))
    else if e.textOutput.Some? then
      var t := e.textOutput.value;
      Forward(TextOutput, TextData(t.contentId, LowerRole(t.role), t.content, None, None))
    else if IsTextEnd(e) then
      var c := e.contentEnd.value;
      Forward(TextStop, TextData(c.contentId, LowerRole(c.role), None, None, c.stopReason))
    else Ignore
  }

  /** One item of the response stream.
      - `NoBytes`: no chunk bytes, so the loop body does nothing.
      - `Decoded`: a decoded event.
      - `BadJson`: bytes that are not JSON.
      - `Malformed`: JSON whose handling throws in the loop body, such as `null` (reading
        `event` of it) or a role that is not a string.
      - `StreamError`: the response stream itself throws, for example on an exception frame
        from the model such as `ModelStreamErrorException`. */
  datatype StreamItem = NoBytes | Decoded(event: OutputEvent) | BadJson | Malformed | StreamError

  datatype Step = Continue(w: Worker) | Stop(w: Worker)

  /** One turn of the `for await` loop.  Errors from the loop body go to its `catch`.
      Nothing in the body raises `ModelStreamErrorException`: publishing swallows its own
      errors and the rest throw `SyntaxError` or `TypeError`.  So every such error ends the
      loop.  A `StreamError` is raised by the `for await` itself, outside the `try`; it
      leaves `processResponseStream` with the worker as it was, which has the same effect on
      the worker. */
  function HandleItem(w: Worker, item: StreamItem): (s: Step)
    ensures s.Stop? <==> || item.BadJson? || item.Malformed? || item.StreamError?
                         || (item.Decoded? && Classify(item.event).Throw?)
    ensures s.Stop? || item.NoBytes? ==> s.w == w
    ensures |w.audioOutputQueue| <= AudioBatch.MinQueued
        ==> |s.w.audioOutputQueue| <= AudioBatch.MinQueued
    ensures Extends(w.published, s.w.published)
    ensures AllToClient(w.published) ==> AllToClient(s.w.published)
  {
    match item
    case NoBytes => Continue(w)
    case BadJson => Stop(w)
    case Malformed => Stop(w)
    case StreamError => Stop(w)
    case Decoded(e) =>
      match Classify(e)
      case BufferAudio(c) => Continue(EnqueueAudioOutput(w, c))
      case FlushAudio => Continue(ForcePublishAudioOutput(w))
      case Forward(ev, data) => Continue(Dispatch(w, ev, data))
      case Ignore => Continue(w)
      case Throw => Stop(w)
  }

  /** `processResponseStream`: the items are handled in order until one is fatal. */
  function ProcessResponseStream(w: Worker, items: seq<StreamItem>): (r: Worker)
    ensures Extends(w.published, r.published)
    ensures items == [] ==> r == w
    decreases |items|
  {
    if items == [] then w
    else match HandleItem(w, items[0])
      case Continue(w1) =>
        var r := ProcessResponseStream(w1, items[1..]);
        ExtendsTrans(w.published, w1.published, r.published);
        r
      case Stop(w1) => w1
  }

  /** Over the whole stream the published log only grows, the speaker queue stays at most
      10 long, and the worker only publishes events tagged for the browser. */
  lemma {:induction false} ResponseStreamInvariants(w: Worker, items: seq<StreamItem>)
    requires |w.audioOutputQueue| <= AudioBatch.MinQueued
    requires AllToClient(w.published)
    ensures |ProcessResponseStream(w, items).audioOutputQueue| <= AudioBatch.MinQueued
    ensures AllToClient(ProcessResponseStream(w, items).published)
    ensures Extends(w.published, ProcessResponseStream(w, items).published)
    decreases |items|
  {
    if items != [] {
      var s := HandleItem(w, items[0]);
      if s.Continue? {
        ResponseStreamInvariants(s.w, items[1..]);
        var r := ProcessResponseStream(s.w, items[1..]);
        ExtendsTrans(w.published, s.w.published, r.published);
      }
    }
  }

  /** After an item that ends the stream whatever the state, nothing more is processed:
      the stream leaves the worker as the items before it did. */
  lemma {:induction false} FatalItemEndsStream(
    w: Worker, a: seq<StreamItem>, item: StreamItem, b: seq<StreamItem>)
    requires item.BadJson? || item.Malformed? || item.StreamError?
    ensures ProcessResponseStream(w, a + [item] + b) == ProcessResponseStream(w, a)
    decreases |a|
  {
    if a == [] {
      assert a + [item] + b == [item] + b;
    } else {
      assert (a + [item] + b)[1..] == a[1..] + [item] + b;
      assert (a + [item] + b)[0] == a[0];
      var s := HandleItem(w, a[0]);
      if s.Continue? {
        FatalItemEndsStream(s.w, a[1..], item, b);
      }
    }
  }

  // ---------------------------------------------------------------------------------------
  // The handler's frame

  /** Session start: reset, active, a fresh prompt name, the session start queued, and
      `ready` published once the subscription is in place. */
  function Open(w: Worker, promptName: string): (r: Worker)
    ensures r.isActive && !r.isAudioStarted && !r.isProcessingAudio
    ensures r.promptName == promptName
    ensures r.eventQueue == [SessionStart]
    ensures r.audioInputQueue == [] && r.audioOutputQueue == []
    ensures r.published == w.published + [SpeechEvent(Btoc, Ready, NoData)]
  {
    var w1 := Initialize(w).(isActive := true, promptName := promptName);
    Dispatch(EnqueueSessionStart(w1), Ready, NoData)
  }

  /** The `finally` block: `end` is published if a channel was connected, then the state
      is reset. */
  function Close(w: Worker, connected: bool): (r: Worker)
    ensures !r.isActive && !r.isAudioStarted && !r.isProcessingAudio
    ensures r.eventQueue == [] && r.audioInputQueue == [] && r.audioOutputQueue == []
    ensures connected ==> r.published == w.published + [SpeechEvent(Btoc, End, NoData)]
    ensures !connected ==> r.published == w.published
  {
    Initialize(if connected then Dispatch(w, End, NoData) else w)
  }

  /** One run of the handler, with the channel connected: open, process the response
      stream, close.  Whatever the stream holds, the worker ends with every flag down and
      every queue empty; its new events begin with `ready` and end with `end`, and all of
      them are tagged for the browser. */
  lemma SessionFrame(w: Worker, promptName: string, items: seq<StreamItem>)
    requires AllToClient(w.published)
    ensures var r := Close(ProcessResponseStream(Open(w, promptName), items), true);
            && !r.isActive && !r.isAudioStarted && !r.isProcessingAudio
            && r.eventQueue == [] && r.audioInputQueue == [] && r.audioOutputQueue == []
            && |r.published| >= |w.published| + 2
            && r.published[..|w.published|] == w.published
            && r.published[|w.published|] == SpeechEvent(Btoc, Ready, NoData)
            && r.published[|r.published| - 1] == SpeechEvent(Btoc, End, NoData)
            && AllToClient(r.published)
  {
    var w0 := Open(w, promptName);
    assert AllToClient(w0.published);
    ResponseStreamInvariants(w0, items);
    var m := ProcessResponseStream(w0, items);
    assert m.published[..|w0.published|] == w0.published;
    assert m.published[|w.published|] == w0.published[|w.published|];
    assert w.published == w0.published[..|w.published|];
  }

  /** A stream error ends the session: the handler's `finally` publishes `end` right after
      what the items before the error produced, and nothing after the error is handled. */
  lemma StreamErrorEndsSession(w: Worker, a: seq<StreamItem>, b: seq<StreamItem>)
    ensures var r := Close(ProcessResponseStream(w, a + [StreamError] + b), true);
            && r.published == ProcessResponseStream(w, a).published + [SpeechEvent(Btoc, End, NoData)]
            && !r.isActive && r.eventQueue == [] && r.audioInputQueue == []
  {
    FatalItemEndsStream(w, a, StreamError, b);
  }
}

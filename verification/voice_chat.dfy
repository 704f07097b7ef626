/** The two ends of the voice chat together: what the session worker forwards from the
    model is what the browser's reconciler consumes. */
module VoiceChat {
  import opened Wrappers
  import opened SpeechEvents
  import SessionWorker
  import SessionController
  import ChatHistory

  /** Every text event the worker forwards reaches the browser's reconciler, which takes
      from a start its id, lower-cased role and generation stage, from an output its id,
      lower-cased role and content, and from a stop only its id and stop reason (the role
      the worker sends with a stop is not used). */
  lemma ForwardedTextReachesReconciler(e: SessionWorker.OutputEvent)
    requires SessionWorker.Classify(e).Forward?
    ensures var a := SessionWorker.Classify(e);
            SessionController.ReachesHistory(Some(SpeechEvent(Btoc, a.event, a.data)))
    ensures var a := SessionWorker.Classify(e);
            a.event == TextStart ==>
              var cs := e.contentStart.value;
              SessionController.TextUpdate(a.event, a.data)
              == ChatHistory.StartData(cs.contentId, SessionWorker.LowerRole(cs.role),
                                       if cs.additionalModelFields.Fields?
                                       then cs.additionalModelFields.generationStage else None)
    ensures var a := SessionWorker.Classify(e);
            a.event == TextOutput ==>
              var t := e.textOutput.value;
              SessionController.TextUpdate(a.event, a.data)
              == ChatHistory.OutputData(t.contentId, SessionWorker.LowerRole(t.role), t.content)
    ensures var a := SessionWorker.Classify(e);
            a.event == TextStop ==>
              var c := e.contentEnd.value;
              SessionController.TextUpdate(a.event, a.data)
              == ChatHistory.StopData(c.contentId, c.stopReason)
  {
  }

  /** The reconciler input built straight from the model's own fields: a TEXT content start
      gives its id, lower-cased role and generation stage, a text output its id,
      lower-cased role and content, and a TEXT content end its id and stop reason. */
  function ModelUpdate(e: SessionWorker.OutputEvent): ChatHistory.Partial
    requires SessionWorker.Classify(e).Forward?
  {
    var a := SessionWorker.Classify(e);
    if a.event == TextStart then
      var cs := e.contentStart.value;
      ChatHistory.StartData(cs.contentId, SessionWorker.LowerRole(cs.role),
                            if cs.additionalModelFields.Fields?
                            then cs.additionalModelFields.generationStage else None)
    else if a.event == TextOutput then
      var t := e.textOutput.value;
      ChatHistory.OutputData(t.contentId, SessionWorker.LowerRole(t.role), t.content)
    else
      var c := e.contentEnd.value;
      ChatHistory.StopData(c.contentId, c.stopReason)
  }

  /** The browser receiving what the worker forwards: the transcript takes the reconciler
      update built from the model's fields, the player is cut off once more exactly for a
      stop whose reason is `INTERRUPTED` while a player exists, and nothing else changes,
      whatever the start outcomes passed to the callback. */
  lemma ForwardedEventUpdatesTranscript(e: SessionWorker.OutputEvent,
                                        c: SessionController.Controller,
                                        playerStarted: bool, recorderStarted: bool, accepts: nat)
    requires SessionWorker.Classify(e).Forward?
    requires ChatHistory.FoldDefined(c.history.groups)
    ensures var a := SessionWorker.Classify(e);
            SessionController.Accepts(c, Some(SpeechEvent(Btoc, a.event, a.data)))
    ensures var a := SessionWorker.Classify(e);
            var r := SessionController.Receive(c, Some(SpeechEvent(Btoc, a.event, a.data)),
                                               playerStarted, recorderStarted, accepts);
            && r.history == ChatHistory.TryUpdate(c.history, ModelUpdate(e))
            && r.bargeIns == c.bargeIns
               + (if a.event == TextStop && c.hasPlayer
                     && e.contentEnd.value.stopReason == Some(ChatHistory.Interrupted) then 1 else 0)
            && r == c.(history := r.history, bargeIns := r.bargeIns)
  {
    ForwardedTextReachesReconciler(e);
    var a := SessionWorker.Classify(e);
    assert SessionController.TextUpdate(a.event, a.data) == ModelUpdate(e);
  }
}

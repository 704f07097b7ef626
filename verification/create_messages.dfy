/** The message-recording endpoint: a user may append messages to a chat only if the chat
    is theirs, and only if every attachment of every message points into the upload
    bucket.  The chat store is a pair of functions passed in; reading the request, the
    authoriser claims and the path may fail, which the handler turns into a 500. */
module CreateMessages {
  import opened Wrappers
  import opened Strings

  /** An attachment; only `source.data`, the attachment's URL, is looked at.  `None` stands
      for an attachment whose `source.data` is missing or not a string: testing it throws. */
  datatype ExtraData = ExtraData(sourceData: Option<string>)

  /** A message to record; `extraData` may be missing.  `NullMessage` is a `null` entry:
      reading its `extraData` throws.  A truthy `messages` that cannot be iterated throws at
      the same point as a list whose first entry is `null`, so it is written that way. */
  datatype ToBeRecordedMessage =
    | ToBeRecordedMessage(messageId: string, content: string, extraData: Option<seq<ExtraData>>)
    | NullMessage

  /** The parsed body.  `messages` may be missing.  `NullRequest` is the body `null`, which
      is also what a missing body parses to: reading its `messages` throws. */
  datatype CreateMessagesRequest =
    | CreateMessagesRequest(messages: Option<seq<ToBeRecordedMessage>>)
    | NullRequest

  /** The parts of the API Gateway event the handler reads.  `None` stands for a part
      whose reading throws before the lookup: a body that is not JSON, a missing
      authoriser, missing path parameters. */
  datatype Event = Event(
    request: Option<CreateMessagesRequest>,
    userId: Option<string>,
    chatId: Option<string>)

  /** `BUCKET_NAME` and `AWS_REGION`. */
  datatype Env = Env(bucketName: string, region: string)

  /** The result of a call into the chat store: a value, or an exception. */
  datatype Outcome<T> = Returned(value: T) | Threw

  /** The calls the handler makes into the chat store, in order. */
  datatype StoreCall =
    | FindChatById(userId: string, chatId: string)
    | BatchCreateMessages(messages: Option<seq<ToBeRecordedMessage>>, userId: string, chatId: string)

  datatype Body<R> = MessageBody(message: string) | MessagesBody(messages: seq<R>)

  datatype Response<R> = Response(statusCode: int, headers: map<string, string>, body: Body<R>)

  datatype Handled<R> = Handled(response: Response<R>, calls: seq<StoreCall>)

  const Headers: map<string, string> :=
    map["Content-Type" := "application/json", "Access-Control-Allow-Origin" := "*"]

  const ForbiddenMessage := "You do not have permission to post messages in the chat."
  const InvalidExtraDataMessage := "Invalid extraData"
  const InternalErrorMessage := "Internal Server Error"

  /** The URL prefix of objects in the upload bucket. */
  function UploadPrefix(env: Env): string {
    "https://" + env.bucketName + ".s3." + env.region + ".amazonaws.com/"
  }

  /** `isValidExtraData`: the attachment lives in the upload bucket. */
  predicate IsValidExtraData(extra: ExtraData, env: Env)
    ensures IsValidExtraData(extra, env) ==>
              && extra.sourceData.Some?
              && |UploadPrefix(env)| <= |extra.sourceData.value|
              && extra.sourceData.value
                 == UploadPrefix(env) + extra.sourceData.value[|UploadPrefix(env)|..]
  {
    extra.sourceData.Some? && StartsWith(extra.sourceData.value, UploadPrefix(env))
  }

  /** Any object key under the upload prefix is accepted. */
  lemma UploadedObjectIsValid(env: Env, key: string)
    ensures IsValidExtraData(ExtraData(Some(UploadPrefix(env) + key)), env)
  {
    assert (UploadPrefix(env) + key)[..|UploadPrefix(env)|] == UploadPrefix(env);
  }

  /** The result of one test of the validation loops: the attachment passes, it is
      rejected (400), or the test throws (500). */
  datatype Verdict = Pass | Reject | Crash

  function CheckOne(extra: ExtraData, env: Env): Verdict {
    if extra.sourceData.None? then Crash
    else if IsValidExtraData(extra, env) then Pass
    else Reject
  }

  /** The attachments the loop visits for one message: none when `extraData` is missing. */
  function Extras(m: ToBeRecordedMessage): seq<ExtraData>
    requires m.ToBeRecordedMessage?
  {
    m.extraData.GetOr([])
  }

  /** The tests the loops make for one message, in order. */
  function MessageChecks(m: ToBeRecordedMessage, env: Env): (vs: seq<Verdict>)
    ensures m.NullMessage? ==> vs == [Crash]
    ensures m.ToBeRecordedMessage? ==> |vs| == |Extras(m)|
  {
    if m.NullMessage? then [Crash]
    else seq(|Extras(m)|, j requires 0 <= j < |Extras(m)| => CheckOne(Extras(m)[j], env))
  }

  /** The tests the loops make for all messages, in visiting order. */
  function Checks(messages: seq<ToBeRecordedMessage>, env: Env): seq<Verdict>
    decreases |messages|
  {
    if messages == [] then []
    else MessageChecks(messages[0], env) + Checks(messages[1..], env)
  }

  /** The first test that does not pass decides; `Pass` when every test passes. */
  function FirstFailure(vs: seq<Verdict>): (v: Verdict)
    decreases |vs|
  {
    if vs == [] then Pass else if vs[0] != Pass then vs[0] else FirstFailure(vs[1..])
  }

  /** `FirstFailure` is the earliest test that does not pass. */
  lemma {:induction false} FirstFailureIsFirst(vs: seq<Verdict>)
    ensures FirstFailure(vs) == Pass <==> forall k :: 0 <= k < |vs| ==> vs[k] == Pass
    ensures FirstFailure(vs) != Pass ==>
              exists k :: 0 <= k < |vs| && vs[k] == FirstFailure(vs)
                          && forall l :: 0 <= l < k ==> vs[l] == Pass
    decreases |vs|
  {
    if vs != [] {
      FirstFailureIsFirst(vs[1..]);
      if vs[0] == Pass && FirstFailure(vs) != Pass {
        var k :| 0 <= k < |vs[1..]| && vs[1..][k] == FirstFailure(vs[1..])
                 && forall l :: 0 <= l < k ==> vs[1..][l] == Pass;
        assert vs[k + 1] == FirstFailure(vs);
        assert forall l :: 0 <= l < k + 1 ==> vs[l] == Pass by {
          forall l | 0 <= l < k + 1 ensures vs[l] == Pass {
            if l > 0 { assert vs[l] == vs[1..][l - 1]; }
          }
        }
      }
    }
  }

  lemma {:induction false} FirstFailureAppend(a: seq<Verdict>, b: seq<Verdict>)
    ensures FirstFailure(a + b) == if FirstFailure(a) == Pass then FirstFailure(b) else FirstFailure(a)
    decreases |a|
  {
    if a == [] {
      assert a + b == b;
    } else {
      assert (a + b)[1..] == a[1..] + b;
      FirstFailureAppend(a[1..], b);
    }
  }

  lemma {:induction false} ChecksAppend(a: seq<ToBeRecordedMessage>, b: seq<ToBeRecordedMessage>,
                                        env: Env)
    ensures Checks(a + b, env) == Checks(a, env) + Checks(b, env)
    decreases |a|
  {
    if a == [] {
      assert a + b == b;
    } else {
      assert (a + b)[1..] == a[1..] + b;
      ChecksAppend(a[1..], b, env);
    }
  }

  /** Every attachment of every message lies in the upload bucket (and so every test
      passes). */
  predicate AllExtraDataValid(messages: seq<ToBeRecordedMessage>, env: Env) {
    forall k :: 0 <= k < |Checks(messages, env)| ==> Checks(messages, env)[k] == Pass
  }

  /** The tests on the messages before `i`, on message `i` and on the rest. */
  lemma ChecksSplit(messages: seq<ToBeRecordedMessage>, i: nat, env: Env)
    requires i < |messages|
    ensures Checks(messages, env)
         == Checks(messages[..i], env) + (MessageChecks(messages[i], env) + Checks(messages[i + 1..], env))
    ensures Checks(messages[..i + 1], env) == Checks(messages[..i], env) + MessageChecks(messages[i], env)
  {
    assert messages == messages[..i] + messages[i..];
    ChecksAppend(messages[..i], messages[i..], env);
    assert messages[..i + 1] == messages[..i] + [messages[i]];
    ChecksAppend(messages[..i], [messages[i]], env);
    assert Checks([messages[i]], env) == MessageChecks(messages[i], env) + Checks([], env);
  }

  /** The inner loop: the verdict of the first attachment of `m` that does not pass. */
  method CheckMessage(m: ToBeRecordedMessage, env: Env) returns (v: Verdict)
    ensures v == FirstFailure(MessageChecks(m, env))
  {
    if m.NullMessage? {
      return Crash;
    }
    if m.extraData.Some? && |m.extraData.value| > 0 {
      var j := 0;
      while j < |m.extraData.value|
        invariant 0 <= j <= |m.extraData.value|
        invariant forall k :: 0 <= k < j ==> CheckOne(m.extraData.value[k], env) == Pass
      {
        var extra := m.extraData.value[j];
        if extra.sourceData.None? || !IsValidExtraData(extra, env) {
          FirstFailureAt(MessageChecks(m, env), j);
          return CheckOne(extra, env);
        }
        j := j + 1;
      }
    }
    FirstFailureIsFirst(MessageChecks(m, env));
    return Pass;
  }

  /** The nested validation loops with their early exit: the verdict of the first test
      that does not pass. */
  method CheckExtraData(messages: seq<ToBeRecordedMessage>, env: Env) returns (v: Verdict)
    ensures v == FirstFailure(Checks(messages, env))
    ensures v == Pass <==> AllExtraDataValid(messages, env)
  {
    FirstFailureIsFirst(Checks(messages, env));
    var i := 0;
    while i < |messages|
      invariant 0 <= i <= |messages|
      invariant FirstFailure(Checks(messages[..i], env)) == Pass
    {
      var mv := CheckMessage(messages[i], env);
      ChecksSplit(messages, i, env);
      FirstFailureAppend(MessageChecks(messages[i], env), Checks(messages[i + 1..], env));
      FirstFailureAppend(Checks(messages[..i], env),
                         MessageChecks(messages[i], env) + Checks(messages[i + 1..], env));
      if mv != Pass {
        return mv;
      }
      FirstFailureAppend(Checks(messages[..i], env), MessageChecks(messages[i], env));
      i := i + 1;
    }
    assert messages[..i] == messages;
    return Pass;
  }

  /** The first failing test decides when all the tests before it pass. */
  lemma {:induction false} FirstFailureAt(vs: seq<Verdict>, j: nat)
    requires j < |vs| && vs[j] != Pass
    requires forall k :: 0 <= k < j ==> vs[k] == Pass
    ensures FirstFailure(vs) == vs[j]
    decreases j
  {
    if j > 0 {
      FirstFailureAt(vs[1..], j - 1);
    }
  }

  /** Messages without attachments, or with an empty attachment list, always pass. */
  lemma {:induction false} NoExtraDataPasses(messages: seq<ToBeRecordedMessage>, env: Env)
    requires forall i :: 0 <= i < |messages| ==>
      messages[i].ToBeRecordedMessage? && messages[i].extraData in {None, Some([])}
    ensures AllExtraDataValid(messages, env)
    decreases |messages|
  {
    if messages != [] {
      NoExtraDataPasses(messages[1..], env);
      assert Checks(messages, env) == [] + Checks(messages[1..], env);
    }
  }

  /** The verdict of the validation loops on a parsed request: `Pass` when `messages` is
      missing. */
  function Validation(req: CreateMessagesRequest, env: Env): Verdict
    requires req.CreateMessagesRequest?
  {
    if req.messages.Some? then FirstFailure(Checks(req.messages.value, env)) else Pass
  }

  /** The body was parsed into an object whose messages all pass the validation loops. */
  predicate Validates(req: CreateMessagesRequest, env: Env) {
    req.CreateMessagesRequest? && (req.messages.Some? ==> AllExtraDataValid(req.messages.value, env))
  }

  /** A message none of whose attachments fails its test. */
  predicate MessagePasses(m: ToBeRecordedMessage, env: Env) {
    m.ToBeRecordedMessage? && forall e :: 0 <= e < |Extras(m)| ==> CheckOne(Extras(m)[e], env) == Pass
  }

  /** The loops let a parsed request through exactly when every attachment is valid. */
  lemma ValidationPasses(req: CreateMessagesRequest, env: Env)
    requires req.CreateMessagesRequest?
    ensures Validation(req, env) == Pass <==> Validates(req, env)
  {
    if req.messages.Some? {
      FirstFailureIsFirst(Checks(req.messages.value, env));
    }
  }

  /** Messages that all pass leave the verdict to what follows them. */
  lemma {:induction false} PassingMessages(ms: seq<ToBeRecordedMessage>, env: Env)
    requires forall l :: 0 <= l < |ms| ==> MessagePasses(ms[l], env)
    ensures FirstFailure(Checks(ms, env)) == Pass
    decreases |ms|
  {
    if ms != [] {
      PassingMessages(ms[1..], env);
      FirstFailureIsFirst(MessageChecks(ms[0], env));
      FirstFailureAppend(MessageChecks(ms[0], env), Checks(ms[1..], env));
    }
  }

  /** The verdict of the loops is that of the first failing test: attachment `j` of
      message `i`, or message `i` itself when it is `null` (then `j` is ignored). */
  lemma FirstFailingTestDecides(ms: seq<ToBeRecordedMessage>, env: Env, i: nat, j: nat)
    requires i < |ms|
    requires forall l :: 0 <= l < i ==> MessagePasses(ms[l], env)
    requires ms[i].ToBeRecordedMessage? ==>
               && j < |Extras(ms[i])|
               && CheckOne(Extras(ms[i])[j], env) != Pass
               && forall e :: 0 <= e < j ==> CheckOne(Extras(ms[i])[e], env) == Pass
    ensures FirstFailure(Checks(ms, env))
         == if ms[i].NullMessage? then Crash else CheckOne(Extras(ms[i])[j], env)
  {
    assert ms == ms[..i] + ([ms[i]] + ms[i + 1..]);
    ChecksAppend(ms[..i], [ms[i]] + ms[i + 1..], env);
    assert Checks([ms[i]] + ms[i + 1..], env) == MessageChecks(ms[i], env) + Checks(ms[i + 1..], env);
    PassingMessages(ms[..i], env);
    if ms[i].ToBeRecordedMessage? {
      FirstFailureAt(MessageChecks(ms[i], env), j);
    }
    FirstFailureAppend(MessageChecks(ms[i], env), Checks(ms[i + 1..], env));
    FirstFailureAppend(Checks(ms[..i], env), MessageChecks(ms[i], env) + Checks(ms[i + 1..], env));
  }

  /** The handler: read the event, look the chat up for the caller, check attachments,
      write the messages.  Any exception becomes a 500. */
  function Handler<C, R>(
    event: Event,
    env: Env,
    findChatById: (string, string) -> Outcome<Option<C>>,
    batchCreateMessages: (Option<seq<ToBeRecordedMessage>>, string, string) -> Outcome<seq<R>>
  ): (h: Handled<R>)
    ensures h.response.headers == Headers
    ensures h.response.statusCode in {200, 400, 403, 500}
  {
    if event.request == None || event.userId == None || event.chatId == None then
      Handled(Response(500, Headers, MessageBody(InternalErrorMessage)), [])
    else
      var req := event.request.value;
      var userId := event.userId.value;
      var chatId := event.chatId.value;
      var find := FindChatById(userId, chatId);
      match findChatById(userId, chatId)
      case Threw =>
        Handled(Response(500, Headers, MessageBody(InternalErrorMessage)), [find])
      case Returned(None) =>
        Handled(Response(403, Headers, MessageBody(ForbiddenMessage)), [find])
      case Returned(Some(_)) =>
        if req.NullRequest? then
          Handled(Response(500, Headers, MessageBody(InternalErrorMessage)), [find])
        else
          match Validation(req, env)
          case Reject =>
            Handled(Response(400, Headers, MessageBody(InvalidExtraDataMessage)), [find])
          case Crash =>
            Handled(Response(500, Headers, MessageBody(InternalErrorMessage)), [find])
          case Pass =>
            var write := BatchCreateMessages(req.messages, userId, chatId);
            match batchCreateMessages(req.messages, userId, chatId)
            case Threw =>
              Handled(Response(500, Headers, MessageBody(InternalErrorMessage)), [find, write])
            case Returned(records) =>
              Handled(Response(200, Headers, MessagesBody(records)), [find, write])
  }

  /** A well-formed event, with its three parts read. */
  predicate Readable(event: Event) {
    event.request.Some? && event.userId.Some? && event.chatId.Some?
  }

  /** When the chat is not the caller's, the answer is 403, whatever the body and the
      attachments, and the only store call is the lookup. */
  lemma NotOwnerIsForbidden<C, R>(
    event: Event, env: Env,
    findChatById: (string, string) -> Outcome<Option<C>>,
    batchCreateMessages: (Option<seq<ToBeRecordedMessage>>, string, string) -> Outcome<seq<R>>)
    requires Readable(event)
    requires findChatById(event.userId.value, event.chatId.value) == Returned(None)
    ensures Handler(event, env, findChatById, batchCreateMessages)
         == Handled(Response(403, Headers, MessageBody(ForbiddenMessage)),
                    [FindChatById(event.userId.value, event.chatId.value)])
  {
  }

  /** A body that is valid JSON but `null` (or missing) is only read after the lookup: a
      foreign chat still gives 403, an owned chat gives 500, and nothing is written. */
  lemma MalformedBodyAfterLookup<C, R>(
    event: Event, env: Env,
    findChatById: (string, string) -> Outcome<Option<C>>,
    batchCreateMessages: (Option<seq<ToBeRecordedMessage>>, string, string) -> Outcome<seq<R>>)
    requires Readable(event) && event.request.value.NullRequest?
    requires findChatById(event.userId.value, event.chatId.value).Returned?
    ensures var h := Handler(event, env, findChatById, batchCreateMessages);
            && h.calls == [FindChatById(event.userId.value, event.chatId.value)]
            && h.response.statusCode
               == if findChatById(event.userId.value, event.chatId.value).value.None? then 403 else 500
  {
  }

  /** Nothing is written unless the event is readable, the chat is the caller's and every
      attachment is in the upload bucket; and then the caller's messages are written to
      the caller's chat. */
  lemma WritesOnlyValidOwnedMessages<C, R>(
    event: Event, env: Env,
    findChatById: (string, string) -> Outcome<Option<C>>,
    batchCreateMessages: (Option<seq<ToBeRecordedMessage>>, string, string) -> Outcome<seq<R>>)
    ensures var h := Handler(event, env, findChatById, batchCreateMessages);
            forall k :: 0 <= k < |h.calls| && h.calls[k].BatchCreateMessages? ==>
              && Readable(event)
              && findChatById(event.userId.value, event.chatId.value).Returned?
              && findChatById(event.userId.value, event.chatId.value).value.Some?
              && Validates(event.request.value, env)
              && h.calls[k] == BatchCreateMessages(event.request.value.messages,
                                                   event.userId.value, event.chatId.value)
  {
    if Readable(event) && event.request.value.CreateMessagesRequest? {
      ValidationPasses(event.request.value, env);
    }
  }

  /** With an owned chat, the first attachment that fails its test decides: one outside
      the bucket gives 400, one whose URL is missing gives 500; a `null` message ahead of
      any failing attachment gives 500.  Either way nothing is written. */
  lemma InvalidExtraDataIsRejected<C, R>(
    event: Event, env: Env,
    findChatById: (string, string) -> Outcome<Option<C>>,
    batchCreateMessages: (Option<seq<ToBeRecordedMessage>>, string, string) -> Outcome<seq<R>>,
    i: nat, j: nat)
    requires Readable(event) && event.request.value.CreateMessagesRequest?
    requires findChatById(event.userId.value, event.chatId.value).Returned?
    requires findChatById(event.userId.value, event.chatId.value).value.Some?
    requires event.request.value.messages.Some?
    requires var ms := event.request.value.messages.value;
             && i < |ms|
             && (forall l :: 0 <= l < i ==> MessagePasses(ms[l], env))
             && (ms[i].ToBeRecordedMessage? ==>
                   && j < |Extras(ms[i])|
                   && !IsValidExtraData(Extras(ms[i])[j], env)
                   && forall e :: 0 <= e < j ==> IsValidExtraData(Extras(ms[i])[e], env))
    ensures var h := Handler(event, env, findChatById, batchCreateMessages);
            var ms := event.request.value.messages.value;
            && h.calls == [FindChatById(event.userId.value, event.chatId.value)]
            && h.response
               == if ms[i].ToBeRecordedMessage? && Extras(ms[i])[j].sourceData.Some?
                  then Response(400, Headers, MessageBody(InvalidExtraDataMessage))
                  else Response(500, Headers, MessageBody(InternalErrorMessage))
  {
    FirstFailingTestDecides(event.request.value.messages.value, env, i, j);
  }

  /** The answer is 200 exactly when the chat is the caller's, the attachments are valid
      and the write returns; the body then holds the records the write returned. */
  lemma SuccessExactly<C, R>(
    event: Event, env: Env,
    findChatById: (string, string) -> Outcome<Option<C>>,
    batchCreateMessages: (Option<seq<ToBeRecordedMessage>>, string, string) -> Outcome<seq<R>>)
    ensures var h := Handler(event, env, findChatById, batchCreateMessages);
            (h.response.statusCode == 200
             <==> && Readable(event)
                  && findChatById(event.userId.value, event.chatId.value).Returned?
                  && findChatById(event.userId.value, event.chatId.value).value.Some?
                  && Validates(event.request.value, env)
                  && batchCreateMessages(event.request.value.messages, event.userId.value,
                                         event.chatId.value).Returned?)
    ensures var h := Handler(event, env, findChatById, batchCreateMessages);
            h.response.statusCode == 200 ==>
              h.response.body == MessagesBody(batchCreateMessages(event.request.value.messages,
                event.userId.value, event.chatId.value).value)
  {
    if Readable(event) && event.request.value.CreateMessagesRequest? {
      ValidationPasses(event.request.value, env);
    }
  }

  /** An exception anywhere gives 500 with the generic message: reading the event, the
      lookup, a `null` body, a `null` message or a missing attachment URL met before any
      rejected attachment, or the write. */
  lemma ExceptionIsInternalError<C, R>(
    event: Event, env: Env,
    findChatById: (string, string) -> Outcome<Option<C>>,
    batchCreateMessages: (Option<seq<ToBeRecordedMessage>>, string, string) -> Outcome<seq<R>>)
    ensures var h := Handler(event, env, findChatById, batchCreateMessages);
            (h.response.statusCode == 500
             <==> || !Readable(event)
                  || findChatById(event.userId.value, event.chatId.value).Threw?
                  || (&& findChatById(event.userId.value, event.chatId.value).value.Some?
                      && (|| event.request.value.NullRequest?
                          || Validation(event.request.value, env) == Crash
                          || (&& Validates(event.request.value, env)
                              && batchCreateMessages(event.request.value.messages,
                                                     event.userId.value,
                                                     event.chatId.value).Threw?))))
    ensures var h := Handler(event, env, findChatById, batchCreateMessages);
            h.response.statusCode == 500 ==> h.response.body == MessageBody(InternalErrorMessage)
  {
    if Readable(event) && event.request.value.CreateMessagesRequest? {
      ValidationPasses(event.request.value, env);
    }
  }
}

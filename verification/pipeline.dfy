/**
 * From the webhook to the workflow: the queued record becomes the `body` of the
 * one-element array the pipe starts each execution with (batch size 1), so the
 * fields the workflow reads are the fields the request handler wrote.
 */
module Pipeline {
  import opened Wrappers
  import opened Json
  import opened Intrinsics
  import opened Workflow
  import opened WorkflowProperties
  import opened RequestHandler

  /** The execution input for one queued message: its body, parsed, in the first and only element. */
  function PipeInput(body: Json): (input: Json)
    ensures Envelope(input) && |input.items| == 1 && BodyOf(input) == body
  {
    Arr([Obj(map["body" := body])])
  }

  /** The fields the workflow reads from `$[0].body` are the ones the handler queued. */
  lemma QueuedRecordFields(r: ChatRequest)
    ensures Select(RequestJson(r), [Key("chatId")]) == Some(Str(r.chatId))
    ensures Select(RequestJson(r), [Key("message")]) == Some(Str(r.message))
    ensures Select(RequestJson(r), [Key("timestampSecond")]) == Some(Num(r.timestampSecond))
    ensures Select(RequestJson(r), [Key("replyToken")]) == Some(Str(r.replyToken))
  {
    assert [Key("chatId")][1..] == [];
    assert [Key("message")][1..] == [];
    assert [Key("timestampSecond")][1..] == [];
    assert [Key("replyToken")][1..] == [];
  }

  /**
   * A LINE text message, end to end: once it is queued, a turn whose services
   * all answer saves, under the hash of the group id (or of the user id outside
   * groups), the old history extended by this message and the model's
   * completion, with `ttl` the message time rounded to seconds plus 3600 (while
   * that stays within the 32-bit range of `States.MathAdd`), and the reply
   * goes to the message's reply token.
   */
  lemma TextMessageTurn(replyToken: string, source: Source, timestamp: int, id: string, text: string,
                        sha256Hex: string -> string, table: map<string, Json>, svc: Services,
                        h: string, c: string, answer: Json)
    requires ChatKeyText(source).Some?
    requires Select(Stored(table, sha256Hex(ChatKeyText(source).value)), [Key("history"), Key("S")]) == Some(Str(h))
    requires svc.historyTableUp && svc.template == Some(DeployedTemplate)
    requires svc.model(PromptText(h, text)) == Some(answer) && Select(answer, [Key("completion")]) == Some(Str(c))
    requires svc.reply(ReplyAttempts(svc.reply) - 1).Some? && svc.save.Some?
    requires IsInt32((timestamp + 500) / 1000) && IsInt32((timestamp + 500) / 1000 + RetentionSeconds)
    ensures var event := MessageEvent(replyToken, source, timestamp, TextMessage(id, text));
            var k := sha256Hex(ChatKeyText(source).value);
            && Classify(event, sha256Hex).Enqueue?
            && var e := Execute(Start(PipeInput(RequestJson(Classify(event, sha256Hex).request)), table), svc);
            && e.stage == Succeeded
            && e.table == table[k := HistoryItem(k, TurnText(h, text, c), (timestamp + 500) / 1000 + RetentionSeconds)]
            && LineReply(ReplyMessage(Str(replyToken), c)) in e.calls
  {
    var event := MessageEvent(replyToken, source, timestamp, TextMessage(id, text));
    var k := sha256Hex(ChatKeyText(source).value);
    TextMessageEnqueued(replyToken, source, timestamp, id, text, sha256Hex);
    var r := Classify(event, sha256Hex).request;
    QueuedRecordFields(r);
    var input := PipeInput(RequestJson(r));
    ConversationTurn(input, table, svc, k, h, text, c, r.timestampSecond, Str(replyToken), answer);
    var e := Execute(Start(input, table), svc);
    var n := ReplyAttempts(svc.reply);
    var pre := [DynamoGetItem(k), SsmGetParameter(PromptTemplateName), BedrockInvoke(PromptText(h, text))];
    assert e.calls[|pre|] == Repeat(LineReply(ReplyMessage(Str(replyToken), c)), n)[0];
  }
}

/**
 * What the conversation workflow guarantees, stated over the transition
 * function of module Workflow: how the Has History choice merges the stored
 * record, how Flatten picks its inputs by branch position, what prompt the model
 * gets, what the reply carries and what Save History writes, and in which order
 * the service calls happen.
 */
module WorkflowProperties {
  import opened Wrappers
  import opened Json
  import opened Intrinsics
  import opened Workflow

  // ---------------------------------------------------------------------------
  // Has History
  // ---------------------------------------------------------------------------

  /** The history record the rest of the workflow sees for a GetItem response. */
  function MergedRecord(response: Json): Json
  {
    if response.Obj? && "Item" in response.fields then response.fields["Item"] else EmptyHistory
  }

  /**
   * The Has History choice: a present `Item` becomes `LoadHistory` unchanged; an
   * absent one is replaced by `{"history": {"S": ""}}`. `body` passes through, and
   * nothing else of the input survives.
   */
  lemma HasHistoryChoice(fields: map<string, Json>)
    requires "body" in fields && "LoadHistory" in fields
    ensures MergeHistory(Obj(fields)) ==
      Ok(Obj(map["body" := fields["body"], "LoadHistory" := MergedRecord(fields["LoadHistory"])]))
  {
    var s := Obj(fields);
    var response := fields["LoadHistory"];
    if response.Obj? && "Item" in response.fields {
      assert Select(s, [Key("LoadHistory"), Key("Item")]) == Some(response.fields["Item"]) by {
        assert [Key("LoadHistory"), Key("Item")][1..] == [Key("Item")];
      }
    } else {
      assert Select(s, [Key("LoadHistory"), Key("Item")]).None? by {
        assert [Key("LoadHistory"), Key("Item")][1..] == [Key("Item")];
      }
    }
  }

  /** The record a stored history yields: the stored item, or the empty history. */
  function Stored(table: map<string, Json>, k: string): Json
  {
    if k in table then table[k] else EmptyHistory
  }

  /** Whatever the table holds, the merged record read back from GetItem is `Stored`. */
  lemma MergedGetItem(table: map<string, Json>, k: string)
    ensures MergedRecord(GetItemResponse(table, k)) == Stored(table, k)
  {
  }

  /** The history text downstream states read is never missing when nothing was stored. */
  lemma EmptyHistoryText()
    ensures Select(EmptyHistory, [Key("history"), Key("S")]) == Some(Str(""))
  {
    assert [Key("history"), Key("S")][1..] == [Key("S")];
  }

  // ---------------------------------------------------------------------------
  // Prepare and Flatten
  // ---------------------------------------------------------------------------

  /** The execution input the pipe delivers: a one-element array whose element carries `body`. */
  predicate Envelope(input: Json)
  {
    input.Arr? && |input.items| >= 1 && input.items[0].Obj? && "body" in input.items[0].fields
  }

  function BodyOf(input: Json): Json
    requires Envelope(input)
  {
    input.items[0].fields["body"]
  }

  lemma SelectFirstBody(input: Json)
    ensures Select(input, [At(0), Key("body")]).Some? <==> Envelope(input)
    ensures Envelope(input) ==> Select(input, [At(0), Key("body")]) == Some(BodyOf(input))
  {
    assert [At(0), Key("body")][1..] == [Key("body")];
  }

  /** ResultPath `$[0].<field>` then OutputPath `$[0]` on an envelope: the record gains the field. */
  lemma IntoFirstEnvelope(input: Json, field: string, result: Json)
    requires Envelope(input)
    ensures IntoFirst(input, field, result) == Ok(Obj(input.items[0].fields[field := result]))
  {
    var first := input.items[0];
    var p := [At(0), Key(field)];
    assert p[1..] == [Key(field)];
    assert Put(first, [Key(field)], result) == Some(Obj(first.fields[field := result])) by {
      assert [Key(field)][1..] == [];
    }
    var placed := Arr(input.items[0 := Obj(first.fields[field := result])]);
    assert Put(input, p, result) == Some(placed);
    assert Select(placed, [At(0)]) == Some(Obj(first.fields[field := result])) by {
      assert [At(0)][1..] == [];
    }
  }

  /** The payload Prepare hands to Flatten when both branches succeed. */
  function Prepared(input: Json, table: map<string, Json>, k: string, t: string): Json
    requires Envelope(input)
  {
    Arr([Obj(map["body" := BodyOf(input), "LoadHistory" := Stored(table, k)]),
         Obj(input.items[0].fields["LoadPromptTemplate" := Obj(map["Value" := Str(t)])])])
  }

  /**
   * Prepare: branch 0 reads the history under `body.chatId` and merges it, branch
   * 1 reads the template, and their outputs are joined in branch order. The
   * GetItem call uses the chat id of the message.
   */
  lemma PrepareSucceeds(input: Json, table: map<string, Json>, svc: Services, k: string, t: string)
    requires Envelope(input) && Select(BodyOf(input), [Key("chatId")]) == Some(Str(k))
    requires svc.historyTableUp && svc.template == Some(t)
    ensures PrepareStep(Start(input, table), svc) ==
      Config(Flatten, Prepared(input, table, k, t), [DynamoGetItem(k), SsmGetParameter(PromptTemplateName)], table)
  {
    SelectFirstBody(input);
    assert HistoryKey(input) == Ok(k);
    var response := GetItemResponse(table, k);
    IntoFirstEnvelope(input, "LoadHistory", response);
    var fields := input.items[0].fields["LoadHistory" := response];
    HasHistoryChoice(fields);
    IntoFirstEnvelope(input, "LoadPromptTemplate", Obj(map["Value" := Str(t)]));
  }

  /** The payload Flatten produces. */
  function Flattened(body: Json, record: Json, t: string): Json
  {
    Obj(map["body" := body, "LoadHistory" := record, "LoadPromptTemplate" := Obj(map["Value" := Str(t)])])
  }

  /**
   * Flatten reads by array position: `body` and `LoadHistory` from the output of
   * branch 0, `LoadPromptTemplate` from the output of branch 1.
   */
  lemma FlattenByPosition(o0: map<string, Json>, o1: map<string, Json>)
    requires "body" in o0 && "LoadHistory" in o0 && "LoadPromptTemplate" in o1
    ensures FlattenOutput(Arr([Obj(o0), Obj(o1)])) ==
      Ok(Obj(map["body" := o0["body"], "LoadHistory" := o0["LoadHistory"], "LoadPromptTemplate" := o1["LoadPromptTemplate"]]))
  {
    var j := Arr([Obj(o0), Obj(o1)]);
    assert [At(0), Key("body")][1..] == [Key("body")];
    assert [At(0), Key("LoadHistory")][1..] == [Key("LoadHistory")];
    assert [At(1), Key("LoadPromptTemplate")][1..] == [Key("LoadPromptTemplate")];
  }

  /** Prepare then Flatten: the message body reaches Invoke Model unchanged, with the stored history and the template. */
  lemma PrepareThenFlatten(input: Json, table: map<string, Json>, svc: Services, k: string, t: string)
    requires Envelope(input) && Select(BodyOf(input), [Key("chatId")]) == Some(Str(k))
    requires svc.historyTableUp && svc.template == Some(t)
    ensures FlattenStep(PrepareStep(Start(input, table), svc)) ==
      Config(InvokeModel, Flattened(BodyOf(input), Stored(table, k), t),
             [DynamoGetItem(k), SsmGetParameter(PromptTemplateName)], table)
  {
    PrepareSucceeds(input, table, svc, k, t);
    var o0 := map["body" := BodyOf(input), "LoadHistory" := Stored(table, k)];
    var o1 := input.items[0].fields["LoadPromptTemplate" := Obj(map["Value" := Str(t)])];
    FlattenByPosition(o0, o1);
  }

  // ---------------------------------------------------------------------------
  // The texts: prompt and saved turn
  // ---------------------------------------------------------------------------

  /** The prompt the deployed template gives: history, then the human turn, then the assistant cue. */
  function PromptText(h: string, m: string): string
  {
    h + "\n\nHuman: " + m + "\n\nAssistant:"
  }

  /** The history Save History writes: the old history followed by one complete turn. */
  function TurnText(h: string, m: string, c: string): string
  {
    h + "\n\nHuman: " + m + "\n\nAssistant: " + c
  }

  lemma PromptTextNested(h: string, m: string)
    ensures PromptText(h, m) == h + ("\n\nHuman: " + (m + "\n\nAssistant:"))
  {
  }

  lemma TurnTextNested(h: string, m: string, c: string)
    ensures TurnText(h, m, c) == h + ("\n\nHuman: " + (m + ("\n\nAssistant: " + c)))
  {
  }

  lemma DeployedTemplatePieces()
    ensures DeployedTemplate == "{}" + ("\n\nHuman: " + ("{}" + "\n\nAssistant:"))
    ensures '{' !in "\n\nHuman: " && '{' !in "\n\nAssistant:"
  {
  }

  /** The deployed template fills its first `{}` with the history and its second with the message. */
  lemma DeployedTemplateFills(h: string, m: string)
    ensures Format(DeployedTemplate, [h, m]) == Some(PromptText(h, m))
  {
    var l1 := "\n\nHuman: ";
    var l2 := "\n\nAssistant:";
    DeployedTemplatePieces();
    FormatTwo(l1, l2, h, m);
    PromptTextNested(h, m);
  }

  lemma TurnFormatPieces()
    ensures TurnFormat == "{}" + ("\n\nHuman: " + ("{}" + ("\n\nAssistant: " + "{}")))
    ensures '{' !in "\n\nHuman: " && '{' !in "\n\nAssistant: "
  {
  }

  /** Save History's format fills history, message and completion in that order. */
  lemma TurnFormatFills(h: string, m: string, c: string)
    ensures Format(TurnFormat, [h, m, c]) == Some(TurnText(h, m, c))
  {
    var l1 := "\n\nHuman: ";
    var l2 := "\n\nAssistant: ";
    TurnFormatPieces();
    FormatThree(l1, l2, h, m, c);
    TurnTextNested(h, m, c);
  }

  /**
   * The saved history is the prompt the model answered, a space, and the answer:
   * so the old history is a prefix of the new one, and the next turn's prompt
   * begins with this turn's exchange.
   */
  lemma TurnExtendsPrompt(h: string, m: string, c: string)
    ensures TurnText(h, m, c) == PromptText(h, m) + " " + c
    ensures h <= TurnText(h, m, c)
    ensures PromptText(h, m) <= TurnText(h, m, c)
  {
    assert TurnText(h, m, c) == h + ("\n\nHuman: " + m + "\n\nAssistant: " + c);
    assert "\n\nAssistant: " == "\n\nAssistant:" + " ";
  }

  /** `States.Format('{}', n)` on a number gives its decimal text. */
  lemma NumberFormat(n: int)
    ensures Format("{}", [IntText(n)]) == Some(IntText(n))
  {
    FormatNoHoles("");
    FormatHole("", IntText(n), [], "");
    assert "{}" + "" == "{}" && [IntText(n)] + [] == [IntText(n)];
    assert IntText(n) + "" == IntText(n);
  }

  // ---------------------------------------------------------------------------
  // Invoke Model, Send LINE Response, Save History
  // ---------------------------------------------------------------------------

  /** The prompt is `States.Format(template, history, message)`, both inserted verbatim. */
  lemma PromptOfFlattened(body: Json, record: Json, t: string, h: string, m: string)
    requires Select(record, [Key("history"), Key("S")]) == Some(Str(h))
    requires Select(body, [Key("message")]) == Some(Str(m))
    ensures Prompt(Flattened(body, record, t)) ==
      match Format(t, [h, m]) case None => Err(IntrinsicFailure) case Some(p) => Ok(p)
  {
    var s := Flattened(body, record, t);
    assert [Key("LoadPromptTemplate"), Key("Value")][1..] == [Key("Value")];
    assert Select(s, [Key("LoadHistory"), Key("history"), Key("S")]) == Some(Str(h)) by {
      assert [Key("LoadHistory"), Key("history"), Key("S")][1..] == [Key("history"), Key("S")];
    }
    assert Select(s, [Key("body"), Key("message")]) == Some(Str(m)) by {
      assert [Key("body"), Key("message")][1..] == [Key("message")];
    }
  }

  /** The payload after Invoke Model: the flattened payload with the model's body at `$.InvokeModel.Body`. */
  function Invoked(body: Json, record: Json, t: string, answer: Json): Json
  {
    Obj(Flattened(body, record, t).fields["InvokeModel" := Obj(map["Body" := answer])])
  }

  /** The reply request carries the message's reply token and exactly one text message: the completion. */
  lemma ReplyCarriesCompletion(body: Json, record: Json, t: string, answer: Json, token: Json, text: Json)
    requires Select(body, [Key("replyToken")]) == Some(token)
    requires Select(answer, [Key("completion")]) == Some(text)
    ensures ReplyRequest(Invoked(body, record, t, answer)) ==
      Ok(Obj(map["replyToken" := token,
                 "messages" := Arr([Obj(map["type" := Str("text"), "text" := text])])]))
  {
    var s := Invoked(body, record, t, answer);
    assert Select(s, [Key("body"), Key("replyToken")]) == Some(token) by {
      assert [Key("body"), Key("replyToken")][1..] == [Key("replyToken")];
    }
    assert Select(s, [Key("InvokeModel"), Key("Body"), Key("completion")]) == Some(text) by {
      assert [Key("InvokeModel"), Key("Body"), Key("completion")][1..] == [Key("Body"), Key("completion")];
      assert [Key("Body"), Key("completion")][1..] == [Key("completion")];
    }
  }

  /** A DynamoDB history item as Save History writes it. */
  function HistoryItem(k: string, text: string, ttl: int): Json
  {
    Obj(map["chat_id" := Obj(map["S" := Str(k)]),
            "history" := Obj(map["S" := Str(text)]),
            "ttl" := Obj(map["N" := Str(IntText(ttl))])])
  }

  /** The history text Save History builds from an invoked payload. */
  lemma SavedHistoryOfInvoked(body: Json, record: Json, t: string, answer: Json, h: string, m: string, c: string)
    requires Select(body, [Key("message")]) == Some(Str(m))
    requires Select(record, [Key("history"), Key("S")]) == Some(Str(h))
    requires Select(answer, [Key("completion")]) == Some(Str(c))
    ensures SavedHistoryText(Invoked(body, record, t, answer)) == Ok(TurnText(h, m, c))
  {
    var s := Invoked(body, record, t, answer);
    assert FormatArgAt(s, [Key("LoadHistory"), Key("history"), Key("S")]) == Ok(h) by {
      assert [Key("LoadHistory"), Key("history"), Key("S")][1..] == [Key("history"), Key("S")];
    }
    assert FormatArgAt(s, [Key("body"), Key("message")]) == Ok(m) by {
      assert [Key("body"), Key("message")][1..] == [Key("message")];
    }
    assert FormatArgAt(s, [Key("InvokeModel"), Key("Body"), Key("completion")]) == Ok(c) by {
      assert [Key("InvokeModel"), Key("Body"), Key("completion")][1..] == [Key("Body"), Key("completion")];
      assert [Key("Body"), Key("completion")][1..] == [Key("completion")];
    }
    TurnFormatFills(h, m, c);
  }

  /** A failed item makes Save History fail with the same error, with no write and the table as it was. */
  lemma SaveBranchOfError(s: Json, table: map<string, Json>, save: Option<Json>, e: Error)
    requires SaveItem(s) == Err(e)
    ensures SaveBranch(s, table, save) == (Branch(Err(e), []), table)
  {
  }

  /**
   * Save History writes, under the message's chat id, the old history extended
   * by this turn, with `ttl` the message timestamp plus 3600 seconds.
   */
  lemma SaveItemContents(body: Json, record: Json, t: string, answer: Json,
                         k: string, h: string, m: string, c: string, ts: int)
    requires Select(body, [Key("chatId")]) == Some(Str(k))
    requires Select(body, [Key("message")]) == Some(Str(m))
    requires Select(body, [Key("timestampSecond")]) == Some(Num(ts))
    requires Select(record, [Key("history"), Key("S")]) == Some(Str(h))
    requires Select(answer, [Key("completion")]) == Some(Str(c))
    requires IsInt32(ts) && IsInt32(ts + RetentionSeconds)
    ensures SaveItem(Invoked(body, record, t, answer)) == Ok(HistoryItem(k, TurnText(h, m, c), ts + RetentionSeconds))
  {
    var s := Invoked(body, record, t, answer);
    assert Select(s, [Key("body"), Key("chatId")]) == Some(Str(k)) by {
      assert [Key("body"), Key("chatId")][1..] == [Key("chatId")];
    }
    SavedHistoryOfInvoked(body, record, t, answer, h, m, c);
    assert TtlText(s) == Ok(IntText(ts + RetentionSeconds)) by {
      assert Select(s, [Key("body"), Key("timestampSecond")]) == Some(Num(ts)) by {
        assert [Key("body"), Key("timestampSecond")][1..] == [Key("timestampSecond")];
      }
      NumberFormat(ts + RetentionSeconds);
    }
  }

  /**
   * A timestamp whose `ttl` leaves the signed 32-bit range of States.MathAdd
   * (from January 2038 on): Save History cannot build its item and fails with
   * an intrinsic failure.
   */
  lemma TtlOutOfRange(body: Json, record: Json, t: string, answer: Json,
                      k: string, h: string, m: string, c: string, ts: int)
    requires Select(body, [Key("chatId")]) == Some(Str(k))
    requires Select(body, [Key("message")]) == Some(Str(m))
    requires Select(body, [Key("timestampSecond")]) == Some(Num(ts))
    requires Select(record, [Key("history"), Key("S")]) == Some(Str(h))
    requires Select(answer, [Key("completion")]) == Some(Str(c))
    requires !(IsInt32(ts) && IsInt32(ts + RetentionSeconds))
    ensures SaveItem(Invoked(body, record, t, answer)) == Err(IntrinsicFailure)
  {
    var s := Invoked(body, record, t, answer);
    assert Select(s, [Key("body"), Key("chatId")]) == Some(Str(k)) by {
      assert [Key("body"), Key("chatId")][1..] == [Key("chatId")];
    }
    SavedHistoryOfInvoked(body, record, t, answer, h, m, c);
    assert TtlText(s) == Err(IntrinsicFailure) by {
      assert Select(s, [Key("body"), Key("timestampSecond")]) == Some(Num(ts)) by {
        assert [Key("body"), Key("timestampSecond")][1..] == [Key("timestampSecond")];
      }
    }
  }

  /** The saved item is stored under the chat id it was built with. */
  lemma HistoryItemKey(k: string, text: string, ttl: int)
    ensures ItemKey(HistoryItem(k, text, ttl)) == Some(k)
  {
    assert [Key("chat_id"), Key("S")][1..] == [Key("S")];
  }

  /** The saved `ttl` attribute reads back as the number it was formatted from. */
  lemma HistoryItemTtl(k: string, text: string, ttl: int)
    ensures Select(HistoryItem(k, text, ttl), [Key("ttl"), Key("N")]).Some?
    ensures ParseInt(Select(HistoryItem(k, text, ttl), [Key("ttl"), Key("N")]).value.s) == Some(ttl)
  {
    assert Select(HistoryItem(k, text, ttl), [Key("ttl"), Key("N")]) == Some(Str(IntText(ttl))) by {
      assert [Key("ttl"), Key("N")][1..] == [Key("N")];
    }
    ParseIntText(ttl);
  }

  /**
   * Save History and Load History agree on the item's shape: in the table this
   * turn leaves, the chat id's item holds exactly the history this turn saved.
   * The next turn under the same chat id reads it back only if the item has not
   * expired, no other execution wrote the key in between, and its eventually
   * consistent GetItem is not stale.
   */
  lemma SavedHistoryReadBack(table: map<string, Json>, k: string, text: string, ttl: int)
    ensures Select(Stored(table[k := HistoryItem(k, text, ttl)], k), [Key("history"), Key("S")]) == Some(Str(text))
  {
    assert [Key("history"), Key("S")][1..] == [Key("S")];
  }

  /** A chat with nothing stored starts from the empty history. */
  lemma FirstTurnHistory(table: map<string, Json>, k: string)
    requires k !in table
    ensures Select(Stored(table, k), [Key("history"), Key("S")]) == Some(Str(""))
  {
    EmptyHistoryText();
  }

  // ---------------------------------------------------------------------------
  // A whole conversation turn
  // ---------------------------------------------------------------------------

  /** The request Send LINE Response posts for a reply token and a completion. */
  function ReplyMessage(token: Json, c: string): Json
  {
    Obj(map["replyToken" := token, "messages" := Arr([Obj(map["type" := Str("text"), "text" := Str(c)])])])
  }

  /** Invoke Model with the deployed template: the model gets the history and the message, and its body is kept. */
  lemma InvokeModelSucceeds(body: Json, record: Json, calls: seq<Call>, table: map<string, Json>, svc: Services,
                            h: string, m: string, answer: Json)
    requires Select(record, [Key("history"), Key("S")]) == Some(Str(h))
    requires Select(body, [Key("message")]) == Some(Str(m))
    requires svc.model(PromptText(h, m)) == Some(answer)
    ensures InvokeModelStep(Config(InvokeModel, Flattened(body, record, DeployedTemplate), calls, table), svc) ==
      Config(Parallel, Invoked(body, record, DeployedTemplate, answer), calls + [BedrockInvoke(PromptText(h, m))], table)
  {
    PromptOfFlattened(body, record, DeployedTemplate, h, m);
    DeployedTemplateFills(h, m);
  }

  /** Send LINE Response succeeds on attempt n when the first n - 1 attempts failed. */
  lemma ReplySucceeds(s: Json, reply: nat -> Option<Json>, request: Json)
    requires s.Obj? && ReplyRequest(s) == Ok(request)
    requires reply(ReplyAttempts(reply) - 1).Some?
    ensures ReplyBranch(s, reply).result.Ok?
    ensures ReplyBranch(s, reply).calls == Repeat(LineReply(request), ReplyAttempts(reply))
  {
  }

  /** Save History succeeds when PutItem does, and stores the item under its chat id. */
  lemma SaveSucceeds(s: Json, table: map<string, Json>, save: Option<Json>, k: string, item: Json)
    requires s.Obj? && SaveItem(s) == Ok(item) && ItemKey(item) == Some(k) && save.Some?
    ensures SaveBranch(s, table, save).0.result.Ok?
    ensures SaveBranch(s, table, save).0.calls == [DynamoPutItem(item)]
    ensures SaveBranch(s, table, save).1 == table[k := item]
  {
  }

  /** Prepare and Flatten of a turn whose history table and template answer. */
  lemma TurnReachesInvokeModel(input: Json, table: map<string, Json>, svc: Services, k: string)
    requires Envelope(input)
    requires Select(BodyOf(input), [Key("chatId")]) == Some(Str(k))
    requires svc.historyTableUp && svc.template == Some(DeployedTemplate)
    ensures Execute(Start(input, table), svc) ==
      Execute(Config(InvokeModel, Flattened(BodyOf(input), Stored(table, k), DeployedTemplate),
                     [DynamoGetItem(k), SsmGetParameter(PromptTemplateName)], table), svc)
  {
    var c0 := Start(input, table);
    PrepareSucceeds(input, table, svc, k, DeployedTemplate);
    PrepareThenFlatten(input, table, svc, k, DeployedTemplate);
    var c1 := PrepareStep(c0, svc);
    assert Execute(c0, svc) == Execute(c1, svc);
  }

  /** Prepare, Flatten and Invoke Model of a turn whose services answer. */
  lemma TurnReachesParallel(input: Json, table: map<string, Json>, svc: Services, k: string, h: string, m: string, answer: Json)
    requires Envelope(input)
    requires Select(BodyOf(input), [Key("chatId")]) == Some(Str(k))
    requires Select(BodyOf(input), [Key("message")]) == Some(Str(m))
    requires Select(Stored(table, k), [Key("history"), Key("S")]) == Some(Str(h))
    requires svc.historyTableUp && svc.template == Some(DeployedTemplate)
    requires svc.model(PromptText(h, m)) == Some(answer)
    ensures Execute(Start(input, table), svc) ==
      Execute(Config(Parallel, Invoked(BodyOf(input), Stored(table, k), DeployedTemplate, answer),
                     [DynamoGetItem(k), SsmGetParameter(PromptTemplateName), BedrockInvoke(PromptText(h, m))], table), svc)
  {
    var pre := [DynamoGetItem(k), SsmGetParameter(PromptTemplateName)];
    TurnReachesInvokeModel(input, table, svc, k);
    var c2 := Config(InvokeModel, Flattened(BodyOf(input), Stored(table, k), DeployedTemplate), pre, table);
    InvokeModelSucceeds(BodyOf(input), Stored(table, k), pre, table, svc, h, m, answer);
    assert Execute(c2, svc) == Execute(InvokeModelStep(c2, svc), svc);
    assert pre + [BedrockInvoke(PromptText(h, m))] ==
      [DynamoGetItem(k), SsmGetParameter(PromptTemplateName), BedrockInvoke(PromptText(h, m))];
  }

  /** Parallel of a turn whose reply and write succeed: the execution succeeds and the item is stored. */
  lemma TurnParallel(s: Json, calls: seq<Call>, table: map<string, Json>, svc: Services, k: string, request: Json, item: Json)
    requires s.Obj? && ReplyRequest(s) == Ok(request)
    requires SaveItem(s) == Ok(item) && ItemKey(item) == Some(k)
    requires svc.reply(ReplyAttempts(svc.reply) - 1).Some? && svc.save.Some?
    ensures var e := Execute(Config(Parallel, s, calls, table), svc);
            && e.stage == Succeeded
            && e.calls == calls + Repeat(LineReply(request), ReplyAttempts(svc.reply)) + [DynamoPutItem(item)]
            && e.table == table[k := item]
  {
    var c3 := Config(Parallel, s, calls, table);
    ReplySucceeds(s, svc.reply, request);
    SaveSucceeds(s, table, svc.save, k, item);
    ParallelJoin(c3, svc, ReplyBranch(s, svc.reply).result, SaveBranch(s, table, svc.save).0.result);
    assert Execute(c3, svc) == ParallelStep(c3, svc);
  }

  /**
   * One conversation turn end to end, with the deployed template: the history
   * is read under the message's chat id, the model gets the old history and the
   * message, the reply carries the completion under the message's reply token,
   * and the table ends up holding, under the same chat id, the old history
   * extended by this turn with `ttl` the message timestamp plus 3600 seconds
   * (a 32-bit number, as `States.MathAdd` requires).
   */
  lemma ConversationTurn(input: Json, table: map<string, Json>, svc: Services,
                         k: string, h: string, m: string, c: string, ts: int, token: Json, answer: Json)
    requires Envelope(input)
    requires Select(BodyOf(input), [Key("chatId")]) == Some(Str(k))
    requires Select(BodyOf(input), [Key("message")]) == Some(Str(m))
    requires Select(BodyOf(input), [Key("timestampSecond")]) == Some(Num(ts))
    requires Select(BodyOf(input), [Key("replyToken")]) == Some(token)
    requires Select(Stored(table, k), [Key("history"), Key("S")]) == Some(Str(h))
    requires svc.historyTableUp && svc.template == Some(DeployedTemplate)
    requires svc.model(PromptText(h, m)) == Some(answer) && Select(answer, [Key("completion")]) == Some(Str(c))
    requires svc.reply(ReplyAttempts(svc.reply) - 1).Some? && svc.save.Some?
    requires IsInt32(ts) && IsInt32(ts + RetentionSeconds)
    ensures var e := Execute(Start(input, table), svc);
            && e.stage == Succeeded
            && e.calls == [DynamoGetItem(k), SsmGetParameter(PromptTemplateName), BedrockInvoke(PromptText(h, m))]
                          + Repeat(LineReply(ReplyMessage(token, c)), ReplyAttempts(svc.reply))
                          + [DynamoPutItem(HistoryItem(k, TurnText(h, m, c), ts + RetentionSeconds))]
            && e.table == table[k := HistoryItem(k, TurnText(h, m, c), ts + RetentionSeconds)]
  {
    var body := BodyOf(input);
    var record := Stored(table, k);
    TurnReachesParallel(input, table, svc, k, h, m, answer);
    var s := Invoked(body, record, DeployedTemplate, answer);
    ReplyCarriesCompletion(body, record, DeployedTemplate, answer, token, Str(c));
    SaveItemContents(body, record, DeployedTemplate, answer, k, h, m, c, ts);
    HistoryItemKey(k, TurnText(h, m, c), ts + RetentionSeconds);
    var item := HistoryItem(k, TurnText(h, m, c), ts + RetentionSeconds);
    assert s.Obj?;
    assert ReplyRequest(s) == Ok(ReplyMessage(token, c));
    assert SaveItem(s) == Ok(item);
    assert ItemKey(item) == Some(k);
    TurnParallel(s, [DynamoGetItem(k), SsmGetParameter(PromptTemplateName), BedrockInvoke(PromptText(h, m))],
                 table, svc, k, ReplyMessage(token, c), HistoryItem(k, TurnText(h, m, c), ts + RetentionSeconds));
  }

  /**
   * No Catch: a turn whose `ttl` leaves the 32-bit range of States.MathAdd
   * fails, whatever the reply and the write would have done, and nothing is
   * stored.
   */
  lemma TurnFailsOutOfRange(input: Json, table: map<string, Json>, svc: Services,
                            k: string, h: string, m: string, c: string, ts: int, answer: Json)
    requires Envelope(input)
    requires Select(BodyOf(input), [Key("chatId")]) == Some(Str(k))
    requires Select(BodyOf(input), [Key("message")]) == Some(Str(m))
    requires Select(BodyOf(input), [Key("timestampSecond")]) == Some(Num(ts))
    requires Select(Stored(table, k), [Key("history"), Key("S")]) == Some(Str(h))
    requires svc.historyTableUp && svc.template == Some(DeployedTemplate)
    requires svc.model(PromptText(h, m)) == Some(answer) && Select(answer, [Key("completion")]) == Some(Str(c))
    requires !(IsInt32(ts) && IsInt32(ts + RetentionSeconds))
    ensures var e := Execute(Start(input, table), svc);
            e.stage.Failed? && e.table == table
  {
    var body := BodyOf(input);
    var record := Stored(table, k);
    TurnReachesParallel(input, table, svc, k, h, m, answer);
    var s := Invoked(body, record, DeployedTemplate, answer);
    TtlOutOfRange(body, record, DeployedTemplate, answer, k, h, m, c, ts);
    ParallelSaveFails(s, [DynamoGetItem(k), SsmGetParameter(PromptTemplateName), BedrockInvoke(PromptText(h, m))],
                      table, svc, IntrinsicFailure);
  }

  /** No Catch: when Save History cannot build its item, Parallel fails and the table is left as it was. */
  lemma ParallelSaveFails(s: Json, calls: seq<Call>, table: map<string, Json>, svc: Services, e: Error)
    requires SaveItem(s) == Err(e)
    ensures var c' := Execute(Config(Parallel, s, calls, table), svc);
            c'.stage.Failed? && c'.table == table
  {
    var c3 := Config(Parallel, s, calls, table);
    SaveBranchOfError(s, table, svc.save, e);
    ParallelJoin(c3, svc, ReplyBranch(s, svc.reply).result, Err(e));
    assert Execute(c3, svc) == ParallelStep(c3, svc);
  }
}

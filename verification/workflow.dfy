/**
 * The conversation workflow as an explicit state machine: what each state of the
 * Step Functions definition does to the JSON payload, which service calls it
 * makes, and the transition from one state to the next. The services themselves
 * (DynamoDB, SSM Parameter Store, Bedrock, the LINE reply endpoint) are opaque:
 * their outcomes arrive in a `Services` value.
 */
module Workflow {
  import opened Wrappers
  import opened Json
  import opened Intrinsics

  /** Name of the SSM parameter that holds the prompt template. */
  const PromptTemplateName := "/line-bot-with-amazon-bedrock/prompt-template"

  /** The prompt template the stack deploys into that parameter. */
  const DeployedTemplate := "{}\n\nHuman: {}\n\nAssistant:"

  /** The format Save History uses to append one turn to the history. */
  const TurnFormat := "{}\n\nHuman: {}\n\nAssistant: {}"

  /** Seconds added to the message timestamp to give the saved item's `ttl`. */
  const RetentionSeconds := 3600

  /** Retry policy of Send LINE Response: interval, backoff rate, and retries after the first attempt. */
  const IntervalSeconds: nat := 1
  const BackoffRate: nat := 2
  const MaxAttempts: nat := 3

  /** Error names an execution can fail with. */
  datatype Error =
    | Runtime                 // States.Runtime: a reference path that does not exist
    | IntrinsicFailure        // States.IntrinsicFailure: an intrinsic function refused its arguments
    | TaskFailed(state: string)  // the service call of the named task failed

  /** A service call made by a task, with the request the workflow built for it. */
  datatype Call =
    | DynamoGetItem(key: string)
    | SsmGetParameter(name: string)
    | BedrockInvoke(prompt: string)
    | LineReply(request: Json)
    | DynamoPutItem(item: Json)

  /**
   * Outcomes of the foreign services. `reply(k)` is the answer to attempt `k`
   * (0-based) of the LINE reply; None is an error.
   */
  datatype Services = Services(
    historyTableUp: bool,
    template: Option<string>,
    model: string -> Option<Json>,
    reply: nat -> Option<Json>,
    save: Option<Json>)

  /** The states of the top-level chain, and the two ways an execution ends. */
  datatype Stage = Prepare | Flatten | InvokeModel | Parallel | Succeeded | Failed(error: Error)

  /** Everything an execution has: its state, its payload, the calls made so far, and the history table. */
  datatype Config = Config(stage: Stage, payload: Json, calls: seq<Call>, table: map<string, Json>)

  /** Outcome of one branch of a Parallel state. */
  datatype Branch = Branch(result: Result<Json, Error>, calls: seq<Call>)

  // ---------------------------------------------------------------------------
  // Prepare, branch 0: Load History, then the Has History choice
  // ---------------------------------------------------------------------------

  /** Load History's key: InputPath `$[0].body`, then `$.chatId`, which must be a string. */
  function HistoryKey(input: Json): Result<string, Error>
  {
    match Select(input, [At(0), Key("body")])
    case None => Err(Runtime)
    case Some(body) =>
      (match Select(body, [Key("chatId")])
       case None => Err(Runtime)
       case Some(Str(k)) => Ok(k)
       case Some(_) => Err(TaskFailed("Load History")))
  }

  /** The GetItem response: `{"Item": item}` when the key is stored, `{}` when it is not. */
  function GetItemResponse(table: map<string, Json>, key: string): Json
  {
    if key in table then Obj(map["Item" := table[key]]) else Obj(map[])
  }

  /** ResultPath `$[0].<field>` followed by OutputPath `$[0]`. */
  function IntoFirst(input: Json, field: string, result: Json): Result<Json, Error>
  {
    match Put(input, [At(0), Key(field)], result)
    case None => Err(Runtime)
    case Some(j) =>
      (match Select(j, [At(0)])
       case None => Err(Runtime)
       case Some(first) => Ok(first))
  }

  /** The Has History condition: `$.LoadHistory.Item` is present. */
  predicate HasHistory(s: Json)
  {
    Select(s, [Key("LoadHistory"), Key("Item")]).Some?
  }

  /** The history record Not Exists History synthesises: `{"history": {"S": ""}}`. */
  const EmptyHistory: Json := Obj(map["history" := Obj(map["S" := Str("")])])

  /** Exists History: keep `body`, and make the stored item itself the `LoadHistory`. */
  function ExistsHistory(s: Json): Result<Json, Error>
  {
    match (Select(s, [Key("body")]), Select(s, [Key("LoadHistory"), Key("Item")]))
    case (Some(b), Some(item)) => Ok(Obj(map["body" := b, "LoadHistory" := item]))
    case _ => Err(Runtime)
  }

  /** Not Exists History: keep `body`, and use the empty history record. */
  function NotExistsHistory(s: Json): Result<Json, Error>
  {
    match Select(s, [Key("body")])
    case Some(b) => Ok(Obj(map["body" := b, "LoadHistory" := EmptyHistory]))
    case None => Err(Runtime)
  }

  /** The Has History choice and the pass state it selects. */
  function MergeHistory(s: Json): Result<Json, Error>
  {
    if HasHistory(s) then ExistsHistory(s) else NotExistsHistory(s)
  }

  /** Branch 0 of Prepare. */
  function HistoryBranch(input: Json, table: map<string, Json>, up: bool): Branch
  {
    match HistoryKey(input)
    case Err(e) => Branch(Err(e), [])
    case Ok(k) =>
      if !up then Branch(Err(TaskFailed("Load History")), [DynamoGetItem(k)])
      else
        var merged :=
          match IntoFirst(input, "LoadHistory", GetItemResponse(table, k))
          case Err(e) => Err(e)
          case Ok(s) => MergeHistory(s);
        Branch(merged, [DynamoGetItem(k)])
  }

  // ---------------------------------------------------------------------------
  // Prepare, branch 1: Load Prompt Template
  // ---------------------------------------------------------------------------

  /** Branch 1 of Prepare: the parameter's value lands at `$[0].LoadPromptTemplate.Value`. */
  function TemplateBranch(input: Json, template: Option<string>): Branch
  {
    if Select(input, [At(0), Key("body")]).None? then Branch(Err(Runtime), [])
    else
      match template
      case None => Branch(Err(TaskFailed("Load Prompt Template")), [SsmGetParameter(PromptTemplateName)])
      case Some(v) =>
        Branch(IntoFirst(input, "LoadPromptTemplate", Obj(map["Value" := Str(v)])),
               [SsmGetParameter(PromptTemplateName)])
  }

  /** A Parallel state's output: the branch outputs in branch order, or the first failure. */
  function Join(b0: Branch, b1: Branch): Result<Json, Error>
  {
    match (b0.result, b1.result)
    case (Err(e), _) => Err(e)
    case (_, Err(e)) => Err(e)
    case (Ok(o0), Ok(o1)) => Ok(Arr([o0, o1]))
  }

  // ---------------------------------------------------------------------------
  // Flatten and Invoke Model
  // ---------------------------------------------------------------------------

  /** Flatten: `body` and `LoadHistory` from branch 0, `LoadPromptTemplate` from branch 1. */
  function FlattenOutput(j: Json): Result<Json, Error>
  {
    match (Select(j, [At(0), Key("body")]), Select(j, [At(0), Key("LoadHistory")]),
           Select(j, [At(1), Key("LoadPromptTemplate")]))
    case (Some(b), Some(h), Some(t)) =>
      Ok(Obj(map["body" := b, "LoadHistory" := h, "LoadPromptTemplate" := t]))
    case _ => Err(Runtime)
  }

  /** A Format argument read from a path: a missing path is States.Runtime, an unformattable value an intrinsic failure. */
  function FormatArgAt(s: Json, p: Path): Result<string, Error>
  {
    match Select(s, p)
    case None => Err(Runtime)
    case Some(j) =>
      (match FormatArg(j) case None => Err(IntrinsicFailure) case Some(a) => Ok(a))
  }

  /** Invoke Model's prompt: `States.Format($.LoadPromptTemplate.Value, $.LoadHistory.history.S, $.body.message)`. */
  function Prompt(s: Json): Result<string, Error>
  {
    match Select(s, [Key("LoadPromptTemplate"), Key("Value")])
    case None => Err(Runtime)
    case Some(Str(t)) =>
      (match (FormatArgAt(s, [Key("LoadHistory"), Key("history"), Key("S")]), FormatArgAt(s, [Key("body"), Key("message")]))
       case (Err(e), _) => Err(e)
       case (_, Err(e)) => Err(e)
       case (Ok(h), Ok(m)) =>
         (match Format(t, [h, m]) case None => Err(IntrinsicFailure) case Some(p) => Ok(p)))
    case Some(_) => Err(IntrinsicFailure)
  }

  // ---------------------------------------------------------------------------
  // Parallel: Send LINE Response and Save History
  // ---------------------------------------------------------------------------

  /** The reply's request body: the reply token and one text message carrying the completion. */
  function ReplyRequest(s: Json): Result<Json, Error>
  {
    match (Select(s, [Key("body"), Key("replyToken")]), Select(s, [Key("InvokeModel"), Key("Body"), Key("completion")]))
    case (Some(token), Some(text)) =>
      Ok(Obj(map["replyToken" := token,
                 "messages" := Arr([Obj(map["type" := Str("text"), "text" := text])])]))
    case _ => Err(Runtime)
  }

  /** The turn Save History appends: old history, the human message and the assistant's completion. */
  function SavedHistoryText(s: Json): Result<string, Error>
  {
    match (FormatArgAt(s, [Key("LoadHistory"), Key("history"), Key("S")]),
           FormatArgAt(s, [Key("body"), Key("message")]),
           FormatArgAt(s, [Key("InvokeModel"), Key("Body"), Key("completion")]))
    case (Err(e), _, _) => Err(e)
    case (_, Err(e), _) => Err(e)
    case (_, _, Err(e)) => Err(e)
    case (Ok(h), Ok(m), Ok(c)) =>
      (match Format(TurnFormat, [h, m, c]) case None => Err(IntrinsicFailure) case Some(text) => Ok(text))
  }

  /** The saved `ttl`: `States.Format('{}', States.MathAdd($.body.timestampSecond, 3600))`. */
  function TtlText(s: Json): Result<string, Error>
  {
    match Select(s, [Key("body"), Key("timestampSecond")])
    case None => Err(Runtime)
    case Some(ts) =>
      (match MathAdd(ts, RetentionSeconds)
       case None => Err(IntrinsicFailure)
       case Some(n) =>
         (match Format("{}", [IntText(n)]) case None => Err(IntrinsicFailure) case Some(text) => Ok(text)))
  }

  /** The item Save History puts: `chat_id`, `history` and `ttl` as DynamoDB attribute values. */
  function SaveItem(s: Json): Result<Json, Error>
  {
    match (Select(s, [Key("body"), Key("chatId")]), SavedHistoryText(s), TtlText(s))
    case (None, _, _) => Err(Runtime)
    case (_, Err(e), _) => Err(e)
    case (_, _, Err(e)) => Err(e)
    case (Some(chat), Ok(h), Ok(ttl)) =>
      Ok(Obj(map["chat_id" := Obj(map["S" := chat]),
                 "history" := Obj(map["S" := Str(h)]),
                 "ttl" := Obj(map["N" := Str(ttl)])]))
  }

  /** The table key of an item: its `chat_id` string attribute. */
  function ItemKey(item: Json): Option<string>
  {
    match Select(item, [Key("chat_id"), Key("S")])
    case Some(Str(k)) => Some(k)
    case _ => None
  }

  /** The nominal wait, in seconds, before retry `k` (1-based) of Send LINE Response. */
  function NominalDelay(k: nat): (d: nat)
    requires k >= 1
    ensures d >= IntervalSeconds
    decreases k
  {
    if k == 1 then IntervalSeconds else BackoffRate * NominalDelay(k - 1)
  }

  /**
   * The number of reply attempts made from attempt `k` on: attempts stop at the
   * first success or once the retries are used up.
   */
  function AttemptsFrom(reply: nat -> Option<Json>, k: nat): (n: nat)
    requires k <= MaxAttempts
    ensures k < n <= MaxAttempts + 1
    ensures forall j | k <= j < n - 1 :: reply(j).None?
    ensures reply(n - 1).Some? || n == MaxAttempts + 1
    decreases MaxAttempts - k
  {
    if reply(k).Some? || k == MaxAttempts then k + 1 else AttemptsFrom(reply, k + 1)
  }

  /** The number of reply attempts an execution makes. */
  function ReplyAttempts(reply: nat -> Option<Json>): nat
  {
    AttemptsFrom(reply, 0)
  }

  /** `n` copies of the same call. */
  function Repeat(c: Call, n: nat): (r: seq<Call>)
    ensures |r| == n && forall i | 0 <= i < n :: r[i] == c
  {
    if n == 0 then [] else Repeat(c, n - 1) + [c]
  }

  /** Branch 0 of Parallel: Send LINE Response, with its retries. */
  function ReplyBranch(s: Json, reply: nat -> Option<Json>): Branch
  {
    match ReplyRequest(s)
    case Err(e) => Branch(Err(e), [])
    case Ok(request) =>
      var n := ReplyAttempts(reply);
      var calls := Repeat(LineReply(request), n);
      (match reply(n - 1)
       case None => Branch(Err(TaskFailed("Send LINE Response")), calls)
       case Some(response) =>
         Branch(match Put(s, [Key("SendLineResponse")], response)
                case None => Err(Runtime)
                case Some(out) => Ok(out), calls))
  }

  /** Branch 1 of Parallel: Save History, and the table it leaves behind. */
  function SaveBranch(s: Json, table: map<string, Json>, save: Option<Json>): (Branch, map<string, Json>)
  {
    match SaveItem(s)
    case Err(e) => (Branch(Err(e), []), table)
    case Ok(item) =>
      (match (ItemKey(item), save)
       case (None, _) => (Branch(Err(TaskFailed("Save History")), [DynamoPutItem(item)]), table)
       case (_, None) => (Branch(Err(TaskFailed("Save History")), [DynamoPutItem(item)]), table)
       case (Some(k), Some(response)) =>
         var out := match Put(s, [Key("SaveHistory")], response) case None => Err(Runtime) case Some(o) => Ok(o);
         (Branch(out, [DynamoPutItem(item)]), table[k := item]))
  }

  // ---------------------------------------------------------------------------
  // The state machine
  // ---------------------------------------------------------------------------

  /** How far a stage is from the end; every transition lowers it. */
  function Rank(st: Stage): nat
  {
    match st
    case Prepare => 4
    case Flatten => 3
    case InvokeModel => 2
    case Parallel => 1
    case _ => 0
  }

  /** A stage from which no transition leaves. */
  predicate Terminal(st: Stage)
  {
    st.Succeeded? || st.Failed?
  }

  /** Move on to `next` on success, or to Failed on an error. */
  function Advance(c: Config, r: Result<Json, Error>, next: Stage, calls: seq<Call>, table: map<string, Json>): Config
  {
    match r
    case Ok(out) => Config(next, out, c.calls + calls, table)
    case Err(e) => Config(Failed(e), c.payload, c.calls + calls, table)
  }

  /** Prepare: both branches, then their join. */
  function PrepareStep(c: Config, svc: Services): Config
  {
    var b0 := HistoryBranch(c.payload, c.table, svc.historyTableUp);
    var b1 := TemplateBranch(c.payload, svc.template);
    Advance(c, Join(b0, b1), Flatten, b0.calls + b1.calls, c.table)
  }

  /** Flatten: a pass state, no call. */
  function FlattenStep(c: Config): Config
  {
    Advance(c, FlattenOutput(c.payload), InvokeModel, [], c.table)
  }

  /** Invoke Model: build the prompt, call the model, place its body at `$.InvokeModel.Body`. */
  function InvokeModelStep(c: Config, svc: Services): Config
  {
    match Prompt(c.payload)
    case Err(e) => Advance(c, Err(e), Parallel, [], c.table)
    case Ok(p) =>
      var result :=
        match svc.model(p)
        case None => Err(TaskFailed("Invoke Model"))
        case Some(body) =>
          (match Put(c.payload, [Key("InvokeModel")], Obj(map["Body" := body]))
           case None => Err(Runtime)
           case Some(out) => Ok(out));
      Advance(c, result, Parallel, [BedrockInvoke(p)], c.table)
  }

  /** Parallel: the reply branch and the save branch, then their join; the last state. */
  function ParallelStep(c: Config, svc: Services): Config
  {
    var b0 := ReplyBranch(c.payload, svc.reply);
    var (b1, table') := SaveBranch(c.payload, c.table, svc.save);
    Advance(c, Join(b0, b1), Succeeded, b0.calls + b1.calls, table')
  }

  /** A join moves on by the branch results alone; the calls are branch 0's then branch 1's. */
  lemma AdvanceJoin(c: Config, b0: Branch, b1: Branch, table: map<string, Json>, r0: Result<Json, Error>, r1: Result<Json, Error>)
    requires r0 == b0.result && r1 == b1.result
    ensures var c' := Advance(c, Join(b0, b1), Succeeded, b0.calls + b1.calls, table);
            && c'.calls == c.calls + b0.calls + b1.calls
            && c'.table == table
            && (match Join(Branch(r0, []), Branch(r1, []))
                case Ok(out) => c'.stage == Succeeded && c'.payload == out
                case Err(e) => c'.stage == Failed(e) && c'.payload == c.payload)
  {
    assert Join(Branch(r0, []), Branch(r1, [])) == Join(b0, b1);
  }

  /** Parallel's outcome depends only on the branch results; its calls are branch 0's then branch 1's. */
  lemma ParallelJoin(c: Config, svc: Services, r0: Result<Json, Error>, r1: Result<Json, Error>)
    requires r0 == ReplyBranch(c.payload, svc.reply).result
    requires r1 == SaveBranch(c.payload, c.table, svc.save).0.result
    ensures var c' := ParallelStep(c, svc);
            && c'.calls == c.calls + ReplyBranch(c.payload, svc.reply).calls + SaveBranch(c.payload, c.table, svc.save).0.calls
            && c'.table == SaveBranch(c.payload, c.table, svc.save).1
            && (match Join(Branch(r0, []), Branch(r1, []))
                case Ok(out) => c'.stage == Succeeded && c'.payload == out
                case Err(e) => c'.stage == Failed(e) && c'.payload == c.payload)
  {
    var b0 := ReplyBranch(c.payload, svc.reply);
    var saved := SaveBranch(c.payload, c.table, svc.save);
    assert ParallelStep(c, svc) == Advance(c, Join(b0, saved.0), Succeeded, b0.calls + saved.0.calls, saved.1);
    AdvanceJoin(c, b0, saved.0, saved.1, r0, r1);
  }

  /** The transition function of the state machine. */
  function Transition(c: Config, svc: Services): (c': Config)
    requires !Terminal(c.stage)
    ensures Rank(c'.stage) < Rank(c.stage)
    ensures |c'.calls| >= |c.calls| && c'.calls[..|c.calls|] == c.calls
  {
    match c.stage
    case Prepare => PrepareStep(c, svc)
    case Flatten => FlattenStep(c)
    case InvokeModel => InvokeModelStep(c, svc)
    case Parallel => ParallelStep(c, svc)
  }

  /** A whole execution from `c`: transitions until a terminal stage. */
  function Execute(c: Config, svc: Services): Config
    decreases Rank(c.stage)
  {
    if Terminal(c.stage) then c else Execute(Transition(c, svc), svc)
  }

  /** The configuration an execution starts in: StartAt is Prepare. */
  function Start(input: Json, table: map<string, Json>): Config
  {
    Config(Prepare, input, [], table)
  }
}

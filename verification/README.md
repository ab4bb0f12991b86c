# LINE bot with Amazon Bedrock — a Dafny model of its conversation workflow and webhook handler

This project models two parts of the LINE chat bot:

1. **The conversation workflow.** This is the Step Functions state machine that turns one queued chat message into a reply and a saved history.
   - **Prepare** is a parallel state with two branches. Branch 0 is *Load History* (DynamoDB GetItem) followed by the *Has History* choice. Branch 1 is *Load Prompt Template* (SSM GetParameter).
   - **Flatten** gathers the branch outputs by array position.
   - **Invoke Model** builds its prompt with `States.Format` and calls Bedrock.
   - **Parallel** has two branches. One is *Send LINE Response*, an HTTP task under a retry policy. The other is *Save History* (DynamoDB PutItem).
2. **The webhook request handler.** It works in these steps:
   - it reads the signature header and checks the signature;
   - it classifies each webhook event, and only text messages go on;
   - it derives the chat id (the SHA-256 of the group id, or of the user id outside groups) and the timestamp in seconds;
   - it builds the record it puts on the SQS queue;
   - it sends a fallback reply when the queue does not answer 200;
   - it answers 202 whatever the events' outcomes were.

## Modules

- `Json`: JSON values and the two reference-path operations. `Select` serves `InputPath`, `OutputPath` and the `.$` parameters. `Put` serves `ResultPath`.
- `Intrinsics`: `States.Format`, `States.MathAdd` and the decimal text of a number.
   - `Format` is proved equal to a reference reading: literal segments interleaved with the arguments.
   - Number text is proved to read back as the same number.
- `Workflow`: the state machine as a transition function over a configuration.
   - The configuration holds the stage, the JSON payload, the service calls made so far and the history table.
   - Each state is one function.
   - `Execute` runs the transitions to the end.
- `Execution`: the same machine run step by step.
   - It is a class whose current-state field is advanced by one method per state, inside a loop.
   - The retry of Send LINE Response is a counted loop that records each jittered wait.
   - Every method is proved to perform exactly the transition `Workflow` describes. `Run` is proved to perform the whole of `Workflow.Execute`.
- `WorkflowProperties`: what each state guarantees:
   - the history choice;
   - position-based flattening;
   - the prompt and the saved turn;
   - the reply request;
   - the item, its key and its `ttl`.
   It also proves a whole conversation turn end to end.
- `WorkflowOrder`: an invariant that every transition keeps. It gives these guarantees for every execution:
   - calls happen in phase order;
   - call counts are bounded;
   - there is no reply, no write and no table change unless the model answered.
- `RequestHandler`: `getLineSignature`, the event classification, the queued record, the per-event handler and the handler.
- `Pipeline`: the queued record becomes `$[0].body` of the execution input. The pipe uses batch size 1 and inserts the message body as JSON. This module also gives the end-to-end lemma from a LINE text event to the saved history item.

The foreign services are not modelled. Their outcomes are parameters:
- DynamoDB, SSM, Bedrock and the LINE reply endpoint go in `Workflow.Services`;
- the signature check, the JSON parser, SHA-256, SQS and the LINE client go in `RequestHandler.Io`.

The jittered wait before a retry is a nondeterministic choice. It is recorded in milliseconds and bounded by the nominal interval.

### Failure behaviour of the workflow

- **Retry count.** Send LINE Response has `MaxAttempts: 3` (lib/components/state-machine.ts:241). In the Amazon States Language this counts retries after the first attempt, so the reply is attempted up to 4 times.
- **Retry scope.** The retrier matches `States.ALL`, which covers every task error except `States.Runtime`. A missing reference path in the request (`States.Runtime`) is therefore not retried.
- **Failure of a Parallel branch.** No Catch is configured. A failed reply or a failed save fails the Parallel state, and so the execution.
- **`States.Format` can fail.** The template is read from a parameter, so it can hold a different number of `{}` than there are arguments, or an argument can be of an unformattable type. Either makes `Invoke Model` fail with `States.IntrinsicFailure`.
- **`States.MathAdd` is 32-bit.** The intrinsic accepts and returns signed 32-bit integers. `ttl` is `timestampSecond + 3600`, so Save History fails for messages from January 2038 on, and with no Catch the whole execution fails.

## Model

| member | source | states |
|---|---|---|
| Json.SelectAfterPut | lib/components/state-machine.ts:127-128 | after a `ResultPath` succeeds, reading the same path gives back exactly the task's result |
| Intrinsics.FormatMeaning | lib/components/state-machine.ts:203 | `States.Format` succeeds iff the argument count equals the number of `{}`; the result is then the literal segments with the arguments between them, in order and verbatim |
| Intrinsics.FormatTwo | lib/components/state-machine.ts:203 | a `{}lit{}lit` template takes its two arguments in order, inserted verbatim |
| Intrinsics.FormatThree | lib/components/state-machine.ts:273 | a `{}lit{}lit{}` template takes its three arguments in order, inserted verbatim |
| Intrinsics.ParseIntText | lib/components/state-machine.ts:276 | the decimal text `States.Format('{}', n)` writes reads back as `n`, negative numbers included |
| Intrinsics.Format | lib/components/state-machine.ts:203 | definition of `States.Format`; characterised by `FormatMeaning`, `FormatTwo`, `FormatThree` |
| Intrinsics.MathAdd | lib/components/state-machine.ts:276 | definition of `States.MathAdd`: a number plus an integer, failing outside the signed 32-bit range; characterised by `WorkflowProperties.SaveItemContents` and `WorkflowProperties.TtlOutOfRange` |
| Workflow.AttemptsFrom | lib/components/state-machine.ts:234-244 | reply attempts stop at the first success or after `MaxAttempts` retries; every earlier attempt failed; there are between 1 and 4 attempts |
| Workflow.HistoryBranch | lib/components/state-machine.ts:121-129 | definition of Load History with the Has History choice; characterised by `WorkflowProperties.MergedGetItem` and `WorkflowProperties.PrepareSucceeds` |
| Workflow.MergeHistory | lib/components/state-machine.ts:185-190 | definition of the Has History choice; characterised by `WorkflowProperties.HasHistoryChoice` |
| Workflow.TemplateBranch | lib/components/state-machine.ts:150-165 | definition of Load Prompt Template; characterised by `WorkflowProperties.PrepareSucceeds` |
| Workflow.Join | lib/components/state-machine.ts:283-289 | definition of a Parallel state's output; characterised by `Workflow.ParallelJoin` |
| Workflow.FlattenOutput | lib/components/state-machine.ts:192-198 | definition of Flatten's output; characterised by `WorkflowProperties.FlattenByPosition` |
| Workflow.Prompt | lib/components/state-machine.ts:203 | definition of Invoke Model's prompt; characterised by `WorkflowProperties.PromptOfFlattened` |
| Workflow.ReplyRequest | lib/components/state-machine.ts:221-227 | definition of the reply's request body; characterised by `WorkflowProperties.ReplyCarriesCompletion` |
| Workflow.ReplyBranch | lib/components/state-machine.ts:214-248 | definition of Send LINE Response with its retries; characterised by `WorkflowProperties.ReplySucceeds` and `WorkflowOrder.ReplyBranchFacts` |
| Workflow.SavedHistoryText | lib/components/state-machine.ts:272-274 | definition of the saved history text; characterised by `WorkflowProperties.TurnFormatFills` and `WorkflowProperties.SaveItemContents` |
| Workflow.TtlText | lib/components/state-machine.ts:275-277 | definition of the saved `ttl` text; characterised by `WorkflowProperties.SaveItemContents`, `WorkflowProperties.HistoryItemTtl` and `WorkflowProperties.TtlOutOfRange` |
| Workflow.SaveItem | lib/components/state-machine.ts:268-277 | definition of the item Save History puts; characterised by `WorkflowProperties.SaveItemContents` and `WorkflowProperties.TtlOutOfRange` |
| Workflow.SaveBranch | lib/components/state-machine.ts:260-281 | definition of Save History and the table it leaves; characterised by `WorkflowProperties.SaveSucceeds` and `WorkflowOrder.SaveBranchFacts` |
| Workflow.PrepareStep | lib/components/state-machine.ts:283-285 | definition of the Prepare transition; characterised by `WorkflowProperties.PrepareSucceeds` and `WorkflowOrder.PrepareFacts` |
| Workflow.FlattenStep | lib/components/state-machine.ts:192-198 | definition of the Flatten transition; characterised by `WorkflowOrder.FlattenKeeps` and `WorkflowProperties.PrepareThenFlatten` |
| Workflow.InvokeModelStep | lib/components/state-machine.ts:200-212 | definition of the Invoke Model transition; characterised by `WorkflowProperties.InvokeModelSucceeds` and `WorkflowOrder.InvokeModelFacts` |
| Workflow.ParallelStep | lib/components/state-machine.ts:287-289 | definition of the Parallel transition; characterised by `Workflow.ParallelJoin` and `WorkflowOrder.ParallelFacts` |
| Workflow.Execute | lib/components/state-machine.ts:291-307 | definition of a whole execution; characterised by `WorkflowOrder.ExecutionSafety` and `WorkflowProperties.ConversationTurn` |
| Workflow.Transition | lib/components/state-machine.ts:291-294 | every transition moves strictly forward through Prepare, Flatten, Invoke Model, Parallel and keeps the calls already made as a prefix |
| Workflow.ParallelJoin | lib/components/state-machine.ts:287-289 | Parallel's outcome depends only on its two branch results: both outputs in branch order, or branch 0's error first; its calls are the reply attempts followed by the write |
| Execution.NominalDelayDoubles | lib/components/state-machine.ts:239-241 | the nominal wait before retry k is `IntervalSeconds * BackoffRate^(k-1)` = 2^(k-1) seconds |
| Execution.TotalWithinBackoff | lib/components/state-machine.ts:239-242 | FULL-jitter waits, each within its nominal interval, add up to at most the sum of the intervals |
| Execution.RetryWaitBound | lib/components/state-machine.ts:239-242 | an execution waits at most 1 + 2 + 4 = 7 seconds in all before its reply retries |
| Execution.AttemptsUnique | lib/components/state-machine.ts:234-244 | the number of attempts is fixed by where the first success lies |
| Execution.StateMachineExecution.constructor | lib/components/state-machine.ts:305-307 | an execution starts at Prepare with the execution input as its payload, no calls made, no waits |
| Execution.StateMachineExecution.RunPrepare | lib/components/state-machine.ts:283-285 | the Prepare handler performs exactly the Prepare transition: both branches, then their join |
| Execution.StateMachineExecution.RunFlatten | lib/components/state-machine.ts:192-198 | the Flatten handler performs exactly the Flatten transition |
| Execution.StateMachineExecution.RunInvokeModel | lib/components/state-machine.ts:200-212 | the Invoke Model handler performs exactly the Invoke Model transition: format the prompt, call the model, place its body at `$.InvokeModel` |
| Execution.StateMachineExecution.SendLineResponse | lib/components/state-machine.ts:234-244 | the retry loop makes exactly `ReplyAttempts` attempts, each with the same request; it returns the last answer; before retry k it waits between 0 and 2^(k-1) seconds |
| Execution.StateMachineExecution.RunReplyBranch | lib/components/state-machine.ts:214-248 | the reply branch returns the branch result and calls of `ReplyBranch`; its waits stay within the backoff bounds |
| Execution.StateMachineExecution.RunSaveBranch | lib/components/state-machine.ts:260-281 | the save branch returns the branch result and calls of `SaveBranch` and writes the item into the table |
| Execution.StateMachineExecution.RunParallel | lib/components/state-machine.ts:287-289 | the Parallel handler performs exactly the Parallel transition, retries and waits included |
| Execution.StateMachineExecution.Run | lib/components/state-machine.ts:291-294 | the loop over the current state ends in Succeeded or Failed, in exactly the configuration `Execute` gives; at most 3 waits, 7 seconds in all |
| WorkflowProperties.HasHistoryChoice | lib/components/state-machine.ts:167-190 | a present `LoadHistory.Item` becomes `LoadHistory` unchanged; an absent one becomes `{history: {S: ""}}`; `body` passes through |
| WorkflowProperties.MergedGetItem | lib/components/state-machine.ts:121-129 | the record merged from a GetItem response is the stored item, or the empty history when nothing is stored |
| WorkflowProperties.EmptyHistoryText | lib/components/state-machine.ts:174-183 | the synthesised record has history text `""`, so the history read downstream is never missing |
| WorkflowProperties.SelectFirstBody | lib/components/state-machine.ts:126 | `InputPath $[0].body` exists exactly when the input is a one-element-or-more array whose first element has a `body` |
| WorkflowProperties.IntoFirstEnvelope | lib/components/state-machine.ts:127-128 | `ResultPath $[0].X` then `OutputPath $[0]` yields the first element with field X set to the result |
| WorkflowProperties.PrepareSucceeds | lib/components/state-machine.ts:121-165 | Prepare reads the history under `body.chatId` and the template parameter, and joins the merged record and the template in branch order |
| WorkflowProperties.FlattenByPosition | lib/components/state-machine.ts:192-198 | Flatten takes `body` and `LoadHistory` from index 0 and `LoadPromptTemplate` from index 1 |
| WorkflowProperties.PrepareThenFlatten | lib/components/state-machine.ts:283-293 | after Prepare and Flatten, Invoke Model gets the message body unchanged, the stored history and the template |
| WorkflowProperties.DeployedTemplateFills | lib/components/state-machine.ts:203 | with the deployed template `{}\n\nHuman: {}\n\nAssistant:` the prompt is `history + "\n\nHuman: " + message + "\n\nAssistant:"` |
| WorkflowProperties.TurnFormatFills | lib/components/state-machine.ts:273 | the saved history is `history + "\n\nHuman: " + message + "\n\nAssistant: " + completion` |
| WorkflowProperties.TurnExtendsPrompt | lib/components/state-machine.ts:273 | the saved history is the prompt, a space and the completion, so the old history and the prompt are both prefixes of it |
| WorkflowProperties.NumberFormat | lib/components/state-machine.ts:276 | `States.Format('{}', n)` is the decimal text of n |
| WorkflowProperties.PromptOfFlattened | lib/components/state-machine.ts:203 | the prompt is `States.Format(template, history, message)` of the flattened payload, with any template |
| WorkflowProperties.ReplyCarriesCompletion | lib/components/state-machine.ts:221-227 | the reply request carries `body.replyToken` and exactly one text message whose text is the completion |
| WorkflowProperties.SaveItemContents | lib/components/state-machine.ts:268-277 | when `body.timestampSecond` and `timestampSecond + 3600` are 32-bit, the item is `chat_id = body.chatId`, the extended history, and `ttl = body.timestampSecond + 3600`, taken from the payload and never re-read from the table |
| WorkflowProperties.TtlOutOfRange | lib/components/state-machine.ts:275-277 | when `timestampSecond + 3600` leaves the signed 32-bit range of `States.MathAdd`, Save History fails with `States.IntrinsicFailure` |
| WorkflowProperties.HistoryItemKey | lib/components/state-machine.ts:269-271 | the item is stored under the chat id it was built with, the key Load History read |
| WorkflowProperties.HistoryItemTtl | lib/components/state-machine.ts:275-277 | the `ttl` attribute reads back as the number it was formatted from |
| WorkflowProperties.SavedHistoryReadBack | lib/components/state-machine.ts:272-274 | in the table this turn leaves, the chat id's item reads back exactly the history this turn saved; the next turn sees it if the item has not expired, no other execution wrote the key in between, and the read is not stale (see Left out) |
| WorkflowProperties.FirstTurnHistory | lib/components/state-machine.ts:174-183 | a chat with nothing stored starts from the empty history |
| WorkflowProperties.InvokeModelSucceeds | lib/components/state-machine.ts:200-212 | with the deployed template, the model gets `PromptText(history, message)` and its body lands at `$.InvokeModel.Body` |
| WorkflowProperties.ReplySucceeds | lib/components/state-machine.ts:214-248 | when the last allowed attempt succeeds, the reply branch succeeds after exactly `ReplyAttempts` identical requests |
| WorkflowProperties.SaveSucceeds | lib/components/state-machine.ts:260-281 | when PutItem succeeds, the save branch succeeds and the table holds the item under its chat id |
| WorkflowProperties.TurnReachesParallel | lib/components/state-machine.ts:291-294 | a turn whose services answer reaches Parallel after GetItem, GetParameter and one model call |
| WorkflowProperties.TurnReachesInvokeModel | lib/components/state-machine.ts:283-293 | with the history table and the template answering, Prepare and Flatten reach Invoke Model after exactly one GetItem and one GetParameter |
| WorkflowProperties.TurnParallel | lib/components/state-machine.ts:287-289 | Parallel of such a turn succeeds, replies once per attempt, writes once and stores the item |
| WorkflowProperties.ConversationTurn | lib/components/state-machine.ts:283-294 | a whole turn, for 32-bit `ttl`: the exact call sequence; success; the table updated under the chat id with the extended history and `ttl` = timestamp + 3600 |
| WorkflowProperties.TurnFailsOutOfRange | lib/components/state-machine.ts:275-294 | with no Catch, a turn whose `ttl` leaves the 32-bit range fails whatever the reply does, and the table is unchanged |
| WorkflowProperties.ParallelSaveFails | lib/components/state-machine.ts:260-289 | with no Catch, when Save History cannot build its item, Parallel fails whatever the reply does, and the table is unchanged |
| WorkflowOrder.PrepareFacts | lib/components/state-machine.ts:283-285 | Prepare appends at most one GetItem then at most one GetParameter and leaves the table unchanged |
| WorkflowOrder.PrepareKeeps | lib/components/state-machine.ts:283-285 | Prepare keeps the execution invariant |
| WorkflowOrder.FlattenKeeps | lib/components/state-machine.ts:192-198 | Flatten makes no call and keeps the invariant |
| WorkflowOrder.InvokeModelFacts | lib/components/state-machine.ts:200-212 | Invoke Model makes at most one model call, and reaches Parallel only when the model answered that call |
| WorkflowOrder.InvokeModelKeeps | lib/components/state-machine.ts:200-212 | Invoke Model keeps the invariant |
| WorkflowOrder.ParallelFacts | lib/components/state-machine.ts:287-289 | Parallel appends up to 4 reply attempts, then at most one PutItem; it succeeds only when both happened |
| WorkflowOrder.ReplyBranchFacts | lib/components/state-machine.ts:214-248 | Send LINE Response makes only reply calls, at most 4, and at least one when it succeeds |
| WorkflowOrder.SaveBranchFacts | lib/components/state-machine.ts:260-281 | Save History makes at most one PutItem, and exactly one when it succeeds |
| WorkflowOrder.ParallelKeeps | lib/components/state-machine.ts:287-289 | Parallel keeps the invariant |
| WorkflowOrder.TransitionKeeps | lib/components/state-machine.ts:291-294 | every transition keeps the invariant |
| WorkflowOrder.ExecuteKeeps | lib/components/state-machine.ts:291-294 | a whole execution keeps the invariant and ends in a terminal stage |
| WorkflowOrder.ExecutionSafety | lib/components/state-machine.ts:291-294 | for every execution and every set of service outcomes: calls come in phase order; GetItem, GetParameter, the model call and PutItem happen at most once and the reply at most 4 times; a reply, a write or a table change happens only after the model answered; success means both replied and saved |
| WorkflowOrder.NoAnswerNoEffects | lib/components/state-machine.ts:292-294 | with no Catch, an execution whose model never answered fails without replying and without touching the table |
| RequestHandler.LineSignature | assets/functions/request-handler/app.ts:90-100 | the lower-case header when present; otherwise the title-case header when present; otherwise `''`; a non-empty signature comes from one of the two headers |
| RequestHandler.SignatureOnlyFromItsHeaders | assets/functions/request-handler/app.ts:90-100 | only the two signature headers affect the signature |
| RequestHandler.SignatureMissing | assets/functions/request-handler/app.ts:97-99 | with neither header the signature is `''` |
| RequestHandler.GroupId | assets/functions/request-handler/app.ts:40 | the group id is `''` unless the source is a group |
| RequestHandler.ChatKeyText | assets/functions/request-handler/app.ts:44 | definition of the text the chat id hashes; characterised by `GroupMembersShareKey` and `UserKeyOutsideGroups` |
| RequestHandler.RoundSeconds | assets/functions/request-handler/app.ts:45 | definition of `Math.round(timestamp / 1000)` on exact reals; characterised by `RoundSecondsInteger` |
| RequestHandler.GroupMembersShareKey | assets/functions/request-handler/app.ts:40-44 | every sender in a group, with or without a known user id, hashes to the group's key |
| RequestHandler.UserKeyOutsideGroups | assets/functions/request-handler/app.ts:44 | outside groups the key is the user id, and is missing without one |
| RequestHandler.RoundSecondsInteger | assets/functions/request-handler/app.ts:45 | `Math.round(ms / 1000)` equals `(ms + 500) / 1000` in integer division rounding down, for every integer ms |
| RequestHandler.Classify | assets/functions/request-handler/app.ts:28-72 | only a text message event is sent to the queue; its record has mode `chat`, the message text verbatim, and the chat id hashed from the chat key |
| RequestHandler.TextMessageEnqueued | assets/functions/request-handler/app.ts:56-72 | a text message is sent to the queue with every field taken from the event: message id, chat id, user id, group id, reply token, rounded seconds, timestamp, text, mode `chat` |
| RequestHandler.RequestJson | assets/functions/request-handler/app.ts:62-77 | definition of the queued message body; characterised by `Pipeline.QueuedRecordFields` |
| RequestHandler.NonMessageRejected | assets/functions/request-handler/app.ts:29-35 | an event that is not a message is a bad request and sends nothing |
| RequestHandler.NonTextRejected | assets/functions/request-handler/app.ts:44-54 | a message that is not text is a bad request; the chat id is derived first, so a source without any key makes the hash throw instead |
| RequestHandler.EventEffects | assets/functions/request-handler/app.ts:74-87 | definition of one event's effects; characterised by `HandleEvent`, `FallbackExactly` and `SendsAreChatRequests` |
| RequestHandler.HandleEvent | assets/functions/request-handler/app.ts:74-87 | one event's effects are its send to the queue, plus the fallback reply exactly when the status is not 200; it settles with 400 for bad requests and rejects on a failed hash or a failed fallback reply; a failed send is caught |
| RequestHandler.Handle | assets/functions/request-handler/app.ts:102-125 | a bad signature throws before the body is parsed, with no effect; otherwise the response is 202 `Accepted` whatever the events' outcomes, and the events' effects are every event's effects in order (see Left out for a rejecting event) |
| RequestHandler.HandleEvents | assets/functions/request-handler/app.ts:111-119 | every event of the request is handled, in order, with event number i answered by the i-th queue and reply outcomes; the effects are all events' effects concatenated |
| RequestHandler.SendsAreChatRequests | assets/functions/request-handler/app.ts:58-77 | every body handed to the queue's send call is the record of a text message event of the request, with mode `chat` |
| RequestHandler.RepliesFollowSends | assets/functions/request-handler/app.ts:79-83 | fallback replies never outnumber sends to the queue |
| RequestHandler.FallbackExactly | assets/functions/request-handler/app.ts:79-83 | an event's fallback reply is sent iff its record was sent to the queue and the status code was not 200 |
| Pipeline.PipeInput | lib/components/pipes.ts:81-91 | one queued message becomes a one-element execution input whose first element's `body` is the record |
| Pipeline.QueuedRecordFields | assets/functions/request-handler/app.ts:62-72 | the chat id, message, seconds and reply token the workflow reads are the ones the handler queued |
| Pipeline.TextMessageTurn | assets/functions/request-handler/app.ts:58-77 | a LINE text message with a 32-bit `ttl`, end to end: the history is saved under the hash of its chat key with `ttl` = rounded seconds + 3600, and the reply goes to its reply token |

## Left out

- CDK resource wiring is not modelled: IAM, log groups, the events Connection, the stack and parameter stack, the app entry point. The model uses only a few facts from it:
  - the pipe's batch size of 1 and its input template;
  - the deployed prompt template;
  - the template parameter's name.
- The foreign services are parameters, not code. This covers DynamoDB, SSM, Bedrock, the LINE reply endpoint, SQS, `line.replyMessage`, `Line.validateSignature` (an HMAC check), SHA-256 and `JSON.parse`.
   - A service's answer is given as a value or a failure.
   - The content of the responses beyond the fields the workflow reads is not modelled.
- The sampling parameters of Invoke Model (`max_tokens_to_sample`, `temperature`, `top_p`, `top_k`) are not modelled. They are constant floating-point fields with no logic.
- JSON numbers are integers. Floating-point numbers, and the float arithmetic of `Math.round` on very large timestamps, are not modelled. `RoundSeconds` computes on exact reals.
- The 60-second execution timeout and wall-clock time are not modelled. Waits are recorded but time does not pass.
- Workflow.Join: the Parallel branches are modelled as both run, with branch 0's error reported when both fail.
   - The real branches run concurrently, and the first failure cancels the other branch.
   - Which error a two-failure execution reports, and whether the other branch's calls happen, are therefore not captured.
- Execution.StateMachineExecution.RunParallel runs the reply branch and then the save branch. This is one interleaving of two concurrent branches.
- RequestHandler.Handle handles the events one after another.
   - `Promise.all` starts them concurrently, so the real order of effects across events can differ.
   - The effects of each single event keep their order.
- RequestHandler.Handle: when an event rejects, the 202 can be returned before the remaining events' sends and fallback replies complete. A hash of an absent user id, or a failed un-awaited fallback reply, rejects an event. `Promise.all` then settles at once and its `.catch` discards the rejection. The function can be frozen before the other events finish, so the model's promise of every event's effects holds only when no event rejects.
- Expiry of history items is not modelled. The table deletes an item some time after its `ttl` (lib/stack.ts:33). Each execution starts from an arbitrary table, so an expired item is just a missing key. What a later turn reads back is stated for the table this turn leaves.
- WorkflowProperties.SavedHistoryReadBack: Load History's GetItem sets no `consistentRead` (lib/components/state-machine.ts:121-129), so DynamoDB reads it eventually consistently. A next turn that starts soon after this turn's PutItem can still read the previous history. The model reads its table back at once, so the lemma is stated only for the table this turn leaves.
- WorkflowProperties.ConversationTurn: the size limits are not modelled. The history is an unbounded string, and every turn appends to it (lib/components/state-machine.ts:273) without truncating it. Every turn also pushes `ttl` forward (state-machine.ts:276), so an active chat's item does not expire. Step Functions caps a state's input or result at 256 KB and fails with `States.DataLimitExceeded`, which no retrier or Catch here handles; DynamoDB caps an item at 400 KB. Once a chat's history passes a cap, every later turn of that chat fails before replying or saving, until the item is deleted. This lemma promises success for every history length, so it holds only below those limits.
- Pipeline.TextMessageTurn: for the same reason, it holds only while the chat's stored history and the execution's payloads stay below the 256 KB state payload and 400 KB item limits.
- Races between executions on the same chat id are not modelled. Two messages of one chat can run concurrently and overwrite each other's history.
- `States.Format` with an array or object argument is refused as an intrinsic failure. The text JSON gives such values is not modelled.
- A `{` that does not start `{}`, and escaped braces, are treated as literal text.
- RequestHandler.LineSignature: header values are strings. An explicitly `undefined` header value is not modelled.
- RequestHandler.Handle: a request without a body cannot be represented, because `HttpRequest.body` is a string. The source passes `event.body!` to `Line.validateSignature` (assets/functions/request-handler/app.ts:106), so there it throws at the signature check, before `JSON.parse` (app.ts:110). A body without an `events` array is treated like an unparsable body (the handler throws).
- Pipeline.PipeInput: the pipe's input template also copies the SQS message id, receipt handle, attributes and region. The workflow never reads them, so the model carries only `body`.

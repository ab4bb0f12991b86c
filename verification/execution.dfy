/**
 * One execution of the conversation workflow, run step by step: a current-state
 * field advances Prepare, Flatten, Invoke Model, Parallel, and each task writes
 * its result into the payload. Every handler is proved to perform exactly its
 * step function of `Workflow` (`PrepareStep`, `FlattenStep`, `InvokeModelStep`,
 * `ParallelStep`), and `Run` the whole of `Workflow.Execute`.
 */
module Execution {
  import opened Wrappers
  import opened Json
  import opened Workflow

  /** Jittered waits are recorded in milliseconds. */
  const MillisPerSecond: nat := 1000

  /** True when `waits` are the jittered waits before retries 1, 2, ...: each within its nominal interval. */
  ghost predicate WaitsWithinBackoff(waits: seq<nat>)
  {
    forall r | 0 <= r < |waits| :: waits[r] <= MillisPerSecond * NominalDelay(r + 1)
  }

  /** A wait within the nominal interval of the next retry keeps the waits within their backoff. */
  lemma WaitsExtend(waits: seq<nat>, wait: nat)
    requires WaitsWithinBackoff(waits)
    requires wait <= MillisPerSecond * NominalDelay(|waits| + 1)
    ensures WaitsWithinBackoff(waits + [wait])
  {
    forall r | 0 <= r < |waits| + 1 ensures (waits + [wait])[r] <= MillisPerSecond * NominalDelay(r + 1) {
      if r < |waits| {
        assert (waits + [wait])[r] == waits[r];
      }
    }
  }

  /** 2 to the power n. */
  function Pow2(n: nat): nat
  {
    if n == 0 then 1 else 2 * Pow2(n - 1)
  }

  /** The nominal wait before retry k is IntervalSeconds * BackoffRate^(k-1): 1, 2, 4 seconds. */
  lemma {:induction false} NominalDelayDoubles(k: nat)
    requires k >= 1
    ensures NominalDelay(k) == IntervalSeconds * Pow2(k - 1)
    decreases k
  {
    if k > 1 {
      NominalDelayDoubles(k - 1);
    }
  }

  /** The total time waited, in milliseconds. */
  function Total(waits: seq<nat>): nat
  {
    if waits == [] then 0 else Total(waits[..|waits| - 1]) + waits[|waits| - 1]
  }

  /** Jittered waits within their intervals add up to at most the sum of the intervals. */
  lemma {:induction false} TotalWithinBackoff(waits: seq<nat>)
    requires WaitsWithinBackoff(waits)
    ensures Total(waits) <= MillisPerSecond * (Pow2(|waits|) - 1)
    decreases |waits|
  {
    if waits != [] {
      var r := |waits| - 1;
      assert WaitsWithinBackoff(waits[..r]) by {
        forall j | 0 <= j < r ensures waits[..r][j] <= MillisPerSecond * NominalDelay(j + 1) {
          assert waits[..r][j] == waits[j];
        }
      }
      TotalWithinBackoff(waits[..r]);
      NominalDelayDoubles(r + 1);
      assert waits[r] <= MillisPerSecond * Pow2(r);
    }
  }

  /** With at most three retries, an execution waits at most 1 + 2 + 4 = 7 seconds in all before them. */
  lemma RetryWaitBound(waits: seq<nat>)
    requires WaitsWithinBackoff(waits) && |waits| <= MaxAttempts
    ensures Total(waits) <= 7 * MillisPerSecond
  {
    TotalWithinBackoff(waits);
    assert Pow2(|waits|) <= 8 by {
      assert Pow2(0) == 1 && Pow2(1) == 2 && Pow2(2) == 4 && Pow2(3) == 8;
    }
  }

  class StateMachineExecution {
    var stage: Stage
    var payload: Json
    var calls: seq<Call>
    var table: map<string, Json>
    /** Milliseconds waited before each retry of Send LINE Response. */
    var waits: seq<nat>

    function Current(): Config
      reads this
    {
      Config(stage, payload, calls, table)
    }

    constructor (input: Json, items: map<string, Json>)
      ensures Current() == Start(input, items) && waits == []
    {
      stage := Prepare;
      payload := input;
      calls := [];
      table := items;
      waits := [];
    }

    /** Prepare: Load History and its choice on branch 0, Load Prompt Template on branch 1, then the join. */
    method RunPrepare(svc: Services)
      requires stage == Prepare
      modifies this
      ensures Current() == PrepareStep(old(Current()), svc) && waits == old(waits)
    {
      var history := HistoryBranch(payload, table, svc.historyTableUp);
      var template := TemplateBranch(payload, svc.template);
      calls := calls + history.calls + template.calls;
      match Join(history, template)
      case Ok(out) =>
        payload := out;
        stage := Flatten;
      case Err(e) =>
        stage := Failed(e);
    }

    /** Flatten: gather body, history and template into one object. */
    method RunFlatten()
      requires stage == Flatten
      modifies this
      ensures Current() == FlattenStep(old(Current()))
      ensures waits == old(waits)
    {
      var flat := FlattenOutput(payload);
      if flat.Err? {
        stage := Failed(flat.error);
        return;
      }
      payload := flat.value;
      stage := InvokeModel;
    }

    /** Invoke Model: format the prompt, call the model, place its answer at `$.InvokeModel`. */
    method RunInvokeModel(svc: Services)
      requires stage == InvokeModel
      modifies this
      ensures Current() == InvokeModelStep(old(Current()), svc) && waits == old(waits)
    {
      var prompt := Prompt(payload);
      if prompt.Err? {
        stage := Failed(prompt.error);
        return;
      }
      calls := calls + [BedrockInvoke(prompt.value)];
      var answer := svc.model(prompt.value);
      if answer.None? {
        stage := Failed(TaskFailed("Invoke Model"));
        return;
      }
      var placed := Put(payload, [Key("InvokeModel")], Obj(map["Body" := answer.value]));
      if placed.None? {
        stage := Failed(Runtime);
        return;
      }
      payload := placed.value;
      stage := Parallel;
    }

    /**
     * Send LINE Response's HTTP call under its retry policy: any error is retried,
     * at most MaxAttempts times, and before retry k the execution waits a
     * jittered time between 0 and NominalDelay(k) seconds.
     */
    method SendLineResponse(request: Json, reply: nat -> Option<Json>) returns (response: Option<Json>, attempts: nat)
      modifies this`calls, this`waits
      ensures attempts == ReplyAttempts(reply) && response == reply(attempts - 1)
      ensures calls == old(calls) + Repeat(LineReply(request), attempts)
      ensures |waits| == |old(waits)| + attempts - 1 && waits[..|old(waits)|] == old(waits)
      ensures WaitsWithinBackoff(waits[|old(waits)|..])
    {
      ghost var added: seq<nat> := [];
      attempts := 1;
      calls := calls + [LineReply(request)];
      response := reply(0);
      while response.None? && attempts <= MaxAttempts
        invariant 1 <= attempts <= MaxAttempts + 1
        invariant response == reply(attempts - 1)
        invariant forall j | 0 <= j < attempts - 1 :: reply(j).None?
        invariant calls == old(calls) + Repeat(LineReply(request), attempts)
        invariant waits == old(waits) + added && |added| == attempts - 1
        invariant WaitsWithinBackoff(added)
        decreases MaxAttempts + 1 - attempts
      {
        var wait: nat :| wait <= MillisPerSecond * NominalDelay(attempts);
        WaitsExtend(added, wait);
        added := added + [wait];
        waits := waits + [wait];
        calls := calls + [LineReply(request)];
        response := reply(attempts);
        attempts := attempts + 1;
      }
      assert waits[..|old(waits)|] == old(waits) && waits[|old(waits)|..] == added;
      AttemptsUnique(reply, 0, attempts);
    }

    /** Branch 0 of Parallel: Send LINE Response, its request built from the payload. */
    method RunReplyBranch(s: Json, reply: nat -> Option<Json>) returns (replied: Result<Json, Error>)
      modifies this`calls, this`waits
      ensures replied == ReplyBranch(s, reply).result
      ensures calls == old(calls) + ReplyBranch(s, reply).calls
      ensures |old(waits)| <= |waits| <= |old(waits)| + MaxAttempts && waits[..|old(waits)|] == old(waits)
      ensures WaitsWithinBackoff(waits[|old(waits)|..])
    {
      var request := ReplyRequest(s);
      if request.Err? {
        replied := Err(request.error);
        return;
      }
      var response, attempts := SendLineResponse(request.value, reply);
      if response.None? {
        replied := Err(TaskFailed("Send LINE Response"));
      } else {
        var placed := Put(s, [Key("SendLineResponse")], response.value);
        replied := if placed.None? then Err(Runtime) else Ok(placed.value);
      }
    }

    /** Branch 1 of Parallel: Save History, which writes the item into the table. */
    method RunSaveBranch(s: Json, save: Option<Json>) returns (saved: Result<Json, Error>)
      modifies this`calls, this`table
      ensures saved == SaveBranch(s, old(table), save).0.result
      ensures calls == old(calls) + SaveBranch(s, old(table), save).0.calls
      ensures table == SaveBranch(s, old(table), save).1
    {
      var item := SaveItem(s);
      if item.Err? {
        saved := Err(item.error);
        return;
      }
      calls := calls + [DynamoPutItem(item.value)];
      var key := ItemKey(item.value);
      if key.None? || save.None? {
        saved := Err(TaskFailed("Save History"));
        return;
      }
      table := table[key.value := item.value];
      var placed := Put(s, [Key("SaveHistory")], save.value);
      saved := if placed.None? then Err(Runtime) else Ok(placed.value);
    }

    /** Parallel: the reply branch with its retries, the save branch, then the join. */
    method RunParallel(svc: Services)
      requires stage == Parallel
      modifies this
      ensures Current() == ParallelStep(old(Current()), svc)
      ensures |old(waits)| <= |waits| <= |old(waits)| + MaxAttempts && waits[..|old(waits)|] == old(waits)
      ensures WaitsWithinBackoff(waits[|old(waits)|..])
    {
      ghost var c := Current();
      var s := payload;
      var replied := RunReplyBranch(s, svc.reply);
      var saved := RunSaveBranch(s, svc.save);
      var joined := Join(Branch(replied, []), Branch(saved, []));
      ParallelJoin(c, svc, replied, saved);
      if joined.Ok? {
        payload := joined.value;
        stage := Succeeded;
      } else {
        stage := Failed(joined.error);
      }
    }

    /** The whole execution: one handler per state until the execution succeeds or fails. */
    method Run(svc: Services)
      requires stage == Prepare && waits == []
      modifies this
      ensures Terminal(stage)
      ensures Current() == Execute(old(Current()), svc)
      ensures |waits| <= MaxAttempts && WaitsWithinBackoff(waits)
      ensures Total(waits) <= 7 * MillisPerSecond
    {
      while !Terminal(stage)
        invariant Execute(Current(), svc) == Execute(old(Current()), svc)
        invariant !Terminal(stage) ==> waits == []
        invariant |waits| <= MaxAttempts && WaitsWithinBackoff(waits)
        decreases Rank(stage)
      {
        match stage
        case Prepare => RunPrepare(svc);
        case Flatten => RunFlatten();
        case InvokeModel => RunInvokeModel(svc);
        case Parallel => RunParallel(svc);
      }
      RetryWaitBound(waits);
    }
  }

  /** The attempt count is determined by where the first success lies. */
  lemma {:induction false} AttemptsUnique(reply: nat -> Option<Json>, k: nat, n: nat)
    requires k < n <= MaxAttempts + 1
    requires forall j | k <= j < n - 1 :: reply(j).None?
    requires reply(n - 1).Some? || n == MaxAttempts + 1
    ensures AttemptsFrom(reply, k) == n
    decreases n - k
  {
    if k < n - 1 {
      AttemptsUnique(reply, k + 1, n);
    }
  }
}

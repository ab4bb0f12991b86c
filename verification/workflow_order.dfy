/**
 * Properties of whole executions of the workflow: the service calls happen in
 * the order of the chain Prepare, Invoke Model, Parallel; each service is called
 * at most once, except the LINE reply, which is called at most once per attempt;
 * and nothing is replied or saved unless the model answered. Proved as an
 * invariant that every transition keeps.
 */
module WorkflowOrder {
  import opened Wrappers
  import opened Json
  import opened Workflow

  /** Which part of the chain makes a call: Prepare 0, Invoke Model 1, Parallel 2. */
  function Phase(call: Call): nat
  {
    match call
    case DynamoGetItem(_) => 0
    case SsmGetParameter(_) => 0
    case BedrockInvoke(_) => 1
    case LineReply(_) => 2
    case DynamoPutItem(_) => 2
  }

  /** The first phase whose calls a stage has not made yet. */
  function Entry(st: Stage): nat
  {
    match st
    case Prepare => 0
    case Flatten => 1
    case InvokeModel => 1
    case Parallel => 2
    case _ => 3
  }

  /** The kind of a call: one number per service operation. */
  function Kind(call: Call): nat
  {
    match call
    case DynamoGetItem(_) => 0
    case SsmGetParameter(_) => 1
    case BedrockInvoke(_) => 2
    case LineReply(_) => 3
    case DynamoPutItem(_) => 4
  }

  /** The phase a kind of call belongs to. */
  function KindPhase(k: nat): nat
  {
    if k <= 1 then 0 else if k == 2 then 1 else 2
  }

  /** How often an execution may call each kind: once, except the reply, once per attempt. */
  function Limit(k: nat): nat
  {
    if k == 3 then MaxAttempts + 1 else 1
  }

  /** The number of calls of kind `k`. */
  function Tally(calls: seq<Call>, k: nat): nat
  {
    if calls == [] then 0
    else Tally(calls[..|calls| - 1], k) + (if Kind(calls[|calls| - 1]) == k then 1 else 0)
  }

  /** Calls are made phase by phase. */
  predicate InOrder(calls: seq<Call>)
  {
    forall i, j | 0 <= i < j < |calls| :: Phase(calls[i]) <= Phase(calls[j])
  }

  /** Some model invocation among the calls got an answer. */
  predicate ModelAnswered(calls: seq<Call>, svc: Services)
  {
    exists call | call in calls :: call.BedrockInvoke? && svc.model(call.prompt).Some?
  }

  /** A call with an effect outside the workflow: a LINE reply or a history write. */
  predicate Effects(calls: seq<Call>)
  {
    exists call | call in calls :: call.LineReply? || call.DynamoPutItem?
  }

  /** Some call of kind `k` was made. */
  predicate Made(calls: seq<Call>, k: nat)
  {
    exists call | call in calls :: Kind(call) == k
  }

  /**
   * The invariant of an execution that started with history table `t0`: calls
   * in phase order and none from a phase not yet reached; each kind within its
   * limit; the reply and the write, and any change to the table, only after the
   * model answered; and an execution that succeeded both replied and saved.
   */
  predicate Good(c: Config, t0: map<string, Json>, svc: Services)
  {
    && InOrder(c.calls)
    && (forall i | 0 <= i < |c.calls| :: Phase(c.calls[i]) < Entry(c.stage))
    && (forall k | 0 <= k < 5 :: Tally(c.calls, k) <= (if KindPhase(k) < Entry(c.stage) then Limit(k) else 0))
    && ((c.stage == Parallel || c.stage == Succeeded || Effects(c.calls) || c.table != t0) ==> ModelAnswered(c.calls, svc))
    && (c.stage == Succeeded ==> Made(c.calls, 3) && Made(c.calls, 4))
  }

  lemma {:induction false} TallyAppend(a: seq<Call>, b: seq<Call>, k: nat)
    ensures Tally(a + b, k) == Tally(a, k) + Tally(b, k)
    decreases |b|
  {
    if b == [] {
      assert a + b == a;
    } else {
      var b' := b[..|b| - 1];
      TallyAppend(a, b', k);
      assert (a + b)[..|a + b| - 1] == a + b';
    }
  }

  /** A run of reply attempts counts only as replies. */
  lemma {:induction false} TallyReplies(calls: seq<Call>, k: nat)
    requires forall i | 0 <= i < |calls| :: calls[i].LineReply?
    ensures Tally(calls, k) == if k == 3 then |calls| else 0
    decreases |calls|
  {
    if calls != [] {
      TallyReplies(calls[..|calls| - 1], k);
    }
  }

  lemma TallySingle(call: Call, k: nat)
    ensures Tally([call], k) == if Kind(call) == k then 1 else 0
  {
    assert [call][..0] == [];
  }

  /** Calls made in a later phase keep the whole sequence in order. */
  lemma InOrderAppend(a: seq<Call>, b: seq<Call>, bound: nat)
    requires InOrder(a) && InOrder(b)
    requires forall i | 0 <= i < |a| :: Phase(a[i]) < bound
    requires forall i | 0 <= i < |b| :: bound <= Phase(b[i])
    ensures InOrder(a + b)
  {
    forall i, j | 0 <= i < j < |a + b| ensures Phase((a + b)[i]) <= Phase((a + b)[j]) {
      if j < |a| {
      } else if i >= |a| {
        assert (a + b)[i] == b[i - |a|] && (a + b)[j] == b[j - |a|];
      } else {
        assert (a + b)[j] == b[j - |a|];
      }
    }
  }

  /** How many calls of kind `k` a configuration in stage `st` may have made. */
  function Cap(k: nat, st: Stage): nat
  {
    if KindPhase(k) < Entry(st) then Limit(k) else 0
  }

  /**
   * The invariant carries over to `c'` when `c'` appends a phase-ordered block
   * of calls from the phases between the two stages, the tallies stay within
   * the new caps, and the effect conditions hold of `c'`.
   */
  lemma Extend(c: Config, c': Config, added: seq<Call>, t0: map<string, Json>, svc: Services)
    requires Good(c, t0, svc)
    requires c'.calls == c.calls + added && InOrder(added)
    requires forall i | 0 <= i < |added| :: Entry(c.stage) <= Phase(added[i]) < Entry(c'.stage)
    requires Entry(c.stage) <= Entry(c'.stage)
    requires forall k | 0 <= k < 5 :: Tally(c.calls, k) + Tally(added, k) <= Cap(k, c'.stage)
    requires (c'.stage == Parallel || c'.stage == Succeeded || Effects(c'.calls) || c'.table != t0) ==> ModelAnswered(c'.calls, svc)
    requires c'.stage == Succeeded ==> Made(c'.calls, 3) && Made(c'.calls, 4)
    ensures Good(c', t0, svc)
  {
    InOrderAppend(c.calls, added, Entry(c.stage));
    forall i | 0 <= i < |c'.calls| ensures Phase(c'.calls[i]) < Entry(c'.stage) {
      if i >= |c.calls| {
        assert c'.calls[i] == added[i - |c.calls|];
      }
    }
    forall k | 0 <= k < 5 ensures Tally(c'.calls, k) <= Cap(k, c'.stage) {
      TallyAppend(c.calls, added, k);
    }
  }

  /** A configuration that has only made calls of phases below Entry(st) has none of the kinds capped at 0. */
  lemma TallyBelowEntry(c: Config, t0: map<string, Json>, svc: Services, k: nat)
    requires Good(c, t0, svc) && 0 <= k < 5
    ensures Tally(c.calls, k) <= Cap(k, c.stage)
  {
  }

  /** The calls Prepare appends: at most one GetItem, then at most one GetParameter. */
  lemma PrepareFacts(c: Config, svc: Services)
    ensures var c' := PrepareStep(c, svc);
            var b0 := HistoryBranch(c.payload, c.table, svc.historyTableUp);
            var b1 := TemplateBranch(c.payload, svc.template);
            && c'.calls == c.calls + (b0.calls + b1.calls)
            && c'.table == c.table
            && (c'.stage == Flatten || c'.stage.Failed?)
            && (b0.calls == [] || (|b0.calls| == 1 && b0.calls[0].DynamoGetItem?))
            && (b1.calls == [] || b1.calls == [SsmGetParameter(PromptTemplateName)])
  {
  }

  /** A block of at most one GetItem followed by at most one GetParameter. */
  lemma PrepareBlock(b0: seq<Call>, b1: seq<Call>)
    requires b0 == [] || (|b0| == 1 && b0[0].DynamoGetItem?)
    requires b1 == [] || b1 == [SsmGetParameter(PromptTemplateName)]
    ensures InOrder(b0 + b1)
    ensures forall i | 0 <= i < |b0 + b1| :: Phase((b0 + b1)[i]) == 0
    ensures forall k | 0 <= k < 5 :: Tally(b0 + b1, k) <= (if k <= 1 then 1 else 0)
    ensures !Effects(b0 + b1)
  {
    forall k | 0 <= k < 5 ensures Tally(b0 + b1, k) <= (if k <= 1 then 1 else 0) {
      TallyAppend(b0, b1, k);
      if b0 != [] {
        TallySingle(b0[0], k);
        assert b0 == [b0[0]];
      }
      if b1 != [] {
        TallySingle(SsmGetParameter(PromptTemplateName), k);
      }
    }
  }

  /** Prepare calls GetItem at most once and GetParameter at most once, and nothing else. */
  lemma PrepareKeeps(c: Config, t0: map<string, Json>, svc: Services)
    requires Good(c, t0, svc) && c.stage == Prepare
    ensures Good(PrepareStep(c, svc), t0, svc)
  {
    PrepareFacts(c, svc);
    PrepareExtend(c, PrepareStep(c, svc), HistoryBranch(c.payload, c.table, svc.historyTableUp).calls,
                  TemplateBranch(c.payload, svc.template).calls, t0, svc);
  }

  /** The invariant after Prepare, from the shape of what it appended. */
  lemma PrepareExtend(c: Config, c': Config, b0: seq<Call>, b1: seq<Call>, t0: map<string, Json>, svc: Services)
    requires Good(c, t0, svc) && c.stage == Prepare
    requires c'.calls == c.calls + (b0 + b1) && c'.table == c.table
    requires c'.stage == Flatten || c'.stage.Failed?
    requires b0 == [] || (|b0| == 1 && b0[0].DynamoGetItem?)
    requires b1 == [] || b1 == [SsmGetParameter(PromptTemplateName)]
    ensures Good(c', t0, svc)
  {
    PrepareBlock(b0, b1);
    var added := b0 + b1;
    assert |c.calls| == 0 || Phase(c.calls[0]) < Entry(Prepare);
    assert c.calls == [];
    forall k | 0 <= k < 5 ensures Tally(c.calls, k) + Tally(added, k) <= Cap(k, c'.stage) {
      assert Tally(c.calls, k) == 0;
      assert Tally(added, k) <= (if k <= 1 then 1 else 0);
    }
    Extend(c, c', added, t0, svc);
  }

  /** Flatten makes no call and leaves the table alone. */
  lemma FlattenKeeps(c: Config, t0: map<string, Json>, svc: Services)
    requires Good(c, t0, svc) && c.stage == Flatten
    ensures Good(FlattenStep(c), t0, svc)
  {
    var c' := FlattenStep(c);
    assert c'.calls == c.calls + [];
    assert c'.calls == c.calls;
  }

  /** Invoke Model appends at most one model call, and reaches Parallel only once the model answered it. */
  lemma InvokeModelFacts(c: Config, svc: Services)
    ensures var c' := InvokeModelStep(c, svc);
            && c'.table == c.table
            && (c'.stage == Parallel || c'.stage.Failed?)
            && (c'.calls == c.calls ==> c'.stage.Failed?)
            && (c'.calls != c.calls ==>
                  exists p :: c'.calls == c.calls + [BedrockInvoke(p)] &&
                              (c'.stage == Parallel ==> svc.model(p).Some?))
  {
    match Prompt(c.payload)
    case Err(e) =>
      assert InvokeModelStep(c, svc).calls == c.calls + [];
    case Ok(p) =>
      assert InvokeModelStep(c, svc).calls == c.calls + [BedrockInvoke(p)];
  }

  /** Invoke Model calls the model at most once, and reaches Parallel only with the model's answer. */
  lemma InvokeModelKeeps(c: Config, t0: map<string, Json>, svc: Services)
    requires Good(c, t0, svc) && c.stage == InvokeModel
    ensures Good(InvokeModelStep(c, svc), t0, svc)
  {
    var c' := InvokeModelStep(c, svc);
    InvokeModelFacts(c, svc);
    assert c.table == t0 && !Effects(c.calls);
    if c'.calls == c.calls {
      forall k | 0 <= k < 5 ensures Tally(c.calls, k) + Tally([], k) <= Cap(k, c'.stage) {
        TallyBelowEntry(c, t0, svc, k);
      }
      assert c'.calls == c.calls + [];
      Extend(c, c', [], t0, svc);
    } else {
      var p :| c'.calls == c.calls + [BedrockInvoke(p)] && (c'.stage == Parallel ==> svc.model(p).Some?);
      var added := [BedrockInvoke(p)];
      forall k | 0 <= k < 5 ensures Tally(c.calls, k) + Tally(added, k) <= Cap(k, c'.stage) {
        TallyBelowEntry(c, t0, svc, k);
        TallySingle(BedrockInvoke(p), k);
      }
      assert BedrockInvoke(p) in c'.calls;
      assert !Effects(c'.calls) by {
        forall call | call in c'.calls ensures !(call.LineReply? || call.DynamoPutItem?) {
          if call !in c.calls {
            assert call in added;
          }
        }
      }
      Extend(c, c', added, t0, svc);
    }
  }

  /** The calls the Parallel state appends: the reply attempts, then the write. */
  lemma ParallelFacts(c: Config, svc: Services)
    ensures var c' := ParallelStep(c, svc);
            var b0 := ReplyBranch(c.payload, svc.reply);
            var b1 := SaveBranch(c.payload, c.table, svc.save).0;
            && c'.calls == c.calls + (b0.calls + b1.calls)
            && (c'.stage == Succeeded || c'.stage.Failed?)
            && (forall i | 0 <= i < |b0.calls| :: b0.calls[i].LineReply?)
            && |b0.calls| <= MaxAttempts + 1
            && (b1.calls == [] || (|b1.calls| == 1 && b1.calls[0].DynamoPutItem?))
            && (c'.stage == Succeeded ==> b0.calls != [] && b1.calls != [])
  {
    var b0 := ReplyBranch(c.payload, svc.reply);
    var b1 := SaveBranch(c.payload, c.table, svc.save).0;
    ReplyBranchFacts(c.payload, svc.reply);
    SaveBranchFacts(c.payload, c.table, svc.save);
    ParallelJoin(c, svc, b0.result, b1.result);
  }

  /** Send LINE Response makes only reply calls, at most one per allowed attempt, and at least one when it succeeds. */
  lemma ReplyBranchFacts(s: Json, reply: nat -> Option<Json>)
    ensures var b0 := ReplyBranch(s, reply);
            && (forall i | 0 <= i < |b0.calls| :: b0.calls[i].LineReply?)
            && |b0.calls| <= MaxAttempts + 1
            && (b0.result.Ok? ==> b0.calls != [])
  {
  }

  /** Save History makes at most one PutItem, and exactly one when it succeeds. */
  lemma SaveBranchFacts(s: Json, table: map<string, Json>, save: Option<Json>)
    ensures var b1 := SaveBranch(s, table, save).0;
            && (b1.calls == [] || (|b1.calls| == 1 && b1.calls[0].DynamoPutItem?))
            && (b1.result.Ok? ==> b1.calls != [])
  {
  }

  /** Reply attempts followed by at most one write are all Parallel calls. */
  lemma ParallelBlockPhase(b0: seq<Call>, b1: seq<Call>)
    requires forall i | 0 <= i < |b0| :: b0[i].LineReply?
    requires b1 == [] || (|b1| == 1 && b1[0].DynamoPutItem?)
    ensures InOrder(b0 + b1)
    ensures forall i | 0 <= i < |b0 + b1| :: Phase((b0 + b1)[i]) == 2
  {
    forall i | 0 <= i < |b0 + b1| ensures Phase((b0 + b1)[i]) == 2 {
      if i < |b0| {
        assert (b0 + b1)[i] == b0[i];
      } else {
        assert (b0 + b1)[i] == b1[i - |b0|];
      }
    }
  }

  /** Reply attempts followed by at most one write stay within the Parallel caps. */
  lemma ParallelBlockTally(b0: seq<Call>, b1: seq<Call>, k: nat)
    requires forall i | 0 <= i < |b0| :: b0[i].LineReply?
    requires |b0| <= MaxAttempts + 1
    requires b1 == [] || (|b1| == 1 && b1[0].DynamoPutItem?)
    ensures Tally(b0 + b1, k) <= (if k >= 3 then Limit(k) else 0)
  {
    TallyAppend(b0, b1, k);
    TallyReplies(b0, k);
    if b1 != [] {
      TallySingle(b1[0], k);
      assert b1 == [b1[0]];
    }
  }

  lemma ParallelTally(c: Config, st: Stage, b0: seq<Call>, b1: seq<Call>, t0: map<string, Json>, svc: Services, k: nat)
    requires Good(c, t0, svc) && c.stage == Parallel && Terminal(st) && 0 <= k < 5
    requires forall i | 0 <= i < |b0| :: b0[i].LineReply?
    requires |b0| <= MaxAttempts + 1
    requires b1 == [] || (|b1| == 1 && b1[0].DynamoPutItem?)
    ensures Tally(c.calls, k) + Tally(b0 + b1, k) <= Cap(k, st)
  {
    TallyBelowEntry(c, t0, svc, k);
    ParallelBlockTally(b0, b1, k);
  }

  /** An answer from the model stays among the calls as more are made. */
  lemma ModelAnsweredGrows(a: seq<Call>, added: seq<Call>, svc: Services)
    requires ModelAnswered(a, svc)
    ensures ModelAnswered(a + added, svc)
  {
    var call :| call in a && call.BedrockInvoke? && svc.model(call.prompt).Some?;
    assert call in a + added;
  }

  /** After a reply attempt and a write, both kinds have been made. */
  lemma MadeBoth(a: seq<Call>, b0: seq<Call>, b1: seq<Call>)
    requires b0 != [] && b0[0].LineReply? && b1 != [] && b1[0].DynamoPutItem?
    ensures Made(a + (b0 + b1), 3) && Made(a + (b0 + b1), 4)
  {
    var all := a + (b0 + b1);
    assert all[|a|] == b0[0] && all[|a| + |b0|] == b1[0];
    assert b0[0] in all && Kind(b0[0]) == 3;
    assert b1[0] in all && Kind(b1[0]) == 4;
  }

  /** The invariant after Parallel, from the shape of what it appended. */
  lemma ParallelExtend(c: Config, c': Config, b0: seq<Call>, b1: seq<Call>, t0: map<string, Json>, svc: Services)
    requires Good(c, t0, svc) && c.stage == Parallel
    requires c'.calls == c.calls + (b0 + b1)
    requires c'.stage == Succeeded || c'.stage.Failed?
    requires forall i | 0 <= i < |b0| :: b0[i].LineReply?
    requires |b0| <= MaxAttempts + 1
    requires b1 == [] || (|b1| == 1 && b1[0].DynamoPutItem?)
    requires c'.stage == Succeeded ==> b0 != [] && b1 != []
    ensures Good(c', t0, svc)
  {
    ParallelBlockPhase(b0, b1);
    var added := b0 + b1;
    forall k | 0 <= k < 5 ensures Tally(c.calls, k) + Tally(added, k) <= Cap(k, c'.stage) {
      ParallelTally(c, c'.stage, b0, b1, t0, svc, k);
    }
    ModelAnsweredGrows(c.calls, added, svc);
    if c'.stage == Succeeded {
      MadeBoth(c.calls, b0, b1);
    }
    Extend(c, c', added, t0, svc);
  }

  /** Parallel replies at most once per attempt and writes at most once; success means both happened. */
  lemma ParallelKeeps(c: Config, t0: map<string, Json>, svc: Services)
    requires Good(c, t0, svc) && c.stage == Parallel
    ensures Good(ParallelStep(c, svc), t0, svc)
  {
    ParallelFacts(c, svc);
    ParallelExtend(c, ParallelStep(c, svc), ReplyBranch(c.payload, svc.reply).calls,
                   SaveBranch(c.payload, c.table, svc.save).0.calls, t0, svc);
  }

  /** Every transition keeps the invariant. */
  lemma TransitionKeeps(c: Config, t0: map<string, Json>, svc: Services)
    requires Good(c, t0, svc) && !Terminal(c.stage)
    ensures Good(Transition(c, svc), t0, svc)
  {
    match c.stage
    case Prepare => PrepareKeeps(c, t0, svc);
    case Flatten => FlattenKeeps(c, t0, svc);
    case InvokeModel => InvokeModelKeeps(c, t0, svc);
    case Parallel => ParallelKeeps(c, t0, svc);
  }

  /** A whole execution keeps the invariant and ends in a terminal stage. */
  lemma {:induction false} ExecuteKeeps(c: Config, t0: map<string, Json>, svc: Services)
    requires Good(c, t0, svc)
    ensures Good(Execute(c, svc), t0, svc) && Terminal(Execute(c, svc).stage)
    decreases Rank(c.stage)
  {
    if !Terminal(c.stage) {
      TransitionKeeps(c, t0, svc);
      ExecuteKeeps(Transition(c, svc), t0, svc);
    }
  }

  /**
   * Every execution from the start: its calls come phase by phase; GetItem,
   * GetParameter, the model and PutItem are each called at most once and the
   * reply at most MaxAttempts + 1 times; the reply, the write and any change to
   * the table happen only after the model answered; and a successful execution
   * both replied and saved.
   */
  lemma ExecutionSafety(input: Json, t0: map<string, Json>, svc: Services)
    ensures var e := Execute(Start(input, t0), svc);
            && Terminal(e.stage)
            && InOrder(e.calls)
            && (forall k | 0 <= k < 5 :: Tally(e.calls, k) <= Limit(k))
            && ((Effects(e.calls) || e.table != t0 || e.stage == Succeeded) ==> ModelAnswered(e.calls, svc))
            && (e.stage == Succeeded ==> Made(e.calls, 3) && Made(e.calls, 4))
  {
    var s := Start(input, t0);
    StartGood(input, t0, svc);
    ExecuteKeeps(s, t0, svc);
    TerminalGood(Execute(s, svc), t0, svc);
  }

  /** An execution starts with the invariant: no call made yet. */
  lemma StartGood(input: Json, t0: map<string, Json>, svc: Services)
    ensures Good(Start(input, t0), t0, svc)
  {
    var s := Start(input, t0);
    forall k | 0 <= k < 5 ensures Tally(s.calls, k) == 0 {
    }
  }

  /** What the invariant says once the execution is over: every kind within its limit. */
  lemma TerminalGood(e: Config, t0: map<string, Json>, svc: Services)
    requires Good(e, t0, svc) && Terminal(e.stage)
    ensures InOrder(e.calls)
    ensures forall k | 0 <= k < 5 :: Tally(e.calls, k) <= Limit(k)
    ensures (Effects(e.calls) || e.table != t0 || e.stage == Succeeded) ==> ModelAnswered(e.calls, svc)
    ensures e.stage == Succeeded ==> Made(e.calls, 3) && Made(e.calls, 4)
  {
    forall k | 0 <= k < 5 ensures Tally(e.calls, k) <= Limit(k) {
      assert KindPhase(k) < Entry(e.stage);
    }
  }

  /**
   * No Catch: when the model never answers (Prepare failed before it was
   * called, or the invocation failed), the execution fails without replying
   * and without touching the history table.
   */
  lemma NoAnswerNoEffects(input: Json, t0: map<string, Json>, svc: Services)
    requires !ModelAnswered(Execute(Start(input, t0), svc).calls, svc)
    ensures var e := Execute(Start(input, t0), svc);
            e.stage.Failed? && !Effects(e.calls) && e.table == t0
  {
    ExecutionSafety(input, t0, svc);
  }
}

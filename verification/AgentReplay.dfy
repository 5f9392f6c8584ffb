/** Calls that are delivered again: when they change nothing, and what they can add when they do. */
module AgentReplay {
  import opened AgentGraph
  import opened AgentRuns
  import Evidence
  import opened Wrappers

  // ----- Each attempt is executed at most once -----

  /** The attempt of the newest execution, or 0. */
  function LastExecution(trace: seq<Effect>): nat {
    if trace == [] then 0
    else match trace[|trace| - 1]
      case Executed(attempt, _, _) => attempt
      case _ => LastExecution(trace[..|trace| - 1])
  }

  /** What may run next belongs to the newest draft, and that draft has not been run. */
  lemma {:induction false} LicenceIsUnused(cfg: Config, trace: seq<Effect>)
    requires TraceOk(cfg, trace)
    ensures LastExecution(trace) <= Drafts(trace)
    ensures Licence(trace).Some? ==> Licence(trace).value.0 == Drafts(trace) > LastExecution(trace)
    ensures PendingQuery(trace).Some? ==> PendingQuery(trace).value.0 == Drafts(trace) > LastExecution(trace)
    ensures trace != [] && trace[|trace| - 1].Generated? ==>
      trace[|trace| - 1].attempt == Drafts(trace) > LastExecution(trace)
  {
    if trace != [] {
      LicenceIsUnused(cfg, trace[..|trace| - 1]);
    }
  }

  lemma {:induction false} LastExecutionIsNewest(cfg: Config, trace: seq<Effect>, i: nat)
    requires TraceOk(cfg, trace) && i < |trace| && trace[i].Executed?
    ensures trace[i].attempt <= LastExecution(trace)
  {
    var before := trace[..|trace| - 1];
    if i < |before| {
      LastExecutionIsNewest(cfg, before, i);
      LicenceIsUnused(cfg, before);
    }
  }

  /** The attempts of the executions climb, so no attempt is executed twice; and each execution is
      licensed by the one effect before it, so no verdict and no decision licenses two. */
  lemma ExecutionsClimb(cfg: Config, calls: seq<Call>, i: nat, j: nat)
    requires var trace := AfterCalls(cfg, NO_RUN, calls).trace;
      i < j < |trace| && trace[i].Executed? && trace[j].Executed?
    ensures var trace := AfterCalls(cfg, NO_RUN, calls).trace;
      && trace[i].attempt < trace[j].attempt
      && (match trace[j - 1]
          case Judged(attempt, _, _, query, _, risk) =>
            attempt == trace[j].attempt && query == trace[j].query && risk == Safe
          case Decided(attempt, decision) => attempt == trace[j].attempt && decision == Approved
          case _ => false)
  {
    var trace := AfterCalls(cfg, NO_RUN, calls).trace;
    TraceOkAt(cfg, trace, j);
    assert trace[..j][j - 1] == trace[j - 1] && trace[..j][i] == trace[i];
    LastExecutionIsNewest(cfg, trace[..j], i);
    LicenceIsUnused(cfg, trace[..j]);
  }

  // ----- When a call changes nothing -----

  function Resumed(c: Checkpoint, decision: Decision): Checkpoint
    requires c.mode.Interrupted?
  {
    c.(mode := Resuming(decision, c.mode.kept))
  }

  /** The resumed pause fails before the pending approval is announced again, and stays. */
  predicate NothingDone(input: Input) {
    input.reply != ApprovalRecorded && input.reply != ApprovalUnrecorded && input.stillInterrupted
  }

  /** The resumed pause fails anywhere, and stays. */
  predicate StaysPaused(input: Input) {
    input.stillInterrupted && (input.reply == ApprovalRecorded ==> input.recordFails)
  }

  /** What the pause itself makes of a resume. */
  lemma ResumeStep(cfg: Config, run: Run, tenant: nat, decision: Decision, world: World) returns (next: Run)
    requires RunOk(cfg, run) && CanResume(run, tenant)
    ensures var (c, effects) := ApprovalNode(cfg, Resumed(run.checkpoint.value, decision), world(0));
      next == Run(Some(c), run.trace + effects)
    ensures RunOk(cfg, next) && AfterCall(cfg, run, Resume(tenant, decision, world)) == Settle(cfg, next, world, 1)
    ensures next.trace <= AfterCall(cfg, run, Resume(tenant, decision, world)).trace
  {
    var resumed := BeginResume(run, tenant, decision);
    BeginResumeKeeps(cfg, run, tenant, decision);
    SettleStep(cfg, resumed, world, 0);
    next := Advance(cfg, resumed, world(0));
  }

  /** Only a pending approval that could not be announced again leaves a resumed run as it was. */
  lemma ResumeChangesNothingIff(cfg: Config, run: Run, tenant: nat, decision: Decision, world: World)
    requires RunOk(cfg, run) && (run.checkpoint.Some? ==> Settled(run.checkpoint.value))
    ensures AfterCall(cfg, run, Resume(tenant, decision, world)) == run
       <==> !CanResume(run, tenant) || NothingDone(world(0))
  {
    if CanResume(run, tenant) {
      var next := ResumeStep(cfg, run, tenant, decision, world);
      if world(0).reply == ApprovalRecorded || world(0).reply == ApprovalUnrecorded {
        assert |next.trace| > |run.trace|;
      } else {
        assert next.trace == run.trace + [] == run.trace;
      }
    }
  }

  /** A start changes nothing exactly when the run has been started before. */
  lemma StartChangesNothingIff(cfg: Config, run: Run, request: Request, world: World)
    requires RunOk(cfg, run) && (run.checkpoint.Some? ==> Settled(run.checkpoint.value))
    ensures AfterCall(cfg, run, Start(request, world)) == run <==> run.checkpoint.Some?
  {
    if run.checkpoint.None? {
      BeginKeeps(cfg, run, request);
      CheckpointStays(cfg, Begin(run, request), world, 0);
    }
  }

  /** Exactly which calls change nothing, in every reachable state. */
  lemma ChangesNothingIff(cfg: Config, calls: seq<Call>, call: Call)
    ensures var run := AfterCalls(cfg, NO_RUN, calls);
      AfterCall(cfg, run, call) == run <==>
        match call
        case Start(_, _) => run.checkpoint.Some?
        case Resume(tenant, _, world) => !CanResume(run, tenant) || NothingDone(world(0))
  {
    var run := AfterCalls(cfg, NO_RUN, calls);
    CallsSettle(cfg, NO_RUN, calls);
    match call
    case Start(request, world) => StartChangesNothingIff(cfg, run, request, world);
    case Resume(tenant, decision, world) => ResumeChangesNothingIff(cfg, run, tenant, decision, world);
  }

  lemma {:induction false} CheckpointStays(cfg: Config, run: Run, world: World, from: nat)
    requires RunOk(cfg, run) && run.checkpoint.Some?
    ensures Settle(cfg, run, world, from).checkpoint.Some?
    ensures Settle(cfg, run, world, from).checkpoint.value.state.request == run.checkpoint.value.state.request
    decreases Fuel(cfg, run.checkpoint.value)
  {
    if !Settled(run.checkpoint.value) {
      SettleStep(cfg, run, world, from);
      CheckpointStays(cfg, Advance(cfg, run, world(from)), world, from + 1);
    }
  }

  /** The same call again, with whatever the world answers this time. */
  function Again(call: Call, world: World): Call {
    match call
    case Start(request, _) => Start(request, world)
    case Resume(tenant, decision, _) => Resume(tenant, decision, world)
  }

  /** Is the run waiting for an approval, as the status reported of it says? */
  predicate ReportsWaiting(run: Run) {
    run.checkpoint.Some? && StatusOf(run.checkpoint.value) == WAITING_APPROVAL
  }

  /** Delivering a call a second time changes nothing, except that a resume after which the run was
      reported waiting is taken as a decision on what it waits for now. */
  lemma ReplayAddsNothingIff(cfg: Config, calls: seq<Call>, call: Call, world: World)
    ensures var first := AfterCall(cfg, AfterCalls(cfg, NO_RUN, calls), call);
      AfterCall(cfg, first, Again(call, world)) == first <==>
        || call.Start?
        || !ReportsWaiting(first)
        || first.checkpoint.value.state.request.tenant != call.tenant
        || NothingDone(world(0))
  {
    var run := AfterCalls(cfg, NO_RUN, calls);
    CallsSettle(cfg, NO_RUN, calls);
    var first := AfterCall(cfg, run, call);
    match call
    case Start(request, w) =>
      BeginKeeps(cfg, run, request);
      CheckpointStays(cfg, Begin(run, request), w, 0);
      StartChangesNothingIff(cfg, first, request, world);
    case Resume(tenant, decision, w) =>
      ResumeChangesNothingIff(cfg, first, tenant, decision, world);
  }

  // ----- What a second resume can add -----

  /** Past the pause of attempt `a`: anywhere behind it, or at a later attempt. */
  predicate IsPast(c: Checkpoint, a: nat) {
    || c.state.attempts > a
    || (c.state.attempts == a && c.mode in {Running, Errored}
        && c.next in {ExecuteSql, Verify, Compose, Finish, GenerateSql})
    || (c.state.attempts == a && c.mode == Errored)
  }

  lemma PastStays(cfg: Config, c: Checkpoint, a: nat, input: Input)
    requires !Settled(c) && IsPast(c, a)
    ensures IsPast(StepNode(cfg, c, input).0, a)
  {
  }

  lemma PastThePause(cfg: Config, c: Checkpoint, decision: Decision, input: Input)
    requires c.next == RequestApproval && c.mode.Interrupted? && !StaysPaused(input)
    ensures IsPast(ApprovalNode(cfg, Resumed(c, decision), input).0, c.state.attempts)
  {
  }

  lemma WaitingPastIsLater(c: Checkpoint, a: nat)
    requires IsPast(c, a) && StatusOf(c) == WAITING_APPROVAL
    ensures c.state.attempts > a
  {
  }

  lemma {:induction false} SettlesPast(cfg: Config, run: Run, world: World, from: nat, a: nat)
    requires RunOk(cfg, run) && run.checkpoint.Some? && IsPast(run.checkpoint.value, a)
    ensures var settled := Settle(cfg, run, world, from);
      settled.checkpoint.Some? && IsPast(settled.checkpoint.value, a)
    decreases Fuel(cfg, run.checkpoint.value)
  {
    if !Settled(run.checkpoint.value) {
      SettleStep(cfg, run, world, from);
      PastStays(cfg, run.checkpoint.value, a, world(from));
      SettlesPast(cfg, Advance(cfg, run, world(from)), world, from + 1, a);
    }
  }

  /** The pause after a resume in which it failed and stayed: nothing done, asked only, or asked and
      decided, and then the decision is kept or not. */
  ghost predicate SamePause(cfg: Config, run: Run, decision: Decision, after: Run)
    requires run.checkpoint.Some? && run.checkpoint.value.mode.Interrupted?
  {
    var c := run.checkpoint.value;
    var a, taken := c.state.attempts, Taken(decision, c.mode.kept);
    || after == run
    || after == run.(trace := run.trace + [Asked(a)])
    || after == Run(Some(c.(mode := Interrupted(if cfg.keepsDecision then Some(taken) else None))),
                    run.trace + [Asked(a), Decided(a, taken)])
  }

  lemma PauseStays(cfg: Config, run: Run, decision: Decision, input: Input)
    requires run.checkpoint.Some? && run.checkpoint.value.mode.Interrupted? && StaysPaused(input)
    ensures var (c, effects) := ApprovalNode(cfg, Resumed(run.checkpoint.value, decision), input);
      c.mode.Interrupted? && SamePause(cfg, run, decision, Run(Some(c), run.trace + effects))
  {
    assert run.trace + [] == run.trace;
  }

  /** A run that is waiting again after a resume either stands in the same pause, because the pause failed
      and stayed, or waits for the query of a later attempt. */
  lemma ResumeMovesOn(cfg: Config, run: Run, tenant: nat, decision: Decision, world: World)
    requires RunOk(cfg, run) && CanResume(run, tenant)
    ensures var after := AfterCall(cfg, run, Resume(tenant, decision, world));
      && (StaysPaused(world(0)) ==> ReportsWaiting(after) && SamePause(cfg, run, decision, after))
      && (!StaysPaused(world(0)) && ReportsWaiting(after) ==>
            after.checkpoint.value.state.attempts > run.checkpoint.value.state.attempts)
  {
    var next := ResumeStep(cfg, run, tenant, decision, world);
    if StaysPaused(world(0)) {
      PauseStays(cfg, run, decision, world(0));
    } else {
      var a := run.checkpoint.value.state.attempts;
      PastThePause(cfg, run.checkpoint.value, decision, world(0));
      SettlesPast(cfg, next, world, 1, a);
      var after := Settle(cfg, next, world, 1);
      if ReportsWaiting(after) {
        WaitingPastIsLater(after.checkpoint.value, a);
      }
    }
  }

  function At(state: State, next: Node, mode: Mode, trace: seq<Effect>): Run {
    Run(Some(Checkpoint(state, next, mode)), trace)
  }

  function Ready(reply: Reply): Input {
    Input(reply, false, false)
  }

  // ----- A resume delivered twice can approve a query nobody was asked about the first time -----

  function AdvanceAll(cfg: Config, run: Run, inputs: seq<Input>): Run
    decreases |inputs|
  {
    if inputs == [] then run
    else Advance(cfg, AdvanceAll(cfg, run, inputs[..|inputs| - 1]), inputs[|inputs| - 1])
  }

  function Script(inputs: seq<Input>): World
    requires inputs != []
  {
    (n: nat) => if n < |inputs| then inputs[n] else inputs[|inputs| - 1]
  }

  /** `run` settles in `world` like `next` does, `n` inputs later. */
  ghost predicate SettlesAs(cfg: Config, run: Run, world: World, from: nat, next: Run, n: nat)
    requires RunOk(cfg, run)
  {
    RunOk(cfg, next) && next.checkpoint.Some? && Settle(cfg, run, world, from) == Settle(cfg, next, world, from + n)
  }

  lemma SettlesOneMore(cfg: Config, run: Run, world: World, from: nat, next: Run, n: nat, input: Input, after: Run)
    requires RunOk(cfg, run) && SettlesAs(cfg, run, world, from, next, n)
    requires world(from + n) == input && after == Advance(cfg, next, input)
    ensures SettlesAs(cfg, run, world, from, after, n + 1)
  {
    if !Settled(next.checkpoint.value) {
      SettleStep(cfg, next, world, from + n);
    }
  }

  /** A segment begins with the inputs it is given. */
  lemma {:induction false} SettleBegins(cfg: Config, run: Run, world: World, from: nat, inputs: seq<Input>)
    requires RunOk(cfg, run) && run.checkpoint.Some?
    requires forall n: nat :: from <= n < from + |inputs| ==> world(n) == inputs[n - from]
    ensures SettlesAs(cfg, run, world, from, AdvanceAll(cfg, run, inputs), |inputs|)
    decreases |inputs|
  {
    if inputs != [] {
      var last := |inputs| - 1;
      SettleBegins(cfg, run, world, from, inputs[..last]);
      SettlesOneMore(cfg, run, world, from, AdvanceAll(cfg, run, inputs[..last]), last, inputs[last],
                     AdvanceAll(cfg, run, inputs));
    }
  }

  lemma AdvanceThree(cfg: Config, run: Run, a: Input, b: Input, c: Input)
    ensures AdvanceAll(cfg, run, [a, b, c]) == Advance(cfg, Advance(cfg, Advance(cfg, run, a), b), c)
  {
    assert [a, b, c][..2] == [a, b] && [a, b][..1] == [a] && [a][..0] == [];
    assert AdvanceAll(cfg, run, [a]) == Advance(cfg, run, a);
    assert AdvanceAll(cfg, run, [a, b]) == Advance(cfg, Advance(cfg, run, a), b);
  }

  lemma {:induction false} AdvanceInTwo(cfg: Config, run: Run, first: seq<Input>, second: seq<Input>)
    ensures AdvanceAll(cfg, run, first + second) == AdvanceAll(cfg, AdvanceAll(cfg, run, first), second)
    decreases |second|
  {
    if second == [] {
      assert first + second == first;
    } else {
      var front := second[..|second| - 1];
      assert (first + second)[..|first + second| - 1] == first + front;
      AdvanceInTwo(cfg, run, first, front);
    }
  }

  /** A draft that expects the column `c` and reads a controlled one. */
  function DraftInputs(sql: string): seq<Input> {
    [Ready(Drafted(sql, {}, ["c"])), Ready(Estimated(0.0, 0, true)), Ready(ApprovalRecorded)]
  }

  /** An approval, an execution that returns no column at all, and the check of its columns. */
  const MISSING_COLUMNS: seq<Input> := [Ready(ApprovalRecorded), Ready(QueryResult([], [], false)), Ready(Done)]

  function Asking(s: State, sql: string, query: string): State {
    s.(sql := Some(sql), expectedColumns := ["c"], attempts := s.attempts + 1, error := None,
       risk := Some(NeedsApproval), guarded := Some(query))
  }

  /** The verdict on it. */
  function Verdict(s: State, policy: Policy, sql: string, query: string): Effect {
    Judged(s.attempts, sql, policy, query, Facts(0.0, 0, true, Confidence(s)), NeedsApproval)
  }

  const NO_COLUMNS: Option<Table> := Some(Table([], [], false))

  function AskingEffects(s: State, policy: Policy, sql: string, query: string): seq<Effect> {
    var a := s.attempts + 1;
    [Generated(a, sql), Verdict(Asking(s, sql, query), policy, sql, query), Asked(a)]
  }

  lemma DraftIsMade(cfg: Config, s: State, sql: string, trace: seq<Effect>)
    requires s.policy.Some?
    ensures Advance(cfg, At(s, GenerateSql, Running, trace), Ready(Drafted(sql, {}, ["c"])))
         == At(s.(sql := Some(sql), expectedColumns := ["c"], attempts := s.attempts + 1, error := None), GuardSql,
               Running, trace + [Generated(s.attempts + 1, sql)])
  {
  }

  lemma DraftIsRisky(cfg: Config, s: State, policy: Policy, sql: string, query: string, trace: seq<Effect>)
    requires s.policy == Some(policy) && s.sql == Some(sql) && cfg.guard(sql, policy) == Accepted(query)
    ensures Advance(cfg, At(s, GuardSql, Running, trace), Ready(Estimated(0.0, 0, true)))
         == At(s.(risk := Some(NeedsApproval), guarded := Some(query), error := None), RequestApproval, Running,
               trace + [Verdict(s, policy, sql, query)])
  {
  }

  /** A run about to draft stops for an approval of its draft. */
  lemma DraftPauses(cfg: Config, s: State, policy: Policy, sql: string, query: string, trace: seq<Effect>)
    requires s.policy == Some(policy) && cfg.guard(sql, policy) == Accepted(query)
    ensures AdvanceAll(cfg, At(s, GenerateSql, Running, trace), DraftInputs(sql))
         == At(Asking(s, sql, query), RequestApproval, Interrupted(None), trace + AskingEffects(s, policy, sql, query))
  {
    var inputs := DraftInputs(sql);
    var effects := AskingEffects(s, policy, sql, query);
    var drafted := s.(sql := Some(sql), expectedColumns := ["c"], attempts := s.attempts + 1, error := None);
    var asking := Asking(s, sql, query);
    AdvanceThree(cfg, At(s, GenerateSql, Running, trace), inputs[0], inputs[1], inputs[2]);
    DraftIsMade(cfg, s, sql, trace);
    DraftIsRisky(cfg, drafted, policy, sql, query, trace + [effects[0]]);
    assert Advance(cfg, At(drafted, GuardSql, Running, trace + [effects[0]]), inputs[1])
        == At(asking, RequestApproval, Running, trace + [effects[0]] + [effects[1]]);
    assert trace + [effects[0]] + [effects[1]] + [effects[2]] == trace + effects;
  }

  function Ran(s: State): State {
    s.(approval := Some(Approved), columns := [], rows := [], truncated := false, error := None)
  }

  function RunEffects(s: State, query: string): seq<Effect> {
    [Asked(s.attempts), Decided(s.attempts, Approved), Executed(s.attempts, query, NO_COLUMNS)]
  }

  /** An approved query is executed. */
  lemma ApprovedRuns(cfg: Config, s: State, query: string, trace: seq<Effect>)
    requires s.guarded == Some(query)
    ensures Advance(cfg, Advance(cfg, At(s, RequestApproval, Resuming(Approved, None), trace), MISSING_COLUMNS[0]),
                    MISSING_COLUMNS[1])
         == At(Ran(s), Verify, Running, trace + RunEffects(s, query))
  {
    var a := s.attempts;
    var approved := s.(approval := Some(Approved), error := None);
    assert [Asked(a)] + [Decided(a, Approved)] == [Asked(a), Decided(a, Approved)];
    assert Advance(cfg, At(s, RequestApproval, Resuming(Approved, None), trace), MISSING_COLUMNS[0])
        == At(approved, ExecuteSql, Running, trace + [Asked(a), Decided(a, Approved)]);
    assert trace + [Asked(a), Decided(a, Approved)] + [Executed(a, query, NO_COLUMNS)] == trace + RunEffects(s, query);
  }

  /** If it misses a column it is drafted again while attempts remain. */
  lemma MissedColumnRedrafts(cfg: Config, s: State, query: string, trace: seq<Effect>)
    requires s.guarded == Some(query) && s.expectedColumns == ["c"] && s.attempts < MaxAttempts(cfg)
    ensures AdvanceAll(cfg, At(s, RequestApproval, Resuming(Approved, None), trace), MISSING_COLUMNS)
         == At(Ran(s).(error := Some(ColumnsMismatch)), GenerateSql, Running, trace + RunEffects(s, query))
  {
    AdvanceThree(cfg, At(s, RequestApproval, Resuming(Approved, None), trace),
                 MISSING_COLUMNS[0], MISSING_COLUMNS[1], MISSING_COLUMNS[2]);
    ApprovedRuns(cfg, s, query, trace);
    assert "c" in s.expectedColumns && "c" !in Ran(s).columns;
    assert trace + RunEffects(s, query) + [] == trace + RunEffects(s, query);
  }

  function PlanningInputs(policy: Policy, table: string): seq<Input> {
    [Ready(QuestionClassified(DataIntent)), Ready(Retrieved([])),
     Ready(Selected(policy, Tables([table], 1.0), Malformed))]
  }

  function Planned(request: Request, policy: Policy, table: string): State {
    InitialState(request).(intent := Some(DataIntent), tables := [table], confidence := Some(1.0),
                           policy := Some(RestrictTo(policy, [table])))
  }

  /** A data question with a usable table gets as far as its first draft. */
  lemma StartPlans(cfg: Config, request: Request, policy: Policy, table: string)
    requires table in policy.tables
    ensures AdvanceAll(cfg, Begin(NO_RUN, request), PlanningInputs(policy, table))
         == At(Planned(request, policy, table), GenerateSql, Running, [])
  {
    var inputs := PlanningInputs(policy, table);
    var s := InitialState(request).(intent := Some(DataIntent));
    var hits: seq<Evidence.Hit> := [];
    AdvanceThree(cfg, Begin(NO_RUN, request), inputs[0], inputs[1], inputs[2]);
    var none: seq<Effect> := [];
    assert none + [] == none;
    assert Advance(cfg, Begin(NO_RUN, request), inputs[0]) == At(s, RetrieveMetrics, Running, []);
    assert seq(|hits|, i requires 0 <= i < |hits| => hits[i].content) == [];
    assert seq(|hits|, i requires 0 <= i < |hits| => hits[i].citation) == [];
    assert Advance(cfg, At(s, RetrieveMetrics, Running, []), inputs[1]) == At(s, SelectSchema, Running, []);
  }

  /** The first pause, with the same call after it that is delivered twice. */
  function FirstPause(request: Request, policy: Policy, table: string, sql: string, query: string): Run {
    var s := Planned(request, policy, table);
    At(Asking(s, sql, query), RequestApproval, Interrupted(None),
       AskingEffects(s, RestrictTo(policy, [table]), sql, query))
  }

  function SecondInputs(sql: string): seq<Input> {
    MISSING_COLUMNS + DraftInputs(sql)
  }

  /** The pause after the first delivery. */
  function SecondPause(first: Run, policy: Policy, query: string, nextSql: string, nextQuery: string): Run
    requires first.checkpoint.Some?
  {
    var s := Ran(first.checkpoint.value.state).(error := Some(ColumnsMismatch));
    At(Asking(s, nextSql, nextQuery), RequestApproval, Interrupted(None),
       first.trace + RunEffects(first.checkpoint.value.state, query) + AskingEffects(s, policy, nextSql, nextQuery))
  }

  lemma StartPauses(cfg: Config, request: Request, policy: Policy, table: string, sql: string, query: string)
    requires table in policy.tables && cfg.guard(sql, RestrictTo(policy, [table])) == Accepted(query)
    ensures AdvanceAll(cfg, Begin(NO_RUN, request), PlanningInputs(policy, table) + DraftInputs(sql))
         == FirstPause(request, policy, table, sql, query)
  {
    var s, restricted := Planned(request, policy, table), RestrictTo(policy, [table]);
    StartPlans(cfg, request, policy, table);
    DraftPauses(cfg, s, restricted, sql, query, []);
    AdvanceInTwo(cfg, Begin(NO_RUN, request), PlanningInputs(policy, table), DraftInputs(sql));
    assert [] + AskingEffects(s, restricted, sql, query) == AskingEffects(s, restricted, sql, query);
  }

  lemma ResumePausesAgain(cfg: Config, first: Run, policy: Policy, query: string, nextSql: string, nextQuery: string)
    requires first.checkpoint.Some? && first.checkpoint.value.next == RequestApproval
    requires first.checkpoint.value.mode == Interrupted(None)
    requires var s := first.checkpoint.value.state;
      && s.guarded == Some(query) && s.expectedColumns == ["c"]
      && s.attempts < MaxAttempts(cfg) && s.policy == Some(policy)
    requires cfg.guard(nextSql, policy) == Accepted(nextQuery)
    ensures var resumed := BeginResume(first, first.checkpoint.value.state.request.tenant, Approved);
      AdvanceAll(cfg, resumed, SecondInputs(nextSql)) == SecondPause(first, policy, query, nextSql, nextQuery)
  {
    var s := first.checkpoint.value.state;
    var resumed := BeginResume(first, s.request.tenant, Approved);
    assert resumed == At(s, RequestApproval, Resuming(Approved, None), first.trace);
    MissedColumnRedrafts(cfg, s, query, first.trace);
    DraftPauses(cfg, Ran(s).(error := Some(ColumnsMismatch)), policy, nextSql, nextQuery,
                first.trace + RunEffects(s, query));
    AdvanceInTwo(cfg, resumed, MISSING_COLUMNS, DraftInputs(nextSql));
  }

  lemma StartCallPauses(cfg: Config, request: Request, policy: Policy, table: string, sql: string, query: string)
    requires table in policy.tables && cfg.guard(sql, RestrictTo(policy, [table])) == Accepted(query)
    ensures var inputs := PlanningInputs(policy, table) + DraftInputs(sql);
      AfterCall(cfg, NO_RUN, Start(request, Script(inputs))) == FirstPause(request, policy, table, sql, query)
  {
    var inputs := PlanningInputs(policy, table) + DraftInputs(sql);
    BeginKeeps(cfg, NO_RUN, request);
    SettleBegins(cfg, Begin(NO_RUN, request), Script(inputs), 0, inputs);
    StartPauses(cfg, request, policy, table, sql, query);
  }

  lemma ResumeCallPausesAgain(cfg: Config, first: Run, policy: Policy, query: string, nextSql: string,
                              nextQuery: string)
    requires RunOk(cfg, first) && first.checkpoint.Some? && first.checkpoint.value.mode == Interrupted(None)
    requires var s := first.checkpoint.value.state;
      && s.guarded == Some(query) && s.expectedColumns == ["c"]
      && s.attempts < MaxAttempts(cfg) && s.policy == Some(policy)
    requires cfg.guard(nextSql, policy) == Accepted(nextQuery)
    ensures var tenant := first.checkpoint.value.state.request.tenant;
      AfterCall(cfg, first, Resume(tenant, Approved, Script(SecondInputs(nextSql))))
      == SecondPause(first, policy, query, nextSql, nextQuery)
  {
    var tenant, inputs := first.checkpoint.value.state.request.tenant, SecondInputs(nextSql);
    BeginResumeKeeps(cfg, first, tenant, Approved);
    SettleBegins(cfg, BeginResume(first, tenant, Approved), Script(inputs), 0, inputs);
    ResumePausesAgain(cfg, first, policy, query, nextSql, nextQuery);
  }

  /** Whatever comes after, an approval that is recorded has its query executed. */
  lemma ResumeCallRuns(cfg: Config, run: Run, query: string, world: World)
    requires RunOk(cfg, run) && run.checkpoint.Some? && run.checkpoint.value.mode == Interrupted(None)
    requires run.checkpoint.value.state.guarded == Some(query)
    requires world(0) == MISSING_COLUMNS[0] && world(1) == MISSING_COLUMNS[1]
    ensures var s := run.checkpoint.value.state;
      run.trace + RunEffects(s, query) <= AfterCall(cfg, run, Resume(s.request.tenant, Approved, world)).trace
  {
    var s := run.checkpoint.value.state;
    var next := ResumeStep(cfg, run, s.request.tenant, Approved, world);
    ApprovedRuns(cfg, s, query, run.trace);
    assert next == Advance(cfg, At(s, RequestApproval, Resuming(Approved, None), run.trace), world(0));
    SettleStep(cfg, next, world, 1);
  }

  /** One resume delivered twice: the first delivery executes the query that was waiting and ends
      waiting for another one; the second executes that one. So a repeated resume does add an
      execution, whenever the guard accepts two statements and one repair is allowed. */
  lemma ResumeTwiceRunsTwo(cfg: Config, request: Request, policy: Policy, table: string, sql: string, query: string,
                           nextSql: string, nextQuery: string)
    returns (calls: seq<Call>, resume: Call)
    requires cfg.maxRepairs >= 1 && table in policy.tables
    requires cfg.guard(sql, RestrictTo(policy, [table])) == Accepted(query)
    requires cfg.guard(nextSql, RestrictTo(policy, [table])) == Accepted(nextQuery)
    ensures resume.Resume? && resume.decision == Approved
    ensures var paused := AfterCalls(cfg, NO_RUN, calls);
      var once := AfterCall(cfg, paused, resume);
      var twice := AfterCall(cfg, once, resume);
      && PendingQuery(paused.trace) == Some((1, query)) && CanResume(paused, resume.tenant)
      && PendingQuery(once.trace) == Some((2, nextQuery)) && CanResume(once, resume.tenant)
      && Executed(1, query, NO_COLUMNS) in once.trace && (forall table :: Executed(2, nextQuery, table) !in once.trace)
      && Executed(2, nextQuery, NO_COLUMNS) in twice.trace
  {
    var restricted := RestrictTo(policy, [table]);
    var first := FirstPause(request, policy, table, sql, query);
    var start := Start(request, Script(PlanningInputs(policy, table) + DraftInputs(sql)));
    calls := [start];
    resume := Resume(request.tenant, Approved, Script(SecondInputs(nextSql)));
    StartCallPauses(cfg, request, policy, table, sql, query);
    assert calls[1..] == [];
    assert AfterCalls(cfg, NO_RUN, calls) == first;
    var second := SecondPause(first, restricted, query, nextSql, nextQuery);
    ResumeCallPausesAgain(cfg, first, restricted, query, nextSql, nextQuery);
    ResumeCallRuns(cfg, second, nextQuery, resume.resumeWorld);
    var s := second.checkpoint.value.state;
    assert RunEffects(s, nextQuery)[2] in second.trace + RunEffects(s, nextQuery);
    PauseTraces(first, restricted, query, nextSql, nextQuery, Planned(request, policy, table), sql);
  }

  lemma PauseTraces(first: Run, policy: Policy, query: string, nextSql: string, nextQuery: string, s: State,
                    sql: string)
    requires s.attempts == 0
    requires first
          == At(Asking(s, sql, query), RequestApproval, Interrupted(None), AskingEffects(s, policy, sql, query))
    ensures PendingQuery(first.trace) == Some((1, query))
    ensures var trace := SecondPause(first, policy, query, nextSql, nextQuery).trace;
      && PendingQuery(trace) == Some((2, nextQuery))
      && Executed(1, query, NO_COLUMNS) in trace && (forall table :: Executed(2, nextQuery, table) !in trace)
  {
    var asking := AskingEffects(s, policy, sql, query);
    assert asking[..2][..1] == asking[..1] && asking[..2][1] == asking[1];
    var trace := SecondPause(first, policy, query, nextSql, nextQuery).trace;
    var shown := trace[..|trace| - 1];
    assert trace[5] == Executed(1, query, NO_COLUMNS);
    assert trace[|trace| - 1] == Asked(2) && shown[|shown| - 1].Judged?;
  }

  // ----- A denial whose step could not be recorded -----

  /** In some sequence of calls a query is executed although a denial came before. */
  ghost predicate ExecutesAfterDenial(cfg: Config, calls: seq<Call>) {
    var trace := AfterCalls(cfg, NO_RUN, calls).trace;
    exists i, j :: 0 <= i < j < |trace| && IsDenial(trace[i]) && trace[j].Executed?
  }

  lemma KeptDenialsAreFinal(cfg: Config, calls: seq<Call>)
    requires cfg.keepsDecision
    ensures !ExecutesAfterDenial(cfg, calls)
  {
    var trace := AfterCalls(cfg, NO_RUN, calls).trace;
    forall i, j | 0 <= i < j < |trace| && IsDenial(trace[i])
      ensures !trace[j].Executed?
    {
      OnlyThePauseFollows(cfg, trace, i, j);
    }
  }

  /** A denial whose step record fails, and leaves the run waiting. */
  const UNRECORDED_DENIAL: Input := Input(ApprovalRecorded, true, true)

  lemma DenialStays(cfg: Config, first: Run, tenant: nat)
    requires RunOk(cfg, first) && CanResume(first, tenant) && first.checkpoint.value.mode == Interrupted(None)
    requires !cfg.keepsDecision
    ensures var a := first.checkpoint.value.state.attempts;
      AfterCall(cfg, first, Resume(tenant, Denied, Script([UNRECORDED_DENIAL])))
      == first.(trace := first.trace + [Asked(a), Decided(a, Denied)])
  {
    var next := ResumeStep(cfg, first, tenant, Denied, Script([UNRECORDED_DENIAL]));
    assert Settled(next.checkpoint.value);
  }

  /** If decisions are not kept, the query that was denied can be approved by the next resume. */
  lemma DenialIsOverruled(cfg: Config, request: Request, policy: Policy, table: string, sql: string, query: string)
    returns (calls: seq<Call>)
    requires !cfg.keepsDecision && table in policy.tables
    requires cfg.guard(sql, RestrictTo(policy, [table])) == Accepted(query)
    ensures ExecutesAfterDenial(cfg, calls)
  {
    var first := FirstPause(request, policy, table, sql, query);
    var start := Start(request, Script(PlanningInputs(policy, table) + DraftInputs(sql)));
    var deny := Resume(request.tenant, Denied, Script([UNRECORDED_DENIAL]));
    var approve := Resume(request.tenant, Approved, Script(MISSING_COLUMNS));
    StartCallPauses(cfg, request, policy, table, sql, query);
    DenialStays(cfg, first, request.tenant);
    var denied := AfterCall(cfg, first, deny);
    ResumeCallRuns(cfg, denied, query, approve.resumeWorld);
    calls := [start, deny, approve];
    ThreeCalls(cfg, start, deny, approve);
    var trace := AfterCall(cfg, denied, approve).trace;
    var i, s := |denied.trace| - 1, first.checkpoint.value.state;
    assert trace[i] == denied.trace[i] == Decided(1, Denied);
    assert trace[i + 3] == (denied.trace + RunEffects(s, query))[i + 3] == Executed(1, query, NO_COLUMNS);
  }

  lemma CallFirst(cfg: Config, run: Run, call: Call, rest: seq<Call>)
    requires RunOk(cfg, run)
    ensures AfterCalls(cfg, run, [call] + rest) == AfterCalls(cfg, AfterCall(cfg, run, call), rest)
  {
    assert ([call] + rest)[1..] == rest;
  }

  lemma ThreeCalls(cfg: Config, a: Call, b: Call, c: Call)
    ensures AfterCalls(cfg, NO_RUN, [a, b, c]) == AfterCall(cfg, AfterCall(cfg, AfterCall(cfg, NO_RUN, a), b), c)
  {
    var one := AfterCall(cfg, NO_RUN, a);
    CallFirst(cfg, NO_RUN, a, [b, c]);
    CallFirst(cfg, one, b, [c]);
    CallFirst(cfg, AfterCall(cfg, one, b), c, []);
    assert [a] + [b, c] == [a, b, c] && [b] + [c] == [b, c] && [c] + [] == [c];
  }

  /** A denial is final, over all sequences of calls, exactly if decisions are kept. */
  lemma DenialIsFinalIff(cfg: Config, request: Request, policy: Policy, table: string, sql: string, query: string)
    requires table in policy.tables && cfg.guard(sql, RestrictTo(policy, [table])) == Accepted(query)
    ensures (forall calls :: !ExecutesAfterDenial(cfg, calls)) <==> cfg.keepsDecision
  {
    if cfg.keepsDecision {
      forall calls
        ensures !ExecutesAfterDenial(cfg, calls)
      {
        KeptDenialsAreFinal(cfg, calls);
      }
    } else {
      var calls := DenialIsOverruled(cfg, request, policy, table, sql, query);
    }
  }
}

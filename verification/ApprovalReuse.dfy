/** How often one approval row can be used: the platform keeps one row a job, the agent can pause more
    than once, and a resume does not say which pause it answers. */
module ApprovalReuse {
  import JobStatus
  import opened PlatformJobs
  import DispatchLease
  import opened AgentGraph
  import opened AgentRuns
  import opened AgentReplay
  import opened JobProtocol
  import opened Wrappers

  /** Does the step resume the agent with a decision that was rolled back before? */
  predicate ResumesLate(s: System, step: Step) {
    step.StrayResume? && step.choice in s.strays && CanResume(s.agent, s.request.tenant)
  }

  /** Does the step resume the agent, with the decision in flight or one rolled back before? */
  predicate Resumes(s: System, step: Step) {
    || ResumesLate(s, step)
    || (step == DecideResume && s.decider.Some? && s.decider.value.HasRead? && CanResume(s.agent, s.request.tenant))
  }

  /** Does the step drop a decision that has resumed the agent, leaving the row as it was, or resume it
      with one dropped before? */
  predicate Undoes(s: System, step: Step) {
    || ResumesLate(s, step)
    || (s.decider.Some? && !s.decider.value.HasRead?
        && Next(s, step).decider.None? && Next(s, step).approval == s.approval)
  }

  function ResumesIn(s: System, steps: seq<Step>): nat
    decreases |steps|
  {
    if steps == [] then 0 else (if Resumes(s, steps[0]) then 1 else 0) + ResumesIn(Next(s, steps[0]), steps[1..])
  }

  function UndoneIn(s: System, steps: seq<Step>): nat
    decreases |steps|
  {
    if steps == [] then 0 else (if Undoes(s, steps[0]) then 1 else 0) + UndoneIn(Next(s, steps[0]), steps[1..])
  }

  /** 1 while a resume stands: its decision is in flight, or committed to the row. */
  function Standing(s: System): nat {
    if (s.decider.Some? && !s.decider.value.HasRead?) || (s.approval.Some? && s.approval.value.status != Pending) then 1
    else 0
  }

  predicate Decides(step: Step) {
    step.DecideRead? || step.DecideResume? || step.DecideAnswer? || step.DecideCommit? || step.DecideRollback?
  }

  lemma DecisionStep(s: System, step: Step)
    requires Inv(s) && Decides(step)
    ensures Standing(Next(s, step)) + (if Undoes(s, step) then 1 else 0)
         == Standing(s) + if Resumes(s, step) then 1 else 0
  {
  }

  lemma WorkerStep(s: System, step: Step)
    requires IsWorkerStep(step)
    ensures Next(s, step).decider == s.decider && Next(s, step).approval == s.approval
  {
  }

  lemma OtherStep(s: System, step: Step)
    requires !Decides(step)
    ensures Next(s, step).decider == s.decider && Standing(Next(s, step)) == Standing(s)
  {
    if IsWorkerStep(step) {
      WorkerStep(s, step);
    }
  }

  lemma StandingStep(s: System, step: Step)
    requires Inv(s)
    ensures Standing(Next(s, step)) + (if Undoes(s, step) then 1 else 0)
         == Standing(s) + if Resumes(s, step) then 1 else 0
  {
    if Decides(step) {
      DecisionStep(s, step);
    } else {
      OtherStep(s, step);
    }
  }

  /** Every resume of the agent either stands or was undone. */
  lemma {:induction false} ResumesStandOrWereUndone(s: System, steps: seq<Step>)
    requires Inv(s)
    ensures ResumesIn(s, steps) + Standing(s) == UndoneIn(s, steps) + Standing(RunSteps(s, steps))
    decreases |steps|
  {
    if steps != [] {
      StandingStep(s, steps[0]);
      StepKeepsAll(s, steps[0]);
      ResumesStandOrWereUndone(Next(s, steps[0]), steps[1..]);
    }
  }

  function Decisions(trace: seq<Effect>): nat {
    if trace == [] then 0
    else Decisions(trace[..|trace| - 1]) + if trace[|trace| - 1].Decided? then 1 else 0
  }

  /** Decisions the agent has taken, and the one it is about to take. */
  function Answered(agent: Run): nat {
    Decisions(agent.trace) + if agent.checkpoint.Some? && agent.checkpoint.value.mode.Resuming? then 1 else 0
  }

  lemma DecisionsGrow(trace: seq<Effect>, effect: Effect)
    ensures Decisions(trace + [effect]) == Decisions(trace) + if effect.Decided? then 1 else 0
  {
    assert (trace + [effect])[..|trace|] == trace;
  }

  /** A node leaves at most two effects, and a decision only on the way out of the pause. */
  lemma NodeEffects(cfg: Config, c: Checkpoint, input: Input)
    requires !Settled(c)
    ensures var (c', effects) := StepNode(cfg, c, input);
      && !c'.mode.Resuming?
      && (|effects| == 0 || (|effects| == 1 && !effects[0].Decided?)
          || (|effects| == 2 && !effects[0].Decided? && c.mode.Resuming?))
  {
  }

  lemma DecisionsGrowBy(trace: seq<Effect>, effects: seq<Effect>)
    requires |effects| <= 2 && (effects != [] ==> !effects[0].Decided?)
    ensures Decisions(trace + effects) <= Decisions(trace) + if |effects| == 2 then 1 else 0
  {
    if effects == [] {
      assert trace + effects == trace;
    } else {
      DecisionsGrow(trace, effects[0]);
      assert effects[..1] == [effects[0]];
      if |effects| == 2 {
        DecisionsGrow(trace + [effects[0]], effects[1]);
        assert trace + effects == trace + [effects[0]] + [effects[1]];
      } else {
        assert effects == [effects[0]];
      }
    }
  }

  lemma NodeAnswers(cfg: Config, agent: Run, input: Input)
    ensures Answered(AgentGraph.Advance(cfg, agent, input)) <= Answered(agent)
  {
    if agent.checkpoint.Some? && !Settled(agent.checkpoint.value) {
      NodeEffects(cfg, agent.checkpoint.value, input);
      DecisionsGrowBy(agent.trace, StepNode(cfg, agent.checkpoint.value, input).1);
    }
  }

  lemma AnsweredStep(s: System, step: Step)
    ensures Answered(Next(s, step).agent) <= Answered(s.agent) + if Resumes(s, step) then 1 else 0
  {
    if step.AgentNode? {
      NodeAnswers(s.cfg, s.agent, step.input);
    }
  }

  lemma {:induction false} AnsweredByResumes(s: System, steps: seq<Step>)
    ensures Answered(RunSteps(s, steps).agent) <= Answered(s.agent) + ResumesIn(s, steps)
    decreases |steps|
  {
    if steps != [] {
      AnsweredStep(s, steps[0]);
      AnsweredByResumes(Next(s, steps[0]), steps[1..]);
    }
  }

  /** A job's one approval row gives the agent at most one decision, and one more for each resume
      that was undone. */
  lemma OneDecisionUnlessUndone(s: System, steps: seq<Step>)
    requires Initial(s)
    ensures Decisions(RunSteps(s, steps).agent.trace) <= UndoneIn(s, steps) + Standing(RunSteps(s, steps))
  {
    InitialIsOk(s);
    ResumesStandOrWereUndone(s, steps);
    AnsweredByResumes(s, steps);
  }

  // ----- The bound is reached -----

  function Nodes(inputs: seq<Input>): seq<Step> {
    if inputs == [] then [] else Nodes(inputs[..|inputs| - 1]) + [AgentNode(inputs[|inputs| - 1])]
  }

  lemma {:induction false} StepsInTwo(s: System, first: seq<Step>, second: seq<Step>)
    ensures RunSteps(s, first + second) == RunSteps(RunSteps(s, first), second)
    ensures UndoneIn(s, first + second) == UndoneIn(s, first) + UndoneIn(RunSteps(s, first), second)
    decreases |first|
  {
    if first == [] {
      assert first + second == second;
    } else {
      assert (first + second)[1..] == first[1..] + second;
      StepsInTwo(Next(s, first[0]), first[1..], second);
    }
  }

  lemma OneStep(s: System, step: Step)
    ensures RunSteps(s, [step]) == Next(s, step) && UndoneIn(s, [step]) == if Undoes(s, step) then 1 else 0
  {
    assert [step][1..] == [];
  }

  lemma TwoSteps(s: System, a: Step, b: Step)
    ensures RunSteps(s, [a, b]) == Next(Next(s, a), b)
    ensures UndoneIn(s, [a, b]) == (if Undoes(s, a) then 1 else 0) + (if Undoes(Next(s, a), b) then 1 else 0)
  {
    StepsInTwo(s, [a], [b]);
    OneStep(s, a);
    OneStep(Next(s, a), b);
    assert [a] + [b] == [a, b];
  }

  lemma ThreeSteps(s: System, a: Step, b: Step, c: Step)
    ensures RunSteps(s, [a, b, c]) == Next(Next(Next(s, a), b), c)
    ensures UndoneIn(s, [a, b, c]) ==
      (if Undoes(s, a) then 1 else 0) + (if Undoes(Next(s, a), b) then 1 else 0)
      + (if Undoes(Next(Next(s, a), b), c) then 1 else 0)
  {
    StepsInTwo(s, [a], [b, c]);
    OneStep(s, a);
    TwoSteps(Next(s, a), b, c);
    assert [a] + [b, c] == [a, b, c];
  }

  lemma NodeRuns(s: System, input: Input)
    ensures RunSteps(s, [AgentNode(input)]) == s.(agent := AgentGraph.Advance(s.cfg, s.agent, input))
    ensures UndoneIn(s, [AgentNode(input)]) == 0
  {
    OneStep(s, AgentNode(input));
  }

  lemma {:induction false} NodesRun(s: System, inputs: seq<Input>)
    ensures RunSteps(s, Nodes(inputs)) == s.(agent := AdvanceAll(s.cfg, s.agent, inputs))
    ensures UndoneIn(s, Nodes(inputs)) == 0
    decreases |inputs|
  {
    if inputs != [] {
      var front, last := inputs[..|inputs| - 1], inputs[|inputs| - 1];
      NodesRun(s, front);
      StepsInTwo(s, Nodes(front), [AgentNode(last)]);
      NodeRuns(RunSteps(s, Nodes(front)), last);
    }
  }

  /** A decision that resumes the agent, which then executes what it was paused for. */
  const DECIDE: seq<Step> := [DecideRead(Approved), DecideResume]

  lemma ReadsPending(s: System)
    requires s.decider.None? && s.approval == Some(PENDING_ROW)
    ensures Next(s, DecideRead(Approved)) == s.(decider := Some(HasRead(s.job, Approved)))
    ensures !Undoes(s, DecideRead(Approved))
  {
  }

  lemma ResumesRead(s: System)
    requires s.decider == Some(HasRead(s.job, Approved)) && CanResume(s.agent, s.request.tenant)
    ensures Next(s, DecideResume)
         == s.(agent := BeginResume(s.agent, s.request.tenant, Approved),
               decider := Some(HasResumed(s.job, Approved, s.agent.checkpoint.value.state.attempts)))
    ensures !Undoes(s, DecideResume)
  {
  }

  lemma DecideResumes(s: System)
    requires s.decider.None? && s.approval == Some(PENDING_ROW) && CanResume(s.agent, s.request.tenant)
    ensures RunSteps(s, DECIDE)
         == s.(agent := BeginResume(s.agent, s.request.tenant, Approved),
               decider := Some(HasResumed(s.job, Approved, s.agent.checkpoint.value.state.attempts)))
    ensures UndoneIn(s, DECIDE) == 0
  {
    var read := s.(decider := Some(HasRead(s.job, Approved)));
    ReadsPending(s);
    ResumesRead(read);
    TwoSteps(s, DecideRead(Approved), DecideResume);
  }

  const DISPATCH: seq<Step> := [Acquire(0, DispatchLease.Answered), PrepareTx(0, SourceFound, 0), CallStart(0)]

  /** A worker dispatches the job; the agent has begun. */
  lemma DispatchBegins(s: System) returns (s': System)
    requires Initial(s)
    ensures s' == RunSteps(s, DISPATCH) && UndoneIn(s, DISPATCH) == 0
    ensures s'.cfg == s.cfg && s'.request == s.request && s'.agent == Begin(NO_RUN, s.request)
    ensures s'.job.status == JobStatus.Planning && s'.approval.None? && s'.decider.None?
  {
    ThreeSteps(s, DISPATCH[0], DISPATCH[1], DISPATCH[2]);
    s' := RunSteps(s, DISPATCH);
  }

  /** The agent asks for an approval, and the platform records it. */
  lemma RequestRecords(s: System)
    requires s.job.status == JobStatus.Planning && s.approval.None? && s.decider.None?
    ensures var s' := RunSteps(s, [RequestTx(0)]);
      && UndoneIn(s, [RequestTx(0)]) == 0
      && s'.approval == Some(PENDING_ROW) && s'.decider.None?
      && s'.cfg == s.cfg && s'.request == s.request && s'.agent == s.agent
  {
    OneStep(s, RequestTx(0));
  }

  lemma RollsBack(s: System)
    requires s.decider.Some? && s.decider.value.HasResumed?
    ensures RunSteps(s, [DecideRollback(false)]) == s.(decider := None) && UndoneIn(s, [DecideRollback(false)]) == 1
  {
    OneStep(s, DecideRollback(false));
  }

  /** The row is granted, the agent resumed and run on, and then the decision rolled back. */
  lemma DecideAndRollBack(s: System, inputs: seq<Input>) returns (s': System, steps: seq<Step>)
    requires s.decider.None? && s.approval == Some(PENDING_ROW) && CanResume(s.agent, s.request.tenant)
    ensures steps == DECIDE + (Nodes(inputs) + [DecideRollback(false)]) && s' == RunSteps(s, steps)
    ensures s' == s.(agent := AdvanceAll(s.cfg, BeginResume(s.agent, s.request.tenant, Approved), inputs))
    ensures UndoneIn(s, steps) == 1
  {
    steps := DECIDE + (Nodes(inputs) + [DecideRollback(false)]);
    s' := RunSteps(s, steps);
    var resumed := RunSteps(s, DECIDE);
    var ran := RunSteps(resumed, Nodes(inputs));
    DecideResumes(s);
    NodesRun(resumed, inputs);
    RollsBack(ran);
    StepsInTwo(resumed, Nodes(inputs), [DecideRollback(false)]);
    StepsInTwo(s, DECIDE, Nodes(inputs) + [DecideRollback(false)]);
  }

  /** With one resume undone, one row does approve two queries: the agent executed the one the row
      was recorded for, paused for another, and the still pending row was decided again. */
  lemma OneRowApprovesTwoQueries(s: System, policy: Policy, table: string, sql: string, query: string,
                                 nextSql: string, nextQuery: string)
    returns (before: seq<Step>, after: seq<Step>)
    requires Initial(s) && s.cfg.maxRepairs >= 1 && table in policy.tables
    requires s.cfg.guard(sql, RestrictTo(policy, [table])) == Accepted(query)
    requires s.cfg.guard(nextSql, RestrictTo(policy, [table])) == Accepted(nextQuery)
    ensures var recorded := RunSteps(s, before);
      && recorded.approval == Some(PENDING_ROW) && PendingQuery(recorded.agent.trace) == Some((1, query))
    ensures var decided := RunSteps(RunSteps(s, before), after);
      && UndoneIn(s, before) + UndoneIn(RunSteps(s, before), after) == 1
      && decided.approval == Some(PENDING_ROW)
      && Executed(1, query, NO_COLUMNS) in decided.agent.trace
      && Executed(2, nextQuery, NO_COLUMNS) in decided.agent.trace
  {
    var restricted := RestrictTo(policy, [table]);
    var first := FirstPause(s.request, policy, table, sql, query);
    var second := SecondPause(first, restricted, query, nextSql, nextQuery);
    var begun := DispatchBegins(s);
    var planning := PlanningInputs(policy, table) + DraftInputs(sql);
    var paused := RunSteps(begun, Nodes(planning));
    before := DISPATCH + (Nodes(planning) + [RequestTx(0)]);
    NodesRun(begun, planning);
    StartPauses(s.cfg, s.request, policy, table, sql, query);
    assert paused.agent == first;
    RequestRecords(paused);
    StepsInTwo(begun, Nodes(planning), [RequestTx(0)]);
    StepsInTwo(s, DISPATCH, Nodes(planning) + [RequestTx(0)]);
    PauseTraces(first, restricted, query, nextSql, nextQuery, AgentReplay.Planned(s.request, policy, table), sql);

    var recorded := RunSteps(s, before);
    ResumePausesAgain(s.cfg, first, restricted, query, nextSql, nextQuery);
    var again, undone := DecideAndRollBack(recorded, SecondInputs(nextSql));
    assert again.agent == second;

    var runs := [MISSING_COLUMNS[0], MISSING_COLUMNS[1]];
    var resumed := RunSteps(again, DECIDE);
    DecideResumes(again);
    NodesRun(resumed, runs);
    StepsInTwo(again, DECIDE, Nodes(runs));
    after := undone + (DECIDE + Nodes(runs));
    StepsInTwo(recorded, undone, DECIDE + Nodes(runs));
    var t := second.checkpoint.value.state;
    AdvanceTwo(s.cfg, resumed.agent, runs[0], runs[1]);
    ApprovedRuns(s.cfg, t, nextQuery, second.trace);
    assert Executed(1, query, NO_COLUMNS) in second.trace + RunEffects(t, nextQuery);
    assert RunEffects(t, nextQuery)[2] in second.trace + RunEffects(t, nextQuery);
  }

  lemma AdvanceTwo(cfg: Config, run: Run, a: Input, b: Input)
    ensures AdvanceAll(cfg, run, [a, b]) == AgentGraph.Advance(cfg, AgentGraph.Advance(cfg, run, a), b)
  {
    assert [a, b][..1] == [a] && [a][..0] == [];
    assert AdvanceAll(cfg, run, [a]) == AgentGraph.Advance(cfg, run, a);
  }
}

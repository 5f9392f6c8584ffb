/** What the row of a job says about the agent's run and about the approval, in every run of the platform. */
module JobTruth {
  import opened JobStatus
  import opened PlatformJobs
  import opened JobWorker
  import opened ApprovalService
  import opened AgentGraph
  import opened AgentRuns
  import opened JobProtocol
  import opened Wrappers

  /** The agent's run ended with an answer. */
  ghost predicate AgentAnswered(agent: Run) {
    agent.checkpoint.Some? && agent.checkpoint.value.next == Finish && StatusOf(agent.checkpoint.value) == COMPLETED
  }

  /** A report of an answer is the report of the run as it still stands; a report of a failure has a reason. */
  ghost predicate IsTrue(agent: Run, result: AgentResult) {
    && (result.status == COMPLETED ==> AgentAnswered(agent) && result == ResultOf(agent.checkpoint.value))
    && (result.status == FAILED ==> result.state.Some? && (result.errored || result.state.value.error.Some?))
  }

  ghost predicate RowOk(job: Job, approval: Option<ApprovalRow>) {
    approval.Some? ==>
      && (approval.value.status == Granted ==>
            job.status in {JobStatus.Running, Completed, JobStatus.Failed, Cancelled})
      && (approval.value.status == PlatformJobs.Refused ==> job.status == Rejected)
  }

  ghost predicate JobTells(agent: Run, job: Job) {
    && (job.status == Completed ==>
          AgentAnswered(agent) && IsStored(job.result, Some(agent.checkpoint.value.state), false))
    && (job.status == JobStatus.Failed ==> job.result.error.Some?)
  }

  ghost predicate ReportsOk(s: System) {
    && (forall w :: w in s.workers && s.workers[w].HasResult? ==> IsTrue(s.agent, s.workers[w].result))
    && (s.decider.Some? && s.decider.value.HasAnswer? ==> IsTrue(s.agent, s.decider.value.answer))
  }

  ghost predicate Truth(s: System) {
    ReportsOk(s) && JobTells(s.agent, s.job) && RowOk(s.job, s.approval)
  }

  /** A run that has answered is left alone by everything that can happen to it. */
  lemma AnsweredAgentStays(s: System, input: Input, decision: Decision)
    requires RunOk(s.cfg, s.agent) && AgentAnswered(s.agent)
    ensures Begin(s.agent, s.request) == s.agent
    ensures AgentGraph.Advance(s.cfg, s.agent, input) == s.agent
    ensures BeginResume(s.agent, s.request.tenant, decision) == s.agent
  {
  }

  lemma ReportOfRunIsTrue(cfg: Config, agent: Run)
    requires RunOk(cfg, agent) && agent.checkpoint.Some?
    ensures IsTrue(agent, ResultOf(agent.checkpoint.value))
  {
    RefusalIsFinal(cfg, agent.checkpoint.value, agent.trace);
  }

  /** Whatever the agent does, what was true of it stays true. */
  lemma AgentMoveKeeps(s: System, agent: Run)
    requires Truth(s) && (AgentAnswered(s.agent) ==> agent == s.agent)
    ensures Truth(s.(agent := agent))
  {
  }

  lemma StoredIsTold(cfg: Config, agent: Run, job: Job, result: AgentResult)
    requires RunOk(cfg, agent) && IsTrue(agent, result) && IsStored(job.result, result.state, result.errored)
    requires job.status == Completed ==> result.status == COMPLETED
    requires job.status == JobStatus.Failed ==> result.status == FAILED
    ensures JobTells(agent, job)
  {
  }

  lemma PersistTells(s: System, worker: nat, now: nat)
    requires Inv(s) && Truth(s) && worker in s.workers && s.workers[worker].HasResult?
    ensures Truth(Persist(s, worker, now))
  {
    var result := s.workers[worker].result;
    PersistedMeaning(s.job, s.request.run, result, now);
    var saved := Persisted(s.job, s.request.run, result, now);
    if saved.Committed? {
      if saved.job.status == Completed || saved.job.status == JobStatus.Failed {
        StoredIsTold(s.cfg, s.agent, saved.job, result);
      }
      assert RowOk(saved.job, s.approval);
    }
  }

  lemma FailTells(s: System, code: string, now: nat)
    requires Inv(s) && Truth(s)
    ensures Truth(JobProtocol.Fail(s, code, now))
  {
  }

  lemma PrepareTells(s: System, worker: nat, lookup: PrepareOutcome, now: nat)
    requires Truth(s)
    ensures Truth(JobProtocol.Prepare(s, worker, lookup, now))
  {
  }

  lemma RequestTells(s: System, now: nat)
    requires Truth(s)
    ensures Truth(Next(s, RequestTx(now)))
  {
    WaitingMeaning(s.job, now);
  }

  lemma CommitTells(s: System, reviewer: nat, comment: Option<string>, now: nat)
    requires Inv(s) && Truth(s) && s.decider.Some? && s.decider.value.HasAnswer?
    ensures Truth(Commit(s, reviewer, comment, now))
  {
    var d := s.decider.value;
    DecidedMeaning(d.copy, d.decision, d.answer, now);
    var decided := DecidedJob(d.copy, d.decision, d.answer, now);
    if decided.Some? && d.copy.version == s.job.version
       && (decided.value.status == Completed || decided.value.status == JobStatus.Failed) {
      DecidedStores(d.copy, d.decision, d.answer, now);
      StoredIsTold(s.cfg, s.agent, decided.value, d.answer);
    }
  }

  /** A decision that finishes a job otherwise than by rejecting it stores the result it was told. */
  lemma DecidedStores(job: Job, decision: Decision, result: AgentResult, now: nat)
    requires DecidedJob(job, decision, result, now).Some? && result.state.Some?
    ensures IsStored(DecidedJob(job, decision, result, now).value.result, result.state, result.errored)
  {
    DecidedMeaning(job, decision, result, now);
  }

  predicate MovesAgent(step: Step) {
    step.AgentNode? || step.CallStart? || step.StrayResume? || step.DecideResume?
  }

  lemma AnsweredStays(s: System, step: Step)
    requires Inv(s) && AgentAnswered(s.agent) && MovesAgent(step)
    ensures Next(s, step).agent == s.agent
  {
    var decision := if step.StrayResume? then step.choice else Approved;
    AnsweredAgentStays(s, if step.AgentNode? then step.input else Input(Done, false, false), decision);
  }

  /** Such a step changes nothing else that counts here. */
  lemma OnlyAgentMoves(s: System, step: Step)
    requires MovesAgent(step)
    ensures var s' := Next(s, step);
      && s'.job == s.job && s'.approval == s.approval && s'.workers == s.workers
      && (s'.decider.Some? && s'.decider.value.HasAnswer? ==> s'.decider == s.decider)
  {
  }

  lemma AgentStepTells(s: System, step: Step)
    requires Inv(s) && Truth(s) && MovesAgent(step)
    ensures Truth(Next(s, step))
  {
    if AgentAnswered(s.agent) {
      AnsweredStays(s, step);
    }
    OnlyAgentMoves(s, step);
    AgentMoveKeeps(s, Next(s, step).agent);
  }

  lemma ReportStepTells(s: System, step: Step)
    requires Inv(s) && Truth(s) && (step.Observe? || step.DecideAnswer?)
    ensures Truth(Next(s, step))
  {
    if s.agent.checkpoint.Some? {
      ReportOfRunIsTrue(s.cfg, s.agent);
    }
  }

  lemma MoveTells(s: System, step: Step)
    requires Truth(s) && (step.Acquire? || step.ExpireLease? || step.GiveUp? || step.Release? || step.Crash?)
    ensures Truth(Next(s, step))
  {
  }

  lemma RefuseTells(s: System, worker: nat)
    requires Truth(s)
    ensures Truth(Refuse(s, worker))
  {
  }

  lemma DecisionMoveTells(s: System, step: Step)
    requires Truth(s) && (step.DecideRead? || step.DecideRollback?)
    ensures Truth(Next(s, step))
  {
  }

  lemma StepTells(s: System, step: Step)
    requires Inv(s) && Truth(s)
    ensures Truth(Next(s, step))
  {
    match step
    case PrepareTx(w, lookup, now) =>
      if At(s, w, Holding) {
        PrepareTells(s, w, lookup, now);
      }
    case PersistTx(w, now) =>
      if w in s.workers && s.workers[w].HasResult? {
        PersistTells(s, w, now);
      }
    case FailTx(w, now) =>
      if w in s.workers && s.workers[w].Failing? {
        FailTells(s, s.workers[w].code, now);
      }
    case RejectTx(now) => FailTells(s, "ASYNC_QUEUE_FULL", now);
    case RequestTx(now) => RequestTells(s, now);
    case DecideCommit(reviewer, comment, now) =>
      if s.decider.Some? && s.decider.value.HasAnswer? {
        CommitTells(s, reviewer, comment, now);
      }
    case AgentNode(_) => AgentStepTells(s, step);
    case CallStart(_) => AgentStepTells(s, step);
    case StrayResume(_) => AgentStepTells(s, step);
    case DecideResume => AgentStepTells(s, step);
    case Observe(_) => ReportStepTells(s, step);
    case DecideAnswer => ReportStepTells(s, step);
    case RefuseTx(w) => RefuseTells(s, w);
    case DecideRead(_) => DecisionMoveTells(s, step);
    case DecideRollback(_) => DecisionMoveTells(s, step);
    case _ => MoveTells(s, step);
  }

  lemma {:induction false} RunTells(s: System, steps: seq<Step>)
    requires Inv(s) && Truth(s)
    ensures Inv(RunSteps(s, steps)) && Truth(RunSteps(s, steps))
    decreases |steps|
  {
    if steps != [] {
      StepKeepsAll(s, steps[0]);
      StepTells(s, steps[0]);
      RunTells(Next(s, steps[0]), steps[1..]);
    }
  }

  // ----- Main results -----

  /** In every run of the platform a job that is completed has the answer of an agent run that ended without
      an error, and every column of its result is that run's; the answer is from the best hit, or says that there
      is not enough evidence, or describes the table of the run's newest execution, which is stored with it. */
  lemma CompletedJobIsAnswered(s: System, steps: seq<Step>)
    requires Initial(s) && RunSteps(s, steps).job.status == Completed
    ensures var s' := RunSteps(s, steps);
      && s'.agent.checkpoint.Some?
      && var c, stored := s'.agent.checkpoint.value, s'.job.result;
      && c.next == Finish && c.mode != Errored && c.state.error == None
      && c.state.answer.Some? && c.state.answer.value != ""
      && stored.sql == c.state.sql && stored.answer == c.state.answer && stored.error == None
      && stored.columns == Some(c.state.columns) && stored.rows == Some(c.state.rows)
      && stored.truncated == c.state.truncated && stored.chart == c.state.chart
      && stored.citations == Some(c.state.citations)
      && AnsweredFrom(s.cfg, c.state, s'.agent.trace)
  {
    InitialIsOk(s);
    RunTells(s, steps);
    RunKeepsCfg(s, steps);
  }

  lemma {:induction false} RunKeepsCfg(s: System, steps: seq<Step>)
    ensures RunSteps(s, steps).cfg == s.cfg
    decreases |steps|
  {
    if steps != [] {
      StepKeepsCfg(s, steps[0]);
      RunKeepsCfg(Next(s, steps[0]), steps[1..]);
    }
  }

  lemma StepKeepsCfg(s: System, step: Step)
    ensures Next(s, step).cfg == s.cfg
  {
  }

  /** A job that has failed says why. */
  lemma FailedJobHasReason(s: System, steps: seq<Step>)
    requires Initial(s) && RunSteps(s, steps).job.status == JobStatus.Failed
    ensures RunSteps(s, steps).job.result.error.Some?
  {
    InitialIsOk(s);
    RunTells(s, steps);
  }

  /** A job is rejected because the agent's run was, or because its approval was refused. */
  lemma RejectedJobWasRefused(s: System, steps: seq<Step>)
    requires Initial(s) && RunSteps(s, steps).job.status == Rejected
    ensures var s' := RunSteps(s, steps);
      AgentRefused(s'.agent) || (s'.approval.Some? && s'.approval.value.status == PlatformJobs.Refused)
  {
    InitialIsOk(s);
    RunTells(s, steps);
  }

  /** The row of a decided approval fits the job: a granted one is of a job that runs or ran, a refused one
      of a rejected job. */
  lemma DecidedRowFitsJob(s: System, steps: seq<Step>)
    requires Initial(s) && RunSteps(s, steps).approval.Some?
    ensures var s' := RunSteps(s, steps);
      && (s'.approval.value.status == Granted ==>
            s'.job.status in {JobStatus.Running, Completed, JobStatus.Failed, Cancelled})
      && (s'.approval.value.status == PlatformJobs.Refused ==> s'.job.status == Rejected)
  {
    InitialIsOk(s);
    RunTells(s, steps);
  }
}

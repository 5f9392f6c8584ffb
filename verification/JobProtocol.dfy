/** One job, its approval and its agent run, driven by any number of workers, callbacks and
    decisions in any interleaving. A short transaction is one step, and may be refused by the check of
    the row's version; a decision is three: read, remote resume, and a commit that needs the job version
    to be unchanged. A resume request can outlive its decision and reach the agent later. */
module JobProtocol {
  import opened JobStatus
  import opened PlatformJobs
  import opened JobWorker
  import opened ApprovalService
  import opened DispatchLease
  import opened AgentGraph
  import opened AgentRuns
  import AgentWorkflow
  import opened Wrappers

  /** A worker that passed the lease; one that has not is simply absent. */
  datatype Worker =
    | Holding
    | Dispatched
    | HasResult(result: AgentResult)
    | Failing(code: string)
    | Releasing

  /** A decision in flight: it holds the row lock on the approval, and its own copy of the job;
      `attempts` is where the run stood when the request resumed it. */
  datatype Decider =
    | HasRead(copy: Job, decision: Decision)
    | HasResumed(copy: Job, decision: Decision, attempts: nat)
    | HasAnswer(copy: Job, decision: Decision, answer: AgentResult)

  /** `strays` are the resume requests still on their way whose decisions were rolled back. */
  datatype System = System(
    cfg: Config, request: Request, job: Job, approval: Option<ApprovalRow>, agent: Run,
    workers: map<nat, Worker>, lease: Option<nat>, decider: Option<Decider>, strays: multiset<Decision>)

  datatype PrepareOutcome = SourceFound | SourceMissing | LookupFails

  datatype Step =
    | Acquire(worker: nat, reply: CommandReply)
    | ExpireLease
    | PrepareTx(worker: nat, lookup: PrepareOutcome, now: nat)
    | CallStart(worker: nat)
    | Observe(worker: nat)
    | GiveUp(worker: nat)
    | PersistTx(worker: nat, now: nat)
    | FailTx(worker: nat, now: nat)
    | RefuseTx(worker: nat)
    | RejectTx(now: nat)
    | Release(worker: nat, reply: CommandReply)
    | Crash(worker: nat)
    | AgentNode(input: Input)
    | RequestTx(now: nat)
    | DecideRead(choice: Decision)
    | DecideResume
    | DecideAnswer
    | DecideCommit(reviewer: nat, comment: Option<string>, now: nat)
    | DecideRollback(underWay: bool)
    | StrayResume(choice: Decision)

  /** A written job row: its version moves on. */
  function Write(s: System, job: Job): System {
    s.(job := job.(version := s.job.version + 1))
  }

  predicate At(s: System, worker: nat, pc: Worker) {
    worker in s.workers && s.workers[worker] == pc
  }

  function Goto(s: System, worker: nat, pc: Worker): System {
    s.(workers := s.workers[worker := pc])
  }

  function Prepare(s: System, worker: nat, lookup: PrepareOutcome, now: nat): System {
    var prepared := Prepared(s.job, now);
    if prepared.None? then Goto(s, worker, Releasing)
    else match lookup
      case SourceMissing => Goto(s, worker, Failing("DATA_SOURCE_NOT_AVAILABLE"))
      case LookupFails => Goto(s, worker, Failing("AGENT_DISPATCH_FAILED"))
      case SourceFound => Goto(if prepared.value == s.job then s else Write(s, prepared.value), worker, Dispatched)
  }

  function Persist(s: System, worker: nat, now: nat): System
    requires worker in s.workers && s.workers[worker].HasResult?
  {
    match Persisted(s.job, s.request.run, s.workers[worker].result, now)
    case Skipped => Goto(s, worker, Releasing)
    case Threw => Goto(s, worker, Failing("AGENT_DISPATCH_FAILED"))
    case Committed(job) => Goto(Write(s, job), worker, Releasing)
  }

  /** The version check refuses a worker's transaction: the exception fails the job, and one that comes
      from failing it is the worker's last. */
  function Refuse(s: System, worker: nat): System {
    if worker !in s.workers then s
    else match s.workers[worker]
      case Holding => Goto(s, worker, Failing("AGENT_DISPATCH_FAILED"))
      case HasResult(_) => Goto(s, worker, Failing("AGENT_DISPATCH_FAILED"))
      case Failing(_) => Goto(s, worker, Releasing)
      case _ => s
  }

  /** A rolled-back decision may leave its request on its way. */
  function Rollback(s: System, underWay: bool): System {
    if s.decider.Some? && s.decider.value.HasRead? && underWay
    then s.(decider := None, strays := s.strays + multiset{s.decider.value.decision})
    else s.(decider := None)
  }

  function ResumeAgent(s: System, choice: Decision): System {
    s.(agent := BeginResume(s.agent, s.request.tenant, choice))
  }

  function Fail(s: System, code: string, now: nat): System {
    var failed := FailedWith(s.job, code, now);
    if failed.None? || IsTerminal(s.job.status) then s else Write(s, failed.value)
  }

  function Commit(s: System, reviewer: nat, comment: Option<string>, now: nat): System
    requires s.decider.Some? && s.decider.value.HasAnswer?
  {
    var d := s.decider.value;
    var decided := DecidedJob(d.copy, d.decision, d.answer, now);
    if decided.None? || d.copy.version != s.job.version then s.(decider := None)
    else Write(s, decided.value).(
      approval := Some(ApprovalRow(DecisionStatus(d.decision), Some(reviewer), comment, Some(now))), decider := None)
  }

  function Next(s: System, step: Step): System {
    match step
    case Acquire(w, reply) =>
      if w in s.workers then s
      else if Acquires(s.lease, reply) then Goto(s.(lease := AfterAcquire(s.lease, w, reply)), w, Holding)
      else s
    case ExpireLease => s.(lease := None)
    case PrepareTx(w, lookup, now) => if At(s, w, Holding) then Prepare(s, w, lookup, now) else s
    case CallStart(w) => if At(s, w, Dispatched) then s.(agent := Begin(s.agent, s.request)) else s
    case Observe(w) =>
      if At(s, w, Dispatched) && s.agent.checkpoint.Some?
      then Goto(s, w, HasResult(ResultOf(s.agent.checkpoint.value))) else s
    case GiveUp(w) => if At(s, w, Dispatched) then Goto(s, w, Failing("AGENT_DISPATCH_FAILED")) else s
    case PersistTx(w, now) => if w in s.workers && s.workers[w].HasResult? then Persist(s, w, now) else s
    case FailTx(w, now) =>
      if w in s.workers && s.workers[w].Failing? then Goto(Fail(s, s.workers[w].code, now), w, Releasing) else s
    case RefuseTx(w) => Refuse(s, w)
    case RejectTx(now) => Fail(s, "ASYNC_QUEUE_FULL", now)
    case Release(w, reply) =>
      if At(s, w, Releasing)
      then s.(workers := s.workers - {w}, lease := AfterRelease(s.lease, w, reply)) else s
    case Crash(w) => s.(workers := s.workers - {w})
    case AgentNode(input) => s.(agent := AgentGraph.Advance(s.cfg, s.agent, input))
    case RequestTx(now) =>
      var requested := Requested(s.job, s.approval, s.request.run, now);
      if requested.None? || s.approval.Some? then s
      else Write(s, requested.value.0).(approval := Some(requested.value.1))
    case DecideRead(choice) =>
      if s.decider.None? && s.approval.Some? && s.approval.value.status == Pending
      then s.(decider := Some(HasRead(s.job, choice))) else s
    case DecideResume =>
      if s.decider.None? || !s.decider.value.HasRead? then s
      else if !CanResume(s.agent, s.request.tenant) then s.(decider := None)
      else
        var d := s.decider.value;
        ResumeAgent(s, d.decision).(
          decider := Some(HasResumed(d.copy, d.decision, s.agent.checkpoint.value.state.attempts)))
    case DecideAnswer =>
      if s.decider.Some? && s.decider.value.HasResumed? && s.agent.checkpoint.Some?
         && Settled(s.agent.checkpoint.value)
         && !AgentWorkflow.ResumeRaises(s.decider.value.attempts, s.agent.checkpoint.value)
      then s.(decider := Some(HasAnswer(s.decider.value.copy, s.decider.value.decision,
                                        ResultOf(s.agent.checkpoint.value))))
      else s
    case DecideCommit(reviewer, comment, now) =>
      if s.decider.Some? && s.decider.value.HasAnswer? then Commit(s, reviewer, comment, now) else s
    case DecideRollback(underWay) => Rollback(s, underWay)
    case StrayResume(choice) =>
      if choice in s.strays then ResumeAgent(s.(strays := s.strays - multiset{choice}), choice) else s
  }

  function RunSteps(s: System, steps: seq<Step>): System
    decreases |steps|
  {
    if steps == [] then s else RunSteps(Next(s, steps[0]), steps[1..])
  }

  ghost predicate Initial(s: System) {
    && s.job == NewJob() && s.approval == None && s.agent == NO_RUN
    && s.workers == map[] && s.lease == None && s.decider == None && s.strays == multiset{}
  }

  // ----- The invariant across both services -----

  /** The agent run ended refused; it says so for good and cannot be resumed. */
  ghost predicate AgentRefused(agent: Run) {
    agent.checkpoint.Some? && agent.checkpoint.value.next == Finish && StatusOf(agent.checkpoint.value) == REJECTED
  }

  predicate Undecided(approval: Option<ApprovalRow>) {
    approval.None? || approval.value.status == Pending
  }

  ghost predicate WorkersOk(s: System) {
    forall w :: w in s.workers && s.workers[w].HasResult? && s.workers[w].result.status == REJECTED ==>
      AgentRefused(s.agent)
  }

  /** A decision in flight works on the current row or on a version that is gone, and once it has
      resumed the agent its copy is not a refused job. */
  ghost predicate DeciderOk(s: System) {
    s.decider.Some? ==>
      && s.approval.Some? && s.approval.value.status == Pending
      && s.decider.value.copy.version <= s.job.version
      && (s.decider.value.copy.version == s.job.version ==> s.decider.value.copy == s.job)
      && (s.decider.value.copy.status == Rejected ==> s.decider.value.HasRead? && AgentRefused(s.agent))
  }

  ghost predicate Inv(s: System) {
    && JobOk(s.job)
    && RunOk(s.cfg, s.agent)
    && (s.job.status == Rejected && Undecided(s.approval) ==> AgentRefused(s.agent))
    && WorkersOk(s)
    && DeciderOk(s)
  }

  /** A refused agent run is left alone by everything that can happen to it. */
  lemma RefusedAgentStays(s: System, input: Input, decision: Decision)
    requires RunOk(s.cfg, s.agent) && AgentRefused(s.agent)
    ensures Begin(s.agent, s.request) == s.agent
    ensures AgentGraph.Advance(s.cfg, s.agent, input) == s.agent
    ensures !CanResume(s.agent, s.request.tenant)
  {
  }

  lemma AdvancedStatus(job: Job, target: JobStatus.Status, now: nat)
    requires Advanced(job, target, now).Some? && Advanced(job, target, now).value.status == Rejected
    requires !IsTerminal(job.status)
    ensures target == Rejected
  {
  }

  lemma WriteKeeps(s: System, job: Job)
    requires Inv(s) && JobOk(job)
    requires job.status == Rejected ==> AgentRefused(s.agent)
    ensures Inv(Write(s, job))
  {
  }

  lemma PersistKeeps(s: System, worker: nat, now: nat)
    requires Inv(s) && worker in s.workers && s.workers[worker].HasResult?
    ensures Inv(Persist(s, worker, now))
  {
    var result := s.workers[worker].result;
    var saved := Persisted(s.job, s.request.run, result, now);
    if saved.Committed? {
      AdvancedKeeps(s.job, JobStatusOf(result.status), now);
      if saved.job.status == Rejected {
        AdvancedStatus(s.job, JobStatusOf(result.status), now);
      }
      WriteKeeps(s, saved.job);
    }
  }

  lemma PrepareKeeps(s: System, worker: nat, lookup: PrepareOutcome, now: nat)
    requires Inv(s)
    ensures Inv(Prepare(s, worker, lookup, now))
  {
    MovedKeeps(s.job, Planning, now);
    var prepared := Prepared(s.job, now);
    if prepared.Some? && prepared.value != s.job {
      WriteKeeps(s, prepared.value);
    }
  }

  lemma FailKeeps(s: System, code: string, now: nat)
    requires Inv(s)
    ensures Inv(Fail(s, code, now))
  {
    MovedKeeps(s.job, Failed, now);
    if !IsTerminal(s.job.status) {
      WriteKeeps(s, FailedWith(s.job, code, now).value);
    }
  }

  lemma RequestKeeps(s: System, now: nat)
    requires Inv(s)
    ensures Inv(Next(s, RequestTx(now)))
  {
    WaitingKeeps(s.job, now);
    var requested := Requested(s.job, s.approval, s.request.run, now);
    if requested.Some? && s.approval.None? {
      assert requested.value.0.status == WaitingApproval;
      WriteKeeps(s, requested.value.0);
    }
  }

  lemma CommitKeeps(s: System, reviewer: nat, comment: Option<string>, now: nat)
    requires Inv(s) && s.decider.Some? && s.decider.value.HasAnswer?
    ensures Inv(Commit(s, reviewer, comment, now))
  {
    var d := s.decider.value;
    if d.copy.version == s.job.version {
      DecidedKeeps(d.copy, d.decision, d.answer, now);
    }
  }

  lemma AgentKeeps(s: System, agent: Run)
    requires Inv(s) && RunOk(s.cfg, agent)
    requires AgentRefused(s.agent) ==> agent == s.agent
    ensures Inv(s.(agent := agent))
  {
  }

  lemma ObserveKeeps(s: System, worker: nat)
    requires Inv(s) && s.agent.checkpoint.Some?
    ensures Inv(Goto(s, worker, HasResult(ResultOf(s.agent.checkpoint.value))))
  {
    RefusalIsFinal(s.cfg, s.agent.checkpoint.value, s.agent.trace);
  }

  lemma ResumeKeeps(s: System)
    requires Inv(s)
    ensures Inv(Next(s, DecideResume))
  {
    if s.decider.Some? && s.decider.value.HasRead? && CanResume(s.agent, s.request.tenant) {
      assert !AgentRefused(s.agent);
      AgentKeeps(s, BeginResume(s.agent, s.request.tenant, s.decider.value.decision));
    }
  }

  lemma StraysKeep(s: System, strays: multiset<Decision>)
    requires Inv(s)
    ensures Inv(s.(strays := strays))
  {
  }

  lemma StrayKeeps(s: System, choice: Decision)
    requires Inv(s)
    ensures Inv(Next(s, StrayResume(choice)))
  {
    if choice in s.strays {
      var s' := s.(strays := s.strays - multiset{choice});
      StraysKeep(s, s'.strays);
      BeginResumeKeeps(s.cfg, s.agent, s.request.tenant, choice);
      AgentKeeps(s', BeginResume(s.agent, s.request.tenant, choice));
    }
  }

  /** Steps that only move a worker or the lease. */
  lemma WorkerMoveKeeps(s: System, step: Step)
    requires Inv(s) && (step.Acquire? || step.ExpireLease? || step.GiveUp? || step.Release? || step.Crash?)
    ensures Inv(Next(s, step))
  {
  }

  /** Steps that only move the decision in flight. */
  lemma DeciderMoveKeeps(s: System, step: Step)
    requires Inv(s) && (step.DecideRead? || step.DecideAnswer? || step.DecideRollback?)
    ensures Inv(Next(s, step))
  {
  }

  lemma RefuseKeeps(s: System, worker: nat)
    requires Inv(s)
    ensures Inv(Refuse(s, worker))
  {
  }

  predicate IsWorkerStep(step: Step) {
    || step.Acquire? || step.ExpireLease? || step.PrepareTx? || step.CallStart? || step.Observe? || step.GiveUp?
    || step.PersistTx? || step.FailTx? || step.RefuseTx? || step.RejectTx? || step.Release? || step.Crash?
  }

  lemma WorkerStepKeeps(s: System, step: Step)
    requires Inv(s) && IsWorkerStep(step)
    ensures Inv(Next(s, step))
  {
    match step
    case PrepareTx(w, lookup, now) =>
      if At(s, w, Holding) {
        PrepareKeeps(s, w, lookup, now);
      }
    case CallStart(w) => AgentKeeps(s, Begin(s.agent, s.request));
    case Observe(w) =>
      if At(s, w, Dispatched) && s.agent.checkpoint.Some? {
        ObserveKeeps(s, w);
      }
    case PersistTx(w, now) =>
      if w in s.workers && s.workers[w].HasResult? {
        PersistKeeps(s, w, now);
      }
    case FailTx(w, now) =>
      if w in s.workers && s.workers[w].Failing? {
        FailKeeps(s, s.workers[w].code, now);
      }
    case RefuseTx(w) => RefuseKeeps(s, w);
    case RejectTx(now) => FailKeeps(s, "ASYNC_QUEUE_FULL", now);
    case _ => WorkerMoveKeeps(s, step);
  }

  /** What every step keeps. */
  lemma StepKeepsAll(s: System, step: Step)
    requires Inv(s)
    ensures Inv(Next(s, step))
  {
    match step
    case AgentNode(input) =>
      AdvanceKeeps(s.cfg, s.agent, input);
      AgentKeeps(s, AgentGraph.Advance(s.cfg, s.agent, input));
    case RequestTx(now) => RequestKeeps(s, now);
    case DecideResume => ResumeKeeps(s);
    case DecideCommit(reviewer, comment, now) =>
      if s.decider.Some? && s.decider.value.HasAnswer? {
        CommitKeeps(s, reviewer, comment, now);
      }
    case DecideRead(_) => DeciderMoveKeeps(s, step);
    case DecideAnswer => DeciderMoveKeeps(s, step);
    case DecideRollback(_) => DeciderMoveKeeps(s, step);
    case StrayResume(choice) => StrayKeeps(s, choice);
    case _ => WorkerStepKeeps(s, step);
  }

  lemma {:induction false} RunKeepsAll(s: System, steps: seq<Step>)
    requires Inv(s)
    ensures Inv(RunSteps(s, steps))
    decreases |steps|
  {
    if steps != [] {
      StepKeepsAll(s, steps[0]);
      RunKeepsAll(Next(s, steps[0]), steps[1..]);
    }
  }

  // ----- Main results -----

  /** No step touches the row of a finished job: not its result, status, version or finish time. */
  lemma FinishedJobIsFrozen(s: System, step: Step)
    requires Inv(s) && IsTerminal(s.job.status)
    ensures Next(s, step).job == s.job
  {
    match step
    case RequestTx(now) => WaitingKeeps(s.job, now);
    case DecideCommit(reviewer, comment, now) =>
      if s.decider.Some? && s.decider.value.HasAnswer? {
        var d := s.decider.value;
        if d.copy.version == s.job.version {
          DecidedKeeps(d.copy, d.decision, d.answer, now);
        }
      }
    case _ =>
  }

  lemma {:induction false} FinishedJobStays(s: System, steps: seq<Step>)
    requires Inv(s) && IsTerminal(s.job.status)
    ensures RunSteps(s, steps).job == s.job
    decreases |steps|
  {
    if steps != [] {
      StepKeepsAll(s, steps[0]);
      FinishedJobIsFrozen(s, steps[0]);
      FinishedJobStays(Next(s, steps[0]), steps[1..]);
    }
  }

  lemma InitialIsOk(s: System)
    requires Initial(s)
    ensures Inv(s)
  {
  }

  /** Once a job is terminal its stored result never changes, whatever happens after. */
  lemma TerminalResultIsFinal(s: System, steps: seq<Step>, more: seq<Step>)
    requires Initial(s) && IsTerminal(RunSteps(s, steps).job.status)
    ensures RunSteps(RunSteps(s, steps), more).job == RunSteps(s, steps).job
  {
    InitialIsOk(s);
    RunKeepsAll(s, steps);
    FinishedJobStays(RunSteps(s, steps), more);
  }

  /** Every run climbs the status order in at most five changes, and stamps a finish time exactly
      when the job is over. */
  lemma StatusesClimb(s: System, steps: seq<Step>)
    requires Initial(s)
    ensures var job := RunSteps(s, steps).job;
      && IsHistory(job.trail) && |job.trail| - 1 <= 5
      && job.trail[|job.trail| - 1] == job.status
      && (job.finishedAt.Some? <==> IsTerminal(job.status))
  {
    InitialIsOk(s);
    RunKeepsAll(s, steps);
    AtMostFiveChanges(RunSteps(s, steps).job.trail);
  }

  lemma DecidedStays(s: System, step: Step)
    requires Inv(s) && s.approval.Some? && s.approval.value.status != Pending
    ensures Next(s, step).approval == s.approval
  {
    assert s.decider.None?;
  }

  /** An approval that has been decided stays as it was decided. */
  lemma {:induction false} ApprovalIsDecidedOnce(s: System, steps: seq<Step>)
    requires Inv(s) && s.approval.Some? && s.approval.value.status != Pending
    ensures RunSteps(s, steps).approval == s.approval
    decreases |steps|
  {
    if steps != [] {
      StepKeepsAll(s, steps[0]);
      DecidedStays(s, steps[0]);
      ApprovalIsDecidedOnce(Next(s, steps[0]), steps[1..]);
    }
  }

  /** Redis answers, and no lease runs out. */
  predicate Calm(step: Step) {
    !step.ExpireLease? && (step.Acquire? ==> step.reply == Answered)
  }

  ghost predicate LeaseHeld(s: System) {
    forall w :: w in s.workers ==> s.lease == Some(w)
  }

  lemma CalmKeeps(s: System, step: Step)
    requires LeaseHeld(s) && Calm(step)
    ensures LeaseHeld(Next(s, step))
  {
  }

  /** While every attempt to acquire is answered and no lease runs out, at most one worker has the job. */
  lemma {:induction false} OneWorkerWhileCalm(s: System, steps: seq<Step>)
    requires LeaseHeld(s) && forall i :: 0 <= i < |steps| ==> Calm(steps[i])
    ensures LeaseHeld(RunSteps(s, steps))
    ensures forall w, v :: w in RunSteps(s, steps).workers && v in RunSteps(s, steps).workers ==> w == v
    decreases |steps|
  {
    if steps != [] {
      CalmKeeps(s, steps[0]);
      OneWorkerWhileCalm(Next(s, steps[0]), steps[1..]);
    }
  }

  /** Only a release by the lease's own holder, or its expiry, ever frees it. */
  lemma LeaseIsFreedByItsHolder(s: System, step: Step, holder: nat)
    requires s.lease == Some(holder) && Next(s, step).lease != Some(holder)
    ensures step == ExpireLease || (step.Release? && step.worker == holder && step.reply != Unreachable)
    ensures Next(s, step).lease == None
  {
  }
}

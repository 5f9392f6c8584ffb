/** The analysis job and approval entities of the platform. */
module PlatformJobs {
  import opened Evidence
  import opened JobStatus
  import AgentGraph
  import opened Wrappers

  /** Where an error code stored with a job comes from. */
  datatype JobError = FromAgent(code: AgentGraph.ErrorCode) | WorkflowFailed | FromPlatform(name: string)

  datatype StoredResult = StoredResult(
    sql: Option<string>, answer: Option<string>, error: Option<JobError>,
    columns: Option<seq<string>>, rows: Option<seq<AgentGraph.Row>>, truncated: bool,
    chart: Option<string>, citations: Option<seq<Citation>>)

  const NO_RESULT: StoredResult := StoredResult(None, None, None, None, None, false, None, None)

  /** One row of the jobs table. `trail` records the statuses the job went through. */
  datatype Job = Job(
    status: Status, version: nat, finishedAt: Option<nat>, thread: Option<nat>, result: StoredResult,
    trail: seq<Status>)

  function NewJob(): Job {
    Job(Created, 0, None, None, NO_RESULT, [Created])
  }

  /** `None` stands for the invalid-transition exception. */
  function Moved(job: Job, target: Status, now: nat): Option<Job> {
    if !CanTransition(job.status, target) then None
    else Some(job.(status := target,
                   finishedAt := if IsTerminal(target) then Some(now) else job.finishedAt,
                   trail := if target == job.status then job.trail else job.trail + [target]))
  }

  /** The trail ends where the job stands, and a finish time is set exactly at the end. */
  ghost predicate JobOk(job: Job) {
    && IsHistory(job.trail)
    && job.trail[|job.trail| - 1] == job.status
    && (job.finishedAt.Some? <==> IsTerminal(job.status))
  }

  lemma MovedKeeps(job: Job, target: Status, now: nat)
    requires JobOk(job)
    ensures Moved(job, target, now).Some? ==> JobOk(Moved(job, target, now).value)
    ensures IsTerminal(job.status) ==> Moved(job, target, now).Some? ==> target == job.status
  {
    if CanTransition(job.status, target) && target != job.status {
      var trail := job.trail + [target];
      forall i, j | 0 <= i < j < |trail| && j == i + 1
        ensures trail[i] != trail[j] && CanTransition(trail[i], trail[j])
      {
        if j < |job.trail| {
          assert trail[i] == job.trail[i] && trail[j] == job.trail[j];
        }
      }
    }
  }

  class AnalysisJob {
    var status: Status
    var version: nat
    var finishedAt: Option<nat>
    var workflowThreadId: Option<nat>
    var result: StoredResult
    ghost var trail: seq<Status>

    constructor ()
      ensures View() == NewJob()
    {
      status, version, finishedAt, workflowThreadId := Created, 0, None, None;
      result, trail := NO_RESULT, [Created];
    }

    ghost function View(): Job
      reads this
    {
      Job(status, version, finishedAt, workflowThreadId, result, trail)
    }

    /** False stands for the exception; the transaction then discards the entity. */
    method TransitionTo(target: Status, now: nat) returns (ok: bool)
      modifies this
      ensures ok == Moved(old(View()), target, now).Some?
      ensures View() == if ok then Moved(old(View()), target, now).value else old(View())
    {
      ok := CanTransition(status, target);
      if ok {
        trail := if target == status then trail else trail + [target];
        status := target;
        if IsTerminal(target) {
          finishedAt := Some(now);
        }
      }
    }

    method AttachWorkflowThread(thread: nat)
      modifies this
      ensures View() == old(View()).(thread := Some(thread))
    {
      workflowThreadId := Some(thread);
    }

    method StoreAgentResult(stored: StoredResult)
      modifies this
      ensures View() == old(View()).(result := stored)
    {
      result := stored;
    }
  }

  datatype ApprovalStatus = Pending | Granted | Refused

  datatype ApprovalRow = ApprovalRow(
    status: ApprovalStatus, decidedBy: Option<nat>, comment: Option<string>, decidedAt: Option<nat>)

  const PENDING_ROW: ApprovalRow := ApprovalRow(Pending, None, None, None)

  class Approval {
    var status: ApprovalStatus
    var decidedBy: Option<nat>
    var comment: Option<string>
    var decidedAt: Option<nat>

    constructor ()
      ensures View() == PENDING_ROW
    {
      status, decidedBy, comment, decidedAt := Pending, None, None, None;
    }

    function View(): ApprovalRow
      reads this
    {
      ApprovalRow(status, decidedBy, comment, decidedAt)
    }

    /** An approval leaves PENDING at most once. */
    method Decide(decision: ApprovalStatus, reviewer: nat, comment: Option<string>, now: nat) returns (ok: bool)
      modifies this
      ensures ok <==> old(status) == Pending && decision != Pending
      ensures View() == if ok then ApprovalRow(decision, Some(reviewer), comment, Some(now)) else old(View())
    {
      ok := status == Pending && decision != Pending;
      if ok {
        status, decidedBy, decidedAt := decision, Some(reviewer), Some(now);
        this.comment := comment;
      }
    }
  }
}

/** The background worker's transactions on a job, its retry loop, and its dispatch lease. */
module JobWorker {
  import opened JobStatus
  import opened PlatformJobs
  import AgentGraph
  import opened Wrappers

  /** A reply of the agent; the state may be missing. */
  datatype AgentResult = AgentResult(status: AgentGraph.Status, state: Option<AgentGraph.State>, errored: bool)

  function ResultOf(c: AgentGraph.Checkpoint): AgentResult {
    AgentResult(AgentGraph.StatusOf(c), Some(c.state), c.mode == AgentGraph.Errored)
  }

  function JobStatusOf(status: AgentGraph.Status): Status {
    match status
    case PLANNING => Planning
    case WAITING_APPROVAL => WaitingApproval
    case COMPLETED => Completed
    case REJECTED => Rejected
    case FAILED => Failed
  }

  function Stored(result: AgentResult): StoredResult {
    if result.state.None? then NO_RESULT
    else
      var s := result.state.value;
      StoredResult(s.sql, s.answer,
                   if result.errored then Some(WorkflowFailed)
                   else if s.error.Some? then Some(FromAgent(s.error.value)) else None,
                   Some(s.columns), Some(s.rows), s.truncated, s.chart, Some(s.citations))
  }

  function MovedIf(job: Job, moves: bool, target: Status, now: nat): Option<Job> {
    if moves then Moved(job, target, now) else Some(job)
  }

  lemma MovedIfKeeps(job: Job, moves: bool, target: Status, now: nat)
    requires JobOk(job)
    ensures MovedIf(job, moves, target, now).Some? ==> JobOk(MovedIf(job, moves, target, now).value)
  {
    MovedKeeps(job, target, now);
  }

  function Planned(job: Job, now: nat): Option<Job> {
    MovedIf(job, job.status == Created, Planning, now)
  }

  function Validated(job: Job, target: Status, now: nat): Option<Job> {
    MovedIf(job, target != Failed && job.status == Planning, Validating, now)
  }

  function Started(job: Job, target: Status, now: nat): Option<Job> {
    MovedIf(job, target == Completed && job.status != Running, Running, now)
  }

  function Arrived(job: Job, target: Status, now: nat): Option<Job> {
    MovedIf(job, job.status != target, target, now)
  }

  /** Moving a job to the status the agent reports, through the statuses in between. */
  function Advanced(job: Job, target: Status, now: nat): Option<Job> {
    var planned := Planned(job, now);
    if target == Planning || planned.None? then planned
    else
      var validated := Validated(planned.value, target, now);
      if validated.None? then None
      else
        var started := Started(validated.value, target, now);
        if started.None? then None else Arrived(started.value, target, now)
  }

  datatype Saved = Skipped | Threw | Committed(job: Job)

  function Persisted(job: Job, thread: nat, result: AgentResult, now: nat): Saved {
    if IsTerminal(job.status) then Skipped
    else
      var advanced := Advanced(job, JobStatusOf(result.status), now);
      if advanced.None? then Threw
      else Committed(advanced.value.(thread := Some(thread), result := Stored(result)))
  }

  function FailedWith(job: Job, code: string, now: nat): Option<Job> {
    if IsTerminal(job.status) then Some(job)
    else
      var moved := Moved(job, Failed, now);
      if moved.None? then None
      else Some(moved.value.(result := NO_RESULT.(error := Some(FromPlatform(code)))))
  }

  /** `None`: nothing to dispatch. */
  function Prepared(job: Job, now: nat): Option<Job> {
    if IsTerminal(job.status) || job.status == WaitingApproval then None
    else if job.status == Created then Moved(job, Planning, now) else Some(job)
  }

  lemma AdvancedKeeps(job: Job, target: Status, now: nat)
    requires JobOk(job)
    ensures Advanced(job, target, now).Some? ==> JobOk(Advanced(job, target, now).value)
  {
    MovedIfKeeps(job, job.status == Created, Planning, now);
    if Advanced(job, target, now).Some? && target != Planning {
      var planned := Planned(job, now).value;
      MovedIfKeeps(planned, target != Failed && planned.status == Planning, Validating, now);
      var validated := Validated(planned, target, now).value;
      MovedIfKeeps(validated, target == Completed && validated.status != Running, Running, now);
      var started := Started(validated, target, now).value;
      MovedIfKeeps(started, started.status != target, target, now);
    }
  }

  /** What a job stores of a run: each column is the state's field of its name. */
  ghost predicate IsStored(stored: StoredResult, state: Option<AgentGraph.State>, errored: bool) {
    if state.None? then
      stored.sql == None && stored.answer == None && stored.error == None && stored.columns == None
      && stored.rows == None && !stored.truncated && stored.chart == None && stored.citations == None
    else
      && stored.sql == state.value.sql && stored.answer == state.value.answer
      && stored.columns == Some(state.value.columns) && stored.rows == Some(state.value.rows)
      && stored.truncated == state.value.truncated && stored.chart == state.value.chart
      && stored.citations == Some(state.value.citations)
      && (stored.error.None? <==> !errored && state.value.error.None?)
      && (!errored && state.value.error.Some? ==> stored.error == Some(FromAgent(state.value.error.value)))
      && (errored ==> stored.error == Some(WorkflowFailed))
  }

  /** The status a job has once it has taken in a report: the one of the same name, but a run that is still
      planning only begins a new job. */
  ghost predicate IsReached(before: Status, reported: AgentGraph.Status, after: Status) {
    match reported
    case PLANNING => after == if before == Created then Planning else before
    case WAITING_APPROVAL => after == WaitingApproval
    case COMPLETED => after == Completed
    case REJECTED => after == Rejected
    case FAILED => after == Failed
  }

  /** Only the status, the finish time and the trail move. */
  ghost predicate OnlyMoved(before: Job, after: Job) {
    after.version == before.version && after.thread == before.thread && after.result == before.result
  }

  lemma PersistedMeaning(job: Job, thread: nat, result: AgentResult, now: nat)
    ensures Persisted(job, thread, result, now).Skipped? <==> IsTerminal(job.status)
    ensures Persisted(job, thread, result, now).Threw? <==>
      job.status == Running && result.status in {AgentGraph.WAITING_APPROVAL, AgentGraph.REJECTED}
    ensures Persisted(job, thread, result, now).Committed? ==>
      var saved := Persisted(job, thread, result, now).job;
      && IsReached(job.status, result.status, saved.status) && saved.thread == Some(thread)
      && IsStored(saved.result, result.state, result.errored) && saved.version == job.version
      && (IsTerminal(saved.status) ==> saved.finishedAt == Some(now))
  {
    if !IsTerminal(job.status) {
      AdvancedIff(job, JobStatusOf(result.status), now);
      AdvancedMoves(job, JobStatusOf(result.status), now);
    }
  }

  lemma AdvancedMoves(job: Job, target: Status, now: nat)
    requires !IsTerminal(job.status)
    ensures Advanced(job, target, now).Some? ==>
      var after := Advanced(job, target, now).value;
      && OnlyMoved(job, after)
      && (target != Planning ==> after.status == target)
      && (target == Planning ==> after.status == if job.status == Created then Planning else job.status)
      && (IsTerminal(after.status) ==> after.finishedAt == Some(now))
  {
  }

  /** Exactly which reports of the agent a job that is still open can take in. */
  lemma AdvancedIff(job: Job, target: Status, now: nat)
    requires !IsTerminal(job.status)
    requires target in {Planning, WaitingApproval, Completed, Rejected, Failed}
    ensures Advanced(job, target, now).Some?
       <==> !(job.status == Running && target in {WaitingApproval, Rejected})
    ensures Advanced(job, target, now).Some? && target != Planning ==> Advanced(job, target, now).value.status == target
  {
  }

  /** An open job can always be failed. */
  lemma FailingNeverThrows(job: Job, code: string, now: nat)
    ensures FailedWith(job, code, now).Some?
  {
  }

  method Advance(job: AnalysisJob, target: Status, now: nat) returns (ok: bool)
    modifies job
    ensures ok == Advanced(old(job.View()), target, now).Some?
    ensures ok ==> job.View() == Advanced(old(job.View()), target, now).value
  {
    if target == Planning {
      ok := true;
      if job.status == Created {
        ok := job.TransitionTo(target, now);
      }
      return;
    }
    ok := true;
    if job.status == Created {
      ok := job.TransitionTo(Planning, now);
      if !ok { return; }
    }
    if target != Failed && job.status == Planning {
      ok := job.TransitionTo(Validating, now);
      if !ok { return; }
    }
    if target == Completed && job.status != Running {
      ok := job.TransitionTo(Running, now);
      if !ok { return; }
    }
    if job.status != target {
      ok := job.TransitionTo(target, now);
    }
  }

  /** How a transaction on a loaded entity ends: without a write, rolled back, or written. */
  datatype TxOutcome = NoWrite | RolledBack | Written

  method PersistResult(job: AnalysisJob, thread: nat, result: AgentResult, now: nat) returns (outcome: TxOutcome)
    modifies job
    ensures match Persisted(old(job.View()), thread, result, now)
      case Skipped => outcome == NoWrite && job.View() == old(job.View())
      case Threw => outcome == RolledBack
      case Committed(saved) => outcome == Written && job.View() == saved
    ensures outcome == NoWrite <==> IsTerminal(old(job.View()).status)
    ensures outcome == RolledBack <==>
      old(job.View()).status == Running && result.status in {AgentGraph.WAITING_APPROVAL, AgentGraph.REJECTED}
    ensures outcome == Written ==>
      && IsReached(old(job.View()).status, result.status, job.View().status) && job.View().thread == Some(thread)
      && IsStored(job.View().result, result.state, result.errored)
  {
    PersistedMeaning(job.View(), thread, result, now);
    if IsTerminal(job.status) {
      return NoWrite;
    }
    var ok := Advance(job, JobStatusOf(result.status), now);
    if !ok {
      return RolledBack;
    }
    job.AttachWorkflowThread(thread);
    job.StoreAgentResult(Stored(result));
    outcome := Written;
  }

  method Prepare(job: AnalysisJob, now: nat) returns (dispatch: bool)
    modifies job
    ensures dispatch == Prepared(old(job.View()), now).Some?
    ensures job.View() == if dispatch then Prepared(old(job.View()), now).value else old(job.View())
    ensures dispatch <==> old(job.View()).status in {Created, Planning, Validating, Running}
    ensures old(job.View()).status == Created ==>
      job.View().status == Planning && OnlyMoved(old(job.View()), job.View())
    ensures old(job.View()).status != Created ==> job.View() == old(job.View())
  {
    if IsTerminal(job.status) || job.status == WaitingApproval {
      return false;
    }
    dispatch := true;
    if job.status == Created {
      dispatch := job.TransitionTo(Planning, now);
    }
  }

  method Fail(job: AnalysisJob, code: string, now: nat) returns (outcome: TxOutcome)
    modifies job
    ensures outcome == if IsTerminal(old(job.View()).status) then NoWrite else Written
    ensures FailedWith(old(job.View()), code, now) == Some(job.View())
    ensures IsTerminal(old(job.View()).status) ==> job.View() == old(job.View())
    ensures !IsTerminal(old(job.View()).status) ==>
      && job.View().status == Failed && job.View().finishedAt == Some(now)
      && job.View().result.error == Some(FromPlatform(code))
      && job.View().result.answer == None && job.View().result.rows == None
  {
    if IsTerminal(job.status) {
      return NoWrite;
    }
    var ok := job.TransitionTo(Failed, now);
    job.StoreAgentResult(NO_RESULT.(error := Some(FromPlatform(code))));
    outcome := Written;
  }

  /** No pause before attempt `n` was interrupted. */
  ghost predicate Reached(interrupted: nat -> bool, n: nat) {
    forall m :: 1 <= m < n ==> !interrupted(m)
  }

  /** The retry loop around the start call: `replies(n)` is what attempt `n` brings, if anything, and
      `interrupted(n)` whether the pause behind it is cut short, which ends the loop. The pauses begun grow
      with the attempts. */
  method CallAgent(replies: nat -> Option<AgentResult>, interrupted: nat -> bool, maxAttempts: nat, backoff: nat)
    returns (result: Option<AgentResult>, calls: nat, pauses: seq<nat>)
    ensures calls <= maxAttempts
    ensures result.Some? ==> calls >= 1 && result == replies(calls) && forall n :: 1 <= n < calls ==> replies(n).None?
    ensures result.None? <==> forall n :: 1 <= n <= maxAttempts && Reached(interrupted, n) ==> replies(n).None?
    ensures Reached(interrupted, calls) && (result.None? && calls < maxAttempts ==> interrupted(calls))
    ensures |pauses| == if (result.None? && calls < maxAttempts) || calls == 0 then calls else calls - 1
    ensures forall i :: 0 <= i < |pauses| ==> pauses[i] == backoff * (i + 1)
  {
    calls, pauses := 0, [];
    while calls < maxAttempts
      invariant calls <= maxAttempts
      invariant |pauses| == if calls < maxAttempts || calls == 0 then calls else calls - 1
      invariant forall i :: 0 <= i < |pauses| ==> pauses[i] == backoff * (i + 1)
      invariant forall n :: 1 <= n <= calls ==> replies(n).None?
      invariant forall m :: 1 <= m <= |pauses| ==> !interrupted(m)
    {
      calls := calls + 1;
      var reply := replies(calls);
      if reply.Some? {
        return reply, calls, pauses;
      }
      if calls < maxAttempts {
        pauses := pauses + [backoff * calls];
        if interrupted(calls) {
          return None, calls, pauses;
        }
      }
    }
    result := None;
  }
}

/** The approval transactions. */
module ApprovalService {
  import opened JobStatus
  import opened PlatformJobs
  import opened JobWorker
  import AgentGraph
  import opened Wrappers

  /** Moving a job to WAITING_APPROVAL from wherever it stands. */
  function Waiting(job: Job, now: nat): Option<Job> {
    var planned := if job.status == Created then Moved(job, Planning, now) else Some(job);
    if planned.None? then None
    else
      var validated := if planned.value.status == Planning then Moved(planned.value, Validating, now) else planned;
      if validated.None? then None else Moved(validated.value, WaitingApproval, now)
  }

  /** The job and its approval after a request; `None` is a rolled-back transaction. */
  function Requested(job: Job, approval: Option<ApprovalRow>, thread: nat, now: nat): Option<(Job, ApprovalRow)> {
    if approval.Some? then Some((job, approval.value))
    else
      var waiting := Waiting(job, now);
      if waiting.None? then None else Some((waiting.value.(thread := Some(thread)), PENDING_ROW))
  }

  function DecisionStatus(decision: AgentGraph.Decision): ApprovalStatus {
    if decision == AgentGraph.Approved then Granted else Refused
  }

  /** The job after a decision, once the agent has been resumed. */
  function DecidedJob(job: Job, decision: AgentGraph.Decision, result: AgentResult, now: nat): Option<Job> {
    var moved :=
      if decision == AgentGraph.Denied then Moved(job, Rejected, now)
      else
        var running := Moved(job, Running, now);
        if running.None? then None
        else if result.status == AgentGraph.COMPLETED then Moved(running.value, Completed, now)
        else if result.status == AgentGraph.FAILED then Moved(running.value, Failed, now)
        else running;
    if moved.None? || result.state.None? then moved else Some(moved.value.(result := Stored(result)))
  }

  lemma WaitingKeeps(job: Job, now: nat)
    requires JobOk(job)
    ensures Waiting(job, now).Some? ==> JobOk(Waiting(job, now).value) && !IsTerminal(job.status)
  {
    MovedIfKeeps(job, job.status == Created, Planning, now);
    var planned := Planned(job, now);
    if planned.Some? {
      MovedIfKeeps(planned.value, planned.value.status == Planning, Validating, now);
      var validated := Validated(planned.value, WaitingApproval, now);
      if validated.Some? {
        MovedKeeps(validated.value, WaitingApproval, now);
      }
    }
  }

  lemma DecidedKeeps(job: Job, decision: AgentGraph.Decision, result: AgentResult, now: nat)
    requires JobOk(job)
    ensures DecidedJob(job, decision, result, now).Some? ==> JobOk(DecidedJob(job, decision, result, now).value)
    ensures DecidedJob(job, decision, result, now).Some? && IsTerminal(job.status) ==>
      decision == AgentGraph.Denied && job.status == Rejected
  {
    MovedKeeps(job, Rejected, now);
    MovedKeeps(job, Running, now);
    if Moved(job, Running, now).Some? {
      MovedKeeps(Moved(job, Running, now).value, Completed, now);
      MovedKeeps(Moved(job, Running, now).value, Failed, now);
    }
  }

  /** The statuses a job may have when a decision is committed. */
  function MayDecide(decision: AgentGraph.Decision): set<Status> {
    if decision == AgentGraph.Approved then {Validating, WaitingApproval, Running}
    else {Validating, WaitingApproval, Rejected}
  }

  /** A denied job is rejected; an approved one is where the resumed run is, and runs if that is paused
      again. The result of the run is stored if there is one. */
  ghost predicate IsDecided(before: Job, decision: AgentGraph.Decision, result: AgentResult, after: Job) {
    && (decision == AgentGraph.Denied ==> after.status == Rejected)
    && (decision == AgentGraph.Approved && result.status == AgentGraph.COMPLETED ==> after.status == Completed)
    && (decision == AgentGraph.Approved && result.status == AgentGraph.FAILED ==> after.status == Failed)
    && (decision == AgentGraph.Approved && result.status !in {AgentGraph.COMPLETED, AgentGraph.FAILED} ==>
          after.status == Running)
    && (result.state.Some? ==> IsStored(after.result, result.state, result.errored))
    && (result.state.None? ==> after.result == before.result)
    && after.thread == before.thread && after.version == before.version
  }

  lemma DecidedMeaning(job: Job, decision: AgentGraph.Decision, result: AgentResult, now: nat)
    ensures DecidedJob(job, decision, result, now).Some? <==> job.status in MayDecide(decision)
    ensures DecidedJob(job, decision, result, now).Some? ==>
      IsDecided(job, decision, result, DecidedJob(job, decision, result, now).value)
  {
  }

  /** Exactly an open job that does not run yet can be made to wait. */
  lemma WaitingMeaning(job: Job, now: nat)
    ensures Waiting(job, now).Some? <==> job.status in {Created, Planning, Validating, WaitingApproval}
    ensures Waiting(job, now).Some? ==>
      Waiting(job, now).value.status == WaitingApproval && OnlyMoved(job, Waiting(job, now).value)
  {
  }

  method AdvanceToWaiting(job: AnalysisJob, now: nat) returns (ok: bool)
    modifies job
    ensures ok == Waiting(old(job.View()), now).Some?
    ensures ok ==> job.View() == Waiting(old(job.View()), now).value
    ensures ok <==> old(job.View()).status in {Created, Planning, Validating, WaitingApproval}
    ensures ok ==> job.View().status == WaitingApproval && OnlyMoved(old(job.View()), job.View())
  {
    WaitingMeaning(job.View(), now);
    ok := true;
    if job.status == Created {
      ok := job.TransitionTo(Planning, now);
      if !ok { return; }
    }
    if job.status == Planning {
      ok := job.TransitionTo(Validating, now);
      if !ok { return; }
    }
    ok := job.TransitionTo(WaitingApproval, now);
  }

  /** A request finds the job's approval or makes one, moving the job to WAITING_APPROVAL. */
  method Request(job: AnalysisJob, existing: Approval?, thread: nat, now: nat) returns (approval: Approval?)
    modifies job
    ensures existing != null ==> approval == existing && job.View() == old(job.View())
    ensures existing == null ==>
      var requested := Requested(old(job.View()), None, thread, now);
      && (approval != null <==> requested.Some?)
      && (approval != null ==>
            fresh(approval) && job.View() == requested.value.0 && approval.View() == requested.value.1)
    ensures existing == null ==>
      (approval != null <==> old(job.View()).status in {Created, Planning, Validating, WaitingApproval})
    ensures existing == null && approval != null ==>
      && job.View().status == WaitingApproval && job.View().thread == Some(thread)
      && job.View().result == old(job.View()).result
      && approval.status == Pending && approval.decidedBy == None && approval.decidedAt == None
  {
    if existing != null {
      return existing;
    }
    var ok := AdvanceToWaiting(job, now);
    if !ok {
      return null;
    }
    job.AttachWorkflowThread(thread);
    approval := new Approval();
  }

  /** The transaction behind a decision, after the agent has answered. */
  method Decide(approval: Approval, job: AnalysisJob, decision: AgentGraph.Decision, reviewer: nat,
                comment: Option<string>, result: AgentResult, now: nat) returns (outcome: TxOutcome)
    modifies approval, job
    ensures old(approval.status) != Pending ==>
      outcome == RolledBack && job.View() == old(job.View()) && approval.View() == old(approval.View())
    ensures old(approval.status) == Pending ==>
      var decided := DecidedJob(old(job.View()), decision, result, now);
      && outcome == (if decided.Some? then Written else RolledBack)
      && (decided.Some? ==> job.View() == decided.value)
      && (decided.Some? ==>
            approval.View() == ApprovalRow(DecisionStatus(decision), Some(reviewer), comment, Some(now)))
    ensures outcome == Written <==>
      old(approval.status) == Pending && old(job.View()).status in MayDecide(decision)
    ensures outcome == Written ==>
      && approval.status == (if decision == AgentGraph.Approved then Granted else Refused)
      && IsDecided(old(job.View()), decision, result, job.View())
  {
    DecidedMeaning(job.View(), decision, result, now);
    var ok := approval.Decide(DecisionStatus(decision), reviewer, comment, now);
    if !ok {
      return RolledBack;
    }
    if decision == AgentGraph.Denied {
      ok := job.TransitionTo(Rejected, now);
      if !ok { return RolledBack; }
    } else {
      ok := job.TransitionTo(Running, now);
      if !ok { return RolledBack; }
      if result.status == AgentGraph.COMPLETED {
        ok := job.TransitionTo(Completed, now);
        if !ok { return RolledBack; }
      } else if result.status == AgentGraph.FAILED {
        ok := job.TransitionTo(Failed, now);
        if !ok { return RolledBack; }
      }
    }
    if result.state.Some? {
      job.StoreAgentResult(Stored(result));
    }
    outcome := Written;
  }
}

/** The per-job dispatch lease in Redis. */
module DispatchLease {
  import opened Wrappers

  /** What becomes of one command: it runs and is answered, it runs and the caller gets an exception
      instead of the answer, or it never arrives. */
  datatype CommandReply = Answered | ReplyLost | Unreachable

  /** The holder after an attempt to acquire. */
  function AfterAcquire(holder: Option<nat>, owner: nat, reply: CommandReply): Option<nat> {
    if reply != Unreachable && holder.None? then Some(owner) else holder
  }

  /** Without an answer everyone may go ahead. */
  predicate Acquires(holder: Option<nat>, reply: CommandReply) {
    reply != Answered || holder.None?
  }

  /** A release deletes the key only if the owner still holds it. */
  function AfterRelease(holder: Option<nat>, owner: nat, reply: CommandReply): Option<nat> {
    if reply != Unreachable && holder == Some(owner) then None else holder
  }

  class JobDispatchLease {
    var keys: map<nat, nat>

    constructor ()
      ensures keys == map[]
    {
      keys := map[];
    }

    function Holder(job: nat): Option<nat>
      reads this
    {
      if job in keys then Some(keys[job]) else None
    }

    method Acquire(job: nat, owner: nat, reply: CommandReply) returns (acquired: bool)
      modifies this
      ensures acquired == Acquires(old(Holder(job)), reply)
      ensures Holder(job) == AfterAcquire(old(Holder(job)), owner, reply)
      ensures reply == Answered ==> (acquired <==> old(Holder(job)) == None)
      ensures reply != Answered ==> acquired
      ensures reply != Unreachable && old(Holder(job)) == None ==> Holder(job) == Some(owner)
      ensures reply == Unreachable || old(Holder(job)) != None ==> Holder(job) == old(Holder(job))
      ensures forall other :: other != job ==> Holder(other) == old(Holder(other))
    {
      if reply == Unreachable {
        return true;
      }
      acquired := job !in keys;
      if acquired {
        keys := keys[job := owner];
      }
      if reply == ReplyLost {
        acquired := true;
      }
    }

    method Release(job: nat, owner: nat, reply: CommandReply)
      modifies this
      ensures Holder(job) == AfterRelease(old(Holder(job)), owner, reply)
      ensures reply != Unreachable && old(Holder(job)) == Some(owner) ==> Holder(job) == None
      ensures reply == Unreachable || old(Holder(job)) != Some(owner) ==> Holder(job) == old(Holder(job))
      ensures forall other :: other != job ==> Holder(other) == old(Holder(other))
    {
      if reply != Unreachable && job in keys && keys[job] == owner {
        keys := keys - {job};
      }
    }
  }
}

/** The safe query pipeline: guard, cost estimate, execution, and one audit event per statement. */
module SafeQuery {
  import AgentGraph
  import opened QueryExecutor
  import opened Wrappers

  type Policy = AgentGraph.Policy

  type Guard = (string, Policy) -> AgentGraph.Verdict

  datatype Estimate = Estimate(totalCost: real, planRows: nat)

  /** What a planner or an executor does when it is called. */
  datatype Reply<+T> = Returned(value: T) | SafetyError(code: string) | OtherError

  /** The world's answers to one statement; `recorded` says whether the audit sink takes its event. */
  datatype Replies = Replies(plan: Reply<Estimate>, run: Reply<ResultSet>, recorded: bool)

  datatype Status = SUCCEEDED | REJECTED | APPROVAL_REQUIRED | FAILED

  datatype AuditEvent = AuditEvent(
    status: Status, reason: string, sql: string, plannerInvoked: bool, executorInvoked: bool,
    estimate: Option<Estimate>, result: Option<ResultSet>)

  datatype Failure =
    | PolicyViolation(reason: string)
    | QueryError(code: string)
    | AuditFailed
    | ApprovalRequired(reason: string, estimate: Estimate)

  datatype Outcome = Succeeded(result: ResultSet) | Raised(error: Failure)

  /** A call that left the service, with the query it was about. */
  datatype Call = Planned(query: string) | Run(query: string)

  const EXECUTION_FAILED := "QUERY_EXECUTION_FAILED"

  function ApprovalReason(estimate: Estimate, policy: Policy): Option<string> {
    if estimate.totalCost > policy.maxTotalCost then Some("TOTAL_COST_LIMIT_EXCEEDED")
    else if estimate.planRows > policy.maxPlanRows then Some("PLAN_ROWS_LIMIT_EXCEEDED")
    else None
  }

  function CodeOf<T>(reply: Reply<T>): string
    requires !reply.Returned?
  {
    if reply.SafetyError? then reply.code else EXECUTION_FAILED
  }

  /** May the accepted query run: no estimator, or an estimate within the policy. */
  predicate InBudget(estimates: bool, policy: Policy, plan: Reply<Estimate>) {
    !estimates || (plan.Returned? && ApprovalReason(plan.value, policy).None?)
  }

  /** The calls one statement causes. */
  function CallsFor(guard: Guard, estimates: bool, sql: string, policy: Policy, replies: Replies): seq<Call> {
    match guard(sql, policy)
    case Refused(_) => []
    case Accepted(query) =>
      (if estimates then [Planned(query)] else [])
      + (if InBudget(estimates, policy, replies.plan) then [Run(query)] else [])
  }

  /** How a statement ends if its event can be recorded. */
  function EndOf(guard: Guard, estimates: bool, sql: string, policy: Policy, replies: Replies): Outcome {
    var verdict := guard(sql, policy);
    if verdict.Refused? then Raised(PolicyViolation(verdict.reason))
    else if estimates && !replies.plan.Returned? then Raised(QueryError(CodeOf(replies.plan)))
    else if !InBudget(estimates, policy, replies.plan) then
      Raised(ApprovalRequired(ApprovalReason(replies.plan.value, policy).value, replies.plan.value))
    else if replies.run.Returned? then Succeeded(replies.run.value)
    else Raised(QueryError(CodeOf(replies.run)))
  }

  /** The one event of a statement. */
  function EventOf(guard: Guard, estimates: bool, sql: string, policy: Policy, replies: Replies): AuditEvent {
    var end := EndOf(guard, estimates, sql, policy, replies);
    var planned := guard(sql, policy).Accepted? && estimates;
    var (status, reason) :=
      match end
      case Succeeded(_) => (SUCCEEDED, "QUERY_EXECUTED")
      case Raised(PolicyViolation(reason)) => (REJECTED, reason)
      case Raised(ApprovalRequired(reason, _)) => (APPROVAL_REQUIRED, reason)
      case Raised(QueryError(code)) => (FAILED, code)
      case Raised(AuditFailed) => (FAILED, "");
    AuditEvent(status, reason, sql, planned, guard(sql, policy).Accepted? && InBudget(estimates, policy, replies.plan),
               if planned && replies.plan.Returned? then Some(replies.plan.value) else None,
               if end.Succeeded? then Some(end.result) else None)
  }

  /** What an audit event must say about a statement that ended so, given the calls it caused and
      what the planner answered. */
  ghost predicate Reports(event: AuditEvent, sql: string, calls: seq<Call>, plan: Reply<Estimate>, end: Outcome) {
    && event.sql == sql && (event.result.Some? <==> end.Succeeded?)
    && event.estimate == (if event.plannerInvoked && plan.Returned? then Some(plan.value) else None)
    && (event.plannerInvoked <==> exists query :: Planned(query) in calls)
    && (event.executorInvoked <==> exists query :: Run(query) in calls)
    && match end
       case Succeeded(result) =>
         event.status == SUCCEEDED && event.reason == "QUERY_EXECUTED" && event.result == Some(result)
       case Raised(PolicyViolation(reason)) => event.status == REJECTED && event.reason == reason
       case Raised(ApprovalRequired(reason, estimate)) =>
         event.status == APPROVAL_REQUIRED && event.reason == reason && event.estimate == Some(estimate)
       case Raised(QueryError(code)) => event.status == FAILED && event.reason == code
       case Raised(AuditFailed) => false
  }

  /** How a statement must end, by the world's answers in the order in which they are asked for. */
  ghost predicate EndsBy(guard: Guard, estimates: bool, sql: string, policy: Policy, replies: Replies, end: Outcome) {
    match guard(sql, policy)
    case Refused(reason) => end == Raised(PolicyViolation(reason))
    case Accepted(_) =>
      if estimates && replies.plan.SafetyError? then end == Raised(QueryError(replies.plan.code))
      else if estimates && replies.plan.OtherError? then end == Raised(QueryError("QUERY_EXECUTION_FAILED"))
      else if estimates && replies.plan.value.totalCost > policy.maxTotalCost then
        end == Raised(ApprovalRequired("TOTAL_COST_LIMIT_EXCEEDED", replies.plan.value))
      else if estimates && replies.plan.value.planRows > policy.maxPlanRows then
        end == Raised(ApprovalRequired("PLAN_ROWS_LIMIT_EXCEEDED", replies.plan.value))
      else
        match replies.run
        case Returned(result) => end == Succeeded(result)
        case SafetyError(code) => end == Raised(QueryError(code))
        case OtherError => end == Raised(QueryError("QUERY_EXECUTION_FAILED"))
  }

  lemma EndMeaning(guard: Guard, estimates: bool, sql: string, policy: Policy, replies: Replies)
    ensures EndsBy(guard, estimates, sql, policy, replies, EndOf(guard, estimates, sql, policy, replies))
  {
  }

  class SafeQueryService {
    const guard: Guard
    const estimates: bool
    /** The audit sink's events, and the calls made, oldest first. */
    var events: seq<AuditEvent>
    ghost var calls: seq<Call>

    constructor (guard: Guard, estimates: bool)
      ensures this.guard == guard && this.estimates == estimates && events == [] && calls == []
    {
      this.guard, this.estimates, events, calls := guard, estimates, [], [];
    }

    method Record(event: AuditEvent, accepted: bool)
      modifies this`events
      ensures events == old(events) + if accepted then [event] else []
    {
      if accepted {
        events := events + [event];
      }
    }

    method ExecuteFixed(sql: string, policy: Policy, replies: Replies) returns (outcome: Outcome)
      modifies this
      ensures calls == old(calls) + CallsFor(guard, estimates, sql, policy, replies)
      ensures events == old(events) + if replies.recorded then [EventOf(guard, estimates, sql, policy, replies)] else []
      ensures outcome == if replies.recorded then EndOf(guard, estimates, sql, policy, replies) else Raised(AuditFailed)
      ensures replies.recorded ==> EndsBy(guard, estimates, sql, policy, replies, outcome)
      ensures !replies.recorded ==> outcome == Raised(AuditFailed) && events == old(events)
    {
      EndMeaning(guard, estimates, sql, policy, replies);
      var verdict := guard(sql, policy);
      if verdict.Refused? {
        Record(AuditEvent(REJECTED, verdict.reason, sql, false, false, None, None), replies.recorded);
        return Raised(if replies.recorded then PolicyViolation(verdict.reason) else AuditFailed);
      }
      var estimate := None;
      if estimates {
        calls := calls + [Planned(verdict.query)];
        if !replies.plan.Returned? {
          var code := CodeOf(replies.plan);
          Record(AuditEvent(FAILED, code, sql, true, false, None, None), replies.recorded);
          return Raised(if replies.recorded then QueryError(code) else AuditFailed);
        }
        estimate := Some(replies.plan.value);
        var reason := ApprovalReason(replies.plan.value, policy);
        if reason.Some? {
          Record(AuditEvent(APPROVAL_REQUIRED, reason.value, sql, true, false, estimate, None), replies.recorded);
          return Raised(if replies.recorded then ApprovalRequired(reason.value, replies.plan.value) else AuditFailed);
        }
      }
      calls := calls + [Run(verdict.query)];
      if !replies.run.Returned? {
        var code := CodeOf(replies.run);
        Record(AuditEvent(FAILED, code, sql, estimate.Some?, true, estimate, None), replies.recorded);
        return Raised(if replies.recorded then QueryError(code) else AuditFailed);
      }
      var result := replies.run.value;
      Record(AuditEvent(SUCCEEDED, "QUERY_EXECUTED", sql, estimate.Some?, true, estimate, Some(result)),
             replies.recorded);
      outcome := if replies.recorded then Succeeded(result) else Raised(AuditFailed);
    }
  }

  /** The event tells the truth: its flags are the calls made, its status is how the statement ended. */
  lemma EventReports(guard: Guard, estimates: bool, sql: string, policy: Policy, replies: Replies)
    ensures Reports(EventOf(guard, estimates, sql, policy, replies), sql,
                    CallsFor(guard, estimates, sql, policy, replies),
                    replies.plan, EndOf(guard, estimates, sql, policy, replies))
  {
    var verdict := guard(sql, policy);
    if verdict.Accepted? {
      var made := CallsFor(guard, estimates, sql, policy, replies);
      assert estimates ==> made[0] == Planned(verdict.query);
      assert InBudget(estimates, policy, replies.plan) ==> made[|made| - 1] == Run(verdict.query);
    }
  }

  /** The executor runs exactly when the guard accepted the statement and its estimate, if one is
      made, came back within the budget; it runs once, and it runs what the guard returned. */
  lemma RunIffAllowed(guard: Guard, estimates: bool, sql: string, policy: Policy, replies: Replies, query: string)
    ensures Run(query) in CallsFor(guard, estimates, sql, policy, replies) <==>
      && guard(sql, policy) == AgentGraph.Accepted(query)
      && (estimates ==> && replies.plan.Returned?
                        && replies.plan.value.totalCost <= policy.maxTotalCost
                        && replies.plan.value.planRows <= policy.maxPlanRows)
    ensures multiset(CallsFor(guard, estimates, sql, policy, replies))[Run(query)] <= 1
    ensures Run(query) in CallsFor(guard, estimates, sql, policy, replies) ==>
      CallsFor(guard, estimates, sql, policy, replies) == (if estimates then [Planned(query)] else []) + [Run(query)]
  {
    var verdict := guard(sql, policy);
    if verdict.Accepted? && estimates {
      var made := CallsFor(guard, estimates, sql, policy, replies);
      assert made == [Planned(verdict.query)] || made == [Planned(verdict.query), Run(verdict.query)];
    }
  }

  /** A statement succeeds exactly when it was run and the executor returned; it needs an approval
      exactly when it was planned and only the estimate kept it from being run. */
  lemma EndsAsCalled(guard: Guard, estimates: bool, sql: string, policy: Policy, replies: Replies)
    ensures var calls := CallsFor(guard, estimates, sql, policy, replies);
      var end := EndOf(guard, estimates, sql, policy, replies);
      && (end.Succeeded? <==> (exists query :: Run(query) in calls) && replies.run.Returned?)
      && (end.Succeeded? ==> end.result == replies.run.value)
      && ((end.Raised? && end.error.ApprovalRequired?) <==>
            && (exists query :: Planned(query) in calls) && replies.plan.Returned?
            && !(exists query :: Run(query) in calls))
      && ((end.Raised? && end.error.PolicyViolation?) <==> guard(sql, policy).Refused?)
  {
    EventReports(guard, estimates, sql, policy, replies);
  }
}

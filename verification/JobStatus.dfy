/** The job status enum and its transition table, shared by the worker, the approval
    service and the event stream. */
module JobStatus {

  datatype Status =
    | Created
    | Planning
    | Validating
    | WaitingApproval
    | Running
    | Completed
    | Rejected
    | Failed
    | Cancelled

  predicate IsTerminal(status: Status) {
    status in {Completed, Rejected, Failed, Cancelled}
  }

  function AllowedTransitions(current: Status): set<Status> {
    match current
    case Created => {Planning, Failed, Cancelled}
    case Planning => {Validating, Failed, Cancelled}
    case Validating => {Running, WaitingApproval, Rejected, Failed, Cancelled}
    case WaitingApproval => {Running, Rejected, Failed, Cancelled}
    case Running => {Completed, Failed, Cancelled}
    case _ => {}
  }

  /** A replayed status update (current == target) is an idempotent no-op. */
  predicate CanTransition(current: Status, target: Status) {
    current == target || target in AllowedTransitions(current)
  }

  /** The height of a status: every real change of status climbs it. */
  function Rank(status: Status): (rank: nat)
    ensures rank <= 5
    ensures rank == 5 <==> IsTerminal(status)
  {
    match status
    case Created => 0
    case Planning => 1
    case Validating => 2
    case WaitingApproval => 3
    case Running => 4
    case _ => 5
  }

  /** Statuses in the order a job went through them, each one different from the last. */
  ghost predicate IsHistory(history: seq<Status>) {
    && history != []
    && history[0] == Created
    && forall i, j :: 0 <= i < j < |history| && j == i + 1 ==>
      history[i] != history[j] && CanTransition(history[i], history[j])
  }

  lemma {:induction false} HistoryClimbs(history: seq<Status>, i: nat, j: nat)
    requires IsHistory(history) && i < j < |history|
    ensures Rank(history[i]) + (j - i) <= Rank(history[j])
    ensures !IsTerminal(history[i])
    decreases j - i
  {
    assert history[i] != history[i + 1] && CanTransition(history[i], history[i + 1]);
    if i + 1 < j {
      HistoryClimbs(history, i + 1, j);
    }
  }

  /** A job changes status at most five times, whatever drives it. */
  lemma AtMostFiveChanges(history: seq<Status>)
    requires IsHistory(history)
    ensures |history| - 1 <= 5
  {
    if |history| > 1 {
      HistoryClimbs(history, 0, |history| - 1);
    }
  }

  /** What must come before: a job runs or waits only once it is validated, and completes only when it runs. */
  lemma EachStatusIsPrepared(history: seq<Status>, i: nat)
    requires IsHistory(history) && i < |history|
    ensures history[i] == Created <==> i == 0
    ensures i > 0 ==> match history[i]
      case Created => false
      case Planning => history[i - 1] == Created
      case Validating => history[i - 1] == Planning
      case WaitingApproval => history[i - 1] == Validating
      case Running => history[i - 1] in {Validating, WaitingApproval}
      case Completed => history[i - 1] == Running
      case Rejected => history[i - 1] in {Validating, WaitingApproval}
      case Failed => !IsTerminal(history[i - 1])
      case Cancelled => !IsTerminal(history[i - 1])
  {
    if i > 0 {
      var before := history[i - 1];
      assert history[i - 1] != history[i] && CanTransition(before, history[i]);
    }
  }

  /** Every job that is not over can fail or be cancelled. */
  lemma OpenJobsCanEnd(status: Status)
    requires status !in {Completed, Rejected, Failed, Cancelled}
    ensures CanTransition(status, Failed) && CanTransition(status, Cancelled)
  {
  }
}

/** From a question to an answer: one table selection, then drafts until one runs or the repairs are used up. */
module Nl2Sql {
  import opened Sequences
  import opened Text
  import AgentGraph
  import opened QueryExecutor
  import opened SafeQuery
  import opened Wrappers

  // ----- Table names as the model reports them -----

  /** A bare name, or one qualified with the one schema allowed. */
  function TableOf(value: string, schema: string): Option<string> {
    var parts := Split(value, '.');
    if |parts| == 1 && parts[0] != "" then Some(parts[0])
    else if |parts| == 2 && parts[0] == schema && parts[1] != "" then Some(parts[1])
    else None
  }

  /** Exactly the bare and the properly qualified spelling of a table are read as that table. */
  lemma TableOfMeaning(value: string, schema: string, table: string)
    requires '.' !in schema
    ensures TableOf(value, schema) == Some(table) <==>
      table != "" && '.' !in table && (value == table || value == schema + "." + table)
  {
    JoinSplit(value, '.');
    var parts := Split(value, '.');
    if |parts| == 2 {
      assert parts[1..] == [parts[1]];
      assert value == parts[0] + "." + parts[1];
    }
    if table != "" && '.' !in table {
      if value == table {
        SplitSingle(table, '.');
      } else if value == schema + "." + table {
        SplitPrefix(schema, table, '.');
        SplitSingle(table, '.');
      }
    }
  }

  /** The tables reported, or none if a name is malformed. */
  function TablesOf(values: seq<string>, schema: string): Option<seq<string>> {
    if values == [] then Some([])
    else
      var last := TableOf(values[|values| - 1], schema);
      var before := TablesOf(values[..|values| - 1], schema);
      if before.None? || last.None? then None else Some(before.value + [last.value])
  }

  ghost function NormalizeTables(values: seq<string>, schema: string): Option<seq<string>> {
    var tables := TablesOf(values, schema);
    if tables.Some? && Distinct(tables.value) then tables else None
  }

  lemma {:induction false} TablesOfPrefix(values: seq<string>, schema: string, n: nat)
    requires n <= |values| && TablesOf(values[..n], schema).None?
    ensures TablesOf(values, schema).None?
    decreases |values|
  {
    if n == |values| {
      assert values[..n] == values;
    } else {
      assert values[..|values| - 1][..n] == values[..n];
      TablesOfPrefix(values[..|values| - 1], schema, n);
    }
  }

  method NormalizeReportedTables(values: seq<string>, schema: string) returns (tables: Option<seq<string>>)
    ensures tables == NormalizeTables(values, schema)
  {
    var normalized: seq<string> := [];
    for i := 0 to |values|
      invariant TablesOf(values[..i], schema) == Some(normalized)
    {
      var table := TableOf(values[i], schema);
      assert values[..i + 1][..i] == values[..i];
      if table.None? {
        TablesOfPrefix(values, schema, i + 1);
        return None;
      }
      normalized := normalized + [table.value];
    }
    assert values[..|values|] == values;
    DistinctIsCount(normalized);
    tables := if |Elements(normalized)| == |normalized| then Some(normalized) else None;
  }

  /** The accepted names are those of the reported values, each once. */
  lemma {:induction false} TablesOfMeaning(values: seq<string>, schema: string)
    ensures TablesOf(values, schema).Some? <==> forall i :: 0 <= i < |values| ==> TableOf(values[i], schema).Some?
    ensures TablesOf(values, schema).Some? ==>
      var tables := TablesOf(values, schema).value;
      |tables| == |values| && forall i :: 0 <= i < |values| ==> TableOf(values[i], schema) == Some(tables[i])
  {
    if values != [] {
      var before := values[..|values| - 1];
      TablesOfMeaning(before, schema);
      assert forall i :: 0 <= i < |before| ==> values[i] == before[i];
    }
  }

  lemma NormalizeMeaning(values: seq<string>, schema: string)
    ensures NormalizeTables(values, schema).Some? <==>
      && (forall i :: 0 <= i < |values| ==> TableOf(values[i], schema).Some?)
      && forall i, j :: 0 <= i < j < |values| ==> TableOf(values[i], schema) != TableOf(values[j], schema)
  {
    TablesOfMeaning(values, schema);
    if TablesOf(values, schema).Some? {
      var tables := TablesOf(values, schema).value;
      DistinctIsCount(tables);
      assert Distinct(tables) <==>
        forall i, j :: 0 <= i < j < |values| ==> TableOf(values[i], schema) != TableOf(values[j], schema);
    }
  }

  // ----- Usage -----

  datatype Usage = Usage(input: Option<nat>, output: Option<nat>, total: Option<nat>)

  function OrZero(count: Option<nat>): nat {
    if count.None? then 0 else count.value
  }

  function AddCount(first: Option<nat>, second: Option<nat>): Option<nat> {
    if first.None? && second.None? then None else Some(OrZero(first) + OrZero(second))
  }

  function AddUsage(left: Usage, right: Usage): Usage {
    Usage(AddCount(left.input, right.input), AddCount(left.output, right.output), AddCount(left.total, right.total))
  }

  // ----- Rounds -----

  datatype Draft = Draft(tablesUsed: seq<string>, sql: string)

  /** What the model and the database answer in one round; no draft means the model client gave up. */
  datatype Round = Round(draft: Option<Draft>, attempts: nat, usage: Usage, replies: Replies)

  /** What the rounds of one question have in common. */
  datatype Setup = Setup(guard: Guard, estimates: bool, policy: Policy, schema: string, tables: seq<string>)

  datatype AnswerError =
    | QuestionRejected
    | ModelFailed
    | InvalidTables
    | ApprovalNeeded(reason: string, estimate: Estimate)
    | RepairsExhausted(code: string)

  datatype RoundEnd = Answered(result: ResultSet) | Stopped(error: AnswerError) | Repairable(code: string)

  datatype NL2SQLResult =
    | Finished(tables: seq<string>, sql: string, repairCount: nat, modelCalls: nat, usage: Usage, result: ResultSet)
    | Failed(error: AnswerError)

  ghost predicate DraftTablesOk(draft: Draft, tables: seq<string>, schema: string) {
    var reported := NormalizeTables(draft.tablesUsed, schema);
    reported.Some? && forall t :: t in reported.value ==> t in tables
  }

  /** A draft may use the tables it reports exactly if each is well formed and selected, and none is named twice. */
  lemma DraftTablesMeaning(draft: Draft, tables: seq<string>, schema: string)
    ensures DraftTablesOk(draft, tables, schema) <==>
      && (forall i :: 0 <= i < |draft.tablesUsed| ==>
            var table := TableOf(draft.tablesUsed[i], schema);
            table.Some? && table.value in tables)
      && forall i, j :: 0 <= i < j < |draft.tablesUsed| ==>
           TableOf(draft.tablesUsed[i], schema) != TableOf(draft.tablesUsed[j], schema)
  {
    var values := draft.tablesUsed;
    NormalizeMeaning(values, schema);
    TablesOfMeaning(values, schema);
    if NormalizeTables(values, schema).Some? {
      var reported := NormalizeTables(values, schema).value;
      assert forall t :: t in reported <==> exists i :: 0 <= i < |values| && TableOf(values[i], schema) == Some(t);
      assert forall i :: 0 <= i < |values| ==> reported[i] in reported;
    }
  }

  /** Does the round get as far as the safe query service? */
  ghost predicate Reaches(setup: Setup, round: Round) {
    round.draft.Some? && DraftTablesOk(round.draft.value, setup.tables, setup.schema)
  }

  function ErrorCode(error: Failure): string {
    match error
    case PolicyViolation(reason) => if reason != "" then reason else "SQL_POLICY_VIOLATION"
    case QueryError(code) => code
    case AuditFailed => "QUERY_AUDIT_FAILED"
    case ApprovalRequired(reason, _) => reason
  }

  ghost function OutcomeOf(setup: Setup, round: Round): Outcome
    requires Reaches(setup, round)
  {
    if round.replies.recorded
    then EndOf(setup.guard, setup.estimates, round.draft.value.sql, setup.policy, round.replies)
    else Raised(AuditFailed)
  }

  ghost function EndOfRound(setup: Setup, round: Round): RoundEnd {
    if round.draft.None? then Stopped(ModelFailed)
    else if !Reaches(setup, round) then Stopped(InvalidTables)
    else match OutcomeOf(setup, round)
      case Succeeded(result) => Answered(result)
      case Raised(ApprovalRequired(reason, estimate)) => Stopped(ApprovalNeeded(reason, estimate))
      case Raised(error) => Repairable(ErrorCode(error))
  }

  ghost function RoundEvent(setup: Setup, round: Round): AuditEvent
    requires Reaches(setup, round)
  {
    EventOf(setup.guard, setup.estimates, round.draft.value.sql, setup.policy, round.replies)
  }

  ghost function RoundEvents(setup: Setup, round: Round): seq<AuditEvent> {
    if Reaches(setup, round) && round.replies.recorded then [RoundEvent(setup, round)] else []
  }

  ghost function RoundCalls(setup: Setup, round: Round): seq<Call> {
    if Reaches(setup, round)
    then CallsFor(setup.guard, setup.estimates, round.draft.value.sql, setup.policy, round.replies) else []
  }

  /** The audit events of the first `n` rounds. */
  ghost function Ledger(setup: Setup, world: nat -> Round, n: nat): seq<AuditEvent> {
    if n == 0 then [] else Ledger(setup, world, n - 1) + RoundEvents(setup, world(n - 1))
  }

  ghost function CallsUpTo(setup: Setup, world: nat -> Round, n: nat): seq<Call> {
    if n == 0 then [] else CallsUpTo(setup, world, n - 1) + RoundCalls(setup, world(n - 1))
  }

  function AttemptsUpTo(world: nat -> Round, n: nat): nat {
    if n == 0 then 0 else AttemptsUpTo(world, n - 1) + world(n - 1).attempts
  }

  function UsageUpTo(selection: Usage, world: nat -> Round, n: nat): Usage {
    if n == 0 then selection else AddUsage(UsageUpTo(selection, world, n - 1), world(n - 1).usage)
  }

  /** Do the first `n` rounds all end in something to repair? */
  ghost predicate AllRepairable(setup: Setup, world: nat -> Round, n: nat) {
    n == 0 || (AllRepairable(setup, world, n - 1) && EndOfRound(setup, world(n - 1)).Repairable?)
  }

  /** The round that ends the loop: the first that needs no repair, or the one after the last repair. */
  ghost predicate IsLastRound(setup: Setup, world: nat -> Round, maxRepairs: nat, n: nat) {
    && n <= maxRepairs && AllRepairable(setup, world, n)
    && (EndOfRound(setup, world(n)).Repairable? ==> n == maxRepairs)
  }

  lemma {:induction false} RepairableAt(setup: Setup, world: nat -> Round, n: nat, i: nat)
    requires AllRepairable(setup, world, n) && i < n
    ensures AllRepairable(setup, world, i) && EndOfRound(setup, world(i)).Repairable?
  {
    if i < n - 1 {
      RepairableAt(setup, world, n - 1, i);
    }
  }

  /** There is only one such round. */
  lemma LastRoundIsUnique(setup: Setup, world: nat -> Round, maxRepairs: nat, n: nat, m: nat)
    requires IsLastRound(setup, world, maxRepairs, n) && IsLastRound(setup, world, maxRepairs, m)
    ensures n == m
  {
    if n < m {
      RepairableAt(setup, world, m, n);
    } else if m < n {
      RepairableAt(setup, world, n, m);
    }
  }

  lemma OneMoreRound(setup: Setup, world: nat -> Round, n: nat, events: seq<AuditEvent>, calls: seq<Call>)
    ensures events + Ledger(setup, world, n) + RoundEvents(setup, world(n)) == events + Ledger(setup, world, n + 1)
    ensures calls + CallsUpTo(setup, world, n) + RoundCalls(setup, world(n)) == calls + CallsUpTo(setup, world, n + 1)
  {
  }

  /** The model's table selection, and what asking for it cost. */
  datatype Selected = Selected(tables: seq<string>, attempts: nat, usage: Usage)

  /** What the caller knows of a question: is it allowed, and what may be selected for it? */
  datatype Question = Question(allowed: bool, policy: Policy, schema: string, known: set<string>)

  datatype Prepared = Ready(tables: seq<string>) | Refused(error: AnswerError)

  /** The selection is kept if it is well formed, not too long, known and allowed. */
  ghost function Choose(q: Question, limit: nat, values: seq<string>): Option<seq<string>> {
    var tables := NormalizeTables(values, q.schema);
    if tables.Some? && |tables.value| == |values| && |tables.value| <= limit
       && forall t :: t in tables.value ==> t in q.known && t in q.policy.tables then tables else None
  }

  /** What is kept are the tables named, each known, allowed and once, and no more than the limit. */
  lemma ChooseMeaning(q: Question, limit: nat, values: seq<string>)
    ensures Choose(q, limit, values).Some? <==>
      && |values| <= limit
      && (forall i :: 0 <= i < |values| ==>
            var table := TableOf(values[i], q.schema);
            table.Some? && table.value in q.known && table.value in q.policy.tables)
      && forall i, j :: 0 <= i < j < |values| ==> TableOf(values[i], q.schema) != TableOf(values[j], q.schema)
  {
    NormalizeMeaning(values, q.schema);
    TablesOfMeaning(values, q.schema);
    if NormalizeTables(values, q.schema).Some? {
      var tables := NormalizeTables(values, q.schema).value;
      assert forall t :: t in tables <==> exists i :: 0 <= i < |values| && TableOf(values[i], q.schema) == Some(t);
      assert forall i :: 0 <= i < |values| ==> tables[i] in tables;
    }
  }

  /** The steps before the first draft. */
  ghost function Prepare(q: Question, limit: nat, selection: Option<Selected>): Prepared {
    if !q.allowed then Refused(QuestionRejected)
    else if q.policy.tables * q.known == {} then Refused(InvalidTables)
    else if selection.None? then Refused(ModelFailed)
    else
      var chosen := Choose(q, limit, selection.value.tables);
      if chosen.None? then Refused(InvalidTables) else Ready(chosen.value)
  }

  function Conclude(tables: seq<string>, draft: Option<Draft>, n: nat, modelCalls: nat, usage: Usage,
                    end: RoundEnd): NL2SQLResult
    requires end.Answered? ==> draft.Some?
  {
    match end
    case Answered(result) => Finished(tables, draft.value.sql, n, modelCalls, usage, result)
    case Stopped(error) => Failed(error)
    case Repairable(code) => Failed(RepairsExhausted(code))
  }

  /** What a caller gets when round `n` is the last. */
  ghost function ResultOf(setup: Setup, world: nat -> Round, n: nat, selected: Selected): NL2SQLResult {
    Conclude(setup.tables, world(n).draft, n, selected.attempts + AttemptsUpTo(world, n + 1),
             UsageUpTo(selected.usage, world, n + 1), EndOfRound(setup, world(n)))
  }

  // ----- What the answer says -----

  /** The code of a round that is to be repaired. */
  ghost predicate IsRepairCode(setup: Setup, round: Round, code: string)
    requires Reaches(setup, round)
  {
    var replies := round.replies;
    if !replies.recorded then code == "QUERY_AUDIT_FAILED"
    else match setup.guard(round.draft.value.sql, setup.policy)
      case Refused(reason) => code == reason
      case Accepted(_) =>
        if setup.estimates && !replies.plan.Returned? then
          code == if replies.plan.SafetyError? then replies.plan.code else "QUERY_EXECUTION_FAILED"
        else
          && !replies.run.Returned?
          && code == if replies.run.SafetyError? then replies.run.code else "QUERY_EXECUTION_FAILED"
  }

  /** How a round must end. */
  ghost predicate RoundEndsBy(setup: Setup, round: Round, end: RoundEnd) {
    match end
    case Stopped(ModelFailed) => round.draft.None?
    case Stopped(InvalidTables) => round.draft.Some? && !DraftTablesOk(round.draft.value, setup.tables, setup.schema)
    case Stopped(ApprovalNeeded(reason, estimate)) =>
      && Reaches(setup, round) && round.replies.recorded && setup.estimates
      && setup.guard(round.draft.value.sql, setup.policy).Accepted? && round.replies.plan == Returned(estimate)
      && (reason == "TOTAL_COST_LIMIT_EXCEEDED" ==> estimate.totalCost > setup.policy.maxTotalCost)
      && (reason != "TOTAL_COST_LIMIT_EXCEEDED" ==>
            reason == "PLAN_ROWS_LIMIT_EXCEEDED" && estimate.totalCost <= setup.policy.maxTotalCost
            && estimate.planRows > setup.policy.maxPlanRows)
    case Stopped(_) => false
    case Answered(result) =>
      && Reaches(setup, round) && round.replies.recorded && round.replies.run == Returned(result)
      && setup.guard(round.draft.value.sql, setup.policy).Accepted?
      && (setup.estimates ==>
            && round.replies.plan.Returned?
            && round.replies.plan.value.totalCost <= setup.policy.maxTotalCost
            && round.replies.plan.value.planRows <= setup.policy.maxPlanRows)
    case Repairable(code) => Reaches(setup, round) && IsRepairCode(setup, round, code)
  }

  lemma RoundEndMeaning(setup: Setup, round: Round)
    ensures RoundEndsBy(setup, round, EndOfRound(setup, round))
  {
    if Reaches(setup, round) {
      EndMeaning(setup.guard, setup.estimates, round.draft.value.sql, setup.policy, round.replies);
    }
  }

  /** The tables named, in their order. */
  ghost predicate AreTables(values: seq<string>, schema: string, tables: seq<string>) {
    && |tables| == |values|
    && forall i :: 0 <= i < |values| ==> TableOf(values[i], schema) == Some(tables[i])
  }

  /** The events an answered question leaves: the last one is that of the answer; and if the sink took every
      one, there is one for each repair and one more, and all but the last are rejections or failures. */
  ghost predicate LeavesEvents(world: nat -> Round, n: nat, sql: string, result: ResultSet, events: seq<AuditEvent>) {
    && events != []
    && events[|events| - 1].status == SUCCEEDED && events[|events| - 1].sql == sql
    && events[|events| - 1].result == Some(result)
    && (AllRecorded(world, n + 1) ==>
          && |events| == n + 1
          && forall i :: 0 <= i < n ==>
               && events[i].status in {REJECTED, FAILED}
               && world(i).draft.Some? && events[i].sql == world(i).draft.value.sql)
  }

  /** A finished answer: its count of repairs is that of the rounds before the last, its calls and its usage
      are those of the selection and of all these rounds, and its statement and result are the last round's. */
  ghost predicate IsFinished(setup: Setup, world: nat -> Round, selected: Selected, answer: NL2SQLResult)
    requires answer.Finished?
  {
    var n := answer.repairCount;
    && AllRepairable(setup, world, n)
    && answer.modelCalls == selected.attempts + AttemptsUpTo(world, n + 1)
    && (forall counter :: CountOf(answer.usage, counter) == Counted(Reported(selected.usage, world, n + 1, counter)))
    && world(n).draft.Some? && answer.sql == world(n).draft.value.sql
    && RoundEndsBy(setup, world(n), Answered(answer.result))
  }

  /** A question is drafted for if it is allowed, some table may be used for it, and the model selected no
      more tables than it may, each known, allowed and once. */
  ghost predicate Accepted(q: Question, limit: nat, selection: Option<Selected>) {
    && q.allowed && q.policy.tables * q.known != {} && selection.Some?
    && |selection.value.tables| <= limit
    && (forall i :: 0 <= i < |selection.value.tables| ==>
          var table := TableOf(selection.value.tables[i], q.schema);
          table.Some? && table.value in q.known && table.value in q.policy.tables)
    && forall i, j :: 0 <= i < j < |selection.value.tables| ==>
         TableOf(selection.value.tables[i], q.schema) != TableOf(selection.value.tables[j], q.schema)
  }

  lemma PreparedMeaning(q: Question, limit: nat, selection: Option<Selected>)
    ensures Prepare(q, limit, selection).Ready? <==> Accepted(q, limit, selection)
    ensures Accepted(q, limit, selection) ==>
      AreTables(selection.value.tables, q.schema, Prepare(q, limit, selection).tables)
  {
    if selection.Some? {
      ChooseMeaning(q, limit, selection.value.tables);
      TablesOfMeaning(selection.value.tables, q.schema);
    }
  }

  /** What the caller of a question with usable tables gets. */
  ghost predicate IsOutcome(setup: Setup, world: nat -> Round, selected: Selected, maxRepairs: nat,
                            answer: NL2SQLResult, events: seq<AuditEvent>) {
    match answer
    case Finished(tables, sql, n, _, _, result) =>
      n <= maxRepairs && IsFinished(setup, world, selected, answer) && LeavesEvents(world, n, sql, result, events)
    case Failed(RepairsExhausted(code)) =>
      AllRepairable(setup, world, maxRepairs) && RoundEndsBy(setup, world(maxRepairs), Repairable(code))
    case Failed(error) =>
      exists n :: 0 <= n <= maxRepairs && AllRepairable(setup, world, n) && RoundEndsBy(setup, world(n), Stopped(error))
  }

  lemma FinishedMeaning(setup: Setup, world: nat -> Round, n: nat, selected: Selected)
    requires AllRepairable(setup, world, n) && EndOfRound(setup, world(n)).Answered?
    ensures var answer := ResultOf(setup, world, n, selected);
      answer.Finished? && answer.repairCount == n && answer.tables == setup.tables
      && IsFinished(setup, world, selected, answer)
  {
    RoundEndMeaning(setup, world(n));
    var usage, rounds := UsageUpTo(selected.usage, world, n + 1), n + 1;
    forall counter
      ensures CountOf(usage, counter) == Counted(Reported(selected.usage, world, rounds, counter))
    {
      TotalUsage(selected.usage, world, n + 1, counter);
    }
  }

  lemma EventsMeaning(setup: Setup, world: nat -> Round, maxRepairs: nat, n: nat)
    requires IsLastRound(setup, world, maxRepairs, n) && EndOfRound(setup, world(n)).Answered?
    ensures world(n).draft.Some?
    ensures LeavesEvents(world, n, world(n).draft.value.sql, EndOfRound(setup, world(n)).result,
                         Ledger(setup, world, n + 1))
  {
    var events := Ledger(setup, world, n + 1);
    EventsOfRound(setup, world(n));
    RoundEndMeaning(setup, world(n));
    RoundReports(setup, world(n));
    assert events[|events| - 1] == RoundEvent(setup, world(n));
    if AllRecorded(world, n + 1) {
      OneEventARound(setup, world, maxRepairs, n);
      forall i | 0 <= i < n
        ensures events[i].status in {REJECTED, FAILED} && world(i).draft.Some?
             && events[i].sql == world(i).draft.value.sql
      {
        AnsweredLedger(setup, world, maxRepairs, n, i);
      }
    }
  }

  lemma OutcomeMeaning(setup: Setup, world: nat -> Round, maxRepairs: nat, n: nat, selected: Selected)
    requires IsLastRound(setup, world, maxRepairs, n)
    ensures IsOutcome(setup, world, selected, maxRepairs, ResultOf(setup, world, n, selected),
                      Ledger(setup, world, n + 1))
  {
    RoundEndMeaning(setup, world(n));
    if EndOfRound(setup, world(n)).Answered? {
      FinishedMeaning(setup, world, n, selected);
      EventsMeaning(setup, world, maxRepairs, n);
    }
  }

  class NL2SQLService {
    const safeQueries: SafeQueryService
    const maxSelectedTables: nat
    const maxRepairs: nat

    constructor (safeQueries: SafeQueryService, maxSelectedTables: nat, maxRepairs: nat)
      ensures this.safeQueries == safeQueries
      ensures this.maxSelectedTables == maxSelectedTables && this.maxRepairs == maxRepairs
    {
      this.safeQueries, this.maxSelectedTables, this.maxRepairs := safeQueries, maxSelectedTables, maxRepairs;
    }

    function SetupOf(q: Question, tables: seq<string>): (setup: Setup)
      ensures forall t :: t in setup.policy.tables <==> t in tables
      ensures setup.policy.maxTotalCost == q.policy.maxTotalCost && setup.policy.maxPlanRows == q.policy.maxPlanRows
    {
      Setup(safeQueries.guard, safeQueries.estimates, AgentGraph.RestrictTo(q.policy, tables), q.schema, tables)
    }

    method ValidateSelection(q: Question, values: seq<string>) returns (tables: Option<seq<string>>)
      ensures tables == Choose(q, maxSelectedTables, values)
    {
      tables := NormalizeReportedTables(values, q.schema);
      if tables.None? || |tables.value| != |values| || |tables.value| > maxSelectedTables
         || !(forall t :: t in tables.value ==> t in q.known && t in q.policy.tables) {
        tables := None;
      }
    }

    /** One draft: check the tables it reports, then run it. */
    method RunDraft(setup: Setup, round: Round) returns (end: RoundEnd)
      requires setup.guard == safeQueries.guard && setup.estimates == safeQueries.estimates
      modifies safeQueries
      ensures end == EndOfRound(setup, round) && (end.Answered? ==> round.draft.Some?)
      ensures safeQueries.events == old(safeQueries.events) + RoundEvents(setup, round)
      ensures safeQueries.calls == old(safeQueries.calls) + RoundCalls(setup, round)
    {
      if round.draft.None? {
        return Stopped(ModelFailed);
      }
      var draft := round.draft.value;
      var reported := NormalizeReportedTables(draft.tablesUsed, setup.schema);
      if reported.None? || !(forall t :: t in reported.value ==> t in setup.tables) {
        return Stopped(InvalidTables);
      }
      var outcome := safeQueries.ExecuteFixed(draft.sql, setup.policy, round.replies);
      match outcome
      case Succeeded(result) => end := Answered(result);
      case Raised(ApprovalRequired(reason, estimate)) => end := Stopped(ApprovalNeeded(reason, estimate));
      case Raised(error) => end := Repairable(ErrorCode(error));
    }

    /** Ask the model for a statement, run it, and let the model repair it a bounded number of times. */
    method Answer(q: Question, selection: Option<Selected>, world: nat -> Round)
      returns (answer: NL2SQLResult, ghost last: nat)
      modifies safeQueries
      ensures match Prepare(q, maxSelectedTables, selection)
        case Refused(error) =>
          && answer == Failed(error)
          && safeQueries.events == old(safeQueries.events) && safeQueries.calls == old(safeQueries.calls)
        case Ready(tables) =>
          var setup := SetupOf(q, tables);
          && IsLastRound(setup, world, maxRepairs, last)
          && answer == ResultOf(setup, world, last, selection.value)
          && safeQueries.events == old(safeQueries.events) + Ledger(setup, world, last + 1)
          && safeQueries.calls == old(safeQueries.calls) + CallsUpTo(setup, world, last + 1)
      ensures Accepted(q, maxSelectedTables, selection) ==>
        exists tables ::
          && AreTables(selection.value.tables, q.schema, tables)
          && (answer.Finished? ==> answer.tables == tables)
          && old(safeQueries.events) <= safeQueries.events
          && IsOutcome(SetupOf(q, tables), world, selection.value, maxRepairs, answer,
                       safeQueries.events[|old(safeQueries.events)|..])
      ensures !Accepted(q, maxSelectedTables, selection) ==>
        && answer == Failed(if !q.allowed then QuestionRejected
                            else if q.policy.tables * q.known == {} || selection.Some? then InvalidTables
                            else ModelFailed)
        && safeQueries.events == old(safeQueries.events) && safeQueries.calls == old(safeQueries.calls)
    {
      last := 0;
      PreparedMeaning(q, maxSelectedTables, selection);
      if !q.allowed {
        return Failed(QuestionRejected), last;
      }
      if q.policy.tables * q.known == {} {
        return Failed(InvalidTables), last;
      }
      if selection.None? {
        return Failed(ModelFailed), last;
      }
      var tables := ValidateSelection(q, selection.value.tables);
      if tables.None? {
        return Failed(InvalidTables), last;
      }
      answer, last := DraftUntilDone(SetupOf(q, tables.value), selection.value, world);
      OutcomeMeaning(SetupOf(q, tables.value), world, maxRepairs, last, selection.value);
    }

    /** One more round on top of those recorded so far. */
    method RunRound(setup: Setup, world: nat -> Round, n: nat, ghost events: seq<AuditEvent>, ghost calls: seq<Call>)
      returns (end: RoundEnd)
      requires setup.guard == safeQueries.guard && setup.estimates == safeQueries.estimates
      requires safeQueries.events == events + Ledger(setup, world, n)
      requires safeQueries.calls == calls + CallsUpTo(setup, world, n)
      modifies safeQueries
      ensures end == EndOfRound(setup, world(n)) && (end.Answered? ==> world(n).draft.Some?)
      ensures safeQueries.events == events + Ledger(setup, world, n + 1)
      ensures safeQueries.calls == calls + CallsUpTo(setup, world, n + 1)
    {
      end := RunDraft(setup, world(n));
      OneMoreRound(setup, world, n, events, calls);
    }

    /** The repair loop. */
    method DraftUntilDone(setup: Setup, selected: Selected, world: nat -> Round) returns (answer: NL2SQLResult,
                          ghost last: nat)
      requires setup.guard == safeQueries.guard && setup.estimates == safeQueries.estimates
      modifies safeQueries
      ensures IsLastRound(setup, world, maxRepairs, last)
      ensures answer == ResultOf(setup, world, last, selected)
      ensures safeQueries.events == old(safeQueries.events) + Ledger(setup, world, last + 1)
      ensures safeQueries.calls == old(safeQueries.calls) + CallsUpTo(setup, world, last + 1)
    {
      var repairCount, modelCalls, usage := 0, selected.attempts, selected.usage;
      var end: RoundEnd;
      while true
        invariant repairCount <= maxRepairs && AllRepairable(setup, world, repairCount)
        invariant safeQueries.events == old(safeQueries.events) + Ledger(setup, world, repairCount)
        invariant safeQueries.calls == old(safeQueries.calls) + CallsUpTo(setup, world, repairCount)
        invariant modelCalls == selected.attempts + AttemptsUpTo(world, repairCount)
        invariant usage == UsageUpTo(selected.usage, world, repairCount)
        decreases maxRepairs - repairCount
      {
        var round := world(repairCount);
        modelCalls, usage := modelCalls + round.attempts, AddUsage(usage, round.usage);
        end := RunRound(setup, world, repairCount, old(safeQueries.events), old(safeQueries.calls));
        if !end.Repairable? || repairCount >= maxRepairs {
          break;
        }
        repairCount := repairCount + 1;
      }
      last := repairCount;
      answer := Conclude(setup.tables, world(repairCount).draft, repairCount, modelCalls, usage, end);
    }
  }

  // ----- What the ledger says about an answered question -----

  /** Were the events of all of the first `n` rounds accepted by the audit sink? */
  ghost predicate AllRecorded(world: nat -> Round, n: nat) {
    n == 0 || (AllRecorded(world, n - 1) && world(n - 1).replies.recorded)
  }

  lemma EventsOfRound(setup: Setup, round: Round)
    requires !EndOfRound(setup, round).Stopped?
    ensures Reaches(setup, round)
    ensures RoundEvents(setup, round) == if round.replies.recorded then [RoundEvent(setup, round)] else []
  {
  }

  lemma {:induction false} LedgerOfRepairs(setup: Setup, world: nat -> Round, n: nat)
    requires AllRepairable(setup, world, n)
    ensures |Ledger(setup, world, n)| <= n
    ensures |Ledger(setup, world, n)| == n <==> AllRecorded(world, n)
  {
    if n > 0 {
      LedgerOfRepairs(setup, world, n - 1);
      EventsOfRound(setup, world(n - 1));
    }
  }

  lemma {:induction false} LedgerAt(setup: Setup, world: nat -> Round, n: nat, i: nat)
    requires i <= n && AllRepairable(setup, world, n) && !EndOfRound(setup, world(n)).Stopped?
    requires AllRecorded(world, n + 1)
    ensures |Ledger(setup, world, n + 1)| == n + 1 && world(i).replies.recorded
    ensures !EndOfRound(setup, world(i)).Stopped? && Reaches(setup, world(i))
    ensures Ledger(setup, world, n + 1)[i] == RoundEvent(setup, world(i))
  {
    LedgerOfRepairs(setup, world, n);
    EventsOfRound(setup, world(n));
    if i < n {
      LedgerAt(setup, world, n - 1, i);
    }
  }

  lemma RoundReports(setup: Setup, round: Round)
    requires Reaches(setup, round) && round.replies.recorded
    ensures Reports(RoundEvent(setup, round), round.draft.value.sql, RoundCalls(setup, round), round.replies.plan,
                    OutcomeOf(setup, round))
    ensures EndOfRound(setup, round).Answered? ==> RoundEvent(setup, round).status == SUCCEEDED
    ensures EndOfRound(setup, round).Repairable? ==> RoundEvent(setup, round).status in {REJECTED, FAILED}
  {
    EventReports(setup.guard, setup.estimates, round.draft.value.sql, setup.policy, round.replies);
  }

  /** An answer after `n` repairs leaves one event a round exactly when the sink took every one. */
  lemma OneEventARound(setup: Setup, world: nat -> Round, maxRepairs: nat, n: nat)
    requires IsLastRound(setup, world, maxRepairs, n) && EndOfRound(setup, world(n)).Answered?
    ensures n <= maxRepairs && (|Ledger(setup, world, n + 1)| == n + 1 <==> AllRecorded(world, n + 1))
  {
    LedgerOfRepairs(setup, world, n);
    EventsOfRound(setup, world(n));
  }

  /** Then the event of each round tells the truth about it: all but the last are rejections or
      failures, and the last is the success. */
  lemma AnsweredLedger(setup: Setup, world: nat -> Round, maxRepairs: nat, n: nat, i: nat)
    requires IsLastRound(setup, world, maxRepairs, n) && EndOfRound(setup, world(n)).Answered?
    requires AllRecorded(world, n + 1) && i <= n
    ensures |Ledger(setup, world, n + 1)| == n + 1 && Reaches(setup, world(i))
    ensures var event := Ledger(setup, world, n + 1)[i];
      && (if i == n then event.status == SUCCEEDED else event.status in {REJECTED, FAILED})
      && Reports(event, world(i).draft.value.sql, RoundCalls(setup, world(i)), world(i).replies.plan,
                 OutcomeOf(setup, world(i)))
  {
    LedgerAt(setup, world, n, i);
    RoundReports(setup, world(i));
    if i < n {
      RepairableAt(setup, world, n, i);
    }
  }

  /** Only what the guard made of a round's own draft, under the policy restricted to the selected
      tables, is ever executed, and only within the budget. */
  lemma {:induction false} ExecutionsAreGuarded(setup: Setup, world: nat -> Round, n: nat,
                                                query: string) returns (i: nat)
    requires Run(query) in CallsUpTo(setup, world, n)
    ensures i < n && world(i).draft.Some?
    ensures setup.guard(world(i).draft.value.sql, setup.policy) == AgentGraph.Accepted(query)
    ensures InBudget(setup.estimates, setup.policy, world(i).replies.plan)
  {
    if Run(query) in RoundCalls(setup, world(n - 1)) {
      i := n - 1;
      RunIffAllowed(setup.guard, setup.estimates, world(i).draft.value.sql, setup.policy, world(i).replies, query);
    } else {
      i := ExecutionsAreGuarded(setup, world, n - 1, query);
    }
  }

  function Executions(calls: seq<Call>): nat {
    if calls == [] then 0 else (if calls[0].Run? then 1 else 0) + Executions(calls[1..])
  }

  lemma {:induction false} ExecutionsAppend(calls: seq<Call>, more: seq<Call>)
    ensures Executions(calls + more) == Executions(calls) + Executions(more)
  {
    if calls == [] {
      assert calls + more == more;
    } else {
      assert (calls + more)[1..] == calls[1..] + more;
      ExecutionsAppend(calls[1..], more);
    }
  }

  lemma {:induction false} OneExecutionARound(setup: Setup, world: nat -> Round, n: nat)
    ensures Executions(CallsUpTo(setup, world, n)) <= n
  {
    if n > 0 {
      OneExecutionARound(setup, world, n - 1);
      ExecutionsAppend(CallsUpTo(setup, world, n - 1), RoundCalls(setup, world(n - 1)));
      var calls := RoundCalls(setup, world(n - 1));
      if |calls| == 2 {
        assert calls[0].Planned? && Executions(calls[1..]) <= 1 + Executions(calls[1..][1..]);
      }
    }
  }

  datatype Counter = Input | Output | Total

  function CountOf(usage: Usage, counter: Counter): Option<nat> {
    match counter
    case Input => usage.input
    case Output => usage.output
    case Total => usage.total
  }

  /** What the selection and each of the rounds reported for a counter. */
  function Reported(selection: Usage, world: nat -> Round, n: nat, counter: Counter): seq<Option<nat>> {
    [CountOf(selection, counter)] + seq(n, i requires 0 <= i < n => CountOf(world(i).usage, counter))
  }

  function SumKnown(counts: seq<Option<nat>>): nat {
    if counts == [] then 0 else OrZero(counts[0]) + SumKnown(counts[1..])
  }

  /** Unknown if every part is, otherwise the sum of the known parts. */
  function Counted(counts: seq<Option<nat>>): Option<nat> {
    if forall i :: 0 <= i < |counts| ==> counts[i] == None then None else Some(SumKnown(counts))
  }

  lemma {:induction false} SumKnownSnoc(counts: seq<Option<nat>>, last: Option<nat>)
    ensures SumKnown(counts + [last]) == SumKnown(counts) + OrZero(last)
  {
    if counts == [] {
      assert [last][1..] == [];
    } else {
      assert (counts + [last])[1..] == counts[1..] + [last];
      SumKnownSnoc(counts[1..], last);
    }
  }

  lemma {:induction false} NoneSumsToZero(counts: seq<Option<nat>>)
    ensures (forall i :: 0 <= i < |counts| ==> counts[i] == None) ==> SumKnown(counts) == 0
  {
    if counts != [] {
      NoneSumsToZero(counts[1..]);
    }
  }

  lemma CountedSnoc(counts: seq<Option<nat>>, last: Option<nat>)
    ensures Counted(counts + [last]) == AddCount(Counted(counts), last)
  {
    var more := counts + [last];
    assert more[|counts|] == last;
    assert forall i :: 0 <= i < |counts| ==> more[i] == counts[i];
    SumKnownSnoc(counts, last);
    NoneSumsToZero(counts);
  }

  lemma ReportedSnoc(selection: Usage, world: nat -> Round, n: nat, counter: Counter)
    ensures Reported(selection, world, n + 1, counter)
         == Reported(selection, world, n, counter) + [CountOf(world(n).usage, counter)]
  {
  }

  lemma AddUsageByCounter(left: Usage, right: Usage, counter: Counter)
    ensures CountOf(AddUsage(left, right), counter) == AddCount(CountOf(left, counter), CountOf(right, counter))
  {
  }

  /** Each counter is unknown only if every part of it is; otherwise it is the sum of the known parts. */
  lemma {:induction false} TotalUsage(selection: Usage, world: nat -> Round, n: nat, counter: Counter)
    ensures CountOf(UsageUpTo(selection, world, n), counter) == Counted(Reported(selection, world, n, counter))
  {
    if n == 0 {
      assert Reported(selection, world, n, counter) == [] + [CountOf(selection, counter)];
      CountedSnoc([], CountOf(selection, counter));
    } else {
      TotalUsage(selection, world, n - 1, counter);
      ReportedSnoc(selection, world, n - 1, counter);
      AddUsageByCounter(UsageUpTo(selection, world, n - 1), world(n - 1).usage, counter);
      CountedSnoc(Reported(selection, world, n - 1, counter), CountOf(world(n - 1).usage, counter));
    }
  }
}

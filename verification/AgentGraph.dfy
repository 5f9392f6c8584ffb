/** The agent's workflow graph: nine nodes, a bounded repair loop, and one pause for approval. */
module AgentGraph {
  import opened Evidence
  import opened Wrappers

  datatype Policy = Policy(tables: set<string>, maxTotalCost: real, maxPlanRows: nat)

  /** What the guard makes of a statement under a policy. */
  datatype Verdict = Accepted(query: string) | Refused(reason: NonEmpty)

  datatype Risk = Safe | NeedsApproval | Blocked | Repair

  datatype Decision = Approved | Denied

  datatype Intent = KnowledgeIntent | DataIntent

  datatype ErrorCode =
    | ApprovalRejected
    | InsufficientEvidence
    | ColumnsMismatch
    | PolicyViolation(reason: NonEmpty)

  datatype Request = Request(run: nat, tenant: nat, user: nat, dataSource: nat, question: string)

  type Row = map<string, string>

  /** The merged state: a node's update overwrites the fields it names and keeps the others. */
  datatype State = State(
    request: Request,
    intent: Option<Intent>,
    tables: seq<string>,
    confidence: Option<real>,
    policy: Option<Policy>,
    context: seq<NonEmpty>,
    expectedColumns: seq<string>,
    sql: Option<string>,
    guarded: Option<string>,
    risk: Option<Risk>,
    approval: Option<Decision>,
    columns: seq<string>,
    rows: seq<Row>,
    truncated: bool,
    attempts: nat,
    answer: Option<string>,
    citations: seq<Citation>,
    chart: Option<string>,
    error: Option<ErrorCode>)

  datatype Node =
    | Classify | RetrieveMetrics | SelectSchema | GenerateSql | GuardSql | RequestApproval | ExecuteSql | Verify
    | Compose | Finish

  /** Where a checkpoint stands: about to run `next`, paused in it, resuming it, or stopped by an error.
      `kept` is a decision the pause has already taken, but could not finish with. */
  datatype Mode =
    | Running
    | Interrupted(kept: Option<Decision>)
    | Resuming(given: Decision, kept: Option<Decision>)
    | Errored

  datatype Checkpoint = Checkpoint(state: State, next: Node, mode: Mode)

  /** `keepsDecision`: a pause that fails after it has taken a decision gets the same one when it is
      resumed again, whatever decision comes with that resume. */
  datatype Config = Config(
    maxRepairs: nat,
    keepsDecision: bool,
    guard: (string, Policy) -> Verdict,
    describe: (seq<string>, seq<Row>, bool) -> NonEmpty,
    chart: (seq<string>, seq<Row>) -> string,
    minConfidence: real, minLexical: real, minVector: real)

  function MaxAttempts(cfg: Config): nat {
    cfg.maxRepairs + 1
  }

  /** What the world answers to the node that runs; any reply can come at any time. */
  datatype Reply =
    | QuestionRefused(reason: NonEmpty)
    | QuestionClassified(intent: Intent)
    | Retrieved(hits: seq<Hit>)
    | Selected(policy: Policy, first: Selection, second: Selection)
    | Drafted(sql: string, tablesUsed: set<string>, expectedColumns: seq<string>)
    | Estimated(totalCost: real, planRows: nat, controlledColumns: bool)
    | ApprovalRecorded
    | ApprovalUnrecorded
    | ApprovalSinkDown
    | QueryResult(columns: seq<string>, rows: seq<Row>, truncated: bool)
    | QueryFailed
    | Done
    | Exception

  /** One answer of the model to a table selection. */
  datatype Selection = Malformed | Tables(tables: seq<string>, confidence: real)

  /** A reply, whether recording the finished step fails after the node has done its work, and whether
      a resumed pause that fails is left interrupted. */
  datatype Input = Input(reply: Reply, recordFails: bool, stillInterrupted: bool)

  /** What a verdict rests on: the estimate, whether a controlled column is read, and how sure the model
      was of its tables. */
  datatype Facts = Facts(totalCost: real, planRows: nat, controlledColumns: bool, confidence: real)

  datatype Table = Table(columns: seq<string>, rows: seq<Row>, truncated: bool)

  /** The effects that count: drafts, accepted queries, approvals and executions, by attempt. An
      execution without a table failed. */
  datatype Effect =
    | Generated(attempt: nat, sql: string)
    | Judged(attempt: nat, sql: string, policy: Policy, query: string, facts: Facts, risk: Risk)
    | Asked(attempt: nat)
    | Decided(attempt: nat, decision: Decision)
    | Executed(attempt: nat, query: string, table: Option<Table>)

  datatype Outcome = Raised(effects: seq<Effect>) | Updated(state: State, effects: seq<Effect>)

  function InitialState(request: Request): State {
    State(request, None, [], None, None, [], [], None, None, None, None, [], [], false, 0, None, [], None, None)
  }

  predicate ValidSelection(policy: Policy, selection: Selection) {
    selection.Tables? && selection.tables != [] && forall t :: t in selection.tables ==> t in policy.tables
  }

  /** The model may correct one well-formed but invalid selection. */
  function ChooseTables(policy: Policy, first: Selection, second: Selection): Option<Selection> {
    if first.Malformed? then None
    else if ValidSelection(policy, first) then Some(first)
    else if ValidSelection(policy, second) then Some(second)
    else None
  }

  function RestrictTo(policy: Policy, tables: seq<string>): Policy {
    policy.(tables := set t | t in tables)
  }

  /** A selection that reported no confidence counts as sure. */
  function Confidence(s: State): real {
    if s.confidence.None? then 1.0 else s.confidence.value
  }

  predicate IsRisky(cfg: Config, policy: Policy, facts: Facts) {
    || facts.totalCost > policy.maxTotalCost
    || facts.planRows > policy.maxPlanRows
    || facts.controlledColumns
    || facts.confidence < cfg.minConfidence
  }

  function GuardNode(cfg: Config, s: State, reply: Reply): Outcome {
    if s.policy.None? || s.sql.None? then Raised([])
    else match cfg.guard(s.sql.value, s.policy.value)
      case Refused(reason) => Updated(s.(risk := Some(Repair), error := Some(PolicyViolation(reason))), [])
      case Accepted(query) =>
        if !reply.Estimated? then Raised([])
        else
          var facts := Facts(reply.totalCost, reply.planRows, reply.controlledColumns, Confidence(s));
          var risk := if IsRisky(cfg, s.policy.value, facts) then NeedsApproval else Safe;
          Updated(s.(risk := Some(risk), guarded := Some(query), error := None),
                  [Judged(s.attempts, s.sql.value, s.policy.value, query, facts, risk)])
  }

  function ComposeNode(cfg: Config, s: State): State {
    if s.error == Some(InsufficientEvidence) then s.(answer := Some("insufficient evidence"), error := None)
    else if s.error.Some? then s.(answer := Some(""))
    else
      var answer: string :=
        if s.intent != Some(KnowledgeIntent) then cfg.describe(s.columns, s.rows, s.truncated)
        else if s.context == [] then "" else s.context[0];
      s.(answer := Some(answer), chart := Some(cfg.chart(s.columns, s.rows)))
  }

  /** One node's operation, all but the pause for approval. */
  function Operate(cfg: Config, node: Node, s: State, reply: Reply): Outcome {
    match (node, reply)
    case (Classify, QuestionRefused(reason)) =>
      Updated(s.(risk := Some(Blocked), error := Some(PolicyViolation(reason))), [])
    case (Classify, QuestionClassified(intent)) => Updated(s.(intent := Some(intent), error := None), [])
    case (RetrieveMetrics, Retrieved(hits)) =>
      var enough := HasEvidence(hits, Hybrid, cfg.minLexical, cfg.minVector);
      Updated(s.(context := seq(|hits|, i requires 0 <= i < |hits| => hits[i].content),
                 citations := seq(|hits|, i requires 0 <= i < |hits| => hits[i].citation),
                 error := if s.intent == Some(KnowledgeIntent) && !enough then Some(InsufficientEvidence) else None),
           [])
    case (SelectSchema, Selected(policy, first, second)) =>
      var chosen := ChooseTables(policy, first, second);
      if chosen.None? || chosen.value.Malformed? then Raised([])
      else Updated(s.(tables := chosen.value.tables, confidence := Some(chosen.value.confidence),
                      policy := Some(RestrictTo(policy, chosen.value.tables))), [])
    case (GenerateSql, Drafted(sql, tablesUsed, expected)) =>
      if s.policy.None? || !(forall t :: t in tablesUsed ==> t in s.tables) then Raised([])
      else Updated(s.(sql := Some(sql), expectedColumns := expected, attempts := s.attempts + 1, error := None),
                   [Generated(s.attempts + 1, sql)])
    case (GuardSql, _) => GuardNode(cfg, s, reply)
    case (ExecuteSql, QueryResult(columns, rows, truncated)) =>
      if s.guarded.None? then Raised([])
      else Updated(s.(columns := columns, rows := rows, truncated := truncated, error := None),
                   [Executed(s.attempts, s.guarded.value, Some(Table(columns, rows, truncated)))])
    case (ExecuteSql, QueryFailed) =>
      Raised(if s.guarded.None? then [] else [Executed(s.attempts, s.guarded.value, None)])
    case (Verify, Done) =>
      var missing := s.expectedColumns != [] && !(forall c :: c in s.expectedColumns ==> c in s.columns);
      Updated(s.(error := if missing then Some(ColumnsMismatch) else None), [])
    case (Compose, Done) => Updated(ComposeNode(cfg, s), [])
    case _ => Raised([])
  }

  /** The edges of the graph. */
  function Route(cfg: Config, node: Node, s: State): Node {
    match node
    case Classify => if s.risk == Some(Blocked) then Finish else RetrieveMetrics
    case RetrieveMetrics => if s.intent == Some(KnowledgeIntent) then Compose else SelectSchema
    case SelectSchema => GenerateSql
    case GenerateSql => GuardSql
    case GuardSql =>
      if s.risk == Some(Repair) && s.attempts < MaxAttempts(cfg) then GenerateSql
      else if s.risk == Some(Safe) then ExecuteSql
      else if s.risk == Some(NeedsApproval) then RequestApproval
      else Finish
    case RequestApproval => if s.approval == Some(Approved) then ExecuteSql else Finish
    case ExecuteSql => Verify
    case Verify => if s.error.Some? && s.attempts < MaxAttempts(cfg) then GenerateSql else Compose
    case Compose => Finish
    case Finish => Finish
  }

  datatype Run = Run(checkpoint: Option<Checkpoint>, trace: seq<Effect>)

  /** The decision a resumed pause takes. */
  function Taken(given: Decision, kept: Option<Decision>): Decision {
    if kept.Some? then kept.value else given
  }

  /** A resumed pause that fails may be left waiting. */
  function FailedPause(c: Checkpoint, kept: Option<Decision>, input: Input): Checkpoint {
    c.(mode := if input.stillInterrupted then Interrupted(kept) else Errored)
  }

  /** The pause: ask first, record that it waits, then wait; on the way back do both again, then take
      the decision. */
  function ApprovalNode(cfg: Config, c: Checkpoint, input: Input): (Checkpoint, seq<Effect>) {
    var asked := [Asked(c.state.attempts)];
    match (c.mode, input.reply)
    case (Running, ApprovalRecorded) => (c.(mode := Interrupted(None)), asked)
    case (Running, ApprovalUnrecorded) => (c.(mode := Errored), asked)
    case (Resuming(given, kept), ApprovalRecorded) =>
      var decision := Taken(given, kept);
      var effects := asked + [Decided(c.state.attempts, decision)];
      if input.recordFails then (FailedPause(c, if cfg.keepsDecision then Some(decision) else None, input), effects)
      else
        var error := if decision == Denied then Some(ApprovalRejected) else None;
        var state := c.state.(approval := Some(decision), error := error);
        (Checkpoint(state, Route(cfg, RequestApproval, state), Running), effects)
    case (Resuming(_, kept), ApprovalUnrecorded) => (FailedPause(c, kept, input), asked)
    case (Resuming(_, kept), _) => (FailedPause(c, kept, input), [])
    case _ => (c.(mode := Errored), [])
  }

  predicate Settled(c: Checkpoint) {
    c.next == Finish || c.mode.Interrupted? || c.mode == Errored
  }

  /** One node execution of a run that is not settled. */
  function StepNode(cfg: Config, c: Checkpoint, input: Input): (Checkpoint, seq<Effect>)
    requires !Settled(c)
  {
    if c.next == RequestApproval then ApprovalNode(cfg, c, input)
    else match Operate(cfg, c.next, c.state, input.reply)
      case Raised(effects) => (c.(mode := Errored), effects)
      case Updated(state, effects) =>
        if input.recordFails then (c.(mode := Errored), effects)
        else (Checkpoint(state, Route(cfg, c.next, state), Running), effects)
  }

  function Advance(cfg: Config, run: Run, input: Input): Run {
    if run.checkpoint.None? || Settled(run.checkpoint.value) then run
    else
      var (checkpoint, effects) := StepNode(cfg, run.checkpoint.value, input);
      Run(Some(checkpoint), run.trace + effects)
  }

  datatype Status = PLANNING | WAITING_APPROVAL | COMPLETED | REJECTED | FAILED

  /** How a caller sees the run: a pause first, then refusals, errors and answers. */
  function StatusOf(c: Checkpoint): Status {
    if c.mode.Interrupted? then WAITING_APPROVAL
    else if c.mode == Errored then (if c.state.risk == Some(Blocked) then REJECTED else FAILED)
    else if c.state.error == Some(ApprovalRejected) || c.state.risk == Some(Blocked) then REJECTED
    else if c.state.error.Some? then FAILED
    else if c.state.answer.Some? && c.state.answer.value != "" then COMPLETED
    else PLANNING
  }

  // ----- Termination of a segment -----

  function NodeRank(node: Node): nat {
    match node
    case Classify => 3
    case RetrieveMetrics => 2
    case SelectSchema => 1
    case GenerateSql => 0
    case GuardSql => 4
    case RequestApproval => 3
    case ExecuteSql => 2
    case Verify => 1
    case Compose => 0
    case Finish => 0
  }

  /** Remaining attempts first, then the node: zero exactly when the run has settled. */
  function Fuel(cfg: Config, c: Checkpoint): nat {
    if Settled(c) || c.state.attempts > MaxAttempts(cfg) then 0
    else 1 + 5 * (MaxAttempts(cfg) - c.state.attempts) + NodeRank(c.next)
  }
}

/** What each node of the agent graph does with what the world tells it, and where the run goes from there. */
module AgentNodes {
  import opened AgentGraph
  import opened AgentRuns
  import opened AgentReplay
  import Evidence
  import opened Wrappers

  /** One node execution whose record succeeds. */
  function Runs(cfg: Config, s: State, node: Node, reply: Reply): (Checkpoint, seq<Effect>)
    requires node != Finish
  {
    StepNode(cfg, Checkpoint(s, node, Running), Ready(reply))
  }

  /** A refused question ends the run as refused; any other goes on to retrieval. */
  lemma ClassifyStep(cfg: Config, s: State, reply: Reply)
    ensures match reply
      case QuestionRefused(reason) =>
        var (c, effects) := Runs(cfg, s, Classify, reply);
        c.next == Finish && StatusOf(c) == REJECTED && c.state.error == Some(PolicyViolation(reason)) && effects == []
      case QuestionClassified(intent) =>
        Runs(cfg, s, Classify, reply)
        == (Checkpoint(s.(intent := Some(intent), error := None),
                       if s.risk == Some(Blocked) then Finish else RetrieveMetrics, Running), [])
      case _ => Runs(cfg, s, Classify, reply) == (Checkpoint(s, Classify, Errored), [])
  {
  }

  /** For a data question the hits only become context. */
  lemma RetrieveStep(cfg: Config, s: State, hits: seq<Evidence.Hit>)
    requires s.intent != Some(KnowledgeIntent)
    ensures var (c, effects) := Runs(cfg, s, RetrieveMetrics, Retrieved(hits));
      && c.next == SelectSchema && c.mode == Running && effects == [] && c.state.error == None
      && |c.state.context| == |hits| == |c.state.citations|
      && forall i :: 0 <= i < |hits| ==>
           c.state.context[i] == hits[i].content && c.state.citations[i] == hits[i].citation
  {
  }

  /** With enough evidence a knowledge question is answered by the best hit, otherwise by saying so; either
      way the run completes without a draft. The scores decide which. */
  lemma KnowledgeIsAnswered(cfg: Config, s: State, hits: seq<Evidence.Hit>, trace: seq<Effect>)
    returns (end: State, enough: bool)
    requires s.intent == Some(KnowledgeIntent) && s.risk != Some(Blocked)
    ensures Advance(cfg, Advance(cfg, At(s, RetrieveMetrics, Running, trace), Ready(Retrieved(hits))), Ready(Done))
         == At(end, Finish, Running, trace)
    ensures StatusOf(Checkpoint(end, Finish, Running)) == COMPLETED && end.error == None
    ensures Evidence.DecidedByScores(hits, Evidence.Hybrid, cfg.minLexical, cfg.minVector, enough)
    ensures enough <==>
      exists h :: h in hits && Evidence.Suffices(h, Evidence.Hybrid, cfg.minLexical, cfg.minVector)
    ensures enough ==> hits != [] && end.answer == Some(hits[0].content) && end.chart.Some?
    ensures !enough ==> end.answer == Some("insufficient evidence") && end.chart == s.chart
  {
    assert trace + [] == trace;
    enough := Evidence.HasEvidence(hits, Evidence.Hybrid, cfg.minLexical, cfg.minVector);
    Evidence.EvidenceIsDecided(hits, Evidence.Hybrid, cfg.minLexical, cfg.minVector);
    Evidence.EvidenceMeaning(hits, Evidence.Hybrid, cfg.minLexical, cfg.minVector);
    var retrieved := Advance(cfg, At(s, RetrieveMetrics, Running, trace), Ready(Retrieved(hits)));
    assert retrieved.checkpoint.value.next == Compose && retrieved.trace == trace;
    end := Advance(cfg, retrieved, Ready(Done)).checkpoint.value.state;
  }

  /** A selection that can be used: well formed, not empty, and of allowed tables only. */
  predicate Usable(policy: Policy, selection: Selection) {
    selection.Tables? && selection.tables != [] && forall t :: t in selection.tables ==> t in policy.tables
  }

  /** The first usable one of two selections is taken, the second only if the first was well formed; the
      policy is cut down to its tables and keeps its bounds. Otherwise the run stops. */
  lemma SelectStep(cfg: Config, s: State, policy: Policy, first: Selection, second: Selection)
    ensures var (c, effects) := Runs(cfg, s, SelectSchema, Selected(policy, first, second));
      && effects == []
      && (c.mode == Errored <==> first.Malformed? || (!Usable(policy, first) && !Usable(policy, second)))
      && (c.mode != Errored ==>
            var chosen := if Usable(policy, first) then first else second;
            && c.next == GenerateSql && c.state.tables == chosen.tables
            && c.state.confidence == Some(chosen.confidence) && c.state.policy.Some?
            && (forall t :: t in c.state.policy.value.tables <==> t in chosen.tables)
            && c.state.policy.value.maxTotalCost == policy.maxTotalCost
            && c.state.policy.value.maxPlanRows == policy.maxPlanRows)
  {
  }

  /** A draft that reports a table outside the selection stops the run; any other is the next attempt. */
  lemma GenerateStep(cfg: Config, s: State, sql: string, tablesUsed: set<string>, expected: seq<string>)
    requires s.policy.Some?
    ensures var (c, effects) := Runs(cfg, s, GenerateSql, Drafted(sql, tablesUsed, expected));
      if exists t :: t in tablesUsed && t !in s.tables then c.mode == Errored && c.state == s && effects == []
      else
        && c.next == GuardSql && c.mode == Running && c.state.attempts == s.attempts + 1
        && c.state.sql == Some(sql) && c.state.expectedColumns == expected && c.state.error == None
        && effects == [Generated(s.attempts + 1, sql)]
  {
  }

  /** What the guard refuses is repaired while attempts remain, and fails the run after that. */
  lemma RefusedStep(cfg: Config, s: State, policy: Policy, sql: string, reason: Evidence.NonEmpty, reply: Reply)
    requires s.policy == Some(policy) && s.sql == Some(sql) && cfg.guard(sql, policy) == Refused(reason)
    ensures var (c, effects) := Runs(cfg, s, GuardSql, reply);
      && effects == [] && c.mode == Running && c.state.error == Some(PolicyViolation(reason))
      && (s.attempts <= cfg.maxRepairs ==> c.next == GenerateSql)
      && (s.attempts > cfg.maxRepairs ==> c.next == Finish && StatusOf(c) == FAILED)
  {
  }

  /** What it accepts runs at once if the estimate is within the policy, no controlled column is read and the
      model was sure enough of its tables; otherwise an approval is asked for. */
  lemma AcceptedStep(cfg: Config, s: State, policy: Policy, sql: string, query: string, totalCost: real,
                     planRows: nat, controlled: bool)
    requires s.policy == Some(policy) && s.sql == Some(sql) && cfg.guard(sql, policy) == Accepted(query)
    ensures var (c, effects) := Runs(cfg, s, GuardSql, Estimated(totalCost, planRows, controlled));
      var sure := if s.confidence.Some? then s.confidence.value else 1.0;
      && c.mode == Running && c.state.guarded == Some(query) && c.state.error == None && |effects| == 1
      && (c.next == ExecuteSql <==>
            && totalCost <= policy.maxTotalCost && planRows <= policy.maxPlanRows
            && !controlled && sure >= cfg.minConfidence)
      && (c.next == RequestApproval <==>
            || totalCost > policy.maxTotalCost || planRows > policy.maxPlanRows
            || controlled || sure < cfg.minConfidence)
      && effects[0].Judged? && effects[0].facts == Facts(totalCost, planRows, controlled, sure)
  {
  }

  /** What the executor returns becomes the result; a query that fails stops the run. */
  lemma ExecuteStep(cfg: Config, s: State, query: string, columns: seq<string>, rows: seq<Row>, truncated: bool)
    requires s.guarded == Some(query)
    ensures var (c, effects) := Runs(cfg, s, ExecuteSql, QueryResult(columns, rows, truncated));
      && c.next == Verify && c.mode == Running && c.state.error == None
      && c.state.columns == columns && c.state.rows == rows && c.state.truncated == truncated
      && effects == [Executed(s.attempts, query, Some(Table(columns, rows, truncated)))]
    ensures Runs(cfg, s, ExecuteSql, QueryFailed)
         == (Checkpoint(s, ExecuteSql, Errored), [Executed(s.attempts, query, None)])
  {
  }

  /** A result without a column that was expected is drafted again while attempts remain, and fails the
      run after that; any other is composed. */
  lemma VerifyStep(cfg: Config, s: State)
    ensures var (c, effects) := Runs(cfg, s, Verify, Done);
      && effects == [] && c.mode == Running
      && (if exists column :: column in s.expectedColumns && column !in s.columns
          then c.state.error == Some(ColumnsMismatch)
               && c.next == (if s.attempts <= cfg.maxRepairs then GenerateSql else Compose)
          else c.state.error == None && c.next == Compose)
  {
  }

  /** A decision is carried out: an approval by executing the query, a denial by ending the run as refused. */
  lemma DecisionStep(cfg: Config, s: State, given: Decision, stillInterrupted: bool)
    ensures var (c, effects) :=
        StepNode(cfg, Checkpoint(s, RequestApproval, Resuming(given, None)),
                 Input(ApprovalRecorded, false, stillInterrupted));
      && c.mode == Running && effects == [Asked(s.attempts), Decided(s.attempts, given)]
      && c.state.approval == Some(given)
      && (given == Approved ==> c.next == ExecuteSql && c.state.error == None)
      && (given == Denied ==> c.next == Finish && StatusOf(c) == REJECTED)
  {
  }

  /** A step whose record fails stops the run where it was, with all it has done. */
  lemma UnrecordedStep(cfg: Config, s: State, node: Node, reply: Reply, stillInterrupted: bool)
    requires node != Finish && node != RequestApproval
    ensures StepNode(cfg, Checkpoint(s, node, Running), Input(reply, true, stillInterrupted))
         == (Checkpoint(s, node, Errored), Runs(cfg, s, node, reply).1)
  {
  }
}

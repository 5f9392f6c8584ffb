/** What every run of the agent graph keeps, whatever the world replies. */
module AgentRuns {
  import opened Evidence
  import opened AgentGraph
  import opened Wrappers

  // ----- Reading a trace -----

  function Drafts(trace: seq<Effect>): nat {
    if trace == [] then 0
    else Drafts(trace[..|trace| - 1]) + if trace[|trace| - 1].Generated? then 1 else 0
  }

  function Executions(trace: seq<Effect>): nat {
    if trace == [] then 0
    else Executions(trace[..|trace| - 1]) + if trace[|trace| - 1].Executed? then 1 else 0
  }

  /** The attempt and statement of the newest draft. */
  function LastDraft(trace: seq<Effect>): Option<(nat, string)> {
    if trace == [] then None
    else match trace[|trace| - 1]
      case Generated(attempt, sql) => Some((attempt, sql))
      case _ => LastDraft(trace[..|trace| - 1])
  }

  /** The query an approval is being asked for: judged risky, and nothing but asking and deciding since. */
  function PendingQuery(trace: seq<Effect>): Option<(nat, string)> {
    if trace == [] then None
    else match trace[|trace| - 1]
      case Asked(_) => PendingQuery(trace[..|trace| - 1])
      case Decided(_, _) => PendingQuery(trace[..|trace| - 1])
      case Judged(attempt, _, _, query, _, risk) => if risk == NeedsApproval then Some((attempt, query)) else None
      case _ => None
  }

  /** The one query that may be executed next: just judged safe, or just approved. */
  function Licence(trace: seq<Effect>): Option<(nat, string)> {
    if trace == [] then None
    else match trace[|trace| - 1]
      case Judged(attempt, _, _, query, _, risk) => if risk == Safe then Some((attempt, query)) else None
      case Decided(attempt, decision) =>
        var pending := PendingQuery(trace[..|trace| - 1]);
        if decision == Approved && pending.Some? && pending.value.0 == attempt then pending else None
      case _ => None
  }

  /** The newest decision taken in the pause the trace stands in. */
  function LastDecision(trace: seq<Effect>): Option<Decision> {
    if trace == [] then None
    else match trace[|trace| - 1]
      case Asked(_) => LastDecision(trace[..|trace| - 1])
      case Decided(_, decision) => Some(decision)
      case _ => None
  }

  /** Neither asked and not decided, nor denied: something other than the pause may follow. */
  ghost predicate IsOpen(trace: seq<Effect>) {
    trace != [] ==> !trace[|trace| - 1].Asked? && !IsDenial(trace[|trace| - 1])
  }

  /** An approval is asked for the query of this attempt. */
  predicate IsPending(trace: seq<Effect>, attempt: nat) {
    PendingQuery(trace).Some? && PendingQuery(trace).value.0 == attempt
  }

  /** Nothing speaks against running the query at once. */
  ghost predicate WithinBounds(cfg: Config, policy: Policy, facts: Facts) {
    && facts.totalCost <= policy.maxTotalCost
    && facts.planRows <= policy.maxPlanRows
    && !facts.controlledColumns
    && facts.confidence >= cfg.minConfidence
  }

  ghost predicate EffectOk(cfg: Config, before: seq<Effect>, effect: Effect) {
    match effect
    case Generated(attempt, _) => attempt == Drafts(before) + 1 && IsOpen(before)
    case Judged(attempt, sql, policy, query, facts, risk) =>
      && risk in {Safe, NeedsApproval} && (risk == Safe <==> WithinBounds(cfg, policy, facts))
      && before != [] && before[|before| - 1] == Generated(attempt, sql)
      && cfg.guard(sql, policy) == Accepted(query)
    case Executed(attempt, query, _) => Licence(before) == Some((attempt, query))
    case Asked(attempt) => IsPending(before, attempt)
    case Decided(attempt, decision) =>
      && IsPending(before, attempt) && before[|before| - 1] == Asked(attempt)
      && (cfg.keepsDecision && LastDecision(before).Some? ==> decision == LastDecision(before).value)
  }

  ghost predicate IsDenial(effect: Effect) {
    effect.Decided? && effect.decision == Denied
  }

  /** Drafts count up, a verdict is about the draft just made, every execution is licensed, and from
      asking and from a denial only asking again leads on, and then deciding. */
  ghost predicate TraceOk(cfg: Config, trace: seq<Effect>) {
    trace != [] ==>
      var before := trace[..|trace| - 1];
      TraceOk(cfg, before) && EffectOk(cfg, before, trace[|trace| - 1])
  }

  lemma TraceGrows(cfg: Config, trace: seq<Effect>, effect: Effect)
    requires TraceOk(cfg, trace) && EffectOk(cfg, trace, effect)
    ensures TraceOk(cfg, trace + [effect])
    ensures Drafts(trace + [effect]) == Drafts(trace) + if effect.Generated? then 1 else 0
    ensures Executions(trace + [effect]) == Executions(trace) + if effect.Executed? then 1 else 0
    ensures LastDraft(trace + [effect])
         == if effect.Generated? then Some((effect.attempt, effect.sql)) else LastDraft(trace)
    ensures effect.Asked? || effect.Decided? ==> PendingQuery(trace + [effect]) == PendingQuery(trace)
    ensures effect.Asked? ==> LastDecision(trace + [effect]) == LastDecision(trace)
  {
    var longer := trace + [effect];
    assert longer[..|longer| - 1] == trace;
  }

  /** A good trace is good at each of its effects. */
  lemma {:induction false} TraceOkAt(cfg: Config, trace: seq<Effect>, i: nat)
    requires TraceOk(cfg, trace) && i < |trace|
    ensures TraceOk(cfg, trace[..i]) && EffectOk(cfg, trace[..i], trace[i])
  {
    var before := trace[..|trace| - 1];
    if i < |trace| - 1 {
      TraceOkAt(cfg, before, i);
      assert before[..i] == trace[..i];
    }
  }

  // ----- The invariant -----

  /** How the state a node starts from is tied to the trace so far. */
  ghost predicate NodeOk(cfg: Config, c: Checkpoint, trace: seq<Effect>) {
    var s := c.state;
    && Drafts(trace) == s.attempts
    && Executions(trace) + (if c.next in {GuardSql, RequestApproval, ExecuteSql} then 1 else 0) <= s.attempts
    && (c.next != Finish && c.next != RequestApproval ==> IsOpen(trace))
    && (c.next != Finish ==> s.answer == None)
    && (c.next in {Classify, RetrieveMetrics, SelectSchema} ==> s.attempts == 0)
    && (c.next in {SelectSchema, GenerateSql, GuardSql, RequestApproval, ExecuteSql, Verify} ==>
          s.intent != Some(KnowledgeIntent))
    && match c.next
       case GuardSql =>
         HasDraft(s, trace) && trace != [] && trace[|trace| - 1] == Generated(s.attempts, s.sql.value)
       case RequestApproval =>
         && s.guarded.Some? && PendingQuery(trace) == Some((s.attempts, s.guarded.value))
         && KeptOk(cfg, c, trace) && HasDraft(s, trace)
       case Verify => HasResult(s, trace)
       case ExecuteSql => HasDraft(s, trace) && s.guarded.Some? && Licence(trace) == Some((s.attempts, s.guarded.value))
       case Compose =>
         if s.intent == Some(KnowledgeIntent)
         then s.error == Some(InsufficientEvidence) || (s.error == None && s.context != [])
         else HasResult(s, trace) && s.error != Some(InsufficientEvidence) && (s.error == None ==> HasColumns(s))
       case Finish =>
         && StatusOf(c) in {COMPLETED, REJECTED, FAILED}
         && (StatusOf(c) == COMPLETED ==> s.error == None && AnsweredFrom(cfg, s, trace))
       case _ => true
  }

  /** The statement of the state is the newest draft. */
  ghost predicate HasDraft(s: State, trace: seq<Effect>) {
    s.sql.Some? && LastDraft(trace) == Some((s.attempts, s.sql.value))
  }

  /** The newest effect is the execution of what the guard made of the newest draft, and the state holds
      its table. */
  ghost predicate HasResult(s: State, trace: seq<Effect>) {
    && HasDraft(s, trace) && s.guarded.Some? && trace != []
    && trace[|trace| - 1] == Executed(s.attempts, s.guarded.value, Some(Table(s.columns, s.rows, s.truncated)))
  }

  ghost predicate HasColumns(s: State) {
    forall c :: c in s.expectedColumns ==> c in s.columns
  }

  /** Where a completed run has its answer from: the context, or the table of its newest execution. */
  ghost predicate AnsweredFrom(cfg: Config, s: State, trace: seq<Effect>) {
    if s.intent == Some(KnowledgeIntent)
    then s.answer == Some("insufficient evidence") || (s.context != [] && s.answer == Some(s.context[0]))
    else
      && HasResult(s, trace) && HasColumns(s)
      && s.answer == Some(cfg.describe(s.columns, s.rows, s.truncated))
      && s.chart == Some(cfg.chart(s.columns, s.rows))
  }

  /** What is kept is the decision taken in this pause. */
  predicate KeptOk(cfg: Config, c: Checkpoint, trace: seq<Effect>) {
    match c.mode
    case Running => LastDecision(trace) == None
    case Interrupted(kept) => kept == if cfg.keepsDecision then LastDecision(trace) else None
    case Resuming(_, kept) => kept == if cfg.keepsDecision then LastDecision(trace) else None
    case Errored => true
  }

  ghost predicate CheckpointOk(cfg: Config, c: Checkpoint, trace: seq<Effect>) {
    && TraceOk(cfg, trace)
    && c.state.attempts <= MaxAttempts(cfg)
    && (c.next == GenerateSql ==> c.state.attempts < MaxAttempts(cfg))
    && (c.mode.Interrupted? || c.mode.Resuming? ==> c.next == RequestApproval)
    && (c.state.error == Some(ApprovalRejected) || c.state.risk == Some(Blocked) ==> c.next == Finish)
    && (c.mode.Errored? ==>
          c.next != Finish && Drafts(trace) <= MaxAttempts(cfg) && Executions(trace) <= MaxAttempts(cfg))
    && (!c.mode.Errored? ==> NodeOk(cfg, c, trace))
  }

  ghost predicate RunOk(cfg: Config, run: Run) {
    if run.checkpoint.None? then run.trace == [] else CheckpointOk(cfg, run.checkpoint.value, run.trace)
  }

  /** Evidence is never empty: a hit that passes the test has content to answer with. */
  lemma EnoughMeansContext(hits: seq<Hit>, cfg: Config)
    requires HasEvidence(hits, Hybrid, cfg.minLexical, cfg.minVector)
    ensures seq(|hits|, i requires 0 <= i < |hits| => hits[i].content) != []
  {
  }

  /** Verifying a result keeps it, and composing answers from it. */
  lemma LastNodesKeep(cfg: Config, c: Checkpoint, trace: seq<Effect>, input: Input)
    requires CheckpointOk(cfg, c, trace) && !Settled(c) && c.next in {Verify, Compose}
    ensures var (c', effects) := StepNode(cfg, c, input); CheckpointOk(cfg, c', trace + effects)
  {
    var (c', effects) := StepNode(cfg, c, input);
    assert effects == [] && trace + effects == trace;
  }

  /** Nodes up to the first draft leave guards and licences alone. */
  lemma PlainNodeKeeps(cfg: Config, c: Checkpoint, trace: seq<Effect>, input: Input)
    requires CheckpointOk(cfg, c, trace) && !Settled(c)
    requires c.next in {Classify, RetrieveMetrics, SelectSchema}
    ensures var (c', effects) := StepNode(cfg, c, input); CheckpointOk(cfg, c', trace + effects)
  {
    var (c', effects) := StepNode(cfg, c, input);
    assert effects == [] && trace + effects == trace;
    if c.next == RetrieveMetrics && input.reply.Retrieved?
       && HasEvidence(input.reply.hits, Hybrid, cfg.minLexical, cfg.minVector) {
      EnoughMeansContext(input.reply.hits, cfg);
    }
  }

  lemma DraftingKeeps(cfg: Config, trace: seq<Effect>, sql: string)
    requires TraceOk(cfg, trace) && IsOpen(trace)
    ensures var longer := trace + [Generated(Drafts(trace) + 1, sql)];
      && TraceOk(cfg, longer) && IsOpen(longer)
      && Drafts(longer) == Drafts(trace) + 1 && Executions(longer) == Executions(trace)
      && longer[|longer| - 1] == Generated(Drafts(trace) + 1, sql)
  {
    TraceGrows(cfg, trace, Generated(Drafts(trace) + 1, sql));
  }

  lemma GenerateKeeps(cfg: Config, c: Checkpoint, trace: seq<Effect>, input: Input)
    requires CheckpointOk(cfg, c, trace) && !Settled(c) && c.next == GenerateSql
    ensures var (c', effects) := StepNode(cfg, c, input); CheckpointOk(cfg, c', trace + effects)
  {
    var (c', effects) := StepNode(cfg, c, input);
    if effects == [] {
      assert trace + effects == trace;
    } else {
      DraftingKeeps(cfg, trace, effects[0].sql);
      assert effects == [Generated(Drafts(trace) + 1, effects[0].sql)];
    }
  }

  lemma GuardKeeps(cfg: Config, c: Checkpoint, trace: seq<Effect>, input: Input)
    requires CheckpointOk(cfg, c, trace) && !Settled(c) && c.next == GuardSql
    ensures var (c', effects) := StepNode(cfg, c, input); CheckpointOk(cfg, c', trace + effects)
  {
    var (c', effects) := StepNode(cfg, c, input);
    if effects == [] {
      assert trace + effects == trace;
    } else {
      TraceGrows(cfg, trace, effects[0]);
      assert trace + effects == trace + [effects[0]];
      assert (trace + [effects[0]])[..|trace|] == trace;
    }
  }

  lemma ExecuteKeeps(cfg: Config, c: Checkpoint, trace: seq<Effect>, input: Input)
    requires CheckpointOk(cfg, c, trace) && !Settled(c) && c.next == ExecuteSql
    ensures var (c', effects) := StepNode(cfg, c, input); CheckpointOk(cfg, c', trace + effects)
  {
    var (c', effects) := StepNode(cfg, c, input);
    if effects == [] {
      assert trace + effects == trace;
    } else {
      TraceGrows(cfg, trace, effects[0]);
      assert trace + effects == trace + [effects[0]];
    }
  }

  lemma AskingKeeps(cfg: Config, trace: seq<Effect>, attempt: nat)
    requires TraceOk(cfg, trace) && IsPending(trace, attempt)
    ensures var longer := trace + [Asked(attempt)];
      && TraceOk(cfg, longer) && longer[|longer| - 1] == Asked(attempt)
      && Drafts(longer) == Drafts(trace) && Executions(longer) == Executions(trace)
      && PendingQuery(longer) == PendingQuery(trace) && LastDecision(longer) == LastDecision(trace)
  {
    TraceGrows(cfg, trace, Asked(attempt));
  }

  lemma DecidingKeeps(cfg: Config, trace: seq<Effect>, attempt: nat, decision: Decision)
    requires TraceOk(cfg, trace) && EffectOk(cfg, trace, Decided(attempt, decision))
    ensures var longer := trace + [Decided(attempt, decision)];
      && TraceOk(cfg, longer) && (decision == Approved ==> IsOpen(longer))
      && Drafts(longer) == Drafts(trace) && Executions(longer) == Executions(trace)
      && PendingQuery(longer) == PendingQuery(trace) && LastDecision(longer) == Some(decision)
      && (decision == Approved ==> Licence(longer) == PendingQuery(trace))
  {
    var longer := trace + [Decided(attempt, decision)];
    TraceGrows(cfg, trace, Decided(attempt, decision));
    assert longer[..|longer| - 1] == trace;
  }

  /** The checkpoint a decision leads to, once the trace says it was asked for and taken. */
  lemma DecisionKeeps(cfg: Config, c: Checkpoint, trace: seq<Effect>, input: Input)
    requires CheckpointOk(cfg, c, trace) && c.next == RequestApproval && c.mode.Resuming?
    requires input.reply == ApprovalRecorded
    ensures var (c', effects) := ApprovalNode(cfg, c, input);
      var attempt, decision := c.state.attempts, Taken(c.mode.given, c.mode.kept);
      effects == [Asked(attempt), Decided(attempt, decision)]
      && CheckpointOk(cfg, c', (trace + [Asked(attempt)]) + [Decided(attempt, decision)])
  {
    AskingKeeps(cfg, trace, c.state.attempts);
    DecidingKeeps(cfg, trace + [Asked(c.state.attempts)], c.state.attempts, Taken(c.mode.given, c.mode.kept));
  }

  /** A pause that has only asked. */
  lemma PauseKeeps(cfg: Config, c: Checkpoint, trace: seq<Effect>, input: Input)
    requires CheckpointOk(cfg, c, trace) && c.next == RequestApproval && (c.mode.Running? || c.mode.Resuming?)
    requires input.reply == ApprovalUnrecorded || (input.reply == ApprovalRecorded && c.mode.Running?)
    ensures var (c', effects) := ApprovalNode(cfg, c, input);
      effects == [Asked(c.state.attempts)] && CheckpointOk(cfg, c', trace + [Asked(c.state.attempts)])
  {
    AskingKeeps(cfg, trace, c.state.attempts);
  }

  lemma ApprovalKeeps(cfg: Config, c: Checkpoint, trace: seq<Effect>, input: Input)
    requires CheckpointOk(cfg, c, trace) && !Settled(c) && c.next == RequestApproval
    ensures var (c', effects) := StepNode(cfg, c, input); CheckpointOk(cfg, c', trace + effects)
  {
    var attempt := c.state.attempts;
    if input.reply == ApprovalRecorded && c.mode.Resuming? {
      var decision := Taken(c.mode.given, c.mode.kept);
      DecisionKeeps(cfg, c, trace, input);
      assert trace + [Asked(attempt), Decided(attempt, decision)]
          == (trace + [Asked(attempt)]) + [Decided(attempt, decision)];
    } else if input.reply == ApprovalRecorded || input.reply == ApprovalUnrecorded {
      PauseKeeps(cfg, c, trace, input);
    } else {
      assert trace + [] == trace;
    }
  }

  /** What one node execution keeps. */
  lemma StepKeeps(cfg: Config, c: Checkpoint, trace: seq<Effect>, input: Input)
    requires CheckpointOk(cfg, c, trace) && !Settled(c)
    ensures var (c', effects) := StepNode(cfg, c, input); CheckpointOk(cfg, c', trace + effects)
  {
    match c.next
    case GenerateSql => GenerateKeeps(cfg, c, trace, input);
    case GuardSql => GuardKeeps(cfg, c, trace, input);
    case ExecuteSql => ExecuteKeeps(cfg, c, trace, input);
    case RequestApproval => ApprovalKeeps(cfg, c, trace, input);
    case Verify => LastNodesKeep(cfg, c, trace, input);
    case Compose => LastNodesKeep(cfg, c, trace, input);
    case _ => PlainNodeKeeps(cfg, c, trace, input);
  }

  lemma AdvanceKeeps(cfg: Config, run: Run, input: Input)
    requires RunOk(cfg, run)
    ensures RunOk(cfg, Advance(cfg, run, input))
  {
    if run.checkpoint.Some? && !Settled(run.checkpoint.value) {
      StepKeeps(cfg, run.checkpoint.value, run.trace, input);
    }
  }

  /** Every node execution spends fuel, so every segment between start, pause and end is finite. */
  lemma FuelFalls(cfg: Config, c: Checkpoint, trace: seq<Effect>, input: Input)
    requires CheckpointOk(cfg, c, trace) && !Settled(c)
    ensures Fuel(cfg, StepNode(cfg, c, input).0) < Fuel(cfg, c) <= 5 * MaxAttempts(cfg) + 4
  {
  }

  // ----- Sequences of start and resume calls -----

  type World = nat -> Input

  /** A start call on a run that already has a checkpoint only reports it. */
  function Begin(run: Run, request: Request): Run {
    if run.checkpoint.Some? then run else Run(Some(Checkpoint(InitialState(request), Classify, Running)), run.trace)
  }

  predicate CanResume(run: Run, tenant: nat) {
    && run.checkpoint.Some? && run.checkpoint.value.mode.Interrupted?
    && run.checkpoint.value.state.request.tenant == tenant
  }

  function BeginResume(run: Run, tenant: nat, decision: Decision): Run {
    if !CanResume(run, tenant) then run
    else
      var c := run.checkpoint.value;
      run.(checkpoint := Some(c.(mode := Resuming(decision, c.mode.kept))))
  }

  /** Node after node until the run pauses, ends or fails. */
  ghost function Settle(cfg: Config, run: Run, world: World, from: nat): (settled: Run)
    requires RunOk(cfg, run)
    ensures RunOk(cfg, settled) && (settled.checkpoint.Some? ==> Settled(settled.checkpoint.value))
    ensures run.trace <= settled.trace
    decreases if run.checkpoint.Some? then Fuel(cfg, run.checkpoint.value) else 0
  {
    if run.checkpoint.None? || Settled(run.checkpoint.value) then run
    else
      AdvanceKeeps(cfg, run, world(from));
      FuelFalls(cfg, run.checkpoint.value, run.trace, world(from));
      Settle(cfg, Advance(cfg, run, world(from)), world, from + 1)
  }

  lemma StepKeepsRequest(cfg: Config, c: Checkpoint, input: Input)
    requires !Settled(c)
    ensures StepNode(cfg, c, input).0.state.request == c.state.request
  {
  }

  /** One turn of a segment. */
  lemma SettleStep(cfg: Config, run: Run, world: World, from: nat)
    requires RunOk(cfg, run) && run.checkpoint.Some? && !Settled(run.checkpoint.value)
    ensures var next := Advance(cfg, run, world(from));
      && RunOk(cfg, next) && next.checkpoint.Some? && run.trace <= next.trace
      && next.checkpoint.value.state.request == run.checkpoint.value.state.request
      && Fuel(cfg, next.checkpoint.value) < Fuel(cfg, run.checkpoint.value)
      && Settle(cfg, run, world, from) == Settle(cfg, next, world, from + 1)
  {
    AdvanceKeeps(cfg, run, world(from));
    FuelFalls(cfg, run.checkpoint.value, run.trace, world(from));
    StepKeepsRequest(cfg, run.checkpoint.value, world(from));
  }

  datatype Call = Start(request: Request, world: World) | Resume(tenant: nat, decision: Decision, resumeWorld: World)

  lemma BeginKeeps(cfg: Config, run: Run, request: Request)
    requires RunOk(cfg, run)
    ensures RunOk(cfg, Begin(run, request))
  {
  }

  lemma BeginResumeKeeps(cfg: Config, run: Run, tenant: nat, decision: Decision)
    requires RunOk(cfg, run)
    ensures RunOk(cfg, BeginResume(run, tenant, decision))
  {
  }

  ghost function AfterCall(cfg: Config, run: Run, call: Call): (after: Run)
    requires RunOk(cfg, run)
    ensures RunOk(cfg, after) && run.trace <= after.trace
  {
    match call
    case Start(request, world) =>
      BeginKeeps(cfg, run, request);
      Settle(cfg, Begin(run, request), world, 0)
    case Resume(tenant, decision, world) =>
      BeginResumeKeeps(cfg, run, tenant, decision);
      Settle(cfg, BeginResume(run, tenant, decision), world, 0)
  }

  ghost function AfterCalls(cfg: Config, run: Run, calls: seq<Call>): (after: Run)
    requires RunOk(cfg, run)
    ensures RunOk(cfg, after)
    decreases |calls|
  {
    if calls == [] then run else AfterCalls(cfg, AfterCall(cfg, run, calls[0]), calls[1..])
  }

  const NO_RUN: Run := Run(None, [])

  // ----- Main results -----

  lemma {:induction false} PendingIsForLastDraft(cfg: Config, trace: seq<Effect>) returns (sql: string, policy: Policy)
    requires TraceOk(cfg, trace) && PendingQuery(trace).Some?
    ensures var (attempt, query) := PendingQuery(trace).value;
      LastDraft(trace) == Some((attempt, sql)) && cfg.guard(sql, policy) == Accepted(query)
    decreases |trace|
  {
    var last, before := trace[|trace| - 1], trace[..|trace| - 1];
    if last.Judged? {
      assert EffectOk(cfg, before, last);
      sql, policy := last.sql, last.policy;
    } else {
      sql, policy := PendingIsForLastDraft(cfg, before);
    }
  }

  /** The query licensed by a trace is what the guard made of the newest draft, at that attempt. */
  lemma LicenceIsForLastDraft(cfg: Config, trace: seq<Effect>) returns (sql: string, policy: Policy)
    requires TraceOk(cfg, trace)
    requires Licence(trace).Some? || PendingQuery(trace).Some?
    ensures var (attempt, query) := if Licence(trace).Some? then Licence(trace).value else PendingQuery(trace).value;
      LastDraft(trace) == Some((attempt, sql)) && cfg.guard(sql, policy) == Accepted(query)
  {
    var last, before := trace[|trace| - 1], trace[..|trace| - 1];
    if last.Judged? {
      assert EffectOk(cfg, before, last);
      sql, policy := last.sql, last.policy;
    } else {
      sql, policy := PendingIsForLastDraft(cfg, before);
    }
  }

  /** In every sequence of calls each execution runs what the guard accepted for the newest draft,
      at that draft's attempt, right after a safe verdict or a fresh approval. */
  lemma ExecutionsAreLicensed(cfg: Config, calls: seq<Call>, i: nat) returns (sql: string, policy: Policy)
    requires var trace := AfterCalls(cfg, NO_RUN, calls).trace; i < |trace| && trace[i].Executed?
    ensures var trace := AfterCalls(cfg, NO_RUN, calls).trace;
      && Licence(trace[..i]) == Some((trace[i].attempt, trace[i].query))
      && LastDraft(trace[..i]) == Some((trace[i].attempt, sql))
      && cfg.guard(sql, policy) == Accepted(trace[i].query)
  {
    var trace := AfterCalls(cfg, NO_RUN, calls).trace;
    TraceOkAt(cfg, trace, i);
    sql, policy := LicenceIsForLastDraft(cfg, trace[..i]);
  }

  /** Drafts and executions stay within the attempts, over any number of calls. */
  lemma WithinAttempts(cfg: Config, calls: seq<Call>)
    ensures var trace := AfterCalls(cfg, NO_RUN, calls).trace;
      Drafts(trace) <= cfg.maxRepairs + 1 && Executions(trace) <= cfg.maxRepairs + 1
  {
    assert RunOk(cfg, AfterCalls(cfg, NO_RUN, calls));
  }

  lemma {:induction false} CallsSettle(cfg: Config, run: Run, calls: seq<Call>)
    requires RunOk(cfg, run) && (run.checkpoint.Some? ==> Settled(run.checkpoint.value))
    ensures var after := AfterCalls(cfg, run, calls); after.checkpoint.Some? ==> Settled(after.checkpoint.value)
    decreases |calls|
  {
    if calls != [] {
      CallsSettle(cfg, AfterCall(cfg, run, calls[0]), calls[1..]);
    }
  }

  lemma {:induction false} SettledRunStays(cfg: Config, run: Run, calls: seq<Call>)
    requires RunOk(cfg, run) && run.checkpoint.Some? && Settled(run.checkpoint.value)
    requires !run.checkpoint.value.mode.Interrupted?
    ensures AfterCalls(cfg, run, calls) == run
    decreases |calls|
  {
    if calls != [] {
      SettledRunStays(cfg, run, calls[1..]);
    }
  }

  /** No approval of the attempt in this stretch of a trace. */
  ghost predicate NotApproved(trace: seq<Effect>, attempt: nat, from: nat, to: nat)
    requires to <= |trace|
  {
    forall k :: from <= k < to ==> trace[k] != Decided(attempt, Approved)
  }

  /** From a denial on nothing happens but asking and deciding about the same query again, until that
      query is approved; and it never is if decisions are kept. */
  lemma {:induction false} OnlyThePauseFollows(cfg: Config, trace: seq<Effect>, i: nat, j: nat)
    requires TraceOk(cfg, trace) && i < j < |trace| && IsDenial(trace[i])
    requires NotApproved(trace, trace[i].attempt, i, j) || cfg.keepsDecision
    ensures var a := trace[i].attempt;
      && (trace[j] == Asked(a) || trace[j] == Decided(a, Denied)
          || (trace[j] == Decided(a, Approved) && !cfg.keepsDecision))
      && IsPending(trace[..j], a) && LastDecision(trace[..j]).Some?
      && (cfg.keepsDecision ==> LastDecision(trace[..j]) == Some(Denied))
    decreases j
  {
    var a := trace[i].attempt;
    TraceOkAt(cfg, trace, i);
    TraceOkAt(cfg, trace, j);
    var before := trace[..j];
    assert before[..j - 1] == trace[..j - 1] && before[j - 1] == trace[j - 1];
    if j > i + 1 {
      OnlyThePauseFollows(cfg, trace, i, j - 1);
    }
  }

  /** After a denial no call whatever has another effect than asking and deciding about the same query
      again, until it is approved after all; never anything else if decisions are kept, and nothing at
      all once the run is not reported waiting. */
  lemma NothingFollowsADenial(cfg: Config, calls: seq<Call>, more: seq<Call>, i: nat)
    requires var trace := AfterCalls(cfg, NO_RUN, calls).trace; i < |trace| && IsDenial(trace[i])
    ensures var run := AfterCalls(cfg, NO_RUN, calls);
      var after, a := AfterCalls(cfg, run, more), run.trace[i].attempt;
      && run.checkpoint.Some? && run.trace <= after.trace
      && (StatusOf(run.checkpoint.value) != WAITING_APPROVAL ==> after == run)
      && (forall j :: i < j < |after.trace| && (cfg.keepsDecision || NotApproved(after.trace, a, i, j)) ==>
            after.trace[j] == Asked(a) || after.trace[j] == Decided(a, Denied)
            || (after.trace[j] == Decided(a, Approved) && !cfg.keepsDecision))
  {
    var run := AfterCalls(cfg, NO_RUN, calls);
    CallsSettle(cfg, NO_RUN, calls);
    CallsGrow(cfg, run, more);
    if StatusOf(run.checkpoint.value) != WAITING_APPROVAL {
      SettledRunStays(cfg, run, more);
    }
    var trace, a := AfterCalls(cfg, run, more).trace, run.trace[i].attempt;
    forall j | i < j < |trace| && (cfg.keepsDecision || NotApproved(trace, a, i, j))
      ensures trace[j] == Asked(a) || trace[j] == Decided(a, Denied)
           || (trace[j] == Decided(a, Approved) && !cfg.keepsDecision)
    {
      OnlyThePauseFollows(cfg, trace, i, j);
    }
  }

  lemma {:induction false} CallsGrow(cfg: Config, run: Run, calls: seq<Call>)
    requires RunOk(cfg, run)
    ensures run.trace <= AfterCalls(cfg, run, calls).trace
    decreases |calls|
  {
    if calls != [] {
      CallsGrow(cfg, AfterCall(cfg, run, calls[0]), calls[1..]);
    }
  }

  /** A run that reached its end is reported as refused if the question or the query was, else as failed if
      there is an error, and else as completed; a run stopped by an error has failed, one paused is waiting. */
  lemma EndIsReported(cfg: Config, calls: seq<Call>)
    requires AfterCalls(cfg, NO_RUN, calls).checkpoint.Some?
    ensures var c := AfterCalls(cfg, NO_RUN, calls).checkpoint.value;
      var status, s := StatusOf(c), c.state;
      && (status == WAITING_APPROVAL <==> c.mode.Interrupted?)
      && (c.mode == Errored ==> status == FAILED)
      && (!c.mode.Interrupted? && c.mode != Errored ==>
            && c.next == Finish
            && (status == REJECTED <==> s.error == Some(ApprovalRejected) || s.risk == Some(Blocked))
            && (status == FAILED <==> s.error.Some? && s.error != Some(ApprovalRejected) && s.risk != Some(Blocked))
            && (status == COMPLETED <==> s.error == None && s.risk != Some(Blocked)))
  {
    CallsSettle(cfg, NO_RUN, calls);
    assert RunOk(cfg, AfterCalls(cfg, NO_RUN, calls));
  }

  /** Over all sequences of calls, a run that is reported completed has no error, and answers from the best
      hit, or says that there is not enough evidence, or describes the table of its newest execution, which
      ran what the guard made of the newest draft and has every column the draft expected. */
  lemma CompletedIsAnswered(cfg: Config, calls: seq<Call>)
    requires var run := AfterCalls(cfg, NO_RUN, calls);
      run.checkpoint.Some? && StatusOf(run.checkpoint.value) == COMPLETED
    ensures var run := AfterCalls(cfg, NO_RUN, calls);
      var c, s, n := run.checkpoint.value, run.checkpoint.value.state, |run.trace|;
      && c.next == Finish && c.mode != Errored && s.error == None
      && (s.intent == Some(KnowledgeIntent) ==>
            s.answer == Some("insufficient evidence") || (s.context != [] && s.answer == Some(s.context[0])))
      && (s.intent != Some(KnowledgeIntent) ==>
            && n > 0 && s.guarded.Some? && s.sql.Some?
            && run.trace[n - 1]
               == Executed(s.attempts, s.guarded.value, Some(Table(s.columns, s.rows, s.truncated)))
            && LastDraft(run.trace) == Some((s.attempts, s.sql.value))
            && (forall column :: column in s.expectedColumns ==> column in s.columns)
            && s.answer == Some(cfg.describe(s.columns, s.rows, s.truncated))
            && s.chart == Some(cfg.chart(s.columns, s.rows)))
  {
    EndIsReported(cfg, calls);
    assert RunOk(cfg, AfterCalls(cfg, NO_RUN, calls));
  }

  /** Over all sequences of calls, every execution that does not come right behind an approval comes right
      behind a verdict that found nothing against it. */
  lemma UnapprovedIsWithinBounds(cfg: Config, calls: seq<Call>, j: nat)
    requires var trace := AfterCalls(cfg, NO_RUN, calls).trace;
      j < |trace| && trace[j].Executed? && (j == 0 || trace[j - 1] != Decided(trace[j].attempt, Approved))
    ensures var trace := AfterCalls(cfg, NO_RUN, calls).trace;
      && j > 0 && trace[j - 1].Judged?
      && trace[j - 1].attempt == trace[j].attempt && trace[j - 1].query == trace[j].query
      && cfg.guard(trace[j - 1].sql, trace[j - 1].policy) == Accepted(trace[j].query)
      && trace[j - 1].facts.totalCost <= trace[j - 1].policy.maxTotalCost
      && trace[j - 1].facts.planRows <= trace[j - 1].policy.maxPlanRows
      && !trace[j - 1].facts.controlledColumns
      && trace[j - 1].facts.confidence >= cfg.minConfidence
  {
    var trace := AfterCalls(cfg, NO_RUN, calls).trace;
    TraceOkAt(cfg, trace, j);
    assert trace[..j][j - 1] == trace[j - 1] && trace[..j][..j - 1] == trace[..j - 1];
    TraceOkAt(cfg, trace, j - 1);
    PendingAttempt(cfg, trace[..j - 1]);
  }

  /** Where a pending query comes from. */
  lemma {:induction false} PendingAttempt(cfg: Config, trace: seq<Effect>)
    requires TraceOk(cfg, trace)
    ensures PendingQuery(trace).Some? ==> exists i :: 0 <= i < |trace| && Judges(trace[i], PendingQuery(trace).value)
  {
    if trace != [] && PendingQuery(trace).Some? {
      var last, before := trace[|trace| - 1], trace[..|trace| - 1];
      if last.Judged? {
        assert Judges(trace[|trace| - 1], PendingQuery(trace).value);
      } else {
        PendingAttempt(cfg, before);
        var i :| 0 <= i < |before| && Judges(before[i], PendingQuery(before).value);
        assert Judges(trace[i], PendingQuery(trace).value);
      }
    }
  }

  /** The effect is the verdict that sends this query to an approval. */
  predicate Judges(effect: Effect, pending: (nat, string)) {
    && effect.Judged? && effect.attempt == pending.0 && effect.query == pending.1 && effect.risk == NeedsApproval
  }

  /** Over all sequences of calls, every request for an approval is about a verdict of its attempt that found
      at least one of four things against running the query at once. */
  lemma AskedForAReason(cfg: Config, calls: seq<Call>, k: nat) returns (i: nat)
    requires var trace := AfterCalls(cfg, NO_RUN, calls).trace; k < |trace| && trace[k].Asked?
    ensures var trace := AfterCalls(cfg, NO_RUN, calls).trace;
      && i < k && trace[i].Judged? && trace[i].attempt == trace[k].attempt
      && (|| trace[i].facts.totalCost > trace[i].policy.maxTotalCost
          || trace[i].facts.planRows > trace[i].policy.maxPlanRows
          || trace[i].facts.controlledColumns
          || trace[i].facts.confidence < cfg.minConfidence)
  {
    var trace := AfterCalls(cfg, NO_RUN, calls).trace;
    TraceOkAt(cfg, trace, k);
    PendingAttempt(cfg, trace[..k]);
    i :| 0 <= i < k && Judges(trace[..k][i], PendingQuery(trace[..k]).value);
    TraceOkAt(cfg, trace, i);
  }

  /** A refusal is only ever reported by a run that has ended, so it is reported for good; and so is an
      answer. */
  lemma RefusalIsFinal(cfg: Config, c: Checkpoint, trace: seq<Effect>)
    requires CheckpointOk(cfg, c, trace)
    ensures StatusOf(c) == REJECTED ==> c.next == Finish && Settled(c)
    ensures StatusOf(c) == COMPLETED ==> c.next == Finish && Settled(c)
  {
  }
}

/** The service in front of the graph: one checkpointed run per run id. */
module AgentWorkflow {
  import opened AgentGraph
  import opened AgentRuns
  import opened Wrappers

  datatype CallResult = Reported(status: Status, state: State) | Conflict | IdentityMismatch | WorkflowError

  predicate SameIdentity(a: Request, b: Request) {
    a.tenant == b.tenant && a.user == b.user && a.dataSource == b.dataSource && a.question == b.question
  }

  /** Unlike a start, a resume that ends in an error raises it; so does one that is left in the pause it
      was to end. */
  predicate ResumeRaises(attempts: nat, after: Checkpoint) {
    after.mode == Errored || (after.mode.Interrupted? && after.state.attempts == attempts)
  }

  function ResumeReport(before: Checkpoint, after: Checkpoint): CallResult {
    if ResumeRaises(before.state.attempts, after) then WorkflowError else Reported(StatusOf(after), after.state)
  }

  /** Where the graph's loop stands after some node executions. */
  ghost predicate Going(cfg: Config, run: Run, now: Run, world: World, steps: nat) {
    && RunOk(cfg, run) && run.checkpoint.Some? && RunOk(cfg, now) && now.checkpoint.Some?
    && now.checkpoint.value.state.request == run.checkpoint.value.state.request
    && Settle(cfg, run, world, 0) == Settle(cfg, now, world, steps)
    && steps + Fuel(cfg, now.checkpoint.value) <= 5 * MaxAttempts(cfg) + 4
  }

  lemma GoesOn(cfg: Config, run: Run, now: Run, world: World, steps: nat)
    requires Going(cfg, run, now, world, steps) && !Settled(now.checkpoint.value)
    ensures var next := Advance(cfg, now, world(steps));
      Going(cfg, run, next, world, steps + 1) && Fuel(cfg, next.checkpoint.value) < Fuel(cfg, now.checkpoint.value)
  {
    SettleStep(cfg, now, world, steps);
  }

  lemma GoesFirst(cfg: Config, run: Run, world: World)
    requires RunOk(cfg, run) && run.checkpoint.Some?
    ensures Going(cfg, run, run, world, 0)
  {
    if !Settled(run.checkpoint.value) {
      FuelFalls(cfg, run.checkpoint.value, run.trace, world(0));
    }
  }

  /** A report tells the truth about the run: when it waits, what it ended with, and where an answer is from. */
  ghost predicate TellsTruth(cfg: Config, run: Run, status: Status, state: State) {
    && run.checkpoint.Some? && state == run.checkpoint.value.state
    && (status == WAITING_APPROVAL <==> run.checkpoint.value.mode.Interrupted?)
    && (run.checkpoint.value.mode == Errored ==> status == FAILED)
    && (status == COMPLETED ==> run.checkpoint.value.next == Finish && state.error == None)
    && (status == COMPLETED ==> AnsweredFrom(cfg, state, run.trace))
    && (status == REJECTED ==> state.error == Some(ApprovalRejected) || state.risk == Some(Blocked))
    && (status == FAILED && run.checkpoint.value.mode != Errored ==> state.error.Some?)
    && status != PLANNING
  }

  lemma ReportIsTrue(cfg: Config, run: Run)
    requires RunOk(cfg, run) && run.checkpoint.Some? && Settled(run.checkpoint.value)
    ensures TellsTruth(cfg, run, StatusOf(run.checkpoint.value), run.checkpoint.value.state)
  {
  }

  class AgentWorkflowService {
    const cfg: Config
    var runs: map<nat, Run>

    constructor (cfg: Config)
      ensures this.cfg == cfg && runs == map[] && Valid()
    {
      this.cfg := cfg;
      runs := map[];
    }

    function RunOf(id: nat): Run
      reads this
    {
      if id in runs then runs[id] else NO_RUN
    }

    ghost predicate Valid()
      reads this
    {
      forall id :: id in runs ==>
        && RunOk(cfg, runs[id]) && runs[id].checkpoint.Some? && Settled(runs[id].checkpoint.value)
        && runs[id].checkpoint.value.state.request.run == id
    }

    /** The graph's own loop: a bounded number of node executions. */
    method Invoke(run: Run, world: World) returns (settled: Run, steps: nat)
      requires RunOk(cfg, run) && run.checkpoint.Some?
      ensures settled == Settle(cfg, run, world, 0)
      ensures settled.checkpoint.Some? && settled.checkpoint.value.state.request == run.checkpoint.value.state.request
      ensures steps <= 5 * MaxAttempts(cfg) + 4
    {
      settled, steps := run, 0;
      GoesFirst(cfg, run, world);
      while !Settled(settled.checkpoint.value)
        invariant Going(cfg, run, settled, world, steps)
        decreases Fuel(cfg, settled.checkpoint.value)
      {
        GoesOn(cfg, run, settled, world, steps);
        settled := Advance(cfg, settled, world(steps));
        steps := steps + 1;
      }
    }

    /** A settled run is the new checkpoint of its id. */
    method Save(id: nat, run: Run)
      requires Valid() && RunOk(cfg, run) && run.checkpoint.Some? && Settled(run.checkpoint.value)
      requires run.checkpoint.value.state.request.run == id
      modifies this
      ensures Valid() && RunOf(id) == run
      ensures forall other :: other != id ==> RunOf(other) == old(RunOf(other))
    {
      runs := runs[id := run];
    }

    method StartRun(request: Request, world: World) returns (result: CallResult)
      requires Valid()
      modifies this
      ensures Valid()
      ensures var before := old(RunOf(request.run));
        if before.checkpoint.Some? && !SameIdentity(before.checkpoint.value.state.request, request)
        then result == Conflict && runs == old(runs)
        else
          && RunOf(request.run) == AfterCall(cfg, before, Start(request, world))
          && RunOf(request.run).checkpoint.Some?
          && result == Reported(StatusOf(RunOf(request.run).checkpoint.value),
                                RunOf(request.run).checkpoint.value.state)
      ensures result.Reported? ==> TellsTruth(cfg, RunOf(request.run), result.status, result.state)
      ensures result == Conflict <==>
        && old(RunOf(request.run)).checkpoint.Some?
        && var known := old(RunOf(request.run)).checkpoint.value.state.request;
           (known.tenant, known.user, known.dataSource, known.question)
           != (request.tenant, request.user, request.dataSource, request.question)
      ensures forall id :: id != request.run ==> RunOf(id) == old(RunOf(id))
    {
      var run := RunOf(request.run);
      if run.checkpoint.Some? {
        if !SameIdentity(run.checkpoint.value.state.request, request) {
          return Conflict;
        }
        ReportIsTrue(cfg, run);
        return Reported(StatusOf(run.checkpoint.value), run.checkpoint.value.state);
      }
      BeginKeeps(cfg, run, request);
      var settled, steps := Invoke(Begin(run, request), world);
      ReportIsTrue(cfg, settled);
      Save(request.run, settled);
      result := Reported(StatusOf(settled.checkpoint.value), settled.checkpoint.value.state);
    }

    method ResumeRun(id: nat, tenant: nat, decision: Decision, world: World) returns (result: CallResult)
      requires Valid()
      modifies this
      ensures Valid()
      ensures var before := old(RunOf(id));
        var waiting := before.checkpoint.Some? && before.checkpoint.value.mode.Interrupted?;
        && RunOf(id) == AfterCall(cfg, before, Resume(tenant, decision, world))
        && (result == Conflict <==> !waiting)
        && (result == IdentityMismatch <==> waiting && before.checkpoint.value.state.request.tenant != tenant)
        && (CanResume(before, tenant) ==>
              RunOf(id).checkpoint.Some?
              && result == ResumeReport(before.checkpoint.value, RunOf(id).checkpoint.value))
      ensures result.Reported? ==> TellsTruth(cfg, RunOf(id), result.status, result.state)
      ensures forall other :: other != id ==> RunOf(other) == old(RunOf(other))
    {
      var run := RunOf(id);
      if run.checkpoint.None? || !run.checkpoint.value.mode.Interrupted? {
        return Conflict;
      }
      if run.checkpoint.value.state.request.tenant != tenant {
        return IdentityMismatch;
      }
      BeginResumeKeeps(cfg, run, tenant, decision);
      var settled, steps := Invoke(BeginResume(run, tenant, decision), world);
      ReportIsTrue(cfg, settled);
      Save(id, settled);
      result := ResumeReport(run.checkpoint.value, settled.checkpoint.value);
    }
  }
}

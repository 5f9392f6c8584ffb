# A verified model of the analysis copilot

The system answers business questions about databases. A Java platform keeps jobs, approvals and an
event stream; a Python agent turns a question into guarded SQL, runs it and explains the result; a
TypeScript client follows a job over server-sent events. This project models the parts of the three
programs whose correctness depends on whole runs, and proves what those runs keep.

- **Event delivery** (`EventStream`, `EventDelivery`, `EventGaps`, `SseParsing`, `Text`). One job's
  bounded log, the in-process subscribers, and clients that reconnect with a cursor are a state machine
  over publishes, append failures, broadcasts that break off, trimming, expiry, disconnects and
  reconnects. What a client receives is in publish order and without duplicates, and a stored event it
  was not given is announced by a snapshot, unless a broadcast broke off before it got to that client.
  The byte format below it is parsed from arbitrary chunks (sections 9.2.5 and 9.2.6 of the WHATWG HTML
  Standard; a block whose data is one empty line gives no event here, unlike in the standard).
- **Jobs, approvals and leases** (`JobStatus`, `PlatformJobs`, `JobProtocol`, `JobTruth`, `ApprovalReuse`).
  Duplicate workers, retries, callbacks and decisions drive one job in any interleaving; the decision is
  a read, a remote resume and a commit that may be rolled back.
- **The agent graph** (`AgentGraph`, `AgentNodes`, `AgentRuns`, `AgentReplay`). Nine nodes over a
  last-write-wins state, a bounded repair loop and one pause for approval, started and resumed by any
  sequence of calls.
- **Graph search** (`GraphWalks`, `GraphSearch`, `GraphStore`, `KnowledgeGraph`, `EvidenceBudget`).
  Breadth-first search over simple routes, bounded neighbourhoods, the closed graphs that are persisted,
  and the evidence that fits into one model message.
- **Retrieval** (`Evidence`, `Ranking`, `Retrieval`, `RetrievalRuns`, `Chunking`, `Providers`,
  `Sequences`, `Wrappers`). Weighted rank fusion, a cache keyed by a corpus revision and shared state
  between many instances, overlapping chunk windows, and realigned provider answers.
- **Queries** (`SafeQuery`, `Nl2Sql`, `QueryExecutor`, `StructuredLlm`, `SearchPattern`). The audit ledger
  over the repair loop, the exact byte budget of a result, bounded model retries, and a search pattern
  whose meaning under LIKE is substring search (section 9.7.1 of the PostgreSQL documentation).

Where the source changes state step by step the model has a class or a loop, and each method is proved
against a specification function; the results about runs are lemmas about those functions.

Some properties hold only under a condition, and then the condition is proved exact:

- With no snapshot between them, two stored events leave a gap of stored publications if and only if
  the reply of an append between them was lost (stored, but reported as failed), so its event reached
  the client under a transient id, or an unchecked exception ended a broadcast between them before it
  got to the client (`EventDelivery.GapIffExcused`). Both happen (`EventGaps`). Counting publications
  rather than ids, only the second leaves a gap (`EventDelivery.DeliveryIsFaithful`).
- The client normalises CRLF chunk by chunk, so it ends with the blocks and the remainder of the text if
  and only if no chunk ends inside a CRLF (`SseParsing.ChunkingIsInvisible`).
- Events survive writing, chunking and parsing if and only if each has data (`SseParsing.RoundTrip`).
- A job that is already RUNNING cannot take in a report that asks for approval or refuses
  (`JobWorker.AdvancedIff`).
- A resume names an approval, but the agent never looks at it: a resume delivered again is taken as the
  decision on whatever the run waits for by then. A second delivery changes nothing if and only if it is
  a start, or the run is not reported WAITING_APPROVAL, or the tenant is another, or the pause fails
  before it has announced the pending approval again and is left waiting
  (`AgentReplay.ReplayAddsNothingIff`). Otherwise it can execute a query nobody has approved
  (`AgentReplay.ResumeTwiceRunsTwo`), though never the same attempt twice (`AgentReplay.ExecutionsClimb`).
- A pause whose step record fails behind a denial may be left waiting. Then the denial is final, over all
  sequences of calls, if and only if the checkpointer keeps the decision taken and gives it to the pause
  again (`AgentReplay.DenialIsFinalIff`). Whether it does is a parameter of the model.
- One approval row gives the agent one decision, and one more for every resume whose decision was rolled
  back, before or after the request got to the agent (`ApprovalReuse.OneDecisionUnlessUndone`); with one
  such resume it can approve a query it was not recorded for (`ApprovalReuse.OneRowApprovesTwoQueries`).
- An answered question has one audit event a round if and only if the audit sink took every one; a
  refused event is itself repaired (`Nl2Sql.OneEventARound`).
- A vector score of zero counts as missing, so raising a score can cost a result its evidence if and only if
  the mode uses vectors and the vector minimum, which may be set from -1 to 1, lies between -1 and 0
  (`Evidence.RaisingIsSafeIff`).
- A lexical candidate precedes a vector-only one by rank alone, three lexical ranks to one
  (`Ranking.LexicalBeforeVectorIff`). So all lexical ones come first, whatever the rankings, if and only
  if there are fewer than `2k + 3` of them (`Ranking.LexicalFirstBoundIsExact`), and for every limit a
  caller may ask for if and only if `rrf_k` is at least 39; it may be set to 1, and defaults to 60
  (`Ranking.LimitsKeepLexicalFirstIff`).

Check everything with `dafny verify dfyconfig.toml`.

## Model

| member | source | states |
|---|---|---|
| EventStore.RedisAnalysisEventStore.Append | platform-api/src/main/java/com/example/copilot/repository/RedisAnalysisEventStore.java:20-84 | The script numbers the event, appends it and trims the oldest beyond the bound; the caller gets the event, or an exception with or without the event stored |
| EventStore.ReadsNewestStored | platform-api/src/main/java/com/example/copilot/repository/RedisAnalysisEventStore.java:20-103 | After any appends, whatever became of each, a read gives the newest of all events ever stored, in order and numbered without a gap, however often the log was trimmed |
| EventStream.AnalysisEventStreamService.Broadcast | platform-api/src/main/java/com/example/copilot/service/AnalysisEventStreamService.java:112-126 | Every subscriber of the job is sent the event once; broken ones are dropped, and a terminal event completes and drops all; an unchecked exception ends the loop, and the subscribers behind it stay without the event; other jobs are untouched |
| EventStream.BroadcastMeaning | platform-api/src/main/java/com/example/copilot/service/AnalysisEventStreamService.java:112-126 | By its place in the list, each subscriber the loop gets to has the event unless its connection broke, and stays exactly if it did not break and the event is not the last; those behind an exception are as before |
| EventStream.AnalysisEventStreamService.Publish | platform-api/src/main/java/com/example/copilot/service/AnalysisEventStreamService.java:39-52 | Appends and broadcasts under the job's lock; an append exception broadcasts a transient event with number 0 instead, even if the event was stored; each subscriber gets it by its place, and an unchecked exception of the broadcast escapes |
| EventStream.AnalysisEventStreamService.EventsAfter | platform-api/src/main/java/com/example/copilot/service/AnalysisEventStreamService.java:155-165 | The index loop returns what follows the first event with the last event id, everything without an id, and nothing when the log does not hold it |
| EventStream.AnalysisEventStreamService.Replay | platform-api/src/main/java/com/example/copilot/service/AnalysisEventStreamService.java:54-67 | The stored events after the cursor |
| EventStream.AnalysisEventStreamService.Subscribe | platform-api/src/main/java/com/example/copilot/service/AnalysisEventStreamService.java:69-101 | The new emitter is sent, as far as its connection holds, the events behind the first one with the last event id, or the whole log without an id, and a snapshot exactly when the log is empty or unreadable or does not hold the id; it stays subscribed if all was sent and the job is not over |
| EventStream.AnalysisEventStreamService.RemoveSubscriber | platform-api/src/main/java/com/example/copilot/service/AnalysisEventStreamService.java:141-149 | Removes one emitter of one job and nothing else |
| EventDelivery.FaithfulReplay | platform-api/src/main/java/com/example/copilot/service/AnalysisEventStreamService.java:155-165 | Replaying the log behind the last event received continues it in order, without duplicate or gap |
| EventDelivery.GreetingContinues | platform-api/src/main/java/com/example/copilot/service/AnalysisEventStreamService.java:69-101 | Whatever log, trimming and cursor, the first events of a connection continue what the client already has and leave it caught up |
| EventDelivery.ReconnectIsReplayed | platform-api/src/main/java/com/example/copilot/service/AnalysisEventStreamService.java:69-101 | In every run, a client that reconnects while the log holds the last event it received is sent exactly the stored events behind it |
| EventDelivery.StepKeeps | platform-api/src/main/java/com/example/copilot/service/AnalysisEventStreamService.java:39-149 | Publishing, failing appends, trimming, expiry, closing, connecting, delivering and losing connections all keep the delivery invariant |
| EventDelivery.DeliveryIsFaithful | web/src/lib/sse.ts:75-100 | In every run each client receives publications in publish order, none twice, and every stored one it misses is followed by a snapshot before the next, except those whose broadcast broke off before it |
| EventDelivery.NothingSkipped | platform-api/src/main/java/com/example/copilot/service/AnalysisEventStreamService.java:39-126 | Between two received events with no snapshot between them every stored publication was received, except those whose broadcast broke off before the client |
| EventDelivery.GapIffExcused | platform-api/src/main/java/com/example/copilot/service/AnalysisEventStreamService.java:39-126 | By event id such a gap exists exactly when an append between them was stored but reported as failed, or a broadcast between them broke off before the client |
| EventGaps.LostReplyLeavesGap | platform-api/src/main/java/com/example/copilot/repository/RedisAnalysisEventStore.java:54-84 | A run with a gap left by a lost reply, from every initial world |
| EventGaps.BrokenOffBroadcastLeavesGap | platform-api/src/main/java/com/example/copilot/service/AnalysisEventStreamService.java:112-126 | A run with a gap left by a broadcast that an unchecked exception ended, from every initial world; the emitter that throws is one a lost connection left ahead of the client's |
| SseParsing.ParseSseBlock | web/src/lib/sse.ts:18-32 | The line loop computes the block's id, name and joined data, or nothing when there is no data |
| SseParsing.LineSets | web/src/lib/sse.ts:22-31 | A line with the name of a field alone, or with a colon and a value behind at most one blank, sets that field; data lines add up |
| SseParsing.OtherLinesAreIgnored | web/src/lib/sse.ts:20-31 | Every other line changes nothing |
| SseParsing.Drain | web/src/lib/sse.ts:64-71 | The inner loop emits the events of every complete block and keeps the rest |
| SseParsing.StreamEvents | web/src/lib/sse.ts:58-72 | The read loop over any chunks emits the events of splitting all of what it read |
| SseParsing.SplitBlocksAppend | web/src/lib/sse.ts:60-72 | Splitting a text at any point and the pieces in turn is splitting the whole |
| SseParsing.ReadsNormalizedTextIff | web/src/lib/sse.ts:60-64 | What is read is the normalised text exactly when no chunk boundary falls inside a CRLF |
| SseParsing.ChunkingIsInvisible | web/src/lib/sse.ts:60-72 | A chunking gives the blocks and remainder of the whole normalised text exactly when no chunk boundary falls inside a CRLF |
| SseParsing.LfChunkingIsInvisible | web/src/lib/sse.ts:60-72 | For LF text every chunking does |
| SseParsing.CutCrlfMissesABlock | web/src/lib/sse.ts:60-64 | A chunk boundary inside a CRLF loses a block |
| SseParsing.WrittenBlockParses | web/src/lib/sse.ts:18-32 | A written event parses to its own id, name and data; without data, or with one empty line of data, to nothing |
| SseParsing.RoundTrip | web/src/lib/sse.ts:18-72 | Events written as blocks, chunked anyhow and read back are the same list exactly when each has data |
| JobStatus.HistoryClimbs | platform-api/src/main/java/com/example/copilot/entity/AnalysisJobStateMachine.java:17-52 | Every change of status climbs a fixed order, so a history only climbs, and only its last status can be terminal |
| JobStatus.EachStatusIsPrepared | platform-api/src/main/java/com/example/copilot/entity/AnalysisJobStateMachine.java:17-52 | A job runs or waits only once validated, completes only when it runs, and fails or is cancelled from any open status |
| JobStatus.AtMostFiveChanges | platform-api/src/main/java/com/example/copilot/entity/AnalysisJobStateMachine.java:17-52 | A status history has at most five changes |
| PlatformJobs.MovedKeeps | platform-api/src/main/java/com/example/copilot/entity/AnalysisJob.java:179-184 | A transition keeps the finish time set exactly when the status is terminal, and the history climbing |
| PlatformJobs.AnalysisJob.TransitionTo | platform-api/src/main/java/com/example/copilot/entity/AnalysisJob.java:179-184 | Moves the status and stamps the finish time if the transition is allowed, otherwise changes nothing |
| PlatformJobs.AnalysisJob.StoreAgentResult | platform-api/src/main/java/com/example/copilot/entity/AnalysisJob.java:206-227 | Replaces the stored result and nothing else |
| PlatformJobs.Approval.Decide | platform-api/src/main/java/com/example/copilot/entity/Approval.java:118-129 | Decides a pending approval once, with the reviewer, comment and time; otherwise fails and changes nothing |
| JobWorker.Advance | platform-api/src/main/java/com/example/copilot/task/AnalysisJobWorker.java:179-198 | Walks an open job through the statuses on the way to the reported one, or throws |
| JobWorker.AdvancedIff | platform-api/src/main/java/com/example/copilot/task/AnalysisJobWorker.java:179-198 | An open job can take in every report but a pause or a refusal of a job that is already running, and ends in the reported status |
| JobWorker.AdvancedKeeps | platform-api/src/main/java/com/example/copilot/task/AnalysisJobWorker.java:179-198 | The walk keeps the job's invariant |
| JobWorker.Prepare | platform-api/src/main/java/com/example/copilot/task/AnalysisJobWorker.java:95-112 | Finished and waiting jobs are not dispatched and not touched; a new one is planned and the others are dispatched as they are |
| JobWorker.CallAgent | platform-api/src/main/java/com/example/copilot/task/AnalysisJobWorker.java:114-135 | The first reply within the attempts is returned; failure means that none came before the last attempt or an interrupted pause; the pause behind attempt n is n times the backoff |
| JobWorker.PersistResult | platform-api/src/main/java/com/example/copilot/task/AnalysisJobWorker.java:137-158 | A finished job is left alone, and a running one refuses a pause or a refusal; otherwise the job has the status of the report's name, a planning report only begins a new job, and every result column is the state's field of its name |
| JobWorker.Fail | platform-api/src/main/java/com/example/copilot/task/AnalysisJobWorker.java:160-173 | A finished job is left alone; an open one fails with the code as its only result |
| JobWorker.FailingNeverThrows | platform-api/src/main/java/com/example/copilot/task/AnalysisJobWorker.java:160-173 | Every open job can be failed |
| ApprovalService.AdvanceToWaiting | platform-api/src/main/java/com/example/copilot/service/ApprovalService.java:131-139 | Walks a job to WAITING_APPROVAL or throws |
| ApprovalService.Request | platform-api/src/main/java/com/example/copilot/service/ApprovalService.java:45-68 | Returns the job's approval if there is one; otherwise creates it and moves the job to waiting |
| ApprovalService.Decide | platform-api/src/main/java/com/example/copilot/service/ApprovalService.java:71-122 | Goes through exactly for a pending approval of a job that may run or be rejected; the row says granted or refused as decided, a denied job is rejected, an approved one is where the resumed run is, with its result |
| ApprovalService.DecidedKeeps | platform-api/src/main/java/com/example/copilot/service/ApprovalService.java:71-122 | The commit keeps the job's invariant, and goes through on a finished job only as the denial of an already rejected one |
| DispatchLease.JobDispatchLease.Acquire | platform-api/src/main/java/com/example/copilot/task/JobDispatchLease.java:29-36 | Takes a free lease, refuses a held one, and lets everybody through without an answer, whether or not the lease was taken |
| DispatchLease.JobDispatchLease.Release | platform-api/src/main/java/com/example/copilot/task/JobDispatchLease.java:38-44 | Removes the lease only if the caller owns it |
| JobProtocol.StepKeepsAll | platform-api/src/main/java/com/example/copilot/task/AnalysisJobWorker.java:60-198 | Every step of every worker, callback, agent node and decision keeps the invariant across both services, transactions refused by the version check and resumes that arrive after their decision was rolled back included |
| JobProtocol.RefusedAgentStays | agent-service/app/agent/service.py:51-69 | An agent run that was refused is never interrupted or resumed again |
| JobProtocol.FinishedJobIsFrozen | platform-api/src/main/java/com/example/copilot/service/ApprovalService.java:70-122 | No step changes the row of a terminal job |
| JobProtocol.TerminalResultIsFinal | platform-api/src/main/java/com/example/copilot/entity/AnalysisJob.java:55-56 | Once terminal a job keeps its result for ever, under duplicate workers, retries, callbacks, rolled-back decisions and late resumes |
| JobProtocol.StatusesClimb | platform-api/src/main/java/com/example/copilot/entity/AnalysisJobStateMachine.java:38-52 | In every run the history climbs, has at most five changes, and the finish time is set exactly when terminal |
| JobTruth.CompletedJobIsAnswered | platform-api/src/main/java/com/example/copilot/task/AnalysisJobWorker.java:137-158 | In every run a completed job has the answer of an agent run that ended without an error, and its sql, answer, columns, rows, chart and citations are that run's |
| JobTruth.FailedJobHasReason | platform-api/src/main/java/com/example/copilot/task/AnalysisJobWorker.java:137-173 | In every run a failed job has an error code |
| JobTruth.RejectedJobWasRefused | platform-api/src/main/java/com/example/copilot/service/ApprovalService.java:71-122 | In every run a rejected job's agent run was refused, or its approval was |
| JobTruth.DecidedRowFitsJob | platform-api/src/main/java/com/example/copilot/service/ApprovalService.java:71-122 | In every run a granted approval is of a job that runs or is over, a refused one of a rejected job |
| JobProtocol.ApprovalIsDecidedOnce | platform-api/src/main/java/com/example/copilot/entity/Approval.java:118-129 | A decided approval never changes again |
| ApprovalReuse.ResumesStandOrWereUndone | platform-api/src/main/java/com/example/copilot/service/ApprovalService.java:70-122 | In every run each resume of the agent stands in a decision, in flight or committed, or its decision was rolled back, before or after |
| ApprovalReuse.OneDecisionUnlessUndone | platform-api/src/main/java/com/example/copilot/service/ApprovalService.java:45-122 | In every run the agent takes at most one decision, and one more for each resume whose decision was rolled back |
| ApprovalReuse.OneRowApprovesTwoQueries | agent-service/app/agent/service.py:51-69 | With one resume undone, one row approves the query it was recorded for and another |
| JobProtocol.OneWorkerWhileCalm | platform-api/src/main/java/com/example/copilot/task/JobDispatchLease.java:29-36 | While every attempt to acquire is answered and no lease expires at most one worker holds the job |
| JobProtocol.LeaseIsFreedByItsHolder | platform-api/src/main/java/com/example/copilot/task/JobDispatchLease.java:17-44 | Only the holder's release or expiry frees a lease |
| AgentRuns.StepKeeps | agent-service/app/agent/graph.py:47-176 | Every node execution keeps the link between the state and what has been drafted, judged, asked and executed |
| AgentRuns.FuelFalls | agent-service/app/agent/graph.py:133-176 | Every node execution spends fuel, so a segment between start, pause and end is finite |
| AgentRuns.LicenceIsForLastDraft | agent-service/app/agent/actions.py:203-231 | A query that may run is what the guard made of the newest draft, at that attempt |
| AgentRuns.ExecutionsAreLicensed | agent-service/app/agent/actions.py:233-242 | In every sequence of calls each execution runs the query accepted for the newest draft, right after a safe verdict or a fresh approval |
| AgentRuns.WithinAttempts | agent-service/app/agent/graph.py:146-176 | Drafts and executions are each at most the repairs plus one |
| AgentReplay.ChangesNothingIff | agent-service/app/agent/service.py:21-69 | In every reachable state, exactly which call changes nothing: a start of a started run, a resume of one that is not interrupted or of another tenant, and a resume whose pause fails before announcing the approval and stays |
| AgentReplay.ReplayAddsNothingIff | agent-service/app/agent/service.py:51-69 | Exactly when a call delivered a second time changes nothing, by the status reported after the first |
| AgentReplay.ResumeMovesOn | agent-service/app/agent/graph.py:84-176 | A run that waits again after a resume waits for the query of a later attempt, unless the pause itself failed and stayed; then it has asked, or asked and taken the kept decision or else the new one, and nothing else |
| AgentReplay.DenialIsFinalIff | agent-service/app/agent/graph.py:84-131 | No sequence of calls executes a query after a denial exactly if the checkpointer keeps a decision whose step record failed |
| AgentReplay.ExecutionsClimb | agent-service/app/agent/actions.py:233-242 | The attempts of executions strictly climb, and the effect right before an execution is its own verdict or approval: no attempt runs twice, and nothing licenses two executions |
| AgentReplay.ResumeTwiceRunsTwo | agent-service/app/agent/service.py:51-69 | One resume delivered twice executes the query that was waiting and then a different one |
| AgentNodes.KnowledgeIsAnswered | agent-service/app/agent/actions.py:91-268 | A knowledge question completes without a draft: with enough evidence by the scores of its hits its answer is the content of the best one, otherwise the refusal to answer |
| AgentNodes.SelectStep | agent-service/app/agent/actions.py:111-177 | The first usable of two selections is taken, the second only after a well-formed first; the policy is cut to its tables and keeps its bounds |
| AgentNodes.GenerateStep | agent-service/app/agent/actions.py:179-201 | A draft that reports a table outside the selection stops the run; any other is the next attempt |
| AgentNodes.AcceptedStep | agent-service/app/agent/actions.py:203-231 | An accepted query runs at once exactly if its cost and rows are within the policy, no controlled column is read and the model was sure enough; otherwise an approval is asked for |
| AgentNodes.RefusedStep | agent-service/app/agent/graph.py:146-158 | A query the guard refuses is drafted again while attempts remain, and fails the run after that |
| AgentNodes.VerifyStep | agent-service/app/agent/actions.py:244-248 | A result without an expected column is drafted again while attempts remain; any other is composed |
| AgentRuns.UnapprovedIsWithinBounds | agent-service/app/agent/actions.py:203-231 | In every sequence of calls an execution not right behind an approval is right behind a verdict with cost and rows within the policy, no controlled column and enough confidence |
| AgentRuns.AskedForAReason | agent-service/app/agent/actions.py:215-231 | In every sequence of calls each request for an approval is about a verdict that broke at least one of these four |
| AgentRuns.CompletedIsAnswered | agent-service/app/agent/service.py:127-137 | In every sequence of calls a run reported completed has no error, and its answer is the best hit's, the refusal to answer, or the description of the table of its newest execution, which ran the newest draft and has every expected column |
| AgentRuns.NothingFollowsADenial | agent-service/app/agent/graph.py:84-131 | After a denial nothing is drafted, judged or executed: calls only ask and decide about the same query again, and not even that unless the run is reported waiting, until that query is approved after all, which never happens if decisions are kept |
| AgentRuns.EndIsReported | agent-service/app/agent/service.py:127-137 | In every sequence of calls a paused run is reported waiting, one stopped by an error failed, and one at its end refused if the question or the query was, failed with any other error, and else completed |
| AgentRuns.RefusalIsFinal | agent-service/app/agent/service.py:71-89 | REJECTED is reported only of a run that has ended |
| AgentWorkflow.AgentWorkflowService.Invoke | agent-service/app/agent/service.py:21-49 | The graph's loop settles the run within 5 * (repairs + 1) + 4 node executions |
| AgentWorkflow.AgentWorkflowService.StartRun | agent-service/app/agent/service.py:21-49 | A new run is begun and settled; an existing one is reported unchanged, or refused when tenant, user, data source or question differ; the report tells when the run waits, what it ended with and where its answer is from |
| AgentWorkflow.AgentWorkflowService.ResumeRun | agent-service/app/agent/service.py:51-69 | Only an interrupted run of the tenant is resumed; every other call leaves all runs alone; a report tells when the run waits, what it ended with and where its answer is from |
| GraphWalks.WalkShortens | agent-service/app/knowledge_graph/repository.py:45-65 | Every walk between two nodes can be cut down to a simple route that is no longer |
| GraphSearch.QueueShrinks | agent-service/app/knowledge_graph/repository.py:51-64 | Each turn of the queue loop lowers a measure on the routes still to come |
| GraphSearch.HeadIsShortest | agent-service/app/knowledge_graph/repository.py:51-64 | A route that reaches the target at the head of the queue is no longer than any walk |
| GraphSearch.NothingCovered | agent-service/app/knowledge_graph/repository.py:51-65 | An empty queue means that no walk within the depth exists |
| GraphSearch.FindPath | agent-service/app/knowledge_graph/repository.py:45-65 | Terminates with a connected route of minimum length and exactly its nodes if some undirected walk of at most `depth` edges exists, and with the empty graph otherwise |
| GraphStore.PutKeepsOtherTenants | agent-service/app/knowledge_graph/repository.py:22-27 | Replacing a source leaves every other tenant's view |
| GraphStore.PutMeaning | agent-service/app/knowledge_graph/repository.py:22-23 | A source has one graph, the one stored last, and storing it touches no other |
| GraphStore.TenantMeaning | agent-service/app/knowledge_graph/repository.py:25-27 | A tenant sees exactly the nodes and edges of its own graphs |
| GraphStore.ClosedTogether | agent-service/app/knowledge_graph/repository.py:25-27 | The union of closed source graphs is closed |
| GraphStore.GrowIsWithinHops | agent-service/app/knowledge_graph/repository.py:33-38 | The rounds of widening select exactly the nodes within that many undirected hops |
| GraphStore.GrowSelection | agent-service/app/knowledge_graph/repository.py:33-38 | The loop computes that selection |
| GraphStore.SeedsMeaning | agent-service/app/knowledge_graph/repository.py:29-32 | The search starts from the first `limit + 1` nodes whose name contains the query or is contained in it, up to case, or from the first nodes without a query |
| GraphStore.NeighbourhoodMeaning | agent-service/app/knowledge_graph/repository.py:29-43 | The result is a prefix of the nodes within reach, at most `limit`, without dangling edge, and marked truncated exactly when nodes were dropped |
| GraphStore.MemoryGraphStore.Replace | agent-service/app/knowledge_graph/repository.py:22-23 | Overwrites one source's graph and keeps the others |
| GraphStore.MemoryGraphStore.Surroundings | agent-service/app/knowledge_graph/repository.py:29-43 | `subgraph` returns that neighbourhood of the tenant's graphs |
| GraphStore.MemoryGraphStore.Path | agent-service/app/knowledge_graph/repository.py:45-65 | `path` over the tenant's graphs, with the guarantees of the search |
| KnowledgeGraph.BuildEdges | agent-service/app/knowledge_graph/service.py:62-87 | Keeps exactly the last edge given for each id, in the order in which the ids first occur, with both ends among the nodes |
| KnowledgeGraph.LastPerIdMeaning | agent-service/app/knowledge_graph/service.py:85-86 | The dict over the edges keeps one edge an id, the last one, at the place of the first |
| KnowledgeGraph.RelationJoins | agent-service/app/knowledge_graph/service.py:56-85 | A relation's edge joins the nodes made of the two entities it names |
| KnowledgeGraph.KnowledgeGraphService.Persist | agent-service/app/knowledge_graph/service.py:40-88 | Refuses invalid or unquoted extractions without a write; otherwise stores a node with each entity's own name, kind and quote and the last edge of each id, a closed graph, so all stored graphs stay closed |
| EvidenceBudget.Bound | agent-service/app/knowledge_graph/service.py:114-128 | The kept evidence is within the budget, relations before documents before entities, each by key; an entry is kept exactly if it fits behind the kept entries that go before it |
| EvidenceBudget.NothingLeftFits | agent-service/app/knowledge_graph/service.py:119-128 | No entry that was left out would fit into what remains |
| Ranking.Fuse | agent-service/app/retrieval/service.py:173-190 | The accumulation loops yield every candidate of the union once, ordered by 3/(k+rank) + 1/(k+rank) with ties by id |
| Ranking.FuseInOrder | agent-service/app/retrieval/service.py:173-190 | That order is the specification's, because contents determine it |
| Ranking.HybridRankMeaning | agent-service/app/retrieval/service.py:167-214 | Hybrid ranking returns each id of the union once, in that order, with the lexical and the vector score it has in its own rankings and a text and citation from them |
| Ranking.OwnRankMeaning | agent-service/app/retrieval/service.py:167-214 | A lexical or vector search is ranked as it was found, with its scores cut at zero |
| Ranking.LexicalBeforeVectorIff | agent-service/app/retrieval/service.py:173-190 | Lexical-only rank i precedes vector-only rank j (from 0) exactly if i < 2k + 2 + 3j, or they are equal and its id is smaller |
| Ranking.LexicalFirst | agent-service/app/retrieval/service.py:173-190 | With fewer than 2k + 3 candidates every lexical candidate precedes every vector-only one |
| Ranking.LexicalFirstBoundIsExact | agent-service/app/retrieval/service.py:173-190 | Over all rankings of a size that holds exactly if the size is below 2k + 3 |
| Ranking.LexicalCanComeSecond | agent-service/app/retrieval/service.py:173-190 | Rankings of every larger size that put a vector-only candidate first |
| Ranking.LimitsKeepLexicalFirstIff | agent-service/app/settings.py:131 | The candidate limits of all requests stay below the bound exactly for k of at least 39 |
| Ranking.DefaultLimitsKeepLexicalFirst | agent-service/app/retrieval/service.py:136 | At k = 60 no limit reaches the bound |
| Ranking.CandidateLimitMeaning | agent-service/app/retrieval/service.py:136 | Four candidates are fetched for each hit asked for, but at least 20 and at most 100 |
| Evidence.EvidenceMeaning | agent-service/app/retrieval/service.py:216-225 | There is enough evidence exactly if the mode uses a score that reaches its minimum; a missing lexical score counts as 0, a missing or zero vector score as -1 |
| Evidence.RaisingIsSafeIff | agent-service/app/retrieval/service.py:216-225 | Raising scores never loses the evidence exactly if the mode is lexical or the vector minimum is not strictly between -1 and 0 |
| RetrievalCorpus.PutRaisesSum | agent-service/app/retrieval/repository.py:64-114 | An ingest raises the sum of active versions by exactly one |
| RetrievalCorpus.InMemoryRepository.ReplaceDocument | agent-service/app/retrieval/repository.py:64-114 | Replaces one document with the next version and these chunks, leaves all others, and advances only its tenant's revision, which counts the tenant's ingests; no chunks means no change |
| RetrievalCache.RetrievalCache.Get | agent-service/app/retrieval/cache.py:23-33 | Returns a live entry; an expired one is dropped, and no later lookup can tell |
| RetrievalCache.RetrievalCache.Put | agent-service/app/retrieval/cache.py:35-37 | The result is found under its own text, mode and revision until the time to live is over; every other lookup finds what it found before |
| RetrievalCache.RetrievalCache.InvalidateTenant | agent-service/app/retrieval/cache.py:39-40 | No lookup of the tenant finds anything; every other lookup finds what it found before |
| RetrievalService.MetricRetrievalService.Ingest | agent-service/app/retrieval/service.py:66-115 | Refuses a title whose words do not make 1 to 240 characters, then a document that cannot be read or has no text; otherwise stores the document under that title, empties the tenant's cache, and keeps every cached result fresh |
| RetrievalService.MetricRetrievalService.Retrieve | agent-service/app/retrieval/service.py:117-165 | Refuses a query without 1 to 4000 characters, a limit outside 1 to 20 and a missing reranker; otherwise, cache or no cache, the first hits of the mode's ranking of what the current corpus has for the words of the query, to be answered as their scores decide |
| RetrievalService.SpacingIsIrrelevant | agent-service/app/retrieval/service.py:125-127 | The answer depends on the words of the query only, and normalising it again changes nothing |
| Text.WordsKeepText | agent-service/app/retrieval/service.py:125-127 | Splitting into words and joining them loses white space only |
| RetrievalRuns.RevisionsDiffer | agent-service/app/retrieval/repository.py:350-364 | Different corpora of one tenant's history have different revisions |
| RetrievalRuns.IngestMovesOnlyItsTenant | agent-service/app/retrieval/repository.py:350-364 | An ingest moves its own tenant's revision and no other |
| RetrievalRuns.StepKeeps | agent-service/app/retrieval/service.py:66-165 | Ingests, lookups, the two searches, finishing, invalidation and time, interleaved over many instances, keep every cache entry made from corpora no older than its revision |
| RetrievalRuns.CachedIsFresh | agent-service/app/retrieval/service.py:117-165 | In every reachable state a cached result under the current revision is what retrieving afresh returns |
| Chunking.EndsNeverMoveBack | agent-service/app/retrieval/parsing.py:119-136 | Starting a window later never moves its end back, with or without a break to cut at |
| Chunking.WindowEndMeaning | agent-service/app/retrieval/parsing.py:120-129 | A window that cannot reach the end of the text ends right behind the last break past its middle, or has its full length if there is none |
| Chunking.WindowsTile | agent-service/app/retrieval/parsing.py:119-136 | The windows start at the beginning, make progress, leave no gap and stop at the end |
| Chunking.OverlapIsBounded | agent-service/app/retrieval/parsing.py:136 | Neighbours share at most the overlap, and exactly the overlap unless the next window starts one character on |
| Chunking.WindowsReconstruct | agent-service/app/retrieval/parsing.py:119-136 | Dropping the overlaps gives back the content |
| Chunking.PiecesAreStretches | agent-service/app/retrieval/parsing.py:130-133 | Every chunk is a non-blank stripped stretch of one section, at most `max_characters` long |
| Chunking.EveryCharacterLands | agent-service/app/retrieval/parsing.py:108-137 | Every character that is not white space lands in a chunk of its own section |
| Chunking.ChunkSections | agent-service/app/retrieval/parsing.py:108-137 | The nested loops terminate for all valid bounds with exactly those chunks, numbered 0..n-1 across all sections, and refuse invalid bounds |
| Providers.SortedInPlace | agent-service/app/retrieval/providers.py:71-75 | After the length and index-set checks, sorting by index puts the item of position k at k |
| Providers.NamedOnce | agent-service/app/retrieval/providers.py:71-74 | By pigeonhole an answer that passes the checks names each position exactly once |
| Providers.AnswerOrderIsIrrelevant | agent-service/app/retrieval/providers.py:71-80 | Permuting a provider's answer changes no vector |
| Providers.HTTPEmbeddingProvider.ReadBatch | agent-service/app/retrieval/providers.py:69-89 | A batch is accepted exactly when it names each position once with a vector of the right dimension and a length, and its token count is not malformed; position k gets the normalised vector reported for it |
| Providers.AcceptsMeaning | agent-service/app/retrieval/providers.py:69-89 | The test for an embedding answer, spelled out: one item for each text, the right dimension, a length, a token count that is a number |
| Providers.RanksMeaning | agent-service/app/retrieval/providers.py:125-135 | The test for a rerank answer, spelled out: one item for each hit, each with a finite score |
| Providers.HTTPEmbeddingProvider.Embed | agent-service/app/retrieval/providers.py:57-90 | All batches of 32 must be accepted; then text i gets the vector reported for it; the counters count the accepted batches and their tokens, and say whether every one reported them |
| Providers.HTTPReranker.Rerank | agent-service/app/retrieval/providers.py:110-145 | A rerank is accepted exactly when it names each position once with finite scores, and is then a permutation of the hits, each with its reported score, descending, equal scores in answer order; every answer counts as a request, with or without results |
| StructuredLlm.StructuredLLMClient.Generate | agent-service/app/llm/structured.py:46-106 | Stops at the one attempt that is not retried, never beyond the maximum; pauses once before each further call; the assertion behind the loop is never reached |
| StructuredLlm.StructuredLLMClient.Retry | agent-service/app/llm/structured.py:117-121 | Pauses and retries exactly a retryable error that is not the last attempt's |
| StructuredLlm.LastAttemptIsUnique | agent-service/app/llm/structured.py:60-106 | The replies determine the number of calls |
| StructuredLlm.LastAttemptMeaning | agent-service/app/llm/structured.py:60-106 | The last attempt brought an output, an error that is not retryable, a schema failure beyond the budget, or is the last allowed; every one before it brought a failure that can be retried |
| StructuredLlm.InvalidRetriesAreBounded | agent-service/app/llm/structured.py:76-87 | Schema failures are retried at most `invalid_response_retries` times |
| StructuredLlm.OutputIsReturned | agent-service/app/llm/structured.py:89-104 | An attempt with a usable output is the last |
| StructuredLlm.PausesGrow | agent-service/app/llm/structured.py:123-137 | Pauses begin with the initial one, double until they reach the cap, and never exceed it |
| QueryExecutor.BoundedResult | agent-service/app/query_safety/executor.py:71-110 | Returns a prefix of the rows whose recorded size is the exact compact JSON size and within the limit; stopping early means that the next row would not fit |
| QueryExecutor.LongestFitIsMaximal | agent-service/app/query_safety/executor.py:90-104 | No longer prefix satisfies both bounds |
| QueryExecutor.Execute | agent-service/app/query_safety/executor.py:34-68 | With one row more than the bound fetched, `truncated` holds exactly when the full result has more rows than returned; too many or repeated columns are refused |
| QueryExecutor.FetchIsEnough | agent-service/app/query_safety/guard.py:60-70 | The LIMIT of `max_rows + 1` loses nothing the result depends on |
| SafeQuery.SafeQueryService.ExecuteFixed | agent-service/app/query_safety/service.py:42-172 | Makes the calls, appends the event and ends by the first answer that stops it: the guard's reason, a planner error, the cost or the row bound by its name, an executor error, or the result; a sink failure turns every end into an audit error |
| SafeQuery.EventReports | agent-service/app/query_safety/service.py:199-234 | The event's planner and executor flags equal the calls made, and its status, reason and result say how the statement ended |
| SafeQuery.RunIffAllowed | agent-service/app/query_safety/service.py:76-131 | The executor runs exactly when the guard accepted and the estimate, if made, is within the budget; once, with the guarded query |
| SafeQuery.EndsAsCalled | agent-service/app/query_safety/service.py:42-172 | A statement succeeds exactly when it ran and the executor returned, needs an approval exactly when only its estimate kept it from running, and is rejected exactly by the guard |
| Nl2Sql.NormalizeReportedTables | agent-service/app/nl2sql/table_references.py:9-24 | The loop accepts exactly lists of well-formed names without repeats |
| Nl2Sql.TableOfMeaning | agent-service/app/nl2sql/table_references.py:12-20 | A value is read as a table exactly if it is the bare name, or the name qualified with the allowed schema |
| Nl2Sql.NormalizeMeaning | agent-service/app/nl2sql/table_references.py:9-24 | A list is accepted exactly when every value is well formed and no two name the same table |
| Nl2Sql.ChooseMeaning | agent-service/app/nl2sql/service.py:109-123 | A selection is kept exactly when it is within the limit and every value names a known, allowed table that no other value names |
| Nl2Sql.NL2SQLService.ValidateSelection | agent-service/app/nl2sql/service.py:109-123 | Keeps a selection that is well formed, short enough, known and allowed |
| Nl2Sql.NL2SQLService.RunDraft | agent-service/app/nl2sql/service.py:66-93 | One round: check the reported tables, run the draft, classify the outcome |
| Nl2Sql.DraftTablesMeaning | agent-service/app/nl2sql/service.py:66-80 | A draft is run only if every table it reports is well formed, selected and named once |
| Nl2Sql.NL2SQLService.DraftUntilDone | agent-service/app/nl2sql/service.py:58-107 | The loop ends at the first round that needs no repair or after the last repair, with the events, calls, attempts and usage of exactly those rounds |
| Nl2Sql.NL2SQLService.Answer | agent-service/app/nl2sql/service.py:37-107 | A refused question or selection runs nothing and says which; a finished answer counts the repairs before its last round, the calls and usage of the selection and all rounds, and has the statement and result of its last event, one of repairs + 1 if the sink took every one; a failure has the last round's reason |
| Nl2Sql.LastRoundIsUnique | agent-service/app/nl2sql/service.py:65-95 | The world's answers determine the number of rounds |
| Nl2Sql.OneEventARound | agent-service/app/nl2sql/service.py:65-107 | An answer after n repairs leaves n + 1 audit events exactly when the sink took every one |
| Nl2Sql.AnsweredLedger | agent-service/app/query_safety/service.py:42-172 | Then all but the last are REJECTED or FAILED, the last is SUCCEEDED, and each tells the truth about its round |
| Nl2Sql.ExecutionsAreGuarded | agent-service/app/nl2sql/service.py:51-86 | Only the guard's own query for a round's draft, under the policy restricted to the selected tables and within the budget, is executed |
| Nl2Sql.OneExecutionARound | agent-service/app/nl2sql/service.py:65-95 | n rounds execute at most n times |
| Nl2Sql.TotalUsage | agent-service/app/nl2sql/service.py:148-158 | Each of the three counters is unknown exactly if the selection and every round leave it unknown; otherwise it is the sum of what they report |
| SearchPattern.SequentialReplacesEscapeOnce | platform-api/src/main/java/com/example/copilot/dto/request/AnalysisJobSearchCriteria.java:46-57 | The three sequential replaces equal one escape per character |
| SearchPattern.PatternMeansContains | platform-api/src/main/java/com/example/copilot/dto/request/AnalysisJobSearchCriteria.java:46-57 | LIKE with the pattern holds exactly when the text contains the keyword literally |
| SearchPattern.ClauseMeansContains | platform-api/src/main/resources/mapper/AnalysisJobSearchMapper.xml:59 | The whole filter: everything for a blank keyword, otherwise exactly the questions containing the stripped keyword |

## Left out

Of the events:

- More than one platform process: subscribers are in-process, so one process and one job's stream are modelled; the per-job lock makes each operation one step.
- Liveness: a subscriber whose terminal event arrives only by replay may never be completed, so nothing is claimed about completion.
- The reconnect delays, aborts and HTTP statuses of `watchJobEvents`, and JSON parsing of the event payload.
- An unchecked exception while a new connection is greeted: its request fails, and the client connects again.
- Event ids are numbered draws instead of random UUIDs: their freshness is built in.

Of the jobs:

- Liveness of jobs: a second pause of one run gets no approval row of its own, and the job can stay RUNNING.
- Short transactions are single steps; the approval callback may come, and the version check may refuse a worker's transaction, at any time, which allows more runs than the source has.
- JobWorker.PersistResult: an empty response of the agent ends like a failed call, and is not a result of its own.
- Who may decide (tenant and role checks), and the payloads of progress events.

Of the agent:

- The guard is any function from a statement and a policy to a verdict; parsing and qualifying SQL, question rules, prompts, and how a chart or a citation is made are not modelled, and table names reported to the graph are taken as normalised.
- Two calls racing between the checkpoint check and the first write of a start or resume; each call is one step up to its first node.
- What the checkpointer does with a pause that fails after a resume is library behaviour: whether the run is left interrupted is any choice at each failure, and whether a decision already taken is kept is a parameter.
- The error that an inspection shows beside a pause that is still waiting; the run is reported waiting all the same.
- AgentRuns.FuelFalls: the wording of answers is any function to a non-empty text, since only its presence decides the status.

Of the graph:

- Ids are numbers with 0 for the empty id; case folding and the name-based ids are parameters, assumed injective only where distinct nodes need it.
- GraphStore.NeighbourhoodMeaning: the cap of 200 edges leaves no mark in `truncated`, and none is claimed.
- The Neo4j store; of `answer` only the evidence budget is modelled, with each entry's size and its key's place in the order of strings as given.

Of retrieval:

- Searching, embedding and the reranker are deterministic functions; the revision digest is taken as injective, floats as reals, and a lookup reads the revision and the cache in one step.
- Providers.HTTPEmbeddingProvider.Embed: the square root behind a vector's length is a parameter, and rounding of the division is not modelled; retries of one HTTP request are one outcome.
- Parsing documents into sections: what reading and embedding a document gives is a parameter of an ingest; what counts as white space is a parameter.

Of the queries:

- QueryExecutor.BoundedResult: the JSON text of a name and of a cell is a parameter, one character a byte, and a row read back from its JSON text is taken to encode to the same text.
- Transactions, timeouts and database errors of the executor become one outcome; the order of rows under the LIMIT wrapper is that of the full result.
- Event ids, clocks, durations, trace and tenant fields of audit events, and what the prompts say.
- Backoff in the HTTP adapters of the providers and logging of retries.
- Search criteria other than the keyword.

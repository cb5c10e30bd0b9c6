# HermesManager: a verified model of its control plane

HermesManager accepts tasks, stores them in Postgres, dispatches them to runtimes and
records the events their agents report. This project models that control plane in Dafny
and proves what its design promises. Where a promise does not hold of the code, the
exact condition under which it holds is proved instead.

## The modules

- `Storage`, `Lifecycle`: the four tables as a value, each SQL statement as a function on
  it, and `CreateTask` and `handleCreateEvent` as processes with program counters. One
  step is one Store call. A run is any sequence of actions: it chooses which process steps,
  what the call's fault is (none, an error before it took effect, an error after), every
  random value, and concurrent skill upserts. A process that never steps again is a crashed
  one. Tokens are arbitrary values; SHA-256 is a free (injective) constructor.
- `LifecycleInvariant`, `LifecycleFinality`, `TerminalFinality`, `AgentToken`, `Provenance`,
  `LifecycleExample`: results for every interleaving and failure pattern.
- `RequestAtATime`, `RequestBoundary`, `TaskLog`: results when each request runs alone,
  from the same step function. Such a history is proved to be one of the runs above.
- `Answers`: what CreateTask and handleCreateEvent answer and write, said from the request, the
  tables before it and the faults alone.
- `Server`: the store, the scheduler's dispatch, `CreateTask` and `handleCreateEvent` as
  imperative methods on mutable tables, proved to answer and write just that, as the process
  does alone.
- `Policy`, `PolicyEngine`: first-match evaluation, the documented deny-overrides reading,
  shadowed rules, the mutable engine, and reloads beside evaluations.
- `Scheduler`, `RoundRobin`: runtime selection, and fairness of a wrapping counter under
  interleaved callers.
- `LocalRuntime`, `K8sDriver`: the two drivers as interleaved steps, and as objects.
- `Queries`, `Pagination`: the numbered-placeholder queries, what they mean, and walks over
  pages.
- `Retry`: the backoff loop in 64-bit nanoseconds.

## Where the code and its documents differ

- internal/policy/types.go:3-4 documents deny-overrides; the code takes the first match.
  `Policy.AgreementDecided` says exactly which rule lists make the two agree on every
  request. Costs are compared as text (internal/policy/engine.go:106), so a condition on a
  text that no cost has, such as "1.00", hides nothing: `Policy.UnrenderedCostAgrees`.
- docs/AGENT_API.md:87-95 draws terminal states as final. The state write is
  unconditional, so they are not, in two ways: a handler that verified before the
  revocation (`LifecycleExample.TerminalStateIsNotAbsorbing`), and a revocation that was
  lost and only logged (`LifecycleExample.LostRevocationReopens`). A terminal state is
  final if and only if the token is revoked and no process is armed against the state:
  `TerminalFinality.TerminalIsFinalExactlyWhen`; with requests handled one at a time, if
  and only if the token is not live: `RequestBoundary.SerialFrozenExactlyWhen`.
- internal/api/taskservice.go:38-39 promises no zombie tasks after a failed dispatch. For a
  creation that runs alone that holds exactly when both rollback writes take effect; among
  other requests, `TerminalFinality.RollbackIsFinalExactlyWhen` says when the state that
  the rollback leaves is final.
- docs/AGENT_API.md:80-83 says the stored token is mounted into the agent. The drivers mint
  another one (internal/runtime/local/local.go:111-123, internal/runtime/k8s/driver.go:139-144)
  and the stored one is returned to the API caller. `AgentToken.UnheldTokenIsSilent` gives the
  consequence: while no event request carries the stored token, nothing is recorded and a
  dispatched task stays running.
- docs/AGENT_API.md:82 says the token hash is bcrypt; the code uses SHA-256.

## Model

| member | source | states |
|---|---|---|
| LifecycleInvariant.InvStep | internal/api/taskservice.go:40-134 | Every step of every process, whatever the fault, keeps: foreign keys resolve, event ids unique, one owner per task, each process's assumptions at its program counter, and a justification for every stored state |
| LifecycleInvariant.InvRun | internal/api/router.go:247-335 | The same invariant in every state of every interleaved run |
| LifecycleInvariant.AuditJustification | internal/api/router.go:292-332 | In every reachable state completed and timeout have their event in the log, failed has task.failed or a creator whose dispatch failed, running has task.started or a creator that wrote it |
| LifecycleInvariant.TokenUpsertAlwaysInserts | internal/storage/postgres/store.go:297-304 | A process about to store a token is the only one that won the insertion of its task, and no token row exists: the un-revoking conflict branch never fires |
| LifecycleInvariant.RevocationIsPermanent | internal/storage/postgres/store.go:325-330 | Over any continuation a stored digest never changes and a revoked token stays revoked |
| LifecycleInvariant.StoredTasksAreAdmitted | internal/api/taskservice.go:50-96 | With a fixed rule list, the first rule that matches the stored user, team and first model of a stored task, without tool or cost, is an allow |
| LifecycleInvariant.AdvanceStateWrite | internal/storage/postgres/store.go:221-232 | A step that changes a task's state is the scheduler's, the rollback's, or a handler's whose matching event is already logged |
| LifecycleInvariant.AdvanceEvents | internal/storage/postgres/store.go:236-242 | The log grows only by the stepping handler's own event, with a fresh id, a listed type and an existing task |
| LifecycleInvariant.AdvanceOwner | internal/storage/migrations/001_init.up.sql:18-28 | A process becomes owner of a task only by inserting a row that was not there |
| LifecycleFinality.RevokedTaskFrozenExactlyWhen | internal/api/router.go:267-332 | A task with a revoked token keeps state, token row and log in every continuation if and only if no process still has an effective write against it |
| LifecycleFinality.QuietRevokedTaskFrozen | internal/api/taskservice.go:94-128 | Finality: revoked, no handler past verification, creator finished implies frozen for ever |
| LifecycleFinality.ArmedChanges | internal/api/taskservice.go:117-127 | For each armed process, actions that really change the task |
| LifecycleFinality.RevokedTokenIsRefused | internal/storage/postgres/store.go:306-323 | After revocation an unverified handler can only end in 401, or 500 when the lookup fails, and writes nothing |
| LifecycleFinality.EventsAfterRevocationBounded | internal/api/router.go:269-295 | Events recorded after a revocation plus handlers still between verification and append never exceed their sum at the revocation |
| LifecycleFinality.StragglersCanAllLand | internal/api/router.go:292-295 | The bound is attained: stragglers with listed types and fresh distinct ids can all still be recorded |
| TerminalFinality.TerminalIsFinalExactlyWhen | docs/AGENT_API.md:87-95 | In every reachable state a completed, failed or timed-out task keeps its state in every continuation if and only if its token is revoked and no process is armed against its state |
| TerminalFinality.StateFrozenExactlyWhen | internal/storage/postgres/store.go:221-232 | The same for every state: final if and only if the token is not live and no process, a minting creator included, is armed |
| TerminalFinality.LiveTokenMoves | internal/api/router.go:298-332 | Whoever holds a live token can move the task out of any state, a terminal one included |
| TerminalFinality.ReachableTokensFirst | internal/api/taskservice.go:94-108 | In every reachable state a task that is not pending, or has an event, has a token row |
| TerminalFinality.RollbackIsFinalExactlyWhen | internal/api/taskservice.go:117-128 | Among any other requests, the state a rollback leaves is final if and only if the token is then revoked and no handler is armed |
| AgentToken.UnheldTokenIsSilent | docs/AGENT_API.md:80-83 | In a run where no event request for a task presents its stored digest, at every moment its log is empty, its state is neither completed nor timeout, failed only by its creator's rollback, and running once its creator answered with success after a dispatch |
| Provenance.StoredTasksAreRequested | internal/api/taskservice.go:68-92 | In every run each stored task was asked for: some creation request has its skill, parameters, user, team, runtime and deadline or got the defaults, and its models are those a skill of that name was given |
| Provenance.LoggedEventsAreAuthentic | internal/api/router.go:267-295 | In every run each logged event was sent by an event request for that task, type and payload, with its id unless that was generated, presenting the digest stored for the task |
| Provenance.RecordedMeansLogged | internal/api/router.go:334 | In every interleaving and failure pattern a 201 with an id means that an event with that id is in the log |
| Provenance.AcceptedMeansStored | internal/api/taskservice.go:94-133 | Likewise a creation answered with a token has its row and that token's digest stored, and an external id exactly if there is a scheduler, which knows its runtime |
| Provenance.NotFoundExactlyWhen | internal/scheduler/scheduler.go:44-48 | Likewise a failed dispatch is "runtime not found" exactly when no such runtime is registered |
| LifecycleExample.LostRevocationReopens | internal/api/router.go:305-307 | A concrete run in which every handler has finished, the revocation was lost, and a later task.started makes the completed task running again |
| LifecycleExample.CompletedIsReachable | internal/api/router.go:298-307 | A concrete run from empty tables reaches a completed, revoked task with a straggling handler |
| LifecycleExample.TerminalStateIsNotAbsorbing | internal/api/router.go:326-332 | That straggler's task.started makes the completed task running again |
| RequestAtATime.RunAloneIsARun | internal/api/router.go:247-335 | One process running alone is a run of the interleaved system that schedules only it |
| RequestAtATime.HistoryIsARun | internal/api/router.go:54-78 | A request-at-a-time history reaches the tables of one of the system's runs |
| RequestAtATime.ReportClosedForm | internal/api/router.go:267-334 | Running the handler alone equals the closed form by which statements took effect, for all faults |
| RequestAtATime.CreateClosedForm | internal/api/taskservice.go:41-133 | Running the creator alone equals its closed form, for all faults |
| RequestAtATime.CreateOnlyTask | internal/api/taskservice.go:94-128 | A creation touches at most the rows of the one task it inserted, which did not exist before |
| RequestAtATime.ReportTouchesOnlyItsTask | internal/api/router.go:284-332 | An event request leaves state, token and log of every other task alone |
| RequestAtATime.ServeTablesOk | internal/storage/migrations/001_init.up.sql:18-58 | Table constraints survive any request, whatever fails |
| RequestAtATime.RollbackCompleteExactlyWhen | internal/api/taskservice.go:36-39 | A creation that runs alone and whose dispatch failed leaves its task failed and its token revoked if and only if both rollback writes took effect |
| RequestBoundary.ReportSettlesExactlyWhen | internal/api/router.go:298-325 | An event request keeps "live token iff running" if and only if it does not write a terminal state and then lose that write's reply or the revocation |
| RequestBoundary.CreateSettlesExactlyWhen | internal/api/taskservice.go:94-131 | A creation keeps "live token iff running" exactly for the listed failure patterns |
| RequestBoundary.ServeEdges | internal/api/router.go:267-332 | Between settled boundaries a task that is not running is untouched whatever fails, and a running one stays running or becomes terminal |
| RequestBoundary.GentleRunsSettle | internal/api/taskservice.go:98-131 | With a scheduler, failed calls without effect and revocations that succeed, every boundary of every history is settled |
| RequestBoundary.GentleRunsAbsorb | docs/AGENT_API.md:87-95 | There completed, failed and timeout are absorbing: row, token and log never change again |
| RequestBoundary.SerialFrozenExactlyWhen | internal/api/router.go:267-332 | Handled one request at a time, the state of a task is the same after every further history, whatever fails in it, if and only if its token is not live |
| TaskLog.ReportTracksExactlyWhen | internal/api/router.go:292-332 | An event request keeps "well-formed log, folds to the state, open iff the token lives" if and only if a terminal event that lands also gets its state and revocation written |
| TaskLog.AcceptedIsTracked | internal/scheduler/scheduler.go:44-60 | A creation answered with success leaves its task tracked, with an empty log |
| TaskLog.TrackedRuns | internal/api/router.go:298-332 | Over any later requests the log stays non-terminal events then at most one terminal event, and the state is its fold from running |
| Answers.EventAnswered | internal/api/router.go:267-334 | For every request and fault: verification failed, unauthorized, append failed, state failed and recorded each under its exact condition, and the exact contents of each table |
| Answers.CreateAnswered | internal/api/taskservice.go:41-133 | For every request and fault: each of the creation's answers under its exact condition, and the exact contents of each table |
| Answers.PolicyDecides | internal/api/taskservice.go:50-65 | The creation is permitted, denied by a rule or refused as broken by a rule exactly as the first matching rule says |
| Server.Store.CreateTask | internal/storage/postgres/store.go:153-159 | Inserts one row unless the id exists, the skill is missing or the deadline leaves 32 bits; any fault |
| Server.Store.UpdateTaskState | internal/storage/postgres/store.go:221-232 | Overwrites the state whatever it was; no row is an error |
| Server.Store.AppendEvent | internal/storage/postgres/store.go:236-242 | Appends unless the id exists, the task is missing or the type is not listed |
| Server.Store.StoreAgentToken | internal/storage/postgres/store.go:297-304 | Upserts the digest un-revoked, unless the task is missing |
| Server.Store.VerifyAgentToken | internal/storage/postgres/store.go:306-323 | True exactly for the stored digest of an unrevoked token |
| Server.Store.RevokeAgentToken | internal/storage/postgres/store.go:325-330 | Revokes if there is a row; no row is not an error |
| Server.Server.SchedulerDispatch | internal/scheduler/scheduler.go:44-60 | Runtime lookup, driver, state write: which error, and that only the write touches the tables |
| Server.Server.CreateTask | internal/api/taskservice.go:40-134 | Each answer under its exact condition and each table with its exact contents, row fields included, for every fault; both are those of the creator process run alone |
| Server.Server.FinishDispatch | internal/api/taskservice.go:117-131 | Dispatch with best-effort rollback does what the process does from its dispatch step |
| Server.Server.HandleCreateEvent | internal/api/router.go:262-335 | Each status under its exact condition and each table with its exact contents, for every fault; 201 carries the id of the last event of the log; both are those of the handler process run alone |
| Server.Server.ApplyEvent | internal/api/router.go:298-332 | The switch on the event type does what the process does from its state step |
| Policy.EvaluateAtFirstMatch | internal/policy/engine.go:75-86 | The least matching index decides: a deny refuses under its id without an error, an allow accepts, any other action refuses under its id with an error |
| Policy.EvaluateExactlyWhen | internal/policy/engine.go:70-89 | A verdict is the one returned if and only if it is the first match's, or an allow without id or error when none matches |
| Policy.MatchesFieldByField | internal/policy/engine.go:93-116 | A rule matches if and only if every condition present equals its field of the request and no key is unknown |
| Policy.EvaluateNoMatch | internal/policy/engine.go:88 | No match allows |
| Policy.RefusalNamesFirstMatch | internal/policy/engine.go:76-85 | A refusal carries the id of the first matching rule, without an error exactly for a deny and with one exactly for an unknown action |
| Policy.ReadingsDifferExactlyWhen | internal/policy/types.go:3-4 | On one request the two readings differ if and only if the first match is an allow and a deny matches, or it has an unknown action and no deny matches |
| Policy.AgreementDecided | internal/policy/types.go:3-4 | The readings agree on every request whose cost text some cost has if and only if the rule list passes two tests on its conditions alone, given one such text that no rule asks for |
| Policy.SpareCostExists | internal/policy/engine.go:105-106 | Such a text exists for every list shorter than 2^53 rules: the integers below that are all formatted, each in its own way |
| Policy.UnrenderedCostAgrees | internal/policy/engine.go:105-106 | With an allow on the cost text "1.00", which no cost has, and a deny of everything, the readings agree |
| Policy.RenderedCostDiffers | internal/policy/engine.go:105-106 | With the text "1" in its place they do not |
| Policy.DeniesFirstAgree | internal/policy/types.go:3-4 | They agree everywhere when only denies precede a deny and actions are known |
| Policy.UnshadowedPreserves | internal/policy/engine.go:70-89 | Deleting at once every rule whose conditions contain an earlier rule's changes no verdict |
| Policy.UnshadowedIsMinimal | internal/policy/engine.go:75-86 | After that deletion no remaining rule's conditions contain an earlier remaining rule's |
| PolicyEngine.Engine.LoadFromFile | internal/policy/engine.go:34-51 | A failed load leaves rules and path; a good one replaces both |
| PolicyEngine.Engine.Reload | internal/policy/engine.go:54-63 | Reads the configured path again; fails without one; the path never changes |
| PolicyEngine.Engine.MatchRule | internal/policy/engine.go:93-116 | For any map order: true exactly when every condition key is known and equal |
| PolicyEngine.Engine.Evaluate | internal/policy/engine.go:70-89 | The early-exit loop over the snapshot gives, for a first-matching deny, allow or other action, exactly its allowed, rule id and error |
| PolicyEngine.EvaluationIsAtomic | internal/policy/engine.go:71-73 | Beside any loads, a finished evaluation of a request gives the first-match verdict of one list that was current at some moment since the call began |
| PolicyEngine.ConfigurationsAreSourced | internal/policy/engine.go:34-63 | Every configuration after the first is what a read of its path parsed to, and a path is read only because a load named it or it was configured |
| PolicyEngine.OnlyInstallChanges | internal/policy/engine.go:45-48 | Rules and path change only together, under the lock of a load that parsed |
| Scheduler.Selector.constructor | internal/scheduler/scheduler.go:29-40 | The names list every runtime once, in any map order |
| Scheduler.Selector.SelectRuntime | internal/scheduler/scheduler.go:68-81 | Which selection each policy text gets, which error each gives when nothing can be selected, and that any other text is a runtime name |
| Scheduler.Selector.SelectRoundRobin | internal/scheduler/scheduler.go:83-91 | Takes the name at the old counter, increments modulo 2^64, never misses the map |
| Scheduler.Selector.SelectLowestLoad | internal/scheduler/scheduler.go:93-122 | For any map order the result has least active/max among reporting runtimes; an error exactly when none has active < 2*max |
| Scheduler.LowestRatioUnique | internal/scheduler/scheduler.go:101-115 | Different orders may choose different runtimes but never different ratios |
| RoundRobin.RoundRobinFair | internal/scheduler/scheduler.go:83-91 | Under any interleaving, any finished window of m selections takes each of n runtimes floor or ceil of m/n times, unless the counter wraps inside it and n does not divide 2^64 |
| RoundRobin.RoundRobinAcrossWrap | internal/scheduler/scheduler.go:88-89 | Across one wrap any two runtimes are within 2 |
| RoundRobin.FairExactlyWhen | internal/scheduler/scheduler.go:88-89 | Every window is fair if and only if the number of runtimes divides 2^64 |
| LocalRuntime.ActiveIsConserved | internal/runtime/local/local.go:131-147 | The counter always equals the dispatches counted and not reaped, so it is never negative |
| LocalRuntime.ActiveBounded | internal/runtime/local/local.go:84-86 | active <= 9 + k when at most k dispatches were ever between check and increment |
| LocalRuntime.BoundAttained | internal/runtime/local/local.go:84-132 | For every k >= 1 some run with peak exactly k reaches 9 + k |
| LocalRuntime.HandlesMatchActive | internal/runtime/local/local.go:131-147 | With distinct task ids the handle map has active entries whenever nobody is between two updates |
| LocalRuntime.Runtime.Dispatch | internal/runtime/local/local.go:83-153 | Undisturbed: unavailable exactly from ten active on; otherwise the spawned process is counted, registered and its id answered, or nothing changes if it did not start |
| LocalRuntime.HandlesAreSpawned | internal/runtime/local/local.go:131-136 | Whatever interleaves, each handle is a process spawned for a dispatch of that very task |
| LocalRuntime.Runtime.Monitor | internal/runtime/local/local.go:139-147 | Undisturbed, it uncounts one process and forgets the task's handle |
| K8sDriver.SagaAtomic | internal/runtime/k8s/driver.go:136-288 | After any interleaving, of equal or distinct task ids, a task with no dispatch in flight has exactly its three objects if one dispatch succeeded, else what it had at the start; at most one succeeds |
| K8sDriver.SecretOwnerIsOwnJob | internal/runtime/k8s/driver.go:262-270 | A dispatched task's Secret names its own Job's UID and no other Job's |
| K8sDriver.OthersUntouched | internal/runtime/k8s/driver.go:137-282 | No step touches another task's objects |
| K8sDriver.NamesInjective | internal/runtime/k8s/driver.go:137-162 | Job, ConfigMap and Secret names identify the task |
| K8sDriver.AtomicExactlyWhen | internal/runtime/k8s/driver.go:245-282 | One dispatch of unused names is all-or-nothing if and only if its failure pattern is one it cleans up |
| K8sDriver.Driver.Dispatch | internal/runtime/k8s/driver.go:136-288 | The create and compensate calls in order: its answer and every object under its literal name, for every fault and every name already taken; this is the saga run alone |
| Queries.BuildListTasks | internal/storage/postgres/store.go:179-201 | Placeholders are $1..$n in argument order; the conditions select exactly the wanted tasks; limit and offset arguments |
| Queries.BuildListEvents | internal/storage/postgres/store.go:244-276 | Likewise for the three optional event conditions |
| Queries.ListTasks | internal/storage/postgres/store.go:179-219 | For every filter and table, the query's answers are exactly: filter, newest first, drop offset, take limit |
| Queries.ListEvents | internal/storage/postgres/store.go:244-293 | Likewise for events |
| Queries.HandleListTasks | internal/api/router.go:188-211 | The filter passed on: limit 50 when absent or not positive and at most 100, offset never negative, bad parameters ignored |
| Queries.HandleListEvents | internal/api/router.go:337-368 | Likewise for events |
| Pagination.PagesCompleteExactlyWhen | internal/storage/postgres/store.go:194-201 | For each page size: every walk over consecutive pages yields the matching rows, each once, if and only if no two different rows with one timestamp fall on different pages |
| Pagination.AllSizesCompleteExactlyWhen | internal/storage/postgres/store.go:194-201 | For all page sizes at once: if and only if no two different rows share a timestamp |
| Pagination.TaskPagesExactlyWhen | internal/storage/postgres/store.go:179-219 | From the filter to the rows: the queries built for consecutive pages of any filter yield exactly the wanted tasks, whatever order the database gives ties, under that same condition |
| Pagination.EventPagesExactlyWhen | internal/storage/postgres/store.go:244-293 | Likewise for events |
| Pagination.OrderingUnique | internal/storage/postgres/store.go:269 | With distinct timestamps there is one answer |
| Pagination.ClientWalkCompleteExactlyWhen | internal/api/router.go:208-211 | A client that advances by the limit it asked for sees every row if and only if that limit is at most 100 or the listing fits one page |
| Retry.WithRetry | internal/storage/postgres/health.go:74-94 | How the run ends, after how many calls, with which waits, for every behaviour of fn and the context; which errors are retried, by code |
| Retry.BackoffWraps | internal/storage/postgres/health.go:85 | A backoff is the signed 64-bit value congruent to the intended wait, and from the 64th attempt on to what the conversion of 2^n yields |
| Retry.TraceUnique | internal/storage/postgres/health.go:74-94 | That description determines the run |
| Retry.RetryBounds | internal/storage/postgres/health.go:76-91 | At most maxAttempts calls, no wait after the last, total wait at most 100ms*(2^(maxAttempts-1)-1), exactly that when up to 38 attempts run out |
| Retry.NoOverflowExactlyWhen | internal/storage/postgres/health.go:85 | No backoff leaves int64 nanoseconds if and only if maxAttempts <= 38 |

## Left out

- HTTP, JSON, bearer-header parsing, middleware, the Slack gateway, the web UI, Helm: plumbing around the modelled calls.
- SHA-256 and random generation: an injective constructor, and values the run chooses; id collisions stay possible.
- The `updated_at` columns: UpdateTaskState also stamps the row; "unchanged" speaks of state, token row and log.
- Skill deletion: no code deletes a skill, so the foreign key to skills is only checked at insertion.
- Policy reloads while tasks are admitted: the admission result fixes the rule list, reloads are modelled on their own in `PolicyEngine`.
- float64 rounding: load ratios are exact; the cost of a policy request is its text, and which texts costs have is a parameter of which two facts about shortest formatting are used.
- Callers of WithRetry: there are none in the repository, so it is modelled for any function it is given.
- Query text: a query is its numbered conditions, not the characters of its SQL.
- Garbage collection of Secrets whose Job is deleted, and Job execution: the cluster changes only by the driver's calls.
- Docker driver, runtime registry, `Status` of the Kubernetes driver, health-check ticker, environment parsing, skills loader: they would only add easy members.
- Liveness: nothing in the code synthesises a terminal event for a silent agent, so no claim is made that a task ends.
- Real parallelism of the objects: `Server`, `LocalRuntime.Runtime` and `K8sDriver.Driver` run undisturbed; interleavings are in the step machines they are proved against.

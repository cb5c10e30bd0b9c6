/**
 Task creation (internal/api/taskservice.go) and agent event handling
 (internal/api/router.go) as processes over the shared tables.  A process takes
 one atomic step per Store call; there is no transaction and no lock, so steps of
 different processes interleave freely and any call may fail before or after it
 took effect.
 */
module Lifecycle {
  import opened Prelude
  import opened Storage
  import Policy

  datatype CreateRequest = CreateRequest(
    skillName: string, parameters: string, runtime: string,
    user: string, team: string, deadlineSecs: int)

  /** `presented` is the digest of whatever bearer token the caller sent. */
  datatype EventRequest = EventRequest(
    id: string, taskId: string, kind: EventType, payload: string, presented: Digest)

  /** `policy` and `runtimes` are None when the server has no engine or no scheduler. */
  datatype Config = Config(policy: Option<seq<Policy.Rule>>, runtimes: Option<set<string>>)

  /** Why Scheduler.Dispatch returned an error. */
  datatype DispatchError = RuntimeNotFound | DriverRefused | StateWriteFailed

  datatype CreateOutcome =
    | LookupFailed
    | SkillNotFound
    | PolicyFailed(ruleId: string)
    | PolicyDenied(ruleId: string)
    | InsertFailed
    | RandomFailed
    | TokenFailed
    | DispatchFailed(cause: DispatchError)
    | Accepted(token: string, externalId: Option<string>) // no external id without a scheduler

  datatype EventStatus =
    | VerifyFailed      // 500
    | Unauthorized      // 401
    | AppendFailed      // 500
    | StateFailed       // 500
    | Recorded(id: string) // 201

  /** Program counters, each with the values that are live there. */
  datatype Process =
    // CreateTask
    | Lookup(create: CreateRequest)
    | Admit(create: CreateRequest, skill: Skill)
    | Insert(row: Task)
    | Mint(row: Task)
    | Dispatch(row: Task, token: string)
    | MarkRunning(row: Task, token: string, externalId: string)
    | RollbackState(row: Task, cause: DispatchError)
    | RollbackToken(row: Task, cause: DispatchError)
    | Created(row: Task, outcome: CreateOutcome)   // finished after winning its INSERT
    | Declined(outcome: CreateOutcome)             // finished before that
    // handleCreateEvent
    | Verify(request: EventRequest)
    | Append(event: Event)
    | SetState(event: Event)
    | Revoke(event: Event)
    | Answered(status: EventStatus)
  {
    predicate Done() { Created? || Declined? || Answered? }

    /** A creator whose task INSERT succeeded. */
    predicate Owner() {
      Mint? || Dispatch? || MarkRunning? || RollbackState? || RollbackToken? || Created?
    }

    predicate Owns(t: string) { Owner() && row.id == t }

    /** A handler for `t` that has passed token verification and is not finished. */
    predicate PastVerify(t: string) {
      (Append? || SetState? || Revoke?) && event.taskId == t
    }

    /** A creator of `t` with store calls still to make. */
    predicate Creating(t: string) { Owns(t) && !Created? }
  }

  /** What the environment decides in one step. */
  datatype Choice = Choice(
    fault: Fault,            // of the Store call, when the step makes one
    freshId: string,         // generateID
    now: int,                // time.Now
    token: Option<string>,   // the random token, None when rand.Read fails
    driver: Option<string>)  // the external id, None when the driver returns an error

  const DEFAULT_RUNTIME := "local"
  const DEFAULT_DEADLINE_SECS := 300

  function FirstModel(models: seq<string>): string {
    if models == [] then "" else models[0]
  }

  function PolicyRequestOf(user: string, team: string, models: seq<string>): Policy.PolicyRequest {
    Policy.PolicyRequest(FirstModel(models), user, team, "", "0")
  }

  function BuildTask(req: CreateRequest, skill: Skill, id: string, now: int): Task {
    Task(id, req.skillName, req.parameters,
         PolicyContext(req.user, req.team, skill.requiredModels),
         if req.runtime == "" then DEFAULT_RUNTIME else req.runtime,
         Pending,
         if req.deadlineSecs <= 0 then DEFAULT_DEADLINE_SECS else req.deadlineSecs,
         now)
  }

  /** The event row; a request without an id gets a generated one. */
  function EventOf(req: EventRequest, freshId: string, now: int): Event {
    Event(if req.id == "" then freshId else req.id, req.taskId, req.kind, req.payload, now)
  }

  /** The next program counter once the policy engine, if any, has spoken. */
  function AdmitStep(cfg: Config, req: CreateRequest, skill: Skill, c: Choice): Process {
    var task := BuildTask(req, skill, c.freshId, c.now);
    match cfg.policy
    case None => Insert(task)
    case Some(rules) =>
      var v := Policy.Evaluate(rules, PolicyRequestOf(req.user, req.team, skill.requiredModels));
      if v.err then Declined(PolicyFailed(v.ruleId))
      else if !v.allowed then Declined(PolicyDenied(v.ruleId))
      else Insert(task)
  }

  /** Scheduler.Dispatch up to its store write: runtime lookup, then the driver. */
  function DispatchStep(cfg: Config, row: Task, token: string, c: Choice): Process {
    match cfg.runtimes
    case None => Created(row, Accepted(token, None))
    case Some(names) =>
      if row.runtime !in names then RollbackState(row, RuntimeNotFound)
      else if c.driver.None? then RollbackState(row, DriverRefused)
      else MarkRunning(row, token, c.driver.value)
  }

  datatype Turn = Turn(db: Db, process: Process)

  /** A turn that makes one store call and continues according to its success. */
  function Call(db: Db, effect: Option<Db>, fault: Fault, success: Process, failure: Process): Turn {
    var reply := Exec(db, effect, fault);
    Turn(reply.db, if reply.ok then success else failure)
  }

  /** One atomic step of one process. */
  function Advance(cfg: Config, db: Db, p: Process, c: Choice): Turn {
    match p
    case Lookup(req) =>
      if !c.fault.Healthy? then Turn(db, Declined(LookupFailed))
      else if req.skillName !in db.skills then Turn(db, Declined(SkillNotFound))
      else Turn(db, Admit(req, db.skills[req.skillName]))
    case Admit(req, skill) =>
      Turn(db, AdmitStep(cfg, req, skill, c))
    case Insert(row) =>
      Call(db, InsertTask(db, row), c.fault, Mint(row), Declined(InsertFailed))
    case Mint(row) =>
      if c.token.None? then Turn(db, Created(row, RandomFailed))
      else Call(db, StoreAgentToken(db, row.id, Sha256(c.token.value)), c.fault,
                Dispatch(row, c.token.value), Created(row, TokenFailed))
    case Dispatch(row, token) =>
      Turn(db, DispatchStep(cfg, row, token, c))
    case MarkRunning(row, token, externalId) =>
      Call(db, SetTaskState(db, row.id, Running), c.fault,
           Created(row, Accepted(token, Some(externalId))), RollbackState(row, StateWriteFailed))
    case RollbackState(row, cause) => // a failure here is only logged
      Call(db, SetTaskState(db, row.id, Failed), c.fault, RollbackToken(row, cause), RollbackToken(row, cause))
    case RollbackToken(row, cause) =>
      Call(db, RevokeAgentToken(db, row.id), c.fault,
           Created(row, DispatchFailed(cause)), Created(row, DispatchFailed(cause)))
    case Verify(req) =>
      if !c.fault.Healthy? then Turn(db, Answered(VerifyFailed))
      else if !VerifyAgentToken(db, req.taskId, req.presented) then Turn(db, Answered(Unauthorized))
      else Turn(db, Append(EventOf(req, c.freshId, c.now)))
    case Append(event) =>
      Call(db, AppendEvent(db, event), c.fault,
           if event.kind.Target().Some? then SetState(event) else Answered(Recorded(event.id)),
           Answered(AppendFailed))
    case SetState(event) =>
      var target := event.kind.Target();
      if target.None? then Turn(db, Answered(Recorded(event.id)))
      else Call(db, SetTaskState(db, event.taskId, target.value), c.fault,
                if event.kind.Terminal() then Revoke(event) else Answered(Recorded(event.id)),
                Answered(StateFailed))
    case Revoke(event) => // a failure here is only logged
      Call(db, RevokeAgentToken(db, event.taskId), c.fault,
           Answered(Recorded(event.id)), Answered(Recorded(event.id)))
    case Created(_, _) => Turn(db, p)
    case Declined(_) => Turn(db, p)
    case Answered(_) => Turn(db, p)
  }

  // ---------------------------------------------------------------- The whole system

  /** Processes are never removed: a finished one keeps its last program counter. */
  datatype Sys = Sys(db: Db, procs: seq<Process>)

  datatype Action =
    | BeginCreate(create: CreateRequest)
    | BeginEvent(event: EventRequest)
    | SkillSync(skill: Skill)              // a concurrent upsert by the skill loader
    | Go(proc: nat, choice: Choice)        // one step of one process

  function Next(cfg: Config, s: Sys, a: Action): Sys {
    match a
    case BeginCreate(req) => s.(procs := s.procs + [Lookup(req)])
    case BeginEvent(req) => s.(procs := s.procs + [Verify(req)])
    case SkillSync(skill) => s.(db := UpsertSkill(s.db, skill))
    case Go(i, c) =>
      if i >= |s.procs| then s
      else
        var turn := Advance(cfg, s.db, s.procs[i], c);
        Sys(turn.db, s.procs[i := turn.process])
  }

  /** Every interleaving and failure pattern is one sequence of actions. */
  function Run(cfg: Config, s: Sys, actions: seq<Action>): Sys
    decreases |actions|
  {
    if actions == [] then s else Run(cfg, Next(cfg, s, actions[0]), actions[1..])
  }

  const EMPTY_DB := Db(map[], map[], map[], [])
  const START := Sys(EMPTY_DB, [])

  lemma {:induction false} RunConcat(cfg: Config, s: Sys, a: seq<Action>, b: seq<Action>)
    ensures Run(cfg, s, a + b) == Run(cfg, Run(cfg, s, a), b)
    decreases |a|
  {
    if a == [] {
      assert a + b == b;
    } else {
      assert (a + b)[1..] == a[1..] + b;
      RunConcat(cfg, Next(cfg, s, a[0]), a[1..], b);
    }
  }
}

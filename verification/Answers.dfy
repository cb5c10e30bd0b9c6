/**
 What CreateTask and handleCreateEvent answer and write when they run undisturbed,
 said from the request, the tables before it and the faults alone: every answer with
 its exact condition, every table with its exact contents.
 */
module Answers {
  import opened Prelude
  import opened Storage
  import opened Lifecycle
  import opened RequestAtATime
  import Policy

  // ---------------------------------------------------------------- handleCreateEvent

  /** The token row of `t` holds the presented digest and is not revoked. */
  predicate TokenAccepted(db: Db, t: string, presented: Digest) {
    t in db.tokens && !db.tokens[t].revoked && db.tokens[t].digest == presented
  }

  /** The events table takes an event with this id, task and type. */
  ghost predicate Recordable(db: Db, id: string, t: string, kind: EventType) {
    t in db.tasks && !kind.Unlisted? && forall i :: 0 <= i < |db.events| ==> db.events[i].id != id
  }

  /** The event types that ask for a state. */
  predicate AsksForState(kind: EventType) {
    kind.TaskStarted? || kind.TaskCompleted? || kind.TaskFailed? || kind.TaskTimeout?
  }

  /** The exact condition of each answer; the last one holds only when the event is in the log. */
  ghost predicate EventAnswer(db: Db, req: EventRequest, env: Env, db': Db, status: EventStatus) {
    var id := if req.id == "" then env.freshId else req.id;
    var verified := env.verify.Healthy? && TokenAccepted(db, req.taskId, req.presented);
    var recorded := verified && env.append.Healthy? && Recordable(db, id, req.taskId, req.kind);
    && (status == VerifyFailed <==> !env.verify.Healthy?)
    && (status == Unauthorized <==> env.verify.Healthy? && !TokenAccepted(db, req.taskId, req.presented))
    && (status == AppendFailed <==> verified && !recorded)
    && (status == StateFailed <==> recorded && AsksForState(req.kind) && !env.setState.Healthy?)
    && (status.Recorded? <==> recorded && (AsksForState(req.kind) ==> env.setState.Healthy?))
    && (status.Recorded? ==>
          && status.id == id && db'.events != []
          && var last := db'.events[|db'.events| - 1];
          && last.id == id && last.taskId == req.taskId && last.kind == req.kind && last.payload == req.payload
          && last.createdAt == env.now
          && forall i :: 0 <= i < |db.events| ==> db.events[i].id != id)
  }

  /** The exact contents of each table. */
  ghost predicate EventTables(db: Db, req: EventRequest, env: Env, db': Db) {
    var t := req.taskId;
    var id := if req.id == "" then env.freshId else req.id;
    var landed := env.verify.Healthy? && TokenAccepted(db, t, req.presented) &&
                  Recordable(db, id, t, req.kind) && !env.append.LostBefore?;
    var wrote := landed && env.append.Healthy? && AsksForState(req.kind) && !env.setState.LostBefore?;
    var revoked := wrote && env.setState.Healthy? && req.kind != TaskStarted && !env.revoke.LostBefore?;
    && db'.skills == db.skills
    && db'.events == (if landed then db.events + [Event(id, t, req.kind, req.payload, env.now)] else db.events)
    && db'.tasks == (if wrote then db.tasks[t := db.tasks[t].(state := match req.kind
                                                                      case TaskCompleted => Completed
                                                                      case TaskFailed => Failed
                                                                      case TaskTimeout => Timeout
                                                                      case _ => Running)]
                     else db.tasks)
    && db'.tokens == (if revoked then db.tokens[t := TokenRow(req.presented, true)] else db.tokens)
  }

  lemma FromSetState(cfg: Config, db: Db, e: Event, env: Env)
    requires e.taskId in db.tasks && e.taskId in db.tokens && AsksForState(e.kind)
    ensures var turn, t := RunAlone(cfg, db, SetState(e), env), e.taskId;
            && turn.process == Answered(if env.setState.Healthy? then Recorded(e.id) else StateFailed)
            && turn.db.skills == db.skills && turn.db.events == db.events
            && turn.db.tasks == (if env.setState.LostBefore? then db.tasks
                                 else db.tasks[t := db.tasks[t].(state := match e.kind
                                                                         case TaskCompleted => Completed
                                                                         case TaskFailed => Failed
                                                                         case TaskTimeout => Timeout
                                                                         case _ => Running)])
            && turn.db.tokens == (if env.setState.Healthy? && e.kind != TaskStarted && !env.revoke.LostBefore?
                                  then db.tokens[t := TokenRow(db.tokens[t].digest, true)] else db.tokens)
  {
    RunAloneFrom(cfg, db, SetState(e), env);
    var written := Advance(cfg, db, SetState(e), env.At(SetState(e)));
    if written.process.Revoke? {
      RunAloneFrom(cfg, written.db, Revoke(e), env);
    }
  }

  lemma FromAppend(cfg: Config, db: Db, e: Event, env: Env)
    requires e.taskId in db.tokens
    ensures var turn := RunAlone(cfg, db, Append(e), env);
            var landed := Recordable(db, e.id, e.taskId, e.kind) && !env.append.LostBefore?;
            if landed && env.append.Healthy? && AsksForState(e.kind)
            then turn == RunAlone(cfg, db.(events := db.events + [e]), SetState(e), env)
            else turn == Turn(if landed then db.(events := db.events + [e]) else db,
                              Answered(if landed && env.append.Healthy? then Recorded(e.id) else AppendFailed))
  {
    RunAloneFrom(cfg, db, Append(e), env);
  }

  /** The handler, whatever fails: its answer and its tables. */
  lemma EventAnswered(cfg: Config, db: Db, req: EventRequest, env: Env)
    ensures var turn := RunAlone(cfg, db, Verify(req), env);
            && turn.process.Answered?
            && EventAnswer(db, req, env, turn.db, turn.process.status)
            && EventTables(db, req, env, turn.db)
  {
    RunAloneFrom(cfg, db, Verify(req), env);
    if env.verify.Healthy? && TokenAccepted(db, req.taskId, req.presented) {
      var e := Event(if req.id == "" then env.freshId else req.id, req.taskId, req.kind, req.payload, env.now);
      FromAppend(cfg, db, e, env);
      if env.append.Healthy? && Recordable(db, e.id, e.taskId, e.kind) && AsksForState(e.kind) {
        FromSetState(cfg, db.(events := db.events + [e]), e, env);
      }
    }
  }

  // ---------------------------------------------------------------- CreateTask

  /** The policy asks about the caller, the caller's team and the skill's first model. */
  function PolicyQuestion(user: string, team: string, models: seq<string>): (q: Policy.PolicyRequest)
    ensures q.user == user && q.team == team && q.tool == "" && q.costUsd == "0"
    ensures q.model == if models == [] then "" else models[0]
  {
    Policy.PolicyRequest(if |models| > 0 then models[0] else "", user, team, "", "0")
  }

  /** A deny of this id is the first rule that matches. */
  ghost predicate DeniedBy(cfg: Config, q: Policy.PolicyRequest, id: string) {
    && cfg.policy.Some?
    && var rules := cfg.policy.value;
    && exists i: nat :: Policy.FirstMatch(rules, q, i) && rules[i].action.Deny? && rules[i].id == id
  }

  /** A rule of this id with an unknown action is the first that matches. */
  ghost predicate BrokenBy(cfg: Config, q: Policy.PolicyRequest, id: string) {
    && cfg.policy.Some?
    && var rules := cfg.policy.value;
    && exists i: nat :: Policy.FirstMatch(rules, q, i) && rules[i].action.Other? && rules[i].id == id
  }

  /** There is no policy, no rule matches, or the first that does is an allow. */
  ghost predicate Permitted(cfg: Config, q: Policy.PolicyRequest) {
    cfg.policy.Some? ==>
      var rules := cfg.policy.value;
      Policy.NoMatch(rules, q) || exists i: nat :: Policy.FirstMatch(rules, q, i) && rules[i].action.Allow?
  }

  /** The row that a creation request stores, field by field. */
  ghost predicate RowOfRequest(row: Task, req: CreateRequest, skill: Skill, env: Env) {
    && row.id == env.freshId && row.skillName == req.skillName && row.parameters == req.parameters
    && row.context.user == req.user && row.context.team == req.team
    && row.context.modelAllowed == skill.requiredModels
    && row.runtime == (if req.runtime == "" then "local" else req.runtime)
    && row.deadlineSecs == (if req.deadlineSecs <= 0 then 300 else req.deadlineSecs)
    && row.createdAt == env.now
  }

  /** How far a creation gets, up to its dispatch. */
  datatype Progress = Progress(skill: Skill, permitted: bool, free: bool)
  {
    predicate Inserted(env: Env) { permitted && free && !env.insert.LostBefore? }

    predicate Tokened(env: Env) {
      permitted && free && env.insert.Healthy? && env.token.Some? && !env.storeToken.LostBefore?
    }

    predicate Dispatching(env: Env) { Tokened(env) && env.storeToken.Healthy? }
  }

  /** How far the request of a known skill can get on these tables. */
  ghost function ProgressOf(cfg: Config, db: Db, req: CreateRequest, env: Env): (g: Progress)
    requires req.skillName in db.skills
    ensures g.skill == db.skills[req.skillName]
    ensures g.permitted <==> Permitted(cfg, PolicyQuestion(req.user, req.team, g.skill.requiredModels))
    ensures g.free <==> env.freshId !in db.tasks && req.deadlineSecs <= 0x7fff_ffff
  {
    var skill := db.skills[req.skillName];
    Progress(skill, Permitted(cfg, PolicyQuestion(req.user, req.team, skill.requiredModels)),
             env.freshId !in db.tasks && req.deadlineSecs <= 0x7fff_ffff)
  }

  /** The scheduler knows the runtime of the request. */
  predicate RuntimeKnown(cfg: Config, req: CreateRequest) {
    cfg.runtimes.Some? && (if req.runtime == "" then "local" else req.runtime) in cfg.runtimes.value
  }

  /** The exact condition of each answer to a request whose skill was found. */
  ghost predicate CreateAnswer(cfg: Config, req: CreateRequest, env: Env, g: Progress, outcome: CreateOutcome) {
    var q := PolicyQuestion(req.user, req.team, g.skill.requiredModels);
    var known := RuntimeKnown(cfg, req);
    && outcome != LookupFailed && outcome != SkillNotFound
    && (forall id :: outcome == PolicyDenied(id) <==> DeniedBy(cfg, q, id))
    && (forall id :: outcome == PolicyFailed(id) <==> BrokenBy(cfg, q, id))
    && (outcome == InsertFailed <==> g.permitted && !(g.free && env.insert.Healthy?))
    && (outcome == RandomFailed <==> g.permitted && g.free && env.insert.Healthy? && env.token.None?)
    && (outcome == TokenFailed <==>
          g.permitted && g.free && env.insert.Healthy? && env.token.Some? && !env.storeToken.Healthy?)
    && (outcome == DispatchFailed(RuntimeNotFound) <==> g.Dispatching(env) && cfg.runtimes.Some? && !known)
    && (outcome == DispatchFailed(DriverRefused) <==> g.Dispatching(env) && known && env.driver.None?)
    && (outcome == DispatchFailed(StateWriteFailed) <==>
          g.Dispatching(env) && known && env.driver.Some? && !env.markRunning.Healthy?)
    && (outcome.Accepted? <==>
          g.Dispatching(env) && (cfg.runtimes.None? || (known && env.driver.Some? && env.markRunning.Healthy?)))
    && (outcome.Accepted? ==>
          outcome.token == env.token.value && outcome.externalId == if cfg.runtimes.None? then None else env.driver)
  }

  /** The exact contents of each table after a request whose skill was found. */
  ghost predicate CreateTables(cfg: Config, db: Db, req: CreateRequest, env: Env, g: Progress, db': Db) {
    var t := env.freshId;
    var launched := g.Dispatching(env) && RuntimeKnown(cfg, req) && env.driver.Some?;
    var rolledBack := g.Dispatching(env) && cfg.runtimes.Some? && !(launched && env.markRunning.Healthy?);
    && db'.skills == db.skills && db'.events == db.events
    && (!g.Inserted(env) ==> db'.tasks == db.tasks)
    && (g.Inserted(env) ==>
          && t in db'.tasks && db'.tasks == db.tasks[t := db'.tasks[t]]
          && RowOfRequest(db'.tasks[t], req, g.skill, env)
          && db'.tasks[t].state == if rolledBack && !env.rollbackState.LostBefore? then Failed
                                   else if launched && !env.markRunning.LostBefore? then Running
                                   else Pending)
    && db'.tokens == (if g.Tokened(env)
                      then db.tokens[t := TokenRow(Sha256(env.token.value),
                                                   rolledBack && !env.rollbackToken.LostBefore?)]
                      else db.tokens)
  }

  lemma FromRollback(cfg: Config, db: Db, row: Task, cause: DispatchError, env: Env)
    requires row.id in db.tasks && row.id in db.tokens
    ensures var turn, t := RunAlone(cfg, db, RollbackState(row, cause), env), row.id;
            && turn.process == Created(row, DispatchFailed(cause))
            && turn.db.skills == db.skills && turn.db.events == db.events
            && turn.db.tasks == (if env.rollbackState.LostBefore? then db.tasks
                                 else db.tasks[t := db.tasks[t].(state := Failed)])
            && turn.db.tokens == (if env.rollbackToken.LostBefore? then db.tokens
                                  else db.tokens[t := db.tokens[t].(revoked := true)])
  {
    RunAloneFrom(cfg, db, RollbackState(row, cause), env);
    var mid := Advance(cfg, db, RollbackState(row, cause), env.At(RollbackState(row, cause)));
    RunAloneFrom(cfg, mid.db, mid.process, env);
  }

  /** The tables of a creation that reached its dispatch, with this state and this revocation. */
  ghost predicate Dispatched(db: Db, db': Db, t: string, state: TaskState, revoked: bool)
    requires t in db.tasks && t in db.tokens
  {
    && db'.skills == db.skills && db'.events == db.events
    && db'.tasks == db.tasks[t := db.tasks[t].(state := state)]
    && db'.tokens == db.tokens[t := db.tokens[t].(revoked := revoked)]
  }

  lemma FromRollbackIs(cfg: Config, db: Db, row: Task, cause: DispatchError, env: Env)
    requires row.id in db.tasks && db.Live(row.id)
    ensures var turn := RunAlone(cfg, db, RollbackState(row, cause), env);
            && turn.process == Created(row, DispatchFailed(cause))
            && Dispatched(db, turn.db, row.id,
                          if env.rollbackState.LostBefore? then db.tasks[row.id].state else Failed,
                          !env.rollbackToken.LostBefore?)
  {
    FromRollback(cfg, db, row, cause, env);
    var t, db' := row.id, RunAlone(cfg, db, RollbackState(row, cause), env).db;
    assert db.tasks[t := db.tasks[t].(state := db.tasks[t].state)] == db.tasks;
    assert db.tokens[t := db.tokens[t].(revoked := false)] == db.tokens;
  }

  lemma DispatchedAfter(db: Db, mid: Db, db': Db, t: string, first: TaskState, state: TaskState, revoked: bool)
    requires t in db.tasks && t in db.tokens && t in mid.tasks && t in mid.tokens
    requires mid == db.(tasks := db.tasks[t := db.tasks[t].(state := first)])
    requires Dispatched(mid, db', t, state, revoked)
    ensures Dispatched(db, db', t, state, revoked)
  {
  }

  lemma FromMarkRunning(cfg: Config, db: Db, row: Task, token: string, externalId: string, env: Env)
    requires row.id in db.tasks && db.tasks[row.id].state == Pending && db.Live(row.id)
    ensures var turn := RunAlone(cfg, db, MarkRunning(row, token, externalId), env);
            && turn.process == Created(row, if env.markRunning.Healthy? then Accepted(token, Some(externalId))
                                            else DispatchFailed(StateWriteFailed))
            && Dispatched(db, turn.db, row.id,
                          if !env.markRunning.Healthy? && !env.rollbackState.LostBefore? then Failed
                          else if !env.markRunning.LostBefore? then Running
                          else Pending,
                          !env.markRunning.Healthy? && !env.rollbackToken.LostBefore?)
  {
    var t := row.id;
    RunAloneFrom(cfg, db, MarkRunning(row, token, externalId), env);
    var mid := Advance(cfg, db, MarkRunning(row, token, externalId), Choice(env.markRunning, "", 0, None, None)).db;
    if env.markRunning.Healthy? {
      assert db.tokens[t := db.tokens[t].(revoked := false)] == db.tokens;
    } else {
      FromRollbackIs(cfg, mid, row, StateWriteFailed, env);
      assert mid.tasks == db.tasks[t := db.tasks[t].(state := mid.tasks[t].state)];
      DispatchedAfter(db, mid, RunAlone(cfg, mid, RollbackState(row, StateWriteFailed), env).db, t, mid.tasks[t].state,
                      if env.rollbackState.LostBefore? then mid.tasks[t].state else Failed,
                      !env.rollbackToken.LostBefore?);
    }
  }

  lemma FromDispatch(cfg: Config, db: Db, row: Task, token: string, env: Env)
    requires row.id in db.tasks && db.tasks[row.id].state == Pending && db.Live(row.id)
    ensures var turn := RunAlone(cfg, db, Dispatch(row, token), env);
            var known := cfg.runtimes.Some? && row.runtime in cfg.runtimes.value;
            var launched := known && env.driver.Some?;
            var rolledBack := cfg.runtimes.Some? && !(launched && env.markRunning.Healthy?);
            && turn.process == Created(row, if cfg.runtimes.None? then Accepted(token, None)
                                            else if !known then DispatchFailed(RuntimeNotFound)
                                            else if env.driver.None? then DispatchFailed(DriverRefused)
                                            else if !env.markRunning.Healthy? then DispatchFailed(StateWriteFailed)
                                            else Accepted(token, env.driver))
            && Dispatched(db, turn.db, row.id,
                          if rolledBack && !env.rollbackState.LostBefore? then Failed
                          else if launched && !env.markRunning.LostBefore? then Running
                          else Pending,
                          rolledBack && !env.rollbackToken.LostBefore?)
  {
    RunAloneFrom(cfg, db, Dispatch(row, token), env);
    if cfg.runtimes.None? {
      assert db.tasks[row.id := db.tasks[row.id].(state := Pending)] == db.tasks;
      assert db.tokens[row.id := db.tokens[row.id].(revoked := false)] == db.tokens;
    } else if row.runtime !in cfg.runtimes.value {
      FromRollbackIs(cfg, db, row, RuntimeNotFound, env);
    } else if env.driver.None? {
      FromRollbackIs(cfg, db, row, DriverRefused, env);
    } else {
      FromMarkRunning(cfg, db, row, token, env.driver.value, env);
    }
  }

  /** From the token on: no token, a token without dispatch, or a dispatch. */
  lemma FromMint(cfg: Config, db: Db, row: Task, env: Env)
    requires row.id in db.tasks
    ensures var turn := RunAlone(cfg, db, Mint(row), env);
            if env.token.None? then turn == Turn(db, Created(row, RandomFailed))
            else
              var stored := db.(tokens := db.tokens[row.id := TokenRow(Sha256(env.token.value), false)]);
              if env.storeToken.Healthy? then turn == RunAlone(cfg, stored, Dispatch(row, env.token.value), env)
              else turn == Turn(if env.storeToken.LostBefore? then db else stored, Created(row, TokenFailed))
  {
    RunAloneFrom(cfg, db, Mint(row), env);
  }

  lemma FromInsert(cfg: Config, db: Db, row: Task, env: Env)
    requires row.skillName in db.skills
    ensures var turn := RunAlone(cfg, db, Insert(row), env);
            var free := row.id !in db.tasks && -0x8000_0000 <= row.deadlineSecs <= 0x7fff_ffff;
            var inserted := db.(tasks := db.tasks[row.id := row]);
            if free && env.insert.Healthy? then turn == RunAlone(cfg, inserted, Mint(row), env)
            else turn == Turn(if free && env.insert.LostAfter? then inserted else db, Declined(InsertFailed))
  {
    RunAloneFrom(cfg, db, Insert(row), env);
  }

  /** What the policy step does: one of four things, told by the first match. */
  lemma PolicyDecides(cfg: Config, q: Policy.PolicyRequest)
    ensures if cfg.policy.None? then
              Permitted(cfg, q) && forall id :: !DeniedBy(cfg, q, id) && !BrokenBy(cfg, q, id)
            else
              var v := Policy.Evaluate(cfg.policy.value, q);
              && (Permitted(cfg, q) <==> v.allowed && !v.err)
              && (forall id :: DeniedBy(cfg, q, id) <==> !v.allowed && !v.err && id == v.ruleId)
              && (forall id :: BrokenBy(cfg, q, id) <==> v.err && id == v.ruleId)
  {
    if cfg.policy.Some? {
      var rules := cfg.policy.value;
      Policy.EvaluateExactlyWhen(rules, q, Policy.Evaluate(rules, q));
      var i := Policy.FirstMatchExists(rules, q);
      if i < |rules| {
        forall j: nat | Policy.FirstMatch(rules, q, j) ensures j == i {
          assert !(j < i) && !(i < j);
        }
      }
    }
  }

  /** The creator, whatever fails: its answer and its tables. */
  lemma CreateAnswered(cfg: Config, db: Db, req: CreateRequest, env: Env)
    ensures var turn := RunAlone(cfg, db, Lookup(req), env);
            && (turn.process.Created? || turn.process.Declined?)
            && (turn.process.outcome == LookupFailed <==> !env.lookup.Healthy?)
            && (turn.process.outcome == SkillNotFound <==> env.lookup.Healthy? && req.skillName !in db.skills)
            && if env.lookup.Healthy? && req.skillName in db.skills then
                 var g := ProgressOf(cfg, db, req, env);
                 CreateAnswer(cfg, req, env, g, turn.process.outcome) && CreateTables(cfg, db, req, env, g, turn.db)
               else
                 turn.db == db
  {
    RunAloneFrom(cfg, db, Lookup(req), env);
    if env.lookup.Healthy? && req.skillName in db.skills {
      AdmitAnswered(cfg, db, req, env);
    }
  }

  lemma AdmitAnswered(cfg: Config, db: Db, req: CreateRequest, env: Env)
    requires req.skillName in db.skills
    ensures var turn, g := RunAlone(cfg, db, Admit(req, db.skills[req.skillName]), env), ProgressOf(cfg, db, req, env);
            && (turn.process.Created? || turn.process.Declined?)
            && CreateAnswer(cfg, req, env, g, turn.process.outcome) && CreateTables(cfg, db, req, env, g, turn.db)
  {
    var skill := db.skills[req.skillName];
    RunAloneFrom(cfg, db, Admit(req, skill), env);
    PolicyDecides(cfg, PolicyQuestion(req.user, req.team, skill.requiredModels));
    if ProgressOf(cfg, db, req, env).permitted {
      InsertAnswered(cfg, db, req, env);
    }
  }

  lemma InsertAnswered(cfg: Config, db: Db, req: CreateRequest, env: Env)
    requires req.skillName in db.skills && ProgressOf(cfg, db, req, env).permitted
    ensures var g := ProgressOf(cfg, db, req, env);
            var turn := RunAlone(cfg, db, Insert(BuildTask(req, g.skill, env.freshId, env.now)), env);
            && (turn.process.Created? || turn.process.Declined?)
            && CreateAnswer(cfg, req, env, g, turn.process.outcome) && CreateTables(cfg, db, req, env, g, turn.db)
  {
    var g := ProgressOf(cfg, db, req, env);
    var row := BuildTask(req, g.skill, env.freshId, env.now);
    PolicyDecides(cfg, PolicyQuestion(req.user, req.team, g.skill.requiredModels));
    FromInsert(cfg, db, row, env);
    if g.free && env.insert.Healthy? {
      MintAnswered(cfg, db, req, env);
    }
  }

  lemma MintAnswered(cfg: Config, db: Db, req: CreateRequest, env: Env)
    requires req.skillName in db.skills && env.insert.Healthy?
    requires ProgressOf(cfg, db, req, env).permitted && ProgressOf(cfg, db, req, env).free
    ensures var g := ProgressOf(cfg, db, req, env);
            var row := BuildTask(req, g.skill, env.freshId, env.now);
            var turn := RunAlone(cfg, db.(tasks := db.tasks[row.id := row]), Mint(row), env);
            && turn.process.Created?
            && CreateAnswer(cfg, req, env, g, turn.process.outcome) && CreateTables(cfg, db, req, env, g, turn.db)
  {
    var g := ProgressOf(cfg, db, req, env);
    var row := BuildTask(req, g.skill, env.freshId, env.now);
    var inserted := db.(tasks := db.tasks[row.id := row]);
    PolicyDecides(cfg, PolicyQuestion(req.user, req.team, g.skill.requiredModels));
    FromMint(cfg, inserted, row, env);
    if env.token.Some? && env.storeToken.Healthy? {
      DispatchAnswer(cfg, db, req, env);
      DispatchTables(cfg, db, req, env);
    }
  }

  /** The tables when the creation of `row` reaches its dispatch. */
  function Stored(db: Db, row: Task, token: string): Db {
    db.(tasks := db.tasks[row.id := row], tokens := db.tokens[row.id := TokenRow(Sha256(token), false)])
  }

  lemma DispatchAnswer(cfg: Config, db: Db, req: CreateRequest, env: Env)
    requires req.skillName in db.skills && ProgressOf(cfg, db, req, env).Dispatching(env)
    ensures var g := ProgressOf(cfg, db, req, env);
            var row := BuildTask(req, g.skill, env.freshId, env.now);
            var turn := RunAlone(cfg, Stored(db, row, env.token.value), Dispatch(row, env.token.value), env);
            turn.process.Created? && CreateAnswer(cfg, req, env, g, turn.process.outcome)
  {
    var g := ProgressOf(cfg, db, req, env);
    var row := BuildTask(req, g.skill, env.freshId, env.now);
    PolicyDecides(cfg, PolicyQuestion(req.user, req.team, g.skill.requiredModels));
    FromDispatch(cfg, Stored(db, row, env.token.value), row, env.token.value, env);
  }

  lemma DispatchTables(cfg: Config, db: Db, req: CreateRequest, env: Env)
    requires req.skillName in db.skills && ProgressOf(cfg, db, req, env).Dispatching(env)
    ensures var g := ProgressOf(cfg, db, req, env);
            var row := BuildTask(req, g.skill, env.freshId, env.now);
            var turn := RunAlone(cfg, Stored(db, row, env.token.value), Dispatch(row, env.token.value), env);
            CreateTables(cfg, db, req, env, g, turn.db)
  {
    var g := ProgressOf(cfg, db, req, env);
    var row := BuildTask(req, g.skill, env.freshId, env.now);
    FromDispatch(cfg, Stored(db, row, env.token.value), row, env.token.value, env);
  }
}

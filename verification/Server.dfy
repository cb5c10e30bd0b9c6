/**
 The imperative programs: the Postgres store, the scheduler's Dispatch, and the
 server's CreateTask and handleCreateEvent, each written as the source writes it
 and proved to do what its process does when it runs alone.
 */
module Server {
  import opened Prelude
  import opened Storage
  import opened Lifecycle
  import opened LifecycleInvariant
  import opened RequestAtATime
  import Policy
  import Answers

  /** internal/storage/postgres: each method is one statement; `fault` is what happens to it. */
  class Store {
    var skills: map<string, Skill>
    var tasks: map<string, Task>
    var tokens: map<string, TokenRow>
    var events: seq<Event>

    function Snapshot(): Db
      reads this
    {
      Db(skills, tasks, tokens, events)
    }

    /** Migrate on an empty database. */
    constructor ()
      ensures Snapshot() == EMPTY_DB
    {
      skills := map[];
      tasks := map[];
      tokens := map[];
      events := [];
    }

    method CreateTask(t: Task, fault: Fault) returns (ok: bool)
      modifies this
      ensures Reply(Snapshot(), ok) == Exec(old(Snapshot()), InsertTask(old(Snapshot()), t), fault)
      ensures var fits := t.id !in old(tasks) && t.skillName in old(skills) &&
                          -0x8000_0000 <= t.deadlineSecs <= 0x7fff_ffff;
              && (ok <==> fits && fault.Healthy?)
              && tasks == (if fits && !fault.LostBefore? then old(tasks)[t.id := t] else old(tasks))
              && skills == old(skills) && tokens == old(tokens) && events == old(events)
    {
      if fault.LostBefore? {
        return false;
      }
      if t.id in tasks || t.skillName !in skills || !(-INT32_MAX - 1 <= t.deadlineSecs <= INT32_MAX) {
        return false;
      }
      tasks := tasks[t.id := t];
      return fault.Healthy?;
    }

    method UpdateTaskState(id: string, state: TaskState, fault: Fault) returns (ok: bool)
      modifies this
      ensures Reply(Snapshot(), ok) == Exec(old(Snapshot()), SetTaskState(old(Snapshot()), id, state), fault)
      ensures ok <==> id in old(tasks) && fault.Healthy?
      ensures tasks == if id in old(tasks) && !fault.LostBefore? then old(tasks)[id := old(tasks)[id].(state := state)]
                       else old(tasks)
      ensures skills == old(skills) && tokens == old(tokens) && events == old(events)
    {
      if fault.LostBefore? {
        return false;
      }
      if id !in tasks {
        return false; // zero rows affected
      }
      tasks := tasks[id := tasks[id].(state := state)];
      return fault.Healthy?;
    }

    method AppendEvent(e: Event, fault: Fault) returns (ok: bool)
      modifies this
      ensures Reply(Snapshot(), ok) == Exec(old(Snapshot()), Storage.AppendEvent(old(Snapshot()), e), fault)
      ensures var fits := e.taskId in old(tasks) && !e.kind.Unlisted? &&
                          forall i :: 0 <= i < |old(events)| ==> old(events)[i].id != e.id;
              && (ok <==> fits && fault.Healthy?)
              && events == (if fits && !fault.LostBefore? then old(events) + [e] else old(events))
              && skills == old(skills) && tasks == old(tasks) && tokens == old(tokens)
    {
      if fault.LostBefore? {
        return false;
      }
      if Snapshot().HasEvent(e.id) || e.taskId !in tasks || e.kind.Unlisted? {
        return false;
      }
      events := events + [e];
      return fault.Healthy?;
    }

    method StoreAgentToken(id: string, digest: Digest, fault: Fault) returns (ok: bool)
      modifies this
      ensures Reply(Snapshot(), ok) ==
              Exec(old(Snapshot()), Storage.StoreAgentToken(old(Snapshot()), id, digest), fault)
      ensures ok <==> id in old(tasks) && fault.Healthy?
      ensures tokens == if id in old(tasks) && !fault.LostBefore? then old(tokens)[id := TokenRow(digest, false)]
                        else old(tokens)
      ensures skills == old(skills) && tasks == old(tasks) && events == old(events)
    {
      if fault.LostBefore? {
        return false;
      }
      if id !in tasks {
        return false; // foreign key
      }
      tokens := tokens[id := TokenRow(digest, false)];
      return fault.Healthy?;
    }

    /** The comparison happens in the caller's process, after the row is read. */
    method VerifyAgentToken(id: string, presented: Digest, fault: Fault) returns (valid: bool, ok: bool)
      ensures ok == fault.Healthy?
      ensures ok ==> valid == Storage.VerifyAgentToken(Snapshot(), id, presented)
      ensures valid <==> ok && id in tokens && tokens[id].digest == presented && !tokens[id].revoked
    {
      if !fault.Healthy? {
        return false, false;
      }
      if id !in tokens {
        return false, true;
      }
      var row := tokens[id];
      if row.revoked {
        return false, true;
      }
      return row.digest == presented, true;
    }

    method RevokeAgentToken(id: string, fault: Fault) returns (ok: bool)
      modifies this
      ensures Reply(Snapshot(), ok) == Exec(old(Snapshot()), Storage.RevokeAgentToken(old(Snapshot()), id), fault)
      ensures ok <==> fault.Healthy?
      ensures tokens == if id in old(tokens) && !fault.LostBefore?
                        then old(tokens)[id := TokenRow(old(tokens)[id].digest, true)] else old(tokens)
      ensures skills == old(skills) && tasks == old(tasks) && events == old(events)
    {
      if fault.LostBefore? {
        return false;
      }
      if id in tokens {
        tokens := tokens[id := tokens[id].(revoked := true)];
      }
      return fault.Healthy?;
    }
  }

  datatype DispatchResult = Handle(externalId: string) | NotDispatched(cause: DispatchError)

  /** The API server; `runtimes` is what the scheduler has registered, if there is a scheduler. */
  class Server {
    const store: Store
    const cfg: Config

    constructor (store: Store, cfg: Config)
      ensures this.store == store && this.cfg == cfg
    {
      this.store := store;
      this.cfg := cfg;
    }

    /** Scheduler.Dispatch: look the runtime up, call its driver, write the state running. */
    method SchedulerDispatch(names: set<string>, row: Task, env: Env) returns (r: DispatchResult)
      modifies store
      ensures row.runtime !in names ==> r == NotDispatched(RuntimeNotFound)
      ensures row.runtime in names && env.driver.None? ==> r == NotDispatched(DriverRefused)
      ensures r == NotDispatched(RuntimeNotFound) || r == NotDispatched(DriverRefused) ==>
                store.Snapshot() == old(store.Snapshot())
      ensures row.runtime in names && env.driver.Some? ==>
                var before := old(store.Snapshot());
                var reply := Exec(before, SetTaskState(before, row.id, Running), env.markRunning);
                store.Snapshot() == reply.db &&
                r == (if reply.ok then Handle(env.driver.value) else NotDispatched(StateWriteFailed))
    {
      if row.runtime !in names {
        return NotDispatched(RuntimeNotFound);
      }
      if env.driver.None? {
        return NotDispatched(DriverRefused);
      }
      var ok := store.UpdateTaskState(row.id, Running, env.markRunning);
      if !ok {
        return NotDispatched(StateWriteFailed);
      }
      return Handle(env.driver.value);
    }

    /**
     CreateTask: each answer under its exact condition and each table with its exact
     contents, from the request, the tables before it and the faults.  Both are those of
     the creator process run alone.
     */
    method CreateTask(req: CreateRequest, env: Env) returns (outcome: CreateOutcome)
      modifies store
      ensures var turn := RunAlone(cfg, old(store.Snapshot()), Lookup(req), env);
              store.Snapshot() == turn.db &&
              (turn.process.Created? || turn.process.Declined?) && turn.process.outcome == outcome
      ensures outcome == LookupFailed <==> !env.lookup.Healthy?
      ensures outcome == SkillNotFound <==> env.lookup.Healthy? && req.skillName !in old(store.skills)
      ensures !env.lookup.Healthy? || req.skillName !in old(store.skills) ==> store.Snapshot() == old(store.Snapshot())
      ensures env.lookup.Healthy? && req.skillName in old(store.skills) ==>
                var g := Answers.ProgressOf(cfg, old(store.Snapshot()), req, env);
                && Answers.CreateAnswer(cfg, req, env, g, outcome)
                && Answers.CreateTables(cfg, old(store.Snapshot()), req, env, g, store.Snapshot())
    {
      ghost var db := store.Snapshot();
      Answers.CreateAnswered(cfg, db, req, env);
      RunAloneFrom(cfg, db, Lookup(req), env);
      if !env.lookup.Healthy? {
        return LookupFailed;
      }
      if req.skillName !in store.skills {
        return SkillNotFound;
      }
      var skill := store.skills[req.skillName];
      RunAloneFrom(cfg, db, Admit(req, skill), env);

      if cfg.policy.Some? {
        var v := Policy.Evaluate(cfg.policy.value,
                                 Policy.PolicyRequest(FirstModel(skill.requiredModels), req.user, req.team, "", "0"));
        if v.err {
          return PolicyFailed(v.ruleId);
        }
        if !v.allowed {
          return PolicyDenied(v.ruleId);
        }
      }

      outcome := PersistAndDispatch(req, skill, env);
    }

    /** The rest of CreateTask, once the policy has allowed it. */
    method PersistAndDispatch(req: CreateRequest, skill: Skill, env: Env) returns (outcome: CreateOutcome)
      modifies store
      ensures var row := BuildTask(req, skill, env.freshId, env.now);
              var turn := RunAlone(cfg, old(store.Snapshot()), Insert(row), env);
              store.Snapshot() == turn.db &&
              (turn.process.Created? || turn.process.Declined?) && turn.process.outcome == outcome
    {
      ghost var db := store.Snapshot();
      var runtime := if req.runtime == "" then "local" else req.runtime;
      var deadline := if req.deadlineSecs <= 0 then 300 else req.deadlineSecs;
      var task := Task(env.freshId, req.skillName, req.parameters,
                       PolicyContext(req.user, req.team, skill.requiredModels),
                       runtime, Pending, deadline, env.now);
      RunAloneFrom(cfg, db, Insert(task), env);
      var ok := store.CreateTask(task, env.insert);
      if !ok {
        return InsertFailed;
      }

      ghost var inserted := store.Snapshot();
      RunAloneFrom(cfg, inserted, Mint(task), env);
      if env.token.None? {
        return RandomFailed;
      }
      var token := env.token.value;
      ok := store.StoreAgentToken(task.id, Sha256(token), env.storeToken);
      if !ok {
        return TokenFailed;
      }

      outcome := FinishDispatch(task, token, env);
    }

    /** The dispatch half of CreateTask, with its best-effort rollback. */
    method FinishDispatch(task: Task, token: string, env: Env) returns (outcome: CreateOutcome)
      requires task.id in store.tasks
      modifies store
      ensures RunAlone(cfg, old(store.Snapshot()), Dispatch(task, token), env) ==
              Turn(store.Snapshot(), Created(task, outcome))
    {
      ghost var db := store.Snapshot();
      RunAloneFrom(cfg, db, Dispatch(task, token), env);
      if cfg.runtimes.None? {
        return Accepted(token, None);
      }
      if task.runtime in cfg.runtimes.value && env.driver.Some? {
        RunAloneFrom(cfg, db, MarkRunning(task, token, env.driver.value), env);
      }
      var r := SchedulerDispatch(cfg.runtimes.value, task, env);
      match r {
        case Handle(externalId) =>
          return Accepted(token, Some(externalId));
        case NotDispatched(cause) =>
          RunAloneFrom(cfg, store.Snapshot(), RollbackState(task, cause), env);
          var _ := store.UpdateTaskState(task.id, Failed, env.rollbackState);
          RunAloneFrom(cfg, store.Snapshot(), RollbackToken(task, cause), env);
          var _ := store.RevokeAgentToken(task.id, env.rollbackToken);
          return DispatchFailed(cause);
      }
    }

    /**
     handleCreateEvent from the token check on; an empty task id is refused before any
     store call.  Each status under its exact condition, and each table with its exact
     contents; both are those of the handler process run alone.
     */
    method HandleCreateEvent(req: EventRequest, env: Env) returns (status: Option<EventStatus>)
      modifies store
      ensures req.taskId == "" ==> status == None && store.Snapshot() == old(store.Snapshot())
      ensures req.taskId != "" ==> status.Some?
      ensures req.taskId != "" ==>
                RunAlone(cfg, old(store.Snapshot()), Verify(req), env) ==
                Turn(store.Snapshot(), Answered(status.value))
      ensures req.taskId != "" ==>
                && Answers.EventAnswer(old(store.Snapshot()), req, env, store.Snapshot(), status.value)
                && Answers.EventTables(old(store.Snapshot()), req, env, store.Snapshot())
    {
      Answers.EventAnswered(cfg, store.Snapshot(), req, env);
      if req.taskId == "" {
        return None; // 400
      }
      ghost var db := store.Snapshot();
      RunAloneFrom(cfg, db, Verify(req), env);
      var valid, ok := store.VerifyAgentToken(req.taskId, req.presented, env.verify);
      if !ok {
        return Some(VerifyFailed);
      }
      if !valid {
        return Some(Unauthorized);
      }

      var event := Event(if req.id == "" then env.freshId else req.id, req.taskId, req.kind, req.payload, env.now);
      RunAloneFrom(cfg, db, Append(event), env);
      ok := store.AppendEvent(event, env.append);
      if !ok {
        return Some(AppendFailed);
      }

      if req.kind.Target().Some? {
        var answer := ApplyEvent(event, env);
        return Some(answer);
      }
      return Some(Recorded(event.id));
    }

    /** The switch on the event type: write the state, and revoke on a terminal event. */
    method ApplyEvent(event: Event, env: Env) returns (status: EventStatus)
      requires event.kind.Target().Some?
      modifies store
      ensures RunAlone(cfg, old(store.Snapshot()), SetState(event), env) == Turn(store.Snapshot(), Answered(status))
    {
      RunAloneFrom(cfg, store.Snapshot(), SetState(event), env);
      var state := match event.kind
                   case TaskCompleted => Completed
                   case TaskFailed => Failed
                   case TaskTimeout => Timeout
                   case _ => Running;
      var ok := store.UpdateTaskState(event.taskId, state, env.setState);
      if !ok {
        return StateFailed;
      }
      if !event.kind.TaskStarted? {
        RunAloneFrom(cfg, store.Snapshot(), Revoke(event), env);
        var _ := store.RevokeAgentToken(event.taskId, env.revoke);
      }
      return Recorded(event.id);
    }
  }
}

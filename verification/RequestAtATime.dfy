/**
 Requests handled one at a time: each runs alone to its end before the next one
 starts.  What then holds at every request boundary, and exactly which failures
 break it.
 */
module RequestAtATime {
  import opened Prelude
  import opened Storage
  import opened Lifecycle
  import opened LifecycleInvariant

  /** What the environment decides over one whole request: a fault per store call, and the fresh values. */
  datatype Env = Env(
    lookup: Fault, insert: Fault, storeToken: Fault, markRunning: Fault,
    rollbackState: Fault, rollbackToken: Fault,
    verify: Fault, append: Fault, setState: Fault, revoke: Fault,
    freshId: string, now: int, token: Option<string>, driver: Option<string>)
  {
    function FaultAt(p: Process): Fault {
      match p
      case Lookup(_) => lookup
      case Insert(_) => insert
      case Mint(_) => storeToken
      case MarkRunning(_, _, _) => markRunning
      case RollbackState(_, _) => rollbackState
      case RollbackToken(_, _) => rollbackToken
      case Verify(_) => verify
      case Append(_) => append
      case SetState(_) => setState
      case Revoke(_) => revoke
      case _ => Healthy
    }

    function At(p: Process): Choice {
      Choice(FaultAt(p), freshId, now, token, driver)
    }
  }

  /** How many steps a process can still take. */
  function Rank(p: Process): nat {
    match p
    case Lookup(_) => 8
    case Admit(_, _) => 7
    case Insert(_) => 6
    case Mint(_) => 5
    case Dispatch(_, _) => 4
    case MarkRunning(_, _, _) => 3
    case RollbackState(_, _) => 2
    case RollbackToken(_, _) => 1
    case Verify(_) => 4
    case Append(_) => 3
    case SetState(_) => 2
    case Revoke(_) => 1
    case _ => 0
  }

  lemma AdvanceLowersRank(cfg: Config, db: Db, p: Process, c: Choice)
    requires !p.Done()
    ensures Rank(Advance(cfg, db, p, c).process) < Rank(p)
  {
  }

  /** Run one process alone to its end. */
  function RunAlone(cfg: Config, db: Db, p: Process, env: Env): (turn: Turn)
    ensures turn.process.Done()
    decreases Rank(p)
  {
    if p.Done() then Turn(db, p)
    else
      AdvanceLowersRank(cfg, db, p, env.At(p));
      var turn := Advance(cfg, db, p, env.At(p));
      RunAlone(cfg, turn.db, turn.process, env)
  }

  /** Running alone is one of the system's interleavings: only process `i` is scheduled. */
  lemma {:induction false} RunAloneIsARun(cfg: Config, s: Sys, i: nat, env: Env) returns (actions: seq<Action>)
    requires i < |s.procs|
    ensures var turn := RunAlone(cfg, s.db, s.procs[i], env);
            Run(cfg, s, actions) == Sys(turn.db, s.procs[i := turn.process])
    ensures forall k :: 0 <= k < |actions| ==> actions[k].Go? && actions[k].proc == i
    decreases Rank(s.procs[i])
  {
    var p := s.procs[i];
    if p.Done() {
      actions := [];
    } else {
      AdvanceLowersRank(cfg, s.db, p, env.At(p));
      var s' := Next(cfg, s, Go(i, env.At(p)));
      var rest := RunAloneIsARun(cfg, s', i, env);
      actions := [Go(i, env.At(p))] + rest;
      assert actions[1..] == rest;
      assert s.procs[i := s'.procs[i]][i := RunAlone(cfg, s.db, p, env).process]
          == s.procs[i := RunAlone(cfg, s.db, p, env).process];
    }
  }

  datatype Request = Create(create: CreateRequest) | Report(event: EventRequest) | Sync(skill: Skill)

  function Serve(cfg: Config, db: Db, r: Request, env: Env): Db {
    match r
    case Create(req) => RunAlone(cfg, db, Lookup(req), env).db
    case Report(req) => RunAlone(cfg, db, Verify(req), env).db
    case Sync(skill) => UpsertSkill(db, skill)
  }

  datatype Served = Served(request: Request, env: Env)

  function ServeAll(cfg: Config, db: Db, work: seq<Served>): Db
    decreases |work|
  {
    if work == [] then db
    else ServeAll(cfg, Serve(cfg, db, work[0].request, work[0].env), work[1..])
  }

  /** A request-at-a-time history is one of the system's runs. */
  lemma {:induction false} HistoryIsARun(cfg: Config, s: Sys, work: seq<Served>) returns (actions: seq<Action>)
    ensures Run(cfg, s, actions).db == ServeAll(cfg, s.db, work)
    decreases |work|
  {
    if work == [] {
      actions := [];
    } else {
      var first := ServeIsARun(cfg, s, work[0].request, work[0].env);
      var rest := HistoryIsARun(cfg, Run(cfg, s, first), work[1..]);
      RunConcat(cfg, s, first, rest);
      actions := first + rest;
    }
  }

  lemma ServeIsARun(cfg: Config, s: Sys, r: Request, env: Env) returns (actions: seq<Action>)
    ensures Run(cfg, s, actions).db == Serve(cfg, s.db, r, env)
  {
    match r {
      case Sync(skill) =>
        actions := [SkillSync(skill)];
        assert actions[1..] == [];
      case Create(req) => actions := BegunIsARun(cfg, s, BeginCreate(req), Lookup(req), env);
      case Report(req) => actions := BegunIsARun(cfg, s, BeginEvent(req), Verify(req), env);
    }
  }

  lemma BegunIsARun(cfg: Config, s: Sys, begin: Action, p: Process, env: Env) returns (actions: seq<Action>)
    requires Next(cfg, s, begin) == s.(procs := s.procs + [p])
    ensures Run(cfg, s, actions).db == RunAlone(cfg, s.db, p, env).db
  {
    var s' := Next(cfg, s, begin);
    var rest := RunAloneIsARun(cfg, s', |s.procs|, env);
    actions := [begin] + rest;
    assert actions[1..] == rest;
  }

  // ---------------------------------------------------------------- Closed forms of one request

  /** The tables after the event request, by which statements took effect. */
  function AfterReport(db: Db, req: EventRequest, env: Env): Db {
    var event := EventOf(req, env.freshId, env.now);
    if !env.verify.Healthy? || !VerifyAgentToken(db, req.taskId, req.presented) || env.append.LostBefore?
       || AppendEvent(db, event).None?
    then db
    else
      var logged := AppendEvent(db, event).value;
      if env.append.LostAfter? || req.kind.Target().None? || env.setState.LostBefore? then logged
      else
        var written := SetTaskState(logged, req.taskId, req.kind.Target().value).value;
        if env.setState.LostAfter? || !req.kind.Terminal() || env.revoke.LostBefore? then written
        else RevokeAgentToken(written, req.taskId).value
  }

  lemma RunAloneFrom(cfg: Config, db: Db, p: Process, env: Env)
    requires !p.Done()
    ensures var turn := Advance(cfg, db, p, env.At(p));
            RunAlone(cfg, db, p, env) == RunAlone(cfg, turn.db, turn.process, env)
  {
  }

  lemma RevokeAlone(cfg: Config, db: Db, e: Event, env: Env)
    requires e.taskId in db.tokens
    ensures RunAlone(cfg, db, Revoke(e), env).db ==
            if env.revoke.LostBefore? then db else RevokeAgentToken(db, e.taskId).value
  {
  }

  lemma SetStateAlone(cfg: Config, db: Db, e: Event, env: Env)
    requires e.taskId in db.tokens && e.taskId in db.tasks && e.kind.Target().Some?
    ensures RunAlone(cfg, db, SetState(e), env).db ==
            var written := SetTaskState(db, e.taskId, e.kind.Target().value).value;
            if env.setState.LostBefore? then db
            else if env.setState.LostAfter? || !e.kind.Terminal() || env.revoke.LostBefore? then written
            else RevokeAgentToken(written, e.taskId).value
  {
    RunAloneFrom(cfg, db, SetState(e), env);
    var written := SetTaskState(db, e.taskId, e.kind.Target().value).value;
    if env.setState.Healthy? && e.kind.Terminal() {
      RevokeAlone(cfg, written, e, env);
    }
  }

  /** `AfterReport` is what running the handler alone does. */
  lemma ReportClosedForm(cfg: Config, db: Db, req: EventRequest, env: Env)
    requires TablesOk(db)
    ensures Serve(cfg, db, Report(req), env) == AfterReport(db, req, env)
  {
    RunAloneFrom(cfg, db, Verify(req), env);
    if env.verify.Healthy? && VerifyAgentToken(db, req.taskId, req.presented) {
      var e := EventOf(req, env.freshId, env.now);
      RunAloneFrom(cfg, db, Append(e), env);
      if env.append.Healthy? && AppendEvent(db, e).Some? && e.kind.Target().Some? {
        SetStateAlone(cfg, AppendEvent(db, e).value, e, env);
      }
    }
  }

  /** Which task the creation request inserted, if it got that far. */
  function RowOf(cfg: Config, db: Db, req: CreateRequest, env: Env): Option<Task> {
    if !env.lookup.Healthy? || req.skillName !in db.skills then None
    else
      var next := AdmitStep(cfg, req, db.skills[req.skillName], env.At(Admit(req, db.skills[req.skillName])));
      if !next.Insert? || env.insert.LostBefore? || InsertTask(db, next.row).None? then None
      else Some(next.row)
  }

  /** The rollback after a failed dispatch, as statements that took effect or not. */
  function AfterRollback(db: Db, t: string, env: Env): Db
    requires t in db.tasks
  {
    var failed := if env.rollbackState.LostBefore? then db else SetTaskState(db, t, Failed).value;
    if env.rollbackToken.LostBefore? then failed else RevokeAgentToken(failed, t).value
  }

  function AfterDispatch(cfg: Config, db: Db, row: Task, env: Env): Db
    requires row.id in db.tasks
  {
    if cfg.runtimes.None? then db
    else if row.runtime !in cfg.runtimes.value || env.driver.None? then AfterRollback(db, row.id, env)
    else if env.markRunning.Healthy? then SetTaskState(db, row.id, Running).value
    else if env.markRunning.LostAfter? then AfterRollback(SetTaskState(db, row.id, Running).value, row.id, env)
    else AfterRollback(db, row.id, env)
  }

  /** The tables after the creation request, by which statements took effect. */
  function AfterCreate(cfg: Config, db: Db, req: CreateRequest, env: Env): Db {
    var row := RowOf(cfg, db, req, env);
    if row.None? then db
    else
      var inserted := db.(tasks := db.tasks[row.value.id := row.value]);
      if env.insert.LostAfter? || env.token.None? || env.storeToken.LostBefore? then inserted
      else
        var stored := StoreAgentToken(inserted, row.value.id, Sha256(env.token.value)).value;
        if env.storeToken.LostAfter? then stored
        else AfterDispatch(cfg, stored, row.value, env)
  }

  lemma RollbackAlone(cfg: Config, db: Db, row: Task, cause: DispatchError, env: Env)
    requires row.id in db.tasks
    ensures RunAlone(cfg, db, RollbackState(row, cause), env) ==
            Turn(AfterRollback(db, row.id, env), Created(row, DispatchFailed(cause)))
  {
    RunAloneFrom(cfg, db, RollbackState(row, cause), env);
    var failed := if env.rollbackState.LostBefore? then db else SetTaskState(db, row.id, Failed).value;
    RunAloneFrom(cfg, failed, RollbackToken(row, cause), env);
  }

  lemma DispatchAlone(cfg: Config, db: Db, row: Task, token: string, env: Env)
    requires row.id in db.tasks
    ensures RunAlone(cfg, db, Dispatch(row, token), env).db == AfterDispatch(cfg, db, row, env)
    ensures RunAlone(cfg, db, Dispatch(row, token), env).process.Created?
  {
    RunAloneFrom(cfg, db, Dispatch(row, token), env);
    if cfg.runtimes.Some? {
      if row.runtime !in cfg.runtimes.value {
        RollbackAlone(cfg, db, row, RuntimeNotFound, env);
      } else if env.driver.None? {
        RollbackAlone(cfg, db, row, DriverRefused, env);
      } else {
        RunAloneFrom(cfg, db, MarkRunning(row, token, env.driver.value), env);
        if !env.markRunning.Healthy? {
          var db' := if env.markRunning.LostAfter? then SetTaskState(db, row.id, Running).value else db;
          RollbackAlone(cfg, db', row, StateWriteFailed, env);
        }
      }
    }
  }

  lemma MintAlone(cfg: Config, db: Db, row: Task, env: Env)
    requires row.id in db.tasks
    ensures RunAlone(cfg, db, Mint(row), env).db ==
            if env.token.None? || env.storeToken.LostBefore? then db
            else
              var stored := StoreAgentToken(db, row.id, Sha256(env.token.value)).value;
              if env.storeToken.LostAfter? then stored else AfterDispatch(cfg, stored, row, env)
  {
    RunAloneFrom(cfg, db, Mint(row), env);
    if env.token.Some? && env.storeToken.Healthy? {
      DispatchAlone(cfg, StoreAgentToken(db, row.id, Sha256(env.token.value)).value, row, env.token.value, env);
    }
  }

  /** `AfterCreate` is what running the creator alone does. */
  lemma CreateClosedForm(cfg: Config, db: Db, req: CreateRequest, env: Env)
    ensures Serve(cfg, db, Create(req), env) == AfterCreate(cfg, db, req, env)
  {
    RunAloneFrom(cfg, db, Lookup(req), env);
    if env.lookup.Healthy? && req.skillName in db.skills {
      var skill := db.skills[req.skillName];
      RunAloneFrom(cfg, db, Admit(req, skill), env);
      var next := AdmitStep(cfg, req, skill, env.At(Admit(req, skill)));
      if next.Insert? {
        RunAloneFrom(cfg, db, next, env);
        if env.insert.Healthy? && InsertTask(db, next.row).Some? {
          MintAlone(cfg, InsertTask(db, next.row).value, next.row, env);
        }
      }
    }
  }

  // ---------------------------------------------------------------- What one request touches

  /** Nothing about `t` differs: state, token row, log. */
  ghost predicate Untouched(db: Db, db': Db, t: string)
    requires t in db.tasks
  {
    && t in db'.tasks && db'.tasks[t] == db.tasks[t]
    && (t in db'.tokens <==> t in db.tokens)
    && (t in db.tokens ==> db'.tokens[t] == db.tokens[t])
    && LogOf(db'.events, t) == LogOf(db.events, t)
  }

  /** The event takes a place in the log, whether or not the handler hears of it. */
  predicate Landed(db: Db, req: EventRequest, env: Env) {
    && env.verify.Healthy? && VerifyAgentToken(db, req.taskId, req.presented)
    && !env.append.LostBefore?
    && AppendEvent(db, EventOf(req, env.freshId, env.now)).Some?
  }

  /** What an event that landed leaves in the rows of its own task. */
  ghost predicate LandedWrites(db: Db, db': Db, req: EventRequest, env: Env) {
    var t := req.taskId;
    var e := EventOf(req, env.freshId, env.now);
    var wrote := !env.append.LostAfter? && req.kind.Target().Some? && !env.setState.LostBefore?;
    && t in db.tasks && t in db'.tasks && t in db'.tokens
    && db'.events == db.events + [e]
    && db'.tasks[t].state == (if wrote then req.kind.Target().value else db.tasks[t].state)
    && (db'.Live(t) <==> !(wrote && env.setState.Healthy? && req.kind.Terminal() && !env.revoke.LostBefore?))
  }

  lemma LandedEffect(db: Db, req: EventRequest, env: Env)
    requires TablesOk(db) && Landed(db, req, env)
    ensures LandedWrites(db, AfterReport(db, req, env), req, env)
  {
  }

  /** The two table values differ at most in the task and token rows of `id`, and in the log. */
  ghost predicate RowsElsewhere(db: Db, db': Db, id: string) {
    && (forall t :: t != id ==> (t in db'.tasks <==> t in db.tasks) && (t in db'.tokens <==> t in db.tokens))
    && (forall t :: t != id && t in db.tasks ==> db'.tasks[t] == db.tasks[t])
    && (forall t :: t != id && t in db.tokens ==> db'.tokens[t] == db.tokens[t])
  }

  /** An event that landed leaves every other task's rows alone. */
  lemma LandedElsewhere(db: Db, req: EventRequest, env: Env)
    requires TablesOk(db) && Landed(db, req, env)
    ensures RowsElsewhere(db, AfterReport(db, req, env), req.taskId)
  {
  }

  /** At most the task and token rows of `id` differ; the logs are equal. */
  ghost predicate OnlyTask(db: Db, db': Db, id: string) {
    db'.events == db.events && RowsElsewhere(db, db', id)
  }

  lemma OnlyTaskTransitive(a: Db, b: Db, c: Db, id: string)
    requires OnlyTask(a, b, id) && OnlyTask(b, c, id)
    ensures OnlyTask(a, c, id)
  {
  }

  lemma RollbackOnlyTask(db: Db, id: string, env: Env)
    requires id in db.tasks
    ensures OnlyTask(db, AfterRollback(db, id, env), id)
  {
  }

  lemma DispatchOnlyTask(cfg: Config, db: Db, row: Task, env: Env)
    requires row.id in db.tasks
    ensures OnlyTask(db, AfterDispatch(cfg, db, row, env), row.id)
  {
    var running := SetTaskState(db, row.id, Running).value;
    RollbackOnlyTask(db, row.id, env);
    RollbackOnlyTask(running, row.id, env);
    OnlyTaskTransitive(db, running, AfterRollback(running, row.id, env), row.id);
  }

  /** A creation touches at most the rows of the task it inserted. */
  lemma CreateOnlyTask(cfg: Config, db: Db, req: CreateRequest, env: Env)
    ensures var row := RowOf(cfg, db, req, env);
            if row.None? then AfterCreate(cfg, db, req, env) == db
            else row.value.id !in db.tasks && OnlyTask(db, AfterCreate(cfg, db, req, env), row.value.id)
  {
    var row := RowOf(cfg, db, req, env);
    if row.Some? && env.token.Some? {
      var id := row.value.id;
      var inserted := db.(tasks := db.tasks[id := row.value]);
      var stored := StoreAgentToken(inserted, id, Sha256(env.token.value)).value;
      OnlyTaskTransitive(db, inserted, stored, id);
      DispatchOnlyTask(cfg, stored, row.value, env);
      OnlyTaskTransitive(db, stored, AfterDispatch(cfg, stored, row.value, env), id);
    }
  }

  lemma CreateUntouched(cfg: Config, db: Db, req: CreateRequest, env: Env, t: string)
    requires t in db.tasks
    ensures Untouched(db, AfterCreate(cfg, db, req, env), t)
  {
    CreateOnlyTask(cfg, db, req, env);
  }

  lemma ReportTouchesOnlyItsTask(cfg: Config, db: Db, req: EventRequest, env: Env, t: string)
    requires TablesOk(db) && t in db.tasks && t != req.taskId
    ensures Untouched(db, AfterReport(db, req, env), t)
  {
  }

  /** Table constraints survive any request, whatever fails. */
  lemma {:induction false} RunAloneTablesOk(cfg: Config, db: Db, p: Process, env: Env)
    requires TablesOk(db) && ProcessOk(db, p)
    ensures TablesOk(RunAlone(cfg, db, p, env).db)
    decreases Rank(p)
  {
    if !p.Done() {
      AdvanceLowersRank(cfg, db, p, env.At(p));
      AdvanceTablesOk(cfg, db, p, env.At(p));
      AdvanceProcessOk(cfg, db, p, env.At(p));
      RunAloneTablesOk(cfg, Advance(cfg, db, p, env.At(p)).db, Advance(cfg, db, p, env.At(p)).process, env);
    }
  }

  lemma ServeTablesOk(cfg: Config, db: Db, r: Request, env: Env)
    requires TablesOk(db)
    ensures TablesOk(Serve(cfg, db, r, env))
  {
    match r
    case Create(req) => RunAloneTablesOk(cfg, db, Lookup(req), env);
    case Report(req) => RunAloneTablesOk(cfg, db, Verify(req), env);
    case Sync(_) =>
  }

  // ---------------------------------------------------------------- How a creation ends

  lemma RollbackSettles(db: Db, id: string, env: Env)
    requires id in db.tasks && db.Live(id)
    ensures var db' := AfterRollback(db, id, env);
            && id in db'.tasks
            && (db'.Live(id) <==> env.rollbackToken.LostBefore?)
            && db'.tasks[id].state == if env.rollbackState.LostBefore? then db.tasks[id].state else Failed
  {
  }

  /** The tables just before dispatch, for a creation that reaches it. */
  lemma ReachDispatch(cfg: Config, db: Db, req: CreateRequest, env: Env) returns (row: Task, token: string, stored: Db)
    requires TablesOk(db)
    requires var p := RunAlone(cfg, db, Lookup(req), env).process;
             p.Created? && (p.outcome.DispatchFailed? || p.outcome.Accepted?)
    ensures RunAlone(cfg, db, Lookup(req), env) == RunAlone(cfg, stored, Dispatch(row, token), env)
    ensures row.id !in db.tasks && stored.events == db.events
    ensures row.id in stored.tasks && stored.tasks[row.id].state == Pending && stored.Live(row.id)
  {
    RunAloneFrom(cfg, db, Lookup(req), env);
    var skill := db.skills[req.skillName];
    RunAloneFrom(cfg, db, Admit(req, skill), env);
    row := AdmitStep(cfg, req, skill, env.At(Admit(req, skill))).row;
    RunAloneFrom(cfg, db, Insert(row), env);
    var inserted := InsertTask(db, row).value;
    RunAloneFrom(cfg, inserted, Mint(row), env);
    token := env.token.value;
    stored := StoreAgentToken(inserted, row.id, Sha256(token)).value;
  }

  /** How a dispatch can end, running alone. */
  lemma DispatchEnds(cfg: Config, db: Db, row: Task, token: string, env: Env)
    requires row.id in db.tasks && db.Live(row.id) && db.tasks[row.id].state == Pending
    ensures var turn := RunAlone(cfg, db, Dispatch(row, token), env);
            && turn.process.Created? && turn.process.row == row
            && (turn.process.outcome.DispatchFailed? ==>
                  row.id in turn.db.tasks &&
                  (turn.db.tasks[row.id].state == Failed <==> !env.rollbackState.LostBefore?) &&
                  (turn.db.Revoked(row.id) <==> !env.rollbackToken.LostBefore?))
            && (turn.process.outcome.Accepted? && cfg.runtimes.Some? ==>
                  turn.db == SetTaskState(db, row.id, Running).value)
  {
    RunAloneFrom(cfg, db, Dispatch(row, token), env);
    RollbackSettles(db, row.id, env);
    var p := DispatchStep(cfg, row, token, env.At(Dispatch(row, token)));
    if p.RollbackState? {
      RollbackAlone(cfg, db, row, p.cause, env);
    } else if p.MarkRunning? {
      RunAloneFrom(cfg, db, p, env);
      if !env.markRunning.Healthy? {
        var db' := Advance(cfg, db, p, env.At(p)).db;
        RollbackSettles(db', row.id, env);
        RollbackAlone(cfg, db', row, StateWriteFailed, env);
      }
    }
  }

  /**
   A creation whose dispatch failed has marked its task failed and revoked its token
   exactly when both rollback writes took effect; both failures are only logged.
   */
  lemma RollbackCompleteExactlyWhen(cfg: Config, db: Db, req: CreateRequest, env: Env)
    requires TablesOk(db)
    requires var p := RunAlone(cfg, db, Lookup(req), env).process; p.Created? && p.outcome.DispatchFailed?
    ensures var turn := RunAlone(cfg, db, Lookup(req), env);
            var t := turn.process.row.id;
            t in turn.db.tasks &&
            (turn.db.tasks[t].state == Failed && turn.db.Revoked(t) <==>
             !env.rollbackState.LostBefore? && !env.rollbackToken.LostBefore?)
  {
    var row, token, stored := ReachDispatch(cfg, db, req, env);
    DispatchEnds(cfg, stored, row, token, env);
  }
}

/**
 The boundary invariant of requests handled one at a time: a task has a live token
 exactly when it is running.  Which failures break it, that terminal states are
 absorbing when none of them occurs, and exactly which states are final when they may.
 */
module RequestBoundary {
  import opened Prelude
  import opened Storage
  import opened Lifecycle
  import opened LifecycleInvariant
  import opened RequestAtATime
  import TerminalFinality

  /** At a request boundary a task has a live token exactly when it is running. */
  ghost predicate Settled(db: Db) {
    forall t :: t in db.tasks ==> (db.Live(t) <==> db.tasks[t].state == Running)
  }

  lemma SettledElsewhere(db: Db, db': Db, id: string)
    requires Settled(db) && RowsElsewhere(db, db', id) && id in db'.tasks
    ensures Settled(db') <==> (db'.Live(id) <==> db'.tasks[id].state == Running)
  {
  }

  /** The event landed and the handler knows it, so it goes on to the state. */
  predicate Reported(db: Db, req: EventRequest, env: Env) {
    Landed(db, req, env) && env.append.Healthy?
  }

  /**
   An event request keeps the boundary invariant exactly when it does not leave a
   terminal state written beside a live token: the state write took effect and
   either its reply or the revocation was lost.
   */
  lemma ReportSettlesExactlyWhen(cfg: Config, db: Db, req: EventRequest, env: Env)
    requires TablesOk(db) && Settled(db)
    ensures Settled(Serve(cfg, db, Report(req), env)) <==>
            !(Reported(db, req, env) && req.kind.Terminal() &&
              (env.setState.LostAfter? || (env.setState.Healthy? && env.revoke.LostBefore?)))
  {
    ReportClosedForm(cfg, db, req, env);
    if Landed(db, req, env) {
      LandedEffect(db, req, env);
      LandedElsewhere(db, req, env);
      LandedSettles(db, AfterReport(db, req, env), req, env);
    } else {
      assert AfterReport(db, req, env) == db;
    }
  }

  lemma LandedSettles(db: Db, db': Db, req: EventRequest, env: Env)
    requires Settled(db) && db.Live(req.taskId) && !env.append.LostBefore?
    requires LandedWrites(db, db', req, env) && RowsElsewhere(db, db', req.taskId)
    ensures Settled(db') <==>
            !(env.append.Healthy? && req.kind.Terminal() &&
              (env.setState.LostAfter? || (env.setState.Healthy? && env.revoke.LostBefore?)))
  {
  }

  /** The failure patterns of one creation request that leave the boundary invariant intact. */
  predicate CreateSettles(cfg: Config, db: Db, req: CreateRequest, env: Env) {
    var row := RowOf(cfg, db, req, env);
    if row.None? || env.insert.LostAfter? || env.token.None? || env.storeToken.LostBefore? then true
    else if env.storeToken.LostAfter? || cfg.runtimes.None? then false
    else if row.value.runtime !in cfg.runtimes.value || env.driver.None? || env.markRunning.LostBefore?
    then !env.rollbackToken.LostBefore?
    else if env.markRunning.Healthy? then true
    else env.rollbackState.LostBefore? == env.rollbackToken.LostBefore?
  }

  lemma DispatchSettles(cfg: Config, db: Db, row: Task, env: Env)
    requires row.id in db.tasks && db.Live(row.id) && db.tasks[row.id].state == Pending
    ensures var db' := AfterDispatch(cfg, db, row, env);
            row.id in db'.tasks &&
            ((db'.Live(row.id) <==> db'.tasks[row.id].state == Running) <==>
             if cfg.runtimes.None? then false
             else if row.runtime !in cfg.runtimes.value || env.driver.None? || env.markRunning.LostBefore?
             then !env.rollbackToken.LostBefore?
             else env.markRunning.Healthy? || env.rollbackState.LostBefore? == env.rollbackToken.LostBefore?)
  {
  }

  /**
   A creation request keeps the boundary invariant exactly for the failure patterns
   of `CreateSettles`.
   */
  lemma CreateSettlesExactlyWhen(cfg: Config, db: Db, req: CreateRequest, env: Env)
    requires TablesOk(db) && Settled(db)
    ensures Settled(Serve(cfg, db, Create(req), env)) <==> CreateSettles(cfg, db, req, env)
  {
    CreateClosedForm(cfg, db, req, env);
    CreateOnlyTask(cfg, db, req, env);
    var row := RowOf(cfg, db, req, env);
    if row.Some? {
      var id := row.value.id;
      assert id !in db.tokens && row.value.state.Pending?;
      var inserted := db.(tasks := db.tasks[id := row.value]);
      if env.token.Some? {
        DispatchSettles(cfg, StoreAgentToken(inserted, id, Sha256(env.token.value)).value, row.value, env);
      }
      SettledElsewhere(db, AfterCreate(cfg, db, req, env), id);
    }
  }

  /** A scheduler is configured, failed store calls have no effect, and revocations succeed. */
  predicate Gentle(cfg: Config, env: Env) {
    && cfg.runtimes.Some?
    && env.revoke.Healthy? && env.rollbackToken.Healthy?
    && !env.insert.LostAfter? && !env.storeToken.LostAfter? && !env.markRunning.LostAfter?
    && !env.rollbackState.LostAfter? && !env.append.LostAfter? && !env.setState.LostAfter?
  }

  lemma GentleServeSettled(cfg: Config, db: Db, r: Request, env: Env)
    requires TablesOk(db) && Settled(db) && Gentle(cfg, env)
    ensures Settled(Serve(cfg, db, r, env))
  {
    match r
    case Create(req) => CreateSettlesExactlyWhen(cfg, db, req, env);
    case Report(req) => ReportSettlesExactlyWhen(cfg, db, req, env);
    case Sync(_) =>
  }

  /**
   One request between settled boundaries: a task that is not running is not
   touched at all, whatever fails; a running one stays running or becomes terminal.
   */
  lemma ServeEdges(cfg: Config, db: Db, r: Request, env: Env, t: string)
    requires TablesOk(db) && Settled(db) && t in db.tasks
    ensures var db' := Serve(cfg, db, r, env);
            && t in db'.tasks
            && (db.tasks[t].state != Running ==> Untouched(db, db', t))
            && (db.tasks[t].state == Running ==> db'.tasks[t].state == Running || db'.tasks[t].state.Terminal())
  {
    match r
    case Create(req) =>
      CreateClosedForm(cfg, db, req, env);
      CreateUntouched(cfg, db, req, env, t);
    case Report(req) =>
      ReportClosedForm(cfg, db, req, env);
      if req.taskId != t {
        ReportTouchesOnlyItsTask(cfg, db, req, env, t);
      }
    case Sync(_) =>
  }

  ghost predicate AllGentle(cfg: Config, work: seq<Served>) {
    forall i :: 0 <= i < |work| ==> Gentle(cfg, work[i].env)
  }

  /** Every boundary of a gentle request-at-a-time run is settled. */
  lemma {:induction false} GentleRunsSettle(cfg: Config, db: Db, work: seq<Served>)
    requires TablesOk(db) && Settled(db) && AllGentle(cfg, work)
    ensures TablesOk(ServeAll(cfg, db, work)) && Settled(ServeAll(cfg, db, work))
    decreases |work|
  {
    if work != [] {
      assert Gentle(cfg, work[0].env);
      ServeTablesOk(cfg, db, work[0].request, work[0].env);
      GentleServeSettled(cfg, db, work[0].request, work[0].env);
      GentleRunsSettle(cfg, Serve(cfg, db, work[0].request, work[0].env), work[1..]);
    }
  }

  /**
   So completed, failed and timeout are absorbing there (and so is a pending row,
   whose creation failed): row, token and log never change again.
   */
  lemma {:induction false} GentleRunsAbsorb(cfg: Config, db: Db, work: seq<Served>, t: string)
    requires TablesOk(db) && Settled(db) && AllGentle(cfg, work)
    requires t in db.tasks && db.tasks[t].state != Running
    ensures Untouched(db, ServeAll(cfg, db, work), t)
    decreases |work|
  {
    if work != [] {
      assert Gentle(cfg, work[0].env);
      ServeTablesOk(cfg, db, work[0].request, work[0].env);
      GentleServeSettled(cfg, db, work[0].request, work[0].env);
      ServeEdges(cfg, db, work[0].request, work[0].env, t);
      GentleRunsAbsorb(cfg, Serve(cfg, db, work[0].request, work[0].env), work[1..], t);
    }
  }

  // ---------------------------------------------------------------- Final under any failures

  /** The state of `t` is the same after every further history, whatever fails in it. */
  ghost predicate SerialFrozen(cfg: Config, db: Db, t: string)
    requires t in db.tasks
  {
    forall work ::
      var db' := ServeAll(cfg, db, work);
      t in db'.tasks && db'.tasks[t].state == db.tasks[t].state
  }

  lemma DeadTokenServe(cfg: Config, db: Db, r: Request, env: Env, t: string)
    requires TablesOk(db) && t in db.tasks && !db.Live(t)
    ensures Untouched(db, Serve(cfg, db, r, env), t)
  {
    match r
    case Create(req) =>
      CreateClosedForm(cfg, db, req, env);
      CreateUntouched(cfg, db, req, env, t);
    case Report(req) =>
      ReportClosedForm(cfg, db, req, env);
      if req.taskId != t {
        ReportTouchesOnlyItsTask(cfg, db, req, env, t);
      }
    case Sync(_) =>
  }

  lemma {:induction false} DeadTokenServeAll(cfg: Config, db: Db, work: seq<Served>, t: string)
    requires TablesOk(db) && t in db.tasks && !db.Live(t)
    ensures Untouched(db, ServeAll(cfg, db, work), t)
    decreases |work|
  {
    if work != [] {
      ServeTablesOk(cfg, db, work[0].request, work[0].env);
      DeadTokenServe(cfg, db, work[0].request, work[0].env, t);
      DeadTokenServeAll(cfg, Serve(cfg, db, work[0].request, work[0].env), work[1..], t);
    }
  }

  const ALL_HEALTHY := Env(Healthy, Healthy, Healthy, Healthy, Healthy, Healthy, Healthy, Healthy, Healthy, Healthy,
                           "", 0, None, None)

  /** Whoever holds a live token moves the state, with one request in which nothing fails. */
  lemma LiveTokenServe(cfg: Config, db: Db, t: string) returns (r: Request, env: Env)
    requires TablesOk(db) && t in db.tasks && db.Live(t)
    ensures var db' := Serve(cfg, db, r, env);
            t in db'.tasks && db'.tasks[t].state != db.tasks[t].state
  {
    var id := TerminalFinality.FreshEventId(db);
    var kind := if db.tasks[t].state == Running then TaskCompleted else TaskStarted;
    var req := EventRequest(id, t, kind, "", db.tokens[t].digest);
    r, env := Report(req), ALL_HEALTHY;
    ReportClosedForm(cfg, db, req, env);
    LandedEffect(db, req, env);
  }

  /**
   With requests handled one at a time, the state of a task is final, whatever fails
   later, if and only if its token is not live: no process is left to straggle.
   */
  lemma SerialFrozenExactlyWhen(cfg: Config, db: Db, t: string)
    requires TablesOk(db) && t in db.tasks
    ensures SerialFrozen(cfg, db, t) <==> !db.Live(t)
  {
    if db.Live(t) {
      var r, env := LiveTokenServe(cfg, db, t);
      var work := [Served(r, env)];
      assert ServeAll(cfg, db, work) == Serve(cfg, db, r, env);
    } else {
      forall work
        ensures var db' := ServeAll(cfg, db, work); t in db'.tasks && db'.tasks[t].state == db.tasks[t].state
      {
        DeadTokenServeAll(cfg, db, work, t);
      }
    }
  }
}

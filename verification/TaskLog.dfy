/**
 The event log of a dispatched task when requests are handled one at a time: its
 shape, and the stored state as the fold of the log.
 */
module TaskLog {
  import opened Prelude
  import opened Storage
  import opened Lifecycle
  import opened LifecycleInvariant
  import opened RequestAtATime

  /** The state a log leads to. */
  function Fold(state: TaskState, log: seq<Event>): TaskState {
    if log == [] then state
    else
      var target := log[|log| - 1].kind.Target();
      if target.Some? then target.value else Fold(state, log[..|log| - 1])
  }

  /** Non-terminal events, then at most one terminal event. */
  ghost predicate WellFormedLog(log: seq<Event>) {
    forall i :: 0 <= i < |log| - 1 ==> !log[i].kind.Terminal()
  }

  predicate Closed(log: seq<Event>) {
    log != [] && log[|log| - 1].kind.Terminal()
  }

  /** A dispatched task: its log is well formed, is open while the token lives, and folds to the state. */
  ghost predicate Tracked(db: Db, t: string) {
    && t in db.tasks && t in db.tokens
    && var log := LogOf(db.events, t);
    && WellFormedLog(log)
    && db.tasks[t].state == Fold(Running, log)
    && (db.Live(t) <==> !Closed(log))
  }

  lemma {:induction false} FoldOpen(log: seq<Event>)
    requires WellFormedLog(log) && !Closed(log)
    ensures Fold(Running, log) == Running
  {
    if log != [] {
      assert WellFormedLog(log[..|log| - 1]);
      FoldOpen(log[..|log| - 1]);
    }
  }

  lemma FoldAppend(log: seq<Event>, e: Event)
    ensures Fold(Running, log + [e]) == if e.kind.Target().Some? then e.kind.Target().value else Fold(Running, log)
  {
  }

  /**
   An event request keeps its task tracked exactly when it does not land a terminal
   event without also getting the state and the revocation written.
   */
  lemma ReportTracksExactlyWhen(cfg: Config, db: Db, req: EventRequest, env: Env)
    requires TablesOk(db) && Tracked(db, req.taskId)
    ensures Tracked(Serve(cfg, db, Report(req), env), req.taskId) <==>
            !(Landed(db, req, env) && req.kind.Terminal()) ||
            (env.append.Healthy? && env.setState.Healthy? && !env.revoke.LostBefore?)
  {
    ReportClosedForm(cfg, db, req, env);
    if Landed(db, req, env) {
      LandedEffect(db, req, env);
      LandedTracks(db, AfterReport(db, req, env), req, env);
    } else {
      assert AfterReport(db, req, env) == db;
    }
  }

  /** The tracking of a task whose event landed, from what the landing wrote. */
  lemma LandedTracks(db: Db, db': Db, req: EventRequest, env: Env)
    requires Tracked(db, req.taskId) && db.Live(req.taskId)
    requires LandedWrites(db, db', req, env) && !env.append.LostBefore?
    ensures Tracked(db', req.taskId) <==>
            !req.kind.Terminal() || (env.append.Healthy? && env.setState.Healthy? && !env.revoke.LostBefore?)
  {
    var t := req.taskId;
    var e := EventOf(req, env.freshId, env.now);
    LogOfAppend(db.events, e, t);
    TrackedAfter(db, db', t, e);
    WriteCases(req.kind, env, db'.tasks[t].state, db'.Live(t));
  }

  /** Which failure patterns leave the state and the token as the landed event wants them. */
  lemma WriteCases(kind: EventType, env: Env, state: TaskState, live: bool)
    requires !env.append.LostBefore?
    requires var wrote := !env.append.LostAfter? && kind.Target().Some? && !env.setState.LostBefore?;
             && state == (if wrote then kind.Target().value else Running)
             && (live <==> !(wrote && env.setState.Healthy? && kind.Terminal() && !env.revoke.LostBefore?))
    ensures state == (if kind.Target().Some? then kind.Target().value else Running) && (live <==> !kind.Terminal())
            <==> !kind.Terminal() || (env.append.Healthy? && env.setState.Healthy? && !env.revoke.LostBefore?)
  {
  }

  /** Whether a tracked, live task is still tracked once `e` has joined its log. */
  lemma TrackedAfter(db: Db, db': Db, t: string, e: Event)
    requires Tracked(db, t) && db.Live(t)
    requires t in db'.tasks && t in db'.tokens && LogOf(db'.events, t) == LogOf(db.events, t) + [e]
    ensures Tracked(db', t) <==>
            db'.tasks[t].state == (if e.kind.Target().Some? then e.kind.Target().value else Running) &&
            (db'.Live(t) <==> !e.kind.Terminal())
    ensures db.tasks[t].state == Running
  {
    var log := LogOf(db.events, t);
    FoldAppend(log, e);
    FoldOpen(log);
    assert forall i :: 0 <= i < |log| ==> (log + [e])[i] == log[i] && !log[i].kind.Terminal();
    assert WellFormedLog(log + [e]);
    assert Closed(log + [e]) <==> e.kind.Terminal();
  }

  lemma {:induction false} NoLogBeforeTask(db: Db, events: seq<Event>, t: string)
    requires forall i :: 0 <= i < |events| ==> events[i].taskId in db.tasks
    requires t !in db.tasks
    ensures LogOf(events, t) == []
  {
    if events != [] {
      NoLogBeforeTask(db, events[..|events| - 1], t);
    }
  }

  /** A creation that answers Accepted leaves its task tracked, with an empty log. */
  lemma AcceptedIsTracked(cfg: Config, db: Db, req: CreateRequest, env: Env)
    requires TablesOk(db) && cfg.runtimes.Some?
    requires var p := RunAlone(cfg, db, Lookup(req), env).process; p.Created? && p.outcome.Accepted?
    ensures var turn := RunAlone(cfg, db, Lookup(req), env);
            Tracked(turn.db, turn.process.row.id) && LogOf(turn.db.events, turn.process.row.id) == []
  {
    var row, token, stored := ReachDispatch(cfg, db, req, env);
    DispatchEnds(cfg, stored, row, token, env);
    NoLogBeforeTask(db, db.events, row.id);
  }

  /** Appends are not lost after taking effect, and the writes after an append succeed. */
  ghost predicate FinishesReports(work: seq<Served>) {
    forall i :: 0 <= i < |work| ==>
      !work[i].env.append.LostAfter? && work[i].env.setState.Healthy? && work[i].env.revoke.Healthy?
  }

  /**
   Whatever requests follow, the log of a tracked task stays non-terminal events
   followed by at most one terminal event, and its state is the fold of that log.
   */
  lemma {:induction false} TrackedRuns(cfg: Config, db: Db, work: seq<Served>, t: string)
    requires TablesOk(db) && Tracked(db, t) && FinishesReports(work)
    ensures Tracked(ServeAll(cfg, db, work), t)
    decreases |work|
  {
    if work != [] {
      var env := work[0].env;
      var db' := Serve(cfg, db, work[0].request, env);
      ServeTablesOk(cfg, db, work[0].request, env);
      match work[0].request {
        case Create(req) =>
          CreateClosedForm(cfg, db, req, env);
          CreateUntouched(cfg, db, req, env, t);
        case Report(req) =>
          if req.taskId == t {
            ReportTracksExactlyWhen(cfg, db, req, env);
          } else {
            ReportClosedForm(cfg, db, req, env);
            ReportTouchesOnlyItsTask(cfg, db, req, env, t);
          }
        case Sync(_) =>
      }
      assert Tracked(db', t);
      TrackedRuns(cfg, db', work[1..], t);
    }
  }
}

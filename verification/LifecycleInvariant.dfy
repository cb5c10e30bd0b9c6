/**
 What every interleaving and every failure pattern keeps: the table constraints
 across tables, one owner per task, the justification of every stored state by
 the audit log or by the creator, and policy admission.
 */
module LifecycleInvariant {
  import opened Prelude
  import opened Storage
  import opened Lifecycle
  import Policy

  // ---------------------------------------------------------------- Statement

  /** References between tables resolve and event ids are unique. */
  ghost predicate TablesOk(db: Db) {
    && (forall t :: t in db.tasks ==> db.tasks[t].id == t)
    && (forall t :: t in db.tokens ==> t in db.tasks)
    && (forall i :: 0 <= i < |db.events| ==> db.events[i].taskId in db.tasks)
    && (forall i, j :: 0 <= i < j < |db.events| ==> db.events[i].id != db.events[j].id)
  }

  /** What one process may rely on at its program counter. */
  ghost predicate ProcessOk(db: Db, p: Process) {
    && (p.Insert? ==> p.row.state.Pending?)
    && (p.Owner() ==> p.row.id in db.tasks)
    && (p.Mint? ==> p.row.id !in db.tokens)
    && ((p.Dispatch? || p.MarkRunning? || p.RollbackState? || p.RollbackToken?) ==> p.row.id in db.tokens)
    && ((p.Append? || p.SetState? || p.Revoke?) ==> p.event.taskId in db.tokens)
    && ((p.SetState? || p.Revoke?) ==> db.Logged(p.event.taskId, p.event.kind))
  }

  ghost predicate OneOwner(procs: seq<Process>) {
    forall i, j, t :: 0 <= i < j < |procs| && procs[i].Owns(t) ==> !procs[j].Owns(t)
  }

  /** The creator of `t` has got as far as writing the state running. */
  predicate SchedulerWrote(p: Process, t: string) {
    p.Owns(t) &&
    (((p.RollbackState? || p.RollbackToken?) && p.cause == StateWriteFailed) ||
     (p.Created? && p.outcome.Accepted? && p.outcome.externalId.Some?) ||
     (p.Created? && p.outcome == DispatchFailed(StateWriteFailed)))
  }

  /** The creator of `t` saw its dispatch fail. */
  predicate DispatchFailure(p: Process, t: string) {
    p.Owns(t) && (p.RollbackState? || p.RollbackToken? || (p.Created? && p.outcome.DispatchFailed?))
  }

  ghost predicate RunningWritten(procs: seq<Process>, t: string) {
    exists i :: 0 <= i < |procs| && SchedulerWrote(procs[i], t)
  }

  ghost predicate DispatchErred(procs: seq<Process>, t: string) {
    exists i :: 0 <= i < |procs| && DispatchFailure(procs[i], t)
  }

  /** Every stored state is explained by the log or by the creator. */
  ghost predicate Justified(db: Db, procs: seq<Process>, t: string)
    requires t in db.tasks
  {
    match db.tasks[t].state
    case Pending => true
    case Completed => db.Logged(t, TaskCompleted)
    case Timeout => db.Logged(t, TaskTimeout)
    case Failed => db.Logged(t, TaskFailed) || DispatchErred(procs, t)
    case Running => db.Logged(t, TaskStarted) || RunningWritten(procs, t)
  }

  /** `context` itself passes the policy, when there is one. */
  predicate AdmittedContext(cfg: Config, context: PolicyContext) {
    cfg.policy.Some? ==>
      var v := Policy.Evaluate(cfg.policy.value, PolicyRequestOf(context.user, context.team, context.modelAllowed));
      v.allowed && !v.err
  }

  ghost predicate Admitted(cfg: Config, s: Sys) {
    && (forall t :: t in s.db.tasks ==> AdmittedContext(cfg, s.db.tasks[t].context))
    && (forall i :: 0 <= i < |s.procs| && s.procs[i].Insert? ==> AdmittedContext(cfg, s.procs[i].row.context))
  }

  ghost predicate Inv(s: Sys) {
    && TablesOk(s.db)
    && (forall i :: 0 <= i < |s.procs| ==> ProcessOk(s.db, s.procs[i]))
    && OneOwner(s.procs)
    && (forall t :: t in s.db.tasks ==> Justified(s.db, s.procs, t))
  }

  // ---------------------------------------------------------------- One step

  /** How the tables may move in any single step. */
  ghost predicate Grows(db: Db, db': Db) {
    && (forall t :: t in db.tasks ==> t in db'.tasks && db'.tasks[t] == db.tasks[t].(state := db'.tasks[t].state))
    && (forall t :: t in db.tokens ==> t in db'.tokens)
    && db.events <= db'.events
  }

  lemma AdvanceGrows(cfg: Config, db: Db, p: Process, c: Choice)
    ensures Grows(db, Advance(cfg, db, p, c).db)
  {
    AdvanceGrowsTasks(cfg, db, p, c);
    AdvanceGrowsTokens(cfg, db, p, c);
  }

  lemma AdvanceGrowsTasks(cfg: Config, db: Db, p: Process, c: Choice)
    ensures var db' := Advance(cfg, db, p, c).db;
            forall t :: t in db.tasks ==> t in db'.tasks && db'.tasks[t] == db.tasks[t].(state := db'.tasks[t].state)
  {
    var id, state := AdvanceTasks(cfg, db, p, c);
  }

  /** `p` is at a statement that writes the state of task `id`. */
  predicate WritesState(p: Process, id: string) {
    ((p.MarkRunning? || p.RollbackState?) && p.row.id == id) || (p.SetState? && p.event.taskId == id)
  }

  /** A step inserts one task, rewrites one task's state, or leaves the table alone. */
  lemma AdvanceTasks(cfg: Config, db: Db, p: Process, c: Choice) returns (id: string, state: TaskState)
    ensures var tasks' := Advance(cfg, db, p, c).db.tasks;
            || tasks' == db.tasks
            || (p.Insert? && p.row.id !in db.tasks && tasks' == db.tasks[p.row.id := p.row])
            || (WritesState(p, id) && id in db.tasks && tasks' == db.tasks[id := db.tasks[id].(state := state)])
  {
    match p
    case MarkRunning(row, _, _) => id, state := row.id, Running;
    case RollbackState(row, _) => id, state := row.id, Failed;
    case SetState(e) =>
      id, state := e.taskId, if e.kind.Target().Some? then e.kind.Target().value else Running;
    case _ => id, state := "", Running;
  }

  lemma AdvanceGrowsTokens(cfg: Config, db: Db, p: Process, c: Choice)
    ensures var db' := Advance(cfg, db, p, c).db;
            (forall t :: t in db.tokens ==> t in db'.tokens) && db.events <= db'.events
  {
  }

  lemma LoggedGrows(db: Db, db': Db, t: string, k: EventType)
    requires Grows(db, db') && db.Logged(t, k)
    ensures db'.Logged(t, k)
  {
  }

  /** The log grows only by an appending process's own event, and never repeats an id. */
  lemma AdvanceEvents(cfg: Config, db: Db, p: Process, c: Choice)
    ensures var db' := Advance(cfg, db, p, c).db;
            || db'.events == db.events
            || (p.Append? && !db.HasEvent(p.event.id) && p.event.taskId in db.tasks && !p.event.kind.Unlisted? &&
                db'.events == db.events + [p.event])
  {
  }

  /** A step mints the token of the row it holds, revokes one token, or leaves the table alone. */
  lemma AdvanceTokens(cfg: Config, db: Db, p: Process, c: Choice) returns (id: string)
    ensures var tokens' := Advance(cfg, db, p, c).db.tokens;
            || tokens' == db.tokens
            || (p.Mint? && p.row.id in db.tasks && c.token.Some? &&
                tokens' == db.tokens[p.row.id := TokenRow(Sha256(c.token.value), false)])
            || (id in db.tokens && tokens' == db.tokens[id := db.tokens[id].(revoked := true)])
  {
    match p
    case RollbackToken(row, _) => id := row.id;
    case Revoke(e) => id := e.taskId;
    case _ => id := "";
  }

  lemma AdvanceKeys(cfg: Config, db: Db, p: Process, c: Choice)
    requires TablesOk(db)
    ensures var db' := Advance(cfg, db, p, c).db;
            && (forall t :: t in db'.tasks ==> db'.tasks[t].id == t)
            && (forall t :: t in db'.tokens ==> t in db'.tasks)
  {
    AdvanceGrows(cfg, db, p, c);
    var written, state := AdvanceTasks(cfg, db, p, c);
    var id := AdvanceTokens(cfg, db, p, c);
  }

  lemma AdvanceTablesOk(cfg: Config, db: Db, p: Process, c: Choice)
    requires TablesOk(db) && ProcessOk(db, p)
    ensures TablesOk(Advance(cfg, db, p, c).db)
  {
    var db' := Advance(cfg, db, p, c).db;
    AdvanceGrows(cfg, db, p, c);
    AdvanceKeys(cfg, db, p, c);
    AdvanceEvents(cfg, db, p, c);
    EventIdsStayUnique(db, db', p);
  }

  lemma EventIdsStayUnique(db: Db, db': Db, p: Process)
    requires TablesOk(db)
    requires || db'.events == db.events
             || (p.Append? && !db.HasEvent(p.event.id) && db'.events == db.events + [p.event])
    ensures forall i, j :: 0 <= i < j < |db'.events| ==> db'.events[i].id != db'.events[j].id
  {
  }

  lemma AdvanceProcessOk(cfg: Config, db: Db, p: Process, c: Choice)
    requires TablesOk(db) && ProcessOk(db, p)
    ensures ProcessOk(Advance(cfg, db, p, c).db, Advance(cfg, db, p, c).process)
  {
    if p.Append? || p.SetState? || p.Revoke? || p.Verify? {
      HandlerStaysOk(cfg, db, p, c);
    } else {
      CreatorStaysOk(cfg, db, p, c);
    }
  }

  lemma CreatorStaysOk(cfg: Config, db: Db, p: Process, c: Choice)
    requires TablesOk(db) && ProcessOk(db, p)
    requires !p.Append? && !p.SetState? && !p.Revoke? && !p.Verify?
    ensures ProcessOk(Advance(cfg, db, p, c).db, Advance(cfg, db, p, c).process)
  {
  }

  lemma HandlerStaysOk(cfg: Config, db: Db, p: Process, c: Choice)
    requires TablesOk(db) && ProcessOk(db, p)
    requires p.Append? || p.SetState? || p.Revoke? || p.Verify?
    ensures ProcessOk(Advance(cfg, db, p, c).db, Advance(cfg, db, p, c).process)
  {
    var turn := Advance(cfg, db, p, c);
    if p.Append? && turn.process.SetState? {
      assert turn.db.events[|db.events|] == p.event;
    } else if p.SetState? && turn.process.Revoke? {
      assert turn.db.events == db.events;
    }
  }

  /** Another process's step cannot break what `q` relies on, unless both own one task. */
  lemma AdvanceOthersOk(cfg: Config, db: Db, p: Process, c: Choice, q: Process)
    requires TablesOk(db) && ProcessOk(db, p) && ProcessOk(db, q)
    requires forall t :: p.Owns(t) ==> !q.Owns(t)
    ensures ProcessOk(Advance(cfg, db, p, c).db, q)
  {
    AdvanceGrows(cfg, db, p, c);
    var id := AdvanceTokens(cfg, db, p, c);
    if q.Mint? && p.Mint? {
      assert p.Owns(p.row.id) && q.Owns(q.row.id);
    }
    StaysOk(db, Advance(cfg, db, p, c).db, q);
  }

  /** Growing tables keep what an idle process relies on, unless its task gets a token before it mints. */
  lemma StaysOk(db: Db, db': Db, q: Process)
    requires ProcessOk(db, q) && Grows(db, db')
    requires q.Mint? ==> q.row.id !in db'.tokens
    ensures ProcessOk(db', q)
  {
    if q.SetState? || q.Revoke? {
      LoggedGrows(db, db', q.event.taskId, q.event.kind);
    }
  }

  /** A process becomes the owner of a task only by inserting a row that was not there. */
  lemma AdvanceOwner(cfg: Config, db: Db, p: Process, c: Choice, t: string)
    requires Advance(cfg, db, p, c).process.Owns(t)
    ensures p.Owns(t) || (t !in db.tasks && p.Insert? && p.row.id == t)
  {
  }

  lemma AdvanceKeepsWitness(cfg: Config, db: Db, p: Process, c: Choice, t: string)
    ensures SchedulerWrote(p, t) ==> SchedulerWrote(Advance(cfg, db, p, c).process, t)
    ensures DispatchFailure(p, t) ==> DispatchFailure(Advance(cfg, db, p, c).process, t)
  {
  }

  lemma WitnessSurvives(cfg: Config, s: Sys, i: nat, c: Choice, t: string)
    requires i < |s.procs|
    ensures RunningWritten(s.procs, t) ==> RunningWritten(Next(cfg, s, Go(i, c)).procs, t)
    ensures DispatchErred(s.procs, t) ==> DispatchErred(Next(cfg, s, Go(i, c)).procs, t)
  {
    AdvanceKeepsWitness(cfg, s.db, s.procs[i], c, t);
    var procs' := Next(cfg, s, Go(i, c)).procs;
    if k :| 0 <= k < |s.procs| && SchedulerWrote(s.procs[k], t) {
      assert SchedulerWrote(procs'[k], t);
    }
    if k :| 0 <= k < |s.procs| && DispatchFailure(s.procs[k], t) {
      assert DispatchFailure(procs'[k], t);
    }
  }

  /** Only four kinds of step write a task's state, and each brings its own justification. */
  lemma AdvanceStateWrite(cfg: Config, db: Db, p: Process, c: Choice, t: string)
    requires TablesOk(db) && ProcessOk(db, p)
    requires t in db.tasks && t in Advance(cfg, db, p, c).db.tasks
    requires Advance(cfg, db, p, c).db.tasks[t].state != db.tasks[t].state
    ensures var turn := Advance(cfg, db, p, c);
            var state := turn.db.tasks[t].state;
            || (state == Running && SchedulerWrote(turn.process, t))
            || (state == Failed && DispatchFailure(turn.process, t))
            || (p.SetState? && p.event.taskId == t && p.event.kind.Target() == Some(state) &&
                db.Logged(t, p.event.kind))
  {
  }

  lemma JustifiedCarries(cfg: Config, s: Sys, i: nat, c: Choice, t: string)
    requires i < |s.procs| && t in s.db.tasks && Justified(s.db, s.procs, t)
    requires var s' := Next(cfg, s, Go(i, c)); t in s'.db.tasks && s'.db.tasks[t].state == s.db.tasks[t].state
    ensures Justified(Next(cfg, s, Go(i, c)).db, Next(cfg, s, Go(i, c)).procs, t)
  {
    var s' := Next(cfg, s, Go(i, c));
    AdvanceGrows(cfg, s.db, s.procs[i], c);
    WitnessSurvives(cfg, s, i, c, t);
    forall k | s.db.Logged(t, k) ensures s'.db.Logged(t, k) {
      LoggedGrows(s.db, s'.db, t, k);
    }
  }

  lemma AdvanceInserts(cfg: Config, db: Db, p: Process, c: Choice, t: string)
    requires ProcessOk(db, p)
    requires t !in db.tasks && t in Advance(cfg, db, p, c).db.tasks
    ensures p.Insert? && Advance(cfg, db, p, c).db.tasks[t] == p.row && p.row.state.Pending?
  {
  }

  lemma GoJustified(cfg: Config, s: Sys, i: nat, c: Choice, t: string)
    requires Inv(s) && i < |s.procs|
    requires t in Next(cfg, s, Go(i, c)).db.tasks
    ensures Justified(Next(cfg, s, Go(i, c)).db, Next(cfg, s, Go(i, c)).procs, t)
  {
    var p := s.procs[i];
    assert ProcessOk(s.db, p);
    var turn := Advance(cfg, s.db, p, c);
    var s' := Next(cfg, s, Go(i, c));
    assert s'.procs[i] == turn.process && s'.db == turn.db;
    if t !in s.db.tasks {
      AdvanceInserts(cfg, s.db, p, c, t);
    } else if s'.db.tasks[t].state == s.db.tasks[t].state {
      JustifiedCarries(cfg, s, i, c, t);
    } else {
      AdvanceStateWrite(cfg, s.db, p, c, t);
      AdvanceGrows(cfg, s.db, p, c);
      if p.SetState? && s.db.Logged(t, p.event.kind) {
        LoggedGrows(s.db, s'.db, t, p.event.kind);
      }
    }
  }

  lemma GoOneOwner(cfg: Config, s: Sys, i: nat, c: Choice)
    requires Inv(s) && i < |s.procs|
    ensures OneOwner(Next(cfg, s, Go(i, c)).procs)
  {
    var procs' := Next(cfg, s, Go(i, c)).procs;
    forall j, k, t | 0 <= j < k < |procs'| && procs'[j].Owns(t) ensures !procs'[k].Owns(t) {
      if procs'[i].Owns(t) {
        AdvanceOwner(cfg, s.db, s.procs[i], c, t);
      }
    }
  }

  lemma GoProcessesOk(cfg: Config, s: Sys, i: nat, c: Choice)
    requires Inv(s) && i < |s.procs|
    ensures var s' := Next(cfg, s, Go(i, c)); forall k :: 0 <= k < |s'.procs| ==> ProcessOk(s'.db, s'.procs[k])
  {
    var s' := Next(cfg, s, Go(i, c));
    forall k | 0 <= k < |s'.procs| ensures ProcessOk(s'.db, s'.procs[k]) {
      if k == i {
        AdvanceProcessOk(cfg, s.db, s.procs[i], c);
      } else {
        AdvanceOthersOk(cfg, s.db, s.procs[i], c, s.procs[k]);
      }
    }
  }

  lemma BeginInv(s: Sys, p: Process)
    requires Inv(s) && (p.Lookup? || p.Verify?)
    ensures Inv(s.(procs := s.procs + [p]))
  {
    var procs' := s.procs + [p];
    forall t | t in s.db.tasks ensures Justified(s.db, procs', t) {
      if i :| 0 <= i < |s.procs| && SchedulerWrote(s.procs[i], t) {
        assert SchedulerWrote(procs'[i], t);
      }
      if i :| 0 <= i < |s.procs| && DispatchFailure(s.procs[i], t) {
        assert DispatchFailure(procs'[i], t);
      }
    }
  }

  lemma SkillSyncInv(s: Sys, skill: Skill)
    requires Inv(s)
    ensures Inv(s.(db := UpsertSkill(s.db, skill)))
  {
  }

  lemma InvStep(cfg: Config, s: Sys, a: Action)
    requires Inv(s)
    ensures Inv(Next(cfg, s, a))
  {
    match a
    case BeginCreate(req) => BeginInv(s, Lookup(req));
    case BeginEvent(req) => BeginInv(s, Verify(req));
    case SkillSync(skill) => SkillSyncInv(s, skill);
    case Go(i, c) =>
      if i < |s.procs| {
        AdvanceTablesOk(cfg, s.db, s.procs[i], c);
        GoProcessesOk(cfg, s, i, c);
        GoOneOwner(cfg, s, i, c);
        forall t | t in Next(cfg, s, a).db.tasks ensures Justified(Next(cfg, s, a).db, Next(cfg, s, a).procs, t) {
          GoJustified(cfg, s, i, c, t);
        }
      }
  }

  // ---------------------------------------------------------------- Whole runs

  ghost predicate Reachable(cfg: Config, s: Sys) {
    exists actions :: Run(cfg, START, actions) == s
  }

  lemma {:induction false} InvRun(cfg: Config, s: Sys, actions: seq<Action>)
    requires Inv(s)
    ensures Inv(Run(cfg, s, actions))
    decreases |actions|
  {
    if actions != [] {
      InvStep(cfg, s, actions[0]);
      InvRun(cfg, Next(cfg, s, actions[0]), actions[1..]);
    }
  }

  lemma ReachableInv(cfg: Config, s: Sys)
    requires Reachable(cfg, s)
    ensures Inv(s)
  {
    var actions :| Run(cfg, START, actions) == s;
    InvRun(cfg, START, actions);
  }

  /**
   Audit justification: in every reachable state a completed or timed-out task has
   the matching event, a failed one has task.failed or a creator whose dispatch
   failed, and a running one has task.started or a creator that wrote it.
   */
  lemma AuditJustification(cfg: Config, s: Sys, t: string)
    requires Reachable(cfg, s) && t in s.db.tasks
    ensures s.db.tasks[t].state == Completed ==> s.db.Logged(t, TaskCompleted)
    ensures s.db.tasks[t].state == Timeout ==> s.db.Logged(t, TaskTimeout)
    ensures s.db.tasks[t].state == Failed ==>
              s.db.Logged(t, TaskFailed) ||
              exists i :: 0 <= i < |s.procs| && DispatchFailure(s.procs[i], t)
    ensures s.db.tasks[t].state == Running ==>
              s.db.Logged(t, TaskStarted) ||
              exists i :: 0 <= i < |s.procs| && SchedulerWrote(s.procs[i], t)
  {
    ReachableInv(cfg, s);
    assert Justified(s.db, s.procs, t);
  }

  /**
   The upsert in StoreAgentToken never meets an existing row, so it never
   un-revokes one: whoever is about to store a token of `t` is the only process that
   won the insertion of `t`, and `t` has no token yet.
   */
  lemma TokenUpsertAlwaysInserts(cfg: Config, s: Sys, i: nat)
    requires Reachable(cfg, s) && i < |s.procs| && s.procs[i].Mint?
    ensures s.procs[i].row.id in s.db.tasks && s.procs[i].row.id !in s.db.tokens
    ensures forall j :: 0 <= j < |s.procs| && j != i ==> !s.procs[j].Owns(s.procs[i].row.id)
  {
    ReachableInv(cfg, s);
    assert s.procs[i].Owns(s.procs[i].row.id);
  }

  lemma TokenStep(cfg: Config, s: Sys, a: Action, t: string)
    requires Inv(s) && t in s.db.tokens
    ensures var s' := Next(cfg, s, a);
            t in s'.db.tokens &&
            (s'.db.tokens[t] == s.db.tokens[t] || s'.db.tokens[t] == s.db.tokens[t].(revoked := true))
  {
    if a.Go? && a.proc < |s.procs| {
      assert ProcessOk(s.db, s.procs[a.proc]);
    }
  }

  /** A stored digest never changes and a revocation is never undone. */
  lemma {:induction false} RevocationIsPermanent(cfg: Config, s: Sys, actions: seq<Action>, t: string)
    requires Inv(s) && t in s.db.tokens
    ensures var s' := Run(cfg, s, actions);
            t in s'.db.tokens && s'.db.tokens[t].digest == s.db.tokens[t].digest &&
            (s.db.tokens[t].revoked ==> s'.db.tokens[t].revoked)
    decreases |actions|
  {
    if actions != [] {
      TokenStep(cfg, s, actions[0], t);
      InvStep(cfg, s, actions[0]);
      RevocationIsPermanent(cfg, Next(cfg, s, actions[0]), actions[1..], t);
    }
  }

  // ---------------------------------------------------------------- Admission

  lemma AdvanceOffers(cfg: Config, db: Db, p: Process, c: Choice)
    requires p.Insert? ==> AdmittedContext(cfg, p.row.context)
    ensures var p' := Advance(cfg, db, p, c).process; p'.Insert? ==> AdmittedContext(cfg, p'.row.context)
  {
  }

  lemma AdmittedStep(cfg: Config, s: Sys, a: Action)
    requires Inv(s) && Admitted(cfg, s)
    ensures Admitted(cfg, Next(cfg, s, a))
  {
    if a.Go? && a.proc < |s.procs| {
      var p := s.procs[a.proc];
      var s' := Next(cfg, s, a);
      assert ProcessOk(s.db, p);
      AdvanceGrows(cfg, s.db, p, a.choice);
      AdvanceOffers(cfg, s.db, p, a.choice);
      forall t | t in s'.db.tasks ensures AdmittedContext(cfg, s'.db.tasks[t].context) {
        if t !in s.db.tasks {
          AdvanceInserts(cfg, s.db, p, a.choice, t);
        }
      }
    }
  }

  lemma {:induction false} AdmittedRun(cfg: Config, s: Sys, actions: seq<Action>)
    requires Inv(s) && Admitted(cfg, s)
    ensures Admitted(cfg, Run(cfg, s, actions))
    decreases |actions|
  {
    if actions != [] {
      AdmittedStep(cfg, s, actions[0]);
      InvStep(cfg, s, actions[0]);
      AdmittedRun(cfg, Next(cfg, s, actions[0]), actions[1..]);
    }
  }

  /**
   With a fixed rule list, no stored task was refused: for the request made of its
   stored user, its stored team and the first of its stored models, no tool and no
   cost, the first rule that matches, if any, is an allow.  So it is whatever skill
   upserts and state changes ran beside its creation.
   */
  lemma StoredTasksAreAdmitted(cfg: Config, s: Sys, t: string, rules: seq<Policy.Rule>,
                               q: Policy.PolicyRequest, i: nat)
    requires Reachable(cfg, s) && t in s.db.tasks && cfg.policy == Some(rules)
    requires var context := s.db.tasks[t].context;
             && q.user == context.user && q.team == context.team
             && q.model == (if context.modelAllowed == [] then "" else context.modelAllowed[0])
             && q.tool == "" && q.costUsd == "0"
    requires Policy.FirstMatch(rules, q, i)
    ensures rules[i].action.Allow?
  {
    var actions :| Run(cfg, START, actions) == s;
    AdmittedRun(cfg, START, actions);
    Policy.EvaluateAtFirstMatch(rules, q, i);
  }
}

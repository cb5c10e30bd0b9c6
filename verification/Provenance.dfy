/**
 Where stored rows come from, over whole runs: every task row was asked for by a
 creation request, every logged event was sent by an event request that presented
 the task's own token, and what a finished call answered is what the tables hold.
 */
module Provenance {
  import opened Prelude
  import opened Storage
  import opened Lifecycle
  import opened LifecycleInvariant
  import opened LifecycleFinality

  // ---------------------------------------------------------------- Sources among the actions

  /** The row carries what the request asked for, and the defaults where it asked for nothing. */
  predicate MadeFrom(row: Task, req: CreateRequest) {
    && row.skillName == req.skillName && row.parameters == req.parameters
    && row.context.user == req.user && row.context.team == req.team
    && row.runtime == (if req.runtime == "" then "local" else req.runtime)
    && row.deadlineSecs == (if req.deadlineSecs <= 0 then 300 else req.deadlineSecs)
  }

  /** Action `i` asked for the row, and step `j` drew its id and read the clock for it. */
  ghost predicate RowFrom(actions: seq<Action>, row: Task, i: nat, j: nat) {
    && i < |actions| && actions[i].BeginCreate? && MadeFrom(row, actions[i].create)
    && j < |actions| && actions[j].Go? && actions[j].choice.freshId == row.id && actions[j].choice.now == row.createdAt
  }

  /** Action `i` upserted a skill of this name with these models. */
  ghost predicate SkillFrom(actions: seq<Action>, name: string, models: seq<string>, i: nat) {
    && i < |actions| && actions[i].SkillSync?
    && actions[i].skill.name == name && actions[i].skill.requiredModels == models
  }

  ghost predicate SkillSynced(actions: seq<Action>, name: string, models: seq<string>) {
    exists i: nat :: SkillFrom(actions, name, models, i)
  }

  /** Some request asked for the row, and its models are those that its skill once had. */
  ghost predicate TaskRequested(actions: seq<Action>, row: Task) {
    && (exists i: nat, j: nat :: RowFrom(actions, row, i, j))
    && SkillSynced(actions, row.skillName, row.context.modelAllowed)
  }

  /**
   Action `i` sent the event with the token of this digest, and step `j` read the clock
   for it, and drew its id if the request gave none.
   */
  ghost predicate EventFrom(actions: seq<Action>, e: Event, digest: Digest, i: nat, j: nat) {
    && i < |actions| && actions[i].BeginEvent?
    && var req := actions[i].event;
    && req.presented == digest && req.taskId == e.taskId && req.kind == e.kind && req.payload == e.payload
    && j < |actions| && actions[j].Go? && actions[j].choice.now == e.createdAt
    && e.id == (if req.id == "" then actions[j].choice.freshId else req.id)
  }

  ghost predicate EventSent(actions: seq<Action>, e: Event, digest: Digest) {
    exists i: nat, j: nat :: EventFrom(actions, e, digest, i, j)
  }

  lemma SourcesStay(actions: seq<Action>, a: Action)
    ensures forall row :: TaskRequested(actions, row) ==> TaskRequested(actions + [a], row)
    ensures forall name, models :: SkillSynced(actions, name, models) ==> SkillSynced(actions + [a], name, models)
    ensures forall e, d :: EventSent(actions, e, d) ==> EventSent(actions + [a], e, d)
  {
    forall name, models | SkillSynced(actions, name, models) ensures SkillSynced(actions + [a], name, models) {
      var i: nat :| SkillFrom(actions, name, models, i);
      assert SkillFrom(actions + [a], name, models, i);
    }
    forall row | TaskRequested(actions, row) ensures TaskRequested(actions + [a], row) {
      var i: nat, j: nat :| RowFrom(actions, row, i, j);
      assert RowFrom(actions + [a], row, i, j);
    }
    forall e, d | EventSent(actions, e, d) ensures EventSent(actions + [a], e, d) {
      var i: nat, j: nat :| EventFrom(actions, e, d, i, j);
      assert EventFrom(actions + [a], e, d, i, j);
    }
  }

  // ---------------------------------------------------------------- The invariant

  ghost predicate TablesSourced(actions: seq<Action>, db: Db) {
    && (forall name :: name in db.skills ==> SkillSynced(actions, name, db.skills[name].requiredModels))
    && (forall t :: t in db.tasks ==> TaskRequested(actions, db.tasks[t].(state := Pending)))
    && (forall i :: 0 <= i < |db.events| ==>
          db.events[i].taskId in db.tokens &&
          EventSent(actions, db.events[i], db.tokens[db.events[i].taskId].digest))
  }

  /** What a process holds was asked for by the request that began it. */
  ghost predicate ProcessSourced(actions: seq<Action>, db: Db, p: Process) {
    match p
    case Lookup(req) => BeginCreate(req) in actions
    case Admit(req, skill) => BeginCreate(req) in actions && SkillSynced(actions, req.skillName, skill.requiredModels)
    case Insert(row) => row.state == Pending && TaskRequested(actions, row)
    case Verify(req) => BeginEvent(req) in actions
    case Append(e) => e.taskId in db.tokens && EventSent(actions, e, db.tokens[e.taskId].digest)
    case _ => true
  }

  ghost predicate Sourced(actions: seq<Action>, s: Sys) {
    TablesSourced(actions, s.db) && forall i :: 0 <= i < |s.procs| ==> ProcessSourced(actions, s.db, s.procs[i])
  }

  /** Digests stay, so an event's sender stays authentic. */
  ghost predicate DigestsStay(db: Db, db': Db) {
    forall t :: t in db.tokens ==> t in db'.tokens && db'.tokens[t].digest == db.tokens[t].digest
  }

  lemma StepKeepsDigests(cfg: Config, s: Sys, a: Action)
    requires Inv(s)
    ensures DigestsStay(s.db, Next(cfg, s, a).db)
  {
    forall t | t in s.db.tokens
      ensures t in Next(cfg, s, a).db.tokens && Next(cfg, s, a).db.tokens[t].digest == s.db.tokens[t].digest
    {
      TokenStep(cfg, s, a, t);
    }
  }

  lemma ProcessStaysSourced(actions: seq<Action>, a: Action, db: Db, db': Db, p: Process)
    requires ProcessSourced(actions, db, p) && DigestsStay(db, db')
    ensures ProcessSourced(actions + [a], db', p)
  {
    SourcesStay(actions, a);
  }

  /** A creator that is admitted holds a row made from its request. */
  lemma AdmitSourced(cfg: Config, actions: seq<Action>, i: nat, db: Db, req: CreateRequest, skill: Skill, c: Choice)
    requires ProcessSourced(actions, db, Admit(req, skill))
    ensures ProcessSourced(actions + [Go(i, c)], db, Advance(cfg, db, Admit(req, skill), c).process)
  {
    SourcesStay(actions, Go(i, c));
    var p := Advance(cfg, db, Admit(req, skill), c).process;
    if p.Insert? {
      var k :| 0 <= k < |actions| && actions[k] == BeginCreate(req);
      assert RowFrom(actions + [Go(i, c)], p.row, k, |actions|);
    }
  }

  /** A handler that passes verification holds an event sent with the stored token. */
  lemma VerifySourced(cfg: Config, actions: seq<Action>, i: nat, db: Db, req: EventRequest, c: Choice)
    requires ProcessSourced(actions, db, Verify(req))
    ensures ProcessSourced(actions + [Go(i, c)], db, Advance(cfg, db, Verify(req), c).process)
  {
    var p := Advance(cfg, db, Verify(req), c).process;
    if p.Append? {
      var k :| 0 <= k < |actions| && actions[k] == BeginEvent(req);
      assert EventFrom(actions + [Go(i, c)], p.event, db.tokens[req.taskId].digest, k, |actions|);
    }
  }

  lemma LookupSourced(cfg: Config, actions: seq<Action>, a: Action, db: Db, req: CreateRequest, c: Choice)
    requires TablesSourced(actions, db) && BeginCreate(req) in actions
    ensures ProcessSourced(actions + [a], db, Advance(cfg, db, Lookup(req), c).process)
  {
    SourcesStay(actions, a);
  }

  /** Past its insertion or its append, a process holds nothing that could still enter a table as a new row. */
  lemma PastInsertion(cfg: Config, db: Db, p: Process, c: Choice)
    requires !p.Lookup? && !p.Admit? && !p.Verify?
    ensures var p' := Advance(cfg, db, p, c).process;
            !p'.Lookup? && !p'.Admit? && !p'.Insert? && !p'.Verify? && !p'.Append?
  {
  }

  lemma GoProcessSourced(cfg: Config, actions: seq<Action>, s: Sys, i: nat, c: Choice)
    requires Inv(s) && Sourced(actions, s) && i < |s.procs|
    ensures var turn := Advance(cfg, s.db, s.procs[i], c);
            ProcessSourced(actions + [Go(i, c)], turn.db, turn.process)
  {
    var p := s.procs[i];
    assert ProcessSourced(actions, s.db, p);
    if p.Lookup? {
      LookupSourced(cfg, actions, Go(i, c), s.db, p.create, c);
    } else if p.Admit? {
      AdmitSourced(cfg, actions, i, s.db, p.create, p.skill, c);
    } else if p.Verify? {
      VerifySourced(cfg, actions, i, s.db, p.request, c);
    } else {
      PastInsertion(cfg, s.db, p, c);
    }
  }

  lemma AdvanceSkills(cfg: Config, db: Db, p: Process, c: Choice)
    ensures Advance(cfg, db, p, c).db.skills == db.skills
  {
  }

  lemma GoTasksSourced(cfg: Config, actions: seq<Action>, s: Sys, i: nat, c: Choice)
    requires Inv(s) && Sourced(actions, s) && i < |s.procs|
    ensures var db' := Advance(cfg, s.db, s.procs[i], c).db;
            forall t :: t in db'.tasks ==> TaskRequested(actions, db'.tasks[t].(state := Pending))
  {
    var p := s.procs[i];
    var db' := Advance(cfg, s.db, p, c).db;
    assert ProcessSourced(actions, s.db, p) && ProcessOk(s.db, p);
    AdvanceGrows(cfg, s.db, p, c);
    forall t | t in db'.tasks ensures TaskRequested(actions, db'.tasks[t].(state := Pending)) {
      if t !in s.db.tasks {
        AdvanceInserts(cfg, s.db, p, c, t);
        assert p.row.(state := Pending) == p.row;
      } else {
        assert db'.tasks[t].(state := Pending) == s.db.tasks[t].(state := Pending);
      }
    }
  }

  lemma GoEventsSourced(cfg: Config, actions: seq<Action>, s: Sys, i: nat, c: Choice)
    requires Inv(s) && Sourced(actions, s) && i < |s.procs|
    ensures var db' := Advance(cfg, s.db, s.procs[i], c).db;
            forall k :: 0 <= k < |db'.events| ==>
              db'.events[k].taskId in db'.tokens &&
              EventSent(actions, db'.events[k], db'.tokens[db'.events[k].taskId].digest)
  {
    assert ProcessSourced(actions, s.db, s.procs[i]);
    StepKeepsDigests(cfg, s, Go(i, c));
    AdvanceEvents(cfg, s.db, s.procs[i], c);
    EventsStaySourced(actions, s.db, Next(cfg, s, Go(i, c)).db, s.procs[i]);
  }

  lemma EventsStaySourced(actions: seq<Action>, db: Db, db': Db, p: Process)
    requires TablesSourced(actions, db) && ProcessSourced(actions, db, p) && DigestsStay(db, db')
    requires db'.events == db.events || (p.Append? && db'.events == db.events + [p.event])
    ensures forall k :: 0 <= k < |db'.events| ==>
              db'.events[k].taskId in db'.tokens &&
              EventSent(actions, db'.events[k], db'.tokens[db'.events[k].taskId].digest)
  {
  }

  lemma GoTablesSourced(cfg: Config, actions: seq<Action>, s: Sys, i: nat, c: Choice)
    requires Inv(s) && Sourced(actions, s) && i < |s.procs|
    ensures TablesSourced(actions + [Go(i, c)], Advance(cfg, s.db, s.procs[i], c).db)
  {
    AdvanceSkills(cfg, s.db, s.procs[i], c);
    GoTasksSourced(cfg, actions, s, i, c);
    GoEventsSourced(cfg, actions, s, i, c);
    SourcesStay(actions, Go(i, c));
  }

  lemma SourcedStep(cfg: Config, actions: seq<Action>, s: Sys, a: Action)
    requires Inv(s) && Sourced(actions, s)
    ensures Sourced(actions + [a], Next(cfg, s, a))
  {
    var s' := Next(cfg, s, a);
    StepKeepsDigests(cfg, s, a);
    SourcesStay(actions, a);
    assert (actions + [a])[|actions|] == a;
    match a {
      case Go(i, c) =>
        if i < |s.procs| {
          GoTablesSourced(cfg, actions, s, i, c);
          GoProcessSourced(cfg, actions, s, i, c);
        }
      case SkillSync(skill) =>
        assert SkillFrom(actions + [a], skill.name, skill.requiredModels, |actions|);
      case _ =>
    }
    forall k | 0 <= k < |s'.procs| ensures ProcessSourced(actions + [a], s'.db, s'.procs[k]) {
      if k < |s.procs| && s'.procs[k] == s.procs[k] {
        ProcessStaysSourced(actions, a, s.db, s'.db, s.procs[k]);
      }
    }
  }

  lemma {:induction false} RunSourced(cfg: Config, actions: seq<Action>)
    ensures Sourced(actions, Run(cfg, START, actions))
    decreases |actions|
  {
    if actions != [] {
      var n := |actions| - 1;
      RunSourced(cfg, actions[..n]);
      InvRun(cfg, START, actions[..n]);
      assert actions == actions[..n] + [actions[n]];
      RunConcat(cfg, START, actions[..n], [actions[n]]);
      RunOne(cfg, Run(cfg, START, actions[..n]), actions[n]);
      SourcedStep(cfg, actions[..n], Run(cfg, START, actions[..n]), actions[n]);
    }
  }

  // ---------------------------------------------------------------- Main results

  /**
   Every stored task was asked for: some creation request of the run has its skill,
   parameters, user, team, runtime and deadline (or got the defaults), and its models
   are those that a skill of that name was given by some upsert.
   */
  lemma StoredTasksAreRequested(cfg: Config, actions: seq<Action>, t: string)
    requires t in Run(cfg, START, actions).db.tasks
    ensures var row := Run(cfg, START, actions).db.tasks[t];
            && (exists i :: 0 <= i < |actions| && actions[i].BeginCreate? && MadeFrom(row, actions[i].create))
            && (exists j :: 0 <= j < |actions| && actions[j].Go? &&
                  actions[j].choice.freshId == t && actions[j].choice.now == row.createdAt)
            && SkillSynced(actions, row.skillName, row.context.modelAllowed)
  {
    RunSourced(cfg, actions);
    InvRun(cfg, START, actions);
    var row := Run(cfg, START, actions).db.tasks[t];
    var i: nat, j: nat :| RowFrom(actions, row.(state := Pending), i, j);
    assert MadeFrom(row, actions[i].create);
  }

  /**
   Every logged event is authentic: its task has a token row, and some event request of
   the run sent exactly this task, type and payload, and the id unless it was generated,
   presenting the digest in that row.
   */
  lemma LoggedEventsAreAuthentic(cfg: Config, actions: seq<Action>, k: nat)
    requires k < |Run(cfg, START, actions).db.events|
    ensures var db := Run(cfg, START, actions).db;
            db.events[k].taskId in db.tokens &&
            EventSent(actions, db.events[k], db.tokens[db.events[k].taskId].digest)
  {
    RunSourced(cfg, actions);
  }

  // ---------------------------------------------------------------- Answers tell the truth

  /** What a process knows about the tables at its program counter, or has answered. */
  ghost predicate Truthful(cfg: Config, db: Db, p: Process) {
    && (p.Owner() ==> p.row.id in db.tasks && db.tasks[p.row.id] == p.row.(state := db.tasks[p.row.id].state))
    && match p
       case Dispatch(row, token) => TokenIs(db, row.id, token)
       case MarkRunning(row, token, _) => TokenIs(db, row.id, token) && RuntimeKnown(cfg, row)
       case RollbackState(row, cause) => cfg.runtimes.Some? && (cause == RuntimeNotFound <==> !RuntimeKnown(cfg, row))
       case RollbackToken(row, cause) => cfg.runtimes.Some? && (cause == RuntimeNotFound <==> !RuntimeKnown(cfg, row))
       case Created(row, Accepted(token, externalId)) =>
         && TokenIs(db, row.id, token)
         && (externalId.Some? <==> cfg.runtimes.Some?) && (externalId.Some? ==> RuntimeKnown(cfg, row))
       case Created(row, DispatchFailed(cause)) =>
         cfg.runtimes.Some? && (cause == RuntimeNotFound <==> !RuntimeKnown(cfg, row))
       case SetState(e) => e in db.events
       case Revoke(e) => e in db.events
       case Answered(Recorded(id)) => exists i :: 0 <= i < |db.events| && db.events[i].id == id
       case _ => true
  }

  predicate TokenIs(db: Db, t: string, token: string) { t in db.tokens && db.tokens[t].digest == Sha256(token) }

  predicate RuntimeKnown(cfg: Config, row: Task) { cfg.runtimes.Some? && row.runtime in cfg.runtimes.value }

  ghost predicate AllTruthful(cfg: Config, s: Sys) {
    forall i :: 0 <= i < |s.procs| ==> Truthful(cfg, s.db, s.procs[i])
  }

  lemma StaysTruthful(cfg: Config, db: Db, db': Db, p: Process)
    requires Truthful(cfg, db, p) && Grows(db, db') && DigestsStay(db, db')
    ensures Truthful(cfg, db', p)
  {
  }

  lemma HandlerTruthful(cfg: Config, db: Db, p: Process, c: Choice)
    requires Truthful(cfg, db, p) && (p.Verify? || p.Append? || p.SetState? || p.Revoke? || p.Answered?)
    ensures Truthful(cfg, Advance(cfg, db, p, c).db, Advance(cfg, db, p, c).process)
  {
    if p.Append? {
      var db' := Advance(cfg, db, p, c).db;
      assert db'.events == db.events + [p.event] ==> db'.events[|db.events|] == p.event;
    }
  }

  lemma CreatorTruthful(cfg: Config, db: Db, p: Process, c: Choice)
    requires Truthful(cfg, db, p) && ProcessOk(db, p)
    requires !p.Verify? && !p.Append? && !p.SetState? && !p.Revoke? && !p.Answered?
    ensures Truthful(cfg, Advance(cfg, db, p, c).db, Advance(cfg, db, p, c).process)
  {
  }

  lemma TruthfulStep(cfg: Config, s: Sys, a: Action)
    requires Inv(s) && AllTruthful(cfg, s)
    ensures AllTruthful(cfg, Next(cfg, s, a))
  {
    var s' := Next(cfg, s, a);
    StepKeepsDigests(cfg, s, a);
    if a.Go? && a.proc < |s.procs| {
      var p := s.procs[a.proc];
      AdvanceGrows(cfg, s.db, p, a.choice);
      if p.Verify? || p.Append? || p.SetState? || p.Revoke? || p.Answered? {
        HandlerTruthful(cfg, s.db, p, a.choice);
      } else {
        CreatorTruthful(cfg, s.db, p, a.choice);
      }
    }
    forall k | 0 <= k < |s'.procs| ensures Truthful(cfg, s'.db, s'.procs[k]) {
      if k < |s.procs| && s'.procs[k] == s.procs[k] {
        StaysTruthful(cfg, s.db, s'.db, s.procs[k]);
      }
    }
  }

  lemma {:induction false} TruthfulRun(cfg: Config, s: Sys, actions: seq<Action>)
    requires Inv(s) && AllTruthful(cfg, s)
    ensures AllTruthful(cfg, Run(cfg, s, actions))
    decreases |actions|
  {
    if actions != [] {
      TruthfulStep(cfg, s, actions[0]);
      InvStep(cfg, s, actions[0]);
      TruthfulRun(cfg, Next(cfg, s, actions[0]), actions[1..]);
    }
  }

  /** In every interleaving, 201 with an id means that an event with that id is in the log. */
  lemma RecordedMeansLogged(cfg: Config, s: Sys, i: nat)
    requires Reachable(cfg, s) && i < |s.procs| && s.procs[i].Answered? && s.procs[i].status.Recorded?
    ensures exists k :: 0 <= k < |s.db.events| && s.db.events[k].id == s.procs[i].status.id
  {
    var actions :| Run(cfg, START, actions) == s;
    TruthfulRun(cfg, START, actions);
    assert Truthful(cfg, s.db, s.procs[i]);
  }

  /**
   In every interleaving, a creation answered with a token has stored its row and the
   digest of that very token, and came with an external id exactly if there is a
   scheduler, which then knows its runtime.
   */
  lemma AcceptedMeansStored(cfg: Config, s: Sys, i: nat)
    requires Reachable(cfg, s) && i < |s.procs| && s.procs[i].Created? && s.procs[i].outcome.Accepted?
    ensures var row, answer := s.procs[i].row, s.procs[i].outcome;
            && row.id in s.db.tasks && s.db.tasks[row.id] == row.(state := s.db.tasks[row.id].state)
            && row.id in s.db.tokens && s.db.tokens[row.id].digest == Sha256(answer.token)
            && (answer.externalId.Some? <==> cfg.runtimes.Some?)
            && (cfg.runtimes.Some? ==> row.runtime in cfg.runtimes.value)
  {
    var actions :| Run(cfg, START, actions) == s;
    TruthfulRun(cfg, START, actions);
    assert Truthful(cfg, s.db, s.procs[i]);
  }

  /** In every interleaving, "runtime not found" is answered exactly by failed dispatches to an unknown runtime. */
  lemma NotFoundExactlyWhen(cfg: Config, s: Sys, i: nat)
    requires Reachable(cfg, s) && i < |s.procs| && s.procs[i].Created? && s.procs[i].outcome.DispatchFailed?
    ensures cfg.runtimes.Some?
    ensures s.procs[i].outcome.cause == RuntimeNotFound <==> s.procs[i].row.runtime !in cfg.runtimes.value
  {
    var actions :| Run(cfg, START, actions) == s;
    TruthfulRun(cfg, START, actions);
    assert Truthful(cfg, s.db, s.procs[i]);
  }
}

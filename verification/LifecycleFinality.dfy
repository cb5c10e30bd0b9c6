/**
 When a task is final.  UpdateTaskState is unconditional, so a terminal state
 alone does not make one; this module gives the exact condition under which a
 task with a revoked token never changes again, and bounds what stragglers can
 still record.
 */
module LifecycleFinality {
  import opened Prelude
  import opened Storage
  import opened Lifecycle
  import opened LifecycleInvariant

  /** State, token row and event log of `t` are the same in both. */
  ghost predicate Same(db: Db, db': Db, t: string)
    requires t in db.tasks && t in db.tokens
  {
    && t in db'.tasks && t in db'.tokens
    && db'.tasks[t].state == db.tasks[t].state
    && db'.tokens[t] == db.tokens[t]
    && LogOf(db'.events, t) == LogOf(db.events, t)
  }

  ghost predicate Frozen(cfg: Config, s: Sys, t: string)
    requires t in s.db.tasks && t in s.db.tokens
  {
    forall actions :: Same(s.db, Run(cfg, s, actions).db, t)
  }

  /** `p` still has a write to `t` to make that would change it. */
  predicate ArmedProcess(cfg: Config, db: Db, t: string, p: Process)
    requires t in db.tasks
  {
    match p
    case Append(e) => e.taskId == t && !e.kind.Unlisted? && !db.HasEvent(e.id)
    case SetState(e) => e.taskId == t && e.kind.Target().Some? && e.kind.Target().value != db.tasks[t].state
    case Dispatch(row, _) =>
      row.id == t && cfg.runtimes.Some? && (db.tasks[t].state != Failed || row.runtime in cfg.runtimes.value)
    case MarkRunning(row, _, _) => row.id == t
    case RollbackState(row, _) => row.id == t && db.tasks[t].state != Failed
    case _ => false
  }

  ghost predicate Armed(cfg: Config, s: Sys, t: string)
    requires t in s.db.tasks
  {
    exists i :: 0 <= i < |s.procs| && ArmedProcess(cfg, s.db, t, s.procs[i])
  }

  // ---------------------------------------------------------------- Not armed: frozen

  lemma UnarmedAdvance(cfg: Config, db: Db, p: Process, c: Choice, t: string)
    requires TablesOk(db) && ProcessOk(db, p) && db.Revoked(t)
    requires !ArmedProcess(cfg, db, t, p)
    ensures var turn := Advance(cfg, db, p, c);
            && t in turn.db.tasks && t in turn.db.tokens
            && turn.db.tasks[t].state == db.tasks[t].state
            && turn.db.tokens[t] == db.tokens[t]
            && !ArmedProcess(cfg, turn.db, t, turn.process)
  {
    UnarmedStaysUnarmed(cfg, db, p, c, t);
  }

  lemma UnarmedStaysUnarmed(cfg: Config, db: Db, p: Process, c: Choice, t: string)
    requires TablesOk(db) && ProcessOk(db, p) && db.Revoked(t)
    requires !ArmedProcess(cfg, db, t, p)
    ensures var turn := Advance(cfg, db, p, c);
            t in turn.db.tasks && !ArmedProcess(cfg, turn.db, t, turn.process)
  {
  }

  lemma UnarmedLog(cfg: Config, db: Db, p: Process, c: Choice, t: string)
    requires TablesOk(db) && t in db.tasks && !ArmedProcess(cfg, db, t, p)
    ensures LogOf(Advance(cfg, db, p, c).db.events, t) == LogOf(db.events, t)
  {
    AdvanceEvents(cfg, db, p, c);
    if p.Append? {
      LogOfAppend(db.events, p.event, t);
    }
  }

  /** An idle process stays unarmed while the state of `t` does not move. */
  lemma OthersStayUnarmed(cfg: Config, db: Db, db': Db, t: string, q: Process)
    requires t in db.tasks && t in db'.tasks && db'.tasks[t].state == db.tasks[t].state
    requires db.events <= db'.events
    requires !ArmedProcess(cfg, db, t, q)
    ensures !ArmedProcess(cfg, db', t, q)
  {
  }

  lemma UnarmedStep(cfg: Config, s: Sys, a: Action, t: string)
    requires Inv(s) && s.db.Revoked(t) && !Armed(cfg, s, t)
    ensures var s' := Next(cfg, s, a);
            Same(s.db, s'.db, t) && s'.db.Revoked(t) && !Armed(cfg, s', t)
  {
    var s' := Next(cfg, s, a);
    match a
    case Go(i, c) =>
      if i < |s.procs| {
        UnarmedAdvance(cfg, s.db, s.procs[i], c, t);
        UnarmedLog(cfg, s.db, s.procs[i], c, t);
        AdvanceGrows(cfg, s.db, s.procs[i], c);
        forall k | 0 <= k < |s'.procs| ensures !ArmedProcess(cfg, s'.db, t, s'.procs[k]) {
          if k != i {
            OthersStayUnarmed(cfg, s.db, s'.db, t, s.procs[k]);
          }
        }
      }
    case SkillSync(skill) =>
      forall k | 0 <= k < |s'.procs| ensures !ArmedProcess(cfg, s'.db, t, s'.procs[k]) {
        OthersStayUnarmed(cfg, s.db, s'.db, t, s.procs[k]);
      }
    case _ =>
      forall k | 0 <= k < |s'.procs| ensures !ArmedProcess(cfg, s'.db, t, s'.procs[k]) {
        assert k < |s.procs| ==> !ArmedProcess(cfg, s.db, t, s.procs[k]);
      }
  }

  lemma {:induction false} UnarmedRun(cfg: Config, s: Sys, actions: seq<Action>, t: string)
    requires Inv(s) && s.db.Revoked(t) && !Armed(cfg, s, t)
    ensures Same(s.db, Run(cfg, s, actions).db, t)
    decreases |actions|
  {
    if actions != [] {
      InvStep(cfg, s, actions[0]);
      UnarmedStep(cfg, s, actions[0], t);
      UnarmedRun(cfg, Next(cfg, s, actions[0]), actions[1..], t);
    }
  }

  // ---------------------------------------------------------------- Armed: not frozen

  const HEALTHY := Choice(Healthy, "", 0, None, Some(""))
  const LOST := Choice(LostBefore, "", 0, None, None)

  lemma RunOne(cfg: Config, s: Sys, a: Action)
    ensures Run(cfg, s, [a]) == Next(cfg, s, a)
  {
  }

  lemma RunTwo(cfg: Config, s: Sys, a: Action, b: Action)
    ensures Run(cfg, s, [a, b]) == Next(cfg, Next(cfg, s, a), b)
  {
    assert [a, b][1..] == [b];
    RunOne(cfg, Next(cfg, s, a), b);
  }

  /** Actions after which `t` has changed, given an armed process. */
  lemma ArmedChanges(cfg: Config, s: Sys, i: nat, t: string) returns (actions: seq<Action>)
    requires Inv(s) && s.db.Revoked(t) && i < |s.procs| && ArmedProcess(cfg, s.db, t, s.procs[i])
    ensures !Same(s.db, Run(cfg, s, actions).db, t)
    decreases s.procs[i].Dispatch?, s.procs[i].MarkRunning?
  {
    var p := s.procs[i];
    match p {
      case Append(e) =>
        actions := [Go(i, HEALTHY)];
        RunOne(cfg, s, Go(i, HEALTHY));
        LogOfAppend(s.db.events, e, t);
        assert |LogOf(s.db.events + [e], t)| > |LogOf(s.db.events, t)|;
      case SetState(e) =>
        actions := [Go(i, HEALTHY)];
        RunOne(cfg, s, Go(i, HEALTHY));
      case RollbackState(row, _) =>
        actions := [Go(i, HEALTHY)];
        RunOne(cfg, s, Go(i, HEALTHY));
      case MarkRunning(row, _, _) =>
        if s.db.tasks[t].state == Running {
          actions := [Go(i, LOST), Go(i, HEALTHY)];
          RunTwo(cfg, s, Go(i, LOST), Go(i, HEALTHY));
        } else {
          actions := [Go(i, HEALTHY)];
          RunOne(cfg, s, Go(i, HEALTHY));
        }
      case Dispatch(row, token) =>
        var c := if s.db.tasks[t].state == Failed then HEALTHY else LOST;
        var s' := Next(cfg, s, Go(i, c));
        InvStep(cfg, s, Go(i, c));
        var rest := ArmedChanges(cfg, s', i, t);
        actions := [Go(i, c)] + rest;
        assert actions[1..] == rest;
    }
  }

  /**
   Finality, exactly: a task with a revoked token never changes again in any
   continuation if and only if no process is armed against it.
   */
  lemma RevokedTaskFrozenExactlyWhen(cfg: Config, s: Sys, t: string)
    requires Reachable(cfg, s) && s.db.Revoked(t)
    ensures t in s.db.tasks
    ensures Frozen(cfg, s, t) <==> !Armed(cfg, s, t)
  {
    ReachableInv(cfg, s);
    if Armed(cfg, s, t) {
      var i :| 0 <= i < |s.procs| && ArmedProcess(cfg, s.db, t, s.procs[i]);
      var actions := ArmedChanges(cfg, s, i, t);
    } else {
      forall actions ensures Same(s.db, Run(cfg, s, actions).db, t) {
        UnarmedRun(cfg, s, actions, t);
      }
    }
  }

  /** In particular: no handler of `t` past verification and its creator finished. */
  lemma QuietRevokedTaskFrozen(cfg: Config, s: Sys, t: string)
    requires Reachable(cfg, s) && s.db.Revoked(t)
    requires forall i :: 0 <= i < |s.procs| ==> !s.procs[i].PastVerify(t) && !s.procs[i].Creating(t)
    ensures t in s.db.tasks && Frozen(cfg, s, t)
  {
    RevokedTaskFrozenExactlyWhen(cfg, s, t);
  }

  // ---------------------------------------------------------------- Replays and stragglers

  /** A handler of a revoked task that has not verified yet can only be refused. */
  lemma RevokedTokenIsRefused(cfg: Config, db: Db, req: EventRequest, c: Choice)
    requires db.Revoked(req.taskId)
    ensures Advance(cfg, db, Verify(req), c) ==
            Turn(db, Answered(if c.fault.Healthy? then Unauthorized else VerifyFailed))
  {
  }

  /** A handler of `t` that has verified but not yet appended. */
  predicate Straggling(p: Process, t: string) { p.Append? && p.event.taskId == t }

  ghost function Stragglers(s: Sys, t: string): nat {
    CountIf(s.procs, (p: Process) => Straggling(p, t))
  }

  /** No step makes a straggler, and an event costs one. */
  lemma StragglerAdvance(cfg: Config, db: Db, p: Process, c: Choice, t: string)
    requires db.Revoked(t)
    ensures var turn := Advance(cfg, db, p, c);
            && (Straggling(turn.process, t) ==> Straggling(p, t) && turn.db.events == db.events)
            && |LogOf(turn.db.events, t)| <= |LogOf(db.events, t)| + (if Straggling(p, t) then 1 else 0)
            && (Straggling(p, t) ==> !Straggling(turn.process, t))
  {
    AdvanceEvents(cfg, db, p, c);
    if p.Append? {
      LogOfAppend(db.events, p.event, t);
    }
  }

  lemma StragglerStep(cfg: Config, s: Sys, a: Action, t: string)
    requires Inv(s) && s.db.Revoked(t)
    ensures var s' := Next(cfg, s, a);
            |LogOf(s'.db.events, t)| + Stragglers(s', t) <= |LogOf(s.db.events, t)| + Stragglers(s, t)
  {
    var pending := (p: Process) => Straggling(p, t);
    match a
    case Go(i, c) =>
      if i < |s.procs| {
        StragglerAdvance(cfg, s.db, s.procs[i], c, t);
        CountIfUpdate(s.procs, i, Advance(cfg, s.db, s.procs[i], c).process, pending);
      }
    case BeginCreate(req) => CountIfAppend(s.procs, Lookup(req), pending);
    case BeginEvent(req) => CountIfAppend(s.procs, Verify(req), pending);
    case SkillSync(_) =>
  }

  /**
   Once the token of `t` is revoked, the events recorded for `t` from then on are
   at most the handlers that had verified but not appended at that moment.
   */
  lemma {:induction false} EventsAfterRevocationBounded(cfg: Config, s: Sys, actions: seq<Action>, t: string)
    requires Inv(s) && s.db.Revoked(t)
    ensures var s' := Run(cfg, s, actions);
            |LogOf(s'.db.events, t)| + Stragglers(s', t) <= |LogOf(s.db.events, t)| + Stragglers(s, t)
    decreases |actions|
  {
    if actions != [] {
      StragglerStep(cfg, s, actions[0], t);
      InvStep(cfg, s, actions[0]);
      TokenStep(cfg, s, actions[0], t);
      EventsAfterRevocationBounded(cfg, Next(cfg, s, actions[0]), actions[1..], t);
    }
  }

  /** The stragglers of `t` carry listed kinds and ids that are fresh and distinct. */
  ghost predicate StragglersLandable(s: Sys, t: string) {
    && (forall i :: 0 <= i < |s.procs| && Straggling(s.procs[i], t) ==>
          !s.procs[i].event.kind.Unlisted? && !s.db.HasEvent(s.procs[i].event.id))
    && (forall i, j :: 0 <= i < j < |s.procs| && Straggling(s.procs[i], t) && Straggling(s.procs[j], t) ==>
          s.procs[i].event.id != s.procs[j].event.id)
  }

  lemma LandOne(cfg: Config, s: Sys, i: nat, t: string)
    requires Inv(s) && StragglersLandable(s, t)
    requires i < |s.procs| && Straggling(s.procs[i], t)
    ensures var s' := Next(cfg, s, Go(i, HEALTHY));
            && StragglersLandable(s', t)
            && Stragglers(s', t) == Stragglers(s, t) - 1
            && |LogOf(s'.db.events, t)| == |LogOf(s.db.events, t)| + 1
  {
    var e := s.procs[i].event;
    var s' := Next(cfg, s, Go(i, HEALTHY));
    assert ProcessOk(s.db, s.procs[i]);
    assert s'.db.events == s.db.events + [e];
    LogOfAppend(s.db.events, e, t);
    CountIfUpdate(s.procs, i, s'.procs[i], (p: Process) => Straggling(p, t));
    forall k | 0 <= k < |s'.procs| && Straggling(s'.procs[k], t)
      ensures !s'.db.HasEvent(s'.procs[k].event.id)
    {
      assert s'.procs[k] == s.procs[k] && k != i;
      assert s.procs[k].event.id != e.id;
    }
  }

  /** The bound is attained: landable stragglers can all still be recorded. */
  lemma {:induction false} StragglersCanAllLand(cfg: Config, s: Sys, t: string) returns (actions: seq<Action>)
    requires Inv(s) && StragglersLandable(s, t)
    ensures |LogOf(Run(cfg, s, actions).db.events, t)| == |LogOf(s.db.events, t)| + Stragglers(s, t)
    decreases Stragglers(s, t)
  {
    var pending := (p: Process) => Straggling(p, t);
    CountIfPositive(s.procs, pending);
    if Stragglers(s, t) == 0 {
      actions := [];
    } else {
      var i :| 0 <= i < |s.procs| && pending(s.procs[i]);
      var a := Go(i, HEALTHY);
      LandOne(cfg, s, i, t);
      InvStep(cfg, s, a);
      var rest := StragglersCanAllLand(cfg, Next(cfg, s, a), t);
      actions := [a] + rest;
      assert actions[1..] == rest;
    }
  }
}

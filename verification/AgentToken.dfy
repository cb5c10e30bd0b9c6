/**
 What the stored token is worth when nobody presents it.  CreateTask stores one
 token and returns it to its caller; the drivers hand the agent another one.  So
 long as no event request for a task carries the stored token, the task records
 nothing and, once dispatched, runs for ever.
 */
module AgentToken {
  import opened Prelude
  import opened Storage
  import opened Lifecycle
  import opened LifecycleInvariant

  /** The digest in the token row of `t`, if there is one. */
  function StoredDigest(db: Db, t: string): Option<Digest> {
    if t in db.tokens then Some(db.tokens[t].digest) else None
  }

  /** No event request for `t` among the actions carries the token with digest `d`. */
  ghost predicate NobodyPresents(actions: seq<Action>, t: string, d: Option<Digest>) {
    forall i :: 0 <= i < |actions| && actions[i].BeginEvent? && actions[i].event.taskId == t ==>
      Some(actions[i].event.presented) != d
  }

  /** A process that cannot get an event of `t` past verification against `d`. */
  predicate Unheard(p: Process, t: string, d: Option<Digest>) {
    && !p.PastVerify(t)
    && (p.Verify? && p.request.taskId == t ==> Some(p.request.presented) != d)
  }

  /** The creator of `t` was answered with success after a dispatch. */
  predicate Launched(p: Process, t: string) {
    p.Owns(t) && p.Created? && p.outcome.Accepted? && p.outcome.externalId.Some?
  }

  ghost predicate Silent(s: Sys, t: string, d: Option<Digest>) {
    && (forall i :: 0 <= i < |s.db.events| ==> s.db.events[i].taskId != t)
    && (forall i :: 0 <= i < |s.procs| ==> Unheard(s.procs[i], t, d))
    && (forall i :: 0 <= i < |s.procs| && Launched(s.procs[i], t) ==>
          t in s.db.tasks && s.db.tasks[t].state == Running)
  }

  lemma UnheardAdvance(cfg: Config, db: Db, p: Process, c: Choice, t: string, d: Option<Digest>)
    requires Unheard(p, t, d) && (t in db.tokens ==> StoredDigest(db, t) == d)
    ensures Unheard(Advance(cfg, db, p, c).process, t, d)
  {
  }

  /** A process becomes launched only by the write of the state running. */
  lemma LaunchingAdvance(cfg: Config, db: Db, p: Process, c: Choice, t: string)
    requires !Launched(p, t) && Launched(Advance(cfg, db, p, c).process, t)
    ensures var db' := Advance(cfg, db, p, c).db; t in db'.tasks && db'.tasks[t].state == Running
  {
  }

  /** Beside a launched creator of `t` nobody else writes its state, when no handler of `t` has verified. */
  lemma LaunchedStateStays(cfg: Config, db: Db, p: Process, c: Choice, t: string)
    requires TablesOk(db) && ProcessOk(db, p) && t in db.tasks && !p.PastVerify(t)
    requires p.Owns(t) ==> Launched(p, t)
    ensures var db' := Advance(cfg, db, p, c).db; t in db'.tasks && db'.tasks[t].state == db.tasks[t].state
  {
    AdvanceGrows(cfg, db, p, c);
    var id, state := AdvanceTasks(cfg, db, p, c);
  }

  lemma SilentStep(cfg: Config, s: Sys, a: Action, t: string, d: Option<Digest>)
    requires Inv(s) && Silent(s, t, d) && NobodyPresents([a], t, d)
    requires t in s.db.tokens ==> StoredDigest(s.db, t) == d
    ensures Silent(Next(cfg, s, a), t, d)
  {
    var s' := Next(cfg, s, a);
    assert a == [a][0];
    if a.Go? && a.proc < |s.procs| {
      var p := s.procs[a.proc];
      UnheardAdvance(cfg, s.db, p, a.choice, t, d);
      AdvanceEvents(cfg, s.db, p, a.choice);
      forall k | 0 <= k < |s'.procs| && Launched(s'.procs[k], t)
        ensures t in s'.db.tasks && s'.db.tasks[t].state == Running
      {
        if Launched(s.procs[k], t) {
          assert s.procs[k].Owns(t) && (k != a.proc ==> !p.Owns(t));
          LaunchedStateStays(cfg, s.db, p, a.choice, t);
        } else {
          LaunchingAdvance(cfg, s.db, p, a.choice, t);
        }
      }
    }
  }

  lemma {:induction false} SilentRun(cfg: Config, s: Sys, actions: seq<Action>, t: string, d: Option<Digest>)
    requires Inv(s) && Silent(s, t, d) && NobodyPresents(actions, t, d)
    requires var db' := Run(cfg, s, actions).db; t in db'.tokens ==> StoredDigest(db', t) == d
    ensures Silent(Run(cfg, s, actions), t, d)
    decreases |actions|
  {
    if actions != [] {
      if t in s.db.tokens {
        RevocationIsPermanent(cfg, s, actions, t);
      }
      SilentStep(cfg, s, actions[0], t, d);
      InvStep(cfg, s, actions[0]);
      SilentRun(cfg, Next(cfg, s, actions[0]), actions[1..], t, d);
    }
  }

  lemma {:induction false} NoEventsNoLog(events: seq<Event>, t: string)
    requires forall i :: 0 <= i < |events| ==> events[i].taskId != t
    ensures LogOf(events, t) == []
  {
    if events != [] {
      NoEventsNoLog(events[..|events| - 1], t);
    }
  }

  /**
   The log of `t` is empty; its state is neither completed nor timeout, failed only if
   its creator's dispatch failed, and running if its creator answered with success
   after a dispatch.
   */
  ghost predicate NothingReported(s: Sys, t: string) {
    && LogOf(s.db.events, t) == []
    && (t in s.db.tasks ==> s.db.tasks[t].state != Completed && s.db.tasks[t].state != Timeout)
    && (t in s.db.tasks && s.db.tasks[t].state == Failed ==> DispatchErred(s.procs, t))
    && (forall i :: 0 <= i < |s.procs| && Launched(s.procs[i], t) ==>
          t in s.db.tasks && s.db.tasks[t].state == Running)
  }

  lemma UnheldTokenAtTheEnd(cfg: Config, actions: seq<Action>, t: string)
    requires NobodyPresents(actions, t, StoredDigest(Run(cfg, START, actions).db, t))
    ensures NothingReported(Run(cfg, START, actions), t)
  {
    var s := Run(cfg, START, actions);
    SilentRun(cfg, START, actions, t, StoredDigest(s.db, t));
    NoEventsNoLog(s.db.events, t);
    if t in s.db.tasks {
      AuditJustification(cfg, s, t);
    }
  }

  /**
   When no event request for `t` in a run presents the digest that the run stores for
   `t`, nothing is ever reported for `t`: at every moment of the run.
   */
  lemma UnheldTokenIsSilent(cfg: Config, before: seq<Action>, after: seq<Action>, t: string)
    requires NobodyPresents(before + after, t, StoredDigest(Run(cfg, START, before + after).db, t))
    ensures NothingReported(Run(cfg, START, before), t)
  {
    var s := Run(cfg, START, before);
    RunConcat(cfg, START, before, after);
    InvRun(cfg, START, before);
    if t in s.db.tokens {
      RevocationIsPermanent(cfg, s, after, t);
    }
    assert forall i :: 0 <= i < |before| ==> (before + after)[i] == before[i];
    UnheldTokenAtTheEnd(cfg, before, t);
  }
}

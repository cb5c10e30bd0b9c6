/**
 When the state of a task is final.  The API document draws completed, failed and
 timeout as the ends of a task's life; UpdateTaskState overwrites them like any
 other state.  This module gives the exact condition under which the state of a
 task is the same in every continuation, for every interleaving and every failure.
 */
module TerminalFinality {
  import opened Prelude
  import opened Storage
  import opened Lifecycle
  import opened LifecycleInvariant
  import opened LifecycleFinality

  ghost predicate StateFrozen(cfg: Config, s: Sys, t: string)
    requires t in s.db.tasks
  {
    forall actions ::
      var db' := Run(cfg, s, actions).db;
      t in db'.tasks && db'.tasks[t].state == s.db.tasks[t].state
  }

  /**
   `p` still has a write to make that changes the state of `t`, or opens the way to
   one.  An event still to be recorded counts only if its type asks for another state.
   */
  predicate StateArmedProcess(cfg: Config, db: Db, t: string, p: Process)
    requires t in db.tasks
  {
    match p
    case Append(e) => ArmedProcess(cfg, db, t, p) && e.kind.Target().Some? && e.kind.Target().value != db.tasks[t].state
    case Mint(row) => row.id == t
    case _ => ArmedProcess(cfg, db, t, p)
  }

  ghost predicate StateArmed(cfg: Config, s: Sys, t: string)
    requires t in s.db.tasks
  {
    exists i :: 0 <= i < |s.procs| && StateArmedProcess(cfg, s.db, t, s.procs[i])
  }

  // ---------------------------------------------------------------- No live token, not armed: frozen

  lemma RevokedAdvance(cfg: Config, db: Db, p: Process, c: Choice, t: string)
    requires TablesOk(db) && ProcessOk(db, p) && db.Revoked(t)
    requires !StateArmedProcess(cfg, db, t, p)
    ensures var turn := Advance(cfg, db, p, c);
            && t in turn.db.tasks && turn.db.tasks[t].state == db.tasks[t].state
            && turn.db.Revoked(t) && !StateArmedProcess(cfg, turn.db, t, turn.process)
  {
    if p.Append? {
      AppendAdvance(cfg, db, p, c, t);
    } else {
      UnarmedAdvance(cfg, db, p, c, t);
    }
  }

  /** Recording an event touches no state, and leaves at most a write of the state the event asks for. */
  lemma AppendAdvance(cfg: Config, db: Db, p: Process, c: Choice, t: string)
    requires p.Append? && t in db.tasks && !StateArmedProcess(cfg, db, t, p)
    ensures var turn := Advance(cfg, db, p, c);
            && turn.db.tasks == db.tasks && turn.db.tokens == db.tokens
            && !StateArmedProcess(cfg, turn.db, t, turn.process)
  {
  }

  lemma TokenlessRows(cfg: Config, db: Db, p: Process, c: Choice, t: string)
    requires TablesOk(db) && ProcessOk(db, p) && t in db.tasks && t !in db.tokens
    requires !StateArmedProcess(cfg, db, t, p)
    ensures var db' := Advance(cfg, db, p, c).db;
            t in db'.tasks && db'.tasks[t].state == db.tasks[t].state && t !in db'.tokens
  {
    var written, state := AdvanceTasks(cfg, db, p, c);
    var id := AdvanceTokens(cfg, db, p, c);
  }

  /** Only inserting or minting makes a creator of `t`, and only a token lets a handler of `t` pass. */
  lemma TokenlessProcess(cfg: Config, db: Db, p: Process, c: Choice, t: string)
    requires ProcessOk(db, p) && t in db.tasks && t !in db.tokens
    requires !(p.Mint? && p.row.id == t)
    ensures var p' := Advance(cfg, db, p, c).process;
            !p'.PastVerify(t) && !p'.Creating(t)
  {
  }

  /** Without a token row nobody but a minting creator can do anything to `t`. */
  lemma TokenlessAdvance(cfg: Config, db: Db, p: Process, c: Choice, t: string)
    requires TablesOk(db) && ProcessOk(db, p) && t in db.tasks && t !in db.tokens
    requires !StateArmedProcess(cfg, db, t, p)
    ensures var turn := Advance(cfg, db, p, c);
            && t in turn.db.tasks && turn.db.tasks[t].state == db.tasks[t].state
            && t !in turn.db.tokens && !StateArmedProcess(cfg, turn.db, t, turn.process)
  {
    TokenlessRows(cfg, db, p, c, t);
    TokenlessProcess(cfg, db, p, c, t);
  }

  lemma StateUnarmedAdvance(cfg: Config, db: Db, p: Process, c: Choice, t: string)
    requires TablesOk(db) && ProcessOk(db, p) && t in db.tasks && !db.Live(t)
    requires !StateArmedProcess(cfg, db, t, p)
    ensures var turn := Advance(cfg, db, p, c);
            && t in turn.db.tasks && turn.db.tasks[t].state == db.tasks[t].state
            && !turn.db.Live(t) && !StateArmedProcess(cfg, turn.db, t, turn.process)
  {
    if t in db.tokens {
      RevokedAdvance(cfg, db, p, c, t);
    } else {
      TokenlessAdvance(cfg, db, p, c, t);
    }
  }

  /** An idle process stays unarmed while the state of `t` does not move. */
  lemma OthersStayStateUnarmed(cfg: Config, db: Db, db': Db, t: string, q: Process)
    requires t in db.tasks && t in db'.tasks && db'.tasks[t].state == db.tasks[t].state
    requires db.events <= db'.events
    requires !StateArmedProcess(cfg, db, t, q)
    ensures !StateArmedProcess(cfg, db', t, q)
  {
  }

  lemma StateUnarmedStep(cfg: Config, s: Sys, a: Action, t: string)
    requires Inv(s) && t in s.db.tasks && !s.db.Live(t) && !StateArmed(cfg, s, t)
    ensures var s' := Next(cfg, s, a);
            && t in s'.db.tasks && s'.db.tasks[t].state == s.db.tasks[t].state
            && !s'.db.Live(t) && !StateArmed(cfg, s', t)
  {
    var s' := Next(cfg, s, a);
    if a.Go? && a.proc < |s.procs| {
      StateUnarmedAdvance(cfg, s.db, s.procs[a.proc], a.choice, t);
      AdvanceGrows(cfg, s.db, s.procs[a.proc], a.choice);
    }
    forall k | 0 <= k < |s'.procs| ensures !StateArmedProcess(cfg, s'.db, t, s'.procs[k]) {
      if k < |s.procs| && s'.procs[k] == s.procs[k] {
        OthersStayStateUnarmed(cfg, s.db, s'.db, t, s.procs[k]);
      }
    }
  }

  lemma {:induction false} StateUnarmedRun(cfg: Config, s: Sys, actions: seq<Action>, t: string)
    requires Inv(s) && t in s.db.tasks && !s.db.Live(t) && !StateArmed(cfg, s, t)
    ensures var db' := Run(cfg, s, actions).db;
            t in db'.tasks && db'.tasks[t].state == s.db.tasks[t].state
    decreases |actions|
  {
    if actions != [] {
      InvStep(cfg, s, actions[0]);
      StateUnarmedStep(cfg, s, actions[0], t);
      StateUnarmedRun(cfg, Next(cfg, s, actions[0]), actions[1..], t);
    }
  }

  // ---------------------------------------------------------------- Otherwise: not frozen

  /** The state of `t` is another one after the actions. */
  ghost predicate Moves(cfg: Config, s: Sys, actions: seq<Action>, t: string)
    requires t in s.db.tasks
  {
    var db' := Run(cfg, s, actions).db;
    t in db'.tasks && db'.tasks[t].state != s.db.tasks[t].state
  }

  /** A first step that leaves the state alone, then actions that move it. */
  lemma MovesLater(cfg: Config, s: Sys, a: Action, rest: seq<Action>, t: string)
    requires t in s.db.tasks && t in Next(cfg, s, a).db.tasks
    requires Next(cfg, s, a).db.tasks[t].state == s.db.tasks[t].state
    requires Moves(cfg, Next(cfg, s, a), rest, t)
    ensures Moves(cfg, s, [a] + rest, t)
  {
    assert ([a] + rest)[1..] == rest;
  }

  lemma SetStateMoves(cfg: Config, s: Sys, i: nat, t: string) returns (actions: seq<Action>)
    requires t in s.db.tasks && i < |s.procs|
    requires s.procs[i].SetState? && StateArmedProcess(cfg, s.db, t, s.procs[i])
    ensures Moves(cfg, s, actions, t)
  {
    actions := [Go(i, HEALTHY)];
    RunOne(cfg, s, Go(i, HEALTHY));
  }

  lemma AppendMoves(cfg: Config, s: Sys, i: nat, t: string) returns (actions: seq<Action>)
    requires t in s.db.tasks && i < |s.procs|
    requires s.procs[i].Append? && StateArmedProcess(cfg, s.db, t, s.procs[i])
    ensures Moves(cfg, s, actions, t)
  {
    var a := Go(i, HEALTHY);
    var rest := SetStateMoves(cfg, Next(cfg, s, a), i, t);
    MovesLater(cfg, s, a, rest, t);
    actions := [a] + rest;
  }

  lemma RollbackMoves(cfg: Config, s: Sys, i: nat, t: string) returns (actions: seq<Action>)
    requires t in s.db.tasks && i < |s.procs|
    requires s.procs[i].RollbackState? && StateArmedProcess(cfg, s.db, t, s.procs[i])
    ensures Moves(cfg, s, actions, t)
  {
    actions := [Go(i, HEALTHY)];
    RunOne(cfg, s, Go(i, HEALTHY));
  }

  lemma MarkRunningMoves(cfg: Config, s: Sys, i: nat, t: string) returns (actions: seq<Action>)
    requires t in s.db.tasks && i < |s.procs|
    requires s.procs[i].MarkRunning? && StateArmedProcess(cfg, s.db, t, s.procs[i])
    ensures Moves(cfg, s, actions, t)
  {
    if s.db.tasks[t].state == Running {
      var rest := RollbackMoves(cfg, Next(cfg, s, Go(i, LOST)), i, t);
      MovesLater(cfg, s, Go(i, LOST), rest, t);
      actions := [Go(i, LOST)] + rest;
    } else {
      actions := [Go(i, HEALTHY)];
      RunOne(cfg, s, Go(i, HEALTHY));
    }
  }

  lemma DispatchMoves(cfg: Config, s: Sys, i: nat, t: string) returns (actions: seq<Action>)
    requires t in s.db.tasks && i < |s.procs|
    requires s.procs[i].Dispatch? && StateArmedProcess(cfg, s.db, t, s.procs[i])
    ensures Moves(cfg, s, actions, t)
  {
    var a := Go(i, if s.db.tasks[t].state == Failed then HEALTHY else LOST);
    var s' := Next(cfg, s, a);
    var rest;
    if s'.procs[i].MarkRunning? {
      rest := MarkRunningMoves(cfg, s', i, t);
    } else {
      rest := RollbackMoves(cfg, s', i, t);
    }
    MovesLater(cfg, s, a, rest, t);
    actions := [a] + rest;
  }

  ghost function LongestId(events: seq<Event>): (n: nat)
    ensures forall i :: 0 <= i < |events| ==> |events[i].id| <= n
  {
    if events == [] then 0
    else
      var n, last := LongestId(events[..|events| - 1]), |events[|events| - 1].id|;
      if n < last then last else n
  }

  lemma FreshEventId(db: Db) returns (id: string)
    ensures id != "" && !db.HasEvent(id)
  {
    id := seq(LongestId(db.events) + 1, _ => 'x');
  }

  /** Whoever holds the token of `t` can move its state, whatever it is: terminal or not. */
  lemma LiveTokenMoves(cfg: Config, s: Sys, t: string) returns (actions: seq<Action>)
    requires t in s.db.tasks && s.db.Live(t)
    ensures Moves(cfg, s, actions, t)
  {
    var id := FreshEventId(s.db);
    var kind := if s.db.tasks[t].state == Running then TaskCompleted else TaskStarted;
    var begin := BeginEvent(EventRequest(id, t, kind, "", s.db.tokens[t].digest));
    var verify := Go(|s.procs|, HEALTHY);
    var begun := Next(cfg, s, begin);
    var rest := AppendMoves(cfg, Next(cfg, begun, verify), |s.procs|, t);
    MovesLater(cfg, begun, verify, rest, t);
    MovesLater(cfg, s, begin, [verify] + rest, t);
    actions := [begin] + ([verify] + rest);
  }

  lemma MintMoves(cfg: Config, s: Sys, i: nat, t: string) returns (actions: seq<Action>)
    requires t in s.db.tasks && i < |s.procs|
    requires s.procs[i].Mint? && StateArmedProcess(cfg, s.db, t, s.procs[i])
    ensures Moves(cfg, s, actions, t)
  {
    var a := Go(i, HEALTHY.(token := Some("")));
    var rest := LiveTokenMoves(cfg, Next(cfg, s, a), t);
    MovesLater(cfg, s, a, rest, t);
    actions := [a] + rest;
  }

  lemma StateArmedMoves(cfg: Config, s: Sys, i: nat, t: string) returns (actions: seq<Action>)
    requires t in s.db.tasks && i < |s.procs| && StateArmedProcess(cfg, s.db, t, s.procs[i])
    ensures Moves(cfg, s, actions, t)
  {
    match s.procs[i] {
      case Append(_) => actions := AppendMoves(cfg, s, i, t);
      case SetState(_) => actions := SetStateMoves(cfg, s, i, t);
      case RollbackState(_, _) => actions := RollbackMoves(cfg, s, i, t);
      case MarkRunning(_, _, _) => actions := MarkRunningMoves(cfg, s, i, t);
      case Dispatch(_, _) => actions := DispatchMoves(cfg, s, i, t);
      case Mint(_) => actions := MintMoves(cfg, s, i, t);
    }
  }

  // ---------------------------------------------------------------- Exactly when

  /**
   In every reachable state, the state of a task is the same in every continuation if
   and only if its token is not live and no process is armed against its state.
   */
  lemma StateFrozenExactlyWhen(cfg: Config, s: Sys, t: string)
    requires Reachable(cfg, s) && t in s.db.tasks
    ensures StateFrozen(cfg, s, t) <==> !s.db.Live(t) && !StateArmed(cfg, s, t)
  {
    ReachableInv(cfg, s);
    if s.db.Live(t) {
      var actions := LiveTokenMoves(cfg, s, t);
    } else if StateArmed(cfg, s, t) {
      var i :| 0 <= i < |s.procs| && StateArmedProcess(cfg, s.db, t, s.procs[i]);
      var actions := StateArmedMoves(cfg, s, i, t);
    } else {
      forall actions
        ensures var db' := Run(cfg, s, actions).db; t in db'.tasks && db'.tasks[t].state == s.db.tasks[t].state
      {
        StateUnarmedRun(cfg, s, actions, t);
      }
    }
  }

  /** Nothing leaves the state pending, and nothing is logged, before the token row exists. */
  ghost predicate TokensFirst(db: Db) {
    && (forall t :: t in db.tasks && db.tasks[t].state != Pending ==> t in db.tokens)
    && (forall i :: 0 <= i < |db.events| ==> db.events[i].taskId in db.tokens)
  }

  lemma WriterHasToken(cfg: Config, db: Db, p: Process, c: Choice, t: string)
    requires ProcessOk(db, p) && t in db.tasks && t in Advance(cfg, db, p, c).db.tasks
    requires Advance(cfg, db, p, c).db.tasks[t].state != db.tasks[t].state
    ensures t in db.tokens
  {
  }

  lemma TokensFirstStep(cfg: Config, s: Sys, a: Action)
    requires Inv(s) && TokensFirst(s.db)
    ensures TokensFirst(Next(cfg, s, a).db)
  {
    if a.Go? && a.proc < |s.procs| {
      var p, db' := s.procs[a.proc], Next(cfg, s, a).db;
      assert ProcessOk(s.db, p);
      AdvanceGrows(cfg, s.db, p, a.choice);
      AdvanceEvents(cfg, s.db, p, a.choice);
      forall t | t in db'.tasks && db'.tasks[t].state != Pending ensures t in db'.tokens {
        if t !in s.db.tasks {
          AdvanceInserts(cfg, s.db, p, a.choice, t);
        } else if db'.tasks[t].state != s.db.tasks[t].state {
          WriterHasToken(cfg, s.db, p, a.choice, t);
        }
      }
    }
  }

  lemma {:induction false} TokensFirstRun(cfg: Config, s: Sys, actions: seq<Action>)
    requires Inv(s) && TokensFirst(s.db)
    ensures TokensFirst(Run(cfg, s, actions).db)
    decreases |actions|
  {
    if actions != [] {
      InvStep(cfg, s, actions[0]);
      TokensFirstStep(cfg, s, actions[0]);
      TokensFirstRun(cfg, Next(cfg, s, actions[0]), actions[1..]);
    }
  }

  lemma ReachableTokensFirst(cfg: Config, s: Sys)
    requires Reachable(cfg, s)
    ensures TokensFirst(s.db)
  {
    var actions :| Run(cfg, START, actions) == s;
    TokensFirstRun(cfg, START, actions);
  }

  /**
   The documented finality, exactly: a completed, failed or timed-out task keeps that
   state in every continuation if and only if its token has been revoked and no
   process is armed against its state.
   */
  lemma TerminalIsFinalExactlyWhen(cfg: Config, s: Sys, t: string)
    requires Reachable(cfg, s) && t in s.db.tasks && s.db.tasks[t].state.Terminal()
    ensures StateFrozen(cfg, s, t) <==> s.db.Revoked(t) && !StateArmed(cfg, s, t)
  {
    ReachableTokensFirst(cfg, s);
    StateFrozenExactlyWhen(cfg, s, t);
  }

  // ---------------------------------------------------------------- The rollback of a creation

  lemma ReachableNext(cfg: Config, s: Sys, a: Action)
    requires Reachable(cfg, s)
    ensures Reachable(cfg, Next(cfg, s, a))
  {
    var actions :| Run(cfg, START, actions) == s;
    RunConcat(cfg, START, actions, [a]);
    RunOne(cfg, s, a);
  }

  /** Revoking a token neither arms nor disarms any process. */
  lemma RollbackTokenKeepsArms(cfg: Config, s: Sys, i: nat, c: Choice, t: string)
    requires Inv(s) && i < |s.procs| && s.procs[i].RollbackToken? && t in s.db.tasks
    ensures var s' := Next(cfg, s, Go(i, c));
            s'.db.tasks == s.db.tasks && (StateArmed(cfg, s', t) <==> StateArmed(cfg, s, t))
  {
    var s' := Next(cfg, s, Go(i, c));
    assert s'.db.tasks == s.db.tasks && s'.db.events == s.db.events && s'.procs[i].Created?;
    forall k | 0 <= k < |s.procs|
      ensures StateArmedProcess(cfg, s'.db, t, s'.procs[k]) <==> StateArmedProcess(cfg, s.db, t, s.procs[k])
    {
      assert k != i ==> s'.procs[k] == s.procs[k];
    }
  }

  /**
   Among any other requests: the last step of a rollback leaves a state that is final
   if and only if the token is then revoked and no handler is armed.
   */
  lemma RollbackIsFinalExactlyWhen(cfg: Config, s: Sys, i: nat, c: Choice)
    requires Reachable(cfg, s) && i < |s.procs| && s.procs[i].RollbackToken?
    ensures var t, s' := s.procs[i].row.id, Next(cfg, s, Go(i, c));
            && t in s.db.tasks && t in s'.db.tasks && s'.db.tasks[t].state == s.db.tasks[t].state
            && (StateFrozen(cfg, s', t) <==>
                (s.db.Revoked(t) || !c.fault.LostBefore?) && !StateArmed(cfg, s, t))
  {
    var t, s' := s.procs[i].row.id, Next(cfg, s, Go(i, c));
    ReachableInv(cfg, s);
    assert ProcessOk(s.db, s.procs[i]);
    RollbackTokenKeepsArms(cfg, s, i, c, t);
    ReachableNext(cfg, s, Go(i, c));
    StateFrozenExactlyWhen(cfg, s', t);
  }
}

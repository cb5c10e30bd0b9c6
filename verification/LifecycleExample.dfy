/**
 Two concrete interleavings in which a terminal state is not absorbing.
 UpdateTaskState is unconditional, so a completed task is running again when a
 handler that verified earlier writes later, and when the revocation was lost and a
 later event still finds its token accepted.
 */
module LifecycleExample {
  import opened Prelude
  import opened Storage
  import opened Lifecycle
  import opened LifecycleFinality

  const EXAMPLE_CONFIG := Config(None, Some({"local"}))
  const EXAMPLE_CHOICE := Choice(Healthy, "t", 0, Some("secret"), Some("pid"))
  const EXAMPLE_CREATE := CreateRequest("k", "", "", "", "", 0)
  const EXAMPLE_SKILL := Skill("k", "", [])

  function ExampleTask(state: TaskState): Task {
    Task("t", "k", "", PolicyContext("", "", []), "local", state, 300, 0)
  }

  function ExampleDb(state: TaskState, revoked: bool, events: seq<Event>): Db {
    Db(map["k" := EXAMPLE_SKILL], map["t" := ExampleTask(state)],
       map["t" := TokenRow(Sha256("secret"), revoked)], events)
  }

  const STARTED := Event("e1", "t", TaskStarted, "", 0)
  const COMPLETED := Event("e2", "t", TaskCompleted, "", 0)

  function RequestOf(e: Event): EventRequest {
    EventRequest(e.id, e.taskId, e.kind, e.payload, Sha256("secret"))
  }

  /** Two consecutive steps of process `i`. */
  function Twice(i: nat): seq<Action> { [Go(i, EXAMPLE_CHOICE), Go(i, EXAMPLE_CHOICE)] }

  const CREATOR_DONE := Created(ExampleTask(Pending), Accepted("secret", Some("pid")))

  const EXAMPLE_BEGUN := Sys(EMPTY_DB.(skills := map["k" := EXAMPLE_SKILL]), [Insert(ExampleTask(Pending))])

  // ---------------------------------------------------------------- Steps

  lemma ExtendRun(cfg: Config, a: seq<Action>, s: Sys, b: seq<Action>) returns (c: seq<Action>)
    requires Run(cfg, START, a) == s
    ensures c == a + b && Run(cfg, START, c) == Run(cfg, s, b)
  {
    c := a + b;
    RunConcat(cfg, START, a, b);
  }

  lemma ExtendByOne(cfg: Config, a: seq<Action>, s: Sys, b: Action) returns (c: seq<Action>)
    requires Run(cfg, START, a) == s
    ensures c == a + [b] && Run(cfg, START, c) == Next(cfg, s, b)
  {
    c := ExtendRun(cfg, a, s, [b]);
    RunOne(cfg, s, b);
  }

  lemma ExampleInserts()
    ensures Run(EXAMPLE_CONFIG, START, [SkillSync(EXAMPLE_SKILL), BeginCreate(EXAMPLE_CREATE)] + Twice(0)) ==
            EXAMPLE_BEGUN
  {
    var a, b := SkillSync(EXAMPLE_SKILL), BeginCreate(EXAMPLE_CREATE);
    RunTwo(EXAMPLE_CONFIG, START, a, b);
    RunConcat(EXAMPLE_CONFIG, START, [a, b], Twice(0));
    RunTwo(EXAMPLE_CONFIG, Run(EXAMPLE_CONFIG, START, [a, b]), Go(0, EXAMPLE_CHOICE), Go(0, EXAMPLE_CHOICE));
  }

  lemma ExampleDispatches()
    ensures Run(EXAMPLE_CONFIG, EXAMPLE_BEGUN, Twice(0) + Twice(0)) ==
            Sys(ExampleDb(Running, false, []), [CREATOR_DONE])
  {
    RunTwo(EXAMPLE_CONFIG, EXAMPLE_BEGUN, Go(0, EXAMPLE_CHOICE), Go(0, EXAMPLE_CHOICE));
    var mid := Sys(ExampleDb(Pending, false, []), [Dispatch(ExampleTask(Pending), "secret")]);
    assert Run(EXAMPLE_CONFIG, EXAMPLE_BEGUN, Twice(0)) == mid;
    RunConcat(EXAMPLE_CONFIG, EXAMPLE_BEGUN, Twice(0), Twice(0));
    RunTwo(EXAMPLE_CONFIG, mid, Go(0, EXAMPLE_CHOICE), Go(0, EXAMPLE_CHOICE));
  }

  /** An accepted task, running, its creator finished. */
  lemma RunningIsReachable() returns (actions: seq<Action>)
    ensures Run(EXAMPLE_CONFIG, START, actions) == Sys(ExampleDb(Running, false, []), [CREATOR_DONE])
  {
    ExampleInserts();
    ExampleDispatches();
    actions := ExtendRun(EXAMPLE_CONFIG, [SkillSync(EXAMPLE_SKILL), BeginCreate(EXAMPLE_CREATE)] + Twice(0),
                         EXAMPLE_BEGUN, Twice(0) + Twice(0));
  }

  lemma ExampleVerifies(state: TaskState, log: seq<Event>, procs: seq<Process>, e: Event)
    requires e.taskId == "t" && e.createdAt == 0 && e.id != ""
    ensures Run(EXAMPLE_CONFIG, Sys(ExampleDb(state, false, log), procs),
                [BeginEvent(RequestOf(e)), Go(|procs|, EXAMPLE_CHOICE)]) ==
            Sys(ExampleDb(state, false, log), procs + [Append(e)])
  {
    var s := Sys(ExampleDb(state, false, log), procs);
    RunTwo(EXAMPLE_CONFIG, s, BeginEvent(RequestOf(e)), Go(|procs|, EXAMPLE_CHOICE));
    assert (procs + [Verify(RequestOf(e))])[|procs| := Append(e)] == procs + [Append(e)];
  }

  /** One step of the last process. */
  lemma LastSteps(db: Db, procs: seq<Process>, p: Process, c: Choice)
    ensures Next(EXAMPLE_CONFIG, Sys(db, procs + [p]), Go(|procs|, c)) ==
            Sys(Advance(EXAMPLE_CONFIG, db, p, c).db, procs + [Advance(EXAMPLE_CONFIG, db, p, c).process])
  {
    var p' := Advance(EXAMPLE_CONFIG, db, p, c).process;
    assert (procs + [p])[|procs| := p'] == procs + [p'];
  }

  lemma ExampleAppends(state: TaskState, log: seq<Event>, e: Event)
    requires e.taskId == "t" && e.kind.Target().Some? && !ExampleDb(state, false, log).HasEvent(e.id)
    ensures Advance(EXAMPLE_CONFIG, ExampleDb(state, false, log), Append(e), EXAMPLE_CHOICE) ==
            Turn(ExampleDb(state, false, log + [e]), SetState(e))
  {
  }

  lemma ExampleSetsState(state: TaskState, log: seq<Event>, e: Event)
    requires e.taskId == "t" && e.kind.Target().Some?
    ensures Advance(EXAMPLE_CONFIG, ExampleDb(state, false, log), SetState(e), EXAMPLE_CHOICE) ==
            Turn(ExampleDb(e.kind.Target().value, false, log),
                 if e.kind.Terminal() then Revoke(e) else Answered(Recorded(e.id)))
  {
  }

  lemma ExampleRevokes(state: TaskState, log: seq<Event>, e: Event, fault: Fault)
    requires e.taskId == "t"
    ensures Advance(EXAMPLE_CONFIG, ExampleDb(state, false, log), Revoke(e), EXAMPLE_CHOICE.(fault := fault)) ==
            Turn(ExampleDb(state, !fault.LostBefore?, log), Answered(Recorded(e.id)))
  {
  }

  /** From verification, the event of the last handler is recorded and its state written. */
  lemma ExampleReports(before: seq<Action>, state: TaskState, log: seq<Event>, procs: seq<Process>, e: Event)
    returns (after: seq<Action>)
    requires Run(EXAMPLE_CONFIG, START, before) == Sys(ExampleDb(state, false, log), procs + [Append(e)])
    requires e.taskId == "t" && e.kind.Target().Some? && !ExampleDb(state, false, log).HasEvent(e.id)
    ensures before <= after
    ensures Run(EXAMPLE_CONFIG, START, after) ==
            Sys(ExampleDb(e.kind.Target().value, false, log + [e]),
                procs + [if e.kind.Terminal() then Revoke(e) else Answered(Recorded(e.id))])
  {
    var db, logged := ExampleDb(state, false, log), ExampleDb(state, false, log + [e]);
    ExampleAppends(state, log, e);
    LastSteps(db, procs, Append(e), EXAMPLE_CHOICE);
    after := ExtendByOne(EXAMPLE_CONFIG, before, Sys(db, procs + [Append(e)]), Go(|procs|, EXAMPLE_CHOICE));
    ExampleSetsState(state, log + [e], e);
    LastSteps(logged, procs, SetState(e), EXAMPLE_CHOICE);
    after := ExtendByOne(EXAMPLE_CONFIG, after, Sys(logged, procs + [SetState(e)]), Go(|procs|, EXAMPLE_CHOICE));
  }

  /** Then comes the revocation, which may be lost. */
  lemma ExampleCompletes(before: seq<Action>, procs: seq<Process>, fault: Fault) returns (after: seq<Action>)
    requires Run(EXAMPLE_CONFIG, START, before) == Sys(ExampleDb(Running, false, []), procs + [Append(COMPLETED)])
    ensures Run(EXAMPLE_CONFIG, START, after) ==
            Sys(ExampleDb(Completed, !fault.LostBefore?, [COMPLETED]), procs + [Answered(Recorded("e2"))])
  {
    after := ExampleReports(before, Running, [], procs, COMPLETED);
    assert [] + [COMPLETED] == [COMPLETED];
    var c := EXAMPLE_CHOICE.(fault := fault);
    ExampleRevokes(Completed, [COMPLETED], COMPLETED, fault);
    LastSteps(ExampleDb(Completed, false, [COMPLETED]), procs, Revoke(COMPLETED), c);
    after := ExtendByOne(EXAMPLE_CONFIG, after, Run(EXAMPLE_CONFIG, START, after), Go(|procs|, c));
  }

  // ---------------------------------------------------------------- A straggler

  const COMPLETED_SYS :=
    Sys(ExampleDb(Completed, true, [COMPLETED]), [CREATOR_DONE, Append(STARTED), Answered(Recorded("e2"))])

  /** Completed and revoked, while a handler of task.started is past verification. */
  lemma CompletedIsReachable() returns (before: seq<Action>)
    ensures Run(EXAMPLE_CONFIG, START, before) == COMPLETED_SYS
  {
    var running, one := ExampleDb(Running, false, []), [CREATOR_DONE];
    before := RunningIsReachable();
    ExampleVerifies(Running, [], one, STARTED);
    before := ExtendRun(EXAMPLE_CONFIG, before, Sys(running, one),
                        [BeginEvent(RequestOf(STARTED)), Go(1, EXAMPLE_CHOICE)]);
    var two := one + [Append(STARTED)];
    ExampleVerifies(Running, [], two, COMPLETED);
    before := ExtendRun(EXAMPLE_CONFIG, before, Sys(running, two),
                        [BeginEvent(RequestOf(COMPLETED)), Go(2, EXAMPLE_CHOICE)]);
    before := ExampleCompletes(before, two, Healthy);
    assert two + [Answered(Recorded("e2"))] == [CREATOR_DONE, Append(STARTED), Answered(Recorded("e2"))];
  }

  /**
   A run that completes a task and revokes its token, and a straggling task.started
   that then makes the completed task running again.
   */
  lemma TerminalStateIsNotAbsorbing() returns (before: seq<Action>, after: seq<Action>)
    ensures var s := Run(EXAMPLE_CONFIG, START, before);
            "t" in s.db.tasks && s.db.tasks["t"].state == Completed && s.db.Revoked("t")
    ensures var s := Run(EXAMPLE_CONFIG, START, before + after);
            "t" in s.db.tasks && s.db.tasks["t"].state == Running && s.db.Revoked("t")
  {
    before := CompletedIsReachable();
    after := Twice(1);
    RunConcat(EXAMPLE_CONFIG, START, before, after);
    RunTwo(EXAMPLE_CONFIG, COMPLETED_SYS, Go(1, EXAMPLE_CHOICE), Go(1, EXAMPLE_CHOICE));
  }

  // ---------------------------------------------------------------- A lost revocation

  /** Completed beside a live token: the handler answered 201, the revocation was lost. */
  const UNREVOKED_SYS := Sys(ExampleDb(Completed, false, [COMPLETED]), [CREATOR_DONE, Answered(Recorded("e2"))])

  lemma UnrevokedIsReachable() returns (before: seq<Action>)
    ensures Run(EXAMPLE_CONFIG, START, before) == UNREVOKED_SYS
  {
    before := RunningIsReachable();
    ExampleVerifies(Running, [], [CREATOR_DONE], COMPLETED);
    before := ExtendRun(EXAMPLE_CONFIG, before, Sys(ExampleDb(Running, false, []), [CREATOR_DONE]),
                        [BeginEvent(RequestOf(COMPLETED)), Go(1, EXAMPLE_CHOICE)]);
    before := ExampleCompletes(before, [CREATOR_DONE], LostBefore);
    assert [CREATOR_DONE] + [Answered(Recorded("e2"))] == [CREATOR_DONE, Answered(Recorded("e2"))];
  }

  /**
   A run in which every process has finished and the task is completed, and a later
   task.started, accepted because the revocation was lost, that makes it running again.
   */
  lemma LostRevocationReopens() returns (before: seq<Action>, after: seq<Action>)
    ensures var s := Run(EXAMPLE_CONFIG, START, before);
            && (forall i :: 0 <= i < |s.procs| ==> s.procs[i].Done())
            && "t" in s.db.tasks && s.db.tasks["t"].state == Completed && s.db.Live("t")
    ensures var s := Run(EXAMPLE_CONFIG, START, after);
            before <= after && "t" in s.db.tasks && s.db.tasks["t"].state == Running
  {
    before := UnrevokedIsReachable();
    ExampleVerifies(Completed, [COMPLETED], UNREVOKED_SYS.procs, STARTED);
    after := ExtendRun(EXAMPLE_CONFIG, before, UNREVOKED_SYS,
                       [BeginEvent(RequestOf(STARTED)), Go(2, EXAMPLE_CHOICE)]);
    after := ExampleReports(after, Completed, [COMPLETED], UNREVOKED_SYS.procs, STARTED);
  }
}

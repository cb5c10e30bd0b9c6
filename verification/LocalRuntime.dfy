/**
 The local-process driver (internal/runtime/local/local.go).  Dispatch checks the
 capacity, spawns a process, counts it and registers its handle; a monitor
 goroutine uncounts it and forgets the handle.  Only the counter updates and the
 map updates are atomic, so several dispatches can pass one capacity check.
 */
module LocalRuntime {
  import opened Prelude

  const MAX_CONCURRENCY := 10

  /** One dispatch and its monitor, by what it has done so far. */
  datatype Job =
    | Checking(task: string)             // before the capacity check
    | Preparing(task: string)            // passed it; temp dir, task.json, token, cmd.Start
    | Started(task: string, pid: int)    // before active.Add(1)
    | Counted(task: string, pid: int)    // before the handle is registered
    | Running(task: string, pid: int)    // registered; the monitor waits
    | Uncounted(task: string, pid: int)  // after active.Add(-1), before the handle is deleted
    | Reaped(task: string)
    | AtCapacity(task: string)
    | SpawnFailed(task: string)
  {
    /** Between the capacity check and the increment. */
    predicate Pending() { Preparing? || Started? }

    /** Between the two updates of the dispatch or of the monitor. */
    predicate BetweenUpdates() { Counted? || Uncounted? }

    /** Counted and not yet uncounted. */
    predicate Alive() { Counted? || Running? }
  }

  /** The driver's shared fields. */
  datatype Shared = Shared(active: int, handles: map<string, int>)

  datatype Sys = Sys(shared: Shared, jobs: seq<Job>)

  /** `spawn` is the process id, or None when any preparation step fails. */
  datatype Step = Arrive(task: string) | Go(job: nat, spawn: Option<int>)

  function Advance(s: Shared, j: Job, spawn: Option<int>): (Shared, Job) {
    match j
    case Checking(task) => (s, if s.active >= MAX_CONCURRENCY then AtCapacity(task) else Preparing(task))
    case Preparing(task) => (s, if spawn.None? then SpawnFailed(task) else Started(task, spawn.value))
    case Started(task, pid) => (s.(active := s.active + 1), Counted(task, pid))
    case Counted(task, pid) => (s.(handles := s.handles[task := pid]), Running(task, pid))
    case Running(task, pid) => (s.(active := s.active - 1), Uncounted(task, pid))
    case Uncounted(task, pid) => (s.(handles := s.handles - {task}), Reaped(task))
    case _ => (s, j)
  }

  function Next(s: Sys, a: Step): Sys {
    match a
    case Arrive(task) => s.(jobs := s.jobs + [Checking(task)])
    case Go(i, spawn) =>
      if i >= |s.jobs| then s
      else
        var (shared, job) := Advance(s.shared, s.jobs[i], spawn);
        Sys(shared, s.jobs[i := job])
  }

  function Run(s: Sys, steps: seq<Step>): Sys
    decreases |steps|
  {
    if steps == [] then s else Run(Next(s, steps[0]), steps[1..])
  }

  const START := Sys(Shared(0, map[]), [])

  predicate IsPending(j: Job) { j.Pending() }

  predicate IsAlive(j: Job) { j.Alive() }

  ghost function PendingCount(s: Sys): nat { CountIf(s.jobs, IsPending) }

  ghost function AliveCount(s: Sys): nat { CountIf(s.jobs, IsAlive) }

  /** The most dispatches ever between check and increment along a run. */
  ghost function Peak(s: Sys, steps: seq<Step>): (k: nat)
    ensures k >= PendingCount(s)
    decreases |steps|
  {
    if steps == [] then PendingCount(s)
    else
      var rest := Peak(Next(s, steps[0]), steps[1..]);
      if rest > PendingCount(s) then rest else PendingCount(s)
  }

  // ---------------------------------------------------------------- Conservation

  /** A step of one job moves the counter by what becomes of the job. */
  lemma AdvanceActive(s: Shared, j: Job, spawn: Option<int>)
    ensures var (s', j') := Advance(s, j, spawn);
            s'.active + (if IsAlive(j) then 1 else 0) == s.active + (if IsAlive(j') then 1 else 0)
  {
  }

  lemma ConservationStep(s: Sys, a: Step)
    requires s.shared.active == AliveCount(s)
    ensures Next(s, a).shared.active == AliveCount(Next(s, a))
  {
    if a.Arrive? {
      CountIfAppend(s.jobs, Checking(a.task), IsAlive);
    } else if a.job < |s.jobs| {
      var j := s.jobs[a.job];
      AdvanceActive(s.shared, j, a.spawn);
      CountIfUpdate(s.jobs, a.job, Advance(s.shared, j, a.spawn).1, IsAlive);
    }
  }

  /** The counter is the number of dispatches counted and not yet reaped, so never negative. */
  lemma {:induction false} ActiveIsConserved(s: Sys, steps: seq<Step>)
    requires s.shared.active == AliveCount(s)
    ensures Run(s, steps).shared.active == AliveCount(Run(s, steps)) >= 0
    decreases |steps|
  {
    if steps != [] {
      ConservationStep(s, steps[0]);
      ActiveIsConserved(Next(s, steps[0]), steps[1..]);
    }
  }

  // ---------------------------------------------------------------- Capacity

  /** A step moves the pending count by what its own job does. */
  lemma PendingStep(s: Sys, i: nat, spawn: Option<int>)
    requires i < |s.jobs|
    ensures var j' := Advance(s.shared, s.jobs[i], spawn).1;
            PendingCount(Next(s, Go(i, spawn))) + (if s.jobs[i].Pending() then 1 else 0) ==
            PendingCount(s) + (if j'.Pending() then 1 else 0)
  {
    CountIfUpdate(s.jobs, i, Advance(s.shared, s.jobs[i], spawn).1, IsPending);
  }

  lemma ArrivalNotPending(s: Sys, task: string)
    ensures PendingCount(Next(s, Arrive(task))) == PendingCount(s)
  {
  }

  lemma CapacityStep(s: Sys, a: Step, k: nat)
    requires PendingCount(Next(s, a)) <= k
    requires s.shared.active + PendingCount(s) <= MAX_CONCURRENCY - 1 + k
    ensures Next(s, a).shared.active + PendingCount(Next(s, a)) <= MAX_CONCURRENCY - 1 + k
  {
    match a
    case Arrive(task) => ArrivalNotPending(s, task);
    case Go(i, spawn) =>
      if i < |s.jobs| {
        PendingStep(s, i, spawn);
      }
  }

  lemma {:induction false} CapacityRun(s: Sys, steps: seq<Step>, k: nat)
    requires Peak(s, steps) <= k
    requires s.shared.active + PendingCount(s) <= MAX_CONCURRENCY - 1 + k
    ensures Run(s, steps).shared.active + PendingCount(Run(s, steps)) <= MAX_CONCURRENCY - 1 + k
    decreases |steps|
  {
    if steps != [] {
      CapacityStep(s, steps[0], k);
      CapacityRun(Next(s, steps[0]), steps[1..], k);
    }
  }

  /**
   If at most k dispatches are ever between the capacity check and the increment,
   the counter never exceeds the capacity of ten by more than k - 1.
   */
  lemma ActiveBounded(steps: seq<Step>)
    ensures Run(START, steps).shared.active <= 9 + Peak(START, steps)
  {
    CapacityRun(START, steps, Peak(START, steps));
  }

  // ---------------------------------------------------------------- The bound is attained

  lemma {:induction false} RunConcat(s: Sys, a: seq<Step>, b: seq<Step>)
    ensures Run(s, a + b) == Run(Run(s, a), b)
    ensures Peak(s, a + b) == (if Peak(s, a) > Peak(Run(s, a), b) then Peak(s, a) else Peak(Run(s, a), b))
    decreases |a|
  {
    if a == [] {
      assert a + b == b;
    } else {
      assert (a + b)[1..] == a[1..] + b;
      RunConcat(Next(s, a[0]), a[1..], b);
    }
  }

  lemma RunOne(s: Sys, a: Step)
    ensures Run(s, [a]) == Next(s, a)
    ensures var before, after := PendingCount(s), PendingCount(Next(s, a));
            Peak(s, [a]) == (if after > before then after else before)
  {
  }

  ghost predicate PendingArePreparing(s: Sys) {
    forall i :: 0 <= i < |s.jobs| ==> !s.jobs[i].Started?
  }

  /** One more dispatch passes the check. */
  lemma AdmitOne(s: Sys) returns (steps: seq<Step>)
    requires s.shared.active < MAX_CONCURRENCY
    ensures var s' := Run(s, steps);
            && s'.shared == s.shared && s'.jobs == s.jobs + [Preparing("")]
            && PendingCount(s') == PendingCount(s) + 1 && Peak(s, steps) == PendingCount(s) + 1
  {
    var a, b := Arrive(""), Go(|s.jobs|, None);
    var mid := Next(s, a);
    CountIfAppend(s.jobs, Checking(""), IsPending);
    CountIfAppend(s.jobs, Preparing(""), IsPending);
    assert mid.jobs[|s.jobs| := Preparing("")] == s.jobs + [Preparing("")];
    RunOne(s, a);
    RunOne(mid, b);
    RunConcat(s, [a], [b]);
    steps := [a] + [b];
  }

  /** A pending dispatch is counted. */
  lemma CountOne(s: Sys, i: nat) returns (steps: seq<Step>)
    requires i < |s.jobs| && s.jobs[i].Preparing?
    ensures var s' := Run(s, steps);
            && s'.shared.active == s.shared.active + 1
            && PendingCount(s') == PendingCount(s) - 1 && Peak(s, steps) == PendingCount(s)
            && (PendingArePreparing(s) ==> PendingArePreparing(s'))
  {
    var a := Go(i, Some(0));
    var s1 := Next(s, a);
    var s2 := Next(s1, a);
    CountIfUpdate(s.jobs, i, s1.jobs[i], IsPending);
    CountIfUpdate(s1.jobs, i, s2.jobs[i], IsPending);
    RunOne(s, a);
    RunOne(s1, a);
    RunConcat(s, [a], [a]);
    steps := [a] + [a];
    assert s2.jobs == s.jobs[i := s2.jobs[i]];
  }

  lemma {:induction false} AdmitMany(s: Sys, k: nat) returns (steps: seq<Step>)
    requires s.shared.active < MAX_CONCURRENCY && PendingArePreparing(s)
    ensures var s' := Run(s, steps);
            && s'.shared == s.shared && PendingArePreparing(s')
            && PendingCount(s') == PendingCount(s) + k && Peak(s, steps) == PendingCount(s) + k
    decreases k
  {
    if k == 0 {
      steps := [];
    } else {
      var first := AdmitOne(s);
      var rest := AdmitMany(Run(s, first), k - 1);
      RunConcat(s, first, rest);
      steps := first + rest;
    }
  }

  lemma {:induction false} CountAll(s: Sys) returns (steps: seq<Step>)
    requires PendingArePreparing(s)
    ensures var s' := Run(s, steps);
            && s'.shared.active == s.shared.active + PendingCount(s) && PendingArePreparing(s')
            && PendingCount(s') == 0 && Peak(s, steps) == PendingCount(s)
    decreases PendingCount(s)
  {
    CountIfPositive(s.jobs, IsPending);
    if PendingCount(s) == 0 {
      steps := [];
    } else {
      var i :| 0 <= i < |s.jobs| && IsPending(s.jobs[i]);
      var first := CountOne(s, i);
      var rest := CountAll(Run(s, first));
      RunConcat(s, first, rest);
      steps := first + rest;
    }
  }

  /** n dispatches one after the other. */
  lemma {:induction false} SerialDispatches(n: nat) returns (steps: seq<Step>)
    requires n <= MAX_CONCURRENCY
    ensures var s := Run(START, steps);
            && s.shared.active == n && PendingCount(s) == 0 && PendingArePreparing(s)
            && Peak(START, steps) <= 1
  {
    if n == 0 {
      steps := [];
    } else {
      var before := SerialDispatches(n - 1);
      var more := AdmitAndCount(Run(START, before), 1);
      RunConcat(START, before, more);
      steps := before + more;
    }
  }

  /** k dispatches pass the check together and are then counted. */
  lemma AdmitAndCount(s: Sys, k: nat) returns (steps: seq<Step>)
    requires s.shared.active < MAX_CONCURRENCY && PendingArePreparing(s) && PendingCount(s) == 0
    ensures var s' := Run(s, steps);
            && s'.shared.active == s.shared.active + k && PendingCount(s') == 0 && PendingArePreparing(s')
            && Peak(s, steps) == k
  {
    var admit := AdmitMany(s, k);
    var count := CountAll(Run(s, admit));
    RunConcat(s, admit, count);
    steps := admit + count;
  }

  /** For every k the bound of `ActiveBounded` is reached by some run with exactly k at its peak. */
  lemma BoundAttained(k: nat) returns (steps: seq<Step>)
    requires k >= 1
    ensures Peak(START, steps) == k
    ensures Run(START, steps).shared.active == 9 + k
  {
    var before := SerialDispatches(MAX_CONCURRENCY - 1);
    var more := AdmitAndCount(Run(START, before), k);
    RunConcat(START, before, more);
    steps := before + more;
  }

  // ---------------------------------------------------------------- Handles

  ghost predicate Distinct(jobs: seq<Job>) {
    forall i, j :: 0 <= i < j < |jobs| ==> jobs[i].task != jobs[j].task
  }

  ghost predicate DistinctTasks(s: Sys) { Distinct(s.jobs) }

  /** Registered, and not yet forgotten by the monitor. */
  predicate Registered(j: Job) { j.Running? || j.Uncounted? }

  predicate HandleOf(s: Shared, j: Job) {
    Registered(j) ==> j.task in s.handles && s.handles[j.task] == j.pid
  }

  ghost predicate HasJob(jobs: seq<Job>, t: string) {
    exists i :: 0 <= i < |jobs| && Registered(jobs[i]) && jobs[i].task == t
  }

  ghost predicate HandlesOk(s: Sys) {
    && (forall i :: 0 <= i < |s.jobs| ==> HandleOf(s.shared, s.jobs[i]))
    && (forall t :: t in s.shared.handles ==> HasJob(s.jobs, t))
  }

  /** A step of one job leaves the handle of a job with another task alone. */
  lemma AdvanceHandles(s: Shared, j: Job, spawn: Option<int>, other: Job)
    requires HandleOf(s, j) && HandleOf(s, other)
    ensures HandleOf(Advance(s, j, spawn).0, Advance(s, j, spawn).1)
    ensures j.task != other.task ==> HandleOf(Advance(s, j, spawn).0, other)
    ensures forall t :: t != j.task && t in Advance(s, j, spawn).0.handles ==> t in s.handles
    ensures j.task in Advance(s, j, spawn).0.handles ==>
              Registered(Advance(s, j, spawn).1) || (!Registered(j) && j.task in s.handles)
    ensures Advance(s, j, spawn).1.task == j.task
  {
  }

  lemma HandlesStep(s: Sys, a: Step)
    requires HandlesOk(s) && DistinctTasks(s)
    ensures HandlesOk(Next(s, a))
  {
    var s' := Next(s, a);
    match a
    case Arrive(task) =>
      forall t | t in s'.shared.handles ensures HasJob(s'.jobs, t) {
        var i :| 0 <= i < |s.jobs| && Registered(s.jobs[i]) && s.jobs[i].task == t;
        assert s'.jobs[i] == s.jobs[i];
      }
    case Go(n, spawn) =>
      if n < |s.jobs| {
        var p := s.jobs[n];
        forall i | 0 <= i < |s'.jobs| ensures HandleOf(s'.shared, s'.jobs[i]) {
          AdvanceHandles(s.shared, p, spawn, s.jobs[i]);
        }
        forall t | t in s'.shared.handles ensures HasJob(s'.jobs, t) {
          AdvanceHandles(s.shared, p, spawn, p);
          if t == p.task && Registered(s'.jobs[n]) {
            assert s'.jobs[n].task == t;
          } else {
            var i :| 0 <= i < |s.jobs| && Registered(s.jobs[i]) && s.jobs[i].task == t;
            assert i != n;
            assert s'.jobs[i] == s.jobs[i];
          }
        }
      }
  }

  lemma TasksOnlyGrow(s: Sys, a: Step)
    ensures |s.jobs| <= |Next(s, a).jobs|
    ensures forall i :: 0 <= i < |s.jobs| ==> Next(s, a).jobs[i].task == s.jobs[i].task
  {
  }

  lemma {:induction false} DistinctBackwards(s: Sys, steps: seq<Step>)
    requires DistinctTasks(Run(s, steps))
    ensures DistinctTasks(s)
    decreases |steps|
  {
    if steps != [] {
      DistinctBackwards(Next(s, steps[0]), steps[1..]);
      TasksOnlyGrow(s, steps[0]);
      var s' := Next(s, steps[0]);
      assert forall i :: 0 <= i < |s.jobs| ==> s'.jobs[i].task == s.jobs[i].task;
    }
  }

  lemma {:induction false} HandlesRun(s: Sys, steps: seq<Step>)
    requires HandlesOk(s) && DistinctTasks(Run(s, steps))
    ensures HandlesOk(Run(s, steps))
    decreases |steps|
  {
    if steps != [] {
      DistinctBackwards(s, steps);
      HandlesStep(s, steps[0]);
      HandlesRun(Next(s, steps[0]), steps[1..]);
    }
  }

  ghost function TasksOf(jobs: seq<Job>): set<string> {
    if jobs == [] then {}
    else
      var last := jobs[|jobs| - 1];
      TasksOf(jobs[..|jobs| - 1]) + (if Registered(last) then {last.task} else {})
  }

  lemma {:induction false} TasksOfMember(jobs: seq<Job>, t: string)
    ensures t in TasksOf(jobs) <==> HasJob(jobs, t)
  {
    if jobs != [] {
      var init := jobs[..|jobs| - 1];
      TasksOfMember(init, t);
      if HasJob(init, t) {
        var i :| 0 <= i < |init| && Registered(init[i]) && init[i].task == t;
        assert jobs[i] == init[i];
      }
      if HasJob(jobs, t) {
        var i :| 0 <= i < |jobs| && Registered(jobs[i]) && jobs[i].task == t;
        if i < |init| {
          assert init[i] == jobs[i];
        }
      }
    }
  }

  lemma {:induction false} RegisteredCardinality(jobs: seq<Job>)
    requires Distinct(jobs)
    ensures |TasksOf(jobs)| == CountIf(jobs, Registered)
  {
    if jobs != [] {
      var last := jobs[|jobs| - 1];
      var init := jobs[..|jobs| - 1];
      assert Distinct(init);
      RegisteredCardinality(init);
      TasksOfMember(init, last.task);
      assert forall i :: 0 <= i < |init| ==> init[i].task != last.task;
    }
  }

  lemma {:induction false} CountIfSame(jobs: seq<Job>)
    requires forall i :: 0 <= i < |jobs| ==> !jobs[i].BetweenUpdates()
    ensures CountIf(jobs, Registered) == CountIf(jobs, IsAlive)
  {
    if jobs != [] {
      CountIfSame(jobs[..|jobs| - 1]);
    }
  }

  /**
   With distinct task ids, the handle map has exactly as many entries as the counter
   says whenever no dispatch or monitor is between its two updates.
   */
  lemma HandlesMatchActive(steps: seq<Step>)
    requires DistinctTasks(Run(START, steps))
    requires forall i :: 0 <= i < |Run(START, steps).jobs| ==> !Run(START, steps).jobs[i].BetweenUpdates()
    ensures |Run(START, steps).shared.handles| == Run(START, steps).shared.active
  {
    var s := Run(START, steps);
    HandlesRun(START, steps);
    ActiveIsConserved(START, steps);
    RegisteredCardinality(s.jobs);
    CountIfSame(s.jobs);
    forall t ensures t in s.shared.handles <==> t in TasksOf(s.jobs) {
      TasksOfMember(s.jobs, t);
      if HasJob(s.jobs, t) {
        var i :| 0 <= i < |s.jobs| && Registered(s.jobs[i]) && s.jobs[i].task == t;
        assert HandleOf(s.shared, s.jobs[i]);
      }
    }
    assert s.shared.handles.Keys == TasksOf(s.jobs);
    assert |s.shared.handles| == |s.shared.handles.Keys|;
  }

  // ---------------------------------------------------------------- Handles come from spawned processes

  /** Step `m` of the run spawned process `pid` for job `i`, a dispatch of task `t`. */
  ghost predicate SpawnedAt(steps: seq<Step>, t: string, pid: int, m: nat, i: nat) {
    && m < |steps| && steps[m] == Go(i, Some(pid))
    && var before := Run(START, steps[..m]);
    && i < |before.jobs| && before.jobs[i] == Preparing(t)
  }

  ghost predicate Spawned(steps: seq<Step>, t: string, pid: int) {
    exists m: nat, i: nat :: SpawnedAt(steps, t, pid, m, i)
  }

  predicate HasPid(j: Job) { j.Started? || j.Counted? || j.Running? || j.Uncounted? }

  ghost predicate AllSpawned(steps: seq<Step>) {
    var s := Run(START, steps);
    && (forall i :: 0 <= i < |s.jobs| && HasPid(s.jobs[i]) ==> Spawned(steps, s.jobs[i].task, s.jobs[i].pid))
    && (forall t :: t in s.shared.handles ==> Spawned(steps, t, s.shared.handles[t]))
  }

  lemma SpawnedStays(steps: seq<Step>, a: Step, t: string, pid: int)
    requires Spawned(steps, t, pid)
    ensures Spawned(steps + [a], t, pid)
  {
    var m: nat, i: nat :| SpawnedAt(steps, t, pid, m, i);
    assert (steps + [a])[..m] == steps[..m];
    assert SpawnedAt(steps + [a], t, pid, m, i);
  }

  lemma JobsSpawnedStep(steps: seq<Step>, a: Step)
    requires AllSpawned(steps)
    ensures var s' := Run(START, steps + [a]);
            forall i :: 0 <= i < |s'.jobs| && HasPid(s'.jobs[i]) ==>
              Spawned(steps + [a], s'.jobs[i].task, s'.jobs[i].pid)
  {
    var s, s' := Run(START, steps), Run(START, steps + [a]);
    RunConcat(START, steps, [a]);
    RunOne(s, a);
    forall i | 0 <= i < |s'.jobs| && HasPid(s'.jobs[i])
      ensures Spawned(steps + [a], s'.jobs[i].task, s'.jobs[i].pid)
    {
      PidStep(s, a, i);
      if HasPid(s.jobs[i]) {
        SpawnedStays(steps, a, s.jobs[i].task, s.jobs[i].pid);
      } else {
        assert (steps + [a])[..|steps|] == steps;
        assert SpawnedAt(steps + [a], s'.jobs[i].task, s'.jobs[i].pid, |steps|, i);
      }
    }
  }

  /** A job keeps its process, and gets one only by spawning it. */
  lemma PidStep(s: Sys, a: Step, i: nat)
    requires i < |Next(s, a).jobs| && HasPid(Next(s, a).jobs[i])
    ensures i < |s.jobs|
    ensures var j, j' := s.jobs[i], Next(s, a).jobs[i];
            && j'.task == j.task
            && if HasPid(j) then j'.pid == j.pid
               else j == Preparing(j.task) && a == Go(i, Some(j'.pid))
  {
  }

  /** A handle was there before, or is that of the stepping job. */
  lemma HandleStep(s: Sys, a: Step, t: string)
    requires t in Next(s, a).shared.handles
    ensures var pid := Next(s, a).shared.handles[t];
            || (t in s.shared.handles && s.shared.handles[t] == pid)
            || (a.Go? && a.job < |s.jobs| && s.jobs[a.job] == Counted(t, pid))
  {
  }

  lemma HandlesSpawnedStep(steps: seq<Step>, a: Step)
    requires AllSpawned(steps)
    ensures var s' := Run(START, steps + [a]);
            forall t :: t in s'.shared.handles ==> Spawned(steps + [a], t, s'.shared.handles[t])
  {
    var s, s' := Run(START, steps), Run(START, steps + [a]);
    RunConcat(START, steps, [a]);
    RunOne(s, a);
    forall t | t in s'.shared.handles ensures Spawned(steps + [a], t, s'.shared.handles[t]) {
      HandleStep(s, a, t);
      SpawnedStays(steps, a, t, s'.shared.handles[t]);
    }
  }

  /** Whatever interleaves, every handle is a process that was spawned for a dispatch of that very task. */
  lemma {:induction false} HandlesAreSpawned(steps: seq<Step>)
    ensures AllSpawned(steps)
    decreases |steps|
  {
    if steps != [] {
      var n := |steps| - 1;
      HandlesAreSpawned(steps[..n]);
      assert steps == steps[..n] + [steps[n]];
      JobsSpawnedStep(steps[..n], steps[n]);
      HandlesSpawnedStep(steps[..n], steps[n]);
    }
  }

  // ---------------------------------------------------------------- The driver object

  datatype Result = Handle(pid: int) | Unavailable | Failed

  /** One job's steps, taken one after the other with nothing in between. */
  function Solo(s: Shared, j: Job, spawn: Option<int>, steps: nat): (Shared, Job)
    decreases steps
  {
    if steps == 0 then (s, j)
    else
      var (s', j') := Advance(s, j, spawn);
      Solo(s', j', spawn, steps - 1)
  }

  class Runtime {
    var active: int
    var handles: map<string, int>

    function Fields(): Shared
      reads this
    {
      Shared(active, handles)
    }

    constructor ()
      ensures Fields() == START.shared
    {
      active := 0;
      handles := map[];
    }

    /**
     Dispatch, undisturbed: refused exactly from ten active processes on; otherwise the
     spawned process is counted and registered, and its id is the answer.  These are the
     four steps of its job.
     */
    method Dispatch(task: string, spawn: Option<int>) returns (r: Result)
      modifies this
      ensures var (shared, job) := Solo(old(Fields()), Checking(task), spawn, 4);
              Fields() == shared &&
              match r
              case Handle(pid) => job == Running(task, pid)
              case Unavailable => job == AtCapacity(task)
              case Failed => job == SpawnFailed(task)
      ensures old(active) >= 10 <==> r == Unavailable
      ensures r == Unavailable ==> active == old(active) && handles == old(handles)
      ensures old(active) < 10 && spawn.None? ==>
                r == Failed && active == old(active) && handles == old(handles)
      ensures old(active) < 10 && spawn.Some? ==>
                && r == Handle(spawn.value)
                && active == old(active) + 1 && handles == old(handles)[task := spawn.value]
    {
      if active >= MAX_CONCURRENCY {
        return Unavailable;
      }
      if spawn.None? {
        return Failed;
      }
      var pid := spawn.value;
      active := active + 1;
      handles := handles[task := pid];
      return Handle(pid);
    }

    /** The monitor goroutine once the process has exited. */
    method Monitor(task: string, pid: int)
      modifies this
      ensures Solo(old(Fields()), Running(task, pid), None, 2) == (Fields(), Reaped(task))
      ensures active == old(active) - 1 && handles == old(handles) - {task}
    {
      active := active - 1;
      handles := handles - {task};
    }

    method Status() returns (activeCount: int, max: int)
      ensures activeCount == active && max == 10
    {
      return active, MAX_CONCURRENCY;
    }
  }
}

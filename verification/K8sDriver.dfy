/**
 The Kubernetes driver (internal/runtime/k8s/driver.go): Dispatch creates a
 ConfigMap, a Job and a Secret, and on failure deletes what it created.  Any
 number of dispatches interleave, one API call at a time.
 */
module K8sDriver {
  import opened Prelude

  /** The three kinds have separate name spaces; a value is what the driver cares about. */
  datatype Cluster = Cluster(
    configMaps: map<string, string>,   // name -> task.json
    jobs: map<string, nat>,            // name -> UID
    secrets: map<string, nat>)         // name -> UID of the owning Job

  datatype Dispatching =
    | CreateConfigMap(task: string)
    | CreateJob(task: string)
    | UndoConfigMap(task: string)             // after a failed Job create
    | CreateSecret(task: string, uid: nat)
    | DeleteJob(task: string)                 // after a failed Secret create
    | DeleteConfigMap(task: string)           // after that
    | Dispatched(task: string)
    | Refused(task: string)
  {
    predicate Done() { Dispatched? || Refused? }

    /** Holds the task's ConfigMap, which acts as the lock on the task's names. */
    predicate Holder() {
      CreateJob? || UndoConfigMap? || CreateSecret? || DeleteJob? || DeleteConfigMap? || Dispatched?
    }
  }

  /** `uid` is the UID the API server gives to a created Job. */
  datatype Choice = Choice(fault: Fault, uid: nat)

  datatype Sys = Sys(cluster: Cluster, procs: seq<Dispatching>, usedUids: set<nat>)

  datatype Step = Begin(task: string) | Go(proc: nat, choice: Choice)

  const PREFIX := "hermesmanager-"
  const CONFIG_SUFFIX := "-config"
  const TOKEN_SUFFIX := "-token"

  function JobName(task: string): string { PREFIX + task }

  function ConfigMapName(task: string): string { JobName(task) + CONFIG_SUFFIX }

  function SecretName(task: string): string { JobName(task) + TOKEN_SUFFIX }

  lemma NamesInjective(a: string, b: string)
    ensures JobName(a) == JobName(b) <==> a == b
    ensures ConfigMapName(a) == ConfigMapName(b) <==> a == b
    ensures SecretName(a) == SecretName(b) <==> a == b
  {
    assert JobName(a)[|PREFIX|..] == a && JobName(b)[|PREFIX|..] == b;
    assert ConfigMapName(a)[..|JobName(a)|] == JobName(a);
    assert SecretName(a)[..|JobName(a)|] == JobName(a);
    assert ConfigMapName(b)[..|ConfigMapName(b)| - |CONFIG_SUFFIX|] == JobName(b);
    assert SecretName(b)[..|SecretName(b)| - |TOKEN_SUFFIX|] == JobName(b);
  }

  datatype Turn = Turn(cluster: Cluster, proc: Dispatching)

  /** Creating a name that exists is refused by the API server. */
  function Advance(c: Cluster, p: Dispatching, choice: Choice): Turn {
    var took := !choice.fault.LostBefore?;
    var ok := choice.fault.Healthy?;
    match p
    case CreateConfigMap(task) =>
      if !took || ConfigMapName(task) in c.configMaps then Turn(c, Refused(task))
      else Turn(c.(configMaps := c.configMaps[ConfigMapName(task) := task]),
                if ok then CreateJob(task) else Refused(task))
    case CreateJob(task) =>
      if !took || JobName(task) in c.jobs then Turn(c, UndoConfigMap(task))
      else Turn(c.(jobs := c.jobs[JobName(task) := choice.uid]),
                if ok then CreateSecret(task, choice.uid) else UndoConfigMap(task))
    case UndoConfigMap(task) =>
      Turn(if took then c.(configMaps := c.configMaps - {ConfigMapName(task)}) else c, Refused(task))
    case CreateSecret(task, uid) =>
      if !took || SecretName(task) in c.secrets then Turn(c, DeleteJob(task))
      else Turn(c.(secrets := c.secrets[SecretName(task) := uid]), if ok then Dispatched(task) else DeleteJob(task))
    case DeleteJob(task) =>
      Turn(if took then c.(jobs := c.jobs - {JobName(task)}) else c, DeleteConfigMap(task))
    case DeleteConfigMap(task) =>
      Turn(if took then c.(configMaps := c.configMaps - {ConfigMapName(task)}) else c, Refused(task))
    case Dispatched(_) => Turn(c, p)
    case Refused(_) => Turn(c, p)
  }

  /** The API server never reuses a UID: such a step does not happen. */
  predicate UidFresh(s: Sys, a: Step) {
    a.Go? && a.proc < |s.procs| && s.procs[a.proc].CreateJob? ==> a.choice.uid !in s.usedUids
  }

  function Next(s: Sys, a: Step): Sys {
    match a
    case Begin(task) => s.(procs := s.procs + [CreateConfigMap(task)])
    case Go(i, choice) =>
      if i >= |s.procs| then s
      else
        var turn := Advance(s.cluster, s.procs[i], choice);
        Sys(turn.cluster, s.procs[i := turn.proc],
            if s.procs[i].CreateJob? then s.usedUids + {choice.uid} else s.usedUids)
  }

  function Run(s: Sys, steps: seq<Step>): Sys
    decreases |steps|
  {
    if steps == [] then s else Run(Next(s, steps[0]), steps[1..])
  }

  // ---------------------------------------------------------------- What a task owns

  /** The objects that carry the task's names. */
  datatype View = View(configMap: Option<string>, job: Option<nat>, secret: Option<nat>)

  /** The names are the ones the Job's pod looks its configuration and its token up by. */
  function ViewOf(c: Cluster, task: string): (v: View)
    ensures v.configMap == LookUp(c.configMaps, "hermesmanager-" + task + "-config")
    ensures v.job == LookUp(c.jobs, "hermesmanager-" + task)
    ensures v.secret == LookUp(c.secrets, "hermesmanager-" + task + "-token")
  {
    View(LookUp(c.configMaps, ConfigMapName(task)), LookUp(c.jobs, JobName(task)), LookUp(c.secrets, SecretName(task)))
  }

  /** A step of one task's dispatch never touches another task's objects. */
  lemma OthersUntouched(c: Cluster, p: Dispatching, choice: Choice, task: string)
    requires p.task != task
    ensures ViewOf(Advance(c, p, choice).cluster, task) == ViewOf(c, task)
  {
    NamesInjective(p.task, task);
  }

  /** Failed creates have no effect; cleanup deletes succeed. */
  predicate Clean(p: Dispatching, choice: Choice) {
    match p
    case CreateConfigMap(_) => !choice.fault.LostAfter?
    case CreateJob(_) => !choice.fault.LostAfter?
    case CreateSecret(_, _) => !choice.fault.LostAfter?
    case UndoConfigMap(_) => !choice.fault.LostBefore?
    case DeleteJob(_) => !choice.fault.LostBefore?
    case DeleteConfigMap(_) => !choice.fault.LostBefore?
    case _ => true
  }

  predicate StepClean(s: Sys, a: Step) {
    a.Go? && a.proc < |s.procs| ==> Clean(s.procs[a.proc], a.choice)
  }

  ghost predicate RunOk(s: Sys, steps: seq<Step>)
    decreases |steps|
  {
    steps == [] || (StepClean(s, steps[0]) && UidFresh(s, steps[0]) && RunOk(Next(s, steps[0]), steps[1..]))
  }

  /**
   What the task's names hold, given the dispatch that holds its ConfigMap; `before`
   is what they held when the run began.
   */
  ghost predicate Expected(before: View, now: View, p: Dispatching) {
    before.configMap.None? && now.configMap == Some(p.task) &&
    match p
    case CreateJob(_) => now.job == before.job && now.secret == before.secret
    case UndoConfigMap(_) => now.job == before.job && now.secret == before.secret
    case CreateSecret(_, uid) => before.job.None? && now.job == Some(uid) && now.secret == before.secret
    case DeleteJob(_) => before.job.None? && now.job.Some? && now.secret == before.secret
    case DeleteConfigMap(_) => now.job == before.job && now.secret == before.secret
    case Dispatched(_) => before.job.None? && before.secret.None? && now.job.Some? && now.secret == now.job
    case _ => true
  }

  ghost predicate Held(procs: seq<Dispatching>, task: string) {
    exists i :: 0 <= i < |procs| && procs[i].Holder() && procs[i].task == task
  }

  ghost predicate OneHolder(procs: seq<Dispatching>) {
    forall i, j :: 0 <= i < j < |procs| && procs[i].Holder() && procs[j].Holder() ==> procs[i].task != procs[j].task
  }

  ghost predicate Inv(start: Cluster, s: Sys) {
    && OneHolder(s.procs)
    && (forall i :: 0 <= i < |s.procs| && s.procs[i].Holder() ==>
          Expected(ViewOf(start, s.procs[i].task), ViewOf(s.cluster, s.procs[i].task), s.procs[i]))
    && (forall task :: !Held(s.procs, task) ==> ViewOf(s.cluster, task) == ViewOf(start, task))
  }

  lemma AdvanceExpected(before: View, c: Cluster, p: Dispatching, choice: Choice)
    requires p.Holder() && Expected(before, ViewOf(c, p.task), p) && Clean(p, choice)
    ensures var turn := Advance(c, p, choice);
            if turn.proc.Holder() then Expected(before, ViewOf(turn.cluster, p.task), turn.proc)
            else ViewOf(turn.cluster, p.task) == before
  {
  }

  lemma AdvanceLock(c: Cluster, task: string, choice: Choice)
    requires Clean(CreateConfigMap(task), choice)
    ensures var turn := Advance(c, CreateConfigMap(task), choice);
            if turn.proc.Holder() then Expected(ViewOf(c, task), ViewOf(turn.cluster, task), turn.proc)
            else turn.cluster == c
  {
  }

  lemma AdvanceTask(c: Cluster, p: Dispatching, choice: Choice)
    ensures Advance(c, p, choice).proc.task == p.task
    ensures Advance(c, p, choice).proc.Holder() ==> p.Holder() || p.CreateConfigMap?
  {
  }

  /** While a task is held its ConfigMap exists, so no other dispatch can lock it. */
  lemma LockExcludes(start: Cluster, s: Sys, i: nat, choice: Choice)
    requires Inv(start, s) && i < |s.procs| && s.procs[i].CreateConfigMap?
    requires Advance(s.cluster, s.procs[i], choice).proc.Holder()
    ensures !Held(s.procs, s.procs[i].task)
  {
  }

  lemma GoHeld(s: Sys, i: nat, choice: Choice, task: string)
    requires i < |s.procs| && s.procs[i].task != task
    ensures Held(Next(s, Go(i, choice)).procs, task) <==> Held(s.procs, task)
  {
    var s' := Next(s, Go(i, choice));
    AdvanceTask(s.cluster, s.procs[i], choice);
    if Held(s.procs, task) {
      var k :| 0 <= k < |s.procs| && s.procs[k].Holder() && s.procs[k].task == task;
      assert s'.procs[k] == s.procs[k];
    }
    if Held(s'.procs, task) {
      var k :| 0 <= k < |s'.procs| && s'.procs[k].Holder() && s'.procs[k].task == task;
      assert s'.procs[k] == s.procs[k];
    }
  }

  lemma GoOneHolder(start: Cluster, s: Sys, i: nat, choice: Choice)
    requires Inv(start, s) && i < |s.procs|
    ensures OneHolder(Next(s, Go(i, choice)).procs)
  {
    var p := s.procs[i];
    var s' := Next(s, Go(i, choice));
    AdvanceTask(s.cluster, p, choice);
    if s'.procs[i].Holder() && p.CreateConfigMap? {
      LockExcludes(start, s, i, choice);
    }
    forall j, k | 0 <= j < k < |s'.procs| && s'.procs[j].Holder() && s'.procs[k].Holder()
      ensures s'.procs[j].task != s'.procs[k].task
    {
      if j == i {
        assert s'.procs[k] == s.procs[k];
      } else if k == i {
        assert s'.procs[j] == s.procs[j];
      }
    }
  }

  /** What becomes of the stepping dispatch's own task. */
  lemma GoOwnTask(start: Cluster, s: Sys, i: nat, choice: Choice)
    requires Inv(start, s) && i < |s.procs| && Clean(s.procs[i], choice)
    ensures var s' := Next(s, Go(i, choice));
            var task := s.procs[i].task;
            if s'.procs[i].Holder() then Expected(ViewOf(start, task), ViewOf(s'.cluster, task), s'.procs[i])
            else !Held(s'.procs, task) ==> ViewOf(s'.cluster, task) == ViewOf(start, task)
    ensures !s.procs[i].Holder() && !Next(s, Go(i, choice)).procs[i].Holder() ==>
              Next(s, Go(i, choice)).cluster == s.cluster
  {
    var p := s.procs[i];
    var s' := Next(s, Go(i, choice));
    if p.Holder() {
      AdvanceExpected(ViewOf(start, p.task), s.cluster, p, choice);
    } else if p.CreateConfigMap? {
      AdvanceLock(s.cluster, p.task, choice);
      if s'.procs[i].Holder() {
        LockExcludes(start, s, i, choice);
      } else {
        StillHeld(s, i, choice);
      }
    } else {
      StillHeld(s, i, choice);
    }
  }

  lemma StillHeld(s: Sys, i: nat, choice: Choice)
    requires i < |s.procs| && !s.procs[i].Holder()
    ensures Held(s.procs, s.procs[i].task) ==> Held(Next(s, Go(i, choice)).procs, s.procs[i].task)
  {
    var t := s.procs[i].task;
    if Held(s.procs, t) {
      var k :| 0 <= k < |s.procs| && s.procs[k].Holder() && s.procs[k].task == t;
      assert Next(s, Go(i, choice)).procs[k] == s.procs[k];
    }
  }

  lemma GoInv(start: Cluster, s: Sys, i: nat, choice: Choice)
    requires Inv(start, s) && i < |s.procs| && Clean(s.procs[i], choice)
    ensures Inv(start, Next(s, Go(i, choice)))
  {
    var p := s.procs[i];
    var s' := Next(s, Go(i, choice));
    AdvanceTask(s.cluster, p, choice);
    GoOneHolder(start, s, i, choice);
    GoOwnTask(start, s, i, choice);
    forall k | 0 <= k < |s'.procs| && s'.procs[k].Holder()
      ensures Expected(ViewOf(start, s'.procs[k].task), ViewOf(s'.cluster, s'.procs[k].task), s'.procs[k])
    {
      if k != i {
        if s.procs[k].task != p.task {
          OthersUntouched(s.cluster, p, choice, s.procs[k].task);
        }
      }
    }
    forall task | !Held(s'.procs, task) ensures ViewOf(s'.cluster, task) == ViewOf(start, task) {
      if task != p.task {
        GoHeld(s, i, choice, task);
        OthersUntouched(s.cluster, p, choice, task);
      }
    }
  }

  lemma BeginInv(start: Cluster, s: Sys, task: string)
    requires Inv(start, s)
    ensures Inv(start, Next(s, Begin(task)))
  {
    var s' := Next(s, Begin(task));
    forall t | Held(s.procs, t) ensures Held(s'.procs, t) {
      var k :| 0 <= k < |s.procs| && s.procs[k].Holder() && s.procs[k].task == t;
      assert s'.procs[k] == s.procs[k];
    }
  }

  lemma {:induction false} InvRun(start: Cluster, s: Sys, steps: seq<Step>)
    requires Inv(start, s) && RunOk(s, steps)
    ensures Inv(start, Run(s, steps))
    decreases |steps|
  {
    if steps != [] {
      match steps[0] {
        case Begin(task) => BeginInv(start, s, task);
        case Go(i, choice) =>
          if i < |s.procs| {
            GoInv(start, s, i, choice);
          }
      }
      InvRun(start, Next(s, steps[0]), steps[1..]);
    }
  }

  ghost predicate InFlight(procs: seq<Dispatching>, task: string) {
    exists i :: 0 <= i < |procs| && procs[i].task == task && !procs[i].Done()
  }

  ghost predicate Succeeded(procs: seq<Dispatching>, task: string) {
    exists i :: 0 <= i < |procs| && procs[i] == Dispatched(task)
  }

  /**
   Saga atomicity: after any interleaving of dispatches, of distinct or equal task
   ids, in which failed creates have no effect and cleanup deletes succeed, a task
   with no dispatch in flight holds exactly its ConfigMap, Job and Secret if one of
   its dispatches succeeded, and otherwise whatever its names held at the start.
   The Secret's owner is that Job, and at most one dispatch of a task succeeds.
   */
  lemma SagaAtomic(start: Cluster, used: set<nat>, steps: seq<Step>, task: string)
    requires RunOk(Sys(start, [], used), steps)
    requires !InFlight(Run(Sys(start, [], used), steps).procs, task)
    ensures var s := Run(Sys(start, [], used), steps);
            var before, now := ViewOf(start, task), ViewOf(s.cluster, task);
            if Succeeded(s.procs, task)
            then before == View(None, None, None) && now.job.Some? && now == View(Some(task), now.job, now.job)
            else now == before
    ensures var procs := Run(Sys(start, [], used), steps).procs;
            forall i, j :: 0 <= i < j < |procs| && procs[i] == Dispatched(task) ==> procs[j] != Dispatched(task)
  {
    var s := Run(Sys(start, [], used), steps);
    InvRun(start, Sys(start, [], used), steps);
    SucceededIsHeld(s.procs, task);
    if Held(s.procs, task) {
      var i :| 0 <= i < |s.procs| && s.procs[i].Holder() && s.procs[i].task == task;
      assert s.procs[i].Done();
      assert s.procs[i] == Dispatched(task);
    }
  }

  lemma SucceededIsHeld(procs: seq<Dispatching>, task: string)
    ensures Succeeded(procs, task) ==> Held(procs, task)
  {
  }

  // ---------------------------------------------------------------- Secrets and their owners

  /** Every secret of the run's tasks is owned by the job of the same task, and job UIDs differ. */
  ghost predicate UidsOk(s: Sys) {
    && (forall n :: n in s.cluster.jobs ==> s.cluster.jobs[n] in s.usedUids)
    && (forall m, n :: m in s.cluster.jobs && n in s.cluster.jobs && m != n ==> s.cluster.jobs[m] != s.cluster.jobs[n])
  }

  lemma {:induction false} UidsRun(s: Sys, steps: seq<Step>)
    requires UidsOk(s) && RunOk(s, steps)
    ensures UidsOk(Run(s, steps))
    decreases |steps|
  {
    if steps != [] {
      UidsRun(Next(s, steps[0]), steps[1..]);
    }
  }

  /** The owner UID of a dispatched task's Secret names its own Job and no other. */
  lemma SecretOwnerIsOwnJob(start: Cluster, used: set<nat>, steps: seq<Step>, task: string, name: string)
    requires UidsOk(Sys(start, [], used)) && RunOk(Sys(start, [], used), steps)
    requires Succeeded(Run(Sys(start, [], used), steps).procs, task)
    ensures var c := Run(Sys(start, [], used), steps).cluster;
            var secret := "hermesmanager-" + task + "-token";
            && secret in c.secrets
            && (name in c.jobs && c.jobs[name] == c.secrets[secret] <==> name == "hermesmanager-" + task)
  {
    var s := Run(Sys(start, [], used), steps);
    InvRun(start, Sys(start, [], used), steps);
    UidsRun(Sys(start, [], used), steps);
    var i :| 0 <= i < |s.procs| && s.procs[i] == Dispatched(task);
    assert Expected(ViewOf(start, task), ViewOf(s.cluster, task), s.procs[i]);
  }

  // ---------------------------------------------------------------- One dispatch alone

  /** A fault for every API call of one dispatch, and the Job's UID. */
  datatype Env = Env(
    createConfigMap: Fault, createJob: Fault, undoConfigMap: Fault,
    createSecret: Fault, deleteJob: Fault, deleteConfigMap: Fault, uid: nat)
  {
    function At(p: Dispatching): Choice {
      match p
      case CreateConfigMap(_) => Choice(createConfigMap, uid)
      case CreateJob(_) => Choice(createJob, uid)
      case UndoConfigMap(_) => Choice(undoConfigMap, uid)
      case CreateSecret(_, _) => Choice(createSecret, uid)
      case DeleteJob(_) => Choice(deleteJob, uid)
      case DeleteConfigMap(_) => Choice(deleteConfigMap, uid)
      case _ => Choice(Healthy, uid)
    }
  }

  /** n steps of one dispatch with nothing in between; five always finish it. */
  function Solo(c: Cluster, p: Dispatching, env: Env, n: nat): Turn
    decreases n
  {
    if n == 0 then Turn(c, p)
    else
      var turn := Advance(c, p, env.At(p));
      Solo(turn.cluster, turn.proc, env, n - 1)
  }

  const LONGEST := 5

  /** The failure patterns in which a dispatch of unused names cleans up after itself. */
  predicate CleansUp(env: Env) {
    match env.createConfigMap
    case LostBefore => true
    case LostAfter => false
    case Healthy =>
      match env.createJob
      case LostBefore => !env.undoConfigMap.LostBefore?
      case LostAfter => false
      case Healthy =>
        match env.createSecret
        case Healthy => true
        case LostBefore => !env.deleteJob.LostBefore? && !env.deleteConfigMap.LostBefore?
        case LostAfter => false
  }

  /**
   All or nothing, exactly: on unused names, a dispatch that reports success has made
   its three objects, and one that reports failure has left nothing if and only if
   the failure pattern is one of `CleansUp`.
   */
  lemma AtomicExactlyWhen(c: Cluster, task: string, env: Env)
    requires ViewOf(c, task) == View(None, None, None)
    ensures var turn := Solo(c, CreateConfigMap(task), env, LONGEST);
            && turn.proc.Done()
            && (turn.proc.Dispatched? ==> ViewOf(turn.cluster, task) == View(Some(task), Some(env.uid), Some(env.uid)))
            && (turn.proc.Dispatched? || turn.cluster == c <==> CleansUp(env))
  {
    var t1 := Advance(c, CreateConfigMap(task), env.At(CreateConfigMap(task)));
    if t1.proc.CreateJob? {
      AtomicFromJob(t1.cluster, task, env);
      assert t1.cluster.configMaps - {ConfigMapName(task)} == c.configMaps;
      assert LookUp(t1.cluster.configMaps, ConfigMapName(task)) == Some(task);
    } else {
      SoloDone(t1.cluster, t1.proc, env, 4);
      assert env.createConfigMap.LostAfter? ==> ConfigMapName(task) in t1.cluster.configMaps;
    }
  }

  lemma {:induction false} SoloDone(c: Cluster, p: Dispatching, env: Env, n: nat)
    requires p.Done()
    ensures Solo(c, p, env, n) == Turn(c, p)
  {
    if n > 0 {
      SoloDone(c, p, env, n - 1);
    }
  }

  /** From a ConfigMap made and the other two names unused, in at most four more steps. */
  lemma AtomicFromJob(c: Cluster, task: string, env: Env)
    requires LookUp(c.configMaps, ConfigMapName(task)) == Some(task)
    requires JobName(task) !in c.jobs && SecretName(task) !in c.secrets
    ensures var turn := Solo(c, CreateJob(task), env, 4);
            var undone := c.(configMaps := c.configMaps - {ConfigMapName(task)});
            && turn.proc.Done()
            && (turn.proc.Dispatched? <==> env.createJob.Healthy? && env.createSecret.Healthy?)
            && (turn.proc.Dispatched? ==> ViewOf(turn.cluster, task) == View(Some(task), Some(env.uid), Some(env.uid)))
            && (!turn.proc.Dispatched? ==> (turn.cluster == undone <==> CleansUp(env.(createConfigMap := Healthy))))
  {
  }

  // ---------------------------------------------------------------- One dispatch, object by object

  /**
   Everything one undisturbed dispatch does, from the faults and from which of its
   three names were taken: its answer, and each of the three kinds of object.
   */
  ghost predicate DispatchDid(c: Cluster, task: string, env: Env, c': Cluster, handle: Option<string>) {
    var job := "hermesmanager-" + task;
    var config, secret := job + "-config", job + "-token";
    var configured := env.createConfigMap.Healthy? && config !in c.configMaps;
    var started := configured && env.createJob.Healthy? && job !in c.jobs;
    var dispatched := started && env.createSecret.Healthy? && secret !in c.secrets;
    var undone := (configured && !started && !env.undoConfigMap.LostBefore?) ||
                  (started && !dispatched && !env.deleteConfigMap.LostBefore?);
    && handle == (if dispatched then Some(job) else None)
    && c'.configMaps == (if env.createConfigMap.LostBefore? || config in c.configMaps || undone then c.configMaps
                         else c.configMaps[config := task])
    && c'.jobs == (if !configured || env.createJob.LostBefore? || job in c.jobs ||
                      (started && !dispatched && !env.deleteJob.LostBefore?) then c.jobs
                   else c.jobs[job := env.uid])
    && c'.secrets == (if !started || env.createSecret.LostBefore? || secret in c.secrets then c.secrets
                      else c.secrets[secret := env.uid])
  }

  // ---------------------------------------------------------------- The driver object

  class Driver {
    var cluster: Cluster

    constructor (cluster: Cluster)
      ensures this.cluster == cluster
    {
      this.cluster := cluster;
    }

    /** Dispatch, undisturbed; the answer is the external id, the Job's name. */
    method Dispatch(task: string, env: Env) returns (handle: Option<string>)
      modifies this
      ensures var turn := Solo(old(cluster), CreateConfigMap(task), env, LONGEST);
              cluster == turn.cluster &&
              turn.proc == (if handle.Some? then Dispatched(task) else Refused(task)) &&
              (handle.Some? ==> handle.value == JobName(task))
      ensures DispatchDid(old(cluster), task, env, cluster, handle)
      ensures handle.Some? ==>
                && handle.value == "hermesmanager-" + task
                && cluster == Cluster(old(cluster).configMaps["hermesmanager-" + task + "-config" := task],
                                      old(cluster).jobs["hermesmanager-" + task := env.uid],
                                      old(cluster).secrets["hermesmanager-" + task + "-token" := env.uid])
    {
      var jobName := JobName(task);
      var cmName := jobName + CONFIG_SUFFIX;
      var secretName := jobName + TOKEN_SUFFIX;
      ghost var start := cluster;

      var ok := CreateConfigMapCall(cmName, task, env.createConfigMap);
      ghost var p1 := if ok then CreateJob(task) else Refused(task);
      SoloStep(start, CreateConfigMap(task), env, 4, Turn(cluster, p1));
      if !ok {
        SoloDone(cluster, p1, env, 4);
        return None;
      }

      ghost var c1 := cluster;
      ok := CreateJobCall(jobName, env.uid, env.createJob);
      ghost var p2 := if ok then CreateSecret(task, env.uid) else UndoConfigMap(task);
      SoloStep(c1, p1, env, 3, Turn(cluster, p2));
      ghost var c2 := cluster;
      if !ok {
        DeleteConfigMapCall(cmName, env.undoConfigMap);
        SoloStep(c2, p2, env, 2, Turn(cluster, Refused(task)));
        SoloDone(cluster, Refused(task), env, 2);
        return None;
      }

      ok := CreateSecretCall(secretName, env.uid, env.createSecret);
      ghost var p3 := if ok then Dispatched(task) else DeleteJob(task);
      SoloStep(c2, p2, env, 2, Turn(cluster, p3));
      ghost var c3 := cluster;
      if !ok {
        DeleteJobCall(jobName, env.deleteJob);
        SoloStep(c3, p3, env, 1, Turn(cluster, DeleteConfigMap(task)));
        ghost var c4 := cluster;
        DeleteConfigMapCall(cmName, env.deleteConfigMap);
        SoloStep(c4, DeleteConfigMap(task), env, 0, Turn(cluster, Refused(task)));
        return None;
      }
      SoloDone(cluster, p3, env, 2);
      return Some(jobName);
    }

    method CreateConfigMapCall(name: string, data: string, fault: Fault) returns (ok: bool)
      modifies this
      ensures ok <==> fault.Healthy? && name !in old(cluster).configMaps
      ensures cluster == if fault.LostBefore? || name in old(cluster).configMaps then old(cluster)
                         else old(cluster).(configMaps := old(cluster).configMaps[name := data])
    {
      if fault.LostBefore? || name in cluster.configMaps {
        return false;
      }
      cluster := cluster.(configMaps := cluster.configMaps[name := data]);
      return fault.Healthy?;
    }

    method CreateJobCall(name: string, uid: nat, fault: Fault) returns (ok: bool)
      modifies this
      ensures ok <==> fault.Healthy? && name !in old(cluster).jobs
      ensures cluster == if fault.LostBefore? || name in old(cluster).jobs then old(cluster)
                         else old(cluster).(jobs := old(cluster).jobs[name := uid])
    {
      if fault.LostBefore? || name in cluster.jobs {
        return false;
      }
      cluster := cluster.(jobs := cluster.jobs[name := uid]);
      return fault.Healthy?;
    }

    method CreateSecretCall(name: string, owner: nat, fault: Fault) returns (ok: bool)
      modifies this
      ensures ok <==> fault.Healthy? && name !in old(cluster).secrets
      ensures cluster == if fault.LostBefore? || name in old(cluster).secrets then old(cluster)
                         else old(cluster).(secrets := old(cluster).secrets[name := owner])
    {
      if fault.LostBefore? || name in cluster.secrets {
        return false;
      }
      cluster := cluster.(secrets := cluster.secrets[name := owner]);
      return fault.Healthy?;
    }

    method DeleteConfigMapCall(name: string, fault: Fault)
      modifies this
      ensures cluster == if fault.LostBefore? then old(cluster)
                         else old(cluster).(configMaps := old(cluster).configMaps - {name})
    {
      if !fault.LostBefore? {
        cluster := cluster.(configMaps := cluster.configMaps - {name});
      }
    }

    method DeleteJobCall(name: string, fault: Fault)
      modifies this
      ensures cluster == if fault.LostBefore? then old(cluster)
                         else old(cluster).(jobs := old(cluster).jobs - {name})
    {
      if !fault.LostBefore? {
        cluster := cluster.(jobs := cluster.jobs - {name});
      }
    }
  }

  lemma SoloStep(c: Cluster, p: Dispatching, env: Env, n: nat, turn: Turn)
    requires Advance(c, p, env.At(p)) == turn
    ensures Solo(c, p, env, n + 1) == Solo(turn.cluster, turn.proc, env, n)
  {
  }
}

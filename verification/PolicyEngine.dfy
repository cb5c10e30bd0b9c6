/**
 The mutable engine of internal/policy/engine.go: its methods, and the atomicity
 of reloads against concurrent evaluations.
 */
module PolicyEngine {
  import opened Prelude
  import opened Policy

  /** What reading and parsing a policy file yields; None is a read or parse error. */
  type Parsed = Option<seq<Rule>>

  class Engine {
    var rules: seq<Rule>
    var filePath: string

    /** NewEngine with no file path: zero rules, everything allowed. */
    constructor ()
      ensures rules == [] && filePath == ""
    {
      rules := [];
      filePath := "";
    }

    /** NewEngine with a file that parses; when it does not, there is no engine. */
    constructor FromFile(path: string, loaded: seq<Rule>)
      ensures rules == loaded && filePath == path
    {
      rules := loaded;
      filePath := path;
    }

    /** A failed read or parse leaves the engine alone; otherwise rules and path change together. */
    method LoadFromFile(path: string, parsed: Parsed) returns (ok: bool)
      modifies this
      ensures ok == parsed.Some?
      ensures if ok then rules == parsed.value && filePath == path
              else rules == old(rules) && filePath == old(filePath)
    {
      match parsed {
        case None => return false;
        case Some(loaded) =>
          rules := loaded;
          filePath := path;
          return true;
      }
    }

    /** `disk` is what each path holds at the moment of the read. */
    method Reload(disk: string -> Parsed) returns (ok: bool)
      modifies this
      ensures filePath == old(filePath)
      ensures ok <==> old(filePath) != "" && disk(old(filePath)).Some?
      ensures rules == if ok then disk(filePath).value else old(rules)
    {
      var path := filePath;
      if path == "" {
        return false;
      }
      ok := LoadFromFile(path, disk(path));
    }

    /** The early-exit loop over the conditions, in whatever order the map yields them. */
    method MatchRule(rule: Rule, req: PolicyRequest) returns (matched: bool)
      ensures matched == Matches(rule, req)
      ensures var c := rule.conditions;
              matched <==>
                && (Model in c ==> c[Model] == req.model)
                && (User in c ==> c[User] == req.user)
                && (Team in c ==> c[Team] == req.team)
                && (Tool in c ==> c[Tool] == req.tool)
                && (CostUsd in c ==> c[CostUsd] == req.costUsd)
                && (forall key :: Unknown(key) !in c)
    {
      MatchesFieldByField(rule, req);
      var keys := rule.conditions.Keys;
      while keys != {}
        invariant keys <= rule.conditions.Keys
        invariant forall f :: f in rule.conditions && f !in keys ==> Actual(req, f) == Some(rule.conditions[f])
        decreases keys
      {
        var key :| key in keys;
        var actual := "";
        match key {
          case Model => actual := req.model;
          case User => actual := req.user;
          case Team => actual := req.team;
          case Tool => actual := req.tool;
          case CostUsd => actual := req.costUsd;
          case Unknown(_) => return false;
        }
        if actual != rule.conditions[key] {
          return false;
        }
        keys := keys - {key};
      }
      return true;
    }

    method Evaluate(req: PolicyRequest) returns (v: Verdict)
      ensures v == Policy.Evaluate(rules, req)
      ensures FirstMatchDecides(rules, req, v)
    {
      EvaluateExactlyWhen(rules, req, Policy.Evaluate(rules, req));
      var snapshot := rules;
      var i := 0;
      while i < |snapshot|
        invariant i <= |snapshot|
        invariant Policy.Evaluate(snapshot[i..], req) == Policy.Evaluate(snapshot, req)
      {
        var matched := MatchRule(snapshot[i], req);
        if matched {
          match snapshot[i].action {
            case Deny => return Verdict(false, snapshot[i].id, false);
            case Allow => return Verdict(true, "", false);
            case Other(_) => return Verdict(false, snapshot[i].id, true);
          }
        }
        assert snapshot[i..][1..] == snapshot[i + 1..];
        i := i + 1;
      }
      return Verdict(true, "", false);
    }
  }

  // ---------------------------------------------------------------- Concurrent use

  /** A configuration that was installed under the lock, by one load. */
  datatype Installed = Installed(rules: seq<Rule>, filePath: string)

  /**
   Calls in flight.  `since` is how many configurations had been installed when
   the call began, `until` how many when it returned.
   */
  datatype Call =
    | Loading(path: string)                    // before the file is read
    | Installing(path: string, rules: seq<Rule>) // parsed, before the write lock
    | Reloading                                // before the path is read
    | LoadDone(ok: bool)
    | Snapshotting(req: PolicyRequest, since: nat)
    | Scanning(req: PolicyRequest, since: nat, rules: seq<Rule>, i: nat)
    | Evaluated(req: PolicyRequest, since: nat, until: nat, verdict: Verdict)

  /** `history` lists every configuration ever installed; the last one is current. */
  datatype Sys = Sys(history: seq<Installed>, calls: seq<Call>) {
    ghost predicate Valid() { history != [] }

    function Current(): Installed
      requires history != []
    {
      history[|history| - 1]
    }
  }

  datatype Step =
    | BeginLoad(path: string)
    | BeginReload
    | BeginEvaluate(req: PolicyRequest)
    | Advance(call: nat, parsed: Parsed)

  /** One atomic step of one call; `parsed` is what a file read yields in this step. */
  function AdvanceCall(s: Sys, c: Call, parsed: Parsed): (r: (Sys, Call))
    requires s.history != []
  {
    match c
    case Loading(path) =>
      (s, if parsed.Some? then Installing(path, parsed.value) else LoadDone(false))
    case Installing(path, rules) =>
      (s.(history := s.history + [Installed(rules, path)]), LoadDone(true))
    case Reloading =>
      (s, if s.Current().filePath == "" then LoadDone(false) else Loading(s.Current().filePath))
    case Snapshotting(req, since) =>
      (s, Scanning(req, since, s.Current().rules, 0))
    case Scanning(req, since, rules, i) =>
      if i >= |rules| then (s, Evaluated(req, since, |s.history|, Verdict(true, "", false)))
      else if Matches(rules[i], req) then (s, Evaluated(req, since, |s.history|, Outcome(rules[i])))
      else (s, Scanning(req, since, rules, i + 1))
    case LoadDone(_) => (s, c)
    case Evaluated(_, _, _, _) => (s, c)
  }

  function Apply(s: Sys, a: Step): Sys
    requires s.history != []
    ensures Apply(s, a).history != []
  {
    match a
    case BeginLoad(path) => s.(calls := s.calls + [Loading(path)])
    case BeginReload => s.(calls := s.calls + [Reloading])
    case BeginEvaluate(req) => s.(calls := s.calls + [Snapshotting(req, |s.history|)])
    case Advance(n, parsed) =>
      if n >= |s.calls| then s
      else
        var (s', c') := AdvanceCall(s, s.calls[n], parsed);
        s'.(calls := s.calls[n := c'])
  }

  function Run(s: Sys, steps: seq<Step>): (s': Sys)
    requires s.history != []
    ensures s'.history != []
    decreases |steps|
  {
    if steps == [] then s else Run(Apply(s, steps[0]), steps[1..])
  }

  /** A call only ever looks at a rule list that was current at some moment since it began. */
  ghost predicate CallOk(history: seq<Installed>, c: Call) {
    match c
    case Snapshotting(_, since) => 1 <= since <= |history|
    case Scanning(req, since, rules, i) =>
      i <= |rules| && Policy.Evaluate(rules[i..], req) == Policy.Evaluate(rules, req) &&
      1 <= since <= |history| &&
      exists k :: since - 1 <= k < |history| && history[k].rules == rules
    case Evaluated(req, since, until, verdict) =>
      1 <= since <= until <= |history| &&
      exists k :: since - 1 <= k < until && verdict == Policy.Evaluate(history[k].rules, req)
    case _ => true
  }

  ghost predicate Inv(s: Sys) {
    s.history != [] && forall n :: 0 <= n < |s.calls| ==> CallOk(s.history, s.calls[n])
  }

  lemma CallOkGrows(history: seq<Installed>, more: seq<Installed>, c: Call)
    requires CallOk(history, c)
    ensures CallOk(history + more, c)
  {
    match c
    case Scanning(req, since, rules, i) =>
      var k :| since - 1 <= k < |history| && history[k].rules == rules;
      assert (history + more)[k].rules == rules;
    case Evaluated(req, since, until, verdict) =>
      var k :| since - 1 <= k < until && verdict == Policy.Evaluate(history[k].rules, req);
      assert verdict == Policy.Evaluate((history + more)[k].rules, req);
    case _ =>
  }

  lemma AdvanceCallOk(s: Sys, c: Call, parsed: Parsed)
    requires s.history != [] && CallOk(s.history, c)
    ensures CallOk(AdvanceCall(s, c, parsed).0.history, AdvanceCall(s, c, parsed).1)
  {
  }

  lemma InvStep(s: Sys, a: Step)
    requires Inv(s)
    ensures Inv(Apply(s, a)) && s.history <= Apply(s, a).history
  {
    match a
    case Advance(n, parsed) =>
      if n < |s.calls| {
        var (s', c') := AdvanceCall(s, s.calls[n], parsed);
        var more := s'.history[|s.history|..];
        assert s'.history == s.history + more;
        AdvanceCallOk(s, s.calls[n], parsed);
        forall m | 0 <= m < |s.calls| ensures CallOk(s'.history, Apply(s, a).calls[m]) {
          CallOkGrows(s.history, more, s.calls[m]);
        }
      }
    case _ =>
  }

  lemma {:induction false} InvRun(s: Sys, steps: seq<Step>)
    requires Inv(s)
    ensures Inv(Run(s, steps)) && s.history <= Run(s, steps).history
    decreases |steps|
  {
    if steps != [] {
      InvStep(s, steps[0]);
      InvRun(Apply(s, steps[0]), steps[1..]);
    }
  }

  /** The call is an evaluation of `req` that began when `since` configurations had been installed. */
  predicate EvaluationOf(c: Call, req: PolicyRequest, since: nat) {
    match c
    case Snapshotting(r, n) => r == req && n == since
    case Scanning(r, n, _, _) => r == req && n == since
    case Evaluated(r, n, _, _) => r == req && n == since
    case _ => false
  }

  lemma {:induction false} EvaluationStays(s: Sys, steps: seq<Step>, n: nat, req: PolicyRequest, since: nat)
    requires s.history != [] && n < |s.calls| && EvaluationOf(s.calls[n], req, since)
    ensures n < |Run(s, steps).calls| && EvaluationOf(Run(s, steps).calls[n], req, since)
    decreases |steps|
  {
    if steps != [] {
      EvaluationStays(Apply(s, steps[0]), steps[1..], n, req, since);
    }
  }

  /**
   Whatever loads and reloads run before it and beside it, a finished evaluation of
   `req` gives the first-match verdict of one rule list, and that list was the current
   one at some moment since the call began.
   */
  lemma EvaluationIsAtomic(initial: Installed, before: seq<Step>, req: PolicyRequest, beside: seq<Step>)
    ensures var s := Run(Sys([initial], []), before);
            var n, s' := |s.calls|, Run(Apply(s, BeginEvaluate(req)), beside);
            && n < |s'.calls|
            && (s'.calls[n].Evaluated? ==>
                  exists k :: |s.history| - 1 <= k < |s'.history| &&
                    FirstMatchDecides(s'.history[k].rules, req, s'.calls[n].verdict))
  {
    var start := Sys([initial], []);
    InvRun(start, before);
    var s := Run(start, before);
    var begun := Apply(s, BeginEvaluate(req));
    InvStep(s, BeginEvaluate(req));
    InvRun(begun, beside);
    EvaluationStays(begun, beside, |s.calls|, req, |s.history|);
    var c := Run(begun, beside).calls[|s.calls|];
    assert CallOk(Run(begun, beside).history, c);
    if c.Evaluated? {
      var history := Run(begun, beside).history;
      var k :| c.since - 1 <= k < c.until && c.verdict == Policy.Evaluate(history[k].rules, c.req);
      EvaluateExactlyWhen(history[k].rules, req, c.verdict);
    }
  }

  // ---------------------------------------------------------------- Where configurations come from

  lemma {:induction false} RunSnoc(s: Sys, steps: seq<Step>, a: Step)
    requires s.history != []
    ensures Run(s, steps).history != [] && Run(s, steps + [a]) == Apply(Run(s, steps), a)
    decreases |steps|
  {
    if steps == [] {
      assert [a][1..] == [];
    } else {
      assert (steps + [a])[1..] == steps[1..] + [a];
      RunSnoc(Apply(s, steps[0]), steps[1..], a);
    }
  }

  /** Step `m` was a read of `path` by call `n`, and it parsed to `rules`. */
  ghost predicate ReadAt(s: Sys, steps: seq<Step>, path: string, rules: seq<Rule>, m: nat, n: nat)
    requires s.history != []
  {
    && m < |steps| && steps[m] == Advance(n, Some(rules))
    && var before := Run(s, steps[..m]);
    && n < |before.calls| && before.calls[n] == Loading(path)
  }

  ghost predicate WasRead(s: Sys, steps: seq<Step>, path: string, rules: seq<Rule>)
    requires s.history != []
  {
    exists m: nat, n: nat :: ReadAt(s, steps, path, rules, m, n)
  }

  lemma WasReadStays(s: Sys, steps: seq<Step>, a: Step, path: string, rules: seq<Rule>)
    requires s.history != [] && WasRead(s, steps, path, rules)
    ensures WasRead(s, steps + [a], path, rules)
  {
    var m: nat, n: nat :| ReadAt(s, steps, path, rules, m, n);
    assert (steps + [a])[..m] == steps[..m];
    assert ReadAt(s, steps + [a], path, rules, m, n);
  }

  /** Somebody asked for `path`: a load by name, or a reload while it was configured. */
  ghost predicate Asked(steps: seq<Step>, history: seq<Installed>, path: string) {
    BeginLoad(path) in steps || (path != "" && exists k :: 0 <= k < |history| && history[k].filePath == path)
  }

  ghost predicate Sourced(start: Sys, steps: seq<Step>)
    requires start.history != []
  {
    var s := Run(start, steps);
    && (forall k :: 1 <= k < |s.history| ==> WasRead(start, steps, s.history[k].filePath, s.history[k].rules))
    && (forall n :: 0 <= n < |s.calls| && s.calls[n].Installing? ==>
          WasRead(start, steps, s.calls[n].path, s.calls[n].rules))
    && (forall n :: 0 <= n < |s.calls| && (s.calls[n].Loading? || s.calls[n].Installing?) ==>
          Asked(steps, s.history, s.calls[n].path))
  }

  lemma SourcedReads(start: Sys, steps: seq<Step>, a: Step)
    requires |start.history| == 1 && start.calls == [] && Sourced(start, steps)
    ensures var s := Run(start, steps + [a]);
            && (forall k :: 1 <= k < |s.history| ==>
                  WasRead(start, steps + [a], s.history[k].filePath, s.history[k].rules))
            && (forall n :: 0 <= n < |s.calls| && s.calls[n].Installing? ==>
                  WasRead(start, steps + [a], s.calls[n].path, s.calls[n].rules))
  {
    var before, s := Run(start, steps), Run(start, steps + [a]);
    RunSnoc(start, steps, a);
    forall n | 0 <= n < |s.calls| && s.calls[n].Installing?
      ensures WasRead(start, steps + [a], s.calls[n].path, s.calls[n].rules)
    {
      if n < |before.calls| && before.calls[n] == s.calls[n] {
        WasReadStays(start, steps, a, s.calls[n].path, s.calls[n].rules);
      } else {
        assert (steps + [a])[..|steps|] == steps;
        assert ReadAt(start, steps + [a], s.calls[n].path, s.calls[n].rules, |steps|, n);
      }
    }
    forall k | 1 <= k < |s.history| ensures WasRead(start, steps + [a], s.history[k].filePath, s.history[k].rules) {
      WasReadStays(start, steps, a, s.history[k].filePath, s.history[k].rules);
    }
  }

  lemma SourcedPaths(start: Sys, steps: seq<Step>, a: Step)
    requires start.history != [] && Sourced(start, steps)
    ensures var s := Run(start, steps + [a]);
            forall n :: 0 <= n < |s.calls| && (s.calls[n].Loading? || s.calls[n].Installing?) ==>
              Asked(steps + [a], s.history, s.calls[n].path)
  {
    var before, s := Run(start, steps), Run(start, steps + [a]);
    RunSnoc(start, steps, a);
    assert before.history <= s.history;
    forall n | 0 <= n < |s.calls| && (s.calls[n].Loading? || s.calls[n].Installing?)
      ensures Asked(steps + [a], s.history, s.calls[n].path)
    {
      var path := s.calls[n].path;
      if n < |before.calls| && (before.calls[n].Loading? || before.calls[n].Installing?) {
        assert Asked(steps, before.history, path);
      } else if n < |before.calls| {
        assert before.calls[n].Reloading? && before.history[|before.history| - 1].filePath == path;
      } else {
        assert a == BeginLoad(path) && (steps + [a])[|steps|] == a;
      }
    }
  }

  /**
   Every configuration after the first is what one read of its file parsed to, made by
   a call for that path; and a path is only read because a load named it or because it
   was the configured path of some installed configuration.
   */
  lemma {:induction false} ConfigurationsAreSourced(initial: Installed, steps: seq<Step>)
    ensures Sourced(Sys([initial], []), steps)
    decreases |steps|
  {
    if steps != [] {
      var n := |steps| - 1;
      ConfigurationsAreSourced(initial, steps[..n]);
      assert steps == steps[..n] + [steps[n]];
      SourcedReads(Sys([initial], []), steps[..n], steps[n]);
      SourcedPaths(Sys([initial], []), steps[..n], steps[n]);
    }
  }

  /**
   The current rules and path change only when a load that parsed its file takes
   the lock, they then change together to that load's, and a load that fails
   changes neither.
   */
  lemma OnlyInstallChanges(s: Sys, a: Step)
    requires s.history != []
    ensures Apply(s, a).Current() == s.Current() ||
            (a.Advance? && a.call < |s.calls| && s.calls[a.call].Installing? &&
             Apply(s, a).Current() == Installed(s.calls[a.call].rules, s.calls[a.call].path) &&
             Apply(s, a).calls[a.call] == LoadDone(true))
    ensures a.Advance? && a.call < |s.calls| && Apply(s, a).calls[a.call] == LoadDone(false) ==>
            Apply(s, a).history == s.history
  {
  }
}

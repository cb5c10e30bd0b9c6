/**
 The policy engine (internal/policy): first-match evaluation, how it relates to
 the deny-overrides reading that types.go documents, and the removal of
 shadowed rules.
 */
module Policy {
  import opened Prelude

  datatype Action = Deny | Allow | Other(text: string)

  /** The condition keys matchRule knows, and all the others. */
  datatype Field = Model | User | Team | Tool | CostUsd | Unknown(key: string)

  datatype Rule = Rule(id: string, action: Action, conditions: map<Field, string>)

  /** `costUsd` is the rendered text of the cost, which is what conditions compare with. */
  datatype PolicyRequest = PolicyRequest(model: string, user: string, team: string, tool: string, costUsd: string)

  datatype Verdict = Verdict(allowed: bool, ruleId: string, err: bool)

  function Actual(req: PolicyRequest, f: Field): Option<string> {
    match f
    case Model => Some(req.model)
    case User => Some(req.user)
    case Team => Some(req.team)
    case Tool => Some(req.tool)
    case CostUsd => Some(req.costUsd)
    case Unknown(_) => None
  }

  predicate Matches(rule: Rule, req: PolicyRequest) {
    forall f | f in rule.conditions :: Actual(req, f) == Some(rule.conditions[f])
  }

  /** Matching, condition by condition: every condition present is met, and none has an unknown key. */
  lemma MatchesFieldByField(rule: Rule, req: PolicyRequest)
    ensures var c := rule.conditions;
            Matches(rule, req) <==>
              && (Model in c ==> c[Model] == req.model)
              && (User in c ==> c[User] == req.user)
              && (Team in c ==> c[Team] == req.team)
              && (Tool in c ==> c[Tool] == req.tool)
              && (CostUsd in c ==> c[CostUsd] == req.costUsd)
              && (forall key :: Unknown(key) !in c)
  {
    var c := rule.conditions;
    if !Matches(rule, req) {
      var f :| f in c && Actual(req, f) != Some(c[f]);
      assert f.Unknown? ==> Unknown(f.key) in c;
    }
  }

  function Outcome(rule: Rule): Verdict {
    match rule.action
    case Deny => Verdict(false, rule.id, false)
    case Allow => Verdict(true, "", false)
    case Other(_) => Verdict(false, rule.id, true)
  }

  /** First match wins; no match allows. */
  function Evaluate(rules: seq<Rule>, req: PolicyRequest): Verdict {
    if rules == [] then Verdict(true, "", false)
    else if Matches(rules[0], req) then Outcome(rules[0])
    else Evaluate(rules[1..], req)
  }

  ghost predicate FirstMatch(rules: seq<Rule>, req: PolicyRequest, i: nat) {
    && i < |rules|
    && Matches(rules[i], req)
    && forall k :: 0 <= k < i ==> !Matches(rules[k], req)
  }

  ghost predicate NoMatch(rules: seq<Rule>, req: PolicyRequest) {
    forall k :: 0 <= k < |rules| ==> !Matches(rules[k], req)
  }

  lemma {:induction false} OutcomeOfFirstMatch(rules: seq<Rule>, req: PolicyRequest, i: nat)
    requires FirstMatch(rules, req, i)
    ensures Evaluate(rules, req) == Outcome(rules[i])
  {
    if i > 0 {
      assert rules[1..][i - 1] == rules[i];
      assert !Matches(rules[0], req);
      OutcomeOfFirstMatch(rules[1..], req, i - 1);
    }
  }

  /**
   The least matching index decides: a deny refuses under its id without an error, an
   allow accepts, and any other action refuses under its id with an error.
   */
  lemma EvaluateAtFirstMatch(rules: seq<Rule>, req: PolicyRequest, i: nat)
    requires FirstMatch(rules, req, i)
    ensures var v, rule := Evaluate(rules, req), rules[i];
            && (rule.action.Deny? ==> !v.allowed && v.ruleId == rule.id && !v.err)
            && (rule.action.Allow? ==> v.allowed && v.ruleId == "" && !v.err)
            && (rule.action.Other? ==> !v.allowed && v.ruleId == rule.id && v.err)
  {
    OutcomeOfFirstMatch(rules, req, i);
  }

  lemma {:induction false} EvaluateNoMatch(rules: seq<Rule>, req: PolicyRequest)
    requires NoMatch(rules, req)
    ensures Evaluate(rules, req) == Verdict(true, "", false)
  {
    if rules != [] {
      assert !Matches(rules[0], req);
      EvaluateNoMatch(rules[1..], req);
    }
  }

  lemma {:induction false} FirstMatchExists(rules: seq<Rule>, req: PolicyRequest) returns (i: nat)
    ensures i <= |rules|
    ensures i < |rules| ==> FirstMatch(rules, req, i)
    ensures i == |rules| ==> NoMatch(rules, req)
  {
    i := 0;
    while i < |rules| && !Matches(rules[i], req)
      invariant i <= |rules|
      invariant forall k :: 0 <= k < i ==> !Matches(rules[k], req)
    {
      i := i + 1;
    }
  }

  // ---------------------------------------------------------------- Readings

  ghost predicate SomeDenyMatches(rules: seq<Rule>, req: PolicyRequest) {
    exists i :: 0 <= i < |rules| && rules[i].action.Deny? && Matches(rules[i], req)
  }

  /** The reading documented in types.go: denied iff any deny rule matches. */
  ghost predicate DenyOverridesAllows(rules: seq<Rule>, req: PolicyRequest) {
    !SomeDenyMatches(rules, req)
  }

  /** `v` is the verdict of the first matching rule, and allows when there is none. */
  ghost predicate FirstMatchDecides(rules: seq<Rule>, req: PolicyRequest, v: Verdict) {
    && (NoMatch(rules, req) ==> v.allowed && v.ruleId == "" && !v.err)
    && (forall i: nat :: FirstMatch(rules, req, i) ==>
          && (rules[i].action.Deny? ==> !v.allowed && v.ruleId == rules[i].id && !v.err)
          && (rules[i].action.Allow? ==> v.allowed && v.ruleId == "" && !v.err)
          && (rules[i].action.Other? ==> !v.allowed && v.ruleId == rules[i].id && v.err))
  }

  /** That determines the verdict, and `Evaluate` computes it. */
  lemma EvaluateExactlyWhen(rules: seq<Rule>, req: PolicyRequest, v: Verdict)
    ensures v == Evaluate(rules, req) <==> FirstMatchDecides(rules, req, v)
  {
    var i := FirstMatchExists(rules, req);
    if i == |rules| {
      EvaluateNoMatch(rules, req);
    } else {
      EvaluateAtFirstMatch(rules, req, i);
      forall j: nat | FirstMatch(rules, req, j) ensures j == i {
        assert !(j < i) && !(i < j);
      }
    }
  }

  /**
   A refusal names the first matching rule, and the error tells which kind it is: no
   error exactly for a deny, an error exactly for an unknown action.
   */
  lemma RefusalNamesFirstMatch(rules: seq<Rule>, req: PolicyRequest) returns (i: nat)
    requires !Evaluate(rules, req).allowed
    ensures FirstMatch(rules, req, i) && rules[i].id == Evaluate(rules, req).ruleId
    ensures !Evaluate(rules, req).err <==> rules[i].action.Deny?
    ensures Evaluate(rules, req).err <==> rules[i].action.Other?
  {
    i := FirstMatchExists(rules, req);
    if i == |rules| {
      EvaluateNoMatch(rules, req);
    } else {
      EvaluateAtFirstMatch(rules, req, i);
    }
  }

  /**
   On one request the two readings differ exactly when the first matching rule
   is an allow and a deny matches too, or the first matching rule has an unknown
   action and no deny matches.
   */
  lemma ReadingsDifferExactlyWhen(rules: seq<Rule>, req: PolicyRequest)
    ensures Evaluate(rules, req).allowed != DenyOverridesAllows(rules, req) <==>
            exists i: nat :: FirstMatch(rules, req, i) &&
              ((rules[i].action.Allow? && SomeDenyMatches(rules, req)) ||
               (rules[i].action.Other? && !SomeDenyMatches(rules, req)))
  {
    var i := FirstMatchExists(rules, req);
    if i == |rules| {
      EvaluateNoMatch(rules, req);
    } else {
      EvaluateAtFirstMatch(rules, req, i);
      forall j: nat | FirstMatch(rules, req, j) ensures j == i {
        assert !(j < i) && !(i < j);
      }
    }
  }

  // ------------------------------------------ Agreement on every request, decided

  // `renders` tells which texts strconv.FormatFloat(cost, 'f', -1, 64) can produce.
  // A condition on the cost that expects any other text can never hold.

  /** Only known keys, and a cost text that some cost has: such a rule matches some request. */
  predicate Satisfiable(renders: string -> bool, c: map<Field, string>) {
    && (forall f | f in c :: !f.Unknown?)
    && (CostUsd in c ==> renders(c[CostUsd]))
  }

  predicate Within(c: map<Field, string>, d: map<Field, string>) {
    forall f | f in c :: f in d && d[f] == c[f]
  }

  /** The two condition sets can hold of one request. */
  predicate Compatible(renders: string -> bool, c: map<Field, string>, d: map<Field, string>) {
    && Satisfiable(renders, c) && Satisfiable(renders, d)
    && forall f | f in c && f in d :: c[f] == d[f]
  }

  /** An allow rule that hides a later deny on some request no earlier rule takes. */
  ghost predicate AllowHidesDeny(renders: string -> bool, rules: seq<Rule>, i: nat, j: nat) {
    && i < j < |rules|
    && rules[i].action.Allow? && rules[j].action.Deny?
    && Compatible(renders, rules[i].conditions, rules[j].conditions)
    && forall k :: 0 <= k < i ==> !Within(rules[k].conditions, rules[i].conditions + rules[j].conditions)
  }

  /** A rule with an unknown action that is first on some request no deny matches. */
  ghost predicate UnknownActionBites(renders: string -> bool, rules: seq<Rule>, i: nat) {
    && i < |rules|
    && rules[i].action.Other?
    && Satisfiable(renders, rules[i].conditions)
    && (forall k :: 0 <= k < i ==> !Within(rules[k].conditions, rules[i].conditions))
    && (forall k :: 0 <= k < |rules| && rules[k].action.Deny? ==> !Within(rules[k].conditions, rules[i].conditions))
  }

  /** The readings give the same answer on every request that carries the text of some cost. */
  ghost predicate ReadingsAgreeEverywhere(renders: string -> bool, rules: seq<Rule>) {
    forall req: PolicyRequest :: renders(req.costUsd) ==>
      Evaluate(rules, req).allowed == DenyOverridesAllows(rules, req)
  }

  /** The request that meets the conditions `c` and otherwise carries the two fillers. */
  function Witness(c: map<Field, string>, filler: string, cost: string): PolicyRequest {
    PolicyRequest(LookUp(c, Model).Or(filler), LookUp(c, User).Or(filler), LookUp(c, Team).Or(filler),
                  LookUp(c, Tool).Or(filler), LookUp(c, CostUsd).Or(cost))
  }

  /** `s` is the text of some cost, and no rule's condition on the cost expects it. */
  ghost predicate SpareCost(renders: string -> bool, rules: seq<Rule>, s: string) {
    renders(s) && forall k :: 0 <= k < |rules| ==> LookUp(rules[k].conditions, CostUsd) != Some(s)
  }

  /** No condition of any rule expects the text `s`. */
  ghost predicate Unused(rules: seq<Rule>, s: string) {
    forall k, f :: 0 <= k < |rules| && f in rules[k].conditions ==> rules[k].conditions[f] != s
  }

  lemma WitnessMatches(renders: string -> bool, rule: Rule, c: map<Field, string>, filler: string, cost: string)
    requires Satisfiable(renders, c)
    requires forall f :: f in rule.conditions ==> rule.conditions[f] != filler
    requires LookUp(rule.conditions, CostUsd) != Some(cost)
    ensures Matches(rule, Witness(c, filler, cost)) <==> Within(rule.conditions, c)
  {
  }

  /** A bound on the length of every text that the rules' known conditions expect. */
  ghost function LongestText(rules: seq<Rule>): (n: nat)
    ensures forall k, f :: 0 <= k < |rules| && f in rules[k].conditions ==> |rules[k].conditions[f]| <= n
  {
    if rules == [] then 0
    else
      var texts := rules[0].conditions.Values;
      var n := LongestText(rules[1..]);
      var m := LongestIn(texts);
      assert forall f :: f in rules[0].conditions ==> rules[0].conditions[f] in texts;
      assert forall k :: 0 < k < |rules| ==> rules[k] == rules[1..][k - 1];
      if n < m then m else n
  }

  ghost function LongestIn(texts: set<string>): (n: nat)
    ensures forall s :: s in texts ==> |s| <= n
  {
    if texts == {} then 0
    else
      var s :| s in texts;
      var n := LongestIn(texts - {s});
      assert forall u :: u in texts ==> u == s || u in texts - {s};
      if n < |s| then |s| else n
  }

  lemma UnusedTextExists(rules: seq<Rule>) returns (s: string)
    ensures Unused(rules, s)
  {
    s := seq(LongestText(rules) + 1, _ => 'x');
  }

  lemma MatchWithin(a: Rule, b: Rule, req: PolicyRequest)
    requires Matches(b, req) && Within(a.conditions, b.conditions)
    ensures Matches(a, req)
  {
  }

  /** For satisfiable conditions, a request some cost can carry that matches just the rules inside them. */
  lemma WitnessExists(renders: string -> bool, rules: seq<Rule>, c: map<Field, string>, cost: string)
    returns (req: PolicyRequest)
    requires Satisfiable(renders, c) && SpareCost(renders, rules, cost)
    ensures renders(req.costUsd)
    ensures forall k :: 0 <= k < |rules| ==> (Matches(rules[k], req) <==> Within(rules[k].conditions, c))
  {
    var filler := UnusedTextExists(rules);
    req := Witness(c, filler, cost);
    forall k | 0 <= k < |rules| ensures Matches(rules[k], req) <==> Within(rules[k].conditions, c) {
      WitnessMatches(renders, rules[k], c, filler, cost);
    }
  }

  lemma AllowHidesDenyDiffers(renders: string -> bool, rules: seq<Rule>, i: nat, j: nat, cost: string)
    requires AllowHidesDeny(renders, rules, i, j) && SpareCost(renders, rules, cost)
    ensures !ReadingsAgreeEverywhere(renders, rules)
  {
    var req := WitnessExists(renders, rules, rules[i].conditions + rules[j].conditions, cost);
    assert FirstMatch(rules, req, i);
    assert Matches(rules[j], req);
    EvaluateAtFirstMatch(rules, req, i);
  }

  lemma UnknownActionDiffers(renders: string -> bool, rules: seq<Rule>, i: nat, cost: string)
    requires UnknownActionBites(renders, rules, i) && SpareCost(renders, rules, cost)
    ensures !ReadingsAgreeEverywhere(renders, rules)
  {
    var req := WitnessExists(renders, rules, rules[i].conditions, cost);
    assert FirstMatch(rules, req, i);
    EvaluateAtFirstMatch(rules, req, i);
  }

  lemma MergedCover(rules: seq<Rule>, i: nat, j: nat, req: PolicyRequest)
    requires i < |rules| && j < |rules| && Matches(rules[i], req) && Matches(rules[j], req)
    ensures forall k :: 0 <= k < |rules| && Within(rules[k].conditions, rules[i].conditions + rules[j].conditions) ==>
                          Matches(rules[k], req)
  {
  }

  lemma AllowThenDeny(renders: string -> bool, rules: seq<Rule>, req: PolicyRequest, i: nat)
    requires FirstMatch(rules, req, i) && rules[i].action.Allow? && SomeDenyMatches(rules, req)
    requires renders(req.costUsd)
    ensures exists j: nat :: AllowHidesDeny(renders, rules, i, j)
  {
    var j :| 0 <= j < |rules| && rules[j].action.Deny? && Matches(rules[j], req);
    BothMatchCompatible(renders, rules[i], rules[j], req);
    MergedCover(rules, i, j, req);
    assert AllowHidesDeny(renders, rules, i, j);
  }

  lemma BothMatchCompatible(renders: string -> bool, a: Rule, b: Rule, req: PolicyRequest)
    requires Matches(a, req) && Matches(b, req) && renders(req.costUsd)
    ensures Compatible(renders, a.conditions, b.conditions)
  {
  }

  lemma UnknownFirst(renders: string -> bool, rules: seq<Rule>, req: PolicyRequest, i: nat)
    requires FirstMatch(rules, req, i) && rules[i].action.Other? && !SomeDenyMatches(rules, req)
    requires renders(req.costUsd)
    ensures UnknownActionBites(renders, rules, i)
  {
  }

  lemma DifferenceHasCause(renders: string -> bool, rules: seq<Rule>, req: PolicyRequest)
    requires renders(req.costUsd) && Evaluate(rules, req).allowed != DenyOverridesAllows(rules, req)
    ensures (exists i: nat, j: nat :: AllowHidesDeny(renders, rules, i, j)) ||
            (exists i: nat :: UnknownActionBites(renders, rules, i))
  {
    ReadingsDifferExactlyWhen(rules, req);
    var i: nat :| FirstMatch(rules, req, i) &&
              ((rules[i].action.Allow? && SomeDenyMatches(rules, req)) ||
               (rules[i].action.Other? && !SomeDenyMatches(rules, req)));
    if rules[i].action.Allow? {
      AllowThenDeny(renders, rules, req, i);
    } else {
      UnknownFirst(renders, rules, req, i);
    }
  }

  /**
   The code and its documentation agree on every request exactly when the rule
   list has no allow that hides a later deny and no unknown action that bites:
   two tests on the list alone.  Some cost must be left that no rule asks for,
   which `SpareCostExists` shows for every list shorter than 2^53 rules.
   */
  lemma AgreementDecided(renders: string -> bool, rules: seq<Rule>)
    requires exists s :: SpareCost(renders, rules, s)
    ensures ReadingsAgreeEverywhere(renders, rules) <==>
            !(exists i: nat, j: nat :: AllowHidesDeny(renders, rules, i, j)) &&
            !(exists i: nat :: UnknownActionBites(renders, rules, i))
  {
    var cost :| SpareCost(renders, rules, cost);
    if ReadingsAgreeEverywhere(renders, rules) {
      if i: nat, j: nat :| AllowHidesDeny(renders, rules, i, j) {
        AllowHidesDenyDiffers(renders, rules, i, j, cost);
      }
      if i: nat :| UnknownActionBites(renders, rules, i) {
        UnknownActionDiffers(renders, rules, i, cost);
      }
    } else {
      var req: PolicyRequest :| renders(req.costUsd) && Evaluate(rules, req).allowed != DenyOverridesAllows(rules, req);
      DifferenceHasCause(renders, rules, req);
    }
  }

  /** In particular: when no rule before a deny is anything but a deny, and actions are known. */
  lemma DeniesFirstAgree(renders: string -> bool, rules: seq<Rule>)
    requires forall i, j :: 0 <= i < j < |rules| && rules[j].action.Deny? ==> rules[i].action.Deny?
    requires forall i :: 0 <= i < |rules| ==> !rules[i].action.Other?
    ensures ReadingsAgreeEverywhere(renders, rules)
  {
    forall req: PolicyRequest | renders(req.costUsd)
      ensures Evaluate(rules, req).allowed == DenyOverridesAllows(rules, req)
    {
      ReadingsDifferExactlyWhen(rules, req);
    }
  }

  // ---------------------------------------------------------------- The texts of costs

  const DIGITS := "0123456789"

  function Decimal(n: nat): string {
    if n < 10 then [DIGITS[n]] else Decimal(n / 10) + [DIGITS[n % 10]]
  }

  /** The integers a float64 holds exactly, one by one. */
  const EXACT_INTEGERS := 0x20_0000_0000_0000

  /**
   What shortest decimal formatting of a float64 gives: an exact integer is its
   decimal digits, and a fraction never ends in a zero.
   */
  ghost predicate FormatsFloats(renders: string -> bool) {
    && (forall n: nat :: n < EXACT_INTEGERS ==> renders(Decimal(n)))
    && (forall s :: renders(s) && '.' in s ==> s[|s| - 1] != '0')
  }

  lemma {:induction false} DecimalInjective(a: nat, b: nat)
    requires Decimal(a) == Decimal(b)
    ensures a == b
  {
    if a < 10 || b < 10 {
      assert |Decimal(a)| == 1 <==> a < 10;
      assert |Decimal(b)| == 1 <==> b < 10;
    } else {
      var s, t := Decimal(a / 10), Decimal(b / 10);
      assert s == Decimal(a)[..|Decimal(a)| - 1] == Decimal(b)[..|Decimal(b)| - 1] == t;
      DecimalInjective(a / 10, b / 10);
      assert DIGITS[a % 10] == Decimal(a)[|s|] == Decimal(b)[|t|] == DIGITS[b % 10];
    }
  }

  ghost function FirstTexts(text: nat -> string, n: nat): set<string> {
    set k: nat | k < n :: text(k)
  }

  lemma {:induction false} FirstTextsCount(text: nat -> string, n: nat)
    requires forall a, b :: text(a) == text(b) ==> a == b
    ensures |FirstTexts(text, n)| == n
  {
    if n > 0 {
      FirstTextsCount(text, n - 1);
      assert text(n - 1) !in FirstTexts(text, n - 1);
      assert FirstTexts(text, n) == FirstTexts(text, n - 1) + {text(n - 1)};
    }
  }

  /** The cost texts that the rules expect: at most one for each rule. */
  ghost function ExpectedCosts(rules: seq<Rule>): (texts: set<string>)
    ensures |texts| <= |rules|
    ensures forall k :: 0 <= k < |rules| && CostUsd in rules[k].conditions ==> rules[k].conditions[CostUsd] in texts
  {
    if rules == [] then {}
    else
      var cost := LookUp(rules[|rules| - 1].conditions, CostUsd);
      ExpectedCosts(rules[..|rules| - 1]) + (if cost.Some? then {cost.value} else {})
  }

  /** Fewer than 2^53 rules leave some cost that none of them asks for. */
  lemma SpareCostExists(renders: string -> bool, rules: seq<Rule>)
    requires FormatsFloats(renders) && |rules| < EXACT_INTEGERS
    ensures exists s :: SpareCost(renders, rules, s)
  {
    var some, expected := FirstTexts(Decimal, |rules| + 1), ExpectedCosts(rules);
    forall a, b | Decimal(a) == Decimal(b) ensures a == b {
      DecimalInjective(a, b);
    }
    FirstTextsCount(Decimal, |rules| + 1);
    assert |expected| == |expected * some| + |expected - some|;
    assert some != expected * some;
    var s :| s in some && s !in expected;
    assert SpareCost(renders, rules, s);
  }

  /** An allow on a cost text that no cost has hides nothing, so the readings agree. */
  lemma UnrenderedCostAgrees(renders: string -> bool)
    requires FormatsFloats(renders)
    ensures ReadingsAgreeEverywhere(
              renders, [Rule("a", Allow, map[CostUsd := "1.00"]), Rule("d", Deny, map[])])
  {
    var rules := [Rule("a", Allow, map[CostUsd := "1.00"]), Rule("d", Deny, map[])];
    assert '.' in "1.00" && "1.00"[3] == '0';
    SpareCostExists(renders, rules);
    AgreementDecided(renders, rules);
  }

  /** The same list with the text "1" does hide the deny. */
  lemma RenderedCostDiffers(renders: string -> bool)
    requires FormatsFloats(renders)
    ensures !ReadingsAgreeEverywhere(renders, [Rule("a", Allow, map[CostUsd := "1"]), Rule("d", Deny, map[])])
  {
    var rules := [Rule("a", Allow, map[CostUsd := "1"]), Rule("d", Deny, map[])];
    assert Decimal(1) == "1";
    SpareCostExists(renders, rules);
    AgreementDecided(renders, rules);
    assert AllowHidesDeny(renders, rules, 0, 1);
  }

  // ---------------------------------------------------------------- Shadowed rules

  /** Some rule of `earlier` has its conditions inside `rule`'s: `rule` never decides. */
  predicate Shadowed(earlier: seq<Rule>, rule: Rule) {
    exists i :: 0 <= i < |earlier| && Within(earlier[i].conditions, rule.conditions)
  }

  /** Delete at once every rule shadowed by an earlier rule of the original list. */
  function Unshadowed(earlier: seq<Rule>, rest: seq<Rule>): seq<Rule>
    decreases rest
  {
    if rest == [] then []
    else (if Shadowed(earlier, rest[0]) then [] else [rest[0]]) + Unshadowed(earlier + [rest[0]], rest[1..])
  }

  lemma {:induction false} UnshadowedSuffix(earlier: seq<Rule>, rest: seq<Rule>, req: PolicyRequest)
    requires NoMatch(earlier, req)
    ensures Evaluate(Unshadowed(earlier, rest), req) == Evaluate(rest, req)
    decreases rest
  {
    if rest != [] {
      var r := rest[0];
      var tail := Unshadowed(earlier + [r], rest[1..]);
      if Shadowed(earlier, r) {
        var i :| 0 <= i < |earlier| && Within(earlier[i].conditions, r.conditions);
        if Matches(r, req) {
          MatchWithin(earlier[i], r, req);
        }
        assert [] + tail == tail;
      } else {
        assert ([r] + tail)[1..] == tail;
      }
      if !Matches(r, req) {
        UnshadowedSuffix(earlier + [r], rest[1..], req);
      }
    }
  }

  /** Removing all shadowed rules changes no verdict, error or reported rule. */
  lemma UnshadowedPreserves(rules: seq<Rule>)
    ensures forall req :: Evaluate(Unshadowed([], rules), req) == Evaluate(rules, req)
  {
    forall req ensures Evaluate(Unshadowed([], rules), req) == Evaluate(rules, req) {
      UnshadowedSuffix([], rules, req);
    }
  }

  ghost predicate NoneShadowed(earlier: seq<Rule>, rules: seq<Rule>) {
    forall j :: 0 <= j < |rules| ==> !Shadowed(earlier, rules[j])
  }

  ghost predicate NoneCovered(rules: seq<Rule>) {
    forall i, j :: 0 <= i < j < |rules| ==> !Within(rules[i].conditions, rules[j].conditions)
  }

  lemma ShadowedExtends(earlier: seq<Rule>, r: Rule, x: Rule)
    ensures Shadowed(earlier + [r], x) <==> Shadowed(earlier, x) || Within(r.conditions, x.conditions)
  {
    if Shadowed(earlier, x) {
      var i :| 0 <= i < |earlier| && Within(earlier[i].conditions, x.conditions);
      assert (earlier + [r])[i] == earlier[i];
    }
    assert (earlier + [r])[|earlier|] == r;
  }

  lemma NoneShadowedStep(earlier: seq<Rule>, r: Rule, rules: seq<Rule>)
    requires NoneShadowed(earlier + [r], rules)
    ensures NoneShadowed(earlier, rules)
    ensures forall j :: 0 <= j < |rules| ==> !Within(r.conditions, rules[j].conditions)
  {
    forall j | 0 <= j < |rules| ensures !Shadowed(earlier, rules[j]) && !Within(r.conditions, rules[j].conditions) {
      ShadowedExtends(earlier, r, rules[j]);
    }
  }

  lemma ConsKept(earlier: seq<Rule>, r: Rule, rules: seq<Rule>)
    requires !Shadowed(earlier, r) && NoneShadowed(earlier, rules) && NoneCovered(rules)
    requires forall j :: 0 <= j < |rules| ==> !Within(r.conditions, rules[j].conditions)
    ensures NoneShadowed(earlier, [r] + rules) && NoneCovered([r] + rules)
  {
    var all := [r] + rules;
    assert forall j :: 0 < j < |all| ==> all[j] == rules[j - 1];
  }

  /** Nothing more can be deleted: no kept rule is covered by an earlier kept one. */
  lemma {:induction false} UnshadowedIsMinimal(earlier: seq<Rule>, rest: seq<Rule>)
    ensures NoneShadowed(earlier, Unshadowed(earlier, rest)) && NoneCovered(Unshadowed(earlier, rest))
    decreases rest
  {
    if rest != [] {
      var r := rest[0];
      var tail := Unshadowed(earlier + [r], rest[1..]);
      UnshadowedIsMinimal(earlier + [r], rest[1..]);
      NoneShadowedStep(earlier, r, tail);
      if Shadowed(earlier, r) {
        assert [] + tail == tail;
      } else {
        ConsKept(earlier, r, tail);
      }
    }
  }
}

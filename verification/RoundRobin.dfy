/**
 Fairness of the round-robin selector under any interleaving of its callers.  The
 only shared write is the atomic increment of a 64-bit counter, so the increments
 order the calls; everything is then arithmetic on a counter that wraps.
 */
module RoundRobin {
  import opened Prelude
  import Scheduler

  // ---------------------------------------------------------------- Interleaved callers

  /** `ticket` numbers the increments since the start; `idx` is what the increment returned. */
  datatype Caller = Waiting | Holding(ticket: nat, idx: nat) | Chosen(ticket: nat, name: string)

  /** `holders[k]` is the caller that made increment number k. */
  datatype Sys = Sys(counter: nat, callers: seq<Caller>, holders: seq<nat>)

  datatype Step = Arrive | Go(caller: nat)

  function Next(names: seq<string>, s: Sys, a: Step): Sys
    requires names != []
  {
    match a
    case Arrive => s.(callers := s.callers + [Waiting])
    case Go(i) =>
      if i >= |s.callers| then s
      else
        match s.callers[i]
        case Waiting =>
          Sys((s.counter + 1) % WORD, s.callers[i := Holding(|s.holders|, s.counter)], s.holders + [i])
        case Holding(ticket, idx) =>
          s.(callers := s.callers[i := Chosen(ticket, names[idx % |names|])])
        case Chosen(_, _) => s
  }

  function Run(names: seq<string>, s: Sys, steps: seq<Step>): Sys
    requires names != []
    decreases |steps|
  {
    if steps == [] then s else Run(names, Next(names, s, steps[0]), steps[1..])
  }

  /** The runtime that ticket k, counted from counter value `start`, selects. */
  function Pick(start: nat, k: nat, n: nat): nat
    requires n > 0
  {
    ((start + k) % WORD) % n
  }

  /** What holding ticket k says about a caller. */
  ghost predicate TicketOk(names: seq<string>, start: nat, k: nat, c: Caller)
    requires names != []
  {
    match c
    case Waiting => false
    case Holding(ticket, idx) => ticket == k && idx == (start + k) % WORD
    case Chosen(ticket, name) => ticket == k && name == names[Pick(start, k, |names|)]
  }

  /** Tickets and the callers past their increment are in bijection. */
  ghost predicate Inv(names: seq<string>, start: nat, s: Sys)
    requires names != []
  {
    && s.counter == (start + |s.holders|) % WORD
    && (forall k :: 0 <= k < |s.holders| ==>
          s.holders[k] < |s.callers| && TicketOk(names, start, k, s.callers[s.holders[k]]))
    && (forall i :: 0 <= i < |s.callers| && !s.callers[i].Waiting? ==>
          s.callers[i].ticket < |s.holders| && s.holders[s.callers[i].ticket] == i)
  }

  lemma CounterStep(start: nat, k: nat)
    ensures ((start + k) % WORD + 1) % WORD == (start + k + 1) % WORD
  {
  }

  lemma InvStep(names: seq<string>, start: nat, s: Sys, a: Step)
    requires names != [] && Inv(names, start, s)
    ensures Inv(names, start, Next(names, s, a))
  {
    var s' := Next(names, s, a);
    if a.Go? && a.caller < |s.callers| {
      var i := a.caller;
      CounterStep(start, |s.holders|);
      forall k | 0 <= k < |s'.holders| ensures TicketOk(names, start, k, s'.callers[s'.holders[k]]) {
        if k < |s.holders| {
          assert TicketOk(names, start, k, s.callers[s.holders[k]]);
        }
      }
    }
  }

  lemma {:induction false} InvRun(names: seq<string>, start: nat, s: Sys, steps: seq<Step>)
    requires names != [] && Inv(names, start, s)
    ensures Inv(names, start, Run(names, s, steps))
    decreases |steps|
  {
    if steps != [] {
      InvStep(names, start, s, steps[0]);
      InvRun(names, start, Next(names, s, steps[0]), steps[1..]);
    }
  }

  /** Tickets a .. a+m-1 have all been issued and their callers have all returned. */
  ghost predicate WindowDone(s: Sys, a: nat, m: nat) {
    && a + m <= |s.holders|
    && (forall k :: a <= k < a + m ==> s.holders[k] < |s.callers| && s.callers[s.holders[k]].Chosen?)
  }

  /** What the callers of that window selected, in ticket order. */
  ghost function Selections(s: Sys, a: nat, m: nat): seq<string>
    requires WindowDone(s, a, m)
  {
    seq(m, k requires 0 <= k < m => s.callers[s.holders[a + k]].name)
  }

  ghost predicate Distinct(names: seq<string>) {
    forall i, j :: 0 <= i < j < |names| ==> names[i] != names[j]
  }

  /** How often a window selected `name`. */
  ghost function TimesSelected(s: Sys, a: nat, m: nat, name: string): nat
    requires WindowDone(s, a, m)
  {
    CountIf(Selections(s, a, m), (x: string) => x == name)
  }

  // ---------------------------------------------------------------- Counting residues

  ghost function Picks(start: nat, m: nat, n: nat): seq<nat>
    requires n > 0
  {
    seq(m, k requires 0 <= k < m => Pick(start, k, n))
  }

  /** How often runtime r is picked in m consecutive increments from `start`. */
  ghost function Hits(start: nat, m: nat, n: nat, r: nat): nat
    requires n > 0
  {
    CountIf(Picks(start, m, n), (x: nat) => x == r)
  }

  /** How many numbers below x are r modulo n. */
  function Below(x: nat, n: nat, r: nat): nat
    requires r < n
  {
    (x + n - 1 - r) / n
  }

  lemma DivUnique(a: int, n: int, q: int, t: int)
    requires n > 0 && a == q * n + t && 0 <= t < n
    ensures a / n == q && a % n == t
  {
    var d := a / n - q;
    assert d * n == t - a % n;
    Multiple(d, n);
  }

  lemma Multiple(d: int, n: int)
    requires n > 0
    ensures d >= 1 ==> d * n >= n
    ensures d <= -1 ==> d * n <= -n
  {
  }

  lemma BelowStep(x: nat, n: nat, r: nat)
    requires r < n
    ensures Below(x + 1, n, r) == Below(x, n, r) + (if x % n == r then 1 else 0)
  {
    BelowValue(x, n, r);
    var q, t := x / n, x % n;
    assert x == q * n + t;
    if t < r {
      DivUnique(x + n - r, n, q, t + n - r);
    } else {
      assert (q + 1) * n == q * n + n;
      DivUnique(x + n - r, n, q + 1, t - r);
    }
  }

  lemma BelowValue(x: nat, n: nat, r: nat)
    requires r < n
    ensures Below(x, n, r) == x / n + (if x % n <= r then 0 else 1)
  {
    var q, t := x / n, x % n;
    assert x == q * n + t;
    if t <= r {
      DivUnique(x + n - 1 - r, n, q, t + n - 1 - r);
    } else {
      assert (q + 1) * n == q * n + n;
      DivUnique(x + n - 1 - r, n, q + 1, t - 1 - r);
    }
  }

  lemma Ceiling(m: nat, n: nat)
    requires n > 0
    ensures (m + n - 1) / n == m / n + (if m % n == 0 then 0 else 1)
  {
    var p, u := m / n, m % n;
    assert m == p * n + u;
    if u == 0 {
      DivUnique(m + n - 1, n, p, n - 1);
    } else {
      assert (p + 1) * n == p * n + n;
      DivUnique(m + n - 1, n, p + 1, u - 1);
    }
  }

  /** Among m consecutive numbers, floor(m/n) or ceil(m/n) are r modulo n. */
  lemma BelowWindow(x: nat, m: nat, n: nat, r: nat)
    requires r < n
    ensures m / n <= Below(x + m, n, r) - Below(x, n, r) <= (m + n - 1) / n
  {
    var y := x + n - 1 - r;
    var q, t := y / n, y % n;
    var p, u := m / n, m % n;
    assert y + m == q * n + t + p * n + u;
    assert (q + p) * n == q * n + p * n;
    if t + u < n {
      DivUnique(y + m, n, q + p, t + u);
    } else {
      assert (q + p + 1) * n == q * n + p * n + n;
      DivUnique(y + m, n, q + p + 1, t + u - n);
    }
    Ceiling(m, n);
  }

  lemma PickNoWrap(start: nat, k: nat, n: nat)
    requires n > 0 && start + k < WORD
    ensures Pick(start, k, n) == (start + k) % n
  {
  }

  lemma PickShift(start: nat, a: nat, k: nat, n: nat)
    requires n > 0
    ensures Pick(start + a, k, n) == Pick(start, a + k, n)
  {
  }

  /** Without a wrap inside, hits are a difference of `Below`. */
  lemma {:induction false} HitsNoWrap(start: nat, m: nat, n: nat, r: nat)
    requires r < n && start + m <= WORD
    ensures Hits(start, m, n, r) == Below(start + m, n, r) - Below(start, n, r)
  {
    if m > 0 {
      HitsNoWrap(start, m - 1, n, r);
      HitsStep(start, m - 1, n, r);
      PickNoWrap(start, m - 1, n);
      BelowStep(start + m - 1, n, r);
    }
  }

  lemma HitsStep(start: nat, m: nat, n: nat, r: nat)
    requires n > 0
    ensures Hits(start, m + 1, n, r) == Hits(start, m, n, r) + (if Pick(start, m, n) == r then 1 else 0)
  {
    var p := Picks(start, m + 1, n);
    assert p == Picks(start, m, n) + [Pick(start, m, n)];
    CountIfAppend(Picks(start, m, n), Pick(start, m, n), (x: nat) => x == r);
  }

  /** When n divides 2^64 the wrap is invisible. */
  lemma ModMod(x: nat, n: nat)
    requires n > 0 && WORD % n == 0
    ensures (x % WORD) % n == x % n
  {
    var w, v := WORD / n, x / WORD;
    var y := x % WORD;
    assert x == v * WORD + y && WORD == w * n;
    var q, t := y / n, y % n;
    assert v * WORD == v * (w * n) == (v * w) * n;
    assert (v * w + q) * n == (v * w) * n + q * n;
    DivUnique(x, n, v * w + q, t);
  }

  lemma {:induction false} HitsDivides(start: nat, m: nat, n: nat, r: nat)
    requires r < n && WORD % n == 0
    ensures Hits(start, m, n, r) == Below(start + m, n, r) - Below(start, n, r)
  {
    if m > 0 {
      HitsDivides(start, m - 1, n, r);
      HitsStep(start, m - 1, n, r);
      ModMod(start + m - 1, n);
      BelowStep(start + m - 1, n, r);
    }
  }

  lemma PickWraps(x: nat, k: nat, n: nat)
    requires n > 0
    ensures Pick(x + WORD, k, n) == Pick(x, k, n)
  {
    assert (x + WORD + k) % WORD == (x + k) % WORD;
  }

  lemma {:induction false} HitsSplit(start: nat, m1: nat, m2: nat, n: nat, r: nat)
    requires n > 0 && start + m1 == WORD
    ensures Hits(start, m1 + m2, n, r) == Hits(start, m1, n, r) + Hits(0, m2, n, r)
  {
    if m2 > 0 {
      HitsSplit(start, m1, m2 - 1, n, r);
      var k := m1 + (m2 - 1);
      assert m1 + m2 == k + 1;
      HitsStep(start, k, n, r);
      HitsStep(0, m2 - 1, n, r);
      PickWraps(0, m2 - 1, n);
      assert start + k == 0 + WORD + (m2 - 1);
    }
  }

  /** Only the counter's residue matters at the start of a window. */
  lemma HitsFromResidue(start: nat, m: nat, n: nat, r: nat)
    requires n > 0
    ensures Hits(start, m, n, r) == Hits(start % WORD, m, n, r)
  {
    forall k | 0 <= k < m ensures Pick(start, k, n) == Pick(start % WORD, k, n) {
      assert (start + k) % WORD == (start % WORD + k) % WORD;
    }
    assert Picks(start, m, n) == Picks(start % WORD, m, n);
  }

  // ---------------------------------------------------------------- Fairness

  ghost predicate FairCount(hits: int, m: nat, n: nat)
    requires n > 0
  {
    m / n <= hits <= (m + n - 1) / n
  }

  lemma HitsFair(start: nat, m: nat, n: nat, r: nat)
    requires r < n && (start + m <= WORD || WORD % n == 0)
    ensures FairCount(Hits(start, m, n, r), m, n)
  {
    BelowWindow(start, m, n, r);
    if start + m <= WORD {
      HitsNoWrap(start, m, n, r);
    } else {
      HitsDivides(start, m, n, r);
    }
  }

  /** Across one wrap any two runtimes are picked within 2 of each other. */
  lemma HitsAcrossWrap(start: nat, m: nat, n: nat, r: nat, u: nat)
    requires r < n && u < n && start < WORD <= start + m && m <= WORD
    ensures Hits(start, m, n, r) <= Hits(start, m, n, u) + 2
  {
    var m1 := WORD - start;
    HitsSplit(start, m1, m - m1, n, r);
    HitsSplit(start, m1, m - m1, n, u);
    HitsFair(start, m1, n, r);
    HitsFair(start, m1, n, u);
    HitsFair(0, m - m1, n, r);
    HitsFair(0, m - m1, n, u);
    Ceiling(m1, n);
    Ceiling(m - m1, n);
  }

  ghost predicate AlwaysFair(n: nat)
    requires n > 0
  {
    forall start: nat, m: nat, r: nat :: start < WORD && r < n ==> FairCount(Hits(start, m, n, r), m, n)
  }

  /** The last d = 2^64 mod n counter values before the wrap pick runtime 0 once. */
  lemma HitsBeforeWrap(n: nat)
    requires n > 0 && WORD % n != 0
    ensures var d := WORD % n; Hits(WORD - d, d, n, 0) == 1
  {
    var d, q := WORD % n, WORD / n;
    var start := WORD - d;
    assert start == q * n;
    HitsNoWrap(start, d, n, 0);
    DivUnique(start + n - 1, n, q, n - 1);
    assert (q + 1) * n == q * n + n;
    DivUnique(start + d + n - 1, n, q + 1, d - 1);
  }

  lemma CeilOfShortWindow(m: nat, n: nat)
    requires 1 <= m <= n
    ensures (m + n - 1) / n == 1
  {
  }

  /** A window that ends just past the wrap picks runtime 0 twice in at most n picks. */
  lemma UnfairWindow(n: nat) returns (start: nat, m: nat)
    requires n > 0 && WORD % n != 0
    ensures start < WORD && m <= n && Hits(start, m, n, 0) == 2
    ensures !FairCount(Hits(start, m, n, 0), m, n)
  {
    var d := WORD % n;
    HitsBeforeWrap(n);
    HitsStep(WORD - d, d, n, 0);
    PickAtWrap(d, n);
    CeilOfShortWindow(d + 1, n);
    start, m := WORD - d, d + 1;
    NotFair(Hits(start, m, n, 0), m, n);
  }

  lemma PickAtWrap(d: nat, n: nat)
    requires n > 0 && d <= WORD
    ensures Pick(WORD - d, d, n) == 0
  {
  }

  lemma NotFair(hits: int, m: nat, n: nat)
    requires n > 0 && hits == 2 && (m + n - 1) / n == 1
    ensures !FairCount(hits, m, n)
  {
  }

  /** Every window of picks is fair exactly when the number of runtimes divides 2^64. */
  lemma FairExactlyWhen(n: nat)
    requires n > 0
    ensures AlwaysFair(n) <==> WORD % n == 0
  {
    if WORD % n == 0 {
      DividingIsFair(n);
    } else {
      var start, m := UnfairWindow(n);
    }
  }

  lemma DividingIsFair(n: nat)
    requires n > 0 && WORD % n == 0
    ensures AlwaysFair(n)
  {
    forall start: nat, m: nat, r: nat | start < WORD && r < n ensures FairCount(Hits(start, m, n, r), m, n) {
      HitsFair(start, m, n, r);
    }
  }

  /** A finished window's selections are the picks of its tickets. */
  lemma {:induction false} SelectionsArePicks(names: seq<string>, start: nat, s: Sys, a: nat, m: nat, r: nat)
    requires names != [] && Distinct(names) && Inv(names, start, s)
    requires WindowDone(s, a, m) && r < |names|
    ensures TimesSelected(s, a, m, names[r]) == Hits(start + a, m, |names|, r)
  {
    if m > 0 {
      SelectionsArePicks(names, start, s, a, m - 1, r);
      HitsStep(start + a, m - 1, |names|, r);
      SelectionsStep(names, start, s, a, m - 1, r);
    }
  }

  lemma SelectionsStep(names: seq<string>, start: nat, s: Sys, a: nat, m: nat, r: nat)
    requires names != [] && Distinct(names) && Inv(names, start, s)
    requires WindowDone(s, a, m + 1) && r < |names|
    ensures TimesSelected(s, a, m + 1, names[r]) ==
            TimesSelected(s, a, m, names[r]) + (if Pick(start + a, m, |names|) == r then 1 else 0)
  {
    var last := s.callers[s.holders[a + m]].name;
    assert TicketOk(names, start, a + m, s.callers[s.holders[a + m]]);
    PickShift(start, a, m, |names|);
    assert Selections(s, a, m + 1) == Selections(s, a, m) + [last];
    CountIfAppend(Selections(s, a, m), last, (x: string) => x == names[r]);
    SameNameSameIndex(names, Pick(start, a + m, |names|), r);
  }

  lemma SameNameSameIndex(names: seq<string>, i: nat, j: nat)
    requires Distinct(names) && i < |names| && j < |names|
    ensures names[i] == names[j] <==> i == j
  {
  }

  /**
   Round-robin fairness: under any interleaving of callers, any finished window of m
   consecutive selections picks every runtime floor(m/n) or ceil(m/n) times, unless
   the counter wraps inside the window and n does not divide 2^64.
   */
  lemma RoundRobinFair(names: seq<string>, start: nat, steps: seq<Step>, a: nat, m: nat, r: nat)
    requires names != [] && Distinct(names) && start < WORD && r < |names|
    requires WindowDone(Run(names, Sys(start, [], []), steps), a, m)
    requires (start + a) % WORD + m <= WORD || WORD % |names| == 0
    ensures FairCount(TimesSelected(Run(names, Sys(start, [], []), steps), a, m, names[r]), m, |names|)
  {
    InvRun(names, start, Sys(start, [], []), steps);
    SelectionsArePicks(names, start, Run(names, Sys(start, [], []), steps), a, m, r);
    HitsFromResidue(start + a, m, |names|, r);
    HitsFair((start + a) % WORD, m, |names|, r);
  }

  /** ... and within 2 of every other runtime when the window crosses the wrap once. */
  lemma RoundRobinAcrossWrap(names: seq<string>, start: nat, steps: seq<Step>, a: nat, m: nat, r: nat, u: nat)
    requires names != [] && Distinct(names) && start < WORD && r < |names| && u < |names|
    requires WindowDone(Run(names, Sys(start, [], []), steps), a, m)
    requires m <= WORD <= (start + a) % WORD + m
    ensures var s := Run(names, Sys(start, [], []), steps);
            TimesSelected(s, a, m, names[r]) <= TimesSelected(s, a, m, names[u]) + 2
  {
    InvRun(names, start, Sys(start, [], []), steps);
    var s := Run(names, Sys(start, [], []), steps);
    SelectionsArePicks(names, start, s, a, m, r);
    SelectionsArePicks(names, start, s, a, m, u);
    HitsFromResidue(start + a, m, |names|, r);
    HitsFromResidue(start + a, m, |names|, u);
    HitsAcrossWrap((start + a) % WORD, m, |names|, r, u);
  }
}

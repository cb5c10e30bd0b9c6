/**
 Runtime selection (internal/scheduler/scheduler.go): round-robin over a wrapping
 64-bit counter, and lowest load over a map in any iteration order.
 */
module Scheduler {
  import opened Prelude

  /** One runtime's answer to Status: (active, max), or an error. */
  type Status = Option<(int, int)>

  datatype Selection = Selected(name: string) | NoRuntimes | Unavailable | Unknown

  class Selector {
    const runtimes: set<string>
    const rrNames: seq<string>
    var rrIndex: nat

    ghost predicate Valid()
      reads this
    {
      rrIndex < WORD && IsListing(rrNames, runtimes)
    }

    /** NewScheduler: the names in whatever order the map yields them. */
    constructor (runtimes: set<string>)
      ensures Valid() && this.runtimes == runtimes && rrIndex == 0
    {
      var names: seq<string> := [];
      var listed: set<string> := {};
      while listed != runtimes
        invariant listed <= runtimes && IsListing(names, listed)
        decreases runtimes - listed
      {
        assert exists n :: n in runtimes && n !in listed;
        var name :| name in runtimes && name !in listed;
        ListingExtends(names, listed, name);
        names := names + [name];
        listed := listed + {name};
      }
      this.runtimes := runtimes;
      this.rrNames := names;
      this.rrIndex := 0;
    }

    /** "round-robin", "lowest-load", or the name of a runtime; `status` is what each Status call answers. */
    method SelectRuntime(policy: string, status: string -> Status) returns (r: Selection)
      requires Valid()
      modifies this
      ensures Valid()
      ensures policy == "round-robin" && runtimes == {} ==> r == NoRuntimes && rrIndex == old(rrIndex)
      ensures policy == "round-robin" && runtimes != {} ==>
                && |rrNames| > 0 && r == Selected(rrNames[old(rrIndex) % |rrNames|])
                && rrIndex == (old(rrIndex) + 1) % WORD
      ensures policy != "round-robin" ==> rrIndex == old(rrIndex)
      ensures policy == "lowest-load" ==> r != Unknown
      ensures policy == "lowest-load" ==> (r == NoRuntimes <==> runtimes == {})
      ensures policy == "lowest-load" ==>
                (r == Unavailable <==> runtimes != {} && forall n :: n in runtimes ==> !Available(status(n)))
      ensures policy == "lowest-load" && r.Selected? ==> Lowest(runtimes, status, r.name)
      ensures policy != "round-robin" && policy != "lowest-load" ==>
                r == if policy in runtimes then Selected(policy) else Unknown
      ensures r.Selected? ==> r.name in runtimes
    {
      if policy == "round-robin" {
        r := SelectRoundRobin();
      } else if policy == "lowest-load" {
        r := SelectLowestLoad(status);
      } else if policy in runtimes {
        r := Selected(policy);
      } else {
        r := Unknown;
      }
    }

    /** The counter wraps; the name taken is the one at the counter's old value, and it is registered. */
    method SelectRoundRobin() returns (r: Selection)
      requires Valid()
      modifies this
      ensures Valid()
      ensures runtimes == {} ==> r == NoRuntimes && rrIndex == old(rrIndex)
      ensures runtimes != {} ==> |rrNames| > 0
      ensures runtimes != {} ==> r == Selected(rrNames[old(rrIndex) % |rrNames|]) && r.name in runtimes
      ensures runtimes != {} ==> rrIndex == (old(rrIndex) + 1) % WORD
      ensures runtimes != {} ==> rrIndex == if old(rrIndex) == 0xffff_ffff_ffff_ffff then 0 else old(rrIndex) + 1
    {
      if |rrNames| == 0 {
        assert runtimes == {};
        return NoRuntimes;
      }
      var idx := rrIndex;
      rrIndex := (rrIndex + 1) % WORD;
      var name := rrNames[idx % |rrNames|];
      return Selected(name);
    }

    /** The argmin loop over the map in any order; a status error or a non-positive maximum is skipped. */
    method SelectLowestLoad(status: string -> Status) returns (r: Selection)
      ensures r != Unknown
      ensures r.NoRuntimes? <==> runtimes == {}
      ensures r.Unavailable? <==> runtimes != {} && forall n :: n in runtimes ==> !Available(status(n))
      ensures r.Selected? ==> Lowest(runtimes, status, r.name)
      ensures r.Unavailable? <==>
                runtimes != {} &&
                forall n :: n in runtimes ==>
                  status(n).None? || status(n).value.1 <= 0 || status(n).value.0 >= 2 * status(n).value.1
      ensures r.Selected? ==>
                && r.name in runtimes && status(r.name).Some?
                && status(r.name).value.1 > 0 && status(r.name).value.0 < 2 * status(r.name).value.1
                && forall n :: n in runtimes && status(n).Some? && status(n).value.1 > 0 ==>
                     status(r.name).value.0 * status(n).value.1 <= status(n).value.0 * status(r.name).value.1
    {
      if runtimes == {} {
        return NoRuntimes;
      }
      var best: Option<string> := None;
      var bestRatio := 2.0;
      var left := runtimes;
      while left != {}
        invariant left <= runtimes
        invariant best.None? ==> bestRatio == 2.0
        invariant best.Some? ==> best.value in runtimes && Available(status(best.value)) &&
                                 bestRatio == Ratio(status(best.value))
        invariant forall n :: n in runtimes && n !in left && Reports(status(n)) ==> bestRatio <= Ratio(status(n))
        decreases left
      {
        var name :| name in left;
        left := left - {name};
        var report := status(name);
        if report.None? || report.value.1 <= 0 {
          continue;
        }
        var ratio := Ratio(report);
        RatioBelowTwo(report);
        if ratio < bestRatio {
          bestRatio := ratio;
          best := Some(name);
        }
      }
      if best.None? {
        forall n | n in runtimes && Reports(status(n)) ensures !Available(status(n)) {
          RatioBelowTwo(status(n));
        }
        r := Unavailable;
      } else {
        LowestRatioIsLowest(runtimes, status, best.value);
        r := Selected(best.value);
      }
    }
  }

  // ---------------------------------------------------------------- Lowest load

  /** The runtime answered, with a positive maximum. */
  predicate Reports(s: Status) { s.Some? && s.value.1 > 0 }

  /** ... and its load is below the starting bound of twice its maximum. */
  predicate Available(s: Status) { Reports(s) && s.value.0 < 2 * s.value.1 }

  function Ratio(s: Status): real
    requires Reports(s)
  {
    s.value.0 as real / s.value.1 as real
  }

  /** `s` is at most as loaded as `u`, by cross-multiplication. */
  predicate NoMoreLoaded(s: Status, u: Status)
    requires Reports(s) && Reports(u)
  {
    s.value.0 * u.value.1 <= u.value.0 * s.value.1
  }

  ghost predicate Lowest(runtimes: set<string>, status: string -> Status, name: string) {
    && name in runtimes && Available(status(name))
    && forall n :: n in runtimes && Reports(status(n)) ==> NoMoreLoaded(status(name), status(n))
  }

  lemma QuotientBelow(a: real, b: real, k: real)
    requires b > 0.0
    ensures a / b < k <==> a < k * b
  {
  }

  lemma RatioBelowTwo(s: Status)
    requires Reports(s)
    ensures Ratio(s) < 2.0 <==> Available(s)
  {
    QuotientBelow(s.value.0 as real, s.value.1 as real, 2.0);
    assert (2 * s.value.1) as real == 2.0 * (s.value.1 as real);
  }

  lemma LowestRatioIsLowest(runtimes: set<string>, status: string -> Status, name: string)
    requires name in runtimes && Available(status(name))
    requires forall n :: n in runtimes && Reports(status(n)) ==> Ratio(status(name)) <= Ratio(status(n))
    ensures Lowest(runtimes, status, name)
  {
  }

  /** Two iteration orders may choose different runtimes, but never different ratios. */
  lemma LowestRatioUnique(runtimes: set<string>, status: string -> Status, a: string, b: string)
    requires Lowest(runtimes, status, a) && Lowest(runtimes, status, b)
    ensures Ratio(status(a)) == Ratio(status(b))
  {
  }

  // ---------------------------------------------------------------- Listings

  /** `names` lists the set without repetition. */
  ghost predicate IsListing(names: seq<string>, keys: set<string>) {
    && (forall i :: 0 <= i < |names| ==> names[i] in keys)
    && (forall k :: k in keys ==> k in names)
    && (forall i, j :: 0 <= i < j < |names| ==> names[i] != names[j])
  }

  lemma ListingExtends(names: seq<string>, keys: set<string>, name: string)
    requires IsListing(names, keys) && name !in keys
    ensures IsListing(names + [name], keys + {name})
  {
  }
}

/**
 WithRetry (internal/storage/postgres/health.go): a bounded retry loop with
 exponential backoff on transient errors, in 64-bit nanoseconds.
 */
module Retry {
  import opened Prelude

  /** What errors.As and errors.Is find in an error chain, in the order isTransient asks. */
  datatype Error = Postgres(code: string) | DeadlineExceeded | OtherError

  predicate IsTransient(e: Error) {
    match e
    case Postgres(code) => code in ["40001", "40P01", "08000", "08003", "08006", "57P01"]
    case DeadlineExceeded => true
    case OtherError => false
  }

  datatype Result =
    | Succeeded
    | Failed(error: Error)              // a permanent error, returned as it is
    | Canceled                          // the context ended during a wait
    | Exhausted(last: Option<Error>)    // "max retries exceeded"

  /** One run: how often fn was called and the waits entered, in nanoseconds as timed. */
  datatype Trace = Trace(result: Result, calls: nat, waits: seq<int>)

  const INT64_MAX := 0x7fff_ffff_ffff_ffff

  function Pow2(n: nat): nat { if n == 0 then 1 else 2 * Pow2(n - 1) }

  /** Signed 64-bit wrap-around. */
  function Wrap(x: int): int {
    var r := x % WORD;
    if r <= INT64_MAX then r else r - WORD
  }

  /** The intended wait after attempt n: 100ms, in nanoseconds, times 2^n. */
  function Intended(n: nat): nat { Pow2(n) * 100_000_000 }

  /**
   The wait the program computes.  A float above the int64 range converts to
   `outOfRange`, which the Go specification leaves to the implementation.
   */
  function Backoff(n: nat, outOfRange: int): int {
    var factor := if Pow2(n) <= INT64_MAX then Pow2(n) else outOfRange;
    Wrap(Wrap(factor * 100) * 1_000_000)
  }

  /** A timer with a non-positive duration fires at once. */
  function Waited(d: int): nat { if d > 0 then d else 0 }

  function TotalWait(waits: seq<int>): nat {
    if waits == [] then 0 else TotalWait(waits[..|waits| - 1]) + Waited(waits[|waits| - 1])
  }

  /** fn answers attempt n with `fn(n)`: None is success. */
  type Attempts = nat -> Option<Error>

  /** Attempts 0 .. n-1 all failed transiently and no wait between them was cut short. */
  ghost predicate Retried(fn: Attempts, canceled: nat -> bool, n: nat) {
    forall i :: 0 <= i < n ==> fn(i).Some? && IsTransient(fn(i).value) && !canceled(i)
  }

  /** The run that the loop's documentation describes, as a relation. */
  ghost predicate Describes(t: Trace, maxAttempts: int, fn: Attempts, canceled: nat -> bool, outOfRange: int) {
    && t.calls <= (if maxAttempts < 0 then 0 else maxAttempts)
    && (forall i :: 0 <= i < |t.waits| ==> t.waits[i] == Backoff(i, outOfRange))
    && match t.result
       case Succeeded =>
         t.calls >= 1 && Retried(fn, canceled, t.calls - 1) && fn(t.calls - 1).None? && |t.waits| == t.calls - 1
       case Failed(e) =>
         t.calls >= 1 && Retried(fn, canceled, t.calls - 1) && fn(t.calls - 1) == Some(e) && !IsTransient(e) &&
         |t.waits| == t.calls - 1
       case Canceled =>
         1 <= t.calls < maxAttempts && Retried(fn, canceled, t.calls - 1) && canceled(t.calls - 1) &&
         fn(t.calls - 1).Some? && IsTransient(fn(t.calls - 1).value) && |t.waits| == t.calls
       case Exhausted(last) =>
         if maxAttempts <= 0 then t.calls == 0 && last.None? && t.waits == []
         else t.calls == maxAttempts && last == fn(maxAttempts - 1) && last.Some? && IsTransient(last.value) &&
              Retried(fn, canceled, maxAttempts - 1) && |t.waits| == maxAttempts - 1
  }

  /** `canceled(n)` says whether the wait after attempt n ends by the context. */
  method WithRetry(maxAttempts: int, fn: Attempts, canceled: nat -> bool, outOfRange: int) returns (t: Trace)
    ensures Describes(t, maxAttempts, fn, canceled, outOfRange)
    ensures forall i :: 0 <= i < t.calls - 1 ==>
              fn(i) == Some(DeadlineExceeded) ||
              exists code :: fn(i) == Some(Postgres(code)) &&
                (code == "40001" || code == "40P01" || code == "08000" ||
                 code == "08003" || code == "08006" || code == "57P01")
    ensures t.result.Failed? ==>
              t.result.error == OtherError ||
              exists code :: t.result.error == Postgres(code) &&
                code != "40001" && code != "40P01" && code != "08000" &&
                code != "08003" && code != "08006" && code != "57P01"
  {
    var lastErr: Option<Error> := None;
    var waits: seq<int> := [];
    var attempt := 0;
    while attempt < maxAttempts
      invariant 0 <= attempt && (maxAttempts <= 0 ==> attempt == 0) && (maxAttempts > 0 ==> attempt <= maxAttempts)
      invariant forall i :: 0 <= i < |waits| ==> waits[i] == Backoff(i, outOfRange)
      invariant |waits| == if attempt == maxAttempts > 0 then attempt - 1 else attempt
      invariant attempt == 0 ==> lastErr.None?
      invariant attempt > 0 ==> lastErr == fn(attempt - 1) && lastErr.Some? && IsTransient(lastErr.value)
      invariant Retried(fn, canceled, if attempt == maxAttempts > 0 then attempt - 1 else attempt)
    {
      lastErr := fn(attempt);
      if lastErr.None? {
        return Trace(Succeeded, attempt + 1, waits);
      }
      if !IsTransient(lastErr.value) {
        return Trace(Failed(lastErr.value), attempt + 1, waits);
      }
      if attempt < maxAttempts - 1 {
        waits := waits + [Backoff(attempt, outOfRange)];
        if canceled(attempt) {
          return Trace(Canceled, attempt + 1, waits);
        }
      }
      attempt := attempt + 1;
    }
    return Trace(Exhausted(lastErr), attempt, waits);
  }

  // ---------------------------------------------------------------- What the relation amounts to

  /** The relation determines the run: there is one trace for each behaviour of fn and the context. */
  lemma TraceUnique(a: Trace, b: Trace, maxAttempts: int, fn: Attempts, canceled: nat -> bool, outOfRange: int)
    requires Describes(a, maxAttempts, fn, canceled, outOfRange)
    requires Describes(b, maxAttempts, fn, canceled, outOfRange)
    ensures a == b
  {
  }

  lemma Pow2Positive(n: nat)
    ensures Pow2(n) >= 1
  {
  }

  lemma {:induction false} Pow2Monotone(m: nat, n: nat)
    requires m <= n
    ensures Pow2(m) <= Pow2(n)
    decreases n - m
  {
    if m < n {
      Pow2Positive(n - 1);
      Pow2Monotone(m, n - 1);
    }
  }

  lemma Pow2Values()
    ensures Pow2(36) == 0x10_0000_0000 && Pow2(37) == 0x20_0000_0000
  {
    Pow2Nine(0);
    Pow2Nine(9);
    Pow2Nine(18);
    Pow2Nine(27);
    assert Pow2(37) == 2 * Pow2(36);
  }

  lemma Pow2Three(n: nat)
    ensures Pow2(n + 3) == 8 * Pow2(n)
  {
    assert Pow2(n + 2) == 2 * Pow2(n + 1);
  }

  lemma Pow2Nine(n: nat)
    ensures Pow2(n + 9) == 512 * Pow2(n)
  {
    Pow2Three(n);
    Pow2Three(n + 3);
    Pow2Three(n + 6);
  }

  /** The computed wait is the intended one exactly up to the 37th attempt. */
  lemma BackoffExactWhen(n: nat, outOfRange: int)
    ensures n <= 36 ==> Backoff(n, outOfRange) == Intended(n) <= INT64_MAX
    ensures n >= 37 ==> Backoff(n, outOfRange) < Intended(n) && Intended(n) > INT64_MAX
  {
    Pow2Values();
    if n <= 36 {
      Pow2Monotone(n, 36);
    } else {
      Pow2Monotone(37, n);
    }
  }

  lemma WrapShifts(x: int) returns (k: int)
    ensures Wrap(x) == x + k * WORD && -INT64_MAX - 1 <= Wrap(x) <= INT64_MAX
  {
    assert x == (x / WORD) * WORD + x % WORD;
    k := if x % WORD <= INT64_MAX then -(x / WORD) else -(x / WORD) - 1;
  }

  lemma Pow2Widths()
    ensures Pow2(62) == 0x4000_0000_0000_0000 && Pow2(63) == 0x8000_0000_0000_0000
  {
    Pow2Values();
    Pow2Nine(36);
    Pow2Nine(45);
    Pow2Nine(54);
    assert Pow2(63) == 2 * Pow2(62);
  }

  lemma MultipleOfWord(k: int)
    ensures (k * 0x1_0000_0000_0000_0000) % 0x1_0000_0000_0000_0000 == 0
  {
  }

  /**
   What the program computes when it overflows: the 64-bit signed value congruent to the
   intended wait, and from the 64th attempt on to what the conversion of 2^n yields.
   */
  lemma BackoffWraps(n: nat, outOfRange: int)
    ensures -0x8000_0000_0000_0000 <= Backoff(n, outOfRange) <= 0x7fff_ffff_ffff_ffff
    ensures n <= 62 ==> (Backoff(n, outOfRange) - Intended(n)) % 0x1_0000_0000_0000_0000 == 0
    ensures n >= 63 ==> (Backoff(n, outOfRange) - outOfRange * 100_000_000) % 0x1_0000_0000_0000_0000 == 0
  {
    Pow2Widths();
    if n <= 62 {
      Pow2Monotone(n, 62);
    } else {
      Pow2Monotone(63, n);
    }
    var factor := if n <= 62 then Pow2(n) else outOfRange;
    var j := WrapShifts(factor * 100);
    var k := WrapShifts(Wrap(factor * 100) * 1_000_000);
    assert Backoff(n, outOfRange) - factor * 100_000_000 == (j * 1_000_000 + k) * WORD;
    MultipleOfWord(j * 1_000_000 + k);
  }

  /** No wait overflows, exactly for at most 38 attempts. */
  lemma NoOverflowExactlyWhen(maxAttempts: nat, outOfRange: int)
    ensures (forall n: nat :: n < maxAttempts - 1 ==> Backoff(n, outOfRange) == Intended(n)) <==> maxAttempts <= 38
  {
    if maxAttempts <= 38 {
      forall n: nat | n < maxAttempts - 1 ensures Backoff(n, outOfRange) == Intended(n) {
        BackoffExactWhen(n, outOfRange);
      }
    } else {
      BackoffExactWhen(37, outOfRange);
    }
  }

  lemma WaitedBound(n: nat, outOfRange: int)
    ensures Waited(Backoff(n, outOfRange)) <= Intended(n)
    ensures n <= 36 ==> Waited(Backoff(n, outOfRange)) == Intended(n)
  {
    BackoffExactWhen(n, outOfRange);
  }

  lemma {:induction false} TotalWaitBound(waits: seq<int>)
    requires forall i :: 0 <= i < |waits| ==>
                           Waited(waits[i]) <= Intended(i) && (i <= 36 ==> Waited(waits[i]) == Intended(i))
    ensures TotalWait(waits) <= 100_000_000 * (Pow2(|waits|) - 1)
    ensures |waits| <= 37 ==> TotalWait(waits) == 100_000_000 * (Pow2(|waits|) - 1)
  {
    if waits != [] {
      var n := |waits| - 1;
      TotalWaitBound(waits[..n]);
      Pow2Positive(n);
      assert Pow2(n + 1) == 2 * Pow2(n);
      assert Waited(waits[n]) <= Intended(n);
    }
  }

  /**
   Every run calls fn at most maxAttempts times, never waits after its last call
   unless the context ended that wait, and waits at most 100ms * (2^(maxAttempts-1) - 1)
   in all; if the attempts run out and there were at most 38, it waits exactly that.
   */
  lemma RetryBounds(t: Trace, maxAttempts: int, fn: Attempts, canceled: nat -> bool, outOfRange: int)
    requires maxAttempts >= 1 && Describes(t, maxAttempts, fn, canceled, outOfRange)
    ensures 1 <= t.calls <= maxAttempts
    ensures |t.waits| == t.calls - 1 || (t.result.Canceled? && |t.waits| == t.calls < maxAttempts)
    ensures TotalWait(t.waits) <= 100_000_000 * (Pow2(maxAttempts - 1) - 1)
    ensures t.result.Exhausted? && maxAttempts <= 38 ==>
              TotalWait(t.waits) == 100_000_000 * (Pow2(maxAttempts - 1) - 1)
  {
    forall i | 0 <= i < |t.waits|
      ensures Waited(t.waits[i]) <= Intended(i) && (i <= 36 ==> Waited(t.waits[i]) == Intended(i))
    {
      WaitedBound(i, outOfRange);
    }
    TotalWaitBound(t.waits);
    Pow2Monotone(|t.waits|, maxAttempts - 1);
  }
}

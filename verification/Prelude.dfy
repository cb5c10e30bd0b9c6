/** Small shared vocabulary: optional values, look-ups, failing calls, and counting in sequences. */
module Prelude {

  datatype Option<+T> = None | Some(value: T) {
    function Or(fallback: T): T { if Some? then value else fallback }
  }

  function LookUp<K, V>(m: map<K, V>, k: K): Option<V> {
    if k in m then Some(m[k]) else None
  }

  /**
   What can go wrong around one remote call: nothing, an error before it took
   effect, or an error (a lost reply) after it took effect.
   */
  datatype Fault = Healthy | LostBefore | LostAfter

  /** The values of an unsigned 64-bit word. */
  const WORD := 0x1_0000_0000_0000_0000

  /** How many elements of `s` satisfy `p`. */
  ghost function CountIf<T>(s: seq<T>, p: T -> bool): (n: nat)
    ensures n <= |s|
  {
    if s == [] then 0 else CountIf(s[..|s| - 1], p) + (if p(s[|s| - 1]) then 1 else 0)
  }

  lemma {:induction false} CountIfUpdate<T>(s: seq<T>, i: nat, x: T, p: T -> bool)
    requires i < |s|
    ensures CountIf(s[i := x], p) + (if p(s[i]) then 1 else 0) == CountIf(s, p) + (if p(x) then 1 else 0)
  {
    var last := |s| - 1;
    if i == last {
      assert s[i := x][..last] == s[..last];
    } else {
      CountIfUpdate(s[..last], i, x, p);
      assert s[i := x][..last] == s[..last][i := x];
    }
  }

  lemma CountIfAppend<T>(s: seq<T>, x: T, p: T -> bool)
    ensures CountIf(s + [x], p) == CountIf(s, p) + (if p(x) then 1 else 0)
  {
  }

  lemma {:induction false} CountIfSplit<T>(s: seq<T>, t: seq<T>, p: T -> bool)
    ensures CountIf(s + t, p) == CountIf(s, p) + CountIf(t, p)
  {
    if t == [] {
      assert s + t == s;
    } else {
      var last := |t| - 1;
      assert (s + t)[..|s + t| - 1] == s + t[..last];
      CountIfSplit(s, t[..last], p);
    }
  }

  lemma {:induction false} CountIfPositive<T>(s: seq<T>, p: T -> bool)
    ensures CountIf(s, p) > 0 <==> exists i :: 0 <= i < |s| && p(s[i])
  {
    if s != [] {
      var last := |s| - 1;
      CountIfPositive(s[..last], p);
      if CountIf(s[..last], p) > 0 {
        var i :| 0 <= i < last && p(s[..last][i]);
        assert p(s[i]);
      }
    }
  }
}

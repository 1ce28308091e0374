/** Sums of integer sequences: buffer offsets are sums of slot lengths,
    and the step deltas of a run add up to the elapsed time. */
module Sums {

  function Sum(s: seq<int>): int
  {
    if s == [] then 0 else s[0] + Sum(s[1..])
  }

  predicate NonNegative(s: seq<int>)
  {
    forall i :: 0 <= i < |s| ==> s[i] >= 0
  }

  lemma {:induction false} SumAppend(a: seq<int>, b: seq<int>)
    ensures Sum(a + b) == Sum(a) + Sum(b)
  {
    if a == [] {
      assert a + b == b;
    } else {
      assert (a + b)[1..] == a[1..] + b;
      SumAppend(a[1..], b);
    }
  }

  /** Extending a prefix by one element adds that element to its sum. */
  lemma SumPrefixStep(s: seq<int>, k: nat)
    requires k < |s|
    ensures Sum(s[..k + 1]) == Sum(s[..k]) + s[k]
  {
    assert s[..k + 1] == s[..k] + [s[k]];
    SumAppend(s[..k], [s[k]]);
  }

  lemma {:induction false} SumNonNegative(s: seq<int>)
    requires NonNegative(s)
    ensures Sum(s) >= 0
  {
    if s != [] {
      assert NonNegative(s[1..]);
      SumNonNegative(s[1..]);
    }
  }
}

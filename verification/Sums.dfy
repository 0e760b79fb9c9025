/** Sums of a weight over a list. */
module Sums {
  function Sum<T>(ss: seq<T>, weight: T -> nat): nat {
    if ss == [] then 0 else Sum(ss[..|ss| - 1], weight) + weight(ss[|ss| - 1])
  }

  lemma {:induction false} SumUpdate<T>(ss: seq<T>, k: nat, s: T, weight: T -> nat)
    requires k < |ss|
    ensures Sum(ss[k := s], weight) == Sum(ss, weight) - weight(ss[k]) + weight(s)
  {
    var n := |ss| - 1;
    if k == n {
      assert ss[k := s][..n] == ss[..n];
    } else {
      assert ss[k := s][..n] == ss[..n][k := s];
      SumUpdate(ss[..n], k, s, weight);
    }
  }

  lemma {:induction false} SumAppend<T>(ss: seq<T>, ts: seq<T>, weight: T -> nat)
    ensures Sum(ss + ts, weight) == Sum(ss, weight) + Sum(ts, weight)
    decreases |ts|
  {
    if ts == [] {
      assert ss + ts == ss;
    } else {
      var n := |ts| - 1;
      assert (ss + ts)[..|ss + ts| - 1] == ss + ts[..n];
      SumAppend(ss, ts[..n], weight);
    }
  }

  lemma SumSnoc<T>(ss: seq<T>, s: T, weight: T -> nat)
    ensures Sum(ss + [s], weight) == Sum(ss, weight) + weight(s)
  {
    assert (ss + [s])[..|ss|] == ss;
  }

  lemma SumWithout<T>(ss: seq<T>, k: nat, weight: T -> nat)
    requires k < |ss|
    ensures Sum(ss[..k] + ss[k + 1..], weight) == Sum(ss, weight) - weight(ss[k])
  {
    var before, upto, after := ss[..k], ss[..k + 1], ss[k + 1..];
    assert upto == before + [ss[k]];
    SumSnoc(before, ss[k], weight);
    assert ss == upto + after;
    SumAppend(upto, after, weight);
    SumAppend(before, after, weight);
  }
}

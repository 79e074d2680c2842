/** Weighted sums over a sequence of thread states, and how updating one thread changes them. */
module Counting {
  function Sum<P>(s: seq<P>, weight: P -> nat): nat {
    if s == [] then 0 else Sum(s[..|s| - 1], weight) + weight(s[|s| - 1])
  }

  lemma {:induction false} SumUpdate<P>(s: seq<P>, i: nat, x: P, weight: P -> nat)
    requires i < |s|
    ensures Sum(s[i := x], weight) == Sum(s, weight) - weight(s[i]) + weight(x)
  {
    var u, n := s[i := x], |s| - 1;
    if i == n {
      assert u[..n] == s[..n];
    } else {
      assert u[..n] == s[..n][i := x];
      SumUpdate(s[..n], i, x, weight);
    }
  }

  lemma {:induction false} SumAtLeast<P>(s: seq<P>, i: nat, weight: P -> nat)
    requires i < |s|
    ensures Sum(s, weight) >= weight(s[i])
  {
    if i < |s| - 1 { SumAtLeast(s[..|s| - 1], i, weight); }
  }

  lemma {:induction false} SumZero<P>(s: seq<P>, weight: P -> nat)
    requires forall i :: 0 <= i < |s| ==> weight(s[i]) == 0
    ensures Sum(s, weight) == 0
  {
    if s != [] { SumZero(s[..|s| - 1], weight); }
  }

  lemma {:induction false} SumEqual<P>(s: seq<P>, u: seq<P>, weight: P -> nat)
    requires |s| == |u| && forall i :: 0 <= i < |s| ==> weight(s[i]) == weight(u[i])
    ensures Sum(s, weight) == Sum(u, weight)
  {
    if s != [] { SumEqual(s[..|s| - 1], u[..|u| - 1], weight); }
  }

  ghost predicate Any<P>(s: seq<P>, f: P -> bool) {
    exists i :: 0 <= i < |s| && f(s[i])
  }

  ghost predicate Changed<P>(s: seq<P>, t: nat, p: P, f: P -> bool)
    requires t < |s|
  {
    && (Any(s[t := p], f) ==> f(p) || Any(s, f))
    && (f(p) ==> Any(s[t := p], f))
    && (Any(s, f) ==> f(s[t]) || Any(s[t := p], f))
  }

  lemma OneChanged<P>(s: seq<P>, t: nat, p: P, f: P -> bool)
    requires t < |s|
    ensures Changed(s, t, p, f)
  {
    var u := s[t := p];
    if Any(u, f) {
      var i :| 0 <= i < |u| && f(u[i]);
      assert i != t ==> u[i] == s[i];
    }
    if f(p) { assert f(u[t]); }
    if Any(s, f) {
      var i :| 0 <= i < |s| && f(s[i]);
      assert i != t ==> u[i] == s[i];
    }
  }
}

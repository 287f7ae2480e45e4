/** Sums of a natural weight over a sequence. */
module Totals {

  ghost function Total<T(!new)>(s: seq<T>, f: T -> nat): nat {
    if s == [] then 0 else Total(s[..|s| - 1], f) + f(s[|s| - 1])
  }

  lemma {:induction false} TotalUpdate<T(!new)>(s: seq<T>, f: T -> nat, i: nat, x: T)
    requires i < |s|
    ensures Total(s[i := x], f) + f(s[i]) == Total(s, f) + f(x)
    decreases |s|
  {
    var n := |s| - 1;
    if i < n {
      TotalUpdate(s[..n], f, i, x);
      assert s[i := x][..n] == s[..n][i := x];
    } else {
      assert s[i := x][..n] == s[..n];
    }
  }

  lemma TotalPush<T(!new)>(s: seq<T>, f: T -> nat, x: T)
    ensures Total(s + [x], f) == Total(s, f) + f(x)
  {
  }

  lemma {:induction false} TotalAgrees<T(!new)>(s: seq<T>, u: seq<T>, f: T -> nat)
    requires |s| == |u| && forall i :: 0 <= i < |s| ==> f(s[i]) == f(u[i])
    ensures Total(s, f) == Total(u, f)
    decreases |s|
  {
    if s != [] { TotalAgrees(s[..|s| - 1], u[..|u| - 1], f); }
  }
}

/** The order in which router/smart.py ranks scored candidates: by falling total, then by model id. */
module Ranking {
  import opened Wrappers

  datatype Standing = Viable | Cooling | Excluded

  datatype Candidate = Candidate(
    model: string, engine: string, total: real, trust: real, resident: bool, swapCost: real, standing: Standing)

  // ---- the order ------------------------------------------------------------

  /** Code-point order of model ids. */
  predicate Less(a: string, b: string) {
    b != [] && (a == [] || a[0] < b[0] || (a[0] == b[0] && Less(a[1..], b[1..])))
  }

  lemma {:induction false} LessTotal(a: string, b: string)
    ensures !Less(a, a)
    ensures a == b || Less(a, b) || Less(b, a)
    ensures !(Less(a, b) && Less(b, a))
  {
    if a != [] {
      LessTotal(a[1..], if b == [] then b else b[1..]);
      if b != [] && a[0] == b[0] && a[1..] == b[1..] {
        assert a == [a[0]] + a[1..] && b == [b[0]] + b[1..];
      }
    }
  }

  lemma {:induction false} LessTransitive(a: string, b: string, c: string)
    requires Less(a, b) && Less(b, c)
    ensures Less(a, c)
  {
    if a != [] && a[0] == b[0] && b[0] == c[0] {
      LessTransitive(a[1..], b[1..], c[1..]);
    }
  }

  /** The names agree up to `k`, where `a` ends or has the smaller character. */
  ghost predicate FirstDifference(a: string, b: string, k: nat) {
    k <= |a| && k < |b| && a[..k] == b[..k] && (k < |a| ==> a[k] < b[k])
  }

  /** `Less` is the order of dictionaries, by code point. */
  lemma {:induction false} LessIsLexicographic(a: string, b: string)
    ensures Less(a, b) <==> exists k: nat :: FirstDifference(a, b, k)
  {
    if a != [] && b != [] {
      LessIsLexicographic(a[1..], b[1..]);
      if k: nat :| FirstDifference(a[1..], b[1..], k) {
        if a[0] == b[0] {
          assert a[..k + 1] == [a[0]] + a[1..][..k] && b[..k + 1] == [b[0]] + b[1..][..k];
          assert FirstDifference(a, b, k + 1);
        }
      }
      if k: nat :| FirstDifference(a, b, k) {
        if k > 0 {
          assert a[..k][0] == b[..k][0];
          assert a[1..][..k - 1] == a[..k][1..] && b[1..][..k - 1] == b[..k][1..];
          assert FirstDifference(a[1..], b[1..], k - 1);
        }
      }
      if a[0] < b[0] { assert FirstDifference(a, b, 0); }
    } else if b != [] {
      assert FirstDifference(a, b, 0);
    }
  }

  predicate Before(a: Candidate, b: Candidate) {
    a.total > b.total || (a.total == b.total && Less(a.model, b.model))
  }

  lemma BeforeTotal(a: Candidate, b: Candidate)
    ensures a.model == b.model || Before(a, b) || Before(b, a)
    ensures !(Before(a, b) && Before(b, a))
  {
    LessTotal(a.model, b.model);
  }

  lemma BeforeTransitive(a: Candidate, b: Candidate, c: Candidate)
    requires Before(a, b) && Before(b, c)
    ensures Before(a, c)
  {
    if a.total == b.total == c.total {
      LessTransitive(a.model, b.model, c.model);
    }
  }

  // ---- sorting --------------------------------------------------------------

  function Insert(c: Candidate, s: seq<Candidate>): (r: seq<Candidate>)
    ensures multiset(r) == multiset(s) + multiset{c}
    ensures |r| == |s| + 1
  {
    if s == [] || Before(c, s[0]) then [c] + s
    else
      assert s == [s[0]] + s[1..];
      [s[0]] + Insert(c, s[1..])
  }

  function Ranked(s: seq<Candidate>): (r: seq<Candidate>)
    ensures multiset(r) == multiset(s)
    ensures |r| == |s|
  {
    if s == [] then []
    else
      assert s == [s[0]] + s[1..];
      Insert(s[0], Ranked(s[1..]))
  }

  ghost predicate Distinct(s: seq<Candidate>) {
    forall i, j :: 0 <= i < j < |s| ==> s[i].model != s[j].model
  }

  ghost predicate Sorted(s: seq<Candidate>) {
    forall i, j :: 0 <= i < j < |s| ==> Before(s[i], s[j])
  }

  lemma SameMembers(s: seq<Candidate>, r: seq<Candidate>, c: Candidate)
    requires multiset(r) == multiset(s)
    ensures c in r <==> c in s
  {
    assert c in r <==> c in multiset(r);
    assert c in s <==> c in multiset(s);
  }

  lemma {:induction false} InsertSorts(c: Candidate, s: seq<Candidate>)
    requires Sorted(s) && forall d :: d in s ==> d.model != c.model
    ensures Sorted(Insert(c, s))
  {
    if s != [] && Before(c, s[0]) {
      forall i | 0 < i < |s|
        ensures Before(c, s[i])
      {
        BeforeTransitive(c, s[0], s[i]);
      }
    } else if s != [] {
      InsertSorts(c, s[1..]);
      BeforeTotal(c, s[0]);
      var r := Insert(c, s[1..]);
      forall i | 0 <= i < |r|
        ensures Before(s[0], r[i])
      {
        assert r[i] in multiset(r);
      }
    }
  }

  lemma {:induction false} RankedSorts(s: seq<Candidate>)
    requires Distinct(s)
    ensures Sorted(Ranked(s))
  {
    if s != [] {
      var tail := s[1..];
      RankedSorts(tail);
      forall d | d in Ranked(tail)
        ensures d.model != s[0].model
      {
        SameMembers(tail, Ranked(tail), d);
      }
      InsertSorts(s[0], Ranked(tail));
    }
  }

  // ---- the first of a kind --------------------------------------------------

  datatype Kind = Any | Resident | Other(than: string)

  predicate Passes(f: Kind, c: Candidate) {
    match f
    case Any => true
    case Resident => c.resident
    case Other(than) => c.model != than
  }

  function First(s: seq<Candidate>, f: Kind): Option<Candidate> {
    if s == [] then None
    else if Passes(f, s[0]) then Some(s[0])
    else First(s[1..], f)
  }

  /** `x` is the best of kind `f`: ahead of every other candidate of that kind. */
  ghost predicate IsBest(s: seq<Candidate>, f: Kind, x: Candidate) {
    x in s && Passes(f, x) && forall c :: c in s && Passes(f, c) && c != x ==> Before(x, c)
  }

  ghost predicate NoneOf(s: seq<Candidate>, f: Kind) {
    forall c :: c in s ==> !Passes(f, c)
  }

  lemma {:induction false} FirstOfSorted(r: seq<Candidate>, f: Kind)
    requires Sorted(r)
    ensures match First(r, f)
      case None => NoneOf(r, f)
      case Some(x) => IsBest(r, f, x)
  {
    if r != [] && !Passes(f, r[0]) {
      FirstOfSorted(r[1..], f);
    }
  }

  /** The first of its kind in the ranking is the best of its kind, and there is one unless none is of the kind. */
  lemma FirstIsBest(s: seq<Candidate>, f: Kind)
    requires Distinct(s)
    ensures match First(Ranked(s), f)
      case None => NoneOf(s, f)
      case Some(x) => IsBest(s, f, x)
  {
    RankedSorts(s);
    FirstOfSorted(Ranked(s), f);
    forall c
      ensures c in Ranked(s) <==> c in s
    {
      SameMembers(s, Ranked(s), c);
    }
  }

  lemma BestIsUnique(s: seq<Candidate>, f: Kind, x: Candidate, y: Candidate)
    requires IsBest(s, f, x) && IsBest(s, f, y)
    ensures x == y
  {
    BeforeTotal(x, y);
  }
}

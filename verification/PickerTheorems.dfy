/** Optimality, monotonicity and stability of the smart picker. */
module PickerTheorems {
  import opened Wrappers
  import opened Scoring
  import opened Ranking
  import opened Picker

  // ---- optimality -----------------------------------------------------------

  /** `o` is the best of kind `f`, if there is one of that kind. */
  ghost predicate IsBestOption(s: seq<Candidate>, f: Kind, o: Option<Candidate>) {
    match o
    case None => NoneOf(s, f)
    case Some(x) => IsBest(s, f, x)
  }

  lemma FirstIs(s: seq<Candidate>, f: Kind, o: Option<Candidate>)
    requires Distinct(s) && IsBestOption(s, f, o)
    ensures First(Ranked(s), f) == o
  {
    FirstIsBest(s, f);
    var first := First(Ranked(s), f);
    if first.Some? && o.Some? {
      BestIsUnique(s, f, first.value, o.value);
    }
  }

  /** What the kinds stand for: all candidates, those whose engine is active, and those of another model. */
  lemma KindsMean(s: seq<Candidate>, f: Kind, x: Candidate)
    ensures IsBest(s, f, x) <==>
      var of: set<Candidate> := set c | c in s
        && (f == Any || (f == Resident && c.resident) || (f.Other? && c.model != f.than));
      x in of && forall c :: c in of && c != x ==>
        x.total > c.total || (x.total == c.total && Less(x.model, c.model))
  {
  }

  lemma BestExists(s: seq<Candidate>, f: Kind) returns (o: Option<Candidate>)
    requires Distinct(s)
    ensures IsBestOption(s, f, o)
  {
    FirstIsBest(s, f);
    o := First(Ranked(s), f);
  }

  /** The leader is worth a swap: it clears the margin over the best resident, with enough confidence. */
  predicate WorthIt(st: Settings, top: Candidate, resident: Candidate, runnerUp: Option<Candidate>) {
    top.total - resident.total >= st.swapMargin && Confidence(top, runnerUp) >= st.minConfidence
  }

  /**
   The pick is the best of all exactly when that one is resident, or nothing is resident, or it is worth the swap;
   otherwise it is the best resident.
  */
  lemma PickRule(st: Settings, s: seq<Candidate>, top: Candidate, resident: Option<Candidate>, runnerUp: Option<Candidate>)
    requires Distinct(s) && IsBest(s, Any, top) && IsBestOption(s, Resident, resident)
    requires IsBestOption(s, Other(top.model), runnerUp)
    ensures s != []
    ensures Choose(st, s).pick ==
      if top.resident || resident.None? || WorthIt(st, top, resident.value, runnerUp) then top else resident.value
  {
    FirstIs(s, Any, Some(top));
    FirstIs(s, Resident, resident);
    FirstIs(s, Other(top.model), runnerUp);
    assert Ranked(s)[0] == top;
    if top.resident {
      BestIsUnique(s, Resident, top, resident.value);
    }
  }

  /** The pick is a candidate; if it is not resident, it leads all candidates and every resident one by the margin. */
  lemma SwapsAreEarned(st: Settings, s: seq<Candidate>)
    requires Distinct(s) && s != []
    ensures var p := Choose(st, s).pick;
      && p in s
      && (p.resident ==> IsBest(s, Resident, p))
      && (!p.resident ==> IsBest(s, Any, p) && forall c :: c in s && c.resident ==> p.total - c.total >= st.swapMargin)
  {
    var first := BestExists(s, Any);
    assert Passes(Any, s[0]);
    var top := first.value;
    var resident := BestExists(s, Resident);
    var runnerUp := BestExists(s, Other(top.model));
    PickRule(st, s, top, resident, runnerUp);
    hide Choose, Before, Confidence;
    if top.resident {
      assert IsBest(s, Resident, top);
    } else if resident.Some? {
      forall c | c in s && c.resident
        ensures resident.value.total >= c.total
      {
        if c != resident.value { BestAbove(s, Resident, resident.value, c); }
      }
    }
  }

  // ---- fallbacks ------------------------------------------------------------

  lemma {:induction false} OthersShape(st: Settings, r: seq<Candidate>, pick: string)
    requires Sorted(r)
    ensures Sorted(Others(st, r, pick))
    ensures forall c :: c in Others(st, r, pick) <==> c in r && c.model != pick && c.engine in st.engines
  {
    if r != [] {
      var init := r[..|r| - 1];
      OthersShape(st, init, pick);
      assert r == init + [r[|r| - 1]];
      assert forall c :: c in init ==> Before(c, r[|r| - 1]);
    }
  }

  /** The fallbacks are the best of the other candidates with an engine, in ranking order, as many as allowed. */
  lemma FallbacksAreTheNextBest(st: Settings, s: seq<Candidate>)
    requires Distinct(s) && s != []
    ensures var fs, p := Fallbacks(st, s), Choose(st, s).pick;
      && Sorted(fs)
      && (forall f :: f in fs ==> f in s && f.model != p.model && f.engine in st.engines)
      && |fs| <= (if st.maxFallbacks < 0 then 0 else st.maxFallbacks)
      && forall c :: c in s && c.model != p.model && c.engine in st.engines && c !in fs ==>
           |fs| >= st.maxFallbacks && forall f :: f in fs ==> Before(f, c)
  {
    var r, p := Ranked(s), Choose(st, s).pick;
    RankedSorts(s);
    OthersShape(st, r, p.model);
    var all, fs := Others(st, r, p.model), Fallbacks(st, s);
    forall c
      ensures c in r <==> c in s
    {
      SameMembers(s, r, c);
    }
    assert forall f :: f in fs ==> f in all;
    forall c, f | c in all && c !in fs && f in fs
      ensures Before(f, c)
    {
      var i :| 0 <= i < |all| && all[i] == c;
      var j :| 0 <= j < |fs| && fs[j] == f;
      assert all[j] == f;
    }
  }

  /** The reported fallbacks name each model once, and never the pick. */
  lemma FallbackModelsAreDistinct(st: Settings, s: seq<Candidate>)
    requires Distinct(s) && s != []
    ensures var names := Models(Fallbacks(st, s));
      Choose(st, s).pick.model !in names && forall i, j :: 0 <= i < j < |names| ==> names[i] != names[j]
  {
    hide Choose, Fallbacks;
    FallbacksAreTheNextBest(st, s);
    var fs := Fallbacks(st, s);
    forall i, j | 0 <= i < j < |fs|
      ensures fs[i].model != fs[j].model
    {
      BeforeTotal(fs[i], fs[j]);
      assert fs[i] in fs && fs[j] in fs && fs[i] != fs[j];
    }
  }

  // ---- monotonicity ---------------------------------------------------------

  /** Every candidate but `p` is unchanged; `p` has at least its old total. */
  ghost predicate Raised(s: seq<Candidate>, t: seq<Candidate>, p: string) {
    && |s| == |t|
    && forall i :: 0 <= i < |s| ==> RaisedOne(s[i], t[i], p)
  }

  ghost predicate RaisedOne(a: Candidate, b: Candidate, p: string) {
    if a.model == p then b == a.(total := b.total) && b.total >= a.total else b == a
  }

  /** `t` holds `q` in the place of the only candidate of its name, `p`. */
  ghost predicate Replaces(s: seq<Candidate>, t: seq<Candidate>, p: Candidate, q: Candidate) {
    && p in s && q in t && RaisedOne(p, q, p.model)
    && (forall c :: c in s && c.model == p.model ==> c == p)
    && (forall c :: c in t && c.model == p.model ==> c == q)
    && (forall c: Candidate :: c.model != p.model ==> (c in s <==> c in t))
  }

  lemma SurenessMonotone(gap: real, wider: real, trust: real)
    requires gap <= wider && trust >= 0.0
    ensures Sureness(gap, trust) <= Sureness(wider, trust)
  {
    ClampMonotone(4.0 * gap, 4.0 * wider);
    var c, d := Clamp01(4.0 * gap), Clamp01(4.0 * wider);
    hide Clamp01;
    ScaleMonotone(0.45 + 0.55 * trust, 0.35 + 0.65 * c, 0.35 + 0.65 * d);
    ClampMonotone((0.45 + 0.55 * trust) * (0.35 + 0.65 * c), (0.45 + 0.55 * trust) * (0.35 + 0.65 * d));
  }

  lemma RaisedMembers(s: seq<Candidate>, t: seq<Candidate>, p: Candidate) returns (q: Candidate)
    requires Distinct(s) && p in s && Raised(s, t, p.model)
    ensures Distinct(t) && Replaces(s, t, p, q)
  {
    var k :| 0 <= k < |s| && s[k] == p;
    q := t[k];
    forall i | 0 <= i < |s|
      ensures RaisedOne(s[i], t[i], p.model) && t[i].model == s[i].model
    {
    }
    forall c: Candidate | c.model != p.model
      ensures c in s <==> c in t
    {
      if c in s { var i :| 0 <= i < |s| && s[i] == c; assert t[i] == c; }
      if c in t { var i :| 0 <= i < |t| && t[i] == c; assert s[i] == c; }
    }
  }

  /** Raising a candidate leaves the best of each kind the best, unless the raised one overtakes it. */
  lemma BestAfterRaise(s: seq<Candidate>, t: seq<Candidate>, p: Candidate, q: Candidate, f: Kind, x: Candidate)
    requires Replaces(s, t, p, q)
    requires IsBest(s, f, x)
    ensures x == p ==> IsBest(t, f, q)
    ensures x != p && !Passes(f, p) ==> IsBest(t, f, x)
    ensures x != p ==> IsBest(t, f, x) || IsBest(t, f, q)
  {
    if x == p {
      forall c | c in t && Passes(f, c) && c != q
        ensures Before(q, c)
      {
        assert Before(p, c);
      }
    } else if Passes(f, p) {
      BeforeTotal(x, q);
      if Before(q, x) {
        forall c | c in t && Passes(f, c) && c != q
          ensures Before(q, c)
        {
          if c != x { BeforeTransitive(q, x, c); }
        }
      }
    }
  }

  lemma BestOptionAfterRaise(
    s: seq<Candidate>, t: seq<Candidate>, p: Candidate, q: Candidate, f: Kind, o: Option<Candidate>)
    requires Replaces(s, t, p, q)
    requires IsBestOption(s, f, o) && !Passes(f, p)
    ensures IsBestOption(t, f, o)
  {
  }

  /** Raising only the picked candidate's total never un-picks it, through both the margin and the confidence rule. */
  lemma RaisingThePickKeepsIt(st: Settings, s: seq<Candidate>, t: seq<Candidate>)
    requires Distinct(s) && s != [] && Raised(s, t, Choose(st, s).pick.model)
    requires forall c :: c in s ==> c.trust >= 0.0
    ensures t != [] && Choose(st, t).pick == Choose(st, s).pick.(total := Choose(st, t).pick.total)
  {
    var p := Choose(st, s).pick;
    SwapsAreEarned(st, s);
    var first := BestExists(s, Any);
    assert Passes(Any, s[0]);
    var top := first.value;
    var resident := BestExists(s, Resident);
    var runnerUp := BestExists(s, Other(top.model));
    PickRule(st, s, top, resident, runnerUp);
    var q := RaisedMembers(s, t, p);
    BestAfterRaise(s, t, p, q, Any, top);
    if p == top {
      LeaderStays(st, s, t, p, q, resident, runnerUp);
    } else {
      assert p == resident.value;
      BestAfterRaise(s, t, p, q, Resident, p);
      if IsBest(t, Any, q) {
        var r := BestExists(t, Other(q.model));
        PickRule(st, t, q, Some(q), r);
      } else {
        ResidentStays(st, s, t, p, q, top, runnerUp);
      }
    }
  }

  lemma LeaderStays(st: Settings, s: seq<Candidate>, t: seq<Candidate>, p: Candidate, q: Candidate,
                    resident: Option<Candidate>, runnerUp: Option<Candidate>)
    requires Distinct(t) && Replaces(s, t, p, q) && p.trust >= 0.0
    requires IsBest(s, Any, p) && IsBestOption(s, Resident, resident) && IsBestOption(s, Other(p.model), runnerUp)
    requires IsBest(t, Any, q)
    requires p.resident || resident.None? || WorthIt(st, p, resident.value, runnerUp)
    ensures t != [] && Choose(st, t).pick == q
  {
    hide Choose, Before, Sureness;
    BestOptionAfterRaise(s, t, p, q, Other(p.model), runnerUp);
    if p.resident {
      assert IsBest(t, Resident, q);
      PickRule(st, t, q, Some(q), runnerUp);
    } else {
      BestOptionAfterRaise(s, t, p, q, Resident, resident);
      PickRule(st, t, q, resident, runnerUp);
      if runnerUp.Some? {
        SurenessMonotone(p.total - runnerUp.value.total, q.total - runnerUp.value.total, p.trust);
      }
    }
  }

  lemma ResidentStays(st: Settings, s: seq<Candidate>, t: seq<Candidate>, p: Candidate, q: Candidate,
                      top: Candidate, runnerUp: Option<Candidate>)
    requires Distinct(t) && Replaces(s, t, p, q) && top.trust >= 0.0 && top.model != p.model
    requires IsBest(t, Any, top) && IsBest(t, Resident, q) && IsBestOption(s, Other(top.model), runnerUp)
    requires !top.resident && !WorthIt(st, top, p, runnerUp)
    ensures t != [] && Choose(st, t).pick == q
  {
    hide Choose, Before, Sureness;
    assert Passes(Other(top.model), p);
    BestAfterRaise(s, t, p, q, Other(top.model), runnerUp.value);
    var second := if IsBest(t, Other(top.model), q) then q else runnerUp.value;
    assert IsBest(t, Other(top.model), second);
    if second == q && runnerUp.value != p {
      BestAbove(t, Other(top.model), q, runnerUp.value);
    }
    SurenessMonotone(top.total - second.total, top.total - runnerUp.value.total, top.trust);
    PickRule(st, t, top, Some(q), Some(second));
  }

  lemma BestAbove(s: seq<Candidate>, f: Kind, x: Candidate, c: Candidate)
    requires IsBest(s, f, x) && c in s && Passes(f, c)
    ensures x.total >= c.total
  {
  }
}

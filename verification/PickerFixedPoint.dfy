/** No ping-pong: a request that follows its pick is given the same pick again. */
module PickerFixedPoint {
  import opened Wrappers
  import opened Scoring
  import opened SmartHealth
  import opened Ranking
  import opened Picker
  import opened PickerTheorems
  import opened PickerStability

  /** The candidates `scored` are the ratings of the entries `os`, in order. */
  ghost predicate Rated(st: Settings, sc: Scene, req: Request, os: seq<Entry>, scored: seq<Candidate>)
    requires WeightsOk(st.weights) && JobOk(req.job)
  {
    |scored| == |os| && forall i :: 0 <= i < |os| ==> scored[i] == Rate(st, sc, req, os[i])
  }

  /** The picked candidate is the rating of one of the entries. */
  lemma PickedEntry(st: Settings, sc: Scene, req: Request, os: seq<Entry>, scored: seq<Candidate>, standing: Standing)
    returns (e: Entry)
    requires WeightsOk(st.weights) && JobOk(req.job) && Rated(st, sc, req, os, scored) && Distinct(scored)
    requires Choosable(scored) != [] && standing == (if Select(scored, Viable) != [] then Viable else Cooling)
    ensures e in os && e.model == Choose(st, Choosable(scored)).pick.model && e.engine == Choose(st, Choosable(scored)).pick.engine
    ensures Rate(st, sc, req, e).standing == standing
  {
    hide Rate, Choose;
    var s, chosen := Select(scored, standing), Choosable(scored);
    SelectPairs(scored, scored, standing);
    ChoosableDistinct(scored);
    SwapsAreEarned(st, chosen);
    var i :| 0 <= i < |chosen| && chosen[i] == Choose(st, chosen).pick;
    assert chosen[i].model == s[i].model && chosen[i].engine == s[i].engine;
    assert Paired(scored, scored, s[i], s[i]);
    var k :| 0 <= k < |scored| && scored[k] == s[i];
    e := os[k];
    RateNames(st, sc, req, e);
  }

  lemma RateNames(st: Settings, sc: Scene, req: Request, e: Entry)
    requires WeightsOk(st.weights) && JobOk(req.job)
    ensures var c := Rate(st, sc, req, e); c.model == e.model && c.engine == e.engine && c.resident == Residing(sc, e)
    ensures Rate(st, sc, req, e).standing == Viable ==> !CoolingDown(sc, e.model)
    ensures Rate(st, sc, req, e).standing != Viable ==> Rate(st, sc, req, e).total == 0.0 && Rate(st, sc, req, e).trust == 0.0
  {
  }

  lemma ChoosableDistinct(scored: seq<Candidate>)
    requires Distinct(scored)
    ensures Distinct(Choosable(scored))
  {
    SelectPairs(scored, scored, Viable);
    SelectPairs(scored, scored, Cooling);
  }

  /** Standings change for nobody, unless the pick was let through from its cooldown and then succeeded. */
  lemma StandingsStay(st: Settings, sc: Scene, later: Scene, req: Request, os: seq<Entry>, s: seq<Candidate>, t: seq<Candidate>,
                      p: string)
    requires WeightsOk(st.weights) && JobOk(req.job) && SameCooldowns(sc, os, later.now)
    requires Rated(st, sc, req, os, s) && Rated(st, later, req, os, t)
    requires later.health == sc.health || (later.health == SucceededIn(sc.health, p) && !CoolingDown(sc, p))
    ensures SameStanding(s, t)
  {
  }

  // ---- three ways to go on --------------------------------------------------

  /** The scene after following `d`, as far as the proofs below need it. */
  ghost predicate Follows(st: Settings, sc: Scene, later: Scene, d: Candidate) {
    if sc.active == Some(d.engine) then Stayed(sc, later, d.model) else Swapped(st, sc, later, d.engine, d.model)
  }

  ghost predicate SameName(a: Candidate, b: Candidate) {
    a.model == b.model && a.engine == b.engine
  }

  /** Among viable candidates: no swap raises only the pick, and a swap lifts nobody more than the pick. */
  lemma ViableAgain(st: Settings, sc: Scene, later: Scene, req: Request, os: seq<Entry>, s: seq<Candidate>, t: seq<Candidate>)
    requires WeightsOk(st.weights) && JobOk(req.job) && EntriesOk(os)
    requires Rated(st, sc, req, os, s) && Rated(st, later, req, os, t) && Distinct(s) && SameStanding(s, t)
    requires (forall c :: c in s ==> c.trust >= 0.0) && Select(s, Viable) != []
    requires Follows(st, sc, later, Choose(st, Select(s, Viable)).pick)
    ensures Select(t, Viable) != []
    ensures SameName(Choose(st, Select(t, Viable)).pick, Choose(st, Select(s, Viable)).pick)
  {
    var u, v := Select(s, Viable), Select(t, Viable);
    SelectPairs(s, t, Viable);
    var p := Choose(st, u).pick;
    var e := PickedEntry(st, sc, req, os, s, Viable);
    hide Choose, Rate, Select, Lift, Swapped, Stayed;
    forall i | 0 <= i < |u|
      ensures u[i] in s
      ensures if sc.active == Some(p.engine) then RaisedOne(u[i], v[i], p.model)
        else LiftedOne(u[i], v[i], p.engine, p.model, Lift(st, sc, req, p.engine))
    {
      var j :| 0 <= j < |s| && s[j] == u[i] && t[j] == v[i];
      RateNames(st, sc, req, os[j]);
      assert os[j].model == p.model ==> os[j] == e;
      ActiveAfter(st, sc, later, p);
      if sc.active == Some(p.engine) {
        StayedPair(st, sc, later, req, os[j], p.model);
      } else {
        ViablePair(st, sc, later, req, os[j], p.engine, p.model);
      }
    }
    if sc.active == Some(p.engine) {
      RaisingThePickKeepsIt(st, u, v);
    } else {
      RateNames(st, sc, req, e);
      SwapsAreEarned(st, u);
      assert !p.resident;
      LiftedPickStays(st, u, v, Lift(st, sc, req, p.engine));
    }
  }

  lemma ActiveAfter(st: Settings, sc: Scene, later: Scene, p: Candidate)
    requires Follows(st, sc, later, p)
    ensures later.active == Some(p.engine)
  {
  }

  lemma CooledPair(st: Settings, sc: Scene, later: Scene, req: Request, e: Entry, target: string, p: string)
    requires WeightsOk(st.weights) && JobOk(req.job) && later.active == Some(target)
    requires var a, b := Rate(st, sc, req, e), Rate(st, later, req, e); a.standing == Cooling && b.standing == Cooling
    requires e.model == p ==> e.engine == target
    ensures var a, b := LeastBad(Rate(st, sc, req, e)), LeastBad(Rate(st, later, req, e));
      if sc.active == Some(target) then b == a
      else LiftedOne(a, b, target, p, 0.05)
  {
  }

  lemma CooledPairs(st: Settings, sc: Scene, later: Scene, req: Request, os: seq<Entry>, s: seq<Candidate>, t: seq<Candidate>,
                    e: Entry)
    requires WeightsOk(st.weights) && JobOk(req.job) && EntriesOk(os) && e in os
    requires Rated(st, sc, req, os, s) && Rated(st, later, req, os, t) && Distinct(s) && SameStanding(s, t)
    requires later.active == Some(e.engine)
    ensures var u, v := Select(s, Cooling), Select(t, Cooling);
      && |u| == |v|
      && forall i :: 0 <= i < |u| ==>
           if sc.active == Some(e.engine) then LeastBad(v[i]) == LeastBad(u[i])
           else LiftedOne(LeastBad(u[i]), LeastBad(v[i]), e.engine, e.model, 0.05)
  {
    var u, v := Select(s, Cooling), Select(t, Cooling);
    SelectPairs(s, t, Cooling);
    hide Rate, Select, LiftedOne, LeastBad;
    forall i | 0 <= i < |u|
      ensures if sc.active == Some(e.engine) then LeastBad(v[i]) == LeastBad(u[i])
        else LiftedOne(LeastBad(u[i]), LeastBad(v[i]), e.engine, e.model, 0.05)
    {
      assert Paired(s, t, u[i], v[i]);
      var j :| 0 <= j < |s| && s[j] == u[i] && t[j] == v[i];
      assert os[j].model == e.model ==> os[j] == e;
      CooledPair(st, sc, later, req, os[j], e.engine, e.model);
    }
  }

  lemma CooledScores(s: seq<Candidate>)
    requires Select(s, Viable) == []
    ensures var a, u := Choosable(s), Select(s, Cooling);
      |a| == |u| && forall i :: 0 <= i < |a| ==> a[i] == LeastBad(u[i])
  {
  }

  /** Among candidates in cooldown: residency alone decides the token scores. */
  lemma CooledAgain(st: Settings, sc: Scene, later: Scene, req: Request, os: seq<Entry>, s: seq<Candidate>, t: seq<Candidate>)
    requires WeightsOk(st.weights) && JobOk(req.job) && EntriesOk(os)
    requires Rated(st, sc, req, os, s) && Rated(st, later, req, os, t) && Distinct(s) && SameStanding(s, t)
    requires Select(s, Viable) == [] && Choosable(s) != []
    requires var p := Choose(st, Choosable(s)).pick;
      later.active == Some(p.engine) && (p.resident <==> sc.active == Some(p.engine))
    ensures Choosable(t) != []
    ensures SameName(Choose(st, Choosable(t)).pick, Choose(st, Choosable(s)).pick)
  {
    var a, b := Choosable(s), Choosable(t);
    SelectPairs(s, t, Viable);
    ChoosableDistinct(s);
    CooledScores(s);
    CooledScores(t);
    var e := PickedEntry(st, sc, req, os, s, Cooling);
    hide Choose, Rate, Select, Choosable, Rated, LeastBad, LiftedOne, Paired;
    CooledPairs(st, sc, later, req, os, s, t, e);
    if sc.active == Some(e.engine) {
      assert b == a;
    } else {
      LiftedPickStays(st, a, b, 0.05);
    }
  }

  /** A pick says truthfully whether its engine was active. */
  lemma PickResidency(st: Settings, sc: Scene, req: Request, os: seq<Entry>, s: seq<Candidate>)
    requires WeightsOk(st.weights) && JobOk(req.job) && Rated(st, sc, req, os, s) && Distinct(s) && Choosable(s) != []
    ensures var p := Choose(st, Choosable(s)).pick; p.resident <==> sc.active == Some(p.engine)
  {
    hide Choose, Rate;
    SelectPairs(s, s, Viable);
    SelectPairs(s, s, Cooling);
    ChoosableDistinct(s);
    SwapsAreEarned(st, Choosable(s));
    forall i | 0 <= i < |s|
      ensures s[i].resident <==> sc.active == Some(s[i].engine)
    {
      RateNames(st, sc, req, os[i]);
    }
  }

  lemma {:induction false} SelectOnly(t: seq<Candidate>, k: nat)
    requires k < |t| && forall i :: 0 <= i < |t| ==> (t[i].standing == Viable <==> i == k)
    ensures Select(t, Viable) == [t[k]]
  {
    var init := t[..|t| - 1];
    if k == |t| - 1 {
      SelectNone(init);
    } else {
      SelectOnly(init, k);
    }
  }

  lemma {:induction false} SelectNone(t: seq<Candidate>)
    requires forall i :: 0 <= i < |t| ==> t[i].standing != Viable
    ensures Select(t, Viable) == []
  {
    if t != [] {
      SelectNone(t[..|t| - 1]);
    }
  }

  lemma {:induction false} SelectEmpty(t: seq<Candidate>, i: nat)
    requires Select(t, Viable) == [] && i < |t|
    ensures t[i].standing != Viable
  {
    if i < |t| - 1 {
      SelectEmpty(t[..|t| - 1], i);
    }
  }

  lemma ClearedIsViable(st: Settings, sc: Scene, later: Scene, req: Request, e: Entry)
    requires WeightsOk(st.weights) && JobOk(req.job) && Rate(st, sc, req, e).standing == Cooling
    requires later.now >= 0.0 && later.health == SucceededIn(sc.health, e.model)
    ensures Rate(st, later, req, e).standing == Viable
  {
  }

  /** A success ends the pick's cooldown: it is then the only viable candidate. */
  lemma ClearedAgain(st: Settings, sc: Scene, later: Scene, req: Request, os: seq<Entry>, s: seq<Candidate>, t: seq<Candidate>)
    requires WeightsOk(st.weights) && JobOk(req.job) && EntriesOk(os) && SameCooldowns(sc, os, later.now)
    requires Rated(st, sc, req, os, s) && Rated(st, later, req, os, t) && Distinct(s)
    requires Select(s, Viable) == [] && Choosable(s) != []
    requires later.health == SucceededIn(sc.health, Choose(st, Choosable(s)).pick.model)
    ensures Choosable(t) != []
    ensures SameName(Choose(st, Choosable(t)).pick, Choose(st, Choosable(s)).pick)
  {
    var p := Choose(st, Choosable(s)).pick;
    var e := PickedEntry(st, sc, req, os, s, Cooling);
    var k :| 0 <= k < |os| && os[k] == e;
    hide Choose, Choosable;
    forall i | 0 <= i < |t|
      ensures t[i].standing == Viable <==> i == k
    {
      SelectEmpty(s, i);
      assert os[i] in os;
      if i == k {
        ClearedIsViable(st, sc, later, req, e);
      } else {
        assert os[i].model != e.model;
        OthersStand(st, sc, later, req, os[i], p.model);
      }
    }
    hide Rate;
    SelectOnly(t, k);
    assert Choosable(t) == [t[k]] by { OnlyViable(t, k); }
    SwapsAreEarned(st, [t[k]]);
    RateNames(st, later, req, e);
  }

  lemma OnlyViable(t: seq<Candidate>, k: nat)
    requires k < |t| && Select(t, Viable) == [t[k]]
    ensures Choosable(t) == [t[k]]
  {
  }

  lemma OthersStand(st: Settings, sc: Scene, later: Scene, req: Request, e: Entry, p: string)
    requires WeightsOk(st.weights) && JobOk(req.job) && e.model != p && later.health == SucceededIn(sc.health, p)
    requires CoolingDown(sc, e.model) <==> CoolingDown(sc.(now := later.now), e.model)
    ensures Rate(st, later, req, e).standing == Rate(st, sc, req, e).standing
  {
  }

  // ---- the fixed point ------------------------------------------------------

  lemma FollowedFollows(st: Settings, sc: Scene, d: Decision, c: Candidate, duration: real, ok: bool, succeeded: bool,
                        later: seq<(string, nat)>, now: real)
    requires c.engine == d.engine && c.model == d.model && (d.wouldSwap <==> sc.active != Some(d.engine))
    requires CountsMay(st, sc, d, later)
    ensures Follows(st, sc, Followed(sc, d, duration, ok, succeeded, later, now), c)
  {
  }

  lemma DecisionReports(st: Settings, sc: Scene, s: seq<Candidate>)
    ensures DecideAmong(st, sc, s).Some? <==> s != []
    ensures s != [] ==>
      var d, p := DecideAmong(st, sc, s).value, Choose(st, s).pick;
      d.model == p.model && d.engine == p.engine && (d.wouldSwap <==> sc.active != Some(d.engine))
  {
  }

  /**
   If a pick is followed, its engine becomes active, a swap is noted, and even if its success is recorded: with the
   same candidates, job and cooldowns the same request picks the same model again.
  */
  lemma FollowingThePickKeepsIt(st: Settings, sc: Scene, req: Request, entries: seq<Entry>, d: Decision, duration: real,
                                ok: bool, succeeded: bool, counts: seq<(string, nat)>, now: real)
    requires WeightsOk(st.weights) && JobOk(req.job) && EntriesOk(entries)
    requires Decided(st, sc, req, entries) == Some(d)
    requires CountsMay(st, sc, d, counts) && SameCooldowns(sc, entries, now)
    ensures var again := Decided(st, Followed(sc, d, duration, ok, succeeded, counts, now), req, entries);
      again.Some? && again.value.model == d.model && again.value.engine == d.engine && !again.value.wouldSwap
  {
    var later := Followed(sc, d, duration, ok, succeeded, counts, now);
    ScoredOk(st, sc, req, entries);
    ScoredOk(st, later, req, entries);
    var os, s, t := Offered(entries), RateAll(st, sc, req, entries), RateAll(st, later, req, entries);
    DecisionReports(st, sc, Choosable(s));
    DecisionReports(st, later, Choosable(t));
    var p := Choose(st, Choosable(s)).pick;
    FollowedFollows(st, sc, d, p, duration, ok, succeeded, counts, now);
    var viable := Select(s, Viable) != [];
    var e := PickedEntry(st, sc, req, os, s, if viable then Viable else Cooling);
    RateNames(st, sc, req, e);
    hide RateAll, Offered, Choose, Rate, Follows, DecideAmong;
    if viable || !succeeded {
      StandingsStay(st, sc, later, req, os, s, t, p.model);
      SelectPairs(s, t, Viable);
    }
    if viable {
      ViableAgain(st, sc, later, req, os, s, t);
    } else if succeeded {
      ClearedAgain(st, sc, later, req, os, s, t);
    } else {
      PickResidency(st, sc, req, os, s);
      CooledAgain(st, sc, later, req, os, s, t);
    }
  }
}

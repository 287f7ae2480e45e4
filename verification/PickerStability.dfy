/** Two runs of the picker: scores stay fractions, and following a pick leaves it the pick. */
module PickerStability {
  import opened Wrappers
  import opened Scoring
  import opened SmartHealth
  import opened Ranking
  import opened Picker
  import opened PickerTheorems

  // ---- scores are fractions -------------------------------------------------

  ghost predicate EntryOk(e: Entry) {
    KnowledgeOk(e.known) && InUnit(e.speed)
  }

  ghost predicate EntriesOk(entries: seq<Entry>) {
    && (forall i :: 0 <= i < |entries| ==> EntryOk(entries[i]))
    && forall i, j :: 0 <= i < j < |entries| ==> entries[i].model != entries[j].model
  }

  /** Every score is in [0, 1], whatever the state of the router and the request. */
  lemma ScoresAreFractions(st: Settings, sc: Scene, req: Request, e: Entry)
    requires WeightsOk(st.weights) && JobOk(req.job) && EntryOk(e)
    ensures var c := Rate(st, sc, req, e); 0.0 <= c.total <= 1.0 && 0.0 <= c.trust <= 1.0
  {
    if !ContextExcludes(e.contextLength, req.needed) {
      var w, c := Boosted(st.weights, req.job), Components(st, sc, req, e);
      BoostedOk(st.weights, req.job);
      QualityInUnit(e.known, req.job, CAPS);
      assert Unit(c);
      hide Components, Boosted, Total, Clamp01;
      TotalInUnit(w, c);
    }
  }

  // ---- the same candidates in another scene ---------------------------------

  function Offered(entries: seq<Entry>): seq<Entry> {
    if entries == [] then []
    else
      var rest := Offered(entries[..|entries| - 1]);
      var e := entries[|entries| - 1];
      if e.smart then rest + [e] else rest
  }

  lemma {:induction false} RateAllIsPointwise(st: Settings, sc: Scene, req: Request, entries: seq<Entry>)
    requires WeightsOk(st.weights) && JobOk(req.job)
    ensures var scored := RateAll(st, sc, req, entries);
      && |scored| == |Offered(entries)|
      && forall i :: 0 <= i < |scored| ==> scored[i] == Rate(st, sc, req, Offered(entries)[i])
  {
    if entries != [] {
      RateAllIsPointwise(st, sc, req, entries[..|entries| - 1]);
    }
  }

  lemma {:induction false} OfferedOk(entries: seq<Entry>)
    requires EntriesOk(entries)
    ensures EntriesOk(Offered(entries))
    ensures forall e :: e in Offered(entries) ==> e in entries
  {
    if entries != [] {
      var init := entries[..|entries| - 1];
      OfferedOk(init);
      assert forall e :: e in init ==> e.model != entries[|entries| - 1].model;
    }
  }

  ghost predicate SameStanding(s: seq<Candidate>, t: seq<Candidate>) {
    |s| == |t| && forall i :: 0 <= i < |s| ==> s[i].model == t[i].model && s[i].standing == t[i].standing
  }

  ghost predicate Paired(s: seq<Candidate>, t: seq<Candidate>, a: Candidate, b: Candidate) {
    |s| == |t| && exists j :: 0 <= j < |s| && s[j] == a && t[j] == b
  }

  /** Selecting by standing keeps candidates paired with themselves. */
  lemma {:induction false} SelectPairs(s: seq<Candidate>, t: seq<Candidate>, standing: Standing)
    requires SameStanding(s, t) && Distinct(s)
    ensures var s', t' := Select(s, standing), Select(t, standing);
      && |s'| == |t'| && Distinct(s')
      && forall i :: 0 <= i < |s'| ==> s'[i].standing == standing && Paired(s, t, s'[i], t'[i])
  {
    if s != [] {
      var n := |s| - 1;
      var s0, t0 := s[..n], t[..n];
      SelectPairs(s0, t0, standing);
      var u, v := Select(s0, standing), Select(t0, standing);
      forall i | 0 <= i < |u|
        ensures Paired(s, t, u[i], v[i]) && u[i].model != s[n].model
      {
        var j :| 0 <= j < n && s0[j] == u[i] && t0[j] == v[i];
        assert s[j] == u[i] && t[j] == v[i];
      }
      assert Paired(s, t, s[n], t[n]);
    }
  }

  // ---- following a pick -----------------------------------------------------

  /**
   The scene after the decision was followed: its engine is active; if that took a swap, the swap was noted; the
   request may have been recorded as a success.
  */
  function Followed(sc: Scene, d: Decision, duration: real, ok: bool, succeeded: bool, later: seq<(string, nat)>,
                    now: real): Scene {
    Scene(Some(d.engine), later,
          if succeeded then SucceededIn(sc.health, d.model) else sc.health,
          if d.wouldSwap then NotedIn(sc.swapSeconds, d.engine, duration, ok) else sc.swapSeconds, now)
  }

  /** The same engines have at least as many requests in flight. */
  ghost predicate Grew(before: seq<(string, nat)>, later: seq<(string, nat)>) {
    |before| == |later| && forall i :: 0 <= i < |before| ==> before[i].0 == later[i].0 && before[i].1 <= later[i].1
  }

  /** No request is in flight on `engine`, and the estimate for bringing it up is no negative number. */
  ghost predicate IdleTarget(st: Settings, sc: Scene, engine: string) {
    && (forall i :: 0 <= i < |sc.inflight| && sc.inflight[i].0 == engine ==> sc.inflight[i].1 == 0)
    && (if engine in sc.swapSeconds then sc.swapSeconds[engine] else Guess(st, engine)) >= 0.0
  }

  /** What the in-flight counts may do: nothing without a swap; with one, grow, or change freely if the target was idle. */
  ghost predicate CountsMay(st: Settings, sc: Scene, d: Decision, later: seq<(string, nat)>) {
    if d.wouldSwap then Grew(sc.inflight, later) || IdleTarget(st, sc, d.engine) else later == sc.inflight
  }

  lemma {:induction false} ElsewhereGrows(before: seq<(string, nat)>, later: seq<(string, nat)>, engine: string)
    requires Grew(before, later)
    ensures Elsewhere(before, engine) <= Elsewhere(later, engine)
  {
    if before != [] {
      ElsewhereGrows(before[1..], later[1..], engine);
    }
  }

  lemma {:induction false} ElsewhereOfIdle(counts: seq<(string, nat)>, idle: string, engine: string)
    requires forall i :: 0 <= i < |counts| && counts[i].0 == idle ==> counts[i].1 == 0
    ensures Elsewhere(counts, engine) <= Elsewhere(counts, idle)
  {
    if counts != [] {
      ElsewhereOfIdle(counts[1..], idle, engine);
    }
  }

  lemma ClampGain(x: real, y: real, z: real)
    requires x - y <= z && z >= 0.0
    ensures Clamp01(x) - Clamp01(y) <= Clamp01(z)
  {
  }

  lemma CostGain(st: Settings, sc: Scene, later: Scene, target: string, engine: string)
    requires sc.active != Some(target) && sc.active != Some(engine) && later.active == Some(target) && engine != target
    requires engine in sc.swapSeconds <==> engine in later.swapSeconds
    requires engine in sc.swapSeconds ==> sc.swapSeconds[engine] == later.swapSeconds[engine]
    requires Grew(sc.inflight, later.inflight) || IdleTarget(st, sc, target)
    ensures var gain := SwapCost(st, sc, engine) - SwapCost(st, later, engine);
      gain <= 0.0 || 0.0 <= gain <= SwapCost(st, sc, target)
  {
    hide Guess;
    if Grew(sc.inflight, later.inflight) {
      ElsewhereGrows(sc.inflight, later.inflight, engine);
    } else {
      ElsewhereOfIdle(sc.inflight, target, engine);
    }
  }

  lemma ScoreGain(cost: real, cost': real, bound: real, h: real)
    requires h > 0.0 && (cost - cost' <= 0.0 || 0.0 <= cost - cost' <= bound)
    ensures Clamp01(cost / h) - Clamp01(cost' / h) <= Clamp01(bound / h)
  {
    if cost <= cost' {
      QuotientMonotone(cost, cost', h);
      ClampMonotone(cost / h, cost' / h);
    } else {
      QuotientMonotone(cost - cost', bound, h);
      QuotientMonotone(0.0, bound, h);
      assert cost / h - cost' / h == (cost - cost') / h;
      ClampGain(cost / h, cost' / h, bound / h);
    }
  }

  /** No other engine's swap score gains more than the target's. */
  lemma SwapScoreGain(st: Settings, sc: Scene, later: Scene, target: string, engine: string)
    requires sc.active != Some(target) && later.active == Some(target) && engine != target
    requires engine in sc.swapSeconds <==> engine in later.swapSeconds
    requires engine in sc.swapSeconds ==> sc.swapSeconds[engine] == later.swapSeconds[engine]
    requires Grew(sc.inflight, later.inflight) || IdleTarget(st, sc, target)
    ensures SwapScore(st, later, engine) - SwapScore(st, sc, engine) <= 1.0 - SwapScore(st, sc, target)
  {
    if sc.active != Some(engine) {
      CostGain(st, sc, later, target, engine);
      hide SwapCost, Clamp01;
      ScoreGain(SwapCost(st, sc, engine), SwapCost(st, later, engine), SwapCost(st, sc, target), Max(st.horizon, 1.0));
    } else {
      assert SwapCost(st, sc, engine) == 0.0 && 0.0 / Max(st.horizon, 1.0) == 0.0;
    }
  }

  /** What the totals of the target's candidates gain when it becomes active. */
  function Lift(st: Settings, sc: Scene, req: Request, target: string): real
    requires WeightsOk(st.weights) && JobOk(req.job)
  {
    BoostedOk(st.weights, req.job);
    var w := Boosted(st.weights, req.job);
    (w.residency + w.swapCost * (1.0 - SwapScore(st, sc, target))) / Sum(w)
  }

  ghost predicate LiftedOne(a: Candidate, b: Candidate, target: string, p: string, lift: real) {
    && b == a.(total := b.total, resident := b.resident, swapCost := b.swapCost)
    && b.resident == (b.engine == target)
    && (if a.model == p then b.total >= a.total + lift else b.total <= a.total + lift)
  }

  ghost predicate Lifted(s: seq<Candidate>, t: seq<Candidate>, target: string, p: string, lift: real) {
    |s| == |t| && forall i :: 0 <= i < |s| ==> LiftedOne(s[i], t[i], target, p, lift)
  }

  /** If nobody gains more than the swapped-in pick, it leads the candidates and is resident. */
  lemma LiftedPickStays(st: Settings, s: seq<Candidate>, t: seq<Candidate>, lift: real)
    requires Distinct(s) && s != []
    requires var p := Choose(st, s).pick; !p.resident && Lifted(s, t, p.engine, p.model, lift)
    ensures t != [] && Choose(st, t).pick.model == Choose(st, s).pick.model
    ensures Choose(st, t).pick.engine == Choose(st, s).pick.engine
  {
    hide Choose;
    var p := Choose(st, s).pick;
    SwapsAreEarned(st, s);
    var k :| 0 <= k < |s| && s[k] == p;
    var q := t[k];
    assert LiftedOne(p, q, p.engine, p.model, lift);
    forall i | 0 <= i < |t|
      ensures t[i].model == s[i].model && (i != k ==> Before(q, t[i]))
    {
      assert LiftedOne(s[i], t[i], p.engine, p.model, lift);
      if i != k { assert Before(p, s[i]); }
    }
    assert IsBest(t, Any, q) && IsBest(t, Resident, q);
    var runnerUp := BestExists(t, Other(q.model));
    PickRule(st, t, q, Some(q), runnerUp);
  }

  // ---- what following a pick does to each score -----------------------------

  /** The cooldowns of all candidates are the same at both times. */
  ghost predicate SameCooldowns(sc: Scene, entries: seq<Entry>, now: real) {
    now >= 0.0
    && forall e :: e in entries ==> (CoolingDown(sc, e.model) <==> CoolingDown(sc.(now := now), e.model))
  }

  lemma TotalsDiffer(w: Six, c: Six, d: Six)
    requires Sum(w) > 0.0
    ensures Total(w, d) - Total(w, c) == (Weighted(w, d) - Weighted(w, c)) / Sum(w)
  {
  }

  /** `d` differs from `c` in residency, swap cost and reliability only. */
  ghost predicate MovesOnly(c: Six, d: Six) {
    d == c.(residency := d.residency, swapCost := d.swapCost, reliability := d.reliability)
  }

  lemma WeightedDiffers(w: Six, c: Six, d: Six)
    requires MovesOnly(c, d)
    ensures Weighted(w, d) - Weighted(w, c) ==
      w.residency * (d.residency - c.residency) + w.swapCost * (d.swapCost - c.swapCost)
      + w.reliability * (d.reliability - c.reliability)
  {
  }

  lemma TermsAtMost(a: real, x: real, b: real, y: real, room: real, c: real, z: real)
    requires a >= 0.0 && b >= 0.0 && c >= 0.0 && x <= 1.0 && y <= room && z <= 0.0
    ensures a * x + b * y + c * z <= a + b * room
  {
    ScaleMonotone(a, x, 1.0);
    ScaleMonotone(b, y, room);
    ScaleMonotone(c, z, 0.0);
    var p, q, r := a * x, b * y, c * z;
    assert p <= a && q <= b * room && r <= 0.0;
  }

  lemma TermsAtLeast(a: real, x: real, b: real, y: real, room: real, c: real, z: real)
    requires a >= 0.0 && b >= 0.0 && c >= 0.0 && x >= 1.0 && y >= room && z >= 0.0
    ensures a * x + b * y + c * z >= a + b * room
  {
    ScaleMonotone(a, 1.0, x);
    ScaleMonotone(b, room, y);
    ScaleMonotone(c, 0.0, z);
    var p, q, r := a * x, b * y, c * z;
    assert p >= a && q >= b * room && r >= 0.0;
  }

  lemma GainAtMost(w: Six, c: Six, d: Six, room: real)
    requires WeightsOk(w) && MovesOnly(c, d)
    requires d.residency - c.residency <= 1.0 && d.swapCost - c.swapCost <= room && d.reliability <= c.reliability
    ensures Total(w, d) <= Total(w, c) + (w.residency + w.swapCost * room) / Sum(w)
  {
    WeightedDiffers(w, c, d);
    TotalsDiffer(w, c, d);
    TermsAtMost(w.residency, d.residency - c.residency, w.swapCost, d.swapCost - c.swapCost, room,
                w.reliability, d.reliability - c.reliability);
    var gain, lift, sum := Weighted(w, d) - Weighted(w, c), w.residency + w.swapCost * room, Sum(w);
    assert gain <= lift && sum > 0.0;
    hide Weighted, Total, Sum;
    QuotientMonotone(gain, lift, sum);
  }

  lemma GainAtLeast(w: Six, c: Six, d: Six, room: real)
    requires WeightsOk(w) && MovesOnly(c, d)
    requires d.residency - c.residency >= 1.0 && d.swapCost - c.swapCost >= room && d.reliability >= c.reliability
    ensures Total(w, d) >= Total(w, c) + (w.residency + w.swapCost * room) / Sum(w)
  {
    WeightedDiffers(w, c, d);
    TotalsDiffer(w, c, d);
    TermsAtLeast(w.residency, d.residency - c.residency, w.swapCost, d.swapCost - c.swapCost, room,
                 w.reliability, d.reliability - c.reliability);
    var gain, lift, sum := Weighted(w, d) - Weighted(w, c), w.residency + w.swapCost * room, Sum(w);
    assert gain >= lift && sum > 0.0;
    hide Weighted, Total, Sum;
    QuotientMonotone(lift, gain, sum);
  }

  lemma SuccessRaisesReliability(st: Settings, h: Health)
    ensures Reliability(st, Succeed(h)) >= Reliability(st, h)
  {
  }

  /** `later` differs from `sc` in what following the pick `p` on `target` by a swap can change. */
  ghost predicate Swapped(st: Settings, sc: Scene, later: Scene, target: string, p: string) {
    && sc.active != Some(target) && later.active == Some(target)
    && (forall k :: k != target ==> (k in sc.swapSeconds <==> k in later.swapSeconds))
    && (forall k :: k != target && k in sc.swapSeconds ==> sc.swapSeconds[k] == later.swapSeconds[k])
    && (Grew(sc.inflight, later.inflight) || IdleTarget(st, sc, target))
    && (later.health == sc.health || later.health == SucceededIn(sc.health, p))
  }

  lemma TargetScoresOne(st: Settings, later: Scene, target: string)
    requires later.active == Some(target)
    ensures SwapScore(st, later, target) == 1.0
  {
  }

  lemma ComponentsMove(st: Settings, sc: Scene, later: Scene, req: Request, e: Entry, target: string, p: string)
    requires Swapped(st, sc, later, target, p) && !ContextExcludes(e.contextLength, req.needed)
    ensures var c, d := Components(st, sc, req, e), Components(st, later, req, e);
      var room := 1.0 - SwapScore(st, sc, target);
      && MovesOnly(c, d)
      && d.residency - c.residency <= 1.0 && d.swapCost - c.swapCost <= room
      && (e.engine == target ==> d.residency - c.residency == 1.0 && d.swapCost - c.swapCost == room)
      && (if e.model == p then d.reliability >= c.reliability else d.reliability == c.reliability)
  {
    hide Quality, ContextFit, SwapScore, Reliability, Succeed;
    if e.engine == target {
      TargetScoresOne(st, later, target);
    } else {
      SwapScoreGain(st, sc, later, target, e.engine);
    }
    if e.model == p {
      SuccessRaisesReliability(st, HealthOf(sc, p));
    }
  }

  lemma ViablePair(st: Settings, sc: Scene, later: Scene, req: Request, e: Entry, target: string, p: string)
    requires WeightsOk(st.weights) && JobOk(req.job) && Swapped(st, sc, later, target, p) && later.active == Some(target)
    requires Rate(st, sc, req, e).standing == Viable && Rate(st, later, req, e).standing == Viable
    requires e.model == p ==> e.engine == target
    ensures LiftedOne(Rate(st, sc, req, e), Rate(st, later, req, e), target, p, Lift(st, sc, req, target))
  {
    hide Boosted, Components, Swapped, Total, Sum, SwapScore, SwapCost, CoolingDown, Match;
    BoostedOk(st.weights, req.job);
    ComponentsMove(st, sc, later, req, e, target, p);
    var w, c, d := Boosted(st.weights, req.job), Components(st, sc, req, e), Components(st, later, req, e);
    var room := 1.0 - SwapScore(st, sc, target);
    if e.model == p {
      GainAtLeast(w, c, d, room);
    } else {
      GainAtMost(w, c, d, room);
    }
  }

  /** Without a swap only the pick's health can change. */
  ghost predicate Stayed(sc: Scene, later: Scene, p: string) {
    && later.active == sc.active && later.inflight == sc.inflight && later.swapSeconds == sc.swapSeconds
    && (later.health == sc.health || later.health == SucceededIn(sc.health, p))
  }

  lemma ComponentsRise(st: Settings, sc: Scene, later: Scene, req: Request, e: Entry, p: string)
    requires Stayed(sc, later, p) && !ContextExcludes(e.contextLength, req.needed)
    ensures var c, d := Components(st, sc, req, e), Components(st, later, req, e);
      Below(c, d) && (e.model != p ==> d == c)
  {
  }

  lemma StayedPair(st: Settings, sc: Scene, later: Scene, req: Request, e: Entry, p: string)
    requires WeightsOk(st.weights) && JobOk(req.job) && Stayed(sc, later, p) && later.active == sc.active
    requires Rate(st, later, req, e).standing == Rate(st, sc, req, e).standing
    ensures RaisedOne(Rate(st, sc, req, e), Rate(st, later, req, e), p)
  {
    if !ContextExcludes(e.contextLength, req.needed) {
      ComponentsRise(st, sc, later, req, e, p);
      assert SwapCost(st, sc, e.engine) == SwapCost(st, later, e.engine);
      BoostedOk(st.weights, req.job);
      hide Boosted, Components, Total, Stayed, SwapCost, CoolingDown;
      TotalMonotone(Boosted(st.weights, req.job), Components(st, sc, req, e), Components(st, later, req, e));
    }
  }

  lemma ScoredOk(st: Settings, sc: Scene, req: Request, entries: seq<Entry>)
    requires WeightsOk(st.weights) && JobOk(req.job) && EntriesOk(entries)
    ensures var scored, os := RateAll(st, sc, req, entries), Offered(entries);
      && EntriesOk(os) && (forall e :: e in os ==> e in entries) && Distinct(scored)
      && |scored| == |os| && (forall i :: 0 <= i < |os| ==> scored[i] == Rate(st, sc, req, os[i]))
      && forall c :: c in scored ==> c.trust >= 0.0
  {
    RateAllIsPointwise(st, sc, req, entries);
    OfferedOk(entries);
    var os := Offered(entries);
    forall i | 0 <= i < |os|
      ensures Rate(st, sc, req, os[i]).trust >= 0.0 && Rate(st, sc, req, os[i]).model == os[i].model
    {
      hide Rate, WeightsOk;
      ScoresAreFractions(st, sc, req, os[i]);
    }
  }
}

/** What the picker's numbers mean, who may be picked, and what a decision reports. */
module PickerMeaning {
  import opened Wrappers
  import opened Scoring
  import opened SmartHealth
  import opened Ranking
  import opened Picker

  // ---- estimates ------------------------------------------------------------

  /** The requests elsewhere are the sum of all counts but the engine's own. */
  lemma {:induction false} ElsewhereAddsUp(counts: seq<(string, nat)>, k: string, n: nat, engine: string)
    ensures Elsewhere(counts + [(k, n)], engine) == Elsewhere(counts, engine) + (if k == engine then 0 else n)
    ensures Elsewhere([], engine) == 0
  {
    if counts != [] {
      assert (counts + [(k, n)])[1..] == counts[1..] + [(k, n)];
      ElsewhereAddsUp(counts[1..], k, n, engine);
    } else {
      assert counts + [(k, n)] == [(k, n)];
    }
  }

  /**
   Being active costs nothing.  Any other engine costs what was observed, or else 0.4 of its start timeout, or 0.5 of its
   load timeout, or 15 s, with a fifth of the settle timeout; and 2 s per request elsewhere, at most 10 s.
  */
  lemma SwapCostIs(st: Settings, sc: Scene, engine: string)
    ensures sc.active == Some(engine) ==> SwapCost(st, sc, engine) == 0.0
    ensures sc.active != Some(engine) ==>
      var n := Elsewhere(sc.inflight, engine);
      var base := SwapCost(st, sc, engine) - (if n < 5 then 2.0 * n as real else 10.0);
      && (engine in sc.swapSeconds ==> base == sc.swapSeconds[engine])
      && (engine !in sc.swapSeconds && engine in st.engines ==>
            var t := st.engines[engine];
            var starts := t.start.Some? && t.start.value != 0.0;
            var loads := t.load.Some? && t.load.value != 0.0;
            && (starts ==> base == 0.4 * t.start.value + st.settle / 5.0)
            && (!starts && loads ==> base == 0.5 * t.load.value + st.settle / 5.0)
            && (!starts && !loads ==> base == 15.0 + st.settle / 5.0))
      && (engine !in sc.swapSeconds && engine !in st.engines ==> base == 15.0 + st.settle / 5.0)
  {
  }

  /** The swap score falls from 1, for no cost, to 0 at the horizon, which counts as at least a second. */
  lemma SwapScoreIs(st: Settings, sc: Scene, engine: string)
    ensures var cost, horizon := SwapCost(st, sc, engine), if st.horizon < 1.0 then 1.0 else st.horizon;
      && (cost <= 0.0 ==> SwapScore(st, sc, engine) == 1.0)
      && (cost >= horizon ==> SwapScore(st, sc, engine) == 0.0)
      && (0.0 <= cost <= horizon ==> SwapScore(st, sc, engine) == 1.0 - cost / horizon)
  {
    hide SwapCost;
    Share(SwapCost(st, sc, engine), if st.horizon < 1.0 then 1.0 else st.horizon);
  }

  lemma Share(x: real, y: real)
    requires y > 0.0
    ensures x <= 0.0 ==> x / y <= 0.0
    ensures x >= y ==> x / y >= 1.0
    ensures 0.0 <= x <= y ==> 0.0 <= x / y <= 1.0
  {
    if x <= 0.0 { QuotientMonotone(x, 0.0, y); }
    if x >= y { QuotientMonotone(y, x, y); }
    if 0.0 <= x <= y {
      QuotientMonotone(0.0, x, y);
      QuotientMonotone(x, y, y);
    }
  }

  /** A context is full score up to 70% of its length, then falls to 0 at its full length; 32768 is assumed if unknown. */
  lemma ContextFitIs(length: Option<int>, needed: nat)
    requires length.Some? ==> needed <= length.value
    ensures var ctx, n := (if length.Some? then length.value else 32768) as real, needed as real;
      && (10.0 * n <= 7.0 * ctx ==> ContextFit(length, needed) == 1.0)
      && (7.0 * ctx < 10.0 * n <= 10.0 * ctx ==> ContextFit(length, needed) == (ctx - n) / (0.3 * ctx))
      && (n > ctx ==> ContextFit(length, needed) == 0.0)
  {
    var ctx, n := (if length.Some? then length.value else 32768) as real, needed as real;
    if 7.0 * ctx < 10.0 * n {
      Share(ctx - n, 0.3 * ctx);
    }
  }

  /** A model loses four fifths of its reliability on the way to the failure threshold, in equal steps. */
  lemma ReliabilityIs(st: Settings, h: Health)
    ensures var limit := if st.retry.threshold < 1 then 1 else st.retry.threshold;
      && (h.consecutive == 0 ==> Reliability(st, h) == 1.0)
      && (h.consecutive >= limit ==> Reliability(st, h) == 0.2)
      && (h.consecutive <= limit ==> Reliability(st, h) == 1.0 - 0.8 * (h.consecutive as real / limit as real))
  {
    Share(h.consecutive as real, Limit(st.retry) as real);
  }

  /** The wish for a dimension is its first entry in the job, and 0 without one. */
  lemma {:induction false} WantedFinds(job: Job, dim: string, i: nat)
    requires i <= |job| && forall j :: 0 <= j < i ==> job[j].0 != dim
    ensures i == |job| ==> Wanted(job, dim) == 0.0
    ensures i < |job| && job[i].0 == dim ==> Wanted(job, dim) == job[i].1
  {
    if i > 0 { WantedFinds(job[1..], dim, i - 1); }
  }

  /** Certainty grows with the lead from 0.35, for none, to 1 at a lead of a quarter, and is scaled by the trust in the match. */
  lemma SurenessIs(gap: real, trust: real)
    requires 0.0 <= trust <= 1.0
    ensures gap <= 0.0 ==> Sureness(gap, trust) == 0.35 * (0.45 + 0.55 * trust)
    ensures 0.0 <= gap <= 0.25 ==> Sureness(gap, trust) == (0.35 + 2.6 * gap) * (0.45 + 0.55 * trust)
    ensures gap >= 0.25 ==> Sureness(gap, trust) == 0.45 + 0.55 * trust
  {
    var lead, scale := 0.35 + 0.65 * Clamp01(4.0 * gap), 0.45 + 0.55 * trust;
    assert 0.0 <= lead <= 1.0 && 0.0 <= scale <= 1.0;
    ScaleMonotone(scale, lead, 1.0);
    ScaleMonotone(scale, 0.0, lead);
    assert scale * lead == lead * scale;
  }

  /** The lead is over the runner-up, and counts as 0.3 for a candidate without one. */
  lemma ConfidenceIs(best: Candidate, runnerUp: Option<Candidate>)
    ensures runnerUp.None? ==> Confidence(best, runnerUp) == Sureness(0.3, best.trust)
    ensures runnerUp.Some? ==> Confidence(best, runnerUp) == Sureness(best.total - runnerUp.value.total, best.trust)
  {
  }

  // ---- standings ------------------------------------------------------------

  /** A candidate is excluded by its shape or by a context it cannot hold; otherwise it may cool down. */
  lemma StandingIs(st: Settings, sc: Scene, req: Request, e: Entry)
    requires WeightsOk(st.weights) && JobOk(req.job)
    ensures var standing := Rate(st, sc, req, e).standing;
      var fits := !e.barred && (e.contextLength.Some? ==> req.needed <= e.contextLength.value);
      var cools := e.model in sc.health && sc.health[e.model].cooldownUntil > sc.now;
      standing == if !fits then Excluded else if cools then Cooling else Viable
    ensures var c := Rate(st, sc, req, e);
      && c.model == e.model && c.engine == e.engine && (c.resident <==> sc.active == Some(e.engine))
      && (c.standing != Viable ==> c.total == 0.0 && c.trust == 0.0 && c.swapCost == 0.0)
  {
  }

  /** A job's wishes multiply the weights of speed and reliability, by 1 + 2 times the wish, and no other. */
  lemma BoostIs(w: Six, job: Job)
    ensures var b := Boosted(w, job);
      && b.speed == w.speed * (1.0 + 2.0 * Wanted(job, "speed"))
      && b.reliability == w.reliability * (1.0 + 2.0 * Wanted(job, "reliability"))
      && b.quality == w.quality && b.residency == w.residency && b.swapCost == w.swapCost && b.context == w.context
  {
  }

  /** The score of a viable candidate: the total, under the boosted weights, of what each component stands for. */
  lemma ViableScoreIs(st: Settings, sc: Scene, req: Request, e: Entry)
    requires WeightsOk(st.weights) && JobOk(req.job) && Rate(st, sc, req, e).standing == Viable
    ensures !ContextExcludes(e.contextLength, req.needed) && WeightsOk(Boosted(st.weights, req.job))
    ensures var c := Rate(st, sc, req, e);
      && c.total == Total(Boosted(st.weights, req.job), Six(
           Quality(e.known, req.job, CAPS), e.speed, if sc.active == Some(e.engine) then 1.0 else 0.0,
           SwapScore(st, sc, e.engine), Reliability(st, if e.model in sc.health then sc.health[e.model] else FRESH),
           ContextFit(e.contextLength, req.needed)))
      && c.swapCost == SwapCost(st, sc, e.engine) && c.trust == Match(e.known)
  {
    BoostedOk(st.weights, req.job);
    hide Quality, SwapScore, Reliability, ContextFit, SwapCost, Match, Boosted, Total, Sum;
  }

  /**
   With a viable candidate the choice is among exactly those; without one it is among the cooling ones, which then score
   0.1 on the active engine and 0.05 elsewhere and are otherwise unchanged.
  */
  lemma ChoiceIsAmong(scored: seq<Candidate>)
    ensures var viable, cooling, s := Select(scored, Viable), Select(scored, Cooling), Choosable(scored);
      if viable != [] then s == viable
      else |s| == |cooling| && forall i :: 0 <= i < |s| ==>
        s[i] == cooling[i].(total := if cooling[i].resident then 0.1 else 0.05)
  {
  }

  // ---- who is decided on ----------------------------------------------------

  /** An offered entry that the request's shape and size allow. */
  predicate Allowed(req: Request, e: Entry) {
    e.smart && !e.barred && (e.contextLength.Some? ==> req.needed <= e.contextLength.value)
  }

  predicate Cooled(sc: Scene, e: Entry) {
    e.model in sc.health && sc.health[e.model].cooldownUntil > sc.now
  }

  lemma {:induction false} RateAllMembers(st: Settings, sc: Scene, req: Request, entries: seq<Entry>, c: Candidate)
    requires WeightsOk(st.weights) && JobOk(req.job)
    ensures c in RateAll(st, sc, req, entries) <==> exists e :: e in entries && e.smart && c == Rate(st, sc, req, e)
  {
    if entries != [] {
      hide Rate;
      var init, last := entries[..|entries| - 1], entries[|entries| - 1];
      RateAllMembers(st, sc, req, init, c);
      assert forall e :: e in entries <==> e in init || e == last;
    }
  }

  lemma {:induction false} SelectMembers(s: seq<Candidate>, standing: Standing, c: Candidate)
    ensures c in Select(s, standing) <==> c in s && c.standing == standing
  {
    if s != [] {
      SelectMembers(s[..|s| - 1], standing, c);
      assert c in s <==> c in s[..|s| - 1] || c == s[|s| - 1];
    }
  }

  lemma {:induction false} FirstMember(s: seq<Candidate>, f: Kind)
    ensures First(s, f).Some? ==> First(s, f).value in s
  {
    if s != [] { FirstMember(s[1..], f); }
  }

  lemma {:induction false} OthersMembers(st: Settings, r: seq<Candidate>, pick: string, c: Candidate)
    requires c in Others(st, r, pick)
    ensures c in r
  {
    if c != r[|r| - 1] { OthersMembers(st, r[..|r| - 1], pick, c); }
  }

  /** The pick and the fallbacks are among the candidates chosen from. */
  lemma ChosenMembers(st: Settings, s: seq<Candidate>)
    requires s != []
    ensures Choose(st, s).pick in s && forall c :: c in Fallbacks(st, s) ==> c in s
  {
    var r := Ranked(s);
    forall c
      ensures c in r <==> c in s
    {
      SameMembers(s, r, c);
    }
    FirstMember(r, Resident);
    forall c | c in Fallbacks(st, s)
      ensures c in s
    {
      OthersMembers(st, r, Choose(st, s).pick.model, c);
    }
  }

  /** `e` is offered and allowed, and cools down only if all allowed entries do. */
  ghost predicate Backed(sc: Scene, req: Request, entries: seq<Entry>, e: Entry) {
    e in entries && Allowed(req, e) && (Cooled(sc, e) ==> forall x :: x in entries && Allowed(req, x) ==> Cooled(sc, x))
  }

  /** A candidate chosen from is the rating of an allowed entry, and cools down only if all allowed entries do. */
  lemma ChoosableIsAllowed(st: Settings, sc: Scene, req: Request, entries: seq<Entry>, c: Candidate)
    requires WeightsOk(st.weights) && JobOk(req.job) && c in Choosable(RateAll(st, sc, req, entries))
    ensures exists e :: Backed(sc, req, entries, e) && e.model == c.model && e.engine == c.engine
  {
    var scored := RateAll(st, sc, req, entries);
    var viable := Select(scored, Viable) != [];
    var a: Candidate;
    if viable {
      a := c;
      SelectMembers(scored, Viable, a);
    } else {
      var cooled := Select(scored, Cooling);
      var i :| 0 <= i < |cooled| && LeastBad(cooled[i]) == c;
      a := cooled[i];
      SelectMembers(scored, Cooling, a);
    }
    RateAllMembers(st, sc, req, entries, a);
    var e :| e in entries && e.smart && a == Rate(st, sc, req, e);
    StandingIs(st, sc, req, e);
    if !viable {
      forall x | x in entries && Allowed(req, x)
        ensures Cooled(sc, x)
      {
        StandingIs(st, sc, req, x);
        RateAllMembers(st, sc, req, entries, Rate(st, sc, req, x));
        SelectMembers(scored, Viable, Rate(st, sc, req, x));
      }
    }
    assert Backed(sc, req, entries, e);
  }

  /** There is something to choose from exactly if some entry is allowed. */
  lemma AllowedIsChoosable(st: Settings, sc: Scene, req: Request, entries: seq<Entry>)
    requires WeightsOk(st.weights) && JobOk(req.job)
    ensures Choosable(RateAll(st, sc, req, entries)) != [] <==> exists e :: e in entries && Allowed(req, e)
  {
    var scored := RateAll(st, sc, req, entries);
    if e :| e in entries && Allowed(req, e) {
      var c := Rate(st, sc, req, e);
      StandingIs(st, sc, req, e);
      RateAllMembers(st, sc, req, entries, c);
      SelectMembers(scored, Viable, c);
      SelectMembers(scored, Cooling, c);
    } else if Choosable(scored) != [] {
      ChoosableIsAllowed(st, sc, req, entries, Choosable(scored)[0]);
    }
  }

  /**
   A decision names only models that are offered and fit the request's shape and size, a model in cooldown only if all
   of them are in cooldown, and there is no decision exactly if there is no such model.
  */
  lemma DecisionIsAllowed(st: Settings, sc: Scene, req: Request, entries: seq<Entry>)
    requires WeightsOk(st.weights) && JobOk(req.job)
    ensures var decision := Decided(st, sc, req, entries);
      && (decision == None <==> forall e :: e in entries ==> !Allowed(req, e))
      && (decision.Some? ==>
            && (exists e :: Backed(sc, req, entries, e) && e.model == decision.value.model && e.engine == decision.value.engine)
            && forall m :: m in decision.value.fallbacks ==> exists e :: Backed(sc, req, entries, e) && e.model == m)
  {
    AllowedIsChoosable(st, sc, req, entries);
    var s := Choosable(RateAll(st, sc, req, entries));
    if s != [] {
      ChosenMembers(st, s);
      hide RateAll, Choosable, Choose, Fallbacks;
      ChoosableIsAllowed(st, sc, req, entries, Choose(st, s).pick);
      var d := Decided(st, sc, req, entries).value;
      forall m | m in d.fallbacks
        ensures exists e :: Backed(sc, req, entries, e) && e.model == m
      {
        var i :| 0 <= i < |Fallbacks(st, s)| && Fallbacks(st, s)[i].model == m;
        ChoosableIsAllowed(st, sc, req, entries, Fallbacks(st, s)[i]);
      }
    }
  }

  /**
   Besides the pick and the fallbacks a decision reports whether a swap is needed and the confidence in the candidate the
   margin rule left, before a low confidence hands over to the best resident.
  */
  lemma DecisionReportsItsChoice(st: Settings, sc: Scene, s: seq<Candidate>)
    ensures DecideAmong(st, sc, s).Some? <==> s != []
    ensures s != [] ==>
      var d, p := DecideAmong(st, sc, s).value, Choose(st, s).pick;
      var resident := First(Ranked(s), Resident);
      var kept := resident.Some? && !Ranked(s)[0].resident && Ranked(s)[0].total - resident.value.total < st.swapMargin;
      var best := if kept then resident.value else Ranked(s)[0];
      && d.model == p.model && d.engine == p.engine && d.swapCost == p.swapCost
      && (d.wouldSwap <==> sc.active != Some(p.engine))
      && d.confidence == Confidence(best, First(Ranked(s), Other(best.model)))
      && |d.fallbacks| == |Fallbacks(st, s)| && (forall i :: 0 <= i < |d.fallbacks| ==> d.fallbacks[i] == Fallbacks(st, s)[i].model)
  {
  }
}

/** The scoring arithmetic of router/smart.py, over reals. */
module Scoring {
  import opened Wrappers

  function Clamp01(x: real): (r: real)
    ensures 0.0 <= r <= 1.0
    ensures 0.0 <= x <= 1.0 ==> r == x
    ensures x >= 1.0 ==> r == 1.0
    ensures x <= 0.0 ==> r == 0.0
  {
    if x > 1.0 then 1.0 else if x < 0.0 then 0.0 else x
  }

  lemma ClampMonotone(x: real, y: real)
    requires x <= y
    ensures Clamp01(x) <= Clamp01(y)
  {
  }

  /** One number per scoring component; used for weights and for component values. */
  datatype Six = Six(quality: real, speed: real, residency: real, swapCost: real, reliability: real, context: real)

  function Sum(w: Six): real {
    w.quality + w.speed + w.residency + w.swapCost + w.reliability + w.context
  }

  ghost predicate NonNegative(w: Six) {
    w.quality >= 0.0 && w.speed >= 0.0 && w.residency >= 0.0 && w.swapCost >= 0.0 && w.reliability >= 0.0 && w.context >= 0.0
  }

  ghost predicate Unit(c: Six) {
    NonNegative(c) && c.quality <= 1.0 && c.speed <= 1.0 && c.residency <= 1.0 && c.swapCost <= 1.0
    && c.reliability <= 1.0 && c.context <= 1.0
  }

  ghost predicate Below(c: Six, d: Six) {
    c.quality <= d.quality && c.speed <= d.speed && c.residency <= d.residency && c.swapCost <= d.swapCost
    && c.reliability <= d.reliability && c.context <= d.context
  }

  function Weighted(w: Six, c: Six): real {
    w.quality * c.quality + w.speed * c.speed + w.residency * c.residency + w.swapCost * c.swapCost
    + w.reliability * c.reliability + w.context * c.context
  }

  /** The score: the weighted mean of the components. */
  function Total(w: Six, c: Six): real
    requires Sum(w) > 0.0
  {
    Weighted(w, c) / Sum(w)
  }

  lemma ScaleMonotone(w: real, x: real, y: real)
    requires w >= 0.0 && x <= y
    ensures w * x <= w * y
  {
  }

  lemma ProductNonNegative(a: real, b: real)
    requires a >= 0.0 && b >= 0.0
    ensures a * b >= 0.0
  {
  }

  lemma ZeroTimes(w: real, x: real)
    requires w == 0.0
    ensures w * x == 0.0
  {
  }

  lemma WeightedMonotone(w: Six, c: Six, d: Six)
    requires NonNegative(w) && Below(c, d)
    ensures Weighted(w, c) <= Weighted(w, d)
  {
  }

  lemma QuotientMonotone(x: real, y: real, s: real)
    requires x <= y && s > 0.0
    ensures x / s <= y / s
  {
  }

  /** A score is monotone in every component. */
  lemma TotalMonotone(w: Six, c: Six, d: Six)
    requires NonNegative(w) && Sum(w) > 0.0 && Below(c, d)
    ensures Total(w, c) <= Total(w, d)
  {
    WeightedMonotone(w, c, d);
    QuotientMonotone(Weighted(w, c), Weighted(w, d), Sum(w));
  }

  lemma Spread(w: real, x: real, y: real)
    ensures w * y - w * x == w * (y - x)
  {
  }

  /** Each component counts with its own weight: a move of it moves the total by its share of all the weights. */
  lemma EachComponentCounts(w: Six, c: Six, d: Six)
    requires Sum(w) > 0.0
    ensures Total(w, d) - Total(w, c) ==
      (w.quality * (d.quality - c.quality) + w.speed * (d.speed - c.speed) + w.residency * (d.residency - c.residency)
       + w.swapCost * (d.swapCost - c.swapCost) + w.reliability * (d.reliability - c.reliability)
       + w.context * (d.context - c.context)) / Sum(w)
    ensures Sum(w) == w.quality + w.speed + w.residency + w.swapCost + w.reliability + w.context
    ensures Total(w, Six(0.0, 0.0, 0.0, 0.0, 0.0, 0.0)) == 0.0
  {
    Spread(w.quality, c.quality, d.quality);
    Spread(w.speed, c.speed, d.speed);
    Spread(w.residency, c.residency, d.residency);
    Spread(w.swapCost, c.swapCost, d.swapCost);
    Spread(w.reliability, c.reliability, d.reliability);
    Spread(w.context, c.context, d.context);
    var x, y := Weighted(w, c), Weighted(w, d);
    var moved :=
      w.quality * (d.quality - c.quality) + w.speed * (d.speed - c.speed) + w.residency * (d.residency - c.residency)
      + w.swapCost * (d.swapCost - c.swapCost) + w.reliability * (d.reliability - c.reliability)
      + w.context * (d.context - c.context);
    assert y - x == moved;
    assert Weighted(w, Six(0.0, 0.0, 0.0, 0.0, 0.0, 0.0)) == 0.0;
    hide Weighted;
    OneMoves(x, y, moved, Sum(w));
  }

  lemma OneMoves(x: real, y: real, moved: real, s: real)
    requires s > 0.0 && y - x == moved
    ensures y / s - x / s == moved / s
  {
  }

  /** With component values in [0, 1] every score is in [0, 1]. */
  lemma TotalInUnit(w: Six, c: Six)
    requires NonNegative(w) && Sum(w) > 0.0 && Unit(c)
    ensures 0.0 <= Total(w, c) <= 1.0
  {
    TotalMonotone(w, Six(0.0, 0.0, 0.0, 0.0, 0.0, 0.0), c);
    TotalMonotone(w, c, Six(1.0, 1.0, 1.0, 1.0, 1.0, 1.0));
    assert Weighted(w, Six(1.0, 1.0, 1.0, 1.0, 1.0, 1.0)) == Sum(w);
    assert Sum(w) / Sum(w) == 1.0;
    assert Weighted(w, Six(0.0, 0.0, 0.0, 0.0, 0.0, 0.0)) == 0.0;
  }

  // ---- quality --------------------------------------------------------------

  /** What is known about one model: user metadata, calibration, benchmark priors (score, confidence) and identity match. */
  datatype Knowledge = Knowledge(
    strengths: map<string, real>, tier: Option<nat>, calibration: map<string, real>,
    priors: map<string, (real, real)>, identity: real)

  function TierScore(tier: nat): real {
    0.15 + 0.15 * tier as real
  }

  /** The user's tier and a prior, weighted by the prior's confidence. */
  function Blend(c: real, x: real, y: real): real {
    c * x + (1.0 - c) * y
  }

  /** The score used for one capability. */
  function CapScore(k: Knowledge, dim: string): real {
    if dim in k.strengths then k.strengths[dim]
    else if dim in k.calibration then Clamp01(k.calibration[dim])
    else if dim in k.priors then
      var (score, conf) := k.priors[dim];
      if k.tier.Some? && k.tier.value != 0 then Blend(conf, score, TierScore(k.tier.value)) else score
    else if k.tier.Some? && k.tier.value != 0 then TierScore(k.tier.value)
    else 0.45
  }

  ghost predicate InUnit(x: real) {
    0.0 <= x <= 1.0
  }

  /** What the configuration parser and the benchmark tables guarantee. */
  ghost predicate KnowledgeOk(k: Knowledge) {
    && (forall d :: d in k.strengths ==> InUnit(k.strengths[d]))
    && (forall d :: d in k.priors ==> InUnit(k.priors[d].0) && InUnit(k.priors[d].1))
    && (k.tier.Some? ==> 1 <= k.tier.value <= 5)
    && InUnit(k.identity)
  }

  function AtLeast(x: real, floor: real): real {
    if x < floor then floor else x
  }

  /** The user's strengths decide, then calibration, then a prior (blended with the user's tier), then the tier, then 0.45. */
  lemma KnowledgeHasPrecedence(k: Knowledge, dim: string)
    ensures dim in k.strengths ==> CapScore(k, dim) == k.strengths[dim]
    ensures dim !in k.strengths && dim in k.calibration ==>
      CapScore(k, dim) == if k.calibration[dim] < 0.0 then 0.0 else if k.calibration[dim] > 1.0 then 1.0 else k.calibration[dim]
    ensures dim !in k.strengths && dim !in k.calibration ==>
      && (dim in k.priors && k.tier == None ==> CapScore(k, dim) == k.priors[dim].0)
      && (k.tier.Some? && k.tier.value != 0 ==>
            var tier := 0.15 + 0.15 * k.tier.value as real;
            && (dim in k.priors ==>
                  var (score, sure) := k.priors[dim]; CapScore(k, dim) == sure * score + (1.0 - sure) * tier)
            && (dim !in k.priors ==> CapScore(k, dim) == tier))
      && (dim !in k.priors && k.tier == None ==> CapScore(k, dim) == 0.45)
  {
  }

  /** How far the benchmark identification is to be trusted; explicit metadata and calibration raise it. */
  function Match(k: Knowledge): real {
    var known := if k.strengths != map[] || (k.tier.Some? && k.tier.value != 0) then AtLeast(k.identity, 0.9) else k.identity;
    if k.calibration != map[] then AtLeast(known, 0.8) else known
  }

  /** Explicit metadata is worth at least 0.9, calibration at least 0.8, and neither takes trust away or adds more. */
  lemma MatchRises(k: Knowledge)
    ensures var explicit := k.strengths != map[] || (k.tier.Some? && k.tier.value != 0);
      var floor := if explicit then 0.9 else if k.calibration != map[] then 0.8 else k.identity;
      Match(k) == if k.identity < floor then floor else k.identity
  {
  }

  /** A mean of two numbers with weight `c` stays between their bounds. */
  lemma BlendBetween(c: real, x: real, y: real, lo: real, hi: real)
    requires InUnit(c) && lo <= x <= hi && lo <= y <= hi
    ensures lo <= Blend(c, x, y) <= hi
  {
    ProductNonNegative(c, x - lo);
    ProductNonNegative(c, hi - x);
    ProductNonNegative(1.0 - c, y - lo);
    ProductNonNegative(1.0 - c, hi - y);
  }

  lemma CapScoreInUnit(k: Knowledge, dim: string)
    requires KnowledgeOk(k)
    ensures InUnit(CapScore(k, dim))
  {
    hide Blend;
    if k.tier.Some? && dim in k.priors {
      BlendBetween(k.priors[dim].1, k.priors[dim].0, TierScore(k.tier.value), 0.0, 1.0);
    }
  }

  /** The request's job dimensions with their weights, in order. */
  type Job = seq<(string, real)>

  ghost predicate JobOk(job: Job) {
    forall i :: 0 <= i < |job| ==> job[i].1 >= 0.0
  }

  /** The weight of the capability dimensions among the first `n`. */
  function Den(job: Job, caps: set<string>, n: nat): real
    requires n <= |job|
  {
    if n == 0 then 0.0
    else Den(job, caps, n - 1) + (if job[n - 1].0 in caps then job[n - 1].1 else 0.0)
  }

  function Num(k: Knowledge, job: Job, caps: set<string>, n: nat): real
    requires n <= |job|
  {
    if n == 0 then 0.0
    else Num(k, job, caps, n - 1) + (if job[n - 1].0 in caps then job[n - 1].1 * CapScore(k, job[n - 1].0) else 0.0)
  }

  function Quality(k: Knowledge, job: Job, caps: set<string>): real {
    if Den(job, caps, |job|) != 0.0 then Num(k, job, caps, |job|) / Den(job, caps, |job|) else 0.45
  }

  method QualityScore(k: Knowledge, job: Job, caps: set<string>) returns (score: real)
    ensures score == Quality(k, job, caps)
  {
    var num, den := 0.0, 0.0;
    for i := 0 to |job|
      invariant num == Num(k, job, caps, i) && den == Den(job, caps, i)
    {
      var (dim, weight) := job[i];
      if dim in caps {
        num, den := num + weight * CapScore(k, dim), den + weight;
      }
    }
    score := if den != 0.0 then num / den else 0.45;
  }

  ghost predicate ScoresBetween(k: Knowledge, job: Job, caps: set<string>, n: nat, lo: real, hi: real)
    requires n <= |job|
  {
    forall i :: 0 <= i < n && job[i].0 in caps && job[i].1 > 0.0 ==> lo <= CapScore(k, job[i].0) <= hi
  }

  /** The weighted sum `num` lies between the bounds times the weight `den`. */
  ghost predicate Bounded(lo: real, hi: real, den: real, num: real) {
    lo * den <= num <= hi * den
  }

  /** One more term with a score in the bounds keeps a weighted sum in them. */
  lemma AddTerm(lo: real, hi: real, den: real, num: real, w: real, score: real)
    requires Bounded(lo, hi, den, num) && w >= 0.0 && (w > 0.0 ==> lo <= score <= hi)
    ensures Bounded(lo, hi, den + w, num + w * score)
  {
    if w > 0.0 {
      ProductNonNegative(w, score - lo);
      ProductNonNegative(w, hi - score);
    } else {
      ZeroTimes(w, score);
    }
  }

  lemma {:induction false} NumBetween(k: Knowledge, job: Job, caps: set<string>, n: nat, lo: real, hi: real)
    requires n <= |job| && JobOk(job) && ScoresBetween(k, job, caps, n, lo, hi)
    ensures Den(job, caps, n) >= 0.0 && Bounded(lo, hi, Den(job, caps, n), Num(k, job, caps, n))
  {
    if n > 0 {
      hide CapScore, Bounded;
      NumBetween(k, job, caps, n - 1, lo, hi);
      var d, m, w := Den(job, caps, n - 1), Num(k, job, caps, n - 1), job[n - 1].1;
      if job[n - 1].0 in caps {
        var score := CapScore(k, job[n - 1].0);
        assert Den(job, caps, n) == d + w && Num(k, job, caps, n) == m + w * score;
        assert w >= 0.0 && (w > 0.0 ==> lo <= score <= hi);
        hide ScoresBetween, JobOk, Den, Num;
        AddTerm(lo, hi, d, m, w, score);
      }
    }
  }

  /** Quality is the weighted mean: times the capability weight it is the weighted sum, and without one it is 0.45. */
  lemma QualityIsTheMean(k: Knowledge, job: Job, caps: set<string>)
    ensures Den(job, caps, |job|) != 0.0 ==> Quality(k, job, caps) * Den(job, caps, |job|) == Num(k, job, caps, |job|)
    ensures Den(job, caps, |job|) == 0.0 ==> Quality(k, job, caps) == 0.45
  {
    hide Num, Den;
    if Den(job, caps, |job|) != 0.0 { TimesBack(Num(k, job, caps, |job|), Den(job, caps, |job|)); }
  }

  lemma TimesBack(num: real, den: real)
    requires den != 0.0
    ensures num / den * den == num
  {
  }

  /** One more dimension adds its weight and its weighted score to those sums; one that is no capability adds nothing. */
  lemma SumsAddUp(k: Knowledge, job: Job, caps: set<string>, dim: string, weight: real)
    ensures Den([], caps, 0) == 0.0 && Num(k, [], caps, 0) == 0.0
    ensures var more := job + [(dim, weight)];
      && Den(more, caps, |more|) == Den(job, caps, |job|) + (if dim in caps then weight else 0.0)
      && Num(k, more, caps, |more|) == Num(k, job, caps, |job|) + (if dim in caps then weight * CapScore(k, dim) else 0.0)
  {
    var more := job + [(dim, weight)];
    PrefixSums(k, job, more, caps, |job|);
    assert more[|job|] == (dim, weight);
    hide CapScore;
  }

  lemma {:induction false} PrefixSums(k: Knowledge, job: Job, more: Job, caps: set<string>, n: nat)
    requires n <= |job| <= |more| && job == more[..|job|]
    ensures Den(more, caps, n) == Den(job, caps, n) && Num(k, more, caps, n) == Num(k, job, caps, n)
  {
    if n > 0 {
      PrefixSums(k, job, more, caps, n - 1);
      assert more[n - 1] == job[n - 1];
    }
  }

  lemma MeanBetween(lo: real, hi: real, num: real, den: real)
    requires den > 0.0 && Bounded(lo, hi, den, num)
    ensures lo <= num / den <= hi
  {
  }

  /** Quality lies between the least and the greatest capability score it uses. */
  lemma QualityBetween(k: Knowledge, job: Job, caps: set<string>, lo: real, hi: real)
    requires JobOk(job) && ScoresBetween(k, job, caps, |job|, lo, hi) && Den(job, caps, |job|) != 0.0
    ensures lo <= Quality(k, job, caps) <= hi
  {
    hide Num, Den, ScoresBetween;
    NumBetween(k, job, caps, |job|, lo, hi);
    MeanBetween(lo, hi, Num(k, job, caps, |job|), Den(job, caps, |job|));
  }

  /** In particular quality is a fraction, whatever the configuration and the benchmark tables say. */
  lemma QualityInUnit(k: Knowledge, job: Job, caps: set<string>)
    requires JobOk(job) && KnowledgeOk(k)
    ensures InUnit(Quality(k, job, caps))
  {
    if Den(job, caps, |job|) != 0.0 {
      forall i | 0 <= i < |job|
        ensures InUnit(CapScore(k, job[i].0))
      {
        CapScoreInUnit(k, job[i].0);
      }
      QualityBetween(k, job, caps, 0.0, 1.0);
    }
  }
}

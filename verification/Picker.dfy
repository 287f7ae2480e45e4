/** The swap-aware picker of router/smart.py: scoring, the margin and confidence rules, fallbacks, and the router's memory. */
module Picker {
  import opened Wrappers
  import opened Scoring
  import opened SmartHealth
  import opened Ranking

  const CAPS: set<string> := {
    "general", "coding", "code_editing", "math", "reasoning", "tool_use",
    "writing", "summarization", "long_context", "json_structured"
  }

  /** Start and load timeouts of an engine's configuration, where it has them. */
  datatype Timeouts = Timeouts(start: Option<real>, load: Option<real>)

  datatype Settings = Settings(
    weights: Six, horizon: real, retry: Retry, maxFallbacks: int, swapMargin: real, minConfidence: real,
    engines: map<string, Timeouts>, settle: real)

  /** One enumerated candidate; `barred` says that the request's shape rules the model out. */
  datatype Entry = Entry(
    model: string, engine: string, known: Knowledge, speed: real, contextLength: Option<int>, barred: bool, smart: bool)

  datatype Request = Request(job: Job, needed: nat)

  /** What a decision reads of the running system. */
  datatype Scene = Scene(
    active: Option<string>, inflight: seq<(string, nat)>, health: map<string, Health>, swapSeconds: map<string, real>,
    now: real)

  // ---- component scores -----------------------------------------------------

  function Max(x: real, y: real): real {
    if x < y then y else x
  }

  /** Requests in flight on the other engines. */
  function Elsewhere(inflight: seq<(string, nat)>, engine: string): nat {
    if inflight == [] then 0
    else (if inflight[0].0 != engine then inflight[0].1 else 0) + Elsewhere(inflight[1..], engine)
  }

  function Guess(st: Settings, engine: string): real {
    var t := if engine in st.engines then st.engines[engine] else Timeouts(None, None);
    (if t.start.Some? && t.start.value != 0.0 then 0.4 * t.start.value
     else if t.load.Some? && t.load.value != 0.0 then 0.5 * t.load.value
     else 15.0) + 0.2 * st.settle
  }

  function SwapCost(st: Settings, sc: Scene, engine: string): real {
    if sc.active == Some(engine) then 0.0
    else
      var base := if engine in sc.swapSeconds then sc.swapSeconds[engine] else Guess(st, engine);
      var drain := 2.0 * Elsewhere(sc.inflight, engine) as real;
      base + (if drain < 10.0 then drain else 10.0)
  }

  function SwapScore(st: Settings, sc: Scene, engine: string): real {
    1.0 - Clamp01(SwapCost(st, sc, engine) / Max(st.horizon, 1.0))
  }

  predicate ContextExcludes(length: Option<int>, needed: nat) {
    length.Some? && needed > length.value
  }

  function ContextFit(length: Option<int>, needed: nat): real
    requires !ContextExcludes(length, needed)
  {
    var ctx := (if length.Some? then length.value else 32768) as real;
    if needed as real <= 0.7 * ctx then 1.0 else Clamp01((ctx - needed as real) / (0.3 * ctx))
  }

  function HealthOf(sc: Scene, model: string): Health {
    if model in sc.health then sc.health[model] else FRESH
  }

  predicate CoolingDown(sc: Scene, model: string) {
    model in sc.health && sc.health[model].cooldownUntil > sc.now
  }

  function Reliability(st: Settings, h: Health): real {
    1.0 - 0.8 * Clamp01(h.consecutive as real / Limit(st.retry) as real)
  }

  predicate Residing(sc: Scene, e: Entry) {
    sc.active == Some(e.engine)
  }

  function Components(st: Settings, sc: Scene, req: Request, e: Entry): Six
    requires !ContextExcludes(e.contextLength, req.needed)
  {
    Six(Quality(e.known, req.job, CAPS), e.speed, if Residing(sc, e) then 1.0 else 0.0,
        SwapScore(st, sc, e.engine), Reliability(st, HealthOf(sc, e.model)), ContextFit(e.contextLength, req.needed))
  }

  function Wanted(job: Job, dim: string): real {
    if job == [] then 0.0
    else if job[0].0 == dim then job[0].1
    else Wanted(job[1..], dim)
  }

  /** The weights with the job's preference for speed and reliability. */
  function Boosted(w: Six, job: Job): Six {
    w.(speed := w.speed * (1.0 + 2.0 * Wanted(job, "speed")),
       reliability := w.reliability * (1.0 + 2.0 * Wanted(job, "reliability")))
  }

  ghost predicate WeightsOk(w: Six) {
    NonNegative(w) && Sum(w) > 0.0
  }

  lemma {:induction false} WantedNonNegative(job: Job, dim: string)
    requires JobOk(job)
    ensures Wanted(job, dim) >= 0.0
  {
    if job != [] {
      WantedNonNegative(job[1..], dim);
    }
  }

  /** A job never takes weight away, so the effective weights of an accepted configuration keep a positive sum. */
  lemma BoostedOk(w: Six, job: Job)
    requires WeightsOk(w) && JobOk(job)
    ensures WeightsOk(Boosted(w, job)) && Below(w, Boosted(w, job))
  {
    WantedNonNegative(job, "speed");
    WantedNonNegative(job, "reliability");
    ScaleMonotone(w.speed, 1.0, 1.0 + 2.0 * Wanted(job, "speed"));
    ScaleMonotone(w.reliability, 1.0, 1.0 + 2.0 * Wanted(job, "reliability"));
  }

  // ---- scoring --------------------------------------------------------------

  /** One scored candidate; an excluded one has a total of 0. */
  function Rate(st: Settings, sc: Scene, req: Request, e: Entry): (c: Candidate)
    requires WeightsOk(st.weights) && JobOk(req.job)
    ensures c.model == e.model && c.engine == e.engine && c.resident == Residing(sc, e)
  {
    var out := Candidate(e.model, e.engine, 0.0, 0.0, Residing(sc, e), 0.0, Excluded);
    if e.barred || ContextExcludes(e.contextLength, req.needed) then out
    else if CoolingDown(sc, e.model) then out.(standing := Cooling)
    else
      BoostedOk(st.weights, req.job);
      out.(total := Total(Boosted(st.weights, req.job), Components(st, sc, req, e)), trust := Match(e.known),
           swapCost := SwapCost(st, sc, e.engine), standing := Viable)
  }

  function RateAll(st: Settings, sc: Scene, req: Request, entries: seq<Entry>): seq<Candidate>
    requires WeightsOk(st.weights) && JobOk(req.job)
  {
    if entries == [] then []
    else
      var rest := RateAll(st, sc, req, entries[..|entries| - 1]);
      var e := entries[|entries| - 1];
      if e.smart then rest + [Rate(st, sc, req, e)] else rest
  }

  function Select(s: seq<Candidate>, standing: Standing): seq<Candidate> {
    if s == [] then []
    else
      var rest := Select(s[..|s| - 1], standing);
      var c := s[|s| - 1];
      if c.standing == standing then rest + [c] else rest
  }

  function LeastBad(c: Candidate): Candidate {
    c.(total := 0.05 + (if c.resident then 0.05 else 0.0))
  }

  /** The candidates the choice is made among: the viable ones, else those only in cooldown at a token score. */
  function Choosable(scored: seq<Candidate>): seq<Candidate> {
    var viable := Select(scored, Viable);
    if viable != [] then viable
    else
      var cooled := Select(scored, Cooling);
      seq(|cooled|, i requires 0 <= i < |cooled| => LeastBad(cooled[i]))
  }

  // ---- the choice -----------------------------------------------------------

  /** Swap-worth-it: a non-resident leader must clear the margin over the best resident. */
  function AfterMargin(st: Settings, top: Candidate, resident: Option<Candidate>): Candidate {
    if resident.Some? && top != resident.value && !top.resident && top.total - resident.value.total < st.swapMargin
    then resident.value else top
  }

  function Sureness(gap: real, trust: real): real {
    Clamp01((0.45 + 0.55 * trust) * (0.35 + 0.65 * Clamp01(4.0 * gap)))
  }

  function Confidence(best: Candidate, runnerUp: Option<Candidate>): real {
    Sureness(if runnerUp.Some? then best.total - runnerUp.value.total else 0.3, best.trust)
  }

  function AfterConfidence(st: Settings, best: Candidate, resident: Option<Candidate>, confidence: real): Candidate {
    if confidence < st.minConfidence && resident.Some? && best != resident.value then resident.value else best
  }

  datatype Choice = Choice(pick: Candidate, confidence: real)

  function ChooseAmong(st: Settings, ranked: seq<Candidate>): Choice
    requires ranked != []
  {
    var resident := First(ranked, Resident);
    var best := AfterMargin(st, ranked[0], resident);
    var confidence := Confidence(best, First(ranked, Other(best.model)));
    Choice(AfterConfidence(st, best, resident, confidence), confidence)
  }

  function Choose(st: Settings, viable: seq<Candidate>): Choice
    requires viable != []
  {
    ChooseAmong(st, Ranked(viable))
  }

  /** The other ranked candidates with an engine in the table. */
  function Others(st: Settings, ranked: seq<Candidate>, pick: string): seq<Candidate> {
    if ranked == [] then []
    else
      var rest := Others(st, ranked[..|ranked| - 1], pick);
      var c := ranked[|ranked| - 1];
      if c.model != pick && c.engine in st.engines then rest + [c] else rest
  }

  function Cut<T>(s: seq<T>, bound: int): seq<T> {
    if bound <= 0 then [] else if bound < |s| then s[..bound] else s
  }

  function Fallbacks(st: Settings, viable: seq<Candidate>): seq<Candidate>
    requires viable != []
  {
    Cut(Others(st, Ranked(viable), Choose(st, viable).pick.model), st.maxFallbacks)
  }

  function Models(s: seq<Candidate>): seq<string> {
    seq(|s|, i requires 0 <= i < |s| => s[i].model)
  }

  datatype Decision = Decision(
    model: string, engine: string, confidence: real, wouldSwap: bool, swapCost: real, fallbacks: seq<string>)

  function DecideAmong(st: Settings, sc: Scene, viable: seq<Candidate>): Option<Decision> {
    if viable == [] then None
    else
      var choice := Choose(st, viable);
      var p := choice.pick;
      Some(Decision(p.model, p.engine, choice.confidence, sc.active != Some(p.engine), p.swapCost,
                    Models(Fallbacks(st, viable))))
  }

  function Decided(st: Settings, sc: Scene, req: Request, entries: seq<Entry>): Option<Decision>
    requires WeightsOk(st.weights) && JobOk(req.job)
  {
    DecideAmong(st, sc, Choosable(RateAll(st, sc, req, entries)))
  }

  // ---- the router object ----------------------------------------------------

  class SmartRouter {
    const settings: Settings
    var health: map<string, Health>
    var swapSeconds: map<string, real>
    // Every report about a model and every swap of an engine so far.
    ghost var reports: seq<(string, Report)>
    ghost var swaps: seq<(string, Swap)>

    /** The router remembers exactly what its history says. */
    ghost predicate Valid()
      reads this
    {
      health == HealthAfter(settings.retry, reports) && swapSeconds == SecondsAfter(swaps)
    }

    constructor (st: Settings)
      ensures Valid() && settings == st && reports == [] && swaps == []
    {
      settings, health, swapSeconds := st, map[], map[];
      reports, swaps := [], [];
    }

    /** The scene for a decision, with the manager's state and the clock as they are read. */
    function SceneAt(active: Option<string>, inflight: seq<(string, nat)>, now: real): Scene
      reads this
    {
      Scene(active, inflight, health, swapSeconds, now)
    }

    method NoteSwap(engine: string, duration: real, ok: bool)
      requires Valid()
      modifies this`swapSeconds, this`swaps
      ensures Valid() && swaps == old(swaps) + [(engine, Swap(duration, ok))]
      ensures swapSeconds == NotedIn(old(swapSeconds), engine, duration, ok)
    {
      swaps := swaps + [(engine, Swap(duration, ok))];
      assert swaps[..|swaps| - 1] == old(swaps);
      if !ok { return; }
      if engine in swapSeconds {
        swapSeconds := swapSeconds[engine := 0.6 * swapSeconds[engine] + 0.4 * duration];
      } else {
        swapSeconds := swapSeconds[engine := duration];
      }
    }

    method RecordSuccess(model: string)
      requires Valid()
      modifies this`health, this`reports
      ensures Valid() && reports == old(reports) + [(model, Success)]
      ensures health == SucceededIn(old(health), model)
    {
      reports := reports + [(model, Success)];
      assert reports[..|reports| - 1] == old(reports);
      var h := if model in health then health[model] else FRESH;
      h := h.(successes := h.successes + 1);
      if h.consecutive != 0 || h.cooldownUntil != 0.0 {
        h := h.(consecutive := 0, cooldownUntil := 0.0);
      }
      health := health[model := h];
    }

    method RecordFailure(model: string, at: real, later: real)
      requires Valid()
      modifies this`health, this`reports
      ensures Valid() && reports == old(reports) + [(model, Failure(at, later))]
      ensures health == FailedIn(settings.retry, old(health), model, at, later)
    {
      reports := reports + [(model, Failure(at, later))];
      assert reports[..|reports| - 1] == old(reports);
      var h := if model in health then health[model] else FRESH;
      h := h.(consecutive := h.consecutive + 1, failures := h.failures + 1, lastFailureAt := at);
      if h.consecutive >= Limit(settings.retry) {
        h := h.(cooldownUntil := later + settings.retry.cooldown);
      }
      health := health[model := h];
    }

    /** A model cools down while its last reports were failures, up to the threshold, and the last is not long past. */
    method InCooldown(model: string, now: real) returns (cooling: bool)
      requires Valid() && now >= 0.0
      ensures cooling <==> Cools(settings.retry, About(reports, model), now)
    {
      CoolingIsHistory(settings.retry, reports, model, now);
      cooling := model in health && health[model].cooldownUntil > now;
    }

    /** The decision: score every candidate, choose, collect the fallbacks. */
    method Decide(active: Option<string>, inflight: seq<(string, nat)>, now: real, req: Request, entries: seq<Entry>)
      returns (decision: Option<Decision>)
      requires WeightsOk(settings.weights) && JobOk(req.job)
      ensures decision == Decided(settings, SceneAt(active, inflight, now), req, entries)
    {
      var sc := SceneAt(active, inflight, now);
      var scored: seq<Candidate> := [];
      for i := 0 to |entries|
        invariant scored == RateAll(settings, sc, req, entries[..i])
      {
        assert entries[..i + 1][..i] == entries[..i];
        if entries[i].smart {
          scored := scored + [Rate(settings, sc, req, entries[i])];
        }
      }
      assert entries[..|entries|] == entries;
      var viable := Choosable(scored);
      if viable == [] { return None; }
      var ranked := Ranked(viable);
      var choice := ChooseAmong(settings, ranked);
      var fallbacks := CollectFallbacks(ranked, choice.pick.model);
      decision := Some(Decision(
        choice.pick.model, choice.pick.engine, choice.confidence, active != Some(choice.pick.engine), choice.pick.swapCost,
        fallbacks));
    }

    method CollectFallbacks(ranked: seq<Candidate>, pick: string) returns (fallbacks: seq<string>)
      ensures fallbacks == Models(Cut(Others(settings, ranked, pick), settings.maxFallbacks))
    {
      var others: seq<string> := [];
      for i := 0 to |ranked|
        invariant others == Models(Others(settings, ranked[..i], pick))
      {
        assert ranked[..i + 1][..i] == ranked[..i];
        if ranked[i].model != pick && ranked[i].engine in settings.engines {
          others := others + [ranked[i].model];
        }
      }
      assert ranked[..|ranked|] == ranked;
      fallbacks := Cut(others, settings.maxFallbacks);
    }
  }
}

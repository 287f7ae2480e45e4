/** Runtime feedback of the smart picker (router/smart.py): model health and the swap-time estimate. */
module SmartHealth {
  import opened Wrappers

  /** `cooldownUntil` is 0 while no cooldown was ever set or since the last success. */
  datatype Health = Health(consecutive: nat, failures: nat, successes: nat, cooldownUntil: real, lastFailureAt: real)

  const FRESH := Health(0, 0, 0, 0.0, 0.0)

  datatype Retry = Retry(threshold: nat, cooldown: real)

  /** A failure reads the clock twice: for `last_failure_at`, then for the cooldown. */
  datatype Report = Success | Failure(at: real, later: real)

  function Limit(r: Retry): nat {
    if r.threshold < 1 then 1 else r.threshold
  }

  function Succeed(h: Health): Health {
    var counted := h.(successes := h.successes + 1);
    if h.consecutive != 0 || h.cooldownUntil != 0.0 then counted.(consecutive := 0, cooldownUntil := 0.0) else counted
  }

  function Fail(r: Retry, h: Health, at: real, later: real): Health {
    var counted := h.(consecutive := h.consecutive + 1, failures := h.failures + 1, lastFailureAt := at);
    if counted.consecutive >= Limit(r) then counted.(cooldownUntil := later + r.cooldown) else counted
  }

  function Told(r: Retry, h: Health, report: Report): Health {
    match report
    case Success => Succeed(h)
    case Failure(at, later) => Fail(r, h, at, later)
  }

  function AfterAll(r: Retry, history: seq<Report>): Health {
    if history == [] then FRESH
    else Told(r, AfterAll(r, history[..|history| - 1]), history[|history| - 1])
  }

  /** A success ends the run of failures and the cooldown, whatever the record was, and only counts besides. */
  lemma SuccessClears(h: Health)
    ensures Succeed(h) == Health(0, h.failures, h.successes + 1, 0.0, h.lastFailureAt)
  {
  }

  /** A failure lengthens the run, and starts a cooldown exactly once the run reaches the threshold, or 1. */
  lemma FailureCounts(r: Retry, h: Health, at: real, later: real)
    ensures var f := Fail(r, h, at, later);
      && f.consecutive == h.consecutive + 1 && f.failures == h.failures + 1 && f.successes == h.successes
      && f.lastFailureAt == at
      && f.cooldownUntil == if h.consecutive + 1 >= r.threshold then later + r.cooldown else h.cooldownUntil
  {
  }

  // ---- the same from the history alone --------------------------------------

  function Trailing(history: seq<Report>): nat {
    if history == [] || history[|history| - 1].Success? then 0
    else 1 + Trailing(history[..|history| - 1])
  }

  function Failures(history: seq<Report>): nat {
    if history == [] then 0
    else Failures(history[..|history| - 1]) + (if history[|history| - 1].Failure? then 1 else 0)
  }

  function LastFailureAt(history: seq<Report>): real {
    if history == [] then 0.0
    else match history[|history| - 1]
      case Failure(at, _) => at
      case Success => LastFailureAt(history[..|history| - 1])
  }

  /** Health is a function of the trailing run of failures and of the totals, whatever the order of the rest. */
  lemma {:induction false} HealthIsHistory(r: Retry, history: seq<Report>)
    ensures var h := AfterAll(r, history);
      && h.consecutive == Trailing(history)
      && h.failures == Failures(history)
      && h.failures + h.successes == |history|
      && h.lastFailureAt == LastFailureAt(history)
      && h.cooldownUntil == (if Trailing(history) >= 1 && Trailing(history) >= r.threshold
                             then history[|history| - 1].later + r.cooldown else 0.0)
    decreases |history|
  {
    if history != [] {
      HealthIsHistory(r, history[..|history| - 1]);
    }
  }

  // ---- swap-time estimate ---------------------------------------------------

  /** `note_swap`: an exponential moving average over the successful swaps only. */
  function Noted(prev: Option<real>, duration: real, ok: bool): Option<real> {
    if !ok then prev
    else match prev
      case None => Some(duration)
      case Some(p) => Some(0.6 * p + 0.4 * duration)
  }

  datatype Swap = Swap(duration: real, ok: bool)

  function Estimate(swaps: seq<Swap>): Option<real> {
    if swaps == [] then None
    else Noted(Estimate(swaps[..|swaps| - 1]), swaps[|swaps| - 1].duration, swaps[|swaps| - 1].ok)
  }

  /** The estimate exists once a swap succeeded, and lies between the least and the greatest successful duration. */
  lemma {:induction false} EstimateBetween(swaps: seq<Swap>, least: real, greatest: real)
    requires forall i :: 0 <= i < |swaps| && swaps[i].ok ==> least <= swaps[i].duration <= greatest
    ensures Estimate(swaps).Some? <==> exists i :: 0 <= i < |swaps| && swaps[i].ok
    ensures Estimate(swaps).Some? ==> least <= Estimate(swaps).value <= greatest
    decreases |swaps|
  {
    if swaps != [] {
      var init := swaps[..|swaps| - 1];
      assert forall i :: 0 <= i < |init| ==> init[i] == swaps[i];
      EstimateBetween(init, least, greatest);
      if i :| 0 <= i < |swaps| && swaps[i].ok {
        assert i < |init| ==> init[i].ok;
      }
    }
  }

  /** The first successful swap is the estimate; every later one moves it 40% of the way to its own duration. */
  lemma SuccessMovesTheEstimate(swaps: seq<Swap>, duration: real)
    ensures var before, after := Estimate(swaps), Estimate(swaps + [Swap(duration, true)]);
      && after.Some?
      && (before.None? ==> after.value == duration)
      && (before.Some? ==> after.value - before.value == 0.4 * (duration - before.value))
  {
    assert (swaps + [Swap(duration, true)])[..|swaps|] == swaps;
  }

  function Successes(swaps: seq<Swap>): seq<Swap> {
    if swaps == [] then []
    else
      var rest := Successes(swaps[..|swaps| - 1]);
      if swaps[|swaps| - 1].ok then rest + [swaps[|swaps| - 1]] else rest
  }

  /** Failed swaps leave no trace in the estimate. */
  lemma {:induction false} FailuresDoNotMatter(swaps: seq<Swap>)
    ensures Estimate(swaps) == Estimate(Successes(swaps))
  {
    if swaps != [] {
      FailuresDoNotMatter(swaps[..|swaps| - 1]);
      var own, rest := Successes(swaps), Successes(swaps[..|swaps| - 1]);
      if swaps[|swaps| - 1].ok { assert own[..|own| - 1] == rest; }
    }
  }

  // ---- the router's maps ----------------------------------------------------

  function SucceededIn(health: map<string, Health>, model: string): map<string, Health> {
    health[model := Succeed(if model in health then health[model] else FRESH)]
  }

  function FailedIn(r: Retry, health: map<string, Health>, model: string, at: real, later: real): map<string, Health> {
    health[model := Fail(r, if model in health then health[model] else FRESH, at, later)]
  }

  function NotedIn(seconds: map<string, real>, engine: string, duration: real, ok: bool): map<string, real> {
    var noted := Noted(if engine in seconds then Some(seconds[engine]) else None, duration, ok);
    if noted.Some? then seconds[engine := noted.value] else seconds
  }

  /** The health map after reports about many models, one by one. */
  function HealthAfter(r: Retry, log: seq<(string, Report)>): map<string, Health> {
    if log == [] then map[]
    else
      var (model, report) := log[|log| - 1];
      var before := HealthAfter(r, log[..|log| - 1]);
      match report
      case Success => SucceededIn(before, model)
      case Failure(at, later) => FailedIn(r, before, model, at, later)
  }

  /** The swap-time map after swaps to many engines, one by one. */
  function SecondsAfter(log: seq<(string, Swap)>): map<string, real> {
    if log == [] then map[]
    else
      var (engine, swap) := log[|log| - 1];
      NotedIn(SecondsAfter(log[..|log| - 1]), engine, swap.duration, swap.ok)
  }

  /** What a log says about one name, in order. */
  function About<T>(log: seq<(string, T)>, name: string): seq<T> {
    if log == [] then []
    else
      var rest := About(log[..|log| - 1], name);
      if log[|log| - 1].0 == name then rest + [log[|log| - 1].1] else rest
  }

  /** Whatever was interleaved, a model's record is its own history's, and there is one exactly after a report on it. */
  lemma {:induction false} RouterHealthIsHistory(r: Retry, log: seq<(string, Report)>, model: string)
    ensures var h, own := HealthAfter(r, log), About(log, model);
      && (model in h <==> own != [])
      && (model in h ==> h[model] == AfterAll(r, own))
  {
    if log != [] {
      hide Succeed, Fail;
      RouterHealthIsHistory(r, log[..|log| - 1], model);
      var own, rest, report := About(log, model), About(log[..|log| - 1], model), log[|log| - 1].1;
      if log[|log| - 1].0 == model {
        assert own[..|own| - 1] == rest;
        assert AfterAll(r, own) == Told(r, AfterAll(r, rest), report);
        assert rest == [] ==> AfterAll(r, rest) == FRESH;
        hide AfterAll;
      }
    }
  }

  /** Likewise an engine's swap-time estimate. */
  lemma {:induction false} RouterSecondsAreHistory(log: seq<(string, Swap)>, engine: string)
    ensures var seconds, own := SecondsAfter(log), Estimate(About(log, engine));
      && (engine in seconds <==> own.Some?)
      && (engine in seconds ==> seconds[engine] == own.value)
  {
    if log != [] {
      RouterSecondsAreHistory(log[..|log| - 1], engine);
      var own, rest := About(log, engine), About(log[..|log| - 1], engine);
      if log[|log| - 1].0 == engine { assert own[..|own| - 1] == rest; }
    }
  }

  /** The trailing failures reach the limit, and `now` is before the last of them plus the cooldown. */
  predicate Cools(r: Retry, history: seq<Report>, now: real) {
    Trailing(history) >= 1 && Trailing(history) >= r.threshold && now < history[|history| - 1].later + r.cooldown
  }

  /** A record is in cooldown exactly if its model's history says so. */
  lemma CoolingIsHistory(r: Retry, log: seq<(string, Report)>, model: string, now: real)
    requires now >= 0.0
    ensures var h := HealthAfter(r, log);
      (model in h && h[model].cooldownUntil > now) <==> Cools(r, About(log, model), now)
  {
    RouterHealthIsHistory(r, log, model);
    HealthIsHistory(r, About(log, model));
  }
}

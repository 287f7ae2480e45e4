/**
 The swap state machine of router/engines.py as a transition system.

 A task is one call of `acquire` or `force_swap`.  Its program counter names the
 await it is suspended in; everything between two awaits is one atomic step, and
 a failure or a cancellation is delivered only at an await.  The environment
 (engines, schedulers, timers) chooses the next event.
*/
module SwapMachine {
  import opened Totals
  import opened Wrappers

  type Key = string
  type Model = string

  /** `engines` is the engine table in declaration order; `loadPath` the API-swap engines that need an explicit load. */
  datatype Config = Config(engines: seq<Key>, loadPath: set<Key>)

  ghost predicate Distinct<T>(s: seq<T>) {
    forall i, j :: 0 <= i < j < |s| ==> s[i] != s[j]
  }

  ghost predicate ConfigOk(cfg: Config) {
    Distinct(cfg.engines)
  }

  function Table(cfg: Config): set<Key> {
    set k | k in cfg.engines
  }

  /** The engines a swap to `target` has to drain and free, in loop order. */
  function Others(engines: seq<Key>, target: Key): seq<Key> {
    if engines == [] then []
    else if engines[0] == target then Others(engines[1..], target)
    else [engines[0]] + Others(engines[1..], target)
  }

  // ---- tasks ----------------------------------------------------------------

  /**
   The locals of `_swap_to`: `todo` is what its loop has left; `expired` are the drains that timed out in
   this swap, and `settled` says that its memory wait is over.
  */
  datatype Swapping = Swapping(prev: Option<Key>, todo: seq<Key>, expired: set<Key>, settled: bool)

  datatype Outcome = Released | Swapped | EngineError | OtherError | Cancelled

  /** A drain: about to look at its counter, parked on the condition, or notified. */
  datatype Wait = Entering | Parked | Woken

  /** The awaits of `_swap_to`: the drain and free_vram of todo[0], the memory settle, ensure_started. */
  datatype SwapAwait = Draining(wait: Wait) | Freeing | Settling | Starting

  /** The awaits of `_ensure_model_loaded`. */
  datatype LoadAwait = Probing | Emptying(wait: Wait) | Loading

  datatype Pc =
    | Resolving                                  // engine_for
    | Queued                                     // _swap_lock
    | Swap(sw: Swapping, at: SwapAwait)
    | Load(step: LoadAwait)
    | Counting                                   // _inflight_cond, before the increment
    | Lease(evicted: bool, leaving: bool)        // acquire has returned; leaving: a release() is scheduled
    | Ended(outcome: Outcome)

  /** `counts` tells an acquire from a force_swap; `doomed` is a requested, not yet delivered cancellation. */
  datatype Task = Task(counts: bool, target: Key, model: Option<Model>, pc: Pc, doomed: bool)

  predicate HoldsLock(pc: Pc) {
    pc.Swap? || pc.Load? || pc.Counting?
  }

  predicate LeaseOn(t: Task, k: Key) {
    t.pc.Lease? && t.target == k
  }

  predicate Unfinished(pc: Pc) {
    !pc.Lease? && !pc.Ended?
  }

  ghost function LeaseIn(k: Key): Task -> nat {
    (t: Task) => if LeaseOn(t, k) then 1 else 0
  }

  /** The requests that hold `k`. */
  ghost function LeaseCount(ts: seq<Task>, k: Key): nat {
    Total(ts, LeaseIn(k))
  }

  /** A request on this engine needs an explicit, non-empty model. */
  predicate NeedsLoad(cfg: Config, t: Task) {
    t.target in cfg.loadPath && t.model.Some? && t.model.value != ""
  }

  // ---- state ----------------------------------------------------------------

  /**
   The manager's fields, the tasks, and the engines as the environment has them:
   `up` were started (or detected ready) and no free_vram has begun since;
   `gpu` may hold the GPU: ensure_started was called and no free_vram has returned since;
   `loaded` is what each engine has loaded.
  */
  datatype State = State(
    active: Option<Key>, gauge: Option<Key>, lock: Option<nat>, inflight: map<Key, nat>,
    begun: nat, recorded: nat, tasks: seq<Task>,
    up: set<Key>, gpu: set<Key>, loaded: map<Key, set<Model>>)

  function At(s: State, t: nat, pc: Pc): State
    requires t < |s.tasks|
  {
    s.(tasks := s.tasks[t := s.tasks[t].(pc := pc)])
  }

  function Wake(w: Wait): Wait {
    if w.Parked? then Woken else w
  }

  /** `notify_all`: every parked drain becomes runnable. */
  function Notified(t: Task): Task {
    match t.pc
    case Swap(sw, Draining(w)) => t.(pc := Swap(sw, Draining(Wake(w))))
    case Load(Emptying(w)) => t.(pc := Load(Emptying(Wake(w))))
    case _ => t
  }

  /** A drain of `k` gave up: requests still holding `k` lose their guarantee. */
  function Evict(t: Task, k: Key): Task {
    if LeaseOn(t, k) then t.(pc := t.pc.(evicted := true)) else t
  }

  function WakeAll(ts: seq<Task>): seq<Task> {
    seq(|ts|, i requires 0 <= i < |ts| => Notified(ts[i]))
  }

  function EvictAll(ts: seq<Task>, k: Key): seq<Task> {
    seq(|ts|, i requires 0 <= i < |ts| => Evict(ts[i], k))
  }

  // ---- atomic segments ------------------------------------------------------

  function EndHolding(s: State, t: nat, outcome: Outcome): State
    requires t < |s.tasks|
  {
    At(s, t, Ended(outcome)).(lock := None)
  }

  /** After the model is known to be loaded: count the request, or, for force_swap, return. */
  function AfterLoad(s: State, t: nat): State
    requires t < |s.tasks|
  {
    if s.tasks[t].counts then At(s, t, Counting) else EndHolding(s, t, Swapped)
  }

  function AfterActive(cfg: Config, s: State, t: nat): State
    requires t < |s.tasks|
  {
    if NeedsLoad(cfg, s.tasks[t]) then At(s, t, Load(Probing)) else AfterLoad(s, t)
  }

  /** `ensure_started` is called: from here the target may hold the GPU. */
  function CallStart(s: State, t: nat, sw: Swapping): State
    requires t < |s.tasks|
  {
    At(s, t, Swap(sw, Starting)).(gpu := s.gpu + {s.tasks[t].target})
  }

  /** The head of the swap loop, and what follows it. */
  function SwapNext(s: State, t: nat, sw: Swapping): State
    requires t < |s.tasks|
  {
    if sw.todo != [] then At(s, t, Swap(sw, Draining(Entering)))
    else if sw.prev.Some? && sw.prev.value != s.tasks[t].target then At(s, t, Swap(sw, Settling))
    else CallStart(s, t, sw)
  }

  /** The drain of todo[0] is over: clear the marker and the gauge, then call free_vram. */
  function CallFree(s: State, t: nat, sw: Swapping): State
    requires t < |s.tasks| && sw.todo != []
  {
    At(s, t, Swap(sw, Freeing)).(active := None, gauge := None, up := s.up - {sw.todo[0]})
  }

  function GotLock(cfg: Config, s: State, t: nat): State
    requires t < |s.tasks|
  {
    var target := s.tasks[t].target;
    var s1 := s.(lock := Some(t));
    if s.active != Some(target) then
      SwapNext(s1.(begun := s.begun + 1), t, Swapping(s.active, Others(cfg.engines, target), {}, false))
    else
      AfterActive(cfg, s1, t)
  }

  /** The drain task `t` is in, if any: the engine it waits for and how. */
  predicate InDrain(t: Task) {
    match t.pc
    case Swap(sw, Draining(_)) => sw.todo != []
    case Load(Emptying(_)) => true
    case _ => false
  }

  function DrainKey(t: Task): Key
    requires InDrain(t)
  {
    if t.pc.Swap? then t.pc.sw.todo[0] else t.target
  }

  function DrainWait(t: Task): Wait
    requires InDrain(t)
  {
    if t.pc.Swap? then t.pc.at.wait else t.pc.step.wait
  }

  /** The drain returns: clear the marker and free the engine, or issue the explicit load. */
  function Drained(s: State, t: nat, expired: set<Key>): State
    requires t < |s.tasks| && InDrain(s.tasks[t])
  {
    var pc := s.tasks[t].pc;
    if pc.Swap? then CallFree(s, t, pc.sw.(expired := pc.sw.expired + expired))
    else At(s, t, Load(Loading))
  }

  function Park(s: State, t: nat): State
    requires t < |s.tasks| && InDrain(s.tasks[t])
  {
    var pc := s.tasks[t].pc;
    if pc.Swap? then At(s, t, pc.(at := Draining(Parked))) else At(s, t, Load(Emptying(Parked)))
  }

  /** One look of a drain at its counter: go on when it is zero, park otherwise. */
  function DrainLook(s: State, t: nat): State
    requires t < |s.tasks| && InDrain(s.tasks[t]) && DrainKey(s.tasks[t]) in s.inflight
  {
    if s.inflight[DrainKey(s.tasks[t])] == 0 then Drained(s, t, {}) else Park(s, t)
  }

  /** The drain timer fires: proceed although requests may still be in flight. */
  function DrainExpire(s: State, t: nat): State
    requires t < |s.tasks| && InDrain(s.tasks[t])
  {
    var k := DrainKey(s.tasks[t]);
    var s1 := s.(tasks := EvictAll(s.tasks, k));
    assert s1.tasks[t] == s.tasks[t];
    Drained(s1, t, {k})
  }

  function FreeReturns(s: State, t: nat): State
    requires t < |s.tasks| && s.tasks[t].pc.Swap? && s.tasks[t].pc.sw.todo != []
  {
    var sw := s.tasks[t].pc.sw;
    SwapNext(s.(gpu := s.gpu - {sw.todo[0]}, loaded := s.loaded[sw.todo[0] := {}]),
             t, sw.(todo := sw.todo[1..]))
  }

  function StartReturns(cfg: Config, s: State, t: nat, models: set<Model>): State
    requires t < |s.tasks|
  {
    var k := s.tasks[t].target;
    var s1 := s.(active := Some(k), gauge := Some(k), recorded := s.recorded + 1, up := s.up + {k},
                 loaded := if k in s.up then s.loaded else s.loaded[k := models]);
    AfterActive(cfg, s1, t)
  }

  function ProbeReturns(s: State, t: nat, seen: set<Model>): State
    requires t < |s.tasks|
  {
    if s.tasks[t].model.Some? && s.tasks[t].model.value in seen then AfterLoad(s, t) else At(s, t, Load(Emptying(Entering)))
  }

  function LoadReturns(s: State, t: nat, models: set<Model>): State
    requires t < |s.tasks|
  {
    AfterLoad(s.(loaded := s.loaded[s.tasks[t].target := models]), t)
  }

  function CountIn(s: State, t: nat): State
    requires t < |s.tasks| && s.tasks[t].target in s.inflight
  {
    var k := s.tasks[t].target;
    At(s, t, Lease(false, false)).(inflight := s.inflight[k := s.inflight[k] + 1], lock := None)
  }

  /** What an interrupted free, start or load leaves loaded on the engine it was working on. */
  function LeftLoaded(s: State, t: nat, left: set<Model>): map<Key, set<Model>>
    requires t < |s.tasks|
  {
    match s.tasks[t].pc
    case Swap(sw, Freeing) => if sw.todo != [] then s.loaded[sw.todo[0] := left] else s.loaded
    case Swap(_, Starting) => if s.tasks[t].target in s.up then s.loaded else s.loaded[s.tasks[t].target := left]
    case Load(Loading) => s.loaded[s.tasks[t].target := left]
    case _ => s.loaded
  }

  /** An exception or a cancellation leaves the task at its current await. */
  function Break(s: State, t: nat, outcome: Outcome, left: set<Model>): State
    requires t < |s.tasks|
  {
    var pc := s.tasks[t].pc;
    var s1 := At(s, t, Ended(outcome)).(
      lock := if HoldsLock(pc) then None else s.lock,
      loaded := LeftLoaded(s, t, left));
    if pc.Swap? then s1.(active := None, gauge := None, recorded := s.recorded + 1) else s1
  }

  /** `release`: the guarded decrement, then notify_all. */
  function RunRelease(s: State, t: nat): State
    requires t < |s.tasks|
  {
    var k := s.tasks[t].target;
    var n := if k in s.inflight then s.inflight[k] else 0;
    At(s.(inflight := if n > 0 then s.inflight[k := n - 1] else s.inflight,
          tasks := WakeAll(s.tasks)),
       t, Ended(Released))
  }

  // ---- events ---------------------------------------------------------------

  datatype Event =
    | Spawn(counts: bool, model: Option<Model>)
    | SpawnOn(key: Key, model: Option<Model>)
    | Resolve(t: nat, key: Key)
    | Grant(t: nat)
    | Look(t: nat)
    | Expire(t: nat)
    | Freed(t: nat)
    | Settled(t: nat)
    | Started(t: nat, models: set<Model>)
    | Probed(t: nat, seen: set<Model>)
    | Loaded(t: nat, models: set<Model>)
    | Count(t: nat)
    | Fail(t: nat, other: bool, left: set<Model>)
    | Deliver(t: nat, left: set<Model>)
    | Doom(t: nat)
    | Release(t: nat)
    | Run(t: nat)

  /** The awaits whose callee can raise; a failed probe is swallowed and reads as "nothing loaded". */
  predicate CanFail(pc: Pc) {
    match pc
    case Resolving => true
    case Swap(_, at) => !at.Draining?
    case Load(step) => step.Loading?
    case _ => false
  }

  predicate Steps(s: State, t: nat) {
    t < |s.tasks| && !s.tasks[t].doomed
  }

  predicate Enabled(cfg: Config, s: State, e: Event) {
    match e
    case Spawn(_, _) => true
    case SpawnOn(k, _) => k in cfg.engines
    case Resolve(t, k) => Steps(s, t) && s.tasks[t].pc.Resolving? && k in cfg.engines
    case Grant(t) => Steps(s, t) && s.tasks[t].pc.Queued? && s.lock.None?
    case Look(t) =>
      Steps(s, t) && InDrain(s.tasks[t]) && !DrainWait(s.tasks[t]).Parked? && DrainKey(s.tasks[t]) in s.inflight
    case Expire(t) => Steps(s, t) && InDrain(s.tasks[t]) && !DrainWait(s.tasks[t]).Entering?
    case Freed(t) =>
      Steps(s, t) && s.tasks[t].pc.Swap? && s.tasks[t].pc.at.Freeing? && s.tasks[t].pc.sw.todo != []
    case Settled(t) => Steps(s, t) && s.tasks[t].pc.Swap? && s.tasks[t].pc.at.Settling?
    case Started(t, _) => Steps(s, t) && s.tasks[t].pc.Swap? && s.tasks[t].pc.at.Starting?
    case Probed(t, seen) =>
      Steps(s, t) && s.tasks[t].pc == Load(Probing) && s.tasks[t].target in s.loaded &&
      (seen == s.loaded[s.tasks[t].target] || seen == {})
    case Loaded(t, models) =>
      Steps(s, t) && s.tasks[t].pc == Load(Loading) && s.tasks[t].model.Some? && s.tasks[t].model.value in models
    case Count(t) => Steps(s, t) && s.tasks[t].pc.Counting? && s.tasks[t].target in s.inflight
    case Fail(t, _, _) => Steps(s, t) && CanFail(s.tasks[t].pc)
    case Deliver(t, _) => t < |s.tasks| && s.tasks[t].doomed && Unfinished(s.tasks[t].pc)
    case Doom(t) => Steps(s, t) && Unfinished(s.tasks[t].pc)
    case Release(t) => t < |s.tasks| && s.tasks[t].pc.Lease? && !s.tasks[t].pc.leaving
    case Run(t) => t < |s.tasks| && s.tasks[t].pc.Lease? && s.tasks[t].pc.leaving
  }

  function Apply(cfg: Config, s: State, e: Event): State
    requires Enabled(cfg, s, e)
  {
    match e
    case Spawn(counts, m) => s.(tasks := s.tasks + [Task(counts, "", m, Resolving, false)])
    case SpawnOn(k, m) => s.(tasks := s.tasks + [Task(false, k, m, Queued, false)])
    case Resolve(t, k) => s.(tasks := s.tasks[t := s.tasks[t].(target := k, pc := Queued)])
    case Grant(t) => GotLock(cfg, s, t)
    case Look(t) => DrainLook(s, t)
    case Expire(t) => DrainExpire(s, t)
    case Freed(t) => FreeReturns(s, t)
    case Settled(t) => CallStart(s, t, s.tasks[t].pc.sw.(settled := true))
    case Started(t, models) => StartReturns(cfg, s, t, models)
    case Probed(t, seen) => ProbeReturns(s, t, seen)
    case Loaded(t, models) => LoadReturns(s, t, models)
    case Count(t) => CountIn(s, t)
    case Fail(t, other, left) => Break(s, t, if other then OtherError else EngineError, left)
    case Deliver(t, left) => Break(s, t, Cancelled, left)
    case Doom(t) => s.(tasks := s.tasks[t := s.tasks[t].(doomed := true)])
    case Release(t) => At(s, t, s.tasks[t].pc.(leaving := true))
    case Run(t) => RunRelease(s, t)
  }

  // ---- runs -----------------------------------------------------------------

  /** The state `startup` leaves behind: one detected engine at most is marked, it is up, nothing is in flight. */
  ghost predicate Init(cfg: Config, s: State) {
    && s.tasks == [] && s.lock == None && s.begun == 0 && s.recorded == 0
    && s.gauge == s.active
    && s.inflight.Keys == Table(cfg)
    && (forall k :: k in s.inflight ==> s.inflight[k] == 0)
    && s.loaded.Keys == Table(cfg)
    && s.up <= s.gpu && s.gpu <= s.loaded.Keys
    && (s.active.Some? ==> s.active.value in s.up)
  }

  ghost predicate Legal(cfg: Config, s: State, es: seq<Event>)
    decreases |es|
  {
    es == [] || (Enabled(cfg, s, es[0]) && Legal(cfg, Apply(cfg, s, es[0]), es[1..]))
  }

  ghost function After(cfg: Config, s: State, es: seq<Event>): State
    requires Legal(cfg, s, es)
    decreases |es|
  {
    if es == [] then s else After(cfg, Apply(cfg, s, es[0]), es[1..])
  }
}

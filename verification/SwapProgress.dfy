/**
 A measure for the swap state machine: every step of a task, of the engines, of a timer and of a
 release lowers it, so only new calls can keep the machine busy.
*/
module SwapProgress {
  import opened Wrappers
  import opened Totals
  import opened SwapMachine
  import opened SwapInvariant
  import opened SwapSteps

  function WaitRank(w: Wait): nat {
    if w.Parked? then 0 else 1
  }

  /** Steps a pc is away from its end; `n` bounds the engines a swap can have to free. */
  function PcRank(n: nat, pc: Pc): nat {
    match pc
    case Resolving => 12 + 4 * n
    case Queued => 11 + 4 * n
    case Swap(sw, Draining(w)) => 8 + 4 * |sw.todo| + WaitRank(w)
    case Swap(sw, Freeing) => 7 + 4 * |sw.todo|
    case Swap(_, Settling) => 10
    case Swap(_, Starting) => 9
    case Load(Probing) => 8
    case Load(Emptying(w)) => 6 + WaitRank(w)
    case Load(Loading) => 5
    case Counting => 4
    case Lease(_, leaving) => if leaving then 2 else 3
    case Ended(_) => 0
  }

  function Rank(n: nat, t: Task): nat {
    PcRank(n, t.pc) + (if Unfinished(t.pc) && !t.doomed then 1 else 0)
  }

  ghost function RankIn(n: nat): Task -> nat {
    (t: Task) => Rank(n, t)
  }

  ghost function Work(cfg: Config, s: State): nat {
    Total(s.tasks, RankIn(|cfg.engines|))
  }

  predicate IsSpawn(e: Event) {
    e.Spawn? || e.SpawnOn?
  }

  /** The call a new task stands for, in steps. */
  function NewRank(cfg: Config): nat {
    13 + 4 * |cfg.engines|
  }

  lemma {:induction false} OthersShorter(engines: seq<Key>, target: Key)
    ensures |Others(engines, target)| <= |engines|
  {
    if engines != [] { OthersShorter(engines[1..], target); }
  }

  /** One task moved down, the others stayed. */
  lemma OneLowers(cfg: Config, s: State, s': State, t: nat)
    requires t < |s.tasks| && |s'.tasks| == |s.tasks| && s'.tasks == s.tasks[t := s'.tasks[t]]
    requires Rank(|cfg.engines|, s'.tasks[t]) < Rank(|cfg.engines|, s.tasks[t])
    ensures Work(cfg, s') < Work(cfg, s)
  {
    TotalUpdate(s.tasks, RankIn(|cfg.engines|), t, s'.tasks[t]);
  }

  lemma GrantLowers(cfg: Config, s: State, t: nat)
    requires t < |s.tasks| && s.tasks[t].pc.Queued? && !s.tasks[t].doomed
    ensures Work(cfg, GotLock(cfg, s, t)) < Work(cfg, s)
  {
    OthersShorter(cfg.engines, s.tasks[t].target);
    OneLowers(cfg, s, GotLock(cfg, s, t), t);
  }

  lemma FreedLowers(cfg: Config, s: State, t: nat)
    requires Steps(s, t) && s.tasks[t].pc.Swap? && s.tasks[t].pc.at.Freeing? && s.tasks[t].pc.sw.todo != []
    ensures Work(cfg, FreeReturns(s, t)) < Work(cfg, s)
  {
    OneLowers(cfg, s, FreeReturns(s, t), t);
  }

  lemma LookLowers(cfg: Config, s: State, t: nat)
    requires Steps(s, t) && InDrain(s.tasks[t]) && !DrainWait(s.tasks[t]).Parked? && DrainKey(s.tasks[t]) in s.inflight
    ensures Work(cfg, DrainLook(s, t)) < Work(cfg, s)
  {
    OneLowers(cfg, s, DrainLook(s, t), t);
  }

  /** Evicting holders costs nothing; the drain itself moves on. */
  lemma ExpireLowers(cfg: Config, s: State, t: nat)
    requires Steps(s, t) && InDrain(s.tasks[t])
    ensures Work(cfg, DrainExpire(s, t)) < Work(cfg, s)
  {
    var k := DrainKey(s.tasks[t]);
    var s1 := s.(tasks := EvictAll(s.tasks, k));
    assert s1.tasks[t] == s.tasks[t];
    TotalAgrees(s.tasks, s1.tasks, RankIn(|cfg.engines|));
    OneLowers(cfg, s1, Drained(s1, t, {k}), t);
  }

  /** Waking everybody wakes at most the lock holder. */
  lemma WakingCostsOne(s: State, f: Task -> nat, n: nat)
    requires LockOk(s) && f == RankIn(n)
    ensures Total(WakeAll(s.tasks), f) <= Total(s.tasks, f) + 1
  {
    var woken := WakeAll(s.tasks);
    assert forall i :: 0 <= i < |s.tasks| && s.lock != Some(i) ==> !HoldsLock(s.tasks[i].pc) && woken[i] == s.tasks[i];
    if s.lock.Some? {
      var l := s.lock.value;
      assert woken == s.tasks[l := woken[l]];
      TotalUpdate(s.tasks, f, l, woken[l]);
    } else {
      assert woken == s.tasks;
    }
  }

  /** A release may make the one parked drain look again, which it pays for. */
  lemma RunLowers(cfg: Config, s: State, t: nat)
    requires LockOk(s) && t < |s.tasks| && s.tasks[t].pc.Lease? && s.tasks[t].pc.leaving
    ensures Work(cfg, RunRelease(s, t)) < Work(cfg, s)
  {
    hide LockOk;
    var f := RankIn(|cfg.engines|);
    WakingCostsOne(s, f, |cfg.engines|);
    var woken := WakeAll(s.tasks);
    assert woken[t] == s.tasks[t];
    TotalUpdate(woken, f, t, s.tasks[t].(pc := Ended(Released)));
  }

  lemma TailLowers(cfg: Config, s: State, e: Event)
    requires Enabled(cfg, s, e) && (e.Settled? || e.Started? || e.Probed? || e.Loaded? || e.Count?)
    ensures Work(cfg, Apply(cfg, s, e)) < Work(cfg, s)
  {
    var s' := Apply(cfg, s, e);
    assert s'.tasks[e.t := s.tasks[e.t]] == s.tasks;
    OneLowers(cfg, s, s', e.t);
  }

  lemma BreakLowers(cfg: Config, s: State, t: nat, outcome: Outcome, left: set<Model>)
    requires t < |s.tasks| && Unfinished(s.tasks[t].pc)
    ensures Work(cfg, Break(s, t, outcome, left)) < Work(cfg, s)
  {
    OneLowers(cfg, s, Break(s, t, outcome, left), t);
  }

  /** Every event except a new call lowers the measure; a new call raises it by a constant. */
  lemma StepLowers(cfg: Config, s: State, e: Event)
    requires Inv(cfg, s) && Enabled(cfg, s, e)
    ensures !IsSpawn(e) ==> Work(cfg, Apply(cfg, s, e)) < Work(cfg, s)
    ensures IsSpawn(e) ==> Work(cfg, Apply(cfg, s, e)) <= Work(cfg, s) + NewRank(cfg)
  {
    hide GotLock, DrainLook, DrainExpire, FreeReturns, Break, RunRelease;
    match e
    case Spawn(_, _) => TotalPush(s.tasks, RankIn(|cfg.engines|), Apply(cfg, s, e).tasks[|s.tasks|]);
    case SpawnOn(_, _) => TotalPush(s.tasks, RankIn(|cfg.engines|), Apply(cfg, s, e).tasks[|s.tasks|]);
    case Grant(t) => GrantLowers(cfg, s, t);
    case Look(t) => LookLowers(cfg, s, t);
    case Expire(t) => ExpireLowers(cfg, s, t);
    case Freed(t) => FreedLowers(cfg, s, t);
    case Fail(t, other, left) => BreakLowers(cfg, s, t, if other then OtherError else EngineError, left);
    case Deliver(t, left) => BreakLowers(cfg, s, t, Cancelled, left);
    case Run(t) => RunLowers(cfg, s, t);
    case Resolve(t, _) => OneLowers(cfg, s, Apply(cfg, s, e), t);
    case Doom(t) => OneLowers(cfg, s, Apply(cfg, s, e), t);
    case Release(t) => OneLowers(cfg, s, Apply(cfg, s, e), t);
    case _ => TailLowers(cfg, s, e);
  }

  // ---- somebody can always move ---------------------------------------------

  /** Neither a timer nor a failure nor a new call. */
  predicate Cooperative(e: Event) {
    !IsSpawn(e) && !e.Expire? && !e.Fail? && !e.Doom? && !e.Release?
  }

  /** The event an unfinished task outside the lock queue and outside a parked drain is waiting for. */
  function Awaited(cfg: Config, s: State, t: nat): Event
    requires t < |s.tasks| && cfg.engines != []
  {
    var task := s.tasks[t];
    if task.doomed && Unfinished(task.pc) then Deliver(t, {})
    else match task.pc
      case Resolving => Resolve(t, cfg.engines[0])
      case Queued => Grant(t)
      case Swap(_, Draining(_)) => Look(t)
      case Swap(_, Freeing) => Freed(t)
      case Swap(_, Settling) => Settled(t)
      case Swap(_, Starting) => Started(t, {})
      case Load(Probing) => Probed(t, {})
      case Load(Emptying(_)) => Look(t)
      case Load(Loading) => Loaded(t, if task.model.Some? then {task.model.value} else {})
      case Counting => Count(t)
      case Lease(_, _) => Run(t)
      case Ended(_) => Run(t)
  }

  /** Task `t` is parked in a drain, and some request holds the engine it drains. */
  ghost predicate HeldUp(s: State, t: nat)
    requires t < |s.tasks|
  {
    var task := s.tasks[t];
    && InDrain(task) && DrainWait(task).Parked?
    && exists j :: 0 <= j < |s.tasks| && LeaseOn(s.tasks[j], DrainKey(task))
  }

  /** A drain looks at its counter, unless it is parked with something to wait for. */
  lemma DrainCanMove(cfg: Config, s: State, t: nat)
    requires Inv(cfg, s) && s.lock == Some(t) && t < |s.tasks| && InDrain(s.tasks[t]) && !s.tasks[t].doomed
    ensures Enabled(cfg, s, Look(t)) || HeldUp(s, t)
  {
    var task := s.tasks[t];
    assert HolderAt(cfg, s, task);
    if task.pc.Swap? { InTable(cfg, s, task, task.pc.sw); }
    if DrainWait(task).Parked? {
      assert Busy(s, DrainKey(task));
      LeaseCountZero(s.tasks, DrainKey(task));
    }
  }

  lemma LoadCanMove(cfg: Config, s: State, t: nat)
    requires Inv(cfg, s) && s.lock == Some(t) && t < |s.tasks| && s.tasks[t].pc.Load? && !s.tasks[t].doomed
    requires cfg.engines != []
    ensures Enabled(cfg, s, Awaited(cfg, s, t)) || HeldUp(s, t)
  {
    assert HolderAt(cfg, s, s.tasks[t]);
    if s.tasks[t].pc.step.Emptying? { DrainCanMove(cfg, s, t); }
  }

  lemma SwapCanMove(cfg: Config, s: State, t: nat)
    requires Inv(cfg, s) && s.lock == Some(t) && t < |s.tasks| && s.tasks[t].pc.Swap? && !s.tasks[t].doomed
    requires cfg.engines != []
    ensures Enabled(cfg, s, Awaited(cfg, s, t)) || HeldUp(s, t)
  {
    var sw, at := s.tasks[t].pc.sw, s.tasks[t].pc.at;
    assert SwapAt(s, s.tasks[t], sw, at) by { assert HolderAt(cfg, s, s.tasks[t]); }
    hide Inv;
    if at.Draining? { DrainCanMove(cfg, s, t); }
  }

  /** The lock holder can take a step unless it is parked in a drain whose engine is still held. */
  lemma HolderCanMove(cfg: Config, s: State, t: nat)
    requires Inv(cfg, s) && s.lock == Some(t) && cfg.engines != []
    ensures t < |s.tasks| && (Enabled(cfg, s, Awaited(cfg, s, t)) || HeldUp(s, t))
  {
    var task := s.tasks[t];
    assert HoldsLock(task.pc);
    if task.doomed {
    } else if task.pc.Swap? {
      SwapCanMove(cfg, s, t);
    } else if task.pc.Load? {
      LoadCanMove(cfg, s, t);
    } else {
      assert HolderAt(cfg, s, task);
    }
  }

  /**
   The lock order is free of deadlock: if some call has not ended, then some call can take a step
   without any timer firing, or some request holds an engine, and a holder never waits for the lock.
  */
  lemma SomebodyCanMove(cfg: Config, s: State, t: nat)
    requires Inv(cfg, s) && cfg.engines != [] && t < |s.tasks| && Unfinished(s.tasks[t].pc)
    ensures (exists u: nat :: u < |s.tasks| && Unfinished(s.tasks[u].pc) && Enabled(cfg, s, Awaited(cfg, s, u)))
         || exists j :: 0 <= j < |s.tasks| && s.tasks[j].pc.Lease?
  {
    if s.lock.Some? {
      HolderCanMove(cfg, s, s.lock.value);
      assert HoldsLock(s.tasks[s.lock.value].pc);
    } else {
      assert !HoldsLock(s.tasks[t].pc);
      assert Enabled(cfg, s, Awaited(cfg, s, t));
    }
  }
}

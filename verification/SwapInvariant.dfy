/**
 The invariant of the swap state machine, and the proof that every event keeps it.
*/
module SwapInvariant {
  import opened Wrappers
  import opened SwapMachine

  // ---- the invariant --------------------------------------------------------

  /** Inside a swap: the marker is not the target, and whatever the loop has passed is freed. */
  ghost predicate SwapOk(cfg: Config, active: Option<Key>, gpu: set<Key>, target: Key, sw: Swapping) {
    var others := Others(cfg.engines, target);
    && |sw.todo| <= |others| && sw.todo == others[|others| - |sw.todo|..]
    && sw.prev != Some(target)
    && (forall j :: 0 <= j < |others| - |sw.todo| ==> others[j] !in gpu)
    && (active.Some? ==> |sw.todo| == |others| && sw.prev == active && active.value != target)
  }

  /** What is known while the lock holder is suspended where it is. */
  ghost predicate HolderAt(cfg: Config, s: State, t: Task) {
    match t.pc
    case Swap(sw, at) => SwapOk(cfg, s.active, s.gpu, t.target, sw) && SwapAt(s, t, sw, at)
    case Load(step) => LoadOk(cfg, s, t) && LoadAt(s, t, step)
    case Counting => t.counts && s.active == Some(t.target) && Served(cfg, s, t)
    case _ => true
  }

  ghost predicate SwapAt(s: State, t: Task, sw: Swapping, at: SwapAwait) {
    && (at.Draining? || s.active.None?)
    && (sw.todo != [] <==> at.Draining? || at.Freeing?)
    && (at.Draining? && at.wait.Parked? ==> Busy(s, sw.todo[0]))
    && (at.Freeing? ==>
          && sw.todo[0] !in s.up && sw.todo[0] in s.inflight
          && (s.inflight[sw.todo[0]] == 0 || sw.todo[0] in sw.expired))
    && (at.Starting? ==> t.target in s.gpu && (sw.prev.Some? ==> sw.settled))
  }

  ghost predicate LoadAt(s: State, t: Task, step: LoadAwait) {
    && (step.Emptying? && step.wait.Parked? ==> Busy(s, t.target))
    && (step.Loading? ==> AllEvicted(s, t.target))
  }

  /** No lost wake-up: a parked, un-notified drain still has something to wait for. */
  ghost predicate Busy(s: State, k: Key) {
    k in s.inflight && s.inflight[k] > 0
  }

  ghost predicate LoadOk(cfg: Config, s: State, t: Task) {
    NeedsLoad(cfg, t) && s.active == Some(t.target)
  }

  /** Whoever still holds `k` had its drain time out. */
  ghost predicate AllEvicted(s: State, k: Key) {
    forall j :: 0 <= j < |s.tasks| && LeaseOn(s.tasks[j], k) ==> s.tasks[j].pc.evicted
  }

  /** The model the request asked for is loaded, where loading is the router's job. */
  ghost predicate Served(cfg: Config, s: State, t: Task) {
    NeedsLoad(cfg, t) ==> t.target in s.loaded && t.model.value in s.loaded[t.target]
  }

  /** A request that holds its engine finds it up, with its model, unless a drain of that engine timed out. */
  ghost predicate LeaseOk(cfg: Config, s: State, t: Task)
    requires t.pc.Lease?
  {
    t.counts && (!t.pc.evicted ==> t.target in s.up && Served(cfg, s, t))
  }

  ghost predicate LeasesOk(cfg: Config, s: State) {
    forall i :: 0 <= i < |s.tasks| && s.tasks[i].pc.Lease? ==> LeaseOk(cfg, s, s.tasks[i])
  }

  ghost predicate TargetsOk(cfg: Config, s: State) {
    forall i :: 0 <= i < |s.tasks| && !s.tasks[i].pc.Resolving? && !s.tasks[i].pc.Ended? ==>
                  s.tasks[i].target in cfg.engines
  }

  ghost predicate HolderOk(cfg: Config, s: State) {
    s.lock.Some? ==> s.lock.value < |s.tasks| && HolderAt(cfg, s, s.tasks[s.lock.value])
  }

  ghost predicate LockOk(s: State) {
    && (s.lock.Some? ==> s.lock.value < |s.tasks|)
    && (forall i :: 0 <= i < |s.tasks| ==> (HoldsLock(s.tasks[i].pc) <==> s.lock == Some(i)))
  }

  ghost predicate CountOk(cfg: Config, s: State) {
    && s.inflight.Keys == Table(cfg)
    && (forall k :: k in s.inflight ==> s.inflight[k] == LeaseCount(s.tasks, k))
  }

  ghost predicate EnvOk(cfg: Config, s: State) {
    && s.loaded.Keys == Table(cfg)
    && s.up <= s.gpu && s.gpu <= s.loaded.Keys
    && (s.active.Some? ==> s.active.value in s.up)
    && s.gauge == s.active
  }

  ghost predicate Swapping?(s: State) {
    s.lock.Some? && s.lock.value < |s.tasks| && s.tasks[s.lock.value].pc.Swap?
  }

  ghost predicate RecordOk(s: State) {
    s.begun == s.recorded + (if Swapping?(s) then 1 else 0)
  }

  ghost predicate Inv(cfg: Config, s: State) {
    && ConfigOk(cfg) && LockOk(s) && CountOk(cfg, s) && EnvOk(cfg, s) && RecordOk(s)
    && TargetsOk(cfg, s) && LeasesOk(cfg, s) && HolderOk(cfg, s)
  }

  // ---- counting leases ------------------------------------------------------

  lemma {:induction false} LeaseCountZero(ts: seq<Task>, k: Key)
    ensures LeaseCount(ts, k) == 0 <==> forall i :: 0 <= i < |ts| ==> !LeaseOn(ts[i], k)
    decreases |ts|
  {
    if ts != [] {
      var us := ts[..|ts| - 1];
      LeaseCountZero(us, k);
      assert forall i :: 0 <= i < |us| ==> us[i] == ts[i];
    }
  }

  // ---- the loop's engine list -----------------------------------------------

  lemma {:induction false} OthersContent(engines: seq<Key>, target: Key, k: Key)
    ensures k in Others(engines, target) <==> k in engines && k != target
  {
    if engines != [] { OthersContent(engines[1..], target, k); }
  }

  lemma {:induction false} OthersDistinct(engines: seq<Key>, target: Key)
    requires Distinct(engines)
    ensures Distinct(Others(engines, target))
  {
    if engines != [] {
      OthersDistinct(engines[1..], target);
      OthersContent(engines[1..], target, engines[0]);
      assert forall j :: 0 < j < |engines| ==> engines[1..][j - 1] == engines[j];
    }
  }
}

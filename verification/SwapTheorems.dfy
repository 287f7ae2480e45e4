/** What the invariant means for whole runs of the swap state machine. */
module SwapTheorems {
  import opened Totals
  import opened Wrappers
  import opened SwapMachine
  import opened SwapInvariant
  import opened SwapSteps

  // ---- requests and the engines they hold -----------------------------------

  /** While free_vram(k) runs, either nobody holds k, or the drain of k timed out in that very swap. */
  lemma NeverFreedUnderARequest(cfg: Config, s: State, es: seq<Event>, i: nat)
    requires ConfigOk(cfg) && Init(cfg, s) && Legal(cfg, s, es)
    requires var s' := After(cfg, s, es); i < |s'.tasks| && s'.tasks[i].pc.Swap? && s'.tasks[i].pc.at.Freeing?
    ensures var s' := After(cfg, s, es);
      var sw := s'.tasks[i].pc.sw;
      && sw.todo != []
      && (sw.todo[0] in sw.expired || forall j :: 0 <= j < |s'.tasks| ==> !LeaseOn(s'.tasks[j], sw.todo[0]))
  {
    InitHolds(cfg, s);
    Reachable(cfg, s, es);
    var s' := After(cfg, s, es);
    assert s'.lock == Some(i) && HolderAt(cfg, s', s'.tasks[i]);
    LeaseCountZero(s'.tasks, s'.tasks[i].pc.sw.todo[0]);
  }

  /** Task `t` is inside free_vram(k). */
  ghost predicate Freed?(t: Task, k: Key) {
    t.pc.Swap? && t.pc.at.Freeing? && t.pc.sw.todo != [] && t.pc.sw.todo[0] == k
  }

  /** The run contains no timed-out drain of `k`. */
  ghost predicate NeverExpires(cfg: Config, s: State, es: seq<Event>, k: Key)
    requires Legal(cfg, s, es)
    decreases |es|
  {
    es != [] ==>
      && (es[0].Expire? ==> DrainKey(s.tasks[es[0].t]) != k)
      && NeverExpires(cfg, Apply(cfg, s, es[0]), es[1..], k)
  }

  /** Task `i` holds `k` in `s`, but a drain of `k` has already timed out on it. */
  ghost predicate EvictedHolder(s: State, i: nat, k: Key) {
    i < |s.tasks| && LeaseOn(s.tasks[i], k) && s.tasks[i].pc.evicted
  }

  /** From `s0` on nobody has lost `k`: its holders have released it or hold it still, and nobody else was evicted from it. */
  ghost predicate Guarded(s0: State, s: State, k: Key) {
    && |s0.tasks| <= |s.tasks|
    && (forall i :: 0 <= i < |s0.tasks| && LeaseOn(s0.tasks[i], k) ==> EndedOrHolds(s.tasks[i], k, s0.tasks[i].model))
    && (forall i :: 0 <= i < |s.tasks| && EvictedHolder(s, i, k) ==> EvictedHolder(s0, i, k))
  }

  predicate EndedOrHolds(t: Task, k: Key, m: Option<Model>) {
    t.pc.Ended? || (LeaseOn(t, k) && t.model == m)
  }

  /** `t'` is what a step makes of `t` as far as holders of `k` are concerned. */
  ghost predicate TaskGuarded(t: Task, t': Task, k: Key) {
    && (t.pc.Ended? ==> t'.pc.Ended?)
    && (LeaseOn(t, k) ==> EndedOrHolds(t', k, t.model))
    && (LeaseOn(t', k) && t'.pc.evicted ==> LeaseOn(t, k) && t.pc.evicted)
  }

  lemma StepGuardsTasks(cfg: Config, s: State, e: Event, k: Key, i: nat)
    requires Enabled(cfg, s, e) && i < |s.tasks|
    requires e.Expire? ==> DrainKey(s.tasks[e.t]) != k
    ensures var s' := Apply(cfg, s, e); |s.tasks| <= |s'.tasks| && TaskGuarded(s.tasks[i], s'.tasks[i], k)
  {
    hide GotLock, DrainLook, FreeReturns, StartReturns, ProbeReturns, LoadReturns, CountIn;
    if Moving(e) && !e.Expire? {
      hide Apply;
      MoveShape(cfg, s, e);
      MovesOnLock(cfg, s, e);
    }
  }

  /** Whoever moves under the lock, or counts itself in, held no engine before. */
  lemma MovesOnLock(cfg: Config, s: State, e: Event)
    requires Enabled(cfg, s, e) && Moving(e)
    ensures Unfinished(s.tasks[e.t].pc)
  {
  }

  lemma NewTasksHoldNothing(cfg: Config, s: State, e: Event, i: nat)
    requires Enabled(cfg, s, e)
    ensures var s' := Apply(cfg, s, e);
      |s.tasks| <= |s'.tasks| && (|s.tasks| <= i < |s'.tasks| ==> !s'.tasks[i].pc.Lease?)
  {
    hide GotLock, DrainLook, FreeReturns, StartReturns, ProbeReturns, LoadReturns, CountIn;
    if Moving(e) && !e.Expire? {
      hide Apply;
      MoveShape(cfg, s, e);
    }
  }

  lemma StepGuards(cfg: Config, s0: State, s: State, e: Event, k: Key)
    requires Enabled(cfg, s, e) && Guarded(s0, s, k)
    requires e.Expire? ==> DrainKey(s.tasks[e.t]) != k
    ensures Guarded(s0, Apply(cfg, s, e), k)
  {
    var s' := Apply(cfg, s, e);
    hide Apply, Enabled;
    NewTasksHoldNothing(cfg, s, e, 0);
    forall i | 0 <= i < |s0.tasks| && LeaseOn(s0.tasks[i], k)
      ensures EndedOrHolds(s'.tasks[i], k, s0.tasks[i].model)
    {
      StepGuardsTasks(cfg, s, e, k, i);
      assert EndedOrHolds(s.tasks[i], k, s0.tasks[i].model);
    }
    forall i | 0 <= i < |s'.tasks| && EvictedHolder(s', i, k)
      ensures EvictedHolder(s0, i, k)
    {
      NewTasksHoldNothing(cfg, s, e, i);
      StepGuardsTasks(cfg, s, e, k, i);
      assert EvictedHolder(s, i, k);
    }
  }

  lemma {:induction false} RunGuards(cfg: Config, s0: State, s: State, es: seq<Event>, k: Key)
    requires Legal(cfg, s, es) && Guarded(s0, s, k) && NeverExpires(cfg, s, es, k)
    ensures Guarded(s0, After(cfg, s, es), k)
    decreases |es|
  {
    if es != [] {
      StepGuards(cfg, s0, s, es[0], k);
      RunGuards(cfg, s0, Apply(cfg, s, es[0]), es[1..], k);
    }
  }

  /**
   From any state on, and for as long as no drain of `k` times out: whoever holds `k` has released it or still holds it
   for the same model; and whoever holds it, unless evicted before, has it up, is not having it freed and, on a
   load_path engine, has the model it asked for.
  */
  lemma HoldersKeepTheirEngine(cfg: Config, s: State, es: seq<Event>, k: Key)
    requires Inv(cfg, s) && Legal(cfg, s, es) && NeverExpires(cfg, s, es, k)
    ensures var s' := After(cfg, s, es);
      && |s.tasks| <= |s'.tasks|
      && (forall i :: 0 <= i < |s.tasks| && LeaseOn(s.tasks[i], k) ==> EndedOrHolds(s'.tasks[i], k, s.tasks[i].model))
      && (forall i :: 0 <= i < |s'.tasks| && LeaseOn(s'.tasks[i], k) && !EvictedHolder(s, i, k) ==>
            && k in s'.up && Served(cfg, s', s'.tasks[i])
            && forall j :: 0 <= j < |s'.tasks| ==> !Freed?(s'.tasks[j], k))
  {
    RunGuards(cfg, s, s, es, k);
    Reachable(cfg, s, es);
    var s' := After(cfg, s, es);
    forall i | 0 <= i < |s'.tasks| && LeaseOn(s'.tasks[i], k) && !EvictedHolder(s, i, k)
      ensures k in s'.up && Served(cfg, s', s'.tasks[i])
      ensures forall j :: 0 <= j < |s'.tasks| ==> !Freed?(s'.tasks[j], k)
    {
      assert !EvictedHolder(s', i, k);
      HeldIsNotFreed(cfg, s', i);
    }
  }

  /** What a holder that was not evicted holds is up, served and not being freed. */
  lemma HeldIsNotFreed(cfg: Config, s: State, i: nat)
    requires Inv(cfg, s) && i < |s.tasks| && s.tasks[i].pc.Lease? && !s.tasks[i].pc.evicted
    ensures s.tasks[i].target in s.up && Served(cfg, s, s.tasks[i])
    ensures forall j :: 0 <= j < |s.tasks| ==> !Freed?(s.tasks[j], s.tasks[i].target)
  {
    forall j | 0 <= j < |s.tasks|
      ensures !Freed?(s.tasks[j], s.tasks[i].target)
    {
      if s.tasks[j].pc.Swap? {
        assert s.lock == Some(j) && HolderAt(cfg, s, s.tasks[j]);
      }
    }
  }

  /**
   From the return of acquire to the release: whatever happened before, a request that acquires its engine keeps it up,
   with its model, until it releases it, as long as no drain of that engine times out meanwhile.
  */
  lemma FromAcquireToRelease(cfg: Config, s: State, es: seq<Event>, t: nat, fs: seq<Event>)
    requires ConfigOk(cfg) && Init(cfg, s) && Legal(cfg, s, es) && Enabled(cfg, After(cfg, s, es), Count(t))
    requires var s1 := Apply(cfg, After(cfg, s, es), Count(t));
      Legal(cfg, s1, fs) && NeverExpires(cfg, s1, fs, s1.tasks[t].target)
    ensures var s1 := Apply(cfg, After(cfg, s, es), Count(t));
      var task, s' := s1.tasks[t], After(cfg, s1, fs);
      && t < |s'.tasks|
      && (s'.tasks[t].pc.Ended?
          || (LeaseOn(s'.tasks[t], task.target) && s'.tasks[t].model == task.model
              && task.target in s'.up && Served(cfg, s', s'.tasks[t])
              && forall j :: 0 <= j < |s'.tasks| ==> !Freed?(s'.tasks[j], task.target)))
  {
    InitHolds(cfg, s);
    Reachable(cfg, s, es);
    var s0 := After(cfg, s, es);
    AcquireReturnsReady(cfg, s0, t);
    StepKeeps(cfg, s0, Count(t));
    var s1 := Apply(cfg, s0, Count(t));
    hide Inv, Apply, Init;
    HoldersKeepTheirEngine(cfg, s1, fs, s1.tasks[t].target);
  }

  /** The step by which acquire returns: the engine is marked active, up, and has the model. */
  lemma AcquireReturnsReady(cfg: Config, s: State, t: nat)
    requires Inv(cfg, s) && Enabled(cfg, s, Count(t))
    ensures var s' := Apply(cfg, s, Count(t));
      && s'.active == Some(s'.tasks[t].target) && s'.tasks[t].target in s'.up && Served(cfg, s', s'.tasks[t])
      && s'.tasks[t].pc == Lease(false, false) && s'.lock == None
    ensures var s', task := Apply(cfg, s, Count(t)), s.tasks[t];
      task.target in cfg.loadPath && task.model.Some? && task.model.value != "" ==>
        task.target in s'.loaded && task.model.value in s'.loaded[task.target]
  {
  }

  // ---- residency ------------------------------------------------------------

  ghost predicate AtMostOne(ks: set<Key>) {
    forall a, b :: a in ks && b in ks ==> a == b
  }

  ghost predicate SomeStarting(s: State) {
    exists i :: 0 <= i < |s.tasks| && s.tasks[i].pc.Swap? && s.tasks[i].pc.at.Starting?
  }

  /**
   When ensure_started runs, no other engine can be holding the GPU: every free_vram of this swap has
   returned; and if an engine was active before, the memory wait is over.
  */
  lemma StartingIsAlone(cfg: Config, s: State, i: nat)
    requires Inv(cfg, s) && i < |s.tasks| && s.tasks[i].pc.Swap? && s.tasks[i].pc.at.Starting?
    ensures s.gpu == {s.tasks[i].target}
    ensures s.tasks[i].pc.sw.todo == [] && (s.tasks[i].pc.sw.prev.Some? ==> s.tasks[i].pc.sw.settled)
  {
    assert s.lock == Some(i) && HolderAt(cfg, s, s.tasks[i]);
    var others := Others(cfg.engines, s.tasks[i].target);
    forall k | k in s.gpu
      ensures k == s.tasks[i].target
    {
      OthersContent(cfg.engines, s.tasks[i].target, k);
    }
  }

  /** Only the call of ensure_started puts an engine on the GPU. */
  lemma OnlyStartsGrow(cfg: Config, s: State, e: Event)
    requires Enabled(cfg, s, e)
    ensures var s' := Apply(cfg, s, e); s'.gpu <= s.gpu || SomeStarting(s')
  {
    var s' := Apply(cfg, s, e);
    if e.Grant? || e.Freed? || e.Settled? {
      assert s'.gpu <= s.gpu || (s'.tasks[e.t].pc.Swap? && s'.tasks[e.t].pc.at.Starting?);
    }
  }

  lemma StepKeepsSingle(cfg: Config, s: State, e: Event)
    requires Inv(cfg, s) && Enabled(cfg, s, e) && AtMostOne(s.gpu)
    ensures AtMostOne(Apply(cfg, s, e).gpu)
  {
    var s' := Apply(cfg, s, e);
    StepKeeps(cfg, s, e);
    OnlyStartsGrow(cfg, s, e);
    hide Apply, Enabled, Inv;
    if !(s'.gpu <= s.gpu) {
      var i :| 0 <= i < |s'.tasks| && s'.tasks[i].pc.Swap? && s'.tasks[i].pc.at.Starting?;
      StartingIsAlone(cfg, s', i);
    }
  }

  lemma {:induction false} RunKeepsSingle(cfg: Config, s: State, es: seq<Event>)
    requires Inv(cfg, s) && Legal(cfg, s, es) && AtMostOne(s.gpu)
    ensures AtMostOne(After(cfg, s, es).gpu)
    decreases |es|
  {
    if es != [] {
      StepKeeps(cfg, s, es[0]);
      StepKeepsSingle(cfg, s, es[0]);
      RunKeepsSingle(cfg, Apply(cfg, s, es[0]), es[1..]);
    }
  }

  /**
   Single residency.  From a start with at most one engine on the GPU there is never a second one;
   from any start there is at most one ever after the first call of ensure_started.
  */
  lemma SingleResidency(cfg: Config, s: State, es: seq<Event>, fs: seq<Event>)
    requires ConfigOk(cfg) && Init(cfg, s) && Legal(cfg, s, es) && Legal(cfg, After(cfg, s, es), fs)
    requires AtMostOne(s.gpu) || SomeStarting(After(cfg, s, es))
    ensures AtMostOne(After(cfg, After(cfg, s, es), fs).gpu)
  {
    hide Inv, Init;
    InitHolds(cfg, s);
    Reachable(cfg, s, es);
    var s1 := After(cfg, s, es);
    if AtMostOne(s.gpu) {
      RunKeepsSingle(cfg, s, es);
    } else {
      var i :| 0 <= i < |s1.tasks| && s1.tasks[i].pc.Swap? && s1.tasks[i].pc.at.Starting?;
      StartingIsAlone(cfg, s1, i);
    }
    RunKeepsSingle(cfg, s1, fs);
  }

  // ---- marker, gauge, records -----------------------------------------------

  /** Event `e` ends an ensure_started of `k` by a failure or a cancellation. */
  ghost predicate BreaksStart(s: State, e: Event, k: Key) {
    (e.Fail? || e.Deliver?) && e.t < |s.tasks| && s.tasks[e.t].pc.Swap? && s.tasks[e.t].pc.at.Starting? && s.tasks[e.t].target == k
  }

  /**
   The engines that, after `es`, have their last ensure_started succeeded, or were in `ready` to begin with, and no
   failed start and no begun free_vram since: free_vram begins exactly where an engine leaves `up`.
  */
  ghost function Ready(cfg: Config, s: State, ready: set<Key>, es: seq<Event>): set<Key>
    requires Legal(cfg, s, es)
    decreases |es|
  {
    if es == [] then ready else Ready(cfg, Apply(cfg, s, es[0]), ReadyAfter(cfg, s, ready, es[0]), es[1..])
  }

  ghost function ReadyAfter(cfg: Config, s: State, ready: set<Key>, e: Event): set<Key>
    requires Enabled(cfg, s, e)
  {
    if e.Started? then ready + {s.tasks[e.t].target}
    else set k | k in ready && k in Apply(cfg, s, e).up && !BreaksStart(s, e, k)
  }

  /** The engine that startup found serving. */
  ghost function Detected(s: State): set<Key> {
    if s.active.Some? then {s.active.value} else {}
  }

  lemma StepKeepsReady(cfg: Config, s: State, ready: set<Key>, e: Event)
    requires Inv(cfg, s) && Enabled(cfg, s, e) && (s.active.Some? ==> s.active.value in ready)
    ensures var s' := Apply(cfg, s, e); s'.active.Some? ==> s'.active.value in ReadyAfter(cfg, s, ready, e)
  {
    StepKeeps(cfg, s, e);
    var s' := Apply(cfg, s, e);
    assert s'.active.Some? ==> s'.active.value in s'.up;
    hide Inv;
    MarkerMoves(cfg, s, e);
  }

  /** Only a successful start sets the marker, and whatever breaks a swap clears it. */
  lemma MarkerMoves(cfg: Config, s: State, e: Event)
    requires Enabled(cfg, s, e)
    ensures var s' := Apply(cfg, s, e);
      && (e.Started? ==> s'.active == Some(s.tasks[e.t].target))
      && (!e.Started? && s'.active.Some? ==> s'.active == s.active)
      && ((e.Fail? || e.Deliver?) && s.tasks[e.t].pc.Swap? ==> s'.active.None?)
  {
  }

  lemma {:induction false} RunKeepsReady(cfg: Config, s: State, ready: set<Key>, es: seq<Event>)
    requires Inv(cfg, s) && Legal(cfg, s, es) && (s.active.Some? ==> s.active.value in ready)
    ensures var s' := After(cfg, s, es); s'.active.Some? ==> s'.active.value in Ready(cfg, s, ready, es)
    decreases |es|
  {
    if es != [] {
      StepKeeps(cfg, s, es[0]);
      StepKeepsReady(cfg, s, ready, es[0]);
      hide Inv;
      RunKeepsReady(cfg, Apply(cfg, s, es[0]), ReadyAfter(cfg, s, ready, es[0]), es[1..]);
    }
  }

  /**
   At every await the marked engine is up, and was detected ready or had its last ensure_started succeed with no
   free_vram begun since; the gauge shows the marker; begun swaps and results differ by the one in progress.
  */
  lemma MarkerIsTruthful(cfg: Config, s: State, es: seq<Event>)
    requires ConfigOk(cfg) && Init(cfg, s) && Legal(cfg, s, es)
    ensures var s' := After(cfg, s, es);
      && (s'.active.Some? ==> s'.active.value in s'.up && s'.active.value in s'.gpu)
      && (s'.active.Some? ==> s'.active.value in Ready(cfg, s, Detected(s), es))
      && s'.gauge == s'.active
      && s'.begun - s'.recorded ==
           (if exists i :: 0 <= i < |s'.tasks| && s'.tasks[i].pc.Swap? then 1 else 0)
  {
    InitHolds(cfg, s);
    Reachable(cfg, s, es);
    RunKeepsReady(cfg, s, Detected(s), es);
    var s' := After(cfg, s, es);
    if i :| 0 <= i < |s'.tasks| && s'.tasks[i].pc.Swap? {
      assert s'.lock == Some(i);
    }
  }

  /** A failed or cancelled swap leaves no marker, no lock and exactly one more result; its target is not counted. */
  lemma InterruptedSwapLeavesNothing(cfg: Config, s: State, e: Event)
    requires Inv(cfg, s) && Enabled(cfg, s, e) && (e.Fail? || e.Deliver?) && s.tasks[e.t].pc.Swap?
    ensures var s' := Apply(cfg, s, e);
      && s'.active == None && s'.gauge == None && s'.lock == None
      && s'.begun == s'.recorded && s'.inflight == s.inflight
      && forall k :: LeaseCount(s'.tasks, k) == LeaseCount(s.tasks, k)
  {
    StepKeeps(cfg, s, e);
    var s' := Apply(cfg, s, e);
    assert s.lock == Some(e.t);
    forall k
      ensures LeaseCount(s'.tasks, k) == LeaseCount(s.tasks, k)
    {
      TotalUpdate(s.tasks, LeaseIn(k), e.t, s'.tasks[e.t]);
    }
  }

  /** A release that runs lowers its engine's count, which is positive, by exactly one. */
  lemma ReleaseLowersItsCount(cfg: Config, s: State, t: nat)
    requires Inv(cfg, s) && Enabled(cfg, s, Run(t))
    ensures var k := s.tasks[t].target;
      && k in s.inflight && s.inflight[k] > 0
      && Apply(cfg, s, Run(t)).inflight == s.inflight[k := s.inflight[k] - 1]
  {
    RunCounts(cfg, s, t);
  }

  /** Conservation: every count is the number of unreleased leases, so the clamp of release is never the reason a count is zero. */
  lemma CountsAreLeases(cfg: Config, s: State, es: seq<Event>, k: Key)
    requires ConfigOk(cfg) && Init(cfg, s) && Legal(cfg, s, es) && k in cfg.engines
    ensures var s' := After(cfg, s, es);
      && k in s'.inflight && s'.inflight[k] == LeaseCount(s'.tasks, k)
      && forall t: nat :: Enabled(cfg, s', Run(t)) && s'.tasks[t].target == k ==>
           s'.inflight[k] > 0 && Apply(cfg, s', Run(t)).inflight == s'.inflight[k := s'.inflight[k] - 1]
  {
    InitHolds(cfg, s);
    Reachable(cfg, s, es);
    var s' := After(cfg, s, es);
    assert CountOk(cfg, s');
    hide Inv, Init, Legal, After, Apply;
    forall t: nat | Enabled(cfg, s', Run(t)) && s'.tasks[t].target == k
      ensures s'.inflight[k] > 0 && Apply(cfg, s', Run(t)).inflight == s'.inflight[k := s'.inflight[k] - 1]
    {
      ReleaseLowersItsCount(cfg, s', t);
    }
  }
}

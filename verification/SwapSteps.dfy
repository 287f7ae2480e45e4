/** Every event keeps the invariant. */
module SwapSteps {
  import opened Totals
  import opened Wrappers
  import opened SwapMachine
  import opened SwapInvariant

  // ---- framing --------------------------------------------------------------

  /** No other task changed, and no unevicted lease of another task lost its engine or its model. */
  ghost predicate OnlyTouches(s: State, s': State, t: nat) {
    && |s'.tasks| == |s.tasks|
    && (forall i :: 0 <= i < |s.tasks| && i != t ==> s'.tasks[i] == s.tasks[i])
    && (forall i :: 0 <= i < |s.tasks| && i != t && s.tasks[i].pc.Lease? && !s.tasks[i].pc.evicted ==>
          Keeps(s, s', s.tasks[i].target))
  }

  /** Engine `k` stays up, with what it has loaded. */
  ghost predicate Keeps(s: State, s': State, k: Key) {
    && (k in s.up ==> k in s'.up)
    && (k in s.loaded ==> k in s'.loaded && s'.loaded[k] == s.loaded[k])
  }

  lemma CountsKept(cfg: Config, s: State, s': State, t: nat)
    requires CountOk(cfg, s) && t < |s.tasks|
    requires |s'.tasks| == |s.tasks| && s'.inflight == s.inflight
    requires s'.tasks == s.tasks[t := s'.tasks[t]]
    requires forall k :: k in s.inflight ==> (LeaseOn(s'.tasks[t], k) <==> LeaseOn(s.tasks[t], k))
    ensures CountOk(cfg, s')
  {
    forall k | k in s'.inflight
      ensures s'.inflight[k] == LeaseCount(s'.tasks, k)
    {
      TotalUpdate(s.tasks, LeaseIn(k), t, s'.tasks[t]);
    }
  }

  /** The task that holds the lock, or is just granted it, moves on inside that hold; nothing is counted. */
  ghost predicate HolderMoves(cfg: Config, s: State, s': State, t: nat) {
    && t < |s.tasks| && OnlyTouches(s, s', t)
    && (s.lock == Some(t) || (s.lock == None && s.tasks[t].pc.Queued?))
    && s'.inflight == s.inflight && !s'.tasks[t].pc.Lease?
    && (s'.tasks[t].pc.Ended? || s'.tasks[t].target in cfg.engines)
    && s'.lock == (if HoldsLock(s'.tasks[t].pc) then Some(t) else None)
  }

  lemma HolderKeeps(cfg: Config, s: State, s': State, t: nat)
    requires Inv(cfg, s) && HolderMoves(cfg, s, s', t)
    requires EnvOk(cfg, s') && RecordOk(s') && HolderOk(cfg, s')
    ensures Inv(cfg, s')
  {
    assert s.lock.Some? ==> HoldsLock(s.tasks[t].pc);
    assert s'.tasks == s.tasks[t := s'.tasks[t]];
    CountsKept(cfg, s, s', t);
  }

  // ---- steps of the lock holder ---------------------------------------------

  /** `s1` is `s` after `t` did part of a segment under the lock. */
  ghost predicate Midway(cfg: Config, s: State, s1: State, t: nat) {
    && t < |s.tasks| && OnlyTouches(s, s1, t)
    && (s.lock == Some(t) || (s.lock == None && s.tasks[t].pc.Queued?))
    && s1.tasks == s.tasks && s1.lock == Some(t) && s1.inflight == s.inflight
    && s.tasks[t].target in cfg.engines && EnvOk(cfg, s1)
  }

  /** Moving `t` on after `s1` touches nothing more. */
  lemma StillOnlyTouches(s: State, s1: State, s': State, t: nat)
    requires t < |s.tasks| && OnlyTouches(s, s1, t) && |s'.tasks| == |s.tasks|
    requires s'.tasks == s1.tasks[t := s'.tasks[t]] && s'.up == s1.up && s'.loaded == s1.loaded
    ensures OnlyTouches(s, s', t)
  {
  }

  lemma AfterLoadKeeps(cfg: Config, s: State, s1: State, t: nat)
    requires Inv(cfg, s) && Midway(cfg, s, s1, t)
    requires s1.begun == s1.recorded && s1.active == Some(s.tasks[t].target) && Served(cfg, s1, s.tasks[t])
    ensures Inv(cfg, AfterLoad(s1, t))
  {
    hide Inv, OnlyTouches;
    var s' := AfterLoad(s1, t);
    StillOnlyTouches(s, s1, s', t);
    assert EnvOk(cfg, s') && RecordOk(s') && HolderOk(cfg, s');
    HolderKeeps(cfg, s, s', t);
  }

  lemma AfterActiveKeeps(cfg: Config, s: State, s1: State, t: nat)
    requires Inv(cfg, s) && Midway(cfg, s, s1, t)
    requires s1.begun == s1.recorded && s1.active == Some(s.tasks[t].target)
    ensures Inv(cfg, AfterActive(cfg, s1, t))
  {
    hide AfterLoad, Inv, OnlyTouches;
    if NeedsLoad(cfg, s.tasks[t]) {
      var s' := At(s1, t, Load(Probing));
      StillOnlyTouches(s, s1, s', t);
      assert EnvOk(cfg, s') && RecordOk(s') && HolderOk(cfg, s');
      HolderKeeps(cfg, s, s', t);
    } else {
      AfterLoadKeeps(cfg, s, s1, t);
    }
  }

  /** Any await of a swap may follow `s1` once its own condition holds. */
  lemma SwapMoveKeeps(cfg: Config, s: State, s1: State, s': State, t: nat, sw: Swapping, at: SwapAwait)
    requires Inv(cfg, s) && Midway(cfg, s, s1, t) && s1.begun == s1.recorded + 1
    requires s' == At(s1, t, Swap(sw, at)).(gpu := s'.gpu) && EnvOk(cfg, s')
    requires SwapOk(cfg, s'.active, s'.gpu, s.tasks[t].target, sw) && SwapAt(s', s.tasks[t], sw, at)
    ensures Inv(cfg, s')
  {
    hide Inv, OnlyTouches, SwapOk;
    StillOnlyTouches(s, s1, s', t);
    assert HolderAt(cfg, s', s'.tasks[t]);
    assert s'.lock == Some(t) && RecordOk(s');
    HolderKeeps(cfg, s, s', t);
  }

  lemma SwapNextKeeps(cfg: Config, s: State, s1: State, t: nat, sw: Swapping)
    requires Inv(cfg, s) && Midway(cfg, s, s1, t)
    requires s1.begun == s1.recorded + 1
    requires SwapOk(cfg, s1.active, s1.gpu, s.tasks[t].target, sw) && (sw.todo == [] ==> s1.active.None?)
    ensures Inv(cfg, SwapNext(s1, t, sw))
  {
    hide HolderAt, Inv;
    var s' := SwapNext(s1, t, sw);
    SwapOkGrows(cfg, s1.active, s1.gpu, s.tasks[t].target, sw);
    SwapMoveKeeps(cfg, s, s1, s', t, sw, s'.tasks[t].pc.at);
  }

  /** A swap that has just begun. */
  lemma FreshSwapOk(cfg: Config, s: State, target: Key)
    requires EnvOk(cfg, s) && s.active != Some(target)
    ensures SwapOk(cfg, s.active, s.gpu, target, Swapping(s.active, Others(cfg.engines, target), {}, false))
    ensures Others(cfg.engines, target) == [] ==> s.active.None?
  {
    var others := Others(cfg.engines, target);
    assert others[0..] == others;
    if s.active.Some? { OthersContent(cfg.engines, target, s.active.value); }
  }

  /** Adding the target to `gpu` does not undo what the loop has freed. */
  lemma SwapOkGrows(cfg: Config, active: Option<Key>, gpu: set<Key>, target: Key, sw: Swapping)
    requires SwapOk(cfg, active, gpu, target, sw)
    ensures SwapOk(cfg, active, gpu + {target}, target, sw)
  {
    var others := Others(cfg.engines, target);
    forall j | 0 <= j < |others|
      ensures others[j] != target
    {
      OthersContent(cfg.engines, target, others[j]);
    }
  }

  lemma CallFreeKeeps(cfg: Config, s: State, t: nat, sw: Swapping)
    requires Inv(cfg, s) && s.lock == Some(t) && s.tasks[t].pc.Swap?
    requires SwapOk(cfg, s.active, s.gpu, s.tasks[t].target, sw) && sw.todo != [] && sw.todo[0] in s.inflight
    requires s.inflight[sw.todo[0]] == 0 || sw.todo[0] in sw.expired
    requires AllEvicted(s, sw.todo[0])
    ensures Inv(cfg, CallFree(s, t, sw))
  {
    var s1 := s.(active := None, gauge := None, up := s.up - {sw.todo[0]});
    MarkingDownTouchesNoLease(s, s1, t, sw.todo[0]);
    assert SwapOk(cfg, None, s.gpu, s.tasks[t].target, sw);
    hide SwapOk, AllEvicted, OnlyTouches;
    assert EnvOk(cfg, s1) && Midway(cfg, s, s1, t) && s1.begun == s1.recorded + 1;
    hide Inv, Midway;
    SwapMoveKeeps(cfg, s, s1, CallFree(s, t, sw), t, sw, Freeing);
  }

  /** Taking `k` down is nobody's loss when every holder of `k` is evicted. */
  lemma MarkingDownTouchesNoLease(s: State, s': State, t: nat, k: Key)
    requires AllEvicted(s, k) && s'.tasks == s.tasks && s'.up == s.up - {k} && s'.loaded == s.loaded
    ensures OnlyTouches(s, s', t)
  {
    forall i | 0 <= i < |s.tasks| && i != t && s.tasks[i].pc.Lease? && !s.tasks[i].pc.evicted
      ensures Keeps(s, s', s.tasks[i].target)
    {
      assert !LeaseOn(s.tasks[i], k);
    }
  }

  /** A drain returns: nobody holds its engine, or everybody who does is evicted and the drain has expired. */
  lemma DrainedKeeps(cfg: Config, s: State, t: nat, expired: set<Key>)
    requires Inv(cfg, s) && s.lock == Some(t) && InDrain(s.tasks[t])
    requires var k := DrainKey(s.tasks[t]); AllEvicted(s, k) && k in s.inflight && (s.inflight[k] == 0 || k in expired)
    ensures Inv(cfg, Drained(s, t, expired))
  {
    hide CallFree;
    var pc := s.tasks[t].pc;
    assert HolderAt(cfg, s, s.tasks[t]);
    if pc.Swap? {
      CallFreeKeeps(cfg, s, t, pc.sw.(expired := pc.sw.expired + expired));
    } else {
      HolderKeeps(cfg, s, At(s, t, Load(Loading)), t);
    }
  }

  lemma LookKeeps(cfg: Config, s: State, t: nat)
    requires Inv(cfg, s) && t < |s.tasks| && InDrain(s.tasks[t]) && DrainKey(s.tasks[t]) in s.inflight
    ensures Inv(cfg, DrainLook(s, t))
  {
    hide Drained;
    assert s.lock == Some(t) && HolderAt(cfg, s, s.tasks[t]);
    var k := DrainKey(s.tasks[t]);
    if s.inflight[k] == 0 {
      LeaseCountZero(s.tasks, k);
      DrainedKeeps(cfg, s, t, {});
    } else {
      HolderKeeps(cfg, s, Park(s, t), t);
    }
  }

  lemma EvictKeeps(cfg: Config, s: State, k: Key)
    requires Inv(cfg, s)
    ensures var s' := s.(tasks := EvictAll(s.tasks, k)); Inv(cfg, s') && AllEvicted(s', k)
  {
    var s' := s.(tasks := EvictAll(s.tasks, k));
    EvictKeepsCounts(cfg, s, k);
    assert forall j :: 0 <= j < |s.tasks| ==> s'.tasks[j] == Evict(s.tasks[j], k);
    assert LeasesOk(cfg, s') && LockOk(s') && TargetsOk(cfg, s') && RecordOk(s') && EnvOk(cfg, s');
    EvictKeepsHolder(cfg, s, k);
    hide LeasesOk, LockOk, CountOk, TargetsOk, RecordOk, EnvOk, HolderOk;
  }

  lemma EvictKeepsHolder(cfg: Config, s: State, k: Key)
    requires LockOk(s) && HolderOk(cfg, s)
    ensures HolderOk(cfg, s.(tasks := EvictAll(s.tasks, k)))
  {
    var s' := s.(tasks := EvictAll(s.tasks, k));
    if s.lock.Some? {
      hide SwapOk;
      var u := s.tasks[s.lock.value];
      assert HoldsLock(u.pc) && s'.tasks[s.lock.value] == Evict(u, k) == u;
      if AllEvicted(s, u.target) { EvictedStays(s, s', u.target, k); }
      hide AllEvicted;
      assert HolderAt(cfg, s, u);
    }
  }

  lemma EvictKeepsCounts(cfg: Config, s: State, k: Key)
    requires CountOk(cfg, s)
    ensures CountOk(cfg, s.(tasks := EvictAll(s.tasks, k)))
  {
    var s' := s.(tasks := EvictAll(s.tasks, k));
    forall h | h in s'.inflight
      ensures s'.inflight[h] == LeaseCount(s'.tasks, h)
    {
      TotalAgrees(s.tasks, s'.tasks, LeaseIn(h));
    }
  }

  lemma EvictedStays(s: State, s': State, h: Key, k: Key)
    requires AllEvicted(s, h) && s'.tasks == EvictAll(s.tasks, k)
    ensures AllEvicted(s', h)
  {
    forall j | 0 <= j < |s'.tasks| && LeaseOn(s'.tasks[j], h)
      ensures s'.tasks[j].pc.evicted
    {
      assert LeaseOn(s.tasks[j], h);
    }
  }

  lemma ExpireKeeps(cfg: Config, s: State, t: nat)
    requires Inv(cfg, s) && t < |s.tasks| && InDrain(s.tasks[t])
    ensures Inv(cfg, DrainExpire(s, t))
  {
    hide Drained;
    assert s.lock == Some(t) && HolderAt(cfg, s, s.tasks[t]);
    var k := DrainKey(s.tasks[t]);
    var s1 := s.(tasks := EvictAll(s.tasks, k));
    EvictKeeps(cfg, s, k);
    assert s1.tasks[t] == s.tasks[t];
    if s.tasks[t].pc.Swap? { InTable(cfg, s, s.tasks[t], s.tasks[t].pc.sw); }
    DrainedKeeps(cfg, s1, t, {k});
  }

  /** What the loop is working on is an engine of the table, other than the target. */
  lemma InTable(cfg: Config, s: State, t: Task, sw: Swapping)
    requires CountOk(cfg, s) && EnvOk(cfg, s) && SwapOk(cfg, s.active, s.gpu, t.target, sw) && sw.todo != []
    ensures sw.todo[0] in s.inflight && sw.todo[0] in s.loaded && sw.todo[0] != t.target
  {
    var others := Others(cfg.engines, t.target);
    assert sw.todo[0] == others[|others| - |sw.todo|];
    OthersContent(cfg.engines, t.target, sw.todo[0]);
  }

  lemma FreedKeeps(cfg: Config, s: State, t: nat)
    requires Inv(cfg, s) && t < |s.tasks| && s.tasks[t].pc.Swap? && s.tasks[t].pc.at.Freeing? && s.tasks[t].pc.sw.todo != []
    ensures Inv(cfg, FreeReturns(s, t))
  {
    hide SwapNext;
    assert s.lock == Some(t) && HolderAt(cfg, s, s.tasks[t]);
    var sw := s.tasks[t].pc.sw;
    InTable(cfg, s, s.tasks[t], sw);
    var s1 := s.(gpu := s.gpu - {sw.todo[0]}, loaded := s.loaded[sw.todo[0] := {}]);
    var sw1 := sw.(todo := sw.todo[1..]);
    var others := Others(cfg.engines, s.tasks[t].target);
    assert others[|others| - |sw.todo|..][1..] == others[|others| - |sw1.todo|..];
    SwapNextKeeps(cfg, s, s1, t, sw1);
  }

  lemma SettledKeeps(cfg: Config, s: State, t: nat)
    requires Inv(cfg, s) && t < |s.tasks| && s.tasks[t].pc.Swap? && s.tasks[t].pc.at.Settling?
    ensures Inv(cfg, CallStart(s, t, s.tasks[t].pc.sw.(settled := true)))
  {
    assert s.lock == Some(t) && HolderAt(cfg, s, s.tasks[t]);
    var s' := CallStart(s, t, s.tasks[t].pc.sw.(settled := true));
    SwapOkGrows(cfg, s.active, s.gpu, s.tasks[t].target, s'.tasks[t].pc.sw);
    HolderKeeps(cfg, s, s', t);
  }

  lemma StartedKeeps(cfg: Config, s: State, t: nat, models: set<Model>)
    requires Inv(cfg, s) && t < |s.tasks| && s.tasks[t].pc.Swap? && s.tasks[t].pc.at.Starting?
    ensures Inv(cfg, StartReturns(cfg, s, t, models))
  {
    hide AfterActive;
    assert s.lock == Some(t) && HolderAt(cfg, s, s.tasks[t]);
    var k := s.tasks[t].target;
    var s1 := s.(active := Some(k), gauge := Some(k), recorded := s.recorded + 1, up := s.up + {k},
                 loaded := if k in s.up then s.loaded else s.loaded[k := models]);
    AfterActiveKeeps(cfg, s, s1, t);
  }

  lemma ProbedKeeps(cfg: Config, s: State, t: nat, seen: set<Model>)
    requires Inv(cfg, s) && t < |s.tasks| && s.tasks[t].pc == Load(Probing) && s.tasks[t].target in s.loaded
    requires seen <= s.loaded[s.tasks[t].target]
    ensures Inv(cfg, ProbeReturns(s, t, seen))
  {
    hide AfterLoad;
    assert s.lock == Some(t) && HolderAt(cfg, s, s.tasks[t]);
    if s.tasks[t].model.value in seen {
      AfterLoadKeeps(cfg, s, s, t);
    } else {
      HolderKeeps(cfg, s, At(s, t, Load(Emptying(Entering))), t);
    }
  }

  lemma LoadedKeeps(cfg: Config, s: State, t: nat, models: set<Model>)
    requires Inv(cfg, s) && t < |s.tasks| && s.tasks[t].pc == Load(Loading)
    requires s.tasks[t].model.Some? ==> s.tasks[t].model.value in models
    ensures Inv(cfg, LoadReturns(s, t, models))
  {
    hide AfterLoad;
    assert s.lock == Some(t) && HolderAt(cfg, s, s.tasks[t]);
    var k := s.tasks[t].target;
    var s1 := s.(loaded := s.loaded[k := models]);
    LoadingTouchesNoLease(s, s1, t);
    AfterLoadKeeps(cfg, s, s1, t);
  }

  /** Replacing what is loaded on `k` is nobody's loss when every holder of `k` is evicted. */
  lemma LoadingTouchesNoLease(s: State, s': State, t: nat)
    requires t < |s.tasks| && AllEvicted(s, s.tasks[t].target)
    requires |s'.tasks| == |s.tasks| && forall i :: 0 <= i < |s.tasks| && i != t ==> s'.tasks[i] == s.tasks[i]
    requires s'.up == s.up && s.tasks[t].target in s'.loaded
    requires s'.loaded == s.loaded[s.tasks[t].target := s'.loaded[s.tasks[t].target]]
    ensures OnlyTouches(s, s', t)
  {
    forall i | 0 <= i < |s.tasks| && i != t && s.tasks[i].pc.Lease? && !s.tasks[i].pc.evicted
      ensures Keeps(s, s', s.tasks[i].target)
    {
      assert !LeaseOn(s.tasks[i], s.tasks[t].target);
    }
  }

  lemma CountKeeps(cfg: Config, s: State, t: nat)
    requires Inv(cfg, s) && t < |s.tasks| && s.tasks[t].pc.Counting? && s.tasks[t].target in s.inflight
    ensures Inv(cfg, CountIn(s, t))
  {
    assert s.lock == Some(t) && HolderAt(cfg, s, s.tasks[t]);
    var s' := CountIn(s, t);
    forall k | k in s'.inflight
      ensures s'.inflight[k] == LeaseCount(s'.tasks, k)
    {
      TotalUpdate(s.tasks, LeaseIn(k), t, s'.tasks[t]);
    }
  }

  lemma BeginSwapKeeps(cfg: Config, s: State, s1: State, t: nat)
    requires Inv(cfg, s) && Midway(cfg, s, s1, t)
    requires s1.active != Some(s.tasks[t].target) && s1.begun == s1.recorded + 1
    ensures Inv(cfg, SwapNext(s1, t, Swapping(s1.active, Others(cfg.engines, s.tasks[t].target), {}, false)))
  {
    FreshSwapOk(cfg, s1, s.tasks[t].target);
    SwapNextKeeps(cfg, s, s1, t, Swapping(s1.active, Others(cfg.engines, s.tasks[t].target), {}, false));
  }

  lemma GrantKeeps(cfg: Config, s: State, t: nat)
    requires Inv(cfg, s) && t < |s.tasks| && s.tasks[t].pc.Queued? && s.lock.None?
    ensures Inv(cfg, GotLock(cfg, s, t))
  {
    hide SwapNext, AfterActive;
    assert Midway(cfg, s, s.(lock := Some(t)), t) && s.begun == s.recorded;
    if s.active == Some(s.tasks[t].target) {
      hide Inv, Midway;
      AfterActiveKeeps(cfg, s, s.(lock := Some(t)), t);
    } else {
      BeginSwapKeeps(cfg, s, s.(lock := Some(t), begun := s.begun + 1), t);
    }
  }

  // ---- steps that need no lock ----------------------------------------------

  /** Task `t` moves where neither the lock nor the counts are concerned; the lock holder does not notice. */
  ghost predicate Bystander(s: State, s': State, t: nat) {
    && t < |s.tasks| && |s'.tasks| == |s.tasks| && s' == s.(tasks := s.tasks[t := s'.tasks[t]])
    && (HoldsLock(s.tasks[t].pc) ==> s'.tasks[t] == s.tasks[t].(doomed := s'.tasks[t].doomed))
    && !(HoldsLock(s'.tasks[t].pc) && !HoldsLock(s.tasks[t].pc))
    && s'.tasks[t].pc.Lease? == s.tasks[t].pc.Lease?
    && (s.tasks[t].pc.Lease? ==>
          && s'.tasks[t].pc.evicted == s.tasks[t].pc.evicted
          && s'.tasks[t] == s.tasks[t].(pc := s'.tasks[t].pc))
  }

  lemma BystanderKeepsHolder(cfg: Config, s: State, s': State, t: nat)
    requires LockOk(s) && HolderOk(cfg, s) && Bystander(s, s', t)
    ensures HolderOk(cfg, s')
  {
    hide SwapOk;
    if s.lock.Some? {
      var u := s.tasks[s.lock.value];
      assert forall j :: 0 <= j < |s.tasks| ==>
          LeaseOn(s'.tasks[j], u.target) == LeaseOn(s.tasks[j], u.target)
          && (s.tasks[j].pc.Lease? ==> s'.tasks[j].pc.evicted == s.tasks[j].pc.evicted);
      assert HolderAt(cfg, s', u);
    }
  }

  lemma BystanderKeeps(cfg: Config, s: State, s': State, t: nat)
    requires Inv(cfg, s) && Bystander(s, s', t)
    requires s'.tasks[t].pc.Resolving? || s'.tasks[t].pc.Ended? || s'.tasks[t].target in cfg.engines
    ensures Inv(cfg, s')
  {
    CountsKept(cfg, s, s', t);
    BystanderKeepsHolder(cfg, s, s', t);
    assert LeasesOk(cfg, s') && TargetsOk(cfg, s') && LockOk(s') && RecordOk(s');
  }

  lemma SpawnKeeps(cfg: Config, s: State, x: Task)
    requires Inv(cfg, s) && (x.pc.Resolving? || (x.pc.Queued? && x.target in cfg.engines))
    ensures Inv(cfg, s.(tasks := s.tasks + [x]))
  {
    var s' := s.(tasks := s.tasks + [x]);
    forall k | k in s'.inflight
      ensures s'.inflight[k] == LeaseCount(s'.tasks, k)
    {
      TotalPush(s.tasks, LeaseIn(k), x);
    }
    assert CountOk(cfg, s') && LeasesOk(cfg, s') && TargetsOk(cfg, s') && LockOk(s') && RecordOk(s');
    hide CountOk, LeasesOk, TargetsOk, LockOk, RecordOk;
    forall k | AllEvicted(s, k)
      ensures AllEvicted(s', k)
    {
      assert forall j :: 0 <= j < |s.tasks| ==> s'.tasks[j] == s.tasks[j];
    }
  }

  /** The clamp of `release` is never what decides: the released engine has a unit to give back. */
  lemma RunCounts(cfg: Config, s: State, t: nat)
    requires CountOk(cfg, s) && TargetsOk(cfg, s) && t < |s.tasks| && s.tasks[t].pc.Lease?
    ensures s.tasks[t].target in s.inflight && s.inflight[s.tasks[t].target] > 0
    ensures CountOk(cfg, RunRelease(s, t))
  {
    var s' := RunRelease(s, t);
    var woken := WakeAll(s.tasks);
    LeaseCountZero(s.tasks, s.tasks[t].target);
    assert LeaseOn(s.tasks[t], s.tasks[t].target);
    forall h | h in s'.inflight
      ensures s'.inflight[h] == LeaseCount(s'.tasks, h)
    {
      TotalAgrees(s.tasks, woken, LeaseIn(h));
      TotalUpdate(woken, LeaseIn(h), t, s'.tasks[t]);
    }
  }

  /** A release lowers one count and wakes the parked drain: the lock holder loses no fact. */
  lemma RunKeepsHolder(cfg: Config, s: State, s': State, t: Task)
    requires HolderAt(cfg, s, t)
    requires s'.active == s.active && s'.up == s.up && s'.gpu == s.gpu && s'.loaded == s.loaded
    requires s'.inflight.Keys == s.inflight.Keys
    requires forall k :: k in s.inflight && s.inflight[k] == 0 ==> s'.inflight[k] == 0
    requires AllEvicted(s, t.target) ==> AllEvicted(s', t.target)
    ensures HolderAt(cfg, s', Notified(t))
  {
    hide SwapOk;
  }

  lemma RunKeepsTasks(cfg: Config, s: State, t: nat)
    requires LockOk(s) && LeasesOk(cfg, s) && TargetsOk(cfg, s) && t < |s.tasks| && s.tasks[t].pc.Lease?
    ensures var s' := RunRelease(s, t);
      && LockOk(s') && LeasesOk(cfg, s') && TargetsOk(cfg, s') && (Swapping?(s') <==> Swapping?(s))
      && (forall i :: 0 <= i < |s.tasks| && i != t ==> s'.tasks[i] == Notified(s.tasks[i]))
  {
    var s' := RunRelease(s, t);
    assert forall i :: 0 <= i < |s.tasks| ==>
        s'.tasks[i] == if i == t then s.tasks[t].(pc := Ended(Released)) else Notified(s.tasks[i]);
  }

  lemma RunKeeps(cfg: Config, s: State, t: nat)
    requires Inv(cfg, s) && t < |s.tasks| && s.tasks[t].pc.Lease?
    ensures Inv(cfg, RunRelease(s, t))
  {
    var s' := RunRelease(s, t);
    RunCounts(cfg, s, t);
    RunKeepsTasks(cfg, s, t);
    if s.lock.Some? {
      var u := s.tasks[s.lock.value];
      forall j | AllEvicted(s, u.target) && 0 <= j < |s'.tasks| && LeaseOn(s'.tasks[j], u.target)
        ensures s'.tasks[j].pc.evicted
      {
        assert LeaseOn(s.tasks[j], u.target);
      }
      RunKeepsHolder(cfg, s, s', u);
    }
  }

  lemma BreakKeeps(cfg: Config, s: State, t: nat, outcome: Outcome, left: set<Model>)
    requires Inv(cfg, s) && t < |s.tasks| && Unfinished(s.tasks[t].pc)
    ensures Inv(cfg, Break(s, t, outcome, left))
  {
    var s' := Break(s, t, outcome, left);
    if HoldsLock(s.tasks[t].pc) {
      assert s.lock == Some(t) && HolderAt(cfg, s, s.tasks[t]);
      BreakTouches(cfg, s, t, outcome, left);
      HolderKeeps(cfg, s, s', t);
    } else {
      BystanderKeeps(cfg, s, s', t);
    }
  }

  lemma BreakTouches(cfg: Config, s: State, t: nat, outcome: Outcome, left: set<Model>)
    requires t < |s.tasks| && HolderAt(cfg, s, s.tasks[t]) && LeasesOk(cfg, s) && EnvOk(cfg, s) && CountOk(cfg, s)
    requires s.tasks[t].target in cfg.engines
    ensures OnlyTouches(s, Break(s, t, outcome, left), t) && EnvOk(cfg, Break(s, t, outcome, left))
  {
    var s' := Break(s, t, outcome, left);
    match s.tasks[t].pc
    case Load(Loading) => LoadingTouchesNoLease(s, s', t);
    case Swap(sw, Freeing) => InTable(cfg, s, s.tasks[t], sw);
    case _ =>
  }

  // ---- all events -----------------------------------------------------------

  predicate Moving(e: Event) {
    e.Grant? || e.Look? || e.Expire? || e.Freed? || e.Settled? || e.Started? || e.Probed? || e.Loaded? || e.Count?
  }

  /**
   What a move does to its task: only the pc changes, to another await under the lock, to the end of a
   force_swap or to a fresh lease; and a swap goes on with the drains it knows to have expired.
  */
  ghost predicate MovedTo(s: State, s': State, t: nat) {
    && t < |s.tasks| && |s'.tasks| == |s.tasks|
    && s'.tasks == s.tasks[t := s.tasks[t].(pc := s'.tasks[t].pc)]
    && var pc := s'.tasks[t].pc;
       && (HoldsLock(pc) || pc == Ended(Swapped) || pc == Lease(false, false))
       && (pc.Swap? ==> pc.sw.expired == if s.tasks[t].pc.Swap? then s.tasks[t].pc.sw.expired else {})
  }

  lemma AfterActiveShape(cfg: Config, s: State, t: nat)
    requires t < |s.tasks|
    ensures MovedTo(s, AfterActive(cfg, s, t), t)
  {
  }

  lemma SwapNextShape(s: State, t: nat, sw: Swapping)
    requires t < |s.tasks| && sw.expired == if s.tasks[t].pc.Swap? then s.tasks[t].pc.sw.expired else {}
    ensures MovedTo(s, SwapNext(s, t, sw), t)
  {
  }

  lemma LookShape(s: State, t: nat)
    requires t < |s.tasks| && InDrain(s.tasks[t]) && DrainKey(s.tasks[t]) in s.inflight
    ensures MovedTo(s, DrainLook(s, t), t)
  {
  }

  lemma MoveShape(cfg: Config, s: State, e: Event)
    requires Enabled(cfg, s, e) && Moving(e) && !e.Expire?
    ensures MovedTo(s, Apply(cfg, s, e), e.t)
  {
    hide AfterActive, SwapNext, DrainLook, AfterLoad;
    match e
    case Grant(t) =>
      AfterActiveShape(cfg, s.(lock := Some(t)), t);
      SwapNextShape(s.(lock := Some(t), begun := s.begun + 1), t,
                    Swapping(s.active, Others(cfg.engines, s.tasks[t].target), {}, false));
    case Look(t) => LookShape(s, t);
    case Freed(t) =>
      var sw := s.tasks[t].pc.sw;
      SwapNextShape(s.(gpu := s.gpu - {sw.todo[0]}, loaded := s.loaded[sw.todo[0] := {}]), t, sw.(todo := sw.todo[1..]));
    case Started(t, models) =>
      var k := s.tasks[t].target;
      AfterActiveShape(cfg, s.(active := Some(k), gauge := Some(k), recorded := s.recorded + 1, up := s.up + {k},
                               loaded := if k in s.up then s.loaded else s.loaded[k := models]), t);
    case Probed(t, seen) => AfterLoadShape(s, t);
    case Loaded(t, models) => AfterLoadShape(s.(loaded := s.loaded[s.tasks[t].target := models]), t);
    case _ =>
  }

  lemma AfterLoadShape(s: State, t: nat)
    requires t < |s.tasks|
    ensures MovedTo(s, AfterLoad(s, t), t)
  {
  }

  lemma MoveKeeps(cfg: Config, s: State, e: Event)
    requires Inv(cfg, s) && Enabled(cfg, s, e) && Moving(e)
    ensures Inv(cfg, Apply(cfg, s, e))
  {
    hide Inv;
    match e
    case Grant(t) => GrantKeeps(cfg, s, t);
    case Look(t) => LookKeeps(cfg, s, t);
    case Expire(t) => ExpireKeeps(cfg, s, t);
    case Freed(t) => FreedKeeps(cfg, s, t);
    case Settled(t) => SettledKeeps(cfg, s, t);
    case Started(t, models) => StartedKeeps(cfg, s, t, models);
    case Probed(t, seen) => ProbedKeeps(cfg, s, t, seen);
    case Loaded(t, models) => LoadedKeeps(cfg, s, t, models);
    case Count(t) => CountKeeps(cfg, s, t);
  }

  lemma StepKeeps(cfg: Config, s: State, e: Event)
    requires Inv(cfg, s) && Enabled(cfg, s, e)
    ensures Inv(cfg, Apply(cfg, s, e))
  {
    hide Break, RunRelease, HolderOk, LeasesOk, CountOk, EnvOk;
    match e
    case Spawn(counts, m) => SpawnKeeps(cfg, s, Task(counts, "", m, Resolving, false));
    case SpawnOn(k, m) => SpawnKeeps(cfg, s, Task(false, k, m, Queued, false));
    case Fail(t, other, left) => BreakKeeps(cfg, s, t, if other then OtherError else EngineError, left);
    case Deliver(t, left) => BreakKeeps(cfg, s, t, Cancelled, left);
    case Run(t) => RunKeeps(cfg, s, t);
    case Resolve(t, _) => BystanderKeeps(cfg, s, Apply(cfg, s, e), t);
    case Doom(t) => BystanderKeeps(cfg, s, Apply(cfg, s, e), t);
    case Release(t) => BystanderKeeps(cfg, s, Apply(cfg, s, e), t);
    case _ => MoveKeeps(cfg, s, e);
  }

  lemma InitHolds(cfg: Config, s: State)
    requires ConfigOk(cfg) && Init(cfg, s)
    ensures Inv(cfg, s)
  {
  }

  /** Every reachable state satisfies the invariant, whatever the interleaving. */
  lemma {:induction false} Reachable(cfg: Config, s: State, es: seq<Event>)
    requires Inv(cfg, s) && Legal(cfg, s, es)
    ensures Inv(cfg, After(cfg, s, es))
    decreases |es|
  {
    if es != [] {
      StepKeeps(cfg, s, es[0]);
      Reachable(cfg, Apply(cfg, s, es[0]), es[1..]);
    }
  }
}

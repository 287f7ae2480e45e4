/** What each event of the swap machine changes, and what it leaves alone; and what a request for the active engine costs. */
module SwapFrames {
  import opened Wrappers
  import opened SwapMachine
  import opened SwapInvariant
  import opened SwapSteps
  import opened SwapTheorems

  // ---- who changes what -----------------------------------------------------

  /** An exception or a cancellation leaves a swap. */
  predicate BreaksSwap(s: State, e: Event) {
    (e.Fail? || e.Deliver?) && e.t < |s.tasks| && s.tasks[e.t].pc.Swap?
  }

  /** The drain of a swap's next engine ends with this event. */
  predicate EndsDrain(s: State, e: Event) {
    (e.Look? || e.Expire?) && e.t < |s.tasks| && s.tasks[e.t].pc.Swap? && s.tasks[e.t].pc.sw.todo != []
    && var k := s.tasks[e.t].pc.sw.todo[0]; e.Expire? || (k in s.inflight && s.inflight[k] == 0)
  }

  /** The marker is set by a successful start and cleared by a drain's end or a broken swap; nothing else touches it. */
  lemma MarkerChanges(cfg: Config, s: State, e: Event)
    requires Enabled(cfg, s, e)
    ensures Apply(cfg, s, e).active ==
      if e.Started? then Some(s.tasks[e.t].target)
      else if EndsDrain(s, e) || BreaksSwap(s, e) then None
      else s.active
  {
  }

  /** An engine comes up by a successful start of it, and goes down when the drain before its free_vram ends. */
  lemma UpChanges(cfg: Config, s: State, e: Event)
    requires Enabled(cfg, s, e)
    ensures Apply(cfg, s, e).up ==
      if e.Started? then s.up + {s.tasks[e.t].target}
      else if EndsDrain(s, e) then s.up - {s.tasks[e.t].pc.sw.todo[0]}
      else s.up
  {
  }

  /** Only a returning free_vram takes its engine off the GPU, and only a call of ensure_started puts its target there. */
  lemma GpuChanges(cfg: Config, s: State, e: Event, k: Key)
    requires Enabled(cfg, s, e)
    ensures var s' := Apply(cfg, s, e);
      && (k in s.gpu && k !in s'.gpu ==> e.Freed? && k == s.tasks[e.t].pc.sw.todo[0])
      && (k in s'.gpu && k !in s.gpu ==>
            (e.Grant? || e.Freed? || e.Settled?) && k == s.tasks[e.t].target
            && s'.tasks[e.t].pc.Swap? && s'.tasks[e.t].pc.at.Starting?)
  {
  }

  lemma OthersKeepCounts(cfg: Config, s: State, e: Event)
    requires Enabled(cfg, s, e) && !e.Count? && !e.Run?
    ensures Apply(cfg, s, e).inflight == s.inflight
  {
  }

  /** A count moves by one, up when its request is counted in and down when its release runs; no other event touches one. */
  lemma CountChanges(cfg: Config, s: State, e: Event)
    requires Inv(cfg, s) && Enabled(cfg, s, e)
    ensures var s' := Apply(cfg, s, e);
      if e.Count? then s'.inflight == s.inflight[s.tasks[e.t].target := s.inflight[s.tasks[e.t].target] + 1]
      else if e.Run? then
        s.tasks[e.t].target in s.inflight && s.inflight[s.tasks[e.t].target] > 0
        && s'.inflight == s.inflight[s.tasks[e.t].target := s.inflight[s.tasks[e.t].target] - 1]
      else s'.inflight == s.inflight
  {
    if e.Run? {
      hide Apply;
      ReleaseLowersItsCount(cfg, s, e.t);
    } else if !e.Count? {
      hide Apply, Enabled, Inv;
      OthersKeepCounts(cfg, s, e);
    }
  }

  /** The granted task's engine is not the marked one. */
  predicate NeedsSwap(s: State, e: Event) {
    e.Grant? && e.t < |s.tasks| && s.active != Some(s.tasks[e.t].target)
  }

  lemma BegunChanges(cfg: Config, s: State, e: Event)
    requires Enabled(cfg, s, e)
    ensures Apply(cfg, s, e).begun == s.begun + (if NeedsSwap(s, e) then 1 else 0)
  {
  }

  lemma RecordedChanges(cfg: Config, s: State, e: Event)
    requires Enabled(cfg, s, e)
    ensures Apply(cfg, s, e).recorded == s.recorded + (if e.Started? || BreaksSwap(s, e) then 1 else 0)
  {
  }

  /** A swap begins exactly when the lock goes to a task whose engine is not marked; its one result is its start or its break. */
  lemma RecordChanges(cfg: Config, s: State, e: Event)
    requires Enabled(cfg, s, e)
    ensures var s' := Apply(cfg, s, e);
      && s'.begun == s.begun + (if NeedsSwap(s, e) then 1 else 0)
      && s'.recorded == s.recorded + (if e.Started? || BreaksSwap(s, e) then 1 else 0)
  {
    hide Apply, Enabled, NeedsSwap, BreaksSwap;
    BegunChanges(cfg, s, e);
    RecordedChanges(cfg, s, e);
  }

  // ---- the grant ------------------------------------------------------------

  /** With its engine marked, a task that gets the lock does not swap: nothing the engines or other requests see changes. */
  lemma ActiveTargetIsNotSwapped(cfg: Config, s: State, t: nat)
    requires Enabled(cfg, s, Grant(t)) && s.active == Some(s.tasks[t].target)
    ensures var s' := Apply(cfg, s, Grant(t));
      && s'.active == s.active && s'.gauge == s.gauge && s'.up == s.up && s'.gpu == s.gpu && s'.loaded == s.loaded
      && s'.begun == s.begun && s'.recorded == s.recorded && s'.inflight == s.inflight
      && s'.tasks[t].pc == (if s.tasks[t].target in cfg.loadPath && s.tasks[t].model.Some? && s.tasks[t].model.value != ""
                            then Load(Probing)
                            else if s.tasks[t].counts then Counting
                            else Ended(Swapped))
      && forall i :: 0 <= i < |s.tasks| && i != t ==> s'.tasks[i] == s.tasks[i]
  {
  }

  /** Otherwise it begins a swap that has every other engine of the table before it, and has timed out on none. */
  lemma OtherTargetIsSwapped(cfg: Config, s: State, t: nat)
    requires Enabled(cfg, s, Grant(t)) && s.active != Some(s.tasks[t].target)
    ensures var s' := Apply(cfg, s, Grant(t)); var pc := s'.tasks[t].pc;
      && s'.begun == s.begun + 1 && s'.lock == Some(t)
      && pc.Swap? && pc.sw.prev == s.active && pc.sw.expired == {}
      && forall k :: k in pc.sw.todo <==> k in cfg.engines && k != s.tasks[t].target
  {
    forall k
      ensures k in Others(cfg.engines, s.tasks[t].target) <==> k in cfg.engines && k != s.tasks[t].target
    {
      OthersContent(cfg.engines, s.tasks[t].target, k);
    }
  }

  /** It takes them in the order of the table. */
  lemma {:induction false} OthersInOrder(engines: seq<Key>, k: Key, target: Key)
    ensures Others(engines + [k], target) == Others(engines, target) + (if k == target then [] else [k])
  {
    if engines != [] {
      assert (engines + [k])[1..] == engines[1..] + [k];
      OthersInOrder(engines[1..], k, target);
    } else {
      assert engines + [k] == [k];
    }
  }

  /** Past the swap: on the way from the active engine to the return of acquire. */
  predicate PastSwap(pc: Pc) {
    pc.Load? || pc.Counting? || pc.Lease? || pc.Ended?
  }

  lemma PastSwapStays(cfg: Config, s: State, e: Event, t: nat)
    requires Enabled(cfg, s, e) && t < |s.tasks| && PastSwap(s.tasks[t].pc)
    ensures t < |Apply(cfg, s, e).tasks| && PastSwap(Apply(cfg, s, e).tasks[t].pc)
  {
    hide GotLock, FreeReturns, StartReturns;
    if Moving(e) && !e.Expire? && e.t != t {
      hide Apply;
      MoveShape(cfg, s, e);
    }
  }

  lemma {:induction false} PastSwapForever(cfg: Config, s: State, es: seq<Event>, t: nat)
    requires Legal(cfg, s, es) && t < |s.tasks| && PastSwap(s.tasks[t].pc)
    ensures t < |After(cfg, s, es).tasks| && PastSwap(After(cfg, s, es).tasks[t].pc)
    decreases |es|
  {
    if es != [] {
      PastSwapStays(cfg, s, es[0], t);
      PastSwapForever(cfg, Apply(cfg, s, es[0]), es[1..], t);
    }
  }

  /** A request that finds its engine marked when it gets the lock never swaps, whatever happens later. */
  lemma NoSwapForTheActiveEngine(cfg: Config, s: State, t: nat, es: seq<Event>)
    requires Enabled(cfg, s, Grant(t)) && s.active == Some(s.tasks[t].target)
    requires Legal(cfg, Apply(cfg, s, Grant(t)), es)
    ensures var s' := After(cfg, Apply(cfg, s, Grant(t)), es); t < |s'.tasks| && !s'.tasks[t].pc.Swap?
  {
    ActiveTargetIsNotSwapped(cfg, s, t);
    PastSwapForever(cfg, Apply(cfg, s, Grant(t)), es, t);
  }

  /** How often in a run the lock goes to a task whose engine is not marked at that moment. */
  ghost function SwapGrants(cfg: Config, s: State, es: seq<Event>): nat
    requires Legal(cfg, s, es)
    decreases |es|
  {
    if es == [] then 0
    else (if NeedsSwap(s, es[0]) then 1 else 0) + SwapGrants(cfg, Apply(cfg, s, es[0]), es[1..])
  }

  /** In every run the swaps begun are exactly the grants to tasks whose engine was not marked. */
  lemma {:induction false} SwapsAreNeeded(cfg: Config, s: State, es: seq<Event>)
    requires Legal(cfg, s, es)
    ensures After(cfg, s, es).begun == s.begun + SwapGrants(cfg, s, es)
    decreases |es|
  {
    if es != [] {
      RecordChanges(cfg, s, es[0]);
      SwapsAreNeeded(cfg, Apply(cfg, s, es[0]), es[1..]);
    }
  }

  // ---- inside the lock ------------------------------------------------------

  /** After the last engine is freed the swap waits for memory exactly if an engine was marked when it began. */
  lemma SettlesAfterAPredecessor(cfg: Config, s: State, t: nat)
    requires Inv(cfg, s) && Enabled(cfg, s, Freed(t))
    ensures var sw, pc := s.tasks[t].pc.sw, Apply(cfg, s, Freed(t)).tasks[t].pc;
      && pc.Swap? && pc.sw == sw.(todo := sw.todo[1..])
      && (|sw.todo| > 1 ==> pc.at == Draining(Entering))
      && (|sw.todo| == 1 ==> pc.at == if sw.prev.Some? then Settling else Starting)
  {
    assert s.lock == Some(t) && HolderAt(cfg, s, s.tasks[t]);
  }

  /** A probe that shows the model ends the load at once; any other answer leads to a drain of the engine, then the load. */
  lemma ProbeDecidesTheLoad(cfg: Config, s: State, t: nat, seen: set<Model>)
    requires Enabled(cfg, s, Probed(t, seen)) && s.tasks[t].model.Some?
    ensures var s' := Apply(cfg, s, Probed(t, seen));
      && s'.loaded == s.loaded
      && (s.tasks[t].model.value in seen ==>
            s'.tasks[t].pc == if s.tasks[t].counts then Counting else Ended(Swapped))
      && (s.tasks[t].model.value !in seen ==> s'.tasks[t].pc == Load(Emptying(Entering)))
  {
  }

  /** A force_swap that ends as swapped leaves its engine marked, up and with the requested model, and the lock free. */
  lemma ForceSwapReturnsReady(cfg: Config, s: State, e: Event, t: nat)
    requires Inv(cfg, s) && Enabled(cfg, s, e) && t < |s.tasks| && !s.tasks[t].pc.Ended?
    requires t < |Apply(cfg, s, e).tasks| && Apply(cfg, s, e).tasks[t].pc == Ended(Swapped)
    ensures var s' := Apply(cfg, s, e);
      && !s.tasks[t].counts && s'.active == Some(s'.tasks[t].target) && s'.tasks[t].target in s'.up
      && Served(cfg, s', s'.tasks[t]) && s'.lock == None
  {
    StepKeeps(cfg, s, e);
    OnlyUnderTheLock(cfg, s, e, t);
    assert EnvOk(cfg, Apply(cfg, s, e));
    if !e.Grant? {
      assert s.lock == Some(t) && HolderAt(cfg, s, s.tasks[t]) by { assert HoldsLock(s.tasks[t].pc); }
    }
    hide Inv, SwapOk, SwapAt, EnvOk;
    assert Apply(cfg, s, e).active == Some(s.tasks[t].target) by { EndsMarked(cfg, s, e, t); }
    EndsServed(cfg, s, e, t);
  }

  lemma EndsMarked(cfg: Config, s: State, e: Event, t: nat)
    requires Enabled(cfg, s, e) && t < |s.tasks| && (e.Grant? || e.Started? || e.Probed? || e.Loaded?) && e.t == t
    requires if e.Grant? then s.active == Some(s.tasks[t].target) else HolderAt(cfg, s, s.tasks[t])
    requires Apply(cfg, s, e).tasks[t].pc == Ended(Swapped)
    ensures Apply(cfg, s, e).active == Some(s.tasks[t].target)
  {
    hide SwapOk, SwapAt;
    MarkerChanges(cfg, s, e);
    hide Apply;
  }

  lemma EndsServed(cfg: Config, s: State, e: Event, t: nat)
    requires Enabled(cfg, s, e) && t < |s.tasks| && (e.Grant? || e.Started? || e.Probed? || e.Loaded?) && e.t == t
    requires (e.Grant? ==> s.active == Some(s.tasks[t].target)) && Apply(cfg, s, e).tasks[t].pc == Ended(Swapped)
    ensures var s' := Apply(cfg, s, e); s'.tasks[t].target == s.tasks[t].target && s'.lock == None && Served(cfg, s', s'.tasks[t])
  {
    hide SwapNext;
  }

  /** Only the task's own grant, successful start, probe or load can end it as swapped. */
  lemma OnlyUnderTheLock(cfg: Config, s: State, e: Event, t: nat)
    requires Enabled(cfg, s, e) && t < |s.tasks| && !s.tasks[t].pc.Ended?
    requires t < |Apply(cfg, s, e).tasks| && Apply(cfg, s, e).tasks[t].pc == Ended(Swapped)
    ensures (e.Grant? || e.Started? || e.Probed? || e.Loaded?) && e.t == t && !s.tasks[t].counts
    ensures e.Grant? ==> s.active == Some(s.tasks[t].target)
  {
    if !Moving(e) || e.Expire? {
      hide GotLock, DrainLook, FreeReturns, StartReturns, ProbeReturns, LoadReturns, CountIn;
    } else if e.t != t {
      hide Apply;
      MoveShape(cfg, s, e);
    } else if e.Grant? || e.Started? || e.Probed? || e.Loaded? {
      hide Apply;
      OwnEnd(cfg, s, e);
    } else {
      hide Apply;
      OthersDoNotEnd(cfg, s, e);
    }
  }

  lemma OwnEnd(cfg: Config, s: State, e: Event)
    requires Enabled(cfg, s, e) && (e.Grant? || e.Started? || e.Probed? || e.Loaded?)
    requires Apply(cfg, s, e).tasks[e.t].pc == Ended(Swapped)
    ensures !s.tasks[e.t].counts && (e.Grant? ==> s.active == Some(s.tasks[e.t].target))
  {
  }

  lemma OthersDoNotEnd(cfg: Config, s: State, e: Event)
    requires Enabled(cfg, s, e) && (e.Look? || e.Expire? || e.Freed? || e.Settled? || e.Count?)
    ensures e.t < |Apply(cfg, s, e).tasks| && !Apply(cfg, s, e).tasks[e.t].pc.Ended?
  {
  }
}

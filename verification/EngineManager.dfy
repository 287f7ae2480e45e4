/**
 `EngineManager` as an object: its fields are assigned segment by segment, in the order router/engines.py
 assigns them, and each method is proved to take exactly the step of the state machine.
*/
module EngineManagers {
  import opened Wrappers
  import opened SwapMachine
  import opened SwapInvariant
  import opened SwapSteps

  class EngineManager {
    const cfg: Config
    var activeEngine: Option<Key>
    var activeGauge: Option<Key>
    var swapLock: Option<nat>
    var inflight: map<Key, nat>
    var swapsBegun: nat
    var swapsRecorded: nat
    var tasks: seq<Task>
    // What the engines themselves are doing.
    ghost var up: set<Key>
    ghost var gpu: set<Key>
    ghost var loaded: map<Key, set<Model>>

    ghost function Now(): State
      reads this
    {
      State(activeEngine, activeGauge, swapLock, inflight, swapsBegun, swapsRecorded, tasks, up, gpu, loaded)
    }

    ghost predicate Valid()
      reads this
    {
      Inv(cfg, Now())
    }

    /** `__init__` and `startup`: `detected` is the engine found serving, one of those really up. */
    constructor (cfg: Config, detected: Option<Key>, ghost serving: set<Key>, ghost holding: set<Key>,
                 ghost contents: map<Key, set<Model>>)
      requires ConfigOk(cfg) && serving <= holding && holding <= Table(cfg) && contents.Keys == Table(cfg)
      requires detected.Some? ==> detected.value in serving
      ensures Valid() && Init(cfg, Now()) && this.cfg == cfg
      ensures activeEngine == detected && up == serving && gpu == holding && loaded == contents
    {
      this.cfg := cfg;
      activeEngine, activeGauge, swapLock := detected, detected, None;
      inflight := map k | k in cfg.engines :: 0;
      swapsBegun, swapsRecorded, tasks := 0, 0, [];
      up, gpu, loaded := serving, holding, contents;
      new;
      InitHolds(cfg, Now());
    }

    method SetActive(key: Option<Key>)
      modifies this`activeEngine, this`activeGauge
      ensures activeEngine == key && activeGauge == key
    {
      activeEngine := key;
      if key != activeGauge { activeGauge := key; }
    }

    method Suspend(t: nat, pc: Pc)
      requires t < |tasks|
      modifies this`tasks
      ensures Now() == At(old(Now()), t, pc)
    {
      tasks := tasks[t := tasks[t].(pc := pc)];
    }

    // ---- acquire --------------------------------------------------------------

    method Acquire(model: Option<Model>) returns (t: nat)
      requires Valid()
      modifies this
      ensures Valid() && Now() == Apply(cfg, old(Now()), Spawn(true, model))
      ensures t == |old(tasks)|
    {
      StepKeeps(cfg, Now(), Spawn(true, model));
      t := |tasks|;
      tasks := tasks + [Task(true, "", model, Resolving, false)];
    }

    method EngineFound(t: nat, key: Key)
      requires Valid() && Enabled(cfg, Now(), Resolve(t, key))
      modifies this
      ensures Valid() && Now() == Apply(cfg, old(Now()), Resolve(t, key))
    {
      hide Inv;
      StepKeeps(cfg, Now(), Resolve(t, key));
      tasks := tasks[t := tasks[t].(target := key, pc := Queued)];
    }

    /** The swap lock is handed to `t`: begin a swap if the target is not active. */
    method LockGranted(t: nat)
      requires Valid() && Enabled(cfg, Now(), Grant(t))
      modifies this
      ensures Valid() && Now() == Apply(cfg, old(Now()), Grant(t))
    {
      hide Inv;
      StepKeeps(cfg, Now(), Grant(t));
      swapLock := Some(t);
      if activeEngine != Some(tasks[t].target) {
        var prev := activeEngine;
        swapsBegun := swapsBegun + 1;
        LoopHead(t, Swapping(prev, Others(cfg.engines, tasks[t].target), {}, false));
      } else {
        EnsureModelLoaded(t);
      }
    }

    /** The head of the loop of `_swap_to`, and the settle and start that follow it. */
    method LoopHead(t: nat, sw: Swapping)
      requires t < |tasks|
      modifies this`tasks, this`gpu
      ensures Now() == SwapNext(old(Now()), t, sw)
    {
      if sw.todo != [] {
        Suspend(t, Swap(sw, Draining(Entering)));
      } else if sw.prev.Some? && sw.prev.value != tasks[t].target {
        Suspend(t, Swap(sw, Settling));
      } else {
        EnsureStarted(t, sw);
      }
    }

    method EnsureStarted(t: nat, sw: Swapping)
      requires t < |tasks|
      modifies this`tasks, this`gpu
      ensures Now() == CallStart(old(Now()), t, sw)
    {
      gpu := gpu + {tasks[t].target};
      Suspend(t, Swap(sw, Starting));
    }

    /** Destructive work begins only after the marker and the gauge are cleared. */
    method FreeVram(t: nat, sw: Swapping)
      requires t < |tasks| && sw.todo != []
      modifies this`tasks, this`activeEngine, this`activeGauge, this`up
      ensures Now() == CallFree(old(Now()), t, sw)
    {
      SetActive(None);
      up := up - {sw.todo[0]};
      Suspend(t, Swap(sw, Freeing));
    }

    /** `_drain` looks at its counter, on entry or after a notification. */
    method DrainLooks(t: nat)
      requires Valid() && Enabled(cfg, Now(), Look(t))
      modifies this
      ensures Valid() && Now() == Apply(cfg, old(Now()), Look(t))
    {
      hide Inv;
      StepKeeps(cfg, Now(), Look(t));
      if inflight[DrainKey(tasks[t])] == 0 {
        DrainReturns(t, {});
      } else if tasks[t].pc.Swap? {
        Suspend(t, tasks[t].pc.(at := Draining(Parked)));
      } else {
        Suspend(t, Load(Emptying(Parked)));
      }
    }

    method DrainReturns(t: nat, expired: set<Key>)
      requires t < |tasks| && InDrain(tasks[t])
      modifies this`tasks, this`activeEngine, this`activeGauge, this`up
      ensures Now() == Drained(old(Now()), t, expired)
    {
      if tasks[t].pc.Swap? {
        FreeVram(t, tasks[t].pc.sw.(expired := tasks[t].pc.sw.expired + expired));
      } else {
        Suspend(t, Load(Loading));
      }
    }

    method DrainTimesOut(t: nat)
      requires Valid() && Enabled(cfg, Now(), Expire(t))
      modifies this
      ensures Valid() && Now() == Apply(cfg, old(Now()), Expire(t))
    {
      hide Inv;
      StepKeeps(cfg, Now(), Expire(t));
      var key := DrainKey(tasks[t]);
      assert EvictAll(tasks, key)[t] == tasks[t];
      tasks := EvictAll(tasks, key);
      DrainReturns(t, {key});
    }

    method FreeVramReturns(t: nat)
      requires Valid() && Enabled(cfg, Now(), Freed(t))
      modifies this
      ensures Valid() && Now() == Apply(cfg, old(Now()), Freed(t))
    {
      hide Inv;
      StepKeeps(cfg, Now(), Freed(t));
      var sw := tasks[t].pc.sw;
      gpu := gpu - {sw.todo[0]};
      loaded := loaded[sw.todo[0] := {}];
      LoopHead(t, sw.(todo := sw.todo[1..]));
    }

    method MemorySettled(t: nat)
      requires Valid() && Enabled(cfg, Now(), Settled(t))
      modifies this
      ensures Valid() && Now() == Apply(cfg, old(Now()), Settled(t))
    {
      hide Inv;
      StepKeeps(cfg, Now(), Settled(t));
      EnsureStarted(t, tasks[t].pc.sw.(settled := true));
    }

    /** The swap succeeded. */
    method EngineStarted(t: nat, ghost models: set<Model>)
      requires Valid() && Enabled(cfg, Now(), Started(t, models))
      modifies this
      ensures Valid() && Now() == Apply(cfg, old(Now()), Started(t, models))
    {
      hide Inv, AfterActive;
      StepKeeps(cfg, Now(), Started(t, models));
      var key := tasks[t].target;
      loaded := if key in up then loaded else loaded[key := models];
      up := up + {key};
      SetActive(Some(key));
      swapsRecorded := swapsRecorded + 1;
      EnsureModelLoaded(t);
    }

    /** `_ensure_model_loaded` up to its first await. */
    method EnsureModelLoaded(t: nat)
      requires t < |tasks|
      modifies this`tasks, this`swapLock
      ensures Now() == AfterActive(cfg, old(Now()), t)
    {
      if NeedsLoad(cfg, tasks[t]) {
        Suspend(t, Load(Probing));
      } else {
        ModelReady(t);
      }
    }

    method ModelReady(t: nat)
      requires t < |tasks|
      modifies this`tasks, this`swapLock
      ensures Now() == AfterLoad(old(Now()), t)
    {
      if tasks[t].counts {
        Suspend(t, Counting);
      } else {
        Suspend(t, Ended(Swapped));
        swapLock := None;
      }
    }

    method LoadedNamesReturn(t: nat, already: set<Model>)
      requires Valid() && Enabled(cfg, Now(), Probed(t, already))
      modifies this
      ensures Valid() && Now() == Apply(cfg, old(Now()), Probed(t, already))
    {
      hide Inv;
      StepKeeps(cfg, Now(), Probed(t, already));
      if tasks[t].model.Some? && tasks[t].model.value in already {
        ModelReady(t);
      } else {
        Suspend(t, Load(Emptying(Entering)));
      }
    }

    method LoadModelReturns(t: nat, ghost models: set<Model>)
      requires Valid() && Enabled(cfg, Now(), Loaded(t, models))
      modifies this
      ensures Valid() && Now() == Apply(cfg, old(Now()), Loaded(t, models))
    {
      hide Inv;
      StepKeeps(cfg, Now(), Loaded(t, models));
      loaded := loaded[tasks[t].target := models];
      ModelReady(t);
    }

    /** The increment: the last thing acquire does before it returns. */
    method Counted(t: nat)
      requires Valid() && Enabled(cfg, Now(), Count(t))
      modifies this
      ensures Valid() && Now() == Apply(cfg, old(Now()), Count(t))
    {
      hide Inv;
      StepKeeps(cfg, Now(), Count(t));
      var key := tasks[t].target;
      inflight := inflight[key := inflight[key] + 1];
      swapLock := None;
      Suspend(t, Lease(false, false));
    }

    /** An exception or a cancellation leaves the task where it is suspended. */
    method Interrupted(t: nat, outcome: Outcome, ghost left: set<Model>)
      requires Valid() && t < |tasks| && Unfinished(tasks[t].pc)
      modifies this
      ensures Valid() && Now() == Break(old(Now()), t, outcome, left)
    {
      hide Inv;
      BreakKeeps(cfg, Now(), t, outcome, left);
      loaded := LeftLoaded(Now(), t, left);
      if HoldsLock(tasks[t].pc) { swapLock := None; }
      if tasks[t].pc.Swap? {
        SetActive(None);
        swapsRecorded := swapsRecorded + 1;
      }
      Suspend(t, Ended(outcome));
    }

    // ---- release --------------------------------------------------------------

    /** `notify_all`. */
    method NotifyAll()
      modifies this`tasks
      ensures tasks == WakeAll(old(tasks))
    {
      ghost var before := tasks;
      var i := 0;
      while i < |tasks|
        invariant 0 <= i <= |tasks| == |before|
        invariant forall j :: 0 <= j < i ==> tasks[j] == Notified(before[j])
        invariant forall j :: i <= j < |tasks| ==> tasks[j] == before[j]
      {
        tasks := tasks[i := Notified(tasks[i])];
        i := i + 1;
      }
    }

    /** `release`: decrement unless already zero, then wake every parked drain. */
    method Release(t: nat)
      requires Valid() && Enabled(cfg, Now(), Run(t))
      modifies this
      ensures Valid() && Now() == Apply(cfg, old(Now()), Run(t))
    {
      hide Inv;
      StepKeeps(cfg, Now(), Run(t));
      var key := tasks[t].target;
      if key in inflight && inflight[key] > 0 {
        inflight := inflight[key := inflight[key] - 1];
      }
      NotifyAll();
      Suspend(t, Ended(Released));
    }
  }
}

/**
 The streaming attempt loops of router/app.py on top of the swap state machine.

 A handler works through its plan.  Each attempt runs `acquire` in a task of its own, shielded from
 the handler; the attempt's `finally` pairs the increment with one release, which is shielded too.
*/
module Attempts {
  import opened Wrappers
  import opened SwapMachine
  import opened SwapInvariant
  import opened SwapSteps

  /** Where a handler is: awaiting its acquire, relaying with `engine` bound, or awaiting the release in `finally`. */
  datatype Phase =
    | Waiting(tid: nat)
    | Relaying(tid: nat)
    | Unwinding(tid: nat, retry: bool)
    | Finished

  /** `started` counts the attempts begun so far. */
  datatype Handler = Handler(plan: seq<Model>, started: nat, phase: Phase)

  /** `owner[t]` is the handler that created acquire task `t`. */
  datatype World = World(m: State, hs: seq<Handler>, owner: map<nat, nat>)

  datatype WorldEvent =
    | Arrive(plan: seq<Model>)
    | Machine(e: Event)
    | Bind(r: nat)
    | AcquireFailed(r: nat, retry: bool)
    | RelayEnds(r: nat, retry: bool)
    | Abort(r: nat)
    | Unwound(r: nat)

  /** What happens without a handler's doing: all but starting, cancelling and releasing acquires. */
  predicate ByItself(m: State, e: Event) {
    match e
    case Spawn(counts, _) => !counts
    case Doom(t) => t < |m.tasks| && !m.tasks[t].counts
    case Release(_) => false
    case _ => true
  }

  predicate HasNext(h: Handler) {
    h.started < |h.plan|
  }

  predicate WEnabled(cfg: Config, w: World, we: WorldEvent) {
    match we
    case Arrive(plan) => plan != []
    case Machine(e) => ByItself(w.m, e) && Enabled(cfg, w.m, e)
    case Bind(r) =>
      r < |w.hs| && w.hs[r].phase.Waiting? && w.hs[r].phase.tid < |w.m.tasks| &&
      w.m.tasks[w.hs[r].phase.tid].pc.Lease?
    case AcquireFailed(r, retry) =>
      r < |w.hs| && w.hs[r].phase.Waiting? && w.hs[r].phase.tid < |w.m.tasks| &&
      var pc := w.m.tasks[w.hs[r].phase.tid].pc;
      pc.Ended? && (retry ==> HasNext(w.hs[r]) && pc.outcome == EngineError)
    case RelayEnds(r, retry) =>
      r < |w.hs| && w.hs[r].phase.Relaying? && CanRelease(w.m, w.hs[r].phase.tid) && (retry ==> HasNext(w.hs[r]))
    case Abort(r) =>
      r < |w.hs| && !w.hs[r].phase.Finished? && w.hs[r].phase.tid < |w.m.tasks| &&
      (w.hs[r].phase.Relaying? ==> CanRelease(w.m, w.hs[r].phase.tid)) &&
      (w.hs[r].phase.Waiting? && w.m.tasks[w.hs[r].phase.tid].pc.Lease? ==> CanRelease(w.m, w.hs[r].phase.tid))
    case Unwound(r) =>
      r < |w.hs| && w.hs[r].phase.Unwinding? && w.hs[r].phase.tid < |w.m.tasks| &&
      w.m.tasks[w.hs[r].phase.tid].pc.Ended? && (w.hs[r].phase.retry ==> HasNext(w.hs[r]))
  }

  predicate CanRelease(m: State, t: nat) {
    t < |m.tasks| && m.tasks[t].pc.Lease? && !m.tasks[t].pc.leaving
  }

  // ---- steps ----------------------------------------------------------------

  function Enter(w: World, r: nat, p: Phase): World
    requires r < |w.hs|
  {
    w.(hs := w.hs[r := w.hs[r].(phase := p)])
  }

  /** `asyncio.create_task(manager.acquire(mid))` for the next model of the plan. */
  function NextAttempt(cfg: Config, w: World, r: nat): World
    requires r < |w.hs| && HasNext(w.hs[r])
  {
    var h := w.hs[r];
    var tid := |w.m.tasks|;
    World(Apply(cfg, w.m, Spawn(true, Some(h.plan[h.started]))),
          w.hs[r := Handler(h.plan, h.started + 1, Waiting(tid))],
          w.owner[tid := r])
  }

  /** The `finally` of an attempt that holds a lease: schedule the shielded release and await it. */
  function LetGo(cfg: Config, w: World, r: nat, t: nat, retry: bool): World
    requires r < |w.hs| && CanRelease(w.m, t)
  {
    Enter(w.(m := Apply(cfg, w.m, Release(t))), r, Unwinding(t, retry))
  }

  /**
   Cancellation or disconnect.  A pending acquire is cancelled; an acquire that has finished but is
   not bound yet is recovered and released; a second one, during the release, only ends the handler.
  */
  function Unwind(cfg: Config, w: World, r: nat): World
    requires WEnabled(cfg, w, Abort(r))
  {
    var t := w.hs[r].phase.tid;
    match w.hs[r].phase
    case Waiting(_) =>
      if w.m.tasks[t].pc.Lease? then LetGo(cfg, w, r, t, false)
      else if Enabled(cfg, w.m, Doom(t)) then Enter(w.(m := Apply(cfg, w.m, Doom(t))), r, Finished)
      else Enter(w, r, Finished)
    case Relaying(_) => LetGo(cfg, w, r, t, false)
    case Unwinding(_, _) => Enter(w, r, Finished)
  }

  function WApply(cfg: Config, w: World, we: WorldEvent): World
    requires WEnabled(cfg, w, we)
  {
    match we
    case Arrive(plan) => NextAttempt(cfg, w.(hs := w.hs + [Handler(plan, 0, Finished)]), |w.hs|)
    case Machine(e) => w.(m := Apply(cfg, w.m, e))
    case Bind(r) => Enter(w, r, Relaying(w.hs[r].phase.tid))
    case AcquireFailed(r, retry) => if retry then NextAttempt(cfg, w, r) else Enter(w, r, Finished)
    case RelayEnds(r, retry) => LetGo(cfg, w, r, w.hs[r].phase.tid, retry)
    case Abort(r) => Unwind(cfg, w, r)
    case Unwound(r) => if w.hs[r].phase.retry then NextAttempt(cfg, w, r) else Enter(w, r, Finished)
  }

  // ---- the ownership invariant ----------------------------------------------

  /** A handler and the task it talks about agree. */
  ghost predicate HandlerOk(w: World, r: nat)
    requires r < |w.hs|
  {
    var h := w.hs[r];
    h.started <= |h.plan| && (!h.phase.Finished? ==> Alone(w, r, h.phase.tid)) &&
    match h.phase
    case Finished => true
    case Waiting(t) => Owns(w, r, t) && !w.m.tasks[t].doomed && (w.m.tasks[t].pc.Lease? ==> !w.m.tasks[t].pc.leaving)
    case Relaying(t) => Owns(w, r, t) && CanRelease(w.m, t)
    case Unwinding(t, retry) =>
      && Owns(w, r, t) && (retry ==> HasNext(h))
      && (w.m.tasks[t].pc.Ended? || (w.m.tasks[t].pc.Lease? && w.m.tasks[t].pc.leaving))
  }

  /** All earlier attempts of the handler are over. */
  ghost predicate Alone(w: World, r: nat, t: nat) {
    forall u :: 0 <= u < |w.m.tasks| && u != t && Owns(w, r, u) ==> w.m.tasks[u].pc.Ended?
  }

  ghost predicate Owns(w: World, r: nat, t: nat) {
    t < |w.m.tasks| && w.m.tasks[t].counts && t in w.owner && w.owner[t] == r
  }

  /** An acquire still running uncancelled, or holding a lease with no release scheduled, has a handler that looks after it. */
  ghost predicate LookedAfter(w: World, t: nat)
    requires t < |w.m.tasks|
  {
    var task := w.m.tasks[t];
    task.counts ==>
      && t in w.owner && w.owner[t] < |w.hs|
      && var p := w.hs[w.owner[t]].phase;
         && (Unfinished(task.pc) && !task.doomed ==> p == Waiting(t))
         && (task.pc.Lease? && !task.pc.leaving ==> p == Waiting(t) || p == Relaying(t))
  }

  ghost predicate WInv(cfg: Config, w: World) {
    && Inv(cfg, w.m)
    && (forall r :: 0 <= r < |w.hs| ==> HandlerOk(w, r))
    && (forall t :: 0 <= t < |w.m.tasks| ==> LookedAfter(w, t))
  }

  ghost predicate WInit(cfg: Config, w: World) {
    Init(cfg, w.m) && w.hs == [] && w.owner == map[]
  }

  // ---- preservation ---------------------------------------------------------

  /** What a machine step by itself may do to acquire tasks, as far as handlers can tell. */
  ghost predicate Harmless(x: Task, y: Task) {
    && y.counts == x.counts && (x.counts ==> y.doomed == x.doomed)
    && (x.pc.Ended? ==> y.pc.Ended?)
    && (x.counts && x.pc.Lease? ==> y.pc.Ended? || (y.pc.Lease? && y.pc.leaving == x.pc.leaving))
    && (x.counts && x.pc.Lease? && !x.pc.leaving ==> y.pc.Lease?)
    && (x.counts && Unfinished(x.pc) ==> Unfinished(y.pc) || y.pc.Ended? || (y.pc.Lease? && !y.pc.leaving && !x.doomed))
  }

  lemma MachineIsHarmless(cfg: Config, m: State, e: Event, t: nat)
    requires Enabled(cfg, m, e) && ByItself(m, e) && t < |m.tasks|
    ensures |Apply(cfg, m, e).tasks| >= |m.tasks| && Harmless(m.tasks[t], Apply(cfg, m, e).tasks[t])
  {
    if Moving(e) && !e.Expire? {
      hide Apply;
      MoveShape(cfg, m, e);
    } else {
      OtherStepIsHarmless(cfg, m, e, t);
    }
  }

  lemma OtherStepIsHarmless(cfg: Config, m: State, e: Event, t: nat)
    requires Enabled(cfg, m, e) && ByItself(m, e) && t < |m.tasks| && (e.Expire? || !Moving(e))
    ensures |Apply(cfg, m, e).tasks| >= |m.tasks| && Harmless(m.tasks[t], Apply(cfg, m, e).tasks[t])
  {
    hide GotLock, DrainLook, FreeReturns, StartReturns, ProbeReturns, LoadReturns, CountIn;
  }

  lemma NewTasksAreForced(cfg: Config, m: State, e: Event)
    requires Enabled(cfg, m, e) && ByItself(m, e)
    ensures forall t :: |m.tasks| <= t < |Apply(cfg, m, e).tasks| ==> !Apply(cfg, m, e).tasks[t].counts
  {
  }

  lemma MachineKeeps(cfg: Config, w: World, e: Event)
    requires WInv(cfg, w) && WEnabled(cfg, w, Machine(e))
    ensures WInv(cfg, WApply(cfg, w, Machine(e)))
  {
    hide Apply, Enabled;
    var w' := WApply(cfg, w, Machine(e));
    StepKeeps(cfg, w.m, e);
    forall t | 0 <= t < |w.m.tasks|
      ensures t < |w'.m.tasks| && Harmless(w.m.tasks[t], w'.m.tasks[t])
    {
      MachineIsHarmless(cfg, w.m, e, t);
    }
    NewTasksAreForced(cfg, w.m, e);
    forall r | 0 <= r < |w'.hs|
      ensures HandlerOk(w', r)
    {
      assert HandlerOk(w, r);
    }
    forall t | 0 <= t < |w'.m.tasks|
      ensures LookedAfter(w', t)
    {
      if t < |w.m.tasks| { assert LookedAfter(w, t); }
    }
  }

  /** Handler `r` moved on from task `t0`; everything else is as before. */
  lemma HandlerMoves(cfg: Config, w: World, w': World, r: nat, t0: nat)
    requires WInv(cfg, w) && Inv(cfg, w'.m) && r < |w.hs| && t0 < |w.m.tasks|
    requires !w.hs[r].phase.Finished? ==> w.hs[r].phase.tid == t0
    requires |w'.hs| == |w.hs| && w'.owner == w.owner && |w'.m.tasks| == |w.m.tasks|
    requires forall i :: 0 <= i < |w.hs| && i != r ==> w'.hs[i] == w.hs[i]
    requires forall i :: 0 <= i < |w.m.tasks| && i != t0 ==> w'.m.tasks[i] == w.m.tasks[i]
    requires Owns(w, r, t0)
    requires HandlerOk(w', r) && LookedAfter(w', t0)
    ensures WInv(cfg, w')
  {
    hide Inv;
    forall i | 0 <= i < |w'.hs|
      ensures HandlerOk(w', i)
    {
      assert HandlerOk(w, i);
    }
    forall t | 0 <= t < |w'.m.tasks|
      ensures LookedAfter(w', t)
    {
      assert LookedAfter(w, t);
    }
  }

  lemma NextAttemptKeeps(cfg: Config, w: World, r: nat)
    requires Inv(cfg, w.m) && r < |w.hs| && HasNext(w.hs[r])
    requires forall i :: 0 <= i < |w.hs| && i != r ==> HandlerOk(w, i)
    requires forall t :: 0 <= t < |w.m.tasks| ==> LookedAfter(w, t)
    requires Alone(w, r, |w.m.tasks|)
    ensures WInv(cfg, NextAttempt(cfg, w, r))
  {
    var w' := NextAttempt(cfg, w, r);
    StepKeeps(cfg, w.m, Spawn(true, Some(w.hs[r].plan[w.hs[r].started])));
    hide Inv;
    forall i | 0 <= i < |w'.hs|
      ensures HandlerOk(w', i)
    {
      if i != r { assert HandlerOk(w, i); }
    }
    forall t | 0 <= t < |w'.m.tasks|
      ensures LookedAfter(w', t)
    {
      if t < |w.m.tasks| { assert LookedAfter(w, t); }
    }
  }

  lemma LetGoKeeps(cfg: Config, w: World, r: nat, t: nat, retry: bool)
    requires WInv(cfg, w) && r < |w.hs| && CanRelease(w.m, t)
    requires (w.hs[r].phase == Waiting(t) || w.hs[r].phase == Relaying(t)) && (retry ==> HasNext(w.hs[r]))
    ensures WInv(cfg, LetGo(cfg, w, r, t, retry))
  {
    hide Inv;
    var w' := LetGo(cfg, w, r, t, retry);
    assert HandlerOk(w, r) && LookedAfter(w, t);
    StepKeeps(cfg, w.m, Release(t));
    assert HandlerOk(w', r) && LookedAfter(w', t);
    HandlerMoves(cfg, w, w', r, t);
  }

  lemma AbortKeeps(cfg: Config, w: World, r: nat)
    requires WInv(cfg, w) && WEnabled(cfg, w, Abort(r))
    ensures WInv(cfg, Unwind(cfg, w, r))
  {
    assert HandlerOk(w, r);
    var t := w.hs[r].phase.tid;
    assert LookedAfter(w, t);
    if CanRelease(w.m, t) {
      LetGoKeeps(cfg, w, r, t, false);
    } else {
      if Enabled(cfg, w.m, Doom(t)) { StepKeeps(cfg, w.m, Doom(t)); }
      hide Inv;
      HandlerMoves(cfg, w, Unwind(cfg, w, r), r, t);
    }
  }

  lemma ArriveKeeps(cfg: Config, w: World, plan: seq<Model>)
    requires WInv(cfg, w) && plan != []
    ensures WInv(cfg, WApply(cfg, w, Arrive(plan)))
  {
    hide Inv;
    var w1 := w.(hs := w.hs + [Handler(plan, 0, Finished)]);
    forall i | 0 <= i < |w.hs|
      ensures HandlerOk(w1, i)
    {
      assert HandlerOk(w, i);
    }
    forall t | 0 <= t < |w.m.tasks|
      ensures LookedAfter(w1, t)
      ensures w1.m.tasks[t].counts ==> w1.owner[t] != |w.hs|
    {
      assert LookedAfter(w, t);
    }
    NextAttemptKeeps(cfg, w1, |w.hs|);
  }

  lemma WStepKeeps(cfg: Config, w: World, we: WorldEvent)
    requires WInv(cfg, w) && WEnabled(cfg, w, we)
    ensures WInv(cfg, WApply(cfg, w, we))
  {
    hide Inv, Apply, LetGo, NextAttempt, Unwind;
    match we
    case Arrive(plan) => ArriveKeeps(cfg, w, plan);
    case Machine(e) => MachineKeeps(cfg, w, e);
    case Bind(r) =>
      assert HandlerOk(w, r) && LookedAfter(w, w.hs[r].phase.tid);
      HandlerMoves(cfg, w, WApply(cfg, w, we), r, w.hs[r].phase.tid);
    case AcquireFailed(r, retry) =>
      assert HandlerOk(w, r) && LookedAfter(w, w.hs[r].phase.tid);
      if retry {
        NextAttemptKeeps(cfg, w, r);
      } else {
        HandlerMoves(cfg, w, WApply(cfg, w, we), r, w.hs[r].phase.tid);
      }
    case RelayEnds(r, retry) => LetGoKeeps(cfg, w, r, w.hs[r].phase.tid, retry);
    case Abort(r) => AbortKeeps(cfg, w, r);
    case Unwound(r) =>
      assert HandlerOk(w, r) && LookedAfter(w, w.hs[r].phase.tid);
      if w.hs[r].phase.retry {
        NextAttemptKeeps(cfg, w, r);
      } else {
        HandlerMoves(cfg, w, WApply(cfg, w, we), r, w.hs[r].phase.tid);
      }
  }
}

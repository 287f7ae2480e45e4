/** The acquires a request makes, over whole runs: one after the other, for the models of its plan in order. */
module AttemptPlans {
  import opened Wrappers
  import opened SwapMachine
  import opened SwapSteps
  import opened SwapTheorems
  import opened Attempts
  import opened AttemptTheorems

  /** The models asked for by the acquires of handler `r` among the first `n` tasks, in order. */
  ghost function Asked(w: World, r: nat, n: nat): seq<Option<Model>>
    requires n <= |w.m.tasks|
  {
    if n == 0 then []
    else if Owns(w, r, n - 1) then Asked(w, r, n - 1) + [w.m.tasks[n - 1].model]
    else Asked(w, r, n - 1)
  }

  function Named(plan: seq<Model>): seq<Option<Model>> {
    seq(|plan|, i requires 0 <= i < |plan| => Some(plan[i]))
  }

  /** Handler `r` has asked for the first models of its plan, as many as it has started attempts. */
  ghost predicate FollowsPlan(w: World, r: nat)
    requires r < |w.hs|
  {
    w.hs[r].started <= |w.hs[r].plan| && Asked(w, r, |w.m.tasks|) == Named(w.hs[r].plan[..w.hs[r].started])
  }

  ghost predicate AllFollow(w: World) {
    (forall r :: 0 <= r < |w.hs| ==> FollowsPlan(w, r)) && forall t :: t in w.owner ==> w.owner[t] < |w.hs|
  }

  lemma {:induction false} AskedKept(w: World, w': World, r: nat, n: nat)
    requires n <= |w.m.tasks| && n <= |w'.m.tasks|
    requires forall t :: 0 <= t < n ==> w'.m.tasks[t].model == w.m.tasks[t].model && (Owns(w', r, t) <==> Owns(w, r, t))
    ensures Asked(w', r, n) == Asked(w, r, n)
  {
    if n > 0 { AskedKept(w, w', r, n - 1); }
  }

  lemma {:induction false} NothingAsked(w: World, r: nat, n: nat)
    requires n <= |w.m.tasks| && forall t :: 0 <= t < n ==> !Owns(w, r, t)
    ensures Asked(w, r, n) == []
  {
    if n > 0 { NothingAsked(w, r, n - 1); }
  }

  /** A step of the machine never changes what a task asks for. */
  lemma RequestsStay(cfg: Config, s: State, e: Event, t: nat)
    requires Enabled(cfg, s, e) && t < |s.tasks|
    ensures var s' := Apply(cfg, s, e);
      t < |s'.tasks| && s'.tasks[t].model == s.tasks[t].model && s'.tasks[t].counts == s.tasks[t].counts
  {
    hide GotLock, DrainLook, FreeReturns, StartReturns, ProbeReturns, LoadReturns, CountIn;
    if Moving(e) && !e.Expire? {
      hide Apply;
      MoveShape(cfg, s, e);
    }
  }

  /** `w'` has the handlers of `w` with the same plans and attempts, and no new acquire. */
  ghost predicate NothingAskedSince(w: World, w': World) {
    && |w'.hs| == |w.hs| && w'.owner == w.owner && |w.m.tasks| <= |w'.m.tasks|
    && (forall r :: 0 <= r < |w.hs| ==> w'.hs[r].plan == w.hs[r].plan && w'.hs[r].started == w.hs[r].started)
    && (forall t :: 0 <= t < |w.m.tasks| ==>
          w'.m.tasks[t].model == w.m.tasks[t].model && w'.m.tasks[t].counts == w.m.tasks[t].counts)
    && (forall t :: |w.m.tasks| <= t < |w'.m.tasks| ==> !w'.m.tasks[t].counts)
  }

  lemma {:induction false} AskedNothingNew(w: World, r: nat, m: nat, n: nat)
    requires m <= n <= |w.m.tasks| && forall t :: m <= t < n ==> !w.m.tasks[t].counts
    ensures Asked(w, r, n) == Asked(w, r, m)
    decreases n - m
  {
    if m < n { AskedNothingNew(w, r, m, n - 1); }
  }

  lemma QuietStepFollows(w: World, w': World)
    requires AllFollow(w) && NothingAskedSince(w, w')
    ensures AllFollow(w')
  {
    forall r | 0 <= r < |w'.hs|
      ensures FollowsPlan(w', r)
    {
      assert FollowsPlan(w, r);
      AskedKept(w, w', r, |w.m.tasks|);
      AskedNothingNew(w', r, |w.m.tasks|, |w'.m.tasks|);
    }
  }

  /** The next attempt is for the next model of the plan. */
  lemma NextAttemptFollows(cfg: Config, w: World, r: nat)
    requires AllFollow(w) && r < |w.hs| && HasNext(w.hs[r])
    ensures AllFollow(NextAttempt(cfg, w, r))
  {
    var w' := NextAttempt(cfg, w, r);
    var n := |w.m.tasks|;
    forall i | 0 <= i < |w'.hs|
      ensures FollowsPlan(w', i)
    {
      assert FollowsPlan(w, i);
      AskedKept(w, w', i, n);
      if i == r {
        var h := w.hs[r];
        assert Owns(w', r, n);
        assert Named(h.plan[..h.started + 1]) == Named(h.plan[..h.started]) + [Some(h.plan[h.started])];
      }
    }
  }

  lemma ArriveFollows(cfg: Config, w: World, plan: seq<Model>)
    requires AllFollow(w) && plan != []
    ensures AllFollow(WApply(cfg, w, Arrive(plan)))
  {
    var r := |w.hs|;
    var w1 := w.(hs := w.hs + [Handler(plan, 0, Finished)]);
    forall i | 0 <= i < |w1.hs|
      ensures FollowsPlan(w1, i)
    {
      if i < r {
        assert FollowsPlan(w, i);
        AskedKept(w, w1, i, |w.m.tasks|);
      } else {
        NothingAsked(w1, r, |w.m.tasks|);
      }
    }
    NextAttemptFollows(cfg, w1, r);
  }

  lemma MachineStepFollows(cfg: Config, w: World, e: Event)
    requires AllFollow(w) && WEnabled(cfg, w, Machine(e))
    ensures AllFollow(WApply(cfg, w, Machine(e)))
  {
    hide Apply, Enabled;
    var w' := WApply(cfg, w, Machine(e));
    NewTasksAreForced(cfg, w.m, e);
    TasksStay(cfg, w.m, e);
    forall t | 0 <= t < |w.m.tasks|
      ensures w'.m.tasks[t].model == w.m.tasks[t].model && w'.m.tasks[t].counts == w.m.tasks[t].counts
    {
      RequestsStay(cfg, w.m, e, t);
    }
    QuietStepFollows(w, w');
  }

  lemma TasksStay(cfg: Config, s: State, e: Event)
    requires Enabled(cfg, s, e)
    ensures |s.tasks| <= |Apply(cfg, s, e).tasks|
  {
    if s.tasks != [] { RequestsStay(cfg, s, e, |s.tasks| - 1); }
  }

  lemma LetGoAsksNothing(cfg: Config, w: World, r: nat, t: nat, retry: bool)
    requires r < |w.hs| && CanRelease(w.m, t)
    ensures NothingAskedSince(w, LetGo(cfg, w, r, t, retry))
  {
  }

  lemma UnwindAsksNothing(cfg: Config, w: World, r: nat)
    requires WEnabled(cfg, w, Abort(r))
    ensures NothingAskedSince(w, Unwind(cfg, w, r))
  {
  }

  lemma StepFollows(cfg: Config, w: World, we: WorldEvent)
    requires AllFollow(w) && WEnabled(cfg, w, we)
    ensures AllFollow(WApply(cfg, w, we))
  {
    hide NextAttempt, AllFollow, Apply, LetGo, Unwind;
    match we
    case Arrive(plan) => ArriveFollows(cfg, w, plan);
    case Machine(e) => MachineStepFollows(cfg, w, e);
    case Bind(r) => QuietStepFollows(w, WApply(cfg, w, we));
    case AcquireFailed(r, retry) =>
      if retry { NextAttemptFollows(cfg, w, r); } else { QuietStepFollows(w, WApply(cfg, w, we)); }
    case RelayEnds(r, retry) =>
      LetGoAsksNothing(cfg, w, r, w.hs[r].phase.tid, retry);
      QuietStepFollows(w, WApply(cfg, w, we));
    case Abort(r) =>
      UnwindAsksNothing(cfg, w, r);
      QuietStepFollows(w, WApply(cfg, w, we));
    case Unwound(r) =>
      if w.hs[r].phase.retry { NextAttemptFollows(cfg, w, r); } else { QuietStepFollows(w, WApply(cfg, w, we)); }
  }

  lemma {:induction false} RunFollows(cfg: Config, w: World, es: seq<WorldEvent>)
    requires AllFollow(w) && WLegal(cfg, w, es)
    ensures AllFollow(WAfter(cfg, w, es))
    decreases |es|
  {
    if es != [] {
      StepFollows(cfg, w, es[0]);
      RunFollows(cfg, WApply(cfg, w, es[0]), es[1..]);
    }
  }

  /** In every run each request has acquired, in this order, for the first models of its plan, one per attempt it started. */
  lemma AttemptsFollowThePlan(cfg: Config, w: World, es: seq<WorldEvent>, r: nat)
    requires WInit(cfg, w) && WLegal(cfg, w, es) && r < |WAfter(cfg, w, es).hs|
    ensures var w' := WAfter(cfg, w, es); var h := w'.hs[r];
      h.started <= |h.plan| && Asked(w', r, |w'.m.tasks|) == Named(h.plan[..h.started])
  {
    RunFollows(cfg, w, es);
    assert FollowsPlan(WAfter(cfg, w, es), r);
  }

  // ---- when a further attempt is made ---------------------------------------

  /** An acquire that failed with an EngineError, or whose engine was given back. */
  predicate Clean(pc: Pc) {
    pc == Ended(EngineError) || pc == Ended(Released)
  }

  /** Task `t` is no longer the latest acquire of its handler. */
  ghost predicate Superseded(w: World, r: nat, t: nat) {
    Owns(w, r, t) && exists u :: t < u < |w.m.tasks| && Owns(w, r, u)
  }

  ghost predicate Orderly(w: World) {
    && (forall r, t :: 0 <= r < |w.hs| && 0 <= t < |w.m.tasks| && Superseded(w, r, t) ==> Clean(w.m.tasks[t].pc))
    && (forall r :: 0 <= r < |w.hs| && w.hs[r].phase.Unwinding? && w.hs[r].phase.retry ==> GivingBack(w, w.hs[r].phase.tid))
    && (forall r :: 0 <= r < |w.hs| && !w.hs[r].phase.Finished? ==> LatestIs(w, r, w.hs[r].phase.tid))
    && (forall t :: t in w.owner ==> w.owner[t] < |w.hs|)
  }

  /** Task `t` is the latest acquire of handler `r`. */
  ghost predicate LatestIs(w: World, r: nat, t: nat) {
    Owns(w, r, t) && forall u :: 0 <= u < |w.m.tasks| && Owns(w, r, u) ==> u <= t
  }

  /** The engine of task `t` was given back, or is about to be. */
  ghost predicate GivingBack(w: World, t: nat) {
    t < |w.m.tasks| && (w.m.tasks[t].pc == Ended(Released) || (w.m.tasks[t].pc.Lease? && w.m.tasks[t].pc.leaving))
  }

  /** What a step may do to a task that is over, or on its way to giving its engine back. */
  ghost predicate StaysOver(x: Task, y: Task) {
    && (x.pc.Ended? ==> y.pc == x.pc)
    && (x.pc.Lease? && x.pc.leaving ==> y.pc == Ended(Released) || (y.pc.Lease? && y.pc.leaving))
  }

  lemma OverStaysOver(cfg: Config, s: State, e: Event, t: nat)
    requires Enabled(cfg, s, e) && t < |s.tasks|
    ensures t < |Apply(cfg, s, e).tasks| && StaysOver(s.tasks[t], Apply(cfg, s, e).tasks[t])
  {
    hide GotLock, DrainLook, FreeReturns, StartReturns, ProbeReturns, LoadReturns, CountIn;
    if Moving(e) && !e.Expire? {
      hide Apply;
      MoveShape(cfg, s, e);
      MovesOnLock(cfg, s, e);
    }
  }

  /** A step without a new acquire keeps order, if what it makes of a retry is an engine on its way back. */
  lemma QuietStepIsOrderly(w: World, w': World)
    requires Orderly(w) && NothingAskedSince(w, w')
    requires forall t :: 0 <= t < |w.m.tasks| ==> StaysOver(w.m.tasks[t], w'.m.tasks[t])
    requires forall r :: 0 <= r < |w.hs| && !w'.hs[r].phase.Finished? ==>
      !w.hs[r].phase.Finished? && w'.hs[r].phase.tid == w.hs[r].phase.tid
    requires forall r :: 0 <= r < |w.hs| && w'.hs[r].phase.Unwinding? && w'.hs[r].phase.retry ==>
      w'.hs[r].phase == w.hs[r].phase || GivingBack(w', w'.hs[r].phase.tid)
    ensures Orderly(w')
  {
    forall r, t | 0 <= r < |w'.hs| && 0 <= t < |w'.m.tasks| && Superseded(w', r, t)
      ensures Clean(w'.m.tasks[t].pc)
    {
      var u :| t < u < |w'.m.tasks| && Owns(w', r, u);
      assert Owns(w, r, t) && Owns(w, r, u);
      assert Superseded(w, r, t);
    }
    forall r | 0 <= r < |w'.hs| && w'.hs[r].phase.Unwinding? && w'.hs[r].phase.retry
      ensures GivingBack(w', w'.hs[r].phase.tid)
    {
      if w'.hs[r].phase == w.hs[r].phase { assert GivingBack(w, w.hs[r].phase.tid); }
    }
    forall r | 0 <= r < |w'.hs| && !w'.hs[r].phase.Finished?
      ensures LatestIs(w', r, w'.hs[r].phase.tid)
    {
      assert LatestIs(w, r, w.hs[r].phase.tid);
      assert forall u :: 0 <= u < |w'.m.tasks| && Owns(w', r, u) ==> Owns(w, r, u);
    }
  }

  /** A further attempt keeps order if the attempt before it is over cleanly. */
  lemma NextAttemptIsOrderly(cfg: Config, w: World, r: nat)
    requires Orderly(w) && r < |w.hs| && HasNext(w.hs[r])
    requires forall t :: 0 <= t < |w.m.tasks| && Owns(w, r, t) ==> Clean(w.m.tasks[t].pc)
    ensures Orderly(NextAttempt(cfg, w, r))
  {
    var w' := NextAttempt(cfg, w, r);
    var n := |w.m.tasks|;
    forall i, t | 0 <= i < |w'.hs| && 0 <= t < |w'.m.tasks| && Superseded(w', i, t)
      ensures Clean(w'.m.tasks[t].pc)
    {
      var u :| t < u < |w'.m.tasks| && Owns(w', i, u);
      assert Owns(w, i, t);
      if i != r {
        assert Owns(w, i, u);
        assert Superseded(w, i, t);
      }
    }
    forall i | 0 <= i < |w'.hs| && w'.hs[i].phase.Unwinding? && w'.hs[i].phase.retry
      ensures GivingBack(w', w'.hs[i].phase.tid)
    {
      assert GivingBack(w, w.hs[i].phase.tid);
    }
    forall i | 0 <= i < |w'.hs| && !w'.hs[i].phase.Finished?
      ensures LatestIs(w', i, w'.hs[i].phase.tid)
    {
      if i == r {
        assert Owns(w', r, n);
      } else {
        assert LatestIs(w, i, w.hs[i].phase.tid);
        assert forall u :: 0 <= u < |w'.m.tasks| && Owns(w', i, u) ==> Owns(w, i, u);
      }
    }
  }

  /** All attempts of a handler are over cleanly once its latest one is. */
  lemma LatestDecides(w: World, r: nat)
    requires Orderly(w) && r < |w.hs| && !w.hs[r].phase.Finished?
    requires w.hs[r].phase.tid < |w.m.tasks| && Clean(w.m.tasks[w.hs[r].phase.tid].pc)
    ensures forall t :: 0 <= t < |w.m.tasks| && Owns(w, r, t) ==> Clean(w.m.tasks[t].pc)
  {
    var tid := w.hs[r].phase.tid;
    assert LatestIs(w, r, tid);
    forall t | 0 <= t < |w.m.tasks| && Owns(w, r, t)
      ensures Clean(w.m.tasks[t].pc)
    {
      if t != tid { assert Superseded(w, r, t); }
    }
  }

  lemma ArriveIsOrderly(cfg: Config, w: World, plan: seq<Model>)
    requires Orderly(w) && plan != []
    ensures Orderly(WApply(cfg, w, Arrive(plan)))
  {
    var r := |w.hs|;
    var w1 := w.(hs := w.hs + [Handler(plan, 0, Finished)]);
    assert forall i, t :: Owns(w1, i, t) <==> Owns(w, i, t);
    forall i, t | 0 <= i < |w1.hs| && 0 <= t < |w1.m.tasks| && Superseded(w1, i, t)
      ensures Clean(w1.m.tasks[t].pc)
    {
      var u :| t < u < |w1.m.tasks| && Owns(w1, i, u);
      assert i != r && Superseded(w, i, t);
    }
    forall i | 0 <= i < |w1.hs| && !w1.hs[i].phase.Finished?
      ensures LatestIs(w1, i, w1.hs[i].phase.tid)
    {
      assert LatestIs(w, i, w.hs[i].phase.tid);
    }
    assert forall i :: 0 <= i < |w1.hs| && w1.hs[i].phase.Unwinding? && w1.hs[i].phase.retry ==> GivingBack(w, w.hs[i].phase.tid);
    assert Orderly(w1);
    NextAttemptIsOrderly(cfg, w1, r);
  }

  lemma MachineStepIsOrderly(cfg: Config, w: World, e: Event)
    requires Orderly(w) && WEnabled(cfg, w, Machine(e))
    ensures Orderly(WApply(cfg, w, Machine(e)))
  {
    hide Apply, Enabled, Orderly;
    var w' := WApply(cfg, w, Machine(e));
    NewTasksAreForced(cfg, w.m, e);
    TasksStay(cfg, w.m, e);
    forall t | 0 <= t < |w.m.tasks|
      ensures w'.m.tasks[t].model == w.m.tasks[t].model && w'.m.tasks[t].counts == w.m.tasks[t].counts
      ensures StaysOver(w.m.tasks[t], w'.m.tasks[t])
    {
      RequestsStay(cfg, w.m, e, t);
      OverStaysOver(cfg, w.m, e, t);
    }
    QuietStepIsOrderly(w, w');
  }

  /** A handler that stays with its attempt, or ends: the machine is untouched. */
  lemma PhaseStepIsOrderly(w: World, r: nat, p: Phase)
    requires Orderly(w) && r < |w.hs| && !w.hs[r].phase.Finished?
    requires p == Finished || p == Relaying(w.hs[r].phase.tid)
    ensures Orderly(Enter(w, r, p))
  {
    QuietStepIsOrderly(w, Enter(w, r, p));
  }

  lemma LetGoIsOrderly(cfg: Config, w: World, r: nat, retry: bool)
    requires Orderly(w) && r < |w.hs| && !w.hs[r].phase.Finished? && CanRelease(w.m, w.hs[r].phase.tid)
    ensures Orderly(LetGo(cfg, w, r, w.hs[r].phase.tid, retry))
  {
    var w' := LetGo(cfg, w, r, w.hs[r].phase.tid, retry);
    LetGoAsksNothing(cfg, w, r, w.hs[r].phase.tid, retry);
    assert GivingBack(w', w.hs[r].phase.tid);
    QuietStepIsOrderly(w, w');
  }

  lemma UnwindIsOrderly(cfg: Config, w: World, r: nat)
    requires Orderly(w) && WEnabled(cfg, w, Abort(r))
    ensures Orderly(Unwind(cfg, w, r))
  {
    var t := w.hs[r].phase.tid;
    if w.hs[r].phase.Relaying? || (w.hs[r].phase.Waiting? && w.m.tasks[t].pc.Lease?) {
      hide Orderly, LetGo;
      LetGoIsOrderly(cfg, w, r, false);
    } else {
      hide Orderly;
      UnwindAsksNothing(cfg, w, r);
      QuietStepIsOrderly(w, Unwind(cfg, w, r));
    }
  }

  lemma StepIsOrderly(cfg: Config, w: World, we: WorldEvent)
    requires Orderly(w) && WEnabled(cfg, w, we)
    ensures Orderly(WApply(cfg, w, we))
  {
    hide NextAttempt, Orderly, Apply, LetGo, Unwind;
    match we
    case Arrive(plan) => ArriveIsOrderly(cfg, w, plan);
    case Machine(e) => MachineStepIsOrderly(cfg, w, e);
    case Bind(r) => PhaseStepIsOrderly(w, r, Relaying(w.hs[r].phase.tid));
    case AcquireFailed(r, retry) =>
      if retry {
        LatestDecides(w, r);
        NextAttemptIsOrderly(cfg, w, r);
      } else {
        PhaseStepIsOrderly(w, r, Finished);
      }
    case RelayEnds(r, retry) => LetGoIsOrderly(cfg, w, r, retry);
    case Abort(r) => UnwindIsOrderly(cfg, w, r);
    case Unwound(r) =>
      if w.hs[r].phase.retry {
        RetryWasGivenBack(w, r);
        LatestDecides(w, r);
        NextAttemptIsOrderly(cfg, w, r);
      } else {
        PhaseStepIsOrderly(w, r, Finished);
      }
  }

  lemma RetryWasGivenBack(w: World, r: nat)
    requires Orderly(w) && r < |w.hs| && w.hs[r].phase.Unwinding? && w.hs[r].phase.retry
    ensures GivingBack(w, w.hs[r].phase.tid)
  {
  }

  lemma {:induction false} RunIsOrderly(cfg: Config, w: World, es: seq<WorldEvent>)
    requires Orderly(w) && WLegal(cfg, w, es)
    ensures Orderly(WAfter(cfg, w, es))
    decreases |es|
  {
    if es != [] {
      StepIsOrderly(cfg, w, es[0]);
      RunIsOrderly(cfg, WApply(cfg, w, es[0]), es[1..]);
    }
  }

  /**
   In every run each attempt of a request but its latest has ended in an EngineError or has given its engine back: no
   further attempt follows a cancelled acquire or another exception, and none overlaps the one before.
  */
  lemma RetriesFollowCleanEnds(cfg: Config, w: World, es: seq<WorldEvent>, r: nat, t: nat, u: nat)
    requires WInit(cfg, w) && WLegal(cfg, w, es)
    requires var w' := WAfter(cfg, w, es);
      r < |w'.hs| && t < u < |w'.m.tasks| && Owns(w', r, t) && Owns(w', r, u)
    ensures var pc := WAfter(cfg, w, es).m.tasks[t].pc; pc == Ended(EngineError) || pc == Ended(Released)
  {
    RunIsOrderly(cfg, w, es);
    assert Superseded(WAfter(cfg, w, es), r, t);
  }
}

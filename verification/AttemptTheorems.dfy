/** What the attempt loops and the swap machine guarantee together, over whole runs. */
module AttemptTheorems {
  import opened Totals
  import opened Wrappers
  import opened SwapMachine
  import opened SwapInvariant
  import opened SwapProgress
  import opened Attempts

  ghost predicate WLegal(cfg: Config, w: World, es: seq<WorldEvent>)
    decreases |es|
  {
    es == [] || (WEnabled(cfg, w, es[0]) && WLegal(cfg, WApply(cfg, w, es[0]), es[1..]))
  }

  ghost function WAfter(cfg: Config, w: World, es: seq<WorldEvent>): World
    requires WLegal(cfg, w, es)
    decreases |es|
  {
    if es == [] then w else WAfter(cfg, WApply(cfg, w, es[0]), es[1..])
  }

  lemma {:induction false} WReachable(cfg: Config, w: World, es: seq<WorldEvent>)
    requires WInv(cfg, w) && WLegal(cfg, w, es)
    ensures WInv(cfg, WAfter(cfg, w, es))
    decreases |es|
  {
    if es != [] {
      WStepKeeps(cfg, w, es[0]);
      WReachable(cfg, WApply(cfg, w, es[0]), es[1..]);
    }
  }

  lemma WInitHolds(cfg: Config, w: World)
    requires ConfigOk(cfg) && WInit(cfg, w)
    ensures WInv(cfg, w)
  {
  }

  // ---- conservation ---------------------------------------------------------

  /**
   For every interleaving and every cancellation point: each count is the number of attempts that were
   acquired and not yet released, and each of those has its release scheduled or a handler, waiting or
   relaying, whose `finally` will schedule it.
  */
  lemma EveryIncrementIsLookedAfter(cfg: Config, w: World, es: seq<WorldEvent>)
    requires ConfigOk(cfg) && WInit(cfg, w) && WLegal(cfg, w, es)
    ensures var w' := WAfter(cfg, w, es);
      && (forall k :: k in cfg.engines ==> k in w'.m.inflight && w'.m.inflight[k] == LeaseCount(w'.m.tasks, k))
      && (forall t :: 0 <= t < |w'.m.tasks| && w'.m.tasks[t].pc.Lease? && !w'.m.tasks[t].pc.leaving ==>
            t in w'.owner && w'.owner[t] < |w'.hs| &&
            (w'.hs[w'.owner[t]].phase == Waiting(t) || w'.hs[w'.owner[t]].phase == Relaying(t)))
  {
    WInitHolds(cfg, w);
    WReachable(cfg, w, es);
    var w' := WAfter(cfg, w, es);
    forall t | 0 <= t < |w'.m.tasks| && w'.m.tasks[t].pc.Lease? && !w'.m.tasks[t].pc.leaving
      ensures t in w'.owner && w'.owner[t] < |w'.hs|
      ensures w'.hs[w'.owner[t]].phase == Waiting(t) || w'.hs[w'.owner[t]].phase == Relaying(t)
    {
      assert LookedAfter(w', t);
    }
  }

  /** A waiting acquire and a lease belong to different requests. */
  lemma WaiterHoldsNothing(cfg: Config, w: World, t: nat, u: nat)
    requires WInv(cfg, w) && t < |w.m.tasks| && u < |w.m.tasks| && w.m.tasks[t].counts && w.m.tasks[u].counts
    requires Unfinished(w.m.tasks[t].pc) && !w.m.tasks[t].doomed && w.m.tasks[u].pc.Lease?
    ensures t in w.owner && u in w.owner && w.owner[t] != w.owner[u]
  {
    hide Inv;
    assert LookedAfter(w, t) && LookedAfter(w, u);
    assert HandlerOk(w, w.owner[t]);
  }

  /** A request never queues for the next engine while it still holds one. */
  lemma NoHoldAndWait(cfg: Config, w: World, es: seq<WorldEvent>, t: nat, u: nat)
    requires ConfigOk(cfg) && WInit(cfg, w) && WLegal(cfg, w, es)
    requires var w' := WAfter(cfg, w, es);
      && t < |w'.m.tasks| && u < |w'.m.tasks| && w'.m.tasks[t].counts && w'.m.tasks[u].counts
      && Unfinished(w'.m.tasks[t].pc) && !w'.m.tasks[t].doomed && w'.m.tasks[u].pc.Lease?
    ensures var w' := WAfter(cfg, w, es); t in w'.owner && u in w'.owner && w'.owner[t] != w'.owner[u]
  {
    hide WInv;
    WInitHolds(cfg, w);
    WReachable(cfg, w, es);
    WaiterHoldsNothing(cfg, WAfter(cfg, w, es), t, u);
  }

  // ---- progress -------------------------------------------------------------

  /** Everything but new requests and new admin calls. */
  predicate Internal(we: WorldEvent) {
    match we
    case Arrive(_) => false
    case Machine(e) => !IsSpawn(e)
    case _ => true
  }

  function Ahead(k: nat, n: nat): nat {
    if n == 0 then 0 else k + Ahead(k, n - 1)
  }

  function PhaseRank(p: Phase): nat {
    match p
    case Waiting(_) => 3
    case Relaying(_) => 2
    case Unwinding(_, _) => 1
    case Finished => 0
  }

  function HandlerRank(k: nat, h: Handler): nat {
    PhaseRank(h.phase) + Ahead(k, if h.started <= |h.plan| then |h.plan| - h.started else 0)
  }

  ghost function HandlerIn(k: nat): Handler -> nat {
    (h: Handler) => HandlerRank(k, h)
  }

  /** Attempts left, then phases, then engines left to free. */
  ghost function Measure(cfg: Config, w: World): nat {
    Work(cfg, w.m) + Total(w.hs, HandlerIn(NewRank(cfg) + 4))
  }

  lemma HandlerLowers(cfg: Config, w: World, w': World, r: nat)
    requires r < |w.hs| && |w'.hs| == |w.hs| && w'.hs == w.hs[r := w'.hs[r]]
    requires Work(cfg, w'.m) + HandlerRank(NewRank(cfg) + 4, w'.hs[r])
           < Work(cfg, w.m) + HandlerRank(NewRank(cfg) + 4, w.hs[r])
    ensures Measure(cfg, w') < Measure(cfg, w)
  {
    TotalUpdate(w.hs, HandlerIn(NewRank(cfg) + 4), r, w'.hs[r]);
  }

  lemma NextAttemptLowers(cfg: Config, w: World, r: nat)
    requires WInv(cfg, w) && r < |w.hs| && HasNext(w.hs[r]) && !w.hs[r].phase.Finished?
    ensures Measure(cfg, NextAttempt(cfg, w, r)) < Measure(cfg, w)
  {
    hide Inv, Apply;
    StepLowers(cfg, w.m, Spawn(true, Some(w.hs[r].plan[w.hs[r].started])));
    HandlerLowers(cfg, w, NextAttempt(cfg, w, r), r);
  }

  lemma AbortLowers(cfg: Config, w: World, r: nat)
    requires WInv(cfg, w) && WEnabled(cfg, w, Abort(r))
    ensures Measure(cfg, Unwind(cfg, w, r)) < Measure(cfg, w)
  {
    hide Inv, Apply, HandlerOk, LookedAfter, Work;
    var t := w.hs[r].phase.tid;
    if Enabled(cfg, w.m, Release(t)) { StepLowers(cfg, w.m, Release(t)); }
    if Enabled(cfg, w.m, Doom(t)) { StepLowers(cfg, w.m, Doom(t)); }
    HandlerLowers(cfg, w, Unwind(cfg, w, r), r);
  }

  lemma WStepLowers(cfg: Config, w: World, we: WorldEvent)
    requires WInv(cfg, w) && WEnabled(cfg, w, we) && Internal(we)
    ensures Measure(cfg, WApply(cfg, w, we)) < Measure(cfg, w)
  {
    hide Inv, Apply, NextAttempt, Unwind, HandlerOk, LookedAfter, Work;
    match we
    case Machine(e) => StepLowers(cfg, w.m, e);
    case Bind(r) => HandlerLowers(cfg, w, WApply(cfg, w, we), r);
    case AcquireFailed(r, retry) =>
      if retry { NextAttemptLowers(cfg, w, r); } else { HandlerLowers(cfg, w, WApply(cfg, w, we), r); }
    case RelayEnds(r, retry) =>
      StepLowers(cfg, w.m, Release(w.hs[r].phase.tid));
      HandlerLowers(cfg, w, WApply(cfg, w, we), r);
    case Abort(r) =>
      AbortLowers(cfg, w, r);
    case Unwound(r) =>
      if w.hs[r].phase.retry { NextAttemptLowers(cfg, w, r); } else { HandlerLowers(cfg, w, WApply(cfg, w, we), r); }
  }

  /** No run goes on for ever without new calls: its length is bounded by the measure it starts with. */
  lemma {:induction false} RunsAreBounded(cfg: Config, w: World, es: seq<WorldEvent>)
    requires WInv(cfg, w) && WLegal(cfg, w, es) && forall i :: 0 <= i < |es| ==> Internal(es[i])
    ensures |es| + Measure(cfg, WAfter(cfg, w, es)) <= Measure(cfg, w)
    decreases |es|
  {
    if es != [] {
      hide WInv, Measure, WEnabled, WApply;
      WStepLowers(cfg, w, es[0]);
      WStepKeeps(cfg, w, es[0]);
      RunsAreBounded(cfg, WApply(cfg, w, es[0]), es[1..]);
    }
  }

  // ---- no deadlock ----------------------------------------------------------

  /** Nothing is left to do. */
  ghost predicate Quiet(w: World) {
    && (forall r :: 0 <= r < |w.hs| ==> w.hs[r].phase.Finished?)
    && (forall t :: 0 <= t < |w.m.tasks| ==> w.m.tasks[t].pc.Ended?)
  }

  /** An enabled step that needs no timer, no failure, no cancellation and no new call. */
  ghost predicate Willing(cfg: Config, w: World, we: WorldEvent) {
    WEnabled(cfg, w, we) && Internal(we) && !we.Abort? && (we.Machine? ==> Cooperative(we.e))
  }

  /** A holder is never stuck: its release is scheduled, or its handler can bind or finish relaying. */
  lemma HolderIsFree(cfg: Config, w: World, t: nat)
    requires WInv(cfg, w) && t < |w.m.tasks| && w.m.tasks[t].pc.Lease?
    ensures exists we :: Willing(cfg, w, we)
  {
    assert LookedAfter(w, t);
    assert w.m.tasks[t].counts;
    var r := w.owner[t];
    if w.m.tasks[t].pc.leaving {
      assert Willing(cfg, w, Machine(Run(t)));
    } else if w.hs[r].phase == Waiting(t) {
      assert Willing(cfg, w, Bind(r));
    } else {
      assert Willing(cfg, w, RelayEnds(r, false));
    }
  }

  lemma CallIsServed(cfg: Config, w: World, t: nat)
    requires WInv(cfg, w) && cfg.engines != [] && t < |w.m.tasks| && Unfinished(w.m.tasks[t].pc)
    ensures exists we :: Willing(cfg, w, we)
  {
    hide HandlerOk, LookedAfter, Inv;
    SomebodyCanMove(cfg, w.m, t);
    if u: nat :| u < |w.m.tasks| && Unfinished(w.m.tasks[u].pc) && Enabled(cfg, w.m, Awaited(cfg, w.m, u)) {
      assert Willing(cfg, w, Machine(Awaited(cfg, w.m, u)));
    } else {
      var j: nat :| j < |w.m.tasks| && w.m.tasks[j].pc.Lease?;
      HolderIsFree(cfg, w, j);
    }
  }

  /**
   No deadlock: as long as something is unfinished, some step can happen without any timer firing and
   without any engine failing.  In particular a drain never waits for a request that waits for the lock.
  */
  lemma NeverStuck(cfg: Config, w: World)
    requires WInv(cfg, w) && cfg.engines != [] && !Quiet(w)
    ensures exists we :: Willing(cfg, w, we)
  {
    if r: nat :| r < |w.hs| && !w.hs[r].phase.Finished? {
      assert HandlerOk(w, r);
      var t := w.hs[r].phase.tid;
      match w.m.tasks[t].pc {
        case Lease(_, _) => HolderIsFree(cfg, w, t);
        case Ended(_) =>
          if w.hs[r].phase.Waiting? {
            assert Willing(cfg, w, AcquireFailed(r, false));
          } else {
            assert Willing(cfg, w, Unwound(r));
          }
        case _ => CallIsServed(cfg, w, t);
      }
    } else {
      var t: nat :| t < |w.m.tasks| && !w.m.tasks[t].pc.Ended?;
      if w.m.tasks[t].pc.Lease? { HolderIsFree(cfg, w, t); } else { CallIsServed(cfg, w, t); }
    }
  }

  /** Every run comes to an end: after any history at most `Measure` further steps can happen without new calls. */
  lemma EveryRunIsBounded(cfg: Config, w: World, es: seq<WorldEvent>, fs: seq<WorldEvent>)
    requires ConfigOk(cfg) && WInit(cfg, w)
    requires WLegal(cfg, w, es) && WLegal(cfg, WAfter(cfg, w, es), fs)
    requires forall i :: 0 <= i < |fs| ==> Internal(fs[i])
    ensures |fs| <= Measure(cfg, WAfter(cfg, w, es))
  {
    hide WInv, Measure, Internal;
    WInitHolds(cfg, w);
    WReachable(cfg, w, es);
    RunsAreBounded(cfg, WAfter(cfg, w, es), fs);
  }

  ghost predicate NobodyWilling(cfg: Config, w: World) {
    forall we :: !Willing(cfg, w, we)
  }

  /** And it ends clean: when no cooperative step is left, every request has ended, every count is zero and the lock is free. */
  lemma EveryRunEndsClean(cfg: Config, w: World, es: seq<WorldEvent>)
    requires ConfigOk(cfg) && cfg.engines != [] && WInit(cfg, w) && WLegal(cfg, w, es)
    requires NobodyWilling(cfg, WAfter(cfg, w, es))
    ensures var w' := WAfter(cfg, w, es);
      && Quiet(w') && w'.m.lock == None
      && (forall k :: k in cfg.engines ==> k in w'.m.inflight && w'.m.inflight[k] == 0)
  {
    WInitHolds(cfg, w);
    WReachable(cfg, w, es);
    var w' := WAfter(cfg, w, es);
    if !Quiet(w') { NeverStuck(cfg, w'); }
    QuietMeansZero(cfg, w');
  }

  lemma QuietMeansZero(cfg: Config, w: World)
    requires WInv(cfg, w) && Quiet(w)
    ensures w.m.lock == None
    ensures forall k :: k in cfg.engines ==> k in w.m.inflight && w.m.inflight[k] == 0
  {
    forall k | k in cfg.engines
      ensures k in w.m.inflight && w.m.inflight[k] == 0
    {
      LeaseCountZero(w.m.tasks, k);
    }
    assert forall t :: 0 <= t < |w.m.tasks| ==> !HoldsLock(w.m.tasks[t].pc);
  }
}

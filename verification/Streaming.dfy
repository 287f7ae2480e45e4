/**
 The attempt loops of router/app.py as the client sees them: `gen` (SSE), `ndjson_gen` (NDJSON) and the
 non-streaming loop.  What engines, upstreams and the client do is a script, one entry per attempt.
*/
module Streaming {
  import opened Wrappers

  type Model = string
  type Bytes = seq<bv8>

  datatype Style = Sse | Ndjson

  /** How `manager.acquire` ends; `Crash` is an exception that is not an EngineError. */
  datatype Acquire = Ready | EngineFailure | Crash

  /** How the relay ends once its chunks are through; `Fault` is an exception that is not an HTTPError. */
  datatype RelayEnd = Complete | ConnectError | HttpError | Fault

  /** An upstream either answers with an error status or streams; `gone` is the chunk before which the client is found disconnected. */
  datatype Upstream =
    | Refused
    | Streams(chunks: seq<Bytes>, gone: Option<nat>, end: RelayEnd)

  /** One attempt: the keep-alive ticks spent waiting, the tick that finds the client gone, and the outcomes. */
  datatype Script = Script(ticks: nat, goneTick: Option<nat>, acquire: Acquire, upstream: Upstream)

  datatype Frame = KeepAlive | Chunk(data: Bytes) | ErrorFrame | DoneFrame

  /** `Silent`: the NDJSON loop gives up without a line; `Raised`: an exception leaves the generator. */
  datatype Ending = Relayed | ErrorShown | Silent | ClientGone | Raised

  datatype Verdict = Success(model: Model) | Failure(model: Model)

  /** What one request produced. */
  datatype Trace = Trace(out: seq<Frame>, attempts: seq<Model>, verdicts: seq<Verdict>, ending: Ending)

  /** `smart` says a SmartDecision is present; `keepAlive` is swap_keepalive_enabled. */
  datatype Request = Request(style: Style, smart: bool, keepAlive: bool)

  // ---- the plan -------------------------------------------------------------

  datatype Decision = Decision(reload: bool, fallForward: bool, fallbacks: seq<Model>)

  function AttemptPlan(model: Model, decision: Option<Decision>): seq<Model> {
    match decision
    case None => [model]
    case Some(d) =>
      [model] + (if d.reload then [model] else []) + (if d.fallForward then d.fallbacks else [])
  }

  ghost predicate AllDistinct(s: seq<Model>) {
    forall i, j :: 0 <= i < j < |s| ==> s[i] != s[j]
  }

  /** A plan is the picked model, once more for a reload, and then, if falling forward is on, the decision's fallbacks in order. */
  lemma PlanIsComplete(model: Model, decision: Option<Decision>)
    ensures var plan := AttemptPlan(model, decision);
      var reloads := decision.Some? && decision.value.reload;
      var head := if reloads then 2 else 1;
      && |plan| >= head && (forall i :: 0 <= i < head ==> plan[i] == model)
      && plan[head..] == if decision.Some? && decision.value.fallForward then decision.value.fallbacks else []
  {
  }

  /** A plan starts with the picked model; it tries no model twice, but for one reload of the picked one. */
  lemma PlanRepeatsOnlyTheReload(model: Model, decision: Option<Decision>)
    requires decision.Some? ==> AllDistinct(decision.value.fallbacks) && model !in decision.value.fallbacks
    ensures var plan := AttemptPlan(model, decision);
      && plan != [] && plan[0] == model && (decision.None? ==> plan == [model])
      && forall i, j :: 0 <= i < j < |plan| && plan[i] == plan[j] ==> decision.value.reload && i == 0 && j == 1
  {
  }

  // ---- reference semantics --------------------------------------------------

  function Repeat(f: Frame, n: nat): seq<Frame> {
    seq(n, _ => f)
  }

  /** Ticks until the wait ends: at the tick that finds the client gone, or when the acquire is done. */
  function WaitTicks(a: Script): nat {
    if LeavesWhileWaiting(a) then a.goneTick.value else a.ticks
  }

  predicate LeavesWhileWaiting(a: Script) {
    a.goneTick.Some? && a.goneTick.value < a.ticks
  }

  function Waited(q: Request, a: Script): seq<Frame> {
    if q.keepAlive then Repeat(KeepAlive, WaitTicks(a)) else []
  }

  predicate LeavesWhileRelaying(u: Upstream) {
    u.Streams? && u.gone.Some? && u.gone.value < |u.chunks|
  }

  function RelayedChunks(u: Upstream): seq<Bytes> {
    if u.Refused? then []
    else if LeavesWhileRelaying(u) then u.chunks[..u.gone.value]
    else u.chunks
  }

  function Frames(chunks: seq<Bytes>): seq<Frame> {
    seq(|chunks|, i requires 0 <= i < |chunks| => Chunk(chunks[i]))
  }

  /** A failure before any byte of this attempt: the only kind that may fall forward. */
  predicate FailsClean(a: Script) {
    !LeavesWhileWaiting(a) &&
    (a.acquire.EngineFailure? ||
     (a.acquire.Ready? && a.upstream.Streams? && !LeavesWhileRelaying(a.upstream)
      && a.upstream.end.ConnectError? && a.upstream.chunks == []))
  }

  function ErrorTail(style: Style): seq<Frame> {
    if style.Sse? then [ErrorFrame, DoneFrame] else []
  }

  function ErrorEnding(style: Style): Ending {
    if style.Sse? then ErrorShown else Silent
  }

  function Judge(q: Request, v: Verdict): seq<Verdict> {
    if q.smart then [v] else []
  }

  /** How an attempt that does not fall forward ends the request. */
  function LastAttempt(q: Request, mid: Model, a: Script): Trace {
    var failed := Judge(q, Failure(mid));
    var head := Waited(q, a);
    if LeavesWhileWaiting(a) then Trace(head, [mid], [], ClientGone)
    else match a.acquire
      case Crash => Trace(head, [mid], [], Raised)
      case EngineFailure => Trace(head + ErrorTail(q.style), [mid], failed, ErrorEnding(q.style))
      case Ready =>
        match a.upstream
        case Refused =>
          Trace(head + (if q.style.Sse? then ErrorTail(Sse) else [ErrorFrame]), [mid], failed, ErrorShown)
        case Streams(_, _, end) =>
          var body := head + Frames(RelayedChunks(a.upstream));
          if LeavesWhileRelaying(a.upstream) then Trace(body, [mid], Judge(q, Success(mid)), ClientGone)
          else match end
            case Complete => Trace(body, [mid], Judge(q, Success(mid)), Relayed)
            case Fault => Trace(body, [mid], [], Raised)
            case _ => Trace(body + ErrorTail(q.style), [mid], failed, ErrorEnding(q.style))
  }

  /** The whole request: a clean failure moves on to the rest of the plan, if there is one. */
  function Outcome(q: Request, plan: seq<Model>, scripts: seq<Script>): Trace
    requires |plan| == |scripts| > 0
    decreases |plan|
  {
    if |plan| > 1 && FailsClean(scripts[0]) then
      var rest := Outcome(q, plan[1..], scripts[1..]);
      Trace(Waited(q, scripts[0]) + rest.out, [plan[0]] + rest.attempts,
            Judge(q, Failure(plan[0])) + rest.verdicts, rest.ending)
    else
      LastAttempt(q, plan[0], scripts[0])
  }

  // ---- the generators -------------------------------------------------------

  /** The wait of one attempt: `while not acq.done()`, with its keep-alives and disconnect polls. */
  method AwaitAcquire(q: Request, a: Script) returns (frames: seq<Frame>, gone: bool)
    ensures frames == Waited(q, a) && gone == LeavesWhileWaiting(a)
  {
    frames, gone := [], false;
    var tick := 0;
    while tick < a.ticks
      invariant 0 <= tick <= WaitTicks(a) <= a.ticks
      invariant frames == if q.keepAlive then Repeat(KeepAlive, tick) else []
    {
      if a.goneTick == Some(tick) { return frames, true; }
      if q.keepAlive { frames := frames + [KeepAlive]; }
      tick := tick + 1;
    }
  }

  /** The relay of one attempt: poll for a disconnect before every chunk. */
  method Relay(u: Upstream, streamed0: bool) returns (frames: seq<Frame>, gone: bool, streamed: bool)
    requires u.Streams?
    ensures frames == Frames(RelayedChunks(u)) && gone == LeavesWhileRelaying(u)
    ensures streamed == (streamed0 || RelayedChunks(u) != [])
  {
    frames, gone, streamed := [], false, streamed0;
    var i := 0;
    while i < |u.chunks|
      invariant 0 <= i <= |RelayedChunks(u)| <= |u.chunks|
      invariant frames == Frames(u.chunks[..i])
      invariant streamed == (streamed0 || i > 0)
    {
      if u.gone == Some(i) {
        return frames, true, streamed;
      }
      streamed := true;
      frames := frames + [Chunk(u.chunks[i])];
      i := i + 1;
    }
    assert u.chunks[..i] == u.chunks;
  }

  /** The body of the loop: `retry` is the `continue`, taken only while nothing has been streamed. */
  method Attempt(q: Request, mid: Model, a: Script, last: bool) returns (t: Trace, retry: bool, streamed: bool)
    ensures retry == (!last && FailsClean(a))
    ensures retry ==> !streamed && t.out == Waited(q, a) && t.attempts == [mid] && t.verdicts == Judge(q, Failure(mid))
    ensures !retry ==> t == LastAttempt(q, mid, a)
  {
    streamed := false;
    var out, gone := AwaitAcquire(q, a);
    if gone { return Trace(out, [mid], [], ClientGone), false, streamed; }
    if a.acquire.Crash? { return Trace(out, [mid], [], Raised), false, streamed; }
    var failed := Judge(q, Failure(mid));
    if a.acquire.EngineFailure? {
      if !last && !streamed { return Trace(out, [mid], failed, Raised), true, streamed; }
      return Trace(out + ErrorTail(q.style), [mid], failed, ErrorEnding(q.style)), false, streamed;
    }
    if a.upstream.Refused? {
      var tail := if q.style.Sse? then ErrorTail(Sse) else [ErrorFrame];
      return Trace(out + tail, [mid], failed, ErrorShown), false, streamed;
    }
    var chunks, left, flag := Relay(a.upstream, streamed);
    out, streamed := out + chunks, flag;
    var stood := Judge(q, Success(mid));
    if left { return Trace(out, [mid], stood, ClientGone), false, streamed; }
    match a.upstream.end {
      case Complete => return Trace(out, [mid], stood, Relayed), false, streamed;
      case Fault => return Trace(out, [mid], [], Raised), false, streamed;
      case ConnectError =>
        if !last && !streamed { return Trace(out, [mid], failed, Raised), true, streamed; }
        return Trace(out + ErrorTail(q.style), [mid], failed, ErrorEnding(q.style)), false, streamed;
      case HttpError =>
        return Trace(out + ErrorTail(q.style), [mid], failed, ErrorEnding(q.style)), false, streamed;
    }
  }

  /** `rest` after what has already happened. */
  function Then(done: Trace, rest: Trace): Trace {
    Trace(done.out + rest.out, done.attempts + rest.attempts, done.verdicts + rest.verdicts, rest.ending)
  }

  lemma ThenAssociates(a: Trace, b: Trace, c: Trace)
    ensures Then(a, Then(b, c)) == Then(Then(a, b), c)
  {
  }

  /** `gen` and `ndjson_gen`: attempts in plan order until one does not `continue`. */
  method Generate(q: Request, plan: seq<Model>, scripts: seq<Script>) returns (t: Trace)
    requires |plan| == |scripts| > 0
    ensures t == Outcome(q, plan, scripts)
  {
    t := Trace([], [], [], Raised);
    var i := 0;
    while true
      invariant 0 <= i < |plan|
      invariant Outcome(q, plan, scripts) == Then(t, Outcome(q, plan[i..], scripts[i..]))
      decreases |plan| - i
    {
      var one, retry, streamed := Attempt(q, plan[i], scripts[i], i == |plan| - 1);
      if !retry {
        return Then(t, one);
      }
      assert plan[i..][1..] == plan[i + 1..] && scripts[i..][1..] == scripts[i + 1..];
      ThenAssociates(t, one, Outcome(q, plan[i + 1..], scripts[i + 1..]));
      t, i := Then(t, one), i + 1;
    }
  }

  // ---- what a client can rely on --------------------------------------------

  /** Keep-alives, then chunks, then at most one error. */
  ghost predicate Shaped(style: Style, out: seq<Frame>, chunks: seq<Bytes>, ending: Ending) {
    exists n: nat :: ShapedAt(style, out, n, chunks, ending)
  }

  ghost predicate ShapedAt(style: Style, out: seq<Frame>, n: nat, chunks: seq<Bytes>, ending: Ending) {
    out == Repeat(KeepAlive, n) + Frames(chunks) +
           (if !ending.ErrorShown? then [] else if style.Sse? then [ErrorFrame, DoneFrame] else [ErrorFrame])
  }

  lemma LastAttemptShaped(q: Request, mid: Model, a: Script)
    ensures var t := LastAttempt(q, mid, a);
      var chunks := if LeavesWhileWaiting(a) || !a.acquire.Ready? then [] else RelayedChunks(a.upstream);
      Shaped(q.style, t.out, chunks, t.ending)
  {
    var t := LastAttempt(q, mid, a);
    var chunks := if LeavesWhileWaiting(a) || !a.acquire.Ready? then [] else RelayedChunks(a.upstream);
    var n := |Waited(q, a)|;
    assert Waited(q, a) == Repeat(KeepAlive, n);
    assert ShapedAt(q.style, t.out, n, chunks, t.ending);
  }

  /** The attempt that settles a request, from the scripts alone: the first that does not fail clean, else the last. */
  function Deciding(scripts: seq<Script>): nat
    requires scripts != []
  {
    if |scripts| > 1 && FailsClean(scripts[0]) then 1 + Deciding(scripts[1..]) else 0
  }

  lemma {:induction false} DecidingIsFirst(scripts: seq<Script>)
    requires scripts != []
    ensures var n := Deciding(scripts);
      && n < |scripts|
      && (forall i :: 0 <= i < n ==> FailsClean(scripts[i]))
      && (n < |scripts| - 1 ==> !FailsClean(scripts[n]))
  {
    if |scripts| > 1 && FailsClean(scripts[0]) {
      DecidingIsFirst(scripts[1..]);
      hide FailsClean;
      assert forall i :: 0 < i < |scripts| ==> scripts[i] == scripts[1..][i - 1];
    }
  }

  /** What an attempt can put on the wire. */
  function Shown(a: Script): seq<Bytes> {
    if LeavesWhileWaiting(a) || !a.acquire.Ready? then [] else RelayedChunks(a.upstream)
  }

  /**
   The attempts made are the plan up to the deciding one: the loop goes on past every clean failure, gives up at nothing
   else, and ends as the deciding attempt ends.
  */
  lemma {:induction false} AttemptsArePrefix(q: Request, plan: seq<Model>, scripts: seq<Script>)
    requires |plan| == |scripts| > 0
    ensures var t, n := Outcome(q, plan, scripts), Deciding(scripts);
      && n < |plan| && t.attempts == plan[..n + 1]
      && t.ending == LastAttempt(q, plan[n], scripts[n]).ending
      && (n < |plan| - 1 ==> !FailsClean(scripts[n]))
    decreases |plan|
  {
    if |plan| > 1 && FailsClean(scripts[0]) {
      hide LastAttempt, FailsClean;
      AttemptsArePrefix(q, plan[1..], scripts[1..]);
      var n := Deciding(scripts[1..]);
      assert plan[..n + 2] == [plan[0]] + plan[1..][..n + 1];
    }
  }

  /**
   Every attempt that was fallen past failed in acquire with an EngineError, or in connect, with the client still there
   and not a byte relayed.
  */
  lemma EarlierAttemptsFailClean(q: Request, plan: seq<Model>, scripts: seq<Script>, i: nat)
    requires |plan| == |scripts| > 0 && i < |Outcome(q, plan, scripts).attempts| - 1
    ensures i < |scripts| && Shown(scripts[i]) == []
    ensures var a := scripts[i];
      && !(a.goneTick.Some? && a.goneTick.value < a.ticks)
      && (a.acquire.EngineFailure?
          || (a.acquire.Ready? && a.upstream.Streams? && a.upstream.end.ConnectError? && a.upstream.chunks == []))
  {
    AttemptsArePrefix(q, plan, scripts);
    DecidingIsFirst(scripts);
  }

  /** And after any number of such failures the next model of the plan is tried, if there is one. */
  lemma {:induction false} FailuresFallForward(q: Request, plan: seq<Model>, scripts: seq<Script>, n: nat)
    requires |plan| == |scripts| && n < |plan|
    requires forall i :: 0 <= i < n ==> var a := scripts[i];
      && !(a.goneTick.Some? && a.goneTick.value < a.ticks)
      && (a.acquire.EngineFailure?
          || (a.acquire.Ready? && a.upstream.Streams? && a.upstream.end.ConnectError? && a.upstream.chunks == []))
    ensures plan[..n + 1] <= Outcome(q, plan, scripts).attempts
    decreases n
  {
    if n > 0 {
      FailuresFallForward(q, plan[1..], scripts[1..], n - 1);
      assert plan[..n + 1] == [plan[0]] + plan[1..][..n];
    }
  }

  /**
   The output is keep-alives, then chunks of the deciding attempt only, then at most one error, at the end.
   So no acquire follows the first upstream byte; and a complete relay shows every chunk and no error.
  */
  lemma {:induction false} OutputIsShaped(q: Request, plan: seq<Model>, scripts: seq<Script>)
    requires |plan| == |scripts| > 0
    ensures var t, n := Outcome(q, plan, scripts), Deciding(scripts);
      && n < |scripts|
      && var a := scripts[n];
         && Shaped(q.style, t.out, Shown(a), t.ending)
         && (t.ending.Relayed? ==> a.upstream.Streams? && Shown(a) == a.upstream.chunks && a.upstream.end.Complete?)
    decreases |plan|
  {
    if |plan| > 1 && FailsClean(scripts[0]) {
      hide LastAttempt, FailsClean, Shown, Shaped;
      OutputIsShaped(q, plan[1..], scripts[1..]);
      var rest, n := Outcome(q, plan[1..], scripts[1..]), Deciding(scripts[1..]);
      assert scripts[n + 1] == scripts[1..][n];
      PrependWait(q, scripts[0], rest, Shown(scripts[n + 1]));
    } else {
      LastAttemptShaped(q, plan[0], scripts[0]);
    }
  }

  /** Keep-alives sent while waiting in the first `n` attempts: one per tick up to the end of the wait or the client's leaving. */
  function Ticks(q: Request, scripts: seq<Script>, n: nat): nat
    requires n <= |scripts|
  {
    if n == 0 || !q.keepAlive then 0
    else
      var a := scripts[n - 1];
      Ticks(q, scripts, n - 1)
      + (if a.goneTick.Some? && a.goneTick.value < a.ticks then a.goneTick.value else a.ticks)
  }

  lemma {:induction false} TicksOfTail(q: Request, scripts: seq<Script>, n: nat)
    requires 0 < n <= |scripts|
    ensures Ticks(q, scripts, n) == |Waited(q, scripts[0])| + Ticks(q, scripts[1..], n - 1)
  {
    if n > 1 {
      TicksOfTail(q, scripts, n - 1);
      assert scripts[n - 1] == scripts[1..][n - 2];
    } else {
      assert Ticks(q, scripts, 0) == 0;
    }
  }

  /** The chunks the client sees of an attempt: none before the upstream streams, and none from the one it is gone before. */
  function Seen(a: Script): seq<Bytes> {
    if (a.goneTick.Some? && a.goneTick.value < a.ticks) || !a.acquire.Ready? || a.upstream.Refused? then []
    else if a.upstream.gone.Some? && a.upstream.gone.value < |a.upstream.chunks| then a.upstream.chunks[..a.upstream.gone.value]
    else a.upstream.chunks
  }

  lemma LastOutput(q: Request, mid: Model, a: Script)
    ensures var t := LastAttempt(q, mid, a); ShapedAt(q.style, t.out, |Waited(q, a)|, Seen(a), t.ending)
  {
    assert Waited(q, a) == Repeat(KeepAlive, |Waited(q, a)|);
  }

  lemma PrependTicks(q: Request, a: Script, out: seq<Frame>, k: nat, chunks: seq<Bytes>, ending: Ending)
    requires ShapedAt(q.style, out, k, chunks, ending)
    ensures ShapedAt(q.style, Waited(q, a) + out, |Waited(q, a)| + k, chunks, ending)
  {
    assert Waited(q, a) + Repeat(KeepAlive, k) == Repeat(KeepAlive, |Waited(q, a)| + k);
  }

  /** The output so far, `t`, extended by what the wait of one more attempt before it sends. */
  lemma WaitBefore(q: Request, t: Trace, rest: Trace, scripts: seq<Script>, n: nat)
    requires n + 1 < |scripts| && t.out == Waited(q, scripts[0]) + rest.out && t.ending == rest.ending
    requires ShapedAt(q.style, rest.out, Ticks(q, scripts[1..], n + 1), Seen(scripts[1..][n]), rest.ending)
    ensures ShapedAt(q.style, t.out, Ticks(q, scripts, n + 2), Seen(scripts[n + 1]), t.ending)
  {
    hide ShapedAt, Ticks, Seen, Waited;
    TicksOfTail(q, scripts, n + 2);
    PrependTicks(q, scripts[0], rest.out, Ticks(q, scripts[1..], n + 1), Seen(scripts[1..][n]), rest.ending);
  }

  lemma OnlyWait(q: Request, mid: Model, scripts: seq<Script>)
    requires scripts != []
    ensures var t := LastAttempt(q, mid, scripts[0]);
      ShapedAt(q.style, t.out, Ticks(q, scripts, 1), Seen(scripts[0]), t.ending)
  {
    hide ShapedAt, Seen, Waited, LastAttempt;
    TicksOfTail(q, scripts, 1);
    NoTicks(q, scripts[1..]);
    LastOutput(q, mid, scripts[0]);
  }

  /** The exact output: every keep-alive of every attempt, the chunks seen of the deciding one, and the error it ends in. */
  lemma {:induction false} OutputIsExact(q: Request, plan: seq<Model>, scripts: seq<Script>)
    requires |plan| == |scripts| > 0
    ensures var t, n := Outcome(q, plan, scripts), Deciding(scripts);
      n < |scripts| && ShapedAt(q.style, t.out, Ticks(q, scripts, n + 1), Seen(scripts[n]), t.ending)
    decreases |plan|
  {
    hide LastAttempt, FailsClean, Seen, ShapedAt, Ticks, Waited;
    if |plan| > 1 && FailsClean(scripts[0]) {
      OutputIsExact(q, plan[1..], scripts[1..]);
      var t, rest, n := Outcome(q, plan, scripts), Outcome(q, plan[1..], scripts[1..]), Deciding(scripts[1..]);
      assert t.out == Waited(q, scripts[0]) + rest.out && t.ending == rest.ending && Deciding(scripts) == n + 1;
      hide Outcome, Deciding;
      WaitBefore(q, t, rest, scripts, n);
    } else {
      OnlyWait(q, plan[0], scripts);
    }
  }

  lemma NoTicks(q: Request, scripts: seq<Script>)
    ensures Ticks(q, scripts, 0) == 0
  {
  }

  lemma PrependWait(q: Request, a: Script, rest: Trace, chunks: seq<Bytes>)
    requires Shaped(q.style, rest.out, chunks, rest.ending)
    ensures Shaped(q.style, Waited(q, a) + rest.out, chunks, rest.ending)
  {
    var n: nat :| ShapedAt(q.style, rest.out, n, chunks, rest.ending);
    var m := |Waited(q, a)|;
    assert Waited(q, a) + Repeat(KeepAlive, n) == Repeat(KeepAlive, m + n);
    assert ShapedAt(q.style, Waited(q, a) + rest.out, m + n, chunks, rest.ending);
  }

  /** An attempt that ends outside both EngineError and HTTPError: nothing in the loop catches it. */
  predicate Uncaught(a: Script) {
    a.acquire.Crash? || (a.acquire.Ready? && a.upstream.Streams? && a.upstream.end.Fault?)
  }

  predicate StaysConnected(a: Script) {
    !LeavesWhileWaiting(a) && !LeavesWhileRelaying(a.upstream)
  }

  /** How a request ends, for every way its deciding attempt can go. */
  lemma EndingIsDecided(q: Request, plan: seq<Model>, scripts: seq<Script>)
    requires |plan| == |scripts| > 0
    ensures Deciding(scripts) < |scripts|
    ensures var t, a := Outcome(q, plan, scripts), scripts[Deciding(scripts)];
      var waiting := a.goneTick.Some? && a.goneTick.value < a.ticks;
      var streams := !waiting && a.acquire.Ready? && a.upstream.Streams?;
      var relaying := streams && a.upstream.gone.Some? && a.upstream.gone.value < |a.upstream.chunks|;
      var refused := !waiting && a.acquire.Ready? && a.upstream.Refused?;
      var failed := (!waiting && a.acquire.EngineFailure?)
                    || (streams && !relaying && (a.upstream.end.ConnectError? || a.upstream.end.HttpError?));
      && (t.ending.Relayed? <==> streams && !relaying && a.upstream.end.Complete?)
      && (t.ending.ClientGone? <==> waiting || relaying)
      && (t.ending.Raised? <==> (!waiting && a.acquire.Crash?) || (streams && !relaying && a.upstream.end.Fault?))
      && (t.ending.ErrorShown? <==> refused || (failed && q.style.Sse?))
      && (t.ending.Silent? <==> failed && q.style.Ndjson?)
  {
    AttemptsArePrefix(q, plan, scripts);
  }

  /**
   An SSE run with a connected client ends in a complete relay or exactly one error frame if and only if
   the deciding attempt does not end in an exception the loop does not catch.
  */
  lemma SseEndsProperly(q: Request, plan: seq<Model>, scripts: seq<Script>)
    requires |plan| == |scripts| > 0 && q.style.Sse?
    requires forall i :: 0 <= i < |scripts| ==> StaysConnected(scripts[i])
    ensures var t, n := Outcome(q, plan, scripts), Deciding(scripts);
      n < |scripts| && (t.ending.Relayed? || t.ending.ErrorShown? <==> !Uncaught(scripts[n]))
  {
    AttemptsArePrefix(q, plan, scripts);
  }

  /** Such a run: launching the engine raises an exception that is no EngineError, and the stream stops without a frame. */
  lemma SseMayStopSilently()
    ensures Outcome(Request(Sse, true, true), ["m"], [Script(0, None, Crash, Refused)]) == Trace([], ["m"], [], Raised)
  {
  }

  /** The NDJSON loop shows an error only for an error status: after a failed acquire or relay it ends without a word. */
  lemma NdjsonMayEndSilently(q: Request, plan: seq<Model>, scripts: seq<Script>)
    requires |plan| == |scripts| > 0 && q.style.Ndjson?
    requires forall i :: 0 <= i < |scripts| ==> StaysConnected(scripts[i])
    ensures var t, n := Outcome(q, plan, scripts), Deciding(scripts);
      n < |scripts| &&
      var a := scripts[n];
      && (t.ending.ErrorShown? <==> a.acquire.Ready? && a.upstream.Refused?)
      && (t.ending.Silent? <==>
            a.acquire.EngineFailure?
            || (a.acquire.Ready? && a.upstream.Streams? && (a.upstream.end.ConnectError? || a.upstream.end.HttpError?)))
  {
    AttemptsArePrefix(q, plan, scripts);
  }

  /** Such a run: the engine does not start, and the client gets an empty stream. */
  lemma NdjsonFailsWithoutAWord()
    ensures Outcome(Request(Ndjson, false, true), ["m"], [Script(0, None, EngineFailure, Refused)])
         == Trace([], ["m"], [], Silent)
  {
  }

  /** The picker's health record: one failure per attempt fallen past, then what the deciding attempt earned. */
  lemma {:induction false} VerdictsMatchAttempts(q: Request, plan: seq<Model>, scripts: seq<Script>)
    requires |plan| == |scripts| > 0 && q.smart
    ensures var t, n := Outcome(q, plan, scripts), Deciding(scripts);
      n < |plan| && t.verdicts == Failures(plan[..n]) + LastAttempt(q, plan[n], scripts[n]).verdicts
    decreases |plan|
  {
    if |plan| > 1 && FailsClean(scripts[0]) {
      hide LastAttempt, FailsClean;
      VerdictsMatchAttempts(q, plan[1..], scripts[1..]);
      var n := Deciding(scripts[1..]);
      assert Failures(plan[..n + 1]) == [Failure(plan[0])] + Failures(plan[1..][..n]);
    }
  }

  lemma LastVerdict(q: Request, mid: Model, a: Script)
    requires q.smart
    ensures var t := LastAttempt(q, mid, a);
      t.verdicts == if t.ending.Raised? || (t.ending.ClientGone? && a.goneTick.Some? && a.goneTick.value < a.ticks) then []
                    else if t.ending.Relayed? || t.ending.ClientGone? then [Success(mid)]
                    else [Failure(mid)]
  {
  }

  lemma {:induction false} PlainRequestsSayNothing(q: Request, plan: seq<Model>, scripts: seq<Script>)
    requires |plan| == |scripts| > 0 && !q.smart
    ensures Outcome(q, plan, scripts).verdicts == []
    decreases |plan|
  {
    if |plan| > 1 && FailsClean(scripts[0]) {
      PlainRequestsSayNothing(q, plan[1..], scripts[1..]);
    }
  }

  /**
   What the picker hears of a smart request: a failure of each attempt fallen past; then a success exactly if the
   deciding attempt was relayed or its client left in the middle of the relay, nothing if the client left before or
   an exception went through, and a failure otherwise.  Of any other request it hears nothing.
  */
  lemma VerdictsAreEarned(q: Request, plan: seq<Model>, scripts: seq<Script>)
    requires |plan| == |scripts| > 0
    ensures var t, n := Outcome(q, plan, scripts), Deciding(scripts);
      n < |plan| &&
      var waiting := scripts[n].goneTick.Some? && scripts[n].goneTick.value < scripts[n].ticks;
      t.verdicts ==
        if !q.smart then []
        else Failures(plan[..n])
             + (if t.ending.Raised? || (t.ending.ClientGone? && waiting) then []
                else if t.ending.Relayed? || t.ending.ClientGone? then [Success(plan[n])]
                else [Failure(plan[n])])
  {
    AttemptsArePrefix(q, plan, scripts);
    if q.smart {
      VerdictsMatchAttempts(q, plan, scripts);
      hide Outcome, Deciding, Failures, FailsClean;
      LastVerdict(q, plan[Deciding(scripts)], scripts[Deciding(scripts)]);
      hide LastAttempt;
    } else {
      PlainRequestsSayNothing(q, plan, scripts);
    }
  }

  function Failures(models: seq<Model>): seq<Verdict> {
    seq(|models|, i requires 0 <= i < |models| => Failure(models[i]))
  }

  // ---- the non-streaming loop -----------------------------------------------

  datatype Answered = Status(code: nat) | NoConnection | Broken | Fell

  datatype Try = Try(acquire: Acquire, answer: Answered)

  /** 404/503 and 502 are told apart; `Crashed` is an exception that leaves the handler. */
  datatype Reply = Upstream(code: nat) | EngineDown | BadGateway | Crashed

  datatype Answer = Answer(reply: Reply, attempts: seq<Model>, verdicts: seq<Verdict>)

  /** Acquire, forward, release, once per attempt: falls forward on a failed acquire or connect, and on nothing else. */
  method Forward(smart: bool, plan: seq<Model>, tries: seq<Try>) returns (r: Answer)
    requires |plan| == |tries| > 0
    ensures 0 < |r.attempts| <= |plan| && r.attempts == plan[..|r.attempts|]
    ensures forall i :: 0 <= i < |r.attempts| - 1 ==>
      tries[i].acquire.EngineFailure? || (tries[i].acquire.Ready? && tries[i].answer.NoConnection?)
    ensures var a := tries[|r.attempts| - 1];
      && (|r.attempts| < |plan| ==>
            !(a.acquire.EngineFailure? || (a.acquire.Ready? && a.answer.NoConnection?)))
      && (r.reply.EngineDown? <==> a.acquire.EngineFailure?)
      && (r.reply.BadGateway? <==> a.acquire.Ready? && (a.answer.NoConnection? || a.answer.Broken?))
      && (r.reply.Crashed? <==> a.acquire.Crash? || (a.acquire.Ready? && a.answer.Fell?))
      && (r.reply.Upstream? <==> a.acquire.Ready? && a.answer.Status?)
      && (r.reply.Upstream? ==> a.answer == Status(r.reply.code))
    ensures !smart ==> r.verdicts == []
    ensures smart ==> |r.verdicts| == (if r.reply.Crashed? then |r.attempts| - 1 else |r.attempts|)
    ensures forall i :: 0 <= i < |r.verdicts| ==>
      r.verdicts[i] == if i == |r.attempts| - 1 && r.reply.Upstream? && r.reply.code < 500
                       then Success(plan[i]) else Failure(plan[i])
  {
    var verdicts: seq<Verdict> := [];
    var i := 0;
    while true
      invariant 0 <= i < |plan|
      invariant forall j :: 0 <= j < i ==>
        tries[j].acquire.EngineFailure? || (tries[j].acquire.Ready? && tries[j].answer.NoConnection?)
      invariant |verdicts| == if smart then i else 0
      invariant forall j :: 0 <= j < |verdicts| ==> verdicts[j] == Failure(plan[j])
      decreases |plan| - i
    {
      var a, last, made := tries[i], i == |plan| - 1, plan[..i + 1];
      if a.acquire.Crash? { return Answer(Crashed, made, verdicts); }
      if a.acquire.EngineFailure? {
        if smart { verdicts := verdicts + [Failure(plan[i])]; }
        if !last { i := i + 1; continue; }
        return Answer(EngineDown, made, verdicts);
      }
      match a.answer {
        case NoConnection =>
          if smart { verdicts := verdicts + [Failure(plan[i])]; }
          if !last { i := i + 1; continue; }
          return Answer(BadGateway, made, verdicts);
        case Broken =>
          if smart { verdicts := verdicts + [Failure(plan[i])]; }
          return Answer(BadGateway, made, verdicts);
        case Fell => return Answer(Crashed, made, verdicts);
        case Status(code) =>
          if smart { verdicts := verdicts + [if code < 500 then Success(plan[i]) else Failure(plan[i])]; }
          return Answer(Upstream(code), made, verdicts);
      }
    }
  }
}

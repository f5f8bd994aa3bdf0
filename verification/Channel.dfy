/**
 One RPC on the client (crates/grpc-quic-client/src/channel.rs): permit, bounded retry loop over
 the pool, one-shot hand-off of the request body, response head, deadline.

 `Can` and `Do` give the call as an automaton whose events are the points where it resumes;
 `Run` is the code's own loop and plays one of the automaton's runs.
 */
module Channel {
  import opened Common
  import opened Errors
  import opened Retry
  import Pool

  datatype CallResult = Response | Failed(error: ClientError) | Dropped

  datatype Phase =
    | Queued
    | Sleeping(attempt: nat)
    | Attempting(attempt: nat)
    | InPool(attempt: nat, ticket: Pool.Ticket)
    | Sending(attempt: nat, entry: Pool.Entry)
    | Invalidating(attempt: nat)
    | AwaitingHead(attempt: nat)
    | Finished(result: CallResult)

  // The task that forwards the request body.
  datatype Forwarder = NotSpawned | Running | Completed | Aborted

  // `errors` is the history of failed attempts, `naps` that of the arguments to `backoff_for`: one for
  // each sleep that was begun, whether it came to its end or not.
  datatype Call = Call(
    phase: Phase,
    lastError: Option<ClientError>,
    forwarder: Forwarder,
    errors: seq<ClientError>,
    naps: seq<nat>)

  const START := Call(Queued, None, NotSpawned, [], [])

  datatype Event =
    | Permit
    | Woke
    | Ask(ticket: Pool.Ticket)
    | Connected(res: Pool.Outcome)
    | BuildFailed(message: string)
    | Sent(failure: Option<string>)
    | Invalidated
    | Head(failure: Option<string>)
    | DeadlineFired
    | Abandon
    | ForwarderEnds
    | BodyAborts

  predicate Can(p: RetryPolicy, c: Call, e: Event) {
    match e
    case Permit => c.phase.Queued?
    case Woke => c.phase.Sleeping? && c.phase.attempt > 0
    case Ask(_) => c.phase.Attempting?
    case Connected(_) => c.phase.InPool?
    case BuildFailed(_) => c.phase.Sending?
    case Sent(_) => c.phase.Sending?
    case Invalidated => c.phase.Invalidating? && c.lastError.Some?
    case Head(_) => c.phase.AwaitingHead?
    case DeadlineFired => !c.phase.Finished?
    case Abandon => !c.phase.Finished?
    case ForwarderEnds => c.forwarder.Running?
    case BodyAborts => c.forwarder.Running? && c.phase == Finished(Response)
  }

  const DEADLINE_EXCEEDED := RequestBuild("DeadlineExceeded")

  function NoErrorCaptured(p: RetryPolicy): ClientError {
    RetriesExhausted(p.maxAttempts, "no error captured")
  }

  function Fail(c: Call, attempt: nat, e: ClientError): Call {
    c.(phase := Invalidating(attempt), lastError := Some(e), errors := c.errors + [e])
  }

  // Aborting a task that has ended does nothing.
  function AbortForwarder(c: Call): Call {
    c.(forwarder := if c.forwarder.Running? then Aborted else c.forwarder)
  }

  function Do(p: RetryPolicy, c: Call, e: Event): Call
    requires Can(p, c, e)
  {
    match e
    case Permit =>
      c.(phase := if p.maxAttempts == 0 then Finished(Failed(NoErrorCaptured(p))) else Attempting(0))
    case Woke =>
      c.(phase := Attempting(c.phase.attempt))
    case Ask(t) => c.(phase := InPool(c.phase.attempt, t))
    case Connected(Ok(entry)) => c.(phase := Sending(c.phase.attempt, entry))
    case Connected(Err(error)) => Fail(c, c.phase.attempt, error)
    case BuildFailed(m) => c.(phase := Finished(Failed(RequestBuild(m))))
    case Sent(None) => c.(phase := AwaitingHead(c.phase.attempt), forwarder := Running)
    case Sent(Some(text)) => Fail(c, c.phase.attempt, StreamIo(text))
    case Invalidated =>
      if c.phase.attempt + 1 < p.maxAttempts then
        c.(phase := Sleeping(c.phase.attempt + 1), naps := c.naps + [c.phase.attempt])
      else c.(phase := Finished(Failed(c.lastError.value)))
    case Head(None) => c.(phase := Finished(Response))
    case Head(Some(text)) => AbortForwarder(c).(phase := Finished(Failed(StreamIo(text))))
    // Here the forwarder's JoinHandle is dropped, which does not stop the forwarder.
    case DeadlineFired => c.(phase := Finished(Failed(DEADLINE_EXCEEDED)))
    case Abandon => c.(phase := Finished(Dropped))
    case ForwarderEnds => c.(forwarder := Completed)
    case BodyAborts => AbortForwarder(c)
  }

  /** The call after the events `es`, if they form a run of the automaton. */
  function Replay(p: RetryPolicy, c: Call, es: seq<Event>): Option<Call> {
    if es == [] then Some(c)
    else
      var d := Replay(p, c, es[..|es| - 1]);
      if d.Some? && Can(p, d.value, es[|es| - 1]) then Some(Do(p, d.value, es[|es| - 1])) else None
  }

  lemma Played(p: RetryPolicy, es: seq<Event>, c: Call, e: Event)
    requires Replay(p, START, es) == Some(c) && Can(p, c, e)
    ensures Replay(p, START, es + [e]) == Some(Do(p, c, e))
  {
    ReplayAppend(p, START, es, e);
  }

  lemma ReplayAppend(p: RetryPolicy, c: Call, es: seq<Event>, e: Event)
    ensures Replay(p, c, es + [e]) ==
            var d := Replay(p, c, es);
            if d.Some? && Can(p, d.value, e) then Some(Do(p, d.value, e)) else None
  {
    assert (es + [e])[..|es|] == es;
  }

  // ---------------------------------------------------------------- what holds along a run

  // The attempt a call is in, and how many of its attempts have failed so far.
  ghost predicate AttemptBook(p: RetryPolicy, c: Call) {
    match c.phase
    case Queued => c.errors == [] && c.naps == []
    case Sleeping(k) => 0 < k < p.maxAttempts && |c.errors| == k && |c.naps| == k
    case Attempting(k) => k < p.maxAttempts && |c.errors| == k && |c.naps| == k
    case InPool(k, _) => k < p.maxAttempts && |c.errors| == k && |c.naps| == k
    case Sending(k, _) => k < p.maxAttempts && |c.errors| == k && |c.naps| == k
    case Invalidating(k) => k < p.maxAttempts && |c.errors| == k + 1 && |c.naps| == k
    case AwaitingHead(k) => k < p.maxAttempts && |c.errors| == k && |c.naps| == k
    case Finished(_) =>
      |c.errors| <= p.maxAttempts && |c.naps| <= |c.errors|
      && (c.naps != [] ==> |c.naps| < p.maxAttempts)
  }

  ghost predicate CallInv(p: RetryPolicy, c: Call) {
    && AttemptBook(p, c)
    && (forall k :: 0 <= k < |c.naps| ==> c.naps[k] == k)
    && (c.lastError == if c.errors == [] then None else Some(c.errors[|c.errors| - 1]))
    && (c.forwarder.NotSpawned? ==> !c.phase.AwaitingHead? && c.phase != Finished(Response))
    && (!c.forwarder.NotSpawned? ==> c.phase.AwaitingHead? || c.phase.Finished?)
    && (c.forwarder.Aborted? ==> c.phase.Finished?)
  }

  lemma StepKeepsCallInv(p: RetryPolicy, c: Call, e: Event)
    requires CallInv(p, c) && Can(p, c, e)
    ensures CallInv(p, Do(p, c, e))
  {
  }

  lemma {:induction false} ReplayKeepsCallInv(p: RetryPolicy, es: seq<Event>)
    requires Replay(p, START, es).Some?
    ensures CallInv(p, Replay(p, START, es).value)
  {
    if es == [] {
    } else {
      var n := |es| - 1;
      ReplayKeepsCallInv(p, es[..n]);
      StepKeepsCallInv(p, Replay(p, START, es[..n]).value, es[n]);
    }
  }

  predicate IsAsk(e: Event) {
    e.Ask?
  }

  predicate IsHandOff(e: Event) {
    e == Sent(None)
  }

  function Asked(c: Call): nat {
    |c.errors| + if c.phase.InPool? || c.phase.Sending? || c.phase.AwaitingHead? then 1 else 0
  }

  // After the hand-off nothing is asked and nothing is sent.
  ghost predicate QuietAfterHandOff(es: seq<Event>) {
    forall i, j :: 0 <= i < j < |es| && IsHandOff(es[i]) ==> !es[j].Ask? && !es[j].Sent?
  }

  lemma StaysQuiet(es: seq<Event>, e: Event)
    requires QuietAfterHandOff(es)
    requires Count(es, IsHandOff) > 0 ==> !e.Ask? && !e.Sent?
    ensures QuietAfterHandOff(es + [e])
  {
    CountPositive(es, IsHandOff);
  }

  /**
   Over every run: at most `maxAttempts` pool requests, and the body is handed to a forwarder at
   most once, by a successful send_request, after which no request is made.
   */
  lemma {:induction false} BoundedRetries(p: RetryPolicy, es: seq<Event>)
    requires Replay(p, START, es).Some?
    ensures var c := Replay(p, START, es).value;
            && Count(es, IsAsk) <= p.maxAttempts
            && Count(es, IsHandOff) == (if c.forwarder.NotSpawned? then 0 else 1)
            && QuietAfterHandOff(es)
            && (!c.phase.Finished? ==> Count(es, IsAsk) == Asked(c))
  {
    if es == [] {
    } else {
      var n := |es| - 1;
      BoundedRetries(p, es[..n]);
      ReplayKeepsCallInv(p, es[..n]);
      CountAppend(es[..n], es[n], IsAsk);
      CountAppend(es[..n], es[n], IsHandOff);
      StaysQuiet(es[..n], es[n]);
      assert es == es[..n] + [es[n]];
    }
  }

  // How often a call may still ask the pool.
  function AsksLeft(p: RetryPolicy, c: Call): int {
    if c.phase.Finished? then 0 else p.maxAttempts - Asked(c)
  }

  lemma AskIsPaidFor(p: RetryPolicy, c: Call, e: Event)
    requires CallInv(p, c) && Can(p, c, e)
    ensures 0 <= AsksLeft(p, Do(p, c, e)) <= AsksLeft(p, c) - Tally(IsAsk(e))
  {
  }

  // The failures the code answers by going on to the next attempt.
  predicate IsRetriedFailure(e: Event) {
    (e.Connected? && e.res.Err?) || (e.Sent? && e.failure.Some?)
  }

  predicate IsFailure(e: Event) {
    IsRetriedFailure(e) || e.BuildFailed? || (e.Head? && e.failure.Some?)
  }

  /** A call that runs out of attempts reports the error of its final attempt. */
  lemma ExhaustionReportsFinalError(p: RetryPolicy, es: seq<Event>)
    requires Replay(p, START, es + [Invalidated]).Some?
    ensures var c := Replay(p, START, es + [Invalidated]).value;
            && (c.phase.Finished? <==> |c.errors| == p.maxAttempts)
            && (c.phase.Finished? ==> |c.errors| > 0 && c.phase.result == Failed(c.errors[|c.errors| - 1]))
  {
    ReplayAppend(p, START, es, Invalidated);
    ReplayKeepsCallInv(p, es);
    ReplayKeepsCallInv(p, es + [Invalidated]);
  }

  predicate IsCut(e: Event) {
    e.DeadlineFired? || e.Abandon?
  }

  // What an event makes the call report, if it is the last word.
  ghost predicate Explains(p: RetryPolicy, e: Event, err: ClientError) {
    match e
    case Connected(Err(x)) => err == x
    case Sent(Some(text)) => err == StreamIo(text)
    case Head(Some(text)) => err == StreamIo(text)
    case BuildFailed(m) => err == RequestBuild(m)
    case DeadlineFired => err == RequestBuild("DeadlineExceeded")
    case Permit => p.maxAttempts == 0 && err == RetriesExhausted(0, "no error captured")
    case _ => false
  }

  ghost predicate LastWord(p: RetryPolicy, es: seq<Event>, err: ClientError) {
    exists i :: 0 <= i < |es| && Explains(p, es[i], err)
                && forall j :: i < j < |es| ==> !IsFailure(es[j]) && !IsCut(es[j])
  }

  lemma LastWordAppend(p: RetryPolicy, es: seq<Event>, e: Event, err: ClientError)
    requires Explains(p, e, err) || (LastWord(p, es, err) && !IsFailure(e) && !IsCut(e))
    ensures LastWord(p, es + [e], err)
  {
    var all := es + [e];
    if Explains(p, e, err) {
      assert Explains(p, all[|es|], err);
    } else {
      var i :| 0 <= i < |es| && Explains(p, es[i], err)
               && forall j :: i < j < |es| ==> !IsFailure(es[j]) && !IsCut(es[j]);
      assert Explains(p, all[i], err);
    }
  }

  ghost predicate Reported(p: RetryPolicy, es: seq<Event>, c: Call) {
    && (c.lastError.Some? && !c.phase.Finished? ==> LastWord(p, es, c.lastError.value))
    && (c.phase.Finished? ==>
          match c.phase.result
          case Response => Head(None) in es
          case Dropped => Abandon in es
          case Failed(err) => LastWord(p, es, err))
  }

  lemma ReportStep(p: RetryPolicy, es: seq<Event>, c: Call, e: Event)
    requires Reported(p, es, c) && CallInv(p, c) && Can(p, c, e)
    ensures Reported(p, es + [e], Do(p, c, e))
  {
    var d := Do(p, c, e);
    if d.phase.Finished? && d.phase.result.Failed? {
      LastWordAppend(p, es, e, d.phase.result.error);
    } else if !d.phase.Finished? && d.lastError.Some? {
      LastWordAppend(p, es, e, d.lastError.value);
    }
  }

  /**
   What a call reports is what happened to it: the very error of the last thing that failed, with its
   text; the deadline; or that there was no attempt. A response had a good head, a dropped call was
   abandoned.
   */
  lemma {:induction false} ReportsWhatHappened(p: RetryPolicy, es: seq<Event>)
    requires Replay(p, START, es).Some?
    ensures Reported(p, es, Replay(p, START, es).value)
  {
    if es == [] {
    } else {
      var n := |es| - 1;
      ReportsWhatHappened(p, es[..n]);
      ReplayKeepsCallInv(p, es[..n]);
      assert es == es[..n] + [es[n]];
      ReportStep(p, es[..n], Replay(p, START, es[..n]).value, es[n]);
    }
  }

  predicate IsInvalidated(e: Event) {
    e.Invalidated?
  }

  /** Each failure that is retried is followed by one invalidation, before anything else is tried. */
  lemma {:induction false} InvalidatesAfterFailure(p: RetryPolicy, es: seq<Event>)
    requires Replay(p, START, es).Some?
    ensures var c := Replay(p, START, es).value;
            && Count(es, IsRetriedFailure) == |c.errors|
            && Count(es, IsInvalidated) <= |c.errors|
            && (!c.phase.Finished? ==> Count(es, IsInvalidated) + Tally(c.phase.Invalidating?) == |c.errors|)
  {
    if es == [] {
    } else {
      var n := |es| - 1;
      InvalidatesAfterFailure(p, es[..n]);
      assert es == es[..n] + [es[n]];
      CountAppend(es[..n], es[n], IsRetriedFailure);
      CountAppend(es[..n], es[n], IsInvalidated);
    }
  }

  predicate IsForwarderEnd(e: Event) {
    e.ForwarderEnds?
  }

  // Nobody holds the forwarder's handle any more and no body will.
  predicate OutOfReach(c: Call) {
    c.phase.Finished? && c.phase.result != Response
  }

  /**
   A forwarder runs out of everybody's reach exactly when the body was handed off, the call was then
   cut off, by its deadline or by its owner, before the response head, and the forwarder has not
   ended by itself.
   */
  lemma {:induction false} DetachedForwarder(p: RetryPolicy, es: seq<Event>)
    requires Replay(p, START, es).Some?
    ensures var c := Replay(p, START, es).value;
            && (c.forwarder.Running? && OutOfReach(c) <==>
                  Count(es, IsHandOff) > 0 && Count(es, IsCut) > 0 && Count(es, IsForwarderEnd) == 0)
            && (Count(es, IsCut) > 0 ==> OutOfReach(c) && !c.forwarder.Aborted?)
            && (Count(es, IsForwarderEnd) == 0 <==> !c.forwarder.Completed?)
  {
    if es == [] {
    } else {
      var n := |es| - 1;
      DetachedForwarder(p, es[..n]);
      BoundedRetries(p, es);
      ReplayKeepsCallInv(p, es[..n]);
      assert es == es[..n] + [es[n]];
      CountAppend(es[..n], es[n], IsCut);
      CountAppend(es[..n], es[n], IsForwarderEnd);
    }
  }

  function Slept(p: RetryPolicy, naps: seq<nat>): seq<nat> {
    seq(|naps|, k requires 0 <= k < |naps| => if naps[k] < U32_LIMIT then BackoffFor(p, naps[k]) else 0)
  }

  /** Whatever happens to a call, the sleeps it begins are a prefix of the policy's backoffs. */
  lemma CallSleepsByPolicy(p: RetryPolicy, es: seq<Event>)
    requires Replay(p, START, es).Some? && p.maxAttempts < U32_LIMIT
    ensures var naps := Replay(p, START, es).value.naps;
            && |naps| <= (if p.maxAttempts == 0 then 0 else p.maxAttempts - 1)
            && Slept(p, naps) == Naps(p, |naps| + 1)
  {
    ReplayKeepsCallInv(p, es);
  }

  /** With the default policy those are 100, 200, 400 and 800 ms. */
  lemma DefaultSleeps(es: seq<Event>)
    requires Replay(DEFAULT_POLICY, START, es).Some?
    ensures var naps := Replay(DEFAULT_POLICY, START, es).value.naps;
            && |naps| <= 4
            && Slept(DEFAULT_POLICY, naps) == [100_000_000, 200_000_000, 400_000_000, 800_000_000][..|naps|]
  {
    var naps := Replay(DEFAULT_POLICY, START, es).value.naps;
    CallSleepsByPolicy(DEFAULT_POLICY, es);
    forall k | 0 <= k < |naps|
      ensures Slept(DEFAULT_POLICY, naps)[k] == [100_000_000, 200_000_000, 400_000_000, 800_000_000][k]
    {
      DefaultBackoffs(k);
    }
  }

  // Everything a call slept, in nanoseconds, with a sleep that was cut off counted in full.
  function TimeSlept(p: RetryPolicy, c: Call): nat {
    Total(Slept(p, c.naps))
  }

  lemma FewerCaps(n: nat, m: nat, cap: nat)
    requires n <= m
    ensures n * cap <= m * cap
  {
  }

  // The retries a policy allows.
  function Retries(p: RetryPolicy): nat {
    if p.maxAttempts == 0 then 0 else p.maxAttempts - 1
  }

  /** Over every run of a call, however it ends, all its sleeping is at most one cap per retry. */
  lemma CallSleepBelowCaps(p: RetryPolicy, es: seq<Event>)
    requires Replay(p, START, es).Some? && p.maxAttempts < U32_LIMIT
    ensures TimeSlept(p, Replay(p, START, es).value) <= Retries(p) * p.maxBackoff
  {
    var naps := Replay(p, START, es).value.naps;
    CallSleepsByPolicy(p, es);
    NapsBelowCap(p, |naps| + 1);
    FewerCaps(|naps|, Retries(p), p.maxBackoff);
  }

  /** And at most the geometric sum of the policy, even past the attempt where the exponent wraps. */
  lemma CallSleepBelowSum(p: RetryPolicy, es: seq<Event>)
    requires Replay(p, START, es).Some? && p.maxAttempts < U32_LIMIT && p.multiplier >= 1.0
    ensures TimeSlept(p, Replay(p, START, es).value) as real
            <= GeometricSum(p.initialBackoff as real, p.multiplier, Retries(p))
  {
    var naps := Replay(p, START, es).value.naps;
    CallSleepsByPolicy(p, es);
    NapsBelowSum(p, |naps| + 1);
    GeometricSumGrows(p.initialBackoff as real, p.multiplier, |naps|, Retries(p));
  }

  // ---------------------------------------------------------------- the loop

  // What the environment answers in one attempt; the answers are only read as far as needed.
  datatype Answers = Answers(
    connect: Pool.Outcome,
    build: Option<string>,
    send: Option<string>,
    head: Option<string>)

  // The error of an attempt that is retried, if it is.
  function RetryError(a: Answers): Option<ClientError> {
    if a.connect.Err? then Some(a.connect.error)
    else if a.build.None? && a.send.Some? then Some(StreamIo(a.send.value))
    else None
  }

  // The result of an attempt that is not retried.
  function FinalResult(a: Answers): CallResult {
    if a.build.Some? then Failed(RequestBuild(a.build.value))
    else if a.head.Some? then Failed(StreamIo(a.head.value))
    else Response
  }

  // The automaton's phase when the loop is about to test `attempt < max_attempts`.
  function LoopHead(p: RetryPolicy, attempt: nat, lastError: Option<ClientError>): Phase {
    if attempt >= p.maxAttempts then Finished(Failed(if lastError.Some? then lastError.value else NoErrorCaptured(p)))
    else if attempt == 0 then Attempting(0)
    else Sleeping(attempt)
  }

  // What goes on in attempt k before the answers come in, and what then comes in.
  function BackOffTrace(k: nat): seq<Event> {
    if k > 0 then [Woke] else []
  }

  function AnswerTrace(a: Answers, k: nat): seq<Event> {
    [Ask(k), Connected(a.connect)]
    + if a.connect.Err? then [Invalidated]
      else if a.build.Some? then [BuildFailed(a.build.value)]
      else if a.send.Some? then [Sent(a.send), Invalidated]
      else [Sent(None), Head(a.head)]
  }

  // The first n attempts.
  function Traces(script: nat -> Answers, n: nat): seq<Event> {
    if n == 0 then [] else Traces(script, n - 1) + (BackOffTrace(n - 1) + AnswerTrace(script(n - 1), n - 1))
  }

  // One more event of the run; `c` is the call it leads to.
  method Log(p: RetryPolicy, es: seq<Event>, ghost c: Call, e: Event) returns (ds: seq<Event>, ghost d: Call)
    requires Replay(p, START, es) == Some(c) && Can(p, c, e)
    ensures Replay(p, START, ds) == Some(d) && d == Do(p, c, e) && ds == es + [e]
  {
    Played(p, es, c, e);
    ds := es + [e];
    d := Do(p, c, e);
  }

  // Acquiring the permit.
  method Begin(p: RetryPolicy) returns (ds: seq<Event>, ghost d: Call)
    ensures Replay(p, START, ds) == Some(d) && d.phase == LoopHead(p, 0, None) && ds == [Permit]
  {
    ds, d := Log(p, [], START, Permit);
  }

  // The backoff before every attempt but the first.
  method BackOff(p: RetryPolicy, attempt: nat, es: seq<Event>, ghost c: Call) returns (ds: seq<Event>, ghost d: Call)
    requires Replay(p, START, es) == Some(c) && attempt < p.maxAttempts
    requires c.phase == if attempt == 0 then Attempting(0) else Sleeping(attempt)
    ensures Replay(p, START, ds) == Some(d) && d.phase == Attempting(attempt) && ds == es + BackOffTrace(attempt)
  {
    ds, d := es, c;
    if attempt > 0 {
      ds, d := Log(p, es, c, Woke);
    }
  }

  // The body of the loop after the backoff: `next` is what the loop returns, or None to go on.
  method RunAttempt(p: RetryPolicy, a: Answers, attempt: nat, es: seq<Event>, ghost c: Call)
    returns (next: Option<CallResult>, lastError: Option<ClientError>, ds: seq<Event>, ghost d: Call)
    requires attempt < p.maxAttempts && c.phase == Attempting(attempt)
    requires Replay(p, START, es) == Some(c)
    ensures Replay(p, START, ds) == Some(d) && ds == es + AnswerTrace(a, attempt)
    ensures match RetryError(a)
            case Some(e) =>
              next.None? && lastError == d.lastError == Some(e) && d.phase == LoopHead(p, attempt + 1, Some(e))
            case None => next == Some(FinalResult(a)) && d.phase == Finished(FinalResult(a))
  {
    lastError := None;
    ds, d := Log(p, es, c, Ask(attempt));
    ds, d := Log(p, ds, d, Connected(a.connect));
    if a.connect.Err? {
      lastError := Some(a.connect.error);
      ds, d := Log(p, ds, d, Invalidated);
      return None, lastError, ds, d;
    }
    if a.build.Some? {
      ds, d := Log(p, ds, d, BuildFailed(a.build.value));
      return Some(Failed(RequestBuild(a.build.value))), lastError, ds, d;
    }
    ds, d := Log(p, ds, d, Sent(a.send));
    if a.send.Some? {
      lastError := Some(StreamIo(a.send.value));
      ds, d := Log(p, ds, d, Invalidated);
      return None, lastError, ds, d;
    }
    ds, d := Log(p, ds, d, Head(a.head));
    if a.head.Some? {
      return Some(Failed(StreamIo(a.head.value))), lastError, ds, d;
    }
    return Some(Response), lastError, ds, d;
  }

  // The first attempt from `k` on that is not retried, or `m`.
  function FirstFinal(script: nat -> Answers, k: nat, m: nat): (f: nat)
    requires k <= m
    ensures k <= f <= m
    ensures forall i :: k <= i < f ==> RetryError(script(i)).Some?
    ensures f < m ==> RetryError(script(f)).None?
    decreases m - k
  {
    if k == m || RetryError(script(k)).None? then k else FirstFinal(script, k + 1, m)
  }

  // What the retry loop promises: the first attempt that is not retried decides, or else the last.
  function CallOutcome(p: RetryPolicy, script: nat -> Answers): CallResult {
    var f := FirstFinal(script, 0, p.maxAttempts);
    if f < p.maxAttempts then FinalResult(script(f))
    else if f == 0 then Failed(NoErrorCaptured(p))
    else Failed(RetryError(script(f - 1)).value)
  }

  // And what happens on the way: the permit, and every attempt up to that one.
  function CallTrace(p: RetryPolicy, script: nat -> Answers): seq<Event> {
    var f := FirstFinal(script, 0, p.maxAttempts);
    [Permit] + Traces(script, if f < p.maxAttempts then f + 1 else f)
  }

  // All attempts before the `k`-th were retried; this says what the `k`-th one means.
  lemma AttemptDecides(p: RetryPolicy, script: nat -> Answers, k: nat, a: Answers)
    requires k <= FirstFinal(script, 0, p.maxAttempts) && k < p.maxAttempts && a == script(k)
    ensures RetryError(a).Some? ==> k + 1 <= FirstFinal(script, 0, p.maxAttempts)
    ensures RetryError(a).None? ==> FirstFinal(script, 0, p.maxAttempts) == k
    ensures RetryError(a).None? ==> CallOutcome(p, script) == FinalResult(a)
  {
  }

  // The permit and the first k attempts.
  ghost predicate TracedUpTo(es: seq<Event>, script: nat -> Answers, k: nat) {
    es == [Permit] + Traces(script, k)
  }

  lemma OneMoreAttempt(es: seq<Event>, script: nat -> Answers, k: nat, bs: seq<Event>, ds: seq<Event>)
    requires TracedUpTo(es, script, k)
    requires bs == es + BackOffTrace(k) && ds == bs + AnswerTrace(script(k), k)
    ensures TracedUpTo(ds, script, k + 1)
  {
    calc {
      ds;
      ([Permit] + Traces(script, k) + BackOffTrace(k)) + AnswerTrace(script(k), k);
      [Permit] + (Traces(script, k) + (BackOffTrace(k) + AnswerTrace(script(k), k)));
    }
  }

  // One pass of the loop, with the backoff before it.
  method Attempt(p: RetryPolicy, script: nat -> Answers, k: nat, es: seq<Event>, ghost c: Call)
    returns (next: Option<CallResult>, lastError: Option<ClientError>, ds: seq<Event>, ghost d: Call)
    requires k < p.maxAttempts && c.phase == if k == 0 then Attempting(0) else Sleeping(k)
    requires Replay(p, START, es) == Some(c) && TracedUpTo(es, script, k)
    ensures Replay(p, START, ds) == Some(d) && TracedUpTo(ds, script, k + 1)
    ensures match RetryError(script(k))
            case Some(e) => next.None? && lastError == Some(e) && d.phase == LoopHead(p, k + 1, Some(e))
            case None => next == Some(FinalResult(script(k))) && d.phase == Finished(FinalResult(script(k)))
  {
    var bs;
    bs, d := BackOff(p, k, es, c);
    next, lastError, ds, d := RunAttempt(p, script(k), k, bs, d);
    OneMoreAttempt(es, script, k, bs, ds);
  }

  method Run(p: RetryPolicy, script: nat -> Answers) returns (result: CallResult, events: seq<Event>)
    ensures Replay(p, START, events).Some? && Replay(p, START, events).value.phase == Finished(result)
    ensures result == CallOutcome(p, script) && events == CallTrace(p, script)
  {
    var lastError: Option<ClientError> := None;
    ghost var c;
    events, c := Begin(p);
    for attempt := 0 to p.maxAttempts
      invariant Replay(p, START, events) == Some(c) && TracedUpTo(events, script, attempt)
      invariant c.phase == LoopHead(p, attempt, lastError)
      invariant attempt <= FirstFinal(script, 0, p.maxAttempts)
      invariant lastError == if attempt == 0 then None else RetryError(script(attempt - 1))
    {
      var next;
      AttemptDecides(p, script, attempt, script(attempt));
      next, lastError, events, c := Attempt(p, script, attempt, events, c);
      if next.Some? {
        return next.value, events;
      }
    }
    result := Failed(if lastError.Some? then lastError.value else NoErrorCaptured(p));
  }
}

/**
 A request upload as a whole: a call with its response body (`CallLife`), the write loop of its
 forwarder (`Forward`), and what the server reads (`Delivery`). The forwarder can be aborted between
 any two operations of its loop.
 */
module Upload {
  import opened Common
  import opened Retry
  import opened Channel
  import CallLife
  import Pool
  import Body
  import opened Forward
  import Delivery

  // `issued` is how many operations of the write loop are done, `outs` what the response body gave.
  datatype State = State(life: CallLife.Life, issued: nat, outs: seq<Body.Out>)

  const IDLE := State(CallLife.BORN, 0, [])

  datatype Step = InLife(step: CallLife.Step) | Issue

  // What is in the forwarder's error channel: nothing while it runs, then its report, if it has one.
  // An aborted task drops the channel unused, sooner or later.
  predicate InChannel(fw: Forwarding, f: Forwarder, rx: Body.RxPoll) {
    match f
    case Completed => rx == if fw.report.Some? then Body.RxErr(fw.report.value) else Body.RxDropped
    case Aborted => !rx.RxErr?
    case _ => rx.RxPending?
  }

  // The forwarder ends by itself when its loop has nothing more to issue.
  predicate Enabled(p: RetryPolicy, fw: Forwarding, s: State, step: Step) {
    match step
    case InLife(l) =>
      && CallLife.Enabled(p, s.life, l)
      && (l == CallLife.InCall(ForwarderEnds) ==> s.issued == |fw.ops|)
      && (l.Poll? ==> InChannel(fw, s.life.call.forwarder, l.env.rx))
    case Issue => s.life.call.forwarder.Running? && s.issued < |fw.ops|
  }

  function Next(p: RetryPolicy, timed: bool, fw: Forwarding, s: State, step: Step): State
    requires Enabled(p, fw, s, step)
  {
    match step
    case InLife(l) =>
      State(CallLife.Next(p, timed, s.life, l), s.issued,
            s.outs + if l.Poll? then [Body.ClientPoll(s.life.slot.body, l.env).1] else [])
    case Issue => s.(issued := s.issued + 1)
  }

  ghost predicate Legal(p: RetryPolicy, timed: bool, fw: Forwarding, s: State, steps: seq<Step>)
    decreases |steps|
  {
    steps == []
    || (Enabled(p, fw, s, steps[0]) && Legal(p, timed, fw, Next(p, timed, fw, s, steps[0]), steps[1..]))
  }

  ghost function After(p: RetryPolicy, timed: bool, fw: Forwarding, s: State, steps: seq<Step>): State
    requires Legal(p, timed, fw, s, steps)
    decreases |steps|
  {
    if steps == [] then s else After(p, timed, fw, Next(p, timed, fw, s, steps[0]), steps[1..])
  }

  // Operations are issued after the hand-off only, and a forwarder that ended by itself issued all.
  ghost predicate Inv(p: RetryPolicy, fw: Forwarding, s: State) {
    && CallLife.Inv(p, s.life)
    && s.issued <= |fw.ops|
    && (s.life.call.forwarder.NotSpawned? ==> s.issued == 0)
    && (s.life.call.forwarder.Completed? ==> s.issued == |fw.ops|)
  }

  lemma LifeMovesForwarder(p: RetryPolicy, timed: bool, l: CallLife.Life, step: CallLife.Step)
    requires CallLife.Inv(p, l) && CallLife.Enabled(p, l, step)
    ensures var f, f' := l.call.forwarder, CallLife.Next(p, timed, l, step).call.forwarder;
            && (f'.NotSpawned? ==> f.NotSpawned?)
            && (f'.Completed? ==> f.Completed? || step == CallLife.InCall(ForwarderEnds))
  {
    ReplayKeepsCallInv(p, l.log);
  }

  lemma StepKeepsInv(p: RetryPolicy, timed: bool, fw: Forwarding, s: State, step: Step)
    requires Inv(p, fw, s) && Enabled(p, fw, s, step)
    ensures Inv(p, fw, Next(p, timed, fw, s, step))
  {
    if step.InLife? {
      CallLife.StepKeepsInv(p, timed, s.life, step.step);
      LifeMovesForwarder(p, timed, s.life, step.step);
    }
  }

  lemma {:induction false} RunKeepsInv(p: RetryPolicy, timed: bool, fw: Forwarding, s: State, steps: seq<Step>)
    requires Inv(p, fw, s) && Legal(p, timed, fw, s, steps)
    ensures Inv(p, fw, After(p, timed, fw, s, steps))
    decreases |steps|
  {
    if steps == [] {
    } else {
      StepKeepsInv(p, timed, fw, s, steps[0]);
      RunKeepsInv(p, timed, fw, Next(p, timed, fw, s, steps[0]), steps[1..]);
    }
  }

  predicate Stopped(s: State) {
    s.life.call.forwarder.Completed? || s.life.call.forwarder.Aborted?
  }

  /**
   Once the forwarder has stopped, the server can rely on the end of the request exactly if nothing
   was lost in what the forwarder got round to, or if dropping a stream does not finish it; a
   forwarder that was not aborted got round to everything.
   */
  lemma StoppedUpload(p: RetryPolicy, timed: bool, items: seq<Item>, res: SendResults, closes: bool, steps: seq<Step>)
    requires Legal(p, timed, ClientForward(items, res), IDLE, steps)
    requires Stopped(After(p, timed, ClientForward(items, res), IDLE, steps))
    ensures var s := After(p, timed, ClientForward(items, res), IDLE, steps);
            && s.issued <= |ClientForward(items, res).ops|
            && (Delivery.EndTrusted(items, RequestWire(items, res, s.issued, closes)) <==>
                  Lossless(items, Cut(res, s.issued)) || !closes)
            && (s.life.call.forwarder.Completed? ==>
                  (Lossless(items, Cut(res, s.issued)) <==> Lossless(items, res)))
  {
    var fw := ClientForward(items, res);
    RunKeepsInv(p, timed, fw, IDLE, steps);
    Delivery.RequestEndTrustedExactlyWhen(items, res, After(p, timed, fw, IDLE, steps).issued, closes);
    UncutRequest(items, res);
  }

  // ---------------------------------------------------------------- the aborts

  lemma LegalCons(p: RetryPolicy, timed: bool, fw: Forwarding, s: State, step: Step, rest: seq<Step>)
    requires Enabled(p, fw, s, step) && Legal(p, timed, fw, Next(p, timed, fw, s, step), rest)
    ensures Legal(p, timed, fw, s, [step] + rest)
    ensures After(p, timed, fw, s, [step] + rest) == After(p, timed, fw, Next(p, timed, fw, s, step), rest)
  {
    assert ([step] + rest)[1..] == rest;
  }

  // The forwarder runs, and the call waits for the response head.
  ghost predicate Uploading(s: State, k: nat) {
    && s.life.call.phase.AwaitingHead? && s.life.call.forwarder.Running? && s.life.slot.NoBody?
    && s.issued == k
  }

  // The three ways in which the code aborts it: a failed response head, the deadline seen by the
  // response body, and the drop of the response body.
  datatype Way = BadHead(text: string) | BodyDeadline(env: Body.Env) | BodyDropped

  // The forwarder is still running, so its channel is empty.
  function Unread(env: Body.Env): Body.Env {
    env.(rx := Body.RxPending)
  }

  function AbortSteps(way: Way): seq<Step> {
    match way
    case BadHead(text) => [InLife(CallLife.InCall(Head(Some(text))))] + []
    case BodyDeadline(env) => [InLife(CallLife.InCall(Head(None)))] + ([InLife(CallLife.Poll(Unread(env)))] + [])
    case BodyDropped => [InLife(CallLife.InCall(Head(None)))] + ([InLife(CallLife.DropBody)] + [])
  }

  lemma EveryWayAborts(p: RetryPolicy, timed: bool, fw: Forwarding, s: State, k: nat, way: Way)
    requires Uploading(s, k) && (way.BodyDeadline? ==> timed && way.env.deadlineFired)
    ensures Legal(p, timed, fw, s, AbortSteps(way))
    ensures var t := After(p, timed, fw, s, AbortSteps(way));
            t.life.call.forwarder.Aborted? && t.issued == k
  {
    if way.BadHead? {
      LegalCons(p, timed, fw, s, InLife(CallLife.InCall(Head(Some(way.text)))), []);
    } else {
      var last := if way.BodyDropped? then InLife(CallLife.DropBody) else InLife(CallLife.Poll(Unread(way.env)));
      var answered := Next(p, timed, fw, s, InLife(CallLife.InCall(Head(None))));
      LegalCons(p, timed, fw, answered, last, []);
      LegalCons(p, timed, fw, s, InLife(CallLife.InCall(Head(None))), [last] + []);
    }
  }

  lemma {:induction false} IssueThenAbort(p: RetryPolicy, timed: bool, fw: Forwarding, s: State, k: nat, way: Way)
    returns (steps: seq<Step>)
    requires s.issued <= k <= |fw.ops| && Uploading(s, s.issued)
    requires way.BodyDeadline? ==> timed && way.env.deadlineFired
    ensures Legal(p, timed, fw, s, steps)
    ensures var t := After(p, timed, fw, s, steps); t.life.call.forwarder.Aborted? && t.issued == k
    decreases k - s.issued
  {
    if s.issued == k {
      EveryWayAborts(p, timed, fw, s, k, way);
      steps := AbortSteps(way);
    } else {
      var rest := IssueThenAbort(p, timed, fw, Next(p, timed, fw, s, Issue), k, way);
      LegalCons(p, timed, fw, s, Issue, rest);
      steps := [Issue] + rest;
    }
  }

  function Started(): State {
    State(CallLife.Life(
      Call(AwaitingHead(0), None, Running, [], []),
      [Permit, Ask(0), Connected(Ok(Pool.Entry(0))), Sent(None)], CallLife.NoBody), 0, [])
  }

  // A call whose first attempt gets as far as the hand-off.
  lemma HandsOff(p: RetryPolicy, timed: bool, fw: Forwarding, rest: seq<Step>) returns (steps: seq<Step>)
    requires p.maxAttempts > 0 && Legal(p, timed, fw, Started(), rest)
    ensures Legal(p, timed, fw, IDLE, steps)
    ensures After(p, timed, fw, IDLE, steps) == After(p, timed, fw, Started(), rest)
  {
    var permitted := Next(p, timed, fw, IDLE, InLife(CallLife.InCall(Permit)));
    var asked := Next(p, timed, fw, permitted, InLife(CallLife.InCall(Ask(0))));
    var connected := Next(p, timed, fw, asked, InLife(CallLife.InCall(Connected(Ok(Pool.Entry(0))))));
    assert Next(p, timed, fw, connected, InLife(CallLife.InCall(Sent(None)))) == Started();
    steps := [InLife(CallLife.InCall(Sent(None)))] + rest;
    LegalCons(p, timed, fw, connected, InLife(CallLife.InCall(Sent(None))), rest);
    LegalCons(p, timed, fw, asked, InLife(CallLife.InCall(Connected(Ok(Pool.Entry(0))))), steps);
    steps := [InLife(CallLife.InCall(Connected(Ok(Pool.Entry(0)))))] + steps;
    LegalCons(p, timed, fw, permitted, InLife(CallLife.InCall(Ask(0))), steps);
    steps := [InLife(CallLife.InCall(Ask(0)))] + steps;
    LegalCons(p, timed, fw, IDLE, InLife(CallLife.InCall(Permit)), steps);
    steps := [InLife(CallLife.InCall(Permit))] + steps;
  }

  ghost predicate AbortsAt(p: RetryPolicy, timed: bool, fw: Forwarding, steps: seq<Step>, k: nat) {
    && Legal(p, timed, fw, IDLE, steps)
    && After(p, timed, fw, IDLE, steps).life.call.forwarder.Aborted?
    && After(p, timed, fw, IDLE, steps).issued == k
  }

  /** In each of its three ways the code can abort an upload after any number of operations. */
  lemma AbortAnywhere(p: RetryPolicy, timed: bool, fw: Forwarding, k: nat, way: Way) returns (steps: seq<Step>)
    requires p.maxAttempts > 0 && k <= |fw.ops|
    requires way.BodyDeadline? ==> timed && way.env.deadlineFired
    ensures AbortsAt(p, timed, fw, steps, k)
  {
    var rest := IssueThenAbort(p, timed, fw, Started(), k, way);
    steps := HandsOff(p, timed, fw, rest);
  }

  // ---------------------------------------------------------------- all runs together

  ghost predicate TrustedAfter(p: RetryPolicy, timed: bool, items: seq<Item>, res: SendResults, closes: bool,
                               steps: seq<Step>)
    requires Legal(p, timed, ClientForward(items, res), IDLE, steps)
  {
    var s := After(p, timed, ClientForward(items, res), IDLE, steps);
    Stopped(s) && s.issued <= |ClientForward(items, res).ops| ==>
      Delivery.EndTrusted(items, RequestWire(items, res, s.issued, closes))
  }

  predicate NothingToSay(items: seq<Item>) {
    ErrorFree(items) && BytesOfItems(items) == [] && TrailersOfItems(items) == []
  }

  lemma NothingToLose(items: seq<Item>, res: SendResults)
    ensures NothingToSay(items) ==> Lossless(items, res)
    ensures Lossless(items, Cut(res, 0)) ==> NothingToSay(items)
  {
    DataBytesGrow(items, FirstFailure(res, 0, LeadingData(items)), LeadingData(items));
    FirstFailureCut(res, 0, LeadingData(items));
  }

  /**
   Over all runs of a call and its response body, cancelled or not: the server can rely on the end of
   the request exactly when dropping a send stream does not finish it, or there is nothing to send,
   or no attempt to send it. It does not help that every send succeeds.
   */
  lemma UploadTrustedExactlyWhen(p: RetryPolicy, timed: bool, items: seq<Item>, res: SendResults, closes: bool)
    ensures (forall steps | Legal(p, timed, ClientForward(items, res), IDLE, steps) ::
               TrustedAfter(p, timed, items, res, closes, steps))
            <==> !closes || NothingToSay(items) || p.maxAttempts == 0
  {
    var fw := ClientForward(items, res);
    if !closes || NothingToSay(items) || p.maxAttempts == 0 {
      forall steps | Legal(p, timed, fw, IDLE, steps) ensures TrustedAfter(p, timed, items, res, closes, steps) {
        RunKeepsInv(p, timed, fw, IDLE, steps);
        var s := After(p, timed, fw, IDLE, steps);
        NothingToLose(items, Cut(res, s.issued));
        if Stopped(s) {
          HandOffNeedsAttempt(p, s.life.log);
          StoppedUpload(p, timed, items, res, closes, steps);
        }
      }
    } else {
      var steps := AbortAnywhere(p, timed, fw, 0, BodyDropped);
      NothingToLose(items, res);
      StoppedUpload(p, timed, items, res, closes, steps);
      assert !TrustedAfter(p, timed, items, res, closes, steps);
    }
  }

  // Without attempts nothing is ever handed off.
  lemma {:induction false} HandOffNeedsAttempt(p: RetryPolicy, es: seq<Event>)
    requires Replay(p, START, es).Some?
    ensures p.maxAttempts == 0 ==> Replay(p, START, es).value.forwarder.NotSpawned?
  {
    if es == [] {
    } else {
      HandOffNeedsAttempt(p, es[..|es| - 1]);
      ReplayKeepsCallInv(p, es[..|es| - 1]);
    }
  }
  // ---------------------------------------------------------------- the forwarder's report

  // The body has what is in the channel still before it, or has shown it, and shows nothing else.
  ghost predicate ReportInv(fw: Forwarding, s: State) {
    var f := s.life.call.forwarder;
    && (forall text :: Body.ForwarderError(text) in s.outs ==> f.Completed? && fw.report == Some(text))
    && (s.life.slot.NoBody? ==> s.outs == [])
    && (s.life.slot.Alive? && !s.life.slot.body.rx ==> !f.Running?)
    && (s.life.slot.Alive? && !s.life.slot.body.rx && f.Completed? && fw.report.Some? ==>
          Body.ForwarderError(fw.report.value) in s.outs)
  }

  lemma PollKeepsReport(p: RetryPolicy, timed: bool, fw: Forwarding, s: State, env: Body.Env)
    requires Inv(p, fw, s) && ReportInv(fw, s) && Enabled(p, fw, s, InLife(CallLife.Poll(env)))
    ensures ReportInv(fw, Next(p, timed, fw, s, InLife(CallLife.Poll(env))))
  {
    var t := Next(p, timed, fw, s, InLife(CallLife.Poll(env)));
    var out := Body.ClientPoll(s.life.slot.body, env).1;
    ReplayKeepsCallInv(p, s.life.log);
    Body.PollEchoes(s.life.slot.body, env);
    assert t.outs == s.outs + [out];
    assert forall o :: o in t.outs <==> o in s.outs || o == out;
  }

  lemma StepKeepsReport(p: RetryPolicy, timed: bool, fw: Forwarding, s: State, step: Step)
    requires Inv(p, fw, s) && ReportInv(fw, s) && Enabled(p, fw, s, step)
    ensures ReportInv(fw, Next(p, timed, fw, s, step))
  {
    ReplayKeepsCallInv(p, s.life.log);
    if step.InLife? && step.step.Poll? {
      PollKeepsReport(p, timed, fw, s, step.step.env);
    } else {
      assert Next(p, timed, fw, s, step).outs == s.outs;
    }
  }

  lemma {:induction false} RunKeepsReport(p: RetryPolicy, timed: bool, fw: Forwarding, s: State, steps: seq<Step>)
    requires Inv(p, fw, s) && ReportInv(fw, s) && Legal(p, timed, fw, s, steps)
    ensures ReportInv(fw, After(p, timed, fw, s, steps))
    decreases |steps|
  {
    if steps == [] {
    } else {
      StepKeepsInv(p, timed, fw, s, steps[0]);
      StepKeepsReport(p, timed, fw, s, steps[0]);
      RunKeepsReport(p, timed, fw, Next(p, timed, fw, s, steps[0]), steps[1..]);
    }
  }

  /**
   A failure of the upload reaches the reader of the response. Over every run the response body shows
   no error but the forwarder's report, and that only after the forwarder has ended; once it has
   ended with a report, an open body has shown it or shows it at the next poll, unless that poll
   sees the deadline.
   */
  lemma ReportReachesResponse(p: RetryPolicy, timed: bool, fw: Forwarding, steps: seq<Step>, env: Body.Env)
    requires Legal(p, timed, fw, IDLE, steps)
    ensures var s := After(p, timed, fw, IDLE, steps);
            && (forall text :: Body.ForwarderError(text) in s.outs ==>
                  s.life.call.forwarder.Completed? && fw.report == Some(text))
            && (s.life.call.forwarder.Completed? && fw.report.Some?
                && s.life.slot.Alive? && !s.life.slot.body.closed
                && Enabled(p, fw, s, InLife(CallLife.Poll(env))) && !(s.life.slot.body.timed && env.deadlineFired) ==>
                  Body.ForwarderError(fw.report.value) in Next(p, timed, fw, s, InLife(CallLife.Poll(env))).outs)
  {
    RunKeepsReport(p, timed, fw, IDLE, steps);
    var s := After(p, timed, fw, IDLE, steps);
    if Enabled(p, fw, s, InLife(CallLife.Poll(env))) {
      var out := Body.ClientPoll(s.life.slot.body, env).1;
      assert Next(p, timed, fw, s, InLife(CallLife.Poll(env))).outs == s.outs + [out];
      assert out in s.outs + [out];
    }
  }
}

/**
 A call together with the response body it returns (crates/grpc-quic-client/src/channel.rs and
 crates/grpc-quic-core/src/body.rs): who stops the task that forwards the request body.
 */
module CallLife {
  import opened Common
  import opened Retry
  import opened Channel
  import Body

  datatype BodySlot = NoBody | Alive(body: Body.ClientBody) | Gone(aborts: nat)

  // `log` is the history of the call's own events.
  datatype Life = Life(call: Call, log: seq<Channel.Event>, slot: BodySlot)

  const BORN := Life(START, [], NoBody)

  datatype Step = InCall(event: Channel.Event) | Poll(env: Body.Env) | DropBody

  predicate Enabled(p: RetryPolicy, l: Life, step: Step) {
    match step
    case InCall(e) => !e.BodyAborts? && Can(p, l.call, e)
    case Poll(_) => l.slot.Alive?
    case DropBody => l.slot.Alive?
  }

  // An abort by the body reaches the forwarder if that is still running.
  function Aborting(p: RetryPolicy, l: Life, b: Body.ClientBody, b': Body.ClientBody): Life {
    if b'.aborts > b.aborts && Can(p, l.call, BodyAborts) then
      l.(call := Do(p, l.call, BodyAborts), log := l.log + [BodyAborts])
    else l
  }

  // A body comes with the error channel and the abort handle of its call's forwarder.
  function Next(p: RetryPolicy, timed: bool, l: Life, step: Step): Life
    requires Enabled(p, l, step)
  {
    match step
    case InCall(e) =>
      Life(Do(p, l.call, e), l.log + [e], if e == Head(None) then Alive(Body.ClientNew(true, true, timed)) else l.slot)
    case Poll(env) =>
      var b' := Body.ClientPoll(l.slot.body, env).0;
      Aborting(p, l, l.slot.body, b').(slot := Alive(b'))
    case DropBody =>
      var b' := Body.Abort(l.slot.body);
      Aborting(p, l, l.slot.body, b').(slot := Gone(b'.aborts))
  }

  ghost predicate Legal(p: RetryPolicy, timed: bool, l: Life, steps: seq<Step>)
    decreases |steps|
  {
    steps == [] || (Enabled(p, l, steps[0]) && Legal(p, timed, Next(p, timed, l, steps[0]), steps[1..]))
  }

  ghost function After(p: RetryPolicy, timed: bool, l: Life, steps: seq<Step>): Life
    requires Legal(p, timed, l, steps)
    decreases |steps|
  {
    if steps == [] then l else After(p, timed, Next(p, timed, l, steps[0]), steps[1..])
  }

  // A response's body has the handle, or has aborted the forwarder with it.
  ghost predicate SlotInv(l: Life) {
    match l.slot
    case NoBody => l.call.phase != Finished(Response)
    case Alive(b) =>
      && l.call.phase == Finished(Response)
      && Body.ClientInv(b)
      && b.aborts + Tally(b.handle) == 1
      && (l.call.forwarder.Running? ==> b.handle)
    case Gone(aborts) => l.call.phase == Finished(Response) && aborts == 1 && !l.call.forwarder.Running?
  }

  ghost predicate Inv(p: RetryPolicy, l: Life) {
    Logged(p, l.log, l.call) && SlotInv(l)
  }

  ghost predicate Logged(p: RetryPolicy, log: seq<Channel.Event>, c: Call) {
    Replay(p, START, log) == Some(c)
  }

  lemma LogOneMore(p: RetryPolicy, log: seq<Channel.Event>, c: Call, e: Channel.Event, d: Call)
    requires Logged(p, log, c) && Can(p, c, e) && d == Do(p, c, e)
    ensures Logged(p, log + [e], d)
  {
    Played(p, log, c, e);
  }

  lemma StepKeepsLog(p: RetryPolicy, timed: bool, l: Life, step: Step)
    requires Logged(p, l.log, l.call) && Enabled(p, l, step)
    ensures Logged(p, Next(p, timed, l, step).log, Next(p, timed, l, step).call)
  {
    if step.InCall? {
      LogOneMore(p, l.log, l.call, step.event, Do(p, l.call, step.event));
    } else if Can(p, l.call, BodyAborts) {
      LogOneMore(p, l.log, l.call, BodyAborts, Do(p, l.call, BodyAborts));
    }
  }

  lemma StepKeepsSlot(p: RetryPolicy, timed: bool, l: Life, step: Step)
    requires SlotInv(l) && Enabled(p, l, step)
    ensures SlotInv(Next(p, timed, l, step))
  {
    if step.Poll? {
      Body.ClientPollKeepsInv(l.slot.body, step.env);
    }
  }

  lemma StepKeepsInv(p: RetryPolicy, timed: bool, l: Life, step: Step)
    requires Inv(p, l) && Enabled(p, l, step)
    ensures Inv(p, Next(p, timed, l, step))
  {
    StepKeepsLog(p, timed, l, step);
    StepKeepsSlot(p, timed, l, step);
  }

  lemma {:induction false} RunKeepsInv(p: RetryPolicy, timed: bool, l: Life, steps: seq<Step>)
    requires Inv(p, l) && Legal(p, timed, l, steps)
    ensures Inv(p, After(p, timed, l, steps))
    decreases |steps|
  {
    if steps == [] {
    } else {
      StepKeepsInv(p, timed, l, steps[0]);
      RunKeepsInv(p, timed, Next(p, timed, l, steps[0]), steps[1..]);
    }
  }

  /**
   Once a call is over and its response body, if it returned one, is dropped, the forwarder is
   still running exactly when the body was handed off, the call was cut off before the response
   head and the forwarder has not ended by itself. A dropped body has aborted exactly once.
   */
  lemma ForwarderOutlives(p: RetryPolicy, timed: bool, steps: seq<Step>)
    requires Legal(p, timed, BORN, steps)
    ensures var l := After(p, timed, BORN, steps);
            && Replay(p, START, l.log) == Some(l.call)
            && (l.slot.Gone? ==>
                  l.slot.aborts == 1 && (l.call.forwarder.Aborted? <==> Count(l.log, IsForwarderEnd) == 0))
            && (l.call.phase.Finished? && !l.slot.Alive? ==>
                  (l.call.forwarder.Running? <==>
                     Count(l.log, IsHandOff) > 0 && Count(l.log, IsCut) > 0 && Count(l.log, IsForwarderEnd) == 0))
  {
    RunKeepsInv(p, timed, BORN, steps);
    DetachedForwarder(p, After(p, timed, BORN, steps).log);
    ReplayKeepsCallInv(p, After(p, timed, BORN, steps).log);
  }
}

/**
 The two receive bodies (crates/grpc-quic-core/src/body.rs): poll-driven frame state machines.

 One poll is a function of the body's flags and of what the stream, the oneshot and the timer
 would answer if asked. `polled` records which of them the poll asked, and how it was answered.
 */
module Body {
  import opened Common

  newtype Byte = x: int | 0 <= x < 256
  type Bytes = seq<Byte>
  type Headers = seq<(string, string)>

  datatype DataPoll = DataPending | DataChunk(bytes: Bytes) | DataEnd | DataErr(text: string)
  datatype TrailersPoll = TrailersPending | TrailersSome(headers: Headers) | TrailersNone | TrailersErr(text: string)
  datatype RxPoll = RxPending | RxErr(text: string) | RxDropped

  datatype Env = Env(data: DataPoll, trailers: TrailersPoll, rx: RxPoll, deadlineFired: bool)

  datatype Out =
    | Pending
    | Data(bytes: Bytes)
    | Trailers(headers: Headers)
    | StreamError(text: string)
    | ForwarderError(text: string)
    | End

  datatype Asked = Asked(deadline: bool, rx: bool, data: bool, trailers: bool)

  // ---------------------------------------------------------------- server side

  datatype ServerBody = ServerBody(dataDone: bool, trailersDone: bool)

  const SERVER_NEW := ServerBody(false, false)

  function PollTrailers(t: TrailersPoll): Out {
    match t
    case TrailersSome(h) => Trailers(h)
    case TrailersNone => End
    case TrailersErr(e) => StreamError(e)
    case TrailersPending => Pending
  }

  function ServerPoll(b: ServerBody, env: Env): (ServerBody, Out) {
    if !b.dataDone && env.data.DataChunk? then (b, Data(env.data.bytes))
    else if !b.dataDone && env.data.DataErr? then (b, StreamError(env.data.text))
    else if !b.dataDone && env.data.DataPending? then (b, Pending)
    else if !b.trailersDone then (ServerBody(true, !env.trailers.TrailersPending?), PollTrailers(env.trailers))
    else (b.(dataDone := true), End)
  }

  // ---------------------------------------------------------------- client side

  // `rx` and `handle` say whether err_rx and the abort handle are still there; `timed` whether
  // the call has a deadline; `aborts` counts the aborts of the forwarder.
  datatype ClientBody = ClientBody(
    dataDone: bool,
    trailersDone: bool,
    closed: bool,
    rx: bool,
    handle: bool,
    timed: bool,
    aborts: nat)

  function ClientNew(rx: bool, handle: bool, timed: bool): ClientBody {
    ClientBody(false, false, false, rx, handle, timed, 0)
  }

  const DEADLINE_TRAILERS: Headers := [("grpc-status", "4"), ("grpc-message", "deadline exceeded")]

  // AbortHandle::abort through Option::take; AbortOnDrop does the same when the body is dropped.
  function Abort(b: ClientBody): ClientBody {
    if b.handle then b.(handle := false, aborts := b.aborts + 1) else b
  }

  function ClientPoll(b: ClientBody, env: Env): (ClientBody, Out) {
    if b.closed then (b, End)
    else if b.timed && env.deadlineFired then
      (Abort(b).(closed := true, trailersDone := true), if b.trailersDone then End else Trailers(DEADLINE_TRAILERS))
    else if b.rx && env.rx.RxErr? then (b.(rx := false), ForwarderError(env.rx.text))
    else
      var (s, out) := ServerPoll(ServerBody(b.dataDone, b.trailersDone), env);
      (b.(rx := b.rx && env.rx.RxPending?, dataDone := s.dataDone, trailersDone := s.trailersDone), out)
  }

  // Which futures this poll asks.
  function ClientAsks(b: ClientBody, env: Env): Asked {
    var open := !b.closed;
    var past := open && !(b.timed && env.deadlineFired);
    var inner := past && !(b.rx && env.rx.RxErr?);
    Asked(
      open && b.timed,
      past && b.rx,
      inner && !b.dataDone,
      inner && !b.trailersDone && (b.dataDone || env.data.DataEnd?))
  }

  // ---------------------------------------------------------------- polling repeatedly

  function ServerAfter(b: ServerBody, envs: seq<Env>): ServerBody
    decreases |envs|
  {
    if envs == [] then b else ServerAfter(ServerPoll(b, envs[0]).0, envs[1..])
  }

  function ServerOuts(b: ServerBody, envs: seq<Env>): (outs: seq<Out>)
    ensures |outs| == |envs|
    decreases |envs|
  {
    if envs == [] then [] else [ServerPoll(b, envs[0]).1] + ServerOuts(ServerPoll(b, envs[0]).0, envs[1..])
  }

  function ClientAfter(b: ClientBody, envs: seq<Env>): ClientBody
    decreases |envs|
  {
    if envs == [] then b else ClientAfter(ClientPoll(b, envs[0]).0, envs[1..])
  }

  function ClientOuts(b: ClientBody, envs: seq<Env>): (outs: seq<Out>)
    ensures |outs| == |envs|
    decreases |envs|
  {
    if envs == [] then [] else [ClientPoll(b, envs[0]).1] + ClientOuts(ClientPoll(b, envs[0]).0, envs[1..])
  }

  function ClientAskeds(b: ClientBody, envs: seq<Env>): (asks: seq<Asked>)
    ensures |asks| == |envs|
    decreases |envs|
  {
    if envs == [] then [] else [ClientAsks(b, envs[0])] + ClientAskeds(ClientPoll(b, envs[0]).0, envs[1..])
  }

  // The two flag invariants everything below rests on.
  predicate ClientInv(b: ClientBody) {
    && (b.trailersDone ==> b.dataDone || b.closed)
    && (b.closed ==> b.trailersDone && !b.handle)
  }

  // ---------------------------------------------------------------- output grammar

  predicate Terminal(o: Out) {
    o.Trailers? || o.End?
  }

  predicate Quiet(o: Out) {
    o.End? || o.ForwarderError?
  }

  lemma {:induction false} QuietOnceDone(b: ClientBody, envs: seq<Env>)
    requires ClientInv(b) && b.trailersDone
    ensures forall i :: 0 <= i < |envs| ==> Quiet(ClientOuts(b, envs)[i])
    decreases |envs|
  {
    if envs == [] {
    } else {
      QuietOnceDone(ClientPoll(b, envs[0]).0, envs[1..]);
    }
  }

  lemma {:induction false} OneForwarderError(b: ClientBody, envs: seq<Env>)
    ensures !b.rx ==> forall i :: 0 <= i < |envs| ==> !ClientOuts(b, envs)[i].ForwarderError?
    ensures forall i, j :: 0 <= i < j < |envs| && ClientOuts(b, envs)[i].ForwarderError? ==>
              !ClientOuts(b, envs)[j].ForwarderError?
    decreases |envs|
  {
    if envs == [] {
    } else {
      OneForwarderError(ClientPoll(b, envs[0]).0, envs[1..]);
    }
  }

  lemma {:induction false} QuietAfterTerminal(b: ClientBody, envs: seq<Env>)
    requires ClientInv(b)
    ensures forall i, j :: 0 <= i < j < |envs| && Terminal(ClientOuts(b, envs)[i]) ==> Quiet(ClientOuts(b, envs)[j])
    decreases |envs|
  {
    if envs == [] {
    } else {
      var b' := ClientPoll(b, envs[0]).0;
      QuietAfterTerminal(b', envs[1..]);
      if Terminal(ClientPoll(b, envs[0]).1) {
        QuietOnceDone(b', envs[1..]);
      }
    }
  }

  /**
   The grammar of a client body's output, over every poll sequence and every environment: after a
   trailers frame, real or made up for the deadline, or after `None`, only `None` and at most one
   forwarder error follow. So there is at most one trailers frame and nothing pends after it.
   */
  lemma ClientGrammar(rx: bool, handle: bool, timed: bool, envs: seq<Env>)
    ensures var outs := ClientOuts(ClientNew(rx, handle, timed), envs);
            && (forall i, j :: 0 <= i < j < |outs| && Terminal(outs[i]) ==> Quiet(outs[j]))
            && (forall i, j :: 0 <= i < j < |outs| ==> !(outs[i].Trailers? && outs[j].Trailers?))
            && (forall i, j :: 0 <= i < j < |outs| ==> !(outs[i].ForwarderError? && outs[j].ForwarderError?))
            && (!rx ==> forall i :: 0 <= i < |outs| ==> !outs[i].ForwarderError?)
  {
    QuietAfterTerminal(ClientNew(rx, handle, timed), envs);
    OneForwarderError(ClientNew(rx, handle, timed), envs);
  }

  ghost predicate OnlyEnds(b: ClientBody, envs: seq<Env>) {
    forall i :: 0 <= i < |envs| ==> ClientOuts(b, envs)[i].End?
  }

  /**
   `None` is not always final: a body that is done ends every later poll with `None`, whatever the
   environment does, if and only if it is closed or its forwarder channel is gone.
   */
  lemma FusedExactlyWhen(b: ClientBody)
    requires ClientInv(b) && b.trailersDone
    ensures (forall envs: seq<Env> :: OnlyEnds(b, envs)) <==> b.closed || !b.rx
  {
    if b.closed || !b.rx {
      forall envs: seq<Env> ensures OnlyEnds(b, envs) {
        QuietOnceDone(b, envs);
        if b.closed {
          ClosedEnds(b, envs);
        } else {
          OneForwarderError(b, envs);
        }
      }
    } else {
      var envs := [Env(DataPending, TrailersPending, RxErr("late"), false)];
      assert ClientOuts(b, envs)[0] == ForwarderError("late");
      assert !OnlyEnds(b, envs);
    }
  }

  // A run in which an error does follow the end of the stream.
  lemma ErrorAfterEnd(text: string)
    ensures ClientOuts(ClientNew(true, true, false),
                       [Env(DataEnd, TrailersNone, RxPending, false), Env(DataEnd, TrailersNone, RxErr(text), false)])
            == [End, ForwarderError(text)]
  {
    var e0, e1 := Env(DataEnd, TrailersNone, RxPending, false), Env(DataEnd, TrailersNone, RxErr(text), false);
    assert [e0, e1][1..] == [e1];
  }

  lemma {:induction false} ClosedEnds(b: ClientBody, envs: seq<Env>)
    requires b.closed
    ensures forall i :: 0 <= i < |envs| ==> ClientOuts(b, envs)[i] == End
    decreases |envs|
  {
    if envs == [] {
    } else {
      ClosedEnds(b, envs[1..]);
    }
  }

  lemma {:induction false} ServerEndsOnceDone(b: ServerBody, envs: seq<Env>)
    requires b.dataDone && b.trailersDone
    ensures forall i :: 0 <= i < |envs| ==> ServerOuts(b, envs)[i] == End
    decreases |envs|
  {
    if envs == [] {
    } else {
      ServerEndsOnceDone(b, envs[1..]);
    }
  }

  /** The server body, in contrast, is fused: after trailers or `None` it only ever ends. */
  lemma {:induction false} ServerFused(b: ServerBody, envs: seq<Env>)
    requires b.trailersDone ==> b.dataDone
    ensures forall i, j :: 0 <= i < j < |envs| && Terminal(ServerOuts(b, envs)[i]) ==> ServerOuts(b, envs)[j] == End
    decreases |envs|
  {
    if envs == [] {
    } else {
      var b' := ServerPoll(b, envs[0]).0;
      ServerFused(b', envs[1..]);
      if Terminal(ServerPoll(b, envs[0]).1) {
        ServerEndsOnceDone(b', envs[1..]);
      }
    }
  }

  // The polls of a client body that reach its stream, and its outputs about the stream.
  function Reading(b: ClientBody, envs: seq<Env>): seq<Env>
    decreases |envs|
  {
    if envs == [] then []
    else
      var (b', out) := ClientPoll(b, envs[0]);
      (if out.ForwarderError? then [] else [envs[0]]) + Reading(b', envs[1..])
  }

  function WithoutForwarderErrors(outs: seq<Out>): seq<Out> {
    if outs == [] then []
    else (if outs[0].ForwarderError? then [] else [outs[0]]) + WithoutForwarderErrors(outs[1..])
  }

  lemma OpenClientPoll(b: ClientBody, env: Env)
    requires !b.closed && !(b.timed && env.deadlineFired)
    ensures var (b', out) := ClientPoll(b, env);
            && !b'.closed && b'.timed == b.timed
            && (if out.ForwarderError? then b'.dataDone == b.dataDone && b'.trailersDone == b.trailersDone
                else (ServerBody(b'.dataDone, b'.trailersDone), out) ==
                     ServerPoll(ServerBody(b.dataDone, b.trailersDone), env))
  {
  }

  lemma WithoutFirst(out: Out, rest: seq<Out>)
    ensures WithoutForwarderErrors([out] + rest) ==
            if out.ForwarderError? then WithoutForwarderErrors(rest) else [out] + WithoutForwarderErrors(rest)
  {
    assert ([out] + rest)[1..] == rest;
    assert [] + WithoutForwarderErrors(rest) == WithoutForwarderErrors(rest);
  }

  lemma ServerOutsCons(s: ServerBody, env: Env, rest: seq<Env>)
    ensures ServerOuts(s, [env] + rest) == [ServerPoll(s, env).1] + ServerOuts(ServerPoll(s, env).0, rest)
  {
    assert ([env] + rest)[1..] == rest;
  }

  /**
   While no deadline fires, a client body is a server body with forwarder errors interspersed:
   take those out, and the polls that reported them, and the outputs are the server body's.
   */
  lemma {:induction false} ClientRefinesServer(b: ClientBody, envs: seq<Env>)
    requires !b.closed
    requires forall i :: 0 <= i < |envs| ==> !(b.timed && envs[i].deadlineFired)
    ensures WithoutForwarderErrors(ClientOuts(b, envs)) ==
            ServerOuts(ServerBody(b.dataDone, b.trailersDone), Reading(b, envs))
    decreases |envs|
  {
    if envs == [] {
    } else {
      var (b', out) := ClientPoll(b, envs[0]);
      OpenClientPoll(b, envs[0]);
      ClientRefinesServer(b', envs[1..]);
      WithoutFirst(out, ClientOuts(b', envs[1..]));
      if out.ForwarderError? {
        assert Reading(b, envs) == Reading(b', envs[1..]);
      } else {
        ServerOutsCons(ServerBody(b.dataDone, b.trailersDone), envs[0], Reading(b', envs[1..]));
      }
    }
  }

  // ---------------------------------------------------------------- deadline and abort

  lemma ClientPollKeepsInv(b: ClientBody, env: Env)
    requires ClientInv(b)
    ensures var b' := ClientPoll(b, env).0;
            && ClientInv(b') && b'.timed == b.timed
            && b'.aborts + Tally(b'.handle) == b.aborts + Tally(b.handle) && b.aborts <= b'.aborts
  {
  }

  lemma {:induction false} ClientRunKeepsInv(b: ClientBody, envs: seq<Env>)
    requires ClientInv(b)
    ensures ClientInv(ClientAfter(b, envs))
    ensures ClientAfter(b, envs).aborts + Tally(ClientAfter(b, envs).handle) == b.aborts + Tally(b.handle)
    ensures ClientAfter(b, envs).timed == b.timed
    decreases |envs|
  {
    if envs == [] {
    } else {
      ClientRunKeepsInv(ClientPoll(b, envs[0]).0, envs[1..]);
    }
  }

  // Status 4 of gRPC, deadline exceeded, and no other.
  predicate DeadlineStatus(h: Headers) {
    && ("grpc-status", "4") in h
    && ("grpc-message", "deadline exceeded") in h
    && (forall i :: 0 <= i < |h| && h[i].0 == "grpc-status" ==> h[i].1 == "4")
  }

  lemma DeadlineHeaders()
    ensures DeadlineStatus(DEADLINE_TRAILERS)
  {
    assert DEADLINE_TRAILERS[0] == ("grpc-status", "4");
    assert DEADLINE_TRAILERS[1] == ("grpc-message", "deadline exceeded");
    assert "grpc-message"[5] != "grpc-status"[5];
  }

  predicate IsDeadlineAnswer(o: Out) {
    o == Trailers(DEADLINE_TRAILERS) && DeadlineStatus(o.headers)
  }

  /**
   The first poll of an open body that sees its deadline fired answers with status-4 trailers, or
   with `None` if trailers are done, aborts the forwarder at once, and every later poll is `None`.
   */
  lemma DeadlineAbsorbs(rx: bool, handle: bool, before: seq<Env>, fired: Env, later: seq<Env>)
    requires fired.deadlineFired
    requires !ClientAfter(ClientNew(rx, handle, true), before).closed
    ensures var b := ClientAfter(ClientNew(rx, handle, true), before);
            var (b', out) := ClientPoll(b, fired);
            && (if b.trailersDone then out == End else IsDeadlineAnswer(out))
            && b'.aborts == Tally(handle)
            && forall i :: 0 <= i < |later| ==> ClientOuts(b', later)[i] == End
  {
    DeadlineHeaders();
    ClientRunKeepsInv(ClientNew(rx, handle, true), before);
    ClosedEnds(ClientPoll(ClientAfter(ClientNew(rx, handle, true), before), fired).0, later);
  }

  /** Polled in any way and then dropped, a body fires its abort handle exactly once if it has one. */
  lemma AbortedOnce(rx: bool, handle: bool, timed: bool, envs: seq<Env>)
    ensures Abort(ClientAfter(ClientNew(rx, handle, timed), envs)).aborts == Tally(handle)
  {
    ClientRunKeepsInv(ClientNew(rx, handle, timed), envs);
  }

  /**
   An error of the forwarder comes out at the first poll after it was sent, whatever the stream
   has to offer and even after the end of the stream, provided no deadline has fired by then.
   */
  lemma {:induction false} ForwarderErrorSurfaces(b: ClientBody, envs: seq<Env>, text: string)
    requires ClientInv(b) && !b.closed && b.rx && envs != []
    requires forall i :: 0 <= i < |envs| ==> !(b.timed && envs[i].deadlineFired)
    requires forall i :: 0 <= i < |envs| - 1 ==> envs[i].rx.RxPending?
    requires envs[|envs| - 1].rx == RxErr(text)
    ensures ClientOuts(b, envs)[|envs| - 1] == ForwarderError(text)
    decreases |envs|
  {
    if |envs| == 1 {
    } else {
      ForwarderErrorSurfaces(ClientPoll(b, envs[0]).0, envs[1..], text);
    }
  }

  // ---------------------------------------------------------------- nothing made up, nothing lost

  // What one poll answers, told from the futures it asked.
  ghost predicate Echoes(b: ClientBody, env: Env, ask: Asked, out: Out) {
    && (forall d :: out == Data(d) <==> ask.data && env.data == DataChunk(d))
    && (forall e :: out == StreamError(e) <==>
          (ask.data && env.data == DataErr(e)) || (ask.trailers && env.trailers == TrailersErr(e)))
    && (forall e :: out == ForwarderError(e) <==> ask.rx && env.rx == RxErr(e))
    && (out.Pending? <==> (ask.data && env.data.DataPending?) || (ask.trailers && env.trailers.TrailersPending?))
    && (forall h :: out == Trailers(h) <==>
          || (ask.trailers && env.trailers == TrailersSome(h))
          || (ask.deadline && env.deadlineFired && !b.trailersDone && h == DEADLINE_TRAILERS))
  }

  lemma PollEchoes(b: ClientBody, env: Env)
    ensures Echoes(b, env, ClientAsks(b, env), ClientPoll(b, env).1)
  {
  }

  /**
   Every output is the answer of a future that this poll asked, unchanged: bytes, trailers, errors of
   the stream, errors of the forwarder; it pends only for one that pends; and no answer that was asked
   for is kept back. The deadline's trailers are all a body makes up.
   */
  lemma {:induction false} OutputsAreAnswers(b: ClientBody, envs: seq<Env>, i: nat)
    requires i < |envs|
    ensures Echoes(ClientAfter(b, envs[..i]), envs[i], ClientAskeds(b, envs)[i], ClientOuts(b, envs)[i])
    decreases i
  {
    if i == 0 {
      PollEchoes(b, envs[0]);
    } else {
      assert envs[..i][0] == envs[0] && envs[..i][1..] == envs[1..][..i - 1];
      OutputsAreAnswers(ClientPoll(b, envs[0]).0, envs[1..], i - 1);
    }
  }

  // ---------------------------------------------------------------- polling discipline

  // A poll that asked the future and found it complete.
  predicate RxResolved(env: Env, ask: Asked) {
    ask.rx && !env.rx.RxPending?
  }

  predicate DeadlineResolved(env: Env, ask: Asked) {
    ask.deadline && env.deadlineFired
  }

  predicate TrailersResolved(env: Env, ask: Asked) {
    ask.trailers && !env.trailers.TrailersPending?
  }

  predicate DataResolved(env: Env, ask: Asked) {
    ask.data && env.data.DataEnd?
  }

  predicate NotAgain(env: Env, ask: Asked, later: Asked) {
    && (RxResolved(env, ask) ==> !later.rx)
    && (DeadlineResolved(env, ask) ==> !later.deadline)
    && (TrailersResolved(env, ask) ==> !later.trailers)
    && (DataResolved(env, ask) ==> !later.data)
  }

  ghost predicate NeverAskedAgain(envs: seq<Env>, asks: seq<Asked>)
    requires |envs| == |asks|
  {
    forall i, j :: 0 <= i < j < |envs| ==> NotAgain(envs[i], asks[i], asks[j])
  }

  // What a body in this state will never ask again.
  predicate Unasked(b: ClientBody, ask: Asked) {
    && (b.closed ==> ask == Asked(false, false, false, false))
    && (!b.rx ==> !ask.rx)
    && (b.trailersDone ==> !ask.trailers)
    && (b.dataDone ==> !ask.data)
  }

  lemma {:induction false} SpentIsNotAsked(b: ClientBody, envs: seq<Env>, i: nat)
    requires i < |envs|
    ensures Unasked(b, ClientAskeds(b, envs)[i])
    decreases |envs|
  {
    if i == 0 {
    } else {
      SpentIsNotAsked(ClientPoll(b, envs[0]).0, envs[1..], i - 1);
    }
  }

  lemma ResolvedIsSpent(b: ClientBody, env: Env, later: Asked)
    requires Unasked(ClientPoll(b, env).0, later)
    ensures NotAgain(env, ClientAsks(b, env), later)
  {
  }

  /**
   Polling discipline: over every poll sequence no inner future is asked again once it has
   completed: not the oneshot, not the timer, not the trailers, not the data after its end.
   */
  lemma {:induction false} PollingDiscipline(b: ClientBody, envs: seq<Env>)
    ensures NeverAskedAgain(envs, ClientAskeds(b, envs))
    decreases |envs|
  {
    if envs == [] {
    } else {
      var b' := ClientPoll(b, envs[0]).0;
      PollingDiscipline(b', envs[1..]);
      var asks, rest := ClientAskeds(b, envs), ClientAskeds(b', envs[1..]);
      forall i: nat, j: nat | i < j < |envs| ensures NotAgain(envs[i], asks[i], asks[j]) {
        if i == 0 {
          SpentIsNotAsked(b', envs[1..], j - 1);
          ResolvedIsSpent(b, envs[0], rest[j - 1]);
        } else {
          assert NotAgain(envs[1..][i - 1], rest[i - 1], rest[j - 1]);
        }
      }
    }
  }
}

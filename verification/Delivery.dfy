/**
 End to end: a write loop on one side of the stream, a receive body on the other, interleaved in
 any order. The stream keeps the order of bytes but may cut and merge them at will, may keep the
 reader waiting at any time, and may fail.
 */
module Delivery {
  import opened Common
  import opened Body
  import opened Forward

  // `ops` is what the write loop sends, `sent` how much of it is on the stream, `taken` how many
  // bytes of it the reader has consumed.
  datatype State = State(ops: seq<SendOp>, sent: nat, taken: nat, body: ServerBody, outs: seq<Out>)

  function Start(ops: seq<SendOp>): State {
    State(ops, 0, 0, SERVER_NEW, [])
  }

  // How the stream treats a read: whatever it does, it may only hand out what is there.
  datatype Choice = Wait | Empty | Read(count: nat) | Fault(text: string)

  datatype Label = Send | Poll(data: Choice, trailers: Choice)

  function Arrived(s: State): Bytes
    requires s.sent <= |s.ops|
  {
    Payload(s.ops[..s.sent])
  }

  predicate Ended(s: State) {
    s.sent == |s.ops| && s.ops != [] && !s.ops[|s.ops| - 1].SendData?
  }

  function Min(a: nat, b: nat): nat {
    if a <= b then a else b
  }

  function DataAnswer(s: State, ch: Choice): DataPoll
    requires s.sent <= |s.ops| && s.taken <= |Arrived(s)|
  {
    var available := Arrived(s)[s.taken..];
    match ch
    case Wait => DataPending
    case Empty => if available == [] && Ended(s) then DataEnd else DataChunk([])
    case Fault(text) => DataErr(text)
    case Read(n) =>
      if available != [] then DataChunk(available[..Min(n, |available|)])
      else if Ended(s) then DataEnd
      else DataPending
  }

  // What the stream hands out in a poll is gone from it, whatever the body does with it.
  function HandedOut(s: State, ch: Choice): nat
    requires s.sent <= |s.ops| && s.taken <= |Arrived(s)|
  {
    var answer := DataAnswer(s, ch);
    if !s.body.dataDone && answer.DataChunk? then |answer.bytes| else 0
  }

  function TrailersAnswer(s: State, ch: Choice): TrailersPoll {
    match ch
    case Fault(text) => TrailersErr(text)
    case Read(_) =>
      if !Ended(s) then TrailersPending
      else if s.ops[|s.ops| - 1].SendTrailers? then TrailersSome(s.ops[|s.ops| - 1].headers)
      else TrailersNone
    case _ => TrailersPending
  }

  function Answers(s: State, data: Choice, trailers: Choice): Env
    requires s.sent <= |s.ops| && s.taken <= |Arrived(s)|
  {
    Env(DataAnswer(s, data), TrailersAnswer(s, trailers), RxPending, false)
  }

  ghost predicate Enabled(s: State, l: Label) {
    match l
    case Send => s.sent < |s.ops|
    case Poll(_, _) => s.sent <= |s.ops| && s.taken <= |Arrived(s)|
  }

  function Next(s: State, l: Label): State
    requires Enabled(s, l)
  {
    match l
    case Send => s.(sent := s.sent + 1)
    case Poll(d, t) =>
      var (body, out) := ServerPoll(s.body, Answers(s, d, t));
      s.(body := body, outs := s.outs + [out], taken := s.taken + HandedOut(s, d))
  }

  ghost predicate Legal(s: State, ls: seq<Label>)
    decreases |ls|
  {
    ls == [] || (Enabled(s, ls[0]) && Legal(Next(s, ls[0]), ls[1..]))
  }

  ghost function After(s: State, ls: seq<Label>): State
    requires Legal(s, ls)
    decreases |ls|
  {
    if ls == [] then s else After(Next(s, ls[0]), ls[1..])
  }

  // ---------------------------------------------------------------- what the reader has seen

  function BytesOf(outs: seq<Out>): Bytes {
    if outs == [] then []
    else BytesOf(outs[..|outs| - 1]) + if outs[|outs| - 1].Data? then outs[|outs| - 1].bytes else []
  }

  function TrailersOf(outs: seq<Out>): seq<Headers> {
    if outs == [] then []
    else TrailersOf(outs[..|outs| - 1]) + if outs[|outs| - 1].Trailers? then [outs[|outs| - 1].headers] else []
  }

  predicate Faultless(outs: seq<Out>) {
    forall i :: 0 <= i < |outs| ==> !outs[i].StreamError?
  }

  // At the terminal output all bytes and all trailers have come through.
  ghost predicate AllThere(outs: seq<Out>, i: nat, bytes: Bytes, trailers: seq<Headers>)
    requires i < |outs|
  {
    BytesOf(outs[..i]) == bytes && TrailersOf(outs[..i + 1]) == trailers
  }

  // The bytes that came out are the bytes taken, and the flags tell how far the stream got.
  ghost predicate Flow(s: State) {
    && Protocol(s.ops)
    && s.sent <= |s.ops|
    && s.taken <= |Arrived(s)|
    && BytesOf(s.outs) == Arrived(s)[..s.taken]
    && (s.body.dataDone ==> Ended(s) && s.taken == |Arrived(s)|)
    && (s.body.trailersDone ==> s.body.dataDone)
  }

  // `done`: the trailers have been dealt with.
  ghost predicate Tail(outs: seq<Out>, done: bool, trailers: seq<Headers>) {
    && (!done ==> TrailersOf(outs) == [] && forall i :: 0 <= i < |outs| ==> !Terminal(outs[i]))
    && TrailersOf(outs) <= trailers
    && (done && Faultless(outs) ==> TrailersOf(outs) == trailers)
  }

  ghost predicate AllMarked(outs: seq<Out>, bytes: Bytes, trailers: seq<Headers>) {
    forall i :: 0 <= i < |outs| && Terminal(outs[i]) ==> AllThere(outs, i, bytes, trailers)
  }

  ghost predicate EndsOnly(outs: seq<Out>) {
    forall i, j :: 0 <= i < j < |outs| && Terminal(outs[i]) ==> outs[j] == End
  }

  ghost predicate Marks(outs: seq<Out>, bytes: Bytes, trailers: seq<Headers>) {
    (Faultless(outs) ==> AllMarked(outs, bytes, trailers)) && EndsOnly(outs)
  }

  ghost predicate Inv(s: State) {
    && Flow(s)
    && Tail(s.outs, s.body.trailersDone, FinalTrailers(s.ops))
    && Marks(s.outs, Payload(s.ops), FinalTrailers(s.ops))
  }

  lemma OneMoreOut(outs: seq<Out>, o: Out)
    ensures BytesOf(outs + [o]) == BytesOf(outs) + if o.Data? then o.bytes else []
    ensures TrailersOf(outs + [o]) == TrailersOf(outs) + if o.Trailers? then [o.headers] else []
  {
    assert (outs + [o])[..|outs|] == outs;
  }

  lemma FaultlessPrefix(outs: seq<Out>, o: Out)
    ensures Faultless(outs + [o]) <==> Faultless(outs) && !o.StreamError?
  {
    assert forall i :: 0 <= i < |outs| ==> (outs + [o])[i] == outs[i];
    assert (outs + [o])[|outs|] == o;
  }

  lemma {:induction false} PayloadPrefix(ops: seq<SendOp>, k: nat)
    requires k <= |ops|
    ensures Payload(ops[..k]) <= Payload(ops)
  {
    if k < |ops| {
      var n := |ops| - 1;
      assert ops[..n][..k] == ops[..k];
      PayloadPrefix(ops[..n], k);
    } else {
      assert ops[..k] == ops;
    }
  }

  lemma FlowOfSend(s: State)
    requires Flow(s) && Enabled(s, Send)
    ensures Flow(Next(s, Send)) && Arrived(s) <= Arrived(Next(s, Send))
  {
    var ops := s.ops[..s.sent + 1];
    assert ops[..s.sent] == s.ops[..s.sent];
    PayloadPrefix(ops, s.sent);
  }

  lemma SendKeepsInv(s: State)
    requires Inv(s) && Enabled(s, Send)
    ensures Inv(Next(s, Send))
  {
    FlowOfSend(s);
  }

  lemma PollKeepsFlow(s: State, d: Choice, t: Choice)
    requires Flow(s)
    ensures Flow(Next(s, Poll(d, t)))
  {
    OneMoreOut(s.outs, ServerPoll(s.body, Answers(s, d, t)).1);
  }

  // What a poll can answer, given how far the stream got.
  lemma PollAnswers(s: State, d: Choice, t: Choice)
    requires Flow(s)
    ensures var (body, out) := ServerPoll(s.body, Answers(s, d, t));
            && (s.body.trailersDone ==> body.trailersDone && out == End)
            && (Terminal(out) ==> body.trailersDone && s.taken == |Arrived(s)| && Ended(s))
            && (!s.body.trailersDone && body.trailersDone ==>
                  out.StreamError? || (if out.Trailers? then [out.headers] else []) == FinalTrailers(s.ops))
            && (out.Trailers? ==> FinalTrailers(s.ops) == [out.headers])
            && (!body.trailersDone ==> !s.body.trailersDone && !Terminal(out))
            && (!s.body.trailersDone && body.trailersDone ==> Terminal(out) || out.StreamError?)
  {
  }

  lemma TailAppend(outs: seq<Out>, o: Out, done: bool, done': bool, trailers: seq<Headers>)
    requires Tail(outs, done, trailers)
    requires done ==> done' && o == End
    requires !done' ==> !Terminal(o)
    requires o.Trailers? ==> trailers == [o.headers]
    requires !done && done' ==> o.StreamError? || (if o.Trailers? then [o.headers] else []) == trailers
    ensures Tail(outs + [o], done', trailers)
  {
    OneMoreOut(outs, o);
    FaultlessPrefix(outs, o);
  }

  lemma OlderMark(outs: seq<Out>, o: Out, i: nat, bytes: Bytes, trailers: seq<Headers>)
    requires i < |outs| && AllThere(outs, i, bytes, trailers)
    ensures AllThere(outs + [o], i, bytes, trailers)
  {
    assert (outs + [o])[..i] == outs[..i] && (outs + [o])[..i + 1] == outs[..i + 1];
  }

  lemma MarkAppend(outs: seq<Out>, o: Out, bytes: Bytes, trailers: seq<Headers>)
    requires AllMarked(outs, bytes, trailers)
    requires Terminal(o) ==> BytesOf(outs) == bytes && TrailersOf(outs + [o]) == trailers
    ensures AllMarked(outs + [o], bytes, trailers)
  {
    var all := outs + [o];
    forall i: nat | i < |all| && Terminal(all[i]) ensures AllThere(all, i, bytes, trailers) {
      if i < |outs| {
        OlderMark(outs, o, i, bytes, trailers);
      } else {
        assert all[..i] == outs && all[..i + 1] == all;
      }
    }
  }

  lemma MarksAppend(outs: seq<Out>, o: Out, bytes: Bytes, trailers: seq<Headers>)
    requires Marks(outs, bytes, trailers)
    requires o == End || forall i :: 0 <= i < |outs| ==> !Terminal(outs[i])
    requires Terminal(o) && Faultless(outs) ==> BytesOf(outs) == bytes && TrailersOf(outs + [o]) == trailers
    ensures Marks(outs + [o], bytes, trailers)
  {
    FaultlessPrefix(outs, o);
    if Faultless(outs) {
      MarkAppend(outs, o, bytes, trailers);
    }
  }

  lemma PollKeepsMarks(s: State, d: Choice, t: Choice)
    requires Inv(s)
    requires Tail(Next(s, Poll(d, t)).outs, Next(s, Poll(d, t)).body.trailersDone, FinalTrailers(s.ops))
    ensures Marks(Next(s, Poll(d, t)).outs, Payload(s.ops), FinalTrailers(s.ops))
  {
    var out := ServerPoll(s.body, Answers(s, d, t)).1;
    PollAnswers(s, d, t);
    if Terminal(out) {
      assert s.ops[..|s.ops|] == s.ops;
      FaultlessPrefix(s.outs, out);
    }
    MarksAppend(s.outs, out, Payload(s.ops), FinalTrailers(s.ops));
  }

  lemma PollKeepsInv(s: State, d: Choice, t: Choice)
    requires Inv(s)
    ensures Inv(Next(s, Poll(d, t)))
  {
    var (body, out) := ServerPoll(s.body, Answers(s, d, t));
    PollAnswers(s, d, t);
    PollKeepsFlow(s, d, t);
    TailAppend(s.outs, out, s.body.trailersDone, body.trailersDone, FinalTrailers(s.ops));
    PollKeepsMarks(s, d, t);
  }

  lemma {:induction false} RunKeepsInv(s: State, ls: seq<Label>)
    requires Inv(s) && Legal(s, ls)
    ensures Inv(After(s, ls)) && After(s, ls).ops == s.ops
    decreases |ls|
  {
    if ls == [] {
    } else {
      if ls[0].Send? {
        SendKeepsInv(s);
      } else {
        PollKeepsInv(s, ls[0].data, ls[0].trailers);
      }
      RunKeepsInv(Next(s, ls[0]), ls[1..]);
    }
  }

  lemma RunFromStart(ops: seq<SendOp>, ls: seq<Label>)
    requires Protocol(ops) && Legal(Start(ops), ls)
    ensures Inv(After(Start(ops), ls)) && After(Start(ops), ls).ops == ops
  {
    RunKeepsInv(Start(ops), ls);
  }

  // ---------------------------------------------------------------- verbatim delivery

  // What a reader may have seen of a body: a prefix of it.
  ghost predicate ReadsPrefix(items: seq<Item>, outs: seq<Out>) {
    && BytesOf(outs) <= BytesOfItems(items)
    && TrailersOf(outs) <= TrailersOfItems(items)
    && EndsOnly(outs)
  }

  // Unless the stream failed, a terminal output comes only when the whole body is through.
  ghost predicate EndMeansWhole(items: seq<Item>, outs: seq<Out>) {
    Faultless(outs) ==>
      forall i :: 0 <= i < |outs| && Terminal(outs[i]) ==>
        ErrorFree(items) && AllThere(outs, i, BytesOfItems(items), TrailersOfItems(items))
  }

  lemma PartsReadPrefix(items: seq<Item>, ops: seq<SendOp>, ls: seq<Label>)
    requires WirePart(items, ops) && Legal(Start(ops), ls)
    ensures ReadsPrefix(items, After(Start(ops), ls).outs)
  {
    RunFromStart(ops, ls);
    PayloadPrefix(ops, After(Start(ops), ls).sent);
  }

  lemma WholeReadsWhole(items: seq<Item>, ops: seq<SendOp>, ls: seq<Label>)
    requires Protocol(ops) && Legal(Start(ops), ls)
    requires Complete(ops) ==> Whole(items, ops)
    ensures EndMeansWhole(items, After(Start(ops), ls).outs)
  {
    RunFromStart(ops, ls);
    var s := After(Start(ops), ls);
    forall i | Faultless(s.outs) && 0 <= i < |s.outs| && Terminal(s.outs[i])
      ensures ErrorFree(items) && AllThere(s.outs, i, BytesOfItems(items), TrailersOfItems(items))
    {
    }
  }

  // The end of the stream can be relied on, whatever the interleaving.
  ghost predicate EndTrusted(items: seq<Item>, ops: seq<SendOp>) {
    forall ls :: Legal(Start(ops), ls) ==> EndMeansWhole(items, After(Start(ops), ls).outs)
  }

  // Some run reads all of a stream that was brought to an end.
  lemma FullRead(s: State) returns (ls: seq<Label>)
    requires Flow(s) && Complete(s.ops) && Faultless(s.outs)
    ensures Legal(s, ls)
    ensures var outs := After(s, ls).outs; Faultless(outs) && outs != [] && Terminal(outs[|outs| - 1])
    decreases |s.ops| - s.sent, Remaining(s)
  {
    var l := if s.sent < |s.ops| then Send else Poll(Read(1), Read(1));
    var s' := Next(s, l);
    if l.Send? {
      FlowOfSend(s);
      var rest := FullRead(s');
      ls := [l] + rest;
      assert ls[1..] == rest;
    } else {
      EagerPoll(s, l);
      if Remaining(s) == 0 {
        ls := [l];
        assert ls[1..] == [] && After(s', []) == s';
      } else {
        var rest := FullRead(s');
        ls := [l] + rest;
        assert ls[1..] == rest;
      }
    }
  }

  lemma EndTrustedExactlyWhen(items: seq<Item>, ops: seq<SendOp>)
    requires Protocol(ops)
    ensures EndTrusted(items, ops) <==> (Complete(ops) ==> Whole(items, ops))
  {
    if Complete(ops) ==> Whole(items, ops) {
      forall ls | Legal(Start(ops), ls) ensures EndMeansWhole(items, After(Start(ops), ls).outs) {
        WholeReadsWhole(items, ops, ls);
      }
    } else {
      var ls := FullRead(Start(ops));
      RunFromStart(ops, ls);
      var outs := After(Start(ops), ls).outs;
      assert AllThere(outs, |outs| - 1, Payload(ops), FinalTrailers(ops));
      assert !EndMeansWhole(items, outs);
    }
  }

  /**
   Requests, for every body, every result of the sends, every point at which the client's write loop
   is aborted or ends, every interleaving of it with the polls of the server body and every behaviour
   of the stream: the bytes read are a prefix of the body's and the trailers those of the body, and
   after a terminal output the reader sees only `None`. If nothing was lost, or the stream is not
   finished by being dropped, a terminal output without a stream failure means that all of the body
   is through.
   */
  lemma RequestVerbatim(items: seq<Item>, res: SendResults, k: nat, closes: bool, ls: seq<Label>)
    requires k <= |ClientForward(items, res).ops|
    requires Legal(Start(RequestWire(items, res, k, closes)), ls)
    ensures var outs := After(Start(RequestWire(items, res, k, closes)), ls).outs;
            ReadsPrefix(items, outs) && (Lossless(items, Cut(res, k)) || !closes ==> EndMeansWhole(items, outs))
  {
    RequestOnWire(items, res, k, closes);
    PartsReadPrefix(items, RequestWire(items, res, k, closes), ls);
    if Lossless(items, Cut(res, k)) || !closes {
      WholeReadsWhole(items, RequestWire(items, res, k, closes), ls);
    }
  }

  /** And that is the exact condition: otherwise some run shows a truncated request as complete. */
  lemma RequestEndTrustedExactlyWhen(items: seq<Item>, res: SendResults, k: nat, closes: bool)
    requires k <= |ClientForward(items, res).ops|
    ensures EndTrusted(items, RequestWire(items, res, k, closes)) <==> Lossless(items, Cut(res, k)) || !closes
  {
    RequestOnWire(items, res, k, closes);
    EndTrustedExactlyWhen(items, RequestWire(items, res, k, closes));
  }

  // The answers the stream gave over a run, one per poll.
  ghost function PollEnvs(s: State, ls: seq<Label>): seq<Env>
    requires Legal(s, ls)
    decreases |ls|
  {
    if ls == [] then []
    else (if ls[0].Poll? then [Answers(s, ls[0].data, ls[0].trailers)] else []) + PollEnvs(Next(s, ls[0]), ls[1..])
  }

  lemma {:induction false} OutsArePolls(s: State, ls: seq<Label>)
    requires Legal(s, ls)
    ensures After(s, ls).outs == s.outs + ServerOuts(s.body, PollEnvs(s, ls))
    decreases |ls|
  {
    if ls == [] {
    } else {
      var s' := Next(s, ls[0]);
      OutsArePolls(s', ls[1..]);
      var rest := PollEnvs(s', ls[1..]);
      if ls[0].Poll? {
        var env := Answers(s, ls[0].data, ls[0].trailers);
        assert ([env] + rest)[1..] == rest;
      } else {
        assert [] + rest == rest;
      }
    }
  }

  function StreamSide(envs: seq<Env>): (side: seq<Env>)
    ensures |side| == |envs|
  {
    seq(|envs|, i requires 0 <= i < |envs| => envs[i].(rx := RxPending, deadlineFired := false))
  }

  lemma {:induction false} ServerSeesStreamSide(b: ServerBody, envs: seq<Env>)
    ensures ServerOuts(b, envs) == ServerOuts(b, StreamSide(envs))
    decreases |envs|
  {
    if envs == [] {
    } else {
      assert StreamSide(envs)[1..] == StreamSide(envs[1..]);
      ServerSeesStreamSide(ServerPoll(b, envs[0]).0, envs[1..]);
    }
  }

  // The polls before the first one that sees the deadline fired.
  function BeforeDeadline(timed: bool, envs: seq<Env>): (k: nat)
    ensures k <= |envs|
    ensures forall i :: 0 <= i < k ==> !(timed && envs[i].deadlineFired)
    ensures k < |envs| ==> timed && envs[k].deadlineFired
  {
    if envs == [] || (timed && envs[0].deadlineFired) then 0 else 1 + BeforeDeadline(timed, envs[1..])
  }

  lemma {:induction false} ClientOutsSplit(b: ClientBody, envs: seq<Env>, k: nat)
    requires k <= |envs|
    ensures ClientOuts(b, envs) == ClientOuts(b, envs[..k]) + ClientOuts(ClientAfter(b, envs[..k]), envs[k..])
    decreases |envs|
  {
    if k == 0 {
      assert envs[k..] == envs;
    } else {
      var b' := ClientPoll(b, envs[0]).0;
      ClientOutsSplit(b', envs[1..], k - 1);
      assert envs[1..][..k - 1] == envs[..k][1..];
      assert envs[1..][k - 1..] == envs[k..];
    }
  }

  lemma {:induction false} OpenBeforeDeadline(b: ClientBody, envs: seq<Env>)
    requires !b.closed && ClientInv(b)
    requires forall i :: 0 <= i < |envs| ==> !(b.timed && envs[i].deadlineFired)
    ensures !ClientAfter(b, envs).closed
    decreases |envs|
  {
    if envs == [] {
    } else {
      OpenBeforeDeadline(ClientPoll(b, envs[0]).0, envs[1..]);
    }
  }

  // What a client body shows from the poll on that sees the deadline fired.
  lemma DeadlineTail(rx: bool, handle: bool, timed: bool, envs: seq<Env>)
    ensures var k := BeforeDeadline(timed, envs);
            var rest := ClientOuts(ClientAfter(ClientNew(rx, handle, timed), envs[..k]), envs[k..]);
            && (rest != [] ==> rest[0] == End || IsDeadlineAnswer(rest[0]))
            && forall i :: 1 <= i < |rest| ==> rest[i] == End
  {
    var b := ClientNew(rx, handle, timed);
    var k := BeforeDeadline(timed, envs);
    OpenBeforeDeadline(b, envs[..k]);
    if k < |envs| {
      DeadlineAbsorbs(rx, handle, envs[..k], envs[k], envs[k..][1..]);
    }
  }

  // Up to the deadline a client body, forwarder errors aside, shows what a server body would.
  lemma ClientReadsStream(ops: seq<SendOp>, ls: seq<Label>, b: ClientBody, envs: seq<Env>)
    requires Legal(Start(ops), ls)
    requires !b.closed && !b.dataDone && !b.trailersDone
    requires forall i :: 0 <= i < |envs| ==> !(b.timed && envs[i].deadlineFired)
    requires StreamSide(Reading(b, envs)) == PollEnvs(Start(ops), ls)
    ensures WithoutForwarderErrors(ClientOuts(b, envs)) == After(Start(ops), ls).outs
  {
    ClientRefinesServer(b, envs);
    ServerSeesStreamSide(SERVER_NEW, Reading(b, envs));
    OutsArePolls(Start(ops), ls);
    assert [] + ServerOuts(SERVER_NEW, PollEnvs(Start(ops), ls)) == ServerOuts(SERVER_NEW, PollEnvs(Start(ops), ls));
  }

  // The polls of a client body, up to the deadline, are those of a run over the stream.
  ghost predicate ReadsFrom(ops: seq<SendOp>, ls: seq<Label>, b: ClientBody, envs: seq<Env>) {
    Legal(Start(ops), ls) && StreamSide(Reading(b, envs[..BeforeDeadline(b.timed, envs)])) == PollEnvs(Start(ops), ls)
  }

  // What a client body showed of its stream: forwarder errors and the deadline's answer left out.
  function SeenOfStream(b: ClientBody, envs: seq<Env>): seq<Out> {
    WithoutForwarderErrors(ClientOuts(b, envs)[..BeforeDeadline(b.timed, envs)])
  }

  // From output k on there is the deadline's own answer.
  ghost predicate EndsByDeadline(outs: seq<Out>, k: nat) {
    && (k < |outs| ==> outs[k] == End || IsDeadlineAnswer(outs[k]))
    && (forall i :: k < i < |outs| ==> outs[i] == End)
  }

  predicate IsNew(b: ClientBody) {
    b == ClientNew(b.rx, b.handle, b.timed)
  }

  lemma ClientShowsStream(ops: seq<SendOp>, ls: seq<Label>, b: ClientBody, envs: seq<Env>)
    requires IsNew(b) && ReadsFrom(ops, ls, b, envs)
    ensures SeenOfStream(b, envs) == After(Start(ops), ls).outs
    ensures EndsByDeadline(ClientOuts(b, envs), BeforeDeadline(b.timed, envs))
  {
    var k := BeforeDeadline(b.timed, envs);
    ClientOutsSplit(b, envs, k);
    DeadlineTail(b.rx, b.handle, b.timed, envs);
    assert ClientOuts(b, envs)[..k] == ClientOuts(b, envs[..k]);
    ClientReadsStream(ops, ls, b, envs[..k]);
  }

  /**
   Responses, read by a client body: up to the first poll that sees the deadline fired the same holds
   as of requests, whatever the forwarder reports in between, with whole bodies if nothing was lost;
   from that poll on the body shows the deadline's trailers or `None`, then `None`.
   */
  lemma ResponseVerbatim(items: seq<Item>, res: SendResults, k: nat, closes: bool, ls: seq<Label>,
                         b: ClientBody, envs: seq<Env>)
    requires k <= |ServerRespond(items, res).ops|
    requires IsNew(b) && ReadsFrom(ResponseWire(items, res, k, closes), ls, b, envs)
    ensures ReadsPrefix(items, SeenOfStream(b, envs))
    ensures Lossless(items, Cut(res, k)) ==> EndMeansWhole(items, SeenOfStream(b, envs))
    ensures EndsByDeadline(ClientOuts(b, envs), BeforeDeadline(b.timed, envs))
  {
    var ops := ResponseWire(items, res, k, closes);
    ClientShowsStream(ops, ls, b, envs);
    ResponseOnWire(items, res, k, closes);
    PartsReadPrefix(items, ops, ls);
    if Lossless(items, Cut(res, k)) {
      WholeReadsWhole(items, ops, ls);
    }
  }

  lemma {:induction false} StreamAnswersAreQuiet(s: State, ls: seq<Label>)
    requires Legal(s, ls)
    ensures forall i :: 0 <= i < |PollEnvs(s, ls)| ==>
              PollEnvs(s, ls)[i].rx.RxPending? && !PollEnvs(s, ls)[i].deadlineFired
    decreases |ls|
  {
    if ls == [] {
    } else {
      StreamAnswersAreQuiet(Next(s, ls[0]), ls[1..]);
    }
  }

  lemma {:induction false} ReadsEverything(b: ClientBody, envs: seq<Env>)
    requires !b.closed
    requires forall i :: 0 <= i < |envs| ==> envs[i].rx.RxPending? && !envs[i].deadlineFired
    ensures Reading(b, envs) == envs
    decreases |envs|
  {
    if envs == [] {
    } else {
      ReadsEverything(ClientPoll(b, envs[0]).0, envs[1..]);
    }
  }

  // Whatever a server body could read from a stream, a client body can.
  lemma ClientCanRead(ops: seq<SendOp>, ls: seq<Label>, b: ClientBody)
    requires IsNew(b) && Legal(Start(ops), ls)
    ensures ReadsFrom(ops, ls, b, PollEnvs(Start(ops), ls))
  {
    var envs := PollEnvs(Start(ops), ls);
    StreamAnswersAreQuiet(Start(ops), ls);
    assert BeforeDeadline(b.timed, envs) == |envs| && envs[..|envs|] == envs;
    ReadsEverything(b, envs);
    assert StreamSide(envs) == envs;
  }

  // The same reliance as of a server body, for a client body b.
  ghost predicate ClientTrustsEnd(items: seq<Item>, ops: seq<SendOp>, b: ClientBody) {
    forall ls, envs :: ReadsFrom(ops, ls, b, envs) ==> EndMeansWhole(items, SeenOfStream(b, envs))
  }

  lemma ClientTrustsAsServer(items: seq<Item>, ops: seq<SendOp>, b: ClientBody)
    requires IsNew(b)
    ensures ClientTrustsEnd(items, ops, b) <==> EndTrusted(items, ops)
  {
    if EndTrusted(items, ops) {
      forall ls, envs | ReadsFrom(ops, ls, b, envs) ensures EndMeansWhole(items, SeenOfStream(b, envs)) {
        ClientShowsStream(ops, ls, b, envs);
      }
    } else {
      var ls :| Legal(Start(ops), ls) && !EndMeansWhole(items, After(Start(ops), ls).outs);
      ClientCanRead(ops, ls, b);
      ClientShowsStream(ops, ls, b, PollEnvs(Start(ops), ls));
    }
  }

  /**
   The server finishes the stream after a body error or a failed send. So for every client body, with
   or without forwarder and deadline, the end of a response can be relied on only if nothing was
   lost, or if no operation ended the stream and dropping it does not either.
   */
  lemma ResponseEndTrustedExactlyWhen(items: seq<Item>, res: SendResults, k: nat, closes: bool, b: ClientBody)
    requires k <= |ServerRespond(items, res).ops| && IsNew(b)
    ensures ClientTrustsEnd(items, ResponseWire(items, res, k, closes), b) <==>
            Lossless(items, Cut(res, k)) || (!closes && ServerEndFails(items, Cut(res, k)))
  {
    ResponseOnWire(items, res, k, closes);
    EndTrustedExactlyWhen(items, ResponseWire(items, res, k, closes));
    ClientTrustsAsServer(items, ResponseWire(items, res, k, closes), b);
  }

  // ---------------------------------------------------------------- nothing is withheld

  // A poll that takes at least a byte when there is one and does not stall.
  predicate Eager(l: Label) {
    l.Poll? && l.data.Read? && l.data.count > 0 && l.trailers.Read?
  }

  function Remaining(s: State): nat
    requires s.sent <= |s.ops| && s.taken <= |Arrived(s)|
  {
    |Arrived(s)| - s.taken + if s.body.trailersDone then 0 else 1
  }

  lemma EagerPoll(s: State, l: Label)
    requires Flow(s) && Ended(s) && Eager(l)
    ensures Enabled(s, l) && Flow(Next(s, l)) && Ended(Next(s, l))
    ensures if Remaining(s) == 0 then Remaining(Next(s, l)) == 0 && Next(s, l).outs == s.outs + [End]
            else Remaining(Next(s, l)) < Remaining(s)
    ensures Faultless(s.outs) ==> Faultless(Next(s, l).outs)
  {
    FaultlessPrefix(s.outs, ServerPoll(s.body, Answers(s, l.data, l.trailers)).1);
    PollKeepsFlow(s, l.data, l.trailers);
  }

  /**
   Once everything is written, a reader that keeps reading gets to the end: after at most one poll
   per remaining byte and one for the trailers, every poll answers `None`.
   */
  lemma {:induction false} EagerReaderFinishes(s: State, ls: seq<Label>)
    requires Flow(s) && Ended(s) && |ls| > Remaining(s)
    requires forall i :: 0 <= i < |ls| ==> Eager(ls[i])
    ensures Legal(s, ls)
    ensures var outs := After(s, ls).outs; outs != [] && outs[|outs| - 1] == End
    decreases |ls|
  {
    EagerPoll(s, ls[0]);
    var s' := Next(s, ls[0]);
    if |ls| > 1 {
      EagerReaderFinishes(s', ls[1..]);
    } else {
      assert ls[1..] == [];
      assert After(s', []) == s';
    }
  }
}

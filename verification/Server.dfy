/**
 The server (crates/grpc-quic-server/src/server.rs): accept loop, one task per connection, one
 task per request, a global permit semaphore, broadcast cancel and two levels of draining.

 `TaskStep` is the connection task's own control flow; the system interleaves all tasks.
 */
module Server {
  import opened Common

  // ---------------------------------------------------------------- one connection task

  datatype Stage = Building | Serving | Resolving | ShuttingDown | Draining | Finished | Aborted

  datatype TaskEvent =
    | Built
    | BuildFails
    | TakeCancel
    | ShutdownDone
    | Offered
    | StreamsEnd
    | HeadFails
    | HeadComes
    | AllJoined

  function TaskStep(st: Stage, e: TaskEvent): Option<Stage> {
    match (st, e)
    case (Building, Built) => Some(Serving)
    case (Building, BuildFails) => Some(Finished)
    case (Serving, TakeCancel) => Some(ShuttingDown)
    case (Serving, Offered) => Some(Resolving)
    case (Serving, StreamsEnd) => Some(Draining)
    case (Resolving, HeadFails) => Some(Serving)
    case (Resolving, HeadComes) => Some(Serving)
    case (ShuttingDown, ShutdownDone) => Some(Draining)
    case (Draining, AllJoined) => Some(Finished)
    case _ => None
  }

  // ---------------------------------------------------------------- the system

  // `mail`: the broadcast cancel is waiting in the task's receiver; `took`: it was received.
  datatype Conn = Conn(stage: Stage, mail: bool, took: bool)

  datatype Request = Request(conn: nat, live: bool)

  datatype Phase = Accepting | Joining | Returned(timedOut: bool)

  // `credit` is how many streams the transport lets a client have open on one connection.
  datatype State = State(
    credit: nat,
    phase: Phase,
    cancelSent: bool,
    permits: nat,
    conns: seq<Conn>,
    requests: seq<Request>)

  function StreamLimit(maxConcurrentStreams: nat): nat {
    (if maxConcurrentStreams < 64 then 64 else maxConcurrentStreams) * 4
  }

  function Init(limit: nat, credit: nat): State {
    State(credit, Accepting, false, limit, [], [])
  }

  datatype Label =
    | Connect
    | ConnectFails
    | Signal
    | EndpointGone
    | Task(conn: nat, event: TaskEvent)
    | RequestDone(request: nat)
    | Joined
    | TimedOut
    | Reap(conn: nat)

  predicate Over(c: Conn) {
    c.stage.Finished? || c.stage.Aborted?
  }

  function LiveOf(c: nat): Request -> bool {
    (r: Request) => r.live && r.conn == c
  }

  function AnyOf(c: nat): Request -> bool {
    (r: Request) => r.conn == c
  }

  predicate IsLive(r: Request) {
    r.live
  }

  predicate Enabled(s: State, l: Label) {
    match l
    case Connect => s.phase.Accepting?
    case ConnectFails => s.phase.Accepting?
    case Signal => s.phase.Accepting?
    case EndpointGone => s.phase.Accepting?
    case Task(c, e) =>
      && c < |s.conns|
      && TaskStep(s.conns[c].stage, e).Some?
      // The receiver also wakes when the serve function has returned and dropped the sender.
      && (e.TakeCancel? ==> s.conns[c].mail || s.phase.Returned?)
      // A live handler holds its stream.
      && (e.Offered? ==> Count(s.requests, LiveOf(c)) < s.credit)
      && (e.AllJoined? ==> Count(s.requests, LiveOf(c)) == 0)
    case RequestDone(r) => r < |s.requests| && s.requests[r].live
    case Joined => s.phase.Joining? && forall c :: 0 <= c < |s.conns| ==> s.conns[c].stage.Finished?
    case TimedOut => s.phase.Joining?
    // Returning drops the JoinSet, which aborts what is left in it.
    case Reap(c) => s.phase.Returned? && c < |s.conns| && !Over(s.conns[c])
  }

  // The receiver of a task that is over is gone; all others get the message.
  function Broadcast(cs: seq<Conn>): (ds: seq<Conn>)
    ensures |ds| == |cs|
    ensures forall i :: 0 <= i < |cs| ==> ds[i] == if Over(cs[i]) then cs[i] else cs[i].(mail := true)
  {
    seq(|cs|, i requires 0 <= i < |cs| => if Over(cs[i]) then cs[i] else cs[i].(mail := true))
  }

  // try_acquire_owned for a request whose head has come; without a permit the request is dropped.
  predicate Admits(s: State, e: TaskEvent) {
    e.HeadComes? && s.permits > 0
  }

  function AfterTask(s: State, c: nat, e: TaskEvent): State
    requires Enabled(s, Task(c, e))
  {
    var conn := s.conns[c].(stage := TaskStep(s.conns[c].stage, e).value);
    if e.TakeCancel? then s.(conns := s.conns[c := conn.(mail := false, took := true)])
    else if Admits(s, e) then
      s.(conns := s.conns[c := conn], requests := s.requests + [Request(c, true)], permits := s.permits - 1)
    else s.(conns := s.conns[c := conn])
  }

  function Next(s: State, l: Label): State
    requires Enabled(s, l)
  {
    match l
    // The task's receiver is subscribed before the task is spawned.
    case Connect => s.(conns := s.conns + [Conn(Building, false, false)])
    case ConnectFails => s
    case Signal => s.(phase := Joining, cancelSent := true, conns := Broadcast(s.conns))
    case EndpointGone => s.(phase := Joining)
    case Task(c, e) => AfterTask(s, c, e)
    case RequestDone(r) =>
      s.(requests := s.requests[r := s.requests[r].(live := false)], permits := s.permits + 1)
    case Joined => s.(phase := Returned(false))
    case TimedOut => s.(phase := Returned(true))
    case Reap(c) => s.(conns := s.conns[c := s.conns[c].(stage := Aborted)])
  }

  predicate IsSignal(l: Label) {
    l.Signal?
  }

  ghost predicate Legal(s: State, ls: seq<Label>)
    decreases |ls|
  {
    ls == [] || (Enabled(s, ls[0]) && Legal(Next(s, ls[0]), ls[1..]))
  }

  ghost function After(s: State, ls: seq<Label>): State
    requires Legal(s, ls)
    decreases |ls|
  {
    if ls == [] then s else After(Next(s, ls[0]), ls[1..])
  }

  // ---------------------------------------------------------------- the inductive invariant

  predicate PastAccepting(c: Conn) {
    c.stage.ShuttingDown? || c.stage.Draining? || Over(c)
  }

  ghost predicate ConnOk(s: State, i: nat)
    requires i < |s.conns|
  {
    var c := s.conns[i];
    && (if s.cancelSent then Over(c) || c.mail || c.took else !c.mail && (c.took ==> s.phase.Returned?))
    && (c.took ==> PastAccepting(c) && !c.mail)
    && (c.stage.Aborted? ==> s.phase == Returned(true))
    && (s.phase == Returned(false) ==> c.stage.Finished?)
  }

  ghost predicate RequestOk(s: State, r: Request) {
    && r.conn < |s.conns|
    && !s.conns[r.conn].stage.Building?
    && (r.live ==> !s.conns[r.conn].stage.Finished?)
  }

  ghost predicate Inv(limit: nat, s: State) {
    && s.permits + Count(s.requests, IsLive) == limit
    && (s.cancelSent ==> !s.phase.Accepting?)
    && (forall i :: 0 <= i < |s.conns| ==> ConnOk(s, i))
    && (forall r :: 0 <= r < |s.requests| ==> RequestOk(s, s.requests[r]))
  }

  lemma TaskKeepsConns(limit: nat, s: State, c: nat, e: TaskEvent)
    requires Inv(limit, s) && Enabled(s, Task(c, e))
    ensures forall i :: 0 <= i < |s.conns| ==> ConnOk(Next(s, Task(c, e)), i)
  {
    assert ConnOk(s, c);
    forall i | 0 <= i < |s.conns| ensures ConnOk(Next(s, Task(c, e)), i) {
      assert ConnOk(s, i);
    }
  }

  lemma TaskKeepsRequest(limit: nat, s: State, c: nat, e: TaskEvent, r: nat)
    requires Inv(limit, s) && Enabled(s, Task(c, e)) && r < |s.requests|
    ensures RequestOk(Next(s, Task(c, e)), s.requests[r])
  {
    assert RequestOk(s, s.requests[r]);
    if e.AllJoined? {
      CountPositive(s.requests, LiveOf(c));
      assert !LiveOf(c)(s.requests[r]);
    }
  }

  lemma AdmitFrame(s: State, c: nat)
    requires Enabled(s, Task(c, HeadComes)) && s.permits > 0
    ensures var s' := Next(s, Task(c, HeadComes));
            && s'.requests == s.requests + [Request(c, true)] && s'.permits == s.permits - 1
            && |s'.conns| == |s.conns| && s'.cancelSent == s.cancelSent && s'.phase == s.phase
            && RequestOk(s', Request(c, true))
  {
  }

  lemma AdmitKeepsInv(limit: nat, s: State, c: nat)
    requires Inv(limit, s) && Enabled(s, Task(c, HeadComes)) && s.permits > 0
    ensures Inv(limit, Next(s, Task(c, HeadComes)))
  {
    var s' := Next(s, Task(c, HeadComes));
    AdmitFrame(s, c);
    TaskKeepsConns(limit, s, c, HeadComes);
    CountAppend(s.requests, Request(c, true), IsLive);
    forall r: nat | r < |s'.requests| ensures RequestOk(s', s'.requests[r]) {
      if r < |s.requests| {
        TaskKeepsRequest(limit, s, c, HeadComes, r);
        assert s'.requests[r] == s.requests[r];
      } else {
        assert s'.requests[r] == Request(c, true);
      }
    }
  }

  lemma TaskKeepsInv(limit: nat, s: State, c: nat, e: TaskEvent)
    requires Inv(limit, s) && Enabled(s, Task(c, e)) && !Admits(s, e)
    ensures Inv(limit, Next(s, Task(c, e)))
  {
    TaskKeepsConns(limit, s, c, e);
    forall r: nat | r < |s.requests| ensures RequestOk(Next(s, Task(c, e)), s.requests[r]) {
      TaskKeepsRequest(limit, s, c, e, r);
    }
    TaskFrame(s, c, e);
  }

  lemma TaskFrame(s: State, c: nat, e: TaskEvent)
    requires Enabled(s, Task(c, e)) && !Admits(s, e)
    ensures var s' := Next(s, Task(c, e));
            && s'.requests == s.requests && s'.permits == s.permits && |s'.conns| == |s.conns|
            && s'.cancelSent == s.cancelSent && s'.phase == s.phase
  {
  }

  lemma StepKeepsInv(limit: nat, s: State, l: Label)
    requires Inv(limit, s) && Enabled(s, l)
    ensures Inv(limit, Next(s, l))
  {
    if l.Task? && Admits(s, l.event) {
      AdmitKeepsInv(limit, s, l.conn);
    } else if l.Task? {
      TaskKeepsInv(limit, s, l.conn, l.event);
    } else {
      var s' := Next(s, l);
      forall i | 0 <= i < |s'.conns| ensures ConnOk(s', i) {
        if i < |s.conns| {
          assert ConnOk(s, i);
        }
      }
      if l.RequestDone? {
        CountUpdate(s.requests, l.request, s'.requests[l.request], IsLive);
      }
      forall r | 0 <= r < |s'.requests| ensures RequestOk(s', s'.requests[r]) {
        assert RequestOk(s, s.requests[r]);
      }
    }
  }

  lemma {:induction false} RunKeepsInv(limit: nat, s: State, ls: seq<Label>)
    requires Inv(limit, s) && Legal(s, ls)
    ensures Inv(limit, After(s, ls))
    decreases |ls|
  {
    if ls == [] {
    } else {
      StepKeepsInv(limit, s, ls[0]);
      RunKeepsInv(limit, Next(s, ls[0]), ls[1..]);
    }
  }

  lemma {:induction false} LegalConcat(s: State, xs: seq<Label>, ys: seq<Label>)
    requires Legal(s, xs) && Legal(After(s, xs), ys)
    ensures Legal(s, xs + ys) && After(s, xs + ys) == After(After(s, xs), ys)
    decreases |xs|
  {
    if xs == [] {
      assert xs + ys == ys;
    } else {
      assert (xs + ys)[1..] == xs[1..] + ys;
      LegalConcat(Next(s, xs[0]), xs[1..], ys);
    }
  }
  // The request heads of connection c that came when there was a permit left.
  ghost function FoundPermit(s: State, ls: seq<Label>, c: nat): nat
    requires Legal(s, ls)
    decreases |ls|
  {
    if ls == [] then 0
    else Tally(ls[0] == Task(c, HeadComes) && s.permits > 0) + FoundPermit(Next(s, ls[0]), ls[1..], c)
  }

  lemma RequestStep(s: State, l: Label, c: nat)
    requires Enabled(s, l)
    ensures Count(Next(s, l).requests, AnyOf(c)) ==
            Count(s.requests, AnyOf(c)) + Tally(l == Task(c, HeadComes) && s.permits > 0)
  {
    if l.Task? && Admits(s, l.event) {
      CountAppend(s.requests, Request(l.conn, true), AnyOf(c));
    } else if l.RequestDone? {
      CountUpdate(s.requests, l.request, s.requests[l.request].(live := false), AnyOf(c));
    }
  }

  lemma {:induction false} RequestsGrow(s: State, ls: seq<Label>, c: nat)
    requires Legal(s, ls)
    ensures Count(After(s, ls).requests, AnyOf(c)) == Count(s.requests, AnyOf(c)) + FoundPermit(s, ls, c)
    decreases |ls|
  {
    if ls == [] {
    } else {
      RequestStep(s, ls[0], c);
      RequestsGrow(Next(s, ls[0]), ls[1..], c);
    }
  }
}

/** What the server guarantees over every run: admission, cancel, and both levels of draining. */
module ServerTheorems {
  import opened Common
  import opened Server

  lemma InitKeepsInv(limit: nat, credit: nat, ls: seq<Label>)
    requires Legal(Init(limit, credit), ls)
    ensures Inv(limit, After(Init(limit, credit), ls))
  {
    RunKeepsInv(limit, Init(limit, credit), ls);
  }

  // ---------------------------------------------------------------- permits

  /**
   Free permits and live requests over all connections always add up to the limit, four times the
   setting but at least 256. A request whose head has come gets a handler exactly when fewer than
   that many are live; otherwise nothing but the connection's own stage changes.
   */
  lemma PermitConservation(maxStreams: nat, credit: nat, ls: seq<Label>, c: nat)
    requires Legal(Init(StreamLimit(maxStreams), credit), ls)
    ensures var s := After(Init(StreamLimit(maxStreams), credit), ls);
            var limit := if maxStreams <= 64 then 256 else 4 * maxStreams;
            && s.permits + Count(s.requests, IsLive) == limit
            && (Enabled(s, Task(c, HeadComes)) ==>
                  var t := Next(s, Task(c, HeadComes));
                  if Count(s.requests, IsLive) < limit then t.requests == s.requests + [Request(c, true)]
                  else t.requests == s.requests && t.permits == s.permits)
  {
    InitKeepsInv(StreamLimit(maxStreams), credit, ls);
  }

  /**
   Over every run a connection's requests are as many as its request heads that found a permit: none
   is dropped that need not be, and none is spawned for a head that failed.
   */
  lemma EveryHeadServed(limit: nat, credit: nat, ls: seq<Label>, c: nat)
    requires Legal(Init(limit, credit), ls)
    ensures Count(After(Init(limit, credit), ls).requests, AnyOf(c)) == FoundPermit(Init(limit, credit), ls, c)
  {
    RequestsGrow(Init(limit, credit), ls, c);
  }

  // ---------------------------------------------------------------- what moves a server on

  lemma {:induction false} LegalSplit(s: State, ls: seq<Label>, l: Label)
    requires Legal(s, ls + [l])
    ensures Legal(s, ls) && Enabled(After(s, ls), l) && After(s, ls + [l]) == Next(After(s, ls), l)
    decreases |ls|
  {
    if ls == [] {
      assert (ls + [l])[1..] == [];
    } else {
      assert (ls + [l])[1..] == ls[1..] + [l];
      LegalSplit(Next(s, ls[0]), ls[1..], l);
    }
  }

  // How often a step has been taken.
  function Times(ls: seq<Label>, l: Label): nat {
    Count(ls, (x: Label) => x == l)
  }

  predicate IsConnect(l: Label) {
    l.Connect?
  }

  ghost predicate PhaseBook(s: State, ls: seq<Label>) {
    && |s.conns| == Count(ls, IsConnect)
    && Times(ls, Signal) == Tally(s.cancelSent)
    && Times(ls, Signal) + Times(ls, EndpointGone) == (if s.phase.Accepting? then 0 else 1)
    && Times(ls, Joined) == (if s.phase == Returned(false) then 1 else 0)
    && Times(ls, TimedOut) == (if s.phase == Returned(true) then 1 else 0)
  }

  lemma TimesAppend(ls: seq<Label>, x: Label, l: Label)
    ensures Times(ls + [x], l) == Times(ls, l) + if x == l then 1 else 0
  {
    CountAppend(ls, x, (y: Label) => y == l);
  }

  lemma PhaseStep(s: State, ls: seq<Label>, l: Label)
    requires PhaseBook(s, ls) && Enabled(s, l)
    ensures PhaseBook(Next(s, l), ls + [l])
  {
    CountAppend(ls, l, IsConnect);
    TimesAppend(ls, l, Signal);
    TimesAppend(ls, l, EndpointGone);
    TimesAppend(ls, l, Joined);
    TimesAppend(ls, l, TimedOut);
  }

  /**
   The server leaves its accept loop for the signal or the end of the endpoint and for nothing else,
   a failed handshake in particular; the cancel is sent exactly when it was the signal; it returns
   for the last join or the timeout; and there is a task for each connection accepted.
   */
  lemma {:induction false} ServerHistory(limit: nat, credit: nat, ls: seq<Label>)
    requires Legal(Init(limit, credit), ls)
    ensures PhaseBook(After(Init(limit, credit), ls), ls)
  {
    if ls == [] {
    } else {
      var n := |ls| - 1;
      assert ls == ls[..n] + [ls[n]];
      LegalSplit(Init(limit, credit), ls[..n], ls[n]);
      ServerHistory(limit, credit, ls[..n]);
      PhaseStep(After(Init(limit, credit), ls[..n]), ls[..n], ls[n]);
    }
  }

  // What has happened to a connection task, and how often.
  datatype Tale = Tale(built: nat, streamsEnd: nat, cancelled: nat, shutDown: nat,
                       offered: nat, heads: nat, over: nat, reaped: nat)

  function TaleOf(ls: seq<Label>, c: nat): Tale {
    Tale(
      Times(ls, Task(c, Built)),
      Times(ls, Task(c, StreamsEnd)),
      Times(ls, Task(c, TakeCancel)),
      Times(ls, Task(c, ShutdownDone)),
      Times(ls, Task(c, Offered)),
      Times(ls, Task(c, HeadComes)) + Times(ls, Task(c, HeadFails)),
      Times(ls, Task(c, BuildFails)) + Times(ls, Task(c, AllJoined)),
      Times(ls, Reap(c)))
  }

  function Longer(t: Tale, l: Label, c: nat): Tale {
    if l == Reap(c) then t.(reaped := t.reaped + 1)
    else if !l.Task? || l.conn != c then t
    else
      match l.event
      case Built => t.(built := t.built + 1)
      case StreamsEnd => t.(streamsEnd := t.streamsEnd + 1)
      case TakeCancel => t.(cancelled := t.cancelled + 1)
      case ShutdownDone => t.(shutDown := t.shutDown + 1)
      case Offered => t.(offered := t.offered + 1)
      case HeadComes => t.(heads := t.heads + 1)
      case HeadFails => t.(heads := t.heads + 1)
      case BuildFails => t.(over := t.over + 1)
      case AllJoined => t.(over := t.over + 1)
  }

  lemma TaleAppend(ls: seq<Label>, l: Label, c: nat)
    ensures TaleOf(ls + [l], c) == Longer(TaleOf(ls, c), l, c)
  {
    TimesAppend(ls, l, Task(c, Built));
    TimesAppend(ls, l, Task(c, StreamsEnd));
    TimesAppend(ls, l, Task(c, TakeCancel));
    TimesAppend(ls, l, Task(c, ShutdownDone));
    TimesAppend(ls, l, Task(c, Offered));
    TimesAppend(ls, l, Task(c, HeadComes));
    TimesAppend(ls, l, Task(c, HeadFails));
    TimesAppend(ls, l, Task(c, BuildFails));
    TimesAppend(ls, l, Task(c, AllJoined));
    TimesAppend(ls, l, Reap(c));
  }

  // The tale decides where the task is; None stands for a connection that is yet to come.
  predicate Fits(stage: Option<Stage>, t: Tale) {
    match stage
    case None => t == Tale(0, 0, 0, 0, 0, 0, 0, 0)
    case Some(Building) => t == Tale(0, 0, 0, 0, 0, 0, 0, 0)
    case Some(Serving) => t == Tale(1, 0, 0, 0, t.heads, t.heads, 0, 0)
    case Some(Resolving) => t == Tale(1, 0, 0, 0, t.heads + 1, t.heads, 0, 0)
    case Some(ShuttingDown) => t == Tale(1, 0, 1, 0, t.heads, t.heads, 0, 0)
    case Some(Draining) =>
      t == Tale(1, 1, 0, 0, t.heads, t.heads, 0, 0) || t == Tale(1, 0, 1, 1, t.heads, t.heads, 0, 0)
    case Some(Finished) =>
      || t == Tale(0, 0, 0, 0, 0, 0, 1, 0)
      || t == Tale(1, 1, 0, 0, t.heads, t.heads, 1, 0) || t == Tale(1, 0, 1, 1, t.heads, t.heads, 1, 0)
    case Some(Aborted) => t.reaped == 1 && t.over == 0
  }

  function StageOf(s: State, c: nat): Option<Stage> {
    if c < |s.conns| then Some(s.conns[c].stage) else None
  }

  lemma StageStep(s: State, t: Tale, l: Label, c: nat)
    requires Fits(StageOf(s, c), t) && Enabled(s, l)
    ensures Fits(StageOf(Next(s, l), c), Longer(t, l, c))
  {
  }

  /**
   A connection task goes on accepting until it takes the cancel or its streams end, whatever comes
   of the streams it was offered, resolves one stream at a time, shuts down before it drains if it
   was the cancel, and ends by joining the last request or by failing to build.
   */
  lemma {:induction false} ConnectionHistory(limit: nat, credit: nat, ls: seq<Label>, c: nat)
    requires Legal(Init(limit, credit), ls)
    ensures Fits(StageOf(After(Init(limit, credit), ls), c), TaleOf(ls, c))
  {
    if ls == [] {
    } else {
      var n := |ls| - 1;
      assert ls == ls[..n] + [ls[n]];
      LegalSplit(Init(limit, credit), ls[..n], ls[n]);
      ConnectionHistory(limit, credit, ls[..n], c);
      TaleAppend(ls[..n], ls[n], c);
      StageStep(After(Init(limit, credit), ls[..n]), TaleOf(ls[..n], c), ls[n], c);
    }
  }

  // ---------------------------------------------------------------- graceful shutdown

  // From here on a connection neither accepts a stream nor goes back to accepting.
  ghost predicate Settled(s: State, t: State, c: nat) {
    && c < |s.conns| && c < |t.conns|
    && PastAccepting(t.conns[c])
    && Count(t.requests, AnyOf(c)) == Count(s.requests, AnyOf(c))
  }

  lemma SettledStep(s: State, l: Label, c: nat)
    requires Enabled(s, l) && c < |s.conns| && PastAccepting(s.conns[c])
    ensures Settled(s, Next(s, l), c)
  {
    var s' := Next(s, l);
    if l.Task? && Admits(s, l.event) {
      CountAppend(s.requests, Request(l.conn, true), AnyOf(c));
    } else if l.RequestDone? {
      CountUpdate(s.requests, l.request, s'.requests[l.request], AnyOf(c));
    }
  }

  /** A connection that took the cancel, or stopped accepting, gets no request ever after. */
  lemma {:induction false} NothingAcceptedAfterCancel(s: State, ls: seq<Label>, c: nat)
    requires Legal(s, ls) && c < |s.conns| && PastAccepting(s.conns[c])
    ensures Settled(s, After(s, ls), c)
    decreases |ls|
  {
    if ls == [] {
    } else {
      SettledStep(s, ls[0], c);
      NothingAcceptedAfterCancel(Next(s, ls[0]), ls[1..], c);
    }
  }

  /** Once the accept loop has ended no connection task is spawned and no further cancel is sent. */
  lemma {:induction false} NoSpawnAfterLoop(s: State, ls: seq<Label>)
    requires Legal(s, ls) && !s.phase.Accepting?
    ensures var t := After(s, ls);
            !t.phase.Accepting? && |t.conns| == |s.conns| && Count(ls, IsSignal) == 0
    decreases |ls|
  {
    if ls == [] {
    } else {
      NoSpawnAfterLoop(Next(s, ls[0]), ls[1..]);
      CountCons(ls, IsSignal);
    }
  }

  /**
   The cancel misses nobody: after a run ending in the signal every connection task that is still
   running has the cancel waiting for it, and keeps it until it takes it, whatever happens next.
   */
  lemma CancelReachesAll(limit: nat, credit: nat, before: seq<Label>, after: seq<Label>, c: nat)
    requires Legal(Init(limit, credit), before) && Enabled(After(Init(limit, credit), before), Signal)
    requires Legal(Next(After(Init(limit, credit), before), Signal), after)
    requires c < |After(Init(limit, credit), before).conns| && !Over(After(Init(limit, credit), before).conns[c])
    ensures var s := Next(After(Init(limit, credit), before), Signal);
            var t := After(s, after);
            && s.conns[c].mail
            && |t.conns| == |s.conns|
            && (Over(t.conns[c]) || t.conns[c].mail || t.conns[c].took)
  {
    InitKeepsInv(limit, credit, before);
    var s := Next(After(Init(limit, credit), before), Signal);
    StepKeepsInv(limit, After(Init(limit, credit), before), Signal);
    RunKeepsInv(limit, s, after);
    NoSpawnAfterLoop(s, after);
    CancelSentStays(s, after);
    assert ConnOk(After(s, after), c);
  }

  lemma {:induction false} CancelSentStays(s: State, ls: seq<Label>)
    requires Legal(s, ls) && s.cancelSent
    ensures After(s, ls).cancelSent
    decreases |ls|
  {
    if ls == [] {
    } else {
      CancelSentStays(Next(s, ls[0]), ls[1..]);
    }
  }

  /**
   In every reachable state a connection that took the cancel is past accepting, and one that
   dropped its h3 connection in the normal way has no live request; when the server returned
   without a timeout, no connection task or request is left and all permits are back.
   */
  lemma DrainIsComplete(limit: nat, credit: nat, ls: seq<Label>)
    requires Legal(Init(limit, credit), ls)
    ensures var s := After(Init(limit, credit), ls);
            && (forall c :: 0 <= c < |s.conns| && s.conns[c].took ==> PastAccepting(s.conns[c]))
            && (forall c: nat :: c < |s.conns| && s.conns[c].stage.Finished? ==> Count(s.requests, LiveOf(c)) == 0)
            && (forall c :: 0 <= c < |s.conns| && s.conns[c].stage.Aborted? ==> s.phase == Returned(true))
            && (s.phase == Returned(false) ==>
                  && (forall c :: 0 <= c < |s.conns| ==> s.conns[c].stage.Finished?)
                  && Count(s.requests, IsLive) == 0
                  && s.permits == limit)
  {
    InitKeepsInv(limit, credit, ls);
    var s := After(Init(limit, credit), ls);
    forall c: nat | c < |s.conns| && s.conns[c].stage.Finished? ensures Count(s.requests, LiveOf(c)) == 0 {
      CountPositive(s.requests, LiveOf(c));
      assert forall r :: 0 <= r < |s.requests| ==> RequestOk(s, s.requests[r]);
    }
    forall c: nat | c < |s.conns|
      ensures s.conns[c].took ==> PastAccepting(s.conns[c])
      ensures s.conns[c].stage.Aborted? ==> s.phase == Returned(true)
      ensures s.phase == Returned(false) ==> s.conns[c].stage.Finished?
    {
      assert ConnOk(s, c);
    }
    if s.phase == Returned(false) {
      CountPositive(s.requests, IsLive);
      assert forall r :: 0 <= r < |s.requests| ==> RequestOk(s, s.requests[r]);
    }
  }

  // ---------------------------------------------------------------- the drain ends

  function StageRank(c: Conn): nat {
    RankOf(c.stage)
  }

  function RankOf(st: Stage): nat {
    match st
    case Building => 5
    case Serving => 4
    case Resolving => 6
    case ShuttingDown => 2
    case Draining => 1
    case Finished => 0
    case Aborted => 0
  }

  function Measure(s: State): nat {
    Sum(s.conns, StageRank) + Count(s.requests, IsLive) + if s.phase.Returned? then 0 else 1
  }

  predicate IsOffer(l: Label) {
    l.Task? && l.event.Offered?
  }

  lemma StageRankDrops(st: Stage, e: TaskEvent)
    requires TaskStep(st, e).Some?
    ensures var st' := TaskStep(st, e).value;
            if e.Offered? then RankOf(st') == RankOf(st) + 2
            else RankOf(st') + (if e.HeadComes? then 1 else 0) < RankOf(st)
  {
  }

  lemma TaskRankDrops(s: State, c: nat, e: TaskEvent)
    requires Enabled(s, Task(c, e))
    ensures var s' := Next(s, Task(c, e));
            var live, live' := Count(s.requests, IsLive), Count(s'.requests, IsLive);
            if e.Offered? then Sum(s'.conns, StageRank) == Sum(s.conns, StageRank) + 2 && live' == live
            else Sum(s'.conns, StageRank) + live' < Sum(s.conns, StageRank) + live
  {
    StageRankDrops(s.conns[c].stage, e);
    SumUpdate(s.conns, c, Next(s, Task(c, e)).conns[c], StageRank);
    CountAppend(s.requests, Request(c, true), IsLive);
  }

  lemma DrainStep(s: State, l: Label)
    requires Enabled(s, l) && !s.phase.Accepting?
    ensures if IsOffer(l) then Measure(Next(s, l)) == Measure(s) + 2 else Measure(Next(s, l)) < Measure(s)
  {
    if l.Task? {
      TaskRankDrops(s, l.conn, l.event);
    } else if l.RequestDone? {
      CountUpdate(s.requests, l.request, s.requests[l.request].(live := false), IsLive);
    } else if l.Reap? {
      SumUpdate(s.conns, l.conn, s.conns[l.conn].(stage := Aborted), StageRank);
    }
  }

  /**
   Draining terminates: after the accept loop, the number of steps of all tasks together is at
   most the work left plus three for each further stream a client offers.
   */
  lemma {:induction false} DrainTerminates(s: State, ls: seq<Label>)
    requires Legal(s, ls) && !s.phase.Accepting?
    ensures |ls| + Measure(After(s, ls)) <= Measure(s) + 3 * Count(ls, IsOffer)
    decreases |ls|
  {
    if ls == [] {
    } else {
      DrainStep(s, ls[0]);
      DrainTerminates(Next(s, ls[0]), ls[1..]);
      CountCons(ls, IsOffer);
    }
  }

  // Steps the server and its handlers take by themselves. Offering a stream, completing its request
  // head and ending the connection are the client's; a handler is taken to finish by itself.
  predicate OwnStep(l: Label) {
    match l
    case Task(_, e) => e.Built? || e.BuildFails? || e.TakeCancel? || e.ShutdownDone? || e.AllJoined?
    case RequestDone(_) => true
    case Joined => true
    case _ => false
  }

  // A connection task that only its client can move: it waits for a request head, and does not
  // look at the cancel meanwhile, or it is idle and there is no cancel.
  predicate AwaitsClient(s: State, c: Conn) {
    c.stage.Resolving? || (c.stage.Serving? && !s.cancelSent)
  }

  ghost predicate OnlyClientsCanMove(s: State) {
    && Count(s.requests, IsLive) == 0
    && (exists c :: 0 <= c < |s.conns| && !s.conns[c].stage.Finished?)
    && (forall c :: 0 <= c < |s.conns| ==> s.conns[c].stage.Finished? || AwaitsClient(s, s.conns[c]))
  }

  lemma ServerAdvances(limit: nat, s: State) returns (l: Label)
    requires Inv(limit, s) && s.phase.Joining? && !OnlyClientsCanMove(s)
    ensures Enabled(s, l) && OwnStep(l)
  {
    CountPositive(s.requests, IsLive);
    if r: nat :| r < |s.requests| && s.requests[r].live {
      l := RequestDone(r);
    } else if c: nat :| c < |s.conns| && !s.conns[c].stage.Finished? && !AwaitsClient(s, s.conns[c]) {
      assert ConnOk(s, c);
      CountPositive(s.requests, LiveOf(c));
      l := Task(c, match s.conns[c].stage
                   case Building => Built
                   case Serving => TakeCancel
                   case ShuttingDown => ShutdownDone
                   case _ => AllJoined);
    } else {
      l := Joined;
    }
  }

  /**
   When the drain cannot go on by itself: no handler is running, some connection task is left, and
   each of those waits for its client, either in the middle of a request head, deaf to the cancel,
   or idle in a drain that began without the signal. In every other state some step is possible.
   */
  lemma DrainStuckExactlyWhen(limit: nat, credit: nat, ls: seq<Label>)
    requires Legal(Init(limit, credit), ls) && After(Init(limit, credit), ls).phase.Joining?
    ensures (exists l :: Enabled(After(Init(limit, credit), ls), l) && OwnStep(l)) <==>
            !OnlyClientsCanMove(After(Init(limit, credit), ls))
  {
    InitKeepsInv(limit, credit, ls);
    var s := After(Init(limit, credit), ls);
    if !OnlyClientsCanMove(s) {
      var l := ServerAdvances(limit, s);
    } else {
      CountPositive(s.requests, IsLive);
      forall l | Enabled(s, l) ensures !OwnStep(l) {
        if l.Task? {
          assert ConnOk(s, l.conn);
        }
      }
    }
  }

  /** On the signal path too: a client that opened a stream and sends no head holds up the drain. */
  lemma SilentClientHoldsDrain(limit: nat, credit: nat)
    requires credit > 0
    ensures var ls := [Connect, Task(0, Built), Task(0, Offered), Signal];
            && Legal(Init(limit, credit), ls)
            && var s := After(Init(limit, credit), ls);
            && s.phase.Joining? && s.cancelSent && s.conns[0].mail && OnlyClientsCanMove(s)
  {
    var ls := [Connect, Task(0, Built), Task(0, Offered), Signal];
    assert ls[1..] == [Task(0, Built), Task(0, Offered), Signal];
    assert ls[1..][1..] == [Task(0, Offered), Signal];
    assert ls[1..][1..][1..] == [Signal];
    assert ls[1..][1..][1..][1..] == [];
  }

  // ---------------------------------------------------------------- the documented stream limit

  // What a connection's streams come to: its live requests and the one being resolved.
  function StreamsOf(s: State, c: nat): nat
    requires c < |s.conns|
  {
    Count(s.requests, LiveOf(c)) + Tally(s.conns[c].stage.Resolving?)
  }

  ghost predicate WithinCredit(s: State) {
    && (forall c: nat :: c < |s.conns| ==> StreamsOf(s, c) <= s.credit)
    && (forall r :: 0 <= r < |s.requests| ==> s.requests[r].conn < |s.conns|)
  }

  // How a step of task i shows in what the streams of c come to.
  lemma TaskStreams(s: State, i: nat, e: TaskEvent, c: nat)
    requires Enabled(s, Task(i, e)) && c < |s.conns|
    ensures c < |Next(s, Task(i, e)).conns|
    ensures var live, resolving := Count(s.requests, LiveOf(c)), Tally(s.conns[c].stage.Resolving?);
            StreamsOf(Next(s, Task(i, e)), c) ==
            if i != c then live + resolving
            else if e.Offered? then live + 1
            else live + Tally(Admits(s, e))
  {
    CountAppend(s.requests, Request(i, true), LiveOf(c));
  }

  lemma TaskKeepsCredit(s: State, i: nat, e: TaskEvent, c: nat)
    requires WithinCredit(s) && Enabled(s, Task(i, e)) && c < |s.conns|
    ensures StreamsOf(Next(s, Task(i, e)), c) <= s.credit
  {
    assert StreamsOf(s, c) <= s.credit;
    TaskStreams(s, i, e, c);
  }

  lemma NewConnHasNoStream(s: State)
    requires WithinCredit(s)
    ensures Count(s.requests, LiveOf(|s.conns|)) == 0
  {
    CountPositive(s.requests, LiveOf(|s.conns|));
  }

  lemma StepKeepsCredit(s: State, l: Label)
    requires WithinCredit(s) && Enabled(s, l)
    ensures WithinCredit(Next(s, l)) && Next(s, l).credit == s.credit
  {
    var s' := Next(s, l);
    NewConnHasNoStream(s);
    forall c: nat | c < |s'.conns| ensures StreamsOf(s', c) <= s.credit {
      if l.Task? {
        TaskKeepsCredit(s, l.conn, l.event, c);
      } else if l.RequestDone? {
        CountUpdate(s.requests, l.request, s'.requests[l.request], LiveOf(c));
        assert StreamsOf(s, c) <= s.credit;
      } else if c < |s.conns| {
        assert StreamsOf(s, c) <= s.credit;
      }
    }
  }

  lemma {:induction false} RunKeepsCredit(s: State, ls: seq<Label>)
    requires WithinCredit(s) && Legal(s, ls)
    ensures WithinCredit(After(s, ls)) && After(s, ls).credit == s.credit
    decreases |ls|
  {
    if ls == [] {
    } else {
      StepKeepsCredit(s, ls[0]);
      RunKeepsCredit(Next(s, ls[0]), ls[1..]);
    }
  }

  // A single connection with n live requests.
  ghost predicate OneBusyConnection(s: State, limit: nat, credit: nat, n: nat) {
    && s.phase.Accepting? && !s.cancelSent && s.credit == credit
    && s.conns == [Conn(Serving, false, false)]
    && s.permits + n == limit
    && Count(s.requests, LiveOf(0)) == n
  }

  lemma OneMoreStream(s: State, limit: nat, credit: nat, n: nat) returns (t: State)
    requires OneBusyConnection(s, limit, credit, n) && n < limit && n < credit
    ensures Legal(s, [Task(0, Offered), Task(0, HeadComes)])
    ensures t == After(s, [Task(0, Offered), Task(0, HeadComes)])
    ensures OneBusyConnection(t, limit, credit, n + 1)
  {
    var offered := Next(s, Task(0, Offered));
    t := Next(offered, Task(0, HeadComes));
    CountAppend(s.requests, Request(0, true), LiveOf(0));
    assert [Task(0, Offered), Task(0, HeadComes)][1..] == [Task(0, HeadComes)];
    assert [Task(0, HeadComes)][1..] == [];
  }

  lemma {:induction false} ReachBusy(limit: nat, credit: nat, n: nat) returns (ls: seq<Label>)
    requires n <= limit && n <= credit
    ensures Legal(Init(limit, credit), ls)
    ensures OneBusyConnection(After(Init(limit, credit), ls), limit, credit, n)
  {
    if n == 0 {
      ls := [Connect, Task(0, Built)];
      assert ls[1..] == [Task(0, Built)];
      assert ls[1..][1..] == [];
    } else {
      var xs := ReachBusy(limit, credit, n - 1);
      var t := OneMoreStream(After(Init(limit, credit), xs), limit, credit, n - 1);
      var ys := [Task(0, Offered), Task(0, HeadComes)];
      LegalConcat(Init(limit, credit), xs, ys);
      ls := xs + ys;
    }
  }

  ghost predicate Exceeds(s: State, n: nat) {
    exists c: nat :: c < |s.conns| && Count(s.requests, LiveOf(c)) > n
  }

  // A run of the server with this setting that has more on one connection than documented.
  ghost predicate ExceedingRun(maxStreams: nat, credit: nat, ls: seq<Label>) {
    && Legal(Init(StreamLimit(maxStreams), credit), ls)
    && Exceeds(After(Init(StreamLimit(maxStreams), credit), ls), maxStreams)
  }

  /**
   The builder documents `max_concurrent_streams` as a limit per connection, but only the global
   limit is enforced. Some run has a connection with more live requests than documented if and
   only if the transport's own credit per connection is larger than the documented limit.
   */
  lemma PerConnectionLimitKeptExactlyWhen(maxStreams: nat, credit: nat)
    ensures (exists ls :: ExceedingRun(maxStreams, credit, ls)) <==> maxStreams < credit
  {
    var s := Init(StreamLimit(maxStreams), credit);
    if maxStreams < credit {
      var ls := ReachBusy(StreamLimit(maxStreams), credit, maxStreams + 1);
      var t := After(s, ls);
      assert 0 < |t.conns| && Count(t.requests, LiveOf(0)) > maxStreams;
      assert ExceedingRun(maxStreams, credit, ls);
    } else {
      forall ls ensures !ExceedingRun(maxStreams, credit, ls) {
        if Legal(s, ls) {
          RunKeepsCredit(s, ls);
          forall c: nat | c < |After(s, ls).conns| ensures Count(After(s, ls).requests, LiveOf(c)) <= maxStreams {
            assert StreamsOf(After(s, ls), c) <= credit;
          }
        }
      }
    }
  }
}

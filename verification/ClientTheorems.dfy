/** What the composed client guarantees over every run from a fresh channel. */
module ClientTheorems {
  import opened Common
  import opened Errors
  import opened Retry
  import opened Channel
  import opened Client
  import Pool
  import PoolTheorems

  lemma InitKeepsInv(cfg: Config, ls: seq<Label>)
    requires Legal(cfg, Init(cfg), ls)
    ensures Inv(cfg, After(cfg, Init(cfg), ls))
  {
    RunKeepsInv(cfg, Init(cfg), ls);
  }

  // ---------------------------------------------------------------- permits bound the pool

  ghost function LiveTickets(s: State): set<Pool.Ticket> {
    set t | 0 <= t < |s.pool.callers| && LiveCaller(s.pool.callers[t])
  }

  ghost predicate Covers(c: Call, t: Pool.Ticket) {
    c.phase.InPool? && c.phase.ticket == t
  }

  lemma {:induction false} CoveredByHolders(calls: seq<Call>, ts: set<Pool.Ticket>)
    requires forall t :: t in ts ==> exists i :: 0 <= i < |calls| && Covers(calls[i], t)
    ensures |ts| <= Count(calls, Holds)
  {
    if calls == [] {
      assert ts == {};
    } else {
      var n := |calls| - 1;
      var rest := if calls[n].phase.InPool? then ts - {calls[n].phase.ticket} else ts;
      forall t | t in rest ensures exists i :: 0 <= i < n && Covers(calls[..n][i], t) {
        var i :| 0 <= i < |calls| && Covers(calls[i], t);
        assert Covers(calls[..n][i], t);
      }
      CoveredByHolders(calls[..n], rest);
      assert calls == calls[..n] + [calls[n]];
      CountAppend(calls[..n], calls[n], Holds);
    }
  }

  // Between the grant of its permit and its end.
  predicate InFlight(c: Call) {
    match c.phase
    case Queued => false
    case Finished(_) => false
    case _ => true
  }

  /**
   Calls holding a permit and free permits always add up to the channel's limit, and the live
   pool callers, over all clones, retries and cancellations, never outnumber the permit holders.
   */
  lemma PermitsBoundPool(cfg: Config, ls: seq<Label>)
    requires Legal(cfg, Init(cfg), ls)
    ensures var s := After(cfg, Init(cfg), ls);
            && Count(s.calls, Holds) + s.permits == cfg.limit
            && |LiveTickets(s)| <= Count(s.calls, Holds) <= cfg.limit
            && Count(s.calls, InFlight) <= cfg.limit
  {
    InitKeepsInv(cfg, ls);
    NoMoreThan(After(cfg, Init(cfg), ls).calls, InFlight, Holds);
    var s := After(cfg, Init(cfg), ls);
    forall t | t in LiveTickets(s)
      ensures exists i :: 0 <= i < |s.calls| && Covers(s.calls[i], t)
    {
      var i: nat :| Ticketed(s, i, t);
      assert Covers(s.calls[i], t);
    }
    CoveredByHolders(s.calls, LiveTickets(s));
  }

  // ---------------------------------------------------------------- every call is a run of the automaton

  function EventsOf(ls: seq<Label>, i: nat): seq<Event> {
    if ls == [] then []
    else (if ls[0].Act? && ls[0].call == i then [ls[0].event] else []) + EventsOf(ls[1..], i)
  }

  lemma {:induction false} ReplayCons(p: RetryPolicy, c: Call, e: Event, es: seq<Event>)
    requires Can(p, c, e)
    ensures Replay(p, c, [e] + es) == Replay(p, Do(p, c, e), es)
    decreases |es|
  {
    if es == [] {
      assert [e] + es == [] + [e];
      ReplayAppend(p, c, [], e);
    } else {
      var n := |es| - 1;
      ReplayCons(p, c, e, es[..n]);
      assert [e] + es == ([e] + es[..n]) + [es[n]];
      ReplayAppend(p, c, [e] + es[..n], es[n]);
    }
  }

  lemma {:induction false} CallReplays(cfg: Config, s: State, ls: seq<Label>, i: nat)
    requires Legal(cfg, s, ls) && i < |After(cfg, s, ls).calls|
    ensures Replay(cfg.policy, if i < |s.calls| then s.calls[i] else START, EventsOf(ls, i))
            == Some(After(cfg, s, ls).calls[i])
    decreases |ls|
  {
    if ls == [] {
    } else {
      var s' := Next(cfg, s, ls[0]);
      CallReplays(cfg, s', ls[1..], i);
      if ls[0].Act? && ls[0].call == i {
        ReplayCons(cfg.policy, s.calls[i], ls[0].event, EventsOf(ls[1..], i));
      } else {
        assert [] + EventsOf(ls[1..], i) == EventsOf(ls[1..], i);
      }
    }
  }

  /**
   In the composed client each call asks the pool at most `maxAttempts` times and hands its body
   over at most once; RetriesExhausted is only ever seen when `maxAttempts` is 0; the entry a call
   sends on was published by the pool for the channel's address.
   */
  lemma CallSafety(cfg: Config, ls: seq<Label>, i: nat)
    requires Legal(cfg, Init(cfg), ls) && i < |After(cfg, Init(cfg), ls).calls|
    ensures var s := After(cfg, Init(cfg), ls);
            var c := s.calls[i];
            && Count(EventsOf(ls, i), IsAsk) <= cfg.policy.maxAttempts
            && Count(EventsOf(ls, i), IsHandOff) <= 1
            && (c.phase == Finished(Response) ==> Count(EventsOf(ls, i), IsHandOff) == 1)
            && (c.phase.Finished? && c.phase.result.Failed? && c.phase.result.error.RetriesExhausted? ==>
                  cfg.policy.maxAttempts == 0)
            && (c.phase.Sending? ==> Pool.CameFrom(s.pool, cfg.remote, c.phase.entry))
  {
    InitKeepsInv(cfg, ls);
    CallReplays(cfg, Init(cfg), ls, i);
    BoundedRetries(cfg.policy, EventsOf(ls, i));
    assert CallOk(cfg, After(cfg, Init(cfg), ls), After(cfg, Init(cfg), ls).calls[i]);
  }

  /** The pool inside the client flies single: all pool theorems carry over this way. */
  lemma ClientSingleFlight(cfg: Config, ls: seq<Label>)
    requires Legal(cfg, Init(cfg), ls)
    ensures var s := After(cfg, Init(cfg), ls).pool;
            && Count(s.rounds, PoolTheorems.LiveAt(cfg.remote)) ==
               (if Pool.ConnectingAt(s.slots, cfg.remote) then 1 else 0)
            && Count(s.rounds, PoolTheorems.OpenAt(cfg.remote, s.closed)) <= 1
  {
    ClientRefinesPool(cfg, Init(cfg), ls);
    PoolTheorems.SingleFlight(PoolRun(cfg, Init(cfg), ls), cfg.remote);
    PoolTheorems.UniqueOpenEntry(PoolRun(cfg, Init(cfg), ls), cfg.remote);
  }

  // ---------------------------------------------------------------- termination

  function AttemptsLeft(m: nat, k: nat): nat {
    if k < m then m - 1 - k else 0
  }

  function CallRank(m: nat): Call -> nat {
    (c: Call) => Rank(m, c.phase) + Tally(c.forwarder.Running?)
  }

  function Rank(m: nat, ph: Channel.Phase): nat {
    match ph
    case Queued => 12 * m + 1
    case Sleeping(k) => 12 * AttemptsLeft(m, k) + 11
    case Attempting(k) => 12 * AttemptsLeft(m, k) + 10
    case InPool(k, _) => 12 * AttemptsLeft(m, k) + 4
    case Sending(k, _) => 12 * AttemptsLeft(m, k) + 3
    case Invalidating(k) => 12 * AttemptsLeft(m, k) + 2
    case AwaitingHead(_) => 1
    case Finished(_) => 0
  }

  function TaskRank(rd: Pool.Round): nat {
    match rd.stage
    case Dialing => 2
    case Dialed(_) => 1
    case Published(_) => 0
  }

  function CallerRank(c: Pool.Caller): nat {
    match c.phase
    case Locking => 5
    case Waiting => 1
    case _ => 0
  }

  function PoolMeasure(s: Pool.State): nat {
    Sum(s.rounds, TaskRank) + Sum(s.callers, CallerRank)
  }

  function Measure(cfg: Config, s: State): nat {
    Sum(s.calls, CallRank(cfg.policy.maxAttempts)) + PoolMeasure(s.pool)
  }

  // Steps of calls, of pool callers and of connector tasks, and the ends of forwarders, as opposed to
  // new calls and closes.
  predicate IsWork(l: Label) {
    !l.NewCall? && !(l.InThePool? && l.step.Close?)
  }

  predicate IsNewCall(l: Label) {
    l.NewCall?
  }

  lemma LookLowersMeasure(s: Pool.State, t: Pool.Ticket)
    requires Pool.Enabled(s, Pool.Look(t))
    ensures PoolMeasure(Pool.Next(s, Pool.Look(t))) < PoolMeasure(s)
  {
    var s' := Pool.Next(s, Pool.Look(t));
    SumUpdate(s.callers, t, s'.callers[t], CallerRank);
    SumAppend(s.rounds, Pool.Round(s.callers[t].addr, Pool.Dialing), TaskRank);
  }

  lemma PublishLowersMeasure(s: Pool.State, r: nat)
    requires Pool.Inv(s) && Pool.Enabled(s, Pool.Publish(r))
    ensures PoolMeasure(Pool.Next(s, Pool.Publish(r))) < PoolMeasure(s)
  {
    var s' := Pool.Next(s, Pool.Publish(r));
    SumUpdate(s.rounds, r, s'.rounds[r], TaskRank);
    forall t | 0 <= t < |s.callers| ensures CallerRank(s'.callers[t]) <= CallerRank(s.callers[t]) {
      Pool.PublishCallers(s, r, t);
    }
    SumMonotone(s'.callers, s.callers, CallerRank);
  }

  lemma PoolMeasureStep(s: Pool.State, l: Pool.Label)
    requires Pool.Inv(s) && Pool.Enabled(s, l)
    ensures var m, m' := PoolMeasure(s), PoolMeasure(Pool.Next(s, l));
            if l.Arrive? then m' == m + 5
            else if l.Close? || l.Invalidate? then m' == m
            else m' < m
  {
    match l
    case Arrive(a) => SumAppend(s.callers, Pool.Caller(a, Pool.Locking, 0, None), CallerRank);
    case Look(t) => LookLowersMeasure(s, t);
    case Dial(r, res) => SumUpdate(s.rounds, r, s.rounds[r].(stage := Pool.Dialed(res)), TaskRank);
    case Publish(r) => PublishLowersMeasure(s, r);
    case Receive(t) => SumUpdate(s.callers, t, Pool.Next(s, l).callers[t], CallerRank);
    case Cancel(t) => SumUpdate(s.callers, t, Pool.Next(s, l).callers[t], CallerRank);
    case _ =>
  }

  lemma RankDrops(p: RetryPolicy, c: Call, e: Event)
    requires CallInv(p, c) && Can(p, c, e)
    ensures var m := p.maxAttempts;
            CallRank(m)(Do(p, c, e)) + (if e.Ask? then 6 else 1) <= CallRank(m)(c)
  {
  }

  lemma ActLowersMeasure(cfg: Config, s: State, i: nat, e: Event)
    requires Inv(cfg, s) && Enabled(cfg, s, Act(i, e))
    ensures Measure(cfg, Next(cfg, s, Act(i, e))) < Measure(cfg, s)
  {
    var d := Do(cfg.policy, s.calls[i], e);
    assert CallOk(cfg, s, s.calls[i]);
    RankDrops(cfg.policy, s.calls[i], e);
    SumUpdate(s.calls, i, d, CallRank(cfg.policy.maxAttempts));
    var step := PoolPart(cfg, s, s.calls[i], e);
    if step.Some? {
      PoolMeasureStep(s.pool, step.value);
    }
  }

  lemma MeasureStep(cfg: Config, s: State, l: Label)
    requires Inv(cfg, s) && Enabled(cfg, s, l)
    ensures var m, m' := Measure(cfg, s), Measure(cfg, Next(cfg, s, l));
            if l.NewCall? then m' == m + 12 * cfg.policy.maxAttempts + 1
            else if IsWork(l) then m' < m
            else m' == m
  {
    match l
    case NewCall => SumAppend(s.calls, START, CallRank(cfg.policy.maxAttempts));
    case InThePool(step) => PoolMeasureStep(s.pool, step);
    case Act(i, e) => ActLowersMeasure(cfg, s, i, e);
  }

  lemma AddOneStep(work: nat, last: nat, next: nat, now: nat, calls: nat, price: nat, l: Label)
    requires work + last <= next + calls * price
    requires if l.NewCall? then next == now + price else if IsWork(l) then next < now else next == now
    ensures work + Tally(IsWork(l)) + last <= now + (calls + Tally(IsNewCall(l))) * price
  {
    assert (calls + 1) * price == calls * price + price;
  }

  lemma {:induction false} WorkIsPaidFor(cfg: Config, s: State, ls: seq<Label>)
    requires Inv(cfg, s) && Legal(cfg, s, ls)
    ensures Count(ls, IsWork) + Measure(cfg, After(cfg, s, ls))
            <= Measure(cfg, s) + Count(ls, IsNewCall) * (12 * cfg.policy.maxAttempts + 1)
    decreases |ls|
  {
    if ls == [] {
    } else {
      var s' := Next(cfg, s, ls[0]);
      StepKeepsInv(cfg, s, ls[0]);
      MeasureStep(cfg, s, ls[0]);
      WorkIsPaidFor(cfg, s', ls[1..]);
      CountCons(ls, IsWork);
      CountCons(ls, IsNewCall);
      AddOneStep(
        Count(ls[1..], IsWork), Measure(cfg, After(cfg, s, ls)), Measure(cfg, s'), Measure(cfg, s),
        Count(ls[1..], IsNewCall), 12 * cfg.policy.maxAttempts + 1, ls[0]);
    }
  }

  /**
   Termination of connect-and-retry: in any run the calls, their pool callers and their connector
   tasks, with one end per forwarder, take at most 12 * maxAttempts + 1 steps per call started.
   */
  lemma ConnectAndRetryTerminates(cfg: Config, ls: seq<Label>)
    requires Legal(cfg, Init(cfg), ls)
    ensures Count(ls, IsWork) <= Count(ls, IsNewCall) * (12 * cfg.policy.maxAttempts + 1)
  {
    WorkIsPaidFor(cfg, Init(cfg), ls);
  }

  // ---------------------------------------------------------------- progress

  // Work that takes a call to its result, without giving it up.
  predicate Advances(l: Label) {
    IsWork(l) && !(l.Act? && (IsCut(l.event) || l.event.ForwarderEnds? || l.event.BodyAborts?))
  }

  lemma WaitingAdvances(cfg: Config, s: State, t: Pool.Ticket) returns (l: Label)
    requires Inv(cfg, s) && t < |s.pool.callers| && LiveCaller(s.pool.callers[t])
    ensures Enabled(cfg, s, l) && Advances(l)
  {
    var c := s.pool.callers[t];
    if c.phase.Locking? {
      l := InThePool(Pool.Look(t));
    } else if c.inbox.Some? {
      l := InThePool(Pool.Receive(t));
    } else {
      var r: nat :| Pool.LiveFor(s.pool, c.addr, r);
      l := InThePool(if s.pool.rounds[r].stage.Dialing? then Pool.Dial(r, Pool.TASK_CANCELLED) else Pool.Publish(r));
    }
  }

  lemma HolderAdvances(cfg: Config, s: State, i: nat) returns (l: Label)
    requires Inv(cfg, s) && i < |s.calls| && Holds(s.calls[i])
    ensures Enabled(cfg, s, l) && Advances(l)
  {
    assert CallOk(cfg, s, s.calls[i]);
    match s.calls[i].phase
    case Sleeping(_) => l := Act(i, Woke);
    case Attempting(_) => l := Act(i, Ask(|s.pool.callers|));
    case InPool(_, t) =>
      assert Ticketed(s, i, t);
      if LiveCaller(s.pool.callers[t]) {
        l := WaitingAdvances(cfg, s, t);
      } else {
        l := Act(i, Connected(s.pool.callers[t].phase.outcome));
      }
    case Sending(_, _) => l := Act(i, Sent(None));
    case Invalidating(_) => l := Act(i, Invalidated);
    case AwaitingHead(_) => l := Act(i, Head(None));
  }

  // With no permits or no attempts nobody ever gets as far as the pool.
  lemma {:induction false} PoolStaysUnused(cfg: Config, s: State, ls: seq<Label>)
    requires Inv(cfg, s) && Legal(cfg, s, ls) && (cfg.limit == 0 || cfg.policy.maxAttempts == 0)
    requires s.pool.callers == [] && s.pool.rounds == [] && s.pool.slots == map[]
    ensures var pool := After(cfg, s, ls).pool;
            pool.callers == [] && pool.rounds == [] && pool.slots == map[]
    decreases |ls|
  {
    if ls == [] {
    } else {
      if ls[0].Act? {
        CountPositive(s.calls, Holds);
        assert CallOk(cfg, s, s.calls[ls[0].call]);
      }
      StepKeepsInv(cfg, s, ls[0]);
      PoolStaysUnused(cfg, Next(cfg, s, ls[0]), ls[1..]);
    }
  }

  /**
   No deadlock, exactly when the limit is positive: while a call is unfinished some call, pool
   caller or connector can take a step of its own, except that with a limit of 0 none ever can.
   */
  lemma ProgressIffPermits(cfg: Config, ls: seq<Label>, i: nat)
    requires Legal(cfg, Init(cfg), ls) && i < |After(cfg, Init(cfg), ls).calls|
    requires !After(cfg, Init(cfg), ls).calls[i].phase.Finished?
    ensures (exists l :: Enabled(cfg, After(cfg, Init(cfg), ls), l) && Advances(l)) <==> cfg.limit > 0
  {
    InitKeepsInv(cfg, ls);
    var s := After(cfg, Init(cfg), ls);
    CountPositive(s.calls, Holds);
    if cfg.limit == 0 {
      PoolStaysUnused(cfg, Init(cfg), ls);
      forall l | Enabled(cfg, s, l) ensures !Advances(l) {
        if l.Act? {
          assert !Holds(s.calls[l.call]);
        }
      }
    } else if j :| 0 <= j < |s.calls| && Holds(s.calls[j]) {
      var l := HolderAdvances(cfg, s, j);
    } else {
      assert Enabled(cfg, s, Act(i, Permit)) && Advances(Act(i, Permit));
    }
  }

  /** With a positive limit, a run that cannot advance any further has finished every call. */
  lemma MaximalRunsFinish(cfg: Config, ls: seq<Label>)
    requires Legal(cfg, Init(cfg), ls) && cfg.limit > 0
    requires forall l :: Enabled(cfg, After(cfg, Init(cfg), ls), l) ==> !Advances(l)
    ensures var calls := After(cfg, Init(cfg), ls).calls;
            forall i :: 0 <= i < |calls| ==> calls[i].phase.Finished?
  {
    forall i: nat | i < |After(cfg, Init(cfg), ls).calls|
      ensures After(cfg, Init(cfg), ls).calls[i].phase.Finished?
    {
      if !After(cfg, Init(cfg), ls).calls[i].phase.Finished? {
        ProgressIffPermits(cfg, ls, i);
      }
    }
  }

  // ---------------------------------------------------------------- what permits do not bound

  // n calls came and were abandoned while the first connector is still dialing.
  ghost predicate Abandoned(cfg: Config, s: State, n: nat) {
    && s.permits == cfg.limit
    && |s.calls| == n && |s.pool.callers| == n
    && (if n == 0 then s.pool.slots == map[]
        else Pool.ConnectingAt(s.pool.slots, cfg.remote) && |s.pool.slots[cfg.remote].waiters| == n)
  }

  lemma LegalCons(cfg: Config, s: State, l: Label, ls: seq<Label>)
    requires Enabled(cfg, s, l) && Legal(cfg, Next(cfg, s, l), ls)
    ensures Legal(cfg, s, [l] + ls) && After(cfg, s, [l] + ls) == After(cfg, Next(cfg, s, l), ls)
  {
    assert ([l] + ls)[1..] == ls;
  }

  lemma {:induction false} LegalConcat(cfg: Config, s: State, xs: seq<Label>, ys: seq<Label>)
    requires Legal(cfg, s, xs) && Legal(cfg, After(cfg, s, xs), ys)
    ensures Legal(cfg, s, xs + ys) && After(cfg, s, xs + ys) == After(cfg, After(cfg, s, xs), ys)
    decreases |xs|
  {
    if xs == [] {
      assert xs + ys == ys;
    } else {
      LegalConcat(cfg, Next(cfg, s, xs[0]), xs[1..], ys);
      assert (xs + ys)[0] == xs[0] && (xs + ys)[1..] == xs[1..] + ys;
    }
  }

  // A call that takes a permit, joins the queue and is abandoned there.
  function AbandonedCall(i: nat): seq<Label> {
    [NewCall] + JoiningCall(i)
  }

  function JoiningCall(i: nat): seq<Label> {
    [Act(i, Permit)] + ([Act(i, Ask(i))] + LeavingCall(i))
  }

  function LeavingCall(i: nat): seq<Label> {
    [InThePool(Pool.Look(i))] + ([Act(i, Abandon)] + [])
  }

  // The i-th call is in the pool, about to look up the slot.
  ghost predicate AboutToLook(cfg: Config, s: State, i: nat) {
    && s.permits == cfg.limit - 1
    && |s.calls| == i + 1 && s.calls[i].phase == InPool(0, i)
    && |s.pool.callers| == i + 1 && s.pool.callers[i] == Pool.Caller(cfg.remote, Pool.Locking, 0, None)
    && (if i == 0 then s.pool.slots == map[]
        else Pool.ConnectingAt(s.pool.slots, cfg.remote) && |s.pool.slots[cfg.remote].waiters| == i)
  }

  lemma LeaveOne(cfg: Config, s: State, i: nat)
    requires cfg.limit > 0 && AboutToLook(cfg, s, i)
    ensures Legal(cfg, s, LeavingCall(i)) && Abandoned(cfg, After(cfg, s, LeavingCall(i)), i + 1)
  {
    var looked := Next(cfg, s, InThePool(Pool.Look(i)));
    LegalCons(cfg, looked, Act(i, Abandon), []);
    LegalCons(cfg, s, InThePool(Pool.Look(i)), [Act(i, Abandon)] + []);
  }

  lemma JoinOne(cfg: Config, s: State, i: nat)
    requires cfg.limit > 0 && cfg.policy.maxAttempts > 0
    requires |s.calls| == i + 1 && s.calls[i] == START
    requires Abandoned(cfg, s.(calls := s.calls[..i]), i)
    ensures Legal(cfg, s, JoiningCall(i)) && Abandoned(cfg, After(cfg, s, JoiningCall(i)), i + 1)
  {
    var permitted := Next(cfg, s, Act(i, Permit));
    var asked := Next(cfg, permitted, Act(i, Ask(i)));
    LeaveOne(cfg, asked, i);
    LegalCons(cfg, permitted, Act(i, Ask(i)), LeavingCall(i));
    LegalCons(cfg, s, Act(i, Permit), [Act(i, Ask(i))] + LeavingCall(i));
  }

  lemma AbandonOne(cfg: Config, s: State, i: nat)
    requires cfg.limit > 0 && cfg.policy.maxAttempts > 0 && Abandoned(cfg, s, i)
    ensures Legal(cfg, s, AbandonedCall(i)) && Abandoned(cfg, After(cfg, s, AbandonedCall(i)), i + 1)
  {
    var came := Next(cfg, s, NewCall);
    assert came.calls[..i] == s.calls;
    JoinOne(cfg, came, i);
    LegalCons(cfg, s, NewCall, JoiningCall(i));
  }

  lemma {:induction false} AbandonMany(cfg: Config, n: nat) returns (ls: seq<Label>)
    requires cfg.limit > 0 && cfg.policy.maxAttempts > 0
    ensures Legal(cfg, Init(cfg), ls) && Abandoned(cfg, After(cfg, Init(cfg), ls), n)
  {
    if n == 0 {
      ls := [];
    } else {
      var xs := AbandonMany(cfg, n - 1);
      AbandonOne(cfg, After(cfg, Init(cfg), xs), n - 1);
      LegalConcat(cfg, Init(cfg), xs, AbandonedCall(n - 1));
      ls := xs + AbandonedCall(n - 1);
    }
  }

  /**
   The permits bound the live waiters, not the queue: senders of abandoned calls stay in it, so it
   can be as long as one likes, with every permit free.
   */
  lemma QueueLengthNotBounded(cfg: Config, n: nat)
    requires cfg.limit > 0 && cfg.policy.maxAttempts > 0 && n > 0
    ensures exists ls :: Legal(cfg, Init(cfg), ls)
              && After(cfg, Init(cfg), ls).permits == cfg.limit
              && Pool.ConnectingAt(After(cfg, Init(cfg), ls).pool.slots, cfg.remote)
              && |After(cfg, Init(cfg), ls).pool.slots[cfg.remote].waiters| == n
  {
    var ls := AbandonMany(cfg, n);
  }

  ghost predicate QueueWithin(cfg: Config, s: State, n: nat) {
    Pool.ConnectingAt(s.pool.slots, cfg.remote) ==> |s.pool.slots[cfg.remote].waiters| <= n
  }

  /** The queue stays within the limit in every run exactly when no call can ever get to the pool. */
  lemma QueueBoundedExactlyWhen(cfg: Config)
    ensures (forall ls :: Legal(cfg, Init(cfg), ls) ==> QueueWithin(cfg, After(cfg, Init(cfg), ls), cfg.limit))
            <==> cfg.limit == 0 || cfg.policy.maxAttempts == 0
  {
    if cfg.limit == 0 || cfg.policy.maxAttempts == 0 {
      forall ls | Legal(cfg, Init(cfg), ls) ensures QueueWithin(cfg, After(cfg, Init(cfg), ls), cfg.limit) {
        PoolStaysUnused(cfg, Init(cfg), ls);
      }
    } else {
      var ls := AbandonMany(cfg, cfg.limit + 1);
      assert !QueueWithin(cfg, After(cfg, Init(cfg), ls), cfg.limit);
    }
  }

  // ---------------------------------------------------------------- what is retried

  lemma {:induction false} AsksAreBounded(cfg: Config, s: State, ls: seq<Label>, i: nat)
    requires Inv(cfg, s) && Legal(cfg, s, ls) && i < |s.calls|
    ensures Count(EventsOf(ls, i), IsAsk) <= AsksLeft(cfg.policy, s.calls[i])
    decreases |ls|
  {
    assert CallOk(cfg, s, s.calls[i]);
    if ls == [] {
    } else {
      StepKeepsInv(cfg, s, ls[0]);
      AsksAreBounded(cfg, Next(cfg, s, ls[0]), ls[1..], i);
      if ls[0].Act? && ls[0].call == i {
        AskIsPaidFor(cfg.policy, s.calls[i], ls[0].event);
        CountCons(EventsOf(ls, i), IsAsk);
        assert EventsOf(ls, i)[1..] == EventsOf(ls[1..], i);
      } else {
        assert EventsOf(ls, i) == EventsOf(ls[1..], i);
      }
    }
  }

  function Retrying(i: nat, t: Pool.Ticket): seq<Label> {
    [Act(i, Invalidated)] + ([Act(i, Woke)] + ([Act(i, Ask(t))] + []))
  }

  lemma RetryingAsks(i: nat, t: Pool.Ticket)
    ensures Count(EventsOf(Retrying(i, t), i), IsAsk) > 0
  {
    assert EventsOf([Act(i, Ask(t))] + [], i) == [Ask(t)];
    assert EventsOf([Act(i, Woke)] + ([Act(i, Ask(t))] + []), i) == [Woke, Ask(t)];
    assert EventsOf(Retrying(i, t), i) == [Invalidated, Woke, Ask(t)];
    assert IsAsk(EventsOf(Retrying(i, t), i)[2]);
    CountPositive(EventsOf(Retrying(i, t), i), IsAsk);
  }

  lemma CanRetry(cfg: Config, s: State, i: nat)
    requires i < |s.calls| && s.calls[i].phase.Invalidating? && s.calls[i].lastError.Some?
    requires s.calls[i].phase.attempt + 1 < cfg.policy.maxAttempts
    ensures Legal(cfg, s, Retrying(i, |s.pool.callers|))
  {
    var t := |s.pool.callers|;
    var invalidated := Next(cfg, s, Act(i, Invalidated));
    var woken := Next(cfg, invalidated, Act(i, Woke));
    LegalCons(cfg, woken, Act(i, Ask(t)), []);
    LegalCons(cfg, invalidated, Act(i, Woke), [Act(i, Ask(t))] + []);
    LegalCons(cfg, s, Act(i, Invalidated), [Act(i, Woke)] + ([Act(i, Ask(t))] + []));
  }

  ghost predicate AsksAgain(cfg: Config, s: State, i: nat, ls: seq<Label>) {
    Legal(cfg, s, ls) && Count(EventsOf(ls, i), IsAsk) > 0
  }

  /**
   A failed attempt can be followed by another exactly when it was the pool request or send_request
   that failed, whatever the kind of its error, and attempts remain; any other failure ends the call.
   */
  lemma RetriedExactlyWhen(cfg: Config, ls: seq<Label>, i: nat, e: Event)
    requires Legal(cfg, Init(cfg), ls) && Enabled(cfg, After(cfg, Init(cfg), ls), Act(i, e)) && IsFailure(e)
    ensures var s := Next(cfg, After(cfg, Init(cfg), ls), Act(i, e));
            && ((exists fs :: AsksAgain(cfg, s, i, fs)) <==>
                  IsRetriedFailure(e) && Count(EventsOf(ls, i), IsAsk) < cfg.policy.maxAttempts)
            && (s.calls[i].phase.Finished? <==> !IsRetriedFailure(e))
  {
    var before := After(cfg, Init(cfg), ls);
    var s := Next(cfg, before, Act(i, e));
    InitKeepsInv(cfg, ls);
    StepKeepsInv(cfg, before, Act(i, e));
    assert CallOk(cfg, before, before.calls[i]) && CallOk(cfg, s, s.calls[i]);
    CallReplays(cfg, Init(cfg), ls, i);
    BoundedRetries(cfg.policy, EventsOf(ls, i));
    forall fs | AsksAgain(cfg, s, i, fs) ensures AsksLeft(cfg.policy, s.calls[i]) > 0 {
      AsksAreBounded(cfg, s, fs, i);
    }
    if AsksLeft(cfg.policy, s.calls[i]) > 0 {
      CanRetry(cfg, s, i);
      RetryingAsks(i, |s.pool.callers|);
      assert AsksAgain(cfg, s, i, Retrying(i, |s.pool.callers|));
    }
  }

  lemma EntriesStay(cfg: Config, s: State, ls: seq<Label>, e: Pool.Entry)
    requires Legal(cfg, s, ls) && Pool.CameFrom(s.pool, cfg.remote, e)
    ensures Pool.CameFrom(After(cfg, s, ls).pool, cfg.remote, e)
  {
    ClientRefinesPool(cfg, s, ls);
    var q: nat :| Pool.PublishedBy(s.pool, cfg.remote, e, q);
    PoolTheorems.PublishedStays(s.pool, PoolRun(cfg, s, ls), cfg.remote, e, q);
  }

  // The i-th call has a caller in the pool that is about to look up the slot.
  ghost predicate LooksUp(cfg: Config, s: State, i: nat, t: Pool.Ticket) {
    Ticketed(s, i, t) && Enabled(cfg, s, InThePool(Pool.Look(t)))
  }

  /**
   Which connection a retry gets. After send_request failed on the entry `e`, any later lookup of the
   call leads to `e` again if its connection is still open at that lookup, however often the slot was
   invalidated in between; if it is closed by then, the lookup leads to another one or to an error.
   */
  lemma RetryGetsAnotherExactlyWhen(cfg: Config, ls: seq<Label>, i: nat, text: string,
                                    mid: seq<Label>, looking: State, t: Pool.Ticket,
                                    post: seq<Label>, done: State, res: Pool.Outcome)
    requires Legal(cfg, Init(cfg), ls) && Enabled(cfg, After(cfg, Init(cfg), ls), Act(i, Sent(Some(text))))
    requires var failed := Next(cfg, After(cfg, Init(cfg), ls), Act(i, Sent(Some(text))));
             Legal(cfg, failed, mid) && looking == After(cfg, failed, mid)
    requires LooksUp(cfg, looking, i, t)
    requires var looked := Next(cfg, looking, InThePool(Pool.Look(t)));
             Legal(cfg, looked, post) && done == After(cfg, looked, post)
    requires Ticketed(done, i, t) && Enabled(cfg, done, Act(i, Connected(res)))
    ensures var e := After(cfg, Init(cfg), ls).calls[i].phase.entry;
            && (e.conn !in looking.pool.closed ==> res == Ok(e))
            && (PoolTheorems.NewConnections(done.pool) ==> (res == Ok(e) <==> e.conn !in looking.pool.closed))
  {
    var before := After(cfg, Init(cfg), ls);
    var e := before.calls[i].phase.entry;
    var failed := Next(cfg, before, Act(i, Sent(Some(text))));
    InitKeepsInv(cfg, ls);
    assert CallOk(cfg, before, before.calls[i]);
    StepKeepsInv(cfg, before, Act(i, Sent(Some(text))));
    RunKeepsInv(cfg, failed, mid);
    EntriesStay(cfg, failed, mid, e);
    PoolHalf(cfg, looking, i, t, post, res, e);
  }

  lemma PoolHalf(cfg: Config, s: State, i: nat, t: Pool.Ticket, post: seq<Label>, res: Pool.Outcome, e: Pool.Entry)
    requires Inv(cfg, s) && LooksUp(cfg, s, i, t) && Pool.CameFrom(s.pool, cfg.remote, e)
    requires Legal(cfg, Next(cfg, s, InThePool(Pool.Look(t))), post)
    requires Ticketed(After(cfg, Next(cfg, s, InThePool(Pool.Look(t))), post), i, t)
    requires Enabled(cfg, After(cfg, Next(cfg, s, InThePool(Pool.Look(t))), post), Act(i, Connected(res)))
    ensures var done := After(cfg, Next(cfg, s, InThePool(Pool.Look(t))), post);
            && (e.conn !in s.pool.closed ==> res == Ok(e))
            && (e.conn in s.pool.closed && PoolTheorems.NewConnections(done.pool) ==> res != Ok(e))
  {
    var looked := Next(cfg, s, InThePool(Pool.Look(t)));
    ClientRefinesPool(cfg, looked, post);
    PoolTheorems.LookupLeadsTo(s.pool, t, e, PoolRun(cfg, looked, post), res);
  }
  /** The error with which a pool request of a call fails is the text of a connector's error. */
  lemma ConnectErrorsAreTexts(cfg: Config, ls: seq<Label>, i: nat, err: ClientError)
    requires Legal(cfg, Init(cfg), ls) && Enabled(cfg, After(cfg, Init(cfg), ls), Act(i, Connected(Err(err))))
    ensures err.StreamIo?
    ensures exists r: nat, e :: r < |After(cfg, Init(cfg), ls).pool.rounds|
              && After(cfg, Init(cfg), ls).pool.rounds[r] == Pool.Round(cfg.remote, Pool.Published(Err(e)))
              && err.message == Display(e)
  {
    InitKeepsInv(cfg, ls);
    var s := After(cfg, Init(cfg), ls);
    var t := s.calls[i].phase.ticket;
    assert Ticketed(s, i, t);
    assert Pool.Accounted(s.pool, s.pool.callers[t]);
    PoolTheorems.ErrorSource(s.pool, s.pool.callers[t]);
    var r: nat, e :| PoolTheorems.ErrorCameFrom(s.pool, s.pool.callers[t], r, e);
    assert s.pool.rounds[r] == Pool.Round(cfg.remote, Pool.Published(Err(e)));
  }

  /** After a failed attempt no closed entry is left for the next one. */
  lemma FailureLeavesNoClosedEntry(cfg: Config, ls: seq<Label>, i: nat)
    requires Legal(cfg, Init(cfg), ls) && Enabled(cfg, After(cfg, Init(cfg), ls), Act(i, Invalidated))
    ensures var pool := Next(cfg, After(cfg, Init(cfg), ls), Act(i, Invalidated)).pool;
            cfg.remote in pool.slots && pool.slots[cfg.remote].Ready? ==>
              pool.slots[cfg.remote].entry.conn !in pool.closed
  {
  }
}

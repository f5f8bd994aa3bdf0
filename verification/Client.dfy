/**
 The composed client: any number of calls on the clones of one channel, sharing one permit
 semaphore, one connection pool and one remote address (crates/grpc-quic-client/src/channel.rs
 over pool.rs). Calls, connector tasks and the environment interleave freely.
 */
module Client {
  import opened Common
  import opened Errors
  import opened Retry
  import opened Channel
  import Pool

  datatype Config = Config(policy: RetryPolicy, limit: nat, remote: Pool.Addr)

  datatype State = State(permits: nat, calls: seq<Call>, pool: Pool.State)

  function Init(cfg: Config): State {
    State(cfg.limit, [], Pool.INIT)
  }

  datatype Label =
    | NewCall
    | InThePool(step: Pool.Label)
    | Act(call: nat, event: Event)

  // A permit is held from its acquisition until the call's future completes or is dropped.
  predicate Holds(c: Call) {
    !c.phase.Queued? && !c.phase.Finished?
  }

  predicate LiveCaller(c: Pool.Caller) {
    c.phase.Locking? || c.phase.Waiting?
  }

  // The pool call a client call would cancel by being dropped now.
  predicate Cancels(s: State, c: Call) {
    c.phase.InPool? && c.phase.ticket < |s.pool.callers| && LiveCaller(s.pool.callers[c.phase.ticket])
  }

  // The pool's share of a call's step, if any.
  function PoolPart(cfg: Config, s: State, c: Call, e: Event): Option<Pool.Label> {
    match e
    case Ask(_) => Some(Pool.Arrive(cfg.remote))
    case Invalidated => Some(Pool.Invalidate(cfg.remote))
    case DeadlineFired => if Cancels(s, c) then Some(Pool.Cancel(c.phase.ticket)) else None
    case Abandon => if Cancels(s, c) then Some(Pool.Cancel(c.phase.ticket)) else None
    case _ => None
  }

  ghost predicate Enabled(cfg: Config, s: State, l: Label) {
    match l
    case NewCall => true
    case InThePool(step) =>
      (step.Look? || step.Dial? || step.Publish? || step.Receive? || step.Close?) && Pool.Enabled(s.pool, step)
    case Act(i, e) =>
      && i < |s.calls|
      && Can(cfg.policy, s.calls[i], e)
      && (e.Permit? ==> s.permits > 0)
      && (e.Ask? ==> e.ticket == |s.pool.callers|)
      && (e.Connected? ==>
            && s.calls[i].phase.ticket < |s.pool.callers|
            && s.pool.callers[s.calls[i].phase.ticket].phase == Pool.Returned(e.res))
  }

  ghost function Next(cfg: Config, s: State, l: Label): State
    requires Enabled(cfg, s, l)
  {
    match l
    case NewCall => s.(calls := s.calls + [START])
    case InThePool(step) => s.(pool := Pool.Next(s.pool, step))
    case Act(i, e) =>
      var c := s.calls[i];
      var d := Do(cfg.policy, c, e);
      var step := PoolPart(cfg, s, c, e);
      State(
        if Holds(d) && !Holds(c) then s.permits - 1 else s.permits + Tally(Holds(c) && !Holds(d)),
        s.calls[i := d],
        if step.Some? then Pool.Next(s.pool, step.value) else s.pool)
  }

  ghost predicate Legal(cfg: Config, s: State, ls: seq<Label>)
    decreases |ls|
  {
    ls == [] || (Enabled(cfg, s, ls[0]) && Legal(cfg, Next(cfg, s, ls[0]), ls[1..]))
  }

  ghost function After(cfg: Config, s: State, ls: seq<Label>): State
    requires Legal(cfg, s, ls)
    decreases |ls|
  {
    if ls == [] then s else After(cfg, Next(cfg, s, ls[0]), ls[1..])
  }

  // ---------------------------------------------------------------- the pool inside the client

  function PoolLabels(cfg: Config, s: State, l: Label): seq<Pool.Label> {
    match l
    case NewCall => []
    case InThePool(step) => [step]
    case Act(i, e) =>
      var step := if i < |s.calls| then PoolPart(cfg, s, s.calls[i], e) else None;
      if step.Some? then [step.value] else []
  }

  ghost function PoolRun(cfg: Config, s: State, ls: seq<Label>): seq<Pool.Label>
    requires Legal(cfg, s, ls)
    decreases |ls|
  {
    if ls == [] then [] else PoolLabels(cfg, s, ls[0]) + PoolRun(cfg, Next(cfg, s, ls[0]), ls[1..])
  }

  /** Every run of the client is a run of the pool: whatever holds of all pool runs holds here. */
  lemma {:induction false} ClientRefinesPool(cfg: Config, s: State, ls: seq<Label>)
    requires Legal(cfg, s, ls)
    ensures Pool.Legal(s.pool, PoolRun(cfg, s, ls))
    ensures Pool.After(s.pool, PoolRun(cfg, s, ls)) == After(cfg, s, ls).pool
    decreases |ls|
  {
    if ls == [] {
    } else {
      var s' := Next(cfg, s, ls[0]);
      ClientRefinesPool(cfg, s', ls[1..]);
      var step := PoolLabels(cfg, s, ls[0]);
      var rest := PoolRun(cfg, s', ls[1..]);
      if step == [] {
        assert step + rest == rest;
      } else {
        assert (step + rest)[1..] == rest;
      }
    }
  }

  // ---------------------------------------------------------------- the inductive invariant

  ghost predicate Ticketed(s: State, i: nat, t: Pool.Ticket) {
    i < |s.calls| && s.calls[i].phase.InPool? && s.calls[i].phase.ticket == t
  }

  ghost predicate Tickets(cfg: Config, s: State) {
    && (forall i, t: nat :: Ticketed(s, i, t) ==>
          && t < |s.pool.callers|
          && s.pool.callers[t].addr == cfg.remote
          && !s.pool.callers[t].phase.Cancelled?)
    && (forall i, j, t :: Ticketed(s, i, t) && Ticketed(s, j, t) ==> i == j)
    && (forall t :: 0 <= t < |s.pool.callers| && LiveCaller(s.pool.callers[t]) ==> exists i :: Ticketed(s, i, t))
  }

  ghost predicate CallsOk(cfg: Config, s: State) {
    forall i :: 0 <= i < |s.calls| ==> CallOk(cfg, s, s.calls[i])
  }

  // Errors a call has seen are flattened ones, and the entry it is using came from the pool.
  ghost predicate CallOk(cfg: Config, s: State, c: Call) {
    && CallInv(cfg.policy, c)
    && (forall k :: 0 <= k < |c.errors| ==> c.errors[k].StreamIo?)
    && (c.phase.Sending? ==> Pool.CameFrom(s.pool, cfg.remote, c.phase.entry))
    && (c.phase.Finished? && c.phase.result.Failed? && c.phase.result.error.RetriesExhausted? ==>
          cfg.policy.maxAttempts == 0)
  }

  ghost predicate Inv(cfg: Config, s: State) {
    && Pool.Inv(s.pool)
    && Count(s.calls, Holds) + s.permits == cfg.limit
    && Tickets(cfg, s)
    && CallsOk(cfg, s)
  }

  lemma PoolStepKeepsEntries(s: Pool.State, l: Pool.Label, a: Pool.Addr, e: Pool.Entry)
    requires Pool.Enabled(s, l) && Pool.CameFrom(s, a, e)
    ensures Pool.CameFrom(Pool.Next(s, l), a, e)
  {
    var r :| Pool.PublishedBy(s, a, e, r);
    assert Pool.PublishedBy(Pool.Next(s, l), a, e, r);
  }

  lemma PoolKeepsCalls(cfg: Config, s: State, l: Label)
    requires Inv(cfg, s) && Enabled(cfg, s, l)
    ensures Pool.Inv(Next(cfg, s, l).pool)
    ensures forall c :: CallOk(cfg, s, c) ==> CallOk(cfg, Next(cfg, s, l), c)
  {
    var step := PoolLabels(cfg, s, l);
    if step != [] {
      Pool.StepKeepsInv(s.pool, step[0]);
      forall c | CallOk(cfg, s, c) ensures CallOk(cfg, Next(cfg, s, l), c) {
        if c.phase.Sending? {
          PoolStepKeepsEntries(s.pool, step[0], cfg.remote, c.phase.entry);
        }
      }
    }
  }

  // A pool step moves callers forward but never makes a settled one live again.
  lemma PoolCallerMoves(s: Pool.State, l: Pool.Label, t: Pool.Ticket)
    requires Pool.Inv(s) && Pool.Enabled(s, l) && t < |s.callers|
    ensures var s' := Pool.Next(s, l);
            && |s'.callers| == |s.callers| + Tally(l.Arrive?)
            && s'.callers[t].addr == s.callers[t].addr
            && (LiveCaller(s'.callers[t]) ==> LiveCaller(s.callers[t]))
            && (s'.callers[t].phase.Cancelled? ==> s.callers[t].phase.Cancelled? || l == Pool.Cancel(t))
            && (l == Pool.Cancel(t) ==> !LiveCaller(s'.callers[t]))
  {
    if l.Publish? {
      Pool.PublishCallers(s, l.round, t);
    }
  }

  lemma PoolStepKeepsTickets(cfg: Config, s: State, step: Pool.Label)
    requires Inv(cfg, s) && Enabled(cfg, s, InThePool(step))
    ensures Tickets(cfg, Next(cfg, s, InThePool(step)))
  {
    var s' := Next(cfg, s, InThePool(step));
    assert forall i, t :: Ticketed(s', i, t) <==> Ticketed(s, i, t);
    forall t | 0 <= t < |s.pool.callers|
      ensures s'.pool.callers[t].addr == s.pool.callers[t].addr
      ensures LiveCaller(s'.pool.callers[t]) ==> LiveCaller(s.pool.callers[t])
      ensures s'.pool.callers[t].phase.Cancelled? ==> s.pool.callers[t].phase.Cancelled?
    {
      PoolCallerMoves(s.pool, step, t);
    }
  }

  // Every call but the acting one keeps its ticket.
  lemma ActTickets(cfg: Config, s: State, l: Label, j: nat, t: Pool.Ticket)
    requires CallsOk(cfg, s) && Enabled(cfg, s, l) && l.Act?
    ensures var s' := Next(cfg, s, l);
            Ticketed(s', j, t) <==>
              if j == l.call then l.event == Ask(t) else Ticketed(s, j, t)
  {
    assert CallOk(cfg, s, s.calls[l.call]);
  }

  // A call leaves the pool only once its caller there is no longer live.
  lemma ActMovesCaller(cfg: Config, s: State, i: nat, e: Event, t: Pool.Ticket)
    requires Inv(cfg, s) && Enabled(cfg, s, Act(i, e)) && t < |s.pool.callers|
    ensures var s' := Next(cfg, s, Act(i, e));
            && |s'.pool.callers| == |s.pool.callers| + Tally(e.Ask?)
            && s'.pool.callers[t].addr == s.pool.callers[t].addr
            && (LiveCaller(s'.pool.callers[t]) ==> LiveCaller(s.pool.callers[t]) && !Ticketed(s, i, t))
            && (s'.pool.callers[t].phase.Cancelled? ==> s.pool.callers[t].phase.Cancelled? || Ticketed(s, i, t))
  {
    var step := PoolPart(cfg, s, s.calls[i], e);
    if step.Some? {
      PoolCallerMoves(s.pool, step.value, t);
    }
  }

  lemma ActKeepsTickets(cfg: Config, s: State, i: nat, e: Event)
    requires Inv(cfg, s) && Enabled(cfg, s, Act(i, e))
    ensures Tickets(cfg, Next(cfg, s, Act(i, e)))
  {
    var s' := Next(cfg, s, Act(i, e));
    forall j: nat, t: nat | Ticketed(s', j, t)
      ensures t < |s'.pool.callers| && s'.pool.callers[t].addr == cfg.remote && !s'.pool.callers[t].phase.Cancelled?
      ensures forall k :: Ticketed(s', k, t) ==> k == j
    {
      ActTicketValid(cfg, s, i, e, j, t);
    }
    forall t: nat | t < |s'.pool.callers| && LiveCaller(s'.pool.callers[t])
      ensures exists j :: Ticketed(s', j, t)
    {
      if t < |s.pool.callers| {
        ActMovesCaller(cfg, s, i, e, t);
        var j :| Ticketed(s, j, t);
        ActTickets(cfg, s, Act(i, e), j, t);
        assert Ticketed(s', j, t);
      } else {
        ActAddsCaller(cfg, s, i, e);
        assert Ticketed(s', i, t);
      }
    }
  }

  lemma ActAddsCaller(cfg: Config, s: State, i: nat, e: Event)
    requires Enabled(cfg, s, Act(i, e))
    ensures var n, s' := |s.pool.callers|, Next(cfg, s, Act(i, e));
            if e.Ask? then |s'.pool.callers| == n + 1 && s'.pool.callers[n].addr == cfg.remote
                           && s'.pool.callers[n].phase.Locking? && Ticketed(s', i, n)
            else |s'.pool.callers| == n
  {
  }

  lemma ActTicketValid(cfg: Config, s: State, i: nat, e: Event, j: nat, t: nat)
    requires Inv(cfg, s) && Enabled(cfg, s, Act(i, e))
    requires Ticketed(Next(cfg, s, Act(i, e)), j, t)
    ensures var s' := Next(cfg, s, Act(i, e));
            && t < |s'.pool.callers| && s'.pool.callers[t].addr == cfg.remote
            && !s'.pool.callers[t].phase.Cancelled?
            && forall k :: Ticketed(s', k, t) ==> k == j
  {
    var s' := Next(cfg, s, Act(i, e));
    ActAddsCaller(cfg, s, i, e);
    ActTickets(cfg, s, Act(i, e), j, t);
    forall k ensures Ticketed(s', k, t) <==> if k == i then e == Ask(t) else Ticketed(s, k, t) {
      ActTickets(cfg, s, Act(i, e), k, t);
    }
    if j != i {
      ActMovesCaller(cfg, s, i, e, t);
    }
  }

  // A connect error reaching a call was flattened by the pool; a connect success was published.
  lemma ConnectedFromPool(cfg: Config, s: State, i: nat, res: Pool.Outcome)
    requires Inv(cfg, s) && Enabled(cfg, s, Act(i, Connected(res)))
    ensures res.Err? ==> res.error.StreamIo?
    ensures res.Ok? ==> Pool.CameFrom(s.pool, cfg.remote, res.value)
  {
    var t := s.calls[i].phase.ticket;
    assert Ticketed(s, i, t);
    assert Pool.Accounted(s.pool, s.pool.callers[t]);
  }

  lemma ActKeepsCall(cfg: Config, s: State, i: nat, e: Event)
    requires Inv(cfg, s) && Enabled(cfg, s, Act(i, e))
    ensures CallOk(cfg, s, Do(cfg.policy, s.calls[i], e))
  {
    StepKeepsCallInv(cfg.policy, s.calls[i], e);
    assert CallOk(cfg, s, s.calls[i]);
    if e.Connected? {
      ConnectedFromPool(cfg, s, i, e.res);
    }
  }

  lemma CallOkByPool(cfg: Config, s: State, s': State, c: Call)
    requires CallOk(cfg, s, c) && s.pool == s'.pool
    ensures CallOk(cfg, s', c)
  {
  }

  lemma NewCallKeepsCalls(cfg: Config, s: State)
    requires CallsOk(cfg, s)
    ensures CallsOk(cfg, Next(cfg, s, NewCall))
  {
    var s' := Next(cfg, s, NewCall);
    forall i | 0 <= i < |s'.calls| ensures CallOk(cfg, s', s'.calls[i]) {
      if i < |s.calls| {
        CallOkByPool(cfg, s, s', s.calls[i]);
      }
    }
  }

  lemma NewCallKeepsTickets(cfg: Config, s: State)
    requires Tickets(cfg, s)
    ensures Tickets(cfg, Next(cfg, s, NewCall))
  {
    var s' := Next(cfg, s, NewCall);
    assert forall i, t :: Ticketed(s', i, t) <==> Ticketed(s, i, t);
  }

  lemma NewCallKeepsInv(cfg: Config, s: State)
    requires Inv(cfg, s)
    ensures Inv(cfg, Next(cfg, s, NewCall))
  {
    CountAppend(s.calls, START, Holds);
    NewCallKeepsCalls(cfg, s);
    NewCallKeepsTickets(cfg, s);
  }

  lemma ActKeepsInv(cfg: Config, s: State, i: nat, e: Event)
    requires Inv(cfg, s) && Enabled(cfg, s, Act(i, e))
    ensures Inv(cfg, Next(cfg, s, Act(i, e)))
  {
    var s' := Next(cfg, s, Act(i, e));
    PoolKeepsCalls(cfg, s, Act(i, e));
    ActKeepsTickets(cfg, s, i, e);
    ActKeepsCall(cfg, s, i, e);
    CountUpdate(s.calls, i, s'.calls[i], Holds);
    if Holds(s.calls[i]) {
      CountPositive(s.calls, Holds);
    }
  }

  lemma StepKeepsInv(cfg: Config, s: State, l: Label)
    requires Inv(cfg, s) && Enabled(cfg, s, l)
    ensures Inv(cfg, Next(cfg, s, l))
  {
    match l
    case NewCall =>
      NewCallKeepsInv(cfg, s);
    case InThePool(step) =>
      PoolKeepsCalls(cfg, s, l);
      PoolStepKeepsTickets(cfg, s, step);
    case Act(i, e) =>
      ActKeepsInv(cfg, s, i, e);
  }

  lemma {:induction false} RunKeepsInv(cfg: Config, s: State, ls: seq<Label>)
    requires Inv(cfg, s) && Legal(cfg, s, ls)
    ensures Inv(cfg, After(cfg, s, ls))
    decreases |ls|
  {
    if ls == [] {
    } else {
      StepKeepsInv(cfg, s, ls[0]);
      RunKeepsInv(cfg, Next(cfg, s, ls[0]), ls[1..]);
    }
  }
}

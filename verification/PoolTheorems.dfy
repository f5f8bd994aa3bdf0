/**
 What the pool guarantees over every run from the empty pool: every interleaving of
 callers, connector tasks, closing connections, cancellations and invalidations.
 */
module PoolTheorems {
  import opened Common
  import opened Errors
  import opened Pool

  // What a round can be, seen from an address.
  predicate Succeeded(rd: Round, a: Addr) {
    rd.addr == a && rd.stage.Published? && rd.stage.res.Ok?
  }

  predicate Open(rd: Round, a: Addr, closed: set<Conn>) {
    Succeeded(rd, a) && rd.stage.res.value.conn !in closed
  }

  function ForAddr(a: Addr): Round -> bool {
    (rd: Round) => rd.addr == a
  }

  function LiveAt(a: Addr): Round -> bool {
    (rd: Round) => rd.addr == a && Live(rd)
  }

  function PublishedAt(a: Addr): Round -> bool {
    (rd: Round) => rd.addr == a && rd.stage.Published?
  }

  function SucceededAt(a: Addr): Round -> bool {
    (rd: Round) => Succeeded(rd, a)
  }

  function FailedAt(a: Addr): Round -> bool {
    (rd: Round) => rd.addr == a && rd.stage.Published? && rd.stage.res.Err?
  }

  function SpentAt(a: Addr, closed: set<Conn>): Round -> bool {
    (rd: Round) => Succeeded(rd, a) && rd.stage.res.value.conn in closed
  }

  function OpenAt(a: Addr, closed: set<Conn>): Round -> bool {
    (rd: Round) => Open(rd, a, closed)
  }

  function UnresolvedOrOpenAt(a: Addr, closed: set<Conn>): Round -> bool {
    (rd: Round) => (rd.addr == a && Live(rd)) || Open(rd, a, closed)
  }

  lemma InitKeepsInv(ls: seq<Label>)
    requires Legal(INIT, ls)
    ensures Inv(After(INIT, ls))
  {
    RunKeepsInv(INIT, ls);
  }

  /** One live connector per Connecting slot, none otherwise; publishing finds its own slot. */
  lemma SingleFlight(ls: seq<Label>, a: Addr)
    requires Legal(INIT, ls)
    ensures var s := After(INIT, ls);
            && Count(s.rounds, LiveAt(a)) == (if ConnectingAt(s.slots, a) then 1 else 0)
            && forall r: nat :: Enabled(s, Publish(r)) ==> ConnectingAt(s.slots, s.rounds[r].addr)
  {
    InitKeepsInv(ls);
    LiveCount(After(INIT, ls), a);
    forall r: nat | Enabled(After(INIT, ls), Publish(r))
      ensures ConnectingAt(After(INIT, ls).slots, After(INIT, ls).rounds[r].addr)
    {
      PublishFindsConnecting(After(INIT, ls), r);
    }
  }

  lemma LiveCount(s: State, a: Addr)
    requires Inv(s)
    ensures Count(s.rounds, LiveAt(a)) == if ConnectingAt(s.slots, a) then 1 else 0
  {
    CountAtMostOne(s.rounds, LiveAt(a));
    CountPositive(s.rounds, LiveAt(a));
    assert forall r :: 0 <= r < |s.rounds| && LiveAt(a)(s.rounds[r]) ==> LiveFor(s, a, r);
    if ConnectingAt(s.slots, a) {
      var r: nat :| LiveFor(s, a, r);
      assert LiveAt(a)(s.rounds[r]);
    }
  }

  /**
   Of all entries ever published for an address at most one is open. When a later round for
   the address exists, even unfinished, every earlier entry is closed; and the open one, if
   there is one, is the one in the slot.
   */
  lemma UniqueOpenEntry(ls: seq<Label>, a: Addr)
    requires Legal(INIT, ls)
    ensures var s := After(INIT, ls);
            && Count(s.rounds, OpenAt(a, s.closed)) <= 1
            && (forall e, i: nat, j: nat ::
                  PublishedBy(s, a, e, i) && i < j < |s.rounds| && s.rounds[j].addr == a ==> e.conn in s.closed)
            && (forall e, i :: PublishedBy(s, a, e, i) && e.conn !in s.closed ==>
                  a in s.slots && s.slots[a] == Ready(e))
  {
    InitKeepsInv(ls);
    var s := After(INIT, ls);
    PendingOrOpenOnce(s, a);
    CountSplit(s.rounds, UnresolvedOrOpenAt(a, s.closed), LiveAt(a), OpenAt(a, s.closed));
  }

  lemma PendingOrOpenOnce(s: State, a: Addr)
    requires Inv(s)
    ensures Count(s.rounds, UnresolvedOrOpenAt(a, s.closed)) <= 1
  {
    var p := UnresolvedOrOpenAt(a, s.closed);
    forall i, j | 0 <= i < j < |s.rounds| && p(s.rounds[i]) && p(s.rounds[j]) ensures false {
      assert PublishedBy(s, a, s.rounds[i].stage.res.value, i);
    }
    CountAtMostOne(s.rounds, p);
  }

  /**
   A lookup dials if and only if, in the whole history of its address, no connector is still
   running and no published entry is still open. It returns at once if and only if an entry is
   open, and then with that entry; otherwise it waits, behind all who waited before.
   */
  lemma LookupByHistory(ls: seq<Label>, t: Ticket)
    requires Legal(INIT, ls) && Enabled(After(INIT, ls), Look(t))
    ensures var s := After(INIT, ls);
            var s' := Next(s, Look(t));
            var a := s.callers[t].addr;
            var phase := s'.callers[t].phase;
            && (|s'.rounds| > |s.rounds| <==> Count(s.rounds, UnresolvedOrOpenAt(a, s.closed)) == 0)
            && (phase.Returned? <==> Count(s.rounds, OpenAt(a, s.closed)) == 1)
            && (phase.Returned? ==> phase.outcome.Ok? && phase.outcome.value.conn !in s.closed
                                    && CameFrom(s, a, phase.outcome.value))
            && (!phase.Returned? ==>
                  && phase.Waiting?
                  && ConnectingAt(s'.slots, a)
                  && s'.slots[a].waiters == (if ConnectingAt(s.slots, a) then s.slots[a].waiters else []) + [t])
  {
    InitKeepsInv(ls);
    var s := After(INIT, ls);
    var a := s.callers[t].addr;
    SlotByHistory(s, a);
    UniqueOpenEntry(ls, a);
    CountSplit(s.rounds, UnresolvedOrOpenAt(a, s.closed), LiveAt(a), OpenAt(a, s.closed));
    LiveCount(s, a);
  }

  // The slot says what the history says.
  lemma SlotByHistory(s: State, a: Addr)
    requires Inv(s)
    ensures Count(s.rounds, LiveAt(a)) > 0 <==> ConnectingAt(s.slots, a)
    ensures Count(s.rounds, OpenAt(a, s.closed)) > 0 <==>
            a in s.slots && s.slots[a].Ready? && s.slots[a].entry.conn !in s.closed
  {
    LiveCount(s, a);
    CountPositive(s.rounds, OpenAt(a, s.closed));
    if a in s.slots && s.slots[a].Ready? && s.slots[a].entry.conn !in s.closed {
      var r: nat :| PublishedBy(s, a, s.slots[a].entry, r);
      assert OpenAt(a, s.closed)(s.rounds[r]);
    } else {
      forall r: nat | r < |s.rounds| ensures !OpenAt(a, s.closed)(s.rounds[r]) {
        if Open(s.rounds[r], a, s.closed) {
          assert PublishedBy(s, a, s.rounds[r].stage.res.value, r);
        }
      }
    }
  }

  /** After `invalidate` an address has a slot exactly when it is of use to the next caller. */
  lemma InvalidateKeepsTheUseful(ls: seq<Label>, a: Addr)
    requires Legal(INIT, ls)
    ensures var s := After(INIT, ls);
            var s' := Next(s, Invalidate(a));
            && (a in s'.slots <==> Count(s.rounds, UnresolvedOrOpenAt(a, s.closed)) > 0)
            && (forall b :: b != a ==>
                  (b in s'.slots <==> b in s.slots) && (b in s.slots ==> s'.slots[b] == s.slots[b]))
  {
    InitKeepsInv(ls);
    var s := After(INIT, ls);
    SlotByHistory(s, a);
    CountSplit(s.rounds, UnresolvedOrOpenAt(a, s.closed), LiveAt(a), OpenAt(a, s.closed));
  }

  ghost predicate Blocked(s: State, a: Addr, t: Ticket) {
    t < |s.callers| && s.callers[t].addr == a && s.callers[t].phase.Waiting? && s.callers[t].inbox.None?
  }

  ghost predicate QueuedAlive(s: State, a: Addr, t: Ticket) {
    && ConnectingAt(s.slots, a)
    && t in s.slots[a].waiters
    && t < |s.callers|
    && !s.callers[t].phase.Cancelled?
  }

  /**
   The callers blocked on an address are exactly the uncancelled senders in its queue, which
   names nobody twice; each of them still has a connector working for it; nobody is ever sent
   to twice; and the "connection task cancelled" fallback is never what a caller gets.
   */
  lemma NoLostWakeup(ls: seq<Label>)
    requires Legal(INIT, ls)
    ensures var s := After(INIT, ls);
            && (forall a, t :: Blocked(s, a, t) <==> QueuedAlive(s, a, t))
            && (forall a :: ConnectingAt(s.slots, a) ==> NoDup(s.slots[a].waiters))
            && (forall a, t :: Blocked(s, a, t) ==> exists r :: LiveFor(s, a, r))
            && (forall t :: 0 <= t < |s.callers| ==> s.callers[t].sends <= 1)
            && (forall t :: 0 <= t < |s.callers| && s.callers[t].phase.Returned? ==>
                  s.callers[t].phase.outcome != TASK_CANCELLED)
  {
    InitKeepsInv(ls);
    var s := After(INIT, ls);
    forall a, t ensures Blocked(s, a, t) <==> QueuedAlive(s, a, t) {
      if QueuedAlive(s, a, t) {
        assert QueuedCaller(s, a, t);
      }
    }
    assert forall t :: 0 <= t < |s.callers| ==> Accounted(s, s.callers[t]);
    forall t | 0 <= t < |s.callers| && s.callers[t].phase.Returned?
      ensures s.callers[t].phase.outcome != TASK_CANCELLED
    {
      if s.callers[t].inbox.Some? {
        AnswerIsNotTheFallback(s.rounds[s.callers[t].inbox.value.round].stage.res);
      }
    }
  }

  lemma AnswerIsNotTheFallback(res: Outcome)
    ensures Answer(res) != TASK_CANCELLED
  {
    if res.Err? {
      assert Display(res.error)[1] != "connection task cancelled"[1] || Display(res.error)[0] != 'c';
    }
  }

  // What a caller learns of a connector's outcome: the entry itself, or the text of the error.
  ghost predicate Tells(got: Outcome, res: Outcome) {
    match res
    case Ok(e) => got == Ok(e)
    case Err(e) => got.Err? && got.error.StreamIo? && got.error.message == Display(e)
  }

  /**
   Publishing answers every queued sender exactly once, in the order of the queue, and leaves nobody
   queued; on success the entry they get is the one left in the slot, on failure they get the text of
   the connector's error and the slot is gone.
   */
  lemma PublishAnswersAll(ls: seq<Label>, r: nat)
    requires Legal(INIT, ls) && Enabled(After(INIT, ls), Publish(r))
    ensures var s := After(INIT, ls);
            var s' := Next(s, Publish(r));
            var a := s.rounds[r].addr;
            && ConnectingAt(s.slots, a) && !ConnectingAt(s'.slots, a)
            && (var sends := PublishSends(s.slots, a, s.rounds[r].stage.res);
                |sends| == |s.slots[a].waiters|
                && forall i :: 0 <= i < |sends| ==> sends[i].0 == s.slots[a].waiters[i])
            && (forall t :: 0 <= t < |s.callers| ==>
                  s'.callers[t].sends == s.callers[t].sends + if t in s.slots[a].waiters then 1 else 0)
            && (forall t: nat :: Blocked(s, a, t) ==>
                  && s'.callers[t].inbox.Some?
                  && s'.callers[t].inbox.value.round == r
                  && Tells(s'.callers[t].inbox.value.outcome, s.rounds[r].stage.res))
            && (forall t :: !Blocked(s', a, t))
            && (match s.rounds[r].stage.res
                case Ok(e) => a in s'.slots && s'.slots[a] == Ready(e)
                case Err(_) => a !in s'.slots)
  {
    InitKeepsInv(ls);
    var s := After(INIT, ls);
    var a := s.rounds[r].addr;
    StepKeepsInv(s, Publish(r));
    PublishFindsConnecting(s, r);
    forall t | 0 <= t < |s.callers|
      ensures Next(s, Publish(r)).callers[t] ==
              if t in s.slots[a].waiters then Sent(s.callers[t], r, Answer(s.rounds[r].stage.res)) else s.callers[t]
    {
      PublishCallers(s, r, t);
    }
  }

  /**
   All callers answered by one round hold the same outcome; every entry a caller ends up with was
   published for the caller's own address by a connector for that address, and every error is the
   text of that of such a connector.
   */
  lemma AgreementAndProvenance(ls: seq<Label>)
    requires Legal(INIT, ls)
    ensures var s := After(INIT, ls);
            && (forall t, u :: 0 <= t < |s.callers| && 0 <= u < |s.callers|
                  && s.callers[t].inbox.Some? && s.callers[u].inbox.Some?
                  && s.callers[t].inbox.value.round == s.callers[u].inbox.value.round
                  ==> s.callers[t].inbox.value.outcome == s.callers[u].inbox.value.outcome)
            && (forall t :: 0 <= t < |s.callers| && s.callers[t].phase.Returned? && s.callers[t].phase.outcome.Ok? ==>
                  CameFrom(s, s.callers[t].addr, s.callers[t].phase.outcome.value))
            && (forall t :: 0 <= t < |s.callers| && s.callers[t].phase.Returned? && s.callers[t].phase.outcome.Err? ==>
                  exists r, e :: ErrorCameFrom(s, s.callers[t], r, e))
            && (forall a :: a in s.slots && s.slots[a].Ready? ==> CameFrom(s, a, s.slots[a].entry))
  {
    InitKeepsInv(ls);
    var s := After(INIT, ls);
    assert forall t :: 0 <= t < |s.callers| ==> Accounted(s, s.callers[t]);
    forall t | 0 <= t < |s.callers| && s.callers[t].phase.Returned? && s.callers[t].phase.outcome.Err?
      ensures exists r, e :: ErrorCameFrom(s, s.callers[t], r, e)
    {
      ErrorSource(s, s.callers[t]);
    }
  }

  // The caller's error is the text of e, with which round r ended for its address.
  ghost predicate ErrorCameFrom(s: State, c: Caller, r: nat, e: ClientError) {
    && r < |s.rounds| && s.rounds[r] == Round(c.addr, Published(Err(e)))
    && c.phase.Returned? && Tells(c.phase.outcome, Err(e))
  }

  lemma ErrorSource(s: State, c: Caller)
    requires Accounted(s, c) && c.phase.Returned? && c.phase.outcome.Err?
    ensures exists r, e :: ErrorCameFrom(s, c, r, e)
  {
    var r := c.inbox.value.round;
    assert ErrorCameFrom(s, c, r, s.rounds[r].stage.res.error);
  }

  /** Round accounting, and the price of a reconnect: a failure or a closed entry. */
  lemma RoundAccounting(ls: seq<Label>, a: Addr)
    requires Legal(INIT, ls)
    ensures var s := After(INIT, ls);
            && Count(s.rounds, ForAddr(a)) ==
               Count(s.rounds, SucceededAt(a)) + Count(s.rounds, FailedAt(a))
               + (if ConnectingAt(s.slots, a) then 1 else 0)
            && Count(s.rounds, ForAddr(a)) <=
               1 + Count(s.rounds, FailedAt(a)) + Count(s.rounds, SpentAt(a, s.closed))
  {
    InitKeepsInv(ls);
    var s := After(INIT, ls);
    LiveCount(s, a);
    CountSplit(s.rounds, ForAddr(a), PublishedAt(a), LiveAt(a));
    CountSplit(s.rounds, PublishedAt(a), SucceededAt(a), FailedAt(a));
    CountSplit(s.rounds, SucceededAt(a), SpentAt(a, s.closed), OpenAt(a, s.closed));
    CountSplit(s.rounds, UnresolvedOrOpenAt(a, s.closed), LiveAt(a), OpenAt(a, s.closed));
    PendingOrOpenOnce(s, a);
  }

  // ---------------------------------------------------------------- which entry a lookup leads to

  lemma {:induction false} PublishedStays(s: State, ls: seq<Label>, a: Addr, e: Entry, q: nat)
    requires Legal(s, ls) && PublishedBy(s, a, e, q)
    ensures PublishedBy(After(s, ls), a, e, q)
    decreases |ls|
  {
    if ls == [] {
    } else {
      PublishedStays(Next(s, ls[0]), ls[1..], a, e, q);
    }
  }

  // Neither has the caller its answer from round q, nor will it get one from there.
  ghost predicate AnsweredElsewhere(s: State, t: Ticket, q: nat) {
    && t < |s.callers| && q < |s.rounds| && s.rounds[q].stage.Published?
    && var c := s.callers[t];
    && !c.phase.Locking?
    && (c.phase.Returned? ==> c.inbox.Some?)
    && (c.inbox.Some? ==> c.inbox.value.round != q)
  }

  lemma StepAnswersElsewhere(s: State, l: Label, t: Ticket, q: nat)
    requires Inv(s) && Enabled(s, l) && AnsweredElsewhere(s, t, q)
    ensures AnsweredElsewhere(Next(s, l), t, q)
  {
    if l.Publish? {
      PublishCallers(s, l.round, t);
    } else if l == Receive(t) {
      NeverOrphaned(s, t);
    }
  }

  lemma {:induction false} RunAnswersElsewhere(s: State, ls: seq<Label>, t: Ticket, q: nat)
    requires Inv(s) && Legal(s, ls) && AnsweredElsewhere(s, t, q)
    ensures AnsweredElsewhere(After(s, ls), t, q)
    decreases |ls|
  {
    if ls == [] {
    } else {
      StepKeepsInv(s, ls[0]);
      StepAnswersElsewhere(s, ls[0], t, q);
      RunAnswersElsewhere(Next(s, ls[0]), ls[1..], t, q);
    }
  }

  lemma {:induction false} ReturnedStays(s: State, ls: seq<Label>, t: Ticket)
    requires Inv(s) && Legal(s, ls) && t < |s.callers| && s.callers[t].phase.Returned?
    ensures t < |After(s, ls).callers| && After(s, ls).callers[t].phase == s.callers[t].phase
    decreases |ls|
  {
    if ls == [] {
    } else {
      StepKeepsInv(s, ls[0]);
      if ls[0].Publish? {
        PublishCallers(s, ls[0].round, t);
      }
      ReturnedStays(Next(s, ls[0]), ls[1..], t);
    }
  }

  // No two connectors came up with the same connection.
  ghost predicate NewConnections(s: State) {
    forall a, b, e, i, j :: PublishedBy(s, a, e, i) && PublishedBy(s, b, e, j) ==> i == j
  }

  // A lookup that returns at once returns an open entry; the others are answered by a later round.
  lemma LookupMisses(s: State, t: Ticket, e: Entry, q: nat, ls: seq<Label>, res: Outcome)
    requires Inv(s) && Enabled(s, Look(t)) && PublishedBy(s, s.callers[t].addr, e, q) && e.conn in s.closed
    requires Legal(Next(s, Look(t)), ls) && t < |After(Next(s, Look(t)), ls).callers|
    requires After(Next(s, Look(t)), ls).callers[t].phase == Returned(res)
    requires NewConnections(After(Next(s, Look(t)), ls))
    ensures res != Ok(e)
  {
    var looked := Next(s, Look(t));
    var done := After(looked, ls);
    assert Accounted(s, s.callers[t]);
    StepKeepsInv(s, Look(t));
    if looked.callers[t].phase.Returned? {
      ReturnedStays(looked, ls, t);
    } else {
      RunAnswersElsewhere(looked, ls, t, q);
      RunKeepsInv(looked, ls);
      PublishedStays(looked, ls, s.callers[t].addr, e, q);
      assert Accounted(done, done.callers[t]);
      var d := done.callers[t].inbox.value;
      assert res == Ok(e) ==> PublishedBy(done, done.callers[t].addr, e, d.round);
    }
  }

  /**
   A caller looking up an address for which `e` was published once gets `e` if it is still open at
   the lookup, and otherwise does not, unless a connector comes up with the same connection again.
   */
  lemma LookupLeadsTo(s: State, t: Ticket, e: Entry, ls: seq<Label>, res: Outcome)
    requires Inv(s) && Enabled(s, Look(t)) && CameFrom(s, s.callers[t].addr, e)
    requires Legal(Next(s, Look(t)), ls) && t < |After(Next(s, Look(t)), ls).callers|
    requires After(Next(s, Look(t)), ls).callers[t].phase == Returned(res)
    ensures e.conn !in s.closed ==> res == Ok(e)
    ensures e.conn in s.closed && NewConnections(After(Next(s, Look(t)), ls)) ==> res != Ok(e)
  {
    var q: nat :| PublishedBy(s, s.callers[t].addr, e, q);
    StepKeepsInv(s, Look(t));
    if e.conn !in s.closed {
      ReturnedStays(Next(s, Look(t)), ls, t);
    } else if NewConnections(After(Next(s, Look(t)), ls)) {
      LookupMisses(s, t, e, q, ls, res);
    }
  }
}

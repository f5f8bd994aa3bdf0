/**
 The single-flight connection pool (crates/grpc-quic-client/src/pool.rs).

 The first part gives each lock-protected block as a function on the map of slots.
 The second part is the concurrent system: callers, spawned connector tasks, closing
 connections, cancellations and invalidations interleave freely, one block at a time.
 */
module Pool {
  import opened Common
  import opened Errors

  // Only equality of addresses and of connections is ever used.
  type Addr = nat
  type Conn = nat

  // Names one get_or_connect call, and with it the oneshot channel that call may create.
  type Ticket = nat

  datatype Entry = Entry(conn: Conn)
  type Outcome = Result<Entry, ClientError>

  datatype Slot = Connecting(waiters: seq<Ticket>) | Ready(entry: Entry)
  type Slots = map<Addr, Slot>

  datatype Found = Hit(entry: Entry) | Joined | Started

  predicate ConnectingAt(slots: Slots, a: Addr) {
    a in slots && slots[a].Connecting?
  }

  function LookupFound(slots: Slots, a: Addr, closed: set<Conn>): Found {
    if ConnectingAt(slots, a) then Joined
    else if a in slots && slots[a].entry.conn !in closed then Hit(slots[a].entry)
    else Started
  }

  function LookupSlots(slots: Slots, a: Addr, t: Ticket, closed: set<Conn>): Slots {
    match LookupFound(slots, a, closed)
    case Hit(_) => slots
    case Joined => slots[a := Connecting(slots[a].waiters + [t])]
    case Started => slots[a := Connecting([t])]
  }

  // What the publishing task sends to every waiter: errors are flattened to their text.
  function Answer(res: Outcome): Outcome {
    match res
    case Ok(e) => Ok(e)
    case Err(e) => Err(StreamIo(Display(e)))
  }

  // `map.remove` takes the slot out whatever it is; only a Connecting slot is acted on.
  function PublishSlots(slots: Slots, a: Addr, res: Outcome): Slots {
    if ConnectingAt(slots, a) && res.Ok? then slots[a := Ready(res.value)] else slots - {a}
  }

  function PublishSends(slots: Slots, a: Addr, res: Outcome): seq<(Ticket, Outcome)> {
    if ConnectingAt(slots, a) then Addressed(slots[a].waiters, Answer(res)) else []
  }

  function Addressed(ws: seq<Ticket>, o: Outcome): (sends: seq<(Ticket, Outcome)>)
    ensures |sends| == |ws|
    ensures forall i :: 0 <= i < |ws| ==> sends[i] == (ws[i], o)
  {
    seq(|ws|, i requires 0 <= i < |ws| => (ws[i], o))
  }

  function InvalidateSlots(slots: Slots, a: Addr, closed: set<Conn>): Slots {
    if a in slots && slots[a].Ready? && slots[a].entry.conn in closed then slots - {a} else slots
  }

  // ---------------------------------------------------------------- the concurrent system

  datatype Stage = Dialing | Dialed(res: Outcome) | Published(res: Outcome)

  // One spawned connector task. Rounds are never removed, so `rounds` is also the history.
  datatype Round = Round(addr: Addr, stage: Stage)

  datatype Delivery = Delivery(round: nat, outcome: Outcome)

  datatype Phase = Locking | Waiting | Returned(outcome: Outcome) | Cancelled

  // `sends` counts every send on the caller's channel, whether or not it is still alive.
  datatype Caller = Caller(addr: Addr, phase: Phase, sends: nat, inbox: Option<Delivery>)

  datatype State = State(slots: Slots, rounds: seq<Round>, callers: seq<Caller>, closed: set<Conn>)

  const INIT := State(map[], [], [], {})

  datatype Label =
    | Arrive(addr: Addr)
    | Look(ticket: Ticket)
    | Dial(round: nat, res: Outcome)
    | Publish(round: nat)
    | Receive(ticket: Ticket)
    | Cancel(ticket: Ticket)
    | Close(conn: Conn)
    | Invalidate(addr: Addr)

  ghost predicate SenderAlive(slots: Slots, t: Ticket) {
    exists a :: ConnectingAt(slots, a) && t in slots[a].waiters
  }

  // A receiver wakes up when a value was sent, or when its sender was dropped unused.
  ghost predicate Enabled(s: State, l: Label) {
    match l
    case Arrive(_) => true
    case Look(t) => t < |s.callers| && s.callers[t].phase.Locking?
    case Dial(r, _) => r < |s.rounds| && s.rounds[r].stage.Dialing?
    case Publish(r) => r < |s.rounds| && s.rounds[r].stage.Dialed?
    case Receive(t) =>
      && t < |s.callers|
      && s.callers[t].phase.Waiting?
      && (s.callers[t].inbox.Some? || !SenderAlive(s.slots, t))
    case Cancel(t) => t < |s.callers| && (s.callers[t].phase.Locking? || s.callers[t].phase.Waiting?)
    case Close(_) => true
    case Invalidate(_) => true
  }

  const TASK_CANCELLED: Outcome := Err(StreamIo("connection task cancelled"))

  function Woken(c: Caller): Outcome {
    match c.inbox
    case Some(d) => d.outcome
    case None => TASK_CANCELLED
  }

  // A send to a caller that is gone is counted but reaches nobody.
  function Sent(c: Caller, r: nat, o: Outcome): Caller {
    c.(sends := c.sends + 1, inbox := if c.phase.Waiting? then Some(Delivery(r, o)) else c.inbox)
  }

  function Deliver(cs: seq<Caller>, r: nat, sends: seq<(Ticket, Outcome)>): (ds: seq<Caller>)
    ensures |ds| == |cs|
    decreases |sends|
  {
    if sends == [] then cs
    else
      var (t, o) := sends[0];
      Deliver(if t < |cs| then cs[t := Sent(cs[t], r, o)] else cs, r, sends[1..])
  }

  function AfterLook(s: State, t: Ticket): State
    requires t < |s.callers|
  {
    var c := s.callers[t];
    var slots := LookupSlots(s.slots, c.addr, t, s.closed);
    match LookupFound(s.slots, c.addr, s.closed)
    case Hit(e) => s.(callers := s.callers[t := c.(phase := Returned(Ok(e)))])
    case Joined => s.(slots := slots, callers := s.callers[t := c.(phase := Waiting)])
    case Started =>
      s.(slots := slots,
         callers := s.callers[t := c.(phase := Waiting)],
         rounds := s.rounds + [Round(c.addr, Dialing)])
  }

  function AfterPublish(s: State, r: nat): State
    requires r < |s.rounds| && s.rounds[r].stage.Dialed?
  {
    var Round(a, Dialed(res)) := s.rounds[r];
    s.(slots := PublishSlots(s.slots, a, res),
       rounds := s.rounds[r := Round(a, Published(res))],
       callers := Deliver(s.callers, r, PublishSends(s.slots, a, res)))
  }

  ghost function Next(s: State, l: Label): State
    requires Enabled(s, l)
  {
    match l
    case Arrive(a) => s.(callers := s.callers + [Caller(a, Locking, 0, None)])
    case Look(t) => AfterLook(s, t)
    case Dial(r, res) => s.(rounds := s.rounds[r := s.rounds[r].(stage := Dialed(res))])
    case Publish(r) => AfterPublish(s, r)
    case Receive(t) => s.(callers := s.callers[t := s.callers[t].(phase := Returned(Woken(s.callers[t])))])
    case Cancel(t) => s.(callers := s.callers[t := s.callers[t].(phase := Cancelled)])
    case Close(c) => s.(closed := s.closed + {c})
    case Invalidate(a) => s.(slots := InvalidateSlots(s.slots, a, s.closed))
  }

  ghost predicate Legal(s: State, ls: seq<Label>)
    decreases |ls|
  {
    ls == [] || (Enabled(s, ls[0]) && Legal(Next(s, ls[0]), ls[1..]))
  }

  ghost function After(s: State, ls: seq<Label>): State
    requires Legal(s, ls)
    decreases |ls|
  {
    if ls == [] then s else After(Next(s, ls[0]), ls[1..])
  }

  // ---------------------------------------------------------------- the inductive invariant

  predicate Live(rd: Round) {
    !rd.stage.Published?
  }

  ghost predicate LiveFor(s: State, a: Addr, r: nat) {
    r < |s.rounds| && s.rounds[r].addr == a && Live(s.rounds[r])
  }

  // An entry is `e` published under `a` by round `r`.
  ghost predicate PublishedBy(s: State, a: Addr, e: Entry, r: nat) {
    r < |s.rounds| && s.rounds[r] == Round(a, Published(Ok(e)))
  }

  ghost predicate CameFrom(s: State, a: Addr, e: Entry) {
    exists r :: PublishedBy(s, a, e, r)
  }

  ghost predicate OneFlight(s: State) {
    && (forall i, j :: 0 <= i < j < |s.rounds| && s.rounds[i].addr == s.rounds[j].addr ==> !Live(s.rounds[i]))
    && (forall a, r :: LiveFor(s, a, r) ==> ConnectingAt(s.slots, a))
    && (forall a :: ConnectingAt(s.slots, a) ==> exists r :: LiveFor(s, a, r))
  }

  ghost predicate OneOpen(s: State) {
    && (forall a, e, i: nat, j: nat ::
          PublishedBy(s, a, e, i) && i < j < |s.rounds| && s.rounds[j].addr == a ==> e.conn in s.closed)
    && (forall a, e, r ::
          PublishedBy(s, a, e, r) && e.conn !in s.closed ==> a in s.slots && s.slots[a] == Ready(e))
    && (forall a :: a in s.slots && s.slots[a].Ready? ==> CameFrom(s, a, s.slots[a].entry))
  }

  ghost predicate QueuedCaller(s: State, a: Addr, t: Ticket) {
    && t < |s.callers|
    && var c := s.callers[t];
    && c.addr == a && c.sends == 0 && c.inbox.None? && (c.phase.Waiting? || c.phase.Cancelled?)
  }

  ghost predicate NoDup<T>(ws: seq<T>) {
    forall i, j :: 0 <= i < j < |ws| ==> ws[i] != ws[j]
  }

  ghost predicate Queues(s: State) {
    && (forall a :: ConnectingAt(s.slots, a) ==> NoDup(s.slots[a].waiters))
    && (forall a, t :: ConnectingAt(s.slots, a) && t in s.slots[a].waiters ==> QueuedCaller(s, a, t))
    && (forall t :: 0 <= t < |s.callers| && s.callers[t].phase.Waiting? && s.callers[t].inbox.None? ==>
          ConnectingAt(s.slots, s.callers[t].addr) && t in s.slots[s.callers[t].addr].waiters)
  }

  // What is known of one caller from the rounds alone.
  ghost predicate Accounted(s: State, c: Caller) {
    && c.sends <= 1
    && (c.phase.Locking? ==> c.sends == 0)
    && (c.inbox.Some? ==>
          && c.sends == 1
          && var d := c.inbox.value;
          && d.round < |s.rounds|
          && s.rounds[d.round].addr == c.addr
          && s.rounds[d.round].stage.Published?
          && d.outcome == Answer(s.rounds[d.round].stage.res))
    && (c.phase.Returned? && c.inbox.Some? ==> c.phase.outcome == c.inbox.value.outcome)
    && (c.phase.Returned? && c.inbox.None? ==> c.phase.outcome.Ok? && c.sends == 0)
    && (c.phase.Returned? && c.phase.outcome.Ok? ==> CameFrom(s, c.addr, c.phase.outcome.value))
  }

  ghost predicate Callers(s: State) {
    forall t :: 0 <= t < |s.callers| ==> Accounted(s, s.callers[t])
  }

  ghost predicate Inv(s: State) {
    OneFlight(s) && OneOpen(s) && Queues(s) && Callers(s)
  }

  // ---------------------------------------------------------------- every step keeps it

  // With no duplicate among the waiters, each is sent to once and nobody else is touched.
  lemma {:induction false} DeliverAt(cs: seq<Caller>, r: nat, ws: seq<Ticket>, o: Outcome, t: Ticket)
    requires NoDup(ws) && t < |cs|
    ensures Deliver(cs, r, Addressed(ws, o))[t] == if t in ws then Sent(cs[t], r, o) else cs[t]
    decreases |ws|
  {
    if ws == [] {
    } else {
      var w := ws[0];
      var cs' := if w < |cs| then cs[w := Sent(cs[w], r, o)] else cs;
      assert Addressed(ws, o)[1..] == Addressed(ws[1..], o);
      assert ws == [w] + ws[1..];
      assert w !in ws[1..];
      DeliverAt(cs', r, ws[1..], o, t);
    }
  }

  // Published rounds stay as they are, so what they account for stays accounted for.
  lemma AccountedStays(s: State, s': State, c: Caller)
    requires Accounted(s, c) && |s.rounds| <= |s'.rounds|
    requires forall r :: 0 <= r < |s.rounds| && !Live(s.rounds[r]) ==> s'.rounds[r] == s.rounds[r]
    ensures Accounted(s', c)
  {
    if c.phase.Returned? && c.phase.outcome.Ok? {
      var r :| PublishedBy(s, c.addr, c.phase.outcome.value, r);
      assert PublishedBy(s', c.addr, c.phase.outcome.value, r);
    }
  }

  lemma LookHitKeepsInv(s: State, t: Ticket)
    requires Inv(s) && Enabled(s, Look(t))
    requires LookupFound(s.slots, s.callers[t].addr, s.closed).Hit?
    ensures Inv(Next(s, Look(t)))
  {
    var s' := Next(s, Look(t));
    forall c | Accounted(s, c) ensures Accounted(s', c) {
      AccountedStays(s, s', c);
    }
    SameRounds(s, s');
    assert CameFrom(s', s.callers[t].addr, s'.callers[t].phase.outcome.value);
  }

  lemma LookJoinKeepsInv(s: State, t: Ticket)
    requires Inv(s) && Enabled(s, Look(t))
    requires LookupFound(s.slots, s.callers[t].addr, s.closed).Joined?
    ensures Inv(Next(s, Look(t)))
  {
    var s' := Next(s, Look(t));
    forall b ensures ConnectingAt(s'.slots, b) <==> ConnectingAt(s.slots, b) {}
    LookJoinKeepsRounds(s, s');
    LookKeepsCallers(s, t);
    LookJoinKeepsQueues(s, t);
  }

  // The same rounds, and slots that differ in the length of a queue only.
  lemma LookJoinKeepsRounds(s: State, s': State)
    requires OneFlight(s) && OneOpen(s)
    requires s'.rounds == s.rounds && s'.closed == s.closed
    requires forall b :: ConnectingAt(s'.slots, b) <==> ConnectingAt(s.slots, b)
    requires forall b :: !ConnectingAt(s.slots, b) ==>
               (b in s'.slots <==> b in s.slots) && (b in s.slots ==> s'.slots[b] == s.slots[b])
    ensures OneFlight(s') && OneOpen(s')
  {
    assert forall b, q :: LiveFor(s', b, q) <==> LiveFor(s, b, q);
    assert forall b, e, q :: PublishedBy(s', b, e, q) <==> PublishedBy(s, b, e, q);
    forall b | b in s'.slots && s'.slots[b].Ready? ensures CameFrom(s', b, s'.slots[b].entry) {
      assert !ConnectingAt(s.slots, b);
      var q :| PublishedBy(s, b, s.slots[b].entry, q);
      assert PublishedBy(s', b, s'.slots[b].entry, q);
    }
  }

  lemma LookKeepsCallers(s: State, t: Ticket)
    requires Callers(s) && Enabled(s, Look(t))
    requires !LookupFound(s.slots, s.callers[t].addr, s.closed).Hit?
    ensures Callers(Next(s, Look(t)))
  {
    var s' := Next(s, Look(t));
    forall u | 0 <= u < |s.callers| ensures Accounted(s', s'.callers[u]) {
      AccountedStays(s, s', s.callers[u]);
    }
  }

  lemma LookJoinKeepsQueues(s: State, t: Ticket)
    requires Inv(s) && Enabled(s, Look(t))
    requires LookupFound(s.slots, s.callers[t].addr, s.closed).Joined?
    ensures Queues(Next(s, Look(t)))
  {
    var s' := Next(s, Look(t));
    assert !QueuedCaller(s, s.callers[t].addr, t);
    assert Accounted(s, s.callers[t]);
    forall b, u | ConnectingAt(s'.slots, b) && u in s'.slots[b].waiters ensures QueuedCaller(s', b, u) {
      if u != t {
        assert QueuedCaller(s, b, u);
      }
    }
  }

  lemma LookStartKeepsInv(s: State, t: Ticket)
    requires Inv(s) && Enabled(s, Look(t))
    requires LookupFound(s.slots, s.callers[t].addr, s.closed).Started?
    ensures Inv(Next(s, Look(t)))
  {
    LookStartKeepsFlight(s, t);
    LookStartKeepsOpen(s, t);
    LookKeepsCallers(s, t);
    LookStartKeepsQueues(s, t);
  }

  lemma LookStartKeepsFlight(s: State, t: Ticket)
    requires OneFlight(s) && Enabled(s, Look(t))
    requires LookupFound(s.slots, s.callers[t].addr, s.closed).Started?
    ensures OneFlight(Next(s, Look(t)))
  {
    var s' := Next(s, Look(t));
    var a := s.callers[t].addr;
    assert forall i :: 0 <= i < |s.rounds| && Live(s.rounds[i]) ==> LiveFor(s, s.rounds[i].addr, i);
    assert forall b, r :: LiveFor(s', b, r) <==> LiveFor(s, b, r) || (b == a && r == |s.rounds|);
    forall b | ConnectingAt(s'.slots, b) ensures exists r :: LiveFor(s', b, r) {
      if b == a {
        assert LiveFor(s', a, |s.rounds|);
      } else {
        assert ConnectingAt(s.slots, b);
        var r :| LiveFor(s, b, r);
        assert LiveFor(s', b, r);
      }
    }
  }

  lemma LookStartKeepsOpen(s: State, t: Ticket)
    requires OneOpen(s) && Enabled(s, Look(t))
    requires LookupFound(s.slots, s.callers[t].addr, s.closed).Started?
    ensures OneOpen(Next(s, Look(t)))
  {
    var s' := Next(s, Look(t));
    assert forall b, e, r :: PublishedBy(s', b, e, r) <==> PublishedBy(s, b, e, r);
    forall b | b in s'.slots && s'.slots[b].Ready? ensures CameFrom(s', b, s'.slots[b].entry) {
      var q :| PublishedBy(s, b, s.slots[b].entry, q);
      assert PublishedBy(s', b, s'.slots[b].entry, q);
    }
  }

  lemma LookStartKeepsQueues(s: State, t: Ticket)
    requires Inv(s) && Enabled(s, Look(t))
    requires LookupFound(s.slots, s.callers[t].addr, s.closed).Started?
    ensures Queues(Next(s, Look(t)))
  {
    var s' := Next(s, Look(t));
    var a := s.callers[t].addr;
    assert Accounted(s, s.callers[t]);
    forall b, u | ConnectingAt(s'.slots, b) && u in s'.slots[b].waiters ensures QueuedCaller(s', b, u) {
      if b != a {
        assert ConnectingAt(s.slots, b) && QueuedCaller(s, b, u);
      }
    }
  }

  // The publishing task always finds its own Connecting slot.
  lemma PublishFindsConnecting(s: State, r: nat)
    requires Inv(s) && Enabled(s, Publish(r))
    ensures ConnectingAt(s.slots, s.rounds[r].addr)
    ensures forall q :: LiveFor(s, s.rounds[r].addr, q) <==> q == r
  {
    assert LiveFor(s, s.rounds[r].addr, r);
  }

  lemma PublishCallers(s: State, r: nat, t: Ticket)
    requires Inv(s) && Enabled(s, Publish(r)) && t < |s.callers|
    ensures ConnectingAt(s.slots, s.rounds[r].addr)
    ensures Next(s, Publish(r)).callers[t] ==
            if t in s.slots[s.rounds[r].addr].waiters
            then Sent(s.callers[t], r, Answer(s.rounds[r].stage.res)) else s.callers[t]
  {
    PublishFindsConnecting(s, r);
    DeliverAt(s.callers, r, s.slots[s.rounds[r].addr].waiters, Answer(s.rounds[r].stage.res), t);
  }

  lemma PublishKeepsFlight(s: State, r: nat)
    requires Inv(s) && Enabled(s, Publish(r))
    ensures OneFlight(Next(s, Publish(r)))
  {
    var s' := Next(s, Publish(r));
    var a := s.rounds[r].addr;
    PublishFindsConnecting(s, r);
    assert forall b, q :: LiveFor(s', b, q) <==> LiveFor(s, b, q) && q != r;
    forall b | ConnectingAt(s'.slots, b) ensures exists q :: LiveFor(s', b, q) {
      assert b != a && ConnectingAt(s.slots, b);
      var q :| LiveFor(s, b, q);
      assert LiveFor(s', b, q);
    }
  }

  lemma PublishKeepsOpen(s: State, r: nat)
    requires Inv(s) && Enabled(s, Publish(r))
    ensures OneOpen(Next(s, Publish(r)))
  {
    var s' := Next(s, Publish(r));
    var Round(a, Dialed(res)) := s.rounds[r];
    PublishFindsConnecting(s, r);
    assert forall b, e, q ::
        PublishedBy(s', b, e, q) <==> PublishedBy(s, b, e, q) || (q == r && b == a && res == Ok(e));
    forall b | b in s'.slots && s'.slots[b].Ready? ensures CameFrom(s', b, s'.slots[b].entry) {
      if b == a {
        assert PublishedBy(s', b, s'.slots[b].entry, r);
      } else {
        var q :| PublishedBy(s, b, s.slots[b].entry, q);
        assert PublishedBy(s', b, s'.slots[b].entry, q);
      }
    }
  }

  lemma PublishKeepsCallers(s: State, r: nat)
    requires Inv(s) && Enabled(s, Publish(r))
    ensures Queues(Next(s, Publish(r))) && Callers(Next(s, Publish(r)))
  {
    var s' := Next(s, Publish(r));
    PublishFindsConnecting(s, r);
    forall t | 0 <= t < |s.callers|
      ensures Accounted(s', s'.callers[t])
      ensures s'.callers[t].phase.Waiting? && s'.callers[t].inbox.None? ==>
                ConnectingAt(s'.slots, s'.callers[t].addr) && t in s'.slots[s'.callers[t].addr].waiters
    {
      PublishCallers(s, r, t);
      AccountedStays(s, s', s.callers[t]);
    }
    forall b, t | ConnectingAt(s'.slots, b) && t in s'.slots[b].waiters
      ensures QueuedCaller(s', b, t)
    {
      assert QueuedCaller(s, b, t);
      PublishCallers(s, r, t);
    }
  }

  // A waiting caller has its answer, or its sender still stands in a queue.
  lemma NeverOrphaned(s: State, t: Ticket)
    requires Inv(s) && t < |s.callers| && s.callers[t].phase.Waiting?
    ensures s.callers[t].inbox.Some? || SenderAlive(s.slots, t)
  {
  }

  // Steps that move one caller and nothing else.
  lemma CallerKeepsInv(s: State, l: Label)
    requires Inv(s) && Enabled(s, l) && (l.Arrive? || l.Receive? || l.Cancel?)
    ensures Inv(Next(s, l))
  {
    var s' := Next(s, l);
    forall c | Accounted(s, c) ensures Accounted(s', c) {
      AccountedStays(s, s', c);
    }
    SameRounds(s, s');
    if l.Receive? {
      var c := s.callers[l.ticket];
      NeverOrphaned(s, l.ticket);
      if c.inbox.value.outcome.Ok? {
        assert PublishedBy(s', c.addr, c.inbox.value.outcome.value, c.inbox.value.round);
        assert CameFrom(s', c.addr, c.inbox.value.outcome.value);
      }
    }
  }

  lemma SameRounds(s: State, s': State)
    requires OneFlight(s) && OneOpen(s)
    requires s'.rounds == s.rounds && s'.slots == s.slots && s.closed <= s'.closed
    ensures OneFlight(s') && OneOpen(s')
  {
    assert forall b, q :: LiveFor(s', b, q) <==> LiveFor(s, b, q);
    assert forall b, e, q :: PublishedBy(s', b, e, q) <==> PublishedBy(s, b, e, q);
    forall b | b in s'.slots && s'.slots[b].Ready? ensures CameFrom(s', b, s'.slots[b].entry) {
      var q :| PublishedBy(s, b, s.slots[b].entry, q);
      assert PublishedBy(s', b, s'.slots[b].entry, q);
    }
  }

  lemma DialKeepsInv(s: State, l: Label)
    requires Inv(s) && Enabled(s, l) && l.Dial?
    ensures Inv(Next(s, l))
  {
    var s' := Next(s, l);
    forall c | Accounted(s, c) ensures Accounted(s', c) {
      AccountedStays(s, s', c);
    }
    assert forall b, q :: LiveFor(s', b, q) <==> LiveFor(s, b, q);
    assert forall b, e, q :: PublishedBy(s', b, e, q) <==> PublishedBy(s, b, e, q);
  }

  // Closing a connection, and removing a closed one from its slot.
  lemma EnvironmentKeepsInv(s: State, l: Label)
    requires Inv(s) && Enabled(s, l) && (l.Close? || l.Invalidate?)
    ensures Inv(Next(s, l))
  {
    var s' := Next(s, l);
    forall c | Accounted(s, c) ensures Accounted(s', c) {
      AccountedStays(s, s', c);
    }
    assert forall b, q :: LiveFor(s', b, q) <==> LiveFor(s, b, q);
    assert forall b, e, q :: PublishedBy(s', b, e, q) <==> PublishedBy(s, b, e, q);
    assert forall a :: ConnectingAt(s'.slots, a) <==> ConnectingAt(s.slots, a);
    assert forall a, e :: CameFrom(s, a, e) ==> CameFrom(s', a, e);
  }

  lemma StepKeepsInv(s: State, l: Label)
    requires Inv(s) && Enabled(s, l)
    ensures Inv(Next(s, l))
  {
    if l.Look? {
      match LookupFound(s.slots, s.callers[l.ticket].addr, s.closed)
      case Hit(_) => LookHitKeepsInv(s, l.ticket);
      case Joined => LookJoinKeepsInv(s, l.ticket);
      case Started => LookStartKeepsInv(s, l.ticket);
    } else if l.Publish? {
      PublishKeepsFlight(s, l.round);
      PublishKeepsOpen(s, l.round);
      PublishKeepsCallers(s, l.round);
    } else if l.Dial? {
      DialKeepsInv(s, l);
    } else if l.Close? || l.Invalidate? {
      EnvironmentKeepsInv(s, l);
    } else {
      CallerKeepsInv(s, l);
    }
  }

  lemma {:induction false} RunKeepsInv(s: State, ls: seq<Label>)
    requires Inv(s) && Legal(s, ls)
    ensures Inv(After(s, ls))
    decreases |ls|
  {
    if ls == [] {
    } else {
      StepKeepsInv(s, ls[0]);
      RunKeepsInv(Next(s, ls[0]), ls[1..]);
    }
  }
}

/**
 The two functions of the server as written. Each runs inside the whole system: at every await
 point the other tasks and the environment may take any steps of theirs before it resumes.

 A script is what happens, in order; what cannot happen when its turn comes does not. The functions
 add only their own decisions: when all is joined. `Heard` and `HeardByServer` say which run of the
 system that makes. A script may end anywhere; the function is then still waiting.
 */
module ServerLoops {
  import opened Common
  import opened Server
  import ServerTheorems

  ghost predicate Ran(start: State, labels: seq<Label>, s: State) {
    Legal(start, labels) && After(start, labels) == s
  }

  lemma RanAppend(start: State, labels: seq<Label>, s: State, l: Label)
    requires Ran(start, labels, s) && Enabled(s, l)
    ensures Ran(start, labels + [l], Next(s, l))
  {
    assert [l][1..] == [];
    assert Legal(s, [l]) && After(s, [l]) == Next(s, l);
    LegalConcat(start, labels, [l]);
  }

  method Step(ghost start: State, s: State, labels: seq<Label>, l: Label) returns (t: State, ms: seq<Label>)
    requires Ran(start, labels, s) && Enabled(s, l)
    ensures Ran(start, ms, t) && t == Next(s, l) && ms == labels + [l]
  {
    RanAppend(start, labels, s, l);
    t, ms := Next(s, l), labels + [l];
  }

  // ---------------------------------------------------------------- handle_connection

  predicate MayJoin(s: State, c: nat) {
    Enabled(s, Task(c, AllJoined))
  }

  predicate TaskEnded(s: State, c: nat) {
    c < |s.conns| && s.conns[c].stage.Finished?
  }

  // What the connection task does not do itself; it is not aborted either.
  predicate Given(l: Label, c: nat) {
    l != Task(c, AllJoined) && l != Reap(c)
  }

  // All that can happen of the script, until the task can join the last of its requests.
  function Heard(s: State, c: nat, script: seq<Label>): seq<Label>
    decreases |script|
  {
    if MayJoin(s, c) then [Task(c, AllJoined)]
    else if script == [] || TaskEnded(s, c) then []
    else if Enabled(s, script[0]) && Given(script[0], c) then
      [script[0]] + Heard(Next(s, script[0]), c, script[1..])
    else Heard(s, c, script[1..])
  }

  // Up to position i everything was heard that should be, and nothing else.
  ghost predicate OnTrack(start: State, labels: seq<Label>, s: State, c: nat, script: seq<Label>, i: nat) {
    && i <= |script|
    && Ran(start, labels, s)
    && labels + Heard(s, c, script[i..]) == Heard(start, c, script)
  }

  lemma HearNext(start: State, labels: seq<Label>, s: State, c: nat, script: seq<Label>, i: nat)
    requires OnTrack(start, labels, s, c, script, i) && i < |script|
    requires !MayJoin(s, c) && !TaskEnded(s, c)
    ensures if Enabled(s, script[i]) && Given(script[i], c)
            then OnTrack(start, labels + [script[i]], Next(s, script[i]), c, script, i + 1)
            else OnTrack(start, labels, s, c, script, i + 1)
  {
    assert script[i..][1..] == script[i + 1..];
    if Enabled(s, script[i]) && Given(script[i], c) {
      RanAppend(start, labels, s, script[i]);
      assert labels + ([script[i]] + Heard(Next(s, script[i]), c, script[i + 1..]))
          == (labels + [script[i]]) + Heard(Next(s, script[i]), c, script[i + 1..]);
    }
  }

  lemma HearEnd(start: State, labels: seq<Label>, s: State, c: nat, script: seq<Label>, i: nat)
    requires OnTrack(start, labels, s, c, script, i)
    requires !MayJoin(s, c) && (i == |script| || TaskEnded(s, c))
    ensures labels == Heard(start, c, script)
  {
  }

  function RequestsOf(s: State, c: nat): set<nat> {
    set r | 0 <= r < |s.requests| && s.requests[r].conn == c
  }

  // Every request of the connection is in its JoinSet or joined, not both; joined ones are over.
  ghost predicate Book(s: State, c: nat, joinSet: set<nat>, joined: set<nat>) {
    && c < |s.conns|
    && joinSet !! joined
    && joinSet + joined == RequestsOf(s, c)
    && (forall r :: r in joined ==> !s.requests[r].live)
  }

  predicate Elsewhere(l: Label, c: nat) {
    !(l.Task? && l.conn == c) && l != Reap(c)
  }

  // What the rest of the system does to a connection: end its requests, and hand it the cancel.
  lemma ElsewhereFrame(s: State, l: Label, c: nat, joinSet: set<nat>, joined: set<nat>)
    requires Enabled(s, l) && Elsewhere(l, c) && Book(s, c, joinSet, joined)
    ensures var t := Next(s, l);
            Book(t, c, joinSet, joined) && t.conns[c].stage == s.conns[c].stage
  {
    var t := Next(s, l);
    assert forall r :: 0 <= r < |s.requests| ==>
             t.requests[r].conn == s.requests[r].conn && (t.requests[r].live ==> s.requests[r].live);
    assert forall r :: |s.requests| <= r < |t.requests| ==> t.requests[r].conn != c;
    assert RequestsOf(t, c) == RequestsOf(s, c);
  }

  // Its own steps leave the requests alone, but for the one it spawns.
  lemma OwnFrame(s: State, c: nat, e: TaskEvent, joinSet: set<nat>, joined: set<nat>)
    requires Enabled(s, Task(c, e)) && Book(s, c, joinSet, joined)
    ensures var t := Next(s, Task(c, e));
            && t.conns[c].stage == TaskStep(s.conns[c].stage, e).value
            && Book(t, c, joinSet + (if Admits(s, e) then {|s.requests|} else {}), joined)
  {
    var t := Next(s, Task(c, e));
    if Admits(s, e) {
      assert RequestsOf(t, c) == RequestsOf(s, c) + {|s.requests|};
    } else {
      assert RequestsOf(t, c) == RequestsOf(s, c);
    }
  }

  // An await of the connection task: others run until something arrives for this task.
  method Await(ghost start: State, s: State, labels: seq<Label>, c: nat, script: seq<Label>, i: nat,
               ghost joinSet: set<nat>, ghost joined: set<nat>)
    returns (t: State, ms: seq<Label>, j: nat, answer: Option<TaskEvent>)
    requires OnTrack(start, labels, s, c, script, i) && Book(s, c, joinSet, joined)
    requires s.conns[c].stage in {Building, Serving, Resolving, ShuttingDown}
    ensures OnTrack(start, ms, t, c, script, j) && Book(t, c, joinSet, joined)
    ensures t.conns[c].stage == s.conns[c].stage
    ensures i <= j
    ensures answer.None? ==> j == |script|
    ensures answer.Some? ==> j < |script| && script[j] == Task(c, answer.value) && Enabled(t, script[j])
  {
    t, ms, j := s, labels, i;
    while j < |script|
      invariant OnTrack(start, ms, t, c, script, j) && Book(t, c, joinSet, joined)
      invariant i <= j && t.conns[c].stage == s.conns[c].stage
    {
      HearNext(start, ms, t, c, script, j);
      if Enabled(t, script[j]) && script[j] != Reap(c) {
        if !Elsewhere(script[j], c) {
          return t, ms, j, Some(script[j].event);
        }
        ElsewhereFrame(t, script[j], c, joinSet, joined);
        t, ms := Step(start, t, ms, script[j]);
      }
      j := j + 1;
    }
    return t, ms, j, None;
  }

  // The task goes on with what has arrived.
  method Take(ghost start: State, s: State, labels: seq<Label>, c: nat, script: seq<Label>, i: nat,
              ghost joinSet: set<nat>, ghost joined: set<nat>)
    returns (t: State, ms: seq<Label>)
    requires OnTrack(start, labels, s, c, script, i) && Book(s, c, joinSet, joined)
    requires i < |script| && script[i].Task? && script[i].conn == c && Enabled(s, script[i])
    requires s.conns[c].stage in {Building, Serving, Resolving, ShuttingDown}
    ensures OnTrack(start, ms, t, c, script, i + 1)
    ensures Book(t, c, joinSet + (if Admits(s, script[i].event) then {|s.requests|} else {}), joined)
    ensures c < |t.conns| && Some(t.conns[c].stage) == TaskStep(s.conns[c].stage, script[i].event)
  {
    OwnFrame(s, c, script[i].event, joinSet, joined);
    HearNext(start, labels, s, c, script, i);
    t, ms := Step(start, s, labels, script[i]);
  }

  // The accept branch after a stream was offered: resolve_request, try_acquire_owned, spawn.
  method AcceptStream(ghost start: State, s: State, labels: seq<Label>, c: nat, script: seq<Label>, i: nat,
                      joinSet: set<nat>, ghost joined: set<nat>)
    returns (t: State, ms: seq<Label>, j: nat, spawned: set<nat>, resumed: bool)
    requires OnTrack(start, labels, s, c, script, i) && Book(s, c, joinSet, joined)
    requires s.conns[c].stage == Resolving
    ensures OnTrack(start, ms, t, c, script, j) && i <= j && Book(t, c, spawned, joined)
    ensures t.conns[c].stage == if resumed then Serving else Resolving
    ensures !resumed ==> j == |script|
  {
    var answer;
    t, ms, j, answer := Await(start, s, labels, c, script, i, joinSet, joined);
    if answer.None? {
      return t, ms, j, joinSet, false;
    }
    if answer.value.HeadFails? || t.permits == 0 {
      t, ms := Take(start, t, ms, c, script, j, joinSet, joined);
      return t, ms, j + 1, joinSet, true;
    }
    var request := |t.requests|;
    t, ms := Take(start, t, ms, c, script, j, joinSet, joined);
    return t, ms, j + 1, joinSet + {request}, true;
  }

  // The cancel branch: h3's shutdown, and out of the loop.
  method ShutDown(ghost start: State, s: State, labels: seq<Label>, c: nat, script: seq<Label>, i: nat,
                  ghost joinSet: set<nat>)
    returns (t: State, ms: seq<Label>, j: nat, finished: bool)
    requires OnTrack(start, labels, s, c, script, i) && Book(s, c, joinSet, {})
    requires s.conns[c].stage == ShuttingDown
    ensures OnTrack(start, ms, t, c, script, j) && Book(t, c, joinSet, {})
    ensures t.conns[c].stage == if finished then Draining else ShuttingDown
    ensures !finished ==> j == |script|
  {
    var answer;
    t, ms, j, answer := Await(start, s, labels, c, script, i, joinSet, {});
    if answer.None? {
      return t, ms, j, false;
    }
    t, ms := Take(start, t, ms, c, script, j, joinSet, {});
    return t, ms, j + 1, true;
  }

  // How one pass of the loop ends: the loop goes on, it is left, or the task still waits.
  datatype Pass = Again | Left | Waiting

  // One pass of the loop: the select over cancel and accept, and the branch taken.
  method LoopPass(ghost start: State, s: State, labels: seq<Label>, c: nat, script: seq<Label>, i: nat,
                  joinSet: set<nat>)
    returns (t: State, ms: seq<Label>, j: nat, spawned: set<nat>, pass: Pass)
    requires OnTrack(start, labels, s, c, script, i) && Book(s, c, joinSet, {})
    requires s.conns[c].stage == Serving
    ensures OnTrack(start, ms, t, c, script, j) && Book(t, c, spawned, {})
    ensures pass.Again? ==> i < j && t.conns[c].stage == Serving
    ensures pass.Left? ==> t.conns[c].stage == Draining
    ensures pass.Waiting? ==> j == |script| && t.conns[c].stage in {Serving, Resolving, ShuttingDown}
  {
    var answer;
    spawned := joinSet;
    t, ms, j, answer := Await(start, s, labels, c, script, i, joinSet, {});
    if answer.None? {
      return t, ms, j, joinSet, Waiting;
    }
    t, ms := Take(start, t, ms, c, script, j, joinSet, {});
    j := j + 1;
    match answer.value {
      case TakeCancel =>
        var finished;
        t, ms, j, finished := ShutDown(start, t, ms, c, script, j, joinSet);
        return t, ms, j, joinSet, if finished then Left else Waiting;
      case StreamsEnd =>
        return t, ms, j, joinSet, Left;
      case Offered =>
        var resumed;
        t, ms, j, spawned, resumed := AcceptStream(start, t, ms, c, script, j, joinSet, {});
        return t, ms, j, spawned, if resumed then Again else Waiting;
    }
  }

  // The loop over the connection's streams.
  method ServeStreams(ghost start: State, s: State, labels: seq<Label>, c: nat, script: seq<Label>, i: nat)
    returns (t: State, ms: seq<Label>, j: nat, joinSet: set<nat>, left: bool)
    requires OnTrack(start, labels, s, c, script, i) && Book(s, c, {}, {})
    requires s.conns[c].stage == Serving
    ensures OnTrack(start, ms, t, c, script, j) && Book(t, c, joinSet, {})
    ensures if left then t.conns[c].stage == Draining
            else j == |script| && t.conns[c].stage in {Serving, Resolving, ShuttingDown}
  {
    t, ms, j, joinSet := s, labels, i, {};
    var pass := Again;
    while pass.Again?
      invariant OnTrack(start, ms, t, c, script, j) && Book(t, c, joinSet, {})
      invariant pass.Again? ==> t.conns[c].stage == Serving
      invariant pass.Left? ==> t.conns[c].stage == Draining
      invariant pass.Waiting? ==> j == |script| && t.conns[c].stage in {Serving, Resolving, ShuttingDown}
      decreases pass.Again?, |script| - j
    {
      t, ms, j, joinSet, pass := LoopPass(start, t, ms, c, script, j, joinSet);
    }
    left := pass.Left?;
  }

  lemma SomeoneLives(s: State, c: nat, joinSet: set<nat>, joined: set<nat>)
    requires Book(s, c, joinSet, joined)
    requires exists r :: r in joinSet && s.requests[r].live
    ensures !MayJoin(s, c)
  {
    var r :| r in joinSet && s.requests[r].live;
    assert r in RequestsOf(s, c);
    assert LiveOf(c)(s.requests[r]);
    CountPositive(s.requests, LiveOf(c));
  }

  // While requests are to be joined the task itself takes no step.
  method JoinPass(ghost start: State, s: State, labels: seq<Label>, c: nat, script: seq<Label>, i: nat,
                  ghost joinSet: set<nat>, ghost joined: set<nat>)
    returns (t: State, ms: seq<Label>)
    requires OnTrack(start, labels, s, c, script, i) && i < |script| && Book(s, c, joinSet, joined)
    requires s.conns[c].stage == Draining && !MayJoin(s, c)
    ensures OnTrack(start, ms, t, c, script, i + 1) && Book(t, c, joinSet, joined) && t.conns[c].stage == Draining
  {
    t, ms := s, labels;
    HearNext(start, labels, s, c, script, i);
    if Enabled(s, script[i]) && Given(script[i], c) {
      ElsewhereFrame(s, script[i], c, joinSet, joined);
      t, ms := Step(start, s, labels, script[i]);
    }
  }

  // join_next until the JoinSet is empty.
  method JoinRequests(ghost start: State, s: State, labels: seq<Label>, c: nat, script: seq<Label>, i: nat,
                      toJoin: set<nat>)
    returns (t: State, ms: seq<Label>, ghost j: nat, joinSet: set<nat>, joined: set<nat>)
    requires OnTrack(start, labels, s, c, script, i) && Book(s, c, toJoin, {}) && s.conns[c].stage == Draining
    ensures OnTrack(start, ms, t, c, script, j) && Book(t, c, joinSet, joined) && t.conns[c].stage == Draining
    ensures joinSet != {} ==> j == |script| && !MayJoin(t, c)
  {
    t, ms, joinSet, joined := s, labels, toJoin, {};
    var k := i;
    while joinSet != {}
      invariant OnTrack(start, ms, t, c, script, k) && Book(t, c, joinSet, joined) && t.conns[c].stage == Draining
      decreases |script| - k, joinSet
    {
      assert forall r :: r in joinSet ==> r in RequestsOf(t, c);
      if r :| r in joinSet && !t.requests[r].live {
        joinSet, joined := joinSet - {r}, joined + {r};
      } else {
        var r :| r in joinSet;
        SomeoneLives(t, c, joinSet, joined);
        if k == |script| {
          return t, ms, k, joinSet, joined;
        }
        t, ms := JoinPass(start, t, ms, c, script, k, joinSet, joined);
        k := k + 1;
      }
    }
    j := k;
  }

  /**
   handle_connection, under any interleaving with the rest of the system. Its run is all that the
   script lets happen, and the join of the last request as soon as it is over. It spawns a handler
   for exactly those request heads that found a permit; when it comes to its end the task is
   finished, and every request it ever spawned was joined exactly once and had ended before.
   */
  method HandleConnection(start: State, c: nat, script: seq<Label>)
    returns (done: bool, s: State, labels: seq<Label>, joined: set<nat>)
    requires c < |start.conns| && start.conns[c].stage == Building && RequestsOf(start, c) == {}
    ensures Ran(start, labels, s) && c < |s.conns| && labels == Heard(start, c, script)
    ensures Count(s.requests, AnyOf(c)) == FoundPermit(start, labels, c)
    ensures done <==> s.conns[c].stage == Finished
    ensures done ==> joined == RequestsOf(s, c) && forall r :: r in joined ==> !s.requests[r].live
  {
    ghost var i;
    var over;
    done, s, labels, i, over, joined := RunConnection(start, c, script);
    SpawnedForHeads(start, c, labels);
    if over {
      RanAppend(start, labels, s, Task(c, AllJoined));
      SpawnedForHeads(start, c, labels + [Task(c, AllJoined)]);
      OwnFrame(s, c, AllJoined, {}, joined);
      s, labels := Step(start, s, labels, Task(c, AllJoined));
      return true, s, labels, joined;
    }
    HearEnd(start, labels, s, c, script, i);
  }

  lemma SpawnedForHeads(start: State, c: nat, labels: seq<Label>)
    requires Legal(start, labels) && RequestsOf(start, c) == {}
    ensures Count(After(start, labels).requests, AnyOf(c)) == FoundPermit(start, labels, c)
  {
    RequestsGrow(start, labels, c);
    CountPositive(start.requests, AnyOf(c));
    assert forall r :: 0 <= r < |start.requests| && AnyOf(c)(start.requests[r]) ==> r in RequestsOf(start, c);
  }

  // build_server_conn: whether it succeeds, once it is known.
  method BuildConnection(start: State, c: nat, script: seq<Label>)
    returns (s: State, labels: seq<Label>, j: nat, built: Option<bool>)
    requires c < |start.conns| && start.conns[c].stage == Building && RequestsOf(start, c) == {}
    ensures OnTrack(start, labels, s, c, script, j) && Book(s, c, {}, {})
    ensures match built
            case None => j == |script| && s.conns[c].stage == Building
            case Some(ok) => s.conns[c].stage == if ok then Serving else Finished
  {
    assert script[0..] == script && [] + Heard(start, c, script) == Heard(start, c, script);
    var answer;
    s, labels, j, answer := Await(start, start, [], c, script, 0, {}, {});
    if answer.None? {
      return s, labels, j, None;
    }
    s, labels := Take(start, s, labels, c, script, j, {}, {});
    return s, labels, j + 1, Some(answer.value.Built?);
  }

  // All of it but the return: `over` says that the JoinSet is empty.
  method RunConnection(start: State, c: nat, script: seq<Label>)
    returns (ended: bool, s: State, labels: seq<Label>, ghost i: nat, over: bool, joined: set<nat>)
    requires c < |start.conns| && start.conns[c].stage == Building && RequestsOf(start, c) == {}
    ensures OnTrack(start, labels, s, c, script, i) && c < |s.conns|
    ensures over ==> MayJoin(s, c) && Book(s, c, {}, joined)
    ensures !over ==> !MayJoin(s, c) && (i == |script| || TaskEnded(s, c))
    ensures !over ==> (ended <==> TaskEnded(s, c)) && (ended ==> joined == RequestsOf(s, c) == {})
  {
    var j, built;
    joined := {};
    s, labels, j, built := BuildConnection(start, c, script);
    if built != Some(true) {
      return built.Some?, s, labels, j, false, joined;
    }
    var joinSet, left;
    s, labels, j, joinSet, left := ServeStreams(start, s, labels, c, script, j);
    if !left {
      return false, s, labels, j, false, joined;
    }
    s, labels, i, joinSet, joined := JoinRequests(start, s, labels, c, script, j, joinSet);
    if joinSet == {} {
      NothingLeft(s, c, joined);
    }
    return false, s, labels, i, joinSet == {}, joined;
  }

  lemma NothingLeft(s: State, c: nat, joined: set<nat>)
    requires Book(s, c, {}, joined)
    ensures Count(s.requests, LiveOf(c)) == 0
  {
    CountPositive(s.requests, LiveOf(c));
    forall r | 0 <= r < |s.requests| ensures !LiveOf(c)(s.requests[r]) {
      if s.requests[r].conn == c {
        assert r in RequestsOf(s, c);
      }
    }
  }

  // ---------------------------------------------------------------- serve_with_incoming_shutdown

  // All that can happen of the script, until the server can return with everything joined.
  function HeardByServer(s: State, script: seq<Label>): seq<Label>
    decreases |script|
  {
    if Enabled(s, Joined) then [Joined]
    else if script == [] || s.phase.Returned? then []
    else if Enabled(s, script[0]) then [script[0]] + HeardByServer(Next(s, script[0]), script[1..])
    else HeardByServer(s, script[1..])
  }

  ghost predicate ServerOnTrack(start: State, labels: seq<Label>, s: State, script: seq<Label>, i: nat) {
    && i <= |script|
    && Ran(start, labels, s)
    && labels + HeardByServer(s, script[i..]) == HeardByServer(start, script)
  }

  lemma ServerHearsNext(start: State, labels: seq<Label>, s: State, script: seq<Label>, i: nat)
    requires ServerOnTrack(start, labels, s, script, i) && i < |script|
    requires !Enabled(s, Joined) && !s.phase.Returned?
    ensures if Enabled(s, script[i]) then ServerOnTrack(start, labels + [script[i]], Next(s, script[i]), script, i + 1)
            else ServerOnTrack(start, labels, s, script, i + 1)
  {
    assert script[i..][1..] == script[i + 1..];
    if Enabled(s, script[i]) {
      RanAppend(start, labels, s, script[i]);
      assert labels + ([script[i]] + HeardByServer(Next(s, script[i]), script[i + 1..]))
          == (labels + [script[i]]) + HeardByServer(Next(s, script[i]), script[i + 1..]);
    }
  }

  ghost predicate AllOf(tasks: set<nat>, n: nat) {
    forall c :: c in tasks <==> 0 <= c < n
  }

  predicate LeavesLoop(l: Label) {
    l.Signal? || l.EndpointGone?
  }

  /**
   The accept loop: a run of the system from its start, in which all happens that the script lets
   happen, with one connection task per `Connect`. It is left for the signal or the end of the
   endpoint and for nothing else; as long as it is not, it uses up the script.
   */
  method AcceptLoop(limit: nat, credit: nat, script: seq<Label>)
    returns (left: bool, s: State, labels: seq<Label>, i: nat, joinSet: set<nat>)
    ensures ServerOnTrack(Init(limit, credit), labels, s, script, i)
    ensures ServerTheorems.PhaseBook(s, labels)
    ensures AllOf(joinSet, |s.conns|)
    ensures s.phase == if left then Joining else Accepting
    ensures left <==> exists k :: 0 <= k < |labels| && LeavesLoop(labels[k])
    ensures !left ==> i == |script|
  {
    s, labels, i, joinSet := Init(limit, credit), [], 0, {};
    assert script[0..] == script && labels + HeardByServer(s, script) == HeardByServer(s, script);
    while i < |script|
      invariant ServerOnTrack(Init(limit, credit), labels, s, script, i)
      invariant s.phase.Accepting?
      invariant forall k :: 0 <= k < |labels| ==> !LeavesLoop(labels[k])
      invariant AllOf(joinSet, |s.conns|)
    {
      var l := script[i];
      ServerHearsNext(Init(limit, credit), labels, s, script, i);
      i := i + 1;
      if Enabled(s, l) {
        if l.Connect? {
          joinSet := joinSet + {|s.conns|};
        }
        s, labels := Step(Init(limit, credit), s, labels, l);
        if l.Signal? || l.EndpointGone? {
          assert LeavesLoop(labels[|labels| - 1]);
          ServerTheorems.ServerHistory(limit, credit, labels);
          return true, s, labels, i, joinSet;
        }
      }
    }
    ServerTheorems.ServerHistory(limit, credit, labels);
    return false, s, labels, i, joinSet;
  }

  // A step of the others while the server joins: nothing is spawned, and what is over stays over.
  method JoinStep(ghost start: State, s: State, labels: seq<Label>, script: seq<Label>, i: nat)
    returns (t: State, ms: seq<Label>)
    requires ServerOnTrack(start, labels, s, script, i) && i < |script| && Enabled(s, script[i])
    requires s.phase.Joining? && !Enabled(s, Joined)
    ensures ServerOnTrack(start, ms, t, script, i + 1)
    ensures t.phase == if script[i].TimedOut? then Returned(true) else Joining
    ensures |t.conns| == |s.conns|
    ensures forall c :: 0 <= c < |s.conns| && s.conns[c].stage.Finished? ==> t.conns[c].stage.Finished?
  {
    ServerHearsNext(start, labels, s, script, i);
    t, ms := Step(start, s, labels, script[i]);
  }

  // The wait for all connection tasks: it ends with all of them joined, by the timeout, or not yet.
  method JoinConnections(ghost start: State, s: State, labels: seq<Label>, script: seq<Label>, i: nat,
                         toJoin: set<nat>)
    returns (t: State, ms: seq<Label>, ghost j: nat, joinSet: set<nat>, joined: set<nat>)
    requires ServerOnTrack(start, labels, s, script, i) && s.phase.Joining? && AllOf(toJoin, |s.conns|)
    ensures ServerOnTrack(start, ms, t, script, j)
    ensures t.phase.Joining? || t.phase == Returned(true)
    ensures t.phase.Joining? ==>
              if joinSet == {} then Enabled(t, Joined) && AllOf(joined, |t.conns|)
              else j == |script| && !Enabled(t, Joined)
  {
    t, ms, joinSet, joined := s, labels, toJoin, {};
    var k := i;
    while joinSet != {}
      invariant ServerOnTrack(start, ms, t, script, k) && t.phase.Joining?
      invariant joinSet !! joined && AllOf(joinSet + joined, |t.conns|)
      invariant forall c :: c in joined ==> t.conns[c].stage.Finished?
      decreases |script| - k, joinSet
    {
      assert forall c :: c in joinSet ==> c in joinSet + joined;
      if c :| c in joinSet && t.conns[c].stage.Finished? {
        joinSet, joined := joinSet - {c}, joined + {c};
      } else {
        var c :| c in joinSet;
        assert !t.conns[c].stage.Finished?;
        if k == |script| {
          return t, ms, k, joinSet, joined;
        }
        if Enabled(t, script[k]) {
          t, ms := JoinStep(start, t, ms, script, k);
          if script[k].TimedOut? {
            return t, ms, k + 1, joinSet, joined;
          }
        } else {
          ServerHearsNext(start, ms, t, script, k);
        }
        k := k + 1;
      }
    }
    assert forall c :: 0 <= c < |t.conns| ==> c in joinSet + joined;
    j := k;
  }

  /**
   The whole serve function. Its run is all that the script lets happen, and the return as soon as
   every task is joined. It returns with the timeout, or else after joining every connection task it
   ever spawned, each once and each finished.
   */
  method Serve(limit: nat, credit: nat, script: seq<Label>)
    returns (s: State, labels: seq<Label>, joined: set<nat>)
    ensures Ran(Init(limit, credit), labels, s) && labels == HeardByServer(Init(limit, credit), script)
    ensures ServerTheorems.PhaseBook(s, labels)
    ensures s.phase == Returned(false) ==>
              && AllOf(joined, |s.conns|)
              && forall c :: 0 <= c < |s.conns| ==> s.conns[c].stage.Finished?
  {
    var left, i, joinSet;
    left, s, labels, i, joinSet := AcceptLoop(limit, credit, script);
    joined := {};
    if left {
      ghost var j;
      s, labels, j, joinSet, joined := JoinConnections(Init(limit, credit), s, labels, script, i, joinSet);
      if s.phase.Joining? && joinSet == {} {
        s, labels := Step(Init(limit, credit), s, labels, Joined);
      }
    }
    ServerTheorems.ServerHistory(limit, credit, labels);
  }
}

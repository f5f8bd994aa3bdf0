# grpc-quic-rs: a verified model of its concurrency and framing logic

This project models, in Dafny, the parts of grpc-quic-rs that the repository writes itself on top
of quinn, h3 and tokio, and proves what they guarantee over every run:

- the single-flight connection pool (`Pool.dfy`, `PoolTheorems.dfy`, `PoolObject.dfy`);
- one RPC on the client, its retry loop and backoff (`Channel.dfy`, `Retry.dfy`, `Timeout.dfy`),
  and with its response body the life of the task that forwards the request (`CallLife.dfy`);
- the composed client: any number of calls over one permit semaphore and one pool
  (`Client.dfy`, `ClientTheorems.dfy`);
- the receive bodies (`Body.dfy`, `BodyObjects.dfy`), the two write loops (`Forward.dfy`) and both
  together, end to end (`Delivery.dfy`), for requests with the aborts of the upload (`Upload.dfy`);
- the server: admission, cancel and graceful shutdown (`Server.dfy`, `ServerTheorems.dfy`,
  `ServerLoops.dfy`).

## How it is modelled

Each concurrent part is a transition system. A `Label` is one atomic step, `Enabled` says when it
may happen, `Next` is the state after it, and `Legal`/`After` run a sequence of labels. Code
between two await points, or under one lock, is one label; everything else interleaves freely.
Histories (rounds, callers, events, outputs) are never forgotten by the states, so a statement
about the state after a run is a statement about the whole run. The theorems quantify over every
label sequence that is legal from the initial state.

Code that updates fields or loops is also written as such: `ConnectionPool` with a method per
lock-protected block, the two `poll_frame` objects, the retry loop, the two write loops, the
connection task, the accept loop and the whole serve function. Each is proved against the function
or the transition system of the same steps: a loop that awaits ensures that the labels it went
through, its own and those of the others in between, are a run of the system, and exactly the one
that its script of events determines.

Environment assumptions: a connector future returns and does not panic; a closed connection stays
closed; the stream keeps the order of bytes but may cut, merge, delay and fail, and a send that
fails or is cut off by an abort puts nothing on it; the broadcast channel delivers a message to
every subscribed receiver; a semaphore hands out a free permit to some waiter; a service handler
finishes by itself, and so do the building of an h3 connection and its shutdown, which do not wait
for the client. Two things are parameters because the code leaves them to the transport: how many
streams a client may have open on a connection (`credit`), and whether a send stream that is dropped
is thereby finished (`closes`).

In `Pool.Publish` the sends to the waiters are one step with the update of the map. In the code
a receiver may already run while the loop is still sending, but it can touch the pool only through
the lock the loop holds, so the order makes no difference to any state between two lock holders.

## Results worth knowing

Some things one might expect of the code are not so. Each is a lemma with the exact condition.

- `ClientRecvBody` is not fused: after `None` it can still yield one error from the forwarder.
  It is fused exactly when it is closed or its forwarder channel is gone (`FusedExactlyWhen`).
- The builder's documentation calls `max_concurrent_streams` a limit per connection (server.rs
  line 38). The code has one global limit of `max(n, 64) * 4`; some run has a connection with more
  than n live requests exactly when the transport lets a client open more than n streams on a
  connection (`PerConnectionLimitKeptExactlyWhen`).
- With a concurrency limit of 0 no call ever gets anywhere; with any other limit there is no
  deadlock (`ProgressIffPermits`).
- The permits bound the live waiters of the pool but not its queue of senders, which can get longer
  than the limit exactly when a call can get to the pool at all (`QueueBoundedExactlyWhen`).
- A forwarder outlives its call and the response body exactly when the call is cut off between the
  hand-off of the body and the response head, unless it ends by itself (`ForwarderOutlives`).
- A response without data frames and trailers is not finished by the loop (`ServerWritesVerbatim`).
- A response that breaks off, by an error of its body or a failed send, is finished like a complete
  one, so the client cannot tell, and sees the end of the stream where the response has more. The
  exact condition is `ResponseEndTrustedExactlyWhen`.
- The client's loop never finishes a request that broke off, but the forwarder is also aborted, after
  any number of its operations (`AbortAnywhere`). If dropping a send stream finishes it, a cancelled
  upload therefore looks complete to the server; the exact conditions are
  `RequestEndTrustedExactlyWhen` for one upload and `UploadTrustedExactlyWhen` for all.
- After a failed send_request a retry gets the same connection again, unless that is closed by the
  time of the lookup: `invalidate` removes closed entries only (`RetryGetsAnotherExactlyWhen`).
- The drain can stop until a client moves, with or without the signal: a connection task that waits
  for a request head does not look at the cancel (`DrainStuckExactlyWhen`, `SilentClientHoldsDrain`).
- `docs/src/design.md` lists errors that are not retried. In the code the kind of error does not
  matter: a failed pool request or send_request is retried while attempts remain, and any other
  failure, of the request builder or of the response head, ends the call (`RetriedExactlyWhen`).
- Over all attempts of type u32 the backoff is not monotone, because the cast to `i32` wraps at
  attempt 2^31. It is monotone exactly when it is constant (`MonotoneExactlyWhen`); from multiplier
  2 up, and starting below 2^31 ms, that is when there is nothing to wait (`MonotoneFromTwo`).

## Model

| member | source | states |
|---|---|---|
| PoolTheorems.SingleFlight | crates/grpc-quic-client/src/pool.rs:50-107 | in every reachable state an address has one live connector if its slot is Connecting and none otherwise, and every publishing task finds a Connecting slot |
| PoolTheorems.UniqueOpenEntry | crates/grpc-quic-client/src/pool.rs:51-95 | over the whole history of an address at most one published entry is open, an entry is closed before a later round even starts, and the open one is in the slot |
| PoolTheorems.LookupByHistory | crates/grpc-quic-client/src/pool.rs:50-74 | a lookup dials iff no connector is running and no published entry is open, returns at once iff one is open and then with an open one, and otherwise waits, last in the queue |
| PoolTheorems.InvalidateKeepsTheUseful | crates/grpc-quic-client/src/pool.rs:117-124 | after invalidate an address has a slot iff a connector is running or a published entry is open, and no other address is touched |
| PoolTheorems.LookupLeadsTo | crates/grpc-quic-client/src/pool.rs:50-114 | a caller that looks up an address with a published entry ends up with that entry if it is open at the lookup, and otherwise not, unless a connector yields the same connection again |
| PoolTheorems.NoLostWakeup | crates/grpc-quic-client/src/pool.rs:60-114 | blocked callers are exactly the uncancelled queued senders, queues name nobody twice, each blocked caller has a live connector, nobody is sent to twice, the task-cancelled fallback is never returned |
| PoolTheorems.PublishAnswersAll | crates/grpc-quic-client/src/pool.rs:91-105 | publishing sends once to every queued sender and to nobody else, in queue order, gives all the connector's entry or, as a StreamIo, the text of its error, leaves nobody queued, and leaves that entry in the slot or no slot on failure |
| PoolTheorems.AgreementAndProvenance | crates/grpc-quic-client/src/pool.rs:78-104 | callers answered by one round agree, every entry returned or stored under an address was published by a connector for that address, and every error returned is the text of the error of one |
| PoolTheorems.RoundAccounting | crates/grpc-quic-client/src/pool.rs:51-95 | rounds started are succeeded plus failed plus one if Connecting, and at most one more than failed rounds plus closed entries |
| PoolTheorems.AnswerIsNotTheFallback | crates/grpc-quic-client/src/pool.rs:97-114 | no flattened connector error reads like the fallback for a dropped sender |
| Errors.DisplayTellsAll | crates/grpc-quic-client/src/error.rs:9-34 | two errors with the same text are the same error |
| Errors.DisplayEndsInMessage | crates/grpc-quic-client/src/error.rs:9-34 | the text of an error ends in the message it carries |
| Pool.StepKeepsInv | crates/grpc-quic-client/src/pool.rs:40-124 | every step of any caller, connector, close, cancellation or invalidation keeps the pool invariant |
| Pool.PublishFindsConnecting | crates/grpc-quic-client/src/pool.rs:91-92 | the slot a finished connector removes is Connecting and it is the only live connector of its address |
| Pool.DeliverAt | crates/grpc-quic-client/src/pool.rs:96-104 | the send loop over a queue without duplicates changes each queued caller once and no other |
| PoolObject.ConnectionPool.Lookup | crates/grpc-quic-client/src/pool.rs:49-108 | the locked block of get_or_connect does to the map exactly the lookup step the pool theorems are about |
| PoolObject.ConnectionPool.Publish | crates/grpc-quic-client/src/pool.rs:91-105 | the locked block of the connector task, with its loop over the waiters, is exactly the publish step, sends in queue order |
| PoolObject.ConnectionPool.Invalidate | crates/grpc-quic-client/src/pool.rs:117-124 | invalidate does exactly the invalidate step |
| Channel.Run | crates/grpc-quic-client/src/channel.rs:162-305 | the retry loop plays a run of the call automaton: the permit, then attempt by attempt what the script answers, up to the first attempt that is not retried; its result is that of this attempt, or else the final attempt's error, or RetriesExhausted for zero attempts |
| Channel.BoundedRetries | crates/grpc-quic-client/src/channel.rs:162-277 | over every run at most max_attempts pool requests, and the body is handed over at most once, by a successful send_request after which no request is made |
| Channel.ExhaustionReportsFinalError | crates/grpc-quic-client/src/channel.rs:188-192 | a call ends after an invalidation iff it has used all attempts, and then with the error of the last one |
| Channel.ReportsWhatHappened | crates/grpc-quic-client/src/channel.rs:188-315 | over every run the error a call ends with is that of the last failing event, with its text, or DeadlineExceeded for the deadline, or no attempts; a response had a good head and a dropped call was abandoned |
| Channel.InvalidatesAfterFailure | crates/grpc-quic-client/src/channel.rs:188-222 | over every run each retried failure is followed by one invalidation before anything else is tried |
| Channel.DetachedForwarder | crates/grpc-quic-client/src/channel.rs:226-315 | over every run of a call its forwarder runs with no handle and no body left to stop it iff the body was handed off, the call was cut off by deadline or owner afterwards and before the response head, and the forwarder has not ended by itself |
| CallLife.ForwarderOutlives | crates/grpc-quic-client/src/channel.rs:226-315 | over every run of a call and its response body, once the call is over and the body dropped the forwarder still runs iff handed off, cut off before the head and not ended by itself; a dropped body has aborted exactly once, and that stopped the forwarder iff it had not ended |
| CallLife.StepKeepsInv | crates/grpc-quic-core/src/body.rs:76-84 | every step of call, body and drop keeps the handle with the body of a response as long as the forwarder runs |
| Channel.CallSleepsByPolicy | crates/grpc-quic-client/src/channel.rs:164-170 | the sleeps any call begins are a prefix of the policy's backoffs, fewer than max_attempts |
| Channel.DefaultSleeps | crates/grpc-quic-client/src/retry.rs:18-35 | with the default policy the sleeps of any call are a prefix of 100, 200, 400 and 800 ms |
| Channel.CallSleepBelowCaps | crates/grpc-quic-client/src/channel.rs:164-170 | over every run of a call all its sleeping, a sleep that was cut off counted in full, is at most one cap per retry |
| Channel.CallSleepBelowSum | crates/grpc-quic-client/src/channel.rs:164-170 | and for multipliers from 1 up at most the geometric sum of the policy, also past attempt 2^31 |
| Retry.BackoffMonotone | crates/grpc-quic-client/src/retry.rs:31-35 | with multiplier at least 1 the backoff grows up to attempt 2^31, never passes the cap and stays at it once there |
| Retry.BackoffExact | crates/grpc-quic-client/src/retry.rs:31-35 | for any multiplier from 0 up, below cap and 64 bits the backoff is the real product cut to whole milliseconds |
| Retry.BackoffWrapped | crates/grpc-quic-client/src/retry.rs:31-35 | from attempt 2^31 on, below cap and 64 bits the backoff is cut to whole milliseconds from the number that times the power of the wrapped exponent is the initial backoff |
| Retry.DefaultBackoffs | crates/grpc-quic-client/src/retry.rs:18-26 | the default policy doubles from 100 ms and is at 30 s from attempt 9 on |
| Retry.MonotoneExactlyWhen | crates/grpc-quic-client/src/retry.rs:31-35 | over all u32 attempts, for every multiplier from 1 up, the backoff is monotone iff it is constant: multiplier 1, less than 1 ms to start from, or a start that divided by the 2^31-st power of the multiplier still reaches the cap or 64 bits |
| Retry.MonotoneFromTwo | crates/grpc-quic-client/src/retry.rs:31-35 | with a multiplier of at least 2 and less than 2^31 ms to start from it is monotone iff the initial backoff is below 1 ms or the cap is 0 |
| Timeout.TimeoutRoundTrip | crates/grpc-quic-client/src/channel.rs:320-335 | a printed timeout is read back exactly, and its multiplication overflows iff hours or minutes exceed 64 bits of seconds, never with eight digits |
| ClientTheorems.PermitsBoundPool | crates/grpc-quic-client/src/channel.rs:145-193 | permit holders plus free permits are the limit, live pool callers never outnumber the holders, and never more calls than the limit are between permit and end |
| ClientTheorems.CallSafety | crates/grpc-quic-client/src/channel.rs:162-305 | in the composed client each call asks the pool at most max_attempts times, hands its body over at most once, sees RetriesExhausted only for zero attempts, and sends on an entry the pool published for its address |
| ClientTheorems.CallReplays | crates/grpc-quic-client/src/channel.rs:134-316 | every call of the composed client is a run of the call automaton |
| Client.ClientRefinesPool | crates/grpc-quic-client/src/channel.rs:174-222 | every run of the composed client is a run of the pool |
| ClientTheorems.ClientSingleFlight | crates/grpc-quic-client/src/channel.rs:174-193 | single flight and a unique open entry hold for the pool inside the composed client |
| Client.StepKeepsInv | crates/grpc-quic-client/src/channel.rs:144-316 | every step of the composed client keeps permits, tickets and calls consistent with the pool |
| ClientTheorems.ConnectAndRetryTerminates | crates/grpc-quic-client/src/channel.rs:164-222 | in any run calls, pool callers and connectors, with one end per forwarder, take at most 12 * max_attempts + 1 steps per call started |
| ClientTheorems.MeasureStep | crates/grpc-quic-client/src/channel.rs:164-222 | every step of a call, a pool caller or a connector and every end of a forwarder lowers the measure, closes leave it, a new call adds a fixed amount |
| ClientTheorems.ProgressIffPermits | crates/grpc-quic-client/src/channel.rs:145-148 | while a call is unfinished some step other than giving up is possible iff the concurrency limit is positive |
| ClientTheorems.MaximalRunsFinish | crates/grpc-quic-client/src/channel.rs:145-305 | with a positive limit, a run of the composed client that cannot advance any further has finished every call |
| ClientTheorems.QueueLengthNotBounded | crates/grpc-quic-client/src/pool.rs:60-69 | unless limit or attempts are 0, abandoned senders can make the queue of any length with all permits free |
| ClientTheorems.QueueBoundedExactlyWhen | crates/grpc-quic-client/src/pool.rs:60-69 | the queue of senders stays within the limit in all runs iff the limit is 0 or max_attempts is 0 |
| ClientTheorems.RetriedExactlyWhen | crates/grpc-quic-client/src/channel.rs:188-286 | in every run of the composed client a failed attempt can be followed by another pool request of the call iff it was the pool request or send_request that failed, whatever its error, and attempts remain; any other failure ends the call |
| ClientTheorems.RetryGetsAnotherExactlyWhen | crates/grpc-quic-client/src/channel.rs:212-222 | in every run of the composed client, after send_request failed on an entry, a later lookup of the call leads to the same entry if its connection is open at that lookup, and if connectors yield new connections only then |
| ClientTheorems.ConnectErrorsAreTexts | crates/grpc-quic-client/src/pool.rs:97-103 | in every run the error with which a call's pool request fails is a StreamIo with the text of the error of a connector for the channel's address |
| ClientTheorems.FailureLeavesNoClosedEntry | crates/grpc-quic-client/src/channel.rs:188-192 | after the invalidation that follows a failed attempt the slot holds no closed entry |
| Body.ClientGrammar | crates/grpc-quic-core/src/body.rs:124-204 | over all polls at most one trailers frame, nothing but None and one forwarder error after trailers or None, at most one forwarder error in all |
| Body.FusedExactlyWhen | crates/grpc-quic-core/src/body.rs:155-167 | a done client body answers None for ever iff it is closed or its err_rx is gone |
| Body.ErrorAfterEnd | crates/grpc-quic-core/src/body.rs:155-160 | a run in which an error follows None |
| Body.ServerFused | crates/grpc-quic-core/src/body.rs:32-73 | after trailers or None the server body only answers None |
| Body.ClientRefinesServer | crates/grpc-quic-core/src/body.rs:124-204 | without a fired deadline a client body is the server body with forwarder errors interspersed |
| Body.DeadlineAbsorbs | crates/grpc-quic-core/src/body.rs:130-153 | the first poll that sees the deadline gives trailers with grpc-status 4 and no other status, or None if trailers are done, aborts the forwarder, and all later polls are None |
| Body.AbortedOnce | crates/grpc-quic-core/src/body.rs:76-84 | any polls followed by a drop fire a supplied abort handle exactly once |
| Body.ForwarderErrorSurfaces | crates/grpc-quic-core/src/body.rs:155-160 | a forwarder error comes out at the first poll after it was sent, before any data and even after the end |
| Body.PollingDiscipline | crates/grpc-quic-core/src/body.rs:130-201 | oneshot, timer, trailers and ended data are never polled again once complete |
| Body.OutputsAreAnswers | crates/grpc-quic-core/src/body.rs:124-204 | over every poll sequence each output is the unchanged answer of a future that this poll asked, bytes, trailers and errors alike, pends only for one that pends, and no answer is kept back; only the deadline's trailers are made up |
| BodyObjects.ServerRecvBody.PollFrame | crates/grpc-quic-core/src/body.rs:32-73 | the server poll_frame is exactly the poll step of the theorems |
| BodyObjects.ClientRecvBody.PollFrame | crates/grpc-quic-core/src/body.rs:124-204 | the client poll_frame is exactly the poll step, and asks exactly the futures the discipline speaks of |
| BodyObjects.ClientRecvBody.AbortForwarder | crates/grpc-quic-core/src/body.rs:78-83 | taking the handle aborts once and leaves none |
| Forward.ForwardRequest | crates/grpc-quic-client/src/channel.rs:229-276 | the forwarder sends the leading data frames up to a failure, then the trailers or a finish, counts and reports as the closed form says |
| Forward.RespondLoop | crates/grpc-quic-server/src/acceptor.rs:71-113 | the response loop does the same with its own endings: finish after a failure or body error, and after None only if data was seen |
| Forward.ClientWriteProtocol | crates/grpc-quic-client/src/channel.rs:229-276 | data in body order, at most one terminal operation and nothing after it, counter equals the bytes of the successful data sends |
| Forward.ServerWriteProtocol | crates/grpc-quic-server/src/acceptor.rs:71-113 | the same for the response loop |
| Forward.ClientWritesVerbatim | crates/grpc-quic-client/src/channel.rs:229-276 | without errors the operations carry exactly the body's bytes and trailers and complete the stream |
| Forward.ServerWritesVerbatim | crates/grpc-quic-server/src/acceptor.rs:71-113 | the same for responses, completing the stream iff there is a data frame or trailers |
| Forward.ReportsExactlyFailures | crates/grpc-quic-client/src/channel.rs:236-273 | err_tx carries something iff the body or one of the sends failed, and then the text of the one send that failed or of the body's error |
| Forward.BrokenLooksComplete | crates/grpc-quic-server/src/acceptor.rs:95-112 | a response cut short by a body error after at least one frame is written exactly like one that is complete there |
| Delivery.RequestVerbatim | crates/grpc-quic-core/src/body.rs:32-73 | for every body, every outcome of the sends, every point at which the client's loop ends or is aborted, every interleaving, cutting, delay and failure of the stream the server reads a prefix of the request and only None after a terminal output; if nothing was lost or a dropped stream is not finished, a terminal output without a stream failure means that all of the request is through |
| Delivery.ResponseVerbatim | crates/grpc-quic-core/src/body.rs:124-204 | the same for responses read by any new client body, forwarder errors aside, up to the first poll that sees the deadline fired, all of the response if nothing was lost; from there the deadline's trailers or None, then None |
| Delivery.RequestEndTrustedExactlyWhen | crates/grpc-quic-client/src/channel.rs:229-282 | for a loop stopped after any number k of operations: in every run a terminal output without a stream failure means that all of the request is through iff nothing was lost, what comes after k included, or a dropped stream is not finished |
| Delivery.ResponseEndTrustedExactlyWhen | crates/grpc-quic-server/src/acceptor.rs:71-113 | for every client body, and a response loop stopped after any number of operations: in every run a terminal output of its stream without a stream failure means that all of the response is through iff nothing was lost, or no operation ended the stream and a dropped one is not finished |
| Upload.AbortAnywhere | crates/grpc-quic-client/src/channel.rs:279-296 | by a failed response head, by the deadline in the response body or by its drop, an upload can be aborted after any number of its operations |
| Upload.StoppedUpload | crates/grpc-quic-core/src/body.rs:76-84 | whatever call and response body did, once the forwarder has stopped the server can rely on the end of the request iff nothing was lost in what it got round to or a dropped stream is not finished; one that was not aborted got round to everything |
| Upload.UploadTrustedExactlyWhen | crates/grpc-quic-core/src/body.rs:130-153 | over all runs of a call and its response body the server can rely on the end of the request iff a dropped stream is not finished, or there is nothing to send or no attempt, even if every send succeeds |
| Upload.ReportReachesResponse | crates/grpc-quic-core/src/body.rs:155-160 | over every run the response body shows no error but the report of its own forwarder, after that has ended; once it has ended with a report, an open body has shown it or shows it at the next poll that sees no deadline |
| Delivery.EagerReaderFinishes | crates/grpc-quic-core/src/body.rs:38-72 | once all is written, a reader that keeps reading reaches None within one poll per remaining byte and one for the trailers |
| ServerTheorems.PermitConservation | crates/grpc-quic-server/src/server.rs:188-192 | free permits plus live requests over all connections are max(n, 64) * 4; a request whose head has come gets a handler iff fewer than that are live, and otherwise changes no request and no permit |
| ServerTheorems.EveryHeadServed | crates/grpc-quic-server/src/server.rs:302-324 | over every run a connection has had exactly as many requests as request heads that found a permit |
| ServerTheorems.PerConnectionLimitKeptExactlyWhen | crates/grpc-quic-server/src/server.rs:38-42 | some run has a connection with more live requests than the documented limit per connection iff the transport lets a client open more streams than that |
| ServerTheorems.NoSpawnAfterLoop | crates/grpc-quic-server/src/server.rs:197-240 | after the accept loop no connection task is spawned and no cancel is sent again |
| ServerTheorems.ServerHistory | crates/grpc-quic-server/src/server.rs:197-250 | over every run the server leaves the accept loop for the signal or the end of the endpoint and nothing else, sends the cancel iff it was the signal, has a task per accepted connection, and returns for the last join or the timeout |
| ServerTheorems.ConnectionHistory | crates/grpc-quic-server/src/server.rs:272-338 | over every run where a connection task is follows from how often what has happened to it: it accepts until it takes the cancel or its streams end, whatever comes of its streams, and resolves one stream at a time |
| ServerTheorems.CancelReachesAll | crates/grpc-quic-server/src/server.rs:199-229 | every connection task running at the signal has the cancel waiting and keeps it until taken or over |
| ServerTheorems.NothingAcceptedAfterCancel | crates/grpc-quic-server/src/server.rs:284-327 | a connection that took the cancel or stopped accepting gets no request ever after |
| ServerTheorems.DrainIsComplete | crates/grpc-quic-server/src/server.rs:234-250 | a normally finished connection has no live request, and a return without timeout means no connection or request is left and all permits are back |
| ServerTheorems.DrainTerminates | crates/grpc-quic-server/src/server.rs:234-336 | after the accept loop the steps of all tasks are bounded by the work left plus three per stream still offered |
| ServerTheorems.DrainStuckExactlyWhen | crates/grpc-quic-server/src/server.rs:234-327 | while the server joins, it can take a step by itself unless no handler runs, a connection task is left, and every one left waits for its client: for a request head, or idle without the cancel having been sent |
| ServerTheorems.SilentClientHoldsDrain | crates/grpc-quic-server/src/server.rs:199-302 | the run in which, after the signal, a client that opened a stream and sends no request head leaves the server no step of its own |
| Server.StepKeepsInv | crates/grpc-quic-server/src/server.rs:186-338 | every step of the server keeps permits, cancel mail and request ownership consistent |
| ServerLoops.HandleConnection | crates/grpc-quic-server/src/server.rs:255-339 | under any interleaving handle_connection runs through exactly what the script lets happen, and the last join as soon as it can; it spawns a handler for exactly the request heads that found a permit; it comes to its end iff the task is finished, and has then joined every request of the connection exactly once, each of them over |
| ServerLoops.AcceptLoop | crates/grpc-quic-server/src/server.rs:197-231 | the accept loop runs through exactly what the script lets happen, with one task per accepted connection in the JoinSet; it is left iff the signal or the end of the endpoint came, uses up the script otherwise, and the cancel is sent iff it was the signal |
| ServerLoops.Serve | crates/grpc-quic-server/src/server.rs:162-251 | serve runs through exactly what the script lets happen and returns as soon as all is joined; if it returns without the timeout, every connection task was joined exactly once and is finished |

## Left out

- quinn, h3 and rustls: only a connection with a closed bit and an ordered stream appear.
- Headers, URI and method copying, tonic and protobuf encoding, tracing, and metrics other than the bytes-sent counter.
- `StaticResolver` and the builders: setters and a filter.
- The start of `handle_request`: the 500 answers when the service fails and the return when the response head cannot be sent.
- Floating point: `backoff_for` is over the reals, with the saturating cast to u64 and the wrapping cast to i32 kept.
- Clocks and fairness: a timer is an event that may fire at any time, and a scheduler may pick any enabled step.
- Panics of connector futures, and the dropping of the serve future or of the runtime.
- What quinn does with a dropped send stream, which is not part of this model: both possibilities are covered by the parameter `closes`.
- The part of a frame that a failed or aborted send may leave on the stream: taken to be nothing.
- Semaphores: a free permit may go to any waiting call, and they are never closed, as in the code.
- Requests of an aborted connection end one by one at any later time, as aborted tasks do.
- `TlsConfig`, `endpoint.reject_new_connections` and `endpoint.close`: foreign calls without effect on the modelled state.
- BackoffMonotone: stated for attempts below 2^31, because over all u32 attempts it is false except in the cases of MonotoneExactlyWhen, and for multipliers of at least 1, because with less the backoff falls.
- TimeoutRoundTrip: says nothing about strings that are no printed timeout, such as a value with a leading plus, which the code accepts.

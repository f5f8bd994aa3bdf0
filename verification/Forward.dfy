/**
 The two write loops: the client's body forwarder (crates/grpc-quic-client/src/channel.rs) and
 the server's response loop (crates/grpc-quic-server/src/acceptor.rs).
 */
module Forward {
  import opened Common
  import opened Body

  datatype Frame = DataFrame(bytes: Bytes) | TrailersFrame(headers: Headers)

  // What polling the body yields before its final `None`.
  datatype Item = Got(frame: Frame) | Broken(text: string)

  datatype SendOp = SendData(bytes: Bytes) | SendTrailers(headers: Headers) | Finish

  // How the i-th operation on the send stream turns out.
  type SendResults = nat -> Option<string>

  // `report` is what goes to err_tx, `counted` what was added to the bytes-sent counter.
  datatype Forwarding = Forwarding(ops: seq<SendOp>, report: Option<string>, counted: nat)

  predicate IsData(item: Item) {
    item.Got? && item.frame.DataFrame?
  }

  function LeadingData(items: seq<Item>): (n: nat)
    ensures n <= |items|
    ensures forall k :: 0 <= k < n ==> IsData(items[k])
    ensures n < |items| ==> !IsData(items[n])
  {
    if items == [] || !IsData(items[0]) then 0 else 1 + LeadingData(items[1..])
  }

  function FirstFailure(res: SendResults, i: nat, n: nat): (f: nat)
    requires i <= n
    ensures i <= f <= n
    ensures forall k :: i <= k < f ==> res(k).None?
    ensures f < n ==> res(f).Some?
    decreases n - i
  {
    if i == n || res(i).Some? then i else FirstFailure(res, i + 1, n)
  }

  function DataOps(items: seq<Item>, n: nat): (ops: seq<SendOp>)
    requires n <= LeadingData(items)
    ensures |ops| == n
  {
    seq(n, k requires 0 <= k < n => SendData(items[k].frame.bytes))
  }

  // The bytes of the first n frames.
  function DataBytes(items: seq<Item>, n: nat): Bytes
    requires n <= LeadingData(items)
  {
    if n == 0 then [] else DataBytes(items, n - 1) + items[n - 1].frame.bytes
  }

  // ---------------------------------------------------------------- the client's forwarder

  /**
   All frames before the first that is no data frame go out as data, until one fails; then the
   trailers or, at the end of the body, a finish. A failure or a body error is reported once.
   */
  function ClientForward(items: seq<Item>, res: SendResults): Forwarding {
    var n := LeadingData(items);
    var f := FirstFailure(res, 0, n);
    if f < n then Forwarding(DataOps(items, f + 1), res(f), |DataBytes(items, f)|)
    else
      var sent, counted := DataOps(items, n), |DataBytes(items, n)|;
      if n == |items| then Forwarding(sent + [Finish], res(n), counted)
      else match items[n]
        case Got(TrailersFrame(h)) => Forwarding(sent + [SendTrailers(h)], res(n), counted)
        case Broken(e) => Forwarding(sent, Some(e), counted)
  }

  method ForwardRequest(items: seq<Item>, res: SendResults) returns (r: Forwarding)
    ensures r == ClientForward(items, res)
  {
    var ops: seq<SendOp>, counted := [], 0;
    var n := 0;
    while n < |items|
      invariant n <= LeadingData(items)
      invariant n <= FirstFailure(res, 0, LeadingData(items))
      invariant ops == DataOps(items, n) && counted == |DataBytes(items, n)|
    {
      match items[n] {
        case Got(DataFrame(bytes)) =>
          ops := ops + [SendData(bytes)];
          if res(n).Some? {
            return Forwarding(ops, res(n), counted);
          }
          counted := counted + |bytes|;
        case Got(TrailersFrame(headers)) =>
          return Forwarding(ops + [SendTrailers(headers)], res(n), counted);
        case Broken(e) =>
          return Forwarding(ops, Some(e), counted);
      }
      n := n + 1;
    }
    return Forwarding(ops + [Finish], res(n), counted);
  }

  // ---------------------------------------------------------------- the server's response loop

  /**
   The same data run; but a failed send and a body error end in a finish, and at the end of the
   body the stream is finished only if there was a data frame.
   */
  function ServerRespond(items: seq<Item>, res: SendResults): Forwarding {
    var n := LeadingData(items);
    var f := FirstFailure(res, 0, n);
    if f < n then Forwarding(DataOps(items, f + 1) + [Finish], None, |DataBytes(items, f)|)
    else
      var sent, counted := DataOps(items, n), |DataBytes(items, n)|;
      if n == |items| then Forwarding(if n > 0 then sent + [Finish] else sent, None, counted)
      else match items[n]
        case Got(TrailersFrame(h)) => Forwarding(sent + [SendTrailers(h)], None, counted)
        case Broken(_) => Forwarding(sent + [Finish], None, counted)
  }

  method RespondLoop(items: seq<Item>, res: SendResults) returns (r: Forwarding)
    ensures r == ServerRespond(items, res)
  {
    var ops: seq<SendOp>, counted := [], 0;
    var dataFrameReceived := false;
    var n := 0;
    while true
      invariant n <= LeadingData(items)
      invariant n <= FirstFailure(res, 0, LeadingData(items))
      invariant ops == DataOps(items, n) && counted == |DataBytes(items, n)|
      invariant dataFrameReceived <==> n > 0
      decreases |items| - n
    {
      if n == |items| {
        if dataFrameReceived {
          ops := ops + [Finish];
        }
        return Forwarding(ops, None, counted);
      }
      match items[n] {
        case Got(DataFrame(bytes)) =>
          dataFrameReceived := true;
          ops := ops + [SendData(bytes)];
          if res(n).Some? {
            break;
          }
          counted := counted + |bytes|;
        case Got(TrailersFrame(headers)) =>
          return Forwarding(ops + [SendTrailers(headers)], None, counted);
        case Broken(_) =>
          break;
      }
      n := n + 1;
    }
    return Forwarding(ops + [Finish], None, counted);
  }

  // ---------------------------------------------------------------- the write protocol

  // Data operations, then at most one terminal one and nothing after it.
  predicate Protocol(ops: seq<SendOp>) {
    forall i :: 0 <= i < |ops| - 1 ==> ops[i].SendData?
  }

  // The stream was brought to a proper end.
  predicate Complete(ops: seq<SendOp>) {
    Protocol(ops) && ops != [] && !ops[|ops| - 1].SendData?
  }

  function Payload(ops: seq<SendOp>): Bytes {
    if ops == [] then []
    else Payload(ops[..|ops| - 1]) + if ops[|ops| - 1].SendData? then ops[|ops| - 1].bytes else []
  }

  // Bytes of the data operations that succeeded.
  function SucceededBytes(ops: seq<SendOp>, res: SendResults): nat {
    if ops == [] then 0
    else
      var n := |ops| - 1;
      SucceededBytes(ops[..n], res) + if ops[n].SendData? && res(n).None? then |ops[n].bytes| else 0
  }

  lemma {:induction false} DataOpsBytes(items: seq<Item>, n: nat, res: SendResults)
    requires n <= LeadingData(items)
    requires forall k :: 0 <= k < n ==> res(k).None?
    ensures SucceededBytes(DataOps(items, n), res) == |DataBytes(items, n)|
  {
    if n == 0 {
    } else {
      assert DataOps(items, n)[..n - 1] == DataOps(items, n - 1);
      DataOpsBytes(items, n - 1, res);
    }
  }

  lemma {:induction false} DataOpsPayload(items: seq<Item>, n: nat)
    requires n <= LeadingData(items)
    ensures Payload(DataOps(items, n)) == DataBytes(items, n)
  {
    if n == 0 {
    } else {
      assert DataOps(items, n)[..n - 1] == DataOps(items, n - 1);
      DataOpsPayload(items, n - 1);
    }
  }

  lemma OneMoreOp(ops: seq<SendOp>, op: SendOp, res: SendResults)
    ensures SucceededBytes(ops + [op], res) ==
            SucceededBytes(ops, res) + if op.SendData? && res(|ops|).None? then |op.bytes| else 0
  {
    assert (ops + [op])[..|ops|] == ops;
  }

  lemma OneMorePayload(ops: seq<SendOp>, op: SendOp)
    ensures Payload(ops + [op]) == Payload(ops) + if op.SendData? then op.bytes else []
  {
    assert (ops + [op])[..|ops|] == ops;
  }

  lemma CutRunBytes(items: seq<Item>, f: nat, res: SendResults)
    requires f < LeadingData(items) && res(f).Some?
    requires forall k :: 0 <= k < f ==> res(k).None?
    ensures SucceededBytes(DataOps(items, f + 1), res) == |DataBytes(items, f)|
  {
    DataOpsBytes(items, f, res);
    OneMoreOp(DataOps(items, f), SendData(items[f].frame.bytes), res);
    assert DataOps(items, f + 1) == DataOps(items, f) + [SendData(items[f].frame.bytes)];
  }

  // The data operations are the leading data frames, in order.
  predicate InBodyOrder(ops: seq<SendOp>, items: seq<Item>) {
    forall i :: 0 <= i < |ops| && ops[i].SendData? ==> i < |items| && items[i] == Got(DataFrame(ops[i].bytes))
  }

  lemma DataThenOne(items: seq<Item>, n: nat, last: SendOp)
    requires n <= LeadingData(items) && !last.SendData?
    ensures Protocol(DataOps(items, n)) && InBodyOrder(DataOps(items, n), items)
    ensures Protocol(DataOps(items, n) + [last]) && InBodyOrder(DataOps(items, n) + [last], items)
  {
  }

  /**
   Whatever the body yields and however the sends turn out, the client's loop sends data in body
   order, then at most one terminal operation, and counts the bytes of the sends that succeeded.
   */
  lemma ClientWriteProtocol(items: seq<Item>, res: SendResults)
    ensures var c := ClientForward(items, res);
            Protocol(c.ops) && InBodyOrder(c.ops, items) && c.counted == SucceededBytes(c.ops, res)
  {
    var n := LeadingData(items);
    var f := FirstFailure(res, 0, n);
    if f < n {
      CutRunBytes(items, f, res);
      DataThenOne(items, f + 1, Finish);
    } else {
      DataOpsBytes(items, n, res);
      var last := if n < |items| && items[n].Got? then SendTrailers(items[n].frame.headers) else Finish;
      DataThenOne(items, n, last);
      OneMoreOp(DataOps(items, n), last, res);
    }
  }

  /** The same of the server's loop. */
  lemma ServerWriteProtocol(items: seq<Item>, res: SendResults)
    ensures var s := ServerRespond(items, res);
            Protocol(s.ops) && InBodyOrder(s.ops, items) && s.counted == SucceededBytes(s.ops, res)
  {
    var n := LeadingData(items);
    var f := FirstFailure(res, 0, n);
    if f < n {
      CutRunBytes(items, f, res);
      DataThenOne(items, f + 1, Finish);
      OneMoreOp(DataOps(items, f + 1), Finish, res);
    } else {
      DataOpsBytes(items, n, res);
      var last := if n < |items| && items[n].Got? then SendTrailers(items[n].frame.headers) else Finish;
      DataThenOne(items, n, last);
      OneMoreOp(DataOps(items, n), last, res);
    }
  }

  function TrailersOfItems(items: seq<Item>): seq<Headers> {
    var n := LeadingData(items);
    if n < |items| && items[n].Got? then [items[n].frame.headers] else []
  }

  function BytesOfItems(items: seq<Item>): Bytes {
    DataBytes(items, LeadingData(items))
  }

  function FinalTrailers(ops: seq<SendOp>): seq<Headers> {
    if ops != [] && ops[|ops| - 1].SendTrailers? then [ops[|ops| - 1].headers] else []
  }

  predicate ErrorFree(items: seq<Item>) {
    var n := LeadingData(items);
    n < |items| ==> items[n].Got?
  }

  // How the operations for an error-free body end.
  function LastOp(items: seq<Item>): SendOp {
    var n := LeadingData(items);
    if n < |items| && items[n].Got? then SendTrailers(items[n].frame.headers) else Finish
  }

  function PlainOps(items: seq<Item>): seq<SendOp> {
    DataOps(items, LeadingData(items)) + [LastOp(items)]
  }

  lemma PlainOpsVerbatim(items: seq<Item>)
    requires ErrorFree(items)
    ensures Complete(PlainOps(items))
    ensures Payload(PlainOps(items)) == BytesOfItems(items)
    ensures FinalTrailers(PlainOps(items)) == TrailersOfItems(items)
  {
    var n := LeadingData(items);
    DataOpsPayload(items, n);
    OneMorePayload(DataOps(items, n), LastOp(items));
    DataThenOne(items, n, LastOp(items));
  }

  /**
   With an error-free body and no failing send, the operations carry exactly the body's bytes and
   trailers. The client always completes the stream.
   */
  lemma ClientWritesVerbatim(items: seq<Item>, res: SendResults)
    requires ErrorFree(items) && forall i :: res(i).None?
    ensures var c := ClientForward(items, res).ops;
            Complete(c) && Payload(c) == BytesOfItems(items) && FinalTrailers(c) == TrailersOfItems(items)
  {
    assert ClientForward(items, res).ops == PlainOps(items);
    PlainOpsVerbatim(items);
  }

  /** The server completes it exactly when the response has a data frame or trailers. */
  lemma ServerWritesVerbatim(items: seq<Item>, res: SendResults)
    requires ErrorFree(items) && forall i :: res(i).None?
    ensures var s := ServerRespond(items, res).ops;
            && Payload(s) == BytesOfItems(items)
            && FinalTrailers(s) == TrailersOfItems(items)
            && (Complete(s) <==> items != [])
  {
    if items != [] {
      assert ServerRespond(items, res).ops == PlainOps(items);
      PlainOpsVerbatim(items);
    }
  }

  // What there is to report: the failure of the last operation, or the body's own error after all
  // operations have succeeded.
  ghost predicate Grounds(items: seq<Item>, c: Forwarding, res: SendResults, text: string) {
    || (c.ops != [] && res(|c.ops| - 1) == Some(text) && forall i :: 0 <= i < |c.ops| - 1 ==> res(i).None?)
    || (|c.ops| < |items| && items[|c.ops|] == Broken(text) && forall i :: 0 <= i < |c.ops| ==> res(i).None?)
  }

  /**
   The forwarder reports at most once, exactly when something went wrong, and what: the text of the
   one send that failed, or of the body's error.
   */
  lemma ReportsExactlyFailures(items: seq<Item>, res: SendResults)
    ensures var c := ClientForward(items, res);
            && (c.report.None? <==> ErrorFree(items) && forall i :: 0 <= i < |c.ops| ==> res(i).None?)
            && (forall text :: c.report == Some(text) ==> Grounds(items, c, res, text))
  {
    ClientOps(items, res);
  }

  // ---------------------------------------------------------------- what gets onto the stream

  function Succeeded(ops: seq<SendOp>, res: SendResults): seq<SendOp> {
    if ops == [] then []
    else
      var n := |ops| - 1;
      Succeeded(ops[..n], res) + if res(n).None? then [ops[n]] else []
  }

  // `closes` says whether dropping a send stream that was not brought to an end finishes it.
  function OnWire(ops: seq<SendOp>, res: SendResults, closes: bool): seq<SendOp> {
    var sent := Succeeded(ops, res);
    if closes && !Complete(sent) then sent + [Finish] else sent
  }

  // k data frames and perhaps a terminal operation.
  function Wire(items: seq<Item>, k: nat, last: Option<SendOp>): seq<SendOp>
    requires k <= LeadingData(items)
  {
    DataOps(items, k) + if last.Some? then [last.value] else []
  }

  function TrailersIn(last: Option<SendOp>): seq<Headers> {
    if last.Some? && last.value.SendTrailers? then [last.value.headers] else []
  }

  lemma WireShape(items: seq<Item>, k: nat, last: Option<SendOp>)
    requires k <= LeadingData(items) && (last.Some? ==> !last.value.SendData?)
    ensures var w := Wire(items, k, last);
            && Protocol(w) && (Complete(w) <==> last.Some?)
            && Payload(w) == DataBytes(items, k)
            && FinalTrailers(w) == TrailersIn(last)
  {
    DataOpsPayload(items, k);
    if last.Some? {
      DataThenOne(items, k, last.value);
      OneMorePayload(DataOps(items, k), last.value);
    } else {
      assert Wire(items, k, last) == DataOps(items, k);
    }
  }

  lemma {:induction false} DataBytesGrow(items: seq<Item>, k: nat, n: nat)
    requires k <= n <= LeadingData(items)
    ensures DataBytes(items, k) <= DataBytes(items, n)
    decreases n
  {
    if k == n {
    } else {
      DataBytesGrow(items, k, n - 1);
    }
  }

  lemma SucceededAppend(ops: seq<SendOp>, op: SendOp, res: SendResults)
    ensures Succeeded(ops + [op], res) == Succeeded(ops, res) + if res(|ops|).None? then [op] else []
  {
    assert (ops + [op])[..|ops|] == ops;
  }

  lemma {:induction false} SucceededData(items: seq<Item>, n: nat, res: SendResults)
    requires n <= LeadingData(items)
    requires forall k :: 0 <= k < n ==> res(k).None?
    ensures Succeeded(DataOps(items, n), res) == DataOps(items, n)
  {
    if n == 0 {
    } else {
      assert DataOps(items, n) == DataOps(items, n - 1) + [SendData(items[n - 1].frame.bytes)];
      SucceededData(items, n - 1, res);
      SucceededAppend(DataOps(items, n - 1), SendData(items[n - 1].frame.bytes), res);
    }
  }

  // The data run up to and including its first failure.
  lemma SucceededCut(items: seq<Item>, f: nat, res: SendResults)
    requires f < LeadingData(items) && res(f).Some?
    requires forall k :: 0 <= k < f ==> res(k).None?
    ensures Succeeded(DataOps(items, f + 1), res) == DataOps(items, f)
  {
    SucceededData(items, f, res);
    SucceededAppend(DataOps(items, f), SendData(items[f].frame.bytes), res);
    assert DataOps(items, f + 1) == DataOps(items, f) + [SendData(items[f].frame.bytes)];
  }

  // The terminal operation a loop leaves on the stream, given whether it issued `op` and that
  // succeeded, or else the drop of the stream.
  function EndOnWire(op: SendOp, succeeded: bool, closes: bool): Option<SendOp> {
    if succeeded then Some(op) else if closes then Some(Finish) else None
  }

  function ClientEnd(items: seq<Item>, res: SendResults, closes: bool): Option<SendOp> {
    var n := LeadingData(items);
    EndOnWire(LastOp(items), FirstFailure(res, 0, n) == n && ErrorFree(items) && res(n).None?, closes)
  }

  function ServerEnd(items: seq<Item>, res: SendResults, closes: bool): Option<SendOp> {
    var n := LeadingData(items);
    var f := FirstFailure(res, 0, n);
    if f < n then EndOnWire(Finish, res(f + 1).None?, closes)
    else EndOnWire(LastOp(items), items != [] && res(n).None?, closes)
  }

  lemma ClosedWire(items: seq<Item>, k: nat, op: SendOp, succeeded: bool, closes: bool)
    requires k <= LeadingData(items) && !op.SendData?
    ensures var w := Wire(items, k, EndOnWire(op, succeeded, false));
            (if closes && !Complete(w) then w + [Finish] else w) == Wire(items, k, EndOnWire(op, succeeded, closes))
  {
    WireShape(items, k, EndOnWire(op, succeeded, false));
  }

  // The data run up to its first failure, and then a finish.
  lemma CutSent(items: seq<Item>, f: nat, res: SendResults)
    requires f < LeadingData(items) && res(f).Some?
    requires forall k :: 0 <= k < f ==> res(k).None?
    ensures Succeeded(DataOps(items, f + 1) + [Finish], res) ==
            Wire(items, f, EndOnWire(Finish, res(f + 1).None?, false))
  {
    SucceededCut(items, f, res);
    SucceededAppend(DataOps(items, f + 1), Finish, res);
  }

  lemma PlainSent(items: seq<Item>, res: SendResults)
    requires FirstFailure(res, 0, LeadingData(items)) == LeadingData(items)
    ensures Succeeded(PlainOps(items), res) ==
            Wire(items, LeadingData(items), EndOnWire(LastOp(items), res(LeadingData(items)).None?, false))
  {
    SucceededData(items, LeadingData(items), res);
    SucceededAppend(DataOps(items, LeadingData(items)), LastOp(items), res);
  }

  lemma ClientOps(items: seq<Item>, res: SendResults)
    ensures var n := LeadingData(items);
            var f := FirstFailure(res, 0, n);
            ClientForward(items, res).ops ==
            if f < n then DataOps(items, f + 1) else if ErrorFree(items) then PlainOps(items) else DataOps(items, n)
  {
  }

  lemma ServerOps(items: seq<Item>, res: SendResults)
    ensures var n := LeadingData(items);
            var f := FirstFailure(res, 0, n);
            ServerRespond(items, res).ops ==
            if f < n then DataOps(items, f + 1) + [Finish] else if items != [] then PlainOps(items) else []
  {
  }

  lemma ClientSent(items: seq<Item>, res: SendResults)
    ensures Succeeded(ClientForward(items, res).ops, res) ==
            Wire(items, FirstFailure(res, 0, LeadingData(items)), ClientEnd(items, res, false))
  {
    var n := LeadingData(items);
    var f := FirstFailure(res, 0, n);
    ClientOps(items, res);
    if f < n {
      SucceededCut(items, f, res);
    } else if ErrorFree(items) {
      PlainSent(items, res);
    } else {
      SucceededData(items, n, res);
    }
  }

  lemma ClientWire(items: seq<Item>, res: SendResults, closes: bool)
    ensures OnWire(ClientForward(items, res).ops, res, closes) ==
            Wire(items, FirstFailure(res, 0, LeadingData(items)), ClientEnd(items, res, closes))
  {
    var n := LeadingData(items);
    var f := FirstFailure(res, 0, n);
    ClientSent(items, res);
    ClosedWire(items, f, LastOp(items), f == n && ErrorFree(items) && res(n).None?, closes);
  }

  lemma ServerSent(items: seq<Item>, res: SendResults)
    ensures Succeeded(ServerRespond(items, res).ops, res) ==
            Wire(items, FirstFailure(res, 0, LeadingData(items)), ServerEnd(items, res, false))
  {
    var n := LeadingData(items);
    var f := FirstFailure(res, 0, n);
    ServerOps(items, res);
    if f < n {
      CutSent(items, f, res);
    } else if items != [] {
      PlainSent(items, res);
    }
  }

  lemma ServerWire(items: seq<Item>, res: SendResults, closes: bool)
    ensures OnWire(ServerRespond(items, res).ops, res, closes) ==
            Wire(items, FirstFailure(res, 0, LeadingData(items)), ServerEnd(items, res, closes))
  {
    var n := LeadingData(items);
    var f := FirstFailure(res, 0, n);
    ServerSent(items, res);
    if f < n {
      ClosedWire(items, f, Finish, res(f + 1).None?, closes);
    } else {
      ClosedWire(items, f, LastOp(items), items != [] && res(n).None?, closes);
    }
  }

  // The stream carries the whole body.
  predicate Whole(items: seq<Item>, ops: seq<SendOp>) {
    ErrorFree(items) && Payload(ops) == BytesOfItems(items) && FinalTrailers(ops) == TrailersOfItems(items)
  }

  // No body error, and no failed send that carried bytes or trailers or kept others from being sent.
  predicate Lossless(items: seq<Item>, res: SendResults) {
    var n := LeadingData(items);
    var f := FirstFailure(res, 0, n);
    && ErrorFree(items)
    && (f < n ==> DataBytes(items, f) == BytesOfItems(items) && TrailersOfItems(items) == [])
    && (f == n ==> TrailersOfItems(items) == [] || res(n).None?)
  }

  // Whatever fails, the stream carries part of the body and nothing else.
  ghost predicate WirePart(items: seq<Item>, ops: seq<SendOp>) {
    Protocol(ops) && Payload(ops) <= BytesOfItems(items) && FinalTrailers(ops) <= TrailersOfItems(items)
  }

  predicate WholeEnd(items: seq<Item>, k: nat, last: Option<SendOp>)
    requires k <= LeadingData(items)
  {
    ErrorFree(items) && DataBytes(items, k) == BytesOfItems(items) && TrailersIn(last) == TrailersOfItems(items)
  }

  lemma WireCarries(items: seq<Item>, k: nat, last: Option<SendOp>)
    requires k <= LeadingData(items) && (last.Some? ==> !last.value.SendData?)
    requires TrailersIn(last) <= TrailersOfItems(items)
    ensures WirePart(items, Wire(items, k, last))
    ensures Complete(Wire(items, k, last)) <==> last.Some?
    ensures Whole(items, Wire(items, k, last)) <==> WholeEnd(items, k, last)
  {
    WireShape(items, k, last);
    DataBytesGrow(items, k, LeadingData(items));
  }

  lemma ClientEnds(items: seq<Item>, res: SendResults, closes: bool)
    ensures var last := ClientEnd(items, res, closes);
            var f := FirstFailure(res, 0, LeadingData(items));
            && (last.Some? ==> !last.value.SendData?)
            && TrailersIn(last) <= TrailersOfItems(items)
            && ((last.Some? ==> WholeEnd(items, f, last)) <==> Lossless(items, res) || !closes)
  {
  }

  // The operation that would end the response fails; with items there is always one.
  predicate ServerEndFails(items: seq<Item>, res: SendResults) {
    var n := LeadingData(items);
    var f := FirstFailure(res, 0, n);
    items != [] && res(if f < n then f + 1 else n).Some?
  }

  lemma ServerEnds(items: seq<Item>, res: SendResults, closes: bool)
    ensures var last := ServerEnd(items, res, closes);
            var f := FirstFailure(res, 0, LeadingData(items));
            && (last.Some? ==> !last.value.SendData?)
            && TrailersIn(last) <= TrailersOfItems(items)
            && ((last.Some? ==> WholeEnd(items, f, last)) <==>
                  Lossless(items, res) || (!closes && ServerEndFails(items, res)))
  {
  }

  // ---------------------------------------------------------------- loops that are stopped

  // A task that is aborted stops between two of its operations. That leaves on the stream what
  // would be there if from then on all operations failed.
  function Cut(res: SendResults, k: nat): SendResults {
    (i: nat) => if i < k then res(i) else Some("not issued")
  }

  lemma FirstFailureCut(res: SendResults, k: nat, n: nat)
    ensures var f := FirstFailure(res, 0, n);
            FirstFailure(Cut(res, k), 0, n) == if k < f then k else f
  {
    var f, g := FirstFailure(res, 0, n), FirstFailure(Cut(res, k), 0, n);
    assert g < k ==> Cut(res, k)(g) == res(g);
    assert f < k ==> Cut(res, k)(f) == res(f);
    assert k < g ==> Cut(res, k)(k).Some?;
  }

  // A stop either falls into the data that goes through, or finds nothing more to issue.
  lemma ClientStops(items: seq<Item>, res: SendResults, k: nat)
    requires k <= |ClientForward(items, res).ops|
    ensures var f := FirstFailure(res, 0, LeadingData(items));
            ClientForward(items, res).ops[..k] == if k <= f then DataOps(items, k) else ClientForward(items, res).ops
  {
    ClientOps(items, res);
  }

  // Or between a failed send and the finish after it.
  lemma ServerStops(items: seq<Item>, res: SendResults, k: nat)
    requires k <= |ServerRespond(items, res).ops|
    ensures var ops := ServerRespond(items, res).ops;
            var f := FirstFailure(res, 0, LeadingData(items));
            ops[..k] == if k <= f then DataOps(items, k) else if k == |ops| then ops else DataOps(items, f + 1)
    ensures FirstFailure(res, 0, LeadingData(items)) < k < |ServerRespond(items, res).ops| ==>
              FirstFailure(res, 0, LeadingData(items)) < LeadingData(items)
  {
    ServerOps(items, res);
  }

  lemma ClientCutEnd(items: seq<Item>, res: SendResults, k: nat)
    requires k <= |ClientForward(items, res).ops|
    ensures ClientEnd(items, Cut(res, k), false) ==
            if k <= FirstFailure(res, 0, LeadingData(items)) then None else ClientEnd(items, res, false)
  {
    ClientOps(items, res);
    FirstFailureCut(res, k, LeadingData(items));
  }

  lemma ServerCutEnd(items: seq<Item>, res: SendResults, k: nat)
    requires k <= |ServerRespond(items, res).ops|
    ensures ServerEnd(items, Cut(res, k), false) ==
            if k < |ServerRespond(items, res).ops| then None else ServerEnd(items, res, false)
  {
    ServerOps(items, res);
    FirstFailureCut(res, k, LeadingData(items));
  }

  lemma ClientCut(items: seq<Item>, res: SendResults, k: nat)
    requires k <= |ClientForward(items, res).ops|
    ensures Succeeded(ClientForward(items, res).ops[..k], res) ==
            Succeeded(ClientForward(items, Cut(res, k)).ops, Cut(res, k))
  {
    var f := FirstFailure(res, 0, LeadingData(items));
    ClientStops(items, res, k);
    ClientSent(items, Cut(res, k));
    ClientCutEnd(items, res, k);
    FirstFailureCut(res, k, LeadingData(items));
    if k <= f {
      SucceededData(items, k, res);
    } else {
      ClientSent(items, res);
    }
  }

  lemma ServerCut(items: seq<Item>, res: SendResults, k: nat)
    requires k <= |ServerRespond(items, res).ops|
    ensures Succeeded(ServerRespond(items, res).ops[..k], res) ==
            Succeeded(ServerRespond(items, Cut(res, k)).ops, Cut(res, k))
  {
    var f := FirstFailure(res, 0, LeadingData(items));
    ServerStops(items, res, k);
    ServerSent(items, Cut(res, k));
    ServerCutEnd(items, res, k);
    FirstFailureCut(res, k, LeadingData(items));
    if k == |ServerRespond(items, res).ops| {
      ServerSent(items, res);
    } else if k <= f {
      SucceededData(items, k, res);
    } else {
      SucceededCut(items, f, res);
    }
  }

  // A loop that has issued everything is not stopped by anything.
  lemma UncutRequest(items: seq<Item>, res: SendResults)
    ensures Lossless(items, Cut(res, |ClientForward(items, res).ops|)) <==> Lossless(items, res)
  {
    ClientOps(items, res);
    FirstFailureCut(res, |ClientForward(items, res).ops|, LeadingData(items));
  }

  lemma UncutResponse(items: seq<Item>, res: SendResults)
    ensures var k := |ServerRespond(items, res).ops|;
            && (Lossless(items, Cut(res, k)) <==> Lossless(items, res))
            && (ServerEndFails(items, Cut(res, k)) <==> ServerEndFails(items, res))
  {
    ServerOps(items, res);
    FirstFailureCut(res, |ServerRespond(items, res).ops|, LeadingData(items));
  }

  // What the stream has of a request whose loop was stopped after k operations.
  function RequestWire(items: seq<Item>, res: SendResults, k: nat, closes: bool): seq<SendOp>
    requires k <= |ClientForward(items, res).ops|
  {
    OnWire(ClientForward(items, res).ops[..k], res, closes)
  }

  function ResponseWire(items: seq<Item>, res: SendResults, k: nat, closes: bool): seq<SendOp>
    requires k <= |ServerRespond(items, res).ops|
  {
    OnWire(ServerRespond(items, res).ops[..k], res, closes)
  }

  lemma RequestWireShape(items: seq<Item>, res: SendResults, k: nat, closes: bool)
    requires k <= |ClientForward(items, res).ops|
    ensures RequestWire(items, res, k, closes) ==
            Wire(items, FirstFailure(Cut(res, k), 0, LeadingData(items)), ClientEnd(items, Cut(res, k), closes))
  {
    ClientCut(items, res, k);
    ClientWire(items, Cut(res, k), closes);
  }

  lemma ResponseWireShape(items: seq<Item>, res: SendResults, k: nat, closes: bool)
    requires k <= |ServerRespond(items, res).ops|
    ensures ResponseWire(items, res, k, closes) ==
            Wire(items, FirstFailure(Cut(res, k), 0, LeadingData(items)), ServerEnd(items, Cut(res, k), closes))
  {
    ServerCut(items, res, k);
    ServerWire(items, Cut(res, k), closes);
  }

  lemma RequestOnWire(items: seq<Item>, res: SendResults, k: nat, closes: bool)
    requires k <= |ClientForward(items, res).ops|
    ensures var w := RequestWire(items, res, k, closes);
            WirePart(items, w) && ((Complete(w) ==> Whole(items, w)) <==> Lossless(items, Cut(res, k)) || !closes)
  {
    var cut := Cut(res, k);
    RequestWireShape(items, res, k, closes);
    ClientEnds(items, cut, closes);
    WireCarries(items, FirstFailure(cut, 0, LeadingData(items)), ClientEnd(items, cut, closes));
  }

  lemma ResponseOnWire(items: seq<Item>, res: SendResults, k: nat, closes: bool)
    requires k <= |ServerRespond(items, res).ops|
    ensures var w := ResponseWire(items, res, k, closes);
            && WirePart(items, w)
            && ((Complete(w) ==> Whole(items, w)) <==>
                  Lossless(items, Cut(res, k)) || (!closes && ServerEndFails(items, Cut(res, k))))
  {
    var cut := Cut(res, k);
    ResponseWireShape(items, res, k, closes);
    ServerEnds(items, cut, closes);
    WireCarries(items, FirstFailure(cut, 0, LeadingData(items)), ServerEnd(items, cut, closes));
  }

  lemma {:induction false} SameBytes(items: seq<Item>, n: nat, k: nat)
    requires n == LeadingData(items) && k <= n
    ensures LeadingData(items[..n]) == n && DataBytes(items[..n], k) == DataBytes(items, k)
  {
    assert LeadingData(items[..n]) == n;
    if k == 0 {
    } else {
      SameBytes(items, n, k - 1);
    }
  }

  /** A response cut short by a body error is written like one that is complete after as many frames. */
  lemma BrokenLooksComplete(items: seq<Item>, res: SendResults)
    requires !ErrorFree(items) && LeadingData(items) > 0
    ensures ServerRespond(items, res) == ServerRespond(items[..LeadingData(items)], res)
  {
    var n := LeadingData(items);
    SameBytes(items, n, n);
    SameBytes(items, n, FirstFailure(res, 0, n));
  }
}

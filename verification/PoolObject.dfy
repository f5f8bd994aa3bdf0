/** The pool object itself: the map behind the mutex, and one method per lock-protected block. */
module PoolObject {
  import opened Common
  import opened Errors
  import opened Pool

  class ConnectionPool {
    var inner: Slots

    constructor ()
      ensures inner == map[]
    {
      inner := map[];
    }

    // The block in get_or_connect. `tx` is the sender this call would enqueue, and `closed`
    // answers is_closed() for every connection at the moment of the call.
    method Lookup(addr: Addr, tx: Ticket, closed: set<Conn>) returns (found: Found)
      modifies this
      ensures found == LookupFound(old(inner), addr, closed)
      ensures inner == LookupSlots(old(inner), addr, tx, closed)
    {
      if addr in inner {
        match inner[addr] {
          case Ready(entry) =>
            if entry.conn !in closed {
              return Hit(entry);
            }
          case Connecting(waiters) =>
            inner := inner[addr := Connecting(waiters + [tx])];
            return Joined;
        }
      }
      inner := inner[addr := Connecting([tx])];
      return Started;
    }

    // The block at the end of the spawned connector task.
    method Publish(addr: Addr, res: Outcome) returns (sends: seq<(Ticket, Outcome)>)
      modifies this
      ensures inner == PublishSlots(old(inner), addr, res)
      ensures sends == PublishSends(old(inner), addr, res)
    {
      sends := [];
      var removed := if addr in inner then Some(inner[addr]) else None;
      inner := inner - {addr};
      if removed.Some? && removed.value.Connecting? {
        if res.Ok? {
          inner := inner[addr := Ready(res.value)];
        }
        var waiters := removed.value.waiters;
        for i := 0 to |waiters|
          invariant sends == Addressed(waiters[..i], Answer(res))
        {
          var sendRes := match res
            case Ok(entry) => Ok(entry)
            case Err(e) => Err(StreamIo(Display(e)));
          sends := sends + [(waiters[i], sendRes)];
        }
        assert waiters[..|waiters|] == waiters;
      }
    }

    method Invalidate(addr: Addr, closed: set<Conn>)
      modifies this
      ensures inner == InvalidateSlots(old(inner), addr, closed)
    {
      if addr in inner && inner[addr].Ready? {
        if inner[addr].entry.conn in closed {
          inner := inner - {addr};
        }
      }
    }
  }
}

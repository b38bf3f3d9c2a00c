/** The module-level set of WebSocket connections, the connect and close
    handlers that maintain it, and the loop that writes one message to every
    open connection in it. */
module Sockets {
  import opened Payloads

  /** Identity of one `ws` connection object. */
  type ConnId = nat

  /** The `readyState` values of a `ws` socket. */
  datatype ReadyState = Connecting | Open | Closing | Closed

  /** One `ws.send(payload)`: the connection written to and what was written. */
  datatype Delivery = Delivery(to: ConnId, msg: Message)

  /** The connections a sequence of writes went to. */
  function Recipients(batch: seq<Delivery>): set<ConnId> {
    set i | 0 <= i < |batch| :: batch[i].to
  }

  /** No connection is written to twice. */
  predicate Distinct(batch: seq<Delivery>) {
    forall i, j | 0 <= i < j < |batch| :: batch[i].to != batch[j].to
  }

  /** `batch` writes `msg` to every connection of `targets` exactly once and
      to nothing else, in some order. */
  predicate FanOut(batch: seq<Delivery>, targets: set<ConnId>, msg: Message) {
    && Recipients(batch) == targets
    && Distinct(batch)
    && forall i | 0 <= i < |batch| :: batch[i].msg == msg
  }

  /** `after` is `before` followed by a fan-out of `msg` to `targets`. */
  predicate BroadcastStep(before: seq<Delivery>, after: seq<Delivery>, targets: set<ConnId>, msg: Message) {
    && |before| <= |after|
    && after[..|before|] == before
    && FanOut(after[|before|..], targets, msg)
  }

  /** How many writes of `batch` went to `ws`. */
  function Received(batch: seq<Delivery>, ws: ConnId): nat {
    if batch == [] then 0
    else (if batch[0].to == ws then 1 else 0) + Received(batch[1..], ws)
  }

  /** Counting the writes to `ws` distributes over concatenation. */
  lemma {:induction false} ReceivedAppend(a: seq<Delivery>, b: seq<Delivery>, ws: ConnId)
    ensures Received(a + b, ws) == Received(a, ws) + Received(b, ws)
  {
    if a == [] {
      assert a + b == b;
    } else {
      assert (a + b)[0] == a[0] && (a + b)[1..] == a[1..] + b;
      ReceivedAppend(a[1..], b, ws);
    }
  }

  /** A fan-out writes exactly once to each target and never to any other
      connection, so it holds one write per target. */
  lemma {:induction false} FanOutExactlyOnce(batch: seq<Delivery>, targets: set<ConnId>, msg: Message, ws: ConnId)
    requires FanOut(batch, targets, msg)
    ensures Received(batch, ws) == if ws in targets then 1 else 0
    ensures |batch| == |targets|
  {
    if batch != [] {
      var d, rest := batch[0], batch[1..];
      assert d.to in targets by { assert batch[0].to in Recipients(batch); }
      assert Recipients(rest) == targets - {d.to} by {
        forall c | c in Recipients(rest) ensures c in targets - {d.to} {
          var i :| 0 <= i < |rest| && rest[i].to == c;
          assert batch[i + 1].to == c;
        }
        forall c | c in targets - {d.to} ensures c in Recipients(rest) {
          assert c in Recipients(batch);
          var i :| 0 <= i < |batch| && batch[i].to == c;
          assert rest[i - 1].to == c;
        }
      }
      assert Distinct(rest) by {
        forall i, j | 0 <= i < j < |rest| ensures rest[i].to != rest[j].to {
          assert batch[i + 1].to != batch[j + 1].to;
        }
      }
      assert d.to !in Recipients(rest);
      FanOutExactlyOnce(rest, targets - {d.to}, msg, ws);
    }
  }

  /** After a broadcast step every target holds exactly one more write than
      before and every other connection holds as many as before. */
  lemma BroadcastReceipts(before: seq<Delivery>, after: seq<Delivery>, targets: set<ConnId>, msg: Message, ws: ConnId)
    requires BroadcastStep(before, after, targets, msg)
    ensures Received(after, ws) == Received(before, ws) + (if ws in targets then 1 else 0)
    ensures |after| == |before| + |targets|
  {
    var batch := after[|before|..];
    assert after == before + batch;
    ReceivedAppend(before, batch, ws);
    FanOutExactlyOnce(batch, targets, msg, ws);
  }

  /** Writing `msg` to one more connection `ws` that has not been written to
      extends a fan-out to `targets` into one to `targets + {ws}`. */
  lemma FanOutExtend(batch: seq<Delivery>, targets: set<ConnId>, msg: Message, ws: ConnId)
    requires FanOut(batch, targets, msg) && ws !in targets
    ensures FanOut(batch + [Delivery(ws, msg)], targets + {ws}, msg)
  {
    var ext := batch + [Delivery(ws, msg)];
    assert Recipients(ext) == targets + {ws} by {
      forall c | c in targets + {ws} ensures c in Recipients(ext) {
        if c == ws {
          assert ext[|batch|].to == c;
        } else {
          var i :| 0 <= i < |batch| && batch[i].to == c;
          assert ext[i].to == c;
        }
      }
    }
  }

  /** The `sockets` set of the server together with the state of each socket
      and the writes made to them so far. `readyState` belongs to the `ws`
      library; the handlers of this module only read it. */
  class Registry {
    var sockets: set<ConnId>
    var readyState: map<ConnId, ReadyState>
    var outbox: seq<Delivery>

    /** Every registered connection has a ready state. */
    ghost predicate Valid()
      reads this
    {
      sockets <= readyState.Keys
    }

    /** The connections of `among` whose ready state is `Open`. */
    ghost function OpenAmong(among: set<ConnId>): set<ConnId>
      reads this
      requires among <= readyState.Keys
    {
      set ws | ws in among && readyState[ws] == Open
    }

    /** The registered connections that a broadcast writes to. */
    ghost function OpenSockets(): set<ConnId>
      reads this
      requires Valid()
    {
      OpenAmong(sockets)
    }

    /** An empty registry, as created when the server starts. */
    constructor ()
      ensures Valid()
      ensures sockets == {} && readyState == map[] && outbox == []
    {
      sockets := {};
      readyState := map[];
      outbox := [];
    }

    /** The `connection` handler: the server hands over a newly opened
        socket and the handler adds it to the set. Adding a socket that is
        already present is a no-op: neither the set nor any state changes. */
    method Connect(ws: ConnId)
      requires Valid()
      modifies this`sockets, this`readyState
      ensures Valid()
      ensures sockets == old(sockets) + {ws}
      ensures old(ws in sockets) ==> readyState == old(readyState)
      ensures old(ws !in sockets) ==> readyState == old(readyState)[ws := Open]
    {
      if ws !in sockets {
        readyState := readyState[ws := Open];
        sockets := sockets + {ws};
      }
    }

    /** The `close` handler of one socket: that socket leaves the set, every
        other member stays, and closing an absent socket changes nothing. */
    method Close(ws: ConnId)
      requires Valid()
      modifies this`sockets
      ensures Valid()
      ensures sockets == old(sockets) - {ws}
      ensures forall c :: c in old(sockets) && c != ws ==> c in sockets
      ensures ws !in old(sockets) ==> sockets == old(sockets)
    {
      sockets := sockets - {ws};
    }

    /** A change of a socket's ready state made by the `ws` library (the peer
        starts or finishes its closing handshake). Membership is untouched:
        only the `close` handler removes a socket. */
    method ReadyStateChanged(ws: ConnId, s: ReadyState)
      requires Valid()
      modifies this`readyState
      ensures Valid()
      ensures readyState == old(readyState)[ws := s]
    {
      readyState := readyState[ws := s];
    }

    /** `sockets.forEach(ws => { if (ws.readyState === ws.OPEN) ws.send(msg) })`:
        every registered open socket receives `msg` exactly once, no other
        socket receives anything, and membership and states are unchanged. */
    method Broadcast(msg: Message)
      requires Valid()
      modifies this`outbox
      ensures Valid()
      ensures sockets == old(sockets) && readyState == old(readyState)
      ensures BroadcastStep(old(outbox), outbox, OpenSockets(), msg)
    {
      var remaining := sockets;
      ghost var sent: seq<Delivery> := [];
      while remaining != {}
        invariant remaining <= sockets
        invariant outbox == old(outbox) + sent
        invariant FanOut(sent, OpenAmong(sockets - remaining), msg)
        decreases remaining
      {
        var ws :| ws in remaining;
        ghost var done := OpenAmong(sockets - remaining);
        if readyState[ws] == Open {
          FanOutExtend(sent, done, msg, ws);
          outbox := outbox + [Delivery(ws, msg)];
          sent := sent + [Delivery(ws, msg)];
          assert done + {ws} == OpenAmong(sockets - (remaining - {ws}));
        } else {
          assert done == OpenAmong(sockets - (remaining - {ws}));
        }
        remaining := remaining - {ws};
      }
      assert sockets - remaining == sockets;
      assert outbox[|old(outbox)|..] == sent;
    }
  }
}

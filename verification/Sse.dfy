// The server-sent-events broker: an index of clients by audience, bounded
// buffers, and no gaps for any client that stays registered.

module Sse {

  type ClientId = nat

  datatype Event = Event(kind: string, data: string)

  // A connection: what it listens to, what waits for it, and what its writer
  // has already sent.
  datatype Client = Client(audiences: seq<string>, buffer: seq<Event>, written: seq<Event>)

  type Clients = map<ClientId, Client>

  const BUFFER_SIZE := 32

  // ---------------------------------------------------------------------
  // The broker without its index: what each operation does to the clients.

  predicate Listens(c: Client, audience: string) {
    audience in c.audiences
  }

  predicate IsFull(c: Client) {
    |c.buffer| >= BUFFER_SIZE
  }

  function Offered(c: Client, audience: string, event: Event): Client {
    if Listens(c, audience) then c.(buffer := c.buffer + [event]) else c
  }

  // Listeners with room get the event; listeners without are dropped.
  function Broadcast(clients: Clients, audience: string, event: Event): Clients {
    map id | id in clients && !(Listens(clients[id], audience) && IsFull(clients[id])) ::
      Offered(clients[id], audience, event)
  }

  // The same while the listeners in waiting have not been served yet.
  function PartlyBroadcast(clients: Clients, audience: string, event: Event, waiting: set<ClientId>): Clients {
    map id | id in clients && (id in waiting || !(Listens(clients[id], audience) && IsFull(clients[id]))) ::
      if id in waiting then clients[id] else Offered(clients[id], audience, event)
  }

  lemma ServingOne(clients: Clients, audience: string, event: Event, waiting: set<ClientId>, id: ClientId)
    requires id in clients && id in waiting && Listens(clients[id], audience)
    ensures var before := PartlyBroadcast(clients, audience, event, waiting); var c := clients[id];
      && id in before && before[id] == c
      && PartlyBroadcast(clients, audience, event, waiting - {id})
         == if IsFull(c) then before - {id} else before[id := c.(buffer := c.buffer + [event])]
  {
  }

  // The writer of a connection takes the oldest event that waits.
  function Written(clients: Clients, id: ClientId): Clients {
    if id in clients && clients[id].buffer != [] then
      var c := clients[id];
      clients[id := c.(buffer := c.buffer[1..], written := c.written + [c.buffer[0]])]
    else clients
  }

  // An index of the given clients, and of client id under these audiences.
  ghost predicate IndexIs(byAud: map<string, set<ClientId>>, clients: Clients, id: ClientId, audiences: seq<string>) {
    && (forall a :: a in byAud ==> byAud[a] != {})
    && (forall a, x :: a in byAud && x in byAud[a] <==>
          if x == id then a in audiences else x in clients && Listens(clients[x], a))
  }

  // ---------------------------------------------------------------------
  // The broker as a program.

  class Broker {
    var clients: Clients
    var byAud: map<string, set<ClientId>>
    var next: ClientId

    // The index lists exactly the listeners of each audience, and no audience
    // without any.
    ghost predicate Valid()
      reads this
    {
      && (forall a, id :: a in byAud && id in byAud[a] <==> id in clients && Listens(clients[id], a))
      && (forall a :: a in byAud ==> byAud[a] != {})
      && (forall id :: id in clients ==> id < next)
    }

    constructor ()
      ensures Valid() && clients == map[] && next == 0
    {
      clients, byAud, next := map[], map[], 0;
    }

    method Subscribe(audiences: seq<string>) returns (id: ClientId)
      requires Valid()
      modifies this
      ensures Valid()
      ensures id == old(next) && next == id + 1
      ensures clients == old(clients)[id := Client(audiences, [], [])]
    {
      id := next;
      next := next + 1;
      clients := clients[id := Client(audiences, [], [])];
      for k := 0 to |audiences|
        invariant clients == old(clients)[id := Client(audiences, [], [])] && next == id + 1
        invariant IndexIs(byAud, clients - {id}, id, audiences[..k])
      {
        var a := audiences[k];
        assert audiences[..k + 1] == audiences[..k] + [a];
        if a !in byAud {
          byAud := byAud[a := {}];
        }
        byAud := byAud[a := byAud[a] + {id}];
      }
      assert audiences[..|audiences|] == audiences;
      forall a, x
        ensures a in byAud && x in byAud[a] <==> x in clients && Listens(clients[x], a)
      {
        assert a in byAud && x in byAud[a] <==>
          if x == id then a in audiences else x in clients - {id} && Listens(clients[x], a);
      }
    }

    method Drop(id: ClientId)
      requires Valid()
      modifies this
      ensures Valid() && next == old(next)
      ensures clients == old(clients) - {id}
    {
      if id !in clients {
        return;
      }
      var audiences := clients[id].audiences;
      clients := clients - {id};
      for k := 0 to |audiences|
        invariant clients == old(clients) - {id} && next == old(next)
        invariant forall a, x :: a in byAud && x in byAud[a] <==>
                                 if x == id then a in audiences && a !in audiences[..k]
                                   else x in clients && Listens(clients[x], a)
        invariant forall a :: a in byAud ==> byAud[a] != {}
      {
        var a := audiences[k];
        if a in byAud {
          var rest := byAud[a] - {id};
          byAud := if rest == {} then byAud - {a} else byAud[a := rest];
        }
      }
      assert audiences[..|audiences|] == audiences;
    }

    method Publish(audience: string, event: Event)
      requires Valid()
      modifies this
      ensures Valid() && next == old(next)
      ensures clients == Broadcast(old(clients), audience, event)
    {
      var targets := Targets(audience);
      ghost var before := clients;
      assert PartlyBroadcast(before, audience, event, targets) == before;
      while targets != {}
        invariant Valid() && next == old(next)
        invariant forall id :: id in targets ==> id in before && Listens(before[id], audience)
        invariant clients == PartlyBroadcast(before, audience, event, targets)
        decreases targets
      {
        var id :| id in targets;
        ServingOne(before, audience, event, targets, id);
        targets := targets - {id};
        Offer(id, event);
      }
      assert PartlyBroadcast(before, audience, event, {}) == Broadcast(before, audience, event);
    }

    // The snapshot of a publish: what the source takes under its lock. It
    // serves the targets without holding it; see SseSteps.
    method Targets(audience: string) returns (targets: set<ClientId>)
      requires Valid()
      ensures forall id :: id in targets <==> id in clients && Listens(clients[id], audience)
    {
      targets := if audience in byAud then byAud[audience] else {};
    }

    // Puts the event in the client's buffer, or drops a client that is full.
    method Offer(id: ClientId, event: Event)
      requires Valid() && id in clients
      modifies this
      ensures Valid() && next == old(next)
      ensures var c := old(clients)[id];
        clients == if IsFull(c) then old(clients) - {id} else old(clients)[id := c.(buffer := c.buffer + [event])]
    {
      if IsFull(clients[id]) {
        Drop(id);
      } else {
        clients := clients[id := clients[id].(buffer := clients[id].buffer + [event])];
      }
    }

    method Write(id: ClientId)
      requires Valid()
      modifies this`clients
      ensures Valid() && clients == Written(old(clients), id)
    {
      if id in clients && clients[id].buffer != [] {
        var c := clients[id];
        clients := clients[id := c.(buffer := c.buffer[1..], written := c.written + [c.buffer[0]])];
      }
    }
  }

  // ---------------------------------------------------------------------
  // Histories.

  datatype Op =
    | Connect(audiences: seq<string>)
    | Disconnect(id: ClientId)
    | Announce(audience: string, event: Event)
    | Write(id: ClientId)

  datatype Hub = Hub(clients: Clients, next: ClientId)

  function Apply(h: Hub, op: Op): Hub {
    match op
    case Connect(audiences) => Hub(h.clients[h.next := Client(audiences, [], [])], h.next + 1)
    case Disconnect(id) => h.(clients := h.clients - {id})
    case Announce(audience, event) => h.(clients := Broadcast(h.clients, audience, event))
    case Write(id) => h.(clients := Written(h.clients, id))
  }

  function ApplyAll(ops: seq<Op>): Hub {
    if ops == [] then Hub(map[], 0) else Apply(ApplyAll(ops[..|ops| - 1]), ops[|ops| - 1])
  }

  // The clients that ever connected get the numbers 0, 1, 2, ... in order.
  function Connections(ops: seq<Op>): nat {
    if ops == [] then 0
    else Connections(ops[..|ops| - 1]) + if ops[|ops| - 1].Connect? then 1 else 0
  }

  // What client number id asked for when it connected.
  function Wanted(ops: seq<Op>, id: ClientId): seq<string> {
    if ops == [] then []
    else
      var front, op := ops[..|ops| - 1], ops[|ops| - 1];
      if op.Connect? && Connections(front) == id then op.audiences else Wanted(front, id)
  }

  // What client number id must have seen: every event announced, since it
  // connected, to an audience it asked for, in order. No broker is involved.
  function Due(ops: seq<Op>, id: ClientId): seq<Event> {
    if ops == [] then []
    else
      var front, op := ops[..|ops| - 1], ops[|ops| - 1];
      if op.Announce? && id < Connections(front) && op.audience in Wanted(front, id) then Due(front, id) + [op.event]
      else Due(front, id)
  }

  lemma {:induction false} NothingBeforeConnecting(ops: seq<Op>, id: ClientId)
    requires Connections(ops) <= id
    ensures Due(ops, id) == []
  {
    if ops != [] {
      NothingBeforeConnecting(ops[..|ops| - 1], id);
    }
  }

  ghost predicate Caught(c: Client, ops: seq<Op>, id: ClientId) {
    && id < Connections(ops) && c.audiences == Wanted(ops, id)
    && c.written + c.buffer == Due(ops, id)
    && |c.buffer| <= 32
  }

  // Whatever connects, disconnects, is announced and is written, in any order:
  // what a registered client was sent, followed by what waits for it, is
  // exactly what it is due, and no more than 32 events ever wait.
  lemma {:induction false} NoGaps(ops: seq<Op>)
    ensures var h := ApplyAll(ops);
      h.next == Connections(ops) && forall id :: id in h.clients ==> Caught(h.clients[id], ops, id)
  {
    if ops != [] {
      var front, op := ops[..|ops| - 1], ops[|ops| - 1];
      NoGaps(front);
      var g, h := ApplyAll(front), ApplyAll(ops);
      forall id | id in h.clients
        ensures Caught(h.clients[id], ops, id)
      {
        if op.Connect? && id == g.next {
          NothingBeforeConnecting(front, id);
        } else {
          var c, d := g.clients[id], h.clients[id];
          assert Caught(c, front, id);
          if op.Announce? && Listens(c, op.audience) {
            assert c.written + (c.buffer + [op.event]) == (c.written + c.buffer) + [op.event];
          } else if op.Write? && op.id == id && c.buffer != [] {
            assert (c.written + [c.buffer[0]]) + c.buffer[1..] == c.written + c.buffer;
          }
        }
      }
    }
  }

  // A client leaves the broker exactly when it disconnects or when an event
  // announced to it would be the 33rd to wait: it is dropped rather than
  // skipped.
  lemma DroppedRatherThanSkipped(ops: seq<Op>, op: Op, id: ClientId)
    requires id in ApplyAll(ops).clients
    ensures var c := ApplyAll(ops).clients[id];
      id !in ApplyAll(ops + [op]).clients
      <==> op == Disconnect(id) || (op.Announce? && op.audience in Wanted(ops, id) && |c.buffer| == 32)
  {
    NoGaps(ops);
    assert Caught(ApplyAll(ops).clients[id], ops, id);
    assert (ops + [op])[..|ops|] == ops;
  }
}

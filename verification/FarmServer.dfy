// The memory server's connection handlers and its nested event loops (rmserver.c).
module FarmServer {
  import opened Layout

  const NUM_QUEUES: nat := 18

  datatype LinkState = INIT | CONNECTED

  // One server queue and the client connection it was given to.
  datatype Link = Link(state: LinkState, peer: Option<nat>)

  datatype Event = ConnectRequest(id: nat) | Established(id: nat) | Disconnected(id: nat) | Unexpected

  // Died: a TEST_Z failed. Fault: queue_ctr has run past the queue array, or an event names a
  // connection that has no queue. Closed: the last loop has ended.
  datatype Health = Serving | Died | Fault | Closed

  // contexts: the queue stored in each connection's context; sent: the receivers of the memory
  // region; slot: the queue the accept loop waits for, NUM_QUEUES once it is in the last loop.
  datatype Server = Server(
    queueCtr: nat,
    links: seq<Link>,
    contexts: map<nat, nat>,
    sent: seq<Option<nat>>,
    slot: nat,
    health: Health
  )

  function FreshServer(): Server {
    Server(0, seq(NUM_QUEUES, _ => Link(INIT, None)), map[], [], 0, Serving)
  }

  predicate WellFormed(s: Server) {
    && |s.links| == NUM_QUEUES
    && s.slot <= NUM_QUEUES
    && forall id :: id in s.contexts ==> s.contexts[id] < NUM_QUEUES
  }

  function OnConnectRequest(s: Server, id: nat): (r: Server)
    requires WellFormed(s)
    ensures WellFormed(r) && r.slot == s.slot
  {
    if s.queueCtr >= NUM_QUEUES then s.(queueCtr := s.queueCtr + 1, health := Fault)
    else if s.links[s.queueCtr].state != INIT then s.(queueCtr := s.queueCtr + 1, health := Died)
    else
      s.(queueCtr := s.queueCtr + 1,
         links := s.links[s.queueCtr := Link(INIT, Some(id))],
         contexts := s.contexts[id := s.queueCtr])
  }

  function OnConnection(s: Server, q: nat): (r: Server)
    requires WellFormed(s) && q < NUM_QUEUES
    ensures WellFormed(r) && r.slot == s.slot
  {
    if s.links[q].state != INIT then s.(health := Died)
    else
      s.(links := s.links[q := Link(CONNECTED, s.links[q].peer)],
         sent := if q == 0 then s.sent + [s.links[0].peer] else s.sent)
  }

  function OnDisconnect(s: Server, q: nat): (r: Server)
    requires WellFormed(s) && q < NUM_QUEUES
    ensures WellFormed(r) && r.slot == s.slot
  {
    s.(links := s.links[q := Link(INIT, s.links[q].peer)])
  }

  // Whether on_event's nonzero result ends the loop it was called from.
  predicate Stops(e: Event) {
    e.Disconnected? || e.Unexpected?
  }

  function OnEvent(s: Server, e: Event): (r: Server)
    requires WellFormed(s)
    ensures WellFormed(r) && r.slot == s.slot
  {
    match e
    case ConnectRequest(id) => OnConnectRequest(s, id)
    case Established(id) => if id in s.contexts then OnConnection(s, s.contexts[id]) else s.(health := Fault)
    case Disconnected(id) => if id in s.contexts then OnDisconnect(s, s.contexts[id]) else s.(health := Fault)
    case Unexpected => s
  }

  // Where the loops stand after an event.
  function Advance(s: Server, stops: bool): (r: Server)
    requires WellFormed(s)
    ensures WellFormed(r)
  {
    if s.health != Serving then s
    else if s.slot == NUM_QUEUES then (if stops then s.(health := Closed) else s)
    else if stops || s.links[s.slot].state == CONNECTED then s.(slot := s.slot + 1)
    else s
  }

  function Handle(s: Server, e: Event): (r: Server)
    requires WellFormed(s)
    ensures WellFormed(r)
  {
    if s.health != Serving then s else Advance(OnEvent(s, e), Stops(e))
  }

  function HandleAll(s: Server, events: seq<Event>): (r: Server)
    requires WellFormed(s)
    ensures WellFormed(r)
  {
    if events == [] then s else Handle(HandleAll(s, events[..|events| - 1]), events[|events| - 1])
  }

  lemma HandleAllNext(s: Server, events: seq<Event>, k: nat)
    requires WellFormed(s) && k < |events|
    ensures HandleAll(s, events[..k + 1]) == Handle(HandleAll(s, events[..k]), events[k])
  {
    assert events[..k + 1][..k] == events[..k];
  }

  // A server that has stopped ignores every later event.
  lemma {:induction false} StoppedStays(s: Server, events: seq<Event>, k: nat)
    requires WellFormed(s) && k <= |events| && HandleAll(s, events[..k]).health != Serving
    ensures HandleAll(s, events) == HandleAll(s, events[..k])
    decreases |events| - k
  {
    if k == |events| {
      assert events[..k] == events;
    } else {
      HandleAllNext(s, events, k);
      StoppedStays(s, events, k + 1);
    }
  }

  class RemoteMemoryServer {
    var queueCtr: nat
    const links: array<Link>
    var contexts: map<nat, nat>
    var sent: seq<Option<nat>>
    var health: Health

    // The server's state while its loops wait for queue slot.
    function View(slot: nat): (s: Server)
      reads this, links
    {
      Server(queueCtr, links[..], contexts, sent, slot, health)
    }

    constructor ()
      ensures fresh(links) && View(0) == FreshServer() && WellFormed(View(0))
    {
      queueCtr := 0;
      links := new Link[NUM_QUEUES](_ => Link(INIT, None));
      contexts := map[];
      sent := [];
      health := Serving;
    }

    method AcceptRequest(id: nat, ghost slot: nat)
      requires WellFormed(View(slot))
      modifies this, links
      ensures View(slot) == OnConnectRequest(old(View(slot)), id)
    {
      var q := queueCtr;
      queueCtr := queueCtr + 1;
      if q >= NUM_QUEUES {
        health := Fault;
      } else if links[q].state != INIT {
        health := Died;
      } else {
        contexts := contexts[id := q];
        links[q] := Link(INIT, Some(id));
      }
    }

    method Connect(q: nat, ghost slot: nat)
      requires WellFormed(View(slot)) && q < NUM_QUEUES
      modifies this, links
      ensures View(slot) == OnConnection(old(View(slot)), q)
    {
      if links[q].state != INIT {
        health := Died;
      } else {
        if q == 0 {
          sent := sent + [links[q].peer];
        }
        links[q] := Link(CONNECTED, links[q].peer);
      }
    }

    method Disconnect(q: nat, ghost slot: nat)
      requires WellFormed(View(slot)) && q < NUM_QUEUES
      modifies links
      ensures View(slot) == OnDisconnect(old(View(slot)), q)
    {
      if links[q].state == CONNECTED {
        links[q] := Link(INIT, links[q].peer);
      }
    }

    method Dispatch(e: Event, ghost slot: nat) returns (stops: bool)
      requires WellFormed(View(slot))
      modifies this, links
      ensures stops == Stops(e) && View(slot) == OnEvent(old(View(slot)), e)
    {
      stops := false;
      match e {
        case ConnectRequest(id) => AcceptRequest(id, slot);
        case Established(id) =>
          if id in contexts {
            Connect(contexts[id], slot);
          } else {
            health := Fault;
          }
        case Disconnected(id) =>
          stops := true;
          if id in contexts {
            Disconnect(contexts[id], slot);
          } else {
            health := Fault;
          }
        case Unexpected => stops := true;
      }
    }

    // One event, with the place in the loops it leads to.
    method Receive(e: Event, slot: nat) returns (next: nat)
      requires WellFormed(View(slot)) && health == Serving
      modifies this, links
      ensures View(next) == Handle(old(View(slot)), e)
    {
      next := slot;
      var stops := Dispatch(e, slot);
      if health == Serving {
        if slot == NUM_QUEUES {
          if stops {
            health := Closed;
          }
        } else if stops || links[slot].state == CONNECTED {
          next := slot + 1;
        }
      }
    }

    // The accept loop for one queue: takes events until it can go on to the next queue, the server
    // stops or the events run out.
    method AwaitQueue(ghost start: Server, events: seq<Event>, k: nat, slot: nat) returns (k': nat, next: nat)
      requires WellFormed(start) && k <= |events| && slot < NUM_QUEUES && health == Serving
      requires View(slot) == HandleAll(start, events[..k])
      modifies this, links
      ensures k <= k' <= |events| && View(next) == HandleAll(start, events[..k'])
      ensures slot <= next <= NUM_QUEUES && (next == slot ==> k' == |events| || health != Serving)
    {
      k', next := k, slot;
      while k' < |events| && next == slot && health == Serving
        invariant k <= k' <= |events| && slot <= next <= NUM_QUEUES
        invariant View(next) == HandleAll(start, events[..k'])
      {
        HandleAllNext(start, events, k');
        next := Receive(events[k'], slot);
        assert slot <= View(next).slot;
        k' := k' + 1;
      }
    }

    // The last loop: takes events until one stops it or the events run out.
    method ServeConnected(ghost start: Server, events: seq<Event>, k: nat) returns (k': nat)
      requires WellFormed(start) && k <= |events|
      requires View(NUM_QUEUES) == HandleAll(start, events[..k])
      modifies this, links
      ensures k <= k' <= |events| && View(NUM_QUEUES) == HandleAll(start, events[..k'])
      ensures k' == |events| || health != Serving
    {
      k' := k;
      while k' < |events| && health == Serving
        invariant k <= k' <= |events|
        invariant View(NUM_QUEUES) == HandleAll(start, events[..k'])
      {
        HandleAllNext(start, events, k');
        var slot := Receive(events[k'], NUM_QUEUES);
        assert View(slot).slot == NUM_QUEUES;
        k' := k' + 1;
      }
    }

    // The accept loops for the queues in turn.
    method AwaitAll(ghost start: Server, events: seq<Event>) returns (k: nat, slot: nat)
      requires WellFormed(start) && start == View(0) && health == Serving
      modifies this, links
      ensures k <= |events| && slot <= NUM_QUEUES && View(slot) == HandleAll(start, events[..k])
      ensures slot == NUM_QUEUES || k == |events| || health != Serving
    {
      k, slot := 0, 0;
      while slot < NUM_QUEUES && k < |events| && health == Serving
        invariant slot <= NUM_QUEUES && k <= |events|
        invariant View(slot) == HandleAll(start, events[..k])
        decreases NUM_QUEUES - slot, health == Serving, |events| - k
      {
        k, slot := AwaitQueue(start, events, k, slot);
      }
    }

    // The whole server, until it stops or the events run out.
    method Serve(events: seq<Event>) returns (slot: nat)
      requires WellFormed(View(0)) && health == Serving
      modifies this, links
      ensures View(slot) == HandleAll(old(View(0)), events)
    {
      ghost var start := View(0);
      var k;
      k, slot := AwaitAll(start, events);
      if slot == NUM_QUEUES {
        k := ServeConnected(start, events, k);
      }
      if k == |events| {
        assert events[..k] == events;
      } else {
        StoppedStays(start, events, k);
      }
    }
  }
}

// One client control setting up its queues in turn, against the event loops of its memory server.
// Messages in flight arrive at any later time and in any order.
module Connection {
  import opened Layout
  import opened FarmServer

  // next: the queue the client sets up; waiting: it sleeps until its handler sees ESTABLISHED.
  // requests, joins: events on their way to the server; replies: accepted connections on their
  // way to the client.
  datatype System = System(
    server: Server,
    next: nat,
    waiting: bool,
    requests: set<nat>,
    replies: set<nat>,
    joins: set<nat>
  )

  datatype Step = Ask | ServerAsked(id: nat) | ClientJoined(id: nat) | ServerJoined(id: nat)

  function Initial(): System {
    System(FreshServer(), 0, false, {}, {}, {})
  }

  // The server sees a connection request; rdma_accept answers the client, and the server's own
  // ESTABLISHED event follows at some time.
  function TakeRequest(s: System, id: nat, server: Server): System {
    if server.health == Serving then
      s.(server := server, requests := s.requests - {id}, replies := s.replies + {id}, joins := s.joins + {id})
    else s.(server := server, requests := s.requests - {id})
  }

  function Apply(s: System, n: nat, step: Step): Option<System>
    requires WellFormed(s.server)
  {
    match step
    case Ask =>
      if s.next < n && !s.waiting then Some(s.(waiting := true, requests := s.requests + {s.next})) else None
    case ServerAsked(id) =>
      if id in s.requests && s.server.health == Serving
      then Some(TakeRequest(s, id, Handle(s.server, ConnectRequest(id))))
      else None
    case ClientJoined(id) =>
      if id in s.replies && s.waiting && id == s.next
      then Some(s.(next := s.next + 1, waiting := false, replies := s.replies - {id}))
      else None
    case ServerJoined(id) =>
      if id in s.joins && s.server.health == Serving
      then Some(s.(server := Handle(s.server, Established(id)), joins := s.joins - {id}))
      else None
  }

  function Run(n: nat, steps: seq<Step>): (r: Option<System>)
    ensures r.Some? ==> WellFormed(r.value.server)
  {
    if steps == [] then Some(Initial())
    else
      var before := Run(n, steps[..|steps| - 1]);
      if before.None? then None else Apply(before.value, n, steps[|steps| - 1])
  }

  // ---------- what every step keeps ----------

  // Queue j has been given to client queue j, and is connected unless its event is on its way.
  predicate LinkOk(server: Server, joins: set<nat>, j: nat)
    requires j < |server.links|
  {
    server.links[j] ==
    (if j >= server.queueCtr then Link(INIT, None)
     else Link(if j in joins then INIT else CONNECTED, Some(j)))
  }

  ghost predicate ServerOk(server: Server, joins: set<nat>) {
    && WellFormed(server)
    && server.queueCtr <= NUM_QUEUES
    && (forall j :: 0 <= j < NUM_QUEUES ==> LinkOk(server, joins, j))
    && (forall id: nat :: id in server.contexts <==> id < server.queueCtr)
    && (forall id :: id in server.contexts ==> server.contexts[id] == id)
    && (forall id :: id in joins ==> id < server.queueCtr)
    && server.sent == (if server.queueCtr > 0 && 0 !in joins then [Some(0)] else [])
    && (forall j :: 0 <= j < server.slot ==> server.links[j].state == CONNECTED)
  }

  // The client has at most one connection on the way, always its next one.
  predicate ClientOk(s: System, n: nat) {
    && s.next <= n
    && if !s.waiting then s.requests == {} && s.replies == {} && s.server.queueCtr == s.next
       else if s.server.queueCtr == s.next then s.next < n && s.requests == {s.next} && s.replies == {}
       else s.next < n && s.requests == {} && s.replies == {s.next} && s.server.queueCtr == s.next + 1
  }

  // A client of more than NUM_QUEUES queues has stopped the server, which has changed nothing else.
  ghost predicate Overrun(s: System, n: nat) {
    && n > NUM_QUEUES
    && s.server.health == Fault && s.server.queueCtr == NUM_QUEUES + 1
    && ServerOk(s.server.(queueCtr := NUM_QUEUES, health := Serving), s.joins)
    && s.next == NUM_QUEUES && s.waiting && s.requests == {} && s.replies == {}
  }

  ghost predicate Ok(s: System, n: nat) {
    if s.server.health == Serving then ServerOk(s.server, s.joins) && ClientOk(s, n) else Overrun(s, n)
  }

  lemma AdvanceKeeps(server: Server, joins: set<nat>)
    requires ServerOk(server, joins) && server.health == Serving
    ensures ServerOk(Advance(server, false), joins) && Advance(server, false).health == Serving
  {
    forall j | 0 <= j < NUM_QUEUES ensures LinkOk(Advance(server, false), joins, j) {
      assert LinkOk(server, joins, j);
    }
  }

  lemma RequestKeeps(server: Server, joins: set<nat>)
    requires ServerOk(server, joins) && server.health == Serving && server.queueCtr < NUM_QUEUES
    ensures var r := Handle(server, ConnectRequest(server.queueCtr));
            ServerOk(r, joins + {server.queueCtr}) && r.health == Serving && r.queueCtr == server.queueCtr + 1
  {
    var id := server.queueCtr;
    assert LinkOk(server, joins, id);
    var m := OnConnectRequest(server, id);
    forall j | 0 <= j < NUM_QUEUES ensures LinkOk(m, joins + {id}, j) {
      assert LinkOk(server, joins, j);
    }
    AdvanceKeeps(m, joins + {id});
  }

  lemma EstablishedKeeps(server: Server, joins: set<nat>, id: nat)
    requires ServerOk(server, joins) && server.health == Serving && id in joins
    ensures var r := Handle(server, Established(id));
            ServerOk(r, joins - {id}) && r.health == Serving && r.queueCtr == server.queueCtr
  {
    assert LinkOk(server, joins, id);
    assert LinkOk(server, joins, 0);
    var m := OnConnection(server, id);
    forall j | 0 <= j < NUM_QUEUES ensures LinkOk(m, joins - {id}, j) {
      assert LinkOk(server, joins, j);
    }
    AdvanceKeeps(m, joins - {id});
  }

  lemma ApplyKeeps(s: System, n: nat, step: Step)
    requires WellFormed(s.server) && Ok(s, n) && Apply(s, n, step).Some?
    ensures Ok(Apply(s, n, step).value, n)
  {
    if step.ServerAsked? && s.server.queueCtr < NUM_QUEUES {
      RequestKeeps(s.server, s.joins);
    } else if step.ServerJoined? {
      EstablishedKeeps(s.server, s.joins, step.id);
    }
  }

  lemma {:induction false} RunOk(n: nat, steps: seq<Step>)
    requires Run(n, steps).Some?
    ensures Ok(Run(n, steps).value, n)
  {
    if steps == [] {
      forall j | 0 <= j < NUM_QUEUES ensures LinkOk(FreshServer(), {}, j) {}
    } else {
      RunOk(n, steps[..|steps| - 1]);
      ApplyKeeps(Run(n, steps[..|steps| - 1]).value, n, steps[|steps| - 1]);
    }
  }

  // ---------- pairing ----------

  // Queues the server has given away.
  function Given(server: Server): nat {
    if server.queueCtr <= NUM_QUEUES then server.queueCtr else NUM_QUEUES
  }

  // What the server and the client of n queues have agreed on.
  ghost predicate Paired(server: Server, n: nat) {
    && Given(server) <= n && |server.links| == NUM_QUEUES
    && (forall id: nat :: id in server.contexts <==> id < Given(server))
    && (forall id :: id in server.contexts ==> server.contexts[id] == id && server.links[id].peer == Some(id))
    && server.sent == (if server.links[0].state == CONNECTED then [Some(0)] else [])
    && server.slot <= n && server.slot <= NUM_QUEUES
    && (forall j :: 0 <= j < server.slot ==> server.links[j].state == CONNECTED)
  }

  lemma ServerPairs(server: Server, joins: set<nat>, n: nat)
    requires ServerOk(server, joins) && server.queueCtr <= n
    ensures Paired(server, n)
  {
    assert LinkOk(server, joins, 0);
    forall id | id in server.contexts ensures server.links[id].peer == Some(id) {
      assert LinkOk(server, joins, id);
    }
    if server.slot > 0 {
      assert LinkOk(server, joins, server.slot - 1);
      assert server.links[server.slot - 1].state == CONNECTED;
    }
  }

  // In every run: the server never dies of a failed test; client queue i is joined to server queue i and
  // to no other; the memory region is sent at most once, to client queue 0, when that is connected; the
  // accept loop has passed only connected queues. A server stopped by one connection too many still has
  // all of its own queues so.
  lemma QueuesPair(n: nat, steps: seq<Step>)
    requires Run(n, steps).Some?
    ensures var s := Run(n, steps).value;
            && s.server.health != Died && s.next <= Given(s.server) && Paired(s.server, n)
  {
    RunOk(n, steps);
    var s := Run(n, steps).value;
    if s.server.health == Serving {
      ServerPairs(s.server, s.joins, n);
    } else {
      ServerPairs(s.server.(queueCtr := NUM_QUEUES, health := Serving), s.joins, n);
    }
  }

  function EventOf(step: Step): seq<Event> {
    match step
    case ServerAsked(id) => [ConnectRequest(id)]
    case ServerJoined(id) => [Established(id)]
    case _ => []
  }

  // The events a run delivers to the server, in order.
  function Delivered(steps: seq<Step>): seq<Event> {
    if steps == [] then [] else Delivered(steps[..|steps| - 1]) + EventOf(steps[|steps| - 1])
  }

  lemma HandleAllOneMore(s: Server, events: seq<Event>, e: seq<Event>)
    requires WellFormed(s) && |e| <= 1
    ensures HandleAll(s, events + e) == if e == [] then HandleAll(s, events) else Handle(HandleAll(s, events), e[0])
  {
    if e == [] {
      assert events + e == events;
    } else {
      HandleAllNext(s, events + e, |events|);
      assert (events + e)[..|events|] == events;
      assert (events + e)[..|events| + 1] == events + e;
    }
  }

  lemma ApplyHandles(s: System, n: nat, step: Step)
    requires WellFormed(s.server) && Apply(s, n, step).Some?
    ensures Apply(s, n, step).value.server ==
            if EventOf(step) == [] then s.server else Handle(s.server, EventOf(step)[0])
  {
  }

  // The server of a run is where its event loops, run on those events, leave it.
  lemma {:induction false} ServerRunsLoops(n: nat, steps: seq<Step>)
    requires Run(n, steps).Some?
    ensures Run(n, steps).value.server == HandleAll(FreshServer(), Delivered(steps))
  {
    if steps != [] {
      var k := |steps| - 1;
      ServerRunsLoops(n, steps[..k]);
      HandleAllOneMore(FreshServer(), Delivered(steps[..k]), EventOf(steps[k]));
      ApplyHandles(Run(n, steps[..k]).value, n, steps[k]);
    }
  }

  // ---------- a client with too many queues ----------

  // The first k queues, each joined before the next is asked for.
  function InTurn(k: nat): seq<Step> {
    if k == 0 then [] else InTurn(k - 1) + [Ask] + [ServerAsked(k - 1)] + [ClientJoined(k - 1)]
  }

  lemma RunNext(n: nat, steps: seq<Step>, step: Step)
    requires Run(n, steps).Some?
    ensures Run(n, steps + [step]) == Apply(Run(n, steps).value, n, step)
  {
    assert (steps + [step])[..|steps|] == steps;
  }

  lemma RunThree(n: nat, steps: seq<Step>, a: Step, b: Step, c: Step, s1: System, s2: System)
    requires Run(n, steps).Some? && Apply(Run(n, steps).value, n, a) == Some(s1)
    requires WellFormed(s1.server) && Apply(s1, n, b) == Some(s2) && WellFormed(s2.server)
    ensures Run(n, steps + [a] + [b] + [c]) == Apply(s2, n, c)
  {
    RunNext(n, steps, a);
    RunNext(n, steps + [a], b);
    RunNext(n, steps + [a] + [b], c);
  }

  lemma {:induction false} InTurnRuns(n: nat, k: nat)
    requires k <= n && k <= NUM_QUEUES
    ensures Run(n, InTurn(k)).Some?
    ensures var s := Run(n, InTurn(k)).value; s.server.health == Serving && s.next == k && !s.waiting
  {
    if k > 0 {
      InTurnRuns(n, k - 1);
      RunOk(n, InTurn(k - 1));
      var s := Run(n, InTurn(k - 1)).value;
      RequestKeeps(s.server, s.joins);
      var s1 := Apply(s, n, Ask).value;
      var s2 := Apply(s1, n, ServerAsked(k - 1)).value;
      RunThree(n, InTurn(k - 1), Ask, ServerAsked(k - 1), ClientJoined(k - 1), s1, s2);
    }
  }

  predicate Survives(n: nat, steps: seq<Step>) {
    Run(n, steps).Some? ==> Run(n, steps).value.server.health == Serving
  }

  // One queue more than the server has stops it.
  lemma OneTooMany(n: nat, k: nat) returns (steps: seq<Step>)
    requires n > k == NUM_QUEUES
    ensures !Survives(n, steps)
  {
    InTurnRuns(n, k);
    var a := InTurn(k);
    RunOk(n, a);
    RunNext(n, a, Ask);
    RunNext(n, a + [Ask], ServerAsked(k));
    steps := a + [Ask] + [ServerAsked(k)];
  }

  // The server survives every run exactly when the client has no more queues than it.
  lemma ServerSurvives(n: nat)
    ensures (forall steps :: Survives(n, steps)) <==> n <= NUM_QUEUES
  {
    if n <= NUM_QUEUES {
      forall steps ensures Survives(n, steps) {
        if Run(n, steps).Some? {
          RunOk(n, steps);
        }
      }
    } else {
      var steps := OneTooMany(n, NUM_QUEUES);
    }
  }

  // ---------- every run ends, with all queues joined ----------

  function Taken(s: System): int {
    2 * s.next + (if s.waiting then 1 else 0) + 2 * s.server.queueCtr - |s.joins|
  }

  lemma StepCounts(s: System, n: nat, step: Step)
    requires WellFormed(s.server) && Ok(s, n) && s.server.health == Serving
    requires Apply(s, n, step).Some? && Apply(s, n, step).value.server.health == Serving
    ensures Taken(Apply(s, n, step).value) == Taken(s) + 1
  {
    if step.ServerAsked? && s.server.queueCtr < NUM_QUEUES {
      RequestKeeps(s.server, s.joins);
      assert s.server.queueCtr !in s.joins;
    } else if step.ServerJoined? {
      EstablishedKeeps(s.server, s.joins, step.id);
    }
  }

  lemma {:induction false} StepsTaken(n: nat, steps: seq<Step>)
    requires n <= NUM_QUEUES && Run(n, steps).Some?
    ensures Taken(Run(n, steps).value) == |steps|
  {
    if steps != [] {
      var before := steps[..|steps| - 1];
      StepsTaken(n, before);
      RunOk(n, before);
      RunOk(n, steps);
      StepCounts(Run(n, before).value, n, steps[|steps| - 1]);
    }
  }

  // All n queues are joined, in the state that no order of events can change.
  predicate Complete(s: System, n: nat) {
    && s.next == s.server.queueCtr == n && !s.waiting
    && s.requests == {} && s.replies == {} && s.joins == {}
    && |s.server.links| == NUM_QUEUES
    && (forall j :: 0 <= j < NUM_QUEUES ==>
          s.server.links[j] == if j < n then Link(CONNECTED, Some(j)) else Link(INIT, None))
    && s.server.sent == (if n > 0 then [Some(0)] else [])
  }

  ghost predicate Stuck(s: System, n: nat)
    requires WellFormed(s.server)
  {
    forall step :: Apply(s, n, step).None?
  }

  lemma StuckIsComplete(s: System, n: nat)
    requires n <= NUM_QUEUES && WellFormed(s.server) && Ok(s, n)
    ensures Stuck(s, n) <==> Complete(s, n)
    ensures Complete(s, n) <==> Taken(s) == 4 * n
    ensures Taken(s) <= 4 * n
  {
    if s.joins != {} {
      var id :| id in s.joins;
      assert Apply(s, n, ServerJoined(id)).Some?;
    } else if s.waiting {
      assert Apply(s, n, ServerAsked(s.next)).Some? || Apply(s, n, ClientJoined(s.next)).Some?;
    } else if s.next < n {
      assert Apply(s, n, Ask).Some?;
    } else {
      forall j | 0 <= j < NUM_QUEUES
        ensures s.server.links[j] == if j < n then Link(CONNECTED, Some(j)) else Link(INIT, None)
      {
        assert LinkOk(s.server, s.joins, j);
      }
      assert Stuck(s, n);
    }
  }

  // Every run of a client with at most NUM_QUEUES queues has at most 4 n steps, and it cannot go on
  // exactly when it has taken 4 n: then every client queue i is joined to server queue i.
  lemma RunsComplete(n: nat, steps: seq<Step>)
    requires n <= NUM_QUEUES && Run(n, steps).Some?
    ensures |steps| <= 4 * n
    ensures Stuck(Run(n, steps).value, n) <==> |steps| == 4 * n
    ensures |steps| == 4 * n <==> Complete(Run(n, steps).value, n)
  {
    RunOk(n, steps);
    StepsTaken(n, steps);
    StuckIsComplete(Run(n, steps).value, n);
  }
}

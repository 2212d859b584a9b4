// Stores and loads of many pages at once, from the allocator's lock sections down to the queue steps:
// the machines of ConcurrentStore and RequestQueues running together. Each remote transfer of the first
// is a call of the second on the server that holds the frame.
module ConcurrentSwap {
  import opened Layout
  import opened QueueIndex
  import A = ConcurrentStore
  import Q = RequestQueues

  // ids: the queue call of each page whose transfer is in progress; pages: its inverse, for each node.
  // The logs are history: what has happened in the allocator and on each server's queues.
  datatype World = World(
    store: A.State,
    servers: seq<Q.Server>,
    ids: map<nat, nat>,
    pages: seq<map<nat, nat>>,
    storeLog: seq<A.Event>,
    queueLogs: seq<seq<Q.Event>>
  )

  datatype Event =
    | Local(a: A.Event)              // a step of sswap_store or sswap_load outside the transfer
    | Transfer(page: nat, cpu: nat)  // sswap_rdma_write or sswap_rdma_read_sync is entered
    | Queue(node: nat, q: Q.Event)   // a caller, poller or device moves on a server's queues
    | Return(page: nat)              // drain_queue finds nothing pending, and the call returns

  function Initial(c: Q.Config): World {
    World(A.INITIAL, [Q.Initial(c), Q.Initial(c)], map[], [map[], map[]], [], [[], []])
  }

  predicate Shape(w: World) {
    A.Fixed(w.store) && |w.servers| == |w.pages| == |w.queueLogs| == 2
  }

  function OffsetOf(l: Loc): nat {
    l.slot * PAGE_SIZE
  }

  function OpOf(task: A.Task): Q.Op {
    if task.phase.Writing? then Q.WriteOp(task.data) else Q.ReadOp
  }

  // The frame page p's call is transferring, or about to transfer.
  function TargetOf(s: A.State, p: nat): Option<Loc> {
    if p in s.tasks then A.Target(p, s.tasks[p].phase) else None
  }

  function LocalStep(w: World, e: A.Event): Option<World>
    requires Shape(w)
  {
    if e.Advance? && TargetOf(w.store, e.page).Some? then None
    else
      match A.Apply(w.store, e)
      case None => None
      case Some(s) => Some(w.(store := s, storeLog := w.storeLog + [e]))
  }

  function Began(w: World, p: nat, t: nat, e: Q.Event, sv: Q.Server): World
    requires Shape(w) && t < 2
  {
    w.(servers := w.servers[t := sv],
       ids := w.ids[p := w.servers[t].next],
       pages := w.pages[t := w.pages[t][w.servers[t].next := p]],
       queueLogs := w.queueLogs[t := w.queueLogs[t] + [e]])
  }

  function BeginEvent(w: World, p: nat, cpu: nat, l: Loc): Q.Event
    requires p in w.store.tasks
  {
    Q.Begin(cpu, OffsetOf(l), OpOf(w.store.tasks[p]))
  }

  ghost function TransferStep(w: World, c: Q.Config, p: nat, cpu: nat): Option<World>
    requires Shape(w)
  {
    match TargetOf(w.store, p)
    case None => None
    case Some(l) =>
      if p in w.ids || l.node >= 2 then None
      else
        match Q.Apply(w.servers[l.node], c, BeginEvent(w, p, cpu, l))
        case None => None
        case Some(sv) => Some(Began(w, p, l.node, BeginEvent(w, p, cpu, l), sv))
  }

  // The queue steps that neither start nor end a call.
  predicate Inner(sv: Q.Server, e: Q.Event) {
    e.Device? || e.Poll? || (e.Advance? && e.id in sv.calls && !sv.calls[e.id].phase.Draining?)
  }

  function Moved(w: World, t: nat, e: Q.Event, sv: Q.Server): World
    requires Shape(w) && t < 2
  {
    w.(servers := w.servers[t := sv], queueLogs := w.queueLogs[t := w.queueLogs[t] + [e]])
  }

  ghost function QueueStep(w: World, c: Q.Config, t: nat, e: Q.Event): Option<World>
    requires Shape(w)
  {
    if t >= 2 || !Inner(w.servers[t], e) then None
    else
      match Q.Apply(w.servers[t], c, e)
      case None => None
      case Some(sv) => Some(Moved(w, t, e, sv))
  }

  // Call i of server sv is about to return from drain_queue.
  predicate Drained(sv: Q.Server, i: nat) {
    && i in sv.calls && sv.calls[i].phase.Draining? && sv.calls[i].req.queue < |sv.queues|
    && sv.queues[sv.calls[i].req.queue].pending <= 0
  }

  function Ended(sv: Q.Server, i: nat): Q.Server {
    sv.(calls := sv.calls - {i})
  }

  function Returned(w: World, p: nat, t: nat, s: A.State): World
    requires Shape(w) && t < 2 && p in w.ids
  {
    var i := w.ids[p];
    w.(store := s, storeLog := w.storeLog + [A.Advance(p)],
       servers := w.servers[t := Ended(w.servers[t], i)],
       queueLogs := w.queueLogs[t := w.queueLogs[t] + [Q.Advance(i)]],
       ids := w.ids - {p}, pages := w.pages[t := w.pages[t] - {i}])
  }

  function ReturnStep(w: World, p: nat): Option<World>
    requires Shape(w)
  {
    match TargetOf(w.store, p)
    case None => None
    case Some(l) =>
      if p !in w.ids || l.node >= 2 || !Drained(w.servers[l.node], w.ids[p]) then None
      else
        match A.Apply(w.store, A.Advance(p))
        case None => None
        case Some(s) => Some(Returned(w, p, l.node, s))
  }

  ghost function Apply(w: World, c: Q.Config, e: Event): (r: Option<World>)
    requires Shape(w)
    ensures r.Some? ==> Shape(r.value)
  {
    match e
    case Local(a) => LocalStep(w, a)
    case Transfer(p, cpu) => TransferStep(w, c, p, cpu)
    case Queue(t, q) => QueueStep(w, c, t, q)
    case Return(p) => ReturnStep(w, p)
  }

  ghost function Run(c: Q.Config, es: seq<Event>): (r: Option<World>)
    ensures r.Some? ==> Shape(r.value)
  {
    if es == [] then Some(Initial(c))
    else
      var before := Run(c, es[..|es| - 1]);
      if before.None? then None else Apply(before.value, c, es[|es| - 1])
  }

  // ---------- each part runs as it does alone ----------

  ghost predicate Logged(w: World, c: Q.Config) {
    && Shape(w)
    && A.Run(w.storeLog) == Some(w.store)
    && (forall t :: 0 <= t < 2 ==> Q.Run(c, w.queueLogs[t]) == Some(w.servers[t]) && Q.NoLeave(w.queueLogs[t]))
  }

  lemma StoreRunNext(log: seq<A.Event>, e: A.Event)
    requires A.Run(log).Some?
    ensures A.Run(log + [e]) == A.Apply(A.Run(log).value, e)
  {
    assert (log + [e])[..|log|] == log;
  }

  lemma QueueRunNext(c: Q.Config, log: seq<Q.Event>, e: Q.Event)
    requires Q.Run(c, log).Some?
    ensures Q.Run(c, log + [e]) == Q.Apply(Q.Run(c, log).value, c, e)
  {
    assert (log + [e])[..|log|] == log;
  }

  // A drained call's own next step ends it.
  lemma DrainedEnds(c: Q.Config, sv: Q.Server, i: nat)
    requires Drained(sv, i)
    ensures Q.Apply(sv, c, Q.Advance(i)) == Some(Ended(sv, i))
  {
  }

  lemma LoggedTransfer(w: World, c: Q.Config, p: nat, cpu: nat)
    requires Logged(w, c) && TransferStep(w, c, p, cpu).Some?
    ensures Logged(TransferStep(w, c, p, cpu).value, c)
  {
    var l := TargetOf(w.store, p).value;
    QueueRunNext(c, w.queueLogs[l.node], BeginEvent(w, p, cpu, l));
  }

  lemma LoggedReturn(w: World, c: Q.Config, p: nat)
    requires Logged(w, c) && ReturnStep(w, p).Some?
    ensures Logged(ReturnStep(w, p).value, c)
  {
    var t := TargetOf(w.store, p).value.node;
    StoreRunNext(w.storeLog, A.Advance(p));
    DrainedEnds(c, w.servers[t], w.ids[p]);
    QueueRunNext(c, w.queueLogs[t], Q.Advance(w.ids[p]));
  }

  lemma LoggedStep(w: World, c: Q.Config, e: Event)
    requires Logged(w, c) && Apply(w, c, e).Some?
    ensures Logged(Apply(w, c, e).value, c)
  {
    match e
    case Local(a) => StoreRunNext(w.storeLog, a);
    case Transfer(p, cpu) => LoggedTransfer(w, c, p, cpu);
    case Queue(t, q) => QueueRunNext(c, w.queueLogs[t], q);
    case Return(p) => LoggedReturn(w, c, p);
  }

  lemma {:induction false} RunLogged(c: Q.Config, es: seq<Event>)
    ensures Run(c, es).Some? ==> Logged(Run(c, es).value, c)
  {
    if es != [] && Run(c, es).Some? {
      RunLogged(c, es[..|es| - 1]);
      LoggedStep(Run(c, es[..|es| - 1]).value, c, es[|es| - 1]);
    }
  }

  ghost predicate PartsOk(w: World, c: Q.Config) {
    Shape(w) && A.Inv(w.store) && Q.Ok(w.servers[0], c) && Q.Ok(w.servers[1], c)
  }

  lemma LoggedPartsOk(w: World, c: Q.Config)
    requires Logged(w, c)
    ensures PartsOk(w, c)
  {
    A.RunInv(w.storeLog);
    Q.RunOk(c, w.queueLogs[0]);
    Q.RunOk(c, w.queueLogs[1]);
  }

  // ---------- how the parts hang together ----------

  // Page p's transfer is the call ids[p] on the server of its frame.
  ghost predicate PageLinked(w: World, p: nat)
    requires Shape(w) && p in w.ids
  {
    && TargetOf(w.store, p).Some?
    && var l := TargetOf(w.store, p).value;
    && l.node < 2
    && w.ids[p] in w.servers[l.node].calls
    && w.servers[l.node].calls[w.ids[p]].req.offset == OffsetOf(l)
    && w.servers[l.node].calls[w.ids[p]].req.op == OpOf(w.store.tasks[p])
    && w.ids[p] in w.pages[l.node] && w.pages[l.node][w.ids[p]] == p
  }

  // Every call on server t is the transfer of a page, and no request outlives its call.
  ghost predicate CallLinked(w: World, t: nat, i: nat)
    requires Shape(w) && t < 2
  {
    && i in w.pages[t]
    && w.pages[t][i] in w.ids && w.ids[w.pages[t][i]] == i
    && TargetOf(w.store, w.pages[t][i]).Some? && TargetOf(w.store, w.pages[t][i]).value.node == t
  }

  // A store's transfer to frame l has begun and not returned.
  ghost predicate Written(w: World, l: Loc) {
    exists p :: p in w.ids && p in w.store.tasks && w.store.tasks[p].phase.Writing? && TargetOf(w.store, p) == Some(l)
  }

  // The last write begun at frame l's offset brought the contents the allocator machine has there.
  ghost predicate FrameLinked(w: World, l: Loc)
    requires Shape(w) && l in w.store.mem && l.node < 2
  {
    OffsetOf(l) in w.servers[l.node].latest && w.servers[l.node].latest[OffsetOf(l)] == w.store.mem[l]
  }

  // A store's begun write is the last one begun at its offset.
  ghost predicate WriteLinked(w: World, p: nat)
    requires Shape(w) && p in w.ids && PageLinked(w, p)
  {
    w.store.tasks[p].phase.Writing? ==>
      var l := TargetOf(w.store, p).value;
      OffsetOf(l) in w.servers[l.node].latest && w.servers[l.node].latest[OffsetOf(l)] == w.store.tasks[p].data
  }

  ghost predicate Linked(w: World)
    requires Shape(w)
  {
    && (forall p :: p in w.ids ==> PageLinked(w, p) && WriteLinked(w, p))
    && (forall t, i :: 0 <= t < 2 && i in w.servers[t].calls ==> CallLinked(w, t, i))
    && (forall t, i :: 0 <= t < 2 && i in w.servers[t].open ==> i in w.servers[t].calls)
    && (forall l :: l in w.store.mem && l.node < 2 && !Written(w, l) ==> FrameLinked(w, l))
  }

  lemma InitialLinked(c: Q.Config)
    ensures Linked(Initial(c))
  {
  }

  // ---------- the allocator's own steps ----------

  ghost predicate SameTransfers(w: World, w': World) {
    && Shape(w) && Shape(w')
    && w'.servers == w.servers && w'.ids == w.ids && w'.pages == w.pages && w'.store.mem == w.store.mem
    && forall p :: p in w.ids ==>
         p in w.store.tasks && p in w'.store.tasks && w'.store.tasks[p] == w.store.tasks[p]
  }

  lemma SameLinked(w: World, w': World)
    requires SameTransfers(w, w') && Linked(w)
    ensures Linked(w')
  {
    forall p | p in w'.ids
      ensures PageLinked(w', p) && WriteLinked(w', p)
    {
      assert PageLinked(w, p) && WriteLinked(w, p);
    }
    forall t, i | 0 <= t < 2 && i in w'.servers[t].calls
      ensures CallLinked(w', t, i)
    {
      assert CallLinked(w, t, i);
    }
    forall l | l in w'.store.mem && l.node < 2 && !Written(w', l)
      ensures FrameLinked(w', l)
    {
      assert !Written(w, l);
      assert FrameLinked(w, l);
    }
  }

  lemma MemStays(s: A.State, e: A.Event)
    requires A.Fixed(s) && A.Apply(s, e).Some? && (e.Advance? ==> TargetOf(s, e.page).None?)
    ensures A.Apply(s, e).value.mem == s.mem
  {
  }

  lemma LocalKeeps(w: World, e: A.Event)
    requires Shape(w) && Linked(w) && LocalStep(w, e).Some?
    ensures Linked(LocalStep(w, e).value)
  {
    MemStays(w.store, e);
    forall p | p in w.ids
      ensures p in w.store.tasks && p in LocalStep(w, e).value.store.tasks
      ensures LocalStep(w, e).value.store.tasks[p] == w.store.tasks[p]
    {
      assert PageLinked(w, p);
      A.OtherTasksStay(w.store, e, p);
    }
    SameLinked(w, LocalStep(w, e).value);
  }

  // ---------- the queues' own steps ----------

  // Calls and their requests, and what was begun, are as before; no request has been opened.
  ghost predicate SameCalls(sv: Q.Server, sv': Q.Server) {
    && (forall i :: i in sv'.calls <==> i in sv.calls)
    && (forall i :: i in sv.calls ==> sv'.calls[i].req == sv.calls[i].req)
    && sv'.latest == sv.latest
    && (forall i :: i in sv'.open ==> i in sv.open)
  }

  lemma AdvanceKeeps(sv: Q.Server, i: nat)
    requires i in sv.calls && !sv.calls[i].phase.Draining? && sv.calls[i].req.queue < |sv.queues|
    requires Q.AdvanceStep(sv, i).Some?
    ensures SameCalls(sv, Q.AdvanceStep(sv, i).value)
  {
  }

  lemma PollKeeps(sv: Q.Server, i: nat)
    requires i in sv.calls && sv.calls[i].req.queue < |sv.queues| && Q.PollStep(sv, i).Some?
    ensures SameCalls(sv, Q.PollStep(sv, i).value)
  {
  }

  lemma InnerKeeps(c: Q.Config, sv: Q.Server, e: Q.Event)
    requires Inner(sv, e) && Q.Apply(sv, c, e).Some?
    ensures SameCalls(sv, Q.Apply(sv, c, e).value)
  {
    match e
    case Advance(i) => AdvanceKeeps(sv, i);
    case Poll(i) => PollKeeps(sv, i);
    case Device(_) =>
  }

  lemma QueueLinked(w: World, t: nat, e: Q.Event, sv: Q.Server)
    requires Shape(w) && t < 2 && Linked(w) && SameCalls(w.servers[t], sv)
    ensures Linked(Moved(w, t, e, sv))
  {
    var w' := Moved(w, t, e, sv);
    forall p | p in w'.ids
      ensures PageLinked(w', p) && WriteLinked(w', p)
    {
      assert PageLinked(w, p) && WriteLinked(w, p);
    }
    forall u, i | 0 <= u < 2 && i in w'.servers[u].calls
      ensures CallLinked(w', u, i)
    {
      assert CallLinked(w, u, i);
    }
    forall l | l in w'.store.mem && l.node < 2 && !Written(w', l)
      ensures FrameLinked(w', l)
    {
      assert !Written(w, l);
      assert FrameLinked(w, l);
    }
  }

  // ---------- a transfer begins ----------

  // Transfers in progress have different frames.
  ghost predicate Apart(s: A.State) {
    forall p, q :: p != q && TargetOf(s, p).Some? && TargetOf(s, q).Some? ==> TargetOf(s, p) != TargetOf(s, q)
  }

  lemma StoreApart(log: seq<A.Event>)
    requires A.Run(log).Some?
    ensures Apart(A.Run(log).value)
  {
    forall p, q | p != q && TargetOf(A.Run(log).value, p).Some? && TargetOf(A.Run(log).value, q).Some?
      ensures TargetOf(A.Run(log).value, p) != TargetOf(A.Run(log).value, q)
    {
      A.TransfersApart(log, p, q);
    }
  }

  // What beginning call sv.next for a request at an offset does.
  ghost predicate Begins(sv: Q.Server, offset: nat, op: Q.Op, sv': Q.Server) {
    && sv.next !in sv.calls
    && sv.next in sv'.calls && sv'.calls == sv.calls[sv.next := sv'.calls[sv.next]]
    && sv'.calls[sv.next].req.offset == offset && sv'.calls[sv.next].req.op == op
    && (forall i :: i in sv'.open ==> i in sv.open || i == sv.next)
    && sv'.latest == (if op.WriteOp? then sv.latest[offset := op.data] else sv.latest)
  }

  lemma BeginBegins(c: Q.Config, sv: Q.Server, e: Q.Event)
    requires e.Begin? && Q.Apply(sv, c, e).Some? && Q.EffectsOk(sv)
    ensures Begins(sv, e.offset, e.op, Q.Apply(sv, c, e).value)
  {
    assert sv.next in sv.calls ==> Q.CallOk(sv, sv.next);
  }

  ghost predicate Starts(w: World, p: nat, l: Loc, sv: Q.Server) {
    && Shape(w) && p !in w.ids && l.node < 2 && TargetOf(w.store, p) == Some(l)
    && Begins(w.servers[l.node], OffsetOf(l), OpOf(w.store.tasks[p]), sv)
  }

  lemma BeganPage(w: World, p: nat, l: Loc, e: Q.Event, sv: Q.Server, q: nat)
    requires Starts(w, p, l, sv) && q in Began(w, p, l.node, e, sv).ids
    requires q != p ==> PageLinked(w, q) && WriteLinked(w, q) && TargetOf(w.store, q) != Some(l)
    ensures PageLinked(Began(w, p, l.node, e, sv), q) && WriteLinked(Began(w, p, l.node, e, sv), q)
  {
  }

  lemma BeganCall(w: World, p: nat, l: Loc, e: Q.Event, sv: Q.Server, t: nat, i: nat)
    requires Starts(w, p, l, sv) && t < 2 && i in Began(w, p, l.node, e, sv).servers[t].calls
    requires i in w.servers[t].calls ==> CallLinked(w, t, i)
    ensures CallLinked(Began(w, p, l.node, e, sv), t, i)
  {
  }

  lemma BeganFrame(w: World, p: nat, l: Loc, e: Q.Event, sv: Q.Server, m: Loc)
    requires Starts(w, p, l, sv) && m in w.store.mem && m.node < 2
    requires !Written(Began(w, p, l.node, e, sv), m) && (!Written(w, m) ==> FrameLinked(w, m))
    ensures FrameLinked(Began(w, p, l.node, e, sv), m)
  {
    var w' := Began(w, p, l.node, e, sv);
    assert forall q :: q in w.ids ==> q in w'.ids;
    assert !Written(w, m);
    assert FrameLinked(w, m);
    if m == l {
      assert p in w'.ids && TargetOf(w.store, p) == Some(m);
    }
  }

  lemma BeganLinked(w: World, p: nat, l: Loc, e: Q.Event, sv: Q.Server)
    requires Starts(w, p, l, sv) && Linked(w) && Apart(w.store)
    ensures Linked(Began(w, p, l.node, e, sv))
  {
    var w' := Began(w, p, l.node, e, sv);
    forall q | q in w'.ids
      ensures PageLinked(w', q) && WriteLinked(w', q)
    {
      assert q != p ==> PageLinked(w, q) && WriteLinked(w, q);
      BeganPage(w, p, l, e, sv, q);
    }
    forall t, i | 0 <= t < 2 && i in w'.servers[t].calls
      ensures CallLinked(w', t, i)
    {
      assert i in w.servers[t].calls ==> CallLinked(w, t, i);
      BeganCall(w, p, l, e, sv, t, i);
    }
    forall m | m in w'.store.mem && m.node < 2 && !Written(w', m)
      ensures FrameLinked(w', m)
    {
      BeganFrame(w, p, l, e, sv, m);
    }
  }

  // ---------- a transfer returns ----------

  // The page's contents are entered in the allocator machine's memory, and its call is over.
  ghost predicate Finishes(s: A.State, p: nat, l: Loc, s': A.State) {
    && TargetOf(s, p) == Some(l)
    && s'.tasks == s.tasks - {p}
    && s'.mem == (if s.tasks[p].phase.Writing? then s.mem[l := s.tasks[p].data] else s.mem)
  }

  lemma AdvanceFinishes(s: A.State, p: nat, l: Loc)
    requires A.Fixed(s) && TargetOf(s, p) == Some(l) && A.Apply(s, A.Advance(p)).Some?
    ensures Finishes(s, p, l, A.Apply(s, A.Advance(p)).value)
  {
  }

  ghost predicate Stops(w: World, p: nat, l: Loc, s: A.State) {
    && Shape(w) && A.Fixed(s) && p in w.ids && l.node < 2 && Finishes(w.store, p, l, s)
    && PageLinked(w, p) && WriteLinked(w, p)
  }

  lemma ReturnedPage(w: World, p: nat, l: Loc, s: A.State, q: nat)
    requires Stops(w, p, l, s) && q in w.ids && q != p && PageLinked(w, q) && WriteLinked(w, q)
    ensures PageLinked(Returned(w, p, l.node, s), q) && WriteLinked(Returned(w, p, l.node, s), q)
  {
    assert s.tasks[q] == w.store.tasks[q];
    assert TargetOf(s, q) == TargetOf(w.store, q);
  }

  lemma ReturnedCall(w: World, p: nat, l: Loc, s: A.State, t: nat, i: nat)
    requires Stops(w, p, l, s) && t < 2 && i in Returned(w, p, l.node, s).servers[t].calls && CallLinked(w, t, i)
    ensures CallLinked(Returned(w, p, l.node, s), t, i)
  {
    var q := w.pages[t][i];
    assert q != p;
    assert TargetOf(s, q) == TargetOf(w.store, q);
  }

  lemma ReturnedFrame(w: World, p: nat, l: Loc, s: A.State, m: Loc)
    requires Stops(w, p, l, s) && m in s.mem && m.node < 2 && !Written(Returned(w, p, l.node, s), m)
    requires m in w.store.mem && !Written(w, m) ==> FrameLinked(w, m)
    ensures FrameLinked(Returned(w, p, l.node, s), m)
  {
    var w' := Returned(w, p, l.node, s);
    if m == l && w.store.tasks[p].phase.Writing? {
      assert s.mem[m] == w.store.tasks[p].data;
    } else {
      forall q | q in w.ids && q in w.store.tasks && w.store.tasks[q].phase.Writing?
        ensures TargetOf(w.store, q) != Some(m)
      {
        assert q != p ==> q in w'.ids && q in s.tasks && TargetOf(s, q) == TargetOf(w.store, q);
      }
      assert FrameLinked(w, m);
    }
  }

  lemma ReturnedLinked(w: World, p: nat, l: Loc, s: A.State)
    requires Stops(w, p, l, s) && Linked(w) && w.ids[p] !in w.servers[l.node].open
    ensures Linked(Returned(w, p, l.node, s))
  {
    var w' := Returned(w, p, l.node, s);
    forall q | q in w'.ids
      ensures PageLinked(w', q) && WriteLinked(w', q)
    {
      assert PageLinked(w, q) && WriteLinked(w, q);
      ReturnedPage(w, p, l, s, q);
    }
    forall t, i | 0 <= t < 2 && i in w'.servers[t].calls
      ensures CallLinked(w', t, i)
    {
      assert CallLinked(w, t, i);
      ReturnedCall(w, p, l, s, t, i);
    }
    forall m | m in w'.store.mem && m.node < 2 && !Written(w', m)
      ensures FrameLinked(w', m)
    {
      ReturnedFrame(w, p, l, s, m);
    }
  }

  // A drained call's request has been carried out.
  lemma DrainedIsDone(c: Q.Config, sv: Q.Server, i: nat)
    requires Q.Ok(sv, c) && Drained(sv, i)
    ensures i !in sv.open && Q.Done(sv, i, sv.calls[i].req)
  {
    assert Q.QueueOk(sv, c, sv.calls[i].req.queue) && Q.CallOk(sv, i);
  }

  // ---------- every run ----------

  lemma TransferKeeps(w: World, c: Q.Config, p: nat, cpu: nat)
    requires Shape(w) && Linked(w) && Apart(w.store) && TransferStep(w, c, p, cpu).Some?
    requires Q.EffectsOk(w.servers[0]) && Q.EffectsOk(w.servers[1])
    ensures Linked(TransferStep(w, c, p, cpu).value)
  {
    var l := TargetOf(w.store, p).value;
    var e := BeginEvent(w, p, cpu, l);
    BeginBegins(c, w.servers[l.node], e);
    BeganLinked(w, p, l, e, Q.Apply(w.servers[l.node], c, e).value);
  }

  // Page p's transfer is over: its request has been carried out.
  lemma ReturningIsDone(w: World, c: Q.Config, p: nat)
    requires Shape(w) && Q.Ok(w.servers[0], c) && Q.Ok(w.servers[1], c) && ReturnStep(w, p).Some?
    ensures var sv := w.servers[TargetOf(w.store, p).value.node];
            w.ids[p] !in sv.open && Q.Done(sv, w.ids[p], sv.calls[w.ids[p]].req)
  {
    DrainedIsDone(c, w.servers[TargetOf(w.store, p).value.node], w.ids[p]);
  }

  lemma ReturnKeeps(w: World, p: nat)
    requires Shape(w) && Linked(w) && ReturnStep(w, p).Some?
    requires w.ids[p] !in w.servers[TargetOf(w.store, p).value.node].open
    ensures Linked(ReturnStep(w, p).value)
  {
    var l := TargetOf(w.store, p).value;
    assert PageLinked(w, p) && WriteLinked(w, p);
    AdvanceFinishes(w.store, p, l);
    ReturnedLinked(w, p, l, A.Apply(w.store, A.Advance(p)).value);
  }

  lemma QueueKeeps(w: World, c: Q.Config, t: nat, e: Q.Event)
    requires Shape(w) && Linked(w) && QueueStep(w, c, t, e).Some?
    ensures Linked(QueueStep(w, c, t, e).value)
  {
    InnerKeeps(c, w.servers[t], e);
    QueueLinked(w, t, e, Q.Apply(w.servers[t], c, e).value);
  }

  lemma StepLinked(w: World, c: Q.Config, e: Event)
    requires Shape(w) && Q.Ok(w.servers[0], c) && Q.Ok(w.servers[1], c) && Apart(w.store) && Linked(w)
    requires Apply(w, c, e).Some?
    ensures Linked(Apply(w, c, e).value)
  {
    match e
    case Local(a) => LocalKeeps(w, a);
    case Transfer(p, cpu) => TransferKeeps(w, c, p, cpu);
    case Queue(t, q) => QueueKeeps(w, c, t, q);
    case Return(p) =>
      ReturningIsDone(w, c, p);
      ReturnKeeps(w, p);
  }

  ghost predicate WorldOk(w: World, c: Q.Config) {
    Logged(w, c) && PartsOk(w, c) && Apart(w.store) && Linked(w)
  }

  lemma {:induction false} RunOk(c: Q.Config, es: seq<Event>)
    ensures Run(c, es).Some? ==> WorldOk(Run(c, es).value, c)
  {
    if Run(c, es).Some? {
      RunLogged(c, es);
      LoggedPartsOk(Run(c, es).value, c);
      StoreApart(Run(c, es).value.storeLog);
      if es == [] {
        InitialLinked(c);
      } else {
        RunOk(c, es[..|es| - 1]);
        StepLinked(Run(c, es[..|es| - 1]).value, c, es[|es| - 1]);
      }
    }
  }

  lemma RunPage(c: Q.Config, es: seq<Event>, p: nat)
    requires Run(c, es).Some? && p in Run(c, es).value.ids
    ensures PageLinked(Run(c, es).value, p) && WriteLinked(Run(c, es).value, p)
  {
    RunOk(c, es);
  }

  lemma RunCall(c: Q.Config, es: seq<Event>, t: nat, i: nat)
    requires Run(c, es).Some? && t < 2 && i in Run(c, es).value.servers[t].calls
    ensures CallLinked(Run(c, es).value, t, i)
    ensures PageLinked(Run(c, es).value, Run(c, es).value.pages[t][i])
  {
    RunOk(c, es);
  }

  lemma RunDone(c: Q.Config, es: seq<Event>, p: nat)
    requires Run(c, es).Some? && ReturnStep(Run(c, es).value, p).Some?
    ensures var w := Run(c, es).value;
            var sv := w.servers[TargetOf(w.store, p).value.node];
            Q.Done(sv, w.ids[p], sv.calls[w.ids[p]].req)
  {
    RunOk(c, es);
    ReturningIsDone(Run(c, es).value, c, p);
  }

  lemma RunTask(c: Q.Config, es: seq<Event>, p: nat)
    requires Run(c, es).Some? && p in Run(c, es).value.store.tasks
    ensures A.TaskOk(Run(c, es).value.store, p, Run(c, es).value.store.tasks[p].phase)
    ensures TargetOf(Run(c, es).value.store, p).Some? ==> TargetOf(Run(c, es).value.store, p).value.node < 2
  {
    RunLogged(c, es);
    A.RunInv(Run(c, es).value.storeLog);
    assert A.TaskOk(Run(c, es).value.store, p, Run(c, es).value.store.tasks[p].phase);
  }

  // A request that is open belongs to a call.
  lemma RunOpen(c: Q.Config, es: seq<Event>, t: nat, i: nat)
    requires Run(c, es).Some? && t < 2 && i in Run(c, es).value.servers[t].open
    ensures i in Run(c, es).value.servers[t].calls
  {
    RunOk(c, es);
  }

  lemma RunCallOk(c: Q.Config, es: seq<Event>, t: nat, i: nat)
    requires Run(c, es).Some? && t < 2 && i in Run(c, es).value.servers[t].calls
    ensures Q.CallOk(Run(c, es).value.servers[t], i)
  {
    RunLogged(c, es);
    Q.RunOk(c, Run(c, es).value.queueLogs[t]);
  }

  lemma OtherOffset(w: World, l: Loc, i: nat)
    requires Shape(w) && l.node < 2 && CallLinked(w, l.node, i) && PageLinked(w, w.pages[l.node][i])
    requires TargetOf(w.store, w.pages[l.node][i]) != Some(l)
    ensures w.servers[l.node].calls[i].req.offset != OffsetOf(l)
  {
  }

  lemma RunApart(c: Q.Config, es: seq<Event>, p: nat, q: nat)
    requires Run(c, es).Some? && p != q
    requires TargetOf(Run(c, es).value.store, p).Some? && TargetOf(Run(c, es).value.store, q).Some?
    ensures TargetOf(Run(c, es).value.store, p) != TargetOf(Run(c, es).value.store, q)
  {
    RunLogged(c, es);
    A.TransfersApart(Run(c, es).value.storeLog, p, q);
  }

  // Another page's call has another offset.
  lemma OffsetFree(c: Q.Config, es: seq<Event>, p: nat, l: Loc, i: nat)
    requires Run(c, es).Some? && p !in Run(c, es).value.ids
    requires TargetOf(Run(c, es).value.store, p) == Some(l) && l.node < 2
    requires i in Run(c, es).value.servers[l.node].calls
    ensures Run(c, es).value.servers[l.node].calls[i].req.offset != OffsetOf(l)
  {
    RunCall(c, es, l.node, i);
    RunApart(c, es, p, Run(c, es).value.pages[l.node][i]);
    OtherOffset(Run(c, es).value, l, i);
  }

  // No other call or request has the offset of a transfer that has not begun.
  lemma RunIdle(c: Q.Config, es: seq<Event>, p: nat, l: Loc)
    requires Run(c, es).Some? && p !in Run(c, es).value.ids
    requires TargetOf(Run(c, es).value.store, p) == Some(l) && l.node < 2
    ensures Q.Idle(Run(c, es).value.servers[l.node], OffsetOf(l))
  {
    var sv := Run(c, es).value.servers[l.node];
    forall i | i in sv.calls
      ensures sv.calls[i].req.offset != OffsetOf(l)
    {
      OffsetFree(c, es, p, l, i);
    }
    forall i | i in sv.open
      ensures sv.open[i].offset != OffsetOf(l)
    {
      RunOpen(c, es, l.node, i);
      RunCallOk(c, es, l.node, i);
      OffsetFree(c, es, p, l, i);
    }
  }

  // Nobody is writing the frame a load transfers, so its contents are the last begun there.
  lemma LoadLinked(c: Q.Config, es: seq<Event>, p: nat)
    requires Run(c, es).Some? && p in Run(c, es).value.store.tasks
    requires Run(c, es).value.store.tasks[p].phase.Fetching?
    ensures var w := Run(c, es).value;
            var l := w.store.tasks[p].phase.from;
            l.node < 2 && l in w.store.mem && FrameLinked(w, l)
  {
    RunTask(c, es, p);
    RunOk(c, es);
    var w := Run(c, es).value;
    var l := w.store.tasks[p].phase.from;
    assert TargetOf(w.store, p) == Some(l);
    assert !Written(w, l);
  }

  // What a load is about to fetch is in the server's memory.
  lemma FetchedIsThere(c: Q.Config, es: seq<Event>, p: nat)
    requires Run(c, es).Some? && p in Run(c, es).value.store.tasks && p !in Run(c, es).value.ids
    requires Run(c, es).value.store.tasks[p].phase.Fetching?
    ensures var l := Run(c, es).value.store.tasks[p].phase.from;
            l.node < 2 && OffsetOf(l) in Run(c, es).value.servers[l.node].mem
  {
    LoadLinked(c, es, p);
    var w := Run(c, es).value;
    var l := w.store.tasks[p].phase.from;
    RunIdle(c, es, p, l);
    RunFresh(c, es, l.node, OffsetOf(l));
  }

  lemma RunFresh(c: Q.Config, es: seq<Event>, t: nat, at: nat)
    requires Run(c, es).Some? && t < 2 && at in Run(c, es).value.servers[t].latest
    ensures Q.Fresh(Run(c, es).value.servers[t], at)
  {
    RunLogged(c, es);
    Q.RunOk(c, Run(c, es).value.queueLogs[t]);
  }

  // A transfer can begin as soon as one of the queues takes another caller: what the queue machine asks
  // of its callers always holds.
  lemma TransferNeverBlocked(c: Q.Config, es: seq<Event>, p: nat, cpu: nat)
    requires Run(c, es).Some? && TargetOf(Run(c, es).value.store, p).Some? && p !in Run(c, es).value.ids
    ensures var w := Run(c, es).value;
            var l := TargetOf(w.store, p).value;
            && l.node < 2
            && (TransferStep(w, c, p, cpu).Some? <==> cpu < c.numcpus && CanEnter(w, c, p, cpu))
  {
    RunTask(c, es, p);
    var w := Run(c, es).value;
    RunIdle(c, es, p, TargetOf(w.store, p).value);
    if w.store.tasks[p].phase.Fetching? {
      FetchedIsThere(c, es, p);
    }
  }

  // The CPU's queue for page p's transfer has fewer callers than it may have.
  ghost predicate CanEnter(w: World, c: Q.Config, p: nat, cpu: nat)
    requires Shape(w) && TargetOf(w.store, p).Some? && TargetOf(w.store, p).value.node < 2
  {
    var k := GetQueue(cpu, Q.Kind(OpOf(w.store.tasks[p])), c.numcpus);
    |Q.Active(w.servers[TargetOf(w.store, p).value.node].calls, k)| < c.callers
  }

  // Contents given to the most recent store of a page.
  function LastStore(es: seq<Event>, p: nat): Option<Page> {
    if es == [] then None
    else
      var e := es[|es| - 1];
      if e.Local? && e.a.BeginStore? && e.a.page == p then Some(e.a.data) else LastStore(es[..|es| - 1], p)
  }

  lemma LogNext(log: seq<A.Event>, e: A.Event, p: nat)
    ensures A.LastStore(log + [e], p)
         == if e.BeginStore? && e.page == p then Some(e.data) else A.LastStore(log, p)
  {
    assert (log + [e])[..|log|] == log;
  }

  lemma {:induction false} LogLastStore(c: Q.Config, es: seq<Event>, p: nat)
    requires Run(c, es).Some?
    ensures A.LastStore(Run(c, es).value.storeLog, p) == LastStore(es, p)
  {
    if es != [] {
      var n := |es| - 1;
      LogLastStore(c, es[..n], p);
      var w := Run(c, es[..n]).value;
      match es[n]
      case Local(a) => LogNext(w.storeLog, a, p);
      case Return(q) => LogNext(w.storeLog, A.Advance(q), p);
      case _ =>
    }
  }

  // A store that returns has put its contents into the server's memory.
  lemma StoreIsThere(c: Q.Config, es: seq<Event>, p: nat)
    requires Run(c, es).Some? && p in Run(c, es).value.ids && ReturnStep(Run(c, es).value, p).Some?
    requires Run(c, es).value.store.tasks[p].phase.Writing?
    ensures var w := Run(c, es).value;
            var l := TargetOf(w.store, p).value;
            && OffsetOf(l) in w.servers[l.node].mem
            && LastStore(es, p) == Some(w.servers[l.node].mem[OffsetOf(l)])
  {
    RunPage(c, es, p);
    RunDone(c, es, p);
    RunLogged(c, es);
    A.KeptIsLastStore(Run(c, es).value.storeLog, p);
    LogLastStore(c, es, p);
  }

  // The whole: however stores and loads of any pages interleave, at every lock section, index access,
  // count, post, completion and device step, a load that returns has fetched exactly the contents given
  // to the most recent store of its page.
  lemma LoadReturnsLastStore(c: Q.Config, es: seq<Event>, p: nat)
    requires Run(c, es).Some? && p in Run(c, es).value.ids && ReturnStep(Run(c, es).value, p).Some?
    requires Run(c, es).value.store.tasks[p].phase.Fetching?
    ensures var w := Run(c, es).value;
            var sv := w.servers[TargetOf(w.store, p).value.node];
            w.ids[p] in sv.fetched && LastStore(es, p) == Some(sv.fetched[w.ids[p]])
  {
    RunPage(c, es, p);
    RunLogged(c, es);
    LoadLinked(c, es, p);
    var w := Run(c, es).value;
    var l := TargetOf(w.store, p).value;
    Q.ReadReturnsLastWrite(c, w.queueLogs[l.node], w.ids[p]);
    Q.LatestIsLastWrite(c, w.queueLogs[l.node], OffsetOf(l));
    A.LoadReturnsLastStore(w.storeLog, p);
    LogLastStore(c, es, p);
  }

  // A call in progress on a queue can move, or its page's transfer can return.
  lemma CallMoves(c: Q.Config, es: seq<Event>, t: nat, i: nat) returns (e: Event)
    requires Run(c, es).Some? && t < 2 && i in Run(c, es).value.servers[t].calls
    ensures (e.Queue? || e.Return?) && Apply(Run(c, es).value, c, e).Some?
  {
    RunLogged(c, es);
    var w := Run(c, es).value;
    var q := Q.NeverStuck(c, w.queueLogs[t], i);
    if Inner(w.servers[t], q) {
      e := Queue(t, q);
    } else {
      DrainedReturns(c, es, t, q.id);
      e := Return(w.pages[t][q.id]);
    }
  }

  lemma DrainedReturns(c: Q.Config, es: seq<Event>, t: nat, i: nat)
    requires Run(c, es).Some? && t < 2 && Drained(Run(c, es).value.servers[t], i)
    ensures i in Run(c, es).value.pages[t] && ReturnStep(Run(c, es).value, Run(c, es).value.pages[t][i]).Some?
  {
    RunCall(c, es, t, i);
    RunLogged(c, es);
    A.NeverFull(Run(c, es).value.storeLog, Run(c, es).value.pages[t][i]);
  }

  // No run gets stuck: while a store or load is in progress, something other than a new call can happen.
  lemma NeverStuck(c: Q.Config, es: seq<Event>, p: nat) returns (e: Event)
    requires c.numcpus > 0 && c.callers > 0
    requires Run(c, es).Some? && p in Run(c, es).value.store.tasks
    ensures Apply(Run(c, es).value, c, e).Some? && (e.Local? ==> e.a.Advance?)
  {
    RunLogged(c, es);
    var w := Run(c, es).value;
    if TargetOf(w.store, p).None? {
      A.NeverFull(w.storeLog, p);
      e := Local(A.Advance(p));
    } else if p in w.ids {
      RunPage(c, es, p);
      e := CallMoves(c, es, TargetOf(w.store, p).value.node, w.ids[p]);
    } else {
      TransferNeverBlocked(c, es, p, 0);
      var t := TargetOf(w.store, p).value.node;
      if CanEnter(w, c, p, 0) {
        e := Transfer(p, 0);
      } else {
        var k := GetQueue(0, Q.Kind(OpOf(w.store.tasks[p])), c.numcpus);
        var i :| i in Q.Active(w.servers[t].calls, k);
        e := CallMoves(c, es, t, i);
      }
    }
  }

  // Every caller drains, so pending never exceeds a queue's callers, and with the allocator's placements
  // every access lies in the server's buffer.
  lemma QueuesStaySmall(c: Q.Config, es: seq<Event>, t: nat, k: nat)
    requires Run(c, es).Some? && t < 2 && k < c.numcpus * 3
    ensures var sv := Run(c, es).value.servers[t];
            && k < |sv.queues| && sv.queues[k].pending <= c.callers
            && forall i :: i in sv.calls ==> sv.calls[i].req.offset + PAGE_SIZE <= SERVER_BUF_SIZE
  {
    RunLogged(c, es);
    var w := Run(c, es).value;
    Q.SynchronousPending(c, w.queueLogs[t], k);
    forall i | i in w.servers[t].calls
      ensures w.servers[t].calls[i].req.offset + PAGE_SIZE <= SERVER_BUF_SIZE
    {
      RunCall(c, es, t, i);
      A.AccessesFitServer(w.storeLog, w.pages[t][i]);
    }
  }
}

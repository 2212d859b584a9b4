// The request queues of one memory server under concurrent callers of sswap_rdma_write and
// sswap_rdma_read_sync: back pressure, completion accounting, and when a transfer has happened.
// Every read of `pending`, atomic_inc, ib_post_send, device completion and completion callback is
// one step.
module RequestQueues {
  import opened Layout
  import opened QueueIndex
  import opened Counting

  const QP_MAX_SEND_WR: nat := 4096
  const WRITE_LIMIT: nat := QP_MAX_SEND_WR - 8
  const WRITE_TARGET: nat := 2048
  const READ_LIMIT: nat := QP_MAX_SEND_WR
  const READ_TARGET: nat := 8

  datatype Op = WriteOp(data: Page) | ReadOp

  function Kind(op: Op): QpType {
    if op.WriteOp? then QP_WRITE_SYNC else QP_READ_SYNC
  }

  // The value of `pending` from which a caller backs off, and how much it then polls for.
  function Limit(op: Op): nat {
    if op.WriteOp? then WRITE_LIMIT else READ_LIMIT
  }

  function Target(op: Op): nat {
    if op.WriteOp? then WRITE_TARGET else READ_TARGET
  }

  datatype Request = Request(id: nat, queue: nat, offset: nat, op: Op)

  datatype Phase =
    | Checking                 // before reading pending
    | BackOff(completed: nat)  // in poll_target
    | Cleared                  // past the check, before atomic_inc
    | Counted                  // before ib_post_send
    | Draining                 // in drain_queue

  datatype Call = Call(req: Request, phase: Phase)

  // sent: posted, not yet carried out by the device; ready: in the completion queue.
  // posted and freed are history: every request posted, and every request whose callback has run.
  datatype Queue = Queue(pending: int, sent: seq<Request>, ready: seq<Request>,
                         posted: seq<Request>, freed: seq<Request>)

  // History that no step reads: fetched, what each read brought back; open, the requests begun and
  // not yet carried out; latest, contents of the last write begun at each offset.
  datatype Server = Server(queues: seq<Queue>, calls: map<nat, Call>, mem: map<nat, Page>, next: nat,
                           fetched: map<nat, Page>, open: map<nat, Request>, latest: map<nat, Page>)

  // callers: how many calls may be in progress on one queue at a time.
  datatype Config = Config(numcpus: nat, callers: nat)

  function Initial(c: Config): Server {
    Server(seq(c.numcpus * 3, _ => Queue(0, [], [], [], [])), map[], map[], 0, map[], map[], map[])
  }

  datatype Event =
    | Begin(cpu: nat, offset: nat, op: Op)
    | Advance(id: nat)
    | Poll(id: nat)      // one completion callback, run by a polling call
    | Device(queue: nat) // the device carries out the oldest request of a queue
    | Leave(id: nat)     // a caller of write_queue_add or read_queue_add that does not drain

  // Calls in progress on queue q, and those in two of their phases.
  ghost function Active(calls: map<nat, Call>, q: nat): set<nat> {
    set i | i in calls && calls[i].req.queue == q
  }

  ghost function ClearedOn(calls: map<nat, Call>, q: nat): set<nat> {
    set i | i in calls && calls[i].req.queue == q && calls[i].phase.Cleared?
  }

  ghost function CountedOn(calls: map<nat, Call>, q: nat): set<nat> {
    set i | i in calls && calls[i].req.queue == q && calls[i].phase.Counted?
  }

  // No call or request in progress touches the offset: the swap cache and the slot allocator give
  // each frame to one page, and each page to one call, at a time.
  ghost predicate Idle(s: Server, offset: nat) {
    && (forall i :: i in s.open ==> s.open[i].offset != offset)
    && (forall i :: i in s.calls ==> s.calls[i].req.offset != offset)
  }

  function SetPhase(s: Server, i: nat, phase: Phase): Server
    requires i in s.calls
  {
    s.(calls := s.calls[i := s.calls[i].(phase := phase)])
  }

  ghost function BeginStep(s: Server, c: Config, e: Event): Option<Server>
    requires e.Begin?
  {
    var q := GetQueue(e.cpu, Kind(e.op), c.numcpus);
    if e.cpu < c.numcpus && |Active(s.calls, q)| < c.callers
       && Idle(s, e.offset) && (e.op.ReadOp? ==> e.offset in s.mem)
    then
      var req := Request(s.next, q, e.offset, e.op);
      Some(s.(calls := s.calls[s.next := Call(req, Checking)], next := s.next + 1, open := s.open[s.next := req],
              latest := if e.op.WriteOp? then s.latest[e.offset := e.op.data] else s.latest))
    else None
  }

  // The caller's own next step.
  function AdvanceStep(s: Server, i: nat): Option<Server>
    requires i in s.calls && s.calls[i].req.queue < |s.queues|
  {
    var call := s.calls[i];
    var q := s.queues[call.req.queue];
    match call.phase
    case Checking => Some(SetPhase(s, i, if q.pending >= Limit(call.req.op) then BackOff(0) else Cleared))
    case BackOff(n) => if n >= Target(call.req.op) || q.pending <= 0 then Some(SetPhase(s, i, Checking)) else None
    case Cleared => Some(SetPhase(s, i, Counted).(queues := s.queues[call.req.queue := q.(pending := q.pending + 1)]))
    case Counted => Some(SetPhase(s, i, Draining).(queues := s.queues[call.req.queue :=
                                   q.(sent := q.sent + [call.req], posted := q.posted + [call.req])]))
    case Draining => if q.pending <= 0 then Some(s.(calls := s.calls - {i})) else None
  }

  function Polls(call: Call, pending: int): bool {
    pending > 0 && (call.phase.Draining? || (call.phase.BackOff? && call.phase.completed < Target(call.req.op)))
  }

  // sswap_rdma_write_done or sswap_rdma_read_done on the oldest completion.
  function Polled(q: Queue): Queue
    requires q.ready != []
  {
    q.(pending := q.pending - 1, ready := q.ready[1..], freed := q.freed + [q.ready[0]])
  }

  function PollStep(s: Server, i: nat): Option<Server>
    requires i in s.calls && s.calls[i].req.queue < |s.queues|
  {
    var call := s.calls[i];
    var q := s.queues[call.req.queue];
    if Polls(call, q.pending) && q.ready != [] then
      var s1 := s.(queues := s.queues[call.req.queue := Polled(q)]);
      Some(if call.phase.BackOff? then SetPhase(s1, i, BackOff(call.phase.completed + 1)) else s1)
    else None
  }

  function DeviceStep(s: Server, k: nat): Option<Server>
    requires k < |s.queues|
  {
    var q := s.queues[k];
    if q.sent == [] then None
    else
      var r := q.sent[0];
      var s1 := s.(queues := s.queues[k := q.(sent := q.sent[1..], ready := q.ready + [r])], open := s.open - {r.id});
      match r.op
      case WriteOp(data) => Some(s1.(mem := s.mem[r.offset := data]))
      case ReadOp => if r.offset in s.mem then Some(s1.(fetched := s.fetched[r.id := s.mem[r.offset]])) else None
  }

  ghost function Apply(s: Server, c: Config, e: Event): (r: Option<Server>) {
    match e
    case Begin(_, _, _) => BeginStep(s, c, e)
    case Advance(i) => if i in s.calls && s.calls[i].req.queue < |s.queues| then AdvanceStep(s, i) else None
    case Poll(i) => if i in s.calls && s.calls[i].req.queue < |s.queues| then PollStep(s, i) else None
    case Device(k) => if k < |s.queues| then DeviceStep(s, k) else None
    case Leave(i) => if i in s.calls && s.calls[i].phase.Draining? then Some(s.(calls := s.calls - {i})) else None
  }

  ghost function Run(c: Config, es: seq<Event>): Option<Server> {
    if es == [] then Some(Initial(c))
    else
      var before := Run(c, es[..|es| - 1]);
      if before.None? then None else Apply(before.value, c, es[|es| - 1])
  }

  // ---------- accounting and back pressure ----------

  // Calls sit on the queue of their kind.
  predicate Routed(s: Server, c: Config) {
    && |s.queues| == c.numcpus * 3
    && forall i :: i in s.calls ==>
         && s.calls[i].req.queue < |s.queues|
         && GetQueueType(s.calls[i].req.queue, c.numcpus) == Some(Kind(s.calls[i].req.op))
  }

  ghost predicate Accounted(q: Queue, counted: set<nat>) {
    q.pending == |q.sent| + |q.ready| + |counted|
  }

  function QueueLimit(k: nat, numcpus: nat): nat {
    if k < numcpus * 2 then READ_LIMIT else WRITE_LIMIT
  }

  ghost predicate Pressed(q: Queue, active: set<nat>, cleared: set<nat>, limit: nat, callers: nat) {
    && |active| <= callers
    && q.pending + |cleared| < limit + callers
  }

  ghost predicate QueueOk(s: Server, c: Config, k: nat)
    requires k < |s.queues|
  {
    && Accounted(s.queues[k], CountedOn(s.calls, k))
    && Pressed(s.queues[k], Active(s.calls, k), ClearedOn(s.calls, k), QueueLimit(k, c.numcpus), c.callers)
  }

  ghost predicate QueuesOk(s: Server, c: Config) {
    Routed(s, c) && forall k :: 0 <= k < |s.queues| ==> QueueOk(s, c, k)
  }

  // Moving call i from one phase to another moves it between the sets of its own queue only.
  lemma PhaseMove(calls: map<nat, Call>, i: nat, phase: Phase, k: nat)
    requires i in calls
    ensures var calls' := calls[i := calls[i].(phase := phase)];
            && Active(calls', k) == Active(calls, k)
            && (calls[i].req.queue != k ==>
                  ClearedOn(calls', k) == ClearedOn(calls, k) && CountedOn(calls', k) == CountedOn(calls, k))
            && (calls[i].req.queue == k ==>
                  && ClearedOn(calls', k)
                     == (if phase.Cleared? then ClearedOn(calls, k) + {i} else ClearedOn(calls, k) - {i})
                  && CountedOn(calls', k)
                     == (if phase.Counted? then CountedOn(calls, k) + {i} else CountedOn(calls, k) - {i}))
            && ClearedOn(calls, k) <= Active(calls, k) && CountedOn(calls, k) <= Active(calls, k)
  {
  }

  // Call i moves to `phase` while its queue becomes q.
  function Moved(s: Server, i: nat, phase: Phase, q: Queue): Server
    requires i in s.calls && s.calls[i].req.queue < |s.queues|
  {
    SetPhase(s, i, phase).(queues := s.queues[s.calls[i].req.queue := q])
  }

  lemma MoveKeeps(s: Server, c: Config, i: nat, phase: Phase, q: Queue)
    requires QueuesOk(s, c) && i in s.calls && s.calls[i].req.queue < |s.queues|
    requires QueueOk(Moved(s, i, phase, q), c, s.calls[i].req.queue)
    ensures QueuesOk(Moved(s, i, phase, q), c)
  {
    var s' := Moved(s, i, phase, q);
    forall k | 0 <= k < |s'.queues|
      ensures QueueOk(s', c, k)
    {
      assert QueueOk(s, c, k);
      PhaseMove(s.calls, i, phase, k);
    }
  }

  // Past the check: pending was below the limit, and at most `callers` calls can be past it at once.
  lemma CheckQueue(s: Server, c: Config, i: nat)
    requires QueuesOk(s, c) && i in s.calls && s.calls[i].phase.Checking?
    ensures QueuesOk(AdvanceStep(s, i).value, c)
  {
    var k := s.calls[i].req.queue;
    var phase := if s.queues[k].pending >= Limit(s.calls[i].req.op) then BackOff(0) else Cleared;
    PhaseMove(s.calls, i, phase, k);
    assert QueueOk(s, c, k);
    var s' := Moved(s, i, phase, s.queues[k]);
    SubsetCount(ClearedOn(s'.calls, k), Active(s'.calls, k));
    assert Limit(s.calls[i].req.op) == QueueLimit(k, c.numcpus);
    assert QueueOk(s', c, k);
    MoveKeeps(s, c, i, phase, s.queues[k]);
    assert s'.queues == s.queues;
  }

  lemma CountQueue(s: Server, c: Config, i: nat)
    requires QueuesOk(s, c) && i in s.calls && s.calls[i].phase.Cleared?
    ensures QueuesOk(AdvanceStep(s, i).value, c)
  {
    var k := s.calls[i].req.queue;
    var q := s.queues[k].(pending := s.queues[k].pending + 1);
    PhaseMove(s.calls, i, Counted, k);
    assert QueueOk(s, c, k);
    MoveKeeps(s, c, i, Counted, q);
  }

  lemma PostQueue(s: Server, c: Config, i: nat)
    requires QueuesOk(s, c) && i in s.calls && s.calls[i].phase.Counted?
    ensures QueuesOk(AdvanceStep(s, i).value, c)
  {
    var k := s.calls[i].req.queue;
    var r := s.calls[i].req;
    var q := s.queues[k].(sent := s.queues[k].sent + [r], posted := s.queues[k].posted + [r]);
    PhaseMove(s.calls, i, Draining, k);
    assert QueueOk(s, c, k);
    MoveKeeps(s, c, i, Draining, q);
  }

  // A phase change that neither passes the check nor counts.
  lemma QuietPhase(s: Server, c: Config, i: nat, phase: Phase)
    requires QueuesOk(s, c) && i in s.calls
    requires !s.calls[i].phase.Cleared? && !s.calls[i].phase.Counted? && !phase.Cleared? && !phase.Counted?
    ensures QueuesOk(SetPhase(s, i, phase), c)
  {
    var s' := SetPhase(s, i, phase);
    forall k | 0 <= k < |s'.queues|
      ensures QueueOk(s', c, k)
    {
      assert QueueOk(s, c, k);
      PhaseMove(s.calls, i, phase, k);
    }
  }

  // A call that has ended, by finding its queue drained or by leaving.
  lemma EndQueue(s: Server, c: Config, i: nat)
    requires QueuesOk(s, c) && i in s.calls && s.calls[i].phase.Draining?
    ensures QueuesOk(s.(calls := s.calls - {i}), c)
  {
    var s' := s.(calls := s.calls - {i});
    forall k | 0 <= k < |s'.queues|
      ensures QueueOk(s', c, k)
    {
      assert QueueOk(s, c, k);
      assert Active(s'.calls, k) == Active(s.calls, k) - {i};
      assert ClearedOn(s'.calls, k) == ClearedOn(s.calls, k);
      assert CountedOn(s'.calls, k) == CountedOn(s.calls, k);
    }
  }

  // A change to one queue that leaves the calls alone.
  lemma ReplaceKeeps(s: Server, c: Config, k: nat, q: Queue)
    requires QueuesOk(s, c) && k < |s.queues|
    requires QueueOk(s.(queues := s.queues[k := q]), c, k)
    ensures QueuesOk(s.(queues := s.queues[k := q]), c)
  {
    var s' := s.(queues := s.queues[k := q]);
    forall j | 0 <= j < |s'.queues|
      ensures QueueOk(s', c, j)
    {
      assert QueueOk(s, c, j);
    }
  }

  lemma PolledOk(s: Server, c: Config, k: nat)
    requires QueuesOk(s, c) && k < |s.queues| && s.queues[k].ready != []
    ensures QueuesOk(s.(queues := s.queues[k := Polled(s.queues[k])]), c)
  {
    assert QueueOk(s, c, k);
    ReplaceKeeps(s, c, k, Polled(s.queues[k]));
  }

  lemma PollQueue(s: Server, c: Config, i: nat)
    requires QueuesOk(s, c) && i in s.calls && PollStep(s, i).Some?
    ensures QueuesOk(PollStep(s, i).value, c)
  {
    var k := s.calls[i].req.queue;
    PolledOk(s, c, k);
    if s.calls[i].phase.BackOff? {
      QuietPhase(s.(queues := s.queues[k := Polled(s.queues[k])]), c, i, BackOff(s.calls[i].phase.completed + 1));
    }
  }

  lemma DeviceQueue(s: Server, c: Config, k: nat)
    requires QueuesOk(s, c) && k < |s.queues| && DeviceStep(s, k).Some?
    ensures QueuesOk(DeviceStep(s, k).value, c)
  {
    var s' := DeviceStep(s, k).value;
    forall j | 0 <= j < |s'.queues|
      ensures QueueOk(s', c, j)
    {
      assert QueueOk(s, c, j);
    }
  }

  lemma StartSets(calls: map<nat, Call>, i: nat, call: Call, k: nat)
    requires i !in calls && call.phase.Checking?
    ensures var calls' := calls[i := call];
            && Active(calls', k) == Active(calls, k) + (if k == call.req.queue then {i} else {})
            && i !in Active(calls, k)
            && ClearedOn(calls', k) == ClearedOn(calls, k) && CountedOn(calls', k) == CountedOn(calls, k)
  {
  }

  lemma BeginQueue(s: Server, c: Config, e: Event)
    requires QueuesOk(s, c) && s.next !in s.calls && e.Begin? && BeginStep(s, c, e).Some?
    ensures QueuesOk(BeginStep(s, c, e).value, c)
  {
    var s' := BeginStep(s, c, e).value;
    var call := s'.calls[s.next];
    QueueBijection(c.numcpus, call.req.queue);
    forall k | 0 <= k < |s'.queues|
      ensures QueueOk(s', c, k)
    {
      assert QueueOk(s, c, k);
      StartSets(s.calls, s.next, call, k);
    }
  }

  // ---------- requests and what they have done ----------

  ghost predicate NoRepeat(rs: seq<Request>) {
    forall j, m :: 0 <= j < m < |rs| ==> rs[j].id != rs[m].id
  }

  ghost predicate Posted(rs: seq<Request>, id: nat) {
    exists j :: 0 <= j < |rs| && rs[j].id == id
  }

  // Requests on queue k carry its number, are posted once, and are open while they are in sent.
  ghost predicate LogOk(s: Server, k: nat)
    requires k < |s.queues|
  {
    var q := s.queues[k];
    && q.posted == q.freed + q.ready + q.sent
    && NoRepeat(q.posted)
    && (forall j :: 0 <= j < |q.posted| ==> q.posted[j].queue == k && q.posted[j].id < s.next)
    && (forall j :: 0 <= j < |q.sent| ==> q.sent[j].id in s.open && s.open[q.sent[j].id] == q.sent[j])
  }

  // What the device has done for a call whose request it has carried out.
  ghost predicate Done(s: Server, i: nat, req: Request) {
    && req.offset in s.mem
    && match req.op
       case WriteOp(data) => s.mem[req.offset] == data
       case ReadOp => i in s.fetched && s.fetched[i] == s.mem[req.offset]
  }

  ghost predicate CallOk(s: Server, i: nat)
    requires i in s.calls
  {
    var call := s.calls[i];
    && i < s.next && call.req.id == i && call.req.queue < |s.queues|
    && (i in s.open ==> s.open[i] == call.req)
    && (if call.phase.Draining? then
          i in s.open ==> call.req in s.queues[call.req.queue].sent
        else
          i in s.open && !Posted(s.queues[call.req.queue].posted, i))
    && (i !in s.open ==> Done(s, i, call.req))
  }

  // One frame, one call; a read only of a frame that has been written.
  ghost predicate Exclusive(s: Server) {
    && (forall i :: i in s.open ==> i < s.next && s.open[i].id == i)
    && (forall i :: i in s.open ==>
          match s.open[i].op
          case WriteOp(data) => s.open[i].offset in s.latest && s.latest[s.open[i].offset] == data
          case ReadOp => s.open[i].offset in s.mem)
    && (forall i, j :: i in s.open && j in s.open && i != j ==> s.open[i].offset != s.open[j].offset)
    && (forall i, j :: i in s.calls && j in s.open && i != j ==> s.calls[i].req.offset != s.open[j].offset)
  }

  // The last contents begun at an offset are there, or still on their way.
  ghost predicate Fresh(s: Server, at: nat)
    requires at in s.latest
  {
    || (at in s.mem && s.mem[at] == s.latest[at])
    || exists i :: i in s.open && s.open[i].offset == at && s.open[i].op == WriteOp(s.latest[at])
  }

  ghost predicate EffectsOk(s: Server) {
    && (forall k :: 0 <= k < |s.queues| ==> LogOk(s, k))
    && (forall i :: i in s.calls ==> CallOk(s, i))
    && Exclusive(s)
    && (forall at :: at in s.latest ==> Fresh(s, at))
  }

  // Nothing but the phase of call i, which stays on its side of the post, and counters has changed.
  ghost predicate PhaseOnly(s: Server, s': Server, i: nat) {
    && i in s.calls && i in s'.calls
    && s'.calls == s.calls[i := s.calls[i].(phase := s'.calls[i].phase)]
    && (s'.calls[i].phase.Draining? <==> s.calls[i].phase.Draining?)
    && s'.mem == s.mem && s'.next == s.next && s'.fetched == s.fetched
    && s'.open == s.open && s'.latest == s.latest
    && |s'.queues| == |s.queues|
    && forall k :: 0 <= k < |s.queues| ==> SameLog(s.queues[k], s'.queues[k])
  }

  predicate SameLog(q: Queue, q': Queue) {
    q'.posted == q.posted && q'.sent == q.sent && q'.freed + q'.ready == q.freed + q.ready
  }

  lemma PhaseLog(s: Server, s': Server, k: nat)
    requires k < |s.queues| && k < |s'.queues| && SameLog(s.queues[k], s'.queues[k])
    requires LogOk(s, k) && s'.next == s.next && s'.open == s.open
    ensures LogOk(s', k)
  {
  }

  lemma PhaseCall(s: Server, s': Server, i: nat, j: nat)
    requires PhaseOnly(s, s', i) && j in s.calls && CallOk(s, j)
    ensures CallOk(s', j)
  {
    assert s.calls[j].req.queue < |s.queues|;
    assert SameLog(s.queues[s.calls[j].req.queue], s'.queues[s.calls[j].req.queue]);
  }

  lemma PhaseExclusive(s: Server, s': Server, i: nat)
    requires PhaseOnly(s, s', i) && Exclusive(s)
    ensures Exclusive(s')
  {
  }

  lemma PhaseEffects(s: Server, s': Server, i: nat)
    requires EffectsOk(s) && PhaseOnly(s, s', i)
    ensures EffectsOk(s')
  {
    forall k | 0 <= k < |s'.queues|
      ensures LogOk(s', k)
    {
      PhaseLog(s, s', k);
    }
    forall j | j in s'.calls
      ensures CallOk(s', j)
    {
      PhaseCall(s, s', i, j);
    }
    PhaseExclusive(s, s', i);
    forall at | at in s'.latest
      ensures Fresh(s', at)
    {
      assert Fresh(s, at);
    }
  }

  lemma EndEffects(s: Server, i: nat)
    requires EffectsOk(s) && i in s.calls
    ensures EffectsOk(s.(calls := s.calls - {i}))
  {
    var s' := s.(calls := s.calls - {i});
    forall k | 0 <= k < |s'.queues|
      ensures LogOk(s', k)
    {
      assert LogOk(s, k);
    }
    forall j | j in s'.calls
      ensures CallOk(s', j)
    {
      assert CallOk(s, j);
    }
    forall at | at in s'.latest
      ensures Fresh(s', at)
    {
      assert Fresh(s, at);
    }
  }

  // What posting call i's request does.
  ghost predicate PostMoves(s: Server, i: nat, s': Server) {
    && i in s.calls && s.calls[i].req.queue < |s.queues| && s.calls[i].phase.Counted?
    && var r := s.calls[i].req;
    && var q := s.queues[r.queue];
    && s'.queues == s.queues[r.queue := q.(sent := q.sent + [r], posted := q.posted + [r])]
    && s'.calls == s.calls[i := s.calls[i].(phase := Draining)]
    && s'.mem == s.mem && s'.next == s.next && s'.fetched == s.fetched
    && s'.open == s.open && s'.latest == s.latest
  }

  lemma PostLog(s: Server, i: nat, s': Server, k: nat)
    requires PostMoves(s, i, s') && k < |s.queues| && CallOk(s, i) && LogOk(s, k)
    ensures LogOk(s', k)
  {
  }

  lemma PostCall(s: Server, i: nat, s': Server, j: nat)
    requires PostMoves(s, i, s') && j in s.calls && CallOk(s, i) && CallOk(s, j)
    ensures CallOk(s', j)
  {
  }

  lemma PostExclusive(s: Server, i: nat, s': Server)
    requires PostMoves(s, i, s') && Exclusive(s)
    ensures Exclusive(s')
  {
  }

  lemma PostEffects(s: Server, i: nat, s': Server)
    requires EffectsOk(s) && PostMoves(s, i, s')
    ensures EffectsOk(s')
  {
    assert CallOk(s, i);
    forall k | 0 <= k < |s'.queues|
      ensures LogOk(s', k)
    {
      PostLog(s, i, s', k);
    }
    forall j | j in s'.calls
      ensures CallOk(s', j)
    {
      PostCall(s, i, s', j);
    }
    PostExclusive(s, i, s');
    forall at | at in s'.latest
      ensures Fresh(s', at)
    {
      assert Fresh(s, at);
    }
  }

  // The request a device step carries out is open, and is not elsewhere among the sent requests.
  ghost predicate HeadAlone(s: Server, k: nat)
    requires k < |s.queues| && s.queues[k].sent != []
  {
    var r := s.queues[k].sent[0];
    && r.queue == k && r.id in s.open && s.open[r.id] == r && Posted(s.queues[k].posted, r.id)
    && (forall j :: 1 <= j < |s.queues[k].sent| ==> s.queues[k].sent[j].id != r.id)
    && (forall m, j :: 0 <= m < |s.queues| && m != k && 0 <= j < |s.queues[m].sent| ==>
          s.queues[m].sent[j].id != r.id)
  }

  lemma HeadIsAlone(s: Server, k: nat)
    requires EffectsOk(s) && k < |s.queues| && s.queues[k].sent != []
    ensures HeadAlone(s, k)
  {
    var q := s.queues[k];
    var r := q.sent[0];
    var base := |q.freed| + |q.ready|;
    assert LogOk(s, k);
    assert forall j :: 0 <= j < |q.sent| ==> q.posted[base + j] == q.sent[j];
    forall m, j | 0 <= m < |s.queues| && m != k && 0 <= j < |s.queues[m].sent|
      ensures s.queues[m].sent[j].id != r.id
    {
      var p := s.queues[m];
      assert LogOk(s, m);
      assert p.posted[|p.freed| + |p.ready| + j] == p.sent[j];
    }
  }

  // What a device step on queue k does to queues and open requests.
  ghost predicate HeadMoves(s: Server, k: nat, s': Server)
    requires k < |s.queues| && s.queues[k].sent != []
  {
    var q := s.queues[k];
    && s'.queues == s.queues[k := q.(sent := q.sent[1..], ready := q.ready + [q.sent[0]])]
    && s'.open == s.open - {q.sent[0].id} && s'.calls == s.calls && s'.next == s.next
  }

  lemma DeviceLog(s: Server, k: nat, s': Server, m: nat)
    requires k < |s.queues| && s.queues[k].sent != [] && HeadAlone(s, k) && HeadMoves(s, k, s')
    requires m < |s.queues| && LogOk(s, m)
    ensures LogOk(s', m)
  {
    var q := s.queues[k];
    assert q.ready + [q.sent[0]] + q.sent[1..] == q.ready + q.sent;
  }

  lemma DeviceCall(s: Server, k: nat, j: nat)
    requires k < |s.queues| && DeviceStep(s, k).Some? && HeadAlone(s, k)
    requires j in s.calls && CallOk(s, j) && Exclusive(s)
    ensures CallOk(DeviceStep(s, k).value, j)
  {
    var q := s.queues[k];
    assert q.sent == [q.sent[0]] + q.sent[1..];
    assert j == q.sent[0].id ==> s.calls[j].phase.Draining?;
  }

  lemma DeviceFresh(s: Server, k: nat, at: nat)
    requires k < |s.queues| && DeviceStep(s, k).Some? && HeadAlone(s, k)
    requires at in s.latest && Fresh(s, at) && Exclusive(s)
    ensures Fresh(DeviceStep(s, k).value, at)
  {
    if !(at in s.mem && s.mem[at] == s.latest[at]) {
      var i :| i in s.open && s.open[i].offset == at && s.open[i].op == WriteOp(s.latest[at]);
      if i != s.queues[k].sent[0].id {
        assert DeviceStep(s, k).value.open[i] == s.open[i];
      }
    }
  }

  lemma DeviceExclusive(s: Server, k: nat)
    requires k < |s.queues| && DeviceStep(s, k).Some? && HeadAlone(s, k) && Exclusive(s)
    ensures Exclusive(DeviceStep(s, k).value)
  {
  }

  lemma DeviceEffects(s: Server, k: nat)
    requires EffectsOk(s) && k < |s.queues| && DeviceStep(s, k).Some?
    ensures EffectsOk(DeviceStep(s, k).value)
  {
    var s' := DeviceStep(s, k).value;
    HeadIsAlone(s, k);
    forall m | 0 <= m < |s'.queues|
      ensures LogOk(s', m)
    {
      DeviceLog(s, k, s', m);
    }
    forall j | j in s'.calls
      ensures CallOk(s', j)
    {
      DeviceCall(s, k, j);
    }
    DeviceExclusive(s, k);
    forall at | at in s'.latest
      ensures Fresh(s', at)
    {
      DeviceFresh(s, k, at);
    }
  }

  lemma BeginCall(s: Server, c: Config, e: Event, j: nat)
    requires EffectsOk(s) && e.Begin? && BeginStep(s, c, e).Some? && |s.queues| == c.numcpus * 3
    requires j in BeginStep(s, c, e).value.calls
    ensures CallOk(BeginStep(s, c, e).value, j)
  {
    if j != s.next {
      assert CallOk(s, j);
    } else {
      var q := GetQueue(e.cpu, Kind(e.op), c.numcpus);
      QueueBijection(c.numcpus, q);
      assert LogOk(s, q);
    }
  }

  lemma BeginFresh(s: Server, c: Config, e: Event, at: nat)
    requires EffectsOk(s) && e.Begin? && BeginStep(s, c, e).Some? && at in BeginStep(s, c, e).value.latest
    ensures Fresh(BeginStep(s, c, e).value, at)
  {
    var s' := BeginStep(s, c, e).value;
    if e.op.WriteOp? && at == e.offset {
      assert s'.open[s.next].op == WriteOp(s'.latest[at]);
    } else {
      assert Fresh(s, at);
      if !(at in s.mem && s.mem[at] == s.latest[at]) {
        var i :| i in s.open && s.open[i].offset == at && s.open[i].op == WriteOp(s.latest[at]);
        assert s'.open[i] == s.open[i];
      }
    }
  }

  lemma BeginExclusive(s: Server, c: Config, e: Event)
    requires EffectsOk(s) && e.Begin? && BeginStep(s, c, e).Some?
    ensures Exclusive(BeginStep(s, c, e).value)
  {
  }

  lemma BeginEffects(s: Server, c: Config, e: Event)
    requires EffectsOk(s) && e.Begin? && BeginStep(s, c, e).Some? && |s.queues| == c.numcpus * 3
    ensures EffectsOk(BeginStep(s, c, e).value)
  {
    var s' := BeginStep(s, c, e).value;
    forall m | 0 <= m < |s'.queues|
      ensures LogOk(s', m)
    {
      assert LogOk(s, m);
    }
    forall j | j in s'.calls
      ensures CallOk(s', j)
    {
      BeginCall(s, c, e, j);
    }
    BeginExclusive(s, c, e);
    forall at | at in s'.latest
      ensures Fresh(s', at)
    {
      BeginFresh(s, c, e, at);
    }
  }

  // ---------- every run ----------

  ghost predicate Ok(s: Server, c: Config) {
    QueuesOk(s, c) && EffectsOk(s)
  }

  lemma InitialOk(c: Config)
    ensures Ok(Initial(c), c)
  {
    var s := Initial(c);
    forall k | 0 <= k < |s.queues|
      ensures QueueOk(s, c, k)
    {
      assert Active(s.calls, k) == {} && ClearedOn(s.calls, k) == {} && CountedOn(s.calls, k) == {};
    }
  }

  lemma QuietIsPhaseOnly(s: Server, i: nat)
    requires i in s.calls && s.calls[i].req.queue < |s.queues| && AdvanceStep(s, i).Some?
    requires !s.calls[i].phase.Counted? && !s.calls[i].phase.Draining?
    ensures PhaseOnly(s, AdvanceStep(s, i).value, i)
  {
  }

  lemma QuietEffects(s: Server, i: nat)
    requires EffectsOk(s) && i in s.calls && s.calls[i].req.queue < |s.queues| && AdvanceStep(s, i).Some?
    requires !s.calls[i].phase.Counted? && !s.calls[i].phase.Draining?
    ensures EffectsOk(AdvanceStep(s, i).value)
  {
    QuietIsPhaseOnly(s, i);
    PhaseEffects(s, AdvanceStep(s, i).value, i);
  }

  lemma AdvanceQueues(s: Server, c: Config, i: nat)
    requires QueuesOk(s, c) && i in s.calls && AdvanceStep(s, i).Some?
    ensures QueuesOk(AdvanceStep(s, i).value, c)
  {
    match s.calls[i].phase
    case Checking => CheckQueue(s, c, i);
    case BackOff(_) => QuietPhase(s, c, i, Checking);
    case Cleared => CountQueue(s, c, i);
    case Counted => PostQueue(s, c, i);
    case Draining => EndQueue(s, c, i);
  }

  lemma AdvanceEffects(s: Server, i: nat)
    requires EffectsOk(s) && i in s.calls && s.calls[i].req.queue < |s.queues| && AdvanceStep(s, i).Some?
    ensures EffectsOk(AdvanceStep(s, i).value)
  {
    match s.calls[i].phase
    case Counted => PostEffects(s, i, AdvanceStep(s, i).value);
    case Draining => EndEffects(s, i);
    case _ => QuietEffects(s, i);
  }

  lemma AdvanceOk(s: Server, c: Config, i: nat)
    requires Ok(s, c) && i in s.calls && AdvanceStep(s, i).Some?
    ensures Ok(AdvanceStep(s, i).value, c)
  {
    AdvanceQueues(s, c, i);
    AdvanceEffects(s, i);
  }

  lemma BeginOk(s: Server, c: Config, e: Event)
    requires Ok(s, c) && e.Begin? && BeginStep(s, c, e).Some?
    ensures Ok(BeginStep(s, c, e).value, c)
  {
    assert s.next in s.calls ==> CallOk(s, s.next);
    BeginQueue(s, c, e);
    BeginEffects(s, c, e);
  }

  lemma PollIsPhaseOnly(s: Server, i: nat)
    requires i in s.calls && s.calls[i].req.queue < |s.queues| && PollStep(s, i).Some?
    ensures PhaseOnly(s, PollStep(s, i).value, i)
  {
    var q := s.queues[s.calls[i].req.queue];
    assert q.freed + [q.ready[0]] + q.ready[1..] == q.freed + q.ready;
    assert s.calls[i].(phase := s.calls[i].phase) == s.calls[i];
  }

  lemma PollEffects(s: Server, i: nat)
    requires EffectsOk(s) && i in s.calls && s.calls[i].req.queue < |s.queues| && PollStep(s, i).Some?
    ensures EffectsOk(PollStep(s, i).value)
  {
    PollIsPhaseOnly(s, i);
    PhaseEffects(s, PollStep(s, i).value, i);
  }

  lemma PollOk(s: Server, c: Config, i: nat)
    requires Ok(s, c) && i in s.calls && PollStep(s, i).Some?
    ensures Ok(PollStep(s, i).value, c)
  {
    PollQueue(s, c, i);
    PollEffects(s, i);
  }

  lemma DeviceOk(s: Server, c: Config, k: nat)
    requires Ok(s, c) && k < |s.queues| && DeviceStep(s, k).Some?
    ensures Ok(DeviceStep(s, k).value, c)
  {
    DeviceQueue(s, c, k);
    DeviceEffects(s, k);
  }

  lemma LeaveOk(s: Server, c: Config, i: nat)
    requires Ok(s, c) && i in s.calls && s.calls[i].phase.Draining?
    ensures Ok(s.(calls := s.calls - {i}), c)
  {
    EndQueue(s, c, i);
    EndEffects(s, i);
  }

  lemma ApplyOk(s: Server, c: Config, e: Event)
    requires Ok(s, c) && Apply(s, c, e).Some?
    ensures Ok(Apply(s, c, e).value, c)
  {
    match e
    case Begin(_, _, _) => BeginOk(s, c, e);
    case Advance(i) => AdvanceOk(s, c, i);
    case Poll(i) => PollOk(s, c, i);
    case Device(k) => DeviceOk(s, c, k);
    case Leave(i) => LeaveOk(s, c, i);
  }

  lemma {:induction false} RunOk(c: Config, es: seq<Event>)
    requires Run(c, es).Some?
    ensures Ok(Run(c, es).value, c)
  {
    if es == [] {
      InitialOk(c);
    } else {
      RunOk(c, es[..|es| - 1]);
      ApplyOk(Run(c, es[..|es| - 1]).value, c, es[|es| - 1]);
    }
  }

  lemma LogCounts(q: Queue, counted: set<nat>)
    requires Accounted(q, counted) && q.posted == q.freed + q.ready + q.sent
    ensures q.pending == |q.posted| - |q.freed| + |counted| && q.freed <= q.posted
  {
    assert q.posted == q.freed + (q.ready + q.sent);
  }

  // In every run: pending is the number of posted and not yet completed requests plus the callers
  // between counting and posting; every request is posted once, and completed and freed once, in
  // order.
  lemma PendingIsOutstanding(c: Config, es: seq<Event>, k: nat)
    requires Run(c, es).Some? && k < |Run(c, es).value.queues|
    ensures var s := Run(c, es).value;
            var q := s.queues[k];
            && q.pending == |q.posted| - |q.freed| + |CountedOn(s.calls, k)|
            && q.freed <= q.posted
            && NoRepeat(q.posted)
  {
    RunOk(c, es);
    var s := Run(c, es).value;
    assert QueueOk(s, c, k);
    assert LogOk(s, k);
    LogCounts(s.queues[k], CountedOn(s.calls, k));
  }

  // Back pressure: whatever the callers do after posting, pending stays below the limit plus the
  // number of callers, and the send and completion queues hold no more than pending requests.
  lemma BackPressure(c: Config, es: seq<Event>, k: nat)
    requires Run(c, es).Some? && k < |Run(c, es).value.queues|
    ensures var s := Run(c, es).value;
            && s.queues[k].pending < QueueLimit(k, c.numcpus) + c.callers
            && |s.queues[k].sent| + |s.queues[k].ready| + |CountedOn(s.calls, k)| == s.queues[k].pending
  {
    RunOk(c, es);
    assert QueueOk(Run(c, es).value, c, k);
  }

  lemma DeviceReady(s: Server, k: nat)
    requires EffectsOk(s) && k < |s.queues| && s.queues[k].sent != []
    ensures DeviceStep(s, k).Some?
  {
    HeadIsAlone(s, k);
  }

  // No run gets stuck: while a call is in progress, a caller, a poller or the device can move on
  // its queue.
  lemma NeverStuck(c: Config, es: seq<Event>, i: nat) returns (e: Event)
    requires Run(c, es).Some? && i in Run(c, es).value.calls
    ensures e.Advance? || e.Poll? || e.Device?
    ensures Apply(Run(c, es).value, c, e).Some?
    ensures var s := Run(c, es).value;
            if e.Device? then e.queue == s.calls[i].req.queue
            else e.id in s.calls && s.calls[e.id].req.queue == s.calls[i].req.queue
  {
    RunOk(c, es);
    var s := Run(c, es).value;
    var k := s.calls[i].req.queue;
    assert QueueOk(s, c, k);
    if AdvanceStep(s, i).Some? {
      e := Advance(i);
    } else if s.queues[k].ready != [] {
      e := Poll(i);
    } else if s.queues[k].sent != [] {
      DeviceReady(s, k);
      e := Device(k);
    } else {
      var j :| j in CountedOn(s.calls, k);
      e := Advance(j);
    }
  }

  // When drain_queue returns, every request posted on the queue has completed, and the caller's own
  // transfer has happened.
  lemma DrainedMeansDone(c: Config, es: seq<Event>, i: nat)
    requires Run(c, es).Some? && i in Run(c, es).value.calls
    requires var call := Run(c, es).value.calls[i];
             && call.phase.Draining? && call.req.queue < |Run(c, es).value.queues|
             && Run(c, es).value.queues[call.req.queue].pending <= 0
    ensures var s := Run(c, es).value;
            var q := s.queues[s.calls[i].req.queue];
            && q.freed == q.posted && q.sent == [] && q.ready == []
            && Done(s, i, s.calls[i].req)
  {
    RunOk(c, es);
    var s := Run(c, es).value;
    var k := s.calls[i].req.queue;
    assert QueueOk(s, c, k) && LogOk(s, k) && CallOk(s, i);
  }

  // Contents of the last write begun at an offset.
  function LastWrite(es: seq<Event>, offset: nat): Option<Page> {
    if es == [] then None
    else
      var e := es[|es| - 1];
      if e.Begin? && e.offset == offset && e.op.WriteOp? then Some(e.op.data) else LastWrite(es[..|es| - 1], offset)
  }

  lemma LatestStep(s: Server, c: Config, e: Event)
    requires Apply(s, c, e).Some?
    ensures Apply(s, c, e).value.latest
         == if e.Begin? && e.op.WriteOp? then s.latest[e.offset := e.op.data] else s.latest
  {
  }

  lemma {:induction false} LatestIsLastWrite(c: Config, es: seq<Event>, offset: nat)
    requires Run(c, es).Some?
    ensures LastWrite(es, offset) ==
            var latest := Run(c, es).value.latest;
            if offset in latest then Some(latest[offset]) else None
  {
    if es != [] {
      var n := |es| - 1;
      LatestIsLastWrite(c, es[..n], offset);
      LatestStep(Run(c, es[..n]).value, c, es[n]);
    }
  }

  // Only begun writes ever reach the server's memory.
  ghost predicate MemKnown(s: Server) {
    forall at :: at in s.mem ==> at in s.latest
  }

  lemma MemDevice(s: Server, k: nat)
    requires EffectsOk(s) && MemKnown(s) && k < |s.queues| && DeviceStep(s, k).Some?
    ensures MemKnown(DeviceStep(s, k).value)
  {
    HeadIsAlone(s, k);
  }

  lemma MemOther(s: Server, c: Config, e: Event)
    requires MemKnown(s) && Apply(s, c, e).Some? && !e.Device?
    ensures MemKnown(Apply(s, c, e).value)
  {
  }

  lemma {:induction false} RunMemKnown(c: Config, es: seq<Event>)
    requires Run(c, es).Some?
    ensures MemKnown(Run(c, es).value)
  {
    if es != [] {
      var n := |es| - 1;
      RunMemKnown(c, es[..n]);
      RunOk(c, es[..n]);
      if es[n].Device? {
        MemDevice(Run(c, es[..n]).value, es[n].queue);
      } else {
        MemOther(Run(c, es[..n]).value, c, es[n]);
      }
    }
  }

  // When a read returns it has brought back the contents of the last write begun at its offset.
  lemma ReadReturnsLastWrite(c: Config, es: seq<Event>, i: nat)
    requires Run(c, es).Some? && i in Run(c, es).value.calls
    requires var call := Run(c, es).value.calls[i];
             && call.phase.Draining? && call.req.op.ReadOp? && call.req.queue < |Run(c, es).value.queues|
             && Run(c, es).value.queues[call.req.queue].pending <= 0
    ensures var s := Run(c, es).value;
            i in s.fetched && LastWrite(es, s.calls[i].req.offset) == Some(s.fetched[i])
  {
    DrainedMeansDone(c, es, i);
    RunOk(c, es);
    RunMemKnown(c, es);
    var s := Run(c, es).value;
    var at := s.calls[i].req.offset;
    LatestIsLastWrite(c, es, at);
    assert CallOk(s, i) && Fresh(s, at);
  }

  // ---------- callers that always drain ----------

  predicate NoLeave(es: seq<Event>) {
    forall j :: 0 <= j < |es| ==> !es[j].Leave?
  }

  // Outstanding requests: completed ones first.
  function Out(q: Queue): seq<Request> {
    q.ready + q.sent
  }

  // A request's caller is still in drain_queue on queue k.
  ghost predicate Waits(s: Server, r: Request, k: nat) {
    r.id in s.calls && s.calls[r.id].phase.Draining? && s.calls[r.id].req.queue == k
  }

  // Every outstanding request still has its caller waiting.
  ghost predicate Attended(s: Server, k: nat)
    requires k < |s.queues|
  {
    var out := Out(s.queues[k]);
    forall j :: 0 <= j < |out| ==> Waits(s, out[j], k)
  }

  // What one event does to the outstanding requests of queue k.
  ghost predicate OutMoves(s: Server, s': Server, e: Event, k: nat)
    requires k < |s.queues|
  {
    && k < |s'.queues|
    && var out, out' := Out(s.queues[k]), Out(s'.queues[k]);
    || out' == out
    || (e.Poll? && out != [] && out' == out[1..])
    || (e.Advance? && e.id in s.calls && s.calls[e.id].phase.Counted? && s.calls[e.id].req.queue == k
        && out' == out + [s.calls[e.id].req])
  }

  lemma OutAdvance(s: Server, i: nat, k: nat)
    requires k < |s.queues| && i in s.calls && s.calls[i].req.queue < |s.queues| && AdvanceStep(s, i).Some?
    ensures OutMoves(s, AdvanceStep(s, i).value, Advance(i), k)
  {
    var q := s.queues[k];
    assert q.ready + (q.sent + [s.calls[i].req]) == Out(q) + [s.calls[i].req];
  }

  lemma OutPoll(s: Server, i: nat, k: nat)
    requires k < |s.queues| && i in s.calls && s.calls[i].req.queue < |s.queues| && PollStep(s, i).Some?
    ensures OutMoves(s, PollStep(s, i).value, Poll(i), k)
  {
    var q := s.queues[k];
    if q.ready != [] {
      assert Out(q)[1..] == q.ready[1..] + q.sent;
    }
  }

  lemma OutDevice(s: Server, m: nat, k: nat)
    requires k < |s.queues| && m < |s.queues| && DeviceStep(s, m).Some?
    ensures OutMoves(s, DeviceStep(s, m).value, Device(m), k)
  {
    var q := s.queues[k];
    if q.sent != [] {
      assert q.ready + [q.sent[0]] + q.sent[1..] == Out(q);
    }
  }

  lemma OutStep(s: Server, c: Config, e: Event, k: nat)
    requires k < |s.queues| && Apply(s, c, e).Some?
    ensures OutMoves(s, Apply(s, c, e).value, e, k)
  {
    match e
    case Begin(_, _, _) =>
    case Advance(i) => OutAdvance(s, i, k);
    case Poll(i) => OutPoll(s, i, k);
    case Device(m) => OutDevice(s, m, k);
    case Leave(_) =>
  }

  // A draining call stays in place until its queue is empty.
  ghost predicate Drains(s: Server, i: nat) {
    && i in s.calls && s.calls[i].phase.Draining? && s.calls[i].req.queue < |s.queues|
    && s.queues[s.calls[i].req.queue].pending > 0
  }

  lemma AdvanceLeaves(s: Server, j: nat, i: nat)
    requires Drains(s, i) && j in s.calls && s.calls[j].req.queue < |s.queues| && AdvanceStep(s, j).Some?
    ensures i in AdvanceStep(s, j).value.calls && AdvanceStep(s, j).value.calls[i] == s.calls[i]
  {
  }

  lemma PollLeaves(s: Server, j: nat, i: nat)
    requires Drains(s, i) && j in s.calls && s.calls[j].req.queue < |s.queues| && PollStep(s, j).Some?
    ensures i in PollStep(s, j).value.calls && PollStep(s, j).value.calls[i] == s.calls[i]
  {
  }

  lemma DrainingStays(s: Server, c: Config, e: Event, i: nat)
    requires Drains(s, i) && i != s.next && !e.Leave? && Apply(s, c, e).Some?
    ensures i in Apply(s, c, e).value.calls && Apply(s, c, e).value.calls[i] == s.calls[i]
  {
    match e
    case Begin(_, _, _) =>
    case Advance(j) => AdvanceLeaves(s, j, i);
    case Poll(j) => PollLeaves(s, j, i);
    case Device(_) =>
  }

  lemma OldWaits(s: Server, c: Config, e: Event, k: nat, r: Request)
    requires k < |s.queues| && s.queues[k].pending > 0 && Waits(s, r, k) && r.id != s.next
    requires !e.Leave? && Apply(s, c, e).Some?
    ensures Waits(Apply(s, c, e).value, r, k)
  {
    DrainingStays(s, c, e, r.id);
  }

  lemma NewWaits(s: Server, c: Config, i: nat)
    requires i in s.calls && s.calls[i].phase.Counted? && s.calls[i].req.id == i && Apply(s, c, Advance(i)).Some?
    ensures Waits(Apply(s, c, Advance(i)).value, s.calls[i].req, s.calls[i].req.queue)
  {
  }

  lemma AttendedStep(s: Server, c: Config, e: Event, k: nat)
    requires k < |s.queues| && Attended(s, k) && !e.Leave? && Apply(s, c, e).Some?
    requires Accounted(s.queues[k], CountedOn(s.calls, k))
    requires forall i :: i in s.calls ==> i < s.next && s.calls[i].req.id == i
    ensures k < |Apply(s, c, e).value.queues| && Attended(Apply(s, c, e).value, k)
  {
    var s' := Apply(s, c, e).value;
    OutStep(s, c, e, k);
    var out, out' := Out(s.queues[k]), Out(s'.queues[k]);
    forall j | 0 <= j < |out'|
      ensures Waits(s', out'[j], k)
    {
      if out'[j] in out {
        var m :| 0 <= m < |out| && out[m] == out'[j];
        OldWaits(s, c, e, k, out[m]);
      } else {
        NewWaits(s, c, e.id);
      }
    }
  }

  lemma {:induction false} RunAttended(c: Config, es: seq<Event>, k: nat)
    requires NoLeave(es) && Run(c, es).Some? && k < c.numcpus * 3
    ensures k < |Run(c, es).value.queues| && Attended(Run(c, es).value, k)
  {
    if es != [] {
      var n := |es| - 1;
      RunAttended(c, es[..n], k);
      RunOk(c, es[..n]);
      var s := Run(c, es[..n]).value;
      assert QueueOk(s, c, k);
      assert forall i :: i in s.calls ==> CallOk(s, i);
      AttendedStep(s, c, es[n], k);
    }
  }

  ghost function Ids(rs: seq<Request>): set<nat> {
    set j | 0 <= j < |rs| :: rs[j].id
  }

  lemma {:induction false} IdCount(rs: seq<Request>)
    requires NoRepeat(rs)
    ensures |Ids(rs)| == |rs|
  {
    if rs == [] {
      assert Ids(rs) == {};
    } else {
      var n := |rs| - 1;
      IdCount(rs[..n]);
      assert Ids(rs) == Ids(rs[..n]) + {rs[n].id};
    }
  }

  // Calls on queue q that have counted their request.
  ghost function Busy(calls: map<nat, Call>, q: nat): set<nat> {
    set i | i in calls && calls[i].req.queue == q && (calls[i].phase.Counted? || calls[i].phase.Draining?)
  }

  lemma AttendedCount(s: Server, k: nat)
    requires k < |s.queues| && Accounted(s.queues[k], CountedOn(s.calls, k))
    requires LogOk(s, k) && Attended(s, k)
    ensures s.queues[k].pending <= |Busy(s.calls, k)|
  {
    var q := s.queues[k];
    var out := Out(q);
    assert forall j :: 0 <= j < |out| ==> q.posted[|q.freed| + j] == out[j];
    IdCount(out);
    var ids, counted := Ids(out), CountedOn(s.calls, k);
    forall i | i in ids
      ensures i in Busy(s.calls, k) && i !in counted
    {
      var j :| 0 <= j < |out| && out[j].id == i;
      assert Waits(s, out[j], k);
    }
    SubsetCount(ids + counted, Busy(s.calls, k));
  }

  // When every caller drains, as sswap_rdma_write and sswap_rdma_read_sync do, pending never exceeds
  // the number of calls in progress on the queue.
  lemma SynchronousPending(c: Config, es: seq<Event>, k: nat)
    requires NoLeave(es) && Run(c, es).Some? && k < c.numcpus * 3
    ensures var s := Run(c, es).value;
            && k < |s.queues|
            && s.queues[k].pending <= |Active(s.calls, k)| <= c.callers
  {
    RunAttended(c, es, k);
    RunOk(c, es);
    var s := Run(c, es).value;
    assert QueueOk(s, c, k) && LogOk(s, k);
    AttendedCount(s, k);
    SubsetCount(Busy(s.calls, k), Active(s.calls, k));
  }
}

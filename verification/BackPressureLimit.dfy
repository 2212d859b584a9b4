// How many callers the back-pressure checks are good for: the bound of BackPressure is reached, so
// pending stays within the send queue exactly up to a certain number of callers.
module BackPressureLimit {
  import opened Layout
  import opened QueueIndex
  import opened Counting
  import opened RequestQueues

  function QueueOf(c: Config, op: Op): nat {
    GetQueue(0, Kind(op), c.numcpus)
  }

  // Some run leads to s; when `drain`, one in which every caller drains its queue before it returns.
  ghost predicate Reached(c: Config, drain: bool, s: Server) {
    exists es :: Run(c, es) == Some(s) && (drain ==> NoLeave(es))
  }

  lemma Reach(c: Config, drain: bool, s: Server, e: Event)
    requires Reached(c, drain, s) && Apply(s, c, e).Some? && !(drain && e.Leave?)
    ensures Reached(c, drain, Apply(s, c, e).value)
  {
    var es :| Run(c, es) == Some(s) && (drain ==> NoLeave(es));
    assert (es + [e])[..|es|] == es;
    assert Run(c, es + [e]) == Apply(s, c, e);
  }

  // A new call of CPU 0.
  lemma Start(c: Config, drain: bool, s: Server, op: Op, offset: nat) returns (s': Server)
    requires Reached(c, drain, s) && c.numcpus > 0 && |Active(s.calls, QueueOf(c, op))| < c.callers
    requires Idle(s, offset) && (op.ReadOp? ==> offset in s.mem)
    ensures Reached(c, drain, s') && s'.queues == s.queues && s'.mem == s.mem && s'.next == s.next + 1
    ensures var req := Request(s.next, QueueOf(c, op), offset, op);
            s'.calls == s.calls[s.next := Call(req, Checking)] && s'.open == s.open[s.next := req]
  {
    Reach(c, drain, s, Begin(0, offset, op));
    s' := Apply(s, c, Begin(0, offset, op)).value;
  }

  // A call below the limit passes the check.
  lemma Pass(c: Config, drain: bool, s: Server, i: nat) returns (s': Server)
    requires Reached(c, drain, s) && i in s.calls && s.calls[i].phase.Checking? && s.calls[i].req.queue < |s.queues|
    requires s.queues[s.calls[i].req.queue].pending < Limit(s.calls[i].req.op)
    ensures Reached(c, drain, s') && s' == SetPhase(s, i, Cleared)
  {
    Reach(c, drain, s, Advance(i));
    s' := Apply(s, c, Advance(i)).value;
  }

  lemma Count(c: Config, drain: bool, s: Server, i: nat) returns (s': Server)
    requires Reached(c, drain, s) && i in s.calls && s.calls[i].phase.Cleared? && s.calls[i].req.queue < |s.queues|
    ensures Reached(c, drain, s')
    ensures var k := s.calls[i].req.queue;
            s' == Moved(s, i, Counted, s.queues[k].(pending := s.queues[k].pending + 1))
  {
    Reach(c, drain, s, Advance(i));
    s' := Apply(s, c, Advance(i)).value;
  }

  lemma Post(c: Config, drain: bool, s: Server, i: nat) returns (s': Server)
    requires Reached(c, drain, s) && i in s.calls && s.calls[i].phase.Counted? && s.calls[i].req.queue < |s.queues|
    ensures Reached(c, drain, s')
    ensures var k := s.calls[i].req.queue;
            var q := s.queues[k];
            s' == Moved(s, i, Draining, q.(sent := q.sent + [s.calls[i].req], posted := q.posted + [s.calls[i].req]))
  {
    Reach(c, drain, s, Advance(i));
    s' := Apply(s, c, Advance(i)).value;
  }

  // No call in progress, on queues of the right number.
  predicate Rests(c: Config, s: Server) {
    s.calls == map[] && |s.queues| == c.numcpus * 3
  }

  // A call of CPU 0 from the start to the post.
  lemma Submit(c: Config, drain: bool, s: Server, op: Op, offset: nat) returns (s': Server)
    requires c.numcpus > 0 && c.callers > 0 && Reached(c, drain, s) && Rests(c, s)
    requires Idle(s, offset) && (op.ReadOp? ==> offset in s.mem)
    requires s.queues[QueueOf(c, op)].pending < Limit(op)
    ensures Reached(c, drain, s') && s'.mem == s.mem && |s'.queues| == |s.queues|
    ensures var k := QueueOf(c, op);
            var req := Request(s.next, k, offset, op);
            && s'.calls == map[s.next := Call(req, Draining)]
            && s'.open == s.open[s.next := req] && s'.next == s.next + 1
            && s'.queues[k].pending == s.queues[k].pending + 1
            && s'.queues[k].sent == s.queues[k].sent + [req] && s'.queues[k].ready == s.queues[k].ready
            && (forall m :: 0 <= m < |s.queues| && m != k ==> s'.queues[m] == s.queues[m])
  {
    assert Active(s.calls, QueueOf(c, op)) == {};
    s' := Start(c, drain, s, op, offset);
    s' := Pass(c, drain, s', s.next);
    s' := Count(c, drain, s', s.next);
    s' := Post(c, drain, s', s.next);
  }

  // A request posted by a caller that then leaves.
  lemma PostOne(c: Config, s: Server, op: Op, offset: nat) returns (s': Server)
    requires c.numcpus > 0 && c.callers > 0 && Reached(c, false, s) && Rests(c, s)
    requires Idle(s, offset) && (op.ReadOp? ==> offset in s.mem)
    requires s.queues[QueueOf(c, op)].pending < Limit(op)
    ensures Reached(c, false, s') && Rests(c, s') && s'.mem == s.mem
    ensures s'.queues[QueueOf(c, op)].pending == s.queues[QueueOf(c, op)].pending + 1
    ensures forall o :: o != offset && Idle(s, o) ==> Idle(s', o)
  {
    s' := Submit(c, false, s, op, offset);
    Reach(c, false, s', Leave(s.next));
    s' := Apply(s', c, Leave(s.next)).value;
  }

  // n of them, at offsets from `base` on.
  lemma {:induction false} PostMany(c: Config, s: Server, op: Op, base: nat, n: nat) returns (s': Server)
    requires c.numcpus > 0 && c.callers > 0 && Reached(c, false, s) && Rests(c, s)
    requires forall o :: base <= o < base + n ==> Idle(s, o) && (op.ReadOp? ==> o in s.mem)
    requires s.queues[QueueOf(c, op)].pending + n <= Limit(op)
    ensures Reached(c, false, s') && Rests(c, s') && s'.mem == s.mem
    ensures s'.queues[QueueOf(c, op)].pending == s.queues[QueueOf(c, op)].pending + n
    ensures forall o :: o >= base + n && Idle(s, o) ==> Idle(s', o)
  {
    if n == 0 {
      s' := s;
    } else {
      s' := PostMany(c, s, op, base, n - 1);
      s' := PostOne(c, s', op, base + n - 1);
    }
  }

  ghost function Span(a: nat, n: nat): (r: set<nat>)
    ensures forall i :: i in r <==> a <= i < a + n
    ensures |r| == n
  {
    if n == 0 then {} else Span(a, n - 1) + {a + n - 1}
  }

  // Calls a .. a + n - 1, and no others, are in progress: all on queue k, the first m of them
  // counted and the rest only past the check.
  ghost predicate Waves(s: Server, k: nat, op: Op, a: nat, n: nat, m: nat) {
    && (forall i :: i in s.calls <==> a <= i < a + n)
    && forall i :: i in s.calls ==>
         && s.calls[i].req.queue == k && s.calls[i].req.op == op
         && s.calls[i].phase == if i < a + m then Counted else Cleared
  }

  // One more call passes the check.
  lemma PassNext(c: Config, drain: bool, s: Server, op: Op, offset: nat, a: nat, n: nat) returns (s': Server)
    requires c.numcpus > 0 && n < c.callers && Reached(c, drain, s) && |s.queues| == c.numcpus * 3
    requires Waves(s, QueueOf(c, op), op, a, n, 0) && s.next == a + n
    requires Idle(s, offset) && (op.ReadOp? ==> offset in s.mem)
    requires s.queues[QueueOf(c, op)].pending < Limit(op)
    ensures Reached(c, drain, s') && s'.queues == s.queues && s'.mem == s.mem && s'.next == s.next + 1
    ensures s'.open == s.open[s.next := Request(s.next, QueueOf(c, op), offset, op)]
    ensures s'.calls == s.calls[s.next := Call(Request(s.next, QueueOf(c, op), offset, op), Cleared)]
  {
    assert Active(s.calls, QueueOf(c, op)) == Span(a, n);
    s' := Start(c, drain, s, op, offset);
    s' := Pass(c, drain, s', s.next);
  }

  // n calls all pass the check before any of them counts.
  lemma {:induction false} PassMany(c: Config, drain: bool, s: Server, op: Op, base: nat, n: nat) returns (s': Server)
    requires c.numcpus > 0 && n <= c.callers && Reached(c, drain, s) && Rests(c, s)
    requires forall o :: base <= o < base + n ==> Idle(s, o) && (op.ReadOp? ==> o in s.mem)
    requires s.queues[QueueOf(c, op)].pending < Limit(op)
    ensures Reached(c, drain, s') && s'.queues == s.queues && s'.mem == s.mem && s'.next == s.next + n
    ensures Waves(s', QueueOf(c, op), op, s.next, n, 0)
    ensures forall o :: o >= base + n && Idle(s, o) ==> Idle(s', o)
  {
    if n == 0 {
      s' := s;
    } else {
      var t := PassMany(c, drain, s, op, base, n - 1);
      s' := PassNext(c, drain, t, op, base + n - 1, s.next, n - 1);
      forall o | o >= base + n && Idle(s, o)
        ensures Idle(s', o)
      {
        assert Idle(t, o);
      }
    }
  }

  lemma CountNext(c: Config, drain: bool, s: Server, k: nat, op: Op, a: nat, n: nat, m: nat) returns (s': Server)
    requires Reached(c, drain, s) && m < n && k < |s.queues| && Waves(s, k, op, a, n, m)
    ensures Reached(c, drain, s') && |s'.queues| == |s.queues| && Waves(s', k, op, a, n, m + 1)
    ensures s'.queues[k].pending == s.queues[k].pending + 1
    ensures s'.mem == s.mem && forall o :: Idle(s, o) ==> Idle(s', o)
  {
    s' := Count(c, drain, s, a + m);
  }

  // Then m of them count.
  lemma {:induction false} CountMany(c: Config, drain: bool, s: Server, k: nat, op: Op, a: nat, n: nat, m: nat)
    returns (s': Server)
    requires Reached(c, drain, s) && m <= n && k < |s.queues| && Waves(s, k, op, a, n, 0)
    ensures Reached(c, drain, s') && |s'.queues| == |s.queues| && Waves(s', k, op, a, n, m)
    ensures s'.queues[k].pending == s.queues[k].pending + m
    ensures s'.mem == s.mem && forall o :: Idle(s, o) ==> Idle(s', o)
  {
    if m == 0 {
      s' := s;
    } else {
      s' := CountMany(c, drain, s, k, op, a, n, m - 1);
      s' := CountNext(c, drain, s', k, op, a, n, m - 1);
    }
  }

  // One complete write: posted, carried out, completed, returned.
  lemma WriteOne(c: Config, drain: bool, s: Server, offset: nat) returns (s': Server)
    requires c.numcpus > 0 && c.callers > 0 && Reached(c, drain, s) && Rests(c, s) && Still(s)
    ensures Reached(c, drain, s') && Rests(c, s') && Still(s') && s'.mem == s.mem[offset := []]
  {
    var i, op := s.next, WriteOp([]);
    var k := QueueOf(c, op);
    s' := Submit(c, drain, s, op, offset);
    Reach(c, drain, s', Device(k));
    s' := Apply(s', c, Device(k)).value;
    assert s'.open == map[];
    Reach(c, drain, s', Poll(i));
    s' := Apply(s', c, Poll(i)).value;
    Reach(c, drain, s', Advance(i));
    s' := Apply(s', c, Advance(i)).value;
  }

  // Nothing outstanding anywhere.
  ghost predicate Still(s: Server) {
    && s.open == map[]
    && forall k :: 0 <= k < |s.queues| ==> s.queues[k].pending == 0 && s.queues[k].sent == [] && s.queues[k].ready == []
  }

  lemma {:induction false} WriteMany(c: Config, drain: bool, n: nat) returns (s: Server)
    requires c.numcpus > 0 && c.callers > 0
    ensures Reached(c, drain, s) && Rests(c, s) && Still(s) && forall o :: 0 <= o < n ==> o in s.mem
  {
    if n == 0 {
      s := Initial(c);
      assert Run(c, []) == Some(s);
    } else {
      s := WriteMany(c, drain, n - 1);
      s := WriteOne(c, drain, s, n - 1);
    }
  }

  // All callers past the check together, with the requests of callers that have left below them.
  lemma AllPast(c: Config, op: Op) returns (s: Server, a: nat)
    requires c.numcpus > 0 && c.callers > 0
    ensures Reached(c, false, s) && QueueOf(c, op) < |s.queues|
    ensures s.queues[QueueOf(c, op)].pending == Limit(op) - 1 + c.callers
    ensures Waves(s, QueueOf(c, op), op, a, c.callers, c.callers)
    ensures Idle(s, Limit(op) - 1 + c.callers) && Limit(op) - 1 + c.callers in s.mem
  {
    var n := Limit(op) - 1;
    s := WriteMany(c, false, n + c.callers + 1);
    s := PostMany(c, s, op, 0, n);
    a := s.next;
    s := PassMany(c, false, s, op, n, c.callers);
    s := CountMany(c, false, s, QueueOf(c, op), op, a, c.callers, c.callers);
  }

  // The bound of BackPressure is reached: with any number of callers, which may return without
  // draining, some run brings pending of CPU 0's queue to one less than the limit plus the callers.
  lemma BoundIsReached(c: Config, op: Op) returns (s: Server)
    requires c.numcpus > 0 && c.callers > 0
    ensures Reached(c, false, s) && QueueOf(c, op) < |s.queues|
    ensures s.queues[QueueOf(c, op)].pending == Limit(op) - 1 + c.callers
  {
    var a;
    s, a := AllPast(c, op);
  }

  // One of the callers posts and leaves, so that the next one checks pending at its highest.
  lemma NextChecks(c: Config, op: Op) returns (s: Server, i: nat)
    requires c.numcpus > 0 && c.callers > 0
    ensures Reached(c, false, s) && QueueOf(c, op) < |s.queues|
    ensures s.queues[QueueOf(c, op)].pending == Limit(op) - 1 + c.callers
    ensures i in s.calls && s.calls[i].phase.Checking? && s.calls[i].req.queue == QueueOf(c, op)
  {
    var k, o := QueueOf(c, op), Limit(op) - 1 + c.callers;
    var s0, a := AllPast(c, op);
    var s1 := Post(c, false, s0, a);
    Reach(c, false, s1, Leave(a));
    var s2 := Apply(s1, c, Leave(a)).value;
    assert Active(s2.calls, k) == Span(a + 1, c.callers - 1);
    assert Idle(s2, o);
    i := s2.next;
    s := Start(c, false, s2, op, o);
  }

  // pending of CPU 0's queue for op stays within the send queue's size, in every run or in every run
  // of draining callers.
  ghost predicate StaysWithin(c: Config, drain: bool, op: Op) {
    forall s :: Reached(c, drain, s) ==>
      QueueOf(c, op) < |s.queues| && s.queues[QueueOf(c, op)].pending <= QP_MAX_SEND_WR
  }

  // The send queue's size is respected by `pending`, and so by the fill of the send queue, in every
  // run of callers that may return without draining exactly for up to nine callers on a write queue
  // and one on a read queue.
  lemma BackPressureExact(c: Config, op: Op)
    requires c.numcpus > 0 && c.callers > 0
    ensures StaysWithin(c, false, op) <==> c.callers <= if op.WriteOp? then 9 else 1
  {
    var k := QueueOf(c, op);
    if c.callers <= if op.WriteOp? then 9 else 1 {
      forall s | Reached(c, false, s)
        ensures k < |s.queues| && s.queues[k].pending <= QP_MAX_SEND_WR
      {
        var es :| Run(c, es) == Some(s);
        RunOk(c, es);
        BackPressure(c, es, k);
      }
    } else {
      var s := BoundIsReached(c, op);
    }
  }

  // A caller on queue k is about to find more requests pending than the send queue holds.
  ghost predicate BugOn(s: Server, k: nat, i: nat) {
    && k < |s.queues| && i in s.calls && s.calls[i].req.queue == k && s.calls[i].phase.Checking?
    && s.queues[k].pending > QP_MAX_SEND_WR
  }

  ghost predicate BugOnFires(c: Config, drain: bool, op: Op) {
    exists s, i :: Reached(c, drain, s) && BugOn(s, QueueOf(c, op), i)
  }

  // The BUG_ON of write_queue_add and read_queue_add never fires for exactly the same numbers of callers.
  lemma BugOnExact(c: Config, op: Op)
    requires c.numcpus > 0 && c.callers > 0
    ensures !BugOnFires(c, false, op) <==> c.callers <= if op.WriteOp? then 9 else 1
  {
    BackPressureExact(c, op);
    if c.callers > if op.WriteOp? then 9 else 1 {
      var s, i := NextChecks(c, op);
      assert BugOn(s, QueueOf(c, op), i);
    }
  }

  // ---------- callers that always drain, as sswap_rdma_write and sswap_rdma_read_sync do ----------

  // n callers all past the check and counted, and none of them gone.
  lemma AllCounted(c: Config, op: Op, n: nat) returns (s: Server, a: nat)
    requires c.numcpus > 0 && n <= c.callers && c.callers > 0
    ensures Reached(c, true, s) && QueueOf(c, op) < |s.queues|
    ensures s.queues[QueueOf(c, op)].pending == n
    ensures Waves(s, QueueOf(c, op), op, a, n, n)
    ensures Idle(s, n) && n in s.mem
  {
    s := WriteMany(c, true, n + 1);
    a := s.next;
    s := PassMany(c, true, s, op, 0, n);
    s := CountMany(c, true, s, QueueOf(c, op), op, a, n, n);
  }

  // The next caller then checks.
  lemma LastChecks(c: Config, op: Op) returns (s: Server, i: nat)
    requires c.numcpus > 0 && c.callers > 0
    ensures Reached(c, true, s) && QueueOf(c, op) < |s.queues|
    ensures s.queues[QueueOf(c, op)].pending == c.callers - 1
    ensures i in s.calls && s.calls[i].phase.Checking? && s.calls[i].req.queue == QueueOf(c, op)
  {
    var s0, a := AllCounted(c, op, c.callers - 1);
    assert Active(s0.calls, QueueOf(c, op)) == Span(a, c.callers - 1);
    i := s0.next;
    s := Start(c, true, s0, op, c.callers - 1);
  }

  // With draining callers pending stays within the send queue's size in every run exactly for up to
  // QP_MAX_SEND_WR callers.
  lemma DrainingExact(c: Config, op: Op)
    requires c.numcpus > 0 && c.callers > 0
    ensures StaysWithin(c, true, op) <==> c.callers <= QP_MAX_SEND_WR
  {
    var k := QueueOf(c, op);
    if c.callers <= QP_MAX_SEND_WR {
      forall s | Reached(c, true, s)
        ensures k < |s.queues| && s.queues[k].pending <= QP_MAX_SEND_WR
      {
        var es :| Run(c, es) == Some(s) && NoLeave(es);
        SynchronousPending(c, es, k);
      }
    } else {
      var s, a := AllCounted(c, op, c.callers);
    }
  }

  // A caller that still checks has nothing pending itself.
  lemma CheckerSees(c: Config, s: Server, k: nat, i: nat)
    requires Reached(c, true, s) && k < c.numcpus * 3
    requires i in s.calls && s.calls[i].req.queue == k && s.calls[i].phase.Checking?
    ensures k < |s.queues| && s.queues[k].pending <= c.callers - 1
  {
    var es :| Run(c, es) == Some(s) && NoLeave(es);
    RunOk(c, es);
    RunAttended(c, es, k);
    assert QueueOk(s, c, k) && LogOk(s, k);
    AttendedCount(s, k);
    SubsetCount(Busy(s.calls, k), Active(s.calls, k) - {i});
  }

  // With draining callers the BUG_ON never fires exactly for one caller more.
  lemma DrainingBugOnExact(c: Config, op: Op)
    requires c.numcpus > 0 && c.callers > 0
    ensures !BugOnFires(c, true, op) <==> c.callers <= QP_MAX_SEND_WR + 1
  {
    var k := QueueOf(c, op);
    if c.callers <= QP_MAX_SEND_WR + 1 {
      forall s, i | Reached(c, true, s) && BugOn(s, k, i)
        ensures false
      {
        CheckerSees(c, s, k, i);
      }
    } else {
      var s, i := LastChecks(c, op);
      assert BugOn(s, k, i);
    }
  }
}

// Whole traces of stores and loads: the scheduled mode and the direct mode against a plain map.
module SwapTrace {
  import opened Layout
  import opened SchedulerModel
  import opened FirstStoreRank

  datatype Op = Put(page: nat, data: Page) | Get(page: nat)

  // Refused: the -1 return. Stopped: the load ends at VM_BUG_ON.
  datatype Answer = Accepted | Data(data: Page) | Refused | Stopped

  predicate ValidTrace(ops: seq<Op>) {
    forall i :: 0 <= i < |ops| ==> ops[i].page < NR_PAGES
  }

  function Puts(ops: seq<Op>): (h: seq<nat>)
    ensures ValidTrace(ops) ==> ValidHistory(h)
  {
    if ops == [] then []
    else Puts(ops[..|ops| - 1]) + (if ops[|ops| - 1].Put? then [ops[|ops| - 1].page] else [])
  }

  datatype Plain = Plain(contents: map<nat, Page>, answers: seq<Answer>)

  function PlainGet(s: Plain, p: nat): Answer {
    if p in s.contents then Data(s.contents[p]) else Stopped
  }

  function PlainStep(s: Plain, op: Op): Plain {
    if op.Put? then Plain(s.contents[op.page := op.data], s.answers + [Accepted])
    else Plain(s.contents, s.answers + [PlainGet(s, op.page)])
  }

  // The reference: a map from page ids to contents.
  function RunPlain(ops: seq<Op>): Plain {
    if ops == [] then Plain(map[], []) else PlainStep(RunPlain(ops[..|ops| - 1]), ops[|ops| - 1])
  }

  datatype Scheduled = Scheduled(sched: Sched, mem: map<Loc, Page>, answers: seq<Answer>)

  function PlaceScheduled(s: Scheduled, w: Placed, data: Page): Scheduled {
    Scheduled(w.st, s.mem[Loc(w.node, w.offset / PAGE_SIZE) := data], s.answers + [Accepted])
  }

  ghost function PutScheduled(s: Scheduled, p: nat, data: Page): Scheduled
    requires Inv(s.sched) && p < NR_PAGES
  {
    PlaceScheduled(s, SchedulerWrite(s.sched, p), data)
  }

  function GetScheduled(s: Scheduled, p: nat): Answer {
    match SchedulerRead(s.sched, p)
    case None => Stopped
    case Some(l) => if l in s.mem then Data(s.mem[l]) else Stopped
  }

  ghost function ScheduledStep(s: Scheduled, op: Op): Scheduled {
    if op.Get? then Scheduled(s.sched, s.mem, s.answers + [GetScheduled(s, op.page)])
    else if Inv(s.sched) && op.page < NR_PAGES then PutScheduled(s, op.page, op.data)
    else s
  }

  // The scheduled mode: frames of the two nodes, found through the allocator.
  ghost function RunScheduled(ops: seq<Op>): Scheduled {
    if ops == [] then Scheduled(Init(), map[], []) else ScheduledStep(RunScheduled(ops[..|ops| - 1]), ops[|ops| - 1])
  }

  function Zeros(n: nat): (z: Page)
    ensures |z| == n && forall i :: 0 <= i < n ==> z[i] == 0
  {
    if n == 0 then [] else Zeros(n - 1) + [0]
  }

  datatype Direct = Direct(mem: map<nat, Page>, answers: seq<Answer>)

  function DirectGet(s: Direct, p: nat): Answer {
    if p * PAGE_SIZE >= REMOTE_BUF_SIZE then Refused
    else Data(if p * PAGE_SIZE in s.mem then s.mem[p * PAGE_SIZE] else Zeros(PAGE_SIZE))
  }

  function DirectPut(s: Direct, p: nat, data: Page): Direct {
    if p * PAGE_SIZE >= REMOTE_BUF_SIZE then s.(answers := s.answers + [Refused])
    else Direct(s.mem[p * PAGE_SIZE := data], s.answers + [Accepted])
  }

  function DirectStep(s: Direct, op: Op): Direct {
    if op.Put? then DirectPut(s, op.page, op.data) else s.(answers := s.answers + [DirectGet(s, op.page)])
  }

  // The direct mode: the zeroed buffer addressed by page id.
  function RunDirect(ops: seq<Op>): Direct {
    if ops == [] then Direct(map[], []) else DirectStep(RunDirect(ops[..|ops| - 1]), ops[|ops| - 1])
  }

  // Every stored page is found through the index, in a frame with its contents.
  predicate Found(index: map<nat, Loc>, mem: map<Loc, Page>, contents: map<nat, Page>) {
    && contents.Keys == index.Keys
    && forall p :: p in contents ==> index[p] in mem && mem[index[p]] == contents[p]
  }

  lemma FoundAfterPut(index: map<nat, Loc>, mem: map<Loc, Page>, contents: map<nat, Page>, p: nat, l: Loc, data: Page)
    requires Found(index, mem, contents)
    requires forall q :: q in index && q != p ==> index[q] != l
    ensures Found(index[p := l], mem[l := data], contents[p := data])
  {
  }

  ghost predicate Stands(s: Scheduled, h: seq<nat>, contents: map<nat, Page>) {
    s.sched == RunSched(h) && Found(s.sched.index, s.mem, contents)
  }

  lemma PutStands(s: Scheduled, h: seq<nat>, contents: map<nat, Page>, p: nat, data: Page)
    requires ValidHistory(h) && p < NR_PAGES && Stands(s, h, contents)
    ensures Inv(s.sched)
    ensures Stands(PutScheduled(s, p, data), h + [p], contents[p := data])
  {
    StorePlacement(h, p);
    var l := NextLoc(h, p);
    assert l.slot * PAGE_SIZE / PAGE_SIZE == l.slot;
    FoundAfterPut(s.sched.index, s.mem, contents, p, l, data);
  }

  lemma {:induction false} ScheduledStands(ops: seq<Op>)
    requires ValidTrace(ops)
    ensures Stands(RunScheduled(ops), Puts(ops), RunPlain(ops).contents)
    ensures RunScheduled(ops).answers == RunPlain(ops).answers
  {
    if ops != [] {
      var n := |ops| - 1;
      ScheduledStands(ops[..n]);
      if ops[n].Get? {
        assert Puts(ops) == Puts(ops[..n]);
      } else {
        PutStands(RunScheduled(ops[..n]), Puts(ops[..n]), RunPlain(ops[..n]).contents, ops[n].page, ops[n].data);
      }
    }
  }

  // Over every trace the two-node store answers exactly like a plain map.
  lemma ScheduledIsPlainMap(ops: seq<Op>)
    requires ValidTrace(ops)
    ensures RunScheduled(ops).answers == RunPlain(ops).answers
  {
    ScheduledStands(ops);
  }

  lemma {:induction false} DirectStands(ops: seq<Op>)
    ensures forall p :: 0 <= p < NR_PAGES ==> (p in RunPlain(ops).contents <==> p * PAGE_SIZE in RunDirect(ops).mem)
    ensures forall p :: 0 <= p < NR_PAGES && p in RunPlain(ops).contents ==>
              RunDirect(ops).mem[p * PAGE_SIZE] == RunPlain(ops).contents[p]
    ensures |RunDirect(ops).answers| == |RunPlain(ops).answers| == |ops|
  {
    if ops != [] {
      DirectStands(ops[..|ops| - 1]);
    }
  }

  predicate PutBefore(ops: seq<Op>, i: nat, p: nat)
    requires i <= |ops|
  {
    exists j :: 0 <= j < i && ops[j].Put? && ops[j].page == p
  }

  // Each load is of a page stored before.
  predicate LoadsAreStored(ops: seq<Op>) {
    forall i :: 0 <= i < |ops| && ops[i].Get? ==> PutBefore(ops, i, ops[i].page)
  }

  lemma {:induction false} ContentsArePut(ops: seq<Op>, p: nat)
    ensures p in RunPlain(ops).contents <==> PutBefore(ops, |ops|, p)
  {
    if ops != [] {
      var n := |ops| - 1;
      ContentsArePut(ops[..n], p);
      if PutBefore(ops[..n], n, p) {
        var j :| 0 <= j < n && ops[..n][j].Put? && ops[..n][j].page == p;
        assert ops[j].Put? && ops[j].page == p;
      }
      if PutBefore(ops, |ops|, p) && !(ops[n].Put? && ops[n].page == p) {
        var j :| 0 <= j < |ops| && ops[j].Put? && ops[j].page == p;
        assert ops[..n][j].Put? && ops[..n][j].page == p;
      }
    }
  }

  lemma LoadsStoredStep(ops: seq<Op>)
    requires ops != []
    ensures var n := |ops| - 1;
            LoadsAreStored(ops) <==> LoadsAreStored(ops[..n]) && (ops[n].Get? ==> PutBefore(ops[..n], n, ops[n].page))
  {
    var n := |ops| - 1;
    forall i | 0 <= i <= n
      ensures PutBefore(ops, i, ops[i].page) <==> PutBefore(ops[..n], i, ops[i].page)
    {
      if PutBefore(ops, i, ops[i].page) {
        var j :| 0 <= j < i && ops[j].Put? && ops[j].page == ops[i].page;
        assert ops[..n][j].Put?;
      }
      if PutBefore(ops[..n], i, ops[i].page) {
        var j :| 0 <= j < i && ops[..n][j].Put? && ops[..n][j].page == ops[i].page;
        assert ops[j].Put?;
      }
    }
    assert LoadsAreStored(ops) ==>
        forall i :: 0 <= i < n && ops[..n][i].Get? ==> PutBefore(ops[..n], i, ops[..n][i].page);
  }

  lemma ValidStep(ops: seq<Op>)
    requires ops != []
    ensures ValidTrace(ops) <==> ValidTrace(ops[..|ops| - 1]) && ops[|ops| - 1].page < NR_PAGES
  {
    assert ops == ops[..|ops| - 1] + [ops[|ops| - 1]];
  }

  // The direct mode answers like the map exactly on the traces that load only stored pages and name no
  // page past the swap area.
  lemma {:induction false} DirectMatchesPlain(ops: seq<Op>)
    ensures RunDirect(ops).answers == RunPlain(ops).answers <==> LoadsAreStored(ops) && ValidTrace(ops)
  {
    if ops != [] {
      var n := |ops| - 1;
      DirectMatchesPlain(ops[..n]);
      DirectStands(ops[..n]);
      LoadsStoredStep(ops);
      ValidStep(ops);
      var p := ops[n].page;
      ContentsArePut(ops[..n], p);
      var d, q := RunDirect(ops), RunPlain(ops);
      assert d.answers[..n] == RunDirect(ops[..n]).answers;
      assert q.answers[..n] == RunPlain(ops[..n]).answers;
      assert d.answers == d.answers[..n] + [d.answers[n]];
      assert q.answers == q.answers[..n] + [q.answers[n]];
    }
  }

  // The scheduled and the direct mode give the same answers exactly on the traces that load only
  // stored pages.
  lemma ModesAgree(ops: seq<Op>)
    requires ValidTrace(ops)
    ensures RunScheduled(ops).answers == RunDirect(ops).answers <==> LoadsAreStored(ops)
  {
    ScheduledStands(ops);
    DirectMatchesPlain(ops);
  }
}

// One request queue of multiswap_rdma.c used by one caller at a time, changed in place, with the
// device working on it between the caller's steps.
module Transport {
  import opened Layout
  import opened RequestQueues

  // struct page, as far as swapping is concerned.
  class Frame {
    var data: Page
    var locked: bool
    var uptodate: bool

    constructor (data: Page, locked: bool, uptodate: bool)
      ensures this.data == data && this.locked == locked && this.uptodate == uptodate
    {
      this.data, this.locked, this.uptodate := data, locked, uptodate;
    }
  }

  // What was posted: a write's contents are fixed once the page has been mapped for the device.
  datatype Work = WriteWork(offset: nat, data: Page) | ReadWork(offset: nat, into: Frame)

  // The request lies inside a buffer of the given size.
  predicate Fits(w: Work, size: nat) {
    w.offset + PAGE_SIZE <= size && (w.WriteWork? ==> |w.data| == PAGE_SIZE)
  }

  function PageAt(mem: seq<byte>, offset: nat): Page
    requires offset + PAGE_SIZE <= |mem|
  {
    mem[offset..offset + PAGE_SIZE]
  }

  function PutPage(mem: seq<byte>, offset: nat, data: Page): (r: seq<byte>)
    requires offset + PAGE_SIZE <= |mem| && |data| == PAGE_SIZE
    ensures |r| == |mem|
  {
    mem[..offset] + data + mem[offset + PAGE_SIZE..]
  }

  // Writing a page puts it there and leaves every range that does not overlap as it was.
  lemma PutPageAt(mem: seq<byte>, offset: nat, data: Page, other: nat)
    requires offset + PAGE_SIZE <= |mem| && |data| == PAGE_SIZE && other + PAGE_SIZE <= |mem|
    ensures PageAt(PutPage(mem, offset, data), offset) == data
    ensures other + PAGE_SIZE <= offset || offset + PAGE_SIZE <= other ==>
              PageAt(PutPage(mem, offset, data), other) == PageAt(mem, other)
  {
  }

  // What the device works on: the server's buffer, and whether an earlier request has failed on the
  // queue pair, which then carries out nothing more.
  datatype Remote = Remote(mem: seq<byte>, broken: bool)

  predicate Succeeds(r: Remote, w: Work) {
    !r.broken && Fits(w, |r.mem|)
  }

  function Effect(r: Remote, w: Work): (r': Remote)
    ensures |r'.mem| == |r.mem| && r'.broken == !Succeeds(r, w)
  {
    if !Succeeds(r, w) then Remote(r.mem, true)
    else if w.WriteWork? then Remote(PutPage(r.mem, w.offset, w.data), false)
    else r
  }

  // What a request leaves in a frame holding `now`.
  function Received(r: Remote, w: Work, f: Frame, now: Page): Page {
    if w.ReadWork? && w.into == f && Succeeds(r, w) then PageAt(r.mem, w.offset) else now
  }

  // The buffer once all outstanding work has been taken in order.
  function Eventually(r: Remote, ws: seq<Work>): (r': Remote)
    ensures |r'.mem| == |r.mem|
    decreases |ws|
  {
    if ws == [] then r else Eventually(Effect(r, ws[0]), ws[1..])
  }

  // What a frame holding `now` will hold once all outstanding work has been taken.
  function Arriving(r: Remote, ws: seq<Work>, f: Frame, now: Page): Page
    decreases |ws|
  {
    if ws == [] then now else Arriving(Effect(r, ws[0]), ws[1..], f, Received(r, ws[0], f, now))
  }

  lemma {:induction false} PostedLast(r: Remote, ws: seq<Work>, w: Work, f: Frame, now: Page)
    ensures Eventually(r, ws + [w]) == Effect(Eventually(r, ws), w)
    ensures Arriving(r, ws + [w], f, now) == Received(Eventually(r, ws), w, f, Arriving(r, ws, f, now))
    decreases |ws|
  {
    if ws == [] {
      assert ws + [w] == [w];
      assert [w][1..] == [];
    } else {
      assert (ws + [w])[1..] == ws[1..] + [w];
      PostedLast(Effect(r, ws[0]), ws[1..], w, f, Received(r, ws[0], f, now));
    }
  }

  ghost function Targets(ws: seq<Work>): set<Frame> {
    set w | w in ws && w.ReadWork? :: w.into
  }

  class RdmaQueue {
    var pending: int
    var sent: seq<Work>
    var ready: seq<Work>
    // the queue pair is in its error state
    var broken: bool
    // the server's registered buffer behind the queue pair
    const memory: array<byte>

    ghost predicate Valid()
      reads this
    {
      pending == |sent| + |ready| <= QP_MAX_SEND_WR
    }

    // sswap_rdma_init_queue, as far as transfers see it
    constructor (memory: array<byte>)
      ensures Valid() && this.memory == memory && pending == 0 && !broken
    {
      this.memory := memory;
      pending, sent, ready, broken := 0, [], [], false;
    }

    ghost function Now(): Remote
      reads this, memory
    {
      Remote(memory[..], broken)
    }

    ghost function Future(): Remote
      reads this, memory
    {
      Eventually(Now(), sent)
    }

    ghost function Promise(f: Frame): Page
      reads this, memory, f
    {
      Arriving(Now(), sent, f, f.data)
    }

    ghost predicate Awaits(f: Frame)
      reads this
    {
      f in Targets(ready) || f in Targets(sent)
    }

    // The device takes the oldest outstanding request. One outside the server's buffer fails and breaks
    // the queue pair.
    method CarryOut(ghost f: Frame)
      requires Valid() && sent != []
      modifies this, memory, Targets(sent)`data
      ensures Valid() && pending == old(pending)
      ensures sent == old(sent)[1..] && ready == old(ready) + [old(sent)[0]]
      ensures Future() == old(Future()) && Promise(f) == old(Promise(f))
    {
      var w := sent[0];
      if broken || w.offset + PAGE_SIZE > memory.Length || (w.WriteWork? && |w.data| != PAGE_SIZE) {
        broken := true;
      } else {
        match w {
          case WriteWork(offset, data) =>
            ghost var mem := memory[..];
            forall j | 0 <= j < PAGE_SIZE {
              memory[offset + j] := data[j];
            }
            assert memory[..] == PutPage(mem, offset, data);
          case ReadWork(offset, into) =>
            assert into in Targets(sent);
            into.data := memory[offset..offset + PAGE_SIZE];
        }
      }
      sent, ready := sent[1..], ready + [w];
    }

    // The device at work between two looks at the completion queue: it carries out any number of
    // requests, and at least one when there is something to do and nothing to collect.
    method DeviceRuns(ghost f: Frame)
      requires Valid()
      modifies this, memory, Targets(sent)`data
      ensures Valid() && pending == old(pending)
      ensures |sent| <= old(|sent|) && Targets(sent) <= old(Targets(sent))
      ensures Targets(sent) + Targets(ready) == old(Targets(sent) + Targets(ready))
      ensures old(ready) == [] && old(sent) != [] ==> ready != []
      ensures Future() == old(Future()) && Promise(f) == old(Promise(f)) && Awaits(f) == old(Awaits(f))
    {
      var n: nat :| n <= |sent| && (ready == [] && sent != [] ==> n > 0);
      ghost var total := n;
      while n > 0
        invariant n <= |sent| && Valid() && pending == old(pending)
        invariant |sent| <= old(|sent|) && Targets(sent) <= old(Targets(sent))
        invariant Targets(sent) + Targets(ready) == old(Targets(sent) + Targets(ready))
        invariant |ready| == old(|ready|) + total - n
        invariant Future() == old(Future()) && Promise(f) == old(Promise(f))
      {
        TargetsSplit(sent);
        TargetsAppend(ready, sent[0]);
        CarryOut(f);
        n := n - 1;
      }
    }

    ghost function Frames(): set<Frame>
      reads this
    {
      Targets(sent) + Targets(ready)
    }

    // ib_process_cq_direct: completion callbacks for up to `budget` ready requests.
    method ProcessCqDirect(budget: nat, ghost f: Frame) returns (n: nat)
      requires Valid()
      modifies this`pending, this`ready, Targets(ready)`locked, Targets(ready)`uptodate
      ensures Valid() && n == (if budget < old(|ready|) then budget else old(|ready|))
      ensures pending == old(pending) - n && ready == old(ready)[n..]
      ensures Frames() <= old(Frames())
      ensures old(f in Targets(ready)) ==> f in Targets(ready) || (f.uptodate && !f.locked)
      ensures old(f.uptodate && !f.locked) ==> f.uptodate && !f.locked
    {
      n := 0;
      while n < budget && ready != []
        invariant n <= budget && n <= old(|ready|) && Valid()
        invariant pending == old(pending) - n && ready == old(ready)[n..]
        invariant Targets(ready) <= old(Targets(ready))
        invariant old(f in Targets(ready)) ==> f in Targets(ready) || (f.uptodate && !f.locked)
        invariant old(f.uptodate && !f.locked) ==> f.uptodate && !f.locked
      {
        var w := ready[0];
        TargetsSplit(ready);
        if w.ReadWork? {
          w.into.uptodate := true;
          w.into.locked := false;
        }
        pending := pending - 1;
        ready := ready[1..];
        n := n + 1;
      }
    }

    // poll_target: returns by how much pending dropped, at most the target, and less than the target
    // only when nothing is pending.
    method PollTarget(target: nat, ghost f: Frame) returns (completed: nat)
      requires Valid()
      modifies this, memory, Frames()
      ensures Valid()
      ensures completed == old(pending) - pending && completed <= target
      ensures completed < target ==> pending == 0
      ensures Future() == old(Future()) && Promise(f) == old(Promise(f))
      ensures Frames() <= old(Frames()) && |sent| <= old(|sent|)
    {
      completed := 0;
      while completed < target && pending > 0
        invariant Valid() && completed == old(pending) - pending && completed <= target
        invariant Future() == old(Future()) && Promise(f) == old(Promise(f))
        invariant Frames() <= old(Frames()) && |sent| <= old(|sent|)
        decreases pending
      {
        DeviceRuns(f);
        var n := ProcessCqDirect(target - completed, f);
        completed := completed + n;
      }
    }

    // drain_queue: on return everything posted before has been carried out and completed.
    method DrainQueue(ghost f: Frame)
      requires Valid()
      modifies this, memory, Frames()
      ensures Valid() && pending == 0 && sent == [] && ready == []
      ensures Now() == old(Future())
      ensures f.data == old(Promise(f))
      ensures old(Awaits(f)) ==> f.uptodate && !f.locked
    {
      while pending > 0
        invariant Valid()
        invariant Future() == old(Future()) && Promise(f) == old(Promise(f))
        invariant Frames() <= old(Frames())
        invariant old(Awaits(f)) ==> Awaits(f) || (f.uptodate && !f.locked)
        decreases pending
      {
        DeviceRuns(f);
        var _ := ProcessCqDirect(16, f);
      }
    }

    // sswap_rdma_post_rdma: on a full send queue the post fails, with pending raised all the same.
    method PostRdma(w: Work, ghost f: Frame) returns (ret: int)
      requires Valid()
      modifies this
      ensures pending == old(pending) + 1 && ready == old(ready) && broken == old(broken)
      ensures ret == 0 <==> old(pending) < QP_MAX_SEND_WR
      ensures ret != 0 ==> sent == old(sent)
      ensures ret == 0 ==> Valid() && sent == old(sent) + [w]
      ensures ret == 0 ==> Future() == Effect(old(Future()), w)
      ensures ret == 0 ==> Promise(f) == Received(old(Future()), w, f, old(Promise(f)))
    {
      PostedLast(Now(), sent, w, f, f.data);
      pending := pending + 1;
      ret := PostSend(w);
    }

    // ib_post_send
    method PostSend(w: Work) returns (ret: int)
      modifies this`sent
      ensures ret == if old(|sent| + |ready|) < QP_MAX_SEND_WR then 0 else -ENOMEM
      ensures sent == if ret == 0 then old(sent) + [w] else old(sent)
    {
      if |sent| + |ready| >= QP_MAX_SEND_WR {
        return -ENOMEM;
      }
      sent := sent + [w];
      ret := 0;
    }

    // write_queue_add: the BUG_ON never fires, the post always fits, and the write will take effect
    // after everything posted before it.
    method WriteQueueAdd(data: Page, offset: nat, ghost f: Frame) returns (ret: int)
      requires Valid() && |data| == PAGE_SIZE
      modifies this, memory, Frames()
      ensures Valid() && 0 < pending <= WRITE_LIMIT && ret == 0
      ensures Future() == Effect(old(Future()), WriteWork(offset, data))
      ensures Promise(f) == old(Promise(f)) && Frames() <= old(Frames())
    {
      var inflight := pending;
      while inflight >= WRITE_LIMIT
        invariant Valid() && inflight == pending
        invariant Future() == old(Future()) && Promise(f) == old(Promise(f))
        invariant Frames() <= old(Frames())
        decreases pending
      {
        assert inflight <= QP_MAX_SEND_WR;  // BUG_ON
        var _ := PollTarget(WRITE_TARGET, f);
        inflight := pending;
      }
      var w := WriteWork(offset, data);
      TargetsAppend(sent, w);
      ret := PostRdma(w, f);
    }

    // read_queue_add
    method ReadQueueAdd(page: Frame, offset: nat) returns (ret: int)
      requires Valid()
      modifies this, memory, Frames()
      ensures Valid() && 0 < pending <= READ_LIMIT && ret == 0
      ensures Future() == Effect(old(Future()), ReadWork(offset, page))
      ensures Promise(page) == Received(old(Future()), ReadWork(offset, page), page, old(Promise(page)))
      ensures Awaits(page) && Frames() <= old(Frames()) + {page}
    {
      var inflight := pending;
      while inflight >= READ_LIMIT
        invariant Valid() && inflight == pending
        invariant Future() == old(Future()) && Promise(page) == old(Promise(page))
        invariant Frames() <= old(Frames())
        decreases pending
      {
        assert inflight <= QP_MAX_SEND_WR;  // BUG_ON
        var _ := PollTarget(READ_TARGET, page);
        inflight := pending;
      }
      var w := ReadWork(offset, page);
      TargetsAppend(sent, w);
      ret := PostRdma(w, page);
    }
  }

  lemma TargetsSplit(ws: seq<Work>)
    requires ws != []
    ensures Targets(ws) == Targets(ws[1..]) + if ws[0].ReadWork? then {ws[0].into} else {}
  {
    assert ws == [ws[0]] + ws[1..];
  }

  lemma TargetsAppend(ws: seq<Work>, w: Work)
    ensures Targets(ws + [w]) == Targets(ws) + if w.ReadWork? then {w.into} else {}
  {
  }
}

// sswap_store and sswap_load in the scheduled mode, down to the bytes of the two memory servers.
module SwapStore {
  import opened Layout
  import opened QueueIndex
  import opened Transport
  import opened Scheduler
  import M = SchedulerModel
  import opened FirstStoreRank

  // One controller with its queues, and the buffer its server registered.
  class MemoryServer {
    const numcpus: nat
    const queues: seq<RdmaQueue>
    const memory: array<byte>

    ghost function Repr(): set<object> {
      {memory} + set i | 0 <= i < |queues| :: queues[i] as object
    }

    // No transfer in progress.
    ghost predicate Quiet()
      reads Repr()
    {
      && |queues| == numcpus * 3 && memory.Length == SERVER_BUF_SIZE
      && (forall i :: 0 <= i < |queues| ==>
            queues[i].Valid() && queues[i].memory == memory && queues[i].pending == 0)
      && (forall i, j :: 0 <= i < j < |queues| ==> queues[i] != queues[j])
    }

    // No request has failed either.
    ghost predicate Sound()
      reads Repr()
    {
      Quiet() && forall i :: 0 <= i < |queues| ==> !queues[i].broken
    }

    // The server as queue k sees it.
    ghost function Seen(k: nat): Remote
      requires k < |queues|
      reads Repr()
    {
      Remote(memory[..], queues[k].broken)
    }

    // sswap_rdma_create_ctrl with sswap_rdma_init_queues
    constructor (numcpus: nat)
      ensures Sound() && fresh(Repr()) && this.numcpus == numcpus
    {
      var buffer := new byte[SERVER_BUF_SIZE];
      var qs: seq<RdmaQueue> := [];
      for i := 0 to numcpus * 3
        invariant |qs| == i && fresh(buffer) && buffer.Length == SERVER_BUF_SIZE
        invariant forall j :: 0 <= j < i ==>
                    fresh(qs[j]) && qs[j].Valid() && qs[j].memory == buffer && qs[j].pending == 0 && !qs[j].broken
        invariant forall j, k :: 0 <= j < k < i ==> qs[j] != qs[k]
      {
        var q := new RdmaQueue(buffer);
        qs := qs + [q];
      }
      this.numcpus, queues, memory := numcpus, qs, buffer;
    }

    // sswap_rdma_write. The result is 0 for every offset below REMOTE_BUF_SIZE, also when the request
    // fails because the offset is past the server's buffer: then nothing is stored and the CPU's write
    // queue is broken.
    method RdmaWrite(cpu: nat, page: Frame, roffset: nat) returns (ret: int)
      requires Quiet() && cpu < numcpus && |page.data| == PAGE_SIZE
      modifies Repr()
      ensures Quiet() && ret == if roffset >= REMOTE_BUF_SIZE then -1 else 0
      ensures var k := GetQueue(cpu, QP_WRITE_SYNC, numcpus);
              var w := WriteWork(roffset, old(page.data));
              && Seen(k) == (if ret == 0 then Effect(old(Seen(k)), w) else old(Seen(k)))
              && forall j :: 0 <= j < |queues| && j != k ==> queues[j].broken == old(queues[j].broken)
      ensures old(Sound()) && roffset + PAGE_SIZE <= SERVER_BUF_SIZE ==>
                Sound() && ret == 0 && memory[..] == PutPage(old(memory[..]), roffset, old(page.data))
    {
      if roffset >= REMOTE_BUF_SIZE {
        return -1;
      }
      var q := queues[GetQueue(cpu, QP_WRITE_SYNC, numcpus)];
      ret := q.WriteQueueAdd(page.data, roffset, page);
      q.DrainQueue(page);
    }

    // sswap_rdma_read_sync. The page is marked up to date for every offset below REMOTE_BUF_SIZE; it has
    // the server's contents exactly when the request succeeds.
    method RdmaReadSync(cpu: nat, page: Frame, roffset: nat) returns (ret: int)
      requires Quiet() && cpu < numcpus && page.locked && !page.uptodate
      modifies Repr(), page
      ensures Quiet() && ret == if roffset >= REMOTE_BUF_SIZE then -1 else 0
      ensures ret == 0 ==> page.uptodate && !page.locked
      ensures var k := GetQueue(cpu, QP_READ_SYNC, numcpus);
              var w := ReadWork(roffset, page);
              && Seen(k) == (if ret == 0 then Effect(old(Seen(k)), w) else old(Seen(k)))
              && page.data == (if ret == 0 then Received(old(Seen(k)), w, page, old(page.data)) else old(page.data))
              && forall j :: 0 <= j < |queues| && j != k ==> queues[j].broken == old(queues[j].broken)
      ensures old(Sound()) && roffset + PAGE_SIZE <= SERVER_BUF_SIZE ==>
                && Sound() && ret == 0 && memory[..] == old(memory[..])
                && page.data == PageAt(memory[..], roffset) && page.uptodate && !page.locked
    {
      if roffset >= REMOTE_BUF_SIZE {
        return -1;
      }
      var q := queues[GetQueue(cpu, QP_READ_SYNC, numcpus)];
      ret := q.ReadQueueAdd(page, roffset);
      q.DrainQueue(page);
    }
  }

  datatype Outcome =
    | Done
    | Refused  // the -1 return
    | Halted   // stopped at VM_BUG_ON

  function MemOf(node: nat, mem0: seq<byte>, mem1: seq<byte>): seq<byte> {
    if node == 0 then mem0 else mem1
  }

  // Every stored page's frame holds its contents.
  ghost predicate Holds(index: map<nat, Loc>, mem0: seq<byte>, mem1: seq<byte>, contents: map<nat, Page>) {
    && |mem0| == |mem1| == SERVER_BUF_SIZE && contents.Keys == index.Keys
    && forall p :: p in contents ==>
         && p in index && index[p].node < 2 && index[p].slot < NR_PAGES / 2
         && PageAt(MemOf(index[p].node, mem0, mem1), index[p].slot * PAGE_SIZE) == contents[p]
  }

  lemma HoldsAt(index: map<nat, Loc>, mem0: seq<byte>, mem1: seq<byte>, contents: map<nat, Page>,
                page: nat, node: nat, offset: nat)
    requires Holds(index, mem0, mem1, contents) && page in index
    requires node == index[page].node && offset == index[page].slot * PAGE_SIZE
    ensures page in contents && node < 2 && offset + PAGE_SIZE <= SERVER_BUF_SIZE
    ensures PageAt(MemOf(node, mem0, mem1), offset) == contents[page]
  {
  }

  // Putting a page into its own frame keeps every other page's contents.
  lemma HoldsAfterStore(index: map<nat, Loc>, mem0: seq<byte>, mem1: seq<byte>, contents: map<nat, Page>,
                        page: nat, l: Loc, data: Page)
    requires Holds(index, mem0, mem1, contents) && |data| == PAGE_SIZE && l.node < 2 && l.slot < NR_PAGES / 2
    requires forall p :: p in index && p != page ==> index[p] != l
    ensures var mem := PutPage(if l.node == 0 then mem0 else mem1, l.slot * PAGE_SIZE, data);
            Holds(index[page := l], if l.node == 0 then mem else mem0, if l.node == 0 then mem1 else mem,
                  contents[page := data])
  {
    var old_ := if l.node == 0 then mem0 else mem1;
    PutPageAt(old_, l.slot * PAGE_SIZE, data, l.slot * PAGE_SIZE);
    forall p | p in contents && p != page && index[p].node == l.node
      ensures PageAt(PutPage(old_, l.slot * PAGE_SIZE, data), index[p].slot * PAGE_SIZE) == contents[p]
    {
      assert index[p].slot != l.slot;
      PutPageAt(old_, l.slot * PAGE_SIZE, data, index[p].slot * PAGE_SIZE);
    }
  }

  // The state of a run, its memories and the contents it stands for.
  ghost predicate Faithful(history: seq<nat>, st: M.Sched, mem0: seq<byte>, mem1: seq<byte>, contents: map<nat, Page>) {
    && ValidHistory(history) && st == RunSched(history)
    && Holds(st.index, mem0, mem1, contents)
  }

  lemma FaithfulAfterStore(history: seq<nat>, st: M.Sched, mem0: seq<byte>, mem1: seq<byte>, contents: map<nat, Page>,
                           page: nat, data: Page, mem0': seq<byte>, mem1': seq<byte>)
    requires Faithful(history, st, mem0, mem1, contents) && page < NR_PAGES && |data| == PAGE_SIZE
    requires M.Inv(st)
    requires var w := M.SchedulerWrite(st, page);
             w.offset + PAGE_SIZE <= SERVER_BUF_SIZE
             && (if w.node == 0 then mem0' == PutPage(mem0, w.offset, data) && mem1' == mem1
                 else mem0' == mem0 && mem1' == PutPage(mem1, w.offset, data))
    ensures Faithful(history + [page], M.SchedulerWrite(st, page).st, mem0', mem1', contents[page := data])
  {
    StorePlacement(history, page);
    HoldsAfterStore(st.index, mem0, mem1, contents, page, NextLoc(history, page), data);
  }

  class Swap {
    const numcpus: nat
    const scheduler: RemoteScheduler
    const gctrl: seq<MemoryServer>
    // page ids in the order of their stores, and the contents last stored for each
    ghost var history: seq<nat>
    ghost var contents: map<nat, Page>

    ghost function Parts(): set<object> {
      scheduler.Repr() + if |gctrl| == 2 then gctrl[0].Repr() + gctrl[1].Repr() else {}
    }

    // Allocator and servers are in order and share no memory.
    ghost predicate PartsValid()
      reads Parts()
    {
      && |gctrl| == 2 && gctrl[0].Sound() && gctrl[1].Sound()
      && gctrl[0].numcpus == gctrl[1].numcpus == numcpus
      && scheduler.Repr() !! gctrl[0].Repr() && scheduler.Repr() !! gctrl[1].Repr()
      && gctrl[0].Repr() !! gctrl[1].Repr()
      && scheduler.Valid()
    }

    ghost function Memory(node: nat): seq<byte>
      requires |gctrl| == 2 && node < 2
      reads Parts()
    {
      gctrl[node].memory[..]
    }

    ghost predicate Valid()
      reads this, Parts()
    {
      && this !in Parts() && PartsValid()
      && Faithful(history, scheduler.State(), Memory(0), Memory(1), contents)
    }

    // The allocator and the transport are modules initialised before this one.
    constructor (scheduler: RemoteScheduler, server0: MemoryServer, server1: MemoryServer)
      requires scheduler.Valid() && scheduler.State() == M.Init()
      requires server0.Sound() && server1.Sound() && server0.numcpus == server1.numcpus
      requires scheduler.Repr() !! server0.Repr() && scheduler.Repr() !! server1.Repr()
      requires server0.Repr() !! server1.Repr()
      ensures Valid() && history == [] && contents == map[]
      ensures this.scheduler == scheduler && gctrl == [server0, server1] && numcpus == server0.numcpus
    {
      this.numcpus := server0.numcpus;
      this.scheduler := scheduler;
      gctrl := [server0, server1];
      history, contents := [], map[];
    }

    // The transfer to one server.
    method WriteTo(node: nat, cpu: nat, roffset: nat, page: Frame) returns (ret: int)
      requires PartsValid() && node < 2 && cpu < numcpus && |page.data| == PAGE_SIZE
      requires roffset + PAGE_SIZE <= SERVER_BUF_SIZE
      modifies gctrl[node].Repr()
      ensures PartsValid() && ret == 0 && scheduler.State() == old(scheduler.State())
      ensures Memory(node) == PutPage(old(Memory(node)), roffset, old(page.data))
      ensures Memory(1 - node) == old(Memory(1 - node))
    {
      assert gctrl[1 - node].Repr() !! gctrl[node].Repr() && scheduler.Repr() !! gctrl[node].Repr();
      ret := gctrl[node].RdmaWrite(cpu, page, roffset);
      assert gctrl[1 - node].Sound() && gctrl[node].Sound();
    }

    // The placement, which touches no server.
    method Place(pageid: nat) returns (node: nat, offset: nat)
      requires PartsValid() && M.Inv(scheduler.State()) && pageid < NR_PAGES
      modifies scheduler.Repr()
      ensures PartsValid() && Memory(0) == old(Memory(0)) && Memory(1) == old(Memory(1))
      ensures M.Placed(scheduler.State(), node, offset) == M.SchedulerWrite(old(scheduler.State()), pageid)
    {
      node, offset := scheduler.SchedulerWrite(pageid);
    }

    // The two calls of sswap_store, in a state that stands for contents c after history h.
    method PlaceAndWrite(cpu: nat, pageid: nat, page: Frame, ghost h: seq<nat>, ghost c: map<nat, Page>)
      returns (ret: int)
      requires PartsValid() && Faithful(h, scheduler.State(), Memory(0), Memory(1), c)
      requires cpu < numcpus && pageid < NR_PAGES && |page.data| == PAGE_SIZE && page !in Parts()
      modifies Parts()
      ensures PartsValid() && ret == 0
      ensures Faithful(h + [pageid], scheduler.State(), Memory(0), Memory(1), c[pageid := old(page.data)])
    {
      StorePlacement(h, pageid);
      ghost var st, mem0, mem1, data := scheduler.State(), Memory(0), Memory(1), page.data;
      var rtype, roffset := Place(pageid);
      ret := WriteTo(rtype, cpu, roffset, page);
      FaithfulAfterStore(h, st, mem0, mem1, c, pageid, data, Memory(0), Memory(1));
    }

    // The history entry of a finished store.
    ghost method Record(pageid: nat, data: Page)
      requires this !in Parts() && PartsValid()
      modifies this
      ensures PartsValid() && scheduler.State() == old(scheduler.State())
      ensures Memory(0) == old(Memory(0)) && Memory(1) == old(Memory(1))
      ensures history == old(history) + [pageid] && contents == old(contents)[pageid := data]
    {
      history := history + [pageid];
      contents := contents[pageid := data];
    }

    // sswap_store: the page is accepted, becomes the page's contents, and no other page is disturbed.
    method Store(cpu: nat, pageid: nat, page: Frame) returns (r: Outcome)
      requires Valid() && cpu < numcpus && pageid < NR_PAGES && |page.data| == PAGE_SIZE && page !in Parts()
      modifies this, Parts()
      ensures Valid() && r == Done
      ensures contents == old(contents)[pageid := old(page.data)] && history == old(history) + [pageid]
    {
      ghost var data := page.data;
      var ret := PlaceAndWrite(cpu, pageid, page, history, contents);
      if ret != 0 {
        return Refused;
      }
      Record(pageid, data);
      r := Done;
    }

    // The transfer from one server.
    method ReadFrom(node: nat, cpu: nat, roffset: nat, page: Frame) returns (ret: int)
      requires PartsValid() && node < 2 && cpu < numcpus && page.locked && !page.uptodate && page !in Parts()
      requires roffset + PAGE_SIZE <= SERVER_BUF_SIZE
      modifies Parts(), page
      ensures PartsValid() && ret == 0 && scheduler.State() == old(scheduler.State())
      ensures Memory(0) == old(Memory(0)) && Memory(1) == old(Memory(1))
      ensures page.data == PageAt(MemOf(node, Memory(0), Memory(1)), roffset) && page.uptodate && !page.locked
    {
      assert gctrl[1 - node].Repr() !! gctrl[node].Repr() && scheduler.Repr() !! gctrl[node].Repr();
      ret := gctrl[node].RdmaReadSync(cpu, page, roffset);
      assert gctrl[1 - node].Sound() && gctrl[node].Sound();
    }

    // Where sswap_scheduler_read sends a load.
    method Find(pageid: nat, ghost c: map<nat, Page>) returns (found: bool, node: nat, offset: nat)
      requires PartsValid() && Holds(scheduler.State().index, Memory(0), Memory(1), c) && pageid < NR_PAGES
      ensures found == (pageid in c)
      ensures found ==> node < 2 && offset + PAGE_SIZE <= SERVER_BUF_SIZE
                        && PageAt(MemOf(node, Memory(0), Memory(1)), offset) == c[pageid]
    {
      var at := scheduler.GetMapping(pageid);
      if at.None? {
        return false, 0, 0;
      }
      found, node, offset := true, at.value.0, at.value.1;
      HoldsAt(scheduler.State().index, Memory(0), Memory(1), c, pageid, node, offset);
    }

    // The two calls of sswap_load, in a state that holds contents c.
    method FindAndRead(cpu: nat, pageid: nat, page: Frame, ghost c: map<nat, Page>) returns (found: bool, ret: int)
      requires PartsValid() && Holds(scheduler.State().index, Memory(0), Memory(1), c)
      requires cpu < numcpus && pageid < NR_PAGES && page.locked && !page.uptodate && page !in Parts()
      modifies Parts(), page
      ensures PartsValid() && scheduler.State() == old(scheduler.State())
      ensures Memory(0) == old(Memory(0)) && Memory(1) == old(Memory(1))
      ensures found == (pageid in c)
      ensures found ==> ret == 0 && page.data == c[pageid] && page.uptodate && !page.locked
    {
      var rtype, roffset;
      found, rtype, roffset := Find(pageid, c);
      if !found {
        return false, 0;
      }
      ret := ReadFrom(rtype, cpu, roffset, page);
    }

    // sswap_load: a stored page comes back with the contents last stored; a page never stored stops
    // at the VM_BUG_ON. Nothing stored changes.
    method Load(cpu: nat, pageid: nat, page: Frame) returns (r: Outcome)
      requires Valid() && cpu < numcpus && pageid < NR_PAGES && page.locked && !page.uptodate
      requires page !in Parts()
      modifies Parts(), page
      ensures Valid() && contents == old(contents) && history == old(history)
      ensures r == if pageid in contents then Done else Halted
      ensures r == Done ==> page.data == contents[pageid] && page.uptodate && !page.locked
    {
      var found, ret := FindAndRead(cpu, pageid, page, contents);
      r := if !found then Halted else if ret != 0 then Refused else Done;
    }
  }

  // The two servers, apart from each other and from everything that was there before.
  method BootServers(numcpus: nat, ghost before: set<object>) returns (server0: MemoryServer, server1: MemoryServer)
    ensures server0.Sound() && server1.Sound() && server0.numcpus == server1.numcpus == numcpus
    ensures before !! server0.Repr() && before !! server1.Repr() && server0.Repr() !! server1.Repr()
  {
    server0 := new MemoryServer(numcpus);
    server1 := new MemoryServer(numcpus);
  }

  // Starting the three modules gives an empty store.
  method Boot(numcpus: nat) returns (swap: Swap)
    ensures swap.Valid() && swap.numcpus == numcpus && swap.contents == map[]
  {
    var scheduler := new RemoteScheduler();
    var server0, server1 := BootServers(numcpus, scheduler.Repr());
    swap := new Swap(scheduler, server0, server1);
  }
}

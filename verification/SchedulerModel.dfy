// remote_schedule.c as functions of the allocator state: the specification that the Scheduler
// class is proved against, and the facts that hold after one call.
module SchedulerModel {
  import opened Layout
  import opened Bitmap
  import opened Counting

  datatype Flags = Flags(success: bool, full: bool)

  const NO_FLAGS := Flags(false, false)

  datatype Sched = Sched(nodes: seq<Node>, index: map<nat, Loc>)

  predicate WellFormed(st: Sched) {
    && |st.nodes| == 2
    && Shape(st.nodes[0]) && Shape(st.nodes[1])
    && forall p :: p in st.index ==> p < NR_PAGES && st.index[p].node < 2 && st.index[p].slot < NR_PAGES
  }

  predicate Taken(st: Sched, l: Loc)
    requires WellFormed(st) && l.node < 2 && l.slot < NR_PAGES
  {
    Bit(st.nodes[l.node], l.slot)
  }

  // Counters tell the truth, and every slot the index names has its bit set and is named once. Bits
  // that no entry names, as an index write that fails after the slot choice leaves them, are allowed.
  ghost predicate Covered(st: Sched) {
    && WellFormed(st)
    && Truthful(st.nodes[0]) && Truthful(st.nodes[1])
    && (forall p :: p in st.index ==> Taken(st, st.index[p]))
    && (forall p, q :: p in st.index && q in st.index && st.index[p] == st.index[q] ==> p == q)
  }

  // Index and bitmaps agree: no other bit is set.
  ghost predicate Inv(st: Sched) {
    && Covered(st)
    && (forall l: Loc :: l.node < 2 && l.slot < NR_PAGES ==> (Taken(st, l) <==> l in st.index.Values))
  }

  // init_scheduler: every bit clear, every counter at the chunk size, an empty index.
  function EmptyChunk(): Chunk {
    Chunk(seq(CHUNK_PAGES, _ => false), CHUNK_PAGES)
  }

  function EmptyNode(): Node {
    seq(NR_CHUNKS, _ => EmptyChunk())
  }

  function Init(): (r: Sched)
    ensures WellFormed(r)
  {
    Sched([EmptyNode(), EmptyNode()], map[])
  }

  lemma InitInv()
    ensures Inv(Init())
    ensures forall l: Loc :: l.node < 2 && l.slot < NR_PAGES ==> !Taken(Init(), l)
  {
    ClearAll(EmptyChunk().bits);
  }

  // ---------- sswap_add_mapping ----------

  // The part before the slot choice: the old slot's bit is cleared, the index entry stays.
  function ReleaseOld(st: Sched, page: nat): (r: Sched)
    requires WellFormed(st)
    ensures WellFormed(r) && r.index == st.index
  {
    if page in st.index then
      var l := st.index[page];
      st.(nodes := st.nodes[l.node := ReleaseSlot(st.nodes[l.node], l.slot)])
    else st
  }

  datatype Added = Added(st: Sched, offset: nat, flags: Flags)

  // The slot choice must not run on a counter without a zero bit behind it.
  predicate CanAdd(st: Sched, node: nat, page: nat)
    requires WellFormed(st) && node < 2
  {
    SoundNode(ReleaseOld(st, page).nodes[node])
  }

  function AddMapping(st: Sched, node: nat, page: nat, flags: Flags): (r: Added)
    requires WellFormed(st) && node < 2 && page < NR_PAGES && CanAdd(st, node, page)
    ensures WellFormed(r.st)
  {
    var st1 := ReleaseOld(st, page);
    var sel := SelectSlot(st1.nodes[node]);
    var flags1 := if sel.full then flags.(full := true) else flags.(success := true);
    var st2 := st1.(nodes := st1.nodes[node := sel.node]);
    // the flag word is never cleared, so a full flag from an earlier call also ends here
    if flags1.full then Added(st2, 0, flags1)
    else Added(st2.(index := st2.index[page := Loc(node, sel.slot)]), sel.slot * PAGE_SIZE, flags1)
  }

  // Is there a clear bit on the node once the page's own old slot is given back?
  predicate RoomFor(st: Sched, node: nat, page: nat)
    requires WellFormed(st) && node < 2
  {
    Room(ReleaseOld(st, page).nodes[node])
  }

  // What the release does to a consistent state.
  lemma ReleaseOldEffect(st: Sched, page: nat)
    requires Covered(st)
    ensures var r := ReleaseOld(st, page);
            && Truthful(r.nodes[0]) && Truthful(r.nodes[1])
            && SoundNode(r.nodes[0]) && SoundNode(r.nodes[1])
            && forall l: Loc :: l.node < 2 && l.slot < NR_PAGES ==>
                 (Taken(r, l) <==> Taken(st, l) && !(page in st.index && l == st.index[page]))
  {
    var r := ReleaseOld(st, page);
    if page in st.index {
      var l := st.index[page];
      ReleaseOne(st.nodes[l.node], l.slot);
    }
    TruthfulIsSound(r.nodes[0]);
    TruthfulIsSound(r.nodes[1]);
  }

  // Slot l was clear once the page's old slot had been given back; now exactly its bit is set besides.
  ghost predicate Entered(st: Sched, page: nat, l: Loc, nodes: seq<Node>) {
    && Covered(st) && page < NR_PAGES && l.node < 2 && l.slot < NR_PAGES
    && (Taken(st, l) ==> page in st.index && l == st.index[page])
    && |nodes| == 2 && Shape(nodes[0]) && Shape(nodes[1]) && Truthful(nodes[0]) && Truthful(nodes[1])
    && forall m: Loc :: m.node < 2 && m.slot < NR_PAGES ==>
         (Bit(nodes[m.node], m.slot) <==> m == l || (Taken(st, m) && !(page in st.index && m == st.index[page])))
  }

  // Entering such a slot in the index keeps every entry covered and every slot named once.
  lemma EnterKeepsCovered(st: Sched, page: nat, l: Loc, nodes: seq<Node>)
    requires Entered(st, page, l, nodes)
    ensures Covered(Sched(nodes, st.index[page := l]))
  {
    var r := Sched(nodes, st.index[page := l]);
    forall p | p in r.index
      ensures Taken(r, r.index[p]) && (p != page ==> r.index[p] != l)
    {
      if p != page {
        assert Taken(st, st.index[p]);
      }
    }
  }

  // It also keeps the agreement of index and bitmaps.
  lemma EnterKeepsInv(st: Sched, page: nat, l: Loc, nodes: seq<Node>)
    requires Inv(st) && Entered(st, page, l, nodes)
    ensures Inv(Sched(nodes, st.index[page := l]))
  {
    EnterKeepsCovered(st, page, l, nodes);
    var r := Sched(nodes, st.index[page := l]);
    forall m: Loc | m.node < 2 && m.slot < NR_PAGES
      ensures Taken(r, m) <==> m in r.index.Values
    {
      if m == l {
        assert r.index[page] == m;
      } else if m in st.index.Values {
        var p :| p in st.index && st.index[p] == m;
        assert p != page ==> r.index[p] == m;
      }
    }
  }

  // With room, whatever node is chosen: the page gets the lowest slot that is clear once its old
  // slot is given back, the flags say success, and nothing else in the index or in either bitmap
  // changes.
  lemma AddWithRoom(st: Sched, node: nat, page: nat)
    requires Covered(st) && node < 2 && page < NR_PAGES && RoomFor(st, node, page)
    ensures CanAdd(st, node, page)
    ensures var r := AddMapping(st, node, page, NO_FLAGS);
            && Covered(r.st)
            && (Inv(st) ==> Inv(r.st))
            && r.flags == Flags(true, false)
            && page in r.st.index
            && var l := r.st.index[page];
            && l.node == node && r.offset == l.slot * PAGE_SIZE
            && r.st.index == st.index[page := l]
            && !Taken(ReleaseOld(st, page), l)
            && (forall s :: 0 <= s < l.slot ==> Taken(ReleaseOld(st, page), Loc(node, s)))
            && (forall m: Loc :: m.node < 2 && m.slot < NR_PAGES ==>
                  (Taken(r.st, m) <==> m == l || Taken(ReleaseOld(st, page), m)))
  {
    ReleaseOldEffect(st, page);
    var st1 := ReleaseOld(st, page);
    FirstFit(st1.nodes[node]);
    var r := AddMapping(st, node, page, NO_FLAGS);
    var l := Loc(node, SelectSlot(st1.nodes[node]).slot);
    assert !Taken(st1, l);
    forall m: Loc | m.node < 2 && m.slot < NR_PAGES
      ensures Taken(r.st, m) <==> m == l || Taken(st1, m)
    {
    }
    EnterKeepsCovered(st, page, l, r.st.nodes);
    if Inv(st) {
      EnterKeepsInv(st, page, l, r.st.nodes);
    }
  }

  // Without room: the old slot is given back, the index still names it, nothing is claimed.
  lemma AddWithoutRoom(st: Sched, node: nat, page: nat, flags: Flags)
    requires Covered(st) && node < 2 && page < NR_PAGES && !RoomFor(st, node, page)
    ensures CanAdd(st, node, page)
    ensures AddMapping(st, node, page, flags) == Added(ReleaseOld(st, page), 0, flags.(full := true))
  {
    ReleaseOldEffect(st, page);
    var st1 := ReleaseOld(st, page);
    FirstFit(st1.nodes[node]);
    assert st1.nodes[node := st1.nodes[node]] == st1.nodes;
  }

  // The exact condition under which one call keeps every entry covered: the chosen node has room
  // after the release, or there was nothing to release.
  lemma AddKeepsCovered(st: Sched, node: nat, page: nat)
    requires Covered(st) && node < 2 && page < NR_PAGES
    ensures CanAdd(st, node, page)
    ensures Covered(AddMapping(st, node, page, NO_FLAGS).st) <==> RoomFor(st, node, page) || page !in st.index
  {
    if RoomFor(st, node, page) {
      AddWithRoom(st, node, page);
    } else {
      AddWithoutRoom(st, node, page, NO_FLAGS);
      ReleaseOldEffect(st, page);
      if page in st.index {
        assert !Taken(ReleaseOld(st, page), st.index[page]);
      }
    }
  }

  // The pages other than one are too few to hold all slots of a node.
  lemma SlotLeft(index: map<nat, Loc>, node: nat, page: nat) returns (slot: nat)
    requires page < NR_PAGES && forall p :: p in index ==> p < NR_PAGES
    requires forall p, q :: p in index && q in index && index[p] == index[q] ==> p == q
    ensures slot < NR_PAGES && forall p :: p in index && p != page ==> index[p] != Loc(node, slot)
  {
    var others := index.Keys - {page};
    BoundedCount(others + {page}, NR_PAGES);
    assert |others + {page}| == |others| + 1;
    var held := p => if p in index then index[p] else Loc(0, 0);
    ImageCount(others, held);
    var at := (s: nat) => Loc(node, s);
    BelowCount(NR_PAGES);
    ImageCount(Below(NR_PAGES), at);
    if Image(Below(NR_PAGES), at) <= Image(others, held) {
      SubsetCount(Image(Below(NR_PAGES), at), Image(others, held));
      assert false;
    }
    slot :| slot in Below(NR_PAGES) && at(slot) !in Image(others, held);
    forall p | p in index && p != page
      ensures index[p] != Loc(node, slot)
    {
      assert p in others && held(p) in Image(others, held);
    }
  }

  // When index and bitmaps agree there is room on every node for every page: the other pages are
  // too few to fill a node.
  lemma AlwaysRoom(st: Sched, node: nat, page: nat)
    requires Inv(st) && node < 2 && page < NR_PAGES
    ensures RoomFor(st, node, page)
  {
    ReleaseOldEffect(st, page);
    var slot := SlotLeft(st.index, node, page);
    assert !Taken(ReleaseOld(st, page), Loc(node, slot));
    assert !Bit(ReleaseOld(st, page).nodes[node], slot);
  }

  // So sswap_add_mapping keeps index and bitmaps in agreement and reports success, whatever node a
  // schedule picks.
  lemma AnyNodeKeepsAgreement(st: Sched, node: nat, page: nat)
    requires Inv(st) && node < 2 && page < NR_PAGES
    ensures CanAdd(st, node, page)
    ensures var r := AddMapping(st, node, page, NO_FLAGS);
            Inv(r.st) && r.flags == Flags(true, false) && page in r.st.index && r.st.index[page].node == node
  {
    AlwaysRoom(st, node, page);
    AddWithRoom(st, node, page);
  }

  // Re-storing on the node that already holds the page never raises its slot.
  lemma SameNodeNeverHigher(st: Sched, page: nat)
    requires Covered(st) && page in st.index
    ensures var node := st.index[page].node;
            && RoomFor(st, node, page)
            && CanAdd(st, node, page)
            && var r := AddMapping(st, node, page, NO_FLAGS);
            && page in r.st.index && r.st.index[page].slot <= st.index[page].slot
  {
    var l := st.index[page];
    ReleaseOldEffect(st, page);
    assert !Bit(ReleaseOld(st, page).nodes[l.node], l.slot);
    AddWithRoom(st, l.node, page);
  }

  // Moving a page to the other node gives back one slot there and takes one here.
  lemma MoveCounts(st: Sched, node: nat, page: nat)
    requires Inv(st) && node < 2 && page in st.index && st.index[page].node == 1 - node
    ensures CanAdd(st, node, page)
    ensures var r := AddMapping(st, node, page, NO_FLAGS).st;
            && FreeBelow(r.nodes[1 - node], NR_CHUNKS) == FreeBelow(st.nodes[1 - node], NR_CHUNKS) + 1
            && FreeBelow(r.nodes[node], NR_CHUNKS) == FreeBelow(st.nodes[node], NR_CHUNKS) - 1
  {
    AnyNodeKeepsAgreement(st, node, page);
    var r := AddMapping(st, node, page, NO_FLAGS).st;
    FreeIsClear(st.nodes[0], NR_CHUNKS);
    FreeIsClear(st.nodes[1], NR_CHUNKS);
    FreeIsClear(r.nodes[0], NR_CHUNKS);
    FreeIsClear(r.nodes[1], NR_CHUNKS);
    ReleaseClears(st.nodes[1 - node], st.index[page].slot, NR_CHUNKS);
    ClaimClears(st.nodes[node], FirstFree(st.nodes[node], 0), NR_CHUNKS);
  }

  // ---------- other ways of choosing nodes, against the server's buffer ----------

  // Node `node` still has a clear slot inside the server's buffer once the page's own is given back.
  ghost predicate LowRoomFor(st: Sched, node: nat, page: nat)
    requires WellFormed(st) && node < 2
  {
    exists s :: 0 <= s < NR_PAGES / 2 && !Taken(ReleaseOld(st, page), Loc(node, s))
  }

  // The offset handed out fits the server's buffer exactly when there is such a slot, although any
  // offset passes the client's own check.
  lemma OffsetFits(st: Sched, node: nat, page: nat)
    requires Inv(st) && node < 2 && page < NR_PAGES
    ensures CanAdd(st, node, page)
    ensures var r := AddMapping(st, node, page, NO_FLAGS);
            && r.offset < REMOTE_BUF_SIZE
            && (r.offset + PAGE_SIZE <= SERVER_BUF_SIZE <==> LowRoomFor(st, node, page))
  {
    AlwaysRoom(st, node, page);
    AddWithRoom(st, node, page);
    var l := AddMapping(st, node, page, NO_FLAGS).st.index[page];
    if l.slot < NR_PAGES / 2 {
      assert !Taken(ReleaseOld(st, page), Loc(node, l.slot));
    }
  }

  // Page i placed on node 0.
  predicate AddsToFirst(before: Sched, i: nat, after: Sched) {
    && WellFormed(before) && i < NR_PAGES && CanAdd(before, 0, i)
    && after == AddMapping(before, 0, i, NO_FLAGS).st
  }

  // A run that places pages 0, 1, 2, ... on node 0.
  predicate OneSided(run: seq<Sched>) {
    && run != [] && run[0] == Init()
    && forall i :: 0 <= i < |run| - 1 ==> AddsToFirst(run[i], i, run[i + 1])
  }

  ghost predicate FirstTaken(st: Sched, n: nat)
    requires WellFormed(st)
  {
    && (forall p :: p in st.index ==> p < n)
    && (forall s :: 0 <= s < NR_PAGES ==> (Taken(st, Loc(0, s)) <==> s < n))
  }

  lemma OneSidedStep(st: Sched, n: nat)
    requires n < NR_PAGES && Inv(st) && FirstTaken(st, n)
    ensures CanAdd(st, 0, n)
    ensures var r := AddMapping(st, 0, n, NO_FLAGS);
            Inv(r.st) && FirstTaken(r.st, n + 1) && r.offset == n * PAGE_SIZE
  {
    AlwaysRoom(st, 0, n);
    AddWithRoom(st, 0, n);
    var r := AddMapping(st, 0, n, NO_FLAGS);
    var l := r.st.index[n];
    assert ReleaseOld(st, n) == st;
    assert !Taken(st, l) && l == Loc(0, l.slot);
    assert !Taken(st, Loc(0, n));
  }

  lemma NothingTaken() returns (run: seq<Sched>)
    ensures run == [Init()] && OneSided(run)
    ensures Inv(run[0]) && FirstTaken(run[0], 0)
  {
    run := [Init()];
    InitInv();
  }

  lemma OneSidedExtends(run: seq<Sched>, after: Sched)
    requires OneSided(run) && AddsToFirst(run[|run| - 1], |run| - 1, after)
    ensures OneSided(run + [after]) && (run + [after])[|run|] == after
  {
  }

  lemma {:induction false} OneSidedFills(n: nat) returns (run: seq<Sched>, last: Sched)
    requires n <= NR_PAGES
    ensures |run| == n + 1 && OneSided(run) && run[n] == last
    ensures Inv(last) && FirstTaken(last, n)
  {
    if n == 0 {
      run := NothingTaken();
      last := run[0];
    } else {
      var before;
      run, before := OneSidedFills(n - 1);
      OneSidedStep(before, n - 1);
      last := AddMapping(before, 0, n - 1, NO_FLAGS).st;
      OneSidedExtends(run, last);
      run := run + [last];
    }
  }

  // A choice that puts every page on one node hands out offsets in order, so it leaves the server's
  // buffer with the first page past half of the swap area.
  lemma OneSidedLeavesBuffer(n: nat) returns (run: seq<Sched>)
    requires n < NR_PAGES
    ensures OneSided(run) && |run| == n + 1 && Inv(run[n]) && CanAdd(run[n], 0, n)
    ensures var offset := AddMapping(run[n], 0, n, NO_FLAGS).offset;
            offset == n * PAGE_SIZE && (offset + PAGE_SIZE <= SERVER_BUF_SIZE <==> n < NR_PAGES / 2)
  {
    var last;
    run, last := OneSidedFills(n);
    OneSidedStep(last, n);
  }

  // ---------- sswap_scheduler_write and sswap_scheduler_read ----------

  datatype Placed = Placed(st: Sched, node: nat, offset: nat)

  // Even pages go to node 0 and odd pages to node 1; when that node reports full the other one is
  // tried with the same flag word.
  function SchedulerWrite(st: Sched, page: nat): (r: Placed)
    requires Covered(st) && page < NR_PAGES
    ensures WellFormed(r.st) && r.node < 2
  {
    var node := page % 2;
    AddKeepsCovered(st, node, page);
    var first := AddMapping(st, node, page, NO_FLAGS);
    if first.flags.full then
      FallbackCanAdd(st, page);
      var second := AddMapping(first.st, 1 - node, page, first.flags);
      Placed(second.st, 1 - node, second.offset)
    else Placed(first.st, node, first.offset)
  }

  function SchedulerRead(st: Sched, page: nat): (r: Option<Loc>) {
    if page in st.index then Some(st.index[page]) else None
  }

  // sswap_scheduler_write puts the page on the lowest slot of its parity's node that is clear once the
  // page's old slot is given back.
  lemma WriteTakesLowest(st: Sched, page: nat, slot: nat)
    requires Inv(st) && page < NR_PAGES && slot < NR_PAGES
    requires !Taken(ReleaseOld(st, page), Loc(page % 2, slot))
    requires forall s :: 0 <= s < slot ==> Taken(ReleaseOld(st, page), Loc(page % 2, s))
    ensures var r := SchedulerWrite(st, page);
            && Inv(r.st)
            && r.node == page % 2 && r.offset == slot * PAGE_SIZE
            && r.st.index == st.index[page := Loc(page % 2, slot)]
            && forall m: Loc :: m.node < 2 && m.slot < NR_PAGES ==>
                 (Taken(r.st, m) <==> m == Loc(page % 2, slot) || Taken(ReleaseOld(st, page), m))
  {
    assert !Bit(ReleaseOld(st, page).nodes[page % 2], slot);
    AddWithRoom(st, page % 2, page);
    var l := SchedulerWrite(st, page).st.index[page];
    assert !Taken(ReleaseOld(st, page), l);
    assert l.slot == slot;
  }

  // After a full report the old bit is already clear, so a second release of it leaves its chunk
  // with a counter one too high but still with a zero bit behind it.
  lemma FallbackCanAdd(st: Sched, page: nat)
    requires Covered(st) && page < NR_PAGES
    requires CanAdd(st, page % 2, page) && AddMapping(st, page % 2, page, NO_FLAGS).flags.full
    ensures !RoomFor(st, page % 2, page)
    ensures CanAdd(AddMapping(st, page % 2, page, NO_FLAGS).st, 1 - page % 2, page)
  {
    var node := page % 2;
    if RoomFor(st, node, page) {
      AddWithRoom(st, node, page);
    }
    AddWithoutRoom(st, node, page, NO_FLAGS);
    ReleaseOldEffect(st, page);
    if page in st.index {
      var l := st.index[page];
      var once := ReleaseOld(st, page);
      var c := once.nodes[l.node][l.slot / CHUNK_PAGES];
      assert !Taken(once, l) && !c.bits[l.slot % CHUNK_PAGES];
      var twice := ReleaseOld(once, page);
      assert twice.nodes[l.node][l.slot / CHUNK_PAGES].bits == c.bits;
    }
  }

  // sswap_scheduler_write keeps every entry covered and maps the page exactly when the parity node has
  // room after the release. Without room it enters nothing and returns the first frame of the other
  // node, whoever owns that.
  lemma SchedulerWriteExact(st: Sched, page: nat)
    requires Covered(st) && page < NR_PAGES
    ensures var r := SchedulerWrite(st, page);
            && (RoomFor(st, page % 2, page) <==> Covered(r.st) && page in r.st.index)
            && (!RoomFor(st, page % 2, page) ==>
                  r.node == 1 - page % 2 && r.offset == 0 && r.st.index == st.index)
  {
    if RoomFor(st, page % 2, page) {
      AddWithRoom(st, page % 2, page);
    } else {
      AddWithoutRoom(st, page % 2, page, NO_FLAGS);
      FallbackCanAdd(st, page);
      if page in st.index {
        FallbackCorruptsCounter(st, page);
      }
    }
  }

  // The fallback on a mapped page: its chunk's counter ends one above its number of zero bits.
  lemma FallbackCorruptsCounter(st: Sched, page: nat)
    requires Covered(st) && page in st.index && !RoomFor(st, page % 2, page)
    ensures !Covered(SchedulerWrite(st, page).st)
  {
    var node := page % 2;
    AddWithoutRoom(st, node, page, NO_FLAGS);
    FallbackCanAdd(st, page);
    ReleaseOldEffect(st, page);
    var l := st.index[page];
    if l.node == node {
      SameNodeNeverHigher(st, page);
      assert false;
    }
    var once := ReleaseOld(st, page);
    assert !Taken(once, l);
    DoubleRelease(once.nodes[l.node], l.slot);
    assert !Exact(SchedulerWrite(st, page).st.nodes[l.node][l.slot / CHUNK_PAGES]);
  }

  // A state that takes the fallback: node 0 full of bits that no entry names, and `owner` on the first
  // frame of node 1.
  function FullChunk(): Chunk {
    Chunk(seq(CHUNK_PAGES, _ => true), 0)
  }

  function FullNode(): Node {
    seq(NR_CHUNKS, _ => FullChunk())
  }

  function Leaked(owner: nat): Sched {
    Sched([FullNode(), ClaimAt(EmptyNode(), 0)], map[owner := Loc(1, 0)])
  }

  lemma FullChunkIsFull()
    ensures Exact(FullChunk())
  {
    ClearZero(FullChunk().bits);
  }

  lemma FullNodeIsFull()
    ensures Shape(FullNode()) && Truthful(FullNode()) && forall s :: 0 <= s < NR_PAGES ==> Bit(FullNode(), s)
  {
    FullChunkIsFull();
  }

  lemma OneTaken()
    ensures var node := ClaimAt(EmptyNode(), 0);
            Shape(node) && Truthful(node) && forall s :: 0 <= s < NR_PAGES ==> (Bit(node, s) <==> s == 0)
  {
    InitInv();
    assert forall s :: 0 <= s < NR_PAGES ==> !Taken(Init(), Loc(1, s));
    ClaimOne(EmptyNode(), 0);
  }

  lemma LeakedIsCovered(owner: nat)
    requires owner < NR_PAGES
    ensures Covered(Leaked(owner)) && !RoomFor(Leaked(owner), 0, 0)
  {
    FullNodeIsFull();
    OneTaken();
    assert Taken(Leaked(owner), Loc(1, 0));
    ReleaseOldEffect(Leaked(owner), 0);
    assert ReleaseOld(Leaked(owner), 0).nodes[0] == FullNode();
  }

  // The fallback on page 0, mapped, corrupts a counter; on page 0, not mapped, it sends the page to
  // the frame of page 1.
  lemma LeakedFallsBack()
    ensures Covered(Leaked(0)) && !Covered(SchedulerWrite(Leaked(0), 0).st)
    ensures Covered(Leaked(1)) && SchedulerRead(Leaked(1), 1) == Some(Loc(1, 0))
    ensures SchedulerWrite(Leaked(1), 0).node == 1 && SchedulerWrite(Leaked(1), 0).offset == 0
  {
    LeakedIsCovered(0);
    FallbackCorruptsCounter(Leaked(0), 0);
    LeakedIsCovered(1);
    SchedulerWriteExact(Leaked(1), 0);
  }

  // Releasing a clear bit leaves its chunk's counter one too high, and choosing a slot on the node
  // afterwards does not repair it.
  lemma DoubleRelease(node: Node, slot: nat)
    requires Shape(node) && Truthful(node) && slot < NR_PAGES && !Bit(node, slot)
    ensures SoundNode(ReleaseSlot(node, slot)) ==>
              !Exact(SelectSlot(ReleaseSlot(node, slot)).node[slot / CHUNK_PAGES])
    ensures !Exact(ReleaseSlot(node, slot)[slot / CHUNK_PAGES])
  {
    var k := slot / CHUNK_PAGES;
    var twice := ReleaseSlot(node, slot);
    var c := twice[k];
    assert c.bits == node[k].bits && c.free == Clear(c.bits) + 1;
    var z := FirstZero(c.bits);
    if z < |c.bits| {
      ClearUpdate(c.bits, z, true);
    }
    if SoundNode(twice) {
      var after := SelectSlot(twice).node[k];
      assert after == c || after == Claim(c);
    }
  }

  // ---------- conservation ----------

  ghost function Held(st: Sched, node: nat): set<Loc>
    requires WellFormed(st) && node < 2
  {
    Image(UsedBelow(st.nodes[node], NR_CHUNKS), s => Loc(node, s))
  }

  lemma HeldCount(st: Sched, node: nat)
    requires Inv(st) && node < 2
    ensures |Held(st, node)| + FreeBelow(st.nodes[node], NR_CHUNKS) == NR_PAGES
  {
    FreeIsClear(st.nodes[node], NR_CHUNKS);
    UsedBelowCount(st.nodes[node], NR_CHUNKS);
    ImageCount(UsedBelow(st.nodes[node], NR_CHUNKS), s => Loc(node, s));
  }

  lemma HeldIsIndexed(st: Sched)
    requires Inv(st)
    ensures st.index.Values == Held(st, 0) + Held(st, 1)
  {
    forall l: Loc
      ensures l in st.index.Values <==> l in Held(st, 0) + Held(st, 1)
    {
      if l in st.index.Values {
        assert Taken(st, l);
        assert l.slot in UsedBelow(st.nodes[l.node], NR_CHUNKS);
        assert l in Held(st, l.node);
      }
      if l in Held(st, 0) + Held(st, 1) {
        assert Taken(st, l);
      }
    }
  }

  // No page is lost: the free counters of both nodes and the mapped pages always add up to the
  // capacity of both nodes.
  lemma Conservation(st: Sched)
    requires Inv(st)
    ensures FreeBelow(st.nodes[0], NR_CHUNKS) + FreeBelow(st.nodes[1], NR_CHUNKS) + |st.index| == 2 * NR_PAGES
  {
    HeldCount(st, 0);
    HeldCount(st, 1);
    HeldIsIndexed(st);
    assert Held(st, 0) !! Held(st, 1);
    var f := p => if p in st.index then st.index[p] else Loc(0, 0);
    ImageCount(st.index.Keys, f);
    assert Image(st.index.Keys, f) == st.index.Values;
  }
}

// Stores and loads of distinct pages interleaved step by step: each lock section of
// remote_schedule.c, each xarray access and each finished remote transfer is one step, and any
// number of calls may be in progress.
module ConcurrentStore {
  import opened Layout
  import opened Bitmap
  import opened Counting
  import opened SchedulerModel
  import opened FirstStoreRank

  datatype Phase =
    | Lookup                // sswap_store: before xa_load
    | Releasing(from: Loc)  // before the lock section that clears the old bit
    | Scanning(at: nat)     // before the lock section of chunk `at`
    | Indexing(slot: nat)   // slot claimed, before xa_store
    | Writing(slot: nat)    // index written, before the remote write completes
    | Reading               // sswap_load: before xa_load
    | Fetching(from: Loc)   // before the remote read completes

  datatype Task = Task(phase: Phase, data: Page)

  // tasks: the calls in progress, keyed by the page they hold locked.
  // The last four fields are history that no step reads:
  // held: the slot each page has a bit for; owner: the page behind each bit;
  // kept: contents of the last completed store of each page;
  // reach: for each node the highest chunk number any walk has come to.
  datatype State = State(
    nodes: seq<Node>, index: map<nat, Loc>, mem: map<Loc, Page>, tasks: map<nat, Task>,
    held: map<nat, nat>, owner: map<Loc, nat>, kept: map<nat, Page>, reach: seq<nat>)

  const INITIAL := State([EmptyNode(), EmptyNode()], map[], map[], map[], map[], map[], map[], [0, 0])

  datatype Event =
    | BeginStore(page: nat, data: Page)
    | BeginLoad(page: nat)
    | Advance(page: nat)

  // ---------- the invariant ----------

  predicate Fixed(s: State) {
    |s.nodes| == 2 && |s.reach| == 2 && Shape(s.nodes[0]) && Shape(s.nodes[1])
  }

  ghost predicate NodesOk(s: State) {
    && Fixed(s)
    && Truthful(s.nodes[0]) && Truthful(s.nodes[1])
    && s.reach[0] <= NR_CHUNKS && s.reach[1] <= NR_CHUNKS
  }

  // Each held slot names its page and each owned slot names its holder; held slots are in the lower
  // half of the node of the page's parity.
  ghost predicate Inverse(held: map<nat, nat>, owner: map<Loc, nat>) {
    && (forall p :: p in held ==>
          p < NR_PAGES && held[p] < NR_PAGES / 2
          && Loc(p % 2, held[p]) in owner && owner[Loc(p % 2, held[p])] == p)
    && (forall l: Loc :: l in owner ==>
          l.node < 2 && l.slot < NR_PAGES
          && owner[l] in held && owner[l] % 2 == l.node && held[owner[l]] == l.slot)
  }

  ghost predicate BitsOwned(nodes: seq<Node>, owner: map<Loc, nat>)
    requires |nodes| == 2 && Shape(nodes[0]) && Shape(nodes[1])
  {
    forall t, k :: 0 <= t < 2 && 0 <= k < NR_PAGES ==> (Bit(nodes[t], k) <==> Loc(t, k) in owner)
  }

  // Every set bit belongs to exactly one page.
  ghost predicate OwnersOk(s: State)
    requires Fixed(s)
  {
    Inverse(s.held, s.owner) && BitsOwned(s.nodes, s.owner)
  }

  // A page no store is moving: its index entry names the slot it holds, and that slot has its
  // last stored contents.
  ghost predicate Settled(s: State, p: nat) {
    && (p in s.index <==> p in s.held)
    && (p in s.index ==> s.index[p] == Loc(p % 2, s.held[p]))
    && (p in s.kept ==> p in s.index && s.index[p] in s.mem && s.mem[s.index[p]] == s.kept[p])
  }

  ghost predicate TaskOk(s: State, p: nat, phase: Phase)
    requires |s.reach| == 2
  {
    && p < NR_PAGES
    && match phase
       case Lookup => Settled(s, p)
       case Releasing(l) => Settled(s, p) && p in s.index && l == s.index[p]
       case Scanning(i) => p !in s.held && i <= s.reach[p % 2]
       case Indexing(k) => p in s.held && s.held[p] == k
       case Writing(k) => p in s.held && s.held[p] == k && p in s.index && s.index[p] == Loc(p % 2, k)
       case Reading => Settled(s, p) && p in s.kept
       case Fetching(l) => Settled(s, p) && p in s.kept && l == s.index[p]
  }

  ghost predicate TasksOk(s: State)
    requires |s.reach| == 2
  {
    && (forall p :: p in s.tasks ==> TaskOk(s, p, s.tasks[p].phase))
    && (forall p :: p !in s.tasks ==> Settled(s, p))
  }

  // Stores walking node t that have not yet come to chunk i.
  ghost function Waiting(s: State, t: nat, i: nat): set<nat> {
    set p | p in s.tasks && p % 2 == t && s.tasks[p].phase.Scanning? && s.tasks[p].phase.at < i
  }

  // Below any chunk a walk has come to, there are never more clear bits than stores that still
  // have to walk there.
  ghost predicate FrontierOk(s: State)
    requires NodesOk(s)
  {
    forall t, i :: 0 <= t < 2 && 0 <= i <= s.reach[t] ==>
      ClearBelow(s.nodes[t], i) <= |Waiting(s, t, i)|
  }

  ghost predicate Inv(s: State) {
    NodesOk(s) && OwnersOk(s) && TasksOk(s) && FrontierOk(s)
  }

  // ---------- the counting argument ----------

  // Pages holding a slot of node t in its first i chunks.
  ghost function Lodgers(s: State, t: nat, i: nat): set<nat> {
    set p | p in s.held && p % 2 == t && s.held[p] < i * CHUNK_PAGES
  }

  lemma LodgerCount(s: State, t: nat, i: nat)
    requires NodesOk(s) && OwnersOk(s) && t < 2 && i <= NR_CHUNKS
    ensures |Lodgers(s, t, i)| + ClearBelow(s.nodes[t], i) == i * CHUNK_PAGES
  {
    var used := UsedBelow(s.nodes[t], i);
    UsedBelowCount(s.nodes[t], i);
    var f := (k: nat) => if Loc(t, k) in s.owner then s.owner[Loc(t, k)] else 0;
    ImageCount(used, f);
    forall p
      ensures p in Image(used, f) <==> p in Lodgers(s, t, i)
    {
      if p in Lodgers(s, t, i) {
        assert Loc(t, s.held[p]) in s.owner;
        assert s.held[p] in used && f(s.held[p]) == p;
      }
    }
    assert Image(used, f) == Lodgers(s, t, i);
  }

  // Waiting pages hold no slot, so together with the lodgers and one more page of the parity they
  // fill at most half of the swap area.
  lemma WalkersFit(s: State, t: nat, i: nat, p: nat)
    requires |s.reach| == 2 && TasksOk(s) && Inverse(s.held, s.owner)
    requires p in s.tasks && s.tasks[p].phase == Scanning(i) && t == p % 2
    ensures |Lodgers(s, t, i)| + |Waiting(s, t, i)| < NR_PAGES / 2
  {
    assert TaskOk(s, p, s.tasks[p].phase);
    var lodgers, waiting := Lodgers(s, t, i), Waiting(s, t, i);
    forall q | q in waiting
      ensures q !in lodgers && q < NR_PAGES
    {
      assert TaskOk(s, q, s.tasks[q].phase);
    }
    DisjointCount(lodgers, waiting, p);
    ParityCount(lodgers + waiting + {p}, t);
  }

  // A walk never comes to the upper half of a node: the chunks it has passed would need more pages
  // of this parity than exist.
  lemma WalkStaysLow(s: State, p: nat)
    requires Inv(s) && p in s.tasks && s.tasks[p].phase.Scanning?
    ensures s.tasks[p].phase.at * CHUNK_PAGES < NR_PAGES / 2
  {
    var t, i := p % 2, s.tasks[p].phase.at;
    assert TaskOk(s, p, s.tasks[p].phase);
    LodgerCount(s, t, i);
    WalkersFit(s, t, i, p);
    assert ClearBelow(s.nodes[t], i) <= |Waiting(s, t, i)|;
  }

  lemma DisjointCount(a: set<nat>, b: set<nat>, x: nat)
    requires a !! b && x !in a && x !in b
    ensures |a + b + {x}| == |a| + |b| + 1
  {
  }

  // ---------- the steps ----------

  function To(s: State, p: nat, phase: Phase): State
    requires p in s.tasks
  {
    s.(tasks := s.tasks[p := s.tasks[p].(phase := phase)])
  }

  function LookupStep(s: State, p: nat): State
    requires p in s.tasks
  {
    To(s, p, if p in s.index then Releasing(s.index[p]) else Scanning(0))
  }

  // One lock section: clear the bit, raise the counter.
  function ReleaseStep(s: State, p: nat, l: Loc): State
    requires p in s.tasks && Fixed(s) && l.node < 2 && l.slot < NR_PAGES
  {
    To(s.(nodes := s.nodes[l.node := ReleaseSlot(s.nodes[l.node], l.slot)],
          held := s.held - {p}, owner := s.owner - {l}),
       p, Scanning(0))
  }

  // One lock section on a chunk with a nonzero counter: claim its first zero bit.
  function ClaimStep(s: State, p: nat, i: nat): State
    requires p in s.tasks && Fixed(s) && i < NR_CHUNKS
  {
    var t := p % 2;
    var k := ClaimedSlot(s.nodes[t], i);
    To(s.(nodes := s.nodes[t := ClaimAt(s.nodes[t], i)], held := s.held[p := k], owner := s.owner[Loc(t, k) := p]),
       p, Indexing(k))
  }

  // One lock section on a chunk whose counter is zero: walk on.
  function PassStep(s: State, p: nat, i: nat): State
    requires p in s.tasks && Fixed(s) && i < NR_CHUNKS
  {
    var t := p % 2;
    To(s.(reach := s.reach[t := if s.reach[t] < i + 1 then i + 1 else s.reach[t]]), p, Scanning(i + 1))
  }

  function ScanStep(s: State, p: nat, i: nat): State
    requires p in s.tasks && Fixed(s) && i < NR_CHUNKS
  {
    if s.nodes[p % 2][i].free != 0 then ClaimStep(s, p, i) else PassStep(s, p, i)
  }

  function IndexStep(s: State, p: nat, k: nat): State
    requires p in s.tasks
  {
    To(s.(index := s.index[p := Loc(p % 2, k)]), p, Writing(k))
  }

  function WriteStep(s: State, p: nat, k: nat): State
    requires p in s.tasks
  {
    s.(mem := s.mem[Loc(p % 2, k) := s.tasks[p].data], kept := s.kept[p := s.tasks[p].data], tasks := s.tasks - {p})
  }

  // None where the event is not possible. A walk that has passed the last chunk would report full and
  // has no step here, nor has a call whose frame is out of range: both are shown never to arise.
  function Apply(s: State, e: Event): (r: Option<State>)
    requires Fixed(s)
    ensures r.Some? ==> Fixed(r.value)
  {
    match e
    case BeginStore(p, data) =>
      if p < NR_PAGES && p !in s.tasks then Some(s.(tasks := s.tasks[p := Task(Lookup, data)])) else None
    case BeginLoad(p) =>
      if p in s.kept && p !in s.tasks then Some(s.(tasks := s.tasks[p := Task(Reading, [])])) else None
    case Advance(p) =>
      if p !in s.tasks then None
      else
        match s.tasks[p].phase
        case Lookup => Some(LookupStep(s, p))
        case Releasing(l) => if l.node < 2 && l.slot < NR_PAGES then Some(ReleaseStep(s, p, l)) else None
        case Scanning(i) => if i < NR_CHUNKS then Some(ScanStep(s, p, i)) else None
        case Indexing(k) => Some(IndexStep(s, p, k))
        case Writing(k) => Some(WriteStep(s, p, k))
        case Reading => if p in s.index then Some(To(s, p, Fetching(s.index[p]))) else None
        case Fetching(_) => Some(s.(tasks := s.tasks - {p}))
  }

  // ---------- every step keeps the invariant ----------

  lemma InitialInv()
    ensures Inv(INITIAL)
  {
    InitInv();
    var s := INITIAL;
    forall t, k | 0 <= t < 2 && 0 <= k < NR_PAGES
      ensures !Bit(s.nodes[t], k)
    {
      assert !Taken(Init(), Loc(t, k));
    }
  }

  // A step that touches only tasks, and no walk, keeps the frontier.
  lemma SameWalks(s: State, s': State)
    requires Inv(s) && NodesOk(s') && s'.nodes == s.nodes && s'.reach == s.reach
    requires forall t, i :: Waiting(s, t, i) <= Waiting(s', t, i)
    ensures FrontierOk(s')
  {
    forall t, i | 0 <= t < 2 && 0 <= i <= s'.reach[t]
      ensures ClearBelow(s'.nodes[t], i) <= |Waiting(s', t, i)|
    {
      SubsetCount(Waiting(s, t, i), Waiting(s', t, i));
    }
  }

  lemma BeginKeeps(s: State, p: nat, task: Task)
    requires Inv(s) && p !in s.tasks && p < NR_PAGES
    requires task.phase == Lookup || (task.phase == Reading && p in s.kept)
    ensures Inv(s.(tasks := s.tasks[p := task]))
  {
    var s' := s.(tasks := s.tasks[p := task]);
    SameWalks(s, s');
    forall q | q in s'.tasks
      ensures TaskOk(s', q, s'.tasks[q].phase)
    {
      if q != p {
        assert TaskOk(s, q, s.tasks[q].phase);
      }
    }
  }

  lemma LookupKeeps(s: State, p: nat)
    requires Inv(s) && p in s.tasks && s.tasks[p].phase == Lookup
    ensures Inv(LookupStep(s, p))
  {
    var s' := LookupStep(s, p);
    assert TaskOk(s, p, Lookup);
    SameWalks(s, s');
    forall q | q in s'.tasks
      ensures TaskOk(s', q, s'.tasks[q].phase)
    {
      if q != p {
        assert TaskOk(s, q, s.tasks[q].phase);
      }
    }
  }

  lemma ReleaseFrontier(s: State, p: nat, l: Loc)
    requires Inv(s) && p in s.tasks && s.tasks[p].phase == Releasing(l)
    requires l.node == p % 2 && l.slot < NR_PAGES && Bit(s.nodes[l.node], l.slot) && NodesOk(ReleaseStep(s, p, l))
    ensures FrontierOk(ReleaseStep(s, p, l))
  {
    var s' := ReleaseStep(s, p, l);
    forall t, i | 0 <= t < 2 && 0 <= i <= s'.reach[t]
      ensures ClearBelow(s'.nodes[t], i) <= |Waiting(s', t, i)|
    {
      var before, after := Waiting(s, t, i), Waiting(s', t, i);
      if t == l.node {
        ReleaseClears(s.nodes[t], l.slot, i);
        assert after == if i > 0 then before + {p} else before;
        assert p !in before;
      } else {
        assert after == before;
      }
    }
  }

  // Replacing p's entry in held and owner leaves every other page and task as it was.
  ghost predicate OnlyMoves(s: State, s': State, p: nat) {
    && |s.reach| == |s'.reach| == 2
    && s'.index == s.index && s'.mem == s.mem && s'.kept == s.kept
    && p in s.tasks && p in s'.tasks
    && s'.tasks == s.tasks[p := s'.tasks[p]]
    && s.reach[0] <= s'.reach[0] && s.reach[1] <= s'.reach[1]
    && (forall q :: q != p ==> (q in s'.held <==> q in s.held))
    && (forall q :: q != p && q in s.held ==> s'.held[q] == s.held[q])
  }

  lemma TasksFrame(s: State, s': State, p: nat)
    requires |s.reach| == 2 && TasksOk(s) && OnlyMoves(s, s', p) && TaskOk(s', p, s'.tasks[p].phase)
    ensures TasksOk(s')
  {
    forall q | q in s'.tasks
      ensures TaskOk(s', q, s'.tasks[q].phase)
    {
      if q != p {
        assert TaskOk(s, q, s.tasks[q].phase);
        assert s.reach[q % 2] <= s'.reach[q % 2];
      }
    }
  }

  lemma GiveBack(held: map<nat, nat>, owner: map<Loc, nat>, p: nat)
    requires Inverse(held, owner) && p in held
    ensures Inverse(held - {p}, owner - {Loc(p % 2, held[p])})
  {
  }

  lemma TakeUp(held: map<nat, nat>, owner: map<Loc, nat>, p: nat, k: nat)
    requires Inverse(held, owner) && p !in held && p < NR_PAGES && k < NR_PAGES / 2 && Loc(p % 2, k) !in owner
    ensures Inverse(held[p := k], owner[Loc(p % 2, k) := p])
  {
  }

  // One bit and its owner entry change together.
  lemma BitsFollow(nodes: seq<Node>, owner: map<Loc, nat>, nodes': seq<Node>, owner': map<Loc, nat>, l: Loc)
    requires |nodes| == 2 && Shape(nodes[0]) && Shape(nodes[1]) && BitsOwned(nodes, owner)
    requires l.node < 2 && l.slot < NR_PAGES
    requires |nodes'| == 2 && Shape(nodes'[0]) && Shape(nodes'[1]) && nodes' == nodes[l.node := nodes'[l.node]]
    requires forall k :: 0 <= k < NR_PAGES ==>
               (Bit(nodes'[l.node], k) <==> if k == l.slot then l in owner' else Bit(nodes[l.node], k))
    requires forall m: Loc :: m != l ==> (m in owner' <==> m in owner)
    ensures BitsOwned(nodes', owner')
  {
    forall t, k | 0 <= t < 2 && 0 <= k < NR_PAGES
      ensures Bit(nodes'[t], k) <==> Loc(t, k) in owner'
    {
      assert Bit(nodes[t], k) <==> Loc(t, k) in owner;
    }
  }

  lemma ReleaseKeeps(s: State, p: nat, l: Loc)
    requires Inv(s) && p in s.tasks && s.tasks[p].phase == Releasing(l)
    ensures l.node == p % 2 && l.slot < NR_PAGES && Inv(ReleaseStep(s, p, l))
  {
    assert TaskOk(s, p, Releasing(l));
    assert l == Loc(p % 2, s.held[p]) && Bit(s.nodes[p % 2], l.slot);
    var s' := ReleaseStep(s, p, l);
    ReleaseOne(s.nodes[l.node], l.slot);
    GiveBack(s.held, s.owner, p);
    BitsFollow(s.nodes, s.owner, s'.nodes, s'.owner, l);
    ReleaseFrontier(s, p, l);
    TasksFrame(s, s', p);
  }

  lemma ClaimFrontier(s: State, p: nat, i: nat)
    requires NodesOk(s) && FrontierOk(s) && p in s.tasks && s.tasks[p].phase == Scanning(i) && i < NR_CHUNKS
    requires s.nodes[p % 2][i].free != 0 && NodesOk(ClaimStep(s, p, i))
    ensures FrontierOk(ClaimStep(s, p, i))
  {
    var s' := ClaimStep(s, p, i);
    forall t, j | 0 <= t < 2 && 0 <= j <= s'.reach[t]
      ensures ClearBelow(s'.nodes[t], j) <= |Waiting(s', t, j)|
    {
      var before, after := Waiting(s, t, j), Waiting(s', t, j);
      assert ClearBelow(s.nodes[t], j) <= |before|;
      if t == p % 2 {
        ClaimClears(s.nodes[t], i, j);
        assert after == before - {p};
        assert p in before <==> i < j;
      } else {
        assert after == before;
      }
    }
  }

  // Walking past chunk i: everything clear below i + 1 is already below i, and the walks not yet
  // come to i are still there.
  lemma PassFrontier(s: State, p: nat, i: nat)
    requires NodesOk(s) && FrontierOk(s) && p in s.tasks && s.tasks[p].phase == Scanning(i) && i < NR_CHUNKS
    requires s.nodes[p % 2][i].free == 0 && i <= s.reach[p % 2]
    ensures NodesOk(PassStep(s, p, i)) && FrontierOk(PassStep(s, p, i))
  {
    var s' := PassStep(s, p, i);
    forall t, j | 0 <= t < 2 && 0 <= j <= s'.reach[t]
      ensures ClearBelow(s'.nodes[t], j) <= |Waiting(s', t, j)|
    {
      var before, after := Waiting(s, t, j), Waiting(s', t, j);
      if t == p % 2 && j == i + 1 {
        assert ClearBelow(s.nodes[t], j) == ClearBelow(s.nodes[t], i);
        SubsetCount(Waiting(s, t, i), after);
      } else {
        assert after == before;
      }
    }
  }

  lemma ClaimOwners(s: State, p: nat, i: nat)
    requires NodesOk(s) && OwnersOk(s) && p in s.tasks && p !in s.held && p < NR_PAGES && i < NR_CHUNKS / 2
    requires s.nodes[p % 2][i].free != 0
    ensures NodesOk(ClaimStep(s, p, i)) && OwnersOk(ClaimStep(s, p, i))
  {
    var s' := ClaimStep(s, p, i);
    var l := Loc(p % 2, ClaimedSlot(s.nodes[p % 2], i));
    ClaimOne(s.nodes[p % 2], i);
    TakeUp(s.held, s.owner, p, l.slot);
    BitsFollow(s.nodes, s.owner, s'.nodes, s'.owner, l);
  }

  lemma ClaimTasks(s: State, p: nat, i: nat)
    requires NodesOk(s) && TasksOk(s) && p in s.tasks && s.tasks[p].phase == Scanning(i) && i < NR_CHUNKS
    ensures TasksOk(ClaimStep(s, p, i))
  {
    assert TaskOk(s, p, Scanning(i));
    TasksFrame(s, ClaimStep(s, p, i), p);
  }

  lemma ClaimKeeps(s: State, p: nat, i: nat)
    requires Inv(s) && p in s.tasks && s.tasks[p].phase == Scanning(i) && i < NR_CHUNKS / 2
    requires s.nodes[p % 2][i].free != 0
    ensures Inv(ClaimStep(s, p, i))
  {
    assert TaskOk(s, p, Scanning(i));
    ClaimTasks(s, p, i);
    ClaimOwners(s, p, i);
    ClaimFrontier(s, p, i);
  }

  lemma PassKeeps(s: State, p: nat, i: nat)
    requires Inv(s) && p in s.tasks && s.tasks[p].phase == Scanning(i) && i < NR_CHUNKS / 2
    requires s.nodes[p % 2][i].free == 0
    ensures Inv(PassStep(s, p, i))
  {
    assert TaskOk(s, p, Scanning(i));
    PassFrontier(s, p, i);
    TasksFrame(s, PassStep(s, p, i), p);
  }

  lemma ScanKeeps(s: State, p: nat, i: nat)
    requires Inv(s) && p in s.tasks && s.tasks[p].phase == Scanning(i)
    ensures i < NR_CHUNKS / 2 && Inv(ScanStep(s, p, i))
  {
    WalkStaysLow(s, p);
    if s.nodes[p % 2][i].free != 0 {
      ClaimKeeps(s, p, i);
    } else {
      PassKeeps(s, p, i);
    }
  }

  lemma IndexKeeps(s: State, p: nat, k: nat)
    requires Inv(s) && p in s.tasks && s.tasks[p].phase == Indexing(k)
    ensures Inv(IndexStep(s, p, k))
  {
    var s' := IndexStep(s, p, k);
    assert TaskOk(s, p, Indexing(k));
    SameWalks(s, s');
    forall q | q in s'.tasks
      ensures TaskOk(s', q, s'.tasks[q].phase)
    {
      if q != p {
        assert TaskOk(s, q, s.tasks[q].phase);
      }
    }
  }

  lemma WriteKeeps(s: State, p: nat, k: nat)
    requires Inv(s) && p in s.tasks && s.tasks[p].phase == Writing(k)
    ensures Inv(WriteStep(s, p, k))
  {
    var s' := WriteStep(s, p, k);
    assert TaskOk(s, p, Writing(k));
    SameWalks(s, s');
    forall q | q != p
      ensures Settled(s, q) ==> Settled(s', q)
    {
      if Settled(s, q) && q in s.index {
        assert s.owner[s.index[q]] == q && s.owner[Loc(p % 2, k)] == p;
      }
    }
    forall q | q in s'.tasks
      ensures TaskOk(s', q, s'.tasks[q].phase)
    {
      assert TaskOk(s, q, s.tasks[q].phase);
    }
  }

  lemma LoadKeeps(s: State, p: nat)
    requires Inv(s) && p in s.tasks
    ensures s.tasks[p].phase == Reading ==> p in s.index && Inv(To(s, p, Fetching(s.index[p])))
    ensures s.tasks[p].phase.Fetching? ==> Inv(s.(tasks := s.tasks - {p}))
  {
    assert TaskOk(s, p, s.tasks[p].phase);
    var s' := if s.tasks[p].phase == Reading then To(s, p, Fetching(s.index[p])) else s.(tasks := s.tasks - {p});
    if s.tasks[p].phase == Reading || s.tasks[p].phase.Fetching? {
      SameWalks(s, s');
      forall q | q in s'.tasks
        ensures TaskOk(s', q, s'.tasks[q].phase)
      {
        if q != p {
          assert TaskOk(s, q, s.tasks[q].phase);
        }
      }
    }
  }

  lemma AdvanceKeeps(s: State, p: nat)
    requires Inv(s) && Apply(s, Advance(p)).Some?
    ensures Inv(Apply(s, Advance(p)).value)
  {
    match s.tasks[p].phase
    case Lookup => LookupKeeps(s, p);
    case Releasing(l) => ReleaseKeeps(s, p, l);
    case Scanning(i) => ScanKeeps(s, p, i);
    case Indexing(k) => IndexKeeps(s, p, k);
    case Writing(k) => WriteKeeps(s, p, k);
    case Reading => LoadKeeps(s, p);
    case Fetching(_) => LoadKeeps(s, p);
  }

  lemma ApplyKeeps(s: State, e: Event)
    requires Inv(s)
    ensures Apply(s, e).Some? ==> Inv(Apply(s, e).value)
  {
    if Apply(s, e).Some? {
      match e
      case BeginStore(p, data) => BeginKeeps(s, p, Task(Lookup, data));
      case BeginLoad(p) => BeginKeeps(s, p, Task(Reading, []));
      case Advance(p) => AdvanceKeeps(s, p);
    }
  }

  // ---------- every run ----------

  function Run(es: seq<Event>): (r: Option<State>)
    ensures r.Some? ==> Fixed(r.value)
  {
    if es == [] then Some(INITIAL)
    else
      var before := Run(es[..|es| - 1]);
      if before.None? then None else Apply(before.value, es[|es| - 1])
  }

  lemma {:induction false} RunInv(es: seq<Event>)
    requires Run(es).Some?
    ensures Inv(Run(es).value)
  {
    if es == [] {
      InitialInv();
    } else {
      RunInv(es[..|es| - 1]);
      ApplyKeeps(Run(es[..|es| - 1]).value, es[|es| - 1]);
    }
  }

  // In every run no walk comes to the upper half of a node: the full report and the fallback of
  // sswap_scheduler_write are unreachable, and a call in progress always has a next step.
  lemma NeverFull(es: seq<Event>, p: nat)
    requires Run(es).Some? && p in Run(es).value.tasks
    ensures var s := Run(es).value;
            && (s.tasks[p].phase.Scanning? ==> s.tasks[p].phase.at < NR_CHUNKS / 2)
            && Apply(s, Advance(p)).Some?
  {
    RunInv(es);
    var s := Run(es).value;
    assert TaskOk(s, p, s.tasks[p].phase);
    if s.tasks[p].phase.Scanning? {
      WalkStaysLow(s, p);
    }
  }

  // An upper bound on the steps a call still takes.
  function StepsLeft(phase: Phase): int {
    match phase
    case Lookup => NR_CHUNKS / 2 + 4
    case Releasing(_) => NR_CHUNKS / 2 + 3
    case Scanning(i) => NR_CHUNKS / 2 + 2 - i
    case Indexing(_) => 2
    case Writing(_) => 1
    case Reading => 2
    case Fetching(_) => 1
  }

  // One event changes the call in progress and the kept contents of its own page only.
  ghost predicate SameFor(s: State, s': State, q: nat) {
    && (q in s'.tasks <==> q in s.tasks) && (q in s.tasks ==> s'.tasks[q] == s.tasks[q])
    && (q in s'.kept <==> q in s.kept) && (q in s.kept ==> s'.kept[q] == s.kept[q])
  }

  lemma OtherStaysOnWalk(s: State, p: nat, i: nat, q: nat)
    requires Fixed(s) && p in s.tasks && s.tasks[p].phase == Scanning(i) && i < NR_CHUNKS && q != p
    ensures SameFor(s, ScanStep(s, p, i), q)
  {
  }

  lemma OtherTasksStay(s: State, e: Event, q: nat)
    requires Fixed(s) && Apply(s, e).Some? && q != e.page
    ensures SameFor(s, Apply(s, e).value, q)
  {
    if e.Advance? {
      var p := e.page;
      var s' := Apply(s, e).value;
      match s.tasks[p].phase
      case Lookup => assert s' == LookupStep(s, p);
      case Releasing(l) => assert s' == ReleaseStep(s, p, l);
      case Scanning(i) => OtherStaysOnWalk(s, p, i, q);
      case Indexing(k) => assert s' == IndexStep(s, p, k);
      case Writing(k) => assert s' == WriteStep(s, p, k);
      case Reading =>
      case Fetching(_) =>
    }
  }

  // What a call's own step does to its task.
  ghost predicate Continues(s: State, s': State, p: nat)
    requires p in s.tasks
  {
    var phase := s.tasks[p].phase;
    if phase.Writing? then
      p !in s'.tasks && s'.kept == s.kept[p := s.tasks[p].data]
    else if phase.Fetching? then
      p !in s'.tasks && s'.kept == s.kept
    else
      && p in s'.tasks && s'.tasks[p].data == s.tasks[p].data && s'.kept == s.kept
      && IsLoad(s'.tasks[p].phase) == IsLoad(phase)
      && ((phase.Scanning? ==> phase.at < NR_CHUNKS / 2) ==> StepsLeft(s'.tasks[p].phase) < StepsLeft(phase))
  }

  lemma OwnWalk(s: State, p: nat)
    requires Fixed(s) && p in s.tasks && s.tasks[p].phase.Scanning? && Apply(s, Advance(p)).Some?
    ensures Continues(s, Apply(s, Advance(p)).value, p)
  {
    assert Apply(s, Advance(p)).value == ScanStep(s, p, s.tasks[p].phase.at);
  }

  lemma OwnTransfer(s: State, p: nat)
    requires Fixed(s) && p in s.tasks && Target(p, s.tasks[p].phase).Some? && Apply(s, Advance(p)).Some?
    ensures Continues(s, Apply(s, Advance(p)).value, p)
  {
  }

  lemma OwnStep(s: State, p: nat)
    requires Fixed(s) && p in s.tasks && Apply(s, Advance(p)).Some?
    ensures Continues(s, Apply(s, Advance(p)).value, p)
  {
    match s.tasks[p].phase
    case Lookup => assert Apply(s, Advance(p)).value == LookupStep(s, p);
    case Releasing(l) => assert Apply(s, Advance(p)).value == ReleaseStep(s, p, l);
    case Scanning(_) => OwnWalk(s, p);
    case Indexing(k) => assert Apply(s, Advance(p)).value == IndexStep(s, p, k);
    case Writing(_) => OwnTransfer(s, p);
    case Reading =>
    case Fetching(_) => OwnTransfer(s, p);
  }

  // No call waits for another: each of its own steps brings it closer to its end, and steps of
  // other calls leave it where it is.
  lemma EveryStepProgresses(es: seq<Event>, p: nat, e: Event)
    requires Run(es).Some? && p in Run(es).value.tasks && Apply(Run(es).value, e).Some?
    ensures var s, s' := Run(es).value, Apply(Run(es).value, e).value;
            && StepsLeft(s.tasks[p].phase) > 0
            && (e != Advance(p) ==> p in s'.tasks && s'.tasks[p] == s.tasks[p])
            && (e == Advance(p) && p in s'.tasks ==> StepsLeft(s'.tasks[p].phase) < StepsLeft(s.tasks[p].phase))
  {
    NeverFull(es, p);
    var s := Run(es).value;
    if e == Advance(p) {
      OwnStep(s, p);
    } else {
      assert p != e.page;
      OtherTasksStay(s, e, p);
    }
  }

  // In every run the counters tell the truth and every set bit is held by a page of its node's
  // parity; no two pages hold the same slot.
  lemma FramesAreOwned(es: seq<Event>)
    requires Run(es).Some?
    ensures var s := Run(es).value;
            && Truthful(s.nodes[0]) && Truthful(s.nodes[1])
            && (forall t, k :: 0 <= t < 2 && 0 <= k < NR_PAGES && Bit(s.nodes[t], k) ==>
                  exists p :: p in s.held && Loc(p % 2, s.held[p]) == Loc(t, k))
            && (forall p, q :: p in s.held && q in s.held && Loc(p % 2, s.held[p]) == Loc(q % 2, s.held[q]) ==> p == q)
  {
    RunInv(es);
    Holders(Run(es).value);
  }

  lemma Holders(s: State)
    requires NodesOk(s) && OwnersOk(s)
    ensures forall t, k :: 0 <= t < 2 && 0 <= k < NR_PAGES && Bit(s.nodes[t], k) ==>
              exists p :: p in s.held && Loc(p % 2, s.held[p]) == Loc(t, k)
    ensures forall p, q :: p in s.held && q in s.held && Loc(p % 2, s.held[p]) == Loc(q % 2, s.held[q]) ==> p == q
  {
    forall t, k | 0 <= t < 2 && 0 <= k < NR_PAGES && Bit(s.nodes[t], k)
      ensures exists p :: p in s.held && Loc(p % 2, s.held[p]) == Loc(t, k)
    {
      assert s.owner[Loc(t, k)] in s.held;
    }
  }

  // In every run two pages that no store is moving never share a frame.
  lemma SettledPagesNeverShare(es: seq<Event>, p: nat, q: nat)
    requires Run(es).Some? && p != q
    requires p in Run(es).value.index && p !in Run(es).value.tasks
    requires q in Run(es).value.index && q !in Run(es).value.tasks
    ensures Run(es).value.index[p] != Run(es).value.index[q]
  {
    RunInv(es);
    var s := Run(es).value;
    assert Settled(s, p) && Settled(s, q);
  }

  // The frame a remote transfer in progress addresses.
  function Target(page: nat, phase: Phase): Option<Loc> {
    match phase
    case Writing(k) => Some(Loc(page % 2, k))
    case Fetching(l) => Some(l)
    case _ => None
  }

  // In every run two transfers in progress, of any kind, are of different frames.
  lemma TransfersApart(es: seq<Event>, p: nat, q: nat)
    requires Run(es).Some? && p != q && p in Run(es).value.tasks && q in Run(es).value.tasks
    requires Target(p, Run(es).value.tasks[p].phase).Some? && Target(q, Run(es).value.tasks[q].phase).Some?
    ensures Target(p, Run(es).value.tasks[p].phase) != Target(q, Run(es).value.tasks[q].phase)
  {
    RunInv(es);
    var s := Run(es).value;
    assert TaskOk(s, p, s.tasks[p].phase) && TaskOk(s, q, s.tasks[q].phase);
  }

  // In every run each remote access lies inside the server's buffer.
  lemma AccessesFitServer(es: seq<Event>, p: nat)
    requires Run(es).Some? && p in Run(es).value.tasks
    requires Target(p, Run(es).value.tasks[p].phase).Some?
    ensures var l := Target(p, Run(es).value.tasks[p].phase).value;
            l.node < 2 && l.slot * PAGE_SIZE + PAGE_SIZE <= SERVER_BUF_SIZE
  {
    RunInv(es);
    var s := Run(es).value;
    assert TaskOk(s, p, s.tasks[p].phase);
  }

  // Contents given to the most recent store of a page.
  function LastStore(es: seq<Event>, p: nat): Option<Page> {
    if es == [] then None
    else
      var e := es[|es| - 1];
      if e.BeginStore? && e.page == p then Some(e.data) else LastStore(es[..|es| - 1], p)
  }

  predicate IsLoad(phase: Phase) {
    phase.Reading? || phase.Fetching?
  }

  // What page p's task and kept contents say when `last` was given to its most recent store.
  ghost predicate Remembers(s: State, p: nat, last: Option<Page>) {
    if p in s.tasks && !IsLoad(s.tasks[p].phase) then last == Some(s.tasks[p].data)
    else last == if p in s.kept then Some(s.kept[p]) else None
  }

  lemma RemembersStep(s: State, e: Event, p: nat, last: Option<Page>)
    requires Fixed(s) && Apply(s, e).Some? && Remembers(s, p, last)
    ensures Remembers(Apply(s, e).value, p, if e.BeginStore? && e.page == p then Some(e.data) else last)
  {
    if e.page != p {
      OtherTasksStay(s, e, p);
    } else if e.Advance? {
      OwnStep(s, p);
    }
  }

  lemma {:induction false} KeptIsLastStore(es: seq<Event>, p: nat)
    requires Run(es).Some?
    ensures Remembers(Run(es).value, p, LastStore(es, p))
  {
    if es != [] {
      var n := |es| - 1;
      KeptIsLastStore(es[..n], p);
      RemembersStep(Run(es[..n]).value, es[n], p, LastStore(es[..n], p));
    }
  }

  // In every run, however stores and loads of other pages interleave, a load reads exactly the
  // contents of the most recent store of its page.
  lemma LoadReturnsLastStore(es: seq<Event>, p: nat)
    requires Run(es).Some? && p in Run(es).value.tasks && Run(es).value.tasks[p].phase.Fetching?
    ensures var s := Run(es).value;
            var l := s.tasks[p].phase.from;
            l in s.mem && LastStore(es, p) == Some(s.mem[l])
  {
    RunInv(es);
    KeptIsLastStore(es, p);
    var s := Run(es).value;
    assert TaskOk(s, p, s.tasks[p].phase);
  }
}

// A store that runs without interference takes exactly the steps of sswap_scheduler_write followed
// by the remote write: the serialised specification is a special case of the interleaved one.
module SerialRefinement {
  import opened Layout
  import opened Bitmap
  import S = SchedulerModel
  import opened ConcurrentStore

  // n steps of page p's call in a row.
  function Advances(s: State, p: nat, n: nat): Option<State>
    requires Fixed(s)
    decreases n
  {
    if n == 0 then Some(s)
    else
      var r := Apply(s, Advance(p));
      if r.None? then None else Advances(r.value, p, n - 1)
  }

  lemma FirstStep(s: State, p: nat, n: nat, s': State, end: State)
    requires Fixed(s) && Apply(s, Advance(p)) == Some(s') && Fixed(s') && Advances(s', p, n) == Some(end)
    ensures Advances(s, p, n + 1) == Some(end)
  {
  }

  lemma {:induction false} AdvancesAdd(s: State, p: nat, m: nat, mid: State, n: nat, end: State)
    requires Fixed(s) && Advances(s, p, m) == Some(mid)
    requires Fixed(mid) && Advances(mid, p, n) == Some(end)
    ensures Advances(s, p, m + n) == Some(end)
    decreases m
  {
    if m > 0 {
      AdvancesAdd(Apply(s, Advance(p)).value, p, m - 1, mid, n, end);
    }
  }

  // The allocator part of a state.
  function Allocator(s: State): S.Sched {
    S.Sched(s.nodes, s.index)
  }

  lemma QuietAllocator(s: State)
    requires Inv(s) && s.tasks == map[]
    ensures S.Inv(Allocator(s))
  {
    var st := Allocator(s);
    forall p | p in s.index
      ensures Settled(s, p) && p in s.held && s.index[p] in s.owner && s.owner[s.index[p]] == p
    {
    }
    forall l: Loc | l.node < 2 && l.slot < NR_PAGES
      ensures S.Taken(st, l) <==> l in st.index.Values
    {
      assert Bit(s.nodes[l.node], l.slot) <==> Loc(l.node, l.slot) in s.owner;
      if l in s.owner {
        assert Settled(s, s.owner[l]);
        assert s.index[s.owner[l]] == l;
      }
    }
  }

  // A walk that found its chunk: the chunk's first zero bit is claimed and nothing else happened.
  ghost predicate WalkEnd(s: State, p: nat, i: nat, data: Page, end: State)
    requires Fixed(s) && i <= NR_CHUNKS
  {
    var node := s.nodes[p % 2];
    var j := FirstFree(node, i);
    && j < NR_CHUNKS
    && end.nodes == s.nodes[p % 2 := ClaimAt(node, j)]
    && end.index == s.index && end.mem == s.mem
    && end.tasks == map[p := Task(Indexing(ClaimedSlot(node, j)), data)]
  }

  lemma PassEnd(s: State, p: nat, i: nat, data: Page, end: State)
    requires Fixed(s) && s.tasks == map[p := Task(Scanning(i), data)] && i < NR_CHUNKS
    requires s.nodes[p % 2][i].free == 0
    requires WalkEnd(PassStep(s, p, i), p, i + 1, data, end)
    ensures WalkEnd(s, p, i, data, end)
  {
  }

  lemma ClaimEnd(s: State, p: nat, i: nat, data: Page)
    requires Fixed(s) && s.tasks == map[p := Task(Scanning(i), data)] && i < NR_CHUNKS
    requires s.nodes[p % 2][i].free != 0
    ensures WalkEnd(s, p, i, data, ClaimStep(s, p, i))
  {
  }

  lemma ScanApplies(s: State, p: nat, i: nat)
    requires Fixed(s) && p in s.tasks && s.tasks[p].phase == Scanning(i) && i < NR_CHUNKS
    ensures Apply(s, Advance(p)) == Some(ScanStep(s, p, i))
  {
  }

  // The walk of a call that runs alone ends at the first chunk with a nonzero counter.
  lemma {:induction false} WalkAlone(s: State, p: nat, i: nat, data: Page) returns (n: nat, end: State)
    requires Inv(s) && s.tasks == map[p := Task(Scanning(i), data)]
    ensures i <= NR_CHUNKS && WalkEnd(s, p, i, data, end)
    ensures Fixed(end) && Advances(s, p, n) == Some(end)
    decreases NR_CHUNKS - i
  {
    ScanKeeps(s, p, i);
    ScanApplies(s, p, i);
    if s.nodes[p % 2][i].free != 0 {
      n, end := 1, ClaimStep(s, p, i);
      ClaimEnd(s, p, i, data);
      FirstStep(s, p, 0, end, end);
    } else {
      n, end := WalkAlone(PassStep(s, p, i), p, i + 1, data);
      PassEnd(s, p, i, data, end);
      FirstStep(s, p, n, PassStep(s, p, i), end);
      n := n + 1;
    }
  }

  // The steps from Lookup to the start of the walk give back the old slot.
  ghost predicate Started(s: State, p: nat, data: Page, end: State)
    requires S.WellFormed(Allocator(s))
  {
    && end.nodes == S.ReleaseOld(Allocator(s), p).nodes
    && end.index == s.index && end.mem == s.mem
    && end.tasks == map[p := Task(Scanning(0), data)]
  }

  lemma ReleaseStarts(s: State, p: nat, data: Page)
    requires Fixed(s) && p in s.index && s.tasks == map[p := Task(Releasing(s.index[p]), data)]
    requires S.WellFormed(Allocator(s))
    ensures Fixed(ReleaseStep(s, p, s.index[p])) && Started(s, p, data, ReleaseStep(s, p, s.index[p]))
    ensures Advances(s, p, 1) == Some(ReleaseStep(s, p, s.index[p]))
  {
    var end := ReleaseStep(s, p, s.index[p]);
    FirstStep(s, p, 0, end, end);
  }

  lemma LookupAlone(s: State, p: nat, data: Page)
    requires Fixed(s) && s.tasks == map[p := Task(Lookup, data)]
    ensures var s1 := LookupStep(s, p);
            && Apply(s, Advance(p)) == Some(s1) && Fixed(s1)
            && Allocator(s1) == Allocator(s) && s1.mem == s.mem
            && s1.tasks == map[p := Task(if p in s.index then Releasing(s.index[p]) else Scanning(0), data)]
  {
  }

  lemma StartMapped(s: State, p: nat, data: Page) returns (end: State)
    requires Inv(s) && p in s.index && s.tasks == map[p := Task(Lookup, data)]
    requires S.WellFormed(Allocator(s))
    ensures Started(s, p, data, end) && Inv(end) && Advances(s, p, 2) == Some(end)
  {
    LookupKeeps(s, p);
    LookupAlone(s, p, data);
    var s1 := LookupStep(s, p);
    ReleaseKeeps(s1, p, s.index[p]);
    ReleaseStarts(s1, p, data);
    end := ReleaseStep(s1, p, s.index[p]);
    FirstStep(s, p, 1, s1, end);
  }

  lemma StartAlone(s: State, p: nat, data: Page) returns (n: nat, end: State)
    requires Inv(s) && s.tasks == map[p := Task(Lookup, data)]
    requires S.WellFormed(Allocator(s))
    ensures Started(s, p, data, end)
    ensures Inv(end) && Advances(s, p, n) == Some(end)
  {
    if p in s.index {
      n := 2;
      end := StartMapped(s, p, data);
    } else {
      LookupKeeps(s, p);
      LookupAlone(s, p, data);
      n, end := 1, LookupStep(s, p);
      FirstStep(s, p, 0, end, end);
    }
  }

  // The last two steps: index entry, then remote write.
  lemma FinishAlone(s: State, p: nat, k: nat, data: Page) returns (end: State)
    requires Fixed(s) && s.tasks == map[p := Task(Indexing(k), data)]
    ensures Fixed(end) && Advances(s, p, 2) == Some(end)
    ensures end.tasks == map[] && end.nodes == s.nodes
    ensures end.index == s.index[p := Loc(p % 2, k)] && end.mem == s.mem[Loc(p % 2, k) := data]
  {
    var s1 := IndexStep(s, p, k);
    end := WriteStep(s1, p, k);
    FirstStep(s1, p, 0, end, end);
    FirstStep(s, p, 1, s1, end);
  }

  // What SchedulerWrite does when its own node has room, chunk by chunk.
  lemma WriteByChunks(st: S.Sched, page: nat)
    requires S.Inv(st) && page < NR_PAGES
    ensures var node := S.ReleaseOld(st, page).nodes[page % 2];
            var j := FirstFree(node, 0);
            j < NR_CHUNKS ==>
              var w := S.SchedulerWrite(st, page);
              && w.node == page % 2 && w.offset == ClaimedSlot(node, j) * PAGE_SIZE
              && w.st.nodes == S.ReleaseOld(st, page).nodes[page % 2 := ClaimAt(node, j)]
              && w.st.index == st.index[page := Loc(page % 2, ClaimedSlot(node, j))]
  {
    S.AddKeepsCovered(st, page % 2, page);
  }

  // After the index entry and the remote write.
  ghost predicate Finished(s1: State, s2: State, end: State, page: nat, data: Page)
    requires Fixed(s1) && FirstFree(s1.nodes[page % 2], 0) < NR_CHUNKS
  {
    var k := ClaimedSlot(s1.nodes[page % 2], FirstFree(s1.nodes[page % 2], 0));
    && end.tasks == map[]
    && end.nodes == s2.nodes && end.index == s2.index[page := Loc(page % 2, k)]
    && end.mem == s2.mem[Loc(page % 2, k) := data]
  }

  lemma EndIsSchedulerWrite(s: State, s1: State, s2: State, end: State, page: nat, data: Page)
    requires S.Inv(Allocator(s)) && page < NR_PAGES
    requires Fixed(s1) && Started(s, page, data, s1) && WalkEnd(s1, page, 0, data, s2)
    requires Finished(s1, s2, end, page, data)
    ensures var w := S.SchedulerWrite(Allocator(s), page);
            Allocator(end) == w.st && end.mem == s.mem[Loc(w.node, w.offset / PAGE_SIZE) := data]
  {
    WriteByChunks(Allocator(s), page);
  }

  // Left alone, a store ends, with the allocator state of SchedulerWrite and the page's contents in
  // the frame SchedulerWrite returns.
  lemma StoreAlone(s: State, page: nat, data: Page) returns (n: nat, end: State)
    requires Inv(s) && s.tasks == map[] && page < NR_PAGES
    ensures S.Inv(Allocator(s))
    ensures Apply(s, BeginStore(page, data)).Some?
    ensures Advances(Apply(s, BeginStore(page, data)).value, page, n) == Some(end)
    ensures end.tasks == map[]
    ensures var w := S.SchedulerWrite(Allocator(s), page);
            Allocator(end) == w.st && end.mem == s.mem[Loc(w.node, w.offset / PAGE_SIZE) := data]
  {
    QuietAllocator(s);
    BeginKeeps(s, page, Task(Lookup, data));
    n, end := StoreRuns(s.(tasks := s.tasks[page := Task(Lookup, data)]), page, data);
  }

  lemma StoreRuns(s: State, page: nat, data: Page) returns (n: nat, end: State)
    requires Inv(s) && s.tasks == map[page := Task(Lookup, data)] && page < NR_PAGES && S.Inv(Allocator(s))
    ensures Advances(s, page, n) == Some(end)
    ensures end.tasks == map[]
    ensures var w := S.SchedulerWrite(Allocator(s), page);
            Allocator(end) == w.st && end.mem == s.mem[Loc(w.node, w.offset / PAGE_SIZE) := data]
  {
    var s1, s2;
    n, s1, s2, end := AllSteps(s, page, data);
    EndIsSchedulerWrite(s, s1, s2, end, page, data);
  }

  lemma AllSteps(s: State, page: nat, data: Page) returns (n: nat, s1: State, s2: State, end: State)
    requires Inv(s) && s.tasks == map[page := Task(Lookup, data)] && S.WellFormed(Allocator(s))
    ensures Advances(s, page, n) == Some(end)
    ensures Fixed(s1) && Started(s, page, data, s1) && WalkEnd(s1, page, 0, data, s2)
    ensures Finished(s1, s2, end, page, data)
  {
    var a, b;
    a, s1 := StartAlone(s, page, data);
    b, s2, end := RestAlone(s1, page, data);
    AdvancesAdd(s, page, a, s1, b, end);
    n := a + b;
  }

  lemma RestAlone(s: State, page: nat, data: Page) returns (n: nat, mid: State, end: State)
    requires Inv(s) && s.tasks == map[page := Task(Scanning(0), data)]
    ensures Advances(s, page, n) == Some(end)
    ensures WalkEnd(s, page, 0, data, mid) && Finished(s, mid, end, page, data)
  {
    n, mid := WalkAlone(s, page, 0, data);
    end := FinishAlone(mid, page, ClaimedSlot(s.nodes[page % 2], FirstFree(s.nodes[page % 2], 0)), data);
    AdvancesAdd(s, page, n, mid, 2, end);
    n := n + 2;
  }
}

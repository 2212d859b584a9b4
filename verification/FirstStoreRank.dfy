// Whole serialised runs of sswap_scheduler_write from the initial state.
module FirstStoreRank {
  import opened Layout
  import opened Counting
  import opened SchedulerModel

  // A history lists the page ids in the order of the calls.
  predicate ValidHistory(h: seq<nat>) {
    forall i :: 0 <= i < |h| ==> h[i] < NR_PAGES
  }

  // The first stores of one parity once `page` is stored after them.
  function Extend(mine: seq<nat>, parity: nat, page: nat): seq<nat> {
    if page % 2 == parity && page !in mine then mine + [page] else mine
  }

  // The pages of one parity in the order of their first stores.
  function FirstStores(h: seq<nat>, parity: nat): seq<nat> {
    if h == [] then [] else Extend(FirstStores(h[..|h| - 1], parity), parity, h[|h| - 1])
  }

  ghost predicate Listed(mine: seq<nat>, parity: nat) {
    && (forall k :: 0 <= k < |mine| ==> mine[k] % 2 == parity)
    && (forall i, j :: 0 <= i < j < |mine| ==> mine[i] != mine[j])
  }

  lemma {:induction false} FirstStoresAre(h: seq<nat>, parity: nat)
    ensures Listed(FirstStores(h, parity), parity)
    ensures forall p :: p in FirstStores(h, parity) <==> p in h && p % 2 == parity
  {
    if h != [] {
      var n := |h| - 1;
      FirstStoresAre(h[..n], parity);
      assert h == h[..n] + [h[n]];
    }
  }

  // Node t's taken slots are 0..u-1, and the k-th page of `mine` sits in slot k.
  ghost predicate RanksAt(st: Sched, t: nat, mine: seq<nat>)
    requires WellFormed(st) && t < 2
  {
    && (forall s :: 0 <= s < NR_PAGES ==> (Taken(st, Loc(t, s)) <==> s < |mine|))
    && (forall k :: 0 <= k < |mine| ==> mine[k] in st.index && st.index[mine[k]] == Loc(t, k))
    && (forall p :: p in st.index && p % 2 == t ==> p in mine)
  }

  // The state a history leads to: the k-th distinct page of a parity sits in slot k of that
  // parity's node, and no other slot is taken.
  ghost predicate RankState(st: Sched, h: seq<nat>) {
    Inv(st) && RanksAt(st, 0, FirstStores(h, 0)) && RanksAt(st, 1, FirstStores(h, 1))
  }

  // Distinct pages of one parity: at most half of the swap area.
  lemma ParityCount(pages: set<nat>, parity: nat)
    requires forall p :: p in pages ==> p < NR_PAGES && p % 2 == parity
    ensures |pages| <= NR_PAGES / 2
  {
    var f := (p: nat) => p / 2;
    ImageCount(pages, f);
    BoundedCount(Image(pages, f), NR_PAGES / 2);
  }

  lemma FirstStoresBound(h: seq<nat>, parity: nat)
    requires ValidHistory(h)
    ensures |FirstStores(h, parity)| <= NR_PAGES / 2
  {
    FirstStoresAre(h, parity);
    DistinctCount(FirstStores(h, parity));
    ParityCount(Elements(FirstStores(h, parity)), parity);
  }

  function PositionOf(xs: seq<nat>, x: nat): (k: nat)
    requires x in xs
    ensures k < |xs| && xs[k] == x
  {
    if xs[0] == x then 0 else 1 + PositionOf(xs[1..], x)
  }

  function RankIn(mine: seq<nat>, page: nat): (r: nat) {
    if page in mine then PositionOf(mine, page) else |mine|
  }

  // The slot page has or will get: its position among the first stores of its parity.
  function Rank(h: seq<nat>, page: nat): (r: nat) {
    RankIn(FirstStores(h, page % 2), page)
  }

  lemma FirstStoresStep(h: seq<nat>, page: nat, t: nat)
    ensures FirstStores(h + [page], t) == Extend(FirstStores(h, t), t, page)
  {
    assert (h + [page])[..|h|] == h;
  }

  // Once the page's old slot is given back, the lowest clear slot of its node is its rank.
  lemma RankIsFree(st: Sched, mine: seq<nat>, page: nat)
    requires Inv(st) && page < NR_PAGES && RanksAt(st, page % 2, mine) && |mine| < NR_PAGES
    ensures RankIn(mine, page) < NR_PAGES
    ensures page in st.index ==> st.index[page] == Loc(page % 2, RankIn(mine, page))
    ensures !Taken(ReleaseOld(st, page), Loc(page % 2, RankIn(mine, page)))
    ensures forall s :: 0 <= s < RankIn(mine, page) ==> Taken(ReleaseOld(st, page), Loc(page % 2, s))
  {
    ReleaseOldEffect(st, page);
    assert Taken(st, Loc(page % 2, RankIn(mine, page))) <==> page in mine;
  }

  // What a write to slot `rank` of the page's own node does.
  ghost predicate Places(st: Sched, page: nat, rank: nat, after: Sched)
    requires WellFormed(st) && WellFormed(after)
  {
    && after.index == st.index[page := Loc(page % 2, rank)]
    && forall l: Loc :: l.node < 2 && l.slot < NR_PAGES ==>
         (Taken(after, l) <==> l == Loc(page % 2, rank) || Taken(st, l))
  }

  lemma RankPlacement(st: Sched, h: seq<nat>, page: nat)
    requires ValidHistory(h) && page < NR_PAGES && RankState(st, h)
    ensures RoomFor(st, page % 2, page)
    ensures page in st.index ==> st.index[page] == Loc(page % 2, Rank(h, page))
    ensures var r := SchedulerWrite(st, page);
            && Inv(r.st)
            && r.node == page % 2 && r.offset == Rank(h, page) * PAGE_SIZE
            && Places(st, page, Rank(h, page), r.st)
  {
    FirstStoresBound(h, page % 2);
    RankIsFree(st, FirstStores(h, page % 2), page);
    WriteTakesLowest(st, page, Rank(h, page));
    ReleaseOldEffect(st, page);
    AlwaysRoom(st, page % 2, page);
  }

  // Placing the page on its rank keeps the ranks of each node.
  lemma RanksAtStep(st: Sched, t: nat, mine: seq<nat>, page: nat, rank: nat, after: Sched)
    requires WellFormed(st) && WellFormed(after) && t < 2 && RanksAt(st, t, mine) && Listed(mine, t)
    requires Places(st, page, rank, after) && (t == page % 2 ==> rank == RankIn(mine, page))
    ensures RanksAt(after, t, Extend(mine, t, page))
  {
    var mine' := Extend(mine, t, page);
    forall s | 0 <= s < NR_PAGES
      ensures Taken(after, Loc(t, s)) <==> s < |mine'|
    {
      assert Taken(st, Loc(t, s)) <==> s < |mine|;
    }
  }

  // One more store from a rank state: there is room, the fallback is not taken, and the page lands
  // on its rank.
  lemma RankStep(st: Sched, h: seq<nat>, page: nat)
    requires ValidHistory(h) && page < NR_PAGES && RankState(st, h)
    ensures RankState(SchedulerWrite(st, page).st, h + [page])
  {
    RankPlacement(st, h, page);
    NodeStep(st, h, page, 0, SchedulerWrite(st, page).st);
    NodeStep(st, h, page, 1, SchedulerWrite(st, page).st);
  }

  lemma NodeStep(st: Sched, h: seq<nat>, page: nat, t: nat, after: Sched)
    requires WellFormed(st) && WellFormed(after) && t < 2 && RanksAt(st, t, FirstStores(h, t))
    requires Places(st, page, Rank(h, page), after)
    ensures RanksAt(after, t, FirstStores(h + [page], t))
  {
    FirstStoresStep(h, page, t);
    FirstStoresAre(h, t);
    RanksAtStep(st, t, FirstStores(h, t), page, Rank(h, page), after);
  }

  // The state after a history of calls. RunRank shows that the write is always possible for page ids
  // in range.
  ghost function RunSched(h: seq<nat>): (r: Sched)
    ensures WellFormed(r)
  {
    if h == [] then Init()
    else
      var before, page := RunSched(h[..|h| - 1]), h[|h| - 1];
      if Inv(before) && page < NR_PAGES then SchedulerWrite(before, page).st else before
  }

  lemma RunStep(h: seq<nat>, page: nat)
    requires page < NR_PAGES && Inv(RunSched(h))
    ensures RunSched(h + [page]) == SchedulerWrite(RunSched(h), page).st
  {
    assert (h + [page])[..|h|] == h;
  }

  lemma RankInit()
    ensures RankState(Init(), [])
  {
    InitInv();
  }

  lemma RunRankStep(before: seq<nat>, page: nat, h: seq<nat>)
    requires ValidHistory(before) && page < NR_PAGES && h == before + [page]
    requires RankState(RunSched(before), before)
    ensures RankState(RunSched(h), h)
  {
    RunStep(before, page);
    RankStep(RunSched(before), before, page);
  }

  lemma {:induction false} RunRank(h: seq<nat>)
    requires ValidHistory(h)
    ensures RankState(RunSched(h), h)
  {
    if h == [] {
      RankInit();
    } else {
      var n := |h| - 1;
      RunRank(h[..n]);
      RunRankStep(h[..n], h[n], h);
    }
  }

  // ---------- what every serialised run promises ----------

  // Pages of page's parity among the first i calls.
  ghost function SameParityBefore(h: seq<nat>, i: nat, page: nat): set<nat>
    requires i <= |h|
  {
    set q | q in h[..i] && q % 2 == page % 2
  }

  lemma {:induction false} FirstStoresGrow(h: seq<nat>, more: seq<nat>, t: nat)
    ensures FirstStores(h, t) <= FirstStores(h + more, t)
  {
    if more == [] {
      assert h + more == h;
    } else {
      var n := |more| - 1;
      FirstStoresGrow(h, more[..n], t);
      assert (h + more)[..|h + more| - 1] == h + more[..n];
    }
  }

  lemma FirstStorePosition(h: seq<nat>, i: nat)
    requires i < |h| && h[i] !in h[..i]
    ensures var mine, k := FirstStores(h, h[i] % 2), |SameParityBefore(h, i, h[i])|;
            k < |mine| && mine[k] == h[i]
  {
    var page := h[i];
    var before := FirstStores(h[..i], page % 2);
    FirstStoresAre(h[..i], page % 2);
    DistinctCount(before);
    assert Elements(before) == SameParityBefore(h, i, page);
    FirstStoresStep(h[..i], page, page % 2);
    assert h == (h[..i] + [page]) + h[i + 1..];
    FirstStoresGrow(h[..i] + [page], h[i + 1..], page % 2);
    assert (before + [page])[|before|] == page;
  }

  lemma ReadAt(st: Sched, t: nat, mine: seq<nat>, k: nat)
    requires WellFormed(st) && t < 2 && RanksAt(st, t, mine) && k < |mine|
    ensures SchedulerRead(st, mine[k]) == Some(Loc(t, k))
  {
  }

  // A run reads a page's rank back.
  lemma ReadsRank(h: seq<nat>, t: nat, k: nat)
    requires ValidHistory(h) && t < 2 && k < |FirstStores(h, t)|
    ensures SchedulerRead(RunSched(h), FirstStores(h, t)[k]) == Some(Loc(t, k))
  {
    RunRank(h);
    if t == 0 {
      ReadAt(RunSched(h), 0, FirstStores(h, 0), k);
    } else {
      ReadAt(RunSched(h), 1, FirstStores(h, 1), k);
    }
  }

  // The slot of a page is the number of distinct pages of its parity stored before its first store,
  // however the run goes on.
  lemma FirstStoreRank(h: seq<nat>, i: nat)
    requires ValidHistory(h) && i < |h| && h[i] !in h[..i]
    ensures SchedulerRead(RunSched(h), h[i]) == Some(Loc(h[i] % 2, |SameParityBefore(h, i, h[i])|))
  {
    FirstStorePosition(h, i);
    ReadsRank(h, h[i] % 2, |SameParityBefore(h, i, h[i])|);
  }

  lemma StaysPut(h: seq<nat>, more: seq<nat>, page: nat)
    requires page in h
    ensures var mine, k := FirstStores(h, page % 2), Rank(h, page);
            && k < |mine| && mine[k] == page
            && k < |FirstStores(h + more, page % 2)| && FirstStores(h + more, page % 2)[k] == page
  {
    FirstStoresAre(h, page % 2);
    FirstStoresGrow(h, more, page % 2);
  }

  // Once placed, a page keeps its node and offset through every continuation of the run.
  lemma PlacementIsPermanent(h: seq<nat>, more: seq<nat>, page: nat)
    requires ValidHistory(h) && ValidHistory(h + more) && page in h
    ensures SchedulerRead(RunSched(h + more), page) == SchedulerRead(RunSched(h), page)
    ensures SchedulerRead(RunSched(h), page).Some?
  {
    StaysPut(h, more, page);
    ReadsRank(h, page % 2, Rank(h, page));
    ReadsRank(h + more, page % 2, Rank(h, page));
  }

  // In every run the parity node has room, so the first sswap_add_mapping reports success and the
  // fallback is never taken.
  lemma FallbackIsDead(h: seq<nat>, page: nat)
    requires ValidHistory(h) && page < NR_PAGES
    ensures RoomFor(RunSched(h), page % 2, page)
    ensures CanAdd(RunSched(h), page % 2, page)
    ensures AddMapping(RunSched(h), page % 2, page, NO_FLAGS).flags == Flags(true, false)
  {
    RunRank(h);
    AlwaysRoom(RunSched(h), page % 2, page);
    AddWithRoom(RunSched(h), page % 2, page);
  }

  // Every offset a run hands out or reads back, plus one page, is within the server's buffer, which
  // is half of what the client checks against.
  lemma HalfBuffer(h: seq<nat>, page: nat)
    requires ValidHistory(h) && page < NR_PAGES
    ensures Inv(RunSched(h))
    ensures var w := SchedulerWrite(RunSched(h), page);
            w.node == page % 2 && w.offset + PAGE_SIZE <= SERVER_BUF_SIZE
    ensures SchedulerRead(RunSched(h), page).Some? ==>
              SchedulerRead(RunSched(h), page).value.slot * PAGE_SIZE + PAGE_SIZE <= SERVER_BUF_SIZE
  {
    RunRank(h);
    RankInLowerHalf(h, page);
    RankPlacement(RunSched(h), h, page);
  }

  lemma RankInLowerHalf(h: seq<nat>, page: nat)
    requires ValidHistory(h) && page < NR_PAGES
    ensures Rank(h, page) < NR_PAGES / 2
  {
    FirstStoresStep(h, page, page % 2);
    FirstStoresBound(h + [page], page % 2);
    FirstStoresBound(h, page % 2);
  }

  lemma FreshSlot(index: map<nat, Loc>, page: nat, l: Loc, after: Sched)
    requires Inv(after) && after.index == index[page := l]
    ensures forall p :: p in index && p != page ==> index[p] != l
  {
    forall p | p in index && p != page
      ensures index[p] != l
    {
      assert after.index[p] == index[p] && after.index[page] == l;
    }
  }

  // Where a run sends its next page.
  function NextLoc(history: seq<nat>, page: nat): Loc {
    Loc(page % 2, Rank(history, page))
  }

  // What one more store of a run does to the index and where it sends the page.
  lemma StorePlacement(history: seq<nat>, page: nat)
    requires ValidHistory(history) && page < NR_PAGES
    ensures Inv(RunSched(history))
    ensures var w := SchedulerWrite(RunSched(history), page);
            && w.node == NextLoc(history, page).node && w.offset == NextLoc(history, page).slot * PAGE_SIZE
            && w.st == RunSched(history + [page])
            && w.st.index == RunSched(history).index[page := NextLoc(history, page)]
    ensures NextLoc(history, page).slot < NR_PAGES / 2
    ensures forall p :: p in RunSched(history).index && p != page ==>
              RunSched(history).index[p] != NextLoc(history, page)
  {
    var st := RunSched(history);
    RunRank(history);
    RankPlacement(st, history, page);
    RankInLowerHalf(history, page);
    RunStep(history, page);
    FreshSlot(st.index, page, NextLoc(history, page), SchedulerWrite(st, page).st);
  }
}

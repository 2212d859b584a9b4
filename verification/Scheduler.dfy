// remote_schedule.c with its state changed in place, proved against SchedulerModel.
module Scheduler {
  import opened Layout
  import opened Bitmap
  import M = SchedulerModel

  // struct remote_bitmap
  class RemoteBitmap {
    const mapping: array<bool>
    const nrPages: nat
    var freePages: nat

    ghost predicate Valid()
      reads this
    {
      mapping.Length == nrPages == CHUNK_PAGES
    }

    ghost function Value(): (c: Chunk)
      reads this, mapping
    {
      Chunk(mapping[..], freePages)
    }

    constructor ()
      ensures Valid() && fresh(mapping) && Value() == M.EmptyChunk()
    {
      mapping := new bool[CHUNK_PAGES](_ => false);
      nrPages := CHUNK_PAGES;
      freePages := CHUNK_PAGES;
    }

    method FindFirstZeroBit() returns (slot: nat)
      requires Valid()
      ensures slot == FirstZero(mapping[..])
    {
      slot := 0;
      while slot < nrPages && mapping[slot]
        invariant slot <= nrPages
        invariant forall i :: 0 <= i < slot ==> mapping[i]
      {
        slot := slot + 1;
      }
    }

    // The lock section of sswap_select_slot.
    method ClaimFirst() returns (slot: nat)
      requires Valid() && freePages != 0 && Sound(Value())
      modifies this, mapping
      ensures Valid() && Value() == Claim(old(Value()))
      ensures slot == FirstZero(old(mapping[..])) && slot < CHUNK_PAGES
    {
      slot := FindFirstZeroBit();
      mapping[slot] := true;
      freePages := freePages - 1;
    }

    // The lock section of sswap_add_mapping.
    method ReleaseBit(slot: nat)
      requires Valid() && slot < CHUNK_PAGES
      modifies this, mapping
      ensures Valid() && Value() == Release(old(Value()), slot)
    {
      mapping[slot] := false;
      freePages := freePages + 1;
    }
  }

  // remote_map[type] for one node: the chunk objects never change, their contents do.
  ghost function Objects(maps: seq<RemoteBitmap>): set<object> {
    (set i | 0 <= i < |maps| :: maps[i] as object) + (set i | 0 <= i < |maps| :: maps[i].mapping as object)
  }

  ghost predicate Separate(maps: seq<RemoteBitmap>)
    reads Objects(maps)
  {
    && (forall i, j :: 0 <= i < j < |maps| ==> maps[i] != maps[j] && maps[i].mapping != maps[j].mapping)
    && forall i :: 0 <= i < |maps| ==> maps[i].Valid()
  }

  ghost predicate ValidMaps(maps: seq<RemoteBitmap>)
    reads Objects(maps)
  {
    |maps| == NR_CHUNKS && Separate(maps)
  }

  ghost function Values(maps: seq<RemoteBitmap>): (node: Node)
    reads Objects(maps)
    ensures |node| == |maps| && forall i :: 0 <= i < |maps| ==> node[i] == maps[i].Value()
  {
    seq(|maps|, i requires 0 <= i < |maps| reads Objects(maps) => maps[i].Value())
  }

  // init_remote_bitmap
  method InitRemoteBitmap(nrPages: nat) returns (maps: seq<RemoteBitmap>)
    ensures |maps| == DivRoundUp(nrPages, CHUNK_PAGES)
    ensures Separate(maps) && fresh(Objects(maps))
    ensures forall i :: 0 <= i < |maps| ==> Values(maps)[i] == M.EmptyChunk()
  {
    maps := [];
    var nr := DivRoundUp(nrPages, CHUNK_PAGES);
    while |maps| < nr
      invariant |maps| <= nr
      invariant Separate(maps) && fresh(Objects(maps))
      invariant forall i :: 0 <= i < |maps| ==> Values(maps)[i] == M.EmptyChunk()
    {
      ghost var before := maps;
      var m := new RemoteBitmap();
      assert forall i :: 0 <= i < |maps| ==> maps[i] in Objects(before) && maps[i].mapping in Objects(before);
      maps := maps + [m];
      forall i | 0 <= i < |maps|
        ensures Values(maps)[i] == M.EmptyChunk()
      {
        assert i < |before| ==> Values(before)[i] == M.EmptyChunk();
      }
    }
  }

  // The lock section of sswap_select_slot on chunk i.
  method ClaimIn(maps: seq<RemoteBitmap>, i: nat) returns (slot: nat)
    requires ValidMaps(maps) && i < |maps|
    requires Sound(Values(maps)[i]) && maps[i].freePages != 0
    modifies Objects(maps)
    ensures ValidMaps(maps) && Values(maps) == ClaimAt(old(Values(maps)), i)
    ensures slot == FirstZero(old(Values(maps))[i].bits)
  {
    ghost var before := Values(maps);
    assert maps[i] in Objects(maps) && maps[i].mapping in Objects(maps);
    slot := maps[i].ClaimFirst();
    assert forall j :: 0 <= j < |maps| && j != i ==> maps[j].Value() == before[j];
  }

  // The lock section of sswap_add_mapping on chunk i.
  method ReleaseIn(maps: seq<RemoteBitmap>, i: nat, slot: nat)
    requires ValidMaps(maps) && i < |maps| && slot < CHUNK_PAGES
    modifies Objects(maps)
    ensures ValidMaps(maps) && Values(maps) == old(Values(maps))[i := Release(old(Values(maps))[i], slot)]
  {
    ghost var before := Values(maps);
    assert maps[i] in Objects(maps) && maps[i].mapping in Objects(maps);
    maps[i].ReleaseBit(slot);
    assert forall j :: 0 <= j < |maps| && j != i ==> maps[j].Value() == before[j];
  }

  // sswap_select_slot on one node's chunks
  method SelectSlotIn(maps: seq<RemoteBitmap>, flags: M.Flags) returns (slot: nat, flagsOut: M.Flags)
    requires ValidMaps(maps) && Shape(Values(maps)) && SoundNode(Values(maps))
    modifies Objects(maps)
    ensures ValidMaps(maps)
    ensures var r := SelectSlot(old(Values(maps)));
            && Values(maps) == r.node && slot == r.slot
            && flagsOut == if r.full then flags.(full := true) else flags.(success := true)
  {
    var offset := 0;
    for i := 0 to |maps|
      invariant offset == i * CHUNK_PAGES
      invariant ValidMaps(maps) && Values(maps) == old(Values(maps))
      invariant FirstFree(Values(maps), 0) == FirstFree(Values(maps), i)
    {
      if maps[i].freePages != 0 {
        slot := ClaimIn(maps, i);
        slot := slot + offset;
        flagsOut := flags.(success := true);
        return;
      }
      offset := offset + CHUNK_PAGES;
    }
    slot, flagsOut := 0, flags.(full := true);
  }

  // The index of one address space: page ids to packed words.
  type Space = map<nat, nat>

  ghost predicate ValidSpaces(spaces: seq<Space>) {
    && |spaces| == NR_CHUNKS
    && forall p :: 0 <= p < NR_PAGES && p in spaces[p / CHUNK_PAGES] ==>
         Unpack(spaces[p / CHUNK_PAGES][p]).node < 2 && Unpack(spaces[p / CHUNK_PAGES][p]).slot < NR_PAGES
  }

  ghost function IndexOf(spaces: seq<Space>): map<nat, Loc>
    requires |spaces| == NR_CHUNKS
  {
    map p | 0 <= p < NR_PAGES && p in spaces[p / CHUNK_PAGES] :: Unpack(spaces[p / CHUNK_PAGES][p])
  }

  function PutWord(spaces: seq<Space>, page: nat, word: nat): seq<Space>
    requires |spaces| == NR_CHUNKS && page < NR_PAGES
  {
    var space: Space := spaces[page / CHUNK_PAGES][page := word];
    spaces[page / CHUNK_PAGES := space]
  }

  // Storing a word is storing the location it packs.
  lemma PutWordIndex(spaces: seq<Space>, page: nat, word: nat)
    requires ValidSpaces(spaces) && page < NR_PAGES
    requires Unpack(word).node < 2 && Unpack(word).slot < NR_PAGES
    ensures ValidSpaces(PutWord(spaces, page, word))
    ensures IndexOf(PutWord(spaces, page, word)) == IndexOf(spaces)[page := Unpack(word)]
  {
    var spaces' := PutWord(spaces, page, word);
    forall p | 0 <= p < NR_PAGES
      ensures p != page ==> (p in spaces'[p / CHUNK_PAGES] <==> p in spaces[p / CHUNK_PAGES])
      ensures p != page && p in spaces[p / CHUNK_PAGES] ==> spaces'[p / CHUNK_PAGES][p] == spaces[p / CHUNK_PAGES][p]
    {
    }
  }

  // The loop of init_scheduler over the two nodes.
  method InitNodes() returns (maps0: seq<RemoteBitmap>, maps1: seq<RemoteBitmap>)
    ensures ValidMaps(maps0) && ValidMaps(maps1) && Objects(maps0) !! Objects(maps1)
    ensures fresh(Objects(maps0)) && fresh(Objects(maps1))
    ensures Values(maps0) == M.EmptyNode() == Values(maps1)
  {
    Geometry();
    maps0 := InitRemoteBitmap(NR_PAGES);
    maps1 := InitRemoteBitmap(NR_PAGES);
  }

  lemma NoEntries(spaces: seq<Space>)
    requires |spaces| == NR_CHUNKS && forall i :: 0 <= i < |spaces| ==> spaces[i] == map[]
    ensures ValidSpaces(spaces) && IndexOf(spaces) == map[]
  {
    assert forall p :: 0 <= p < NR_PAGES ==> spaces[p / CHUNK_PAGES] == map[];
  }

  // init_remote_address_space
  method InitRemoteAddressSpace(ghost before: set<object>) returns (spaces: array<Space>)
    ensures fresh(spaces) && spaces !in before && ValidSpaces(spaces[..]) && IndexOf(spaces[..]) == map[]
  {
    spaces := new Space[NR_CHUNKS](_ => map[]);
    NoEntries(spaces[..]);
  }

  // Chunks of both nodes and index are in order and share no memory.
  ghost predicate ValidModule(maps: seq<seq<RemoteBitmap>>, spaces: array<Space>)
    reads Owned(maps, spaces)
  {
    && |maps| == 2 && ValidMaps(maps[0]) && ValidMaps(maps[1])
    && Objects(maps[0]) !! Objects(maps[1])
    && spaces as object !in Objects(maps[0]) + Objects(maps[1])
    && ValidSpaces(spaces[..])
  }

  ghost function Owned(maps: seq<seq<RemoteBitmap>>, spaces: array<Space>): set<object> {
    (if |maps| == 2 then Objects(maps[0]) + Objects(maps[1]) else {}) + {spaces}
  }

  method InitModule() returns (maps: seq<seq<RemoteBitmap>>, spaces: array<Space>)
    ensures ValidModule(maps, spaces) && fresh(Owned(maps, spaces))
    ensures Values(maps[0]) == M.EmptyNode() == Values(maps[1]) && IndexOf(spaces[..]) == map[]
  {
    var maps0, maps1 := InitNodes();
    spaces := InitRemoteAddressSpace(Objects(maps0) + Objects(maps1));
    maps := [maps0, maps1];
  }

  // The state of the module: remote_map and remote_spaces.
  class RemoteScheduler {
    const remoteMap: seq<seq<RemoteBitmap>>
    const remoteSpaces: array<Space>

    ghost function Repr(): set<object> {
      Owned(remoteMap, remoteSpaces)
    }

    ghost predicate Valid()
      reads Repr()
    {
      ValidModule(remoteMap, remoteSpaces)
    }

    ghost function State(): (st: M.Sched)
      requires Valid()
      reads Repr()
      ensures M.WellFormed(st)
    {
      M.Sched([Values(remoteMap[0]), Values(remoteMap[1])], IndexOf(remoteSpaces[..]))
    }

    // init_scheduler
    constructor ()
      ensures Valid() && fresh(Repr()) && State() == M.Init()
    {
      var maps, spaces := InitModule();
      remoteMap := maps;
      remoteSpaces := spaces;
    }

    // The first part of sswap_add_mapping: give back the page's old slot, if it has one.
    method ReleaseOld(page: nat)
      requires Valid() && page < NR_PAGES
      modifies Repr()
      ensures Valid() && State() == M.ReleaseOld(old(State()), page)
    {
      var i := page / CHUNK_PAGES;
      if page in remoteSpaces[i] {
        var word := remoteSpaces[i][page];
        var slot := RemoteSlot(word);
        assert State().index[page] == Unpack(word);
        ReleaseIn(remoteMap[RemoteType(word)], slot / CHUNK_PAGES, slot % CHUNK_PAGES);
      }
    }

    // The slot choice on one node.
    method Select(node: nat, flags: M.Flags) returns (slot: nat, flagsOut: M.Flags)
      requires Valid() && node < 2 && SoundNode(State().nodes[node])
      modifies Repr()
      ensures Valid()
      ensures var r := SelectSlot(old(State()).nodes[node]);
              && State() == old(State()).(nodes := old(State()).nodes[node := r.node])
              && slot == r.slot
              && flagsOut == if r.full then flags.(full := true) else flags.(success := true)
    {
      slot, flagsOut := SelectSlotIn(remoteMap[node], flags);
    }

    // The last part: the page's index entry.
    method Enter(page: nat, node: nat, slot: nat)
      requires Valid() && page < NR_PAGES && node < 2 && slot < NR_PAGES
      modifies Repr()
      ensures Valid()
      ensures State() == old(State()).(index := old(State()).index[page := Loc(node, slot)])
    {
      var word := MakeXaMsg(slot, node);
      PackRoundTrip(slot, node);
      PutWordIndex(remoteSpaces[..], page, word);
      ghost var spaces := remoteSpaces[..];
      var i := page / CHUNK_PAGES;
      remoteSpaces[i] := remoteSpaces[i][page := word];
      assert remoteSpaces[..] == PutWord(spaces, page, word);
    }

    // sswap_add_mapping
    method AddMapping(node: nat, page: nat, flags: M.Flags) returns (offset: nat, flagsOut: M.Flags)
      requires Valid() && node < 2 && page < NR_PAGES && M.CanAdd(State(), node, page)
      modifies Repr()
      ensures Valid()
      ensures M.Added(State(), offset, flagsOut) == M.AddMapping(old(State()), node, page, flags)
    {
      ReleaseOld(page);
      var slot;
      slot, flagsOut := Select(node, flags);
      if flagsOut.full {
        return 0, flagsOut;
      }
      Enter(page, node, slot);
      offset := slot * PAGE_SIZE;
    }

    // sswap_get_mapping: None where the code stops at VM_BUG_ON.
    method GetMapping(page: nat) returns (found: Option<(nat, nat)>)
      requires Valid() && page < NR_PAGES
      ensures match M.SchedulerRead(State(), page)
              case None => found == None
              case Some(l) => found == Some((l.node, l.slot * PAGE_SIZE))
    {
      var i := page / CHUNK_PAGES;
      if page !in remoteSpaces[i] {
        return None;
      }
      var word := remoteSpaces[i][page];
      assert State().index[page] == Unpack(word);
      return Some((RemoteType(word), RemoteSlot(word) * PAGE_SIZE));
    }

    // One arm of sswap_scheduler_write: the parity node first, then the other one with the same flags.
    method AddOrFallBack(first: nat, page: nat) returns (node: nat, offset: nat)
      requires Valid() && M.Covered(State()) && page < NR_PAGES && first == page % 2
      modifies Repr()
      ensures Valid()
      ensures M.Placed(State(), node, offset) == M.SchedulerWrite(old(State()), page)
    {
      M.AddKeepsCovered(State(), first, page);
      ghost var st := State();
      var flags;
      offset, flags := AddMapping(first, page, M.NO_FLAGS);
      node := first;
      if flags.full {
        M.FallbackCanAdd(st, page);
        offset, flags := AddMapping(1 - first, page, flags);
        node := 1 - first;
      }
    }

    // sswap_scheduler_write
    method SchedulerWrite(page: nat) returns (node: nat, offset: nat)
      requires Valid() && M.Covered(State()) && page < NR_PAGES
      modifies Repr()
      ensures Valid()
      ensures M.Placed(State(), node, offset) == M.SchedulerWrite(old(State()), page)
    {
      if page % 2 == 0 {
        node, offset := AddOrFallBack(0, page);
      } else {
        node, offset := AddOrFallBack(1, page);
      }
    }
  }
}

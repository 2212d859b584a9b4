// One bitmap chunk with its cached counter, and a node as a row of chunks.
module Bitmap {
  import opened Layout

  datatype Chunk = Chunk(bits: seq<bool>, free: nat)

  // Number of zero bits.
  function Clear(bits: seq<bool>): nat {
    if bits == [] then 0
    else Clear(bits[..|bits| - 1]) + if bits[|bits| - 1] then 0 else 1
  }

  // What find_first_zero_bit returns: the lowest zero bit, or the length.
  function FirstZero(bits: seq<bool>): (r: nat)
    ensures r <= |bits|
    ensures forall i :: 0 <= i < r ==> bits[i]
    ensures r < |bits| ==> !bits[r]
  {
    if bits == [] || !bits[0] then 0 else 1 + FirstZero(bits[1..])
  }

  // The counter tells the truth.
  predicate Exact(c: Chunk) {
    c.free == Clear(c.bits)
  }

  // What the allocator needs to stay inside the bitmap: a nonzero counter has a zero bit behind it.
  predicate Sound(c: Chunk) {
    c.free != 0 ==> FirstZero(c.bits) < |c.bits|
  }

  // The lock section of sswap_select_slot on a chunk with a nonzero counter.
  function Claim(c: Chunk): Chunk {
    var b := FirstZero(c.bits);
    if b < |c.bits| && c.free > 0 then Chunk(c.bits[b := true], c.free - 1) else c
  }

  // The lock section of sswap_add_mapping on the old slot.
  function Release(c: Chunk, b: nat): Chunk
    requires b < |c.bits|
  {
    Chunk(c.bits[b := false], c.free + 1)
  }

  lemma {:induction false} ClearUpdate(bits: seq<bool>, i: nat, v: bool)
    requires i < |bits|
    ensures Clear(bits[i := v]) == Clear(bits) + (if bits[i] then 1 else 0) - (if v then 1 else 0)
  {
    var n := |bits| - 1;
    if i == n {
      assert bits[i := v][..n] == bits[..n];
    } else {
      ClearUpdate(bits[..n], i, v);
      assert bits[i := v][..n] == bits[..n][i := v];
    }
  }

  lemma {:induction false} ClearZero(bits: seq<bool>)
    ensures Clear(bits) == 0 <==> FirstZero(bits) == |bits|
    ensures Clear(bits) <= |bits|
  {
    if bits != [] {
      var n := |bits| - 1;
      ClearZero(bits[..n]);
      var z, y := FirstZero(bits), FirstZero(bits[..n]);
      assert y < n ==> !bits[..n][y] && z <= y;
      assert z < n ==> !bits[..n][z] && y <= z;
    }
  }

  lemma {:induction false} ClearAll(bits: seq<bool>)
    requires forall i :: 0 <= i < |bits| ==> !bits[i]
    ensures Clear(bits) == |bits|
  {
    if bits != [] {
      ClearAll(bits[..|bits| - 1]);
    }
  }

  // A truthful counter is zero exactly when the chunk is full, and the two lock sections keep it
  // truthful when the claimed bit exists and the released bit was set.
  lemma CounterTruth(c: Chunk)
    requires Exact(c)
    ensures Sound(c)
    ensures c.free == 0 <==> forall i :: 0 <= i < |c.bits| ==> c.bits[i]
    ensures Exact(Claim(c))
    ensures forall b :: 0 <= b < |c.bits| && c.bits[b] ==> Exact(Release(c, b))
  {
    ClearZero(c.bits);
    var z := FirstZero(c.bits);
    if z < |c.bits| {
      ClearUpdate(c.bits, z, true);
    }
    forall b | 0 <= b < |c.bits| && c.bits[b]
      ensures Exact(Release(c, b))
    {
      ClearUpdate(c.bits, b, false);
    }
  }

  // ---------- a node: the chunks of remote_map[type] ----------

  type Node = seq<Chunk>

  predicate Shape(node: Node) {
    && |node| == NR_CHUNKS
    && forall i :: 0 <= i < |node| ==> |node[i].bits| == CHUNK_PAGES
  }

  predicate Truthful(node: Node) {
    forall i :: 0 <= i < |node| ==> Exact(node[i])
  }

  predicate SoundNode(node: Node) {
    forall i :: 0 <= i < |node| ==> Sound(node[i])
  }

  // Bit of a slot in the concatenated bitmap.
  predicate Bit(node: Node, slot: nat)
    requires Shape(node) && slot < NR_PAGES
  {
    node[slot / CHUNK_PAGES].bits[slot % CHUNK_PAGES]
  }

  predicate Room(node: Node)
    requires Shape(node)
  {
    exists s :: 0 <= s < NR_PAGES && !Bit(node, s)
  }

  // The chunk walk of sswap_select_slot from chunk i on: the first chunk with a nonzero counter,
  // or the number of chunks.
  function FirstFree(node: Node, i: nat): (r: nat)
    requires i <= |node|
    ensures i <= r <= |node|
    ensures forall j :: i <= j < r ==> node[j].free == 0
    ensures r < |node| ==> node[r].free != 0
    decreases |node| - i
  {
    if i == |node| || node[i].free != 0 then i else FirstFree(node, i + 1)
  }

  // The lock section on chunk i when its counter is nonzero: the slot it hands out, and the node after.
  function ClaimedSlot(node: Node, i: nat): nat
    requires i < |node|
  {
    i * CHUNK_PAGES + FirstZero(node[i].bits)
  }

  function ClaimAt(node: Node, i: nat): Node
    requires i < |node|
  {
    node[i := Claim(node[i])]
  }

  datatype Selection = Selection(node: Node, full: bool, slot: nat)

  function SelectSlot(node: Node): (r: Selection)
    requires Shape(node) && SoundNode(node)
    ensures Shape(r.node) && r.slot < NR_PAGES
  {
    var i := FirstFree(node, 0);
    if i == |node| then Selection(node, true, 0)
    else Selection(ClaimAt(node, i), false, ClaimedSlot(node, i))
  }

  function ReleaseSlot(node: Node, slot: nat): (r: Node)
    requires Shape(node) && slot < NR_PAGES
    ensures Shape(r)
  {
    var i := slot / CHUNK_PAGES;
    node[i := Release(node[i], slot % CHUNK_PAGES)]
  }

  // The slot (chunk, bit) names, and back.
  lemma SlotSplit(i: nat, b: nat)
    requires i < NR_CHUNKS && b < CHUNK_PAGES
    ensures i * CHUNK_PAGES + b < NR_PAGES
    ensures (i * CHUNK_PAGES + b) / CHUNK_PAGES == i
    ensures (i * CHUNK_PAGES + b) % CHUNK_PAGES == b
  {
  }

  // Claiming on a chunk takes its lowest clear slot and changes nothing else.
  lemma ClaimOne(node: Node, i: nat)
    requires Shape(node) && Truthful(node) && i < NR_CHUNKS && node[i].free != 0
    ensures var k := ClaimedSlot(node, i);
            && Shape(ClaimAt(node, i)) && Truthful(ClaimAt(node, i))
            && i * CHUNK_PAGES <= k < (i + 1) * CHUNK_PAGES && k < NR_PAGES
            && !Bit(node, k)
            && (forall s :: i * CHUNK_PAGES <= s < k ==> Bit(node, s))
            && (forall s :: 0 <= s < NR_PAGES ==> (Bit(ClaimAt(node, i), s) <==> s == k || Bit(node, s)))
  {
    CounterTruth(node[i]);
    var b := FirstZero(node[i].bits);
    var k := ClaimedSlot(node, i);
    SlotSplit(i, b);
    forall s | i * CHUNK_PAGES <= s < k
      ensures Bit(node, s)
    {
      SlotSplit(i, s - i * CHUNK_PAGES);
    }
    forall s | 0 <= s < NR_PAGES
      ensures Bit(ClaimAt(node, i), s) <==> s == k || Bit(node, s)
    {
      if s / CHUNK_PAGES == i && s % CHUNK_PAGES == b {
        assert s == k;
      }
    }
  }

  // Two-level first fit refines flat first fit.
  lemma FirstFit(node: Node)
    requires Shape(node) && Truthful(node) && SoundNode(node)
    ensures var r := SelectSlot(node);
            && Truthful(r.node)
            && (r.full <==> !Room(node))
            && (r.full ==> r.node == node)
            && (!r.full ==>
                  && r.slot < NR_PAGES && !Bit(node, r.slot)
                  && (forall s :: 0 <= s < r.slot ==> Bit(node, s))
                  && (forall s :: 0 <= s < NR_PAGES ==> (Bit(r.node, s) <==> s == r.slot || Bit(node, s))))
  {
    var i := FirstFree(node, 0);
    forall s | 0 <= s < i * CHUNK_PAGES
      ensures Bit(node, s)
    {
      CounterTruth(node[s / CHUNK_PAGES]);
    }
    if i < |node| {
      ClaimOne(node, i);
    }
  }

  // Releasing a taken slot clears that slot and nothing else.
  lemma ReleaseOne(node: Node, slot: nat)
    requires Shape(node) && Truthful(node) && slot < NR_PAGES && Bit(node, slot)
    ensures var r := ReleaseSlot(node, slot);
            && Truthful(r)
            && forall s :: 0 <= s < NR_PAGES ==> (Bit(r, s) <==> s != slot && Bit(node, s))
  {
    CounterTruth(node[slot / CHUNK_PAGES]);
    var r := ReleaseSlot(node, slot);
    forall s | 0 <= s < NR_PAGES
      ensures Bit(r, s) <==> s != slot && Bit(node, s)
    {
      if s / CHUNK_PAGES == slot / CHUNK_PAGES && s % CHUNK_PAGES == slot % CHUNK_PAGES {
        assert s == slot;
      }
    }
  }

  // ---------- counting ----------

  // Zero bits in the first i chunks.
  function ClearBelow(node: Node, i: nat): nat
    requires i <= |node|
  {
    if i == 0 then 0 else ClearBelow(node, i - 1) + Clear(node[i - 1].bits)
  }

  function FreeBelow(node: Node, i: nat): nat
    requires i <= |node|
  {
    if i == 0 then 0 else FreeBelow(node, i - 1) + node[i - 1].free
  }

  // Taken slots in the first i chunks.
  ghost function UsedBelow(node: Node, i: nat): set<nat>
    requires Shape(node) && i <= |node|
  {
    set s | 0 <= s < i * CHUNK_PAGES && Bit(node, s)
  }

  ghost predicate TakenIn(bits: seq<bool>, base: nat, s: nat)
    requires base <= s < base + |bits|
  {
    bits[s - base]
  }

  ghost function UsedIn(bits: seq<bool>, base: nat, k: nat): set<nat>
    requires k <= |bits|
  {
    set s | base <= s < base + k && TakenIn(bits, base, s)
  }

  lemma {:induction false} UsedInCount(bits: seq<bool>, base: nat, k: nat)
    requires k <= |bits|
    ensures |UsedIn(bits, base, k)| + Clear(bits[..k]) == k
  {
    if k == 0 {
      assert UsedIn(bits, base, k) == {};
    } else {
      UsedInCount(bits, base, k - 1);
      assert bits[..k][..k - 1] == bits[..k - 1];
      var u := UsedIn(bits, base, k - 1);
      assert UsedIn(bits, base, k) == if bits[k - 1] then u + {base + k - 1} else u;
    }
  }

  lemma UsedBelowStep(node: Node, i: nat)
    requires Shape(node) && 0 < i <= |node|
    ensures UsedBelow(node, i) == UsedBelow(node, i - 1) + UsedIn(node[i - 1].bits, (i - 1) * CHUNK_PAGES, CHUNK_PAGES)
    ensures UsedBelow(node, i - 1) !! UsedIn(node[i - 1].bits, (i - 1) * CHUNK_PAGES, CHUNK_PAGES)
  {
    var base := (i - 1) * CHUNK_PAGES;
    forall s | base <= s < base + CHUNK_PAGES
      ensures Bit(node, s) == TakenIn(node[i - 1].bits, base, s)
    {
      assert s / CHUNK_PAGES == i - 1;
    }
  }

  lemma {:induction false} UsedBelowCount(node: Node, i: nat)
    requires Shape(node) && i <= |node|
    ensures |UsedBelow(node, i)| + ClearBelow(node, i) == i * CHUNK_PAGES
  {
    if i == 0 {
      assert UsedBelow(node, i) == {};
    } else {
      UsedBelowCount(node, i - 1);
      UsedBelowStep(node, i);
      UsedInCount(node[i - 1].bits, (i - 1) * CHUNK_PAGES, CHUNK_PAGES);
      assert node[i - 1].bits[..CHUNK_PAGES] == node[i - 1].bits;
    }
  }

  lemma TruthfulIsSound(node: Node)
    requires Truthful(node)
    ensures SoundNode(node)
  {
    forall i | 0 <= i < |node|
      ensures Sound(node[i])
    {
      CounterTruth(node[i]);
    }
  }

  lemma {:induction false} FreeIsClear(node: Node, i: nat)
    requires i <= |node| && Truthful(node)
    ensures FreeBelow(node, i) == ClearBelow(node, i)
  {
    if i > 0 {
      FreeIsClear(node, i - 1);
    }
  }

  // Replacing one chunk moves exactly the prefixes above it.
  lemma {:induction false} ClearBelowUpdate(node: Node, k: nat, c: Chunk, i: nat)
    requires k < |node| && i <= |node|
    ensures ClearBelow(node[k := c], i)
         == ClearBelow(node, i) + if k < i then Clear(c.bits) - Clear(node[k].bits) else 0
  {
    if i > 0 {
      ClearBelowUpdate(node, k, c, i - 1);
    }
  }

  // One claim removes one clear bit from every prefix above its chunk; one release adds one.
  lemma ClaimClears(node: Node, i: nat, j: nat)
    requires Shape(node) && Truthful(node) && i < NR_CHUNKS && j <= NR_CHUNKS && node[i].free != 0
    ensures ClearBelow(ClaimAt(node, i), j) == ClearBelow(node, j) - if i < j then 1 else 0
  {
    var c := node[i];
    CounterTruth(c);
    ClearUpdate(c.bits, FirstZero(c.bits), true);
    ClearBelowUpdate(node, i, Claim(c), j);
  }

  lemma ReleaseClears(node: Node, slot: nat, j: nat)
    requires Shape(node) && slot < NR_PAGES && Bit(node, slot) && j <= NR_CHUNKS
    ensures ClearBelow(ReleaseSlot(node, slot), j) == ClearBelow(node, j) + if slot / CHUNK_PAGES < j then 1 else 0
  {
    var i := slot / CHUNK_PAGES;
    ClearUpdate(node[i].bits, slot % CHUNK_PAGES, false);
    ClearBelowUpdate(node, i, Release(node[i], slot % CHUNK_PAGES), j);
  }
}

// The constants and the index word of remote_schedule.h.
module Layout {

  const PAGE_SIZE: nat := 4096
  const CHUNK_PAGES: nat := 16384
  const REMOTE_BUF_SIZE: nat := 8589934592
  // What each memory server really allocates: half of REMOTE_BUF_SIZE.
  const SERVER_BUF_SIZE: nat := 4294967296
  const NR_PAGES: nat := 2097152
  const NR_CHUNKS: nat := 128

  const ENOMEM: int := 12

  newtype byte = x: int | 0 <= x < 256

  // The contents of a page.
  type Page = seq<byte>

  datatype Option<+T> = None | Some(value: T)

  // A page frame of one memory node.
  datatype Loc = Loc(node: nat, slot: nat)

  function DivRoundUp(n: nat, d: nat): nat
    requires d > 0
  {
    (n + d - 1) / d
  }

  // One chunk per 64 MB, and the chunks cover the swap area exactly.
  lemma Geometry()
    ensures NR_PAGES * PAGE_SIZE == REMOTE_BUF_SIZE
    ensures DivRoundUp(NR_PAGES, CHUNK_PAGES) == NR_CHUNKS
    ensures NR_CHUNKS * CHUNK_PAGES == NR_PAGES
    ensures SERVER_BUF_SIZE == (NR_PAGES / 2) * PAGE_SIZE
  {
  }

  // The index word: the slot shifted left by four bits in a 64-bit word, with the low four
  // bits of the node id below it.
  function MakeXaMsg(slot: nat, node: nat): nat {
    slot * 16 % 0x1_0000_0000_0000_0000 + node % 16
  }

  function RemoteType(word: nat): nat {
    word % 16
  }

  function RemoteSlot(word: nat): nat {
    word / 16
  }

  function Unpack(word: nat): Loc {
    Loc(RemoteType(word), RemoteSlot(word))
  }

  // Packing loses nothing exactly for node ids below 16 and slots below 2^60.
  lemma PackRoundTrip(slot: nat, node: nat)
    ensures Unpack(MakeXaMsg(slot, node)) == Loc(node, slot)
       <==> node < 16 && slot < 0x1000_0000_0000_0000
  {
    var high := slot * 16 % 0x1_0000_0000_0000_0000;
    assert high == 16 * (slot % 0x1000_0000_0000_0000);
    assert RemoteSlot(MakeXaMsg(slot, node)) == slot % 0x1000_0000_0000_0000;
  }

  // The same three macros on machine words.
  function MakeXaMsgBits(slot: bv64, node: bv64): bv64 {
    (slot << 4) | (node & 0xF)
  }

  function RemoteTypeBits(word: bv64): bv64 {
    word & 0xF
  }

  function RemoteSlotBits(word: bv64): bv64 {
    word >> 4
  }

  // Shift, mask and or compute the wrapping product, remainder and sum used by MakeXaMsg,
  // and the machine-word round trip fails on exactly the same inputs.
  lemma WordMacros(slot: bv64, node: bv64)
    ensures MakeXaMsgBits(slot, node) == slot * 16 + node % 16
    ensures RemoteTypeBits(slot) == slot % 16 && RemoteSlotBits(slot) == slot / 16
    ensures RemoteSlotBits(MakeXaMsgBits(slot, node)) == slot <==> slot < 0x1000_0000_0000_0000
    ensures RemoteTypeBits(MakeXaMsgBits(slot, node)) == node <==> node < 16
  {
  }
}

// The direct mode of multiswap.c over the DRAM back end: every page at the offset its id names.
module DirectMode {
  import opened Layout
  import opened Transport

  class DramBackend {
    const drambuf: array<byte>

    ghost predicate Valid() {
      drambuf.Length == REMOTE_BUF_SIZE
    }

    constructor ()
      ensures Valid() && fresh(drambuf) && forall i :: 0 <= i < REMOTE_BUF_SIZE ==> drambuf[i] == 0
    {
      drambuf := new byte[REMOTE_BUF_SIZE](_ => 0);
    }

    // The copy, if one is made, does not run past the end of the buffer.
    predicate InBuffer(roffset: nat) {
      roffset < REMOTE_BUF_SIZE ==> roffset + PAGE_SIZE <= REMOTE_BUF_SIZE
    }

    method Write(page: Frame, roffset: nat) returns (ret: int)
      requires Valid() && |page.data| == PAGE_SIZE && InBuffer(roffset)
      modifies drambuf
      ensures roffset >= REMOTE_BUF_SIZE ==> ret == -1 && drambuf[..] == old(drambuf[..])
      ensures roffset < REMOTE_BUF_SIZE ==> ret == 0 && drambuf[..] == PutPage(old(drambuf[..]), roffset, page.data)
    {
      if roffset >= REMOTE_BUF_SIZE {
        return -1;
      }
      ghost var before := drambuf[..];
      var data := page.data;
      forall j | 0 <= j < PAGE_SIZE {
        drambuf[roffset + j] := data[j];
      }
      assert drambuf[..] == PutPage(before, roffset, data);
      ret := 0;
    }

    method ReadSync(page: Frame, roffset: nat) returns (ret: int)
      requires Valid() && InBuffer(roffset) && page.locked && !page.uptodate
      modifies page
      ensures roffset >= REMOTE_BUF_SIZE ==> ret == -1 && page.data == old(page.data)
      ensures roffset < REMOTE_BUF_SIZE ==>
                ret == 0 && page.data == PageAt(drambuf[..], roffset) && page.uptodate && !page.locked
    {
      if roffset >= REMOTE_BUF_SIZE {
        return -1;
      }
      page.data := drambuf[roffset..roffset + PAGE_SIZE];
      page.uptodate, page.locked := true, false;
      ret := 0;
    }

    // sswap_store in the direct mode: the page's own range changes, every other page's stays.
    method Store(pageid: nat, page: Frame) returns (ret: int)
      requires Valid() && |page.data| == PAGE_SIZE
      modifies drambuf
      ensures ret == if pageid < NR_PAGES then 0 else -1
      ensures forall p :: 0 <= p < NR_PAGES ==>
                PageAt(drambuf[..], p * PAGE_SIZE) ==
                (if p == pageid then page.data else PageAt(old(drambuf[..]), p * PAGE_SIZE))
    {
      ghost var before := drambuf[..];
      ret := Write(page, pageid * PAGE_SIZE);
      if ret == 0 {
        forall p | 0 <= p < NR_PAGES
          ensures PageAt(drambuf[..], p * PAGE_SIZE) ==
                  (if p == pageid then page.data else PageAt(before, p * PAGE_SIZE))
        {
          PutPageAt(before, pageid * PAGE_SIZE, page.data, p * PAGE_SIZE);
        }
      }
    }

    // sswap_load in the direct mode
    method Load(pageid: nat, page: Frame) returns (ret: int)
      requires Valid() && page.locked && !page.uptodate
      modifies page
      ensures ret == if pageid < NR_PAGES then 0 else -1
      ensures pageid < NR_PAGES ==>
                page.data == PageAt(drambuf[..], pageid * PAGE_SIZE) && page.uptodate && !page.locked
    {
      ret := ReadSync(page, pageid * PAGE_SIZE);
    }
  }
}

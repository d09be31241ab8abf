/** What each paging step keeps: the agreement of page tables, frames and blocks, and
    the contents of every page. */
module PagingSteps {
  import opened Common
  import opened SwapLayout
  import opened Paging

  /** The bytes of the page that owns block b, wherever they are. */
  ghost function Content(c: Config, s: Vm, b: int): (p: seq<Byte>)
    requires Consistent(c, s) && 0 <= b < |s.blocks| && !IsFree(s.blocks[b])
    ensures |p| == c.pageSize
  {
    var e := Pte(s, s.blocks[b].pid, s.blocks[b].page);
    if e.incore then s.ram[e.frame] else PageOnDisk(c, s.disk, b)
  }

  /** Both states hold the same pages with the same bytes. */
  ghost predicate SameContents(c: Config, s: Vm, s': Vm)
    requires Consistent(c, s) && Consistent(c, s')
  {
    forall b :: 0 <= b < |s.blocks| && !IsFree(s.blocks[b]) ==>
      && s'.blocks[b].pid == s.blocks[b].pid && s'.blocks[b].page == s.blocks[b].page
      && Content(c, s', b) == Content(c, s, b)
  }

  /** A frame nobody maps and that names no block. */
  ghost predicate Unmapped(s: Vm, f: int) {
    && 0 <= f < |s.frames| && s.frames[f].blockNum == -1
    && forall pid, page :: InCore(s, pid, page) ==> Pte(s, pid, page).frame != f
  }

  lemma NoBlockUnmapped(c: Config, s: Vm, f: int)
    requires Consistent(c, s) && 0 <= f < c.frames && s.frames[f].blockNum == -1
    ensures Unmapped(s, f)
  {
    forall pid, page | InCore(s, pid, page)
      ensures Pte(s, pid, page).frame != f
    {
      assert Owns(s, s.frames[Pte(s, pid, page).frame].blockNum, pid, page);
    }
  }

  /** Agreement of tables, frames and blocks does not depend on memory, disk, access bits
      or the hand. */
  lemma HardwareIrrelevant(c: Config, s: Vm, s': Vm)
    requires Consistent(c, s) && Shape(c, s')
    requires s' == s.(ram := s'.ram, access := s'.access, disk := s'.disk, hand := s'.hand)
    ensures Consistent(c, s') && SamePtes(s, s')
  {
    assert SamePtes(s, s');
    forall p, g | InCore(s', p, g)
      ensures var e := Pte(s', p, g);
              e.frame < c.frames && e.read && e.write && Owns(s', s'.frames[e.frame].blockNum, p, g)
    {
      assert InCore(s, p, g);
    }
    assert FramesMatch(c, s');
    assert BlocksMatch(c, s');
  }

  /** Every process's table reads the same. */
  ghost predicate SamePtes(s: Vm, s': Vm) {
    forall p, g :: (HasPte(s', p, g) <==> HasPte(s, p, g)) && (HasPte(s, p, g) ==> Pte(s', p, g) == Pte(s, p, g))
  }

  /** Taking a frame away from its page, as far as the tables are concerned. */
  lemma EvictedConsistent(c: Config, s: Vm, t: int)
    requires Consistent(c, s) && 0 <= t < c.frames
    ensures var b := s.frames[t].blockNum;
            && (b == -1 || (0 <= b < |s.blocks| && HasPte(s, s.blocks[b].pid, s.blocks[b].page)))
            && Consistent(c, OwnerUnmapped(s, b).(frames := s.frames[t := FrameInfo(true, -1)]))
  {
    var b := s.frames[t].blockNum;
    var s' := OwnerUnmapped(s, b).(frames := s.frames[t := FrameInfo(true, -1)]);
    forall pid, page | InCore(s', pid, page)
      ensures var e := Pte(s', pid, page);
              e.frame < c.frames && e.read && e.write && Owns(s', s'.frames[e.frame].blockNum, pid, page)
    {
      assert InCore(s, pid, page);
    }
    assert PtesMatch(c, s');
    assert FramesMatch(c, s');
    assert BlocksMatch(c, s');
  }

  lemma SwapOutConsistent(c: Config, s: Vm, slack: seq<Byte>)
    requires Consistent(c, s) && SlackFits(c, slack)
    ensures Consistent(c, SwapOut(c, s, slack))
  {
    var t := Victim(c, s);
    var b := s.frames[t].blockNum;
    EvictedConsistent(c, s, t);
    if b != -1 && s.access[t].dirty {
      WriteBlockPages(c, s.disk, b, s.ram[t] + slack);
    }
    var evicted := OwnerUnmapped(s, b).(frames := s.frames[t := FrameInfo(true, -1)]);
    HardwareIrrelevant(c, evicted, SwapOut(c, s, slack));
  }

  /** Eviction changes no page's contents: the victim's page is afterwards on disk, byte
      for byte, and every other page is where it was. */
  lemma SwapOutKeepsContents(c: Config, s: Vm, slack: seq<Byte>)
    requires Consistent(c, s) && CleanMatchesDisk(c, s) && SlackFits(c, slack)
    ensures Consistent(c, SwapOut(c, s, slack))
    ensures SwapOut(c, s, slack).blocks == s.blocks && SwapOut(c, s, slack).pool == s.pool
    ensures SameContents(c, s, SwapOut(c, s, slack))
    ensures CleanMatchesDisk(c, SwapOut(c, s, slack))
    ensures Unmapped(SwapOut(c, s, slack), Victim(c, s))
    ensures forall pid, page :: InCore(SwapOut(c, s, slack), pid, page) ==> InCore(s, pid, page)
    ensures forall f :: 0 <= f < c.frames && f != Victim(c, s) ==> SwapOut(c, s, slack).frames[f] == s.frames[f]
  {
    SwapOutConsistent(c, s, slack);
    var t, s' := Victim(c, s), SwapOut(c, s, slack);
    var v := s.frames[t].blockNum;
    if v != -1 && s.access[t].dirty {
      WriteBlockPages(c, s.disk, v, s.ram[t] + slack);
      assert (s.ram[t] + slack)[..c.pageSize] == s.ram[t];
    }
    forall b | 0 <= b < |s.blocks| && !IsFree(s.blocks[b])
      ensures Content(c, s', b) == Content(c, s, b)
    {
      assert HasPte(s, s.blocks[b].pid, s.blocks[b].page);
    }
    NoBlockUnmapped(c, s', t);
  }

  // ---------------------------------------------------------------- swapping in

  /** The position SwapIn is called in: a live process's unmapped page, and a frame that
      is out of the pool and holds nothing. */
  ghost predicate ReadyToFill(c: Config, s: Vm, pid: int, page: int, f: int) {
    && Consistent(c, s) && CleanMatchesDisk(c, s)
    && HasPte(s, pid, page) && pid != c.pager && !InCore(s, pid, page)
    && Unmapped(s, f) && s.pool[f].used
    && (forall g :: 0 <= g < c.frames && g != f ==> !s.frames[g].isBusy)
  }

  lemma SetPteReads(s: Vm, pid: int, page: int, e: PTE)
    requires HasPte(s, pid, page)
    ensures forall p, g :: HasPte(SetPte(s, pid, page, e), p, g) <==> HasPte(s, p, g)
    ensures forall p, g :: HasPte(s, p, g) ==>
              Pte(SetPte(s, pid, page, e), p, g) == if p == pid && g == page then e else Pte(s, p, g)
  {
  }

  /** Mapping a page onto an unmapped frame together with the page's block. */
  lemma PlacedConsistent(c: Config, s: Vm, pid: int, page: int, f: int, b: int)
    requires Consistent(c, s)
    requires HasPte(s, pid, page) && pid != c.pager && !InCore(s, pid, page)
    requires Unmapped(s, f) && s.pool[f].used && Owns(s, b, pid, page)
    ensures var s' := Placed(s, pid, page, f, b);
            && Consistent(c, s') && InCore(s', pid, page) && Pte(s', pid, page).frame == f
            && forall p, g :: HasPte(s, p, g) && (p != pid || g != page) ==>
              HasPte(s', p, g) && Pte(s', p, g) == Pte(s, p, g)
  {
    var s' := Placed(s, pid, page, f, b);
    var s1 := SetPte(s, pid, page, PTE(true, true, true, f));
    SetPteReads(s, pid, page, PTE(true, true, true, f));
    assert forall p, g :: HasPte(s1, p, g) ==> HasPte(s', p, g) && Pte(s', p, g) == Pte(s1, p, g);
    assert Shape(c, s');
    forall p, g | InCore(s', p, g)
      ensures var e := Pte(s', p, g);
              e.frame < c.frames && e.read && e.write && Owns(s', s'.frames[e.frame].blockNum, p, g)
    {
      if p != pid || g != page {
        assert InCore(s, p, g);
        assert Owns(s, s.frames[Pte(s, p, g).frame].blockNum, p, g);
      }
    }
    forall h | 0 <= h < c.frames && s'.frames[h].blockNum != -1
      ensures var o := s'.frames[h].blockNum;
              && 0 <= o < |s'.blocks| && !IsFree(s'.blocks[o])
              && InCore(s', s'.blocks[o].pid, s'.blocks[o].page)
              && Pte(s', s'.blocks[o].pid, s'.blocks[o].page).frame == h
    {
      if h != f {
        assert s.frames[h].blockNum == s'.frames[h].blockNum;
      }
    }
    forall o | 0 <= o < |s'.blocks| && !IsFree(s'.blocks[o])
      ensures HasPte(s', s'.blocks[o].pid, s'.blocks[o].page)
    {
      assert HasPte(s, s.blocks[o].pid, s.blocks[o].page);
    }
    assert s'.tables[c.pager] == s.tables[c.pager];
  }

  /** A page that has a block comes back with its contents; nothing else changes. */
  lemma SwapInRestores(c: Config, s: Vm, pid: int, page: int, f: int)
    requires ReadyToFill(c, s, pid, page, f)
    requires FindBlock(s.blocks, pid, page) != -1
    ensures var (s', r) := SwapIn(c, s, pid, page, f);
            r == SwapReply.SUCCESS && Inv(c, s') && s'.blocks == s.blocks && SameContents(c, s, s')
              && InCore(s', pid, page)
  {
    var b := FindBlock(s.blocks, pid, page);
    assert Owns(s, b, pid, page);
    var filled := s.(ram := s.ram[f := PageOnDisk(c, s.disk, b)], access := s.access[f := Access(true, true)]);
    var s' := SwapIn(c, s, pid, page, f).0;
    HardwareIrrelevant(c, s, filled);
    assert Unmapped(filled, f);
    PlacedConsistent(c, filled, pid, page, f, b);
    forall o | 0 <= o < |s.blocks| && !IsFree(s.blocks[o])
      ensures Content(c, s', o) == Content(c, s, o)
    {
      assert HasPte(s, s.blocks[o].pid, s.blocks[o].page);
      if o != b {
        assert s.blocks[o].pid != pid || s.blocks[o].page != page;
      }
    }
  }

  lemma {:induction false} CountFreeUpdate(blocks: seq<Block>, i: nat, b: Block)
    requires i < |blocks|
    ensures CountFree(blocks[i := b]) ==
            CountFree(blocks) - (if IsFree(blocks[i]) then 1 else 0) + (if IsFree(b) then 1 else 0)
  {
    var front := blocks[..|blocks| - 1];
    if i == |blocks| - 1 {
      assert blocks[i := b][..|blocks| - 1] == front;
    } else {
      CountFreeUpdate(front, i, b);
      assert blocks[i := b][..|blocks| - 1] == front[i := b];
    }
  }

  /** Giving a free block to a page that has none. */
  lemma GivenConsistent(c: Config, s: Vm, pid: int, page: int, n: int, b: Block)
    requires Consistent(c, s) && HasPte(s, pid, page) && pid != c.pager && !InCore(s, pid, page)
    requires FindBlock(s.blocks, pid, page) == -1
    requires 0 <= n < |s.blocks| && IsFree(s.blocks[n])
    requires b.pid == pid && b.page == page && b.track == TrackOf(c, n) && b.first == FirstOf(c, n)
    ensures Consistent(c, s.(blocks := s.blocks[n := b], free := s.free - 1))
    ensures forall p, g :: HasPte(s, p, g) <==> HasPte(s.(blocks := s.blocks[n := b], free := s.free - 1), p, g)
    ensures forall p, g :: HasPte(s, p, g) ==>
               Pte(s.(blocks := s.blocks[n := b], free := s.free - 1), p, g) == Pte(s, p, g)
  {
    var s' := s.(blocks := s.blocks[n := b], free := s.free - 1);
    CountFreeUpdate(s.blocks, n, b);
    assert forall p, g :: HasPte(s', p, g) <==> HasPte(s, p, g);
    assert forall p, g :: HasPte(s, p, g) ==> Pte(s', p, g) == Pte(s, p, g);
    assert Shape(c, s');
    forall p, g | InCore(s', p, g)
      ensures var e := Pte(s', p, g);
              e.frame < c.frames && e.read && e.write && Owns(s', s'.frames[e.frame].blockNum, p, g)
    {
      assert InCore(s, p, g);
      assert Owns(s, s.frames[Pte(s, p, g).frame].blockNum, p, g);
    }
    assert FramesMatch(c, s');
    assert BlocksMatch(c, s');
    forall i, j | 0 <= i < j < |s'.blocks| && !IsFree(s'.blocks[i]) && !IsFree(s'.blocks[j])
      ensures s'.blocks[i].pid != s'.blocks[j].pid || s'.blocks[i].page != s'.blocks[j].page
    {
      assert s.blocks[i].pid != pid || s.blocks[i].page != page;
      assert s.blocks[j].pid != pid || s.blocks[j].page != page;
    }
  }

  lemma FreeIsFirst(blocks: seq<Block>)
    requires FindFree(blocks) != -1
    ensures IsFree(blocks[FindFree(blocks)]) && forall b :: 0 <= b < FindFree(blocks) ==> !IsFree(blocks[b])
  {
    var free := (b: Block) => IsFree(b);
    assert forall b :: 0 <= b < FindFree(blocks) ==> !free(blocks[b]);
  }

  /** A page that has no block gets the first free one and reads as zeros once the pager has cleared
      the frame; nothing else changes. */
  lemma SwapInFresh(c: Config, s: Vm, pid: int, page: int, f: int)
    requires ReadyToFill(c, s, pid, page, f)
    requires FindBlock(s.blocks, pid, page) == -1 && s.free != 0
    ensures var (s1, r) := SwapIn(c, s, pid, page, f);
            var s', n := Zeroed(c, s1, f), FindFree(s.blocks);
            && r == EMPTY_PAGE && Inv(c, s') && InCore(s', pid, page)
            && 0 <= n < |s.blocks| && IsFree(s.blocks[n]) && (forall b :: 0 <= b < n ==> !IsFree(s.blocks[b]))
            && s'.blocks == s.blocks[n := s'.blocks[n]] && Owns(s', n, pid, page) && s'.blocks[n].frame == f
            && Content(c, s', n) == Repeat(c.pageSize, 0)
            && SameContents(c, s, s')
  {
    FreeExists(s.blocks);
    var n := FindFree(s.blocks);
    FreeIsFirst(s.blocks);
    var s1 := SwapIn(c, s, pid, page, f).0;
    var s' := Zeroed(c, s1, f);
    var given := s.(blocks := s1.blocks, free := s.free - 1);
    GivenConsistent(c, s, pid, page, n, s1.blocks[n]);
    assert Unmapped(given, f);
    PlacedConsistent(c, given, pid, page, f, n);
    HardwareIrrelevant(c, s1, s');
    forall o | 0 <= o < |s.blocks| && !IsFree(s.blocks[o])
      ensures s'.blocks[o] == s.blocks[o] && Content(c, s', o) == Content(c, s, o)
    {
      assert HasPte(s, s.blocks[o].pid, s.blocks[o].page);
      assert s.blocks[o].pid != pid || s.blocks[o].page != page;
    }
  }

  /** With no block to give, only the busy mark of the frame changes. */
  lemma SwapInFull(c: Config, s: Vm, pid: int, page: int, f: int)
    requires ReadyToFill(c, s, pid, page, f)
    requires FindBlock(s.blocks, pid, page) == -1 && s.free == 0
    ensures var (s', r) := SwapIn(c, s, pid, page, f);
            r == OUT_OF_SWAP && Inv(c, s') && s'.blocks == s.blocks && SameContents(c, s, s')
  {
    var s' := SwapIn(c, s, pid, page, f).0;
    assert forall p, g :: HasPte(s', p, g) <==> HasPte(s, p, g);
    assert forall p, g :: HasPte(s, p, g) ==> Pte(s', p, g) == Pte(s, p, g);
    assert Shape(c, s');
    forall p, g | InCore(s', p, g)
      ensures var e := Pte(s', p, g);
              e.frame < c.frames && e.read && e.write && Owns(s', s'.frames[e.frame].blockNum, p, g)
    {
      assert InCore(s, p, g);
      assert Owns(s, s.frames[Pte(s, p, g).frame].blockNum, p, g);
    }
    assert FramesMatch(c, s');
  }

  // ---------------------------------------------------------------- a whole fault service

  /** Whichever way the frame is found, the state is then ready for SwapIn, and finding
      it changed no page's contents. */
  lemma AcquireReady(c: Config, s: Vm, pid: int, page: int, slack: seq<Byte>)
    requires Inv(c, s) && SlackFits(c, slack)
    requires HasPte(s, pid, page) && pid != c.pager && !InCore(s, pid, page)
    ensures var (s', f) := Acquire(c, s, slack);
            ReadyToFill(c, s', pid, page, f) && s'.blocks == s.blocks && s'.free == s.free && SameContents(c, s, s')
  {
    var (s', f) := Acquire(c, s, slack);
    if FirstIndex(s.pool, (p: PoolFrame) => !p.used) != -1 {
      NoBlockUnmapped(c, s, f);
      assert forall p, g :: HasPte(s', p, g) <==> HasPte(s, p, g);
      assert forall p, g :: HasPte(s, p, g) ==> Pte(s', p, g) == Pte(s, p, g);
      assert Shape(c, s');
      forall p, g | InCore(s', p, g)
        ensures var e := Pte(s', p, g);
                e.frame < c.frames && e.read && e.write && Owns(s', s'.frames[e.frame].blockNum, p, g)
      {
        assert InCore(s, p, g);
      }
      assert FramesMatch(c, s');
      assert BlocksMatch(c, s');
    } else {
      SwapOutKeepsContents(c, s, slack);
      assert !((p: PoolFrame) => !p.used)(s.pool[f]);
      assert HasPte(s', pid, page);
    }
  }

  /** The pager's service of a fault of `pid` on `page`. */
  ghost function Fault(c: Config, s: Vm, pid: int, page: int, slack: seq<Byte>): (r: (Vm, SwapReply))
    requires Inv(c, s) && SlackFits(c, slack)
    requires HasPte(s, pid, page) && pid != c.pager && !InCore(s, pid, page)
  {
    AcquireReady(c, s, pid, page, slack);
    var (s1, f) := Acquire(c, s, slack);
    var (s2, reply) := SwapIn(c, s1, pid, page, f);
    (if reply == EMPTY_PAGE then Zeroed(c, s2, f) else s2, reply)
  }

  /** A fault service answers OUT_OF_SWAP exactly when the page has no block and none is
      free; otherwise the page is mapped afterwards. It keeps the contents of every page
      that had any (the faulting page, the victim and all others), and a page that had
      none reads as zeros. */
  lemma FaultKeepsContents(c: Config, s: Vm, pid: int, page: int, slack: seq<Byte>)
    requires Inv(c, s) && SlackFits(c, slack)
    requires HasPte(s, pid, page) && pid != c.pager && !InCore(s, pid, page)
    ensures var (s', reply) := Fault(c, s, pid, page, slack);
            && Inv(c, s')
            && SameContents(c, s, s')
            && (reply == OUT_OF_SWAP <==> FindBlock(s.blocks, pid, page) == -1 && s.free == 0)
            && (reply != OUT_OF_SWAP ==> InCore(s', pid, page))
            && (reply == SwapReply.SUCCESS || reply == OUT_OF_SWAP ==> s'.blocks == s.blocks)
            && (reply == EMPTY_PAGE ==>
                  var n := FindFree(s.blocks);
                  && 0 <= n < |s.blocks| && IsFree(s.blocks[n])
                  && s'.blocks == s.blocks[n := s'.blocks[n]] && Owns(s', n, pid, page)
                  && Content(c, s', n) == Repeat(c.pageSize, 0))
            && reply in {SwapReply.SUCCESS, EMPTY_PAGE, OUT_OF_SWAP}
            && (reply == EMPTY_PAGE ==> FindBlock(s.blocks, pid, page) == -1)
  {
    AcquireReady(c, s, pid, page, slack);
    var (s1, f) := Acquire(c, s, slack);
    if FindBlock(s.blocks, pid, page) != -1 {
      SwapInRestores(c, s1, pid, page, f);
    } else if s.free == 0 {
      SwapInFull(c, s1, pid, page, f);
    } else {
      SwapInFresh(c, s1, pid, page, f);
    }
  }

  /** A served fault leaves the page mapped, readable and writable, at the frame found. */
  lemma FaultMaps(c: Config, s: Vm, pid: int, page: int, slack: seq<Byte>)
    requires Inv(c, s) && SlackFits(c, slack)
    requires HasPte(s, pid, page) && pid != c.pager && !InCore(s, pid, page)
    requires Fault(c, s, pid, page, slack).1 != OUT_OF_SWAP
    ensures var s' := Fault(c, s, pid, page, slack).0;
            HasPte(s', pid, page) && Pte(s', pid, page) == PTE(true, true, true, Acquire(c, s, slack).1)
  {
    AcquireReady(c, s, pid, page, slack);
  }

  // ---------------------------------------------------------------- user accesses, start and exit

  /** A load the MMU translates: it marks the frame referenced. */
  ghost function Load(c: Config, s: Vm, pid: int, page: int, off: int): (Vm, Byte)
    requires Consistent(c, s) && InCore(s, pid, page) && 0 <= off < c.pageSize
  {
    assert Owns(s, s.frames[Pte(s, pid, page).frame].blockNum, pid, page);
    var f := Pte(s, pid, page).frame;
    (s.(access := s.access[f := Access(true, s.access[f].dirty)]), s.ram[f][off])
  }

  /** A store the MMU translates: it marks the frame referenced and dirty. */
  ghost function Store(c: Config, s: Vm, pid: int, page: int, off: int, v: Byte): Vm
    requires Consistent(c, s) && InCore(s, pid, page) && 0 <= off < c.pageSize
  {
    assert Owns(s, s.frames[Pte(s, pid, page).frame].blockNum, pid, page);
    var f := Pte(s, pid, page).frame;
    s.(access := s.access[f := Access(true, true)], ram := s.ram[f := s.ram[f][off := v]])
  }

  /** A new process's table maps nothing. */
  ghost function Spawn(c: Config, s: Vm, pid: int): Vm
    requires Shape(c, s) && 0 <= pid < c.maxProc
  {
    s.(tables := s.tables[pid := Some(Repeat(c.pages, EMPTY_PTE))])
  }

  ghost predicate Maps(table: seq<PTE>, f: int) {
    exists page :: 0 <= page < |table| && table[page].incore && table[page].frame == f
  }

  function CountOwned(blocks: seq<Block>, pid: int): nat {
    if blocks == [] then 0
    else CountOwned(blocks[..|blocks| - 1], pid) + (if blocks[|blocks| - 1].pid == pid then 1 else 0)
  }

  function Disowned(blocks: seq<Block>, pid: int): (r: seq<Block>)
    ensures |r| == |blocks|
  {
    seq(|blocks|, b requires 0 <= b < |blocks| => if blocks[b].pid == pid then FREE_BLOCK else blocks[b])
  }

  /** P3SwapFreeAll: the process's mapped pages are unmapped and their frames name no
      block any more; its blocks become free. */
  ghost function SwapFreeAll(c: Config, s: Vm, pid: int): Vm
    requires HasTable(s, pid)
  {
    var table := s.tables[pid].value;
    s.(tables := s.tables[pid := Some(Unlinked(table))],
       frames := Released(s.frames, table),
       blocks := Disowned(s.blocks, pid),
       free := s.free + CountOwned(s.blocks, pid))
  }

  function Unlinked(table: seq<PTE>): (r: seq<PTE>)
    ensures |r| == |table|
  {
    seq(|table|, i requires 0 <= i < |table| =>
                   if table[i].incore then PTE(false, false, false, table[i].frame) else table[i])
  }

  ghost function Released(frames: seq<FrameInfo>, table: seq<PTE>): (r: seq<FrameInfo>)
    ensures |r| == |frames|
  {
    seq(|frames|, f requires 0 <= f < |frames| => if Maps(table, f) then FrameInfo(false, -1) else frames[f])
  }

  /** P3FrameFreeAll: the frames of the process's mapped pages return to the pool. */
  ghost function FrameFreeAll(c: Config, s: Vm, pid: int): Vm
    requires HasTable(s, pid)
  {
    var table := s.tables[pid].value;
    s.(tables := s.tables[pid := Some(Cleared(table))], pool := Returned(s.pool, table))
  }

  function Cleared(table: seq<PTE>): (r: seq<PTE>)
    ensures |r| == |table|
  {
    seq(|table|, i requires 0 <= i < |table| => if table[i].incore then EMPTY_PTE else table[i])
  }

  ghost function Returned(pool: seq<PoolFrame>, table: seq<PTE>): (r: seq<PoolFrame>)
    ensures |r| == |pool|
  {
    seq(|pool|, f requires 0 <= f < |pool| => if Maps(table, f) then PoolFrame(false, -1) else pool[f])
  }

  /** What process exit does (P3_FreePageTable): both of these, then the table goes. */
  ghost function Exit(c: Config, s: Vm, pid: int): Vm {
    if !HasTable(s, pid) then s
    else
      var freed := FrameFreeAll(c, SwapFreeAll(c, s, pid), pid);
      freed.(tables := freed.tables[pid := None])
  }

  /** Because the swap side has already unmapped every page, the frame side finds none:
      no frame returns to the pool when a process exits. */
  lemma ExitReturnsNoFrame(c: Config, s: Vm, pid: int)
    ensures Exit(c, s, pid).pool == s.pool
    ensures HasTable(s, pid) ==> FrameFreeAll(c, SwapFreeAll(c, s, pid), pid) == SwapFreeAll(c, s, pid)
  {
    if HasTable(s, pid) {
      var s1 := SwapFreeAll(c, s, pid);
      var table := s1.tables[pid].value;
      assert forall f :: !Maps(table, f);
      assert Returned(s1.pool, table) == s1.pool;
      assert Cleared(table) == table;
      assert s1.tables[pid := Some(Cleared(table))] == s1.tables;
    }
  }

  lemma {:induction false} CountDisowned(blocks: seq<Block>, pid: int)
    requires pid != -1
    ensures CountFree(Disowned(blocks, pid)) == CountFree(blocks) + CountOwned(blocks, pid)
  {
    if blocks != [] {
      var front := blocks[..|blocks| - 1];
      CountDisowned(front, pid);
      assert Disowned(blocks, pid)[..|blocks| - 1] == Disowned(front, pid);
    }
  }

  /** Frame f is now referenced, and dirty if it was or has just been stored to; the other
      frames' bits, the hand and the disk are as before. */
  ghost predicate Referenced(s: Vm, s': Vm, f: int, stored: bool) {
    && |s'.access| == |s.access| && 0 <= f < |s.access| && s'.hand == s.hand && s'.disk == s.disk
    && s'.access[f].ref && (s'.access[f].dirty <==> s.access[f].dirty || stored)
    && forall g :: 0 <= g < |s.access| && g != f ==> s'.access[g] == s.access[g]
  }

  lemma LoadKeeps(c: Config, s: Vm, pid: int, page: int, off: int)
    requires Inv(c, s) && InCore(s, pid, page) && 0 <= off < c.pageSize
    ensures var (s', v) := Load(c, s, pid, page, off);
            && Inv(c, s') && s'.blocks == s.blocks && SameContents(c, s, s')
            && var b := s.frames[Pte(s, pid, page).frame].blockNum;
               Owns(s, b, pid, page) && v == Content(c, s, b)[off]
    ensures Referenced(s, Load(c, s, pid, page, off).0, Pte(s, pid, page).frame, false)
  {
    var s' := Load(c, s, pid, page, off).0;
    HardwareIrrelevant(c, s, s');
  }

  lemma StoreChangesOneByte(c: Config, s: Vm, pid: int, page: int, off: int, v: Byte)
    requires Inv(c, s) && InCore(s, pid, page) && 0 <= off < c.pageSize
    ensures var s' := Store(c, s, pid, page, off, v);
            && Inv(c, s') && s'.blocks == s.blocks
            && var b := s.frames[Pte(s, pid, page).frame].blockNum;
               && Owns(s, b, pid, page) && Content(c, s', b) == Content(c, s, b)[off := v]
               && forall o :: 0 <= o < |s.blocks| && o != b && !IsFree(s.blocks[o]) ==>
                 Content(c, s', o) == Content(c, s, o)
    ensures Referenced(s, Store(c, s, pid, page, off, v), Pte(s, pid, page).frame, true)
  {
    var s' := Store(c, s, pid, page, off, v);
    HardwareIrrelevant(c, s, s');
    var b := s.frames[Pte(s, pid, page).frame].blockNum;
    forall o | 0 <= o < |s.blocks| && o != b && !IsFree(s.blocks[o])
      ensures Content(c, s', o) == Content(c, s, o)
    {
      if InCore(s, s.blocks[o].pid, s.blocks[o].page) {
        assert Owns(s, s.frames[Pte(s, s.blocks[o].pid, s.blocks[o].page).frame].blockNum, s.blocks[o].pid,
                    s.blocks[o].page);
      }
    }
  }

  lemma SpawnKeeps(c: Config, s: Vm, pid: int)
    requires Inv(c, s) && 0 <= pid < c.maxProc && !HasTable(s, pid)
    ensures Inv(c, Spawn(c, s, pid)) && Spawn(c, s, pid).blocks == s.blocks && SameContents(c, s, Spawn(c, s, pid))
    ensures forall page :: HasPte(Spawn(c, s, pid), pid, page) <==> 0 <= page < c.pages
    ensures forall page :: 0 <= page < c.pages ==> Pte(Spawn(c, s, pid), pid, page) == PTE(false, false, false, 0)
    ensures forall p :: 0 <= p < c.maxProc && p != pid ==> Spawn(c, s, pid).tables[p] == s.tables[p]
  {
    var s' := Spawn(c, s, pid);
    assert forall p, g :: HasPte(s, p, g) ==> HasPte(s', p, g) && Pte(s', p, g) == Pte(s, p, g);
    assert Shape(c, s');
    forall p, g | InCore(s', p, g)
      ensures var e := Pte(s', p, g);
              e.frame < c.frames && e.read && e.write && Owns(s', s'.frames[e.frame].blockNum, p, g)
    {
      assert p != pid;
      assert InCore(s, p, g);
    }
    assert FramesMatch(c, s');
    assert BlocksMatch(c, s');
  }

  /** Of the tables, an exit takes one and leaves the others as they are. */
  lemma ExitKeepsTables(c: Config, s: Vm, pid: int)
    requires Consistent(c, s) && pid != c.pager && HasTable(s, pid)
    ensures var s' := Exit(c, s, pid);
            && Shape(c, s') && !HasTable(s', pid)
            && (forall p, g :: HasPte(s', p, g) ==> p != pid && HasPte(s, p, g) && Pte(s', p, g) == Pte(s, p, g))
            && (forall p, g :: HasPte(s, p, g) && p != pid ==> HasPte(s', p, g))
  {
    ExitReturnsNoFrame(c, s, pid);
    CountDisowned(s.blocks, pid);
  }

  lemma ExitKeepsBlocks(c: Config, s: Vm, pid: int)
    requires Consistent(c, s) && pid != c.pager && HasTable(s, pid)
    requires Shape(c, Exit(c, s, pid))
    ensures var s' := Exit(c, s, pid);
            && s'.blocks == Disowned(s.blocks, pid) && BlocksMatch(c, s') && OneBlockPerPage(s'.blocks)
              && s'.free == CountFree(s'.blocks)
  {
    ExitKeepsTables(c, s, pid);
    CountDisowned(s.blocks, pid);
  }

  lemma ExitKeepsPool(c: Config, s: Vm, pid: int)
    requires Consistent(c, s) && pid != c.pager && HasTable(s, pid)
    requires Shape(c, Exit(c, s, pid))
    ensures PoolMatches(c, Exit(c, s, pid)) && PagerEmpty(c, Exit(c, s, pid))
  {
    ExitReturnsNoFrame(c, s, pid);
  }

  lemma ExitConsistent(c: Config, s: Vm, pid: int)
    requires Consistent(c, s) && pid != c.pager && HasTable(s, pid)
    ensures Consistent(c, Exit(c, s, pid))
  {
    ExitKeepsTables(c, s, pid);
    ExitKeepsFrames(c, s, pid);
    ExitKeepsBlocks(c, s, pid);
    ExitKeepsPool(c, s, pid);
  }

  /** An exit frees exactly the process's blocks and changes no other page. */
  lemma ExitKeepsOthers(c: Config, s: Vm, pid: int)
    requires Inv(c, s) && pid != c.pager && 0 <= pid < c.maxProc
    ensures var s' := Exit(c, s, pid);
            && Inv(c, s') && !HasTable(s', pid)
            && s'.blocks == Disowned(s.blocks, pid)
            && forall b :: 0 <= b < |s.blocks| && !IsFree(s.blocks[b]) && s.blocks[b].pid != pid ==>
              Content(c, s', b) == Content(c, s, b)
  {
    if HasTable(s, pid) {
      ExitKeepsTables(c, s, pid);
      ExitKeepsBlocks(c, s, pid);
      ExitConsistent(c, s, pid);
    } else {
      assert forall b :: 0 <= b < |s.blocks| && !IsFree(s.blocks[b]) ==> HasPte(s, s.blocks[b].pid, s.blocks[b].page);
    }
  }

  lemma ExitKeepsFrames(c: Config, s: Vm, pid: int)
    requires Consistent(c, s) && pid != c.pager && HasTable(s, pid)
    requires Shape(c, Exit(c, s, pid))
    ensures PtesMatch(c, Exit(c, s, pid)) && FramesMatch(c, Exit(c, s, pid))
  {
    var s' := Exit(c, s, pid);
    ExitReturnsNoFrame(c, s, pid);
    forall p, g | InCore(s', p, g)
      ensures var e := Pte(s', p, g);
              e.frame < c.frames && e.read && e.write && Owns(s', s'.frames[e.frame].blockNum, p, g)
    {
      assert InCore(s, p, g);
      var f := Pte(s, p, g).frame;
      if Maps(s.tables[pid].value, f) {
        var page :| 0 <= page < |s.tables[pid].value| && s.tables[pid].value[page].incore
          && s.tables[pid].value[page].frame == f;
        assert InCore(s, pid, page);
        NoSharedFrames(c, s, pid, page, p, g);
      }
    }
    forall f | 0 <= f < c.frames && s'.frames[f].blockNum != -1
      ensures var b := s'.frames[f].blockNum;
              && 0 <= b < |s'.blocks| && !IsFree(s'.blocks[b])
              && InCore(s', s'.blocks[b].pid, s'.blocks[b].page)
              && Pte(s', s'.blocks[b].pid, s'.blocks[b].page).frame == f
    {
      var b := s.frames[f].blockNum;
      assert InCore(s, s.blocks[b].pid, s.blocks[b].page);
      assert !Maps(s.tables[pid].value, f);
      assert s.blocks[b].pid != pid;
    }
  }
}

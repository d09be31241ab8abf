/** The paging system as it runs: kernel tables in arrays changed in place, MMU and
    memory as hardware state, the swap disk behind the disk layer. Every method is
    proved to compute the corresponding function of modules Paging, PagingSteps and
    FrameMapping on the abstract state. */
module VirtualMemory {
  import opened Common
  import Disk
  import opened SwapLayout
  import opened Paging
  import opened PagingSteps
  import FrameMapping
  import PagingRuns
  import Clock

  const SWAP_DISK: int := 1

  class VmSystem {
    const c: Config
    const pageTables: array<Option<seq<PTE>>>
    const framesInfoArr: array<FrameInfo>
    const blockPool: array<Block>
    const framePool: array<PoolFrame>
    const swap: Disk.DiskLayer
    var numberOfFreeBlocks: int
    var hand: int
    /** Whom P1_GetPid names at present: a matter of the process table, given here. */
    var scanned: int
    // hardware
    var access: seq<Access>
    var ram: seq<seq<Byte>>

    /** The state as a value. */
    ghost function Abs(): Vm
      reads this, pageTables, framesInfoArr, blockPool, framePool, swap.unit1
    {
      Vm(pageTables[..], framesInfoArr[..], blockPool[..], numberOfFreeBlocks, hand, framePool[..],
         access, ram, if swap.unit1 == null then [] else swap.unit1.sectors)
    }

    ghost predicate Valid()
      reads this, pageTables, framesInfoArr, blockPool, framePool, swap, swap.unit0, swap.unit1
    {
      && swap.Valid() && swap.unit1 != null && swap.unit1.g == c.disk
      && Shape(c, Abs())
    }

    /** Initialisation (P3_VmInit with one pager): empty tables over whatever memory and
        disk hold. */
    constructor (c: Config, swap: Disk.DiskLayer, access: seq<Access>, ram: seq<seq<Byte>>)
      requires Sound(c) && swap.Valid() && swap.unit1 != null && swap.unit1.g == c.disk
      requires |access| == |ram| == c.frames && forall f :: 0 <= f < c.frames ==> |ram[f]| == c.pageSize
      ensures Valid() && this.c == c && this.swap == swap && PagingRuns.Booted(c, Abs())
      ensures fresh(pageTables) && fresh(framesInfoArr) && fresh(blockPool) && fresh(framePool)
    {
      this.c := c;
      this.swap := swap;
      pageTables := new Option<seq<PTE>>[c.maxProc](
        i => if i == c.pager then Some(Repeat(c.pages, EMPTY_PTE)) else None);
      framesInfoArr := new FrameInfo[c.frames](_ => FrameInfo(false, -1));
      framePool := new PoolFrame[c.frames](_ => PoolFrame(false, -1));
      blockPool := new Block[NumBlocks(c)](_ => FREE_BLOCK);
      numberOfFreeBlocks := NumBlocks(c);
      hand := -1;
      scanned := -1;
      this.access := access;
      this.ram := ram;
    }

    // -------------------------------------------------------------- hardware

    /** The MMU translates (pid, page) to frame f. */
    predicate Translates(pid: int, page: int, f: nat)
      reads this, pageTables
    {
      && |access| == |ram| == c.frames && f < c.frames
      && 0 <= pid < pageTables.Length && pageTables[pid].Some? && 0 <= page < |pageTables[pid].value|
      && var e := pageTables[pid].value[page]; e.incore && e.frame == f
    }

    /** A translated load. */
    method MmuLoad(pid: int, page: int, off: int, ghost f: nat) returns (v: Byte)
      requires Translates(pid, page, f) && 0 <= off < |ram[f]|
      modifies this`access
      ensures v == ram[f][off] && access == old(access)[f := Access(true, old(access)[f].dirty)]
    {
      var frame := pageTables[pid].value[page].frame;
      access := access[frame := Access(true, access[frame].dirty)];
      v := ram[frame][off];
    }

    /** A translated store. */
    method MmuStore(pid: int, page: int, off: int, v: Byte, ghost f: nat)
      requires Translates(pid, page, f) && 0 <= off < |ram[f]|
      modifies this`access, this`ram
      ensures access == old(access)[f := Access(true, true)] && ram == old(ram)[f := old(ram)[f][off := v]]
    {
      var frame := pageTables[pid].value[page].frame;
      access := access[frame := Access(true, true)];
      ram := ram[frame := ram[frame][off := v]];
    }

    /** A user's load of a mapped page. */
    method UserLoad(pid: int, page: int, off: int) returns (v: Byte)
      requires Valid() && Consistent(c, Abs()) && InCore(Abs(), pid, page) && 0 <= off < c.pageSize
      modifies this`access
      ensures Valid() && (Abs(), v) == Load(c, old(Abs()), pid, page, off)
    {
      assert Owns(Abs(), Abs().frames[Pte(Abs(), pid, page).frame].blockNum, pid, page);
      v := MmuLoad(pid, page, off, pageTables[pid].value[page].frame);
    }

    /** A user's store to a mapped page. */
    method UserStore(pid: int, page: int, off: int, v: Byte)
      requires Valid() && Consistent(c, Abs()) && InCore(Abs(), pid, page) && 0 <= off < c.pageSize
      modifies this`access, this`ram
      ensures Valid() && Abs() == Store(c, old(Abs()), pid, page, off, v)
    {
      assert Owns(Abs(), Abs().frames[Pte(Abs(), pid, page).frame].blockNum, pid, page);
      MmuStore(pid, page, off, v, pageTables[pid].value[page].frame);
    }

    // -------------------------------------------------------------- frame mapping

    /** P3FrameMap, into the table of the process that P1_GetPid names; `page` is where the
        frame appears. */
    method P3FrameMap(frame: int) returns (rc: FrameMapping.MapReply, page: int)
      requires Valid() && HasTable(Abs(), scanned)
      modifies pageTables, framePool
      ensures Valid()
      ensures (Abs(), rc) == FrameMapping.FrameMap(c, old(Abs()), scanned, frame)
      ensures page == FrameMapping.FirstUnused(old(pageTables[scanned].value))
    {
      var pid := scanned;
      var table := pageTables[pid].value;
      page := -1;
      if frame < 0 || frame >= c.frames {
        rc := FrameMapping.MapReply.INVALID_FRAME;
        page := FrameMapping.FirstUnused(table);
        return;
      }
      var i := 0;
      while i < c.pages && table[i].incore
        invariant 0 <= i <= c.pages
        invariant forall j :: 0 <= j < i ==> table[j].incore
      {
        i := i + 1;
      }
      assert i < c.pages ==> ((e: PTE) => !e.incore)(table[i]);
      if i == c.pages {
        rc := FrameMapping.OUT_OF_PAGES;
        return;
      }
      page := i;
      pageTables[pid] := Some(table[i := PTE(true, true, true, frame)]);
      framePool[frame] := framePool[frame].(mappedPid := pid);
      rc := FrameMapping.MAPPED;
    }

    /** P3FrameUnmap, out of the table of the process that P1_GetPid names. */
    method P3FrameUnmap(frame: int) returns (rc: FrameMapping.MapReply)
      requires Valid() && HasTable(Abs(), scanned) && FrameMapping.MarkTrue(c, Abs(), scanned, frame)
      modifies pageTables, framePool
      ensures Valid()
      ensures (Abs(), rc) == FrameMapping.FrameUnmap(c, old(Abs()), scanned, frame)
    {
      if frame < 0 || frame >= c.frames {
        return FrameMapping.MapReply.INVALID_FRAME;
      }
      var pid := scanned;
      if framePool[frame].mappedPid != pid {
        return FrameMapping.FRAME_NOT_MAPPED;
      }
      framePool[frame] := framePool[frame].(mappedPid := -1);
      var table := pageTables[pid].value;
      var i := 0;
      while i < c.pages && !(table[i].incore && table[i].frame == frame)
        invariant 0 <= i <= c.pages
        invariant forall j :: 0 <= j < i ==> !(table[j].incore && table[j].frame == frame)
      {
        i := i + 1;
      }
      assert i < c.pages ==> ((e: PTE) => e.incore && e.frame == frame)(table[i]);
      pageTables[pid] := Some(table[i := EMPTY_PTE]);
      return FrameMapping.MAPPED;
    }

    // -------------------------------------------------------------- eviction

    /** The clock loop of P3SwapOut over the frame table and the MMU's bits: within two
        turns it stops at the clock's choice. */
    static method TurnClock(frames: array<FrameInfo>, bits: seq<Access>, start: int)
      returns (hand: int, access: seq<Access>, ghost probes: nat)
      requires frames.Length == |bits| > 0 && -1 <= start < |bits|
      requires exists f :: 0 <= f < |bits| && !frames[f].isBusy
      ensures var busy, ref := BusyBits(frames[..]), RefBits(bits);
              && hand == Clock.Target(busy, ref, start)
              && access == WithRefs(bits, Clock.Cleared(busy, ref, start, Clock.Skipped(busy, ref, start)))
      ensures probes <= 2 * |bits|
    {
      ghost var busy, ref, n := BusyBits(frames[..]), RefBits(bits), |bits|;
      ghost var stop := Clock.Skipped(busy, ref, start);
      ghost var k: nat := 0;
      assert exists f :: 0 <= f < n && !busy[f] by {
        var f :| 0 <= f < n && !frames[f].isBusy;
        assert !busy[f];
      }
      Clock.StopsThere(busy, ref, start, 0);
      hand, access, probes := start, bits, 0;
      assert access == WithRefs(bits, Clock.Cleared(busy, ref, start, 0));
      while true
        invariant k <= stop < 2 * n
        invariant hand == if k == 0 then start else Clock.At(n, start, k - 1)
        invariant access == WithRefs(bits, Clock.Cleared(busy, ref, start, k))
        decreases stop - k
      {
        hand := (hand + 1) % frames.Length;
        Clock.Probe(busy, ref, start, k);
        WithRefsUpdate(bits, Clock.Cleared(busy, ref, start, k), hand);
        if !frames[hand].isBusy {
          if !access[hand].ref {
            probes := k + 1;
            break;
          } else {
            access := access[hand := access[hand].(ref := false)];
          }
        }
        k := k + 1;
      }
    }

    method SelectFrame() returns (target: nat)
      requires Valid() && exists f :: 0 <= f < c.frames && !framesInfoArr[f].isBusy
      modifies this`hand, this`access
      ensures Valid()
      ensures target == Victim(c, old(Abs()))
      ensures Abs() == old(Abs()).(hand := target, access := Swept(c, old(Abs())))
    {
      ghost var probes;
      hand, access, probes := TurnClock(framesInfoArr, access, hand);
      target := hand;
    }

    /** The scan names the pager, and the pager is where it is between uses of its table:
        nothing mapped, no mark on f. */
    ghost predicate PagerFree(f: int)
      reads this, pageTables, framesInfoArr, blockPool, framePool, swap, swap.unit0, swap.unit1
      requires Valid()
    {
      scanned == c.pager && 0 <= f < c.frames && PagerEmpty(c, Abs()) && framePool[f].mappedPid == -1
    }

    /** The pager copies frame f out through its own table. */
    method CopyFromFrame(f: int, buffer: array<Byte>)
      requires Valid() && PagerFree(f) && c.pageSize <= buffer.Length
      modifies this`access, pageTables, framePool, buffer
      ensures Valid()
      ensures Abs() == old(Abs()).(access := old(access)[f := Access(true, old(access)[f].dirty)])
      ensures buffer[..c.pageSize] == ram[f]
    {
      FrameMapping.EmptyTableRestored(c, Abs(), c.pager, f);
      var rc, page := P3FrameMap(f);
      assert rc == FrameMapping.MAPPED;
      ReadPage(page, f, buffer);
      rc := P3FrameUnmap(f);
      assert rc == FrameMapping.MAPPED;
    }

    method ReadPage(page: int, f: nat, buffer: array<Byte>)
      requires Translates(c.pager, page, f) && 0 < c.pageSize == |ram[f]| && c.pageSize <= buffer.Length
      modifies this`access, buffer
      ensures access == old(access)[f := Access(true, old(access)[f].dirty)]
      ensures buffer[..c.pageSize] == ram[f]
    {
      var i := 0;
      while i < c.pageSize
        invariant 0 <= i <= c.pageSize
        invariant access == if i == 0 then old(access) else old(access)[f := Access(true, old(access)[f].dirty)]
        invariant buffer[..i] == ram[f][..i]
      {
        buffer[i] := MmuLoad(c.pager, page, i, f);
        i := i + 1;
      }
    }

    /** The pager copies the front of a buffer into frame f through its own table. */
    method CopyToFrame(f: int, buffer: array<Byte>)
      requires Valid() && PagerFree(f) && c.pageSize <= buffer.Length
      modifies this`access, this`ram, pageTables, framePool
      ensures Valid()
      ensures Abs()
                == old(Abs()).(access := old(access)[f := Access(true, true)],
                               ram := old(ram)[f := buffer[..c.pageSize]])
    {
      FrameMapping.EmptyTableRestored(c, Abs(), c.pager, f);
      var rc, page := P3FrameMap(f);
      assert rc == FrameMapping.MAPPED;
      WritePage(page, f, buffer[..c.pageSize]);
      rc := P3FrameUnmap(f);
      assert rc == FrameMapping.MAPPED;
    }

    method WritePage(page: int, f: nat, bytes: seq<Byte>)
      requires Translates(c.pager, page, f) && 0 < |bytes| == |ram[f]|
      modifies this`access, this`ram
      ensures access == old(access)[f := Access(true, true)] && ram == old(ram)[f := bytes]
    {
      var i := 0;
      assert bytes[..0] + ram[f][0..] == ram[f];
      while i < |bytes|
        invariant 0 <= i <= |bytes|
        invariant access == if i == 0 then old(access) else old(access)[f := Access(true, true)]
        invariant ram == old(ram)[f := bytes[..i] + old(ram)[f][i..]]
      {
        MmuStore(c.pager, page, i, bytes[i], f);
        i := i + 1;
        assert ram[f] == bytes[..i] + old(ram)[f][i..];
      }
      assert ram[f] == bytes;
    }

    /** Writing a frame to its block. */
    method WriteBack(f: int, block: int) returns (ghost slack: seq<Byte>)
      requires Valid() && PagerFree(f) && 0 <= block < NumBlocks(c)
      requires blockPool[block].track == TrackOf(c, block) && blockPool[block].first == FirstOf(c, block)
      modifies this`access, pageTables, framePool, swap.unit1
      ensures Valid() && SlackFits(c, slack)
      ensures Abs() == old(Abs()).(access := old(access)[f := Access(true, old(access)[f].dirty)],
                                   disk := WriteBlock(c, old(swap.unit1.sectors), block, ram[f] + slack))
    {
      FrameFits(c);
      BlockInside(c, block);
      var n := SectorsPerFrame(c);
      var buffer := new Byte[n * c.disk.sectorSize];
      CopyFromFrame(f, buffer);
      slack := buffer[c.pageSize..];
      assert buffer[..] == ram[f] + slack;
      var reply := swap.ReaderWriter(SWAP_DISK, blockPool[block].track, blockPool[block].first, n, buffer, Disk.Write);
      assert reply == Disk.Reply.SUCCESS;
      WriteBlockPages(c, old(swap.unit1.sectors), block, ram[f] + slack);
    }

    /** Reading a block into a frame. */
    method ReadIn(f: int, block: int)
      requires Valid() && PagerFree(f) && 0 <= block < NumBlocks(c)
      requires blockPool[block].track == TrackOf(c, block) && blockPool[block].first == FirstOf(c, block)
      modifies this`access, this`ram, pageTables, framePool, swap.unit1
      ensures Valid()
      ensures Abs() == old(Abs()).(access := old(access)[f := Access(true, true)],
                                   ram := old(ram)[f := PageOnDisk(c, old(swap.unit1.sectors), block)])
    {
      FrameFits(c);
      BlockInside(c, block);
      var n := SectorsPerFrame(c);
      var buffer := new Byte[n * c.disk.sectorSize];
      var reply := swap.ReaderWriter(SWAP_DISK, blockPool[block].track, blockPool[block].first, n, buffer, Disk.Read);
      assert reply == Disk.Reply.SUCCESS;
      assert buffer[..c.pageSize] == PageOnDisk(c, swap.unit1.sectors, block);
      CopyToFrame(f, buffer);
    }

    /** The page that owns the block, if there is one, is no longer mapped; no other entry of
        any table changes. */
    method UnmapOwner(block: int)
      requires Valid()
      requires block == -1 || (0 <= block < NumBlocks(c) && HasPte(Abs(), blockPool[block].pid, blockPool[block].page))
      modifies pageTables
      ensures Valid()
      ensures Abs() == OwnerUnmapped(old(Abs()), block)
    {
      if block != -1 && blockPool[block].pid != -1 {
        var pid, page := blockPool[block].pid, blockPool[block].page;
        var table := pageTables[pid].value;
        pageTables[pid] := Some(table[page := table[page].(incore := false)]);
      }
    }

    /** A dirty frame that has a block is written there; the access bits read before go
        back without the dirty bit. */
    method WriteIfDirty(target: nat, block: int, accessPtr: Access) returns (ghost slack: seq<Byte>)
      requires Valid() && PagerFree(target) && accessPtr == access[target]
      requires block == -1 || (0 <= block < NumBlocks(c) && blockPool[block].track == TrackOf(c, block)
                               && blockPool[block].first == FirstOf(c, block))
      modifies this`access, pageTables, framePool, swap.unit1
      ensures Valid() && SlackFits(c, slack)
      ensures Abs() == Written(c, old(Abs()), target, block, slack)
    {
      FrameFits(c);
      slack := Repeat(SectorsPerFrame(c) * c.disk.sectorSize - c.pageSize, 0);
      if accessPtr.dirty && block != -1 {
        slack := WriteBack(target, block);
        access := access[target := accessPtr.(dirty := false)];
      }
    }

    /** P3SwapOut, called by the pager. */
    method P3SwapOut() returns (frame: nat, ghost slack: seq<Byte>)
      requires Valid() && Consistent(c, Abs()) && scanned == c.pager
      requires exists f :: 0 <= f < c.frames && !framesInfoArr[f].isBusy
      modifies this`hand, this`access, pageTables, framesInfoArr, framePool, swap.unit1
      ensures Valid() && SlackFits(c, slack)
      ensures frame == Victim(c, old(Abs()))
      ensures Abs() == SwapOut(c, old(Abs()), slack)
    {
      var target := SelectFrame();
      var accessPtr := access[target];
      var block := framesInfoArr[target].blockNum;
      EvictedConsistent(c, old(Abs()), target);
      UnmapOwner(block);
      slack := WriteIfDirty(target, block, accessPtr);
      framesInfoArr[target] := FrameInfo(true, -1);
      frame := target;
    }

    // -------------------------------------------------------------- bringing a page in

    /** The search of P3SwapIn, which stops as soon as it has both answers. */
    method SearchBlocks(pid: int, page: int) returns (block: int, freeBlock: int)
      requires Valid() && pid >= 0
      ensures block == FindBlock(blockPool[..], pid, page)
      ensures block == -1 ==> freeBlock == FindFree(blockPool[..])
    {
      block, freeBlock := -1, -1;
      var i := 0;
      while i < blockPool.Length && (block == -1 || freeBlock == -1)
        invariant 0 <= i <= blockPool.Length && -1 <= block < i && -1 <= freeBlock < i
        invariant block == -1 ==> forall j :: 0 <= j < i ==> !(blockPool[j].pid == pid && blockPool[j].page == page)
        invariant block != -1 ==> blockPool[block].pid == pid && blockPool[block].page == page
                                  && forall j :: 0 <= j < block ==>
                                    !(blockPool[j].pid == pid && blockPool[j].page == page)
        invariant freeBlock == -1 ==> forall j :: 0 <= j < i ==> blockPool[j].pid != -1
        invariant freeBlock != -1 ==>
                    blockPool[freeBlock].pid == -1 && forall j :: 0 <= j < freeBlock ==> blockPool[j].pid != -1
      {
        if freeBlock == -1 && blockPool[i].pid == -1 {
          freeBlock := i;
        }
        if block == -1 && pid == blockPool[i].pid && page == blockPool[i].page {
          block := i;
        }
        i := i + 1;
      }
      assert block != -1 ==> ((b: Block) => b.pid == pid && b.page == page)(blockPool[..][block]);
      assert freeBlock != -1 ==> ((b: Block) => IsFree(b))(blockPool[..][freeBlock]);
    }

    /** The first half of P3SwapIn: the page's bytes, or a block for it. */
    method Fetch(pid: int, page: int, frame: nat) returns (result: SwapReply, block: int)
      requires Valid() && Consistent(c, Abs()) && scanned == c.pager && HasPte(Abs(), pid, page) && frame < c.frames
      modifies this`numberOfFreeBlocks, this`access, this`ram, pageTables, blockPool, framePool, swap.unit1
      ensures Valid()
      ensures (Abs(), result, block) == Fetched(c, old(Abs()), pid, page, frame)
    {
      var freeBlock;
      block, freeBlock := SearchBlocks(pid, page);
      if block != -1 {
        ReadIn(frame, block);
        result := SwapReply.SUCCESS;
      } else if numberOfFreeBlocks == 0 {
        result := OUT_OF_SWAP;
      } else {
        FreeExists(blockPool[..]);
        block := freeBlock;
        numberOfFreeBlocks := numberOfFreeBlocks - 1;
        var sectorsBefore := block * SectorsPerFrame(c);
        blockPool[block] := Block(pid, page, frame, sectorsBefore / c.disk.trackSize, sectorsBefore % c.disk.trackSize);
        result := EMPTY_PAGE;
      }
    }

    /** The frame is no longer busy, the page's entry maps it, and it names the block. */
    method Place(pid: int, page: int, frame: nat, block: int)
      requires Valid() && HasPte(Abs(), pid, page) && frame < c.frames
      modifies pageTables, framesInfoArr
      ensures Valid()
      ensures Abs() == Placed(old(Abs()), pid, page, frame, block)
    {
      framesInfoArr[frame] := framesInfoArr[frame].(isBusy := false);
      var table := pageTables[pid].value;
      pageTables[pid] := Some(table[page := PTE(true, true, true, frame)]);
      framesInfoArr[frame] := framesInfoArr[frame].(blockNum := block);
    }

    /** P3SwapIn, called by the pager. */
    method P3SwapIn(pid: int, page: int, frame: int) returns (result: SwapReply)
      requires Valid() && Consistent(c, Abs()) && scanned == c.pager
      requires 0 <= pid < c.maxProc ==> HasTable(Abs(), pid)
      modifies this`numberOfFreeBlocks, this`access, this`ram
      modifies pageTables, framesInfoArr, blockPool, framePool, swap.unit1
      ensures Valid()
      ensures (Abs(), result) == SwapIn(c, old(Abs()), pid, page, frame)
    {
      if pid < 0 || pid >= c.maxProc {
        return INVALID_PID;
      }
      if page < 0 || page >= c.pages {
        return INVALID_PAGE;
      }
      if frame < 0 || frame >= c.frames {
        return SwapReply.INVALID_FRAME;
      }
      var block;
      result, block := Fetch(pid, page, frame);
      if result != OUT_OF_SWAP {
        Place(pid, page, frame, block);
      } else {
        framesInfoArr[frame] := framesInfoArr[frame].(isBusy := false);
      }
    }

    /** The pager clears a frame through its own table. */
    method ClearFrame(f: int)
      requires Valid() && PagerFree(f)
      modifies this`access, this`ram, pageTables, framePool
      ensures Valid()
      ensures Abs() == Zeroed(c, old(Abs()), f)
    {
      FrameMapping.EmptyTableRestored(c, Abs(), c.pager, f);
      var rc, page := P3FrameMap(f);
      assert rc == FrameMapping.MAPPED;
      WritePage(page, f, Repeat(c.pageSize, 0));
      rc := P3FrameUnmap(f);
      assert rc == FrameMapping.MAPPED;
    }

    /** The pager finds a frame: from the pool, or by evicting. */
    method FindFrame() returns (frame: nat, ghost slack: seq<Byte>)
      requires Valid() && Inv(c, Abs()) && scanned == c.pager
      modifies this`hand, this`access, pageTables, framesInfoArr, framePool, swap.unit1
      ensures Valid() && SlackFits(c, slack)
      ensures (Abs(), frame) == Acquire(c, old(Abs()), slack)
    {
      FrameFits(c);
      slack := Repeat(SectorsPerFrame(c) * c.disk.sectorSize - c.pageSize, 0);
      frame := 0;
      while frame < c.frames && framePool[frame].used
        invariant 0 <= frame <= c.frames
        invariant forall g :: 0 <= g < frame ==> framePool[g].used
      {
        frame := frame + 1;
      }
      assert frame < c.frames ==> ((p: PoolFrame) => !p.used)(framePool[..][frame]);
      if frame < c.frames {
        framePool[frame] := framePool[frame].(used := true);
      } else {
        assert !framesInfoArr[0].isBusy;
        frame, slack := P3SwapOut();
      }
    }

    /** The page's bytes into a frame nobody maps, or zeroes if it has none yet. */
    method FillFrame(pid: int, page: int, frame: nat) returns (rc: SwapReply)
      requires Valid() && ReadyToFill(c, Abs(), pid, page, frame) && scanned == c.pager
      modifies this`numberOfFreeBlocks, this`access, this`ram
      modifies pageTables, framesInfoArr, blockPool, framePool, swap.unit1
      ensures Valid()
      ensures var (s', reply) := SwapIn(c, old(Abs()), pid, page, frame);
              && rc == reply && frame < |s'.ram| && frame < |s'.access|
              && Abs() == if reply == EMPTY_PAGE then Zeroed(c, s', frame) else s'
    {
      ghost var s1 := Abs();
      rc := P3SwapIn(pid, page, frame);
      if rc == EMPTY_PAGE {
        FreshStillIdle(c, s1, pid, page, frame);
        ClearFrame(frame);
      }
    }

    /** One turn of the pager's loop for a page fault at `offset`; ok is false when the
        faulting process is to be killed. */
    method ServiceFault(pid: int, offset: int) returns (ok: bool, ghost slack: seq<Byte>)
      requires Valid() && Inv(c, Abs()) && scanned == c.pager
      requires 0 <= offset < c.pages * c.pageSize
      requires HasTable(Abs(), pid) && pid != c.pager && !InCore(Abs(), pid, offset / c.pageSize)
      modifies this, pageTables, framesInfoArr, blockPool, framePool, swap.unit1
      ensures Valid() && SlackFits(c, slack)
      ensures HasPte(old(Abs()), pid, offset / c.pageSize)
      ensures var (s', reply) := Fault(c, old(Abs()), pid, offset / c.pageSize, slack);
              Abs() == s' && ok == (reply != OUT_OF_SWAP)
    {
      var page := offset / c.pageSize;
      PageInside(c, offset);
      ghost var s0 := Abs();
      var frame;
      frame, slack := FindFrame();
      AcquireReady(c, s0, pid, page, slack);
      var rc := FillFrame(pid, page, frame);
      if rc == OUT_OF_SWAP {
        ok := false;
        return;
      }
      ok := true;
      FaultMaps(c, s0, pid, page, slack);
      RewritePte(pid, page, frame);
    }

    /** The pager sets the faulting page's entry once more. */
    method RewritePte(pid: int, page: int, frame: nat)
      requires Valid() && HasPte(Abs(), pid, page) && Pte(Abs(), pid, page) == PTE(true, true, true, frame)
      modifies pageTables
      ensures Valid() && Abs() == old(Abs())
    {
      var table := pageTables[pid].value;
      pageTables[pid] := Some(table[page := PTE(true, true, true, frame)]);
      assert table[page := PTE(true, true, true, frame)] == table;
      assert pageTables[..] == old(pageTables[..]);
    }

    // -------------------------------------------------------------- process start and exit

    /** P3_AllocatePageTable. */
    method P3AllocatePageTable(pid: int)
      requires Valid()
      modifies pageTables
      ensures Valid()
      ensures Abs() == if 0 <= pid < c.maxProc then Spawn(c, old(Abs()), pid) else old(Abs())
    {
      if pid < 0 || pid >= c.maxProc {
        return;
      }
      var table: seq<PTE> := [];
      var i := 0;
      while i < c.pages
        invariant 0 <= i <= c.pages && table == Repeat(i, EMPTY_PTE)
      {
        table := table + [PTE(false, false, false, 0)];
        i := i + 1;
      }
      pageTables[pid] := Some(table);
    }

    /** P3SwapFreeAll. */
    method P3SwapFreeAll(pid: int)
      requires Valid() && Consistent(c, Abs()) && HasTable(Abs(), pid)
      modifies this`numberOfFreeBlocks, pageTables, framesInfoArr, blockPool
      ensures Valid()
      ensures Abs() == SwapFreeAll(c, old(Abs()), pid)
    {
      UnlinkPages(pid);
      FreeBlocks(pid);
    }

    method UnlinkPages(pid: int)
      requires Valid() && HasTable(Abs(), pid)
      requires forall j :: 0 <= j < c.pages && InCore(Abs(), pid, j) ==> Pte(Abs(), pid, j).frame < c.frames
      modifies pageTables, framesInfoArr
      ensures Valid()
      ensures var table := old(Abs()).tables[pid].value;
              Abs() == old(Abs()).(tables := old(Abs()).tables[pid := Some(Unlinked(table))],
                                   frames := Released(old(Abs()).frames, table))
    {
      assert forall i :: 0 <= i < c.pages && pageTables[pid].value[i].incore ==> InCore(Abs(), pid, i);
      var table := ReleaseFrames(framesInfoArr, pageTables[pid].value);
      pageTables[pid] := Some(table);
    }

    /** The loop over a table's pages; `left` is the table it leaves. */
    static method ReleaseFrames(frames: array<FrameInfo>, table: seq<PTE>) returns (left: seq<PTE>)
      requires forall j :: 0 <= j < |table| && table[j].incore ==> table[j].frame < frames.Length
      modifies frames
      ensures left == Unlinked(table) && frames[..] == Released(old(frames[..]), table)
    {
      ghost var frames0 := frames[..];
      left := table;
      var j := 0;
      while j < |table|
        invariant 0 <= j <= |table| && |left| == |table|
        invariant forall i :: 0 <= i < |table| ==> left[i] == if i < j then Unlinked(table)[i] else table[i]
        invariant forall f :: 0 <= f < frames.Length ==>
                    frames[f] == if Maps(table[..j], f) then FrameInfo(false, -1) else frames0[f]
      {
        MapsGrows(table, j);
        if left[j].incore {
          frames[left[j].frame] := FrameInfo(false, -1);
          left := left[j := PTE(false, false, false, left[j].frame)];
        }
        j := j + 1;
      }
      assert table[..j] == table;
    }

    method FreeBlocks(pid: int)
      requires Valid() && pid != -1
      modifies this`numberOfFreeBlocks, blockPool
      ensures Valid()
      ensures Abs()
                == old(Abs()).(blocks := Disowned(old(Abs()).blocks, pid),
                               free := old(Abs()).free + CountOwned(old(Abs()).blocks, pid))
    {
      ghost var blocks0 := blockPool[..];
      var freed := ReleaseBlocks(blockPool, pid);
      numberOfFreeBlocks := numberOfFreeBlocks + freed;
    }

    /** The loop over all blocks; `freed` counts the blocks it frees. */
    static method ReleaseBlocks(blocks: array<Block>, pid: int) returns (freed: nat)
      requires pid != -1
      modifies blocks
      ensures blocks[..] == Disowned(old(blocks[..]), pid)
      ensures freed == CountOwned(old(blocks[..]), pid)
    {
      ghost var blocks0 := blocks[..];
      freed := 0;
      var i := 0;
      while i < blocks.Length
        invariant 0 <= i <= blocks.Length
        invariant forall b :: 0 <= b < blocks.Length ==>
                   blocks[b] == if b < i then Disowned(blocks0, pid)[b] else blocks0[b]
        invariant freed == CountOwned(blocks0[..i], pid)
      {
        assert blocks0[..i + 1][..i] == blocks0[..i];
        if blocks[i].pid == pid {
          blocks[i] := FREE_BLOCK;
          freed := freed + 1;
        }
        i := i + 1;
      }
      assert blocks0[..i] == blocks0;
    }

    /** P3FrameFreeAll. */
    method P3FrameFreeAll(pid: int)
      requires Valid() && HasTable(Abs(), pid)
      requires forall j :: 0 <= j < c.pages && InCore(Abs(), pid, j) ==> Pte(Abs(), pid, j).frame < c.frames
      modifies pageTables, framePool
      ensures Valid()
      ensures Abs() == FrameFreeAll(c, old(Abs()), pid)
    {
      assert forall i :: 0 <= i < c.pages && pageTables[pid].value[i].incore ==> InCore(Abs(), pid, i);
      var table := ReturnFrames(framePool, pageTables[pid].value);
      pageTables[pid] := Some(table);
    }

    /** The loop over a table's pages; `left` is the table it leaves. */
    static method ReturnFrames(pool: array<PoolFrame>, table: seq<PTE>) returns (left: seq<PTE>)
      requires forall j :: 0 <= j < |table| && table[j].incore ==> table[j].frame < pool.Length
      modifies pool
      ensures left == Cleared(table) && pool[..] == Returned(old(pool[..]), table)
    {
      ghost var pool0 := pool[..];
      left := table;
      var j := 0;
      while j < |table|
        invariant 0 <= j <= |table| && |left| == |table|
        invariant forall i :: 0 <= i < |table| ==> left[i] == if i < j then Cleared(table)[i] else table[i]
        invariant forall f :: 0 <= f < pool.Length ==>
                    pool[f] == if Maps(table[..j], f) then PoolFrame(false, -1) else pool0[f]
      {
        MapsGrows(table, j);
        if left[j].incore {
          pool[left[j].frame] := PoolFrame(false, -1);
          left := left[j := PTE(false, false, false, 0)];
        }
        j := j + 1;
      }
      assert table[..j] == table;
    }

    /** P3_FreePageTable: a process's table, frames and blocks are given up. */
    method P3FreePageTable(pid: int)
      requires Valid() && Consistent(c, Abs())
      modifies this`numberOfFreeBlocks, pageTables, framesInfoArr, blockPool, framePool
      ensures Valid()
      ensures Abs() == Exit(c, old(Abs()), pid)
    {
      if pid < 0 || pid >= c.maxProc {
        return;
      }
      if pageTables[pid].Some? {
        P3SwapFreeAll(pid);
        P3FrameFreeAll(pid);
        pageTables[pid] := None;
      }
    }
  }

  lemma MapsGrows(table: seq<PTE>, j: nat)
    requires j < |table|
    ensures forall f :: Maps(table[..j + 1], f) <==> Maps(table[..j], f) || (table[j].incore && table[j].frame == f)
  {
    forall f
      ensures Maps(table[..j + 1], f) <==> Maps(table[..j], f) || (table[j].incore && table[j].frame == f)
    {
      if Maps(table[..j], f) {
        var i :| 0 <= i < j && table[..j][i].incore && table[..j][i].frame == f;
        assert table[..j + 1][i].incore;
      }
      if table[j].incore && table[j].frame == f {
        assert table[..j + 1][j].frame == f;
      }
      if Maps(table[..j + 1], f) {
        var i :| 0 <= i < j + 1 && table[..j + 1][i].incore && table[..j + 1][i].frame == f;
        assert i < j ==> table[..j][i].frame == f;
      }
    }
  }

  lemma PageInside(c: Config, offset: int)
    requires Sound(c) && 0 <= offset < c.pages * c.pageSize
    ensures 0 <= offset / c.pageSize < c.pages
  {
    var q := offset / c.pageSize;
    if q >= c.pages {
      MulMono(c.pages, q, c.pageSize);
    }
  }

  /** Right after a fresh page was placed the pager's table is still empty and unmarked. */
  lemma FreshStillIdle(c: Config, s: Vm, pid: int, page: int, f: int)
    requires ReadyToFill(c, s, pid, page, f)
    ensures var s' := SwapIn(c, s, pid, page, f).0;
            Shape(c, s') ==> PagerEmpty(c, s') && s'.pool == s.pool
  {
  }
}

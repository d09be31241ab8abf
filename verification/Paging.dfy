/** Demand paging over a swap disk: page tables, frames, swap blocks, the MMU's access
    bits, memory and disk, with the steps that change them. Each operation is given
    here as a function from state to state; module VirtualMemory carries them out in
    place and proves that it computes these functions. */
module Paging {
  import opened Common
  import Disk
  import opened SwapLayout
  import Clock

  datatype PTE = PTE(incore: bool, read: bool, write: bool, frame: nat)
  const EMPTY_PTE: PTE := PTE(false, false, false, 0)

  datatype FrameInfo = FrameInfo(isBusy: bool, blockNum: int)

  datatype Block = Block(pid: int, page: int, frame: int, track: int, first: int)
  const FREE_BLOCK: Block := Block(-1, -1, -1, -1, -1)

  datatype PoolFrame = PoolFrame(used: bool, mappedPid: int)

  /** The MMU's two bits for a frame. */
  datatype Access = Access(ref: bool, dirty: bool)

  datatype Vm = Vm(
    tables: seq<Option<seq<PTE>>>,
    frames: seq<FrameInfo>,
    blocks: seq<Block>,
    free: int,
    hand: int,
    pool: seq<PoolFrame>,
    access: seq<Access>,
    ram: seq<seq<Byte>>,
    disk: seq<Disk.Sector>)

  // ---------------------------------------------------------------- reading the state

  predicate HasTable(s: Vm, pid: int) {
    0 <= pid < |s.tables| && s.tables[pid].Some?
  }

  predicate HasPte(s: Vm, pid: int, page: int) {
    HasTable(s, pid) && 0 <= page < |s.tables[pid].value|
  }

  function Pte(s: Vm, pid: int, page: int): PTE
    requires HasPte(s, pid, page)
  {
    s.tables[pid].value[page]
  }

  /** The page is mapped: the MMU translates it without a fault. */
  predicate InCore(s: Vm, pid: int, page: int) {
    HasPte(s, pid, page) && Pte(s, pid, page).incore
  }

  predicate IsFree(b: Block) {
    b.pid == -1
  }

  predicate Owns(s: Vm, b: int, pid: int, page: int) {
    0 <= b < |s.blocks| && s.blocks[b].pid == pid && s.blocks[b].page == page && pid != -1
  }

  function CountFree(blocks: seq<Block>): nat {
    if blocks == [] then 0
    else CountFree(blocks[..|blocks| - 1]) + (if IsFree(blocks[|blocks| - 1]) then 1 else 0)
  }

  function BusyBits(frames: seq<FrameInfo>): (r: seq<bool>)
    ensures |r| == |frames|
  {
    seq(|frames|, f requires 0 <= f < |frames| => frames[f].isBusy)
  }

  function RefBits(access: seq<Access>): (r: seq<bool>)
    ensures |r| == |access|
  {
    seq(|access|, f requires 0 <= f < |access| => access[f].ref)
  }

  /** The same access bits with other reference bits. */
  function WithRefs(access: seq<Access>, left: seq<bool>): (r: seq<Access>)
    requires |left| == |access|
    ensures |r| == |access|
  {
    seq(|access|, f requires 0 <= f < |access| => access[f].(ref := left[f]))
  }

  lemma WithRefsUpdate(access: seq<Access>, left: seq<bool>, f: nat)
    requires |left| == |access| && f < |access|
    ensures WithRefs(access, left[f := false]) == WithRefs(access, left)[f := WithRefs(access, left)[f].(ref := false)]
  {
  }

  // ---------------------------------------------------------------- the invariant

  ghost predicate Shape(c: Config, s: Vm) {
    && Sound(c)
    && |s.tables| == c.maxProc
    && |s.frames| == |s.pool| == |s.access| == |s.ram| == c.frames
    && |s.blocks| == NumBlocks(c)
    && -1 <= s.hand < c.frames
    && (forall pid :: HasTable(s, pid) ==> |s.tables[pid].value| == c.pages)
    && (forall f :: 0 <= f < c.frames ==> |s.ram[f]| == c.pageSize)
    && Disk.Formatted(c.disk, s.disk)
  }

  /** A mapped page's frame names the block that belongs to that page. */
  ghost predicate PtesMatch(c: Config, s: Vm)
    requires Shape(c, s)
  {
    forall pid, page :: InCore(s, pid, page) ==>
      var e := Pte(s, pid, page);
      e.frame < c.frames && e.read && e.write && Owns(s, s.frames[e.frame].blockNum, pid, page)
  }

  /** A frame that names a block is mapped by the page that block belongs to. */
  ghost predicate FramesMatch(c: Config, s: Vm)
    requires Shape(c, s)
  {
    forall f :: 0 <= f < c.frames && s.frames[f].blockNum != -1 ==>
      var b := s.frames[f].blockNum;
      && 0 <= b < |s.blocks| && !IsFree(s.blocks[b])
      && InCore(s, s.blocks[b].pid, s.blocks[b].page)
      && Pte(s, s.blocks[b].pid, s.blocks[b].page).frame == f
  }

  /** A block in use belongs to a page of a live process, never the pager's, and its
      disk address is the one of its position. */
  ghost predicate BlocksMatch(c: Config, s: Vm)
    requires Shape(c, s)
  {
    forall b :: 0 <= b < |s.blocks| && !IsFree(s.blocks[b]) ==>
      && HasPte(s, s.blocks[b].pid, s.blocks[b].page)
      && s.blocks[b].pid != c.pager
      && s.blocks[b].track == TrackOf(c, b)
      && s.blocks[b].first == FirstOf(c, b)
  }

  /** No page owns two blocks. */
  ghost predicate OneBlockPerPage(blocks: seq<Block>) {
    forall a, b :: 0 <= a < b < |blocks| && !IsFree(blocks[a]) && !IsFree(blocks[b]) ==>
      blocks[a].pid != blocks[b].pid || blocks[a].page != blocks[b].page
  }

  /** Frames still in the pool hold no page; no frame carries an owner mark. */
  ghost predicate PoolMatches(c: Config, s: Vm)
    requires Shape(c, s)
  {
    forall f :: 0 <= f < c.frames ==>
      s.pool[f].mappedPid == -1 && (!s.pool[f].used ==> s.frames[f].blockNum == -1)
  }

  /** The pager's own table is empty. */
  ghost predicate PagerEmpty(c: Config, s: Vm)
    requires Shape(c, s)
  {
    s.tables[c.pager] == Some(Repeat(c.pages, EMPTY_PTE))
  }

  ghost predicate Consistent(c: Config, s: Vm) {
    && Shape(c, s)
    && PtesMatch(c, s)
    && FramesMatch(c, s)
    && BlocksMatch(c, s)
    && OneBlockPerPage(s.blocks)
    && s.free == CountFree(s.blocks)
    && PoolMatches(c, s)
    && PagerEmpty(c, s)
  }

  /** A page in a frame that is not dirty equals its image on disk. */
  ghost predicate CleanMatchesDisk(c: Config, s: Vm)
    requires Consistent(c, s)
  {
    forall f :: 0 <= f < c.frames && s.frames[f].blockNum != -1 && !s.access[f].dirty ==>
      s.ram[f] == PageOnDisk(c, s.disk, s.frames[f].blockNum)
  }

  ghost predicate NoneBusy(s: Vm) {
    forall f :: 0 <= f < |s.frames| ==> !s.frames[f].isBusy
  }

  /** What holds between steps. */
  ghost predicate Inv(c: Config, s: Vm) {
    Consistent(c, s) && CleanMatchesDisk(c, s) && NoneBusy(s)
  }

  /** No two mapped pages share a frame. */
  lemma NoSharedFrames(c: Config, s: Vm, pid: int, page: int, pid': int, page': int)
    requires Consistent(c, s) && InCore(s, pid, page) && InCore(s, pid', page')
    requires Pte(s, pid, page).frame == Pte(s, pid', page').frame
    ensures pid == pid' && page == page'
  {
  }

  // ---------------------------------------------------------------- the steps

  function SetPte(s: Vm, pid: int, page: int, e: PTE): Vm
    requires HasPte(s, pid, page)
  {
    s.(tables := s.tables[pid := Some(s.tables[pid].value[page := e])])
  }

  ghost predicate SlackFits(c: Config, slack: seq<Byte>) {
    Sound(c) && |slack| + c.pageSize == SectorsPerFrame(c) * c.disk.sectorSize
  }

  /** The frame the clock takes. */
  function Victim(c: Config, s: Vm): (t: nat)
    requires Sound(c) && |s.frames| == |s.access| == c.frames && -1 <= s.hand < c.frames
    ensures t < c.frames
  {
    Clock.Target(BusyBits(s.frames), RefBits(s.access), s.hand)
  }

  /** The access bits after the clock has passed. */
  function Swept(c: Config, s: Vm): (a: seq<Access>)
    requires Sound(c) && |s.frames| == |s.access| == c.frames && -1 <= s.hand < c.frames
    ensures |a| == c.frames
    ensures forall f :: 0 <= f < c.frames ==> a[f].dirty == s.access[f].dirty
  {
    var busy, ref := BusyBits(s.frames), RefBits(s.access);
    var left := Clock.Cleared(busy, ref, s.hand, Clock.Skipped(busy, ref, s.hand));
    WithRefs(s.access, left)
  }

  /** The page whose block a frame names is no longer mapped. */
  function OwnerUnmapped(s: Vm, b: int): Vm
    requires b == -1 || (0 <= b < |s.blocks| && HasPte(s, s.blocks[b].pid, s.blocks[b].page))
  {
    if b == -1 then s
    else
      var pid, page := s.blocks[b].pid, s.blocks[b].page;
      SetPte(s, pid, page, Pte(s, pid, page).(incore := false))
  }

  /** A dirty frame that names a block is written there and becomes clean. */
  ghost function Written(c: Config, s: Vm, t: nat, b: int, slack: seq<Byte>): Vm
    requires Shape(c, s) && t < c.frames && -1 <= b < NumBlocks(c) && SlackFits(c, slack)
  {
    if b != -1 && s.access[t].dirty
    then s.(disk := WriteBlock(c, s.disk, b, s.ram[t] + slack), access := s.access[t := s.access[t].(dirty := false)])
    else s
  }

  /** Eviction: the clock's frame loses its page, which goes to its block if dirty. The
      write buffer is a whole number of sectors; `slack` is what it holds past the page. */
  ghost function SwapOut(c: Config, s: Vm, slack: seq<Byte>): Vm
    requires Consistent(c, s) && SlackFits(c, slack)
  {
    var t := Victim(c, s);
    var b := s.frames[t].blockNum;
    var s1 := s.(hand := t, access := Swept(c, s));
    var s2 := OwnerUnmapped(s1, b);
    var s3 := Written(c, s2, t, b, slack);
    s3.(frames := s.frames[t := FrameInfo(true, -1)])
  }

  datatype SwapReply = SUCCESS | EMPTY_PAGE | OUT_OF_SWAP | INVALID_PID | INVALID_PAGE | INVALID_FRAME

  function FindBlock(blocks: seq<Block>, pid: int, page: int): int {
    FirstIndex(blocks, (b: Block) => b.pid == pid && b.page == page)
  }

  function FindFree(blocks: seq<Block>): int {
    FirstIndex(blocks, (b: Block) => IsFree(b))
  }

  function Placed(s: Vm, pid: int, page: int, f: nat, b: int): Vm
    requires HasPte(s, pid, page) && f < |s.frames|
  {
    SetPte(s, pid, page, PTE(true, true, true, f)).(frames := s.frames[f := FrameInfo(false, b)])
  }

  lemma FreeExists(blocks: seq<Block>)
    ensures CountFree(blocks) > 0 <==> exists b :: 0 <= b < |blocks| && IsFree(blocks[b])
    ensures CountFree(blocks) > 0 <==> FindFree(blocks) != -1
  {
    if blocks != [] {
      var front := blocks[..|blocks| - 1];
      FreeExists(front);
      if CountFree(front) > 0 {
        var b :| 0 <= b < |front| && IsFree(front[b]);
        assert IsFree(blocks[b]);
      }
    }
  }

  /** Where a page's bytes come from: its block, read into frame f, or a free block given
      to it (the caller then clears the frame), or nowhere. */
  ghost function Fetched(c: Config, s: Vm, pid: int, page: int, f: nat): (r: (Vm, SwapReply, int))
    requires Consistent(c, s) && HasPte(s, pid, page) && f < c.frames
    ensures HasPte(r.0, pid, page) && |r.0.frames| == c.frames
  {
    var b := FindBlock(s.blocks, pid, page);
    if b != -1 then
      (s.(ram := s.ram[f := PageOnDisk(c, s.disk, b)], access := s.access[f := Access(true, true)]),
       SwapReply.SUCCESS, b)
    else if s.free == 0 then (s, OUT_OF_SWAP, -1)
    else
      FreeExists(s.blocks);
      var n := FindFree(s.blocks);
      (s.(blocks := s.blocks[n := Block(pid, page, f, TrackOf(c, n), FirstOf(c, n))], free := s.free - 1),
       EMPTY_PAGE, n)
  }

  /** Bringing a page into frame f and mapping it there. */
  ghost function SwapIn(c: Config, s: Vm, pid: int, page: int, f: int): (Vm, SwapReply)
    requires Consistent(c, s)
    requires 0 <= pid < c.maxProc ==> HasTable(s, pid)
  {
    if pid < 0 || pid >= c.maxProc then (s, INVALID_PID)
    else if page < 0 || page >= c.pages then (s, INVALID_PAGE)
    else if f < 0 || f >= c.frames then (s, INVALID_FRAME)
    else
      var (s1, reply, b) := Fetched(c, s, pid, page, f);
      if reply == OUT_OF_SWAP then (s1.(frames := s1.frames[f := s1.frames[f].(isBusy := false)]), reply)
      else (Placed(s1, pid, page, f, b), reply)
  }

  /** The frame the pager will fill and the state once it is available: a frame from the
      pool, or the clock's. */
  ghost function Acquire(c: Config, s: Vm, slack: seq<Byte>): (r: (Vm, nat))
    requires Consistent(c, s) && SlackFits(c, slack)
    ensures r.1 < c.frames
  {
    var f := FirstIndex(s.pool, (p: PoolFrame) => !p.used);
    if f != -1 then (s.(pool := s.pool[f := s.pool[f].(used := true)]), f)
    else (SwapOut(c, s, slack), Victim(c, s))
  }

  /** A frame cleared by the pager, whose own stores set both access bits. */
  function Zeroed(c: Config, s: Vm, f: nat): Vm
    requires f < |s.ram| && f < |s.access|
  {
    s.(ram := s.ram[f := Repeat(c.pageSize, 0)], access := s.access[f := Access(true, true)])
  }
}

/** Whole runs of the paging system against the memory it stands for: one private,
    zero-initialised memory per process, with room for as many pages as swap has blocks. */
module PagingRuns {
  import opened Common
  import opened SwapLayout
  import opened Paging
  import opened PagingSteps

  datatype Key = Key(pid: int, page: int)

  /** The memory stood for: the pages touched so far and their bytes. */
  type Memory = map<Key, seq<Byte>>

  datatype Event =
    | DoSpawn(pid: int)
    | DoExit(pid: int)
    | DoLoad(pid: int, page: int, off: int)
    | DoStore(pid: int, page: int, off: int, v: Byte)
    | DoFault(pid: int, page: int, slack: seq<Byte>)

  datatype Outcome = Done | Loaded(v: Byte) | Mapped | NoSwap

  // ---------------------------------------------------------------- concrete steps

  /** When an event can happen. A load or store takes effect only when the page is
      mapped; otherwise the MMU faults, and the pager's service is an event of its own,
      before which any other process, including other faults, may run. */
  ghost predicate Enabled(c: Config, s: Vm, e: Event) {
    Inv(c, s) &&
    match e
    case DoSpawn(pid) => 0 <= pid < c.maxProc && !HasTable(s, pid)
    case DoExit(pid) => 0 <= pid < c.maxProc && pid != c.pager
    case DoLoad(pid, page, off) => InCore(s, pid, page) && 0 <= off < c.pageSize
    case DoStore(pid, page, off, v) => InCore(s, pid, page) && 0 <= off < c.pageSize
    case DoFault(pid, page, slack) =>
      HasPte(s, pid, page) && pid != c.pager && !InCore(s, pid, page) && SlackFits(c, slack)
  }

  ghost function Step(c: Config, s: Vm, e: Event): (Vm, Outcome)
    requires Enabled(c, s, e)
  {
    match e
    case DoSpawn(pid) => (Spawn(c, s, pid), Done)
    case DoExit(pid) => (Exit(c, s, pid), Done)
    case DoLoad(pid, page, off) => (Load(c, s, pid, page, off).0, Loaded(Load(c, s, pid, page, off).1))
    case DoStore(pid, page, off, v) => (Store(c, s, pid, page, off, v), Done)
    case DoFault(pid, page, slack) =>
      var (s', r) := Fault(c, s, pid, page, slack);
      (s', if r == OUT_OF_SWAP then NoSwap else Mapped)
  }

  // ---------------------------------------------------------------- the reference machine

  function Forget(m: Memory, pid: int): Memory {
    map k | k in m && k.pid != pid :: m[k]
  }

  /** The reference machine has no frames, no swap and no clock. */
  function Reference(c: Config, m: Memory, e: Event): (Memory, Outcome)
    requires Sound(c)
  {
    match e
    case DoSpawn(_) => (m, Done)
    case DoExit(pid) => (Forget(m, pid), Done)
    case DoLoad(pid, page, off) =>
      (m, if Key(pid, page) in m && 0 <= off < |m[Key(pid, page)]| then Loaded(m[Key(pid, page)][off]) else NoSwap)
    case DoStore(pid, page, off, v) =>
      (if Key(pid, page) in m && 0 <= off < |m[Key(pid, page)]|
       then m[Key(pid, page) := m[Key(pid, page)][off := v]] else m, Done)
    case DoFault(pid, page, _) =>
      if Key(pid, page) in m then (m, Mapped)
      else if |m| == NumBlocks(c) then (m, NoSwap)
      else (m[Key(pid, page) := Repeat(c.pageSize, 0)], Mapped)
  }

  predicate OwnedBy(blocks: seq<Block>, b: int, k: Key) {
    0 <= b < |blocks| && !IsFree(blocks[b]) && blocks[b].pid == k.pid && blocks[b].page == k.page
  }

  /** Memory m has exactly the pages that own a block, with the block's contents. */
  ghost predicate Holds(blocks: seq<Block>, contents: seq<seq<Byte>>, m: Memory) {
    && |contents| == |blocks|
    && (forall b :: 0 <= b < |blocks| && !IsFree(blocks[b]) ==>
          Key(blocks[b].pid, blocks[b].page) in m && m[Key(blocks[b].pid, blocks[b].page)] == contents[b])
    && (forall k :: k in m ==> exists b :: OwnedBy(blocks, b, k))
  }

  /** What every block in use stands for: its page's bytes, in the frame if mapped and on
      disk if not. */
  ghost function Contents(c: Config, s: Vm): (r: seq<seq<Byte>>)
    requires Consistent(c, s)
    ensures |r| == |s.blocks|
    ensures forall b :: 0 <= b < |r| && !IsFree(s.blocks[b]) ==> r[b] == Content(c, s, b)
  {
    seq(|s.blocks|, b requires 0 <= b < |s.blocks| => if IsFree(s.blocks[b]) then [] else Content(c, s, b))
  }

  /** State s stands for memory m. */
  ghost predicate StandsFor(c: Config, s: Vm, m: Memory)
    requires Consistent(c, s)
  {
    Holds(s.blocks, Contents(c, s), m)
  }

  /** The pages that own a block. */
  ghost function OwnedKeys(blocks: seq<Block>): set<Key> {
    if blocks == [] then {}
    else
      var last := blocks[|blocks| - 1];
      OwnedKeys(blocks[..|blocks| - 1]) + (if IsFree(last) then {} else {Key(last.pid, last.page)})
  }

  lemma {:induction false} OwnedKeysAre(blocks: seq<Block>, k: Key)
    ensures k in OwnedKeys(blocks) <==> exists b :: OwnedBy(blocks, b, k)
  {
    if blocks != [] {
      var front, n := blocks[..|blocks| - 1], |blocks| - 1;
      OwnedKeysAre(front, k);
      if b :| OwnedBy(front, b, k) {
        assert OwnedBy(blocks, b, k);
      }
      if b :| OwnedBy(blocks, b, k) {
        assert b == n || OwnedBy(front, b, k);
      }
      assert OwnedBy(blocks, n, k) <==> !IsFree(blocks[n]) && k == Key(blocks[n].pid, blocks[n].page);
    }
  }

  /** Swap accounting: touched pages and free blocks together are all the blocks. */
  lemma {:induction false} TouchedPlusFree(blocks: seq<Block>)
    requires OneBlockPerPage(blocks)
    ensures |OwnedKeys(blocks)| + CountFree(blocks) == |blocks|
  {
    if blocks != [] {
      var front, last := blocks[..|blocks| - 1], blocks[|blocks| - 1];
      TouchedPlusFree(front);
      OwnedKeysAre(front, Key(last.pid, last.page));
    }
  }

  lemma TouchedPages(blocks: seq<Block>, contents: seq<seq<Byte>>, m: Memory)
    requires OneBlockPerPage(blocks) && Holds(blocks, contents, m)
    ensures |m| + CountFree(blocks) == |blocks|
  {
    TouchedPlusFree(blocks);
    forall k: Key
      ensures k in OwnedKeys(blocks) <==> k in m.Keys
    {
      OwnedKeysAre(blocks, k);
    }
    assert OwnedKeys(blocks) == m.Keys;
  }

  lemma TouchedIffFound(blocks: seq<Block>, contents: seq<seq<Byte>>, m: Memory, pid: int, page: int)
    requires Holds(blocks, contents, m) && pid >= 0
    ensures Key(pid, page) in m <==> FindBlock(blocks, pid, page) != -1
  {
    if Key(pid, page) in m {
      var b :| OwnedBy(blocks, b, Key(pid, page));
      assert ((b: Block) => b.pid == pid && b.page == page)(blocks[b]);
    }
  }

  lemma HoldsSame(blocks: seq<Block>, contents: seq<seq<Byte>>, contents': seq<seq<Byte>>, m: Memory)
    requires Holds(blocks, contents, m) && |contents'| == |blocks|
    requires forall b :: 0 <= b < |blocks| && !IsFree(blocks[b]) ==> contents'[b] == contents[b]
    ensures Holds(blocks, contents', m)
  {
  }

  lemma HoldsChanged(blocks: seq<Block>, contents: seq<seq<Byte>>, contents': seq<seq<Byte>>, m: Memory, n: int, k: Key)
    requires Holds(blocks, contents, m) && |contents'| == |blocks| && OneBlockPerPage(blocks)
    requires OwnedBy(blocks, n, k)
    requires forall b :: 0 <= b < |blocks| && b != n && !IsFree(blocks[b]) ==> contents'[b] == contents[b]
    ensures Holds(blocks, contents', m[k := contents'[n]])
  {
    forall b | 0 <= b < |blocks| && b != n && !IsFree(blocks[b])
      ensures Key(blocks[b].pid, blocks[b].page) != k
    {
      assert b < n || n < b;
    }
  }

  lemma HoldsAdded(blocks: seq<Block>, contents: seq<seq<Byte>>, blocks': seq<Block>, contents': seq<seq<Byte>>,
                   m: Memory, n: int, k: Key)
    requires Holds(blocks, contents, m) && |contents'| == |blocks'| == |blocks|
    requires 0 <= n < |blocks| && IsFree(blocks[n]) && OwnedBy(blocks', n, k) && k !in m
    requires forall b :: 0 <= b < |blocks| && b != n ==> blocks'[b] == blocks[b]
    requires forall b :: 0 <= b < |blocks| && !IsFree(blocks[b]) ==> contents'[b] == contents[b]
    ensures Holds(blocks', contents', m[k := contents'[n]])
  {
    var m' := m[k := contents'[n]];
    assert m'.Keys == m.Keys + {k};
    forall q | q in m'.Keys
      ensures exists b :: OwnedBy(blocks', b, q)
    {
      if q == k {
        assert OwnedBy(blocks', n, q);
      } else {
        var b :| OwnedBy(blocks, b, q);
        assert OwnedBy(blocks', b, q);
      }
    }
  }

  lemma HoldsForgotten(blocks: seq<Block>, contents: seq<seq<Byte>>, contents': seq<seq<Byte>>, m: Memory, pid: int)
    requires Holds(blocks, contents, m) && |contents'| == |blocks| && pid != -1
    requires forall b :: 0 <= b < |blocks| && !IsFree(blocks[b]) && blocks[b].pid != pid ==> contents'[b] == contents[b]
    ensures Holds(Disowned(blocks, pid), contents', Forget(m, pid))
  {
    forall q | q in Forget(m, pid)
      ensures exists b :: OwnedBy(Disowned(blocks, pid), b, q)
    {
      var b :| OwnedBy(blocks, b, q);
      assert OwnedBy(Disowned(blocks, pid), b, q);
    }
  }

  // ---------------------------------------------------------------- one step refines one step

  lemma KeepStanding(c: Config, s: Vm, s': Vm, m: Memory)
    requires Consistent(c, s) && Consistent(c, s') && StandsFor(c, s, m)
    requires s'.blocks == s.blocks && SameContents(c, s, s')
    ensures StandsFor(c, s', m)
  {
    HoldsSame(s.blocks, Contents(c, s), Contents(c, s'), m);
  }

  lemma LoadRefines(c: Config, s: Vm, m: Memory, pid: int, page: int, off: int)
    requires Inv(c, s) && StandsFor(c, s, m) && InCore(s, pid, page) && 0 <= off < c.pageSize
    ensures var (s', v) := Load(c, s, pid, page, off);
            && Inv(c, s') && StandsFor(c, s', m)
            && Key(pid, page) in m && |m[Key(pid, page)]| == c.pageSize && v == m[Key(pid, page)][off]
  {
    LoadKeeps(c, s, pid, page, off);
    KeepStanding(c, s, Load(c, s, pid, page, off).0, m);
    var b := s.frames[Pte(s, pid, page).frame].blockNum;
    assert m[Key(s.blocks[b].pid, s.blocks[b].page)] == Contents(c, s)[b];
  }

  lemma StoreRefines(c: Config, s: Vm, m: Memory, pid: int, page: int, off: int, v: Byte)
    requires Inv(c, s) && StandsFor(c, s, m) && InCore(s, pid, page) && 0 <= off < c.pageSize
    ensures var s' := Store(c, s, pid, page, off, v);
            && Inv(c, s') && Key(pid, page) in m && |m[Key(pid, page)]| == c.pageSize
            && StandsFor(c, s', m[Key(pid, page) := m[Key(pid, page)][off := v]])
  {
    StoreChangesOneByte(c, s, pid, page, off, v);
    var s' := Store(c, s, pid, page, off, v);
    var b := s.frames[Pte(s, pid, page).frame].blockNum;
    assert m[Key(s.blocks[b].pid, s.blocks[b].page)] == Contents(c, s)[b];
    HoldsChanged(s.blocks, Contents(c, s), Contents(c, s'), m, b, Key(pid, page));
  }

  lemma ExitRefines(c: Config, s: Vm, m: Memory, pid: int)
    requires Inv(c, s) && StandsFor(c, s, m) && 0 <= pid < c.maxProc && pid != c.pager
    ensures Inv(c, Exit(c, s, pid)) && StandsFor(c, Exit(c, s, pid), Forget(m, pid))
  {
    ExitKeepsOthers(c, s, pid);
    HoldsForgotten(s.blocks, Contents(c, s), Contents(c, Exit(c, s, pid)), m, pid);
  }

  lemma FaultOutcome(c: Config, s: Vm, m: Memory, pid: int, page: int, slack: seq<Byte>)
    requires Inv(c, s) && StandsFor(c, s, m) && SlackFits(c, slack)
    requires HasPte(s, pid, page) && pid != c.pager && !InCore(s, pid, page)
    ensures Reference(c, m, DoFault(pid, page, slack)) ==
            match Fault(c, s, pid, page, slack).1
            case OUT_OF_SWAP => (m, NoSwap)
            case EMPTY_PAGE => (m[Key(pid, page) := Repeat(c.pageSize, 0)], Mapped)
            case _ => (m, Mapped)
    ensures Key(pid, page) in m <==> FindBlock(s.blocks, pid, page) != -1
  {
    FaultKeepsContents(c, s, pid, page, slack);
    TouchedPages(s.blocks, Contents(c, s), m);
    TouchedIffFound(s.blocks, Contents(c, s), m, pid, page);
  }

  lemma FreshRefines(c: Config, s: Vm, m: Memory, pid: int, page: int, slack: seq<Byte>)
    requires Inv(c, s) && StandsFor(c, s, m) && SlackFits(c, slack)
    requires HasPte(s, pid, page) && pid != c.pager && !InCore(s, pid, page)
    requires Fault(c, s, pid, page, slack).1 == EMPTY_PAGE && Key(pid, page) !in m
    ensures var s' := Fault(c, s, pid, page, slack).0;
            Inv(c, s') && StandsFor(c, s', m[Key(pid, page) := Repeat(c.pageSize, 0)])
  {
    FaultKeepsContents(c, s, pid, page, slack);
    var s' := Fault(c, s, pid, page, slack).0;
    HoldsAdded(s.blocks, Contents(c, s), s'.blocks, Contents(c, s'), m, FindFree(s.blocks), Key(pid, page));
  }

  lemma FaultRefines(c: Config, s: Vm, m: Memory, pid: int, page: int, slack: seq<Byte>)
    requires Inv(c, s) && StandsFor(c, s, m) && SlackFits(c, slack)
    requires HasPte(s, pid, page) && pid != c.pager && !InCore(s, pid, page)
    ensures var (s', r) := Fault(c, s, pid, page, slack);
            var (m', o) := Reference(c, m, DoFault(pid, page, slack));
            Inv(c, s') && StandsFor(c, s', m') && o == if r == OUT_OF_SWAP then NoSwap else Mapped
  {
    FaultKeepsContents(c, s, pid, page, slack);
    FaultOutcome(c, s, m, pid, page, slack);
    var (s', r) := Fault(c, s, pid, page, slack);
    if r == EMPTY_PAGE {
      FreshRefines(c, s, m, pid, page, slack);
    } else {
      KeepStanding(c, s, s', m);
    }
  }

  /** One step of the paging system is one step of the reference machine, with the same
      outcome. */
  lemma StepRefines(c: Config, s: Vm, m: Memory, e: Event)
    requires Enabled(c, s, e) && StandsFor(c, s, m)
    ensures var (s', o) := Step(c, s, e);
            var (m', o') := Reference(c, m, e);
            Inv(c, s') && StandsFor(c, s', m') && o == o'
  {
    match e
    case DoSpawn(pid) =>
      SpawnKeeps(c, s, pid);
      KeepStanding(c, s, Spawn(c, s, pid), m);
    case DoExit(pid) => ExitRefines(c, s, m, pid);
    case DoLoad(pid, page, off) => LoadRefines(c, s, m, pid, page, off);
    case DoStore(pid, page, off, v) => StoreRefines(c, s, m, pid, page, off, v);
    case DoFault(pid, page, slack) => FaultRefines(c, s, m, pid, page, slack);
  }

  // ---------------------------------------------------------------- runs

  /** The state after initialisation: memory and disk hold anything at all. */
  ghost predicate Booted(c: Config, s: Vm) {
    && Shape(c, s)
    && (forall pid :: 0 <= pid < c.maxProc ==>
          s.tables[pid] == if pid == c.pager then Some(Repeat(c.pages, EMPTY_PTE)) else None)
    && (forall f :: 0 <= f < c.frames ==> s.frames[f] == FrameInfo(false, -1) && s.pool[f] == PoolFrame(false, -1))
    && (forall b :: 0 <= b < |s.blocks| ==> s.blocks[b] == FREE_BLOCK)
    && s.free == |s.blocks| && s.hand == -1
  }

  lemma {:induction false} AllFree(blocks: seq<Block>)
    requires forall b :: 0 <= b < |blocks| ==> IsFree(blocks[b])
    ensures CountFree(blocks) == |blocks|
  {
    if blocks != [] {
      AllFree(blocks[..|blocks| - 1]);
    }
  }

  lemma BootedInv(c: Config, s: Vm)
    requires Booted(c, s)
    ensures Inv(c, s) && StandsFor(c, s, map[])
  {
    AllFree(s.blocks);
  }

  /** The state and outcomes after a sequence of events, if each was enabled in turn. */
  ghost function Run(c: Config, s: Vm, es: seq<Event>): Option<(Vm, seq<Outcome>)> {
    if es == [] then Some((s, []))
    else
      var e := es[|es| - 1];
      match Run(c, s, es[..|es| - 1])
      case None => None
      case Some((s1, os)) =>
        if Enabled(c, s1, e) then Some((Step(c, s1, e).0, os + [Step(c, s1, e).1])) else None
  }

  function ReferenceRun(c: Config, es: seq<Event>): (Memory, seq<Outcome>)
    requires Sound(c)
  {
    if es == [] then (map[], [])
    else
      var (m, os) := ReferenceRun(c, es[..|es| - 1]);
      (Reference(c, m, es[|es| - 1]).0, os + [Reference(c, m, es[|es| - 1]).1])
  }

  /** In every run the paging system keeps its invariant, stands for the reference
      machine's memory, and has produced the reference machine's outcomes, loads and
      out-of-swap answers included. */
  lemma {:induction false} RunRefines(c: Config, s: Vm, es: seq<Event>)
    requires Booted(c, s) && Run(c, s, es).Some?
    ensures var (s', os) := Run(c, s, es).value;
            Inv(c, s') && StandsFor(c, s', ReferenceRun(c, es).0) && os == ReferenceRun(c, es).1
  {
    BootedInv(c, s);
    if es != [] {
      var before := es[..|es| - 1];
      RunRefines(c, s, before);
      StepRefines(c, Run(c, s, before).value.0, ReferenceRun(c, before).0, es[|es| - 1]);
    }
  }

  /** The last byte stored at an address since the process's last exit; zero if none. */
  function LastStored(es: seq<Event>, pid: int, page: int, off: int): Byte {
    if es == [] then 0 as Byte
    else
      match es[|es| - 1]
      case DoStore(p, g, o, v) =>
        if p == pid && g == page && o == off then v else LastStored(es[..|es| - 1], pid, page, off)
      case DoExit(p) => if p == pid then 0 as Byte else LastStored(es[..|es| - 1], pid, page, off)
      case _ => LastStored(es[..|es| - 1], pid, page, off)
  }

  /** The reference memory's byte at an address is the last one stored there, and only
      zero was ever "stored" in a page it does not have. */
  ghost predicate IsLastStored(c: Config, m: Memory, es: seq<Event>, pid: int, page: int, off: int) {
    if Key(pid, page) in m
    then 0 <= off < |m[Key(pid, page)]| == c.pageSize && m[Key(pid, page)][off] == LastStored(es, pid, page, off)
    else LastStored(es, pid, page, off) == 0
  }

  lemma ReferenceStoresLast(c: Config, m: Memory, es: seq<Event>, e: Event, pid: int, page: int, off: int)
    requires Sound(c) && 0 <= off < c.pageSize && IsLastStored(c, m, es, pid, page, off)
    requires e.DoStore? ==> Key(e.pid, e.page) in m && 0 <= e.off < |m[Key(e.pid, e.page)]|
    ensures IsLastStored(c, Reference(c, m, e).0, es + [e], pid, page, off)
  {
    assert (es + [e])[..|es|] == es;
  }

  lemma {:induction false} MemoryIsLastStored(c: Config, s: Vm, es: seq<Event>, pid: int, page: int, off: int)
    requires Booted(c, s) && Run(c, s, es).Some? && 0 <= off < c.pageSize
    ensures IsLastStored(c, ReferenceRun(c, es).0, es, pid, page, off)
  {
    if es != [] {
      var before, e := es[..|es| - 1], es[|es| - 1];
      MemoryIsLastStored(c, s, before, pid, page, off);
      RunRefines(c, s, before);
      if e.DoStore? {
        StoreRefines(c, Run(c, s, before).value.0, ReferenceRun(c, before).0, e.pid, e.page, e.off, e.v);
      }
      ReferenceStoresLast(c, ReferenceRun(c, before).0, before, e, pid, page, off);
      assert es == before + [e];
    }
  }

  /** After any run of loads, stores, fault services, starts and exits, a load returns
      the last byte its process stored at that address, or zero if it stored none: no
      page is ever mixed up with another, lost, stale, or left over from an earlier
      process with the same id. */
  lemma LoadReturnsLastStored(c: Config, s: Vm, es: seq<Event>, pid: int, page: int, off: int)
    requires Booted(c, s) && Run(c, s, es).Some?
    ensures var s1 := Run(c, s, es).value.0;
            Enabled(c, s1, DoLoad(pid, page, off)) ==>
            Step(c, s1, DoLoad(pid, page, off)).1 == Loaded(LastStored(es, pid, page, off))
  {
    var s1 := Run(c, s, es).value.0;
    if Enabled(c, s1, DoLoad(pid, page, off)) {
      RunRefines(c, s, es);
      MemoryIsLastStored(c, s, es, pid, page, off);
      LoadRefines(c, s1, ReferenceRun(c, es).0, pid, page, off);
    }
  }

  /** In every reachable state page tables, frames and blocks agree in both directions: a
      mapped page's frame names a block of that page; a frame that names a block is mapped
      by exactly the page that owns it; no two pages share a frame or a block; and a page
      in a clean frame equals its image on disk. */
  lemma AgreementInEveryRun(c: Config, s: Vm, es: seq<Event>, pid: int, page: int)
    requires Booted(c, s) && Run(c, s, es).Some?
    ensures var s1 := Run(c, s, es).value.0;
            && Consistent(c, s1) && NoneBusy(s1)
            && s1.free == CountFree(s1.blocks)
            && (InCore(s1, pid, page) ==>
                  var f := Pte(s1, pid, page).frame;
                  && 0 <= f < c.frames && Owns(s1, s1.frames[f].blockNum, pid, page)
                  && (!s1.access[f].dirty ==> s1.ram[f] == PageOnDisk(c, s1.disk, s1.frames[f].blockNum))
                  && (forall pid', page' :: InCore(s1, pid', page') && Pte(s1, pid', page').frame == f ==>
                       pid' == pid && page' == page))
            && (forall f :: 0 <= f < c.frames && Owns(s1, s1.frames[f].blockNum, pid, page) ==>
                  InCore(s1, pid, page) && Pte(s1, pid, page).frame == f)
            && (forall a, b :: Owns(s1, a, pid, page) && Owns(s1, b, pid, page) ==> a == b)
  {
    RunRefines(c, s, es);
    var s1 := Run(c, s, es).value.0;
    forall a, b | Owns(s1, a, pid, page) && Owns(s1, b, pid, page)
      ensures a == b
    {
      assert a < b || b < a || a == b;
    }
    if InCore(s1, pid, page) {
      assert Owns(s1, s1.frames[Pte(s1, pid, page).frame].blockNum, pid, page);
    }
  }

  // ---------------------------------------------------------------- two consequences for whole runs

  ghost predicate ResidentsDirty(s: Vm)
    requires |s.access| == |s.frames|
  {
    forall f :: 0 <= f < |s.frames| && s.frames[f].blockNum != -1 ==> s.access[f].dirty
  }

  /** A resident page is always dirty, read-only use included: the pager's own stores set
      the bit whenever it fills a frame, and only eviction clears it. So every eviction of
      a page writes to disk. */
  lemma {:induction false} RunResidentsDirty(c: Config, s: Vm, es: seq<Event>)
    requires Booted(c, s) && Run(c, s, es).Some?
    ensures Inv(c, Run(c, s, es).value.0) && ResidentsDirty(Run(c, s, es).value.0)
  {
    RunRefines(c, s, es);
    if es != [] {
      var before := es[..|es| - 1];
      RunResidentsDirty(c, s, before);
      StepResidentsDirty(c, Run(c, s, before).value.0, es[|es| - 1]);
    }
  }

  lemma StepResidentsDirty(c: Config, s: Vm, e: Event)
    requires Enabled(c, s, e) && ResidentsDirty(s)
    ensures var s' := Step(c, s, e).0;
            |s'.access| == |s'.frames| == c.frames && ResidentsDirty(s')
  {
    match e
    case DoSpawn(pid) =>
    case DoExit(pid) =>
    case DoLoad(pid, page, off) =>
    case DoStore(pid, page, off, v) =>
    case DoFault(pid, page, slack) =>
      AcquireReady(c, s, pid, page, slack);
      AcquireResidentsDirty(c, s, slack);
      SwapInResidentsDirty(c, Acquire(c, s, slack).0, pid, page, Acquire(c, s, slack).1);
  }

  lemma AcquireResidentsDirty(c: Config, s: Vm, slack: seq<Byte>)
    requires Consistent(c, s) && SlackFits(c, slack) && ResidentsDirty(s)
    ensures var s' := Acquire(c, s, slack).0;
            |s'.access| == |s'.frames| == c.frames && ResidentsDirty(s')
  {
  }

  lemma SwapInResidentsDirty(c: Config, s: Vm, pid: int, page: int, f: int)
    requires Consistent(c, s) && HasPte(s, pid, page) && 0 <= f < c.frames && ResidentsDirty(s)
    ensures var (s', r) := SwapIn(c, s, pid, page, f);
            && |s'.access| == |s'.frames| == |s'.ram| == c.frames
            && (if r == EMPTY_PAGE then ResidentsDirty(Zeroed(c, s', f))
                else s.frames[f].blockNum == -1 ==> ResidentsDirty(s'))
  {
  }

  /** A frame once taken from the pool never returns to it, whoever exits: after the pool
      is empty every fault goes through the clock. */
  lemma StepKeepsFramesTaken(c: Config, s: Vm, e: Event, f: int)
    requires Enabled(c, s, e) && 0 <= f < c.frames && s.pool[f].used
    ensures |Step(c, s, e).0.pool| == c.frames && Step(c, s, e).0.pool[f].used
  {
    match e
    case DoExit(pid) => ExitReturnsNoFrame(c, s, pid);
    case DoFault(pid, page, slack) => AcquireReady(c, s, pid, page, slack);
    case _ =>
  }
}

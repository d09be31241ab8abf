/** P3FrameMap and P3FrameUnmap on the state: how a process borrows a page of its own
    table to reach a frame, and when giving it back undoes that exactly. */
module FrameMapping {
  import opened Common
  import opened SwapLayout
  import opened Paging

  datatype MapReply = MAPPED | OUT_OF_PAGES | INVALID_FRAME | FRAME_NOT_MAPPED

  function FirstUnused(table: seq<PTE>): int {
    FirstIndex(table, (e: PTE) => !e.incore)
  }

  function FirstMapping(table: seq<PTE>, f: int): int {
    FirstIndex(table, (e: PTE) => e.incore && e.frame == f)
  }

  /** The table after mapping f at its first unused page. */
  function MapTable(table: seq<PTE>, f: nat): seq<PTE>
    requires FirstUnused(table) != -1
  {
    table[FirstUnused(table) := PTE(true, true, true, f)]
  }

  /** The table after unmapping f at the first page that maps it. */
  function UnmapTable(table: seq<PTE>, f: nat): seq<PTE>
    requires FirstMapping(table, f) != -1
  {
    table[FirstMapping(table, f) := EMPTY_PTE]
  }

  function FrameMap(c: Config, s: Vm, pid: int, f: int): (Vm, MapReply)
    requires HasTable(s, pid) && |s.pool| == c.frames
  {
    if f < 0 || f >= c.frames then (s, MapReply.INVALID_FRAME)
    else if FirstUnused(s.tables[pid].value) == -1 then (s, OUT_OF_PAGES)
    else
      (s.(tables := s.tables[pid := Some(MapTable(s.tables[pid].value, f))],
          pool := s.pool[f := s.pool[f].(mappedPid := pid)]), MAPPED)
  }

  /** A frame marked as mapped by a process is mapped in its table. */
  predicate MarkTrue(c: Config, s: Vm, pid: int, f: int)
    requires HasTable(s, pid) && |s.pool| == c.frames
  {
    0 <= f < c.frames && s.pool[f].mappedPid == pid ==> FirstMapping(s.tables[pid].value, f) != -1
  }

  function FrameUnmap(c: Config, s: Vm, pid: int, f: int): (Vm, MapReply)
    requires HasTable(s, pid) && |s.pool| == c.frames && MarkTrue(c, s, pid, f)
  {
    if f < 0 || f >= c.frames then (s, MapReply.INVALID_FRAME)
    else if s.pool[f].mappedPid != pid then (s, FRAME_NOT_MAPPED)
    else
      (s.(tables := s.tables[pid := Some(UnmapTable(s.tables[pid].value, f))],
          pool := s.pool[f := s.pool[f].(mappedPid := -1)]), MAPPED)
  }

  ghost predicate FirstSpare(table: seq<PTE>, i: int) {
    0 <= i < |table| && !table[i].incore && forall j :: 0 <= j < i ==> table[j].incore
  }

  /** Page i of the table maps frame f. */
  predicate Shows(table: seq<PTE>, i: int, f: int) {
    0 <= i < |table| && table[i].incore && table[i].frame == f
  }

  ghost predicate FirstShown(table: seq<PTE>, i: int, f: int) {
    Shows(table, i, f) && forall j :: 0 <= j < i ==> !Shows(table, j, f)
  }

  /** What P3FrameMap does: a frame that does not exist is refused, then a table without a
      page to spare; otherwise the first page not in core maps the frame, readable and
      writable, the frame is marked as the process's, and nothing else changes. */
  lemma MapTakesFirst(c: Config, s: Vm, pid: int, f: int)
    requires HasTable(s, pid) && |s.pool| == c.frames
    ensures var (s', reply) := FrameMap(c, s, pid, f);
            var full := forall i :: 0 <= i < |s.tables[pid].value| ==> s.tables[pid].value[i].incore;
            && (reply == MapReply.INVALID_FRAME <==> !(0 <= f < c.frames))
            && (reply == OUT_OF_PAGES <==> 0 <= f < c.frames && full)
            && (reply == MAPPED <==> 0 <= f < c.frames && !full)
            && (reply != MAPPED ==> s' == s)
            && (reply == MAPPED ==>
                  forall i :: FirstSpare(s.tables[pid].value, i) ==>
                    s' == SetPte(s, pid, i, PTE(true, true, true, f))
                            .(pool := s.pool[f := s.pool[f].(mappedPid := pid)]))
  {
    var table := s.tables[pid].value;
    var unused := (e: PTE) => !e.incore;
    var n := FirstUnused(table);
    assert forall i :: 0 <= i < |table| ==> (unused(table[i]) <==> !table[i].incore);
    assert n != -1 ==> !table[n].incore;
    assert forall i :: FirstSpare(table, i) ==> i == n;
  }

  /** What P3FrameUnmap does: a frame that does not exist is refused, then one not marked as
      the process's; otherwise the first page that maps the frame is cleared, the mark is
      removed, and nothing else changes. */
  lemma UnmapTakesFirst(c: Config, s: Vm, pid: int, f: int)
    requires HasTable(s, pid) && |s.pool| == c.frames && MarkTrue(c, s, pid, f)
    ensures var (s', reply) := FrameUnmap(c, s, pid, f);
            && (reply == MapReply.INVALID_FRAME <==> !(0 <= f < c.frames))
            && (reply == FRAME_NOT_MAPPED <==> 0 <= f < c.frames && s.pool[f].mappedPid != pid)
            && (reply == MAPPED <==> 0 <= f < c.frames && s.pool[f].mappedPid == pid)
            && (reply != MAPPED ==> s' == s)
            && (reply == MAPPED ==>
                  forall i :: FirstShown(s.tables[pid].value, i, f) ==>
                    s' == SetPte(s, pid, i, PTE(false, false, false, 0))
                            .(pool := s.pool[f := s.pool[f].(mappedPid := -1)]))
  {
    var table := s.tables[pid].value;
    var shows := (e: PTE) => e.incore && e.frame == f;
    var n := FirstMapping(table, f);
    assert forall i :: 0 <= i < |table| ==> (shows(table[i]) <==> Shows(table, i, f));
    assert forall i :: FirstShown(table, i, f) ==> i == n;
  }

  /** The same pages map the same frames. */
  ghost predicate SameMappings(a: seq<PTE>, b: seq<PTE>) {
    && |a| == |b|
    && forall i :: 0 <= i < |a| ==> a[i].incore == b[i].incore && (a[i].incore ==> a[i] == b[i])
  }

  /** After a successful map, the unmap by the same process finds an entry and succeeds. */
  lemma UnmapFinds(c: Config, s: Vm, pid: int, f: int)
    requires HasTable(s, pid) && |s.pool| == c.frames
    requires FrameMap(c, s, pid, f).1 == MAPPED
    ensures var s' := FrameMap(c, s, pid, f).0;
            HasTable(s', pid) && MarkTrue(c, s', pid, f) && FrameUnmap(c, s', pid, f).1 == MAPPED
  {
    var table, i := s.tables[pid].value, FirstUnused(s.tables[pid].value);
    assert ((e: PTE) => e.incore && e.frame == f)(MapTable(table, f)[i]);
  }

  /** Map then unmap gives back the process's mappings and the frame's owner mark exactly
      when the frame had no mark and no page before the borrowed one maps it already;
      otherwise the unmap takes away that other mapping, or the mark. */
  lemma MapThenUnmap(c: Config, s: Vm, pid: int, f: int)
    requires HasTable(s, pid) && |s.pool| == c.frames && pid >= 0
    requires FrameMap(c, s, pid, f).1 == MAPPED
    ensures var s1 := FrameMap(c, s, pid, f).0;
            HasTable(s1, pid) && MarkTrue(c, s1, pid, f) &&
            var s2 := FrameUnmap(c, s1, pid, f).0;
            HasTable(s2, pid) &&
            (SameMappings(s.tables[pid].value, s2.tables[pid].value) && s2.pool == s.pool
             <==>
             s.pool[f].mappedPid == -1 &&
             forall j :: 0 <= j < FirstUnused(s.tables[pid].value) ==> s.tables[pid].value[j].frame != f)
  {
    UnmapFinds(c, s, pid, f);
    var table, i := s.tables[pid].value, FirstUnused(s.tables[pid].value);
    var mapped := MapTable(table, f);
    var k := FirstMapping(mapped, f);
    var s2 := FrameUnmap(c, FrameMap(c, s, pid, f).0, pid, f).0;
    assert ((e: PTE) => e.incore && e.frame == f)(mapped[i]);
    assert forall j :: 0 <= j < i ==> !((e: PTE) => !e.incore)(table[j]);
    assert k <= i;
    if k < i {
      assert table[k].frame == f && table[k].incore && !s2.tables[pid].value[k].incore;
    } else {
      assert forall j :: 0 <= j < i ==> !((e: PTE) => e.incore && e.frame == f)(mapped[j]);
    }
    assert s2.pool[f].mappedPid == -1;
    assert s.pool[f].mappedPid == -1 ==> s2.pool == s.pool;
  }

  /** An empty table, such as the pager's between fault services, is given back as it was. */
  lemma EmptyTableRestored(c: Config, s: Vm, pid: int, f: int)
    requires Sound(c) && HasTable(s, pid) && |s.pool| == c.frames && 0 <= f < c.frames
    requires s.tables[pid].value == Repeat(c.pages, EMPTY_PTE) && s.pool[f].mappedPid == -1
    ensures var (s1, r) := FrameMap(c, s, pid, f);
            && r == MAPPED && FirstUnused(s.tables[pid].value) == 0
            && HasTable(s1, pid) && s1.tables[pid].value == Repeat(c.pages, EMPTY_PTE)[0 := PTE(true, true, true, f)]
            && s1.pool[f].mappedPid == pid
            && MarkTrue(c, s1, pid, f) && FrameUnmap(c, s1, pid, f) == (s, MAPPED)
  {
    var table := s.tables[pid].value;
    assert ((e: PTE) => !e.incore)(table[0]);
    assert FirstUnused(table) == 0;
    UnmapFinds(c, s, pid, f);
    var s1 := FrameMap(c, s, pid, f).0;
    assert ((e: PTE) => e.incore && e.frame == f)(s1.tables[pid].value[0]);
    assert FirstMapping(s1.tables[pid].value, f) == 0;
    assert UnmapTable(s1.tables[pid].value, f) == table;
    assert s.tables == s.tables[pid := Some(table)];
    assert FrameUnmap(c, s1, pid, f).0.pool == s.pool;
    assert FrameUnmap(c, s1, pid, f).0.tables == s.tables;
  }
}

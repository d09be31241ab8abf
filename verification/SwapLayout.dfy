/** How swap blocks are laid out on the swap disk. */
module SwapLayout {
  import opened Common
  import opened Disk

  /** The sizes of the virtual-memory system, and the process id of its single pager. */
  datatype Config = Config(maxProc: nat, pages: nat, frames: nat, pageSize: nat, disk: Geometry, pager: nat)

  predicate Sound(c: Config) {
    c.pages > 0 && c.frames > 0 && c.pageSize > 0 && Positive(c.disk) && c.pager < c.maxProc
  }

  /** Sectors that hold one frame, rounded up. */
  function SectorsPerFrame(c: Config): nat
    requires Sound(c)
  {
    c.pageSize / c.disk.sectorSize + (if c.pageSize % c.disk.sectorSize != 0 then 1 else 0)
  }

  /** Rounding up is right: the sectors hold a frame and one fewer would not. */
  lemma FrameFits(c: Config)
    requires Sound(c)
    ensures SectorsPerFrame(c) >= 1
    ensures (SectorsPerFrame(c) - 1) * c.disk.sectorSize < c.pageSize <= SectorsPerFrame(c) * c.disk.sectorSize
  {
    var z, q, r := c.disk.sectorSize, c.pageSize / c.disk.sectorSize, c.pageSize % c.disk.sectorSize;
    assert c.pageSize == q * z + r;
    assert (q + 1) * z == q * z + z;
    assert (q - 1) * z == q * z - z;
    if q == 0 {
      assert q * z == 0;
    }
  }

  /** Blocks the swap disk can hold. */
  function NumBlocks(c: Config): nat
    requires Sound(c)
  {
    FrameFits(c);
    (c.disk.trackSize * c.disk.tracks) / SectorsPerFrame(c)
  }

  function TrackOf(c: Config, b: nat): nat
    requires Sound(c)
  {
    (b * SectorsPerFrame(c)) / c.disk.trackSize
  }

  function FirstOf(c: Config, b: nat): nat
    requires Sound(c)
  {
    (b * SectorsPerFrame(c)) % c.disk.trackSize
  }

  /** Where block b starts, as a linear sector number. */
  function BlockStart(c: Config, b: nat): nat
    requires Sound(c)
  {
    b * SectorsPerFrame(c)
  }

  lemma BlockFits(c: Config, b: nat)
    requires Sound(c) && b < NumBlocks(c)
    ensures BlockStart(c, b) + SectorsPerFrame(c) <= c.disk.trackSize * c.disk.tracks
  {
    FrameFits(c);
    var s, all := SectorsPerFrame(c), c.disk.trackSize * c.disk.tracks;
    MulMono(b + 1, NumBlocks(c), s);
    assert (b + 1) * s == b * s + s;
    assert NumBlocks(c) * s <= all;
  }

  lemma BlockAddress(c: Config, b: nat)
    requires Sound(c)
    ensures TrackOf(c, b) * c.disk.trackSize + FirstOf(c, b) == BlockStart(c, b)
    ensures 0 <= FirstOf(c, b) < c.disk.trackSize && 0 <= TrackOf(c, b)
  {
  }

  /** A block lies inside the disk, its (track, first) address decodes to its linear
      start, and the disk layer accepts a request for it, track-straddling or not. */
  lemma BlockInside(c: Config, b: nat)
    requires Sound(c) && b < NumBlocks(c)
    ensures BlockStart(c, b) + SectorsPerFrame(c) <= c.disk.trackSize * c.disk.tracks
    ensures TrackOf(c, b) * c.disk.trackSize + FirstOf(c, b) == BlockStart(c, b)
    ensures CheckRequest(c.disk.trackSize, true, c.disk.tracks, TrackOf(c, b), FirstOf(c, b), SectorsPerFrame(c),
                         false) == SUCCESS
  {
    FrameFits(c);
    BlockFits(c, b);
    BlockAddress(c, b);
    if TrackOf(c, b) >= c.disk.tracks {
      MulMono(c.disk.tracks, TrackOf(c, b), c.disk.trackSize);
    }
    AcceptedRange(c.disk, TrackOf(c, b), FirstOf(c, b), SectorsPerFrame(c));
  }

  /** Different blocks occupy disjoint sector ranges. */
  lemma BlocksDisjoint(c: Config, a: nat, b: nat)
    requires Sound(c) && a < b
    ensures BlockStart(c, a) + SectorsPerFrame(c) <= BlockStart(c, b)
  {
    MulMono(a + 1, b, SectorsPerFrame(c));
    assert (a + 1) * SectorsPerFrame(c) == a * SectorsPerFrame(c) + SectorsPerFrame(c);
  }

  /** The page image that block b holds: a frame's worth of bytes from its first sector on. */
  ghost function PageOnDisk(c: Config, disk: seq<Sector>, b: nat): (p: seq<Byte>)
    requires Sound(c) && Formatted(c.disk, disk) && b < NumBlocks(c)
    ensures |p| == c.pageSize
  {
    BlockInside(c, b);
    FrameFits(c);
    ReadLength(c.disk, disk, BlockStart(c, b), SectorsPerFrame(c));
    FlatRead(disk, BlockStart(c, b), SectorsPerFrame(c))[..c.pageSize]
  }

  /** The disk after a whole-block write at block b. */
  ghost function WriteBlock(c: Config, disk: seq<Sector>, b: nat, buf: seq<Byte>): seq<Sector>
    requires Sound(c) && Formatted(c.disk, disk) && b < NumBlocks(c)
    requires |buf| == SectorsPerFrame(c) * c.disk.sectorSize
  {
    BlockInside(c, b);
    FlatWrite(disk, BlockStart(c, b), SectorsPerFrame(c), buf, c.disk.sectorSize)
  }

  /** Writing a block changes exactly that block's page image. */
  lemma WriteBlockPages(c: Config, disk: seq<Sector>, b: nat, buf: seq<Byte>)
    requires Sound(c) && Formatted(c.disk, disk) && b < NumBlocks(c)
    requires |buf| == SectorsPerFrame(c) * c.disk.sectorSize
    ensures Formatted(c.disk, WriteBlock(c, disk, b, buf))
    ensures c.pageSize <= |buf| && PageOnDisk(c, WriteBlock(c, disk, b, buf), b) == buf[..c.pageSize]
    ensures forall o: nat :: o < NumBlocks(c) && o != b ==>
              PageOnDisk(c, WriteBlock(c, disk, b, buf), o) == PageOnDisk(c, disk, o)
  {
    var n := SectorsPerFrame(c);
    BlockInside(c, b);
    FrameFits(c);
    WriteFormatted(c.disk, disk, BlockStart(c, b), n, buf);
    ReadAfterWrite(c.disk, disk, BlockStart(c, b), n, buf);
    assert buf[..n * c.disk.sectorSize] == buf;
    forall o: nat | o < NumBlocks(c) && o != b
      ensures PageOnDisk(c, WriteBlock(c, disk, b, buf), o) == PageOnDisk(c, disk, o)
    {
      BlockInside(c, o);
      if o < b {
        BlocksDisjoint(c, o, b);
      } else {
        BlocksDisjoint(c, b, o);
      }
      ReadElsewhere(c.disk, disk, BlockStart(c, b), n, buf, BlockStart(c, o), n);
    }
  }
}

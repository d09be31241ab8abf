/** The disk layer: the seek-and-transfer loop of the disk driver, the range checks in
    front of it, and the flat array of sectors that both together present to callers. */
module Disk {
  import opened Common

  type Sector = seq<Byte>

  /** sectorSize bytes per sector, trackSize sectors per track, `tracks` tracks. */
  datatype Geometry = Geometry(sectorSize: nat, trackSize: nat, tracks: nat)

  predicate Positive(g: Geometry) {
    g.sectorSize > 0 && g.trackSize > 0 && g.tracks > 0
  }

  /** Every sector of the disk is present and full. */
  ghost predicate Formatted(g: Geometry, disk: seq<Sector>) {
    |disk| == g.trackSize * g.tracks &&
    forall j :: 0 <= j < |disk| ==> |disk[j]| == g.sectorSize
  }

  // ---------------------------------------------------------------- flat reference

  /** The i-th piece of `z` bytes of a buffer. */
  function Piece(buf: seq<Byte>, z: nat, i: nat): (p: seq<Byte>)
    requires i * z + z <= |buf|
    ensures |p| == z
  {
    buf[i * z..i * z + z]
  }

  lemma PieceFits(z: nat, n: nat, i: nat)
    requires i < n
    ensures i * z + z <= n * z
  {
    assert (n - i - 1) * z >= 0;
    assert n * z == i * z + z + (n - i - 1) * z;
  }

  /** Sectors start..start+n of the disk, one after the other. */
  ghost function FlatRead(disk: seq<Sector>, start: nat, n: nat): seq<Byte>
    requires start + n <= |disk|
  {
    if n == 0 then [] else FlatRead(disk, start, n - 1) + disk[start + n - 1]
  }

  /** The disk after the first n pieces of `buf` replaced sectors start..start+n. */
  ghost function FlatWrite(disk: seq<Sector>, start: nat, n: nat, buf: seq<Byte>, z: nat): (d: seq<Sector>)
    requires start + n <= |disk|
    requires n * z <= |buf|
    ensures |d| == |disk|
    decreases n
  {
    if n == 0 then disk
    else
      (PieceFits(z, n, n - 1);
       FlatWrite(disk, start, n - 1, buf, z)[start + n - 1 := Piece(buf, z, n - 1)])
  }

  /** Buffer piece i lands in sector start + i and no other sector changes. */
  lemma {:induction false} WriteAt(disk: seq<Sector>, start: nat, n: nat, buf: seq<Byte>, z: nat, j: nat)
    requires start + n <= |disk| && n * z <= |buf| && j < |disk|
    ensures start <= j < start + n ==>
              (j - start) * z + z <= |buf| && FlatWrite(disk, start, n, buf, z)[j] == Piece(buf, z, j - start)
    ensures !(start <= j < start + n) ==> FlatWrite(disk, start, n, buf, z)[j] == disk[j]
  {
    if n > 0 {
      PieceFits(z, n, n - 1);
      WriteAt(disk, start, n - 1, buf, z, j);
    }
  }

  lemma {:induction false} ReadLength(g: Geometry, disk: seq<Sector>, start: nat, n: nat)
    requires Formatted(g, disk) && start + n <= |disk|
    ensures |FlatRead(disk, start, n)| == n * g.sectorSize
  {
    if n > 0 {
      ReadLength(g, disk, start, n - 1);
      assert n * g.sectorSize == (n - 1) * g.sectorSize + g.sectorSize;
    }
  }

  lemma PieceOfFront(front: seq<Byte>, last: seq<Byte>, z: nat, i: nat)
    requires i * z + z <= |front|
    ensures Piece(front + last, z, i) == Piece(front, z, i)
  {
  }

  lemma PieceOfLast(front: seq<Byte>, last: seq<Byte>, z: nat, i: nat)
    requires |front| == i * z && |last| == z
    ensures Piece(front + last, z, i) == last
  {
  }

  /** A read delivers n whole sectors and its i-th piece is sector start + i. */
  lemma {:induction false} ReadAt(g: Geometry, disk: seq<Sector>, start: nat, n: nat, i: nat)
    requires Formatted(g, disk) && start + n <= |disk| && i < n
    ensures |FlatRead(disk, start, n)| == n * g.sectorSize && i * g.sectorSize + g.sectorSize <= n * g.sectorSize
    ensures Piece(FlatRead(disk, start, n), g.sectorSize, i) == disk[start + i]
  {
    var z, front, last := g.sectorSize, FlatRead(disk, start, n - 1), disk[start + n - 1];
    ReadLength(g, disk, start, n);
    ReadLength(g, disk, start, n - 1);
    PieceFits(z, n, i);
    if i < n - 1 {
      ReadAt(g, disk, start, n - 1, i);
      PieceOfFront(front, last, z, i);
    } else {
      PieceOfLast(front, last, z, i);
    }
  }

  /** A buffer is determined by its pieces. */
  lemma SamePieces(a: seq<Byte>, b: seq<Byte>, z: nat, n: nat)
    requires z > 0 && |a| == |b| == n * z
    requires forall i :: 0 <= i < n ==> i * z + z <= n * z && Piece(a, z, i) == Piece(b, z, i)
    ensures a == b
  {
    forall x | 0 <= x < n * z
      ensures a[x] == b[x]
    {
      var q, r := InPiece(z, n, x);
      PieceIndex(a, z, q, r);
      PieceIndex(b, z, q, r);
    }
  }

  /** The piece a position is in, and where in it. */
  lemma InPiece(z: nat, n: nat, x: nat) returns (q: nat, r: nat)
    requires z > 0 && x < n * z
    ensures q < n && r < z && x == q * z + r && q * z + z <= n * z
  {
    q, r := x / z, x % z;
    assert x == q * z + r;
    if q >= n {
      MulMono(n, q, z);
    }
    PieceFits(z, n, q);
  }

  lemma PieceIndex(buf: seq<Byte>, z: nat, i: nat, r: nat)
    requires i * z + z <= |buf| && r < z
    ensures Piece(buf, z, i)[r] == buf[i * z + r]
  {
  }

  /** A write keeps the disk formatted. */
  lemma WriteFormatted(g: Geometry, disk: seq<Sector>, start: nat, n: nat, buf: seq<Byte>)
    requires Formatted(g, disk) && start + n <= |disk| && n * g.sectorSize <= |buf|
    ensures Formatted(g, FlatWrite(disk, start, n, buf, g.sectorSize))
  {
    forall j | 0 <= j < |disk|
      ensures |FlatWrite(disk, start, n, buf, g.sectorSize)[j]| == g.sectorSize
    {
      WriteAt(disk, start, n, buf, g.sectorSize, j);
    }
  }

  lemma PieceAfterWrite(g: Geometry, disk: seq<Sector>, start: nat, n: nat, buf: seq<Byte>, i: nat)
    requires Formatted(g, disk) && start + n <= |disk| && n * g.sectorSize <= |buf| && i < n
    ensures var read := FlatRead(FlatWrite(disk, start, n, buf, g.sectorSize), start, n);
            && i * g.sectorSize + g.sectorSize <= n * g.sectorSize == |read|
            && Piece(read, g.sectorSize, i) == Piece(buf[..n * g.sectorSize], g.sectorSize, i)
  {
    var z := g.sectorSize;
    WriteFormatted(g, disk, start, n, buf);
    ReadAt(g, FlatWrite(disk, start, n, buf, z), start, n, i);
    WriteAt(disk, start, n, buf, z, start + i);
    PieceFits(z, n, i);
    assert Piece(buf[..n * z], z, i) == Piece(buf, z, i);
  }

  /** Round trip: reading the range just written returns what was written. */
  lemma ReadAfterWrite(g: Geometry, disk: seq<Sector>, start: nat, n: nat, buf: seq<Byte>)
    requires Positive(g) && Formatted(g, disk) && start + n <= |disk| && n * g.sectorSize <= |buf|
    ensures FlatRead(FlatWrite(disk, start, n, buf, g.sectorSize), start, n) == buf[..n * g.sectorSize]
  {
    var z, read := g.sectorSize, FlatRead(FlatWrite(disk, start, n, buf, g.sectorSize), start, n);
    WriteFormatted(g, disk, start, n, buf);
    ReadLength(g, FlatWrite(disk, start, n, buf, z), start, n);
    forall i | 0 <= i < n
      ensures i * z + z <= n * z && Piece(read, z, i) == Piece(buf[..n * z], z, i)
    {
      PieceAfterWrite(g, disk, start, n, buf, i);
    }
    SamePieces(read, buf[..n * z], z, n);
  }

  /** A write leaves every read of a disjoint range as it was. */
  lemma {:induction false} ReadElsewhere(g: Geometry, disk: seq<Sector>, start: nat, n: nat, buf: seq<Byte>,
                                         other: nat, m: nat)
    requires start + n <= |disk| && n * g.sectorSize <= |buf| && other + m <= |disk|
    requires other + m <= start || start + n <= other
    ensures FlatRead(FlatWrite(disk, start, n, buf, g.sectorSize), other, m) == FlatRead(disk, other, m)
  {
    if m > 0 {
      ReadElsewhere(g, disk, start, n, buf, other, m - 1);
      WriteAt(disk, start, n, buf, g.sectorSize, other + m - 1);
    }
  }

  // ---------------------------------------------------------------- request checks

  datatype Operation = Read | Write

  datatype Reply = SUCCESS | INVALID_UNIT | NULL_ADDRESS | INVALID_FIRST | INVALID_TRACK | INVALID_SECTORS

  /** The checks made before a request is queued, in their order; `tracks` is the
      unit's track count, -1 when the unit does not exist. */
  function CheckRequest(trackSize: nat, unitExists: bool, tracks: int,
                        track: int, first: int, sectors: int, nullBuffer: bool): Reply
  {
    if sectors == 0 then SUCCESS
    else if !unitExists || tracks == -1 then INVALID_UNIT
    else if nullBuffer then NULL_ADDRESS
    else if first >= trackSize || first < 0 then INVALID_FIRST
    else if track < 0 || track >= tracks then INVALID_TRACK
    else if sectors > trackSize * (tracks - track - 1) + (trackSize - first) || sectors < 0 then INVALID_SECTORS
    else SUCCESS
  }

  /** Which error a bad request gets: an empty request is always accepted, and otherwise the
      first of these that is wrong decides: the unit, the buffer, the first sector, the
      track, the range reaching past the last sector of the disk or being negative. */
  lemma FirstBadCheck(trackSize: nat, unitExists: bool, tracks: int,
                      track: int, first: int, sectors: int, nullBuffer: bool)
    ensures var reply := CheckRequest(trackSize, unitExists, tracks, track, first, sectors, nullBuffer);
            var unitGood := unitExists && tracks != -1;
            var firstGood, trackGood := 0 <= first < trackSize, 0 <= track < tracks;
            var rangeGood := 0 <= sectors && track * trackSize + first + sectors <= trackSize * tracks;
            && (reply == INVALID_UNIT <==> sectors != 0 && !unitGood)
            && (reply == NULL_ADDRESS <==> sectors != 0 && unitGood && nullBuffer)
            && (reply == INVALID_FIRST <==> sectors != 0 && unitGood && !nullBuffer && !firstGood)
            && (reply == INVALID_TRACK <==> sectors != 0 && unitGood && !nullBuffer && firstGood && !trackGood)
            && (reply == INVALID_SECTORS <==>
                  sectors != 0 && unitGood && !nullBuffer && firstGood && trackGood && !rangeGood)
            && (reply == SUCCESS <==>
                  sectors == 0 || (unitGood && !nullBuffer && firstGood && trackGood && rangeGood))
  {
    assert trackSize * (tracks - track - 1) == trackSize * tracks - track * trackSize - trackSize;
  }

  /** The checks accept exactly the requests whose linear range starts at a proper
      (track, first) address and lies inside the disk. */
  lemma AcceptedRange(g: Geometry, track: int, first: int, sectors: int)
    requires Positive(g) && sectors != 0
    ensures CheckRequest(g.trackSize, true, g.tracks, track, first, sectors, false) == SUCCESS
            <==>
            && 0 <= first < g.trackSize
            && 0 <= track < g.tracks
            && 0 < sectors
            && track * g.trackSize + first + sectors <= g.trackSize * g.tracks
  {
    assert g.trackSize * (g.tracks - track - 1) == g.trackSize * g.tracks - track * g.trackSize - g.trackSize;
  }

  // ---------------------------------------------------------------- the device and its driver

  /** After i of the sectors from `start` on were transferred: disk and buffer are those
      of a flat copy of i sectors. */
  ghost predicate Copied(g: Geometry, operation: Operation, disk0: seq<Sector>, buf0: seq<Byte>,
                         disk: seq<Sector>, buf: seq<Byte>, start: nat, i: nat)
  {
    start + i <= |disk0| && i * g.sectorSize <= |buf0| &&
    if operation.Write? then buf == buf0 && disk == FlatWrite(disk0, start, i, buf0, g.sectorSize)
    else disk == disk0 && buf == FlatRead(disk0, start, i) + buf0[i * g.sectorSize..]
  }

  /** One more sector. */
  lemma CopiedNext(g: Geometry, operation: Operation, disk0: seq<Sector>, buf0: seq<Byte>,
                   disk: seq<Sector>, buf: seq<Byte>, disk': seq<Sector>, buf': seq<Byte>, start: nat, i: nat)
    requires Formatted(g, disk0) && start + i < |disk0| && (i + 1) * g.sectorSize <= |buf0|
    requires Copied(g, operation, disk0, buf0, disk, buf, start, i) && |disk| == |disk0|
    requires i * g.sectorSize + g.sectorSize <= |buf|
    requires operation.Write? ==> buf' == buf && disk' == disk[start + i := Piece(buf, g.sectorSize, i)]
    requires operation.Read? ==>
               disk' == disk
                 && buf' == buf[..i * g.sectorSize] + disk[start + i] + buf[i * g.sectorSize + g.sectorSize..]
    ensures Copied(g, operation, disk0, buf0, disk', buf', start, i + 1)
  {
    var z := g.sectorSize;
    assert (i + 1) * z == i * z + z;
    if operation.Read? {
      ReadLength(g, disk0, start, i);
      var front := FlatRead(disk0, start, i);
      assert buf[..i * z] == front;
      assert buf[i * z + z..] == buf0[(i + 1) * z..];
    }
  }

  /** Where the transfer loop stands: i of n sectors copied, the next one at sector
      `sector` of track `track`, or at the beginning of the next track. */
  ghost predicate InProgress(g: Geometry, operation: Operation, disk0: seq<Sector>, buf0: seq<Byte>, start: nat, n: nat,
                             disk: seq<Sector>, buf: seq<Byte>, track: int, sector: int, walker: int, i: int)
  {
    && Positive(g) && Formatted(g, disk0) && Formatted(g, disk) && start + n <= |disk0|
    && n * g.sectorSize <= |buf0| == |buf|
    && 0 <= i <= n && 0 <= track < g.tracks && 0 <= sector <= g.trackSize
    && track * g.trackSize + sector == start + i && walker == i * g.sectorSize
    && Copied(g, operation, disk0, buf0, disk, buf, start, i)
  }

  lemma NothingCopied(g: Geometry, operation: Operation, disk: seq<Sector>, buf: seq<Byte>, start: nat, n: nat,
                      track: int, first: int)
    requires Positive(g) && Formatted(g, disk) && start + n <= |disk| && n * g.sectorSize <= |buf|
    requires 0 <= track < g.tracks && 0 <= first < g.trackSize && start == track * g.trackSize + first
    ensures InProgress(g, operation, disk, buf, start, n, disk, buf, track, first, 0, 0)
  {
    assert buf[0 * g.sectorSize..] == buf;
  }

  /** At the end of a track with sectors left to copy, there is a next track. */
  lemma NextTrack(g: Geometry, operation: Operation, disk0: seq<Sector>, buf0: seq<Byte>, start: nat, n: nat,
                  disk: seq<Sector>, buf: seq<Byte>, track: int, sector: int, walker: int, i: int)
    requires InProgress(g, operation, disk0, buf0, start, n, disk, buf, track, sector, walker, i) && i < n
    requires sector >= g.trackSize
    ensures track + 1 < g.tracks
    ensures InProgress(g, operation, disk0, buf0, start, n, disk, buf, track + 1, 0, walker, i)
  {
    assert (track + 1) * g.trackSize == start + i;
    if track + 1 >= g.tracks {
      MulMono(g.tracks, track + 1, g.trackSize);
    }
  }

  /** A disk unit: its sectors in linear order and the track under the arm. */
  class Unit {
    const g: Geometry
    var sectors: seq<Sector>
    var arm: int

    ghost predicate Valid()
      reads this
    {
      Positive(g) && Formatted(g, sectors)
    }

    constructor (g: Geometry)
      requires Positive(g)
      ensures Valid() && this.g == g
      ensures forall j :: 0 <= j < |sectors| ==> sectors[j] == Repeat(g.sectorSize, 0)
    {
      this.g := g;
      sectors := Repeat(g.trackSize * g.tracks, Repeat(g.sectorSize, 0));
      arm := 0;
    }

    /** The device's seek: only tracks of the disk exist. */
    method Seek(track: int)
      requires 0 <= track < g.tracks
      modifies `arm
      ensures arm == track
    {
      arm := track;
    }

    lemma ArmInside(sector: int)
      requires Valid() && 0 <= arm < g.tracks && 0 <= sector < g.trackSize
      ensures 0 <= arm * g.trackSize + sector < |sectors|
    {
      assert (g.tracks - arm - 1) * g.trackSize >= 0;
      assert g.trackSize * g.tracks == arm * g.trackSize + g.trackSize + (g.tracks - arm - 1) * g.trackSize;
    }

    /** The device stores one sector into memory. */
    static method CopyOut(sector: Sector, buffer: array<Byte>, walker: nat)
      requires walker + |sector| <= buffer.Length
      modifies buffer
      ensures buffer[..] == old(buffer[..walker]) + sector + old(buffer[walker + |sector|..])
    {
      forall i | 0 <= i < |sector| {
        buffer[walker + i] := sector[i];
      }
    }

    /** The device's one-sector transfer on the current track. */
    method Transfer(operation: Operation, sector: int, buffer: array<Byte>, walker: nat)
      requires Valid() && 0 <= arm < g.tracks && 0 <= sector < g.trackSize
      requires walker + g.sectorSize <= buffer.Length
      modifies this`sectors, buffer
      ensures Valid()
      ensures 0 <= arm * g.trackSize + sector < |sectors|
      ensures operation.Write? ==>
                && buffer[..] == old(buffer[..])
                && sectors == old(sectors)[arm * g.trackSize + sector := buffer[walker..walker + g.sectorSize]]
      ensures operation.Read? ==>
                && sectors == old(sectors)
                && buffer[..] == old(buffer[..walker]) + sectors[arm * g.trackSize + sector]
                  + old(buffer[walker + g.sectorSize..])
    {
      ArmInside(sector);
      var at := arm * g.trackSize + sector;
      if operation.Write? {
        sectors := sectors[at := buffer[walker..walker + g.sectorSize]];
      } else {
        CopyOut(sectors[at], buffer, walker);
      }
    }

    /** One read or write of the transfer loop: the flat copy grows by one sector. */
    method OneSector(operation: Operation, track: int, sector: int, buffer: array<Byte>, walker: int,
                     ghost disk0: seq<Sector>, ghost buf0: seq<Byte>, ghost start: nat, ghost n: nat, ghost i: int)
      requires InProgress(g, operation, disk0, buf0, start, n, sectors, buffer[..], track, sector, walker, i)
      requires i < n && sector < g.trackSize && arm == track
      modifies this`sectors, buffer
      ensures InProgress(g, operation, disk0, buf0, start, n, sectors, buffer[..], track, sector + 1,
                         walker + g.sectorSize, i + 1)
    {
      PieceFits(g.sectorSize, n, i);
      assert (i + 1) * g.sectorSize == i * g.sectorSize + g.sectorSize;
      ghost var disk1, buf1 := sectors, buffer[..];
      Transfer(operation, sector, buffer, walker);
      CopiedNext(g, operation, disk0, buf0, disk1, buf1, sectors, buffer[..], start, i);
    }

    /** The driver's transfer loop. It refines a flat copy: a write is FlatWrite and
        touches no buffer byte, a read is FlatRead into the front of the buffer and
        touches no sector. Every seek stays on the disk (Seek demands it). */
    method ReadWriteHelper(track: int, first: int, n: int, operation: Operation, buffer: array<Byte>)
      requires Valid() && n > 0
      requires 0 <= first < g.trackSize && 0 <= track < g.tracks
      requires track * g.trackSize + first + n <= g.trackSize * g.tracks
      requires n * g.sectorSize <= buffer.Length
      modifies this, buffer
      ensures Valid()
      ensures operation.Write? ==>
                && buffer[..] == old(buffer[..])
                && sectors == FlatWrite(old(sectors), track * g.trackSize + first, n, buffer[..], g.sectorSize)
      ensures operation.Read? ==>
                && sectors == old(sectors)
                && buffer[..] == FlatRead(sectors, track * g.trackSize + first, n) + old(buffer[n * g.sectorSize..])
    {
      ghost var start, disk0, buf0 := track * g.trackSize + first, sectors, buffer[..];
      var currentTrack, currentSector := track, first;
      var walker := 0;
      Seek(currentTrack);
      var i := 0;
      NothingCopied(g, operation, disk0, buf0, start, n, track, first);
      while i < n
        invariant arm == currentTrack
        invariant InProgress(g, operation, disk0, buf0, start, n, sectors, buffer[..], currentTrack, currentSector,
                             walker, i)
        decreases n - i, currentSector
      {
        if currentSector >= g.trackSize {
          NextTrack(g, operation, disk0, buf0, start, n, sectors, buffer[..], currentTrack, currentSector, walker, i);
          currentTrack := currentTrack + 1;
          currentSector := 0;
          Seek(currentTrack);
        } else {
          OneSector(operation, currentTrack, currentSector, buffer, walker, disk0, buf0, start, n, i);
          currentSector := currentSector + 1;
          walker := walker + g.sectorSize;
          i := i + 1;
        }
      }
    }
  }

  /** The two disk units; one that does not exist is null. */
  class DiskLayer {
    const sectorSize: nat
    const trackSize: nat
    const unit0: Unit?
    const unit1: Unit?

    ghost predicate Valid()
      reads this, unit0, unit1
    {
      && (unit0 != null ==> unit0.Valid() && unit0.g.sectorSize == sectorSize && unit0.g.trackSize == trackSize)
      && (unit1 != null ==> unit1.Valid() && unit1.g.sectorSize == sectorSize && unit1.g.trackSize == trackSize)
      && (unit0 != null && unit1 != null ==> unit0 != unit1)
    }

    /** The unit a number names, or null. */
    function Named(unit: int): (u: Unit?)
      ensures u == null || u == unit0 || u == unit1
    {
      if unit == 0 then unit0 else if unit == 1 then unit1 else null
    }

    constructor (g0: Geometry, exists0: bool, g1: Geometry, exists1: bool)
      requires Positive(g0) && Positive(g1)
      requires g0.sectorSize == g1.sectorSize && g0.trackSize == g1.trackSize
      ensures Valid() && sectorSize == g0.sectorSize && trackSize == g0.trackSize
      ensures (unit0 != null) == exists0 && (unit1 != null) == exists1
      ensures exists0 ==> unit0.g == g0 && fresh(unit0)
      ensures exists1 ==> unit1.g == g1 && fresh(unit1)
    {
      sectorSize, trackSize := g0.sectorSize, g0.trackSize;
      if exists0 {
        var u := new Unit(g0);
        unit0 := u;
      } else {
        unit0 := null;
      }
      if exists1 {
        var u := new Unit(g1);
        unit1 := u;
      } else {
        unit1 := null;
      }
    }

    /** The outcome of the checks for a request on a unit. */
    function Checked(unit: int, track: int, first: int, n: int, nullBuffer: bool): Reply
    {
      CheckRequest(trackSize, Named(unit) != null, if Named(unit) == null then -1 else Named(unit).g.tracks,
                   track, first, n, nullBuffer)
    }

    /** The range of a request lies on a unit that exists. */
    ghost predicate Accepted(unit: int, track: int, first: int, n: int)
      reads Named(unit)
    {
      Named(unit) != null && track >= 0 && first >= 0 && n > 0 &&
      track * trackSize + first + n <= |Named(unit).sectors|
    }

    /** A disk read or write as its callers see it: the reply is the outcome of the
        checks; a rejected or empty request changes nothing, an accepted one is a
        flat copy on the named unit and leaves the other unit alone. */
    method ReaderWriter(unit: int, track: int, first: int, n: int, buffer: array?<Byte>, operation: Operation)
      returns (reply: Reply)
      requires Valid()
      requires buffer != null && n > 0 ==> n * sectorSize <= buffer.Length
      modifies Named(unit), buffer
      ensures Valid()
      ensures reply == Checked(unit, track, first, n, buffer == null)
      ensures reply != SUCCESS || n == 0 ==>
                (Named(unit) != null ==> unchanged(Named(unit))) && (buffer != null ==> unchanged(buffer))
      ensures reply == SUCCESS && n != 0 ==> Accepted(unit, track, first, n) && buffer != null
      ensures reply == SUCCESS && n != 0 && operation.Write? ==>
                && buffer[..] == old(buffer[..])
                && Named(unit).sectors
                  == FlatWrite(old(Named(unit).sectors), track * trackSize + first, n, buffer[..], sectorSize)
      ensures reply == SUCCESS && n != 0 && operation.Read? ==>
                && Named(unit).sectors == old(Named(unit).sectors)
                && buffer[..] == FlatRead(Named(unit).sectors, track * trackSize + first, n)
                  + old(buffer[n * sectorSize..])
    {
      if n == 0 {
        return SUCCESS;
      }
      if unit != 0 && unit != 1 {
        return INVALID_UNIT;
      }
      var device := Named(unit);
      if device == null {
        return INVALID_UNIT;
      }
      if buffer == null {
        return NULL_ADDRESS;
      }
      if first >= trackSize || first < 0 {
        return INVALID_FIRST;
      }
      if track < 0 || track >= device.g.tracks {
        return INVALID_TRACK;
      }
      if n > trackSize * (device.g.tracks - track - 1) + (trackSize - first) || n < 0 {
        return INVALID_SECTORS;
      }
      AcceptedRange(device.g, track, first, n);
      device.ReadWriteHelper(track, first, n, operation, buffer);
      return SUCCESS;
    }
  }
}

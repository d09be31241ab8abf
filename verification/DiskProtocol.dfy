/** The disk request protocol before shutdown, over a disk: every caller gets what carrying
    out the requests one by one, in order of arrival, would give it. */
module DiskProtocol {
  import opened Common
  import opened Disk
  import RequestLine

  /** A request that passed the checks: sectors start..start+n to or from the buffer. */
  datatype Request = Request(operation: Operation, start: nat, n: nat, buffer: seq<Byte>)

  type Ticket = RequestLine.Ticket<Request>

  type Event = RequestLine.Event<Request>

  /** The line of requests, the disk, and each caller's buffer once its request is done. */
  datatype Proto = Proto(line: RequestLine.Line<Request>, disk: seq<Sector>, buffers: seq<Option<seq<Byte>>>)

  ghost predicate Fits(g: Geometry, r: Request) {
    r.start + r.n <= g.trackSize * g.tracks && r.n * g.sectorSize <= |r.buffer|
  }

  /** The disk after one request. */
  ghost function DiskAfterOne(g: Geometry, disk: seq<Sector>, r: Request): (d: seq<Sector>)
    requires Positive(g) && Formatted(g, disk) && Fits(g, r)
    ensures Formatted(g, d)
  {
    if r.operation.Write? then (WriteFormatted(g, disk, r.start, r.n, r.buffer);
                                FlatWrite(disk, r.start, r.n, r.buffer, g.sectorSize))
    else disk
  }

  /** The caller's buffer after its request. */
  ghost function BufferAfter(g: Geometry, disk: seq<Sector>, r: Request): seq<Byte>
    requires Positive(g) && Formatted(g, disk) && Fits(g, r)
  {
    if r.operation.Write? then r.buffer
    else FlatRead(disk, r.start, r.n) + r.buffer[r.n * g.sectorSize..]
  }

  /** The reference: requests carried out one after the other in order of arrival. */
  ghost function DiskAfter(g: Geometry, disk: seq<Sector>, tickets: seq<Ticket>): (d: seq<Sector>)
    requires Positive(g) && Formatted(g, disk) && forall i :: 0 <= i < |tickets| ==> Fits(g, tickets[i].request)
    ensures Formatted(g, d)
  {
    if tickets == [] then disk
    else DiskAfterOne(g, DiskAfter(g, disk, tickets[..|tickets| - 1]), tickets[|tickets| - 1].request)
  }

  /** What the i-th request to arrive must return. */
  ghost function Expected(g: Geometry, disk: seq<Sector>, tickets: seq<Ticket>, i: nat): seq<Byte>
    requires Positive(g) && Formatted(g, disk) && i < |tickets|
    requires forall j :: 0 <= j < |tickets| ==> Fits(g, tickets[j].request)
  {
    BufferAfter(g, DiskAfter(g, disk, tickets[..i]), tickets[i].request)
  }

  // ---------------------------------------------------------------- steps

  ghost predicate Sized(g: Geometry, s: Proto) {
    && Positive(g) && Formatted(g, s.disk) && RequestLine.Sized(s.line) && |s.buffers| == |s.line.arrived|
    && forall i :: 0 <= i < |s.line.arrived| ==> Fits(g, s.line.arrived[i].request)
  }

  ghost predicate Enabled(g: Geometry, s: Proto, e: Event) {
    Sized(g, s) && RequestLine.Enabled(s.line, e) && (e.Enqueue? ==> Fits(g, e.request))
  }

  ghost function Step(g: Geometry, s: Proto, e: Event): Proto
    requires Enabled(g, s, e)
  {
    var line := RequestLine.Step(s.line, e);
    match e
    case Enqueue(_, _) => Proto(line, s.disk, s.buffers + [None])
    case ServerCarry =>
      var i := s.line.server.i;
      var r := s.line.arrived[i].request;
      Proto(line, DiskAfterOne(g, s.disk, r), s.buffers[i := Some(BufferAfter(g, s.disk, r))])
    case _ => s.(line := line)
  }

  // ---------------------------------------------------------------- the invariant

  /** Disk and buffers are what carrying out the first `carried` requests in order of
      arrival gives. */
  ghost predicate AsReference(g: Geometry, disk0: seq<Sector>, s: Proto)
    requires Sized(g, s) && Formatted(g, disk0) && s.line.carried <= |s.line.arrived|
  {
    && s.disk == DiskAfter(g, disk0, s.line.arrived[..s.line.carried])
    && (forall i :: 0 <= i < s.line.carried ==> s.buffers[i] == Some(Expected(g, disk0, s.line.arrived, i)))
    && (forall i :: s.line.carried <= i < |s.line.arrived| ==> s.buffers[i] == None)
  }

  ghost predicate Inv(g: Geometry, disk0: seq<Sector>, s: Proto) {
    Sized(g, s) && Formatted(g, disk0) && RequestLine.Inv(s.line) && AsReference(g, disk0, s)
  }

  lemma StepAsReference(g: Geometry, disk0: seq<Sector>, s: Proto, e: Event)
    requires Inv(g, disk0, s) && Enabled(g, s, e)
    ensures var s' := Step(g, s, e);
            Sized(g, s') && s'.line.carried <= |s'.line.arrived| && AsReference(g, disk0, s')
  {
    RequestLine.StepKeeps(s.line, e);
    var s', arrived, carried := Step(g, s, e), s.line.arrived, s.line.carried;
    match e
    case Enqueue(c, r) =>
      assert s'.line.arrived[..carried] == arrived[..carried];
      forall i | 0 <= i < carried
        ensures Expected(g, disk0, s'.line.arrived, i) == Expected(g, disk0, arrived, i)
      {
        assert s'.line.arrived[..i] == arrived[..i];
      }
    case ServerCarry => CarryAsReference(g, disk0, s);
    case _ =>
  }

  /** The disk after one more request is the reference's after one more. */
  lemma CarryAsReference(g: Geometry, disk0: seq<Sector>, s: Proto)
    requires Inv(g, disk0, s) && Enabled(g, s, RequestLine.ServerCarry)
    ensures var s' := Step(g, s, RequestLine.ServerCarry);
            Sized(g, s') && s'.line.carried <= |s'.line.arrived| && AsReference(g, disk0, s')
  {
    var arrived, carried := s.line.arrived, s.line.carried;
    assert arrived[..carried + 1][..carried] == arrived[..carried];
  }

  lemma StepKeeps(g: Geometry, disk0: seq<Sector>, s: Proto, e: Event)
    requires Inv(g, disk0, s) && Enabled(g, s, e)
    ensures Inv(g, disk0, Step(g, s, e))
  {
    RequestLine.StepKeeps(s.line, e);
    StepAsReference(g, disk0, s, e);
  }

  // ---------------------------------------------------------------- runs

  ghost predicate Started(g: Geometry, s: Proto) {
    Positive(g) && Formatted(g, s.disk) && RequestLine.Started(s.line) && s.buffers == []
  }

  ghost function Run(g: Geometry, s: Proto, events: seq<Event>): Option<Proto> {
    if events == [] then Some(s)
    else
      match Run(g, s, events[..|events| - 1])
      case None => None
      case Some(s1) =>
        if Enabled(g, s1, events[|events| - 1]) then Some(Step(g, s1, events[|events| - 1])) else None
  }

  lemma {:induction false} RunKeeps(g: Geometry, s: Proto, events: seq<Event>)
    requires Started(g, s) && Run(g, s, events).Some?
    ensures Inv(g, s.disk, Run(g, s, events).value)
  {
    if events == [] {
      RequestLine.StartedInv(s.line);
    } else {
      RunKeeps(g, s, events[..|events| - 1]);
      StepKeeps(g, s.disk, Run(g, s, events[..|events| - 1]).value, events[|events| - 1]);
    }
  }

  /** In every run a driver past its wait finds the queue non-empty, and takes the oldest
      request not yet taken. */
  lemma RemoveNeverFails(g: Geometry, s: Proto, events: seq<Event>)
    requires Started(g, s) && Run(g, s, events).Some?
    ensures var line := Run(g, s, events).value.line;
            && !line.server.QueueError?
            && (line.server.PastReady? ==> line.queue != [] && line.queue[0] == line.carried)
  {
    RunKeeps(g, s, events);
    RequestLine.InvServes(Run(g, s, events).value.line);
  }

  /** In every run a caller is released only after its own request was carried out, as if
      all requests had been carried out once each in order of arrival: its buffer is what
      that order gives it, and the disk is what that order makes it. */
  lemma ReleasedInOrder(g: Geometry, s: Proto, events: seq<Event>, c: int)
    requires Started(g, s) && Run(g, s, events).Some?
    requires Enabled(g, Run(g, s, events).value, RequestLine.Release(c))
    ensures var s1 := Run(g, s, events).value;
            var i := s1.line.callers[c].i;
            && i < s1.line.carried <= |s1.line.arrived| == |s1.buffers| && s1.line.arrived[i].caller == c
            && s1.buffers[i] == Some(Expected(g, s.disk, s1.line.arrived, i))
            && s1.disk == DiskAfter(g, s.disk, s1.line.arrived[..s1.line.carried])
            && Step(g, s1, RequestLine.Release(c)).line.sems[c] == 0
  {
    RunKeeps(g, s, events);
    RequestLine.InvServes(Run(g, s, events).value.line);
  }
}

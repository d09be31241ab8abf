/** Page faults through their queue: a process that touches a page it has not mapped
    enqueues its fault and waits, while others go on loading, storing, faulting and
    exiting, and one pager serves the faults in order of arrival. The runs of this protocol
    are runs of the paging system, so what is proved of those holds here. */
module FaultProtocol {
  import opened Common
  import opened SwapLayout
  import opened Paging
  import opened PagingSteps
  import PagingRuns
  import RequestLine

  /** The number of the page that was touched; the process is the ticket's caller. */
  type Ticket = RequestLine.Ticket<int>

  /** The line of faults, the paging system and what happened to it, the answer to each
      fault, and the processes told that swap is full, which can only exit. `failed` is set
      when the pager cannot serve a fault or a process goes on without an answer. */
  datatype Proto = Proto(
    line: RequestLine.Line<int>,
    vm: Vm,
    history: seq<PagingRuns.Event>,
    outcomes: seq<PagingRuns.Outcome>,
    replies: seq<PagingRuns.Outcome>,
    doomed: set<int>,
    failed: bool)

  datatype Event = Act(e: PagingRuns.Event) | Touch(pid: int, page: int)
                 | Queue(q: RequestLine.Event<int>) | Serve(slack: seq<Byte>)

  // ---------------------------------------------------------------- steps

  /** Neither waiting for a fault of its own nor told that swap is full. */
  ghost predicate Free(s: Proto, pid: int) {
    0 <= pid < |s.line.callers| && s.line.callers[pid].Idle? && pid !in s.doomed
  }

  /** Only free processes act; a doomed one exits. A fault is served by the pager when the
      queue says so, and a waiting process goes on when its semaphore does, whatever state
      the rest is in. */
  ghost predicate Enabled(c: Config, s: Proto, e: Event) {
    !s.failed &&
    match e
    case Act(a) =>
      && !a.DoFault? && PagingRuns.Enabled(c, s.vm, a)
      && (Free(s, a.pid) || (a.DoExit? && a.pid in s.doomed))
    case Touch(pid, page) =>
      && RequestLine.Enabled(s.line, RequestLine.Enqueue(pid, page)) && Free(s, pid)
      && HasPte(s.vm, pid, page) && pid != c.pager && !InCore(s.vm, pid, page)
    case Queue(q) => !q.Enqueue? && !q.ServerCarry? && RequestLine.Enabled(s.line, q)
    case Serve(slack) => RequestLine.Enabled(s.line, RequestLine.ServerCarry) && SlackFits(c, slack)
  }

  /** The fault the pager is serving. */
  ghost function Current(s: Proto, slack: seq<Byte>): PagingRuns.Event
    requires RequestLine.Enabled(s.line, RequestLine.ServerCarry)
  {
    var t := s.line.arrived[s.line.server.i];
    PagingRuns.DoFault(t.caller, t.request, slack)
  }

  ghost function Happened(c: Config, s: Proto, a: PagingRuns.Event): Proto
    requires PagingRuns.Enabled(c, s.vm, a)
  {
    var (vm, o) := PagingRuns.Step(c, s.vm, a);
    s.(vm := vm, history := s.history + [a], outcomes := s.outcomes + [o])
  }

  ghost function Step(c: Config, s: Proto, e: Event): Proto
    requires Enabled(c, s, e)
  {
    match e
    case Act(a) => Happened(c, s, a).(doomed := s.doomed - {a.pid})
    case Touch(pid, page) => s.(line := RequestLine.Step(s.line, RequestLine.Enqueue(pid, page)))
    case Queue(q) =>
      var s1 := s.(line := RequestLine.Step(s.line, q));
      if !q.Release? then s1
      else if s.line.callers[q.c].i >= |s.replies| then s1.(failed := true)
      else if s.replies[s.line.callers[q.c].i] == PagingRuns.NoSwap then s1.(doomed := s.doomed + {q.c})
      else s1
    case Serve(slack) =>
      var a := Current(s, slack);
      if !PagingRuns.Enabled(c, s.vm, a) then s.(failed := true)
      else
        var s1 := Happened(c, s, a);
        s1.(line := RequestLine.Step(s.line, RequestLine.ServerCarry),
            replies := s.replies + [s1.outcomes[|s.outcomes|]])
  }

  // ---------------------------------------------------------------- the invariant

  /** The faults in a history, with their outcomes. */
  ghost function Served(es: seq<PagingRuns.Event>, os: seq<PagingRuns.Outcome>): seq<(Ticket, PagingRuns.Outcome)>
    requires |es| == |os|
  {
    if es == [] then []
    else
      var n, e := |es| - 1, es[|es| - 1];
      Served(es[..n], os[..n]) + (if e.DoFault? then [(RequestLine.Ticket(e.pid, e.page), os[n])] else [])
  }

  /** Each fault not yet served can still be: its page has a table entry and is not mapped. */
  ghost predicate Servable(c: Config, s: Proto) {
    forall i :: s.line.carried <= i < |s.line.arrived| ==>
      var t := s.line.arrived[i];
      HasPte(s.vm, t.caller, t.request) && t.caller != c.pager && !InCore(s.vm, t.caller, t.request)
  }

  ghost predicate Inv(c: Config, vm0: Vm, s: Proto) {
    && RequestLine.Inv(s.line) && !s.failed
    && |s.history| == |s.outcomes| && |s.replies| == s.line.carried
    && PagingRuns.Run(c, vm0, s.history) == Some((s.vm, s.outcomes))
    && |Served(s.history, s.outcomes)| == s.line.carried <= |s.line.arrived|
    && (forall i :: 0 <= i < s.line.carried ==> Served(s.history, s.outcomes)[i] == (s.line.arrived[i], s.replies[i]))
    && Servable(c, s)
    && (forall pid :: pid in s.doomed ==> 0 <= pid < |s.line.callers| && s.line.callers[pid].Idle?)
  }

  // ---------------------------------------------------------------- what others do

  lemma SwapOutSpares(c: Config, s: Vm, slack: seq<Byte>, pid: int, page: int)
    requires Consistent(c, s) && SlackFits(c, slack) && HasPte(s, pid, page) && !InCore(s, pid, page)
    ensures HasPte(SwapOut(c, s, slack), pid, page) && !InCore(SwapOut(c, s, slack), pid, page)
  {
  }

  lemma AcquireSpares(c: Config, s: Vm, slack: seq<Byte>, pid: int, page: int)
    requires Consistent(c, s) && SlackFits(c, slack) && HasPte(s, pid, page) && !InCore(s, pid, page)
    ensures HasPte(Acquire(c, s, slack).0, pid, page) && !InCore(Acquire(c, s, slack).0, pid, page)
  {
    SwapOutSpares(c, s, slack, pid, page);
  }

  lemma SwapInSpares(c: Config, s: Vm, other: int, otherPage: int, f: int, pid: int, page: int)
    requires Consistent(c, s) && HasPte(s, other, otherPage) && 0 <= f < c.frames && other != pid
    requires HasPte(s, pid, page) && !InCore(s, pid, page)
    ensures HasPte(SwapIn(c, s, other, otherPage, f).0, pid, page)
    ensures !InCore(SwapIn(c, s, other, otherPage, f).0, pid, page)
  {
  }

  /** What one process does maps no page of another and takes no table from it. */
  lemma StepSpares(c: Config, s: Vm, a: PagingRuns.Event, pid: int, page: int)
    requires PagingRuns.Enabled(c, s, a) && a.pid != pid && HasPte(s, pid, page) && !InCore(s, pid, page)
    ensures HasPte(PagingRuns.Step(c, s, a).0, pid, page) && !InCore(PagingRuns.Step(c, s, a).0, pid, page)
  {
    match a
    case DoFault(other, otherPage, slack) =>
      AcquireReady(c, s, other, otherPage, slack);
      AcquireSpares(c, s, slack, pid, page);
      var (s1, f) := Acquire(c, s, slack);
      SwapInSpares(c, s1, other, otherPage, f, pid, page);
    case _ =>
  }

  // ---------------------------------------------------------------- every step keeps it

  lemma HappenedRuns(c: Config, vm0: Vm, s: Proto, a: PagingRuns.Event)
    requires Inv(c, vm0, s) && PagingRuns.Enabled(c, s.vm, a)
    ensures var s' := Happened(c, s, a);
            && |s'.history| == |s'.outcomes| == |s.outcomes| + 1
            && PagingRuns.Run(c, vm0, s'.history) == Some((s'.vm, s'.outcomes))
            && Served(s'.history, s'.outcomes) ==
               Served(s.history, s.outcomes)
               + (if a.DoFault? then [(RequestLine.Ticket(a.pid, a.page), s'.outcomes[|s.outcomes|])] else [])
  {
    var s' := Happened(c, s, a);
    assert s'.history[..|s'.history| - 1] == s.history && s'.outcomes[..|s'.outcomes| - 1] == s.outcomes;
  }

  /** The faults still waiting survive an event of a process that has none among them. */
  lemma ServableAfter(c: Config, s: Proto, a: PagingRuns.Event, from: nat)
    requires Servable(c, s) && PagingRuns.Enabled(c, s.vm, a) && s.line.carried <= from
    requires forall i :: from <= i < |s.line.arrived| ==> s.line.arrived[i].caller != a.pid
    ensures forall i :: from <= i < |s.line.arrived| ==>
              var t, vm := s.line.arrived[i], PagingRuns.Step(c, s.vm, a).0;
              HasPte(vm, t.caller, t.request) && t.caller != c.pager && !InCore(vm, t.caller, t.request)
  {
    forall i | from <= i < |s.line.arrived|
      ensures var t, vm := s.line.arrived[i], PagingRuns.Step(c, s.vm, a).0;
              HasPte(vm, t.caller, t.request) && t.caller != c.pager && !InCore(vm, t.caller, t.request)
    {
      StepSpares(c, s.vm, a, s.line.arrived[i].caller, s.line.arrived[i].request);
    }
  }

  lemma ActKeeps(c: Config, vm0: Vm, s: Proto, a: PagingRuns.Event)
    requires Inv(c, vm0, s) && Enabled(c, s, Act(a))
    ensures Inv(c, vm0, Step(c, s, Act(a)))
  {
    HappenedRuns(c, vm0, s, a);
    forall i | s.line.carried <= i < |s.line.arrived|
      ensures s.line.arrived[i].caller != a.pid
    {
      assert !RequestLine.Finished(s.line, i);
    }
    ServableAfter(c, s, a, s.line.carried);
  }

  lemma TouchKeeps(c: Config, vm0: Vm, s: Proto, pid: int, page: int)
    requires Inv(c, vm0, s) && Enabled(c, s, Touch(pid, page))
    ensures Inv(c, vm0, Step(c, s, Touch(pid, page)))
  {
    RequestLine.StepKeeps(s.line, RequestLine.Enqueue(pid, page));
  }

  lemma QueueKeeps(c: Config, vm0: Vm, s: Proto, q: RequestLine.Event<int>)
    requires Inv(c, vm0, s) && Enabled(c, s, Queue(q))
    ensures Inv(c, vm0, Step(c, s, Queue(q)))
  {
    RequestLine.StepKeeps(s.line, q);
    QueueOnly(s.line, q);
    RequestLine.InvServes(s.line);
    var s' := Step(c, s, Queue(q));
    assert s' == s.(line := s'.line, doomed := s'.doomed);
  }

  /** What the queue's own steps leave alone. */
  lemma QueueOnly(s: RequestLine.Line<int>, q: RequestLine.Event<int>)
    requires RequestLine.Enabled(s, q) && !q.Enqueue? && !q.ServerCarry?
    ensures var s' := RequestLine.Step(s, q);
            && s'.arrived == s.arrived && s'.carried == s.carried && |s'.callers| == |s.callers|
            && (forall c :: 0 <= c < |s.callers| && s.callers[c].Idle? ==> s'.callers[c].Idle?)
            && (q.Release? ==> s'.callers[q.c].Idle?)
  {
  }

  /** The fault whose turn it is can be served: its process has waited, and what the others
      did meanwhile has not mapped its page or taken its table. */
  lemma ServeKeeps(c: Config, vm0: Vm, s: Proto, slack: seq<Byte>)
    requires PagingRuns.Booted(c, vm0) && Inv(c, vm0, s) && Enabled(c, s, Serve(slack))
    ensures PagingRuns.Enabled(c, s.vm, Current(s, slack)) && Inv(c, vm0, Step(c, s, Serve(slack)))
  {
    PagingRuns.RunRefines(c, vm0, s.history);
    var a := Current(s, slack);
    assert PagingRuns.Enabled(c, s.vm, a);
    HappenedRuns(c, vm0, s, a);
    RequestLine.StepKeeps(s.line, RequestLine.ServerCarry);
    assert !RequestLine.Finished(s.line, s.line.carried);
    forall i | s.line.carried < i < |s.line.arrived|
      ensures s.line.arrived[i].caller != a.pid
    {
      assert !RequestLine.Finished(s.line, i);
    }
    ServableAfter(c, s, a, s.line.carried + 1);
  }

  lemma StepKeeps(c: Config, vm0: Vm, s: Proto, e: Event)
    requires PagingRuns.Booted(c, vm0) && Inv(c, vm0, s) && Enabled(c, s, e)
    ensures Inv(c, vm0, Step(c, s, e))
  {
    match e
    case Act(a) => ActKeeps(c, vm0, s, a);
    case Touch(pid, page) => TouchKeeps(c, vm0, s, pid, page);
    case Queue(q) => QueueKeeps(c, vm0, s, q);
    case Serve(slack) => ServeKeeps(c, vm0, s, slack);
  }

  // ---------------------------------------------------------------- runs

  ghost predicate Started(c: Config, s: Proto) {
    && PagingRuns.Booted(c, s.vm) && RequestLine.Started(s.line) && |s.line.callers| == c.maxProc
    && s.history == [] && s.outcomes == [] && s.replies == [] && s.doomed == {} && !s.failed
  }

  ghost function Run(c: Config, s: Proto, events: seq<Event>): Option<Proto> {
    if events == [] then Some(s)
    else
      match Run(c, s, events[..|events| - 1])
      case None => None
      case Some(s1) =>
        if Enabled(c, s1, events[|events| - 1]) then Some(Step(c, s1, events[|events| - 1])) else None
  }

  lemma {:induction false} RunKeeps(c: Config, s: Proto, events: seq<Event>)
    requires Started(c, s) && Run(c, s, events).Some?
    ensures Inv(c, s.vm, Run(c, s, events).value)
  {
    if events == [] {
      RequestLine.StartedInv(s.line);
    } else {
      RunKeeps(c, s, events[..|events| - 1]);
      StepKeeps(c, s.vm, Run(c, s, events[..|events| - 1]).value, events[|events| - 1]);
    }
  }

  /** Every run of the fault protocol is a run of the paging system, in which the faults are
      served once each in order of arrival; the pager never meets a fault it cannot serve. */
  lemma RunsArePagingRuns(c: Config, s: Proto, events: seq<Event>)
    requires Started(c, s) && Run(c, s, events).Some?
    ensures var s1 := Run(c, s, events).value;
            && !s1.failed && !s1.line.server.QueueError?
            && |s1.history| == |s1.outcomes| && PagingRuns.Run(c, s.vm, s1.history) == Some((s1.vm, s1.outcomes))
            && |Served(s1.history, s1.outcomes)| == s1.line.carried <= |s1.line.arrived|
            && forall i :: 0 <= i < s1.line.carried ==> Served(s1.history, s1.outcomes)[i].0 == s1.line.arrived[i]
  {
    RunKeeps(c, s, events);
  }

  /** A faulting process goes on only after its own fault was served, with the answer that
      service gave; told that swap is full, it does nothing but exit. */
  lemma ResumesAfterItsFault(c: Config, s: Proto, events: seq<Event>, pid: int)
    requires Started(c, s) && Run(c, s, events).Some?
    requires RequestLine.Enabled(Run(c, s, events).value.line, RequestLine.Release(pid))
    ensures var s1 := Run(c, s, events).value;
            var i := s1.line.callers[pid].i;
            && Enabled(c, s1, Queue(RequestLine.Release(pid)))
            && |s1.history| == |s1.outcomes| && i < s1.line.carried <= |s1.line.arrived|
            && s1.line.arrived[i].caller == pid
            && |Served(s1.history, s1.outcomes)| == s1.line.carried == |s1.replies|
            && Served(s1.history, s1.outcomes)[i] == (s1.line.arrived[i], s1.replies[i])
            && var s2 := Step(c, s1, Queue(RequestLine.Release(pid)));
               && !s2.failed && s2.line.sems[pid] == 0 && s2.line.callers[pid].Idle?
               && (pid in s2.doomed <==> s1.replies[i] == PagingRuns.NoSwap)
  {
    RunKeeps(c, s, events);
    RequestLine.InvServes(Run(c, s, events).value.line);
  }
}

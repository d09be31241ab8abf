/** The protocol of the kernel's request queues, for disk requests and for page faults
    alike: callers that enqueue a request, signal the server and wait on a semaphore of
    their own; a server (disk driver or pager) that waits, removes, carries out and
    releases. Queue operations under the queue mutex are single steps; any caller or the
    server may take the next one. What a request means is up to the user of this module. */
module RequestLine {
  import opened Common

  datatype Ticket<R> = Ticket(caller: int, request: R)

  /** A caller has its request in the queue, has then signalled the server, or neither;
      the number is the position of its request in order of arrival. */
  datatype Caller = Idle | Enqueued(i: nat) | Waiting(i: nat)

  datatype Server = AwaitReady | PastReady | Serving(i: nat) | Served(i: nat) | QueueError

  datatype Line<R> = Line(
    queue: seq<nat>,
    ready: nat,
    callers: seq<Caller>,
    sems: seq<nat>,
    server: Server,
    arrived: seq<Ticket<R>>,
    carried: nat)

  datatype Event<R> = Enqueue(c: int, request: R) | SignalReady(c: int) | Release(c: int)
                    | ServerP | ServerRemove | ServerCarry | ServerV

  ghost predicate Sized<R>(s: Line<R>) {
    && |s.sems| == |s.callers|
    && (forall i :: 0 <= i < |s.arrived| ==> 0 <= s.arrived[i].caller < |s.callers|)
    && (s.server.Serving? || s.server.Served? ==> s.server.i < |s.arrived|)
  }

  ghost predicate Enabled<R>(s: Line<R>, e: Event<R>) {
    Sized(s) &&
    match e
    case Enqueue(c, r) => 0 <= c < |s.callers| && s.callers[c].Idle?
    case SignalReady(c) => 0 <= c < |s.callers| && s.callers[c].Enqueued?
    case Release(c) => 0 <= c < |s.callers| && s.callers[c].Waiting? && s.sems[c] > 0
    case ServerP => s.server.AwaitReady? && s.ready > 0
    case ServerRemove => s.server.PastReady?
    case ServerCarry => s.server.Serving?
    case ServerV => s.server.Served?
  }

  ghost function Step<R>(s: Line<R>, e: Event<R>): Line<R>
    requires Enabled(s, e)
  {
    match e
    case Enqueue(c, r) =>
      s.(queue := s.queue + [|s.arrived|], arrived := s.arrived + [Ticket(c, r)],
         callers := s.callers[c := Enqueued(|s.arrived|)], sems := s.sems[c := 0])
    case SignalReady(c) => s.(ready := s.ready + 1, callers := s.callers[c := Waiting(s.callers[c].i)])
    case Release(c) => s.(sems := s.sems[c := s.sems[c] - 1], callers := s.callers[c := Idle])
    case ServerP => s.(ready := s.ready - 1, server := PastReady)
    case ServerRemove =>
      if s.queue == [] then s.(server := QueueError)
      else if s.queue[0] < |s.arrived| then s.(server := Serving(s.queue[0]), queue := s.queue[1..])
      else s
    case ServerCarry => s.(server := Served(s.server.i), carried := s.carried + 1)
    case ServerV =>
      var c := s.arrived[s.server.i].caller;
      s.(sems := s.sems[c := s.sems[c] + 1], server := AwaitReady)
  }

  // ---------------------------------------------------------------- the invariant

  ghost function Unsignalled(callers: seq<Caller>): set<int> {
    set c | 0 <= c < |callers| && callers[c].Enqueued?
  }

  /** Queue length = ready value + callers that enqueued but have not signalled + a server
      that is past its wait. */
  ghost predicate Counted<R>(s: Line<R>) {
    |s.queue| == s.ready + |Unsignalled(s.callers)| + (if s.server.PastReady? then 1 else 0)
  }

  /** What is queued is what has arrived and is neither carried out nor being served, in
      order; the server holds the one before. */
  ghost predicate InOrder<R>(s: Line<R>) {
    && s.carried + (if s.server.Serving? then 1 else 0) + |s.queue| == |s.arrived|
    && (forall j :: 0 <= j < |s.queue| ==> s.queue[j] == |s.arrived| - |s.queue| + j)
    && (s.server.Serving? ==> s.server.i == s.carried)
    && (s.server.Served? ==> s.server.i == s.carried - 1)
    && !s.server.QueueError?
  }

  /** Carried out and its caller signalled. */
  predicate Finished<R>(s: Line<R>, i: nat) {
    i < s.carried && s.server != Served(i)
  }

  /** A caller's semaphore has a unit exactly when its own request is finished; requests
      not finished belong to callers still waiting for them. */
  ghost predicate CallersMatch<R>(s: Line<R>) {
    && (forall c :: 0 <= c < |s.callers| && c < |s.sems| ==>
          match s.callers[c]
          case Idle => s.sems[c] == 0
          case Enqueued(i) =>
            && i < |s.arrived| && s.arrived[i].caller == c
            && s.sems[c] == (if Finished(s, i) then 1 else 0)
          case Waiting(i) =>
            && i < |s.arrived| && s.arrived[i].caller == c
            && s.sems[c] == (if Finished(s, i) then 1 else 0))
    && (forall i: nat :: i < |s.arrived| && !Finished(s, i) ==>
          var c := s.arrived[i].caller;
          0 <= c < |s.callers| && !s.callers[c].Idle? && s.callers[c].i == i)
  }

  ghost predicate Inv<R>(s: Line<R>) {
    Sized(s) && Counted(s) && InOrder(s) && CallersMatch(s)
  }

  /** Nobody has asked for anything. */
  ghost predicate Started<R>(s: Line<R>) {
    && s.queue == [] && s.ready == 0 && s.arrived == [] && s.carried == 0 && s.server == AwaitReady
    && |s.sems| == |s.callers| && forall c :: 0 <= c < |s.callers| ==> s.callers[c] == Idle && s.sems[c] == 0
  }

  lemma StartedInv<R>(s: Line<R>)
    requires Started(s)
    ensures Inv(s)
  {
    assert Unsignalled(s.callers) == {};
  }

  // ---------------------------------------------------------------- every step keeps it

  lemma CallerChange(callers: seq<Caller>, c: int, v: Caller)
    requires 0 <= c < |callers|
    ensures |Unsignalled(callers[c := v])| ==
            |Unsignalled(callers)| - (if callers[c].Enqueued? then 1 else 0) + (if v.Enqueued? then 1 else 0)
  {
    var before, after := Unsignalled(callers), Unsignalled(callers[c := v]);
    assert before - {c} == after - {c};
    RemoveSize(before, c);
    RemoveSize(after, c);
  }

  lemma StepCounted<R>(s: Line<R>, e: Event<R>)
    requires Inv(s) && Enabled(s, e)
    ensures Sized(Step(s, e)) && Counted(Step(s, e)) && InOrder(Step(s, e))
  {
    match e
    case Enqueue(c, r) => CallerChange(s.callers, c, Enqueued(|s.arrived|));
    case SignalReady(c) => CallerChange(s.callers, c, Waiting(s.callers[c].i));
    case Release(c) => CallerChange(s.callers, c, Idle);
    case ServerP =>
    case ServerRemove =>
    case ServerCarry =>
    case ServerV =>
  }

  lemma EnqueueCallers<R>(s: Line<R>, c: int, r: R)
    requires InOrder(s) && CallersMatch(s) && Enabled(s, Enqueue(c, r))
    ensures CallersMatch(Step(s, Enqueue(c, r)))
  {
    var s', n := Step(s, Enqueue(c, r)), |s.arrived|;
    assert forall i: nat :: i < n ==> s'.arrived[i] == s.arrived[i] && (Finished(s', i) <==> Finished(s, i));
    assert !Finished(s', n);
  }

  lemma CarryCallers<R>(s: Line<R>)
    requires InOrder(s) && CallersMatch(s) && Enabled(s, ServerCarry)
    ensures CallersMatch(Step(s, ServerCarry))
  {
    var s' := Step(s, ServerCarry);
    assert forall i: nat :: Finished(s', i) <==> Finished(s, i);
  }

  lemma ServerVCallers<R>(s: Line<R>)
    requires InOrder(s) && CallersMatch(s) && Enabled(s, ServerV)
    ensures CallersMatch(Step(s, ServerV))
  {
    var s', n := Step(s, ServerV), s.server.i;
    assert !Finished(s, n) && Finished(s', n);
    assert forall i: nat :: i != n ==> (Finished(s', i) <==> Finished(s, i));
  }

  lemma StepCallers<R>(s: Line<R>, e: Event<R>)
    requires Inv(s) && Enabled(s, e)
    ensures CallersMatch(Step(s, e))
  {
    match e
    case Enqueue(c, r) => EnqueueCallers(s, c, r);
    case ServerCarry => CarryCallers(s);
    case ServerV => ServerVCallers(s);
    case _ => assert forall i: nat :: Finished(Step(s, e), i) <==> Finished(s, i);
  }

  lemma StepKeeps<R>(s: Line<R>, e: Event<R>)
    requires Inv(s) && Enabled(s, e)
    ensures Inv(Step(s, e))
  {
    StepCounted(s, e);
    StepCallers(s, e);
  }

  /** A server past its wait finds the oldest request not yet taken; a caller that can go on
      has had its own request carried out. */
  lemma InvServes<R>(s: Line<R>)
    requires Inv(s)
    ensures !s.server.QueueError?
    ensures s.server.PastReady? ==> s.queue != [] && s.queue[0] == s.carried
    ensures s.server.Serving? ==> s.server.i == s.carried < |s.arrived|
    ensures forall c :: Enabled(s, Release(c)) ==>
              s.callers[c].i < s.carried <= |s.arrived| && s.arrived[s.callers[c].i].caller == c && s.sems[c] == 1
  {
  }
}

/** Whole runs of the kernel: every interleaving of forks, quits, joins, semaphore calls
    and clock ticks. P1_P is several steps here (entering it, each test of the value),
    between which any other process may run. As in the source, P1_P, P1_Quit and P1_Join
    act on the process P1_GetPid's scan names, which need not be the one making the call.
    What holds of every run comes first (Sound). For no lost wakeup there is an exact
    condition on the V's (VsGuarded), which follows from one on the P's (PsGuarded); for
    reaping in order there is an exact condition on the quits (QuitsGuarded). */
module KernelRuns {
  import opened Common
  import opened ReadyQueue
  import opened Kernel
  import opened KernelSteps

  /** Where a process stands: outside P1_P, or at the top of its loop for semaphore sid,
      `woken` once a V has taken it off the queue and it has not yet tried again. A caller
      of P1_Quit that is still there after its dispatch, another process having been taken
      for it, stops at a failed assertion: AfterQuit. */
  datatype Pc = Outside | InP(sid: int, woken: bool) | AfterQuit

  /** What happened to a semaphore since it was created. */
  datatype SemLog = SemLog(initial: nat, vs: nat, ps: nat, holders: multiset<int>)

  /** A child's quit, as its parent will learn of it. */
  datatype QuitRecord = QuitRecord(pid: int, tag: int, status: int)

  /** The kernel and the history of its run: fork times, where each process stands, and
      what was done to each semaphore and reported to each parent. */
  datatype World = World(
    k: Kernel, born: seq<nat>, now: nat, pcs: seq<Pc>, logs: seq<SemLog>,
    quits: seq<seq<QuitRecord>>, reaps: seq<seq<QuitRecord>>)

  datatype Action =
    | DoFork(name: Option<string>, stack: int, priority: int, tag: int)
    | DoQuit(status: int)
    | DoReap(tag: int)
    | DoJoinWait(tag: int)
    | DoEnterP(sid: int)
    | DoTryP
    | DoV(sid: int)
    | DoTick(rotate: bool)
    | DoSemCreate(semName: Option<string>, value: nat)
    | DoSemFree(sid: int)

  // ---------------------------------------------------------------- the invariant

  ghost predicate Sized(l: Limits, w: World) {
    |w.pcs| == |w.quits| == |w.reaps| == l.maxProc && |w.logs| == l.maxSem
  }

  /** Where processes stand agrees with their states. */
  ghost predicate PcsAgree(w: World) {
    && |w.pcs| == |w.k.procs|
    && (forall p :: 0 <= p < |w.pcs| && w.pcs[p].InP? ==>
          && Live(w.k, p) && ValidSem(w.k, w.pcs[p].sid)
          && (w.k.procs[p].state == BLOCKED || Runnable(w.k.procs[p].state)))
    && (forall p :: 0 <= p < |w.pcs| && w.k.procs[p].used && w.k.procs[p].state == BLOCKED ==>
          w.pcs[p] == InP(w.k.procs[p].sid, false))
  }

  ghost function WokenOn(pcs: seq<Pc>, s: int): set<int> {
    set p | 0 <= p < |pcs| && pcs[p] == InP(s, true)
  }

  /** If anyone waits on a semaphore, every unit it has is already somebody's to take: a
      process that V woke and that has not yet tested again. */
  ghost predicate NoLostWakeup(w: World) {
    forall s :: 0 <= s < |w.k.sems| && w.k.sems[s].queue != [] ==> w.k.sems[s].value <= |WokenOn(w.pcs, s)|
  }

  /** Conservation: a semaphore's value is its initial value plus V's minus completed P's. */
  ghost predicate Conserved(w: World) {
    && |w.logs| == |w.k.sems|
    && forall s :: 0 <= s < |w.logs| && w.k.sems[s].used ==>
         w.k.sems[s].value + w.logs[s].ps == w.logs[s].initial + w.logs[s].vs
  }

  function WithTag(rs: seq<QuitRecord>, tag: int): seq<QuitRecord> {
    if rs == [] then []
    else WithTag(rs[..|rs| - 1], tag) + (if rs[|rs| - 1].tag == tag then [rs[|rs| - 1]] else [])
  }

  /** The records of the quit children still to be reaped. */
  function Pending(k: Kernel, quits: seq<int>): (r: seq<QuitRecord>)
    ensures |r| == |quits|
  {
    seq(|quits|, i requires 0 <= i < |quits| =>
                   var c := quits[i];
                   if 0 <= c < |k.procs| then QuitRecord(c, k.procs[c].tag, k.procs[c].status) else QuitRecord(c, 0, 0))
  }

  /** What a parent has learned so far, tag by tag, is the beginning of what its children
      reported, and the rest is waiting on its quit list. */
  ghost predicate ReapedInOrder(w: World) {
    && |w.quits| == |w.reaps| == |w.k.procs|
    && forall q, tag :: Live(w.k, q) ==>
         WithTag(w.quits[q], tag) == WithTag(w.reaps[q], tag) + WithTag(Pending(w.k, w.k.procs[q].quitChildren), tag)
  }

  /** P1_P's callers are inside it for semaphores in use. */
  ghost predicate InsideValid(w: World) {
    forall p :: 0 <= p < |w.pcs| && w.pcs[p].InP? ==> ValidSem(w.k, w.pcs[p].sid)
  }

  /** What holds in every run, whomever the scan names. */
  ghost predicate Sound(l: Limits, w: World) {
    && Good(l, w.k, w.born) && Sized(l, w)
    && (forall p :: 0 <= p < |w.born| ==> w.born[p] < w.now)
    && InsideValid(w) && Conserved(w)
    && (w.k.halted || w.k.first || HeadRuns(w.k))
  }

  /** Marked RUNNING without being the head of the queue. */
  ghost predicate RunsBesideHead(k: Kernel, p: int)
    requires 0 <= p < |k.procs|
  {
    k.procs[p].used && k.procs[p].state == RUNNING && (k.ready == [] || p != Current(k))
  }

  /** Only the caller can be both RUNNING and inside P1_P. */
  ghost predicate OthersOutside(w: World) {
    forall p :: 0 <= p < |w.k.procs| && p < |w.pcs| && RunsBesideHead(w.k, p) ==> !w.pcs[p].InP?
  }

  // ---------------------------------------------------------------- steps

  /** P1GetChildStatus tells P1_Join to wait. */
  predicate MustWait(k: Kernel, tag: int) {
    k.ready != [] && InRange(k) && GetChildStatus(k, tag).1 == NO_QUIT
  }

  /** When an action can happen: there is a current process (for the first fork there is
      none), and it is not in the middle of P1_P unless the action is the clock's, a V
      (which interrupt handlers also do), or P1_P's own. P1_Join waits when P1GetChildStatus
      answers NO_QUIT. A semaphore is only freed when nobody is inside P1_P on it. */
  ghost predicate Allowed(w: World, a: Action) {
    if w.k.first then a.DoFork?
    else
      && w.k.ready != [] && 0 <= Current(w.k) < |w.pcs| == |w.k.procs|
      && match a
         case DoTick(_) => true
         case DoV(_) => true
         case DoTryP => w.pcs[Current(w.k)].InP?
         case DoJoinWait(tag) => w.pcs[Current(w.k)].Outside? && MustWait(w.k, tag)
         case DoSemFree(sid) =>
           && w.pcs[Current(w.k)].Outside?
           && forall p :: 0 <= p < |w.pcs| && w.pcs[p].InP? ==> w.pcs[p].sid != sid
         case _ => w.pcs[Current(w.k)].Outside?
  }

  /** The machine runs and the action is allowed. */
  ghost predicate Enabled(l: Limits, w: World, a: Action) {
    Sound(l, w) && !w.k.halted && InRange(w.k) && Allowed(w, a)
  }

  /** A P that does not take a unit finds the scan right: no process in a slot below the
      caller's is marked RUNNING. */
  ghost predicate PGuard(l: Limits, w: World, a: Action)
    requires Enabled(l, w, a)
  {
    a.DoTryP? ==> NoneRunsBelow(w.k) || w.k.sems[w.pcs[Current(w.k)].sid].value > 0
  }

  /** The waiter that a V wakes, if it leaves others waiting, called P1_P on the semaphore, or
      more have been woken than there are units. */
  ghost predicate VGuard(l: Limits, w: World, a: Action)
    requires Enabled(l, w, a)
  {
    a.DoV? && ValidSem(w.k, a.sid) ==>
      var s := w.k.sems[a.sid];
      || |s.queue| <= 1
      || (0 <= s.queue[0] < |w.pcs| && w.pcs[s.queue[0]] == InP(a.sid, false))
      || s.value < |WokenOn(w.pcs, a.sid)|
  }

  /** A quit finds the scan right, or finds process 0 marked RUNNING, and the machine halts. */
  ghost predicate QuitGuard(l: Limits, w: World, a: Action)
    requires Enabled(l, w, a)
  {
    a.DoQuit? ==> NoneRunsBelow(w.k) || GetPid(w.k) == 0
  }

  ghost function ForkStep(l: Limits, w: World, name: Option<string>, stack: int, priority: int, tag: int): World
    requires Enabled(l, w, DoFork(name, stack, priority, tag))
  {
    var (k', reply, j) := Fork(l, w.k, name, stack, priority, tag);
    if reply == Reply.SUCCESS && 0 <= j < l.maxProc then
      w.(k := k', born := w.born[j := w.now], now := w.now + 1, pcs := w.pcs[j := Outside],
         quits := w.quits[j := []], reaps := w.reaps[j := []])
    else w.(k := k')
  }

  /** The kernel after process `who` has quit. */
  ghost function Quitted(l: Limits, k: Kernel, born: seq<nat>, who: int, status: int): Kernel
    requires Good(l, k, born) && !k.halted && InRange(k) && Acting(k, who)
  {
    if who == 0 then Quit(k, 0, status)
    else
      QuitGood(l, k, born, who, status);
      Quit(k, who, status)
  }

  /** The caller reports its status to its parent; the kernel quits whom the scan names. */
  ghost function QuitStep(l: Limits, w: World, status: int): World
    requires Enabled(l, w, DoQuit(status))
  {
    ScanNamesCaller(w.k);
    var me, who := Current(w.k), GetPid(w.k);
    var k' := Quitted(l, w.k, w.born, who, status);
    if me == 0 then w.(k := k')
    else
      QuitterFacts(l, w.k, w.born, me);
      var parent := w.k.procs[me].parent;
      w.(k := k', pcs := if who == me then w.pcs else w.pcs[me := AfterQuit],
         quits := w.quits[parent := w.quits[parent] + [QuitRecord(me, w.k.procs[me].tag, status)]])
  }

  ghost function ReapStep(l: Limits, w: World, tag: int): World
    requires Enabled(l, w, DoReap(tag))
  {
    var me := Current(w.k);
    var (k', reply, c, status) := GetChildStatus(w.k, tag);
    if reply == Reply.SUCCESS
    then w.(k := k', reaps := w.reaps[me := w.reaps[me] + [QuitRecord(c, tag, status)]])
    else w.(k := k')
  }

  ghost function TryPStep(l: Limits, w: World): World
    requires Enabled(l, w, DoTryP)
  {
    var me := Current(w.k);
    var sid := w.pcs[me].sid;
    var (k', got) := TryP(w.k, GetPid(w.k), sid);
    if got then
      var log := w.logs[sid];
      w.(k := k', pcs := w.pcs[me := Outside],
         logs := w.logs[sid := log.(ps := log.ps + 1, holders := log.holders + multiset{me})])
    else w.(k := k', pcs := w.pcs[me := InP(sid, false)])
  }

  ghost function VStep(l: Limits, w: World, sid: int): World
    requires Enabled(l, w, DoV(sid))
  {
    if !ValidSem(w.k, sid) then w.(k := V(w.k, sid).0)
    else
      var log, q := w.logs[sid], w.k.sems[sid].queue;
      w.(k := V(w.k, sid).0,
         pcs := if q != [] && 0 <= q[0] < |w.pcs| && w.pcs[q[0]] == InP(sid, false)
                then w.pcs[q[0] := InP(sid, true)] else w.pcs,
         logs := w.logs[sid := log.(vs := log.vs + 1, holders := log.holders - multiset{Current(w.k)})])
  }

  ghost function Step(l: Limits, w: World, a: Action): World
    requires Enabled(l, w, a)
  {
    match a
    case DoFork(name, stack, priority, tag) => ForkStep(l, w, name, stack, priority, tag)
    case DoQuit(status) => QuitStep(l, w, status)
    case DoReap(tag) => ReapStep(l, w, tag)
    case DoJoinWait(tag) => w.(k := JoinWait(w.k, GetPid(w.k)))
    case DoEnterP(sid) => if ValidSem(w.k, sid) then w.(pcs := w.pcs[Current(w.k) := InP(sid, false)]) else w
    case DoTryP => TryPStep(l, w)
    case DoV(sid) => VStep(l, w, sid)
    case DoTick(rotate) => w.(k := Dispatch(w.k, rotate))
    case DoSemCreate(name, value) =>
      var (k', reply, j) := SemCreate(l, w.k, name, value);
      if reply == Reply.SUCCESS then w.(k := k', logs := w.logs[j := SemLog(value, 0, 0, multiset{})]) else w.(k := k')
    case DoSemFree(sid) => w.(k := SemFree(w.k, sid).0)
  }

  // ---------------------------------------------------------------- states of the others

  /** A runnable process stays runnable, a blocked one stays blocked where it was, and
      none becomes blocked. */
  ghost predicate Steady(b: PCB, b': PCB) {
    && (b.used && Runnable(b.state) ==> b'.used && Runnable(b'.state))
    && (b.used && b.state == BLOCKED ==> b'.used && b'.state == BLOCKED && b'.sid == b.sid)
    && (b'.used && b'.state == BLOCKED ==> b.used && b.state == BLOCKED && b'.sid == b.sid)
  }

  /** All processes but x are steady. */
  ghost predicate SteadyBut(k: Kernel, k': Kernel, x: int) {
    |k'.procs| == |k.procs| && forall p :: 0 <= p < |k.procs| && p != x ==> Steady(k.procs[p], k'.procs[p])
  }

  lemma DispatchSteady(l: Limits, k: Kernel, k1: Kernel, x: int, rotate: bool)
    requires SteadyBut(k, k1, x) && Placed(l, k1)
    ensures InRange(k1) && SteadyBut(k, Dispatch(k1, rotate), x) && Dispatch(k1, rotate).sems == k1.sems
    ensures 0 <= x < |k1.procs| ==> Steady(k1.procs[x], Dispatch(k1, rotate).procs[x])
  {
    DispatchProcs(k1, rotate);
  }

  lemma ForkSteady(l: Limits, k: Kernel, born: seq<nat>, name: Option<string>, stack: int, priority: int, tag: int)
    requires Good(l, k, born) && !k.halted && (!k.first ==> k.ready != []) && InRange(k)
    requires Fork(l, k, name, stack, priority, tag).1 == Reply.SUCCESS
    ensures var (k', _, j) := Fork(l, k, name, stack, priority, tag);
            0 <= j < l.maxProc && !k.procs[j].used && SteadyBut(k, k', j) && k'.sems == k.sems
            && k'.procs[j].used && Runnable(k'.procs[j].state)
  {
    var k1, j := ForkStages(l, k, born, name, stack, priority, tag);
    AdoptedSteady(l, k, k1, j, priority);
  }

  lemma AdoptedSteady(l: Limits, k: Kernel, k1: Kernel, j: int, priority: int)
    requires Adopted(l, k, k1, j, priority) && Placed(l, k1)
    ensures InRange(k1)
    ensures forall k' :: k' in {k1, Dispatch(k1, false)} ==>
              SteadyBut(k, k', j) && k'.sems == k.sems && k'.procs[j].used && Runnable(k'.procs[j].state)
  {
    ExactInRange(k1);
    assert SteadyBut(k, k1, j);
    DispatchSteady(l, k, k1, j, false);
  }

  lemma NotifiedSteady(l: Limits, k: Kernel, k1: Kernel, x: int, parent: int)
    requires SteadyBut(k, k1, x) && Placed(l, k1) && 0 <= parent < |k1.procs| && k1.procs[parent].used && parent != x
    ensures SteadyBut(k, Notified(k1, parent), x) && Placed(l, Notified(k1, parent))
    ensures Notified(k1, parent).sems == k1.sems
    ensures 0 <= x < |k.procs| ==> Notified(k1, parent).procs[x] == k1.procs[x]
  {
    NotifiedPlaced(l, k1, parent);
    assert k1.procs[parent].state == JOINING ==> Notified(k1, parent).procs[parent].state == READY;
  }

  lemma DepartedSteady(l: Limits, k: Kernel, k': Kernel, pid: int, parent: int, status: int)
    requires Departed(l, k, k', pid, parent, status)
    ensures SteadyBut(k, k', pid) && k'.procs[pid].state == QUIT && k'.sems == k.sems
    ensures k'.procs[parent].used == k.procs[parent].used
  {
  }

  lemma DepartAndDispatchSteady(l: Limits, k: Kernel, k2: Kernel, pid: int, parent: int, status: int)
    requires Departed(l, k, k2, pid, parent, status) && Placed(l, k2) && k.procs[parent].used
    ensures InRange(Notified(k2, parent))
    ensures var k' := Dispatch(Notified(k2, parent), false);
            SteadyBut(k, k', pid) && k'.sems == k.sems && k'.procs[pid].state == QUIT
  {
    DepartedSteady(l, k, k2, pid, parent, status);
    NotifiedSteady(l, k, k2, pid, parent);
    DispatchSteady(l, k, Notified(k2, parent), pid, false);
    DispatchProcs(Notified(k2, parent), false);
  }

  lemma QuitSteady(l: Limits, k: Kernel, born: seq<nat>, pid: int, status: int)
    requires Good(l, k, born) && Acting(k, pid) && pid != 0
    ensures InRange(k) && 0 <= k.procs[pid].parent < |k.procs|
    ensures SteadyBut(k, Quit(k, pid, status), pid) && Quit(k, pid, status).sems == k.sems
    ensures Quit(k, pid, status).procs[pid].state == QUIT
  {
    var k2, parent := QuitStages(l, k, born, pid, status);
    DepartAndDispatchSteady(l, k, k2, pid, parent, status);
  }

  lemma TryPFacts(l: Limits, k: Kernel, me: int, sid: int)
    requires Placed(l, k) && Acting(k, me) && ValidSem(k, sid)
    ensures InRange(k)
    ensures var (k', got) := TryP(k, me, sid);
            var s := k.sems[sid];
            if got then s.value > 0 && k' == WithSem(k, sid, s.(value := s.value - 1))
            else s.value == 0 && SteadyBut(k, k', me)
                 && k'.sems == k.sems[sid := s.(queue := s.queue + [me])]
                 && IsWaiting(k', me, sid)
  {
    ExactInRange(k);
    if k.sems[sid].value == 0 {
      BlockPlaced(l, k, me, sid);
      DispatchSteady(l, k, BlockedOn(k, me, sid), me, false);
    }
  }

  lemma WokenSteady(l: Limits, k: Kernel, sid: int)
    requires Placed(l, k) && ValidSem(k, sid) && k.sems[sid].queue != []
    ensures InRange(k)
    ensures var k', s := Dispatch(Woken(k, sid), false), k.sems[sid];
            && IsWaiting(k, s.queue[0], sid) && SteadyBut(k, k', s.queue[0])
            && k'.sems == k.sems[sid := s.(queue := s.queue[1..])]
            && k'.procs[s.queue[0]].used && Runnable(k'.procs[s.queue[0]].state)
  {
    WokenPlaced(l, k, sid);
    var x := k.sems[sid].queue[0];
    assert SteadyBut(k, Woken(k, sid), x);
    DispatchSteady(l, k, Woken(k, sid), x, false);
  }

  lemma VFacts(l: Limits, k: Kernel, sid: int)
    requires Placed(l, k) && ValidSem(k, sid)
    ensures InRange(k)
    ensures var k' := V(k, sid).0;
            var s := k.sems[sid];
            if s.queue == [] then k' == Raised(k, sid)
            else
              && IsWaiting(k, s.queue[0], sid) && SteadyBut(k, k', s.queue[0])
              && k'.sems == k.sems[sid := s.(value := s.value + 1, queue := s.queue[1..])]
              && k'.procs[s.queue[0]].used && Runnable(k'.procs[s.queue[0]].state)
  {
    ExactInRange(k);
    if k.sems[sid].queue != [] {
      SameButSem(l, k, sid, k.sems[sid].(value := k.sems[sid].value + 1));
      RaisedThenWoken(l, k, Raised(k, sid), sid);
    }
  }

  lemma RaisedThenWoken(l: Limits, k: Kernel, k1: Kernel, sid: int)
    requires Placed(l, k1) && ValidSem(k, sid) && k.sems[sid].queue != [] && k1 == Raised(k, sid)
    ensures InRange(k1)
    ensures var k', s := Dispatch(Woken(k1, sid), false), k.sems[sid];
            && IsWaiting(k, s.queue[0], sid) && SteadyBut(k, k', s.queue[0])
            && k'.sems == k.sems[sid := s.(value := s.value + 1, queue := s.queue[1..])]
            && k'.procs[s.queue[0]].used && Runnable(k'.procs[s.queue[0]].state)
  {
    WokenSteady(l, k1, sid);
  }

  // ---------------------------------------------------------------- where processes stand

  /** Pcs stay in agreement when those inside P1_P stay put and nobody new is blocked. */
  lemma PcsCarry(w: World, w': World, x: int)
    requires PcsAgree(w) && SteadyBut(w.k, w'.k, x) && |w'.pcs| == |w.pcs|
    requires forall p :: 0 <= p < |w.pcs| ==> w'.pcs[p] == w.pcs[p] || (!w.pcs[p].InP? && !w'.pcs[p].InP?)
    requires 0 <= x < |w.pcs| ==> !w.pcs[x].InP? && !(w'.k.procs[x].used && w'.k.procs[x].state == BLOCKED)
    requires forall p :: 0 <= p < |w.pcs| && w.pcs[p].InP? && ValidSem(w.k, w.pcs[p].sid) ==>
               ValidSem(w'.k, w.pcs[p].sid)
    ensures PcsAgree(w')
  {
    forall p | 0 <= p < |w'.pcs| && w'.pcs[p].InP?
      ensures Live(w'.k, p) && ValidSem(w'.k, w'.pcs[p].sid)
      ensures w'.k.procs[p].state == BLOCKED || Runnable(w'.k.procs[p].state)
    {
      assert w.pcs[p].InP?;
    }
  }

  lemma TryPPcs(l: Limits, w: World)
    requires Enabled(l, w, DoTryP) && PcsAgree(w) && PGuard(l, w, DoTryP)
    ensures PcsAgree(TryPStep(l, w))
  {
    ScanNamesCaller(w.k);
    TryPFacts(l, w.k, GetPid(w.k), w.pcs[Current(w.k)].sid);
    var w' := TryPStep(l, w);
    forall p | 0 <= p < |w'.pcs| && w'.pcs[p].InP?
      ensures Live(w'.k, p) && ValidSem(w'.k, w'.pcs[p].sid)
      ensures w'.k.procs[p].state == BLOCKED || Runnable(w'.k.procs[p].state)
    {
      assert w.pcs[p].InP?;
    }
  }

  lemma VPcs(l: Limits, w: World, sid: int)
    requires Enabled(l, w, DoV(sid)) && PcsAgree(w) && ValidSem(w.k, sid)
    ensures PcsAgree(VStep(l, w, sid))
  {
    VFacts(l, w.k, sid);
    var w' := VStep(l, w, sid);
    forall p | 0 <= p < |w'.pcs| && w'.pcs[p].InP?
      ensures Live(w'.k, p) && ValidSem(w'.k, w'.pcs[p].sid)
      ensures w'.k.procs[p].state == BLOCKED || Runnable(w'.k.procs[p].state)
    {
      assert w.pcs[p].InP?;
    }
  }

  // ---------------------------------------------------------------- no lost wakeup

  lemma WokenChange(pcs: seq<Pc>, p: int, pc: Pc, s: int)
    requires 0 <= p < |pcs|
    ensures |WokenOn(pcs[p := pc], s)| ==
            |WokenOn(pcs, s)| - (if pcs[p] == InP(s, true) then 1 else 0) + (if pc == InP(s, true) then 1 else 0)
  {
    var before, after := WokenOn(pcs, s), WokenOn(pcs[p := pc], s);
    assert p in before <==> pcs[p] == InP(s, true);
    assert p in after <==> pc == InP(s, true);
    assert before - {p} == after - {p};
    RemoveSize(before, p);
    RemoveSize(after, p);
  }

  lemma TryPNoLost(l: Limits, w: World)
    requires Enabled(l, w, DoTryP) && NoLostWakeup(w)
    ensures NoLostWakeup(TryPStep(l, w))
  {
    var me := Current(w.k);
    var sid := w.pcs[me].sid;
    ScanNamesCaller(w.k);
    TryPFacts(l, w.k, GetPid(w.k), sid);
    var w' := TryPStep(l, w);
    forall s | 0 <= s < |w'.k.sems| && w'.k.sems[s].queue != []
      ensures w'.k.sems[s].value <= |WokenOn(w'.pcs, s)|
    {
      WokenChange(w.pcs, me, w'.pcs[me], s);
      assert s != sid ==> w'.k.sems[s] == w.k.sems[s];
    }
  }

  lemma VNoLost(l: Limits, w: World, sid: int)
    requires Enabled(l, w, DoV(sid)) && PcsAgree(w) && NoLostWakeup(w) && ValidSem(w.k, sid)
    ensures NoLostWakeup(VStep(l, w, sid))
  {
    VFacts(l, w.k, sid);
    var w' := VStep(l, w, sid);
    var q := w.k.sems[sid].queue;
    forall s | 0 <= s < |w'.k.sems| && w'.k.sems[s].queue != []
      ensures w'.k.sems[s].value <= |WokenOn(w'.pcs, s)|
    {
      assert s != sid ==> w'.k.sems[s] == w.k.sems[s];
      if q != [] {
        assert IsWaiting(w.k, q[0], sid);
        WokenChange(w.pcs, q[0], InP(sid, true), s);
      }
    }
  }

  /** The other actions touch neither values nor queues in use, nor who is woken. */
  lemma NoLostCarry(w: World, w': World)
    requires NoLostWakeup(w) && |w'.k.sems| == |w.k.sems|
    requires forall s :: 0 <= s < |w.k.sems| ==> w'.k.sems[s] == w.k.sems[s] || w'.k.sems[s].queue == []
    requires forall s :: WokenOn(w'.pcs, s) == WokenOn(w.pcs, s)
    ensures NoLostWakeup(w')
  {
  }

  // ---------------------------------------------------------------- reaping in order

  lemma {:induction false} WithTagConcat(a: seq<QuitRecord>, b: seq<QuitRecord>, tag: int)
    ensures WithTag(a + b, tag) == WithTag(a, tag) + WithTag(b, tag)
  {
    if b == [] {
      assert a + b == a;
    } else {
      WithTagConcat(a, b[..|b| - 1], tag);
      assert (a + b)[..|a + b| - 1] == a + b[..|b| - 1];
    }
  }

  lemma WithTagOne(r: QuitRecord, tag: int)
    ensures WithTag([r], tag) == (if r.tag == tag then [r] else [])
  {
    assert WithTag([r][..0], tag) == [];
  }

  lemma {:induction false} NoneWithTag(rs: seq<QuitRecord>, tag: int)
    requires forall i :: 0 <= i < |rs| ==> rs[i].tag != tag
    ensures WithTag(rs, tag) == []
  {
    if rs != [] {
      NoneWithTag(rs[..|rs| - 1], tag);
    }
  }

  /** Nobody's quit list or report changed, and the same processes are alive. */
  ghost predicate SameRecords(k: Kernel, k': Kernel) {
    && |k'.procs| == |k.procs|
    && forall p :: 0 <= p < |k.procs| ==>
         && k'.procs[p].quitChildren == k.procs[p].quitChildren
         && k'.procs[p].tag == k.procs[p].tag && k'.procs[p].status == k.procs[p].status
         && (Live(k', p) <==> Live(k, p))
  }

  lemma RecordsCarry(w: World, w': World)
    requires ReapedInOrder(w) && SameRecords(w.k, w'.k) && w'.quits == w.quits && w'.reaps == w.reaps
    ensures ReapedInOrder(w')
  {
    forall q, tag | Live(w'.k, q)
      ensures WithTag(w'.quits[q], tag) == WithTag(w'.reaps[q], tag)
                + WithTag(Pending(w'.k, w'.k.procs[q].quitChildren), tag)
    {
      assert Live(w.k, q);
      assert Pending(w'.k, w'.k.procs[q].quitChildren) == Pending(w.k, w.k.procs[q].quitChildren);
    }
  }

  /** All control blocks report the same. */
  ghost predicate SameReports(k: Kernel, k': Kernel) {
    |k'.procs| == |k.procs| &&
    forall p :: 0 <= p < |k.procs| ==> k'.procs[p].tag == k.procs[p].tag && k'.procs[p].status == k.procs[p].status
  }

  lemma PendingSplit(k: Kernel, k': Kernel, quits: seq<int>, i: nat)
    requires i < |quits| && SameReports(k, k')
    ensures Pending(k, quits) == Pending(k, quits[..i]) + [Pending(k, quits)[i]] + Pending(k, quits[i + 1..])
    ensures Pending(k', quits[..i] + quits[i + 1..]) == Pending(k, quits[..i]) + Pending(k, quits[i + 1..])
  {
  }

  lemma Regroup<T>(a: seq<T>, b: seq<T>, c: seq<T>)
    ensures a + (b + c) == (a + b) + c
    ensures [] + b + c == b + ([] + c)
    ensures a + [] + c == [] + (a + c)
  {
  }

  lemma TakeFirst(a: seq<QuitRecord>, r: QuitRecord, b: seq<QuitRecord>, t: int)
    requires forall i :: 0 <= i < |a| ==> a[i].tag != r.tag
    ensures WithTag(a + [r] + b, t) == WithTag([r], t) + WithTag(a + b, t)
  {
    WithTagConcat(a, [r], t);
    WithTagConcat(a + [r], b, t);
    WithTagConcat(a, b, t);
    WithTagOne(r, t);
    var wa, wr, wb := WithTag(a, t), WithTag([r], t), WithTag(b, t);
    if t == r.tag {
      NoneWithTag(a, t);
    }
    Regroup(wa, wr, wb);
  }

  /** Reaping takes the first record with the tag off what is pending. */
  lemma PendingReaped(k: Kernel, k': Kernel, quits: seq<int>, i: nat, t: int)
    requires i < |quits| && SameReports(k, k')
    requires forall j :: 0 <= j < i ==> Pending(k, quits)[j].tag != Pending(k, quits)[i].tag
    ensures WithTag(Pending(k, quits), t) ==
            WithTag([Pending(k, quits)[i]], t) + WithTag(Pending(k', quits[..i] + quits[i + 1..]), t)
  {
    PendingSplit(k, k', quits, i);
    forall j | 0 <= j < i
      ensures Pending(k, quits[..i])[j] == Pending(k, quits)[j]
    {
    }
    TakeFirst(Pending(k, quits[..i]), Pending(k, quits)[i], Pending(k, quits[i + 1..]), t);
  }

  /** What a successful reap took, as a position in the quit list. */
  lemma ReapTakesFirst(l: Limits, k: Kernel, born: seq<nat>, tag: int) returns (i: nat)
    requires Good(l, k, born) && k.ready != [] && InRange(k) && GetChildStatus(k, tag).1 == Reply.SUCCESS
    ensures var (k', _, c, status) := GetChildStatus(k, tag);
            var me := Current(k);
            && 0 <= me < |k.procs| && Live(k, me)
            && var quits := k.procs[me].quitChildren;
               && i < |quits| && SameReports(k, k')
               && |k'.procs| == |k.procs| && k'.procs[me].quitChildren == quits[..i] + quits[i + 1..]
               && Pending(k, quits)[i] == QuitRecord(c, tag, status)
               && (forall j :: 0 <= j < i ==> Pending(k, quits)[j].tag != tag)
               && (forall p :: 0 <= p < |k.procs| && p != me ==> k'.procs[p].quitChildren == k.procs[p].quitChildren)
               && (forall p :: Live(k', p) ==> Live(k, p))
  {
    CurrentRuns(l, k);
    ReapFacts(l, k, born, tag);
    var me := Current(k);
    var quits := k.procs[me].quitChildren;
    var has := (c: int) => 0 <= c < |k.procs| && k.procs[c].tag == tag;
    i := FirstWithTag(k.procs, quits, tag);
    assert QuitListSound(k, me);
    forall j | 0 <= j < i
      ensures Pending(k, quits)[j].tag != tag
    {
      assert quits[j] in quits && IsZombieOf(k, quits[j], me);
      assert !has(quits[j]);
    }
  }

  lemma ReapInOrderAt(l: Limits, w: World, tag: int, i: nat, t: int)
    requires Enabled(l, w, DoReap(tag)) && ReapedInOrder(w)
    requires var (k', reply, c, status) := GetChildStatus(w.k, tag);
             var me := Current(w.k);
             && reply == Reply.SUCCESS && 0 <= me < |w.k.procs| && Live(w.k, me)
             && var quits := w.k.procs[me].quitChildren;
                && i < |quits| && SameReports(w.k, k')
                && k'.procs[me].quitChildren == quits[..i] + quits[i + 1..]
                && Pending(w.k, quits)[i] == QuitRecord(c, tag, status)
                && (forall j :: 0 <= j < i ==> Pending(w.k, quits)[j].tag != tag)
    ensures var (w', me) := (ReapStep(l, w, tag), Current(w.k));
            WithTag(w'.quits[me], t) == WithTag(w'.reaps[me], t)
              + WithTag(Pending(w'.k, w'.k.procs[me].quitChildren), t)
  {
    var me := Current(w.k);
    var (k', _, c, status) := GetChildStatus(w.k, tag);
    var quits, r := w.k.procs[me].quitChildren, QuitRecord(c, tag, status);
    PendingReaped(w.k, k', quits, i, t);
    WithTagConcat(w.reaps[me], [r], t);
    Regroup(WithTag(w.reaps[me], t), WithTag([r], t), WithTag(Pending(k', quits[..i] + quits[i + 1..]), t));
  }

  lemma ReapInOrder(l: Limits, w: World, tag: int)
    requires Enabled(l, w, DoReap(tag)) && ReapedInOrder(w)
    ensures ReapedInOrder(ReapStep(l, w, tag))
  {
    var me := Current(w.k);
    var (k', reply, c, status) := GetChildStatus(w.k, tag);
    var w' := ReapStep(l, w, tag);
    if reply == Reply.SUCCESS {
      var i := ReapTakesFirst(l, w.k, w.born, tag);
      forall q, t | Live(k', q)
        ensures WithTag(w'.quits[q], t) == WithTag(w'.reaps[q], t) + WithTag(Pending(k', k'.procs[q].quitChildren), t)
      {
        assert Live(w.k, q);
        if q == me {
          ReapInOrderAt(l, w, tag, i, t);
        } else {
          assert Pending(k', k'.procs[q].quitChildren) == Pending(w.k, w.k.procs[q].quitChildren);
        }
      }
    }
  }

  /** What forking changes in reports and quit lists. */
  lemma ForkReports(l: Limits, k: Kernel, born: seq<nat>, name: Option<string>, stack: int, priority: int, tag: int)
    requires Good(l, k, born) && !k.halted && (!k.first ==> k.ready != []) && InRange(k)
    requires Fork(l, k, name, stack, priority, tag).1 == Reply.SUCCESS
    ensures var (k', _, j) := Fork(l, k, name, stack, priority, tag);
            && 0 <= j < |k.procs| && !k.procs[j].used && |k'.procs| == |k.procs| && k'.procs[j].quitChildren == []
            && (forall p :: 0 <= p < |k.procs| && p != j ==>
                  && k'.procs[p].tag == k.procs[p].tag && k'.procs[p].status == k.procs[p].status
                  && k'.procs[p].quitChildren == k.procs[p].quitChildren
                  && (Live(k', p) ==> Live(k, p)))
  {
    var k1, j := ForkStages(l, k, born, name, stack, priority, tag);
    AdoptedReports(l, k, k1, j, priority);
  }

  lemma AdoptedReports(l: Limits, k: Kernel, k1: Kernel, j: int, priority: int)
    requires Adopted(l, k, k1, j, priority) && Placed(l, k1)
    ensures InRange(k1)
    ensures forall k' :: k' in {k1, Dispatch(k1, false)} ==>
              && |k'.procs| == |k.procs| && k'.procs[j].quitChildren == []
              && (forall p :: 0 <= p < |k.procs| && p != j ==>
                    && k'.procs[p].tag == k.procs[p].tag && k'.procs[p].status == k.procs[p].status
                    && k'.procs[p].quitChildren == k.procs[p].quitChildren
                    && (Live(k', p) ==> Live(k, p)))
  {
    DispatchRecords(l, k1, false);
  }

  lemma ForkRecords(l: Limits, w: World, name: Option<string>, stack: int, priority: int, tag: int)
    requires Enabled(l, w, DoFork(name, stack, priority, tag)) && ReapedInOrder(w)
    requires Fork(l, w.k, name, stack, priority, tag).1 == Reply.SUCCESS
    ensures ReapedInOrder(ForkStep(l, w, name, stack, priority, tag))
  {
    ForkReports(l, w.k, w.born, name, stack, priority, tag);
    var j := FirstUnusedProc(w.k);
    var w' := ForkStep(l, w, name, stack, priority, tag);
    forall q, t | Live(w'.k, q)
      ensures WithTag(w'.quits[q], t) == WithTag(w'.reaps[q], t) + WithTag(Pending(w'.k, w'.k.procs[q].quitChildren), t)
    {
      if q != j {
        assert Live(w.k, q);
        SamePending(w.k, w'.k, q, j);
      }
    }
  }

  /** Pending records do not change with a process that has not quit. */
  lemma SamePending(k: Kernel, k': Kernel, q: int, x: int)
    requires QuitListsSound(k) && Live(k, q) && |k'.procs| == |k.procs|
    requires forall p :: 0 <= p < |k.procs| && p != x ==>
               k'.procs[p].tag == k.procs[p].tag && k'.procs[p].status == k.procs[p].status
    requires !(0 <= x < |k.procs| && k.procs[x].used && k.procs[x].state == QUIT)
    ensures Pending(k', k.procs[q].quitChildren) == Pending(k, k.procs[q].quitChildren)
  {
    var quits := k.procs[q].quitChildren;
    assert QuitListSound(k, q);
    forall i | 0 <= i < |quits|
      ensures Pending(k', quits)[i] == Pending(k, quits)[i]
    {
      assert quits[i] in quits && IsZombieOf(k, quits[i], q);
    }
  }

  /** What quitting changes in reports and quit lists. */
  lemma QuitReports(l: Limits, k: Kernel, born: seq<nat>, pid: int, status: int)
    requires Good(l, k, born) && Acting(k, pid) && pid != 0
    ensures InRange(k) && 0 <= k.procs[pid].parent < |k.procs|
    ensures var k' := Quit(k, pid, status);
            var parent := k.procs[pid].parent;
            && |k'.procs| == |k.procs| && Live(k, pid) && pid != parent
            && (forall p :: 0 <= p < |k.procs| ==>
                  && k'.procs[p].tag == k.procs[p].tag
                  && k'.procs[p].status == (if p == pid then status else k.procs[p].status)
                  && k'.procs[p].quitChildren
                    == (if p == parent then k.procs[p].quitChildren + [pid] else k.procs[p].quitChildren)
                  && (Live(k', p) <==> Live(k, p) && p != pid))
  {
    var k2, parent := QuitStages(l, k, born, pid, status);
    NotifiedPlaced(l, k2, parent);
    NotifiedReports(k2, parent);
    DispatchRecords(l, Notified(k2, parent), false);
    SameRecordsTwice(k2, Notified(k2, parent), Quit(k, pid, status));
  }

  lemma SameRecordsTwice(k: Kernel, k1: Kernel, k2: Kernel)
    requires SameRecords(k, k1) && SameRecords(k1, k2)
    ensures SameRecords(k, k2)
  {
  }

  lemma NotifiedReports(k: Kernel, parent: int)
    requires 0 <= parent < |k.procs|
    ensures SameRecords(k, Notified(k, parent))
  {
  }

  lemma ReportFiled(quits: seq<QuitRecord>, reaps: seq<QuitRecord>, pending: seq<QuitRecord>, r: QuitRecord, t: int)
    requires WithTag(quits, t) == WithTag(reaps, t) + WithTag(pending, t)
    ensures WithTag(quits + [r], t) == WithTag(reaps, t) + WithTag(pending + [r], t)
  {
    WithTagConcat(pending, [r], t);
    WithTagConcat(quits, [r], t);
    Regroup(WithTag(reaps, t), WithTag(pending, t), WithTag([r], t));
  }

  /** What a quit does to the pending records of a live process q. */
  lemma QuitPending(k: Kernel, k': Kernel, pid: int, parent: int, status: int, q: int)
    requires QuitListsSound(k) && Live(k, q) && Live(k, pid) && |k'.procs| == |k.procs|
    requires forall p :: 0 <= p < |k.procs| ==>
               && k'.procs[p].tag == k.procs[p].tag
               && k'.procs[p].status == (if p == pid then status else k.procs[p].status)
               && k'.procs[p].quitChildren
                 == (if p == parent then k.procs[p].quitChildren + [pid] else k.procs[p].quitChildren)
    ensures var pending := Pending(k, k.procs[q].quitChildren);
            Pending(k', k'.procs[q].quitChildren) ==
            if q == parent then pending + [QuitRecord(pid, k.procs[pid].tag, status)] else pending
  {
    SamePending(k, k', q, pid);
  }

  /** The record a quit files with the parent is the one it adds to what is pending. */
  lemma QuitRecordAt(k: Kernel, k': Kernel, pid: int, parent: int, status: int, q: int,
                     quits: seq<QuitRecord>, reaps: seq<QuitRecord>, t: int)
    requires QuitListsSound(k) && Live(k, q) && Live(k, pid) && |k'.procs| == |k.procs|
    requires forall p :: 0 <= p < |k.procs| ==>
               && k'.procs[p].tag == k.procs[p].tag
               && k'.procs[p].status == (if p == pid then status else k.procs[p].status)
               && k'.procs[p].quitChildren
                  == (if p == parent then k.procs[p].quitChildren + [pid] else k.procs[p].quitChildren)
    requires WithTag(quits, t) == WithTag(reaps, t) + WithTag(Pending(k, k.procs[q].quitChildren), t)
    ensures WithTag(if q == parent then quits + [QuitRecord(pid, k.procs[pid].tag, status)] else quits, t)
            == WithTag(reaps, t) + WithTag(Pending(k', k'.procs[q].quitChildren), t)
  {
    QuitPending(k, k', pid, parent, status, q);
    if q == parent {
      ReportFiled(quits, reaps, Pending(k, k.procs[q].quitChildren), QuitRecord(pid, k.procs[pid].tag, status), t);
    }
  }

  lemma QuitRecords(l: Limits, w: World, status: int)
    requires Enabled(l, w, DoQuit(status)) && ReapedInOrder(w) && NoneRunsBelow(w.k) && Current(w.k) != 0
    ensures ReapedInOrder(QuitStep(l, w, status))
  {
    ScanNamesCaller(w.k);
    QuitStepParts(l, w, status);
    var pid, w' := Current(w.k), QuitStep(l, w, status);
    QuitReports(l, w.k, w.born, pid, status);
    forall q, t | Live(w'.k, q)
      ensures WithTag(w'.quits[q], t) == WithTag(w'.reaps[q], t)
                + WithTag(Pending(w'.k, w'.k.procs[q].quitChildren), t)
    {
      assert Live(w.k, q);
      QuitRecordAt(w.k, w'.k, pid, w.k.procs[pid].parent, status, q, w.quits[q], w.reaps[q], t);
    }
  }

  // ---------------------------------------------------------------- every step is sound

  /** An action that leaves semaphores and fork times alone and sends nobody into P1_P. */
  lemma SoundFromParts(l: Limits, w: World, w': World)
    requires Sound(l, w) && Good(l, w'.k, w'.born) && w'.born == w.born && w'.now == w.now
    requires w'.k.sems == w.k.sems && w'.logs == w.logs && Sized(l, w')
    requires forall p :: 0 <= p < |w.pcs| && w'.pcs[p].InP? ==> w.pcs[p] == w'.pcs[p]
    requires w'.k.halted || w'.k.first || HeadRuns(w'.k)
    ensures Sound(l, w')
  {
  }

  lemma ForkRunsHead(l: Limits, k: Kernel, born: seq<nat>, name: Option<string>, stack: int, priority: int, tag: int)
    requires Good(l, k, born) && !k.halted && (!k.first ==> HeadRuns(k)) && InRange(k)
    requires (k.first ==> k.ready == []) && Fork(l, k, name, stack, priority, tag).1 == Reply.SUCCESS
    ensures var k' := Fork(l, k, name, stack, priority, tag).0;
            k'.halted || HeadRuns(k')
  {
    var k1, j := ForkStages(l, k, born, name, stack, priority, tag);
    DispatchRunsHead(l, k1, false);
    assert HeadRuns(k1);
  }

  lemma ForkSound(l: Limits, w: World, name: Option<string>, stack: int, priority: int, tag: int)
    requires Enabled(l, w, DoFork(name, stack, priority, tag))
    ensures Sound(l, ForkStep(l, w, name, stack, priority, tag))
  {
    ForkGood(l, w.k, w.born, w.now, name, stack, priority, tag);
    if Fork(l, w.k, name, stack, priority, tag).1 == Reply.SUCCESS {
      ForkSteady(l, w.k, w.born, name, stack, priority, tag);
      ForkRunsHead(l, w.k, w.born, name, stack, priority, tag);
    }
  }

  lemma QuittedSound(l: Limits, k: Kernel, born: seq<nat>, pid: int, status: int)
    requires Good(l, k, born) && !k.halted && InRange(k) && Acting(k, pid)
    ensures var k' := Quitted(l, k, born, pid, status);
            k'.halted || (Good(l, k', born) && HeadRuns(k') && k'.sems == k.sems)
  {
    if pid == 0 {
      RootQuitEndsAll(l, k, born, status);
    } else {
      QuitGood(l, k, born, pid, status);
      QuitSteady(l, k, born, pid, status);
      var k2, parent := QuitStages(l, k, born, pid, status);
      NotifiedPlaced(l, k2, parent);
      DispatchRunsHead(l, Notified(k2, parent), false);
    }
  }

  /** What a quit does besides its effect on the kernel. */
  lemma QuitStepParts(l: Limits, w: World, status: int)
    requires Enabled(l, w, DoQuit(status))
    ensures var w' := QuitStep(l, w, status);
            && Acting(w.k, GetPid(w.k)) && w'.k == Quitted(l, w.k, w.born, GetPid(w.k), status)
            && w'.born == w.born && w'.now == w.now && w'.logs == w.logs && Sized(l, w')
            && (forall p :: 0 <= p < |w.pcs| && w'.pcs[p].InP? ==> w.pcs[p] == w'.pcs[p])
            && w'.reaps == w.reaps
            && var me := Current(w.k);
               me != 0 ==>
                 var parent := w.k.procs[me].parent;
                 && 0 <= parent < |w.quits| && 0 <= me < |w.pcs|
                 && w'.quits == w.quits[parent := w.quits[parent] + [QuitRecord(me, w.k.procs[me].tag, status)]]
                 && w'.pcs == if GetPid(w.k) == me then w.pcs else w.pcs[me := AfterQuit]
  {
    ScanNamesCaller(w.k);
    if Current(w.k) != 0 {
      QuitterFacts(l, w.k, w.born, Current(w.k));
    }
  }

  lemma QuitSound(l: Limits, w: World, status: int)
    requires Enabled(l, w, DoQuit(status))
    ensures QuitStep(l, w, status).k.halted || Sound(l, QuitStep(l, w, status))
  {
    QuitStepParts(l, w, status);
    QuittedSound(l, w.k, w.born, GetPid(w.k), status);
    var w' := QuitStep(l, w, status);
    if !w'.k.halted {
      SoundFromParts(l, w, w');
    }
  }

  lemma ReapSteady(l: Limits, k: Kernel, born: seq<nat>, tag: int)
    requires Good(l, k, born) && k.ready != [] && InRange(k)
    ensures SteadyBut(k, GetChildStatus(k, tag).0, -1) && GetChildStatus(k, tag).0.sems == k.sems
    ensures HeadRuns(k) ==> HeadRuns(GetChildStatus(k, tag).0)
  {
    if GetChildStatus(k, tag).1 == Reply.SUCCESS {
      ReapFacts(l, k, born, tag);
    }
  }

  lemma ReapSound(l: Limits, w: World, tag: int)
    requires Enabled(l, w, DoReap(tag))
    ensures Sound(l, ReapStep(l, w, tag))
  {
    ReapGood(l, w.k, w.born, tag);
    ReapSteady(l, w.k, w.born, tag);
    SoundFromParts(l, w, ReapStep(l, w, tag));
  }

  lemma DispatchRecords(l: Limits, k: Kernel, rotate: bool)
    requires Placed(l, k)
    ensures InRange(k) && SameRecords(k, Dispatch(k, rotate)) && SteadyBut(k, Dispatch(k, rotate), -1)
    ensures Dispatch(k, rotate).sems == k.sems
    ensures forall p :: 0 <= p < |k.procs| && k.procs[p].state != BLOCKED ==>
               Dispatch(k, rotate).procs[p].state != BLOCKED
  {
    DispatchProcs(k, rotate);
  }

  lemma JoinFacts(l: Limits, k: Kernel, pid: int)
    requires Placed(l, k) && Acting(k, pid)
    requires InRange(k) && Placed(l, SetState(k, pid, JOINING, -1).0)
    ensures SameRecords(k, JoinWait(k, pid)) && SteadyBut(k, JoinWait(k, pid), pid) && JoinWait(k, pid).sems == k.sems
    ensures JoinWait(k, pid).procs[pid].state != BLOCKED
    ensures k.procs[pid].quitChildren == [] ==> JoinWait(k, pid).procs[pid].state == JOINING
    ensures JoinWait(k, pid).halted || HeadRuns(JoinWait(k, pid))
  {
    var k1 := SetState(k, pid, JOINING, -1).0;
    assert SteadyBut(k, k1, pid) && SameRecords(k, k1);
    DispatchRecords(l, k1, false);
    DispatchProcs(k1, false);
    DispatchRunsHead(l, k1, false);
  }

  lemma JoinSound(l: Limits, w: World, tag: int)
    requires Enabled(l, w, DoJoinWait(tag))
    ensures Sound(l, Step(l, w, DoJoinWait(tag)))
  {
    ScanNamesCaller(w.k);
    JoinGood(l, w.k, w.born, GetPid(w.k));
    JoinedGood(l, w.k, w.born, GetPid(w.k));
    JoinFacts(l, w.k, GetPid(w.k));
    SoundFromParts(l, w, Step(l, w, DoJoinWait(tag)));
  }

  lemma TryPSound(l: Limits, w: World)
    requires Enabled(l, w, DoTryP)
    ensures Sound(l, TryPStep(l, w))
  {
    ScanNamesCaller(w.k);
    var sid := w.pcs[Current(w.k)].sid;
    TryPGood(l, w.k, w.born, GetPid(w.k), sid);
    TryPFacts(l, w.k, GetPid(w.k), sid);
    TryPRunsHead(l, w.k, GetPid(w.k), sid);
    TryPConserves(w, TryPStep(l, w), sid);
  }

  /** A unit taken is a P completed; a P that fails changes no value. */
  lemma TryPConserves(w: World, w': World, sid: int)
    requires Conserved(w) && InsideValid(w) && ValidSem(w.k, sid) && |w'.k.sems| == |w.k.sems| && |w'.pcs| == |w.pcs|
    requires forall s :: 0 <= s < |w.k.sems| && s != sid ==> w'.k.sems[s] == w.k.sems[s]
    requires w'.k.sems[sid].used
    requires forall p :: 0 <= p < |w.pcs| && w'.pcs[p].InP? ==> w'.pcs[p].sid == sid || w'.pcs[p] == w.pcs[p]
    requires if w'.logs == w.logs then w'.k.sems[sid].value == w.k.sems[sid].value
             else
               && |w'.logs| == |w.logs| && w'.logs == w.logs[sid := w'.logs[sid]]
               && w'.logs[sid].initial == w.logs[sid].initial && w'.logs[sid].vs == w.logs[sid].vs
               && w'.logs[sid].ps == w.logs[sid].ps + 1 && w'.k.sems[sid].value == w.k.sems[sid].value - 1
    ensures Conserved(w') && InsideValid(w')
  {
  }

  lemma TryPReports(l: Limits, k: Kernel, me: int, sid: int)
    requires Placed(l, k) && Acting(k, me) && ValidSem(k, sid)
    ensures InRange(k) && SameRecords(k, TryP(k, me, sid).0)
  {
    ExactInRange(k);
    if k.sems[sid].value == 0 {
      BlockPlaced(l, k, me, sid);
      BlockReports(k, me, sid);
      DispatchRecords(l, BlockedOn(k, me, sid), false);
    }
  }

  lemma BlockReports(k: Kernel, me: int, sid: int)
    requires InRange(k) && Acting(k, me) && ValidSem(k, sid)
    ensures SameRecords(k, BlockedOn(k, me, sid))
  {
  }

  lemma TryPRunsHead(l: Limits, k: Kernel, me: int, sid: int)
    requires Placed(l, k) && Acting(k, me) && ValidSem(k, sid) && HeadRuns(k)
    ensures InRange(k) && (TryP(k, me, sid).0.halted || HeadRuns(TryP(k, me, sid).0))
  {
    ExactInRange(k);
    if k.sems[sid].value == 0 {
      BlockPlaced(l, k, me, sid);
      DispatchRunsHead(l, BlockedOn(k, me, sid), false);
    }
  }

  lemma WokenReports(l: Limits, k: Kernel, sid: int)
    requires Placed(l, k) && ValidSem(k, sid) && k.sems[sid].queue != []
    ensures InRange(k) && SameRecords(k, Dispatch(Woken(k, sid), false))
    ensures Dispatch(Woken(k, sid), false).halted || HeadRuns(Dispatch(Woken(k, sid), false))
  {
    WokenPlaced(l, k, sid);
    assert SameRecords(k, Woken(k, sid));
    DispatchRecords(l, Woken(k, sid), false);
    DispatchRunsHead(l, Woken(k, sid), false);
  }

  lemma VReports(l: Limits, k: Kernel, sid: int)
    requires Placed(l, k) && ValidSem(k, sid)
    ensures InRange(k) && SameRecords(k, V(k, sid).0)
    ensures HeadRuns(k) ==> V(k, sid).0.halted || HeadRuns(V(k, sid).0)
  {
    ExactInRange(k);
    SameButSem(l, k, sid, k.sems[sid].(value := k.sems[sid].value + 1));
    if k.sems[sid].queue != [] {
      WokenReports(l, Raised(k, sid), sid);
    }
  }

  lemma VSound(l: Limits, w: World, sid: int)
    requires Enabled(l, w, DoV(sid))
    ensures Sound(l, VStep(l, w, sid))
  {
    VGood(l, w.k, w.born, sid);
    if ValidSem(w.k, sid) {
      VFacts(l, w.k, sid);
      VReports(l, w.k, sid);
      VConserves(w, VStep(l, w, sid), sid);
    }
  }

  /** A V counts, and raises the value by one. */
  lemma VConserves(w: World, w': World, sid: int)
    requires Conserved(w) && InsideValid(w) && ValidSem(w.k, sid) && |w'.k.sems| == |w.k.sems| && |w'.pcs| == |w.pcs|
    requires forall s :: 0 <= s < |w.k.sems| && s != sid ==> w'.k.sems[s] == w.k.sems[s]
    requires w'.k.sems[sid].used && w'.k.sems[sid].value == w.k.sems[sid].value + 1
    requires forall p :: 0 <= p < |w.pcs| && w'.pcs[p].InP? ==> w'.pcs[p].sid == sid || w'.pcs[p] == w.pcs[p]
    requires |w'.logs| == |w.logs| && w'.logs == w.logs[sid := w'.logs[sid]]
    requires w'.logs[sid].initial == w.logs[sid].initial
    requires w'.logs[sid].vs == w.logs[sid].vs + 1 && w'.logs[sid].ps == w.logs[sid].ps
    ensures Conserved(w') && InsideValid(w')
  {
  }

  lemma TickSound(l: Limits, w: World, rotate: bool)
    requires Enabled(l, w, DoTick(rotate))
    ensures Sound(l, Step(l, w, DoTick(rotate)))
  {
    DispatchGood(l, w.k, w.born, rotate);
    DispatchRecords(l, w.k, rotate);
    DispatchRunsHead(l, w.k, rotate);
    SoundFromParts(l, w, Step(l, w, DoTick(rotate)));
  }

  lemma SemChangeSound(l: Limits, w: World, a: Action)
    requires Enabled(l, w, a) && (a.DoSemCreate? || a.DoSemFree?)
    ensures Sound(l, Step(l, w, a))
  {
    match a
    case DoSemCreate(name, value) => SemCreateGood(l, w.k, w.born, name, value);
    case DoSemFree(sid) => SemFreeGood(l, w.k, w.born, sid);
  }

  /** Every action keeps what is sound, or the machine halts. */
  lemma StepKeeps(l: Limits, w: World, a: Action)
    requires Enabled(l, w, a)
    ensures Step(l, w, a).k.halted || Sound(l, Step(l, w, a))
  {
    match a
    case DoFork(name, stack, priority, tag) => ForkSound(l, w, name, stack, priority, tag);
    case DoQuit(status) => QuitSound(l, w, status);
    case DoReap(tag) => ReapSound(l, w, tag);
    case DoJoinWait(tag) => JoinSound(l, w, tag);
    case DoEnterP(sid) =>
    case DoTryP => TryPSound(l, w);
    case DoV(sid) => VSound(l, w, sid);
    case DoTick(rotate) => TickSound(l, w, rotate);
    case DoSemCreate(name, value) => SemChangeSound(l, w, a);
    case DoSemFree(sid) => SemChangeSound(l, w, a);
  }

  // ---------------------------------------------------------------- who is RUNNING besides the caller

  /** Whoever but x is RUNNING without being the head was so before. */
  ghost predicate RunnersKept(k: Kernel, k': Kernel, x: int) {
    && |k'.procs| == |k.procs|
    && forall p :: 0 <= p < |k.procs| && p != x && RunsBesideHead(k', p) ==> RunsBesideHead(k, p)
  }

  lemma RunnersTwice(k: Kernel, k1: Kernel, k2: Kernel, x: int)
    requires RunnersKept(k, k1, x) && RunnersKept(k1, k2, -1)
    ensures RunnersKept(k, k2, x)
  {
  }

  /** A head that is replaced is READY again. */
  lemma DispatchRunners(l: Limits, k: Kernel, k1: Kernel, x: int, rotate: bool)
    requires Placed(l, k1) && RunnersKept(k, k1, x)
    ensures InRange(k1) && RunnersKept(k, Dispatch(k1, rotate), x)
  {
    DispatchRunsHead(l, k1, rotate);
    RunnersTwice(k, k1, Dispatch(k1, rotate), x);
  }

  /** A process that leaves the queue is no longer RUNNING; another head stays the head. */
  lemma LeaverRunners(k: Kernel, pid: int, k1: Kernel)
    requires 0 <= pid < |k.procs| == |k1.procs| && k1.ready == WithoutPid(k.ready, pid)
    requires k1.procs[pid].state != RUNNING
    requires forall p :: 0 <= p < |k.procs| && p != pid ==>
               k1.procs[p].used == k.procs[p].used && k1.procs[p].state == k.procs[p].state
    ensures RunnersKept(k, k1, -1)
  {
    if k.ready != [] && Current(k) != pid {
      assert IndexOf(k.ready, pid) != 0;
      assert k1.ready[0] == k.ready[0];
    }
  }

  lemma QuitRunners(l: Limits, k: Kernel, born: seq<nat>, pid: int, status: int)
    requires Good(l, k, born) && Acting(k, pid) && pid != 0
    ensures InRange(k) && 0 <= k.procs[pid].parent < |k.procs| && RunnersKept(k, Quit(k, pid, status), -1)
  {
    var k2, parent := QuitStages(l, k, born, pid, status);
    QuitterLeaves(l, k, k2, pid, parent, status);
    LeaverRunners(k, pid, k2);
    NotifiedPlaced(l, k2, parent);
    NotifiedRunners(k, k2, parent);
    DispatchRunners(l, k, Notified(k2, parent), -1, false);
  }

  lemma QuitterLeaves(l: Limits, k: Kernel, k2: Kernel, pid: int, parent: int, status: int)
    requires Departed(l, k, k2, pid, parent, status) && InRange(k) && k.procs[pid].used
    requires k2 == HandedIn(Reparented(Stopped(k, pid, status), pid), pid, parent)
    ensures k2.ready == WithoutPid(k.ready, pid) && k2.procs[pid].state == QUIT
    ensures forall p :: 0 <= p < |k.procs| && p != pid ==>
              k2.procs[p].used == k.procs[p].used && k2.procs[p].state == k.procs[p].state
  {
  }

  lemma NotifiedRunners(k: Kernel, k1: Kernel, parent: int)
    requires RunnersKept(k, k1, -1) && 0 <= parent < |k1.procs|
    ensures RunnersKept(k, Notified(k1, parent), -1)
  {
  }

  lemma BlockRunners(l: Limits, k: Kernel, pid: int, sid: int)
    requires Placed(l, k) && Acting(k, pid) && ValidSem(k, sid)
    ensures InRange(k) && RunnersKept(k, TryP(k, pid, sid).0, -1)
  {
    ExactInRange(k);
    if k.sems[sid].value == 0 {
      BlockPlaced(l, k, pid, sid);
      LeaverRunners(k, pid, BlockedOn(k, pid, sid));
      DispatchRunners(l, k, BlockedOn(k, pid, sid), -1, false);
    }
  }

  lemma JoinRunners(l: Limits, k: Kernel, born: seq<nat>, pid: int)
    requires Good(l, k, born) && Acting(k, pid)
    ensures InRange(k) && RunnersKept(k, JoinWait(k, pid), -1)
  {
    JoinedGood(l, k, born, pid);
    var k1 := SetState(k, pid, JOINING, -1).0;
    if k.procs[pid].quitChildren == [] {
      LeaverRunners(k, pid, k1);
    }
    DispatchRunners(l, k, k1, -1, false);
  }

  lemma WokenRunners(l: Limits, k: Kernel, sid: int)
    requires Placed(l, k) && ValidSem(k, sid) && k.sems[sid].queue != []
    ensures InRange(k) && RunnersKept(k, Dispatch(Woken(k, sid), false), -1)
  {
    WokenPlaced(l, k, sid);
    assert RunnersKept(k, Woken(k, sid), -1);
    DispatchRunners(l, k, Woken(k, sid), -1, false);
  }

  lemma VRunners(l: Limits, k: Kernel, sid: int)
    requires Placed(l, k) && ValidSem(k, sid)
    ensures InRange(k) && RunnersKept(k, V(k, sid).0, -1)
  {
    ExactInRange(k);
    SameButSem(l, k, sid, k.sems[sid].(value := k.sems[sid].value + 1));
    if k.sems[sid].queue != [] {
      WokenRunners(l, Raised(k, sid), sid);
      RunnersTwice(k, Raised(k, sid), V(k, sid).0, -1);
    }
  }

  lemma ForkRunners(l: Limits, k: Kernel, born: seq<nat>, name: Option<string>, stack: int, priority: int, tag: int)
    requires Good(l, k, born) && !k.halted && (!k.first ==> k.ready != []) && InRange(k)
    requires (k.first ==> k.ready == []) && Fork(l, k, name, stack, priority, tag).1 == Reply.SUCCESS
    ensures var (k', _, j) := Fork(l, k, name, stack, priority, tag);
            RunnersKept(k, k', j)
  {
    var k1, j := ForkStages(l, k, born, name, stack, priority, tag);
    assert RunnersKept(k, k1, j);
    DispatchRunners(l, k, k1, j, false);
  }

  /** From processes to where they stand: nobody but the caller enters P1_P. */
  lemma OthersCarry(w: World, w': World, x: int)
    requires OthersOutside(w) && RunnersKept(w.k, w'.k, x) && |w'.pcs| == |w.pcs| == |w.k.procs|
    requires forall p :: 0 <= p < |w.pcs| && w'.pcs[p].InP? ==>
               p != x && (w.pcs[p].InP? || (w.k.ready != [] && p == Current(w.k)))
    ensures OthersOutside(w')
  {
  }

  lemma ForkOthers(l: Limits, w: World, name: Option<string>, stack: int, priority: int, tag: int)
    requires Enabled(l, w, DoFork(name, stack, priority, tag)) && OthersOutside(w)
    ensures OthersOutside(ForkStep(l, w, name, stack, priority, tag))
  {
    ForkGood(l, w.k, w.born, w.now, name, stack, priority, tag);
    if Fork(l, w.k, name, stack, priority, tag).1 == Reply.SUCCESS {
      ForkRunners(l, w.k, w.born, name, stack, priority, tag);
      OthersCarry(w, ForkStep(l, w, name, stack, priority, tag), Fork(l, w.k, name, stack, priority, tag).2);
    }
  }

  lemma QuitOthers(l: Limits, w: World, status: int)
    requires Enabled(l, w, DoQuit(status)) && OthersOutside(w)
    ensures QuitStep(l, w, status).k.halted || OthersOutside(QuitStep(l, w, status))
  {
    QuitStepParts(l, w, status);
    if GetPid(w.k) == 0 {
      RootQuitEndsAll(l, w.k, w.born, status);
    } else {
      QuitRunners(l, w.k, w.born, GetPid(w.k), status);
      OthersCarry(w, QuitStep(l, w, status), -1);
    }
  }

  lemma TryPOthers(l: Limits, w: World)
    requires Enabled(l, w, DoTryP) && OthersOutside(w)
    ensures OthersOutside(TryPStep(l, w))
  {
    ScanNamesCaller(w.k);
    BlockRunners(l, w.k, GetPid(w.k), w.pcs[Current(w.k)].sid);
    OthersCarry(w, TryPStep(l, w), -1);
  }

  lemma VOthers(l: Limits, w: World, sid: int)
    requires Enabled(l, w, DoV(sid)) && OthersOutside(w)
    ensures OthersOutside(VStep(l, w, sid))
  {
    if ValidSem(w.k, sid) {
      VRunners(l, w.k, sid);
      OthersCarry(w, VStep(l, w, sid), -1);
    }
  }

  lemma ReapOthers(l: Limits, w: World, tag: int)
    requires Enabled(l, w, DoReap(tag)) && OthersOutside(w)
    ensures OthersOutside(ReapStep(l, w, tag))
  {
    if GetChildStatus(w.k, tag).1 == Reply.SUCCESS {
      ReapFacts(l, w.k, w.born, tag);
    }
    assert RunnersKept(w.k, ReapStep(l, w, tag).k, -1);
    OthersCarry(w, ReapStep(l, w, tag), -1);
  }

  lemma JoinOthers(l: Limits, w: World, tag: int)
    requires Enabled(l, w, DoJoinWait(tag)) && OthersOutside(w)
    ensures OthersOutside(Step(l, w, DoJoinWait(tag)))
  {
    ScanNamesCaller(w.k);
    JoinRunners(l, w.k, w.born, GetPid(w.k));
    OthersCarry(w, Step(l, w, DoJoinWait(tag)), -1);
  }

  /** Every action keeps the others outside, or the machine halts. */
  lemma StepOthers(l: Limits, w: World, a: Action)
    requires Enabled(l, w, a) && OthersOutside(w)
    ensures Step(l, w, a).k.halted || OthersOutside(Step(l, w, a))
  {
    match a
    case DoFork(name, stack, priority, tag) => ForkOthers(l, w, name, stack, priority, tag);
    case DoQuit(status) => QuitOthers(l, w, status);
    case DoReap(tag) => ReapOthers(l, w, tag);
    case DoJoinWait(tag) => JoinOthers(l, w, tag);
    case DoEnterP(sid) =>
    case DoTryP => TryPOthers(l, w);
    case DoV(sid) => VOthers(l, w, sid);
    case DoTick(rotate) =>
      DispatchRunners(l, w.k, w.k, -1, rotate);
      OthersCarry(w, Step(l, w, a), -1);
    case DoSemCreate(name, value) =>
    case DoSemFree(sid) =>
  }

  // ---------------------------------------------------------------- waiting: what a P must find

  /** An action that leaves semaphores alone and takes nobody inside P1_P off the queue. */
  lemma WaitsFromParts(w: World, w': World, x: int)
    requires PcsAgree(w) && NoLostWakeup(w) && w'.k.sems == w.k.sems && |w'.pcs| == |w.pcs|
    requires forall p :: 0 <= p < |w.pcs| ==> w'.pcs[p] == w.pcs[p] || (!w.pcs[p].InP? && !w'.pcs[p].InP?)
    requires SteadyBut(w.k, w'.k, x)
    requires 0 <= x < |w.pcs| ==> !w.pcs[x].InP? && !(w'.k.procs[x].used && w'.k.procs[x].state == BLOCKED)
    ensures PcsAgree(w') && NoLostWakeup(w')
  {
    PcsCarry(w, w', x);
    forall s
      ensures WokenOn(w'.pcs, s) == WokenOn(w.pcs, s)
    {
    }
    NoLostCarry(w, w');
  }

  lemma ForkWaits(l: Limits, w: World, name: Option<string>, stack: int, priority: int, tag: int)
    requires Enabled(l, w, DoFork(name, stack, priority, tag)) && PcsAgree(w) && NoLostWakeup(w)
    ensures PcsAgree(ForkStep(l, w, name, stack, priority, tag))
    ensures NoLostWakeup(ForkStep(l, w, name, stack, priority, tag))
  {
    ForkGood(l, w.k, w.born, w.now, name, stack, priority, tag);
    if Fork(l, w.k, name, stack, priority, tag).1 == Reply.SUCCESS {
      ForkSteady(l, w.k, w.born, name, stack, priority, tag);
      WaitsFromParts(w, ForkStep(l, w, name, stack, priority, tag), Fork(l, w.k, name, stack, priority, tag).2);
    }
  }

  /** Whoever is taken for the caller is RUNNING and so outside P1_P. */
  lemma ScannedOutside(l: Limits, w: World, a: Action)
    requires Enabled(l, w, a) && OthersOutside(w) && (a.DoQuit? || a.DoJoinWait?)
    ensures 0 <= GetPid(w.k) < |w.pcs| && !w.pcs[GetPid(w.k)].InP? && Acting(w.k, GetPid(w.k))
  {
    ScanNamesCaller(w.k);
    var running := (b: PCB) => b.used && b.state == RUNNING;
    assert running(w.k.procs[GetPid(w.k)]);
  }

  lemma QuitWaits(l: Limits, w: World, status: int)
    requires Enabled(l, w, DoQuit(status)) && OthersOutside(w) && PcsAgree(w) && NoLostWakeup(w)
    ensures var w' := QuitStep(l, w, status);
            w'.k.halted || (PcsAgree(w') && NoLostWakeup(w'))
  {
    ScannedOutside(l, w, DoQuit(status));
    QuitStepParts(l, w, status);
    var who := GetPid(w.k);
    if who == 0 {
      RootQuitEndsAll(l, w.k, w.born, status);
    } else {
      QuitSteady(l, w.k, w.born, who, status);
      ScanNamesCaller(w.k);
      WaitsFromParts(w, QuitStep(l, w, status), who);
    }
  }

  lemma JoinWaits(l: Limits, w: World, tag: int)
    requires Enabled(l, w, DoJoinWait(tag)) && OthersOutside(w) && PcsAgree(w) && NoLostWakeup(w)
    ensures PcsAgree(Step(l, w, DoJoinWait(tag))) && NoLostWakeup(Step(l, w, DoJoinWait(tag)))
  {
    ScannedOutside(l, w, DoJoinWait(tag));
    JoinedGood(l, w.k, w.born, GetPid(w.k));
    JoinFacts(l, w.k, GetPid(w.k));
    WaitsFromParts(w, Step(l, w, DoJoinWait(tag)), GetPid(w.k));
  }

  lemma EnterPWaits(l: Limits, w: World, sid: int)
    requires Enabled(l, w, DoEnterP(sid)) && PcsAgree(w) && NoLostWakeup(w)
    ensures PcsAgree(Step(l, w, DoEnterP(sid))) && NoLostWakeup(Step(l, w, DoEnterP(sid)))
  {
    CurrentRuns(l, w.k);
    var w' := Step(l, w, DoEnterP(sid));
    if ValidSem(w.k, sid) {
      assert forall s :: WokenOn(w'.pcs, s) == WokenOn(w.pcs, s);
    }
    NoLostCarry(w, w');
  }

  /** Creating or freeing a semaphore nobody is using or waiting on. */
  lemma SemChangeWaits(w: World, w': World, sid: int)
    requires PcsAgree(w) && NoLostWakeup(w) && 0 <= sid < |w.k.sems| == |w'.k.sems|
    requires w' == w.(k := w'.k, logs := w'.logs) && w'.k == WithSem(w.k, sid, w'.k.sems[sid])
    requires w'.k.sems[sid].queue == []
    requires forall p :: 0 <= p < |w.pcs| && w.pcs[p].InP? ==> w.pcs[p].sid != sid
    ensures PcsAgree(w') && NoLostWakeup(w')
  {
    assert SteadyBut(w.k, w'.k, -1);
    PcsCarry(w, w', -1);
    NoLostCarry(w, w');
  }

  lemma SemActionWaits(l: Limits, w: World, a: Action)
    requires Enabled(l, w, a) && (a.DoSemCreate? || a.DoSemFree?) && PcsAgree(w) && NoLostWakeup(w)
    ensures PcsAgree(Step(l, w, a)) && NoLostWakeup(Step(l, w, a))
  {
    match a
    case DoSemCreate(name, value) =>
      var (_, reply, j) := SemCreate(l, w.k, name, value);
      if reply == Reply.SUCCESS {
        SemChangeWaits(w, Step(l, w, a), j);
      }
    case DoSemFree(sid) =>
      if SemFree(w.k, sid).1 == Reply.SUCCESS {
        SemChangeWaits(w, Step(l, w, a), sid);
      }
  }

  /** An action other than a turn of P, whatever the scan says, or one that meets the guard. */
  lemma PGuardedStepKeeps(l: Limits, w: World, a: Action)
    requires Enabled(l, w, a) && OthersOutside(w) && PcsAgree(w) && NoLostWakeup(w) && PGuard(l, w, a)
    ensures Step(l, w, a).k.halted || (PcsAgree(Step(l, w, a)) && NoLostWakeup(Step(l, w, a)))
  {
    match a
    case DoFork(name, stack, priority, tag) => ForkWaits(l, w, name, stack, priority, tag);
    case DoQuit(status) => QuitWaits(l, w, status);
    case DoReap(tag) =>
      ReapSteady(l, w.k, w.born, tag);
      WaitsFromParts(w, Step(l, w, a), -1);
    case DoJoinWait(tag) => JoinWaits(l, w, tag);
    case DoEnterP(sid) => EnterPWaits(l, w, sid);
    case DoTryP =>
      TryPPcs(l, w);
      TryPNoLost(l, w);
    case DoV(sid) =>
      if ValidSem(w.k, sid) {
        VPcs(l, w, sid);
        VNoLost(l, w, sid);
      }
    case DoTick(rotate) =>
      DispatchRecords(l, w.k, rotate);
      WaitsFromParts(w, Step(l, w, a), -1);
    case DoSemCreate(name, value) => SemActionWaits(l, w, a);
    case DoSemFree(sid) => SemActionWaits(l, w, a);
  }

  /** A turn of P blocks only a process inside P1_P if and only if it meets the guard; one
      that does not leaves the caller in the queue, so the machine runs on. */
  lemma TryPBlocksCallerIff(l: Limits, w: World)
    requires Enabled(l, w, DoTryP) && OthersOutside(w) && PcsAgree(w)
    ensures PcsAgree(TryPStep(l, w)) <==> PGuard(l, w, DoTryP)
    ensures !PGuard(l, w, DoTryP) ==> !TryPStep(l, w).k.halted
  {
    if PGuard(l, w, DoTryP) {
      TryPPcs(l, w);
    } else {
      ScanNamesCaller(w.k);
      var who, me, sid := GetPid(w.k), Current(w.k), w.pcs[Current(w.k)].sid;
      TryPFacts(l, w.k, who, sid);
      var running := (b: PCB) => b.used && b.state == RUNNING;
      assert running(w.k.procs[who]);
      assert IsWaiting(TryPStep(l, w).k, who, sid) && !TryPStep(l, w).pcs[who].InP?;
      BlockPlaced(l, w.k, who, sid);
      StillQueued(l, w.k, BlockedOn(w.k, who, sid), me);
    }
  }

  /** While a runnable process stays runnable, a dispatch does not halt the machine. */
  lemma StillQueued(l: Limits, k: Kernel, k1: Kernel, p: int)
    requires Placed(l, k1) && Acting(k1, p) && k1.halted == k.halted
    ensures InRange(k1) && Dispatch(k1, false).halted == k.halted
  {
    ExactInRange(k1);
  }

  // ---------------------------------------------------------------- waking: what a V must find

  /** A process inside P1_P is blocked or runnable, and runnable once it has been woken. */
  ghost predicate InsideRunnable(w: World) {
    forall p :: 0 <= p < |w.k.procs| && p < |w.pcs| && w.pcs[p].InP? ==>
      && w.k.procs[p].used
      && (Runnable(w.k.procs[p].state) || (w.k.procs[p].state == BLOCKED && !w.pcs[p].woken))
  }

  lemma InsideCarry(w: World, w': World, x: int)
    requires InsideRunnable(w) && SteadyBut(w.k, w'.k, x) && |w'.pcs| == |w.pcs| == |w.k.procs|
    requires forall p :: 0 <= p < |w.pcs| && p != x && w'.pcs[p].InP? ==> w'.pcs[p] == w.pcs[p]
    requires 0 <= x < |w.pcs| && w'.pcs[x].InP? ==>
               && w'.k.procs[x].used
               && (Runnable(w'.k.procs[x].state) || (w'.k.procs[x].state == BLOCKED && !w'.pcs[x].woken))
    ensures InsideRunnable(w')
  {
  }

  lemma TryPInside(l: Limits, w: World)
    requires Enabled(l, w, DoTryP) && OthersOutside(w) && InsideRunnable(w)
    ensures InsideRunnable(TryPStep(l, w))
  {
    ScanNamesCaller(w.k);
    var who, me := GetPid(w.k), Current(w.k);
    TryPFacts(l, w.k, who, w.pcs[me].sid);
    var running := (b: PCB) => b.used && b.state == RUNNING;
    assert running(w.k.procs[who]) && Acting(w.k, me);
  }

  lemma QuitInside(l: Limits, w: World, status: int)
    requires Enabled(l, w, DoQuit(status)) && OthersOutside(w) && InsideRunnable(w)
    ensures QuitStep(l, w, status).k.halted || InsideRunnable(QuitStep(l, w, status))
  {
    ScannedOutside(l, w, DoQuit(status));
    QuitStepParts(l, w, status);
    if GetPid(w.k) == 0 {
      RootQuitEndsAll(l, w.k, w.born, status);
    } else {
      QuitSteady(l, w.k, w.born, GetPid(w.k), status);
      InsideCarry(w, QuitStep(l, w, status), GetPid(w.k));
    }
  }

  lemma ForkInside(l: Limits, w: World, name: Option<string>, stack: int, priority: int, tag: int)
    requires Enabled(l, w, DoFork(name, stack, priority, tag)) && InsideRunnable(w)
    ensures InsideRunnable(ForkStep(l, w, name, stack, priority, tag))
  {
    ForkGood(l, w.k, w.born, w.now, name, stack, priority, tag);
    if Fork(l, w.k, name, stack, priority, tag).1 == Reply.SUCCESS {
      ForkSteady(l, w.k, w.born, name, stack, priority, tag);
      InsideCarry(w, ForkStep(l, w, name, stack, priority, tag), Fork(l, w.k, name, stack, priority, tag).2);
    }
  }

  lemma JoinInside(l: Limits, w: World, tag: int)
    requires Enabled(l, w, DoJoinWait(tag)) && OthersOutside(w) && InsideRunnable(w)
    ensures InsideRunnable(Step(l, w, DoJoinWait(tag)))
  {
    ScannedOutside(l, w, DoJoinWait(tag));
    JoinedGood(l, w.k, w.born, GetPid(w.k));
    JoinFacts(l, w.k, GetPid(w.k));
    InsideCarry(w, Step(l, w, DoJoinWait(tag)), GetPid(w.k));
  }

  lemma VInside(l: Limits, w: World, sid: int)
    requires Enabled(l, w, DoV(sid)) && InsideRunnable(w)
    ensures InsideRunnable(VStep(l, w, sid))
  {
    if ValidSem(w.k, sid) {
      VFacts(l, w.k, sid);
      var q := w.k.sems[sid].queue;
      InsideCarry(w, VStep(l, w, sid), if q == [] then -1 else q[0]);
    }
  }

  lemma StepInside(l: Limits, w: World, a: Action)
    requires Enabled(l, w, a) && OthersOutside(w) && InsideRunnable(w)
    ensures Step(l, w, a).k.halted || InsideRunnable(Step(l, w, a))
  {
    match a
    case DoFork(name, stack, priority, tag) => ForkInside(l, w, name, stack, priority, tag);
    case DoQuit(status) => QuitInside(l, w, status);
    case DoReap(tag) =>
      ReapSteady(l, w.k, w.born, tag);
      InsideCarry(w, Step(l, w, a), -1);
    case DoJoinWait(tag) => JoinInside(l, w, tag);
    case DoEnterP(sid) =>
      CurrentRuns(l, w.k);
    case DoTryP => TryPInside(l, w);
    case DoV(sid) => VInside(l, w, sid);
    case DoTick(rotate) =>
      DispatchRecords(l, w.k, rotate);
      InsideCarry(w, Step(l, w, a), -1);
    case DoSemCreate(name, value) =>
    case DoSemFree(sid) =>
  }

  /** An action that leaves semaphores alone and changes no one's place inside P1_P. */
  lemma NoLostFromParts(w: World, w': World)
    requires NoLostWakeup(w) && w'.k.sems == w.k.sems && |w'.pcs| == |w.pcs|
    requires forall p :: 0 <= p < |w.pcs| ==> w'.pcs[p] == w.pcs[p] || (!w.pcs[p].InP? && !w'.pcs[p].InP?)
    ensures NoLostWakeup(w')
  {
    forall s
      ensures WokenOn(w'.pcs, s) == WokenOn(w.pcs, s)
    {
    }
    NoLostCarry(w, w');
  }

  lemma ForkNoLost(l: Limits, w: World, name: Option<string>, stack: int, priority: int, tag: int)
    requires Enabled(l, w, DoFork(name, stack, priority, tag)) && InsideRunnable(w) && NoLostWakeup(w)
    ensures NoLostWakeup(ForkStep(l, w, name, stack, priority, tag))
  {
    ForkGood(l, w.k, w.born, w.now, name, stack, priority, tag);
    if Fork(l, w.k, name, stack, priority, tag).1 == Reply.SUCCESS {
      ForkSteady(l, w.k, w.born, name, stack, priority, tag);
      NoLostFromParts(w, ForkStep(l, w, name, stack, priority, tag));
    }
  }

  lemma QuitNoLost(l: Limits, w: World, status: int)
    requires Enabled(l, w, DoQuit(status)) && NoLostWakeup(w)
    ensures QuitStep(l, w, status).k.halted || NoLostWakeup(QuitStep(l, w, status))
  {
    QuitStepParts(l, w, status);
    if GetPid(w.k) == 0 {
      RootQuitEndsAll(l, w.k, w.born, status);
    } else {
      ScanNamesCaller(w.k);
      QuitSteady(l, w.k, w.born, GetPid(w.k), status);
      NoLostFromParts(w, QuitStep(l, w, status));
    }
  }

  /** Actions other than V's lose no wakeup, whomever the scan names. */
  lemma OtherStepLosesNone(l: Limits, w: World, a: Action)
    requires Enabled(l, w, a) && InsideRunnable(w) && NoLostWakeup(w) && !a.DoV?
    ensures Step(l, w, a).k.halted || NoLostWakeup(Step(l, w, a))
  {
    match a
    case DoFork(name, stack, priority, tag) => ForkNoLost(l, w, name, stack, priority, tag);
    case DoQuit(status) => QuitNoLost(l, w, status);
    case DoReap(tag) =>
      ReapSteady(l, w.k, w.born, tag);
      NoLostFromParts(w, Step(l, w, a));
    case DoJoinWait(tag) =>
      ScanNamesCaller(w.k);
      JoinedGood(l, w.k, w.born, GetPid(w.k));
      JoinFacts(l, w.k, GetPid(w.k));
      NoLostFromParts(w, Step(l, w, a));
    case DoEnterP(sid) =>
      assert forall s :: WokenOn(Step(l, w, a).pcs, s) == WokenOn(w.pcs, s);
      NoLostCarry(w, Step(l, w, a));
    case DoTryP => TryPNoLost(l, w);
    case DoTick(rotate) =>
      DispatchRecords(l, w.k, rotate);
      NoLostFromParts(w, Step(l, w, a));
    case DoSemCreate(name, value) => NoLostCarry(w, Step(l, w, a));
    case DoSemFree(sid) => NoLostCarry(w, Step(l, w, a));
  }

  /** A V loses no wakeup if and only if it meets its guard; it never halts the machine. */
  lemma VLosesNoneIff(l: Limits, w: World, sid: int)
    requires Enabled(l, w, DoV(sid)) && NoLostWakeup(w)
    ensures !VStep(l, w, sid).k.halted
    ensures NoLostWakeup(VStep(l, w, sid)) <==> VGuard(l, w, DoV(sid))
  {
    if ValidSem(w.k, sid) {
      VFacts(l, w.k, sid);
      VRunsOn(l, w.k, sid);
      VWoken(l, w, sid);
      var w', q := VStep(l, w, sid), w.k.sems[sid].queue;
      assert forall s :: 0 <= s < |w.k.sems| && s != sid ==> w'.k.sems[s] == w.k.sems[s];
      assert NoLostWakeup(w') <==> (|q| <= 1 || w'.k.sems[sid].value <= |WokenOn(w'.pcs, sid)|);
    }
  }

  /** Whom a V adds to those woken. */
  lemma VWoken(l: Limits, w: World, sid: int)
    requires Enabled(l, w, DoV(sid)) && ValidSem(w.k, sid)
    ensures var w', q := VStep(l, w, sid), w.k.sems[sid].queue;
            forall s :: |WokenOn(w'.pcs, s)| == |WokenOn(w.pcs, s)|
              + (if s == sid && q != [] && 0 <= q[0] < |w.pcs| && w.pcs[q[0]] == InP(sid, false) then 1 else 0)
  {
    var q := w.k.sems[sid].queue;
    if q != [] && 0 <= q[0] < |w.pcs| && w.pcs[q[0]] == InP(sid, false) {
      forall s
        ensures |WokenOn(VStep(l, w, sid).pcs, s)| == |WokenOn(w.pcs, s)| + if s == sid then 1 else 0
      {
        WokenChange(w.pcs, q[0], InP(sid, true), s);
      }
    }
  }

  lemma VRunsOn(l: Limits, k: Kernel, sid: int)
    requires Placed(l, k) && ValidSem(k, sid) && !k.halted
    ensures InRange(k) && !V(k, sid).0.halted
  {
    ExactInRange(k);
    if k.sems[sid].queue != [] {
      SameButSem(l, k, sid, k.sems[sid].(value := k.sems[sid].value + 1));
      WokenPlaced(l, Raised(k, sid), sid);
      StillQueued(l, k, Woken(Raised(k, sid), sid), k.sems[sid].queue[0]);
    }
  }

  // ---------------------------------------------------------------- quitting: what a quit must find

  /** An action other than a quit, whatever the scan says. */
  lemma OtherStepOrdered(l: Limits, w: World, a: Action)
    requires Enabled(l, w, a) && ReapedInOrder(w) && !a.DoQuit?
    ensures ReapedInOrder(Step(l, w, a))
  {
    match a
    case DoFork(name, stack, priority, tag) =>
      ForkGood(l, w.k, w.born, w.now, name, stack, priority, tag);
      if Fork(l, w.k, name, stack, priority, tag).1 == Reply.SUCCESS {
        ForkRecords(l, w, name, stack, priority, tag);
      }
    case DoReap(tag) => ReapInOrder(l, w, tag);
    case DoJoinWait(tag) =>
      ScanNamesCaller(w.k);
      JoinedGood(l, w.k, w.born, GetPid(w.k));
      JoinFacts(l, w.k, GetPid(w.k));
      RecordsCarry(w, Step(l, w, a));
    case DoEnterP(sid) => RecordsCarry(w, Step(l, w, a));
    case DoTryP => TryPOrdered(l, w);
    case DoV(sid) =>
      if ValidSem(w.k, sid) {
        VReports(l, w.k, sid);
        RecordsCarry(w, Step(l, w, a));
      }
    case DoTick(rotate) =>
      DispatchRecords(l, w.k, rotate);
      RecordsCarry(w, Step(l, w, a));
    case DoSemCreate(name, value) => RecordsCarry(w, Step(l, w, a));
    case DoSemFree(sid) => RecordsCarry(w, Step(l, w, a));
  }

  lemma TryPOrdered(l: Limits, w: World)
    requires Enabled(l, w, DoTryP) && ReapedInOrder(w)
    ensures ReapedInOrder(TryPStep(l, w))
  {
    ScanNamesCaller(w.k);
    TryPReports(l, w.k, GetPid(w.k), w.pcs[Current(w.k)].sid);
    RecordsCarry(w, TryPStep(l, w));
  }

  /** Reports and quit lists no longer agree once another process is filed as having quit:
      its parent has a record to learn that nobody reported. */
  lemma WrongQuitDisagrees(l: Limits, w: World, status: int)
    requires Enabled(l, w, DoQuit(status)) && ReapedInOrder(w) && GetPid(w.k) != Current(w.k) && GetPid(w.k) != 0
    ensures !ReapedInOrder(QuitStep(l, w, status))
  {
    ScanNamesCaller(w.k);
    QuitStepParts(l, w, status);
    var who, me, w' := GetPid(w.k), Current(w.k), QuitStep(l, w, status);
    var q := w.k.procs[who].parent;
    FiledUnreported(l, w.k, w.born, who, status);
    Unreported(w.quits[q], w.reaps[q], Pending(w.k, w.k.procs[q].quitChildren),
               QuitRecord(who, w.k.procs[who].tag, status), QuitRecord(me, w.k.procs[me].tag, status));
  }

  /** The parent of a process that quits lives on and has its record pending. */
  lemma FiledUnreported(l: Limits, k: Kernel, born: seq<nat>, who: int, status: int)
    requires Good(l, k, born) && Acting(k, who) && who != 0
    ensures InRange(k) && 0 <= k.procs[who].parent < |k.procs|
    ensures var k', q := Quit(k, who, status), k.procs[who].parent;
            && |k'.procs| == |k.procs| && Live(k, q) && Live(k', q)
            && Pending(k', k'.procs[q].quitChildren)
               == Pending(k, k.procs[q].quitChildren) + [QuitRecord(who, k.procs[who].tag, status)]
  {
    QuitterFacts(l, k, born, who);
    QuitReports(l, k, born, who, status);
    QuitPending(k, Quit(k, who, status), who, k.procs[who].parent, status, k.procs[who].parent);
  }

  lemma Unreported(quits: seq<QuitRecord>, reaps: seq<QuitRecord>, pending: seq<QuitRecord>, r: QuitRecord,
                   mine: QuitRecord)
    requires WithTag(quits, r.tag) == WithTag(reaps, r.tag) + WithTag(pending, r.tag) && r != mine
    ensures WithTag(quits, r.tag) != WithTag(reaps, r.tag) + WithTag(pending + [r], r.tag)
    ensures WithTag(quits + [mine], r.tag) != WithTag(reaps, r.tag) + WithTag(pending + [r], r.tag)
  {
    WithTagConcat(pending, [r], r.tag);
    WithTagOne(r, r.tag);
    WithTagConcat(quits, [mine], r.tag);
    WithTagOne(mine, r.tag);
    var before, after := WithTag(quits, r.tag), WithTag(reaps, r.tag) + (WithTag(pending, r.tag) + [r]);
    assert |after| == |before| + 1 && after[|before|] == r && (before + [mine])[|before|] == mine;
  }

  /** A quit after which the machine runs on keeps reports and quit lists in agreement if
      and only if the scan names its caller. */
  lemma QuitOrderedIff(l: Limits, w: World, status: int)
    requires Enabled(l, w, DoQuit(status)) && ReapedInOrder(w) && !QuitStep(l, w, status).k.halted
    ensures ReapedInOrder(QuitStep(l, w, status)) <==> NoneRunsBelow(w.k)
  {
    ScanNamesCaller(w.k);
    QuitStepParts(l, w, status);
    if GetPid(w.k) == 0 {
      RootQuitEndsAll(l, w.k, w.born, status);
    } else if NoneRunsBelow(w.k) {
      QuitRecords(l, w, status);
    } else {
      WrongQuitDisagrees(l, w, status);
    }
  }

  /** A quit that takes process 0 halts the machine; one that takes another in the caller's
      place does not. */
  lemma QuitHaltsWhen(l: Limits, w: World, status: int)
    requires Enabled(l, w, DoQuit(status))
    ensures GetPid(w.k) == 0 ==> QuitStep(l, w, status).k.halted
    ensures !NoneRunsBelow(w.k) && GetPid(w.k) != 0 ==> !QuitStep(l, w, status).k.halted
  {
    ScanNamesCaller(w.k);
    QuitStepParts(l, w, status);
    if GetPid(w.k) == 0 {
      RootQuitEndsAll(l, w.k, w.born, status);
    } else if !NoneRunsBelow(w.k) {
      OtherQuitRunsOn(l, w.k, w.born, GetPid(w.k), Current(w.k), status);
    }
  }

  lemma OtherQuitRunsOn(l: Limits, k: Kernel, born: seq<nat>, who: int, me: int, status: int)
    requires Good(l, k, born) && !k.halted && Acting(k, who) && Acting(k, me) && who != 0 && who != me
    ensures InRange(k) && 0 <= k.procs[who].parent < |k.procs| && !Quit(k, who, status).halted
  {
    var k2, parent := QuitStages(l, k, born, who, status);
    NotifiedPlaced(l, k2, parent);
    StillQueued(l, k, Notified(k2, parent), me);
  }

  // ---------------------------------------------------------------- runs

  /** The state after P1SemInit: no processes, no semaphores. */
  ghost predicate Started(l: Limits, w: World) {
    && Shape(l, w.k) && Sized(l, w) && |w.born| == l.maxProc
    && w.k.first && !w.k.halted && w.k.ready == []
    && (forall p :: 0 <= p < l.maxProc ==>
          && !w.k.procs[p].used && w.k.procs[p].state == FREE && !w.k.contexts[p]
          && w.pcs[p].Outside? && w.born[p] < w.now)
    && (forall s :: 0 <= s < l.maxSem ==> !w.k.sems[s].used && w.k.sems[s].queue == [])
  }

  lemma StartedInv(l: Limits, w: World)
    requires Started(l, w)
    ensures Sound(l, w) && OthersOutside(w) && InsideRunnable(w)
    ensures PcsAgree(w) && NoLostWakeup(w) && ReapedInOrder(w)
  {
  }

  /** The world after a sequence of actions, if each was enabled in turn. */
  ghost function Run(l: Limits, w: World, actions: seq<Action>): Option<World> {
    if actions == [] then Some(w)
    else
      match Run(l, w, actions[..|actions| - 1])
      case None => None
      case Some(w1) =>
        var a := actions[|actions| - 1];
        if Enabled(l, w1, a) then Some(Step(l, w1, a)) else None
  }

  /** Every P of the run that blocked found the scan right. */
  ghost predicate PsGuarded(l: Limits, w: World, actions: seq<Action>)
    requires Run(l, w, actions).Some?
  {
    actions == [] ||
    (PsGuarded(l, w, actions[..|actions| - 1]) &&
     PGuard(l, Run(l, w, actions[..|actions| - 1]).value, actions[|actions| - 1]))
  }

  /** Every V of the run that left processes waiting woke one that had called P1_P, or found
      more woken than there were units. */
  ghost predicate VsGuarded(l: Limits, w: World, actions: seq<Action>)
    requires Run(l, w, actions).Some?
  {
    actions == [] ||
    (VsGuarded(l, w, actions[..|actions| - 1]) &&
     VGuard(l, Run(l, w, actions[..|actions| - 1]).value, actions[|actions| - 1]))
  }

  /** Every quit of the run found the scan right, or halted the machine. */
  ghost predicate QuitsGuarded(l: Limits, w: World, actions: seq<Action>)
    requires Run(l, w, actions).Some?
  {
    actions == [] ||
    (QuitsGuarded(l, w, actions[..|actions| - 1]) &&
     QuitGuard(l, Run(l, w, actions[..|actions| - 1]).value, actions[|actions| - 1]))
  }

  /** Every run is sound, until the machine halts. */
  lemma {:induction false} RunKeeps(l: Limits, w: World, actions: seq<Action>)
    requires Started(l, w) && Run(l, w, actions).Some?
    ensures Run(l, w, actions).value.k.halted || Sound(l, Run(l, w, actions).value)
  {
    StartedInv(l, w);
    if actions != [] {
      var before := actions[..|actions| - 1];
      RunKeeps(l, w, before);
      StepKeeps(l, Run(l, w, before).value, actions[|actions| - 1]);
    }
  }

  /** In every run only the caller is both RUNNING and inside P1_P, and whoever has been
      woken inside P1_P is runnable. */
  lemma {:induction false} RunOthers(l: Limits, w: World, actions: seq<Action>)
    requires Started(l, w) && Run(l, w, actions).Some?
    ensures var w' := Run(l, w, actions).value;
            w'.k.halted || (OthersOutside(w') && InsideRunnable(w'))
  {
    StartedInv(l, w);
    if actions != [] {
      var before, a := actions[..|actions| - 1], actions[|actions| - 1];
      RunOthers(l, w, before);
      StepOthers(l, Run(l, w, before).value, a);
      StepInside(l, Run(l, w, before).value, a);
    }
  }

  /** A run whose P's meet their guard: those blocked are inside P1_P, and no wakeup is lost. */
  lemma {:induction false} PGuardedRunKeeps(l: Limits, w: World, actions: seq<Action>)
    requires Started(l, w) && Run(l, w, actions).Some? && PsGuarded(l, w, actions)
    ensures var w' := Run(l, w, actions).value;
            w'.k.halted || (PcsAgree(w') && NoLostWakeup(w'))
  {
    StartedInv(l, w);
    if actions != [] {
      var before := actions[..|actions| - 1];
      PGuardedRunKeeps(l, w, before);
      RunOthers(l, w, before);
      PGuardedStepKeeps(l, Run(l, w, before).value, actions[|actions| - 1]);
    }
  }

  /** A run whose quits meet their guard: reports and quit lists agree. */
  lemma {:induction false} QuitGuardedRunKeeps(l: Limits, w: World, actions: seq<Action>)
    requires Started(l, w) && Run(l, w, actions).Some? && QuitsGuarded(l, w, actions)
    ensures Run(l, w, actions).value.k.halted || ReapedInOrder(Run(l, w, actions).value)
  {
    StartedInv(l, w);
    if actions != [] {
      var before, a := actions[..|actions| - 1], actions[|actions| - 1];
      QuitGuardedRunKeeps(l, w, before);
      QuitGuardedStep(l, Run(l, w, before).value, a);
    }
  }

  lemma QuitGuardedStep(l: Limits, w: World, a: Action)
    requires Enabled(l, w, a) && ReapedInOrder(w)
    ensures Step(l, w, a).k.halted || ReapedInOrder(Step(l, w, a)) <==> QuitGuard(l, w, a)
  {
    if a.DoQuit? {
      QuitHaltsWhen(l, w, a.status);
      if !QuitStep(l, w, a.status).k.halted {
        QuitOrderedIff(l, w, a.status);
      }
    } else {
      OtherStepOrdered(l, w, a);
    }
  }

  // ---------------------------------------------------------------- both conditions are exact

  /** At every moment of the run before the machine halts, a process that is blocked is
      inside P1_P on that semaphore, and one inside P1_P is alive and blocked or runnable. */
  ghost predicate PcsAgreeThroughout(l: Limits, w: World, actions: seq<Action>)
    requires Run(l, w, actions).Some?
  {
    && (Run(l, w, actions).value.k.halted || PcsAgree(Run(l, w, actions).value))
    && (actions == [] || PcsAgreeThroughout(l, w, actions[..|actions| - 1]))
  }

  /** At every moment of the run before the machine halts, what is left of the reports made
      to a live parent is what is on its quit list. */
  ghost predicate OrderedThroughout(l: Limits, w: World, actions: seq<Action>)
    requires Run(l, w, actions).Some?
  {
    && (Run(l, w, actions).value.k.halted || ReapedInOrder(Run(l, w, actions).value))
    && (actions == [] || OrderedThroughout(l, w, actions[..|actions| - 1]))
  }

  /** A run blocks none but callers of P1_P if and only if its P's meet their guard. */
  lemma {:induction false} PsGuardedIff(l: Limits, w: World, actions: seq<Action>)
    requires Started(l, w) && Run(l, w, actions).Some?
    ensures PcsAgreeThroughout(l, w, actions) <==> PsGuarded(l, w, actions)
  {
    StartedInv(l, w);
    if actions != [] {
      var before, a := actions[..|actions| - 1], actions[|actions| - 1];
      PsGuardedIff(l, w, before);
      if PsGuarded(l, w, before) {
        PGuardedRunKeeps(l, w, before);
        RunOthers(l, w, before);
        var w1 := Run(l, w, before).value;
        if a.DoTryP? {
          TryPBlocksCallerIff(l, w1);
        } else {
          PGuardedStepKeeps(l, w1, a);
        }
      }
    }
  }

  /** A run keeps reports and quit lists in agreement if and only if its quits meet their
      guard. */
  lemma {:induction false} QuitsGuardedIff(l: Limits, w: World, actions: seq<Action>)
    requires Started(l, w) && Run(l, w, actions).Some?
    ensures OrderedThroughout(l, w, actions) <==> QuitsGuarded(l, w, actions)
  {
    StartedInv(l, w);
    if actions != [] {
      var before, a := actions[..|actions| - 1], actions[|actions| - 1];
      QuitsGuardedIff(l, w, before);
      if QuitsGuarded(l, w, before) {
        QuitGuardedRunKeeps(l, w, before);
        QuitGuardedStep(l, Run(l, w, before).value, a);
      }
    }
  }

  /** At every moment of the run before the machine halts no wakeup is lost. */
  ghost predicate NoneLostThroughout(l: Limits, w: World, actions: seq<Action>)
    requires Run(l, w, actions).Some?
  {
    && (Run(l, w, actions).value.k.halted || NoLostWakeup(Run(l, w, actions).value))
    && (actions == [] || NoneLostThroughout(l, w, actions[..|actions| - 1]))
  }

  /** A run loses no wakeup if and only if its V's meet their guard. */
  lemma {:induction false} VsGuardedIff(l: Limits, w: World, actions: seq<Action>)
    requires Started(l, w) && Run(l, w, actions).Some?
    ensures NoneLostThroughout(l, w, actions) <==> VsGuarded(l, w, actions)
  {
    StartedInv(l, w);
    if actions != [] {
      var before, a := actions[..|actions| - 1], actions[|actions| - 1];
      VsGuardedIff(l, w, before);
      if NoneLostThroughout(l, w, before) {
        RunOthers(l, w, before);
        WakeupStepIff(l, Run(l, w, before).value, a);
      }
    }
  }

  lemma WakeupStepIff(l: Limits, w: World, a: Action)
    requires Enabled(l, w, a) && InsideRunnable(w) && NoLostWakeup(w)
    ensures Step(l, w, a).k.halted || NoLostWakeup(Step(l, w, a)) <==> VGuard(l, w, a)
  {
    if a.DoV? {
      VLosesNoneIff(l, w, a.sid);
    } else {
      OtherStepLosesNone(l, w, a);
    }
  }

  /** P's that find the scan right are enough: then V's wake callers of P1_P only. */
  lemma {:induction false} PsGuardedSuffices(l: Limits, w: World, actions: seq<Action>)
    requires Started(l, w) && Run(l, w, actions).Some? && PsGuarded(l, w, actions)
    ensures NoneLostThroughout(l, w, actions) && VsGuarded(l, w, actions)
  {
    PGuardedRunKeeps(l, w, actions);
    if actions != [] {
      PsGuardedSuffices(l, w, actions[..|actions| - 1]);
    }
    VsGuardedIff(l, w, actions);
  }

  /** No lost wakeup: in every run whose V's meet their guard, a semaphore that has a unit
      and a waiter also has a process on its way to that unit, woken by V, ready to run, at
      the top of P1_P. When nobody is on the way, waiters mean the value is zero. */
  lemma NoWakeupIsLost(l: Limits, w: World, actions: seq<Action>, w': World, s: int)
    requires Started(l, w) && Run(l, w, actions) == Some(w') && VsGuarded(l, w, actions)
    ensures !w'.k.halted && ValidSem(w'.k, s) && w'.k.sems[s].queue != [] ==>
              && w'.k.sems[s].value <= |WokenOn(w'.pcs, s)|
              && (w'.k.sems[s].value > 0 ==>
                    exists p :: 0 <= p < |w'.pcs| && w'.pcs[p] == InP(s, true) && HasPid(w'.k.ready, p))
  {
    RunKeeps(l, w, actions);
    RunOthers(l, w, actions);
    VsGuardedIff(l, w, actions);
    if !w'.k.halted && ValidSem(w'.k, s) && w'.k.sems[s].queue != [] && w'.k.sems[s].value > 0 {
      assert |WokenOn(w'.pcs, s)| > 0;
      var p :| p in WokenOn(w'.pcs, s);
      ExactInRange(w'.k);
    }
  }

  // ---------------------------------------------------------------- one place for every process

  /** Where a process is: its state says in which queue, and it is in no other. */
  ghost predicate InItsPlace(k: Kernel, p: int)
    requires 0 <= p < |k.procs|
  {
    var b := k.procs[p];
    && (HasPid(k.ready, p) <==> b.used && Runnable(b.state))
    && (forall s :: 0 <= s < |k.sems| ==> (p in k.sems[s].queue <==> b.used && b.state == BLOCKED && b.sid == s))
    && (b.used && b.state == BLOCKED ==> ValidSem(k, b.sid))
  }

  /** In every run each process is in exactly one place, no queue lists anyone twice, and
      process slot and context slot are one. */
  lemma EveryProcessInItsPlace(l: Limits, w: World, actions: seq<Action>, w': World, p: int)
    requires Started(l, w) && Run(l, w, actions) == Some(w')
    ensures !w'.k.halted && 0 <= p < l.maxProc ==>
            var k := w'.k;
            && |k.procs| == |k.contexts| == l.maxProc
            && InItsPlace(k, p)
            && DistinctPids(k.ready) && (forall s :: 0 <= s < |k.sems| ==> Distinct(k.sems[s].queue))
            && k.procs[p].used == k.contexts[p] && (k.procs[p].used ==> k.procs[p].cid == p)
  {
    RunKeeps(l, w, actions);
    var k := w'.k;
    if !k.halted && 0 <= p < l.maxProc {
      ExactInRange(k);
      forall s | 0 <= s < |k.sems|
        ensures p in k.sems[s].queue <==> k.procs[p].used && k.procs[p].state == BLOCKED && k.procs[p].sid == s
      {
        assert p in k.sems[s].queue <==> IsWaiting(k, p, s);
      }
    }
  }

  // ---------------------------------------------------------------- the process tree

  function Ancestor(k: Kernel, p: int, n: nat): int {
    if n == 0 then p
    else
      var q := Ancestor(k, p, n - 1);
      if 0 <= q < |k.procs| then k.procs[q].parent else -1
  }

  lemma {:induction false} AncestorOfParent(k: Kernel, p: int, n: nat)
    requires 0 <= p < |k.procs|
    ensures Ancestor(k, p, n + 1) == Ancestor(k, k.procs[p].parent, n)
  {
    if n > 0 {
      AncestorOfParent(k, p, n - 1);
    }
  }

  /** Following parent links from a live process meets only live processes and ends at
      process 0 after n steps. */
  lemma {:induction false} ChainToRoot(k: Kernel, born: seq<nat>, p: int) returns (n: nat)
    requires |born| == |k.procs| && TreeSound(k, born) && Live(k, p)
    ensures Ancestor(k, p, n) == 0 && forall i :: 0 <= i <= n ==> Live(k, Ancestor(k, p, i))
    decreases born[p]
  {
    assert HasParent(k, born, p);
    if p == 0 {
      n := 0;
    } else {
      var m := ChainToRoot(k, born, k.procs[p].parent);
      n := m + 1;
      forall i | 0 <= i <= n
        ensures Live(k, Ancestor(k, p, i))
      {
        if i > 0 {
          AncestorOfParent(k, p, i - 1);
        }
      }
      AncestorOfParent(k, p, m);
    }
  }

  /** In every run each live process but process 0 is in exactly one live process's list
      of children, its parent's, once, and its parent chain ends at process 0. */
  lemma TreeInEveryRun(l: Limits, w: World, actions: seq<Action>, w': World, p: int)
    requires Started(l, w) && Run(l, w, actions) == Some(w')
    ensures !w'.k.halted && Live(w'.k, p) && p != 0 ==>
            var k := w'.k;
            && Live(k, k.procs[p].parent)
            && (forall q :: Live(k, q) ==> (p in k.procs[q].children <==> q == k.procs[p].parent))
            && Distinct(k.procs[k.procs[p].parent].children)
            && exists n: nat :: Ancestor(k, p, n) == 0 && forall i :: 0 <= i <= n ==> Live(k, Ancestor(k, p, i))
  {
    RunKeeps(l, w, actions);
    if !w'.k.halted && Live(w'.k, p) && p != 0 {
      assert HasParent(w'.k, w'.born, p);
      forall q | Live(w'.k, q)
        ensures Distinct(w'.k.procs[q].children)
        ensures p in w'.k.procs[q].children <==> q == w'.k.procs[p].parent
      {
        assert ChildrenSound(w'.k, q);
        assert p in w'.k.procs[q].children ==> IsChildOf(w'.k, p, q);
      }
      var n := ChainToRoot(w'.k, w'.born, p);
    }
  }

  /** The fixed-size child arrays never overflow: distinct pids, one of them missing. */
  lemma ChildrenFit(l: Limits, k: Kernel, born: seq<nat>, q: int)
    requires Good(l, k, born) && Live(k, q)
    ensures |k.procs[q].children| < l.maxProc && |k.procs[q].quitChildren| < l.maxProc
  {
    var children, quits := k.procs[q].children, k.procs[q].quitChildren;
    assert ChildrenSound(k, q) && QuitListSound(k, q);
    forall c | c in children
      ensures 0 < c < l.maxProc
    {
      assert IsChildOf(k, c, q);
    }
    Pigeonhole(children, l.maxProc);
    assert 0 !in children;
    forall c | c in quits
      ensures 0 <= c < l.maxProc && c != q
    {
      assert IsZombieOf(k, c, q);
    }
    Pigeonhole(quits, l.maxProc);
    assert q !in quits;
  }

  // ---------------------------------------------------------------- joining

  /** In every run a joining process has no quit child left to reap. */
  lemma JoinersHaveReaped(l: Limits, w: World, actions: seq<Action>, w': World, p: int)
    requires Started(l, w) && Run(l, w, actions) == Some(w')
    ensures !w'.k.halted && 0 <= p < |w'.k.procs| && w'.k.procs[p].used && w'.k.procs[p].state == JOINING ==>
              w'.k.procs[p].quitChildren == []
  {
    RunKeeps(l, w, actions);
  }

  /** In every run whose quits find the scan right, what a live parent has learned of its
      quit children, for each tag, is a beginning of what they reported, in quit order and
      with the statuses they passed; and a joining process has learned all of it. */
  lemma ReapedInQuitOrder(l: Limits, w: World, actions: seq<Action>, w': World, q: int, tag: int)
    requires Started(l, w) && Run(l, w, actions) == Some(w') && QuitsGuarded(l, w, actions)
    ensures !w'.k.halted && Live(w'.k, q) ==>
            && |w'.quits| == |w'.reaps| == |w'.k.procs|
            && WithTag(w'.reaps[q], tag) <= WithTag(w'.quits[q], tag)
            && (w'.k.procs[q].state == JOINING ==> WithTag(w'.reaps[q], tag) == WithTag(w'.quits[q], tag))
  {
    JoinersHaveReaped(l, w, actions, w', q);
    QuitGuardedRunKeeps(l, w, actions);
    if !w'.k.halted && Live(w'.k, q) {
      var pending := WithTag(Pending(w'.k, w'.k.procs[q].quitChildren), tag);
      assert WithTag(w'.quits[q], tag) == WithTag(w'.reaps[q], tag) + pending;
      assert w'.k.procs[q].quitChildren == [] ==> pending == [];
    }
  }

  // ---------------------------------------------------------------- semaphores as locks

  /** Units held: what is missing from the initial value is in somebody's hands. */
  ghost predicate UnitsHeld(w: World, s: int) {
    && |w.logs| == |w.k.sems|
    && (ValidSem(w.k, s) ==> w.k.sems[s].value + |w.logs[s].holders| == w.logs[s].initial)
  }

  /** Every V on s was done by a process holding a unit of s. */
  ghost predicate Disciplined(l: Limits, w: World, actions: seq<Action>, s: int) {
    actions == [] ||
    var before := actions[..|actions| - 1];
    && Disciplined(l, w, before, s)
    && (actions[|actions| - 1] == DoV(s) && Run(l, w, before).Some? ==>
          var w1 := Run(l, w, before).value;
          w1.k.ready != [] && 0 <= s < |w1.logs| && Current(w1.k) in w1.logs[s].holders)
  }

  /** Only semaphore actions touch semaphores. */
  lemma SemsUntouched(l: Limits, w: World, a: Action)
    requires Enabled(l, w, a)
    requires !a.DoTryP? && !a.DoV? && !a.DoSemCreate? && !a.DoSemFree?
    ensures Step(l, w, a).k.sems == w.k.sems && Step(l, w, a).logs == w.logs
  {
    match a
    case DoFork(name, stack, priority, tag) =>
      if Fork(l, w.k, name, stack, priority, tag).1 == Reply.SUCCESS {
        ForkSteady(l, w.k, w.born, name, stack, priority, tag);
      }
    case DoQuit(status) =>
      ScanNamesCaller(w.k);
      if GetPid(w.k) == 0 {
        RootQuitEndsAll(l, w.k, w.born, status);
      } else {
        QuitSteady(l, w.k, w.born, GetPid(w.k), status);
      }
    case DoReap(tag) => ReapSteady(l, w.k, w.born, tag);
    case DoJoinWait(tag) =>
      ScanNamesCaller(w.k);
      JoinedGood(l, w.k, w.born, GetPid(w.k));
      JoinFacts(l, w.k, GetPid(w.k));
    case DoEnterP(sid) =>
    case DoTick(rotate) =>
  }

  lemma VUnitsHeld(l: Limits, w: World, sid: int, s: int)
    requires Enabled(l, w, DoV(sid)) && UnitsHeld(w, s)
    requires sid == s && ValidSem(w.k, s) ==> w.k.ready != [] && Current(w.k) in w.logs[s].holders
    ensures UnitsHeld(VStep(l, w, sid), s)
  {
    if ValidSem(w.k, sid) {
      VFacts(l, w.k, sid);
    }
  }

  lemma TryPUnitsHeld(l: Limits, w: World, s: int)
    requires Enabled(l, w, DoTryP) && UnitsHeld(w, s)
    ensures UnitsHeld(TryPStep(l, w), s)
  {
    ScanNamesCaller(w.k);
    TryPFacts(l, w.k, GetPid(w.k), w.pcs[Current(w.k)].sid);
  }

  lemma StepUnitsHeld(l: Limits, w: World, a: Action, s: int)
    requires Enabled(l, w, a) && UnitsHeld(w, s)
    requires a == DoV(s) && ValidSem(w.k, s) ==> w.k.ready != [] && Current(w.k) in w.logs[s].holders
    ensures UnitsHeld(Step(l, w, a), s)
  {
    match a
    case DoTryP => TryPUnitsHeld(l, w, s);
    case DoV(sid) => VUnitsHeld(l, w, sid, s);
    case DoSemCreate(name, value) =>
    case DoSemFree(sid) =>
    case _ => SemsUntouched(l, w, a);
  }

  lemma {:induction false} RunUnitsHeld(l: Limits, w: World, actions: seq<Action>, s: int)
    requires Started(l, w) && Run(l, w, actions).Some? && Disciplined(l, w, actions, s)
    ensures UnitsHeld(Run(l, w, actions).value, s)
  {
    if actions != [] {
      var before := actions[..|actions| - 1];
      RunUnitsHeld(l, w, before, s);
      StepUnitsHeld(l, Run(l, w, before).value, actions[|actions| - 1], s);
    }
  }

  /** Mutual exclusion: a semaphore created with value 1 and released only by its holders
      has at most one holder, in every interleaving; when it has one its value is 0. */
  lemma MutualExclusion(l: Limits, w: World, actions: seq<Action>, w': World, s: int)
    requires Started(l, w) && Run(l, w, actions) == Some(w') && Disciplined(l, w, actions, s)
    ensures ValidSem(w'.k, s) ==>
            && |w'.logs| == |w'.k.sems|
            && (w'.logs[s].initial == 1 ==>
                  |w'.logs[s].holders| <= 1 && (w'.logs[s].holders != multiset{} ==> w'.k.sems[s].value == 0))
  {
    RunUnitsHeld(l, w, actions, s);
  }

  /** Conservation, in every run and whoever does the V's. */
  lemma ValueIsConserved(l: Limits, w: World, actions: seq<Action>, w': World, s: int)
    requires Started(l, w) && Run(l, w, actions) == Some(w')
    ensures !w'.k.halted && ValidSem(w'.k, s) ==>
              |w'.logs| == |w'.k.sems| && w'.k.sems[s].value == w'.logs[s].initial + w'.logs[s].vs - w'.logs[s].ps
  {
    RunKeeps(l, w, actions);
  }
}

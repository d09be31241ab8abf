/** Two runs in which P1_GetPid names another process than the caller, because forks have
    left a process marked RUNNING in a lower slot: a lost wakeup, and a quit that takes the
    wrong process. Process 0 forks 1, which forks 2 and 3 and blocks; 3 is then dispatched
    while 2, which has never run, is still marked RUNNING. */
module WrongScan {
  import opened Common
  import opened ReadyQueue
  import opened Kernel
  import KernelSteps
  import opened KernelRuns

  const LIMITS := Limits(4, 2, 8, 0)

  // ---------------------------------------------------------------- extending a run

  /** One more action at the end of a run. */
  lemma Extended(w: World, actions: seq<Action>, w1: World, a: Action) returns (w2: World)
    requires Started(LIMITS, w) && Run(LIMITS, w, actions) == Some(w1) && !w1.k.halted && Allowed(w1, a)
    ensures Enabled(LIMITS, w1, a) && w2 == Step(LIMITS, w1, a) && Run(LIMITS, w, actions + [a]) == Some(w2)
  {
    RunKeeps(LIMITS, w, actions);
    KernelSteps.ExactInRange(w1.k);
    assert (actions + [a])[..|actions + [a]| - 1] == actions;
    w2 := Step(LIMITS, w1, a);
  }

  // ---------------------------------------------------------------- the states on the way

  const UNUSED := PCB(false, 0, "", 0, FREE, -1, [], [], -1, 0, 0)

  function Root(state: State, children: seq<int>): PCB {
    PCB(true, 0, "a", 6, state, -1, children, [], -1, 0, 0)
  }

  function Parent(state: State, children: seq<int>, quits: seq<int>, sid: int): PCB {
    PCB(true, 1, "b", 1, state, 0, children, quits, sid, 0, 0)
  }

  function Elder(state: State, sid: int, status: int): PCB {
    PCB(true, 2, "c", 5, state, 1, [], [], sid, 0, status)
  }

  function Younger(state: State, sid: int): PCB {
    PCB(true, 3, "d", 4, state, 1, [], [], sid, 0, 0)
  }

  function Sems(value: nat, queue: seq<int>, value': nat, queue': seq<int>): seq<Sem> {
    [Sem(true, "s", value, queue), Sem(true, "t", value', queue')]
  }

  function Empty(): Kernel {
    Kernel([UNUSED, UNUSED, UNUSED, UNUSED], [false, false, false, false], [],
           [Sem(false, "", 0, []), Sem(false, "", 0, [])], true, false)
  }

  function Alone(sems: seq<Sem>): Kernel {
    Kernel([Root(RUNNING, []), UNUSED, UNUSED, UNUSED], [true, false, false, false], [Node(0, 6)], sems, false, false)
  }

  function Two(): Kernel {
    Kernel([Root(READY, [1]), Parent(RUNNING, [], [], -1), UNUSED, UNUSED], [true, true, false, false],
           [Node(1, 1), Node(0, 6)], Sems(0, [], 0, []), false, false)
  }

  function Three(): Kernel {
    Kernel([Root(READY, [1]), Parent(RUNNING, [2], [], -1), Elder(RUNNING, -1, 0), UNUSED], [true, true, true, false],
           [Node(1, 1), Node(0, 6), Node(2, 5)], Sems(0, [], 0, []), false, false)
  }

  function Full(root: PCB, parent: PCB, elder: PCB, younger: PCB, ready: seq<Node>, sems: seq<Sem>): Kernel {
    Kernel([root, parent, elder, younger], [true, true, true, true], ready, sems, false, false)
  }

  function Four(): Kernel {
    Full(Root(READY, [1]), Parent(RUNNING, [2, 3], [], -1), Elder(RUNNING, -1, 0), Younger(RUNNING, -1),
         [Node(1, 1), Node(0, 6), Node(2, 5), Node(3, 4)], Sems(0, [], 0, []))
  }

  /** Process 3 is the caller, the scan names process 2. */
  function Wrong(): Kernel {
    Full(Root(READY, [1]), Parent(BLOCKED, [2, 3], [], 1), Elder(RUNNING, -1, 0), Younger(RUNNING, -1),
         [Node(3, 4), Node(2, 5), Node(0, 6)], Sems(0, [], 0, [1]))
  }

  // ---------------------------------------------------------------- one operation at a time

  /** Slot j entered, and on its parent's list of children if it has one. */
  function Adopting(k: Kernel, name: string, priority: int, j: int): Kernel
    requires 0 <= j < |k.procs| == |k.contexts| && InRange(k) && (k.first || k.ready != [])
  {
    var born := PCB(true, j, name, priority, RUNNING, if k.first then -1 else Current(k), [], [], -1, 0,
                    k.procs[j].status);
    var procs := k.procs[j := born];
    k.(procs := if k.first then procs
                else procs[Current(k) := procs[Current(k)].(children := procs[Current(k)].children + [j])],
       contexts := k.contexts[j := true], ready := k.ready + [Node(j, priority)], first := false)
  }

  /** A fork with nothing to refuse. */
  lemma ForkInto(k: Kernel, name: string, priority: int, j: int)
    requires |k.procs| == |k.contexts| == 4 && |k.sems| == 2 && 0 <= j < 4 && InRange(k)
    requires k.first ==> k.ready == [] && priority == 6
    requires !k.first ==> k.ready != [] && 1 <= priority < 6 && Current(k) != j
    requires |name| <= 8 && forall p :: 0 <= p < 4 && k.procs[p].used ==> k.procs[p].name != name
    requires !k.procs[j].used && !k.contexts[j] && forall p :: 0 <= p < j ==> k.procs[p].used && k.contexts[p]
    requires |k.ready| < 4 && !HasPid(k.ready, j)
    ensures var k1 := Adopting(k, name, priority, j);
            && InRange(k1) && k1.ready != []
            && Fork(LIMITS, k, Some(name), 0, priority, 0)
               == (if k.first || priority < k1.procs[Current(k1)].priority then Dispatch(k1, false) else k1,
                   Reply.SUCCESS, j)
  {
    var unused, free := (b: PCB) => !b.used, (u: bool) => !u;
    assert unused(k.procs[j]) && free(k.contexts[j]);
    assert FirstUnusedProc(k) == j;
    assert FirstUnusedContext(k.contexts) == j;
    assert ForkReply(LIMITS, k, Some(name), 0, priority, 0) == Reply.SUCCESS;
  }

  /** States are the same if their tables are, entry by entry. */
  lemma SameState(k: Kernel, k': Kernel)
    requires k.first == k'.first && k.halted == k'.halted && |k.procs| == |k'.procs| && |k.contexts| == |k'.contexts|
    requires forall p :: 0 <= p < |k.procs| ==> k.procs[p] == k'.procs[p]
    requires forall p :: 0 <= p < |k.contexts| ==> k.contexts[p] == k'.contexts[p]
    requires k.ready == k'.ready && k.sems == k'.sems
    ensures k == k'
  {
  }

  lemma DispatchTwo(a: Node, b: Node)
    ensures Dispatched([a, b], false) == if b.priority < a.priority then [b, a] else [a, b]
  {
    assert BestOther([a, b], 2) == 1;
  }

  /** Three in the queue, the last one the best. */
  lemma DispatchThree(a: Node, b: Node, c: Node)
    requires c.priority < b.priority && c.priority < a.priority
    ensures Dispatched([a, b, c], false) == [c, b, a]
  {
    assert BestOther([a, b, c], 2) == 1;
    assert BestOther([a, b, c], 3) == 2;
  }

  lemma ForkRoot()
    ensures Fork(LIMITS, Empty(), Some("a"), 0, 6, 0) == (Alone(Empty().sems), Reply.SUCCESS, 0)
  {
    ForkInto(Empty(), "a", 6, 0);
    SameState(Fork(LIMITS, Empty(), Some("a"), 0, 6, 0).0, Alone(Empty().sems));
  }

  /** Process 1 entered and listed, nobody dispatched yet. */
  function ParentEntered(): Kernel {
    Kernel([Root(RUNNING, [1]), Parent(RUNNING, [], [], -1), UNUSED, UNUSED], [true, true, false, false],
           [Node(0, 6), Node(1, 1)], Sems(0, [], 0, []), false, false)
  }

  lemma ParentDispatched()
    ensures InRange(ParentEntered()) && Dispatch(ParentEntered(), false) == Two()
  {
    DispatchTwo(Node(0, 6), Node(1, 1));
    SameState(Dispatch(ParentEntered(), false), Two());
  }

  lemma ParentAdopted()
    ensures InRange(Alone(Sems(0, [], 0, []))) && Adopting(Alone(Sems(0, [], 0, [])), "b", 1, 1) == ParentEntered()
  {
    assert [] + [1] == [1] && [Node(0, 6)] + [Node(1, 1)] == [Node(0, 6), Node(1, 1)];
    SameState(Adopting(Alone(Sems(0, [], 0, [])), "b", 1, 1), ParentEntered());
  }

  lemma ForkParent()
    ensures Fork(LIMITS, Alone(Sems(0, [], 0, [])), Some("b"), 0, 1, 0) == (Two(), Reply.SUCCESS, 1)
  {
    assert "a"[0] != "b"[0];
    ForkInto(Alone(Sems(0, [], 0, [])), "b", 1, 1);
    ParentAdopted();
    ParentDispatched();
  }

  lemma ForkElder()
    ensures Fork(LIMITS, Two(), Some("c"), 0, 5, 0) == (Three(), Reply.SUCCESS, 2)
  {
    assert "a"[0] != "c"[0] && "b"[0] != "c"[0];
    ForkInto(Two(), "c", 5, 2);
    SameState(Fork(LIMITS, Two(), Some("c"), 0, 5, 0).0, Three());
  }

  lemma ForkYounger()
    ensures Fork(LIMITS, Three(), Some("d"), 0, 4, 0) == (Four(), Reply.SUCCESS, 3)
  {
    assert "a"[0] != "d"[0] && "b"[0] != "d"[0] && "c"[0] != "d"[0];
    ForkInto(Three(), "d", 4, 3);
    SameState(Fork(LIMITS, Three(), Some("d"), 0, 4, 0).0, Four());
  }

  lemma CreateInto(k: Kernel, name: string, j: int)
    requires |k.sems| == 2 && 0 <= j < 2 && |name| <= 8
    requires forall s :: 0 <= s < 2 && k.sems[s].used ==> k.sems[s].name != name
    requires !k.sems[j].used && forall s :: 0 <= s < j ==> k.sems[s].used
    ensures SemCreate(LIMITS, k, Some(name), 0) == (WithSem(k, j, Sem(true, name, 0, [])), Reply.SUCCESS, j)
  {
    var unused := (s: Sem) => !s.used;
    assert unused(k.sems[j]);
  }

  /** Process pid, the i-th in the ready queue, off it and on the semaphore's. */
  function Blocking(k: Kernel, pid: int, sid: int, i: nat): Kernel
    requires 0 <= pid < |k.procs| && 0 <= sid < |k.sems| && i < |k.ready|
  {
    k.(procs := k.procs[pid := k.procs[pid].(state := BLOCKED, sid := sid)],
       ready := k.ready[..i] + k.ready[i + 1..],
       sems := k.sems[sid := k.sems[sid].(queue := k.sems[sid].queue + [pid])])
  }

  lemma BlockInto(k: Kernel, pid: int, sid: int, i: nat)
    requires InRange(k) && 0 <= pid < |k.procs| && k.procs[pid].used && 0 <= sid < |k.sems| && k.sems[sid].value == 0
    requires i < |k.ready| && k.ready[i].pid == pid && forall j :: 0 <= j < i ==> k.ready[j].pid != pid
    ensures InRange(Blocking(k, pid, sid, i)) && TryP(k, pid, sid) == (Dispatch(Blocking(k, pid, sid, i), false), false)
  {
    assert HasPid(k.ready, pid);
    assert IndexOf(k.ready, pid) == i;
    assert BlockedOn(k, pid, sid) == Blocking(k, pid, sid, i);
  }

  lemma ScanIs(k: Kernel, pid: nat)
    requires pid < |k.procs| && k.procs[pid].used && k.procs[pid].state == RUNNING
    requires forall p :: 0 <= p < pid ==> !(k.procs[p].used && k.procs[p].state == RUNNING)
    ensures GetPid(k) == pid
  {
    var running := (b: PCB) => b.used && b.state == RUNNING;
    assert running(k.procs[pid]) && forall p :: 0 <= p < pid ==> !running(k.procs[p]);
  }

  /** Process 1 off the queue, nobody dispatched yet. */
  function ParentOff(): Kernel {
    Full(Root(READY, [1]), Parent(BLOCKED, [2, 3], [], 1), Elder(RUNNING, -1, 0), Younger(RUNNING, -1),
         [Node(0, 6), Node(2, 5), Node(3, 4)], Sems(0, [], 0, [1]))
  }

  lemma ParentLeaves()
    ensures Blocking(Four(), 1, 1, 0) == ParentOff()
  {
    assert Blocking(Four(), 1, 1, 0).ready == ParentOff().ready && [] + [1] == [1];
    SameState(Blocking(Four(), 1, 1, 0), ParentOff());
  }

  lemma YoungerDispatched()
    ensures InRange(ParentOff()) && Dispatch(ParentOff(), false) == Wrong()
  {
    DispatchThree(Node(0, 6), Node(2, 5), Node(3, 4));
    SameState(Dispatch(ParentOff(), false), Wrong());
  }

  lemma BlockParent()
    ensures GetPid(Four()) == 1 && InRange(Four()) && TryP(Four(), 1, 1) == (Wrong(), false)
  {
    ScanIs(Four(), 1);
    BlockInto(Four(), 1, 1, 0);
    ParentLeaves();
    YoungerDispatched();
  }

  /** In the wrong state the first turn of 3's P1_P(0) blocks 2. */
  function ElderBlocked(): Kernel {
    Full(Root(READY, [1]), Parent(BLOCKED, [2, 3], [], 1), Elder(BLOCKED, 0, 0), Younger(RUNNING, -1),
         [Node(3, 4), Node(0, 6)], Sems(0, [2], 0, [1]))
  }

  /** The second turn blocks 3 itself. */
  function BothBlocked(): Kernel {
    Full(Root(RUNNING, [1]), Parent(BLOCKED, [2, 3], [], 1), Elder(BLOCKED, 0, 0), Younger(BLOCKED, 0),
         [Node(0, 6)], Sems(0, [2, 3], 0, [1]))
  }

  /** A V on semaphore 0 by process 0 wakes 2. */
  function ElderWoken(): Kernel {
    Full(Root(READY, [1]), Parent(BLOCKED, [2, 3], [], 1), Elder(RUNNING, 0, 0), Younger(BLOCKED, 0),
         [Node(2, 5), Node(0, 6)], Sems(1, [3], 0, [1]))
  }

  /** Process 3 off the queue, nobody dispatched yet. */
  function YoungerOff(): Kernel {
    Full(Root(READY, [1]), Parent(BLOCKED, [2, 3], [], 1), Elder(BLOCKED, 0, 0), Younger(BLOCKED, 0),
         [Node(0, 6)], Sems(0, [2, 3], 0, [1]))
  }

  lemma ElderLeaves()
    ensures Blocking(Wrong(), 2, 0, 1) == ElderBlocked()
  {
    assert Blocking(Wrong(), 2, 0, 1).ready == ElderBlocked().ready && [] + [2] == [2];
    SameState(Blocking(Wrong(), 2, 0, 1), ElderBlocked());
  }

  lemma ElderGone()
    ensures InRange(ElderBlocked()) && Dispatch(ElderBlocked(), false) == ElderBlocked()
  {
    DispatchTwo(Node(3, 4), Node(0, 6));
    SameState(Dispatch(ElderBlocked(), false), ElderBlocked());
  }

  lemma BlockElder()
    ensures GetPid(Wrong()) == 2 && InRange(Wrong()) && TryP(Wrong(), 2, 0) == (ElderBlocked(), false)
  {
    ScanIs(Wrong(), 2);
    BlockInto(Wrong(), 2, 0, 1);
    ElderLeaves();
    ElderGone();
  }

  lemma YoungerLeaves()
    ensures Blocking(ElderBlocked(), 3, 0, 0) == YoungerOff()
  {
    assert Blocking(ElderBlocked(), 3, 0, 0).ready == YoungerOff().ready && [2] + [3] == [2, 3];
    SameState(Blocking(ElderBlocked(), 3, 0, 0), YoungerOff());
  }

  lemma RootDispatched()
    ensures InRange(YoungerOff()) && Dispatch(YoungerOff(), false) == BothBlocked()
  {
    SameState(Dispatch(YoungerOff(), false), BothBlocked());
  }

  lemma BlockYounger()
    ensures GetPid(ElderBlocked()) == 3 && InRange(ElderBlocked())
    ensures TryP(ElderBlocked(), 3, 0) == (BothBlocked(), false)
  {
    ScanIs(ElderBlocked(), 3);
    BlockInto(ElderBlocked(), 3, 0, 0);
    YoungerLeaves();
    RootDispatched();
  }

  lemma WakeElder()
    ensures InRange(BothBlocked()) && V(BothBlocked(), 0) == (ElderWoken(), Reply.SUCCESS)
  {
    var k1 := Raised(BothBlocked(), 0);
    var k2 := Woken(k1, 0);
    assert k2.ready == [Node(0, 6), Node(2, 5)];
    DispatchTwo(Node(0, 6), Node(2, 5));
    SameState(Dispatch(k2, false), ElderWoken());
  }

  // ---------------------------------------------------------------- the run to the wrong state

  const NO_RECORDS: seq<seq<QuitRecord>> := [[], [], [], []]
  const OUT := [Outside, Outside, Outside, Outside]
  const PARENT_WAITS := [Outside, InP(1, false), Outside, Outside]
  const YOUNGER_WAITS := [Outside, InP(1, false), Outside, InP(0, false)]

  /** The world after start-up. */
  ghost function Start(): World {
    var log := SemLog(0, 0, 0, multiset{});
    World(Empty(), [0, 0, 0, 0], 1, [Outside, Outside, Outside, Outside], [log, log], NO_RECORDS, NO_RECORDS)
  }

  lemma StartIsStarted()
    ensures Started(LIMITS, Start())
  {
  }

  /** A run has led to w1, with kernel k, processes standing as in pcs, these quits
      reported, and no child reaped. */
  ghost predicate AtQuits(actions: seq<Action>, w1: World, k: Kernel, pcs: seq<Pc>, quits: seq<seq<QuitRecord>>) {
    && Run(LIMITS, Start(), actions) == Some(w1)
    && w1.k == k && w1.pcs == pcs && w1.quits == quits && w1.reaps == NO_RECORDS
  }

  ghost predicate At(actions: seq<Action>, w1: World, k: Kernel, pcs: seq<Pc>) {
    AtQuits(actions, w1, k, pcs, NO_RECORDS)
  }

  lemma NextFork(actions: seq<Action>, w1: World, pcs: seq<Pc>, name: string, priority: int, j: int, k': Kernel)
    returns (w2: World)
    requires At(actions, w1, w1.k, pcs) && !w1.k.halted && |w1.k.procs| == 4 == |w1.k.contexts| && |w1.k.sems| == 2
    requires |pcs| == 4
    requires w1.k.first || (w1.k.ready != [] && 0 <= Current(w1.k) < 4 && pcs[Current(w1.k)].Outside?)
    requires InRange(w1.k) && (w1.k.first ==> w1.k.ready == [])
    requires 0 <= j < 4 && Fork(LIMITS, w1.k, Some(name), 0, priority, 0) == (k', Reply.SUCCESS, j)
    ensures At(actions + [DoFork(Some(name), 0, priority, 0)], w2, k', pcs[j := Outside])
  {
    StartIsStarted();
    w2 := Extended(Start(), actions, w1, DoFork(Some(name), 0, priority, 0));
    assert NO_RECORDS[j := []] == NO_RECORDS;
  }

  lemma NextCreate(actions: seq<Action>, w1: World, k: Kernel, pcs: seq<Pc>, name: string, j: int) returns (w2: World)
    requires At(actions, w1, k, pcs) && !k.halted && !k.first && |k.procs| == |pcs| == 4 && |k.sems| == 2
    requires k.ready != [] && 0 <= Current(k) < 4 && pcs[Current(k)].Outside? && 0 <= j < 2
    requires SemCreate(LIMITS, k, Some(name), 0) == (WithSem(k, j, Sem(true, name, 0, [])), Reply.SUCCESS, j)
    ensures At(actions + [DoSemCreate(Some(name), 0)], w2, WithSem(k, j, Sem(true, name, 0, [])), pcs)
  {
    StartIsStarted();
    w2 := Extended(Start(), actions, w1, DoSemCreate(Some(name), 0));
  }

  /** The caller enters P1_P and fails its first turn. */
  lemma NextBlock(actions: seq<Action>, w1: World, k: Kernel, pcs: seq<Pc>, sid: int, k': Kernel) returns (w2: World)
    requires At(actions, w1, k, pcs) && !k.halted && !k.first && |k.procs| == |pcs| == 4 && ValidSem(k, sid)
    requires InRange(k)
    requires k.ready != [] && 0 <= Current(k) < 4 && pcs[Current(k)].Outside?
    requires TryP(k, GetPid(k), sid) == (k', false)
    ensures At(actions + [DoEnterP(sid)] + [DoTryP], w2, k', pcs[Current(k) := InP(sid, false)])
  {
    StartIsStarted();
    var inside := Extended(Start(), actions, w1, DoEnterP(sid));
    w2 := NextTurn(actions + [DoEnterP(sid)], inside, k, pcs[Current(k) := InP(sid, false)], sid, k');
    assert pcs[Current(k) := InP(sid, false)][Current(k) := InP(sid, false)] == pcs[Current(k) := InP(sid, false)];
  }

  /** Another turn that fails. */
  lemma NextTurn(actions: seq<Action>, w1: World, k: Kernel, pcs: seq<Pc>, sid: int, k': Kernel) returns (w2: World)
    requires At(actions, w1, k, pcs) && !k.halted && !k.first && |k.procs| == |pcs| == 4 && ValidSem(k, sid)
    requires InRange(k)
    requires k.ready != [] && 0 <= Current(k) < 4 && pcs[Current(k)] == InP(sid, false)
    requires TryP(k, GetPid(k), sid) == (k', false)
    ensures At(actions + [DoTryP], w2, k', pcs)
  {
    StartIsStarted();
    w2 := Extended(Start(), actions, w1, DoTryP);
    assert pcs[Current(k) := InP(sid, false)] == pcs;
  }

  /** A fork while everybody is outside P1_P. */
  lemma ForkAll(actions: seq<Action>, w1: World, k: Kernel, name: string, priority: int, j: int, k': Kernel)
    returns (w2: World)
    requires At(actions, w1, k, OUT) && !k.halted && |k.procs| == 4 == |k.contexts| && |k.sems| == 2
    requires InRange(k) && (if k.first then k.ready == [] else k.ready != [] && 0 <= Current(k) < 4)
    requires 0 <= j < 4 && Fork(LIMITS, k, Some(name), 0, priority, 0) == (k', Reply.SUCCESS, j)
    ensures At(actions + [DoFork(Some(name), 0, priority, 0)], w2, k', OUT)
  {
    w2 := NextFork(actions, w1, OUT, name, priority, j, k');
    assert OUT[j := Outside] == OUT;
  }

  lemma ToTwo() returns (actions: seq<Action>, w1: World)
    ensures At(actions, w1, Two(), OUT)
  {
    ForkRoot();
    w1 := ForkAll([], Start(), Empty(), "a", 6, 0, Alone(Empty().sems));
    actions, w1 := WithSems([] + [DoFork(Some("a"), 0, 6, 0)], w1);
    ForkParent();
    w1 := ForkAll(actions, w1, Alone(Sems(0, [], 0, [])), "b", 1, 1, Two());
    actions := actions + [DoFork(Some("b"), 0, 1, 0)];
  }

  lemma ToFour() returns (actions: seq<Action>, w1: World)
    ensures At(actions, w1, Four(), OUT)
  {
    actions, w1 := ToTwo();
    ForkElder();
    w1 := ForkAll(actions, w1, Two(), "c", 5, 2, Three());
    actions := actions + [DoFork(Some("c"), 0, 5, 0)];
    ForkYounger();
    w1 := ForkAll(actions, w1, Three(), "d", 4, 3, Four());
    actions := actions + [DoFork(Some("d"), 0, 4, 0)];
  }

  lemma WithSems(actions: seq<Action>, w1: World) returns (actions': seq<Action>, w2: World)
    requires At(actions, w1, Alone(Empty().sems), OUT)
    ensures At(actions', w2, Alone(Sems(0, [], 0, [])), OUT)
  {
    var k := Alone(Empty().sems);
    CreateInto(k, "s", 0);
    w2 := NextCreate(actions, w1, k, OUT, "s", 0);
    var k1 := WithSem(k, 0, Sem(true, "s", 0, []));
    assert "s"[0] != "t"[0];
    CreateInto(k1, "t", 1);
    w2 := NextCreate(actions + [DoSemCreate(Some("s"), 0)], w2, k1, OUT, "t", 1);
    actions' := actions + [DoSemCreate(Some("s"), 0)] + [DoSemCreate(Some("t"), 0)];
    assert k1.sems[1 := Sem(true, "t", 0, [])] == Sems(0, [], 0, []);
  }

  /** The wrong state is reached by a run. */
  lemma ToWrong() returns (actions: seq<Action>, w1: World)
    ensures At(actions, w1, Wrong(), PARENT_WAITS)
  {
    actions, w1 := ToFour();
    BlockParent();
    w1 := NextBlock(actions, w1, Four(), OUT, 1, Wrong());
    actions := actions + [DoEnterP(1)] + [DoTryP];
    assert OUT[1 := InP(1, false)] == PARENT_WAITS;
  }

  /** The scan goes wrong in a run: process 3 is the caller, the scan names 2. */
  lemma ScanCanBeWrong() returns (w: World, actions: seq<Action>, w': World)
    ensures Started(LIMITS, w) && Run(LIMITS, w, actions) == Some(w') && !w'.k.halted && HeadRuns(w'.k)
    ensures Current(w'.k) == 3 && GetPid(w'.k) == 2
  {
    w := Start();
    StartIsStarted();
    actions, w' := ToWrong();
    ScanIs(Wrong(), 2);
  }

  // ---------------------------------------------------------------- a wakeup is lost

  lemma ToElderBlocked() returns (actions: seq<Action>, w1: World)
    ensures At(actions, w1, ElderBlocked(), YOUNGER_WAITS)
  {
    actions, w1 := ToWrong();
    BlockElder();
    w1 := NextBlock(actions, w1, Wrong(), PARENT_WAITS, 0, ElderBlocked());
    actions := actions + [DoEnterP(0)] + [DoTryP];
    assert PARENT_WAITS[3 := InP(0, false)] == YOUNGER_WAITS;
  }

  lemma ToBothBlocked() returns (actions: seq<Action>, w1: World)
    ensures At(actions, w1, BothBlocked(), YOUNGER_WAITS)
  {
    actions, w1 := ToElderBlocked();
    BlockYounger();
    w1 := NextTurn(actions, w1, ElderBlocked(), YOUNGER_WAITS, 0, BothBlocked());
    actions := actions + [DoTryP];
  }

  /** A V wakes the first waiter, and says so if the waiter is inside P1_P for it. */
  lemma NextV(actions: seq<Action>, w1: World, k: Kernel, pcs: seq<Pc>, quits: seq<seq<QuitRecord>>, sid: int,
              k': Kernel)
    returns (w2: World)
    requires AtQuits(actions, w1, k, pcs, quits) && !k.halted && !k.first && |k.procs| == |pcs| == 4 && ValidSem(k, sid)
    requires InRange(k) && k.ready != [] && 0 <= Current(k) < 4 && V(k, sid) == (k', Reply.SUCCESS)
    requires k.sems[sid].queue != [] && 0 <= k.sems[sid].queue[0] < 4
    ensures var p := k.sems[sid].queue[0];
            AtQuits(actions + [DoV(sid)], w2, k', if pcs[p] == InP(sid, false) then pcs[p := InP(sid, true)] else pcs,
                    quits)
  {
    StartIsStarted();
    w2 := Extended(Start(), actions, w1, DoV(sid));
  }

  lemma ToElderWoken() returns (actions: seq<Action>, w1: World)
    ensures At(actions, w1, ElderWoken(), YOUNGER_WAITS)
  {
    actions, w1 := ToBothBlocked();
    WakeElder();
    w1 := NextV(actions, w1, BothBlocked(), YOUNGER_WAITS, NO_RECORDS, 0, ElderWoken());
    actions := actions + [DoV(0)];
  }

  lemma NobodyWoken()
    ensures WokenOn(YOUNGER_WAITS, 0) == {}
  {
    assert forall p :: 0 <= p < 4 ==> YOUNGER_WAITS[p] != InP(0, true);
  }

  /** A run whose V's are guarded has no unit without somebody on the way to it. */
  lemma WakeupLost(actions: seq<Action>, w1: World)
    requires Run(LIMITS, Start(), actions) == Some(w1) && !w1.k.halted && ValidSem(w1.k, 0)
    requires w1.k.sems[0].value > 0 && w1.k.sems[0].queue != [] && WokenOn(w1.pcs, 0) == {}
    ensures !VsGuarded(LIMITS, Start(), actions) && !PsGuarded(LIMITS, Start(), actions)
  {
    StartIsStarted();
    if PsGuarded(LIMITS, Start(), actions) {
      PsGuardedSuffices(LIMITS, Start(), actions);
    }
    if VsGuarded(LIMITS, Start(), actions) {
      NoWakeupIsLost(LIMITS, Start(), actions, w1, 0);
    }
  }

  /** From the wrong state 3 calls P1_P on semaphore 0, whose value is 0. The source blocks
      2 and then 3; process 0 does a V, which wakes 2. Now the semaphore has a unit and a
      waiter, and no process inside P1_P has been woken. */
  lemma WakeupCanBeLost() returns (w: World, actions: seq<Action>, w': World)
    ensures Started(LIMITS, w) && Run(LIMITS, w, actions) == Some(w') && !w'.k.halted
    ensures ValidSem(w'.k, 0) && w'.k.sems[0].value == 1 && w'.k.sems[0].queue == [3]
    ensures WokenOn(w'.pcs, 0) == {} && !VsGuarded(LIMITS, w, actions) && !PsGuarded(LIMITS, w, actions)
  {
    w := Start();
    StartIsStarted();
    actions, w' := ToElderWoken();
    NobodyWoken();
    WakeupLost(actions, w');
  }

  // ---------------------------------------------------------------- the wrong process quits

  const YOUNGER_DONE := [Outside, InP(1, false), Outside, AfterQuit]
  const REPORTED: seq<seq<QuitRecord>> := [[], [QuitRecord(3, 0, 7)], [], []]

  /** In the wrong state 3 calls P1_Quit(7): process 2 has quit with status 7. */
  function ElderTaken(): Kernel {
    Full(Root(READY, [1]), Parent(BLOCKED, [3], [2], 1), Elder(QUIT, -1, 7), Younger(RUNNING, -1),
         [Node(3, 4), Node(0, 6)], Sems(0, [], 0, [1]))
  }

  /** A V on semaphore 1, from an interrupt, wakes their parent. */
  function ParentWoken(value: nat): Kernel {
    Full(Root(READY, [1]), Parent(RUNNING, [3], [2], 1), Elder(QUIT, -1, 7), Younger(READY, -1),
         [Node(1, 1), Node(0, 6), Node(3, 4)], Sems(0, [], value, []))
  }

  lemma ElderStopped()
    ensures InRange(Wrong())
    ensures Stopped(Wrong(), 2, 7) ==
            Full(Root(READY, [1]), Parent(BLOCKED, [2, 3], [], 1), Elder(QUIT, -1, 7), Younger(RUNNING, -1),
                 [Node(3, 4), Node(0, 6)], Sems(0, [], 0, [1]))
  {
    assert IndexOf(Wrong().ready, 2) == 1 by {
      assert Wrong().ready[1].pid == 2;
      assert HasPid(Wrong().ready, 2);
    }
    assert Stopped(Wrong(), 2, 7).ready == [Node(3, 4), Node(0, 6)];
    SameState(Stopped(Wrong(), 2, 7),
              Full(Root(READY, [1]), Parent(BLOCKED, [2, 3], [], 1), Elder(QUIT, -1, 7), Younger(RUNNING, -1),
                   [Node(3, 4), Node(0, 6)], Sems(0, [], 0, [1])));
  }

  lemma ElderHandedIn()
    ensures InRange(Wrong()) && HandedIn(Reparented(Stopped(Wrong(), 2, 7), 2), 2, 1) == ElderTaken()
  {
    ElderStopped();
    var k1 := Stopped(Wrong(), 2, 7);
    assert [1] + [] == [1] && [] + [2] == [2];
    SameState(Reparented(k1, 2), k1);
    assert Removed([2, 3], 2) == [3] by {
      var two := (y: int) => y == 2;
      assert two([2, 3][0]);
    }
    SameState(HandedIn(k1, 2, 1), ElderTaken());
  }

  lemma YoungerStays()
    ensures InRange(ElderTaken()) && Dispatch(ElderTaken(), false) == ElderTaken()
  {
    DispatchTwo(Node(3, 4), Node(0, 6));
    SameState(Dispatch(ElderTaken(), false), ElderTaken());
  }

  lemma ElderQuits()
    ensures InRange(Wrong()) && Quit(Wrong(), 2, 7) == ElderTaken()
  {
    ElderStopped();
    ElderHandedIn();
    YoungerStays();
  }

  lemma WakeParent()
    ensures InRange(ElderTaken()) && V(ElderTaken(), 1) == (ParentWoken(1), Reply.SUCCESS)
  {
    var k1 := Raised(ElderTaken(), 1);
    var k2 := Woken(k1, 1);
    assert k2.ready == [Node(3, 4), Node(0, 6), Node(1, 1)] && [1][1..] == [];
    DispatchThree(Node(3, 4), Node(0, 6), Node(1, 1));
    SameState(Dispatch(k2, false), ParentWoken(1));
  }

  /** A quit whose caller is not the process that the scan names. */
  lemma QuitLeads(w1: World, status: int, who: int)
    requires Enabled(LIMITS, w1, DoQuit(status)) && !w1.k.first && Current(w1.k) != 0
    requires 0 < who < 4 && who != Current(w1.k) && who == GetPid(w1.k) && 0 <= w1.k.procs[who].parent < 4
    ensures var w2, me := Step(LIMITS, w1, DoQuit(status)), Current(w1.k);
            var parent := w1.k.procs[me].parent;
            && 0 <= parent < |w1.quits| && 0 <= me < |w1.pcs| && w2.k == Quit(w1.k, who, status)
            && w2.pcs == w1.pcs[me := AfterQuit] && w2.reaps == w1.reaps
            && w2.quits == w1.quits[parent := w1.quits[parent] + [QuitRecord(me, w1.k.procs[me].tag, status)]]
  {
    QuitStepParts(LIMITS, w1, status);
  }

  lemma QuitExtends(actions: seq<Action>, w1: World, status: int, who: int) returns (w2: World)
    requires Run(LIMITS, Start(), actions) == Some(w1) && !w1.k.halted && !w1.k.first && |w1.k.procs| == |w1.pcs| == 4
    requires w1.k.ready != [] && 0 < Current(w1.k) < 4 && w1.pcs[Current(w1.k)].Outside?
    requires 0 < who < 4 && who != Current(w1.k) && who == GetPid(w1.k) && 0 <= w1.k.procs[who].parent < 4
    ensures var me := Current(w1.k);
            var parent := w1.k.procs[me].parent;
            && InRange(w1.k) && Run(LIMITS, Start(), actions + [DoQuit(status)]) == Some(w2)
            && 0 <= parent < |w1.quits| && w2.k == Quit(w1.k, who, status)
            && w2.pcs == w1.pcs[me := AfterQuit] && w2.reaps == w1.reaps
            && w2.quits == w1.quits[parent := w1.quits[parent] + [QuitRecord(me, w1.k.procs[me].tag, status)]]
  {
    StartIsStarted();
    w2 := Extended(Start(), actions, w1, DoQuit(status));
    QuitLeads(w1, status, who);
  }

  /** What the scan and the tables say of the quit in the wrong state. */
  lemma WrongQuitter()
    ensures InRange(Wrong()) && GetPid(Wrong()) == 2 && Current(Wrong()) == 3 && Wrong().procs[3].tag == 0
    ensures Wrong().procs[2].parent == Wrong().procs[3].parent == 1 && Quit(Wrong(), 2, 7) == ElderTaken()
    ensures PARENT_WAITS[3 := AfterQuit] == YOUNGER_DONE && NO_RECORDS[1 := [QuitRecord(3, 0, 7)]] == REPORTED
  {
    ScanIs(Wrong(), 2);
    ElderQuits();
  }

  lemma QuitFromWrong(actions: seq<Action>, w1: World, k: Kernel) returns (w2: World)
    requires At(actions, w1, k, PARENT_WAITS) && k == Wrong()
    ensures AtQuits(actions + [DoQuit(7)], w2, ElderTaken(), YOUNGER_DONE, REPORTED)
  {
    WrongQuitter();
    w2 := QuitExtends(actions, w1, 7, 2);
    assert NO_RECORDS[1] + [QuitRecord(3, 0, 7)] == [QuitRecord(3, 0, 7)];
  }

  lemma ToElderTaken() returns (actions: seq<Action>, w1: World)
    ensures AtQuits(actions, w1, ElderTaken(), YOUNGER_DONE, REPORTED)
  {
    actions, w1 := ToWrong();
    w1 := QuitFromWrong(actions, w1, Wrong());
    actions := actions + [DoQuit(7)];
  }

  /** A turn of P1_P that takes a unit. */
  lemma NextTake(actions: seq<Action>, w1: World, k: Kernel, pcs: seq<Pc>, quits: seq<seq<QuitRecord>>, sid: int)
    returns (w2: World)
    requires AtQuits(actions, w1, k, pcs, quits) && !k.halted && !k.first && |k.procs| == |pcs| == 4 && InRange(k)
    requires k.ready != [] && 0 <= Current(k) < 4 && pcs[Current(k)] == InP(sid, true) && ValidSem(k, sid)
    requires k.sems[sid].value > 0
    ensures AtQuits(actions + [DoTryP], w2, WithSem(k, sid, k.sems[sid].(value := k.sems[sid].value - 1)),
                    pcs[Current(k) := Outside], quits)
  {
    StartIsStarted();
    w2 := Extended(Start(), actions, w1, DoTryP);
  }

  lemma ParentTakesUnit()
    ensures WithSem(ParentWoken(1), 1, Sem(true, "t", 0, [])) == ParentWoken(0)
    ensures YOUNGER_DONE[1 := InP(1, true)][1 := Outside] == [Outside, Outside, Outside, AfterQuit]
  {
    assert ParentWoken(1).sems[1 := Sem(true, "t", 0, [])] == Sems(0, [], 0, []);
  }

  lemma ToParentReady() returns (actions: seq<Action>, w1: World)
    ensures AtQuits(actions, w1, ParentWoken(1), YOUNGER_DONE[1 := InP(1, true)], REPORTED)
  {
    actions, w1 := ToElderTaken();
    WakeParent();
    w1 := NextV(actions, w1, ElderTaken(), YOUNGER_DONE, REPORTED, 1, ParentWoken(1));
    actions := actions + [DoV(1)];
  }

  lemma ToParentWoken() returns (actions: seq<Action>, w1: World)
    ensures AtQuits(actions, w1, ParentWoken(0), [Outside, Outside, Outside, AfterQuit], REPORTED)
  {
    actions, w1 := ToParentReady();
    w1 := NextTake(actions, w1, ParentWoken(1), YOUNGER_DONE[1 := InP(1, true)], REPORTED, 1);
    actions := actions + [DoTryP];
    ParentTakesUnit();
  }

  lemma ReapElder()
    ensures InRange(ParentWoken(0))
    ensures var (_, reply, c, status) := GetChildStatus(ParentWoken(0), 0);
            reply == Reply.SUCCESS && c == 2 && status == 7
    ensures var k' := GetChildStatus(ParentWoken(0), 0).0;
            !k'.halted && Live(k', 1) && Live(k', 3)
  {
    var k := ParentWoken(0);
    var has := (c: int) => 0 <= c < |k.procs| && k.procs[c].tag == 0;
    assert has(k.procs[1].quitChildren[0]);
  }

  lemma NextReap(actions: seq<Action>, w1: World, k: Kernel, pcs: seq<Pc>, quits: seq<seq<QuitRecord>>, c: int,
                 status: int)
    returns (w2: World)
    requires AtQuits(actions, w1, k, pcs, quits) && !k.halted && !k.first && |k.procs| == |pcs| == 4 && InRange(k)
    requires k.ready != [] && 0 <= Current(k) < 4 && pcs[Current(k)].Outside?
    requires var (_, reply, c', status') := GetChildStatus(k, 0);
             reply == Reply.SUCCESS && c' == c && status' == status
    ensures Run(LIMITS, Start(), actions + [DoReap(0)]) == Some(w2) && w2.k == GetChildStatus(k, 0).0
    ensures w2.quits == quits && w2.reaps == NO_RECORDS[Current(k) := [QuitRecord(c, 0, status)]]
  {
    StartIsStarted();
    w2 := Extended(Start(), actions, w1, DoReap(0));
    assert NO_RECORDS[Current(k)] + [QuitRecord(c, 0, status)] == [QuitRecord(c, 0, status)];
  }

  lemma ToReaped() returns (actions: seq<Action>, w1: World)
    ensures Run(LIMITS, Start(), actions) == Some(w1) && InRange(ParentWoken(0))
    ensures w1.k == GetChildStatus(ParentWoken(0), 0).0
    ensures w1.quits == REPORTED && w1.reaps == [[], [QuitRecord(2, 0, 7)], [], []]
  {
    actions, w1 := ToParentWoken();
    ReapElder();
    w1 := NextReap(actions, w1, ParentWoken(0), [Outside, Outside, Outside, AfterQuit], REPORTED, 2, 7);
    actions := actions + [DoReap(0)];
    assert NO_RECORDS[1 := [QuitRecord(2, 0, 7)]] == [[], [QuitRecord(2, 0, 7)], [], []];
  }

  /** A run whose quits are guarded does not report one child's quit and hand out another's. */
  lemma ReportsDiffer(actions: seq<Action>, w1: World)
    requires Run(LIMITS, Start(), actions) == Some(w1) && !w1.k.halted && Live(w1.k, 1)
    requires |w1.quits| == |w1.reaps| == 4 && w1.quits[1] == [QuitRecord(3, 0, 7)]
    requires w1.reaps[1] == [QuitRecord(2, 0, 7)]
    ensures !QuitsGuarded(LIMITS, Start(), actions)
  {
    StartIsStarted();
    if QuitsGuarded(LIMITS, Start(), actions) {
      ReapedInQuitOrder(LIMITS, Start(), actions, w1, 1, 0);
      WithTagOne(QuitRecord(3, 0, 7), 0);
      WithTagOne(QuitRecord(2, 0, 7), 0);
    }
  }

  /** The parent of 2 and 3 reaps 2, which has called nothing, with the status that 3 passed
      to P1_Quit; 3, which reported that status, is still alive. Since the dispatch leaves 3
      at the head, 3 goes on to the failed assertion at the end of P1_Quit and takes the
      simulator with it, unless an interrupt comes first, after the dispatch has enabled
      interrupts again: this is the run in which the V of that interrupt makes 1 the head. */
  lemma WrongProcessCanQuit() returns (w: World, actions: seq<Action>, w': World)
    ensures Started(LIMITS, w) && Run(LIMITS, w, actions) == Some(w') && !w'.k.halted
    ensures !QuitsGuarded(LIMITS, w, actions)
    ensures w'.quits == [[], [QuitRecord(3, 0, 7)], [], []] && w'.reaps == [[], [QuitRecord(2, 0, 7)], [], []]
    ensures Live(w'.k, 1) && Live(w'.k, 3)
  {
    w := Start();
    StartIsStarted();
    actions, w' := ToReaped();
    ReapElder();
    ReportsDiffer(actions, w');
  }
}

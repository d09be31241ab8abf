/** Contexts, processes and semaphores: the state they share and the operations on it,
    as functions from state to state. Each operation runs with interrupts disabled, so
    one call, or one turn of a retry loop, is one step. The process making a call is the
    head of the ready queue; P1_P, P1_Quit and P1_Join act on whomever P1_GetPid names,
    which is a parameter here. */
module Kernel {
  import opened Common
  import opened ReadyQueue

  datatype Limits = Limits(maxProc: nat, maxSem: nat, maxName: nat, minStack: int)

  datatype State = FREE | RUNNING | READY | JOINING | BLOCKED | QUIT

  datatype PCB = PCB(
    used: bool, cid: int, name: string, priority: int, state: State,
    parent: int, children: seq<int>, quitChildren: seq<int>,
    sid: int, tag: int, status: int)

  datatype Sem = Sem(used: bool, name: string, value: nat, queue: seq<int>)

  datatype Kernel = Kernel(
    procs: seq<PCB>,
    contexts: seq<bool>,
    ready: seq<Node>,
    sems: seq<Sem>,
    first: bool,
    halted: bool)

  datatype Reply =
    | SUCCESS | INVALID_TAG | INVALID_PRIORITY | INVALID_STACK | NAME_IS_NULL | NAME_TOO_LONG
    | DUPLICATE_NAME | TOO_MANY_PROCESSES | TOO_MANY_CONTEXTS | INVALID_CID | INVALID_STATE | INVALID_PID
    | CHILD_QUIT | NO_QUIT | NO_CHILDREN | TOO_MANY_SEMS | INVALID_SID | BLOCKED_PROCESSES

  predicate Runnable(s: State) {
    s == RUNNING || s == READY
  }

  /** A process that exists and has not quit. */
  predicate Live(k: Kernel, p: int) {
    0 <= p < |k.procs| && k.procs[p].used && k.procs[p].state != QUIT
  }

  // ---------------------------------------------------------------- the invariant

  ghost predicate Shape(l: Limits, k: Kernel) {
    |k.procs| == |k.contexts| == l.maxProc > 0 && |k.sems| == l.maxSem
  }

  /** Process slot p is used exactly when context slot p is, and holds that context. */
  ghost predicate SlotsMatch(k: Kernel)
    requires |k.procs| == |k.contexts|
  {
    forall p :: 0 <= p < |k.procs| ==>
      && k.procs[p].used == k.contexts[p]
      && (k.procs[p].used ==> k.procs[p].cid == p)
      && (k.procs[p].used <==> k.procs[p].state != FREE)
  }

  /** The entry a runnable process has in the ready queue. */
  predicate IsQueued(k: Kernel, n: Node) {
    0 <= n.pid < |k.procs| && k.procs[n.pid].used && Runnable(k.procs[n.pid].state)
      && n.priority == k.procs[n.pid].priority
  }

  /** The ready queue holds exactly the runnable processes, each once, at its priority. */
  ghost predicate QueueExact(k: Kernel) {
    DistinctPids(k.ready) && forall n :: n in k.ready <==> IsQueued(k, n)
  }

  predicate IsWaiting(k: Kernel, p: int, s: int) {
    0 <= p < |k.procs| && k.procs[p].used && k.procs[p].state == BLOCKED && k.procs[p].sid == s
  }

  /** Each semaphore's queue holds exactly the processes blocked on it, each once, and
      every blocked process is blocked on a semaphore in use. */
  ghost predicate WaitersExact(k: Kernel) {
    && (forall s :: 0 <= s < |k.sems| ==> Distinct(k.sems[s].queue))
    && (forall s, p :: 0 <= s < |k.sems| ==> (p in k.sems[s].queue <==> IsWaiting(k, p, s)))
    && (forall p :: 0 <= p < |k.procs| && k.procs[p].used && k.procs[p].state == BLOCKED ==>
          0 <= k.procs[p].sid < |k.sems| && k.sems[k.procs[p].sid].used)
  }

  /** A live process other than process 0 is listed by its live parent, which was forked
      before it. */
  ghost predicate HasParent(k: Kernel, born: seq<nat>, p: int)
    requires |born| == |k.procs|
  {
    Live(k, p) && p != 0 ==>
      var q := k.procs[p].parent;
      Live(k, q) && born[q] < born[p] && p in k.procs[q].children
  }

  predicate IsChildOf(k: Kernel, c: int, q: int) {
    c != 0 && Live(k, c) && k.procs[c].parent == q
  }

  /** A live process lists its children once each: live processes, not process 0, that
      name it as parent. */
  ghost predicate ChildrenSound(k: Kernel, q: int) {
    Live(k, q) ==> Distinct(k.procs[q].children) && forall c :: c in k.procs[q].children ==> IsChildOf(k, c, q)
  }

  ghost predicate TreeSound(k: Kernel, born: seq<nat>)
    requires |born| == |k.procs|
  {
    (forall q :: ChildrenSound(k, q)) && (forall p :: HasParent(k, born, p))
  }

  predicate IsZombieOf(k: Kernel, c: int, q: int) {
    0 <= c < |k.procs| && k.procs[c].used && k.procs[c].state == QUIT && k.procs[c].parent == q
  }

  /** A live process's quit list holds, once each, quit processes that name it. */
  ghost predicate QuitListSound(k: Kernel, q: int) {
    Live(k, q) ==> Distinct(k.procs[q].quitChildren) && forall c :: c in k.procs[q].quitChildren ==> IsZombieOf(k, c, q)
  }

  ghost predicate QuitListsSound(k: Kernel) {
    forall q :: QuitListSound(k, q)
  }

  /** A joining process has no quit child to reap. */
  ghost predicate JoinersWait(k: Kernel) {
    forall p :: 0 <= p < |k.procs| && k.procs[p].used && k.procs[p].state == JOINING ==> k.procs[p].quitChildren == []
  }

  /** Process 0 is there from the first fork until the machine halts. */
  ghost predicate RootLives(k: Kernel) {
    k.halted ||
    if k.first then k.ready == [] && forall p :: 0 <= p < |k.procs| ==> !k.procs[p].used
    else Live(k, 0)
  }

  ghost predicate Placed(l: Limits, k: Kernel) {
    Shape(l, k) && SlotsMatch(k) && QueueExact(k) && WaitersExact(k)
  }

  ghost predicate Good(l: Limits, k: Kernel, born: seq<nat>) {
    && Placed(l, k)
    && |born| == l.maxProc && TreeSound(k, born)
    && QuitListsSound(k) && JoinersWait(k) && RootLives(k)
  }

  // ---------------------------------------------------------------- queue room

  function Pids(q: seq<Node>): (r: seq<int>)
    ensures |r| == |q|
  {
    seq(|q|, i requires 0 <= i < |q| => q[i].pid)
  }

  /** The early return on a full queue never drops a process that is not queued. */
  lemma InsertNeverDrops(l: Limits, k: Kernel, pid: int, priority: int)
    requires Shape(l, k) && QueueExact(k) && 0 <= pid < l.maxProc
    ensures Inserted(k.ready, l.maxProc, pid, priority) ==
            if HasPid(k.ready, pid) then k.ready else k.ready + [Node(pid, priority)]
  {
    var pids := Pids(k.ready);
    forall x | x in pids
      ensures 0 <= x < l.maxProc
    {
      var i :| 0 <= i < |pids| && pids[i] == x;
      assert k.ready[i] in k.ready;
    }
    Pigeonhole(pids, l.maxProc);
    if |k.ready| == l.maxProc {
      assert pid in pids;
      var i :| 0 <= i < |pids| && pids[i] == pid;
      assert k.ready[i].pid == pid;
    }
  }

  // ---------------------------------------------------------------- the operations

  /** Slot p's control block replaced. */
  function WithProc(k: Kernel, p: int, b: PCB): Kernel
    requires 0 <= p < |k.procs|
  {
    k.(procs := k.procs[p := b])
  }

  /** Queue entries name process slots. */
  predicate InRange(k: Kernel) {
    forall i :: 0 <= i < |k.ready| ==> 0 <= k.ready[i].pid < |k.procs|
  }

  /** P1SetState. */
  function SetState(k: Kernel, pid: int, state: State, sid: int): (r: (Kernel, Reply))
    ensures |r.0.procs| == |k.procs| && (InRange(k) ==> InRange(r.0))
  {
    if state == RUNNING || state == FREE then (k, INVALID_STATE)
    else if pid < 0 || pid >= |k.procs| || !k.procs[pid].used then (k, INVALID_PID)
    else if state == JOINING && |k.procs[pid].quitChildren| > 0 then (k, CHILD_QUIT)
    else
      var b := k.procs[pid].(state := state, sid := if state == BLOCKED then sid else k.procs[pid].sid);
      var moved := if state == READY then Inserted(k.ready, |k.procs|, pid, b.priority) else WithoutPid(k.ready, pid);
      (WithProc(k, pid, b).(ready := moved), SUCCESS)
  }

  /** P1Dispatch: the queue is reordered, its head runs, a head that was replaced is ready
      again; with nobody to run the machine halts. */
  function Dispatch(k: Kernel, rotate: bool): Kernel
    requires InRange(k)
  {
    if k.ready == [] then k.(halted := true)
    else
      var q := Dispatched(k.ready, rotate);
      DispatchPermutes(k.ready, rotate);
      assert q[0] in k.ready;
      var was, now := k.ready[0].pid, q[0].pid;
      var running := k.procs[now := k.procs[now].(state := RUNNING)];
      k.(ready := q, procs := if was == now then running else running[was := running[was].(state := READY)])
  }

  /** The process making the call. */
  function Current(k: Kernel): int
    requires k.ready != []
  {
    k.ready[0].pid
  }

  /** P1_GetPid: the first entry of the process table that is RUNNING. */
  function GetPid(k: Kernel): int {
    FirstIndex(k.procs, (b: PCB) => b.used && b.state == RUNNING)
  }

  /** There is a caller, and it is marked RUNNING. */
  predicate HeadRuns(k: Kernel) {
    k.ready != [] && 0 <= Current(k) < |k.procs| && k.procs[Current(k)].used && k.procs[Current(k)].state == RUNNING
  }

  /** No process in a slot below the caller's is marked RUNNING. */
  predicate NoneRunsBelow(k: Kernel)
    requires k.ready != [] && Current(k) < |k.procs|
  {
    forall p :: 0 <= p < Current(k) ==> !(k.procs[p].used && k.procs[p].state == RUNNING)
  }

  /** A process that can be acted on as the caller: in use, running or ready. */
  predicate Acting(k: Kernel, p: int) {
    0 <= p < |k.procs| && k.procs[p].used && Runnable(k.procs[p].state)
  }

  /** While the caller is RUNNING the scan names a running process, in the caller's slot
      or below; it names the caller exactly when nobody below is marked RUNNING. */
  lemma ScanNamesCaller(k: Kernel)
    requires HeadRuns(k)
    ensures Acting(k, GetPid(k)) && GetPid(k) <= Current(k)
    ensures GetPid(k) == Current(k) <==> NoneRunsBelow(k)
  {
    var running := (b: PCB) => b.used && b.state == RUNNING;
    assert running(k.procs[Current(k)]);
    forall p | 0 <= p < GetPid(k)
      ensures !(k.procs[p].used && k.procs[p].state == RUNNING)
    {
      assert !running(k.procs[p]);
    }
    assert running(k.procs[GetPid(k)]);
  }

  function FirstUnusedProc(k: Kernel): int {
    FirstIndex(k.procs, (b: PCB) => !b.used)
  }

  function FirstUnusedContext(contexts: seq<bool>): int {
    FirstIndex(contexts, (u: bool) => !u)
  }

  predicate NameTaken(k: Kernel, name: string) {
    exists p :: 0 <= p < |k.procs| && k.procs[p].used && k.procs[p].name == name
  }

  /** P1ContextCreate: the first free slot, or why there is none. */
  function ContextCreate(l: Limits, contexts: seq<bool>, stack: int): (seq<bool>, Reply, int) {
    if stack < l.minStack then (contexts, INVALID_STACK, -1)
    else if FirstUnusedContext(contexts) == -1 then (contexts, TOO_MANY_CONTEXTS, -1)
    else (contexts[FirstUnusedContext(contexts) := true], Reply.SUCCESS, FirstUnusedContext(contexts))
  }

  /** P1ContextFree. */
  function ContextFree(contexts: seq<bool>, cid: int): (seq<bool>, Reply) {
    if cid < 0 || cid >= |contexts| || !contexts[cid] then (contexts, INVALID_CID)
    else (contexts[cid := false], Reply.SUCCESS)
  }

  /** The answer P1_Fork gives, before it changes anything. */
  function ForkReply(l: Limits, k: Kernel, name: Option<string>, stack: int, priority: int, tag: int): Reply {
    if tag != 0 && tag != 1 then INVALID_TAG
    else if priority < 1 || priority > 6 || (!k.first && priority == 6) then INVALID_PRIORITY
    else if stack < l.minStack then INVALID_STACK
    else if name == None then NAME_IS_NULL
    else if |name.value| > l.maxName then NAME_TOO_LONG
    else if NameTaken(k, name.value) then DUPLICATE_NAME
    else if FirstUnusedProc(k) == -1 then TOO_MANY_PROCESSES
    else Reply.SUCCESS
  }

  /** The new process, in slot j, before it is linked to its parent. */
  function Born(k: Kernel, j: int, cid: int, name: string, priority: int, tag: int): PCB
    requires 0 <= j < |k.procs| && (k.first || k.ready != [])
  {
    PCB(true, cid, name, priority, RUNNING, if k.first then -1 else Current(k), [], [], -1, tag, k.procs[j].status)
  }

  /** The state after the new process has been entered and queued. */
  function Entered(l: Limits, k: Kernel, name: string, stack: int, priority: int, tag: int): Kernel
    requires Shape(l, k) && (k.first || k.ready != []) && FirstUnusedProc(k) != -1
  {
    var j: int := FirstUnusedProc(k);
    var (contexts, _, cid) := ContextCreate(l, k.contexts, stack);
    WithProc(k, j, Born(k, j, cid, name, priority, tag))
      .(contexts := contexts, ready := Inserted(k.ready, l.maxProc, j, priority))
  }

  /** The state after the new process is also on its parent's list of children. */
  function Linked(k: Kernel, parent: int, j: int): Kernel
    requires 0 <= parent < |k.procs|
  {
    WithProc(k, parent, k.procs[parent].(children := k.procs[parent].children + [j]))
  }

  /** The new process in its slot, queued, and on its parent's list if it has one. */
  function Forked(l: Limits, k: Kernel, name: string, stack: int, priority: int, tag: int): (r: Kernel)
    requires Shape(l, k) && InRange(k) && (k.first || k.ready != []) && FirstUnusedProc(k) != -1
    ensures InRange(r) && r.ready != []
  {
    var k1 := Entered(l, k, name, stack, priority, tag);
    (if k.first then k1 else Linked(k1, Current(k1), FirstUnusedProc(k))).(first := false)
  }

  /** P1_Fork. */
  function Fork(l: Limits, k: Kernel, name: Option<string>, stack: int, priority: int, tag: int): (Kernel, Reply, int)
    requires Shape(l, k) && InRange(k) && (k.first ==> k.ready == []) && (!k.first ==> k.ready != [])
  {
    var reply := ForkReply(l, k, name, stack, priority, tag);
    if reply != Reply.SUCCESS then (k, reply, -1)
    else
      var k1 := Forked(l, k, name.value, stack, priority, tag);
      var dispatch := k.first || priority < k1.procs[Current(k1)].priority;
      (if dispatch then Dispatch(k1, false) else k1, Reply.SUCCESS, FirstUnusedProc(k))
  }

  function Removed(s: seq<int>, x: int): seq<int> {
    var i := FirstIndex(s, (y: int) => y == x);
    if i == -1 then s else s[..i] + s[i + 1..]
  }

  /** A quitting process's live children pass to process 0. */
  function Reparented(k: Kernel, pid: int): (r: Kernel)
    requires 0 < pid < |k.procs|
    ensures |r.procs| == |k.procs|
    ensures forall p :: 0 <= p < |k.procs| ==> r.procs[p].parent == 0 || r.procs[p].parent == k.procs[p].parent
  {
    var children := k.procs[pid].children;
    var moved := seq(|k.procs|, p requires 0 <= p < |k.procs| =>
                                  if p in children then k.procs[p].(parent := 0) else k.procs[p]);
    k.(procs := moved[0 := moved[0].(children := moved[0].children + children)])
  }

  /** A quitting process moves from its parent's children to its quit list. */
  function HandedIn(k: Kernel, pid: int, parent: int): Kernel
    requires 0 <= parent < |k.procs|
  {
    var b := k.procs[parent];
    WithProc(k, parent, b.(quitChildren := b.quitChildren + [pid], children := Removed(b.children, pid)))
  }

  /** The quitting process is off the ready queue, its status recorded. */
  function Stopped(k: Kernel, pid: int, status: int): (r: Kernel)
    requires 0 <= pid < |k.procs| && InRange(k)
    ensures |r.procs| == |k.procs| && InRange(r)
  {
    var k0 := SetState(k, pid, QUIT, 0).0;
    WithProc(k0, pid, k0.procs[pid].(status := status))
  }

  /** A joining parent becomes ready. */
  function Notified(k: Kernel, parent: int): (r: Kernel)
    requires 0 <= parent < |k.procs|
    ensures |r.procs| == |k.procs| && (InRange(k) ==> InRange(r))
  {
    if k.procs[parent].state == JOINING then SetState(k, parent, READY, 0).0 else k
  }

  /** P1_Quit once P1_GetPid has named pid, which (unless it is process 0) has a parent. */
  function Quit(k: Kernel, pid: int, status: int): Kernel
    requires 0 <= pid < |k.procs| && InRange(k)
    requires pid == 0 || 0 <= k.procs[pid].parent < |k.procs|
  {
    var k1 := Stopped(k, pid, status);
    if pid == 0 then
      if |k1.procs[0].children| > 0 || |k1.procs[0].quitChildren| > 0 then k1.(halted := true)
      else Dispatch(k1, false)
    else
      var k2 := Reparented(k1, pid);
      var parent := k2.procs[pid].parent;
      Dispatch(Notified(HandedIn(k2, pid, parent), parent), false)
  }

  /** The first quit child with a tag, as a position in the list, or -1. */
  function FirstWithTag(procs: seq<PCB>, quits: seq<int>, tag: int): (i: int)
    ensures -1 <= i < |quits|
    ensures i >= 0 ==> 0 <= quits[i] < |procs| && procs[quits[i]].tag == tag
  {
    FirstIndex(quits, (c: int) => 0 <= c < |procs| && procs[c].tag == tag)
  }

  /** P1GetChildStatus: the first quit child with the tag is reaped, its slots freed.
      (The source frees the context a second time; that call finds it free.) */
  function GetChildStatus(k: Kernel, tag: int): (Kernel, Reply, int, int)
    requires k.ready != [] && InRange(k)
  {
    var me := Current(k);
    var quits := k.procs[me].quitChildren;
    if tag != 0 && tag != 1 then (k, INVALID_TAG, -1, 0)
    else if |quits| == 0 then (k, NO_QUIT, -1, 0)
    else
      var i := FirstWithTag(k.procs, quits, tag);
      if i == -1 then (k, NO_CHILDREN, -1, 0)
      else
        var c := quits[i];
        var k1 := WithProc(k, c, k.procs[c].(used := false, state := FREE));
        var once := ContextFree(k.contexts, k.procs[c].cid).0;
        var twice := ContextFree(once, k.procs[c].cid).0;
        (WithProc(k1, me, k1.procs[me].(quitChildren := quits[..i] + quits[i + 1..])).(contexts := twice),
         Reply.SUCCESS, c, k.procs[c].status)
  }

  /** P1_Join's wait, after an answer of NO_QUIT, once P1_GetPid has named pid. */
  function JoinWait(k: Kernel, pid: int): Kernel
    requires InRange(k)
  {
    Dispatch(SetState(k, pid, JOINING, -1).0, false)
  }

  predicate ValidSem(k: Kernel, sid: int) {
    0 <= sid < |k.sems| && k.sems[sid].used
  }

  function WithSem(k: Kernel, sid: int, s: Sem): Kernel
    requires 0 <= sid < |k.sems|
  {
    k.(sems := k.sems[sid := s])
  }

  /** Process pid blocks on semaphore sid, last in its queue. */
  function BlockedOn(k: Kernel, pid: int, sid: int): (r: Kernel)
    requires 0 <= sid < |k.sems| && InRange(k)
    ensures InRange(r)
  {
    var k1 := SetState(k, pid, BLOCKED, sid).0;
    WithSem(k1, sid, k1.sems[sid].(queue := k1.sems[sid].queue + [pid]))
  }

  /** One turn of P1_P's loop: the unit is taken, or pid, whom P1_GetPid names, blocks. */
  function TryP(k: Kernel, pid: int, sid: int): (Kernel, bool)
    requires 0 <= sid < |k.sems| && InRange(k)
  {
    var s := k.sems[sid];
    if s.value > 0 then (WithSem(k, sid, s.(value := s.value - 1)), true)
    else (Dispatch(BlockedOn(k, pid, sid), false), false)
  }

  /** The first waiter leaves the queue, ready to try again. */
  function Woken(k: Kernel, sid: int): (r: Kernel)
    requires 0 <= sid < |k.sems| && k.sems[sid].queue != [] && InRange(k)
    ensures InRange(r)
  {
    var s := k.sems[sid];
    SetState(WithSem(k, sid, s.(queue := s.queue[1..])), s.queue[0], READY, sid).0
  }

  function Raised(k: Kernel, sid: int): Kernel
    requires 0 <= sid < |k.sems|
  {
    WithSem(k, sid, k.sems[sid].(value := k.sems[sid].value + 1))
  }

  /** P1_V: the value goes up and the first waiter, if any, is woken. */
  function V(k: Kernel, sid: int): (Kernel, Reply)
    requires InRange(k)
  {
    if !ValidSem(k, sid) then (k, INVALID_SID)
    else
      var k1 := Raised(k, sid);
      (if k1.sems[sid].queue == [] then k1 else Dispatch(Woken(k1, sid), false), Reply.SUCCESS)
  }

  predicate SemNameTaken(k: Kernel, name: string) {
    exists s :: 0 <= s < |k.sems| && k.sems[s].used && k.sems[s].name == name
  }

  /** P1_SemCreate. */
  function SemCreate(l: Limits, k: Kernel, name: Option<string>, value: nat): (Kernel, Reply, int) {
    if name == None then (k, NAME_IS_NULL, -1)
    else if |name.value| > l.maxName then (k, NAME_TOO_LONG, -1)
    else if SemNameTaken(k, name.value) then (k, DUPLICATE_NAME, -1)
    else
      var j := FirstIndex(k.sems, (s: Sem) => !s.used);
      if j == -1 then (k, TOO_MANY_SEMS, -1)
      else (WithSem(k, j, Sem(true, name.value, value, [])), Reply.SUCCESS, j)
  }

  /** P1_SemFree. */
  function SemFree(k: Kernel, sid: int): (Kernel, Reply) {
    if !ValidSem(k, sid) then (k, INVALID_SID)
    else if k.sems[sid].queue != [] then (k, BLOCKED_PROCESSES)
    else (WithSem(k, sid, k.sems[sid].(used := false)), Reply.SUCCESS)
  }
}

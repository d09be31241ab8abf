/** The kernel tables as they are: arrays of control blocks, contexts and semaphores and
    the ready-queue array, changed in place. Every method is proved to compute the
    corresponding function of module Kernel on the abstract state. */
module KernelSystem {
  import opened Common
  import opened ReadyQueue
  import opened Kernel
  import opened KernelSteps

  class System {
    const l: Limits
    const procs: array<PCB>
    const contexts: array<bool>
    const sems: array<Sem>
    const queue: DispatchQueue
    var first: bool
    var halted: bool

    /** The state as a value. */
    ghost function Abs(): Kernel
      reads this, procs, contexts, sems, queue, queue.nodes
      requires queue.Valid()
    {
      Kernel(procs[..], contexts[..], queue.Contents(), sems[..], first, halted)
    }

    ghost predicate Valid()
      reads this, procs, contexts, sems, queue, queue.nodes
    {
      queue.Valid() && queue.nodes.Length == l.maxProc && Shape(l, Abs())
    }

    /** P1SemInit, with the process and context tables. */
    constructor (l: Limits)
      requires l.maxProc > 0
      ensures Valid() && this.l == l && fresh(procs) && fresh(contexts) && fresh(sems) && fresh(queue)
      ensures fresh(queue.nodes)
      ensures first && !halted && Abs().ready == []
      ensures forall p :: 0 <= p < l.maxProc ==> !procs[p].used && procs[p].state == FREE && !contexts[p]
      ensures forall s :: 0 <= s < l.maxSem ==> !sems[s].used && sems[s].queue == []
    {
      this.l := l;
      procs := new PCB[l.maxProc](_ => PCB(false, 0, "", 0, FREE, -1, [], [], -1, 0, 0));
      contexts := new bool[l.maxProc](_ => false);
      sems := new Sem[l.maxSem](_ => Sem(false, "", 0, []));
      queue := new DispatchQueue(l.maxProc);
      first, halted := true, false;
    }

    // -------------------------------------------------------------- contexts

    /** P1ContextCreate: a first-free scan. */
    method P1ContextCreate(stack: int) returns (reply: Reply, cid: int)
      requires Valid()
      modifies contexts
      ensures Valid()
      ensures (contexts[..], reply, cid) == ContextCreate(l, old(contexts[..]), stack)
      ensures Abs() == old(Abs()).(contexts := contexts[..])
    {
      if stack < l.minStack {
        return INVALID_STACK, -1;
      }
      var id := 0;
      while id < l.maxProc && contexts[id]
        invariant 0 <= id <= l.maxProc
        invariant forall i :: 0 <= i < id ==> contexts[i]
      {
        id := id + 1;
      }
      assert id < l.maxProc ==> ((u: bool) => !u)(contexts[..][id]);
      if id == l.maxProc {
        return TOO_MANY_CONTEXTS, -1;
      }
      contexts[id] := true;
      return Reply.SUCCESS, id;
    }

    /** P1ContextFree. */
    method P1ContextFree(cid: int) returns (reply: Reply)
      requires Valid()
      modifies contexts
      ensures Valid()
      ensures (contexts[..], reply) == ContextFree(old(contexts[..]), cid)
      ensures Abs() == old(Abs()).(contexts := contexts[..])
    {
      if cid < 0 || cid >= l.maxProc || !contexts[cid] {
        return INVALID_CID;
      }
      contexts[cid] := false;
      return Reply.SUCCESS;
    }

    // -------------------------------------------------------------- states and dispatching

    static method UpdateState(procs: array<PCB>, pid: nat, state: State, sid: int)
      requires pid < procs.Length
      modifies procs
      ensures procs[..]
                == old(procs[..])[pid := old(procs[pid]).(state := state,
                                                          sid := if state == BLOCKED then sid else old(procs[pid]).sid)]
    {
      procs[pid] := procs[pid].(state := state);
      if state == BLOCKED {
        procs[pid] := procs[pid].(sid := sid);
      }
    }

    /** P1SetState. */
    method P1SetState(pid: int, state: State, sid: int) returns (reply: Reply)
      requires Valid()
      modifies procs, queue, queue.nodes
      ensures Valid()
      ensures (Abs(), reply) == SetState(old(Abs()), pid, state, sid)
    {
      if state != READY && state != JOINING && state != BLOCKED && state != QUIT {
        return INVALID_STATE;
      }
      if pid < 0 || pid >= l.maxProc || !procs[pid].used {
        return INVALID_PID;
      }
      if state == JOINING && |procs[pid].quitChildren| > 0 {
        return CHILD_QUIT;
      }
      UpdateState(procs, pid, state, sid);
      if state != READY {
        var found := queue.RemoveByPid(pid);
      } else {
        var ok := queue.Insert(pid, procs[pid].priority);
      }
      return Reply.SUCCESS;
    }

    /** Setting the states on a switch: the new head runs; an old head that was replaced is
        ready, and queued already. */
    method SwitchStates(was: int, now: int)
      requires Valid() && 0 <= was < l.maxProc && 0 <= now < l.maxProc && procs[was].used
      requires HasPid(queue.Contents(), was)
      modifies procs, queue, queue.nodes
      ensures Valid()
      ensures var running := old(procs[..])[now := old(procs[now]).(state := RUNNING)];
              Abs() == old(Abs()).(procs := if was == now then running
                                            else running[was := running[was].(state := READY)])
    {
      procs[now] := procs[now].(state := RUNNING);
      if was != now {
        var rc := P1SetState(was, READY, 0);
      }
    }

    lemma ReorderFacts(k: Kernel, rotate: bool)
      requires QueueExact(k) && k.ready != []
      ensures var q := Dispatched(k.ready, rotate);
              && InRange(k) && 0 <= q[0].pid < |k.procs|
              && k.procs[k.ready[0].pid].used && HasPid(q, k.ready[0].pid)
    {
      ExactInRange(k);
      DispatchPermutes(k.ready, rotate);
      var q := Dispatched(k.ready, rotate);
      assert q[0] in k.ready && k.ready[0] in q && IsQueued(k, q[0]) && IsQueued(k, k.ready[0]);
    }

    /** P1Dispatch up to the context switch. */
    method P1Dispatch(rotate: bool)
      requires Valid() && Placed(l, Abs())
      modifies this`halted, procs, queue, queue.nodes
      ensures Valid()
      ensures InRange(old(Abs())) && Abs() == Dispatch(old(Abs()), rotate)
    {
      ExactInRange(Abs());
      if queue.size == 0 {
        halted := true;
        return;
      }
      ReorderFacts(Abs(), rotate);
      var was := queue.nodes[0].pid;
      assert Abs().ready[0].pid == was;
      queue.Reorder(rotate);
      var now := queue.nodes[0].pid;
      assert queue.Contents()[0].pid == now;
      SwitchStates(was, now);
    }

    // -------------------------------------------------------------- processes

    /** P1_GetPid: a scan for the first RUNNING entry, -1 when there is none. */
    method P1GetPid() returns (pid: int)
      requires Valid()
      ensures pid == GetPid(Abs())
    {
      pid := -1;
      var i := 0;
      while i < l.maxProc
        invariant 0 <= i <= l.maxProc
        invariant forall p :: 0 <= p < i ==> !(procs[p].used && procs[p].state == RUNNING)
      {
        if procs[i].used && procs[i].state == RUNNING {
          pid := i;
          break;
        }
        i := i + 1;
      }
      assert pid != -1 ==> ((b: PCB) => b.used && b.state == RUNNING)(procs[..][pid]);
    }

    /** The scan of P1_Fork over the process table: the first free slot, and whether a
        process in use has the name (at which the scan stops). */
    method ScanProcs(name: string) returns (j: int, duplicate: bool)
      requires Valid()
      ensures duplicate <==> NameTaken(Abs(), name)
      ensures !duplicate ==> j == FirstUnusedProc(Abs())
    {
      j, duplicate := -1, false;
      var i := 0;
      while i < l.maxProc
        invariant 0 <= i <= l.maxProc && -1 <= j < i
        invariant !duplicate && forall p :: 0 <= p < i && procs[p].used ==> procs[p].name != name
        invariant j == -1 ==> forall p :: 0 <= p < i ==> procs[p].used
        invariant j != -1 ==> !procs[j].used && forall p :: 0 <= p < j ==> procs[p].used
      {
        if !procs[i].used {
          if j == -1 {
            j := i;
          }
        } else if procs[i].name == name {
          duplicate := true;
          assert Abs().procs[i].used && Abs().procs[i].name == name;
          return;
        }
        i := i + 1;
      }
      assert j != -1 ==> ((b: PCB) => !b.used)(procs[..][j]);
    }

    /** Entering the new process: context, control block, ready queue. */
    method Enter(j: int, name: string, stack: int, priority: int, tag: int)
      requires Valid() && Placed(l, Abs()) && j == FirstUnusedProc(Abs()) != -1 && stack >= l.minStack
      requires first || queue.size > 0
      modifies procs, contexts, queue, queue.nodes
      ensures Valid() && Abs() == Entered(l, old(Abs()), name, stack, priority, tag)
    {
      SlotsAgree(l, Abs(), stack);
      var reply, cid := P1ContextCreate(stack);
      assert reply == Reply.SUCCESS;
      var parent := -1;
      if !first {
        parent := queue.nodes[0].pid;
      }
      procs[j] := PCB(true, cid, name, priority, RUNNING, parent, [], [], -1, tag, procs[j].status);
      var ok := queue.Insert(j, priority);
    }

    /** P1_Fork, by the current process if there is one. */
    method P1Fork(name: Option<string>, stack: int, priority: int, tag: int) returns (reply: Reply, pid: int)
      requires Valid() && Placed(l, Abs())
      requires first ==> queue.size == 0 && forall p :: 0 <= p < l.maxProc ==> !procs[p].used
      requires !first ==> queue.size > 0
      modifies this`first, this`halted, procs, contexts, queue, queue.nodes
      ensures Valid() && InRange(old(Abs()))
      ensures (Abs(), reply, pid) == Fork(l, old(Abs()), name, stack, priority, tag)
    {
      ghost var k := Abs();
      ExactInRange(k);
      pid := -1;
      if tag != 0 && tag != 1 {
        reply := INVALID_TAG;
      } else if priority < 1 || priority > 6 || (!first && priority == 6) {
        reply := INVALID_PRIORITY;
      } else if stack < l.minStack {
        reply := INVALID_STACK;
      } else if name == None {
        reply := NAME_IS_NULL;
      } else if |name.value| > l.maxName {
        reply := NAME_TOO_LONG;
      } else {
        var j, duplicate := ScanProcs(name.value);
        if duplicate {
          reply := DUPLICATE_NAME;
        } else if j == -1 {
          reply := TOO_MANY_PROCESSES;
        } else {
          ForkAdopts(l, k, name.value, stack, priority, tag);
          AdoptedPlaced(l, k, Forked(l, k, name.value, stack, priority, tag), j, priority);
          Enter(j, name.value, stack, priority, tag);
          LinkAndDispatch(k, j, name.value, stack, priority, tag);
          reply, pid := Reply.SUCCESS, j;
        }
      }
    }

    /** The end of P1_Fork: the parent's list, and a dispatch if the child is better or is
        the first process. */
    method LinkAndDispatch(ghost k: Kernel, j: int, ghost name: string, ghost stack: int, priority: int, ghost tag: int)
      requires Valid() && Shape(l, k) && InRange(k) && (k.first || k.ready != []) && j == FirstUnusedProc(k) != -1
      requires Abs() == Entered(l, k, name, stack, priority, tag)
      requires Placed(l, Forked(l, k, name, stack, priority, tag))
      modifies this`first, this`halted, procs, queue, queue.nodes
      ensures Valid()
      ensures var k1 := Forked(l, k, name, stack, priority, tag);
              Abs() == if k.first || priority < k1.procs[Current(k1)].priority then Dispatch(k1, false) else k1
    {
      var me := queue.nodes[0].pid;
      assert queue.Contents()[0] == queue.nodes[0];
      if !first {
        procs[me] := procs[me].(children := procs[me].children + [j]);
      }
      var dispatch := first || priority < procs[queue.nodes[0].pid].priority;
      first := false;
      assert Abs() == Forked(l, k, name, stack, priority, tag);
      if dispatch {
        P1Dispatch(false);
      }
    }

    /** The current process's children handed to process 0, one by one. */
    method Reparent(pid: int)
      requires Valid() && 0 < pid < l.maxProc && pid !in procs[pid].children && 0 !in procs[pid].children
      requires forall c :: c in procs[pid].children ==> 0 <= c < l.maxProc
      modifies procs
      ensures Valid() && Abs() == Reparented(old(Abs()), pid)
    {
      ghost var was, children := procs[..], procs[pid].children;
      var i := 0;
      while i < |procs[pid].children|
        invariant 0 <= i <= |children| && procs[pid].children == children
        invariant forall p :: 0 < p < l.maxProc ==>
                    procs[p] == if p in children[..i] then was[p].(parent := 0) else was[p]
        invariant procs[0] == was[0].(children := was[0].children + children[..i])
      {
        var c := procs[pid].children[i];
        assert c in children;
        procs[c] := procs[c].(parent := 0);
        procs[0] := procs[0].(children := procs[0].children + [c]);
        i := i + 1;
        assert children[..i] == children[..i - 1] + [c];
      }
      assert children[..i] == children;
    }

    /** Taking a pid off a list by shifting what follows it. */
    static method RemoveChild(children: seq<int>, pid: int) returns (left: seq<int>)
      requires Distinct(children) && pid in children
      ensures left == Removed(children, pid)
    {
      left := children;
      ghost var at := FirstIndex(children, (y: int) => y == pid);
      assert exists j :: 0 <= j < |children| && ((y: int) => y == pid)(children[j]);
      var i := 0;
      while i < |children|
        invariant 0 <= i <= |children| && |left| == |children|
        invariant i <= at ==> left == children
        invariant i > at ==> left[..|children| - 1] == children[..at] + children[at + 1..]
                             && left[|children| - 1] == children[|children| - 1]
      {
        if i > at {
          GoneForGood(children, left, at, i, pid);
        }
        if left[i] == pid {
          ghost var before := left;
          var k := i + 1;
          while k < |children|
            invariant i + 1 <= k <= |children| && |left| == |children|
            invariant forall j :: 0 <= j < i ==> left[j] == before[j]
            invariant forall j :: i <= j < k - 1 ==> left[j] == before[j + 1]
            invariant forall j :: k - 1 <= j < |children| && j >= i ==> left[j] == before[j]
          {
            left := left[k - 1 := left[k]];
            k := k + 1;
          }
        }
        i := i + 1;
      }
      left := left[..|children| - 1];
    }

    /** P1_Quit up to the context switch, for the process P1_GetPid names. */
    method P1Quit(status: int, ghost born: seq<nat>)
      requires Valid() && Good(l, Abs(), born) && !halted && HeadRuns(Abs())
      modifies this`halted, procs, queue, queue.nodes
      ensures Valid() && InRange(old(Abs()))
      ensures var pid := GetPid(old(Abs()));
              && 0 <= pid < l.maxProc && (pid == 0 || 0 <= old(Abs()).procs[pid].parent < l.maxProc)
              && Abs() == Quit(old(Abs()), pid, status)
    {
      ghost var k := Abs();
      ScanNamesCaller(k);
      var pid := P1GetPid();
      QuitPlaced(l, k, pid, status);
      Stop(pid, status);
      if pid == 0 {
        if |procs[0].children| > 0 || |procs[0].quitChildren| > 0 {
          halted := true;
        } else {
          P1Dispatch(false);
        }
        return;
      }
      ghost var k2, parent := QuitStages(l, k, born, pid, status);
      DepartedGood(l, k, k2, born, pid, parent, status);
      Depart(pid, k, born, status);
      assert Abs() == Notified(k2, parent);
      P1Dispatch(false);
    }

    /** Children go to process 0, the process to its parent's quit list, and a joining
        parent is readied. */
    method Depart(pid: int, ghost k: Kernel, ghost born: seq<nat>, ghost status: int)
      requires Valid() && Good(l, k, born) && InRange(k) && Acting(k, pid) && pid != 0
      requires Abs() == Stopped(k, pid, status)
      modifies procs, queue, queue.nodes
      ensures Valid() && 0 <= k.procs[pid].parent < l.maxProc
      ensures var parent := k.procs[pid].parent;
              Abs() == Notified(HandedIn(Reparented(Stopped(k, pid, status), pid), pid, parent), parent)
    {
      QuitterFacts(l, k, born, pid);
      StoppedProcs(l, k, pid, status);
      QuitDeparts(l, k, pid, status);
      QuitterChildren(k, born, pid);
      Reparent(pid);
      var parent := procs[pid].parent;
      ParentsList(k, born, pid, parent);
      HandIn(pid, parent);
      Notify(parent);
    }

    method Notify(parent: int)
      requires Valid() && 0 <= parent < l.maxProc
      modifies procs, queue, queue.nodes
      ensures Valid() && Abs() == Notified(old(Abs()), parent)
    {
      if procs[parent].state == JOINING {
        var rc := P1SetState(parent, READY, 0);
      }
    }

    method Stop(pid: int, status: int)
      requires Valid() && InRange(Abs()) && 0 <= pid < l.maxProc && procs[pid].used
      modifies procs, queue, queue.nodes
      ensures Valid() && Abs() == Stopped(old(Abs()), pid, status)
    {
      var rc := P1SetState(pid, QUIT, 0);
      procs[pid] := procs[pid].(status := status);
    }

    /** The parent's quit list gains the pid, its list of children loses it. */
    method HandIn(pid: int, parent: int)
      requires Valid() && 0 <= parent < l.maxProc
      requires Distinct(procs[parent].children) && pid in procs[parent].children
      modifies procs
      ensures Valid() && Abs() == HandedIn(old(Abs()), pid, parent)
    {
      procs[parent] := procs[parent].(quitChildren := procs[parent].quitChildren + [pid]);
      var left := RemoveChild(procs[parent].children, pid);
      procs[parent] := procs[parent].(children := left);
    }

    /** The scan of a quit list for the first child with a tag. */
    static method FindChild(procs: array<PCB>, quits: seq<int>, tag: int) returns (i: nat)
      requires forall j :: 0 <= j < |quits| ==> 0 <= quits[j] < procs.Length
      ensures i <= |quits|
      ensures i == if FirstWithTag(procs[..], quits, tag) == -1 then |quits| else FirstWithTag(procs[..], quits, tag)
    {
      ghost var all := procs[..];
      ghost var has := (c: int) => 0 <= c < |all| && all[c].tag == tag;
      i := 0;
      while i < |quits| && procs[quits[i]].tag != tag
        invariant 0 <= i <= |quits|
        invariant forall j :: 0 <= j < i ==> !has(quits[j])
      {
        i := i + 1;
      }
      assert i < |quits| ==> has(quits[i]);
    }

    /** Freeing a quit child's slots and taking it off the caller's list. */
    method Reap(me: int, i: nat) returns (cpid: int, status: int)
      requires Valid() && 0 <= me < l.maxProc && i < |procs[me].quitChildren|
      requires 0 <= procs[me].quitChildren[i] < l.maxProc && procs[me].quitChildren[i] != me
      modifies procs, contexts
      ensures Valid()
      ensures var k, quits := old(Abs()), old(procs[me].quitChildren);
              var k1 := WithProc(k, quits[i], k.procs[quits[i]].(used := false, state := FREE));
              && cpid == quits[i] && status == k.procs[cpid].status
              && Abs() == WithProc(k1, me, k1.procs[me].(quitChildren := quits[..i] + quits[i + 1..]))
                            .(contexts := ContextFree(ContextFree(k.contexts, k.procs[cpid].cid).0,
                                                      k.procs[cpid].cid).0)
    {
      cpid := procs[me].quitChildren[i];
      status := procs[cpid].status;
      procs[cpid] := procs[cpid].(used := false, state := FREE);
      var rc := P1ContextFree(procs[cpid].cid);
      var left := ShiftDown(procs[me].quitChildren, i);
      procs[me] := procs[me].(quitChildren := left);
      rc := P1ContextFree(procs[cpid].cid);
    }

    /** P1GetChildStatus by the current process. */
    method P1GetChildStatus(tag: int, ghost born: seq<nat>) returns (reply: Reply, cpid: int, status: int)
      requires Valid() && Good(l, Abs(), born) && queue.size > 0
      modifies procs, contexts
      ensures Valid() && InRange(old(Abs()))
      ensures (Abs(), reply, cpid, status) == GetChildStatus(old(Abs()), tag)
    {
      CurrentRuns(l, Abs());
      var me := queue.nodes[0].pid;
      assert Abs().ready[0].pid == me;
      if tag != 0 && tag != 1 {
        return INVALID_TAG, -1, 0;
      }
      if |procs[me].quitChildren| == 0 {
        return NO_QUIT, -1, 0;
      }
      ZombiesInRange(Abs(), me);
      var i := FindChild(procs, procs[me].quitChildren, tag);
      if i == |procs[me].quitChildren| {
        return NO_CHILDREN, -1, 0;
      }
      cpid, status := Reap(me, i);
      reply := Reply.SUCCESS;
    }

    /** Removing the i-th entry by shifting what follows it. */
    static method ShiftDown(s: seq<int>, i: nat) returns (r: seq<int>)
      requires i < |s|
      ensures r == s[..i] + s[i + 1..]
    {
      r := s;
      var j := i + 1;
      while j < |s|
        invariant i + 1 <= j <= |s| && |r| == |s|
        invariant r == s[..i] + s[i + 1..j] + s[j - 1..]
      {
        r := r[j - 1 := r[j]];
        j := j + 1;
      }
      r := r[..|s| - 1];
    }

    /** P1_Join's wait, for the process P1_GetPid names. */
    method P1JoinWait(ghost born: seq<nat>)
      requires Valid() && Good(l, Abs(), born) && HeadRuns(Abs())
      modifies this`halted, procs, queue, queue.nodes
      ensures Valid() && InRange(old(Abs())) && Abs() == JoinWait(old(Abs()), GetPid(old(Abs())))
    {
      ScanNamesCaller(Abs());
      JoinedGood(l, Abs(), born, GetPid(Abs()));
      var pid := P1GetPid();
      var rc := P1SetState(pid, JOINING, -1);
      P1Dispatch(false);
    }

    // -------------------------------------------------------------- semaphores

    /** One turn of P1_P's loop; the process P1_GetPid names is the one that blocks, and
        `got` ends the loop. */
    method P1PTurn(sid: int) returns (got: bool)
      requires Valid() && Placed(l, Abs()) && ValidSem(Abs(), sid) && HeadRuns(Abs())
      modifies this`halted, procs, sems, queue, queue.nodes
      ensures Valid() && InRange(old(Abs())) && (Abs(), got) == TryP(old(Abs()), GetPid(old(Abs())), sid)
    {
      ScanNamesCaller(Abs());
      ExactInRange(Abs());
      if sems[sid].value > 0 {
        sems[sid] := sems[sid].(value := sems[sid].value - 1);
        return true;
      }
      var pid := P1GetPid();
      BlockPlaced(l, Abs(), pid, sid);
      var rc := P1SetState(pid, BLOCKED, sid);
      sems[sid] := sems[sid].(queue := sems[sid].queue + [pid]);
      P1Dispatch(false);
      got := false;
    }

    /** P1_V. */
    method P1V(sid: int) returns (reply: Reply)
      requires Valid() && Placed(l, Abs())
      modifies this`halted, procs, sems, queue, queue.nodes
      ensures Valid() && InRange(old(Abs())) && (Abs(), reply) == V(old(Abs()), sid)
    {
      ExactInRange(Abs());
      if sid < 0 || sid >= l.maxSem || !sems[sid].used {
        return INVALID_SID;
      }
      Raise(sid);
      if sems[sid].queue != [] {
        Wake(sid);
      }
      reply := Reply.SUCCESS;
    }

    method Raise(sid: int)
      requires Valid() && Placed(l, Abs()) && ValidSem(Abs(), sid)
      modifies sems
      ensures Valid() && Abs() == Raised(old(Abs()), sid) && Placed(l, Abs())
    {
      SameButSem(l, Abs(), sid, sems[sid].(value := sems[sid].value + 1));
      sems[sid] := sems[sid].(value := sems[sid].value + 1);
    }

    method Wake(sid: int)
      requires Valid() && Placed(l, Abs()) && ValidSem(Abs(), sid) && sems[sid].queue != []
      modifies this`halted, procs, sems, queue, queue.nodes
      ensures Valid() && InRange(old(Abs())) && Abs() == Dispatch(Woken(old(Abs()), sid), false)
    {
      WokenPlaced(l, Abs(), sid);
      var pid := sems[sid].queue[0];
      sems[sid] := sems[sid].(queue := sems[sid].queue[1..]);
      var rc := P1SetState(pid, READY, sid);
      P1Dispatch(false);
    }

    /** P1_SemCreate: the scan takes the first free slot and rejects a name in use. */
    method P1SemCreate(name: Option<string>, value: nat) returns (reply: Reply, sid: int)
      requires Valid()
      modifies sems
      ensures Valid() && (Abs(), reply, sid) == SemCreate(l, old(Abs()), name, value)
    {
      if name == None {
        return NAME_IS_NULL, -1;
      }
      if |name.value| > l.maxName {
        return NAME_TOO_LONG, -1;
      }
      reply := Reply.SUCCESS;
      var i, j := 0, -1;
      while i < l.maxSem
        invariant 0 <= i <= l.maxSem && -1 <= j < i
        invariant j == -1 ==> forall s :: 0 <= s < i ==> sems[s].used
        invariant j != -1 ==> !sems[j].used && forall s :: 0 <= s < j ==> sems[s].used
        invariant reply == if exists s :: 0 <= s < i && sems[s].used && sems[s].name == name.value
                           then DUPLICATE_NAME else Reply.SUCCESS
      {
        if j == -1 && !sems[i].used {
          j := i;
        }
        if sems[i].used && name.value == sems[i].name {
          reply := DUPLICATE_NAME;
        }
        i := i + 1;
      }
      assert j != -1 ==> ((s: Sem) => !s.used)(sems[..][j]);
      assert SemNameTaken(Abs(), name.value) <==> reply == DUPLICATE_NAME;
      if reply == DUPLICATE_NAME {
        return reply, -1;
      }
      if j == -1 {
        return TOO_MANY_SEMS, -1;
      }
      sems[j] := Sem(true, name.value, value, []);
      return Reply.SUCCESS, j;
    }

    /** P1_SemFree. */
    method P1SemFree(sid: int) returns (reply: Reply)
      requires Valid()
      modifies sems
      ensures Valid() && (Abs(), reply) == SemFree(old(Abs()), sid)
    {
      if sid < 0 || sid >= l.maxSem || !sems[sid].used {
        return INVALID_SID;
      }
      if sems[sid].queue != [] {
        return BLOCKED_PROCESSES;
      }
      sems[sid] := sems[sid].(used := false);
      reply := Reply.SUCCESS;
    }
  }

  lemma ZombiesInRange(k: Kernel, q: int)
    requires QuitListsSound(k) && Live(k, q)
    ensures forall j :: 0 <= j < |k.procs[q].quitChildren| ==> IsZombieOf(k, k.procs[q].quitChildren[j], q)
  {
    assert QuitListSound(k, q);
    forall j | 0 <= j < |k.procs[q].quitChildren|
      ensures IsZombieOf(k, k.procs[q].quitChildren[j], q)
    {
      assert k.procs[q].quitChildren[j] in k.procs[q].quitChildren;
    }
  }

  /** The quitting process is on the list its parent then has. */
  lemma ParentsList(k: Kernel, born: seq<nat>, pid: int, parent: int)
    requires |born| == |k.procs| && TreeSound(k, born) && Live(k, pid) && pid != 0 && parent == k.procs[pid].parent
    ensures Live(k, parent) && Distinct(Inherited(k, pid, parent)) && pid in Inherited(k, pid, parent)
  {
    assert HasParent(k, born, pid);
    RootIsOldest(k, born, pid);
    InheritedIs(k, born, pid, parent);
  }

  lemma QuitterChildren(k: Kernel, born: seq<nat>, pid: int)
    requires |born| == |k.procs| && TreeSound(k, born) && Live(k, pid)
    ensures forall c :: c in k.procs[pid].children ==> 0 < c < |k.procs|
  {
    assert ChildrenSound(k, pid);
    forall c | c in k.procs[pid].children
      ensures 0 < c < |k.procs|
    {
      assert IsChildOf(k, c, pid);
    }
  }

  /** The shift leaves no second occurrence to be found further on. */
  lemma GoneForGood(children: seq<int>, left: seq<int>, at: int, i: int, pid: int)
    requires Distinct(children) && 0 <= at < |children| == |left| && children[at] == pid && at < i < |children|
    requires left[..|children| - 1] == children[..at] + children[at + 1..]
    requires left[|children| - 1] == children[|children| - 1]
    ensures left[i] != pid
  {
    if i < |children| - 1 {
      assert left[i] == left[..|children| - 1][i] == children[i + 1];
    }
  }
}

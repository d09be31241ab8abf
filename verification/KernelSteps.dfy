/** Every kernel operation keeps the invariant Good: placement of processes in queues,
    slots, the process tree, quit lists. */
module KernelSteps {
  import opened Common
  import opened ReadyQueue
  import opened Kernel

  // ---------------------------------------------------------------- queue entries

  lemma WithoutPidIs(q: seq<Node>, pid: int)
    requires DistinctPids(q)
    ensures DistinctPids(WithoutPid(q, pid))
    ensures forall n :: n in WithoutPid(q, pid) <==> n in q && n.pid != pid
  {
    var i, r := IndexOf(q, pid), WithoutPid(q, pid);
    if i != -1 {
      forall n
        ensures n in r <==> n in q && n.pid != pid
      {
        if n in r {
          var j :| 0 <= j < |r| && r[j] == n;
          assert q[if j < i then j else j + 1] == n;
        }
        if n in q && n.pid != pid {
          var j :| 0 <= j < |q| && q[j] == n;
          assert r[if j < i then j else j - 1] == n;
        }
      }
    } else {
      assert forall j :: 0 <= j < |q| ==> q[j].pid != pid;
    }
  }

  lemma ExactInRange(k: Kernel)
    requires QueueExact(k)
    ensures InRange(k)
    ensures forall p :: HasPid(k.ready, p) <==> 0 <= p < |k.procs| && k.procs[p].used && Runnable(k.procs[p].state)
  {
    forall i | 0 <= i < |k.ready|
      ensures IsQueued(k, k.ready[i])
    {
      assert k.ready[i] in k.ready;
    }
    forall p
      ensures HasPid(k.ready, p) <==> 0 <= p < |k.procs| && k.procs[p].used && Runnable(k.procs[p].state)
    {
      if 0 <= p < |k.procs| && k.procs[p].used && Runnable(k.procs[p].state) {
        var n := Node(p, k.procs[p].priority);
        assert IsQueued(k, n);
        assert n in k.ready;
      }
    }
  }

  lemma InsertedIs(l: Limits, k: Kernel, pid: int, priority: int)
    requires Shape(l, k) && QueueExact(k) && 0 <= pid < l.maxProc && !HasPid(k.ready, pid)
    ensures var r := Inserted(k.ready, l.maxProc, pid, priority);
            r == k.ready + [Node(pid, priority)] && DistinctPids(r)
  {
    InsertNeverDrops(l, k, pid, priority);
  }

  // ---------------------------------------------------------------- dispatching

  /** Same processes, same family ties; joining was either so before or is allowed. */
  ghost predicate SameFamily(k: Kernel, k': Kernel) {
    && |k'.procs| == |k.procs|
    && forall p :: 0 <= p < |k.procs| ==>
         var b, b' := k.procs[p], k'.procs[p];
         && b'.used == b.used && (b'.state == QUIT <==> b.state == QUIT)
         && b'.parent == b.parent && b'.children == b.children && b'.quitChildren == b.quitChildren
         && (b'.state == JOINING ==> b.state == JOINING || b.quitChildren == [])
  }

  lemma FamilyKept(k: Kernel, k': Kernel, born: seq<nat>)
    requires SameFamily(k, k') && |born| == |k.procs|
    requires TreeSound(k, born) && QuitListsSound(k)
    ensures TreeSound(k', born) && QuitListsSound(k')
  {
    forall p
      ensures HasParent(k', born, p) && ChildrenSound(k', p) && QuitListSound(k', p)
    {
      assert HasParent(k, born, p) && ChildrenSound(k, p) && QuitListSound(k, p);
      assert forall c :: IsChildOf(k, c, p) ==> IsChildOf(k', c, p);
      assert forall c :: IsZombieOf(k, c, p) ==> IsZombieOf(k', c, p);
    }
  }

  /** Only which runnable process runs may differ. */
  ghost predicate SameButRunning(k: Kernel, k': Kernel) {
    && |k'.procs| == |k.procs|
    && forall p :: 0 <= p < |k.procs| ==>
         && k'.procs[p] == k.procs[p].(state := k'.procs[p].state)
         && (k'.procs[p].state == k.procs[p].state || (Runnable(k.procs[p].state) && Runnable(k'.procs[p].state)))
  }

  lemma DispatchProcs(k: Kernel, rotate: bool)
    requires QueueExact(k)
    ensures InRange(k) && SameButRunning(k, Dispatch(k, rotate))
  {
    ExactInRange(k);
    if k.ready != [] {
      HeadsRunnable(k, rotate);
    }
  }

  /** The old and the new head of the queue are runnable. */
  lemma HeadsRunnable(k: Kernel, rotate: bool)
    requires QueueExact(k) && k.ready != []
    ensures IsQueued(k, k.ready[0]) && IsQueued(k, Dispatched(k.ready, rotate)[0])
  {
    DispatchPermutes(k.ready, rotate);
    assert Dispatched(k.ready, rotate)[0] in k.ready && k.ready[0] in k.ready;
  }

  lemma ReorderedPlaced(l: Limits, k: Kernel, k': Kernel)
    requires Placed(l, k) && SameButRunning(k, k')
    requires k'.sems == k.sems && k'.contexts == k.contexts
    requires DistinctPids(k'.ready) && forall n :: n in k'.ready <==> n in k.ready
    ensures Placed(l, k') && SameFamily(k, k')
  {
    forall n
      ensures n in k'.ready <==> IsQueued(k', n)
    {
      assert IsQueued(k', n) <==> IsQueued(k, n);
    }
    forall s, p | 0 <= s < |k'.sems|
      ensures p in k'.sems[s].queue <==> IsWaiting(k', p, s)
    {
      assert IsWaiting(k', p, s) <==> IsWaiting(k, p, s);
    }
  }

  lemma DispatchPlaced(l: Limits, k: Kernel, rotate: bool)
    requires Placed(l, k)
    ensures InRange(k) && Placed(l, Dispatch(k, rotate)) && SameFamily(k, Dispatch(k, rotate))
  {
    DispatchProcs(k, rotate);
    if k.ready != [] {
      DispatchPermutes(k.ready, rotate);
      DispatchKeepsDistinct(k.ready, rotate);
    }
    ReorderedPlaced(l, k, Dispatch(k, rotate));
  }

  lemma FamilyGood(l: Limits, k: Kernel, k': Kernel, born: seq<nat>)
    requires Good(l, k, born) && Placed(l, k') && SameFamily(k, k')
    requires k'.first == k.first && (k.halted ==> k'.halted)
    ensures Good(l, k', born)
  {
    FamilyKept(k, k', born);
    if k.first && !k.halted {
      EmptyIfNone(k'.ready);
    }
  }

  lemma DispatchGood(l: Limits, k: Kernel, born: seq<nat>, rotate: bool)
    requires Good(l, k, born)
    ensures InRange(k) && Good(l, Dispatch(k, rotate), born)
  {
    DispatchPlaced(l, k, rotate);
    FamilyGood(l, k, Dispatch(k, rotate), born);
  }

  /** After a dispatch the head is RUNNING, or there is nobody to run. */
  lemma DispatchRunsHead(l: Limits, k: Kernel, rotate: bool)
    requires Placed(l, k)
    ensures InRange(k) && (Dispatch(k, rotate).halted || HeadRuns(Dispatch(k, rotate)))
    ensures Dispatch(k, rotate).first == k.first
  {
    DispatchPlaced(l, k, rotate);
    if k.ready != [] {
      CurrentRuns(l, Dispatch(k, rotate));
    }
  }

  // ---------------------------------------------------------------- semaphores

  lemma CurrentRuns(l: Limits, k: Kernel)
    requires Placed(l, k) && k.ready != []
    ensures InRange(k)
    ensures var p := Current(k);
            0 <= p < l.maxProc && k.procs[p].used && Runnable(k.procs[p].state) && k.contexts[p] && HasPid(k.ready, p)
  {
    ExactInRange(k);
    assert k.ready[0] in k.ready;
  }

  /** Blocking a runnable process and queueing it. */
  lemma BlockPlaced(l: Limits, k: Kernel, pid: int, sid: int)
    requires Placed(l, k) && Acting(k, pid) && ValidSem(k, sid)
    ensures InRange(k) && Placed(l, BlockedOn(k, pid, sid)) && SameFamily(k, BlockedOn(k, pid, sid))
    ensures IsWaiting(BlockedOn(k, pid, sid), pid, sid)
  {
    ExactInRange(k);
    var k' := BlockedOn(k, pid, sid);
    WithoutPidIs(k.ready, pid);
    forall n
      ensures n in k'.ready <==> IsQueued(k', n)
    {
      assert n.pid != pid ==> (IsQueued(k', n) <==> IsQueued(k, n));
    }
    assert !IsWaiting(k, pid, sid);
    forall s, p | 0 <= s < |k'.sems|
      ensures p in k'.sems[s].queue <==> IsWaiting(k', p, s)
    {
      assert p != pid ==> (IsWaiting(k', p, s) <==> IsWaiting(k, p, s));
      assert p in k.sems[s].queue <==> IsWaiting(k, p, s);
    }
  }

  /** Taking the first waiter off its queue and making it ready. */
  lemma WokenPlaced(l: Limits, k: Kernel, sid: int)
    requires Placed(l, k) && ValidSem(k, sid) && k.sems[sid].queue != []
    ensures InRange(k) && Placed(l, Woken(k, sid)) && SameFamily(k, Woken(k, sid))
    ensures var pid := k.sems[sid].queue[0];
            IsWaiting(k, pid, sid) && Runnable(Woken(k, sid).procs[pid].state)
  {
    var q := k.sems[sid].queue;
    var pid := q[0];
    ExactInRange(k);
    var k' := Woken(k, sid);
    assert pid in q;
    assert IsWaiting(k, pid, sid);
    InsertedIs(l, k, pid, k.procs[pid].priority);
    forall n
      ensures n in k'.ready <==> IsQueued(k', n)
    {
      assert n.pid != pid ==> (IsQueued(k', n) <==> IsQueued(k, n));
      assert n in k'.ready <==> n in k.ready || n == Node(pid, k.procs[pid].priority);
    }
    forall t, p | 0 <= t < |k'.sems|
      ensures p in k'.sems[t].queue <==> IsWaiting(k', p, t)
    {
      assert p in k.sems[t].queue <==> IsWaiting(k, p, t);
      assert p != pid ==> (IsWaiting(k', p, t) <==> IsWaiting(k, p, t));
      HeadOnlyOnce(q, p);
    }
  }

  lemma HeadOnlyOnce(q: seq<int>, p: int)
    requires Distinct(q) && q != []
    ensures p in q[1..] <==> p in q && p != q[0]
  {
    if p in q && p != q[0] {
      var i :| 0 <= i < |q| && q[i] == p;
      assert q[1..][i - 1] == p;
    }
  }

  lemma SameButSem(l: Limits, k: Kernel, sid: int, s: Sem)
    requires Placed(l, k) && 0 <= sid < |k.sems| && s.queue == k.sems[sid].queue
    requires k.sems[sid].queue == [] || s.used
    ensures Placed(l, WithSem(k, sid, s)) && SameFamily(k, WithSem(k, sid, s))
  {
    var k' := WithSem(k, sid, s);
    forall n
      ensures n in k'.ready <==> IsQueued(k', n)
    {
      assert IsQueued(k', n) <==> IsQueued(k, n);
    }
    forall t, p | 0 <= t < |k'.sems|
      ensures p in k'.sems[t].queue <==> IsWaiting(k', p, t)
    {
      assert IsWaiting(k', p, t) <==> IsWaiting(k, p, t);
      assert p in k.sems[t].queue <==> IsWaiting(k, p, t);
    }
    forall p | 0 <= p < |k'.procs| && k'.procs[p].used && k'.procs[p].state == BLOCKED
      ensures 0 <= k'.procs[p].sid < |k'.sems| && k'.sems[k'.procs[p].sid].used
    {
      assert IsWaiting(k, p, k.procs[p].sid);
      assert p in k.sems[k.procs[p].sid].queue;
    }
  }

  lemma TryPGood(l: Limits, k: Kernel, born: seq<nat>, pid: int, sid: int)
    requires Good(l, k, born) && Acting(k, pid) && ValidSem(k, sid)
    ensures InRange(k) && Good(l, TryP(k, pid, sid).0, born)
  {
    ExactInRange(k);
    var s := k.sems[sid];
    if s.value > 0 {
      SameButSem(l, k, sid, s.(value := s.value - 1));
      FamilyGood(l, k, TryP(k, pid, sid).0, born);
    } else {
      BlockPlaced(l, k, pid, sid);
      FamilyGood(l, k, BlockedOn(k, pid, sid), born);
      DispatchGood(l, BlockedOn(k, pid, sid), born, false);
    }
  }

  lemma WokenGood(l: Limits, k: Kernel, born: seq<nat>, sid: int)
    requires Good(l, k, born) && ValidSem(k, sid) && k.sems[sid].queue != []
    ensures InRange(k) && Good(l, Dispatch(Woken(k, sid), false), born)
  {
    WokenPlaced(l, k, sid);
    FamilyGood(l, k, Woken(k, sid), born);
    DispatchGood(l, Woken(k, sid), born, false);
  }

  lemma RaisedGood(l: Limits, k: Kernel, born: seq<nat>, sid: int)
    requires Good(l, k, born) && ValidSem(k, sid)
    ensures Good(l, Raised(k, sid), born)
  {
    SameButSem(l, k, sid, k.sems[sid].(value := k.sems[sid].value + 1));
    FamilyGood(l, k, Raised(k, sid), born);
  }

  lemma VGood(l: Limits, k: Kernel, born: seq<nat>, sid: int)
    requires Good(l, k, born)
    ensures InRange(k) && Good(l, V(k, sid).0, born)
  {
    ExactInRange(k);
    if ValidSem(k, sid) {
      RaisedGood(l, k, born, sid);
      if Raised(k, sid).sems[sid].queue != [] {
        WokenGood(l, Raised(k, sid), born, sid);
      }
    }
  }

  lemma SemCreateGood(l: Limits, k: Kernel, born: seq<nat>, name: Option<string>, value: nat)
    requires Good(l, k, born)
    ensures Good(l, SemCreate(l, k, name, value).0, born)
  {
    var (k', reply, j) := SemCreate(l, k, name, value);
    if reply == Reply.SUCCESS {
      UnusedHasNoWaiters(k, j);
      SameButSem(l, k, j, Sem(true, name.value, value, []));
      FamilyGood(l, k, k', born);
    }
  }

  lemma UnusedHasNoWaiters(k: Kernel, s: int)
    requires WaitersExact(k) && 0 <= s < |k.sems| && !k.sems[s].used
    ensures k.sems[s].queue == []
  {
    var q := k.sems[s].queue;
    assert q != [] ==> q[0] in q && IsWaiting(k, q[0], s);
  }

  lemma SemFreeGood(l: Limits, k: Kernel, born: seq<nat>, sid: int)
    requires Good(l, k, born)
    ensures Good(l, SemFree(k, sid).0, born)
  {
    if SemFree(k, sid).1 == Reply.SUCCESS {
      SameButSem(l, k, sid, k.sems[sid].(used := false));
      FamilyGood(l, k, SemFree(k, sid).0, born);
    }
  }

  // ---------------------------------------------------------------- joining and reaping

  /** A runnable process leaving the ready queue for good or to join. */
  lemma LeavePlaced(l: Limits, k: Kernel, pid: int, state: State, status: int)
    requires Placed(l, k) && Acting(k, pid) && (state == JOINING || state == QUIT)
    requires state == JOINING ==> k.procs[pid].quitChildren == []
    ensures InRange(k)
    ensures var k1 := SetState(k, pid, state, 0).0;
            Placed(l, k1) && Placed(l, WithProc(k1, pid, k1.procs[pid].(status := status)))
  {
    ExactInRange(k);
    WithoutPidIs(k.ready, pid);
    var k1 := SetState(k, pid, state, 0).0;
    var k2 := WithProc(k1, pid, k1.procs[pid].(status := status));
    forall n
      ensures IsQueued(k1, n) <==> IsQueued(k, n) && n.pid != pid
      ensures IsQueued(k2, n) <==> IsQueued(k1, n)
    {
    }
    forall p, s
      ensures (IsWaiting(k1, p, s) <==> IsWaiting(k, p, s)) && (IsWaiting(k2, p, s) <==> IsWaiting(k, p, s))
    {
    }
  }

  lemma JoinedGood(l: Limits, k: Kernel, born: seq<nat>, pid: int)
    requires Good(l, k, born) && Acting(k, pid)
    ensures InRange(k) && Good(l, SetState(k, pid, JOINING, -1).0, born)
  {
    ExactInRange(k);
    if k.procs[pid].quitChildren == [] {
      LeavePlaced(l, k, pid, JOINING, 0);
      var k1 := SetState(k, pid, JOINING, -1).0;
      assert k1 == SetState(k, pid, JOINING, 0).0;
      FamilyGood(l, k, k1, born);
    }
  }

  lemma JoinGood(l: Limits, k: Kernel, born: seq<nat>, pid: int)
    requires Good(l, k, born) && Acting(k, pid)
    ensures InRange(k) && Good(l, JoinWait(k, pid), born)
  {
    JoinedGood(l, k, born, pid);
    DispatchGood(l, SetState(k, pid, JOINING, -1).0, born, false);
  }

  lemma RemovedAt<T>(s: seq<T>, i: nat)
    requires Distinct(s) && i < |s|
    ensures Distinct(s[..i] + s[i + 1..])
    ensures forall y :: y in s[..i] + s[i + 1..] <==> y in s && y != s[i]
  {
    var r := s[..i] + s[i + 1..];
    forall y
      ensures y in r <==> y in s && y != s[i]
    {
      if y in s && y != s[i] {
        var j :| 0 <= j < |s| && s[j] == y;
        assert r[if j < i then j else j - 1] == y;
      }
      if y in r {
        var j :| 0 <= j < |r| && r[j] == y;
        assert s[if j < i then j else j + 1] == y;
      }
    }
  }

  lemma RemovedIs(s: seq<int>, x: int)
    requires Distinct(s)
    ensures Distinct(Removed(s, x))
    ensures forall y :: y in Removed(s, x) <==> y in s && y != x
  {
    var i := FirstIndex(s, (y: int) => y == x);
    if i != -1 {
      RemovedAt(s, i);
    } else {
      assert forall j :: 0 <= j < |s| ==> !((y: int) => y == x)(s[j]);
    }
  }

  /** Child c of `me` is reaped: its slots are free and it is off the quit list. */
  ghost predicate Reaped(l: Limits, k: Kernel, k': Kernel, c: int, me: int) {
    && 0 <= me < |k.procs| && 0 <= c < |k.procs| && c != me && Live(k, me)
    && |k.procs| == |k.contexts| == l.maxProc
    && IsZombieOf(k, c, me)
    && |k'.procs| == |k.procs|
    && k' == k.(procs := k'.procs, contexts := k.contexts[c := false])
    && k'.procs == k.procs[c := k.procs[c].(used := false, state := FREE)]
                          [me := k.procs[me].(quitChildren := k'.procs[me].quitChildren)]
    && Distinct(k'.procs[me].quitChildren)
    && (forall y :: y in k'.procs[me].quitChildren <==> y in k.procs[me].quitChildren && y != c)
  }

  /** What reaping hands back: a quit child with the tag, its status, and its slots. */
  lemma ReapFacts(l: Limits, k: Kernel, born: seq<nat>, tag: int)
    requires Good(l, k, born) && k.ready != []
    requires InRange(k) && GetChildStatus(k, tag).1 == Reply.SUCCESS
    ensures var (k', _, c, status) := GetChildStatus(k, tag);
            && Reaped(l, k, k', c, Current(k)) && k.procs[c].tag == tag && status == k.procs[c].status
            && c in k.procs[Current(k)].quitChildren
  {
    CurrentRuns(l, k);
    var me := Current(k);
    var quits := k.procs[me].quitChildren;
    var i := FirstWithTag(k.procs, quits, tag);
    assert Live(k, me) && QuitListSound(k, me);
    assert quits[i] in quits && IsZombieOf(k, quits[i], me);
    RemovedAt(quits, i);
  }

  lemma ReapGood(l: Limits, k: Kernel, born: seq<nat>, tag: int)
    requires Good(l, k, born) && k.ready != []
    ensures InRange(k) && Good(l, GetChildStatus(k, tag).0, born)
  {
    CurrentRuns(l, k);
    var (k', reply, c, _) := GetChildStatus(k, tag);
    if reply == Reply.SUCCESS {
      ReapFacts(l, k, born, tag);
      ReapPlaced(l, k, k', c, Current(k));
      ReapFamily(l, k, k', born, c, Current(k));
    }
  }

  lemma ReapPlaced(l: Limits, k: Kernel, k': Kernel, c: int, me: int)
    requires Placed(l, k) && Reaped(l, k, k', c, me)
    ensures Placed(l, k')
  {
    forall n
      ensures IsQueued(k', n) <==> IsQueued(k, n)
    {
    }
    forall p, s
      ensures IsWaiting(k', p, s) <==> IsWaiting(k, p, s)
    {
    }
  }

  lemma ReapQuitLists(l: Limits, k: Kernel, k': Kernel, c: int, me: int)
    requires QuitListsSound(k) && Reaped(l, k, k', c, me)
    ensures QuitListsSound(k')
  {
    forall q
      ensures QuitListSound(k', q)
    {
      assert QuitListSound(k, q);
      assert forall x :: x != c && IsZombieOf(k, x, q) ==> IsZombieOf(k', x, q);
    }
  }

  lemma ReapTree(l: Limits, k: Kernel, k': Kernel, born: seq<nat>, c: int, me: int)
    requires |born| == |k.procs| && TreeSound(k, born) && Reaped(l, k, k', c, me)
    ensures TreeSound(k', born)
  {
    forall p
      ensures HasParent(k', born, p) && ChildrenSound(k', p)
    {
      assert HasParent(k, born, p) && ChildrenSound(k, p);
      assert forall x :: IsChildOf(k, x, p) ==> IsChildOf(k', x, p);
    }
  }

  lemma ReapFamily(l: Limits, k: Kernel, k': Kernel, born: seq<nat>, c: int, me: int)
    requires Good(l, k, born) && Reaped(l, k, k', c, me) && Runnable(k.procs[me].state)
    requires Placed(l, k')
    ensures Good(l, k', born)
  {
    ReapQuitLists(l, k, k', c, me);
    ReapTree(l, k, k', born, c, me);
  }

  // ---------------------------------------------------------------- forking

  /** The first free process slot is the first free context slot, so a fork that has
      found the one is given the other: the assertion on its context cannot fail. */
  lemma SlotsAgree(l: Limits, k: Kernel, stack: int)
    requires Shape(l, k) && SlotsMatch(k)
    ensures FirstUnusedProc(k) == FirstUnusedContext(k.contexts)
    ensures FirstUnusedProc(k) != -1 && stack >= l.minStack ==>
              ContextCreate(l, k.contexts, stack)
                == (k.contexts[FirstUnusedProc(k) := true], Reply.SUCCESS, FirstUnusedProc(k))
  {
    var p, u := (b: PCB) => !b.used, (u: bool) => !u;
    forall i | 0 <= i < l.maxProc
      ensures p(k.procs[i]) == u(k.contexts[i])
    {
    }
    var j, i := FirstUnusedProc(k), FirstUnusedContext(k.contexts);
    assert j >= 0 ==> p(k.procs[j]) == u(k.contexts[j]);
    assert i >= 0 ==> p(k.procs[i]) == u(k.contexts[i]);
  }

  /** What a fork changes: slot j, the queue's end, and the parent's list of children. */
  ghost predicate Adopted(l: Limits, k: Kernel, k': Kernel, j: int, priority: int) {
    && |k.procs| == |k.contexts| == l.maxProc && |k'.procs| == |k.procs|
    && 0 <= j < |k.procs| && !k.procs[j].used
    && k'.contexts == k.contexts[j := true] && k'.sems == k.sems && !k'.first && k'.halted == k.halted
    && k'.ready == k.ready + [Node(j, priority)] && DistinctPids(k'.ready)
    && var b := k'.procs[j];
       && b.used && b.cid == j && b.priority == priority && b.state == RUNNING && b.children == []
         && b.quitChildren == []
       && (if k.first
           then j == 0 && k.ready == [] && k'.procs == k.procs[j := b]
           else
             && k.ready != [] && 0 <= Current(k) < |k.procs| && Current(k) != j && b.parent == Current(k)
             && var parent := k.procs[Current(k)];
                k'.procs == k.procs[j := b][Current(k) := parent.(children := parent.children + [j])])
  }

  lemma ForkAdopts(l: Limits, k: Kernel, name: string, stack: int, priority: int, tag: int)
    requires Placed(l, k) && stack >= l.minStack && FirstUnusedProc(k) != -1
    requires (k.first ==> k.ready == []) && (!k.first ==> k.ready != [])
    requires k.first ==> forall p :: 0 <= p < |k.procs| ==> !k.procs[p].used
    ensures InRange(k) && Adopted(l, k, Forked(l, k, name, stack, priority, tag), FirstUnusedProc(k), priority)
  {
    var j := FirstUnusedProc(k);
    ExactInRange(k);
    SlotsAgree(l, k, stack);
    if k.ready != [] {
      CurrentRuns(l, k);
    }
    InsertedIs(l, k, j, priority);
    assert k.first ==> ((b: PCB) => !b.used)(k.procs[0]);
  }

  lemma AdoptedPlaced(l: Limits, k: Kernel, k': Kernel, j: int, priority: int)
    requires Placed(l, k) && Adopted(l, k, k', j, priority)
    ensures Placed(l, k')
  {
    forall n
      ensures n in k'.ready <==> IsQueued(k', n)
    {
      assert n.pid != j ==> (IsQueued(k', n) <==> IsQueued(k, n));
      assert n.pid == j ==> !IsQueued(k, n);
    }
    forall p, s
      ensures IsWaiting(k', p, s) <==> IsWaiting(k, p, s)
    {
    }
  }

  lemma AdoptedParent(l: Limits, k: Kernel, k': Kernel, born: seq<nat>, now: nat, j: int, priority: int, p: int)
    requires |born| == |k.procs| && TreeSound(k, born) && Adopted(l, k, k', j, priority)
    requires forall i :: 0 <= i < |born| ==> born[i] < now
    requires !k.first ==> Live(k, Current(k))
    ensures HasParent(k', born[j := now], p)
  {
    assert HasParent(k, born, p);
    if p == j && !k.first {
      assert k'.procs[Current(k)].children[|k'.procs[Current(k)].children| - 1] == j;
    }
  }

  lemma AdoptedChildren(l: Limits, k: Kernel, k': Kernel, j: int, priority: int, q: int)
    requires Adopted(l, k, k', j, priority) && ChildrenSound(k, q)
    requires if k.first then forall i :: 0 <= i < |k.procs| ==> !k.procs[i].used else Live(k, Current(k)) && Live(k, 0)
    ensures ChildrenSound(k', q)
  {
    assert !IsChildOf(k, j, q);
    assert forall c :: IsChildOf(k, c, q) ==> IsChildOf(k', c, q);
  }

  lemma AdoptedTree(l: Limits, k: Kernel, k': Kernel, born: seq<nat>, now: nat, j: int, priority: int)
    requires Good(l, k, born) && !k.halted && Adopted(l, k, k', j, priority)
    requires forall p :: 0 <= p < |born| ==> born[p] < now
    requires k.ready != [] ==> Live(k, Current(k))
    ensures TreeSound(k', born[j := now])
  {
    var born' := born[j := now];
    forall p
      ensures HasParent(k', born', p)
    {
      AdoptedParent(l, k, k', born, now, j, priority, p);
    }
    forall q
      ensures ChildrenSound(k', q)
    {
      assert ChildrenSound(k, q);
      AdoptedChildren(l, k, k', j, priority, q);
    }
  }

  lemma AdoptedQuitLists(l: Limits, k: Kernel, k': Kernel, j: int, priority: int)
    requires Placed(l, k) && QuitListsSound(k) && JoinersWait(k) && Adopted(l, k, k', j, priority)
    ensures QuitListsSound(k') && JoinersWait(k')
  {
    forall q
      ensures QuitListSound(k', q)
    {
      assert QuitListSound(k, q);
      assert forall c :: IsZombieOf(k, c, q) ==> IsZombieOf(k', c, q);
    }
  }

  /** A successful fork in two stages: the process is adopted, then perhaps dispatched. */
  lemma ForkStages(l: Limits, k: Kernel, born: seq<nat>, name: Option<string>, stack: int, priority: int, tag: int)
    returns (k1: Kernel, j: int)
    requires Good(l, k, born) && !k.halted && (!k.first ==> k.ready != []) && InRange(k)
    requires Fork(l, k, name, stack, priority, tag).1 == Reply.SUCCESS
    ensures j == Fork(l, k, name, stack, priority, tag).2 && Adopted(l, k, k1, j, priority) && Placed(l, k1)
    ensures InRange(k1)
    ensures Fork(l, k, name, stack, priority, tag).0 in {k1, Dispatch(k1, false)}
  {
    j := FirstUnusedProc(k);
    k1 := Forked(l, k, name.value, stack, priority, tag);
    ForkAdopts(l, k, name.value, stack, priority, tag);
    AdoptedPlaced(l, k, k1, j, priority);
    ExactInRange(k1);
  }

  /** A fork keeps the invariant, the new process being the youngest. */
  lemma ForkGood(l: Limits, k: Kernel, born: seq<nat>, now: nat, name: Option<string>, stack: int, priority: int,
                 tag: int)
    requires Good(l, k, born) && !k.halted && (!k.first ==> k.ready != [])
    requires forall p :: 0 <= p < |born| ==> born[p] < now
    ensures InRange(k)
    ensures var (k', reply, j) := Fork(l, k, name, stack, priority, tag);
            if reply == Reply.SUCCESS then 0 <= j < l.maxProc && Good(l, k', born[j := now]) else k' == k
  {
    ExactInRange(k);
    if ForkReply(l, k, name, stack, priority, tag) == Reply.SUCCESS {
      var j := FirstUnusedProc(k);
      var k1 := Forked(l, k, name.value, stack, priority, tag);
      ForkAdopts(l, k, name.value, stack, priority, tag);
      AdoptedPlaced(l, k, k1, j, priority);
      if k.ready != [] {
        CurrentRuns(l, k);
      }
      AdoptedTree(l, k, k1, born, now, j, priority);
      AdoptedQuitLists(l, k, k1, j, priority);
      assert Good(l, k1, born[j := now]);
      DispatchGood(l, k1, born[j := now], false);
    }
  }

  // ---------------------------------------------------------------- quitting

  /** Process 0 is the oldest live process. */
  lemma {:induction false} RootIsOldest(k: Kernel, born: seq<nat>, p: int)
    requires |born| == |k.procs| && TreeSound(k, born) && Live(k, p) && p != 0
    ensures Live(k, 0) && born[0] < born[p]
    decreases born[p]
  {
    assert HasParent(k, born, p);
    if k.procs[p].parent != 0 {
      RootIsOldest(k, born, k.procs[p].parent);
    }
  }

  /** What a quit of pid (not process 0) changes before the parent is notified. */
  ghost predicate Departed(l: Limits, k: Kernel, k': Kernel, pid: int, parent: int, status: int) {
    && |k.procs| == |k'.procs| == l.maxProc && 0 < pid < l.maxProc && 0 <= parent < l.maxProc && parent != pid
    && k' == k.(procs := k'.procs, ready := k'.ready)
    && (forall p :: 0 <= p < |k.procs| ==>
          var b, b' := k.procs[p], k'.procs[p];
          && b' == b.(state := b'.state, status := b'.status, parent := b'.parent, children := b'.children,
                      quitChildren := b'.quitChildren)
          && b'.state == (if p == pid then QUIT else b.state)
          && b'.status == (if p == pid then status else b.status)
          && b'.parent == (if p in k.procs[pid].children then 0 else b.parent)
          && b'.quitChildren == (if p == parent then b.quitChildren + [pid] else b.quitChildren)
          && b'.children == (if p == parent then Removed(Inherited(k, pid, p), pid) else Inherited(k, pid, p)))
  }

  /** p's children once process 0 has taken over pid's. */
  function Inherited(k: Kernel, pid: int, p: int): seq<int>
    requires 0 <= p < |k.procs| && 0 <= pid < |k.procs|
  {
    if p == 0 then k.procs[0].children + k.procs[pid].children else k.procs[p].children
  }

  lemma InheritedIs(k: Kernel, born: seq<nat>, pid: int, p: int)
    requires |born| == |k.procs| && TreeSound(k, born) && Live(k, 0) && Live(k, pid) && Live(k, p) && pid != 0
    ensures Distinct(Inherited(k, pid, p)) && Distinct(Removed(Inherited(k, pid, p), pid))
    ensures forall c :: c in Removed(Inherited(k, pid, p), pid) <==> c in Inherited(k, pid, p) && c != pid
    ensures forall c :: c in Inherited(k, pid, p) <==>
                        c in k.procs[p].children || (p == 0 && c in k.procs[pid].children)
  {
    assert ChildrenSound(k, p);
    RootChildrenDistinct(k, born, pid);
    RemovedIs(Inherited(k, pid, p), pid);
  }

  /** A process other than process 0, its parent and process 0 when it quits. */
  lemma QuitterFacts(l: Limits, k: Kernel, born: seq<nat>, pid: int)
    requires Good(l, k, born) && Acting(k, pid) && pid != 0
    ensures InRange(k) && Live(k, 0)
    ensures var parent := k.procs[pid].parent;
            Live(k, parent) && parent != pid && pid !in k.procs[pid].children
  {
    ExactInRange(k);
    assert Live(k, pid);
    assert HasParent(k, born, pid) && ChildrenSound(k, pid);
    RootIsOldest(k, born, pid);
  }

  lemma StoppedProcs(l: Limits, k: Kernel, pid: int, status: int)
    requires Shape(l, k) && InRange(k) && Acting(k, pid)
    ensures var k1 := Stopped(k, pid, status);
            k1 == k.(procs := k.procs[pid := k.procs[pid].(state := QUIT, status := status)], ready := k1.ready)
  {
  }

  lemma HandedInProcs(l: Limits, k: Kernel, pid: int, parent: int)
    requires Shape(l, k) && 0 < pid < l.maxProc && 0 <= parent < l.maxProc && pid != parent
    ensures var k' := HandedIn(Reparented(k, pid), pid, parent);
            && |k'.procs| == |k.procs| && k' == k.(procs := k'.procs)
            && forall p :: 0 <= p < |k.procs| ==>
                 k'.procs[p] == k.procs[p].(parent := if p in k.procs[pid].children then 0 else k.procs[p].parent,
                                            quitChildren := if p == parent then k.procs[p].quitChildren + [pid]
                                                            else k.procs[p].quitChildren,
                                            children := if p == parent then Removed(Inherited(k, pid, p), pid)
                                                        else Inherited(k, pid, p))
  {
  }

  lemma QuitDeparts(l: Limits, k: Kernel, pid: int, status: int)
    requires Shape(l, k) && InRange(k) && Acting(k, pid) && pid != 0
    requires 0 <= k.procs[pid].parent < l.maxProc && k.procs[pid].parent != pid && pid !in k.procs[pid].children
    ensures var parent := k.procs[pid].parent;
            && Reparented(Stopped(k, pid, status), pid).procs[pid].parent == parent
            && Departed(l, k, HandedIn(Reparented(Stopped(k, pid, status), pid), pid, parent), pid, parent, status)
  {
    StoppedProcs(l, k, pid, status);
    HandedInProcs(l, Stopped(k, pid, status), pid, k.procs[pid].parent);
    SameInherited(k, Stopped(k, pid, status), pid);
  }

  lemma SameInherited(k: Kernel, k': Kernel, pid: int)
    requires 0 <= pid < |k.procs| == |k'.procs|
    requires forall p :: 0 <= p < |k.procs| ==> k'.procs[p].children == k.procs[p].children
    ensures forall p :: 0 <= p < |k.procs| ==> Inherited(k', pid, p) == Inherited(k, pid, p)
  {
  }

  lemma RootChildrenDistinct(k: Kernel, born: seq<nat>, pid: int)
    requires |born| == |k.procs| && TreeSound(k, born) && Live(k, 0) && Live(k, pid) && pid != 0
    ensures Distinct(k.procs[0].children + k.procs[pid].children)
  {
    var a, b := k.procs[0].children, k.procs[pid].children;
    assert ChildrenSound(k, 0) && ChildrenSound(k, pid);
    forall c | c in a
      ensures c !in b
    {
      assert IsChildOf(k, c, 0);
    }
    forall i, j | 0 <= i < j < |a + b|
      ensures (a + b)[i] != (a + b)[j]
    {
      if i < |a| <= j {
        assert a[i] in a && b[j - |a|] in b;
      }
    }
  }

  lemma FamilyFieldsPlaced(l: Limits, k: Kernel, k': Kernel)
    requires Placed(l, k) && |k'.procs| == |k.procs| && k' == k.(procs := k'.procs)
    requires forall p :: 0 <= p < |k.procs| ==>
               k'.procs[p] == k.procs[p].(parent := k'.procs[p].parent, children := k'.procs[p].children,
                                          quitChildren := k'.procs[p].quitChildren)
    ensures Placed(l, k')
  {
    forall n
      ensures IsQueued(k', n) <==> IsQueued(k, n)
    {
    }
    forall p, s
      ensures IsWaiting(k', p, s) <==> IsWaiting(k, p, s)
    {
    }
  }

  lemma NotifiedQueue(l: Limits, k: Kernel, parent: int)
    requires Placed(l, k) && 0 <= parent < |k.procs| && k.procs[parent].used && k.procs[parent].state == JOINING
    ensures QueueExact(Notified(k, parent))
    ensures Notified(k, parent)
              == WithProc(k, parent, k.procs[parent].(state := READY)).(ready := Notified(k, parent).ready)
  {
    var k' := Notified(k, parent);
    ExactInRange(k);
    InsertedIs(l, k, parent, k.procs[parent].priority);
    forall n
      ensures n in k'.ready <==> IsQueued(k', n)
    {
      assert n.pid != parent ==> (IsQueued(k', n) <==> IsQueued(k, n));
    }
  }

  /** Readying a joining process. */
  lemma NotifiedPlaced(l: Limits, k: Kernel, parent: int)
    requires Placed(l, k) && 0 <= parent < |k.procs| && k.procs[parent].used
    ensures Placed(l, Notified(k, parent)) && SameFamily(k, Notified(k, parent))
    ensures Notified(k, parent).procs[parent].state != JOINING
    ensures forall p :: 0 <= p < |k.procs| && p != parent ==> Notified(k, parent).procs[p] == k.procs[p]
  {
    if k.procs[parent].state == JOINING {
      NotifiedQueue(l, k, parent);
      var k' := Notified(k, parent);
      forall p, s
        ensures IsWaiting(k', p, s) <==> IsWaiting(k, p, s)
      {
      }
    }
  }

  ghost predicate QuitterSound(l: Limits, k: Kernel, k': Kernel, born: seq<nat>, pid: int, parent: int, status: int) {
    && |born| == |k.procs| && TreeSound(k, born) && Departed(l, k, k', pid, parent, status)
    && Live(k, pid) && Live(k, parent) && Live(k, 0) && k.procs[pid].parent == parent
  }

  lemma DepartedParents(l: Limits, k: Kernel, k': Kernel, born: seq<nat>, pid: int, parent: int, status: int, p: int)
    requires QuitterSound(l, k, k', born, pid, parent, status)
    ensures HasParent(k', born, p)
  {
    assert HasParent(k, born, p) && ChildrenSound(k, pid);
    if Live(k, p) && p != 0 {
      RootIsOldest(k, born, p);
      assert p in k.procs[pid].children ==> IsChildOf(k, p, pid);
      InheritedIs(k, born, pid, k'.procs[p].parent);
    }
  }

  lemma DepartedChildren(l: Limits, k: Kernel, k': Kernel, born: seq<nat>, pid: int, parent: int, status: int, q: int)
    requires QuitterSound(l, k, k', born, pid, parent, status)
    ensures ChildrenSound(k', q)
  {
    assert ChildrenSound(k, q) && ChildrenSound(k, pid);
    if Live(k', q) {
      InheritedIs(k, born, pid, q);
      forall c | c in k'.procs[q].children
        ensures IsChildOf(k', c, q)
      {
        assert c in k.procs[q].children ==> IsChildOf(k, c, q);
        assert c in k.procs[pid].children ==> IsChildOf(k, c, pid);
      }
    }
  }

  lemma DepartedTree(l: Limits, k: Kernel, k': Kernel, born: seq<nat>, pid: int, parent: int, status: int)
    requires QuitterSound(l, k, k', born, pid, parent, status)
    ensures TreeSound(k', born)
  {
    forall p
      ensures HasParent(k', born, p) && ChildrenSound(k', p)
    {
      DepartedParents(l, k, k', born, pid, parent, status, p);
      DepartedChildren(l, k, k', born, pid, parent, status, p);
    }
  }

  lemma DepartedQuitLists(l: Limits, k: Kernel, k': Kernel, born: seq<nat>, pid: int, parent: int, status: int)
    requires QuitterSound(l, k, k', born, pid, parent, status) && QuitListsSound(k)
    ensures QuitListsSound(k')
  {
    assert ChildrenSound(k, pid);
    forall q
      ensures QuitListSound(k', q)
    {
      assert QuitListSound(k, q) && !IsZombieOf(k, pid, q) && !IsChildOf(k, pid, pid);
      forall c | IsZombieOf(k, c, q)
        ensures IsZombieOf(k', c, q)
      {
        assert !IsChildOf(k, c, pid);
      }
    }
  }

  lemma QuitPlaced(l: Limits, k: Kernel, pid: int, status: int)
    requires Placed(l, k) && Acting(k, pid)
    ensures InRange(k) && Placed(l, Stopped(k, pid, status))
  {
    LeavePlaced(l, k, pid, QUIT, status);
  }

  lemma NotifiedGood(l: Limits, k: Kernel, born: seq<nat>, parent: int)
    requires Placed(l, k) && |born| == l.maxProc && TreeSound(k, born) && QuitListsSound(k) && RootLives(k) && !k.first
    requires Live(k, parent)
    requires forall p :: 0 <= p < |k.procs| && p != parent && k.procs[p].used && k.procs[p].state == JOINING ==>
               k.procs[p].quitChildren == []
    ensures Good(l, Notified(k, parent), born)
  {
    NotifiedPlaced(l, k, parent);
    FamilyKept(k, Notified(k, parent), born);
  }

  /** Whoever quits leaves a state in which only its parent may be joining with a quit
      child, and that parent is told next. */
  lemma DepartedGood(l: Limits, k: Kernel, k': Kernel, born: seq<nat>, pid: int, parent: int, status: int)
    requires Good(l, k, born) && !k.first && Placed(l, k')
    requires QuitterSound(l, k, k', born, pid, parent, status) && pid != 0
    ensures Good(l, Notified(k', parent), born)
  {
    DepartedTree(l, k, k', born, pid, parent, status);
    DepartedQuitLists(l, k, k', born, pid, parent, status);
    assert Live(k', 0) && Live(k', parent);
    forall p | 0 <= p < |k'.procs| && p != parent && k'.procs[p].used && k'.procs[p].state == JOINING
      ensures k'.procs[p].quitChildren == []
    {
      assert k.procs[p].used && k.procs[p].state == JOINING;
    }
    NotifiedGood(l, k', born, parent);
  }

  lemma HandedInPlaced(l: Limits, k: Kernel, pid: int, parent: int)
    requires Placed(l, k) && 0 < pid < |k.procs| && 0 <= parent < |k.procs|
    ensures Placed(l, HandedIn(Reparented(k, pid), pid, parent))
  {
    FamilyFieldsPlaced(l, k, HandedIn(Reparented(k, pid), pid, parent));
  }

  /** The quit in two stages: the process departs, then its parent is told and the next
      process runs. */
  lemma QuitStages(l: Limits, k: Kernel, born: seq<nat>, pid: int, status: int) returns (k2: Kernel, parent: int)
    requires Good(l, k, born) && Acting(k, pid) && pid != 0
    ensures InRange(k) && parent == k.procs[pid].parent && 0 <= parent < |k.procs|
    ensures QuitterSound(l, k, k2, born, pid, parent, status) && Placed(l, k2)
    ensures k2 == HandedIn(Reparented(Stopped(k, pid, status), pid), pid, parent)
    ensures InRange(k2) && Quit(k, pid, status) == Dispatch(Notified(k2, parent), false)
  {
    QuitterFacts(l, k, born, pid);
    parent := k.procs[pid].parent;
    QuitDeparts(l, k, pid, status);
    QuitPlaced(l, k, pid, status);
    HandedInPlaced(l, Stopped(k, pid, status), pid, parent);
    k2 := HandedIn(Reparented(Stopped(k, pid, status), pid), pid, parent);
  }

  /** A quit keeps the invariant, whichever runnable process it takes: children are handed
      on, the parent is told. */
  lemma QuitGood(l: Limits, k: Kernel, born: seq<nat>, pid: int, status: int)
    requires Good(l, k, born) && !k.halted && Acting(k, pid) && pid != 0
    ensures InRange(k) && 0 <= k.procs[pid].parent < |k.procs|
    ensures Good(l, Quit(k, pid, status), born)
  {
    var k2, parent := QuitStages(l, k, born, pid, status);
    DepartedGood(l, k, k2, born, pid, parent, status);
    DispatchGood(l, Notified(k2, parent), born, false);
  }

  /** When process 0 quits with no children at all, nobody is left to run: the ready
      queue is empty and the machine halts. With children it halts at once. */
  lemma RootQuitEndsAll(l: Limits, k: Kernel, born: seq<nat>, status: int)
    requires Good(l, k, born) && !k.halted && Acting(k, 0)
    ensures InRange(k) && Quit(k, 0, status).halted && Quit(k, 0, status).sems == k.sems
    ensures Quit(k, 0, status).procs == k.procs[0 := k.procs[0].(state := QUIT, status := status)]
    ensures k.procs[0].children == [] ==> Stopped(k, 0, status).ready == [] && forall p :: Live(k, p) ==> p == 0
  {
    ExactInRange(k);
    QuitPlaced(l, k, 0, status);
    StoppedProcs(l, k, 0, status);
    if k.procs[0].children == [] {
      forall p | Live(k, p)
        ensures p == 0
      {
        OnlyRoot(k, born, p);
      }
      var k1 := Stopped(k, 0, status);
      assert forall n :: IsQueued(k1, n) ==> Live(k, n.pid) && n.pid != 0;
      EmptyIfNone(k1.ready);
    }
  }

  lemma EmptyIfNone(q: seq<Node>)
    requires forall n :: n !in q
    ensures q == []
  {
    HeadIsIn(q);
  }

  lemma HeadIsIn(q: seq<Node>)
    ensures q != [] ==> q[0] in q
  {
  }

  lemma {:induction false} OnlyRoot(k: Kernel, born: seq<nat>, p: int)
    requires |born| == |k.procs| && TreeSound(k, born) && Live(k, 0) && Live(k, p) && k.procs[0].children == []
    ensures p == 0
    decreases born[p]
  {
    assert HasParent(k, born, p);
    if p != 0 {
      OnlyRoot(k, born, k.procs[p].parent);
    }
  }
}

/** What each kernel operation answers and what it changes, said of the tables themselves:
    which slot, which field, which place in which queue, and that nothing else changes. An
    operation that ends in a dispatch is described up to that point, by the state it
    leaves for the dispatch, and then by NextRuns. */
module KernelEffects {
  import opened Common
  import opened ReadyQueue
  import opened DispatchOrder
  import opened Kernel
  import opened KernelSteps
  import KernelRuns

  predicate InUse(k: Kernel, p: int) {
    0 <= p < |k.procs| && k.procs[p].used
  }

  /** What P1_GetPid looks for. */
  predicate Marked(k: Kernel, p: int) {
    InUse(k, p) && k.procs[p].state == RUNNING
  }

  /** P1_GetPid names the first process marked RUNNING, and -1 if there is none. */
  lemma ScanFindsFirst(k: Kernel, p: int)
    ensures Marked(k, p) && (forall i :: 0 <= i < p ==> !Marked(k, i)) ==> GetPid(k) == p
    ensures GetPid(k) == -1 <==> forall i :: 0 <= i < |k.procs| ==> !Marked(k, i)
    ensures GetPid(k) != -1 ==> Marked(k, GetPid(k))
  {
    var running := (b: PCB) => b.used && b.state == RUNNING;
    assert forall i :: 0 <= i < |k.procs| ==> (running(k.procs[i]) <==> Marked(k, i));
  }

  // ---------------------------------------------------------------- contexts

  /** P1ContextCreate refuses a small stack, then a full table, and otherwise takes the
      first free slot; a refusal changes nothing. */
  lemma ContextCreateEffect(l: Limits, contexts: seq<bool>, stack: int)
    ensures var (contexts', reply, cid) := ContextCreate(l, contexts, stack);
            var full := forall i :: 0 <= i < |contexts| ==> contexts[i];
            && (reply == INVALID_STACK <==> stack < l.minStack)
            && (reply == TOO_MANY_CONTEXTS <==> stack >= l.minStack && full)
            && (reply == Reply.SUCCESS <==> stack >= l.minStack && !full)
            && (reply != Reply.SUCCESS ==> contexts' == contexts)
            && (reply == Reply.SUCCESS ==>
                  && 0 <= cid < |contexts| && !contexts[cid] && (forall i :: 0 <= i < cid ==> contexts[i])
                  && contexts' == contexts[cid := true])
  {
    var free := (u: bool) => !u;
    assert forall i :: 0 <= i < |contexts| ==> (free(contexts[i]) <==> !contexts[i]);
  }

  /** P1ContextFree frees a slot in use, and only such: freeing it again is refused. */
  lemma ContextFreeEffect(contexts: seq<bool>, cid: int)
    ensures var (contexts', reply) := ContextFree(contexts, cid);
            && (reply == Reply.SUCCESS <==> 0 <= cid < |contexts| && contexts[cid])
            && (reply == Reply.SUCCESS ==> contexts' == contexts[cid := false])
            && (reply != Reply.SUCCESS ==> reply == INVALID_CID && contexts' == contexts)
            && ContextFree(contexts', cid) == (contexts', INVALID_CID)
  {
  }

  // ---------------------------------------------------------------- states and dispatching

  /** Process pid, in the ready queue from now on: at the end, unless it was there. */
  ghost predicate Queued(k: Kernel, k': Kernel, pid: int)
    requires 0 <= pid < |k.procs|
  {
    k'.ready == if HasPid(k.ready, pid) then k.ready else k.ready + [Node(pid, k.procs[pid].priority)]
  }

  /** Process pid has the new state, and the semaphore if it is blocked; only a READY
      process is in the ready queue afterwards. */
  ghost predicate StateChanged(k: Kernel, k': Kernel, pid: int, state: State, sid: int) {
    && 0 <= pid < |k.procs|
    && k' == k.(procs := k'.procs, ready := k'.ready)
    && k'.procs == k.procs[pid := k.procs[pid].(state := state,
                                                sid := if state == BLOCKED then sid else k.procs[pid].sid)]
    && (if state == READY then Queued(k, k', pid) else TakenOut(k.ready, k'.ready, pid))
  }

  /** P1SetState: a state that cannot be set, a process not in use, a join with children to
      reap are refused in this order and change nothing. */
  lemma SetStateEffect(l: Limits, k: Kernel, pid: int, state: State, sid: int)
    requires Placed(l, k)
    ensures var (k', reply) := SetState(k, pid, state, sid);
            var fixed := state == RUNNING || state == FREE;
            var reapFirst := InUse(k, pid) && state == JOINING && k.procs[pid].quitChildren != [];
            && (reply == INVALID_STATE <==> fixed)
            && (reply == INVALID_PID <==> !fixed && !InUse(k, pid))
            && (reply == CHILD_QUIT <==> reapFirst)
            && (reply == Reply.SUCCESS <==> !fixed && InUse(k, pid) && !reapFirst)
            && (if reply == Reply.SUCCESS then StateChanged(k, k', pid, state, sid) else k' == k)
  {
    if SetState(k, pid, state, sid).1 == Reply.SUCCESS {
      SetStateChanges(l, k, pid, state, sid);
    }
  }

  lemma SetStateChanges(l: Limits, k: Kernel, pid: int, state: State, sid: int)
    requires Placed(l, k) && SetState(k, pid, state, sid).1 == Reply.SUCCESS
    ensures StateChanged(k, SetState(k, pid, state, sid).0, pid, state, sid)
  {
    WithoutPidOrder(k.ready, pid);
    InsertNeverDrops(l, k, pid, k.procs[pid].priority);
  }

  /** State k' is k after P1Dispatch: with nobody to run the machine halts; otherwise the
      queue is reordered, its new head is RUNNING, and an old head that was replaced is
      READY. */
  ghost predicate NextRuns(k: Kernel, k': Kernel, rotate: bool) {
    if k.ready == [] then k' == k.(halted := true)
    else
      && Reordered(k.ready, k'.ready, rotate)
      && k' == k.(procs := k'.procs, ready := k'.ready) && |k'.procs| == |k.procs|
      && forall p :: 0 <= p < |k.procs| ==>
           k'.procs[p] == k.procs[p].(state := if p == k'.ready[0].pid then RUNNING
                                               else if p == k.ready[0].pid then READY else k.procs[p].state)
  }

  lemma DispatchEffect(k: Kernel, rotate: bool)
    requires InRange(k)
    ensures NextRuns(k, Dispatch(k, rotate), rotate)
  {
    if k.ready != [] {
      DispatchPlaces(k.ready, rotate);
      DispatchPermutes(k.ready, rotate);
    }
  }

  // ---------------------------------------------------------------- forking

  /** The answer that the first of these that is wrong decides: tag, priority, stack, no
      name, a long name, a name in use, no free slot. */
  ghost predicate FirstWrong(l: Limits, k: Kernel, name: Option<string>, stack: int, priority: int, tag: int,
                             reply: Reply)
  {
    var tagGood, stackGood := tag == 0 || tag == 1, stack >= l.minStack;
    var priorityGood := 1 <= priority <= 5 || (priority == 6 && k.first);
    var good := tagGood && priorityGood && stackGood;
    var short := name.Some? && |name.value| <= l.maxName;
    var newName := forall p :: InUse(k, p) ==> Some(k.procs[p].name) != name;
    var full := forall p :: 0 <= p < |k.procs| ==> InUse(k, p);
    && (reply == INVALID_TAG <==> !tagGood)
    && (reply == INVALID_PRIORITY <==> tagGood && !priorityGood)
    && (reply == INVALID_STACK <==> tagGood && priorityGood && !stackGood)
    && (reply == NAME_IS_NULL <==> good && name == None)
    && (reply == NAME_TOO_LONG <==> good && name.Some? && !short)
    && (reply == DUPLICATE_NAME <==> good && short && !newName)
    && (reply == TOO_MANY_PROCESSES <==> good && short && newName && full)
    && (reply == Reply.SUCCESS <==> good && short && newName && !full)
  }

  /** P1_Fork answers so, and a refusal changes nothing. */
  lemma ForkAnswers(l: Limits, k: Kernel, name: Option<string>, stack: int, priority: int, tag: int)
    requires Shape(l, k) && InRange(k) && (k.first ==> k.ready == []) && (!k.first ==> k.ready != [])
    ensures FirstWrong(l, k, name, stack, priority, tag, Fork(l, k, name, stack, priority, tag).1)
    ensures Fork(l, k, name, stack, priority, tag).1 != Reply.SUCCESS ==>
              Fork(l, k, name, stack, priority, tag).0 == k
  {
    ForkReplyIs(l, k, name, stack, priority, tag);
    TableFull(k);
    if name.Some? {
      NameFree(k, name.value);
    }
  }

  lemma ForkReplyIs(l: Limits, k: Kernel, name: Option<string>, stack: int, priority: int, tag: int)
    requires Shape(l, k) && InRange(k) && (k.first ==> k.ready == []) && (!k.first ==> k.ready != [])
    ensures var reply := ForkReply(l, k, name, stack, priority, tag);
            Fork(l, k, name, stack, priority, tag).1 == reply
            && (reply != Reply.SUCCESS ==> Fork(l, k, name, stack, priority, tag).0 == k)
  {
  }

  lemma NameFree(k: Kernel, name: string)
    ensures NameTaken(k, name) <==> !forall p :: InUse(k, p) ==> Some(k.procs[p].name) != Some(name)
  {
    assert NameTaken(k, name) <==> exists p :: InUse(k, p) && k.procs[p].name == name;
  }

  lemma TableFull(k: Kernel)
    ensures FirstUnusedProc(k) == -1 <==> forall p :: 0 <= p < |k.procs| ==> InUse(k, p)
  {
    var unused := (b: PCB) => !b.used;
    assert forall p :: 0 <= p < |k.procs| ==> (unused(k.procs[p]) <==> !InUse(k, p));
  }

  /** A new process in slot j, the first that is free, with what it was forked with, at the
      end of the ready queue and of the caller's children. */
  ghost predicate NewProcess(l: Limits, k: Kernel, k': Kernel, j: int, name: string, priority: int, tag: int) {
    && (k.first || k.ready != []) && |k.contexts| == |k.procs| == |k'.procs|
    && 0 <= j < |k.procs| && !k.procs[j].used && (forall p :: 0 <= p < j ==> k.procs[p].used)
    && k' == k.(procs := k'.procs, contexts := k.contexts[j := true], ready := k.ready + [Node(j, priority)],
                first := false)
    && (var b := k'.procs[j];
        && b.used && b.cid == j && b.name == name && b.priority == priority && b.tag == tag
        && b.parent == (if k.first then -1 else k.ready[0].pid)
        && b.state == RUNNING && b.sid == -1 && b.children == [] && b.quitChildren == [])
    && forall p :: 0 <= p < |k.procs| && p != j ==>
         var had := k.procs[p].children;
         k'.procs[p] == k.procs[p].(children := if !k.first && p == k.ready[0].pid then had + [j] else had)
  }

  /** What a successful P1_Fork does; the new process is dispatched if it is the first one or
      better than its parent. */
  lemma ForkEffect(l: Limits, k: Kernel, name: Option<string>, stack: int, priority: int, tag: int)
    returns (k1: Kernel)
    requires Placed(l, k) && InRange(k) && (k.first ==> k.ready == []) && (!k.first ==> k.ready != [])
    requires k.first ==> forall p :: 0 <= p < |k.procs| ==> !k.procs[p].used
    requires Fork(l, k, name, stack, priority, tag).1 == Reply.SUCCESS
    ensures var (k', _, j) := Fork(l, k, name, stack, priority, tag);
            && NewProcess(l, k, k1, j, name.value, priority, tag)
            && if k.first || priority < k.procs[k.ready[0].pid].priority then NextRuns(k1, k', false) else k' == k1
  {
    k1 := Forked(l, k, name.value, stack, priority, tag);
    ForkedIsNew(l, k, name.value, stack, priority, tag);
    DispatchEffect(k1, false);
  }

  lemma ForkedIsNew(l: Limits, k: Kernel, name: string, stack: int, priority: int, tag: int)
    requires Placed(l, k) && InRange(k) && (k.first ==> k.ready == []) && (!k.first ==> k.ready != [])
    requires k.first ==> forall p :: 0 <= p < |k.procs| ==> !k.procs[p].used
    requires stack >= l.minStack && FirstUnusedProc(k) != -1
    ensures NewProcess(l, k, Forked(l, k, name, stack, priority, tag), FirstUnusedProc(k), name, priority, tag)
  {
    ForkAdopts(l, k, name, stack, priority, tag);
    SlotsAgree(l, k, stack);
    var unused := (b: PCB) => !b.used;
    assert forall p :: 0 <= p < FirstUnusedProc(k) ==> !unused(k.procs[p]);
  }

  // ---------------------------------------------------------------- quitting

  /** r is s with x, if it is there, taken out and the others in order. */
  ghost predicate Without(s: seq<int>, r: seq<int>, x: int) {
    (x !in s ==> r == s) && forall i :: 0 <= i < |s| && s[i] == x ==> r == s[..i] + s[i + 1..]
  }

  lemma RemovedOrder(s: seq<int>, x: int)
    requires Distinct(s)
    ensures Without(s, Removed(s, x), x)
  {
    var same := (y: int) => y == x;
    assert forall i :: 0 <= i < |s| ==> (same(s[i]) <==> s[i] == x);
  }

  /** Process pid has quit with a status: its children have process 0 as their parent and are
      at the end of process 0's list, in order; it has left its parent's children for the
      end of the parent's quit list; and a joining parent is at the end of the ready queue. */
  ghost predicate HasQuit(k: Kernel, k': Kernel, pid: int, status: int) {
    && 0 < pid < |k.procs| == |k'.procs|
    && var parent, mine := k.procs[pid].parent, k.procs[pid].children;
       && 0 <= parent < |k.procs| && parent != pid
       && k' == k.(procs := k'.procs, ready := k'.ready)
       && (forall p :: 0 <= p < |k.procs| ==> QuitChanges(k.procs[p], k'.procs[p], p, pid, parent, mine, status))
       && if k.procs[parent].state == JOINING then
            && k'.ready != [] && k'.ready[|k'.ready| - 1] == Node(parent, k.procs[parent].priority)
            && TakenOut(k.ready, k'.ready[..|k'.ready| - 1], pid)
          else TakenOut(k.ready, k'.ready, pid)
  }

  /** The control block of process p before and after. */
  ghost predicate QuitChanges(b: PCB, b': PCB, p: int, pid: int, parent: int, mine: seq<int>, status: int) {
    && b' == b.(state := b'.state, status := b'.status, parent := b'.parent, children := b'.children,
                quitChildren := b'.quitChildren)
    && b'.state == (if p == pid then QUIT else if p == parent && b.state == JOINING then READY else b.state)
    && b'.status == (if p == pid then status else b.status)
    && b'.parent == (if p in mine then 0 else b.parent)
    && b'.quitChildren == (if p == parent then b.quitChildren + [pid] else b.quitChildren)
    && var had := if p == 0 then b.children + mine else b.children;
       if p == parent then Without(had, b'.children, pid) else b'.children == had
  }

  /** What a quit of a process other than process 0 does. */
  lemma QuitEffect(l: Limits, k: Kernel, born: seq<nat>, pid: int, status: int) returns (k1: Kernel)
    requires Good(l, k, born) && Acting(k, pid) && pid != 0
    ensures InRange(k) && 0 <= k.procs[pid].parent < |k.procs|
    ensures HasQuit(k, k1, pid, status) && NextRuns(k1, Quit(k, pid, status), false)
  {
    var k2, parent := QuitStages(l, k, born, pid, status);
    KernelRuns.QuitterLeaves(l, k, k2, pid, parent, status);
    WithoutPidOrder(k.ready, pid);
    InheritedIs(k, born, pid, parent);
    NotifiedEffect(l, k2, parent);
    k1 := Notified(k2, parent);
    DepartedHasQuit(l, k, k2, k1, pid, parent, status);
    DispatchEffect(k1, false);
  }

  lemma DepartedHasQuit(l: Limits, k: Kernel, k2: Kernel, k1: Kernel, pid: int, parent: int, status: int)
    requires Departed(l, k, k2, pid, parent, status) && parent == k.procs[pid].parent
    requires TakenOut(k.ready, k2.ready, pid) && Distinct(Inherited(k, pid, parent))
    requires var b := k2.procs[parent];
             k1 == if b.state != JOINING then k2
                   else k2.(procs := k2.procs[parent := b.(state := READY)],
                            ready := k2.ready + [Node(parent, b.priority)])
    ensures HasQuit(k, k1, pid, status)
  {
    RemovedOrder(Inherited(k, pid, parent), pid);
    forall p | 0 <= p < |k.procs|
      ensures QuitChanges(k.procs[p], k1.procs[p], p, pid, parent, k.procs[pid].children, status)
    {
    }
    if k.procs[parent].state == JOINING {
      assert k1.ready[..|k1.ready| - 1] == k2.ready;
    }
  }

  lemma NotifiedEffect(l: Limits, k: Kernel, parent: int)
    requires Placed(l, k) && 0 <= parent < |k.procs| && k.procs[parent].used
    ensures var k', b := Notified(k, parent), k.procs[parent];
            k' == if b.state != JOINING then k
                  else k.(procs := k.procs[parent := b.(state := READY)], ready := k.ready + [Node(parent, b.priority)])
  {
    if k.procs[parent].state == JOINING {
      ExactInRange(k);
      InsertedIs(l, k, parent, k.procs[parent].priority);
    }
  }

  // ---------------------------------------------------------------- reaping and joining

  /** A quit child with the tag, as a place in the caller's quit list. */
  predicate Tagged(k: Kernel, quits: seq<int>, i: int, tag: int) {
    0 <= i < |quits| && 0 <= quits[i] < |k.procs| && k.procs[quits[i]].tag == tag
  }

  /** P1GetChildStatus's answer: NO_QUIT if and only if the caller's quit list is empty,
      NO_CHILDREN if and only if it is not but has nobody with the tag. A refusal changes
      nothing. */
  lemma ReapAnswers(k: Kernel, tag: int)
    requires k.ready != [] && InRange(k)
    ensures var (k', reply, c, _) := GetChildStatus(k, tag);
            var quits := k.procs[k.ready[0].pid].quitChildren;
            && (reply == INVALID_TAG <==> tag !in {0, 1})
            && (reply == NO_QUIT <==> tag in {0, 1} && quits == [])
            && (reply == NO_CHILDREN <==> tag in {0, 1} && quits != [] && forall i :: !Tagged(k, quits, i, tag))
            && (reply == Reply.SUCCESS <==> tag in {0, 1} && exists i :: Tagged(k, quits, i, tag))
            && (reply != Reply.SUCCESS ==> k' == k)
  {
    var quits := k.procs[k.ready[0].pid].quitChildren;
    var has := (c: int) => 0 <= c < |k.procs| && k.procs[c].tag == tag;
    assert forall i :: 0 <= i < |quits| ==> (has(quits[i]) <==> Tagged(k, quits, i, tag));
    var n := FirstWithTag(k.procs, quits, tag);
    assert n != -1 ==> Tagged(k, quits, n, tag);
  }

  /** What a successful one does: the first quit child with the tag is returned with its
      status; its slots are free and it is off the quit list, the others in order. */
  lemma ReapEffect(l: Limits, k: Kernel, born: seq<nat>, tag: int)
    requires Good(l, k, born) && k.ready != [] && InRange(k) && GetChildStatus(k, tag).1 == Reply.SUCCESS
    ensures var (k', _, c, status) := GetChildStatus(k, tag);
            var me := k.ready[0].pid;
            var quits := k.procs[me].quitChildren;
            exists i :: Tagged(k, quits, i, tag) && (forall j :: 0 <= j < i ==> !Tagged(k, quits, j, tag))
              && c == quits[i] && c != me && status == k.procs[c].status && |k.contexts| == |k.procs|
              && k' == k.(contexts := k.contexts[c := false],
                          procs := k.procs[c := k.procs[c].(used := false, state := FREE)]
                                          [me := k.procs[me].(quitChildren := quits[..i] + quits[i + 1..])])
  {
    ReapFacts(l, k, born, tag);
    var quits := k.procs[k.ready[0].pid].quitChildren;
    var has := (c: int) => 0 <= c < |k.procs| && k.procs[c].tag == tag;
    assert forall i :: 0 <= i < |quits| ==> (has(quits[i]) <==> Tagged(k, quits, i, tag));
    assert Tagged(k, quits, FirstWithTag(k.procs, quits, tag), tag);
  }

  /** What the waiting turn of P1_Join does: without quit children process pid leaves the
      ready queue, JOINING, and with some it stays; then the next process runs. */
  lemma JoinWaitEffect(l: Limits, k: Kernel, pid: int) returns (k1: Kernel)
    requires Placed(l, k) && Acting(k, pid)
    ensures InRange(k)
    ensures if k.procs[pid].quitChildren == [] then StateChanged(k, k1, pid, JOINING, -1) else k1 == k
    ensures NextRuns(k1, JoinWait(k, pid), false)
  {
    ExactInRange(k);
    SetStateEffect(l, k, pid, JOINING, -1);
    k1 := SetState(k, pid, JOINING, -1).0;
    DispatchEffect(k1, false);
  }

  // ---------------------------------------------------------------- semaphores

  /** What one turn of P1_P's loop does: a unit is taken and nothing else changes, or
      process pid is blocked, last in the semaphore's queue, and the next process runs. */
  lemma TryPEffect(l: Limits, k: Kernel, pid: int, sid: int) returns (k1: Kernel)
    requires Placed(l, k) && Acting(k, pid) && ValidSem(k, sid)
    ensures InRange(k)
    ensures var (k', got) := TryP(k, pid, sid);
            var s := k.sems[sid];
            && (got <==> s.value > 0)
            && (got ==> k' == k.(sems := k.sems[sid := Sem(true, s.name, s.value - 1, s.queue)]))
            && (!got ==>
                  && StateChanged(k, k1.(sems := k.sems), pid, BLOCKED, sid)
                  && k1.sems == k.sems[sid := Sem(true, s.name, 0, s.queue + [pid])]
                  && NextRuns(k1, k', false))
  {
    ExactInRange(k);
    k1 := BlockedOn(k, pid, sid);
    if k.sems[sid].value == 0 {
      BlockingEffect(l, k, pid, sid);
      DispatchEffect(k1, false);
    }
  }

  lemma BlockingEffect(l: Limits, k: Kernel, pid: int, sid: int)
    requires Placed(l, k) && InRange(k) && Acting(k, pid) && ValidSem(k, sid) && k.sems[sid].value == 0
    ensures var s, k1 := k.sems[sid], BlockedOn(k, pid, sid);
            && StateChanged(k, k1.(sems := k.sems), pid, BLOCKED, sid)
            && k1.sems == k.sems[sid := Sem(true, s.name, 0, s.queue + [pid])]
  {
    var s := k.sems[sid];
    SetStateEffect(l, k, pid, BLOCKED, sid);
    assert BlockedOn(k, pid, sid)
      == SetState(k, pid, BLOCKED, sid).0.(sems := k.sems[sid := Sem(true, s.name, 0, s.queue + [pid])]);
  }

  /** What P1_V does: a semaphore not in use is refused; otherwise its value goes up by one
      and the first waiter, if any, leaves its queue for the end of the ready queue, READY,
      and the next process runs. */
  lemma VEffect(l: Limits, k: Kernel, sid: int) returns (k1: Kernel)
    requires Placed(l, k)
    ensures InRange(k)
    ensures var (k', reply) := V(k, sid);
            && reply == (if ValidSem(k, sid) then Reply.SUCCESS else INVALID_SID)
            && (!ValidSem(k, sid) ==> k' == k)
            && (ValidSem(k, sid) ==>
                  var s := k.sems[sid];
                  if s.queue == [] then k' == k.(sems := k.sems[sid := Sem(true, s.name, s.value + 1, [])])
                  else
                    && StateChanged(k, k1.(sems := k.sems), s.queue[0], READY, sid)
                    && k1.sems == k.sems[sid := Sem(true, s.name, s.value + 1, s.queue[1..])]
                    && NextRuns(k1, k', false))
  {
    ExactInRange(k);
    k1 := k;
    if ValidSem(k, sid) && k.sems[sid].queue != [] {
      WakingEffect(l, k, sid);
      k1 := Woken(Raised(k, sid), sid);
      DispatchEffect(k1, false);
    }
  }

  lemma WakingEffect(l: Limits, k: Kernel, sid: int)
    requires Placed(l, k) && InRange(k) && ValidSem(k, sid) && k.sems[sid].queue != []
    ensures var s, k1 := k.sems[sid], Woken(Raised(k, sid), sid);
            && StateChanged(k, k1.(sems := k.sems), s.queue[0], READY, sid)
            && k1.sems == k.sems[sid := Sem(true, s.name, s.value + 1, s.queue[1..])]
  {
    var s := k.sems[sid];
    var sems := k.sems[sid := Sem(true, s.name, s.value + 1, s.queue[1..])];
    assert s.queue[0] in s.queue && IsWaiting(k, s.queue[0], sid);
    SetStateEffect(l, k, s.queue[0], READY, sid);
    assert Woken(Raised(k, sid), sid) == SetState(k.(sems := sems), s.queue[0], READY, sid).0;
    SemsIgnored(k, sems, s.queue[0], READY, sid);
  }

  /** P1SetState does not look at semaphores. */
  lemma SemsIgnored(k: Kernel, sems: seq<Sem>, pid: int, state: State, sid: int)
    ensures SetState(k.(sems := sems), pid, state, sid).0 == SetState(k, pid, state, sid).0.(sems := sems)
  {
  }

  /** Slot j holds a new semaphore; nothing else differs. */
  ghost predicate NewSem(k: Kernel, k': Kernel, j: int, name: string, value: nat) {
    && 0 <= j < |k.sems| && !k.sems[j].used && (forall s :: 0 <= s < j ==> k.sems[s].used)
    && k' == k.(sems := k.sems[j := Sem(true, name, value, [])])
  }

  /** P1_SemCreate refuses no name, a long name, a name in use, a full table, in this order,
      changing nothing; otherwise the first free slot holds the new semaphore, with its
      name and value and nobody waiting. */
  lemma SemCreateEffect(l: Limits, k: Kernel, name: Option<string>, value: nat)
    ensures var (k', reply, j) := SemCreate(l, k, name, value);
            var short := name.Some? && |name.value| <= l.maxName;
            var newName := forall s :: ValidSem(k, s) ==> Some(k.sems[s].name) != name;
            var full := forall s :: 0 <= s < |k.sems| ==> ValidSem(k, s);
            && (reply == NAME_IS_NULL <==> name == None)
            && (reply == NAME_TOO_LONG <==> name.Some? && !short)
            && (reply == DUPLICATE_NAME <==> short && !newName)
            && (reply == TOO_MANY_SEMS <==> short && newName && full)
            && (reply == Reply.SUCCESS <==> short && newName && !full)
            && (reply != Reply.SUCCESS ==> k' == k)
            && (reply == Reply.SUCCESS ==> NewSem(k, k', j, name.value, value))
  {
    var unused := (s: Sem) => !s.used;
    assert forall s :: 0 <= s < |k.sems| ==> (unused(k.sems[s]) <==> !ValidSem(k, s));
    if name.Some? {
      assert SemNameTaken(k, name.value) <==> exists s :: ValidSem(k, s) && k.sems[s].name == name.value;
    }
  }

  /** P1_SemFree frees a semaphore in use with nobody waiting, and only such; afterwards that
      one is not in use, everything else is as it was, and freeing it again is refused. */
  lemma SemFreeEffect(k: Kernel, sid: int)
    ensures var (k', reply) := SemFree(k, sid);
            && (reply == INVALID_SID <==> !ValidSem(k, sid))
            && (reply == BLOCKED_PROCESSES <==> ValidSem(k, sid) && k.sems[sid].queue != [])
            && (reply == Reply.SUCCESS <==> ValidSem(k, sid) && k.sems[sid].queue == [])
            && (reply != Reply.SUCCESS ==> k' == k)
            && (reply == Reply.SUCCESS ==>
                  && !ValidSem(k', sid) && |k'.sems| == |k.sems| && k' == k.(sems := k'.sems)
                  && (forall s :: 0 <= s < |k.sems| && s != sid ==> k'.sems[s] == k.sems[s])
                  && SemFree(k', sid) == (k', INVALID_SID))
  {
  }

  /** A semaphore made, freed and made again under the same name, as every disk request and
      every page fault does with its own: the name is accepted each time, for the same
      slot, and the semaphore is as new. In between, the others are as they were before. */
  lemma CreateFreeCreate(l: Limits, k: Kernel, name: Option<string>, value: nat, value': nat)
    requires SemCreate(l, k, name, value).1 == Reply.SUCCESS
    ensures var (k1, _, j) := SemCreate(l, k, name, value);
            var (k2, reply) := SemFree(k1, j);
            var (k3, reply', j') := SemCreate(l, k2, name, value');
            && reply == Reply.SUCCESS && reply' == Reply.SUCCESS && j' == j
            && ValidSem(k1, j) && k1.sems[j] == Sem(true, name.value, value, [])
            && !ValidSem(k2, j) && |k2.sems| == |k.sems|
            && (forall s :: 0 <= s < |k.sems| && s != j ==> k2.sems[s] == k.sems[s])
            && ValidSem(k3, j) && k3.sems[j] == Sem(true, name.value, value', [])
  {
    SemCreateEffect(l, k, name, value);
    var (k1, _, j) := SemCreate(l, k, name, value);
    SemFreeEffect(k1, j);
    var k2 := SemFree(k1, j).0;
    assert forall s :: ValidSem(k2, s) ==> ValidSem(k, s) && k2.sems[s] == k.sems[s];
    SemCreateEffect(l, k2, name, value');
  }
}

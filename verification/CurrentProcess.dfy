/** Who is running? The kernel has two answers: the head of the ready queue, and
    P1_GetPid's scan for the first RUNNING entry of the process table. A fork marks the
    child RUNNING without running it, so they can part. Here is exactly when they agree,
    exactly when an operation that acts on the scan's answer acts on its caller, and a
    discipline under which both always do. */
module CurrentProcess {
  import opened Common
  import opened ReadyQueue
  import opened Kernel
  import opened KernelSteps
  import opened KernelRuns

  // ---------------------------------------------------------------- in every reachable state

  /** In every run, from the first fork until the machine halts, there is a caller, it is
      RUNNING, and the scan names it if and only if no process in a slot below its own is
      marked RUNNING. */
  lemma ScanInEveryRun(l: Limits, w: World, actions: seq<Action>, w': World)
    requires Started(l, w) && Run(l, w, actions) == Some(w')
    ensures !w'.k.halted && !w'.k.first ==>
              && HeadRuns(w'.k)
              && (GetPid(w'.k) == Current(w'.k) <==> NoneRunsBelow(w'.k))
  {
    RunKeeps(l, w, actions);
    if !w'.k.halted && !w'.k.first {
      ScanNamesCaller(w'.k);
    }
  }

  // ---------------------------------------------------------------- what an operation does to whom

  /** A turn of P1_P does what it would do to its caller exactly when nobody below the
      caller is marked RUNNING or there is a unit to take. */
  lemma TryPActsOnCaller(l: Limits, k: Kernel, sid: int)
    requires Placed(l, k) && HeadRuns(k) && ValidSem(k, sid)
    ensures InRange(k)
    ensures TryP(k, GetPid(k), sid) == TryP(k, Current(k), sid) <==> NoneRunsBelow(k) || k.sems[sid].value > 0
  {
    ScanNamesCaller(k);
    TryPFacts(l, k, GetPid(k), sid);
    TryPFacts(l, k, Current(k), sid);
    var q := k.sems[sid].queue;
    assert (q + [GetPid(k)])[|q|] == GetPid(k) && (q + [Current(k)])[|q|] == Current(k);
  }

  /** P1_Join's wait, for a caller without a quit child, acts on it exactly when nobody
      below it is marked RUNNING. */
  lemma JoinActsOnCaller(l: Limits, k: Kernel, born: seq<nat>)
    requires Good(l, k, born) && HeadRuns(k) && k.procs[Current(k)].quitChildren == []
    ensures InRange(k)
    ensures JoinWait(k, GetPid(k)) == JoinWait(k, Current(k)) <==> NoneRunsBelow(k)
  {
    ScanNamesCaller(k);
    JoinedGood(l, k, born, GetPid(k));
    JoinedGood(l, k, born, Current(k));
    JoinFacts(l, k, GetPid(k));
    JoinFacts(l, k, Current(k));
  }

  /** The caller of a quit has quit, and if another process was taken for it, has not. */
  lemma QuitTakes(l: Limits, k: Kernel, born: seq<nat>, pid: int, status: int)
    requires Good(l, k, born) && !k.halted && InRange(k) && Acting(k, pid)
    ensures var k' := Quitted(l, k, born, pid, status);
            && |k'.procs| == |k.procs| && k'.procs[pid].state == QUIT
            && forall p :: Acting(k, p) && p != pid ==> Acting(k', p)
  {
    if pid == 0 {
      RootQuitEndsAll(l, k, born, status);
    } else {
      QuitSteady(l, k, born, pid, status);
    }
  }

  /** P1_Quit quits its caller exactly when nobody below it is marked RUNNING. */
  lemma QuitActsOnCaller(l: Limits, k: Kernel, born: seq<nat>, status: int)
    requires Good(l, k, born) && !k.halted && InRange(k) && HeadRuns(k)
    ensures Acting(k, GetPid(k))
    ensures Quitted(l, k, born, GetPid(k), status) == Quitted(l, k, born, Current(k), status) <==> NoneRunsBelow(k)
  {
    ScanNamesCaller(k);
    QuitTakes(l, k, born, GetPid(k), status);
    QuitTakes(l, k, born, Current(k), status);
  }

  // ---------------------------------------------------------------- a sufficient discipline

  /** The caller has the best priority and is the only process marked RUNNING. */
  ghost predicate Tidy(k: Kernel) {
    && HeadRuns(k) && HeadIsBest(k.ready)
    && forall p :: 0 <= p < |k.procs| && k.procs[p].used && k.procs[p].state == RUNNING ==> p == Current(k)
  }

  /** Every process forked by another has a better priority than its parent. */
  ghost predicate BetterChildren(l: Limits, w: World, actions: seq<Action>)
    requires Run(l, w, actions).Some?
  {
    actions == [] ||
    var before, a := actions[..|actions| - 1], actions[|actions| - 1];
    && BetterChildren(l, w, before)
    && var w1 := Run(l, w, before).value;
       (a.DoFork? && HeadRuns(w1.k) ==> a.priority < w1.k.procs[Current(w1.k)].priority)
  }

  /** A dispatch when nobody but the head, if anybody, is marked RUNNING. */
  lemma DispatchTidies(l: Limits, k: Kernel, rotate: bool)
    requires Placed(l, k)
    requires forall p :: 0 <= p < |k.procs| && k.procs[p].used && k.procs[p].state == RUNNING ==>
               k.ready != [] && p == Current(k)
    ensures InRange(k) && (Dispatch(k, rotate).halted || Tidy(Dispatch(k, rotate)))
  {
    DispatchRunsHead(l, k, rotate);
    if k.ready != [] {
      DispatchPicksBest(k.ready, rotate);
      var k' := Dispatch(k, rotate);
      forall p | 0 <= p < |k'.procs| && k'.procs[p].used && k'.procs[p].state == RUNNING
        ensures p == Current(k')
      {
        assert p != Current(k') && p != Current(k) ==> k'.procs[p] == k.procs[p];
      }
    }
  }

  lemma ForkTidies(l: Limits, k: Kernel, born: seq<nat>, name: Option<string>, stack: int, priority: int, tag: int)
    requires Good(l, k, born) && !k.halted && InRange(k) && (k.first ==> k.ready == [])
    requires !k.first ==> Tidy(k) && priority < k.procs[Current(k)].priority
    requires Fork(l, k, name, stack, priority, tag).1 == Reply.SUCCESS
    ensures var k' := Fork(l, k, name, stack, priority, tag).0;
            k'.halted || Tidy(k')
  {
    var k1, j := ForkStages(l, k, born, name, stack, priority, tag);
    if k.first {
      DispatchTidies(l, k1, false);
    } else {
      ForkTidiesByDispatch(l, k, k1, j, priority);
      assert Fork(l, k, name, stack, priority, tag).0
        == Dispatch(Forked(l, k, name.value, stack, priority, tag), false);
    }
  }

  /** The better child is dispatched at once, and its parent is READY again. */
  lemma ForkTidiesByDispatch(l: Limits, k: Kernel, k1: Kernel, j: int, priority: int)
    requires Placed(l, k) && !k.first && Tidy(k) && Adopted(l, k, k1, j, priority) && Placed(l, k1)
    requires priority < k.procs[Current(k)].priority
    ensures InRange(k1) && (Dispatch(k1, false).halted || Tidy(Dispatch(k1, false)))
  {
    DispatchRunsHead(l, k1, false);
    DispatchPicksBest(k1.ready, false);
    DispatchPermutes(k1.ready, false);
    assert k.ready[0] in k.ready && IsQueued(k, k.ready[0]);
    var k', n := Dispatch(k1, false), Node(j, priority);
    assert k1.ready[|k.ready|] == n && n in k1.ready && n in k'.ready;
    assert k'.ready[0] in k1.ready && k'.ready[0].priority <= priority;
    assert Current(k') == j;
  }

  lemma QuitTidies(l: Limits, k: Kernel, born: seq<nat>, status: int)
    requires Good(l, k, born) && !k.halted && InRange(k) && Tidy(k)
    ensures var k' := Quitted(l, k, born, Current(k), status);
            k'.halted || Tidy(k')
  {
    if Current(k) == 0 {
      RootQuitEndsAll(l, k, born, status);
    } else {
      var k2, parent := QuitStages(l, k, born, Current(k), status);
      NobodyRuns(l, k, k2, Current(k), parent, status);
      NotifiedPlaced(l, k2, parent);
      NotifiedRunsNobody(k2, parent);
      DispatchTidies(l, Notified(k2, parent), false);
    }
  }

  /** With the only RUNNING process gone, none is. */
  lemma NobodyRuns(l: Limits, k: Kernel, k': Kernel, pid: int, parent: int, status: int)
    requires Departed(l, k, k', pid, parent, status) && Tidy(k) && pid == Current(k)
    ensures forall p :: 0 <= p < |k'.procs| && k'.procs[p].used ==> k'.procs[p].state != RUNNING
  {
  }

  lemma NotifiedRunsNobody(k: Kernel, parent: int)
    requires 0 <= parent < |k.procs|
    requires forall p :: 0 <= p < |k.procs| && k.procs[p].used ==> k.procs[p].state != RUNNING
    ensures var k' := Notified(k, parent);
            forall p :: 0 <= p < |k'.procs| && k'.procs[p].used ==> k'.procs[p].state != RUNNING
  {
  }

  lemma TryPTidies(l: Limits, k: Kernel, sid: int)
    requires Placed(l, k) && Tidy(k) && ValidSem(k, sid)
    ensures InRange(k)
    ensures var k' := TryP(k, Current(k), sid).0;
            k'.halted || Tidy(k')
  {
    ExactInRange(k);
    if k.sems[sid].value == 0 {
      BlockPlaced(l, k, Current(k), sid);
      DispatchTidies(l, BlockedOn(k, Current(k), sid), false);
    }
  }

  lemma WokenTidies(l: Limits, k: Kernel, sid: int)
    requires Placed(l, k) && Tidy(k) && ValidSem(k, sid) && k.sems[sid].queue != []
    ensures InRange(k)
    ensures var k' := Dispatch(Woken(k, sid), false);
            k'.halted || Tidy(k')
  {
    WokenPlaced(l, k, sid);
    var k1, pid := Woken(k, sid), k.sems[sid].queue[0];
    assert k1.procs == k.procs[pid := k.procs[pid].(state := READY)] && k1.ready != [] && k1.ready[0] == k.ready[0];
    DispatchTidies(l, k1, false);
  }

  lemma VTidies(l: Limits, k: Kernel, sid: int)
    requires Placed(l, k) && Tidy(k) && ValidSem(k, sid)
    ensures InRange(k)
    ensures var k' := V(k, sid).0;
            k'.halted || Tidy(k')
  {
    ExactInRange(k);
    if k.sems[sid].queue != [] {
      SameButSem(l, k, sid, k.sems[sid].(value := k.sems[sid].value + 1));
      WokenTidies(l, Raised(k, sid), sid);
    }
  }

  lemma JoinTidies(l: Limits, k: Kernel, born: seq<nat>)
    requires Good(l, k, born) && Tidy(k) && k.procs[Current(k)].quitChildren == []
    ensures InRange(k)
    ensures var k' := JoinWait(k, Current(k));
            k'.halted || Tidy(k')
  {
    JoinedGood(l, k, born, Current(k));
    DispatchTidies(l, SetState(k, Current(k), JOINING, -1).0, false);
  }

  lemma ReapTidies(l: Limits, k: Kernel, born: seq<nat>, tag: int)
    requires Good(l, k, born) && Tidy(k) && InRange(k)
    ensures Tidy(GetChildStatus(k, tag).0)
  {
    if GetChildStatus(k, tag).1 == Reply.SUCCESS {
      ReapFacts(l, k, born, tag);
    }
  }

  lemma StepTidies(l: Limits, w: World, a: Action)
    requires Enabled(l, w, a) && (!w.k.first ==> Tidy(w.k))
    requires a.DoFork? && !w.k.first ==> a.priority < w.k.procs[Current(w.k)].priority
    ensures PGuard(l, w, a) && QuitGuard(l, w, a)
    ensures var k' := Step(l, w, a).k;
            k'.halted || k'.first || Tidy(k')
  {
    if !w.k.first {
      ScanNamesCaller(w.k);
    }
    match a
    case DoFork(name, stack, priority, tag) =>
      if Fork(l, w.k, name, stack, priority, tag).1 == Reply.SUCCESS {
        ForkTidies(l, w.k, w.born, name, stack, priority, tag);
      }
    case DoQuit(status) =>
      QuitStepParts(l, w, status);
      QuitTidies(l, w.k, w.born, status);
    case DoReap(tag) =>
      ReapTidies(l, w.k, w.born, tag);
    case DoJoinWait(tag) => JoinTidies(l, w.k, w.born);
    case DoEnterP(sid) =>
    case DoTryP => TryPTidies(l, w.k, w.pcs[Current(w.k)].sid);
    case DoV(sid) =>
      if ValidSem(w.k, sid) {
        VTidies(l, w.k, sid);
      }
    case DoTick(rotate) => DispatchTidies(l, w.k, rotate);
    case DoSemCreate(name, value) =>
    case DoSemFree(sid) =>
  }

  /** A discipline that keeps the scan right: if processes fork only children of better
      priority than themselves, the caller is always the only one marked RUNNING, so that
      every run is guarded and what is said of guarded runs needs no further condition. */
  lemma {:induction false} BetterChildrenAreGuarded(l: Limits, w: World, actions: seq<Action>)
    requires Started(l, w) && Run(l, w, actions).Some? && BetterChildren(l, w, actions)
    ensures PsGuarded(l, w, actions) && QuitsGuarded(l, w, actions)
    ensures var k := Run(l, w, actions).value.k;
            k.halted || k.first || Tidy(k)
  {
    if actions != [] {
      var before := actions[..|actions| - 1];
      BetterChildrenAreGuarded(l, w, before);
      StepTidies(l, Run(l, w, before).value, actions[|actions| - 1]);
    }
  }
}

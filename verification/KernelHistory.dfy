/** What the process table remembers over whole runs: every process in use has the name,
    the priority and the tag it was forked with, and no two processes in use, nor two
    semaphores in use, have the same name. */
module KernelHistory {
  import opened Common
  import opened ReadyQueue
  import opened Kernel
  import opened KernelSteps
  import opened KernelRuns
  import opened KernelEffects

  /** The last action of the run that forked a process into slot p. */
  ghost function ForkedBy(l: Limits, w: World, actions: seq<Action>, p: int): Option<Action>
    requires Run(l, w, actions).Some?
  {
    if actions == [] then None
    else
      var before, a := actions[..|actions| - 1], actions[|actions| - 1];
      if a.DoFork? && Forks(l, Run(l, w, before).value, a, p) then Some(a) else ForkedBy(l, w, before, p)
  }

  /** The fork succeeds and the new process is p. */
  ghost predicate Forks(l: Limits, w: World, a: Action, p: int)
    requires Enabled(l, w, a) && a.DoFork?
  {
    var (_, reply, j) := Fork(l, w.k, a.name, a.stack, a.priority, a.tag);
    reply == Reply.SUCCESS && j == p
  }

  /** Control block b has what action `a` gave it. */
  predicate GivenBy(b: PCB, a: Option<Action>) {
    a.Some? && a.value.DoFork? && a.value.name == Some(b.name) && a.value.priority == b.priority && a.value.tag == b.tag
  }

  /** Nobody is new, and nobody has another name, priority or tag. */
  ghost predicate SameIdentities(k: Kernel, k': Kernel) {
    && |k'.procs| == |k.procs|
    && forall p :: 0 <= p < |k.procs| ==>
         var b, b' := k.procs[p], k'.procs[p];
         b'.name == b.name && b'.priority == b.priority && b'.tag == b.tag && (b'.used ==> b.used)
  }

  lemma HasQuitIdentities(k: Kernel, k': Kernel, pid: int, status: int)
    requires HasQuit(k, k', pid, status)
    ensures SameIdentities(k, k')
  {
    var parent, mine := k.procs[pid].parent, k.procs[pid].children;
    forall p | 0 <= p < |k.procs|
      ensures QuitChanges(k.procs[p], k'.procs[p], p, pid, parent, mine, status)
    {
    }
  }

  lemma QuittedIdentities(l: Limits, k: Kernel, born: seq<nat>, pid: int, status: int)
    requires Good(l, k, born) && Acting(k, pid) && pid != 0
    ensures InRange(k) && 0 <= k.procs[pid].parent < |k.procs| && SameIdentities(k, Quit(k, pid, status))
  {
    var k1 := QuitEffect(l, k, born, pid, status);
    HasQuitIdentities(k, k1, pid, status);
    NextIdentities(k, k1, Quit(k, pid, status));
  }

  lemma QuitIdentities(l: Limits, w: World, status: int)
    requires Enabled(l, w, DoQuit(status))
    ensures SameIdentities(w.k, QuitStep(l, w, status).k)
  {
    QuitStepParts(l, w, status);
    if GetPid(w.k) == 0 {
      RootQuitEndsAll(l, w.k, w.born, status);
    } else {
      QuittedIdentities(l, w.k, w.born, GetPid(w.k), status);
    }
  }

  lemma ReapIdentities(l: Limits, w: World, tag: int)
    requires Enabled(l, w, DoReap(tag))
    ensures SameIdentities(w.k, ReapStep(l, w, tag).k)
  {
    if GetChildStatus(w.k, tag).1 == Reply.SUCCESS {
      ReapEffect(l, w.k, w.born, tag);
    }
  }

  lemma NextIdentities(k: Kernel, k1: Kernel, k': Kernel)
    requires SameIdentities(k, k1) && NextRuns(k1, k', false)
    ensures SameIdentities(k, k')
  {
  }

  lemma StateIdentities(k: Kernel, k': Kernel, pid: int, state: State, sid: int)
    requires StateChanged(k, k'.(sems := k.sems), pid, state, sid)
    ensures SameIdentities(k, k')
  {
    assert k'.procs[pid].tag == k.procs[pid].tag;
  }

  lemma TryPIdentities(l: Limits, k: Kernel, pid: int, sid: int)
    requires Placed(l, k) && Acting(k, pid) && ValidSem(k, sid)
    ensures InRange(k) && SameIdentities(k, TryP(k, pid, sid).0)
  {
    var k1 := TryPEffect(l, k, pid, sid);
    if !TryP(k, pid, sid).1 {
      StateIdentities(k, k1, pid, BLOCKED, sid);
      NextIdentities(k, k1, TryP(k, pid, sid).0);
    }
  }

  lemma JoinIdentities(l: Limits, k: Kernel, pid: int)
    requires Placed(l, k) && Acting(k, pid)
    ensures InRange(k) && SameIdentities(k, JoinWait(k, pid))
  {
    var k1 := JoinWaitEffect(l, k, pid);
    NextIdentities(k, k1, JoinWait(k, pid));
  }

  lemma TurnIdentities(l: Limits, w: World, a: Action)
    requires Enabled(l, w, a) && (a.DoTryP? || a.DoJoinWait?)
    ensures SameIdentities(w.k, Step(l, w, a).k)
  {
    ScanNamesCaller(w.k);
    if a.DoTryP? {
      TryPIdentities(l, w.k, GetPid(w.k), w.pcs[Current(w.k)].sid);
    } else {
      JoinIdentities(l, w.k, GetPid(w.k));
    }
  }

  lemma VIdentities(l: Limits, k: Kernel, sid: int)
    requires Placed(l, k)
    ensures InRange(k) && SameIdentities(k, V(k, sid).0)
  {
    var k1 := VEffect(l, k, sid);
    if ValidSem(k, sid) && k.sems[sid].queue != [] {
      StateIdentities(k, k1, k.sems[sid].queue[0], READY, sid);
      NextIdentities(k, k1, V(k, sid).0);
    }
  }

  /** Only a fork gives a process a name, a priority and a tag. */
  lemma StepIdentities(l: Limits, w: World, a: Action)
    requires Enabled(l, w, a) && !a.DoFork?
    ensures SameIdentities(w.k, Step(l, w, a).k)
  {
    match a
    case DoQuit(status) => QuitIdentities(l, w, status);
    case DoReap(tag) => ReapIdentities(l, w, tag);
    case DoJoinWait(tag) => TurnIdentities(l, w, a);
    case DoEnterP(sid) =>
    case DoTryP => TurnIdentities(l, w, a);
    case DoV(sid) => VIdentities(l, w.k, sid);
    case DoTick(rotate) => DispatchEffect(w.k, rotate);
    case DoSemCreate(name, value) =>
    case DoSemFree(sid) =>
  }

  /** A successful fork gives slot j the name, the priority and the tag it was called with,
      and a parent, the caller if there is one; everybody else's stay. A refused one
      changes nothing. */
  lemma ForkRecorded(l: Limits, w: World, a: Action)
    requires Enabled(l, w, a) && a.DoFork?
    ensures var (k', reply, j) := Fork(l, w.k, a.name, a.stack, a.priority, a.tag);
            && Step(l, w, a).k == k' && |k'.procs| == |w.k.procs|
            && (reply != Reply.SUCCESS ==> k' == w.k)
            && (reply == Reply.SUCCESS ==>
                  && 0 <= j < |w.k.procs| && !w.k.procs[j].used && k'.procs[j].used
                  && GivenBy(k'.procs[j], Some(a))
                  && k'.procs[j].parent == (if w.k.first then -1 else w.k.ready[0].pid)
                  && (forall p :: 0 <= p < |w.k.procs| && p != j ==>
                        var b, b' := w.k.procs[p], k'.procs[p];
                        && b'.name == b.name && b'.priority == b.priority && b'.tag == b.tag
                        && b'.parent == b.parent && b'.used == b.used))
  {
    ForkAnswers(l, w.k, a.name, a.stack, a.priority, a.tag);
    if Fork(l, w.k, a.name, a.stack, a.priority, a.tag).1 == Reply.SUCCESS {
      ForkIdentities(l, w.k, a.name, a.stack, a.priority, a.tag);
    }
  }

  lemma ForkIdentities(l: Limits, k: Kernel, name: Option<string>, stack: int, priority: int, tag: int)
    requires Placed(l, k) && InRange(k) && (k.first ==> k.ready == []) && (!k.first ==> k.ready != [])
    requires k.first ==> forall p :: 0 <= p < |k.procs| ==> !k.procs[p].used
    requires Fork(l, k, name, stack, priority, tag).1 == Reply.SUCCESS
    ensures var (k', _, j) := Fork(l, k, name, stack, priority, tag);
            && name.Some? && 0 <= j < |k.procs| == |k'.procs| && !k.procs[j].used && k'.procs[j].used
            && k'.procs[j].name == name.value && k'.procs[j].priority == priority && k'.procs[j].tag == tag
            && k'.procs[j].parent == (if k.first then -1 else k.ready[0].pid)
            && (forall p :: 0 <= p < |k.procs| && p != j ==>
                  var b, b' := k.procs[p], k'.procs[p];
                  && b'.name == b.name && b'.priority == b.priority && b'.tag == b.tag
                  && b'.parent == b.parent && b'.used == b.used)
  {
    var k1 := ForkEffect(l, k, name, stack, priority, tag);
  }

  /** In every run, each process in use has the name, priority and tag given by the fork that
      made it. */
  lemma {:induction false} IdentityInEveryRun(l: Limits, w: World, actions: seq<Action>, p: int)
    requires Started(l, w) && Run(l, w, actions).Some?
    ensures InUse(Run(l, w, actions).value.k, p) ==>
              GivenBy(Run(l, w, actions).value.k.procs[p], ForkedBy(l, w, actions, p))
  {
    if actions != [] {
      var before, a := actions[..|actions| - 1], actions[|actions| - 1];
      var w1 := Run(l, w, before).value;
      IdentityInEveryRun(l, w, before, p);
      if a.DoFork? {
        ForkRecorded(l, w1, a);
      } else {
        StepIdentities(l, w1, a);
      }
    }
  }

  /** In every run a reap with a tag returns only a child that was forked with that tag. */
  lemma ReapsForkedWithTag(l: Limits, w: World, actions: seq<Action>, w1: World, tag: int)
    requires Started(l, w) && Run(l, w, actions) == Some(w1) && Enabled(l, w1, DoReap(tag))
    ensures var (_, reply, c, _) := GetChildStatus(w1.k, tag);
            reply == Reply.SUCCESS ==>
              && InUse(w1.k, c) && w1.k.procs[c].state == QUIT
              && ForkedBy(l, w, actions, c).Some? && ForkedBy(l, w, actions, c).value.DoFork?
              && ForkedBy(l, w, actions, c).value.tag == tag
  {
    var (_, reply, c, _) := GetChildStatus(w1.k, tag);
    if reply == Reply.SUCCESS {
      ReapFacts(l, w1.k, w1.born, tag);
      IdentityInEveryRun(l, w, actions, c);
    }
  }

  // ---------------------------------------------------------------- names

  ghost predicate NamesDistinct(k: Kernel) {
    && (forall p, q :: InUse(k, p) && InUse(k, q) && p != q ==> k.procs[p].name != k.procs[q].name)
    && (forall s, t :: ValidSem(k, s) && ValidSem(k, t) && s != t ==> k.sems[s].name != k.sems[t].name)
  }

  /** No semaphore is new or has another name. */
  ghost predicate SameSemNames(k: Kernel, k': Kernel) {
    && |k'.sems| == |k.sems|
    && forall s :: 0 <= s < |k.sems| ==> k'.sems[s].name == k.sems[s].name && (k'.sems[s].used ==> k.sems[s].used)
  }

  /** Process j is new, under a name nobody has. */
  lemma NewNameDistinct(k: Kernel, k': Kernel, j: int, name: string)
    requires NamesDistinct(k) && k'.sems == k.sems && |k'.procs| == |k.procs|
    requires forall p :: InUse(k, p) ==> k.procs[p].name != name
    requires forall p :: InUse(k', p) ==>
               if p == j then k'.procs[p].name == name else InUse(k, p) && k'.procs[p].name == k.procs[p].name
    ensures NamesDistinct(k')
  {
    assert forall s :: ValidSem(k', s) ==> ValidSem(k, s);
  }

  lemma ForkNames(l: Limits, w: World, a: Action)
    requires Enabled(l, w, a) && a.DoFork? && NamesDistinct(w.k)
    ensures NamesDistinct(Step(l, w, a).k)
  {
    ForkRecorded(l, w, a);
    var (k', reply, j) := Fork(l, w.k, a.name, a.stack, a.priority, a.tag);
    if reply == Reply.SUCCESS {
      SemsUntouched(l, w, a);
      ForkAnswers(l, w.k, a.name, a.stack, a.priority, a.tag);
      NewNameDistinct(w.k, k', j, a.name.value);
    }
  }

  lemma SemNames(l: Limits, w: World, a: Action)
    requires Enabled(l, w, a) && (a.DoTryP? || a.DoV? || a.DoSemFree?)
    ensures SameSemNames(w.k, Step(l, w, a).k)
  {
    match a
    case DoTryP =>
      ScanNamesCaller(w.k);
      TryPFacts(l, w.k, GetPid(w.k), w.pcs[Current(w.k)].sid);
    case DoV(sid) =>
      if ValidSem(w.k, sid) {
        VFacts(l, w.k, sid);
      }
    case DoSemFree(sid) =>
  }

  lemma CreateNames(l: Limits, w: World, a: Action)
    requires Enabled(l, w, a) && a.DoSemCreate? && NamesDistinct(w.k)
    ensures NamesDistinct(Step(l, w, a).k)
  {
    SemCreateEffect(l, w.k, a.semName, a.value);
    var k' := Step(l, w, a).k;
    assert forall p :: InUse(k', p) ==> InUse(w.k, p) && k'.procs[p].name == w.k.procs[p].name;
    forall s, t | ValidSem(k', s) && ValidSem(k', t) && s != t
      ensures k'.sems[s].name != k'.sems[t].name
    {
      assert ValidSem(w.k, s) || ValidSem(w.k, t);
    }
  }

  lemma NamesCarry(k: Kernel, k': Kernel)
    requires NamesDistinct(k) && SameIdentities(k, k') && SameSemNames(k, k')
    ensures NamesDistinct(k')
  {
    assert forall p :: InUse(k', p) ==> InUse(k, p);
    assert forall s :: ValidSem(k', s) ==> ValidSem(k, s);
  }

  lemma StepNames(l: Limits, w: World, a: Action)
    requires Enabled(l, w, a) && NamesDistinct(w.k)
    ensures NamesDistinct(Step(l, w, a).k)
  {
    if a.DoFork? {
      ForkNames(l, w, a);
    } else if a.DoSemCreate? {
      CreateNames(l, w, a);
    } else {
      StepIdentities(l, w, a);
      if a.DoTryP? || a.DoV? || a.DoSemFree? {
        SemNames(l, w, a);
      } else {
        SemsUntouched(l, w, a);
      }
      NamesCarry(w.k, Step(l, w, a).k);
    }
  }

  /** In every run names tell processes apart, and semaphores. */
  lemma {:induction false} NamesInEveryRun(l: Limits, w: World, actions: seq<Action>)
    requires Started(l, w) && Run(l, w, actions).Some?
    ensures NamesDistinct(Run(l, w, actions).value.k)
  {
    if actions != [] {
      var before := actions[..|actions| - 1];
      NamesInEveryRun(l, w, before);
      StepNames(l, Run(l, w, before).value, actions[|actions| - 1]);
    }
  }
}

/** Sleeping processes: registration, the clock driver's wake-up scan, and what a sleeper
    may rely on, in every interleaving. */
module Sleepers {
  import opened Common

  const MICROSECONDS: int := 1000000

  datatype Slot = Slot(used: bool, startTime: int, restTime: int)

  predicate Due(s: Slot, now: int) {
    s.used && s.restTime + s.startTime <= now
  }

  /** The table after a scan at time now. */
  function Scanned(slots: seq<Slot>, now: int): (r: seq<Slot>)
    ensures |r| == |slots|
  {
    seq(|slots|, i requires 0 <= i < |slots| => if Due(slots[i], now) then slots[i].(used := false) else slots[i])
  }

  /** The semaphores after a scan at time now: one V for each sleeper that was due. */
  function Signalled(slots: seq<Slot>, sems: seq<nat>, now: int): (r: seq<nat>)
    requires |sems| == |slots|
    ensures |r| == |slots|
  {
    seq(|slots|, i requires 0 <= i < |slots| => sems[i] + if Due(slots[i], now) then 1 else 0)
  }

  datatype SleepReply = SUCCESS | INVALID_SECONDS

  class SleepTable {
    const slots: array<Slot>
    const sems: array<nat>

    ghost predicate Valid()
      reads this
    {
      sems.Length == slots.Length
    }

    constructor (maxProc: nat)
      ensures Valid() && slots.Length == maxProc && fresh(slots) && fresh(sems)
      ensures forall i :: 0 <= i < maxProc ==> !slots[i].used && sems[i] == 0
    {
      slots := new Slot[maxProc](_ => Slot(false, 0, 0));
      sems := new nat[maxProc](_ => 0);
    }

    /** P2_Sleep up to its wait: `wait` says whether the caller then P's its semaphore. */
    method Register(pid: nat, seconds: int, now: int) returns (reply: SleepReply, wait: bool)
      requires Valid() && pid < slots.Length
      modifies slots
      ensures reply == (if seconds < 0 then INVALID_SECONDS else SUCCESS) && wait == (seconds > 0)
      ensures slots[..] == if seconds > 0 then old(slots[..])[pid := Slot(true, now, seconds * MICROSECONDS)]
                else old(slots[..])
    {
      if seconds < 0 {
        return INVALID_SECONDS, false;
      }
      if seconds > 0 {
        slots[pid] := slots[pid].(startTime := now);
        slots[pid] := slots[pid].(restTime := seconds * MICROSECONDS);
        slots[pid] := slots[pid].(used := true);
      }
      return SUCCESS, seconds > 0;
    }

    /** The clock driver's scan. Afterwards no registered sleeper is due. */
    method Scan(now: int)
      requires Valid()
      modifies slots, sems
      ensures slots[..] == Scanned(old(slots[..]), now)
      ensures sems[..] == Signalled(old(slots[..]), old(sems[..]), now)
      ensures forall i :: 0 <= i < slots.Length ==> !Due(slots[i], now)
    {
      ghost var slots0, sems0 := slots[..], sems[..];
      var i := 0;
      while i < slots.Length
        invariant 0 <= i <= slots.Length
        invariant forall j :: 0 <= j < i ==>
                   slots[j] == Scanned(slots0, now)[j] && sems[j] == Signalled(slots0, sems0, now)[j]
        invariant forall j :: i <= j < slots.Length ==> slots[j] == slots0[j] && sems[j] == sems0[j]
      {
        if slots[i].used && slots[i].restTime + slots[i].startTime <= now {
          slots[i] := slots[i].(used := false);
          sems[i] := sems[i] + 1;
        }
        i := i + 1;
      }
    }
  }

  // ---------------------------------------------------------------- all interleavings

  /** Where a process stands with respect to P2_Sleep; `vs` counts the V's done for this
      sleep, `lastScan` is the latest scan that found it due. */
  datatype Sleeper = Awake | Asleep(start: int, seconds: int, vs: nat, lastScan: Option<int>)

  /** The table, its semaphores, and the history of the current sleeps. */
  datatype Night = Night(slots: seq<Slot>, sems: seq<nat>, sleepers: seq<Sleeper>)

  datatype Event =
    | CallSleep(pid: int, seconds: int, now: int)
    | ClockScan(now: int)
    | Return(pid: int)

  predicate Enabled(n: Night, e: Event) {
    match e
    case CallSleep(pid, _, _) => 0 <= pid < |n.sleepers| && n.sleepers[pid].Awake?
    case ClockScan(_) => true
    case Return(pid) => 0 <= pid < |n.sleepers| && pid < |n.sems| && n.sleepers[pid].Asleep? && n.sems[pid] > 0
  }

  function Step(n: Night, e: Event): Night
    requires Enabled(n, e) && |n.slots| == |n.sems| == |n.sleepers|
  {
    match e
    case CallSleep(pid, seconds, now) =>
      if seconds <= 0 then n
      else n.(slots := n.slots[pid := Slot(true, now, seconds * MICROSECONDS)],
              sleepers := n.sleepers[pid := Asleep(now, seconds, 0, None)])
    case ClockScan(now) =>
      Night(Scanned(n.slots, now), Signalled(n.slots, n.sems, now),
            seq(|n.sleepers|, p requires 0 <= p < |n.sleepers| =>
                  if Due(n.slots[p], now) && n.sleepers[p].Asleep?
                  then n.sleepers[p].(vs := n.sleepers[p].vs + 1, lastScan := Some(now))
                  else n.sleepers[p]))
    case Return(pid) => n.(sems := n.sems[pid := n.sems[pid] - 1], sleepers := n.sleepers[pid := Awake])
  }

  /** A sleeper is either registered and not signalled, or signalled once by a scan that
      came late enough; nobody else is registered or signalled. */
  predicate Resting(slot: Slot, sem: nat, s: Sleeper) {
    match s
    case Awake => !slot.used && sem == 0
    case Asleep(start, seconds, vs, lastScan) =>
      seconds > 0 &&
      if slot.used then slot.startTime == start && slot.restTime == seconds * MICROSECONDS && sem == 0 && vs == 0
      else sem == 1 && vs == 1 && lastScan.Some? && lastScan.value >= start + seconds * MICROSECONDS
  }

  ghost predicate Inv(n: Night) {
    && |n.slots| == |n.sems| == |n.sleepers|
    && forall p :: 0 <= p < |n.slots| ==> Resting(n.slots[p], n.sems[p], n.sleepers[p])
  }

  /** As P2ClockInit leaves it: no slot in use, no unit on any semaphore, nobody asleep. */
  ghost predicate Started(n: Night) {
    && |n.slots| == |n.sems| == |n.sleepers|
    && forall p :: 0 <= p < |n.slots| ==> !n.slots[p].used && n.sems[p] == 0 && n.sleepers[p].Awake?
  }

  lemma StartedInv(n: Night)
    requires Started(n)
    ensures Inv(n)
  {
  }

  ghost function Run(n: Night, events: seq<Event>): Option<Night> {
    if events == [] then Some(n)
    else
      match Run(n, events[..|events| - 1])
      case None => None
      case Some(n1) =>
        if |n1.slots| == |n1.sems| == |n1.sleepers| && Enabled(n1, events[|events| - 1])
        then Some(Step(n1, events[|events| - 1])) else None
  }

  lemma StepKeeps(n: Night, e: Event)
    requires Inv(n) && Enabled(n, e)
    ensures Inv(Step(n, e))
  {
  }

  lemma {:induction false} RunKeeps(n: Night, events: seq<Event>)
    requires Inv(n) && Run(n, events).Some?
    ensures Inv(Run(n, events).value)
  {
    if events != [] {
      RunKeeps(n, events[..|events| - 1]);
      StepKeeps(Run(n, events[..|events| - 1]).value, events[|events| - 1]);
    }
  }

  /** In every run P2_Sleep returns only after a scan at a time not before its deadline,
      having been signalled exactly once for this sleep, and leaves nothing behind: no
      registration and no unit on its semaphore, even if the scan came before its P. */
  lemma SleepsLongEnough(n: Night, events: seq<Event>, pid: int)
    requires Inv(n) && Run(n, events).Some? && Enabled(Run(n, events).value, Return(pid))
    ensures var n1 := Run(n, events).value;
            && |n1.slots| == |n1.sems| == |n1.sleepers|
            && n1.sleepers[pid].vs == 1
            && n1.sleepers[pid].lastScan.Some?
            && n1.sleepers[pid].lastScan.value >= n1.sleepers[pid].start + n1.sleepers[pid].seconds * MICROSECONDS
            && Step(n1, Return(pid)).sems[pid] == 0 && !Step(n1, Return(pid)).slots[pid].used
  {
    RunKeeps(n, events);
  }

  /** And every scan at or after the deadline of a registered sleeper lets it return. */
  lemma ScanReleases(n: Night, now: int, pid: int)
    requires Inv(n) && 0 <= pid < |n.sleepers| && n.sleepers[pid].Asleep?
    requires now >= n.sleepers[pid].start + n.sleepers[pid].seconds * MICROSECONDS
    ensures Enabled(Step(n, ClockScan(now)), Return(pid))
  {
    assert Resting(n.slots[pid], n.sems[pid], n.sleepers[pid]);
  }
}

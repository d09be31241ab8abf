/** The ready queue: an array of (pid, priority) entries whose head is the current
    process, and the rule by which dispatching reorders it. */
module ReadyQueue {
  import opened Common

  datatype Node = Node(pid: int, priority: int)

  ghost predicate DistinctPids(q: seq<Node>) {
    forall i, j :: 0 <= i < j < |q| ==> q[i].pid != q[j].pid
  }

  predicate HasPid(q: seq<Node>, pid: int) {
    exists i :: 0 <= i < |q| && q[i].pid == pid
  }

  function IndexOf(q: seq<Node>, pid: int): (r: int)
    ensures -1 <= r < |q|
    ensures r >= 0 ==> q[r].pid == pid && forall j :: 0 <= j < r ==> q[j].pid != pid
    ensures r == -1 <==> !HasPid(q, pid)
  {
    var r := FirstIndex(q, (n: Node) => n.pid == pid);
    assert r == -1 ==> forall j :: 0 <= j < |q| ==> !((n: Node) => n.pid == pid)(q[j]);
    r
  }

  /** Appending, unless the array is full or the process is queued already. */
  function Inserted(q: seq<Node>, maxProc: nat, pid: int, priority: int): seq<Node> {
    if |q| == maxProc || HasPid(q, pid) then q else q + [Node(pid, priority)]
  }

  function ShiftedToEnd(q: seq<Node>, i: nat): (r: seq<Node>)
    requires i < |q|
    ensures |r| == |q|
  {
    q[..i] + q[i + 1..] + [q[i]]
  }

  function Swapped(q: seq<Node>, i: nat, j: nat): (r: seq<Node>)
    requires i < |q| && j < |q|
    ensures |r| == |q|
  {
    q[i := q[j]][j := q[i]]
  }

  function WithoutPid(q: seq<Node>, pid: int): seq<Node> {
    var i := IndexOf(q, pid);
    if i == -1 then q else q[..i] + q[i + 1..]
  }

  /** The first entry after the head with the best (lowest) priority among q[1..n]. */
  function BestOther(q: seq<Node>, n: nat): (h: nat)
    requires 2 <= n <= |q|
    ensures 1 <= h < n
  {
    if n == 2 then 1
    else
      var h := BestOther(q, n - 1);
      if q[h].priority > q[n - 1].priority then n - 1 else h
  }

  lemma {:induction false} BestOtherIsFirstBest(q: seq<Node>, n: nat)
    requires 2 <= n <= |q|
    ensures forall i :: 1 <= i < n ==> q[BestOther(q, n)].priority <= q[i].priority
    ensures forall i :: 1 <= i < BestOther(q, n) ==> q[BestOther(q, n)].priority < q[i].priority
  {
    if n > 2 {
      BestOtherIsFirstBest(q, n - 1);
    }
  }

  /** The queue after P1Dispatch: a strictly better process is swapped to the head; with
      `rotate`, the next process as good as the head takes its place and the head goes to
      the end. */
  function Dispatched(q: seq<Node>, rotate: bool): (r: seq<Node>)
    requires q != []
    ensures |r| == |q|
  {
    if |q| == 1 then q
    else
      var h := BestOther(q, |q|);
      if q[h].priority < q[0].priority then Swapped(q, 0, h)
      else if !rotate || q[h].priority > q[0].priority then q
      else ShiftedToEnd(Swapped(q, 0, h), h)
  }

  // ---------------------------------------------------------------- what dispatching promises

  lemma SwappedPermutes(q: seq<Node>, j: nat)
    requires 0 < j < |q|
    ensures multiset(Swapped(q, 0, j)) == multiset(q)
    ensures Swapped(q, 0, j) == [q[j]] + q[1..j] + [q[0]] + q[j + 1..]
  {
    SplitAt(q, j);
    SwappedForm(q, j);
    PermuteParts([q[0]], q[1..j], [q[j]], q[j + 1..]);
  }

  lemma SwappedForm(q: seq<Node>, j: nat)
    requires 0 < j < |q|
    ensures Swapped(q, 0, j) == [q[j]] + q[1..j] + [q[0]] + q[j + 1..]
  {
    var r, parts := Swapped(q, 0, j), [q[j]] + q[1..j] + [q[0]] + q[j + 1..];
    assert |r| == |parts|;
    forall k | 0 <= k < |q|
      ensures r[k] == parts[k]
    {
      assert k == 0 || k == j || r[k] == q[k];
    }
  }

  lemma PermuteParts(a: seq<Node>, b: seq<Node>, c: seq<Node>, d: seq<Node>)
    ensures multiset(a + b + c + d) == multiset(c + b + a + d)
  {
  }

  /** A queue with entry i moved to the end, entry by entry. */
  lemma ShiftedIs(q: seq<Node>, i: nat, r: seq<Node>)
    requires i < |q| == |r| && r[|q| - 1] == q[i]
    requires forall k :: 0 <= k < i ==> r[k] == q[k]
    requires forall k :: i <= k < |q| - 1 ==> r[k] == q[k + 1]
    ensures r == ShiftedToEnd(q, i)
  {
  }

  lemma SameMembers(q: seq<Node>, r: seq<Node>)
    requires multiset(r) == multiset(q)
    ensures forall n :: n in r <==> n in q
  {
    forall n
      ensures n in r <==> n in q
    {
      assert n in multiset(r) <==> n in multiset(q);
    }
  }

  lemma ShiftedPermutes(q: seq<Node>, i: nat)
    requires i < |q|
    ensures multiset(ShiftedToEnd(q, i)) == multiset(q)
  {
    assert q == q[..i] + [q[i]] + q[i + 1..];
  }

  lemma DispatchPermutes(q: seq<Node>, rotate: bool)
    requires q != []
    ensures multiset(Dispatched(q, rotate)) == multiset(q)
    ensures forall n :: n in Dispatched(q, rotate) <==> n in q
  {
    if |q| > 1 {
      var h := BestOther(q, |q|);
      SwappedPermutes(q, h);
      ShiftedPermutes(Swapped(q, 0, h), h);
    }
    SameMembers(q, Dispatched(q, rotate));
  }

  lemma DispatchHead(q: seq<Node>, rotate: bool)
    requires q != []
    ensures forall i :: 0 <= i < |q| ==> Dispatched(q, rotate)[0].priority <= q[i].priority
  {
    if |q| > 1 {
      BestOtherIsFirstBest(q, |q|);
    }
  }

  /** Dispatching only reorders the queue, and leaves a process at the head than which
      none in the queue is better. */
  lemma DispatchPicksBest(q: seq<Node>, rotate: bool)
    requires q != []
    ensures multiset(Dispatched(q, rotate)) == multiset(q)
    ensures forall i :: 0 <= i < |q| ==> Dispatched(q, rotate)[0].priority <= Dispatched(q, rotate)[i].priority
  {
    DispatchPermutes(q, rotate);
    DispatchHead(q, rotate);
    var r := Dispatched(q, rotate);
    forall i | 0 <= i < |q|
      ensures r[0].priority <= r[i].priority
    {
      assert r[i] in q;
    }
  }

  /** Reordering keeps pids distinct. */
  lemma DispatchKeepsDistinct(q: seq<Node>, rotate: bool)
    requires q != [] && DistinctPids(q)
    ensures DistinctPids(Dispatched(q, rotate))
  {
  }

  /** The entries of priority p, in order. */
  function Class(q: seq<Node>, p: int): seq<Node> {
    if q == [] then []
    else Class(q[..|q| - 1], p) + (if q[|q| - 1].priority == p then [q[|q| - 1]] else [])
  }

  /** The entries of other priorities, in order. */
  function Others(q: seq<Node>, p: int): seq<Node> {
    if q == [] then []
    else Others(q[..|q| - 1], p) + (if q[|q| - 1].priority != p then [q[|q| - 1]] else [])
  }

  lemma {:induction false} ClassConcat(a: seq<Node>, b: seq<Node>, p: int)
    ensures Class(a + b, p) == Class(a, p) + Class(b, p)
    ensures Others(a + b, p) == Others(a, p) + Others(b, p)
  {
    if b == [] {
      assert a + b == a;
    } else {
      ClassConcat(a, b[..|b| - 1], p);
      assert (a + b)[..|a + b| - 1] == a + b[..|b| - 1];
    }
  }

  lemma {:induction false} NoneInClass(q: seq<Node>, p: int)
    requires forall i :: 0 <= i < |q| ==> q[i].priority != p
    ensures Class(q, p) == [] && Others(q, p) == q
  {
    if q != [] {
      NoneInClass(q[..|q| - 1], p);
    }
  }

  ghost predicate HeadIsBest(q: seq<Node>) {
    q != [] && forall i :: 0 <= i < |q| ==> q[0].priority <= q[i].priority
  }

  lemma ClassOne(n: Node, p: int)
    ensures Class([n], p) == (if n.priority == p then [n] else [])
    ensures Others([n], p) == (if n.priority != p then [n] else [])
  {
    assert Class([n][..0], p) == [] && Others([n][..0], p) == [];
  }

  lemma ClassConcat4(a: seq<Node>, b: seq<Node>, c: seq<Node>, d: seq<Node>, p: int)
    ensures Class(a + b + c + d, p) == Class(a, p) + Class(b, p) + Class(c, p) + Class(d, p)
    ensures Others(a + b + c + d, p) == Others(a, p) + Others(b, p) + Others(c, p) + Others(d, p)
  {
    ClassConcat(a, b, p);
    ClassConcat(a + b, c, p);
    ClassConcat(a + b + c, d, p);
  }

  lemma DropEmpty<T>(a: seq<T>, b: seq<T>, c: seq<T>)
    ensures a + [] + b + c == a + (b + c)
    ensures a + [] + b + c == a + b + c
    ensures [] + a + [] + b == a + b
    ensures [] + a + b + [] == a + b
  {
  }

  /** Taking the head to the end behind `next`, with no one of its class between. */
  lemma TurnClass(head: Node, before: seq<Node>, next: Node, after: seq<Node>, p: int)
    requires head.priority == p && next.priority == p
    requires forall i :: 0 <= i < |before| ==> before[i].priority != p
    ensures Class([head] + before + [next] + after, p) == [head] + ([next] + Class(after, p))
    ensures Class([next] + before + after + [head], p) == [next] + Class(after, p) + [head]
  {
    ClassOne(head, p);
    ClassOne(next, p);
    NoneInClass(before, p);
    ClassConcat4([head], before, [next], after, p);
    ClassConcat4([next], before, after, [head], p);
    DropEmpty([head], [next], Class(after, p));
    DropEmpty([next], Class(after, p), [head]);
  }

  lemma TurnOthers(head: Node, before: seq<Node>, next: Node, after: seq<Node>, p: int)
    requires head.priority == p && next.priority == p
    requires forall i :: 0 <= i < |before| ==> before[i].priority != p
    ensures Others([head] + before + [next] + after, p) == Others([next] + before + after + [head], p)
  {
    ClassOne(head, p);
    ClassOne(next, p);
    NoneInClass(before, p);
    ClassConcat4([head], before, [next], after, p);
    ClassConcat4([next], before, after, [head], p);
    DropEmpty(before, Others(after, p), []);
  }

  lemma ClassOnlyHead(q: seq<Node>, p: int)
    requires q != [] && p == q[0].priority
    requires forall i :: 1 <= i < |q| ==> q[i].priority > p
    ensures Class(q, p) == [q[0]]
  {
    var rest := q[1..];
    assert q == [q[0]] + rest;
    NoneInClass(rest, p);
    ClassOne(q[0], p);
    ClassConcat([q[0]], rest, p);
  }

  lemma RotateOnlyOne(q: seq<Node>, p: int)
    requires HeadIsBest(q) && p == q[0].priority
    requires forall i :: 1 <= i < |q| ==> q[i].priority > p
    ensures Dispatched(q, true) == q && Class(q, p) == [q[0]]
  {
    ClassOnlyHead(q, p);
  }

  lemma ShiftedForm(a: Node, b: seq<Node>, c: Node, d: seq<Node>)
    ensures ShiftedToEnd([a] + b + [c] + d, |b| + 1) == [a] + b + d + [c]
  {
    var s := [a] + b + [c] + d;
    assert s[..|b| + 1] == [a] + b;
    assert s[|b| + 2..] == d;
  }

  lemma RotatedForm(q: seq<Node>, h: nat)
    requires 0 < h < |q|
    ensures ShiftedToEnd(Swapped(q, 0, h), h) == [q[h]] + q[1..h] + q[h + 1..] + [q[0]]
  {
    SwappedPermutes(q, h);
    ShiftedForm(q[h], q[1..h], q[0], q[h + 1..]);
  }

  lemma SplitAt(q: seq<Node>, h: nat)
    requires 0 < h < |q|
    ensures q == [q[0]] + q[1..h] + [q[h]] + q[h + 1..]
  {
  }

  lemma RotationShape(q: seq<Node>) returns (before: seq<Node>, next: Node, after: seq<Node>)
    requires HeadIsBest(q) && |q| > 1 && q[BestOther(q, |q|)].priority <= q[0].priority
    ensures q == [q[0]] + before + [next] + after
    ensures Dispatched(q, true) == [next] + before + after + [q[0]]
    ensures next.priority == q[0].priority && forall i :: 0 <= i < |before| ==> before[i].priority != q[0].priority
  {
    var h := BestOther(q, |q|);
    BestOtherIsFirstBest(q, |q|);
    RotatedForm(q, h);
    SplitAt(q, h);
    before, next, after := q[1..h], q[h], q[h + 1..];
  }

  lemma RotateToNext(q: seq<Node>, p: int)
    requires HeadIsBest(q) && p == q[0].priority && |q| > 1 && q[BestOther(q, |q|)].priority <= p
    ensures var r, members := Dispatched(q, true), Class(q, p);
            && members != [] && members[0] == q[0]
            && Class(r, p) == members[1..] + [members[0]]
            && Others(r, p) == Others(q, p)
            && r[0].priority == p && Class(r, p)[0] == r[0]
  {
    var before, next, after := RotationShape(q);
    TurnClass(q[0], before, next, after, p);
    TurnOthers(q[0], before, next, after, p);
    var rest := [next] + Class(after, p);
    assert Class(q, p) == [q[0]] + rest;
    assert Class(q, p)[1..] == rest;
    assert Class(Dispatched(q, true), p) == rest + [q[0]];
  }

  /** One rotating dispatch turns the head's priority class by one and leaves the order
      of everything else alone. */
  lemma RotateOnce(q: seq<Node>, p: int)
    requires HeadIsBest(q) && p == q[0].priority
    ensures var r, members := Dispatched(q, true), Class(q, p);
            && members != [] && members[0] == q[0]
            && Class(r, p) == members[1..] + [members[0]]
            && Others(r, p) == Others(q, p)
            && HeadIsBest(r) && r[0].priority == p && r[0] == Class(r, p)[0]
  {
    DispatchPicksBest(q, true);
    if |q| == 1 || q[BestOther(q, |q|)].priority > p {
      if |q| > 1 {
        BestOtherIsFirstBest(q, |q|);
      }
      RotateOnlyOne(q, p);
    } else {
      RotateToNext(q, p);
    }
  }

  function DispatchedTimes(q: seq<Node>, m: nat): (r: seq<Node>)
    requires q != []
    ensures r != []
  {
    if m == 0 then q else Dispatched(DispatchedTimes(q, m - 1), true)
  }

  /** Turning a sequence by m. */
  function Turned<T>(s: seq<T>, m: nat): seq<T>
    requires m <= |s|
  {
    s[m..] + s[..m]
  }

  lemma TurnedOnce<T>(s: seq<T>, m: nat)
    requires 0 < m <= |s|
    ensures Turned(s, m) == Turned(s, m - 1)[1..] + [Turned(s, m - 1)[0]]
  {
  }

  /** Round robin: after m rotating dispatches the m-th process of the head's class is at
      the head, and after as many as the class has members its order is the original one;
      the others never changed places. */
  lemma {:induction false} RoundRobin(q: seq<Node>, p: int, m: nat)
    requires HeadIsBest(q) && p == q[0].priority && m <= |Class(q, p)|
    ensures var r := DispatchedTimes(q, m);
            && HeadIsBest(r) && r[0].priority == p
            && Class(r, p) == Turned(Class(q, p), m)
            && Others(r, p) == Others(q, p)
            && (m < |Class(q, p)| ==> r[0] == Class(q, p)[m])
            && (m == |Class(q, p)| ==> Class(r, p) == Class(q, p) && r[0] == q[0])
  {
    RotateOnce(q, p);
    if m == 0 {
      assert Turned(Class(q, p), 0) == Class(q, p);
    } else {
      RoundRobin(q, p, m - 1);
      RotateOnce(DispatchedTimes(q, m - 1), p);
      TurnedOnce(Class(q, p), m);
      RotateOnce(DispatchedTimes(q, m), p);
    }
  }

  // ---------------------------------------------------------------- the array

  class DispatchQueue {
    const nodes: array<Node>
    var size: nat

    ghost predicate Valid()
      reads this
    {
      size <= nodes.Length
    }

    function Contents(): seq<Node>
      requires Valid()
      reads this, nodes
    {
      nodes[..size]
    }

    constructor (maxProc: nat)
      ensures Valid() && Contents() == [] && nodes.Length == maxProc && fresh(nodes)
    {
      nodes := new Node[maxProc](_ => Node(-1, 0));
      size := 0;
    }

    method Insert(pid: int, priority: int) returns (ok: bool)
      requires Valid()
      modifies this, nodes
      ensures Valid()
      ensures Contents() == Inserted(old(Contents()), nodes.Length, pid, priority)
      ensures ok <==> old(size) != nodes.Length
    {
      if size == nodes.Length {
        return false;
      }
      var i := 0;
      while i < size
        invariant 0 <= i <= size
        invariant forall j :: 0 <= j < i ==> nodes[j].pid != pid
      {
        if nodes[i].pid == pid {
          assert Contents()[i].pid == pid;
          return true;
        }
        i := i + 1;
      }
      var index := size;
      size := size + 1;
      nodes[index] := Node(pid, priority);
      ok := true;
    }

    method Swap(i: nat, j: nat)
      requires Valid() && i < size && j < size
      modifies nodes
      ensures Contents() == Swapped(old(Contents()), i, j)
    {
      if i == j {
        return;
      }
      var temp := nodes[i];
      nodes[i] := nodes[j];
      nodes[j] := temp;
    }

    method Shift(i: nat)
      requires Valid() && i < size
      modifies nodes
      ensures Contents() == ShiftedToEnd(old(Contents()), i)
    {
      var node := nodes[i];
      var j := i + 1;
      while j < size
        invariant i + 1 <= j <= size
        invariant forall k :: 0 <= k < i ==> nodes[k] == old(nodes[k])
        invariant forall k :: i <= k < j - 1 ==> nodes[k] == old(nodes[k + 1])
        invariant forall k :: j <= k < size ==> nodes[k] == old(nodes[k])
      {
        nodes[j - 1] := nodes[j];
        j := j + 1;
      }
      nodes[size - 1] := node;
      ShiftedIs(old(Contents()), i, Contents());
    }

    method RemoveByPid(pid: int) returns (found: int)
      requires Valid()
      modifies this, nodes
      ensures Valid()
      ensures Contents() == WithoutPid(old(Contents()), pid)
      ensures found == if HasPid(old(Contents()), pid) then pid else -1
    {
      var i := 0;
      while i < size
        invariant 0 <= i <= size
        invariant forall j :: 0 <= j < i ==> nodes[j].pid != pid
      {
        if pid == nodes[i].pid {
          assert Contents()[i].pid == pid;
          assert IndexOf(Contents(), pid) == i;
          Shift(i);
          size := size - 1;
          return pid;
        }
        i := i + 1;
      }
      return -1;
    }

    /** The selection and reordering of P1Dispatch, for a queue that is not empty. */
    method Reorder(rotate: bool)
      requires Valid() && size > 0
      modifies nodes
      ensures Contents() == Dispatched(old(Contents()), rotate)
    {
      if size == 1 {
        return;
      }
      var highestIndex := -1;
      var i := 1;
      while i < size
        invariant 1 <= i <= size
        invariant highestIndex == if i == 1 then -1 else BestOther(Contents(), i)
      {
        if highestIndex == -1 || nodes[highestIndex].priority > nodes[i].priority {
          highestIndex := i;
        }
        i := i + 1;
      }
      if nodes[highestIndex].priority < nodes[0].priority {
        Swap(0, highestIndex);
      } else if !rotate || nodes[highestIndex].priority > nodes[0].priority {
      } else {
        Swap(0, highestIndex);
        Shift(highestIndex);
      }
    }
  }
}

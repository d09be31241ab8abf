/** The kernel's malloc'd queues: the head-and-tail queue of disk requests (and, with the
    same code, of page faults), and the head-only wait queue of a semaphore, which walks
    to its end to insert. Both are first-in, first-out. */
module LinkedQueues {
  import opened Common

  class QueueNode<T> {
    const info: T
    var next: QueueNode?<T>

    constructor (info: T)
      ensures this.info == info && next == null
    {
      this.info := info;
      next := null;
    }
  }

  /** `nodes` is a chain from its first node to its last, which has no next. */
  ghost predicate Chain<T(!new)>(nodes: seq<QueueNode<T>>)
    reads nodes
  {
    && (forall i :: 0 <= i < |nodes| - 1 ==> nodes[i].next == nodes[i + 1])
    && (nodes != [] ==> nodes[|nodes| - 1].next == null)
    && (forall i, j :: 0 <= i < j < |nodes| ==> nodes[i] != nodes[j])
  }

  ghost function Infos<T>(nodes: seq<QueueNode<T>>): (r: seq<T>)
    ensures |r| == |nodes|
  {
    seq(|nodes|, i requires 0 <= i < |nodes| => nodes[i].info)
  }

  class RequestQueue<T(!new)> {
    var head: QueueNode?<T>
    var tail: QueueNode?<T>
    ghost var nodes: seq<QueueNode<T>>

    ghost predicate Valid()
      reads this, nodes
    {
      && Chain(nodes)
      && (if nodes == [] then head == null && tail == null
          else head == nodes[0] && tail == nodes[|nodes| - 1])
    }

    ghost function Contents(): seq<T>
      reads this
    {
      Infos(nodes)
    }

    constructor ()
      ensures Valid() && Contents() == []
    {
      head, tail := null, null;
      nodes := [];
    }

    /** Appending at the tail; the refusal branch for a half-empty pair of pointers is
        never taken. */
    method Insert(info: T) returns (ok: bool)
      requires Valid()
      modifies this, nodes
      ensures Valid() && ok && Contents() == old(Contents()) + [info]
      ensures fresh(Elems(nodes) - old(Elems(nodes)))
    {
      var node := new QueueNode(info);
      ok := true;
      if (head == null && tail != null) || (head != null && tail == null) {
        ok := false;
      } else if head == null && tail == null {
        head := node;
        tail := node;
        nodes := nodes + [node];
      } else {
        tail.next := node;
        tail := node;
        nodes := nodes + [node];
      }
    }

    /** Taking the first entry; it fails exactly on an empty queue. */
    method Remove() returns (ok: bool, info: Option<T>)
      requires Valid()
      modifies this
      ensures Valid()
      ensures ok <==> old(Contents()) != []
      ensures ok ==> info == Some(old(Contents())[0]) && Contents() == old(Contents())[1..]
      ensures !ok ==> info == None && Contents() == []
    {
      info := None;
      if head == null || tail == null {
        return false, None;
      }
      ok := true;
      info := Some(head.info);
      if head == tail {
        head := null;
        tail := null;
      } else {
        head := head.next;
      }
      nodes := nodes[1..];
    }
  }

  class WaitQueue {
    var head: QueueNode?<int>
    ghost var nodes: seq<QueueNode<int>>

    ghost predicate Valid()
      reads this, nodes
    {
      Chain(nodes) && head == if nodes == [] then null else nodes[0]
    }

    ghost function Contents(): seq<int>
      reads this
    {
      Infos(nodes)
    }

    constructor ()
      ensures Valid() && Contents() == []
    {
      head := null;
      nodes := [];
    }

    /** Appending after a walk to the last node. */
    method Insert(pid: int)
      requires Valid()
      modifies this, nodes
      ensures Valid() && Contents() == old(Contents()) + [pid]
    {
      var node := new QueueNode(pid);
      if head == null {
        head := node;
      } else {
        var walker := head;
        ghost var i := 0;
        while walker.next != null
          invariant 0 <= i < |nodes| && walker == nodes[i]
          invariant walker.next == if i < |nodes| - 1 then nodes[i + 1] else null
          decreases |nodes| - i
        {
          walker := walker.next;
          i := i + 1;
        }
        walker.next := node;
      }
      nodes := nodes + [node];
    }

    /** Taking the first pid, or -1 when there is none. */
    method Remove() returns (pid: int)
      requires Valid()
      modifies this
      ensures Valid()
      ensures old(Contents()) == [] ==> pid == -1 && Contents() == []
      ensures old(Contents()) != [] ==> pid == old(Contents())[0] && Contents() == old(Contents())[1..]
    {
      if head == null {
        return -1;
      }
      pid := head.info;
      head := head.next;
      nodes := nodes[1..];
    }
  }
}

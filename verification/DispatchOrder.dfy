/** Where a dispatch puts every entry of the ready queue, and where taking a process out
    leaves the others. */
module DispatchOrder {
  import opened ReadyQueue

  /** Entry h is better than the head, and the first of the best behind it. */
  ghost predicate Preempts(q: seq<Node>, h: int) {
    && 0 < h < |q| && q[h].priority < q[0].priority
    && (forall i :: 0 < i < |q| ==> q[h].priority <= q[i].priority)
    && (forall i :: 0 < i < h ==> q[h].priority < q[i].priority)
  }

  /** The head is of the best priority and entry h is the first behind it of the same. */
  ghost predicate TakesTurn(q: seq<Node>, h: int) {
    && 0 < h < |q| && q[h].priority == q[0].priority
    && (forall i :: 0 < i < |q| ==> q[0].priority <= q[i].priority)
    && (forall i :: 0 < i < h ==> q[0].priority < q[i].priority)
  }

  /** Queue r is q after a dispatch, entry by entry. Someone better than the head: the
      first of the best changes places with the head. Otherwise, rotating, and someone as
      good as the head: the first of these goes to the front, the head to the end, and the
      entries behind it move up. Otherwise nothing moves. */
  ghost predicate Reordered(q: seq<Node>, r: seq<Node>, rotate: bool) {
    && |r| == |q|
    && ((exists i :: 0 < i < |q| && q[i].priority < q[0].priority) ==>
          exists h :: Preempts(q, h) && r[0] == q[h] && r[h] == q[0]
            && forall i :: 0 < i < |q| && i != h ==> r[i] == q[i])
    && ((forall i :: 0 < i < |q| ==> q[0].priority <= q[i].priority) ==>
          if rotate && exists i :: 0 < i < |q| && q[i].priority == q[0].priority then
            exists h :: TakesTurn(q, h) && r[0] == q[h] && r[|q| - 1] == q[0]
              && (forall i :: 0 < i < h ==> r[i] == q[i]) && (forall i :: h < i < |q| ==> r[i - 1] == q[i])
          else r == q)
  }

  lemma DispatchPreempts(q: seq<Node>, rotate: bool)
    requires exists i :: 0 < i < |q| && q[i].priority < q[0].priority
    ensures var r := Dispatched(q, rotate);
            exists h :: Preempts(q, h) && r[0] == q[h] && r[h] == q[0]
              && forall i :: 0 < i < |q| && i != h ==> r[i] == q[i]
  {
    BestOtherIsFirstBest(q, |q|);
    assert Preempts(q, BestOther(q, |q|));
  }

  /** Entry by entry, what a rotation makes of the queue. */
  lemma RotatedPlaces(q: seq<Node>, r: seq<Node>, h: int)
    requires 0 < h < |q| && r == [q[h]] + q[1..h] + q[h + 1..] + [q[0]]
    ensures |r| == |q| && r[0] == q[h] && r[|q| - 1] == q[0]
    ensures forall i :: 0 < i < h ==> r[i] == q[i]
    ensures forall i :: h < i < |q| ==> r[i - 1] == q[i]
  {
  }

  lemma DispatchTurns(q: seq<Node>)
    requires forall i :: 0 < i < |q| ==> q[0].priority <= q[i].priority
    requires exists i :: 0 < i < |q| && q[i].priority == q[0].priority
    ensures var r := Dispatched(q, true);
            exists h :: TakesTurn(q, h) && r[0] == q[h] && r[|q| - 1] == q[0]
              && (forall i :: 0 < i < h ==> r[i] == q[i]) && (forall i :: h < i < |q| ==> r[i - 1] == q[i])
  {
    var h := BestOther(q, |q|);
    BestOtherIsFirstBest(q, |q|);
    RotatedForm(q, h);
    assert TakesTurn(q, h);
    RotatedPlaces(q, Dispatched(q, true), h);
  }

  /** A dispatch moves the entries exactly so. */
  lemma DispatchPlaces(q: seq<Node>, rotate: bool)
    requires q != []
    ensures Reordered(q, Dispatched(q, rotate), rotate)
  {
    if exists i :: 0 < i < |q| && q[i].priority < q[0].priority {
      DispatchPreempts(q, rotate);
    } else if rotate && exists i :: 0 < i < |q| && q[i].priority == q[0].priority {
      DispatchTurns(q);
    } else if |q| > 1 {
      BestOtherIsFirstBest(q, |q|);
    }
  }

  /** Both orders after a preemption, from the same place in the queue. */
  lemma PreemptedOneWay(q: seq<Node>, r: seq<Node>, r': seq<Node>, h: int, h': int)
    requires Preempts(q, h) && Preempts(q, h') && |r| == |r'| == |q|
    requires r[0] == q[h] && r[h] == q[0] && forall i :: 0 < i < |q| && i != h ==> r[i] == q[i]
    requires r'[0] == q[h'] && r'[h'] == q[0] && forall i :: 0 < i < |q| && i != h' ==> r'[i] == q[i]
    ensures r == r'
  {
    assert h == h';
  }

  lemma TurnedOneWay(q: seq<Node>, r: seq<Node>, r': seq<Node>, h: int, h': int)
    requires TakesTurn(q, h) && TakesTurn(q, h') && |r| == |r'| == |q|
    requires r[0] == q[h] && r[|q| - 1] == q[0]
    requires (forall i :: 0 < i < h ==> r[i] == q[i]) && (forall i :: h < i < |q| ==> r[i - 1] == q[i])
    requires r'[0] == q[h'] && r'[|q| - 1] == q[0]
    requires (forall i :: 0 < i < h' ==> r'[i] == q[i]) && (forall i :: h' < i < |q| ==> r'[i - 1] == q[i])
    ensures r == r'
  {
    assert h == h';
    forall i | h <= i < |q| - 1
      ensures r[i] == r'[i]
    {
      assert r[(i + 1) - 1] == q[i + 1] == r'[(i + 1) - 1];
    }
  }

  lemma PreemptsOneWay(q: seq<Node>, r: seq<Node>, r': seq<Node>, rotate: bool)
    requires Reordered(q, r, rotate) && Reordered(q, r', rotate)
    requires exists i :: 0 < i < |q| && q[i].priority < q[0].priority
    ensures r == r'
  {
    var h :| Preempts(q, h) && r[0] == q[h] && r[h] == q[0] && forall i :: 0 < i < |q| && i != h ==> r[i] == q[i];
    var h' :| Preempts(q, h') && r'[0] == q[h'] && r'[h'] == q[0]
      && forall i :: 0 < i < |q| && i != h' ==> r'[i] == q[i];
    PreemptedOneWay(q, r, r', h, h');
  }

  lemma TurnsOneWay(q: seq<Node>, r: seq<Node>, r': seq<Node>)
    requires Reordered(q, r, true) && Reordered(q, r', true)
    requires forall i :: 0 < i < |q| ==> q[0].priority <= q[i].priority
    requires exists i :: 0 < i < |q| && q[i].priority == q[0].priority
    ensures r == r'
  {
    var h :| TakesTurn(q, h) && r[0] == q[h] && r[|q| - 1] == q[0]
      && (forall i :: 0 < i < h ==> r[i] == q[i]) && (forall i :: h < i < |q| ==> r[i - 1] == q[i]);
    var h' :| TakesTurn(q, h') && r'[0] == q[h'] && r'[|q| - 1] == q[0]
      && (forall i :: 0 < i < h' ==> r'[i] == q[i]) && (forall i :: h' < i < |q| ==> r'[i - 1] == q[i]);
    TurnedOneWay(q, r, r', h, h');
  }

  /** Which leaves no choice. */
  lemma ReorderedOneWay(q: seq<Node>, r: seq<Node>, r': seq<Node>, rotate: bool)
    requires q != [] && Reordered(q, r, rotate) && Reordered(q, r', rotate)
    ensures r == r'
  {
    if exists i :: 0 < i < |q| && q[i].priority < q[0].priority {
      PreemptsOneWay(q, r, r', rotate);
    } else if rotate && exists i :: 0 < i < |q| && q[i].priority == q[0].priority {
      TurnsOneWay(q, r, r');
    }
  }

  /** r is q with the entry for pid, if it has one, taken out and the others in order. */
  ghost predicate TakenOut(q: seq<Node>, r: seq<Node>, pid: int) {
    && ((forall i :: 0 <= i < |q| ==> q[i].pid != pid) ==> r == q)
    && (forall i :: 0 <= i < |q| && q[i].pid == pid ==> r == q[..i] + q[i + 1..])
  }

  lemma WithoutPidOrder(q: seq<Node>, pid: int)
    requires DistinctPids(q)
    ensures TakenOut(q, WithoutPid(q, pid), pid)
  {
  }
}

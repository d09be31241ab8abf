/** The clock replacement algorithm, on what it looks at: which frames are busy, which
    are referenced, and the hand. */
module Clock {
  import opened Common

  /** The frame probed after `k` others, the hand standing at `hand` before. */
  function At(n: nat, hand: int, k: nat): (f: nat)
    requires n > 0 && -1 <= hand
    ensures f < n
  {
    (hand + 1 + k) % n
  }

  /** How many frames are probed before frame f in one turn. */
  function Position(n: nat, hand: int, f: nat): (k: nat)
    requires n > 0 && -1 <= hand < n && f < n
    ensures k < n
  {
    if f > hand then f - hand - 1 else f + n - hand - 1
  }

  /** The remainder of a number less than three turns, without division. */
  lemma Wrap(n: nat, x: nat)
    requires 0 < n && x < 3 * n
    ensures x % n == if x < n then x else if x < 2 * n then x - n else x - 2 * n
  {
    var q, r := x / n, x % n;
    assert x == q * n + r;
    if q >= 3 {
      MulMono(3, q, n);
    } else {
      assert q == 0 || q == 1 || q == 2;
    }
  }

  lemma PositionAt(n: nat, hand: int, f: nat, k: nat)
    requires n > 0 && -1 <= hand < n && f < n && k < n
    ensures At(n, hand, Position(n, hand, f)) == f
    ensures Position(n, hand, At(n, hand, k)) == k
    ensures At(n, hand, n + k) == At(n, hand, k)
  {
    Wrap(n, hand + 1 + k);
    Wrap(n, hand + 1 + n + k);
    Wrap(n, hand + 1 + Position(n, hand, f));
  }

  /** First position at or after k whose frame is not busy and, when `unref`, not
      referenced; n when there is none. */
  function FirstFrom(busy: seq<bool>, ref: seq<bool>, hand: int, unref: bool, k: nat): (r: nat)
    requires |busy| == |ref| > 0 && -1 <= hand < |busy| && k <= |busy|
    ensures k <= r <= |busy|
    decreases |busy| - k
  {
    if k == |busy| then k
    else
      var f := At(|busy|, hand, k);
      if !busy[f] && !(unref && ref[f]) then k
      else FirstFrom(busy, ref, hand, unref, k + 1)
  }

  lemma {:induction false} FirstFromIsFirst(busy: seq<bool>, ref: seq<bool>, hand: int, unref: bool, k: nat)
    requires |busy| == |ref| > 0 && -1 <= hand < |busy| && k <= |busy|
    ensures var r := FirstFrom(busy, ref, hand, unref, k);
            && (forall j :: k <= j < r ==> busy[At(|busy|, hand, j)] || (unref && ref[At(|busy|, hand, j)]))
            && (r < |busy| ==> !busy[At(|busy|, hand, r)] && !(unref && ref[At(|busy|, hand, r)]))
    decreases |busy| - k
  {
    if k < |busy| {
      FirstFromIsFirst(busy, ref, hand, unref, k + 1);
    }
  }

  /** Probes made before the one that stops the hand: the first unreferenced idle frame of
      this turn or, when every idle frame is referenced, a whole turn (which clears
      them) and then the first idle frame. */
  function Skipped(busy: seq<bool>, ref: seq<bool>, hand: int): nat
    requires |busy| == |ref| > 0 && -1 <= hand < |busy|
  {
    var k := FirstFrom(busy, ref, hand, true, 0);
    if k < |busy| then k else |busy| + FirstFrom(busy, ref, hand, false, 0)
  }

  /** The frame the clock takes. */
  function Target(busy: seq<bool>, ref: seq<bool>, hand: int): (t: nat)
    requires |busy| == |ref| > 0 && -1 <= hand < |busy|
    ensures t < |busy|
  {
    At(|busy|, hand, Skipped(busy, ref, hand))
  }

  /** The reference bits it leaves: cleared on the idle frames it skipped. */
  function Cleared(busy: seq<bool>, ref: seq<bool>, hand: int, skipped: nat): (r: seq<bool>)
    requires |busy| == |ref| > 0 && -1 <= hand < |busy|
    ensures |r| == |ref|
  {
    seq(|ref|, f requires 0 <= f < |ref| => ref[f] && (busy[f] || Position(|busy|, hand, f) >= skipped))
  }

  /** What the clock promises, in terms of frames alone: with some idle frame it stops
      within two turns on an idle frame; if an idle frame is unreferenced it takes the
      first such after the hand and clears the bit of exactly the idle frames before
      it, otherwise it takes the first idle frame and clears the bit of every idle one. */
  lemma ClockChoice(busy: seq<bool>, ref: seq<bool>, hand: int)
    requires |busy| == |ref| > 0 && -1 <= hand < |busy|
    requires exists f :: 0 <= f < |busy| && !busy[f]
    ensures var n, t, left := |busy|, Target(busy, ref, hand), Cleared(busy, ref, hand, Skipped(busy, ref, hand));
            && Skipped(busy, ref, hand) < 2 * n
            && !busy[t]
            && !left[t]
            && if exists f :: 0 <= f < n && !busy[f] && !ref[f] then
                 && !ref[t]
                 && (forall f :: 0 <= f < n && !busy[f] && !ref[f] ==> Position(n, hand, t) <= Position(n, hand, f))
                 && (forall f :: 0 <= f < n ==>
                       left[f] == (ref[f] && !(!busy[f] && Position(n, hand, f) < Position(n, hand, t))))
               else
                 && (forall f :: 0 <= f < n && !busy[f] ==> Position(n, hand, t) <= Position(n, hand, f))
                 && (forall f :: 0 <= f < n ==> left[f] == (ref[f] && busy[f]))
  {
    var n := |busy|;
    FirstFromIsFirst(busy, ref, hand, true, 0);
    FirstFromIsFirst(busy, ref, hand, false, 0);
    forall f | 0 <= f < n
      ensures At(n, hand, Position(n, hand, f)) == f
    {
      PositionAt(n, hand, f, 0);
    }
    var idle :| 0 <= idle < n && !busy[idle];
    assert busy[At(n, hand, Position(n, hand, idle))] == false;
    var k := FirstFrom(busy, ref, hand, true, 0);
    if k < n {
      PositionAt(n, hand, 0, k);
    } else {
      var k' := FirstFrom(busy, ref, hand, false, 0);
      assert k' < n;
      PositionAt(n, hand, 0, k');
      forall f | 0 <= f < n && !busy[f]
        ensures ref[f]
      {
        assert ref[At(n, hand, Position(n, hand, f))];
      }
    }
  }

  /** Moving the hand on by one reaches the next frame to probe. */
  lemma HandMoves(n: nat, hand: int, k: nat)
    requires n > 0 && -1 <= hand < n && k < 2 * n
    ensures k > 0 ==> (At(n, hand, k - 1) + 1) % n == At(n, hand, k)
    ensures k == 0 ==> (hand + 1) % n == At(n, hand, k)
  {
    Wrap(n, hand + 1 + k);
    if k > 0 {
      Wrap(n, hand + k);
      Wrap(n, At(n, hand, k - 1) + 1);
    }
  }

  /** Clearing the k-th frame if idle gives the bits after k + 1 probes. */
  lemma ClearsOne(busy: seq<bool>, ref: seq<bool>, hand: int, k: nat)
    requires |busy| == |ref| > 0 && -1 <= hand < |busy| && k < 2 * |busy|
    ensures var f, left := At(|busy|, hand, k), Cleared(busy, ref, hand, k);
            Cleared(busy, ref, hand, k + 1) == if busy[f] then left else left[f := false]
  {
    var n, f := |busy|, At(|busy|, hand, k);
    var j := if k < n then k else k - n;
    PositionAt(n, hand, f, j);
    forall g | 0 <= g < n && g != f
      ensures Position(n, hand, g) != j
    {
      PositionAt(n, hand, g, j);
    }
  }

  /** Before the last probe the frame probed is busy or still referenced; at the last it
      is neither. */
  lemma StopsThere(busy: seq<bool>, ref: seq<bool>, hand: int, k: nat)
    requires |busy| == |ref| > 0 && -1 <= hand < |busy|
    requires exists f :: 0 <= f < |busy| && !busy[f]
    requires k <= Skipped(busy, ref, hand)
    ensures Skipped(busy, ref, hand) < 2 * |busy|
    ensures var f, left := At(|busy|, hand, k), Cleared(busy, ref, hand, k);
            && (k < Skipped(busy, ref, hand) ==> busy[f] || left[f])
            && (k == Skipped(busy, ref, hand) ==> !busy[f] && !left[f])
  {
    var n := |busy|;
    ClockChoice(busy, ref, hand);
    FirstFromIsFirst(busy, ref, hand, true, 0);
    FirstFromIsFirst(busy, ref, hand, false, 0);
    if k < n {
      PositionAt(n, hand, 0, k);
    } else {
      PositionAt(n, hand, 0, k - n);
    }
  }

  /** The three together: one turn of the clock loop. */
  lemma Probe(busy: seq<bool>, ref: seq<bool>, hand: int, k: nat)
    requires |busy| == |ref| > 0 && -1 <= hand < |busy|
    requires exists f :: 0 <= f < |busy| && !busy[f]
    requires k <= Skipped(busy, ref, hand)
    ensures var n, f, left := |busy|, At(|busy|, hand, k), Cleared(busy, ref, hand, k);
            && (if k == 0 then hand + 1 else At(n, hand, k - 1) + 1) % n == f
            && (k < Skipped(busy, ref, hand) ==> busy[f] || left[f])
            && (k == Skipped(busy, ref, hand) ==> !busy[f] && !left[f])
            && Cleared(busy, ref, hand, k + 1) == if busy[f] then left else left[f := false]
  {
    StopsThere(busy, ref, hand, k);
    HandMoves(|busy|, hand, k);
    ClearsOne(busy, ref, hand, k);
  }
}

/** Which frame an eviction takes, and which one a fault service fills, said of the frame
    table, the MMU's bits and the hand alone. */
module Eviction {
  import opened Common
  import opened SwapLayout
  import Clock
  import opened Paging
  import opened PagingSteps

  /** How far frame f lies ahead of the hand in the cycle of frames; the frame right after
      the hand is 0 ahead, the hand's own frame farthest. */
  function Ahead(c: Config, s: Vm, f: int): int
    requires c.frames > 0
  {
    (f - s.hand - 1) % c.frames
  }

  predicate Idle(s: Vm, f: int) {
    0 <= f < |s.frames| && !s.frames[f].isBusy
  }

  predicate IdleUnreferenced(s: Vm, f: int) {
    Idle(s, f) && f < |s.access| && !s.access[f].ref
  }

  /** t is the first idle unreferenced frame ahead of the hand or, when every idle frame is
      referenced, the first idle one. */
  ghost predicate Chosen(c: Config, s: Vm, t: int)
    requires c.frames > 0
  {
    Idle(s, t) &&
    if exists f :: IdleUnreferenced(s, f)
    then IdleUnreferenced(s, t) && forall f :: IdleUnreferenced(s, f) ==> Ahead(c, s, t) <= Ahead(c, s, f)
    else forall f :: Idle(s, f) ==> Ahead(c, s, t) <= Ahead(c, s, f)
  }

  /** The hand passed frame f on its way to t: f lies before t or, when every idle frame was
      referenced, anywhere. */
  ghost predicate Passed(c: Config, s: Vm, t: int, f: int)
    requires c.frames > 0
  {
    Ahead(c, s, f) < Ahead(c, s, t) || !exists g :: IdleUnreferenced(s, g)
  }

  lemma AheadIsPosition(c: Config, s: Vm, f: int)
    requires c.frames > 0 && -1 <= s.hand < c.frames && 0 <= f < c.frames
    ensures Ahead(c, s, f) == Clock.Position(c.frames, s.hand, f)
  {
    var n, x := c.frames, f - s.hand - 1;
    var q, r := x / n, x % n;
    assert x == q * n + r;
    if q < -1 {
      MulMono(q, -2, n);
    } else {
      assert q == 0 || q == -1;
    }
  }

  /** There is only one such frame. */
  lemma ChosenOnce(c: Config, s: Vm, t: int, t': int)
    requires Shape(c, s) && Chosen(c, s, t) && Chosen(c, s, t')
    ensures t == t'
  {
    AheadIsPosition(c, s, t);
    AheadIsPosition(c, s, t');
  }

  /** The clock of module Clock on the bits of s. */
  lemma ClockOnState(c: Config, s: Vm)
    requires Shape(c, s) && exists f :: Idle(s, f)
    ensures var t := Victim(c, s);
            && Chosen(c, s, t)
            && forall f :: 0 <= f < c.frames ==>
                 Swept(c, s)[f].ref == (s.access[f].ref && !(Idle(s, f) && Passed(c, s, t, f)))
  {
    var busy, ref := BusyBits(s.frames), RefBits(s.access);
    forall f | 0 <= f < c.frames
      ensures Ahead(c, s, f) == Clock.Position(c.frames, s.hand, f)
      ensures Idle(s, f) <==> !busy[f]
      ensures IdleUnreferenced(s, f) <==> !busy[f] && !ref[f]
    {
      AheadIsPosition(c, s, f);
    }
    var idle :| Idle(s, idle);
    assert !busy[idle];
    Clock.ClockChoice(busy, ref, s.hand);
    assert (exists f :: IdleUnreferenced(s, f)) <==> exists f :: 0 <= f < c.frames && !busy[f] && !ref[f];
  }

  /** An eviction takes the chosen frame and stops the hand there. It marks that frame busy
      and without a block and no other frame; it clears the reference bits of exactly the
      idle frames it passed, and a dirty bit only of the frame it writes out. */
  lemma EvictionTakes(c: Config, s: Vm, slack: seq<Byte>)
    requires Consistent(c, s) && SlackFits(c, slack)
    requires exists f :: Idle(s, f)
    ensures var s' := SwapOut(c, s, slack);
            var t := s'.hand;
            && Chosen(c, s, t)
            && s'.frames == s.frames[t := FrameInfo(true, -1)]
            && |s'.access| == c.frames
            && (forall f :: 0 <= f < c.frames ==>
                  s'.access[f].ref == (s.access[f].ref && !(Idle(s, f) && Passed(c, s, t, f))))
            && (forall f :: 0 <= f < c.frames ==>
                  s'.access[f].dirty == (s.access[f].dirty && !(f == t && s.frames[t].blockNum != -1)))
            && s'.ram == s.ram && s'.pool == s.pool && s'.blocks == s.blocks && s'.free == s.free
  {
    ClockOnState(c, s);
    EvictedConsistent(c, s, Victim(c, s));
  }

  /** A fault service that finds every frame of the pool used evicts the chosen frame and
      maps the page there; the other frames keep their pages, and lose only reference bits. */
  lemma FaultEvicts(c: Config, s: Vm, pid: int, page: int, slack: seq<Byte>)
    requires Inv(c, s) && SlackFits(c, slack)
    requires HasPte(s, pid, page) && pid != c.pager && !InCore(s, pid, page)
    requires forall f :: 0 <= f < c.frames ==> s.pool[f].used
    ensures var (s', reply) := Fault(c, s, pid, page, slack);
            var t := s'.hand;
            && Chosen(c, s, t) && |s'.frames| == |s'.access| == c.frames && s'.pool == s.pool
            && (reply != OUT_OF_SWAP ==>
                  && HasPte(s', pid, page) && Pte(s', pid, page).incore && Pte(s', pid, page).frame == t
                  && s'.access[t] == Access(true, true))
            && (forall f :: 0 <= f < c.frames && f != t ==>
                  && s'.frames[f] == s.frames[f] && s'.access[f].dirty == s.access[f].dirty
                  && s'.access[f].ref == (s.access[f].ref && !(Idle(s, f) && Passed(c, s, t, f))))
  {
    AcquireEvicts(c, s, slack);
    AcquireReady(c, s, pid, page, slack);
    var s1 := SwapOut(c, s, slack);
    FilledFrame(c, s1, pid, page, s1.hand);
    assert Fault(c, s, pid, page, slack).0.hand == s1.hand;
  }

  lemma AcquireEvicts(c: Config, s: Vm, slack: seq<Byte>)
    requires Inv(c, s) && SlackFits(c, slack) && forall f :: 0 <= f < c.frames ==> s.pool[f].used
    ensures var s' := SwapOut(c, s, slack);
            var t := s'.hand;
            && Acquire(c, s, slack) == (s', t) && Chosen(c, s, t)
            && s'.pool == s.pool && |s'.access| == c.frames
            && (forall f :: 0 <= f < c.frames && f != t ==>
                  && s'.frames[f] == s.frames[f] && s'.access[f].dirty == s.access[f].dirty
                  && s'.access[f].ref == (s.access[f].ref && !(Idle(s, f) && Passed(c, s, t, f))))
  {
    var unused := (p: PoolFrame) => !p.used;
    assert forall f :: 0 <= f < c.frames ==> !unused(s.pool[f]);
    assert Idle(s, 0);
    EvictionTakes(c, s, slack);
  }

  /** A fault service that finds a frame of the pool unused takes the first such frame, for
      good, and maps the page there; the hand and the other frames stay as they are. */
  lemma FaultTakesPool(c: Config, s: Vm, pid: int, page: int, slack: seq<Byte>, t: int)
    requires Inv(c, s) && SlackFits(c, slack)
    requires HasPte(s, pid, page) && pid != c.pager && !InCore(s, pid, page)
    requires 0 <= t < c.frames && !s.pool[t].used && forall f :: 0 <= f < t ==> s.pool[f].used
    ensures var (s', reply) := Fault(c, s, pid, page, slack);
            && |s'.frames| == |s'.access| == c.frames && s'.hand == s.hand
            && s'.pool == s.pool[t := PoolFrame(true, -1)]
            && (reply != OUT_OF_SWAP ==>
                  && HasPte(s', pid, page) && Pte(s', pid, page).incore && Pte(s', pid, page).frame == t
                  && s'.access[t] == Access(true, true))
            && (forall f :: 0 <= f < c.frames && f != t ==>
                  s'.frames[f] == s.frames[f] && s'.access[f] == s.access[f])
  {
    var unused := (p: PoolFrame) => !p.used;
    assert unused(s.pool[t]) && forall f :: 0 <= f < t ==> !unused(s.pool[f]);
    assert FirstIndex(s.pool, unused) == t;
    AcquireReady(c, s, pid, page, slack);
    FilledFrame(c, Acquire(c, s, slack).0, pid, page, t);
  }

  /** Bringing a page in touches no frame but the one it is brought into. */
  lemma FilledFrame(c: Config, s: Vm, pid: int, page: int, t: int)
    requires ReadyToFill(c, s, pid, page, t)
    ensures var (s1, reply) := SwapIn(c, s, pid, page, t);
            var s' := if reply == EMPTY_PAGE then Zeroed(c, s1, t) else s1;
            && |s'.frames| == |s'.access| == c.frames && s'.hand == s.hand && s'.pool == s.pool
            && (reply != OUT_OF_SWAP ==>
                  && HasPte(s', pid, page) && Pte(s', pid, page) == PTE(true, true, true, t)
                  && s'.access[t] == Access(true, true))
            && (forall f :: 0 <= f < c.frames && f != t ==>
                  s'.frames[f] == s.frames[f] && s'.access[f] == s.access[f])
  {
  }

  /** The answers of P3SwapIn: the first bad argument decides; a good call is out of swap,
      finds an empty page or brings one back according to whether the page has a block and
      whether any is free. A refusal for an argument changes nothing. */
  lemma SwapInReplies(c: Config, s: Vm, pid: int, page: int, f: int)
    requires Consistent(c, s) && (0 <= pid < c.maxProc ==> HasTable(s, pid))
    ensures var (s', reply) := SwapIn(c, s, pid, page, f);
            var badPid, badPage, badFrame := !(0 <= pid < c.maxProc), !(0 <= page < c.pages), !(0 <= f < c.frames);
            var bad, has := badPid || badPage || badFrame, exists b :: Owns(s, b, pid, page);
            && (reply == INVALID_PID <==> badPid)
            && (reply == INVALID_PAGE <==> !badPid && badPage)
            && (reply == INVALID_FRAME <==> !badPid && !badPage && badFrame)
            && (reply == SwapReply.SUCCESS <==> !bad && has)
            && (reply == EMPTY_PAGE <==> !bad && !has && s.free > 0)
            && (reply == OUT_OF_SWAP <==> !bad && !has && s.free == 0)
            && (bad ==> s' == s)
  {
    var owner := (b: Block) => b.pid == pid && b.page == page;
    var n := FindBlock(s.blocks, pid, page);
    if b :| Owns(s, b, pid, page) {
      assert owner(s.blocks[b]);
    }
    if pid >= 0 && n != -1 {
      assert Owns(s, n, pid, page);
    }
  }
}

/** The steps of a thread on the free list whose lock it holds. */
module ThreadSlabSteps {
  import opened Bytes
  import opened Sizes
  import opened PsList
  import opened Slabs
  import opened Os
  import opened Heaps
  import opened HeapSteps
  import opened HeapRegions
  import opened Threads
  import opened ThreadInvariant
  import opened AbstractHeap
  import opened ThreadSteps
  import A = AllocSpec

  /** A step of t on class i, whose lock it holds, that concerns block b at most. */
  ghost predicate SlabMove(s: State, t: int, s': State, b: Addr, i: int)
    requires Shape(s, t)
  {
    && |s'.threads| == |s.threads| && s'.threads == s.threads[t := s'.threads[t]] && |s'.rets| == |s.rets|
    && s'.locks == s.locks && s'.pins == s.pins && s'.init == s.init == 2 && s'.initer == s.initer
    && 0 <= i < CLASSES && s.locks[i] == t
    && HeapInv(s'.heap) && Quiet(s.heap, s'.heap, b, i) && s'.heap.ready == s.heap.ready
    && b !in s.heap.live && b !in s'.heap.live && !LargeExtent(s.heap, b)
    && s.heap.slabs[i].pages <= s'.heap.slabs[i].pages && PeakStep(s.heap.slabs[i], s'.heap.slabs[i])
  }

  /** b is at most the block of t, before and after. */
  ghost predicate SlabHands(s: State, t: int, s': State, d: Hold, d': Hold, b: Addr) {
    && (d.Block? ==> d.b == b && d.cls >= 0) && (d'.Block? ==> d'.b == b)
    && (b in s.heap.hands ==> d.Block?)
    && (b in s'.heap.hands ==> d'.Block?)
  }

  ghost predicate SlabPages(s': State, l': LockHold, i: int)
    requires 0 <= i < CLASSES == |s'.heap.slabs|
  {
    forall q :: q in s'.heap.slabs[i].pages ==> q in s'.heap.regs || l' == Claiming(i, q, q, false)
  }

  /** A step on the list of class i, with the block that comes into or leaves the hands of t, keeps the
      invariant and is invisible. */
  lemma KeepSlab(s: State, t: int, s': State, b: Addr, i: int, d: Hold, d': Hold, l: LockHold, l': LockHold, p: Pin)
    requires Inv(s) && Shape(s, t) && SlabMove(s, t, s', b, i) && SlabHands(s, t, s', d, d', b)
    requires d == HoldOf(s.threads[t]) && l == LockOf(s.threads[t]) && p == PinOf(s.threads[t])
    requires Placed(s', t, s'.threads[t], d', l', p) && SlabPages(s', l', i)
    requires l != NoLock && l' != NoLock && l.i == l'.i == i
    ensures Inv(s') && Abs(s'.heap) == Abs(s.heap) && Background(s.heap, s'.heap)
  {
    hide Inv, HeapInv, PcOk, InitOk, HoldOk, LockOk, PinOk, Quiet;
    OwnOf(s, t, d, l, p);
    ZeroIsNoBlock(s);
    SlabStutter(s, t, s', b, i);
    HeapShape(s'.heap);
    SameLocks(s, t, s', l, l', d, p);
    SamePins(s, t, s', d, l, p, p);
    SlabRegions(s, t, s', b, i, d, l, l', p);
    SlabFootprint(s, t, s', b, i, d, d', l, p);
    SlabOwn(s, t, s', b, i, d, d', l, p);
    InvParts(s);
    InitStays(s, s');
    Keep(s, t, s', b, i, 0, d', l', p);
  }

  lemma SlabFootprint(s: State, t: int, s': State, b: Addr, i: int, d: Hold, d': Hold, l: LockHold, p: Pin)
    requires Inv(s) && Shape(s, t) && SlabMove(s, t, s', b, i) && SlabHands(s, t, s', d, d', b)
    requires Own(s, t, d, l, p)
    ensures Footprint(s, t, s', b, i, 0)
  {
    hide HeapInv, ThreadsOk, LocksInv, HandsInv, InitInv, LiveCounted, RegionsCounted;
    ZeroIsNoBlock(s);
    QuietIsQuiet2(s.heap, s'.heap, b, 0, i);
  }

  lemma SlabOwn(s: State, t: int, s': State, b: Addr, i: int, d: Hold, d': Hold, l: LockHold, p: Pin)
    requires Inv(s) && Shape(s, t) && SlabMove(s, t, s', b, i) && SlabHands(s, t, s', d, d', b)
    requires Own(s, t, d, l, p) && HoldOk(s'.heap, t, d')
    ensures OwnHands(t, s'.heap, d', b, 0) && OwnCounts(s', b, 0)
  {
    hide Inv, HeapInv;
    ZeroStays(s, s');
  }

  lemma SlabStutter(s: State, t: int, s': State, b: Addr, i: int)
    requires Inv(s) && Shape(s, t) && SlabMove(s, t, s', b, i)
    ensures Abs(s'.heap) == Abs(s.heap)
    ensures forall x :: x in s.heap.live ==> x in s'.heap.live
  {
    hide Inv, HeapInv;
    InvParts(s);
    HeapParts(s.heap);
    QuietIsStutter(s.heap, s'.heap, b, i);
  }

  lemma SlabRegions(s: State, t: int, s': State, b: Addr, i: int, d: Hold, l: LockHold, l': LockHold, p: Pin)
    requires Inv(s) && Shape(s, t) && SlabMove(s, t, s', b, i) && SlabPages(s', l', i)
    requires Own(s, t, d, l, p) && l != NoLock && l' != NoLock && l.i == l'.i == i
    requires (d.Block? ==> d.cls >= 0) && (b in s.heap.hands ==> d.Block? && d.b == b)
    ensures OwnRegions(s, t, s', l', b, 0, i)
  {
    hide Inv, HeapInv;
    InvParts(s);
    ZeroStays(s, s');
    if b in s'.heap.regs && !IsPage(s'.heap.slabs, b) {
      SlabUser(s, t, s', b, i);
    }
  }

  /** A block that is neither live nor large is no region of its own. */
  lemma SlabUser(s: State, t: int, s': State, b: Addr, i: int)
    requires Inv(s) && Shape(s, t) && SlabMove(s, t, s', b, i) && !IsPage(s'.heap.slabs, b)
    requires b in s.heap.hands ==> s.heap.hands[b].cls >= 0
    ensures b !in s'.heap.regs
  {
    hide HeapInv, ThreadsOk, LocksInv, HandsInv, PinsInv, InitInv, LiveCounted;
    assert b !in s'.heap.slabs[i].pages;
    if IsPage(s.heap.slabs, b) {
      var j :| 0 <= j < CLASSES && b in s.heap.slabs[j].pages;
      assert b !in s'.heap.slabs[j].pages;
    }
  }

  // ----- The steps -----

  lemma ClassPeak(h: Heap, i: int, p: Addr, x: Addr)
    requires HeapInv(h) && 0 <= i < CLASSES == |h.slabs|
    ensures var s := h.slabs[i];
            && PeakStep(s, s) && PeakStep(s, Claim(s, p)) && PeakStep(s, CarveOne(i, s)) && PeakStep(s, Put(s, x))
            && (s.free != [] ==> PeakStep(s, Pop(s)))
  {
    hide HeapInv;
    HeapParts(h);
    assert SlabInv(i, h.slabs[i]);
    PeakSteps(i, h.slabs[i], p, x);
  }

  lemma ClaimPlaced(s: State, t: int, k: Call, i: int, p: Addr, s': State)
    requires Inv(s) && Shape(s, t) && s.threads[t] == AskPage(k) && CallOk(k) && i == ClassOf(k.size)
    requires 0 <= i && PageAnswer(s, t, k, i, p, s') && s.locks[i] == t && s.init == 2
    requires !s.heap.slabs[i].claiming && s.heap.slabs[i].free == [] && PinOk(s.heap, s.pins, t, PinOf(AskPage(k)))
    ensures SlabMove(s, t, s', 0, i) && SlabPages(s', Claiming(i, p, p, false), i)
    ensures Placed(s', t, CountPage(k, p), Nothing, Claiming(i, p, p, false), PinOf(AskPage(k)))
  {
    hide Inv, HeapInv, Quiet, PeakStep, FreshRegion, PageBlocks;
    InvParts(s);
    ZeroIsNoBlock(s);
    ClaimStep(s.heap, i, p, s'.heap.mem);
    ZeroStays(s, s');
    ClaimCounted(s, t, i);
    ClassPeak(s.heap, i, p, 0);
  }

  /** With no page of its own in hand the holder of lock i has counted all pages of the class. */
  lemma ClaimCounted(s: State, t: int, i: int)
    requires Inv(s) && Shape(s, t) && 0 <= i < CLASSES && s.locks[i] == t
    requires LockOf(s.threads[t]).Claiming? ==> LockOf(s.threads[t]).counted
    ensures forall q :: q in s.heap.slabs[i].pages ==> q in s.heap.regs
  {
    hide HeapInv;
    forall q | q in s.heap.slabs[i].pages ensures q in s.heap.regs {
      assert q in s.heap.regs || PageUncounted(s, i, q);
    }
  }

  lemma KeepAskPage(s: State, t: int, k: Call, s': State)
    requires Inv(s) && Shape(s, t) && s.threads[t] == AskPage(k) && CallOk(k) && DoAskPage(s, t, k, ClassOf(k.size), s')
    ensures Inv(s') && Effect(s, t, s')
  {
    hide Inv, HeapInv;
    InvParts(s);
    var i, p := ClassOf(k.size), PinOf(AskPage(k));
    OwnOf(s, t, Nothing, Empty(i), p);
    if s' == Moves(s, t, Unlock(k, 0), s.heap) {
      KeepPc(s, t, s', Unlock(k, 0), Empty(i), Plain(i));
    } else {
      var page :| PageAnswer(s, t, k, i, page, s');
      ClaimPlaced(s, t, k, i, page, s');
      ZeroIsNoBlock(s);
      ZeroStays(s, s');
      KeepSlab(s, t, s', 0, i, Nothing, Nothing, Empty(i), Claiming(i, page, page, false), p);
    }
  }

  lemma KeepCountPage(s: State, t: int, k: Call, page: Addr, s': State)
    requires Inv(s) && Shape(s, t) && s.threads[t] == CountPage(k, page) && CallOk(k)
    requires DoCountRegion(s, t, page, PAGE, Carve(k, page, page), s')
    ensures Inv(s') && Effect(s, t, s')
  {
    hide Inv, HeapInv;
    InvParts(s);
    var i, p := ClassOf(k.size), PinOf(CountPage(k, page));
    OwnOf(s, t, Nothing, Claiming(i, page, page, false), p);
    PageCounted(s, t, i, page, s');
    ZeroIsNoBlock(s);
    ZeroStays(s, s');
    KeepSlab(s, t, s', 0, i, Nothing, Nothing, Claiming(i, page, page, false), Claiming(i, page, page, true), p);
  }

  lemma PageCounted(s: State, t: int, i: int, page: Addr, s': State)
    requires Inv(s) && Shape(s, t) && 0 <= i < CLASSES && LockOf(s.threads[t]) == Claiming(i, page, page, false)
    requires page in s.heap.slabs[i].pages && page !in s.heap.regs && s'.heap == RegionCounted(s.heap, page, PAGE)
    ensures HeapInv(s'.heap) && Quiet(s.heap, s'.heap, 0, i) && SlabPages(s', Claiming(i, page, page, true), i)
    ensures PeakStep(s.heap.slabs[i], s'.heap.slabs[i])
  {
    hide HeapInv, PeakStep;
    CountPageStep(s.heap, i, page);
    ClassPeak(s.heap, i, 0, 0);
    forall q | q in s'.heap.slabs[i].pages ensures q in s'.heap.regs {
      assert q in s.heap.regs || PageUncounted(s, i, q);
    }
  }

  lemma CarvePlaced(s: State, t: int, i: int, page: Addr, a: Addr, pc': Pc, s': State)
    requires Inv(s) && Shape(s, t) && 0 <= i < CLASSES && a < page + PAGE
    requires LockOf(s.threads[t]) == Claiming(i, page, a, true)
    requires LockOk(s.heap, s.locks, t, Claiming(i, page, a, true)) && s.init == 2
    requires Pushed(s.heap.mem, s'.heap.mem, s.heap.heads[i], a)
    requires s' == Moves(s, t, pc', CarvedHeap(s.heap, i, s'.heap.mem))
    ensures SlabMove(s, t, s', 0, i) && SlabPages(s', Claiming(i, page, a + BlockSize(i), true), i)
    ensures LockOk(s'.heap, s'.locks, t, Claiming(i, page, a + BlockSize(i), true))
    ensures 0 !in s.heap.hands && 0 !in s'.heap.hands && s'.heap.live == s.heap.live && s'.heap.acc == s.heap.acc
  {
    hide Inv, HeapInv, PeakStep;
    InvParts(s);
    CarveStep(s.heap, i, s'.heap.mem);
    CarveRoom(s'.heap, i);
    ClaimCounted(s, t, i);
    ClassPeak(s.heap, i, 0, 0);
    ZeroIsNoBlock(s);
  }

  lemma KeepCarve(s: State, t: int, k: Call, page: Addr, a: Addr, s': State)
    requires Inv(s) && Shape(s, t) && s.threads[t] == Carve(k, page, a) && CallOk(k)
    requires DoCarve(s, t, k, ClassOf(k.size), page, a, s')
    ensures Inv(s') && Effect(s, t, s')
  {
    hide Inv, HeapInv, Quiet;
    if a >= page + PAGE {
      KeepCarved(s, t, k, page, a, s');
    } else {
      KeepCarveOne(s, t, k, page, a, s');
    }
  }

  lemma KeepCarveOne(s: State, t: int, k: Call, page: Addr, a: Addr, s': State)
    requires Inv(s) && Shape(s, t) && s.threads[t] == Carve(k, page, a) && CallOk(k) && ClassOf(k.size) >= 0
    requires a < page + PAGE && Pushed(s.heap.mem, s'.heap.mem, s.heap.heads[ClassOf(k.size)], a)
    requires s' == Moves(s, t, Carve(k, page, a + BlockSize(ClassOf(k.size))),
                         CarvedHeap(s.heap, ClassOf(k.size), s'.heap.mem))
    ensures Inv(s') && Effect(s, t, s')
  {
    hide Inv, HeapInv, Quiet, Pushed;
    InvParts(s);
    var i, p := ClassOf(k.size), PinOf(Carve(k, page, a));
    var l, l' := Claiming(i, page, a, true), Claiming(i, page, a + BlockSize(i), true);
    OwnOf(s, t, Nothing, l, p);
    CarvePlaced(s, t, i, page, a, Carve(k, page, a + BlockSize(i)), s');
    KeepSlab(s, t, s', 0, i, Nothing, Nothing, l, l', p);
  }

  lemma CarveRoom(h: Heap, i: int)
    requires HeapInv(h) && 0 <= i < CLASSES && h.slabs[i].pages != {}
    ensures h.slabs[i].next <= h.slabs[i].last + PAGE
  {
    assert SlabInv(i, h.slabs[i]);
  }

  /** Unlinking the first cell of list i, as the code finds it, takes the first free block. */
  lemma PopHeap(h: Heap, i: int, t: int, m': Memory)
    requires HeapInv(h) && 0 <= i < CLASSES == h.ready && h.slabs[i].free != [] && Uncarved(h.slabs[i]) == 0
    requires Cell(h.mem, h.heads[i]) && Unlinked(h.mem, m', Next(h.mem, h.heads[i]))
    ensures var b, h' := h.slabs[i].free[0], Popped(h, i, t, m');
            && Next(h.mem, h.heads[i]) == b && !Held(h, b) && b != 0 && !LargeExtent(h, b)
            && HeapInv(h') && Quiet(h, h', b, i) && PeakStep(h.slabs[i], h'.slabs[i])
  {
    hide HeapInv, Layout, Classes, Owned, Accounts, Lists, Unlinked, Quiet, PeakStep, Carved;
    HeapParts(h);
    ListView(h, i);
    PopStep(h, i, t, m');
    SlabBlock(h, i, h.slabs[i].free[0]);
    ExtentPositive(h, h.slabs[i].free[0]);
    ClassPeak(h, i, 0, 0);
  }

  lemma ExtentPositive(h: Heap, b: Addr)
    requires Layout(h) && b in h.ext
    ensures b > 0
  {
  }

  lemma PopPlaced(s: State, t: int, k: Call, i: int, b: Addr, s': State)
    requires Inv(s) && Shape(s, t) && s.threads[t] == PopFirst(k) && CallOk(k) && i == ClassOf(k.size)
    requires LockOk(s.heap, s.locks, t, Full(i)) && s.init == 2
    requires b == s.heap.slabs[i].free[0] && DoPop(s, t, k, i, s')
    ensures s'.threads[t] == Unlock(k, b) && SlabMove(s, t, s', b, i) && b !in s.heap.hands && b != 0
    ensures s'.heap == Popped(s.heap, i, t, s'.heap.mem) && b !in s'.heap.acc
  {
    hide Inv, HeapInv, Quiet, PeakStep, Unlinked, LargeExtent;
    InvParts(s);
    PopHeap(s.heap, i, t, s'.heap.mem);
    NotHeld(s, b);
  }

  lemma KeepPop(s: State, t: int, k: Call, s': State)
    requires Inv(s) && Shape(s, t) && s.threads[t] == PopFirst(k) && CallOk(k) && DoPop(s, t, k, ClassOf(k.size), s')
    ensures Inv(s') && Effect(s, t, s')
  {
    hide Inv, HeapInv, Quiet, Unlinked;
    InvParts(s);
    var i, p := ClassOf(k.size), PinOf(PopFirst(k));
    OwnOf(s, t, Nothing, Full(i), p);
    var b := s.heap.slabs[i].free[0];
    PopPlaced(s, t, k, i, b, s');
    PopCounted(s, t, i, b, s');
    var d := Block(b, i, false, 0, 0, false, false, false);
    KeepSlab(s, t, s', b, i, Nothing, d, Full(i), Plain(i), p);
  }

  lemma PopCounted(s: State, t: int, i: int, b: Addr, s': State)
    requires Inv(s) && Shape(s, t) && 0 <= i < CLASSES && LockOf(s.threads[t]) == Full(i) && s.locks[i] == t
    requires s.heap.slabs[i].free != [] && b == s.heap.slabs[i].free[0] && s'.heap == Popped(s.heap, i, t, s'.heap.mem)
    ensures SlabPages(s', Plain(i), i)
    ensures !s'.heap.slabs[i].claiming && b in s'.heap.ext
  {
    hide HeapInv, Inv;
    InvParts(s);
    HeapParts(s.heap);
    ClaimCounted(s, t, i);
    SlabBlock(s.heap, i, b);
  }

  lemma InsertPlaced(s: State, t: int, b: Addr, i: int, s': State)
    requires Inv(s) && Shape(s, t) && s.threads[t] == Insert(b, i) && s.init == 2
    requires HoldOk(s.heap, t, HoldOf(Insert(b, i))) && LockOk(s.heap, s.locks, t, Plain(i)) && DoInsert(s, t, b, i, s')
    ensures SlabMove(s, t, s', b, i)
  {
    hide Inv, HeapInv, PeakStep, Layout, Classes, Owned, Lists, Accounts;
    InvParts(s);
    HeapParts(s.heap);
    PutStep(s.heap, i, b, s'.heap.mem);
    HandFacts(s, t, HoldOf(Insert(b, i)), NoPin);
    HeldExtent(s.heap, b);
    ClassPeak(s.heap, i, 0, b);
  }

  lemma KeepInsert(s: State, t: int, b: Addr, i: int, s': State)
    requires Inv(s) && Shape(s, t) && s.threads[t] == Insert(b, i) && DoInsert(s, t, b, i, s')
    ensures Inv(s') && Effect(s, t, s')
  {
    hide Inv, HeapInv, Quiet, Added, TripWord, Abs;
    InvParts(s);
    var d := HoldOf(Insert(b, i));
    OwnOf(s, t, d, Plain(i), NoPin);
    InsertPlaced(s, t, b, i, s');
    ClaimCounted(s, t, i);
    KeepSlab(s, t, s', b, i, d, Nothing, Plain(i), Plain(i), NoPin);
  }
}

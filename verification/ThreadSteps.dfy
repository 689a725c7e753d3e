/** Every step of every thread keeps the invariant and is either invisible to clients or has exactly the
    effect of the call it belongs to. */
module ThreadSteps {
  import opened Bytes
  import opened Sizes
  import opened Slabs
  import opened Heaps
  import opened HeapSteps
  import opened Threads
  import opened ThreadInvariant
  import opened AbstractHeap
  import A = AllocSpec

  /** The effect of a call that succeeds with block b. */
  ghost predicate Returns(k: Call, a: Blocks, a': Blocks, b: Addr) {
    match k
    case MallocCall(n) => Mallocs(a, a', b, n)
    case CallocCall(n) => Callocs(a, a', b, n)
    case ReallocCall(o, n) => Reallocs(a, a', o, b, n)
  }

  /** What clients see of a step of t: the effect of a call at the one step where it takes effect - for
      p2free its first, for p2realloc in place when the header is written, otherwise when p2malloc has
      returned - and nothing at any other step. */
  ghost predicate Effect(s: State, t: int, s': State)
    requires 0 <= t < |s.threads|
  {
    var a, a' := Abs(s.heap), Abs(s'.heap);
    && |s'.threads| == |s.threads| && Background(s.heap, s'.heap)
    && match s.threads[t]
       case Finish(k, b) => Returns(k, a, a', b)
       case ResizeSet(b, n) => Reallocs(a, a', b, b, n)
       case FreeStart(b) => Frees(a, a', b)
       case _ => a' == a
  }

  lemma ZeroIsNoBlock(s: State)
    requires Inv(s)
    ensures !Held(s.heap, 0) && 0 !in s.pins && 0 !in s.heap.regs && 0 !in s.heap.ext
  {
  }

  lemma LiveNotInHands(s: State, b: Addr)
    requires Inv(s) && b in s.heap.live
    ensures b !in s.heap.hands
  {
  }

  lemma NotHeld(s: State, b: Addr)
    requires Inv(s) && !Held(s.heap, b)
    ensures b !in s.pins && b !in s.heap.acc && b !in s.heap.hands && b !in s.heap.live
  {
  }

  lemma InitStays(s: State, s': State)
    requires InitInv(s) && s.init == 2 && s'.init == 2 && s'.heap.ready == s.heap.ready
    ensures InitInv(s')
  {
  }

  // ----- Steps that leave the heap alone -----

  /** A step from one place to another with the same block, lock and pin, that touches no block. */
  lemma KeepPlace(s: State, t: int, s': State, d: Hold, l: LockHold, l': LockHold, p: Pin)
    requires Inv(s) && Shape(s, t) && |s'.rets| == |s.rets|
    requires |s'.threads| == |s.threads| && s'.threads == s.threads[t := s'.threads[t]]
    requires s'.locks == s.locks && s'.pins == s.pins && HeapInv(s'.heap) && Quiet(s.heap, s'.heap, 0, -1)
    requires s'.heap.slabs == s.heap.slabs && s'.heap.regs == s.heap.regs
    requires d == HoldOf(s.threads[t]) && l == LockOf(s.threads[t]) && p == PinOf(s.threads[t])
    requires Placed(s', t, s'.threads[t], d, l', p)
    requires (l != NoLock ==> l' != NoLock && l'.i == l.i) && !(l.Claiming? && !l.counted)
    requires InitMoves(s, t, s') && InitInv(s')
    ensures Inv(s') && Background(s.heap, s'.heap)
  {
    hide Inv, HeapInv, PcOk, InitOk, HoldOk, PinOk, Quiet, Abs;
    InvParts(s);
    HeapShape(s'.heap);
    OwnOf(s, t, d, l, p);
    ZeroIsNoBlock(s);
    SameLocks(s, t, s', l, l', d, p);
    ZeroQuiet(s, s');
    SamePins(s, t, s', d, l, p, p);
    SameRegions(s, t, s', l, l', d, p, 0, 0);
    PlaceFootprint(s, t, s', d, l, p);
    Keep(s, t, s', 0, -1, 0, d, l', p);
  }

  lemma PlaceFootprint(s: State, t: int, s': State, d: Hold, l: LockHold, p: Pin)
    requires Inv(s) && Shape(s, t) && |s'.rets| == |s.rets| && |s'.threads| == |s.threads|
    requires s'.threads == s.threads[t := s'.threads[t]] && s'.locks == s.locks && s'.pins == s.pins
    requires Quiet(s.heap, s'.heap, 0, -1) && InitMoves(s, t, s')
    ensures Footprint(s, t, s', 0, -1, 0)
  {
    hide Inv, Quiet, Quiet2, InitMoves;
    ZeroIsNoBlock(s);
    QuietIsQuiet2(s.heap, s'.heap, 0, 0, -1);
  }

  lemma ZeroQuiet(s: State, s': State)
    requires Inv(s) && HeapInv(s'.heap) && Quiet(s.heap, s'.heap, 0, -1)
    ensures !Held(s'.heap, 0) && forall x :: x in s.heap.live ==> x in s'.heap.live
    ensures 0 !in s'.heap.regs
    ensures Abs(s'.heap) == Abs(s.heap)
  {
    QuietIsStutter(s.heap, s'.heap, 0, -1);
  }

  lemma SelfQuiet(h: Heap)
    requires Layout(h)
    ensures Quiet(h, h, 0, -1)
  {
  }

  /** The same when the heap does not change at all. */
  lemma KeepPc(s: State, t: int, s': State, pc': Pc, l: LockHold, l': LockHold)
    requires Inv(s) && Shape(s, t) && s' == Moves(s, t, pc', s.heap) && s.init == 2
    requires l == LockOf(s.threads[t]) && !(l.Claiming? && !l.counted)
    requires Placed(s', t, pc', HoldOf(s.threads[t]), l', PinOf(s.threads[t]))
    requires l != NoLock ==> l' != NoLock && l'.i == l.i
    ensures Inv(s') && Abs(s'.heap) == Abs(s.heap) && Background(s.heap, s'.heap)
  {
    hide Inv, HeapInv;
    InvParts(s);
    SelfQuiet(s.heap);
    InitStays(s, s');
    KeepPlace(s, t, s', HoldOf(s.threads[t]), l, l', PinOf(s.threads[t]));
  }

  lemma NotCarving(h: Heap, i: int)
    requires Classes(h) && 0 <= i < CLASSES && !h.slabs[i].claiming
    ensures Uncarved(h.slabs[i]) == 0
  {
    assert SlabInv(i, h.slabs[i]);
  }

  /** The empty test under the lock tells the two ways apart. */
  lemma KeepCheck(s: State, t: int, k: Call, s': State)
    requires Inv(s) && Shape(s, t) && s.threads[t] == Check(k) && CallOk(k) && DoCheck(s, t, k, ClassOf(k.size), s')
    ensures Inv(s') && Effect(s, t, s')
  {
    hide Inv, HeapInv, PinOk, Quiet, Abs, Layout, Classes, Owned, Lists, Accounts;
    InvParts(s);
    HeapParts(s.heap);
    var i := ClassOf(k.size);
    OwnOf(s, t, Nothing, Plain(i), PinOf(Check(k)));
    ListView(s.heap, i);
    NotCarving(s.heap, i);
    KeepPc(s, t, s', s'.threads[t], Plain(i), LockOf(s'.threads[t]));
  }

  lemma KeepCarved(s: State, t: int, k: Call, page: Addr, a: Addr, s': State)
    requires Inv(s) && Shape(s, t) && s.threads[t] == Carve(k, page, a) && CallOk(k)
    requires a >= page + PAGE && s' == Moves(s, t, PopFirst(k), s.heap)
    ensures Inv(s') && Effect(s, t, s')
  {
    hide Inv, HeapInv, PinOk, Layout, Classes, Owned, Lists, Accounts;
    InvParts(s);
    HeapParts(s.heap);
    var i := ClassOf(k.size);
    OwnOf(s, t, Nothing, Claiming(i, page, a, true), PinOf(Carve(k, page, a)));
    CarvedIsFull(s.heap, i);
    KeepPc(s, t, s', PopFirst(k), Claiming(i, page, a, true), Full(i));
  }

  /** A page carved to its end has left blocks on the list. */
  lemma CarvedIsFull(h: Heap, i: int)
    requires Classes(h) && 0 <= i < CLASSES && h.slabs[i].claiming && h.slabs[i].pages != {}
    requires Uncarved(h.slabs[i]) == 0
    ensures h.slabs[i].free != []
  {
    var s := h.slabs[i];
    assert SlabInv(i, s);
    Conservation(i, s);
  }

  lemma KeepSpin(s: State, t: int, k: Call, s': State)
    requires Inv(s) && Shape(s, t) && s.threads[t] == Spin(k) && DoSpin(s, t, k, s')
    ensures Inv(s') && Effect(s, t, s')
  {
    hide Inv, HeapInv;
    InvParts(s);
    OwnOf(s, t, Nothing, NoLock, PinOf(Spin(k)));
    KeepPc(s, t, s', Entered(k), NoLock, NoLock);
  }

  // ----- Steps on the block in hands -----

  /** A step of t on its own block b that takes no lock, pin or list. It may give b away. */
  lemma KeepHand(s: State, t: int, s': State, d: Hold, d': Hold, l: LockHold, l': LockHold, p: Pin)
    requires Inv(s) && Shape(s, t) && |s'.rets| == |s.rets|
    requires |s'.threads| == |s.threads| && s'.threads == s.threads[t := s'.threads[t]]
    requires s'.locks == s.locks && s'.pins == s.pins && s'.init == s.init == 2 && s'.initer == s.initer
    requires d.Block? && HeapInv(s'.heap) && Quiet(s.heap, s'.heap, d.b, -1)
    requires s'.heap.slabs == s.heap.slabs && s'.heap.ready == s.heap.ready
    requires d == HoldOf(s.threads[t]) && l == LockOf(s.threads[t]) && p == PinOf(s.threads[t])
    requires Placed(s', t, s'.threads[t], d', l', p)
    requires (l != NoLock ==> l' != NoLock && l'.i == l.i) && !(l.Claiming? && !l.counted)
    requires d'.Block? ==> d'.b == d.b
    requires d.b in s'.heap.hands ==> d'.Block? && s'.heap.hands[d.b].owner == t
    requires d.b in s'.heap.live ==>
               && d.b in s'.heap.acc && s'.heap.acc[d.b] == s'.heap.live[d.b].size
               && (s'.heap.live[d.b].mapped != 0 ==> d.b in s'.heap.regs)
    requires d.b in s'.heap.regs ==> s'.heap.regs == s.heap.regs || RegionUser(s'.heap, d.b)
    requires d.b in s'.heap.regs && d.cls == -1 ==> RegionUser(s'.heap, d.b)
    ensures Inv(s') && Background(s.heap, s'.heap)
  {
    hide Inv, HeapInv, PcOk, InitOk, PinOk, LockOk, Quiet;
    InvParts(s);
    HeapShape(s'.heap);
    OwnOf(s, t, d, l, p);
    ZeroIsNoBlock(s);
    HandFacts(s, t, d, p);
    SameLocks(s, t, s', l, l', d, p);
    HandPins(s, t, s', d, p, l);
    HandRegions(s, t, s', d, l, l', p);
    HandFootprint(s, t, s', d, l, p);
    HandOwn(s, t, s', d, d', l, p);
    InitStays(s, s');
    Keep(s, t, s', d.b, -1, 0, d', l', p);
  }

  lemma HandPins(s: State, t: int, s': State, d: Hold, p: Pin, l: LockHold)
    requires Inv(s) && |s.locks| == CLASSES == |s.heap.slabs| && Own(s, t, d, l, p) && d.Block?
    requires Quiet(s.heap, s'.heap, d.b, -1) && s'.pins == s.pins
    ensures OwnPins(t, s', p, 0)
  {
    hide Inv;
    ZeroIsNoBlock(s);
    HandFacts(s, t, d, p);
  }

  lemma HandOwn(s: State, t: int, s': State, d: Hold, d': Hold, l: LockHold, p: Pin)
    requires |s.locks| == CLASSES == |s.heap.slabs| && Own(s, t, d, l, p) && d.Block? && HeapInv(s'.heap)
    requires Quiet(s.heap, s'.heap, d.b, -1) && (d'.Block? ==> d'.b == d.b)
    requires d.b in s'.heap.hands ==> d'.Block? && s'.heap.hands[d.b].owner == t
    requires d.b in s'.heap.live ==> d.b in s'.heap.acc && s'.heap.acc[d.b] == s'.heap.live[d.b].size
    ensures OwnHands(t, s'.heap, d', d.b, 0) && OwnCounts(s', d.b, 0)
  {
    hide HeapInv;
    ZeroStays(s, s');
  }

  lemma HandFootprint(s: State, t: int, s': State, d: Hold, l: LockHold, p: Pin)
    requires Inv(s) && Shape(s, t) && |s'.rets| == |s.rets| && |s'.threads| == |s.threads|
    requires s'.threads == s.threads[t := s'.threads[t]] && s'.locks == s.locks && s'.pins == s.pins
    requires s'.init == s.init && s'.initer == s.initer && s'.heap.ready == s.heap.ready
    requires d.Block? && HoldOk(s.heap, t, d) && PinOk(s.heap, s.pins, t, p) && Quiet(s.heap, s'.heap, d.b, -1)
    ensures Footprint(s, t, s', d.b, -1, 0)
  {
    hide Inv, Quiet, Quiet2, HeaderFits;
    ZeroIsNoBlock(s);
    HandFacts(s, t, d, p);
    QuietIsQuiet2(s.heap, s'.heap, d.b, 0, -1);
  }

  lemma HandFacts(s: State, t: int, d: Hold, p: Pin)
    requires Inv(s) && d.Block? && HoldOk(s.heap, t, d) && PinOk(s.heap, s.pins, t, p)
    ensures d.b !in s.heap.live && d.b !in s.pins && (p.Pinned? ==> p.b != d.b) && d.b != 0
  {
  }

  lemma ZeroStays(s: State, s': State)
    requires HeapInv(s'.heap)
    ensures 0 !in s'.heap.hands && 0 !in s'.heap.live && 0 !in s'.heap.regs
  {
  }

  lemma HandRegions(s: State, t: int, s': State, d: Hold, l: LockHold, l': LockHold, p: Pin)
    requires Inv(s) && HeapInv(s'.heap) && |s'.locks| == CLASSES && 0 <= t < |s.threads|
    requires Own(s, t, d, l, p) && l == LockOf(s.threads[t]) && !(l.Claiming? && !l.counted)
    requires d.Block? && Quiet(s.heap, s'.heap, d.b, -1) && s'.heap.slabs == s.heap.slabs
    requires d.b in s'.heap.live && s'.heap.live[d.b].mapped != 0 ==> d.b in s'.heap.regs
    requires d.b in s'.heap.regs ==> s'.heap.regs == s.heap.regs || RegionUser(s'.heap, d.b)
    requires d.b in s'.heap.regs && d.cls == -1 ==> RegionUser(s'.heap, d.b)
    ensures OwnRegions(s, t, s', l', d.b, 0, -1)
  {
    hide Inv, HeapInv, Quiet;
    InvParts(s);
    ZeroStays(s, s');
    forall j, q | 0 <= j < CLASSES && s.locks[j] == t && q in s'.heap.slabs[j].pages ensures q in s'.heap.regs {
      HandPage(s, t, s', d, j, q);
    }
    if d.b in s'.heap.regs && d.cls != -1 {
      HandUser(s, t, s', d);
    }
  }

  /** A page of a class whose lock t holds stays counted when t works on a block in its hands. */
  lemma HandPage(s: State, t: int, s': State, d: Hold, j: int, q: Addr)
    requires Inv(s) && 0 <= t < |s.threads| && HoldOk(s.heap, t, d) && d.Block? && Quiet(s.heap, s'.heap, d.b, -1)
    requires !(LockOf(s.threads[t]).Claiming? && !LockOf(s.threads[t]).counted)
    requires |s.locks| == CLASSES == |s.heap.slabs| && 0 <= j < CLASSES && s.locks[j] == t
    requires q in s.heap.slabs[j].pages
    ensures q in s'.heap.regs
  {
    hide HeapInv, ThreadsOk, LocksInv, HandsInv, PinsInv, InitInv, LiveCounted;
    assert q in s.heap.regs || PageUncounted(s, j, q);
    HeapParts(s.heap);
    A.PageExtent(s.heap, j, q);
  }

  lemma HandUser(s: State, t: int, s': State, d: Hold)
    requires Inv(s) && HoldOk(s.heap, t, d) && d.Block? && d.cls != -1
    requires |s'.heap.slabs| == |s.heap.slabs| == CLASSES && s'.heap.slabs == s.heap.slabs && d.b in s'.heap.regs
    requires s'.heap.regs == s.heap.regs || RegionUser(s'.heap, d.b)
    ensures RegionUser(s'.heap, d.b)
  {
    hide HeapInv, ThreadsOk, LocksInv, HandsInv, PinsInv, InitInv, LiveCounted;
    HandFacts(s, t, d, NoPin);
    if s'.heap.regs == s.heap.regs {
      assert RegionUser(s.heap, d.b);
    }
  }

  lemma WritesInside(m: Memory, m': Memory, b: Addr, n: nat, a: Addr, k: nat)
    requires WritesIn(m, m', a, k) && b <= a && a + k <= b + n
    ensures WritesIn(m, m', b, n)
  {
  }

  /** The header of a block in hands written for request k. */
  lemma HeaderWrite(h: Heap, t: int, k: Call, b: Addr, m': Memory, d: Hold)
    requires HeapInv(h) && d.Block? && d.b == b && HoldOk(h, t, d) && CallOk(k) && d.cls == ClassOf(k.size)
    requires HeaderWritten(h.mem, m', b, k.size, if d.cls == -1 then h.ext[b] else 0)
    requires k.size + HEADER <= h.ext[b] && !d.counted && (d.cls == -1 ==> Tight(k.size, h.ext[b]))
    ensures HeapInv(h.(mem := m')) && Quiet(h, h.(mem := m'), b, -1)
    ensures HoldOk(h.(mem := m'), t, d.(header := true, size := k.size, wiped := false))
  {
    HeldExtent(h, b);
    WritesInside(h.mem, m', b, h.ext[b], b, HEADER);
    HandWrite(h, b, m');
  }

  lemma KeepLargeHeader(s: State, t: int, k: Call, b: Addr, s': State)
    requires Inv(s) && Shape(s, t) && s.threads[t] == LargeHeader(k, b) && CallOk(k)
    requires DoHeader(s, t, k, b, LargeBytes(k), LargeUsed(k, b), s')
    ensures Inv(s') && Effect(s, t, s')
  {
    hide Inv, HeapInv, Quiet, PinOk, Abs, HeaderFits, Accounts, Lists;
    InvParts(s);
    HeapParts(s.heap);
    var d, p := HoldOf(s.threads[t]), PinOf(s.threads[t]);
    OwnOf(s, t, d, NoLock, p);
    InitStays(s, s');
    PageAlignTight(k.size);
    HeaderWrite(s.heap, t, k, b, s'.heap.mem, d);
    HandStutter(s, t, s', d);
    KeepPinned(s, t, s', d, p, 0);
    KeepHand(s, t, s', d, HoldOf(LargeUsed(k, b)), NoLock, NoLock, p);
  }

  /** A step on the block in hands that leaves it in hands is invisible. */
  lemma HandStutter(s: State, t: int, s': State, d: Hold)
    requires Inv(s) && d.Block? && HoldOk(s.heap, t, d) && Quiet(s.heap, s'.heap, d.b, -1) && d.b !in s'.heap.live
    ensures Abs(s'.heap) == Abs(s.heap)
  {
    HeapParts(s.heap);
    QuietIsStutter(s.heap, s'.heap, d.b, -1);
  }

  /** A step on the block in hands leaves the pinned block as it is. */
  lemma KeepPinned(s: State, t: int, s': State, d: Hold, p: Pin, i: int)
    requires Inv(s) && d.Block? && HoldOk(s.heap, t, d) && PinOk(s.heap, s.pins, t, p)
    requires Quiet(s.heap, s'.heap, d.b, i) && s'.pins == s.pins
    ensures PinOk(s'.heap, s'.pins, t, p)
  {
    HandFacts(s, t, d, p);
  }
}

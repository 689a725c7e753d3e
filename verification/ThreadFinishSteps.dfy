/** The steps at which a call takes effect: p2malloc has returned a block, p2realloc moves its contents or
    rewrites the header in place. */
module ThreadFinishSteps {
  import opened Bytes
  import opened Sizes
  import opened Os
  import opened Heaps
  import opened HeapSteps
  import opened Threads
  import opened ThreadInvariant
  import opened AbstractHeap
  import opened ThreadSteps
  import opened ThreadBlockSteps
  import A = AllocSpec

  // ----- p2malloc and p2calloc return -----

  /** The payload of the block in hands written. */
  lemma PayloadWrite(h: Heap, t: int, d: Hold, m': Memory, n: nat)
    requires HeapInv(h) && HoldOk(h, t, d) && d.Block? && d.header && n <= Load(h.mem, d.b) && !d.wiped
    requires WritesIn(h.mem, m', d.b + HEADER, n)
    ensures HeapInv(h.(mem := m')) && Quiet(h, h.(mem := m'), d.b, -1) && HoldOk(h.(mem := m'), t, d)
    ensures Load(m', d.b) == Load(h.mem, d.b) && Load(m', d.b + 8) == Load(h.mem, d.b + 8)
  {
    HeldExtent(h, d.b);
    WritesInside(h.mem, m', d.b, h.ext[d.b], d.b + HEADER, n);
    HandWrite(h, d.b, m');
    WordSame(h.mem, m', d.b);
    WordSame(h.mem, m', d.b + 8);
  }

  lemma QuietTwice(h: Heap, h1: Heap, h2: Heap, b: Addr)
    requires Quiet(h, h1, b, -1) && Quiet(h1, h2, b, -1) && h1.ext == h.ext && h1.live == h.live && h1.hands == h.hands
    ensures Quiet(h, h2, b, -1)
  {
  }

  /** The allocation the header describes. */
  function InHeader(h: Heap, b: Addr, n: nat): Alloc
    requires Mapped(h.mem, b, HEADER)
  {
    Alloc(n, MappedSize(h, b))
  }

  lemma PublishHand(h: Heap, t: int, d: Hold)
    requires HeapInv(h) && HoldOk(h, t, d) && d.Block? && d.header && d.size > 0
    ensures Mapped(h.mem, d.b, HEADER) && d.b !in h.live
    ensures var h' := Published(h, d.b, InHeader(h, d.b, d.size)); HeapInv(h') && Quiet(h, h', d.b, -1)
    ensures InHeader(h, d.b, d.size).mapped != 0 <==> d.cls == -1
  {
    HandClass(h, t, d);
    HeldExtent(h, d.b);
    assert HasHeader(h.mem, d.b, InHeader(h, d.b, d.size));
    PublishStep(h, d.b, InHeader(h, d.b, d.size));
  }

  lemma FinishWrite(h: Heap, t: int, d: Hold, m': Memory, n: nat, h': Heap)
    requires HeapInv(h) && HoldOk(h, t, d) && d.Block? && d.header && 0 < d.size && n <= d.size && !d.wiped
    requires WritesIn(h.mem, m', d.b + HEADER, n)
    requires Mapped(h.mem, d.b, HEADER) && h' == Published(h.(mem := m'), d.b, InHeader(h, d.b, d.size))
    ensures HeapInv(h') && Quiet(h, h', d.b, -1) && d.b !in h.live
    ensures h'.live[d.b].mapped != 0 <==> d.cls == -1
  {
    PayloadWrite(h, t, d, m', n);
    PublishHand(h.(mem := m'), t, d);
    QuietTwice(h, h.(mem := m'), h', d.b);
  }

  lemma HandCounted(h: Heap, t: int, d: Hold)
    requires HoldOk(h, t, d) && d.Block? && d.counted && d.region && d.size > 0
    ensures d.b in h.hands && d.b in h.acc && h.acc[d.b] == d.size && (d.cls == -1 ==> d.b in h.regs)
  {
  }

  lemma FinishMemory(s: State, t: int, k: Call, b: Addr, s': State)
    requires Shape(s, t) && DoFinish(s, t, k, b, s') && !k.ReallocCall?
    ensures WritesIn(s.heap.mem, s'.heap.mem, b + HEADER, if k.CallocCall? then k.size else 0)
    ensures k.CallocCall? ==>
              forall a :: b + HEADER <= a < b + HEADER + k.size ==> a in s'.heap.mem && s'.heap.mem[a] == 0
  {
  }

  lemma KeepFinish(s: State, t: int, k: Call, b: Addr, s': State)
    requires Inv(s) && Shape(s, t) && s.threads[t] == Finish(k, b) && DoFinish(s, t, k, b, s') && !k.ReallocCall?
    ensures Inv(s') && Effect(s, t, s')
  {
    hide Inv, HeapInv, Quiet, Abs, Mallocs, HoldOk, Zeroed;
    InvParts(s);
    var d := HoldOf(Finish(k, b));
    OwnOf(s, t, d, NoLock, NoPin);
    HandCounted(s.heap, t, d);
    FinishMemory(s, t, k, b, s');
    FinishWrite(s.heap, t, d, s'.heap.mem, if k.CallocCall? then k.size else 0, s'.heap);
    InitStays(s, s');
    MallocEffect(s.heap, s'.heap, b, k.size);
    HoldsNothing(s'.heap, s'.pins, t);
    KeepHand(s, t, s', d, Nothing, NoLock, NoLock, NoPin);
  }

  lemma MallocEffect(h: Heap, h': Heap, b: Addr, size: nat)
    requires HeapInv(h) && Quiet(h, h', b, -1) && b !in h.live && b in h'.live && h'.live[b].size == size
    ensures Mallocs(Abs(h), Abs(h'), b, size)
    ensures (forall a :: b + HEADER <= a < b + HEADER + size ==> a in h'.mem && h'.mem[a] == 0) ==>
              Callocs(Abs(h), Abs(h'), b, size)
  {
    hide HeapInv;
    HeapParts(h);
    QuietBlocks(h, h', b, -1, {b});
    AbsMalloc(h, h', b, size);
    if forall a :: b + HEADER <= a < b + HEADER + size ==> a in h'.mem && h'.mem[a] == 0 {
      AbsCalloc(h, h', b, size);
    }
  }

  // ----- p2realloc in place -----

  /** A step of t on its pinned block b, after which it may let go of it. */
  ghost predicate PinMove(s: State, t: int, s': State, b: Addr, p': Pin)
    requires Shape(s, t)
  {
    && |s'.threads| == |s.threads| && |s'.rets| == |s.rets|
    && s' == Moves(s, t, s'.threads[t], s'.heap).(pins := s'.pins, rets := s'.rets)
    && HeapInv(s'.heap) && Quiet(s.heap, s'.heap, b, -1) && s.init == 2 && s'.heap.ready == s.heap.ready
    && s'.heap.slabs == s.heap.slabs && s'.heap.regs == s.heap.regs && s'.heap.hands == s.heap.hands
    && b in s.heap.live && b in s'.heap.live && s'.heap.live[b].mapped == s.heap.live[b].mapped
    && (if p' == NoPin then s'.pins == s.pins - {b} && b in s'.heap.acc && s'.heap.acc[b] == s'.heap.live[b].size
        else p'.b == b && s'.pins == s.pins)
  }

  lemma KeepResize(s: State, t: int, s': State, b: Addr, p: Pin, p': Pin)
    requires Inv(s) && Shape(s, t) && PinMove(s, t, s', b, p') && p.Pinned? && p.b == b && p == PinOf(s.threads[t])
    requires HoldOf(s.threads[t]) == Nothing && LockOf(s.threads[t]) == NoLock
    requires Placed(s', t, s'.threads[t], Nothing, NoLock, p')
    ensures Inv(s') && Background(s.heap, s'.heap)
  {
    hide Inv, HeapInv, PcOk, InitOk, PinOk;
    InvParts(s);
    OwnOf(s, t, Nothing, NoLock, p);
    InitStays(s, s');
    SameLocks(s, t, s', NoLock, NoLock, Nothing, p);
    PinOwn(s, t, s', b, p, p');
    PinFootprint(s, t, s', b, p, p');
    PinRegions(s, t, s', b, p, p');
    Keep(s, t, s', b, -1, b, Nothing, NoLock, p');
  }

  lemma PinOwn(s: State, t: int, s': State, b: Addr, p: Pin, p': Pin)
    requires Inv(s) && Shape(s, t) && PinMove(s, t, s', b, p') && p.Pinned? && p.b == b
    requires Own(s, t, Nothing, NoLock, p)
    ensures OwnPins(t, s', p', b) && OwnCounts(s', b, b) && OwnHands(t, s'.heap, Nothing, b, b)
  {
    hide Inv, HeapInv;
    LiveNotInHands(s, b);
  }

  lemma PinFootprint(s: State, t: int, s': State, b: Addr, p: Pin, p': Pin)
    requires Inv(s) && Shape(s, t) && PinMove(s, t, s', b, p') && p.Pinned? && p.b == b
    requires Own(s, t, Nothing, NoLock, p)
    ensures Footprint(s, t, s', b, -1, b)
  {
    hide Inv, HeapInv;
    LiveNotInHands(s, b);
    QuietIsQuiet2(s.heap, s'.heap, b, b, -1);
  }

  lemma PinRegions(s: State, t: int, s': State, b: Addr, p: Pin, p': Pin)
    requires Inv(s) && Shape(s, t) && PinMove(s, t, s', b, p')
    requires Own(s, t, Nothing, NoLock, p) && NoLock == LockOf(s.threads[t])
    ensures OwnRegions(s, t, s', NoLock, b, b, -1)
  {
    hide HeapInv, ThreadsOk, LocksInv, HandsInv, PinsInv, InitInv, LiveCounted, Quiet;
    SameRegions(s, t, s', NoLock, NoLock, Nothing, p, b, b);
  }

  lemma PinIsLive(s: State, t: int, b: Addr, p: Pin)
    requires Inv(s) && PinOk(s.heap, s.pins, t, p) && p.Pinned? && p.b == b
    ensures b in s.heap.live && b in s.heap.ext && Mapped(s.heap.mem, b, HEADER) && s.heap.ext[b] <= WORDS
    ensures Load(s.heap.mem, b) == s.heap.live[b].size <= SIZE_MAX && Held(s.heap, b)
    ensures Load(s.heap.mem, b + 8) == s.heap.live[b].mapped
  {
    hide ThreadsOk, LocksInv, HandsInv, PinsInv;
    assert LiveBlock(b, s.heap.live[b], s.heap.ext, s.heap.os, s.heap.abandoned);
    assert HasHeader(s.heap.mem, b, s.heap.live[b]);
  }

  lemma CountIsStutter(h: Heap, h': Heap)
    requires HeapInv(h) && h'.live == h.live && h'.mem == h.mem
    ensures Abs(h') == Abs(h)
  {
    HeapParts(h);
    forall x | x in h.live ensures Same(h.mem, h'.mem, x + HEADER, h.live[x].size) {
      assert LiveBlock(x, h.live[x], h.ext, h.os, h.abandoned);
    }
    AbsSame(h, h');
  }

  lemma PinUncounted(s: State, t: int, b: Addr, size: nat)
    requires Inv(s) && PinOk(s.heap, s.pins, t, Pinned(b, size, true, false, 0)) && size > 0
    ensures b in s.heap.live && Mapped(s.heap.mem, b, HEADER)
    ensures var h' := Uncounted(s.heap, b, Load(s.heap.mem, b));
            HeapInv(h') && Quiet(s.heap, h', b, -1) && PinOk(h', s.pins, t, Pinned(b, size, false, false, 0))
  {
    hide Inv, HeapInv;
    InvParts(s);
    PinIsLive(s, t, b, Pinned(b, size, true, false, 0));
    UncountStep(s.heap, b);
  }

  lemma PinCounted(s: State, t: int, b: Addr, size: nat)
    requires Inv(s) && PinOk(s.heap, s.pins, t, Pinned(b, size, false, false, 0)) && size > 0
    ensures b in s.heap.live
    ensures var h' := Counted(s.heap, b, size);
            HeapInv(h') && Quiet(s.heap, h', b, -1) && PinOk(h', s.pins, t, Pinned(b, size, true, true, 0))
  {
    hide Inv, HeapInv;
    InvParts(s);
    PinIsLive(s, t, b, Pinned(b, size, false, false, 0));
    CountStep(s.heap, b, size);
  }

  lemma KeepResizeSub(s: State, t: int, b: Addr, size: nat, s': State)
    requires Inv(s) && Shape(s, t) && s.threads[t] == ResizeSub(b, size) && DoResizeSub(s, t, b, size, s')
    ensures Inv(s') && Effect(s, t, s')
  {
    hide Inv, HeapInv, PinOk, Quiet, Abs;
    InvParts(s);
    var p := PinOf(ResizeSub(b, size));
    OwnOf(s, t, Nothing, NoLock, p);
    PinUncounted(s, t, b, size);
    CountIsStutter(s.heap, s'.heap);
    KeepResize(s, t, s', b, p, PinOf(ResizeAdd(b, size)));
  }

  lemma KeepResizeAdd(s: State, t: int, b: Addr, size: nat, s': State)
    requires Inv(s) && Shape(s, t) && s.threads[t] == ResizeAdd(b, size)
    requires DoCount(s, t, b, size, ResizeSet(b, size), s')
    ensures Inv(s') && Effect(s, t, s')
  {
    hide Inv, HeapInv, PinOk, Quiet, Abs;
    InvParts(s);
    var p := PinOf(ResizeAdd(b, size));
    OwnOf(s, t, Nothing, NoLock, p);
    PinCounted(s, t, b, size);
    CountIsStutter(s.heap, s'.heap);
    KeepResize(s, t, s', b, p, PinOf(ResizeSet(b, size)));
  }

  lemma PinResized(s: State, t: int, b: Addr, size: nat)
    requires Inv(s) && PinOk(s.heap, s.pins, t, Pinned(b, size, true, true, 0)) && size > 0
    ensures b in s.heap.live && Mapped(s.heap.mem, b, 8) && size < WORDS && b in s.heap.acc && s.heap.acc[b] == size
    ensures var h' := Resized(s.heap, b, size, Store(s.heap.mem, b, size)); HeapInv(h') && Quiet(s.heap, h', b, -1)
  {
    hide Inv, HeapInv;
    InvParts(s);
    PinIsLive(s, t, b, Pinned(b, size, true, true, 0));
    ResizeStep(s.heap, b, size);
  }

  lemma KeepResizeSet(s: State, t: int, b: Addr, size: nat, s': State)
    requires Inv(s) && Shape(s, t) && s.threads[t] == ResizeSet(b, size) && DoResizeSet(s, t, b, size, s')
    ensures Inv(s') && Effect(s, t, s')
  {
    hide Inv, HeapInv, PinOk, Quiet, Abs, Reallocs;
    InvParts(s);
    var p := PinOf(ResizeSet(b, size));
    OwnOf(s, t, Nothing, NoLock, p);
    PinResized(s, t, b, size);
    ResizeEffect(s.heap, s'.heap, b, size);
    HoldsNothing(s'.heap, s'.pins, t);
    KeepResize(s, t, s', b, p, NoPin);
  }

  lemma ResizeEffect(h: Heap, h': Heap, b: Addr, size: nat)
    requires HeapInv(h) && Quiet(h, h', b, -1) && b in h.live && Mapped(h.mem, b, 8) && size < WORDS
    requires h' == Resized(h, b, size, Store(h.mem, b, size))
    ensures Reallocs(Abs(h), Abs(h'), b, b, size)
  {
    hide HeapInv;
    HeapParts(h);
    QuietBlocks(h, h', b, -1, {b, b});
    AbsRealloc(h, h', b, b, size);
  }

  // ----- p2realloc through a new block -----

  /** Block o, pinned by t, has been copied into block b in the hands of t; then b is live and o in hands. */
  ghost predicate Moved(s: State, t: int, b: Addr, o: Addr, n: nat, s': State)
    requires Shape(s, t)
  {
    var h, m' := s.heap, s'.heap.mem;
    && o in h.live && h.live[o].size <= SIZE_MAX && o != b && Mapped(h.mem, b, HEADER)
    && Copied(h.mem, m', b + HEADER, o + HEADER, Min(h.live[o].size, n))
    && s' == Moves(s, t, FreeUsed(o, ClassOf(h.live[o].size)),
                   Retired(Published(h.(mem := m'), b, InHeader(h, b, n)), o, t))
             .(pins := s.pins - {o}, rets := s.rets[t := b + HEADER])
  }

  lemma MovedHeap(h: Heap, t: int, d: Hold, o: Addr, m': Memory, h1: Heap, h': Heap)
    requires HeapInv(h) && HoldOk(h, t, d) && d.Block? && d.header && 0 < d.size && !d.wiped
    requires o in h.live && o != d.b && h.live[o].size <= SIZE_MAX
    requires WritesIn(h.mem, m', d.b + HEADER, Min(h.live[o].size, d.size)) && Mapped(h.mem, d.b, HEADER)
    requires h1 == Published(h.(mem := m'), d.b, InHeader(h, d.b, d.size)) && h' == Retired(h1, o, t)
    ensures HeapInv(h1) && HeapInv(h') && Quiet(h, h1, d.b, -1) && Quiet(h1, h', o, -1)
    ensures h1.live[d.b].mapped != 0 <==> d.cls == -1
  {
    FinishWrite(h, t, d, m', Min(h.live[o].size, d.size), h1);
    RetireStep(h1, o, t);
  }

  lemma QuietBoth(h: Heap, h1: Heap, h': Heap, b: Addr, o: Addr)
    requires Quiet(h, h1, b, -1) && Quiet(h1, h', o, -1) && h'.regs == h1.regs == h.regs
    ensures Quiet2(h, h', b, o, -1)
  {
    hide LargeExtent;
  }

  lemma MoveEffect(h: Heap, h': Heap, b: Addr, o: Addr, n: nat)
    requires HeapInv(h) && Quiet2(h, h', b, o, -1) && o in h.live && b !in h.live
    requires b in h'.live && o !in h'.live && h'.live[b].size == n && b != o
    requires Copied(h.mem, h'.mem, b + HEADER, o + HEADER, Min(h.live[o].size, n))
    ensures Reallocs(Abs(h), Abs(h'), o, b, n)
  {
    hide HeapInv;
    HeapParts(h);
    forall x | x !in {b, o} && x in h.live
      ensures h'.live[x].size == h.live[x].size && Same(h.mem, h'.mem, x + HEADER, h.live[x].size)
    {
      assert LiveBlock(x, h.live[x], h.ext, h.os, h.abandoned);
    }
    AbsRealloc(h, h', o, b, n);
  }

  /** The old block, now in the hands of t, has the header it had, and both counters still count it. */
  lemma MoveHold(s: State, t: int, d: Hold, b: Addr, o: Addr, n: nat, s': State, h1: Heap)
    requires Inv(s) && Shape(s, t) && Moved(s, t, b, o, n, s')
    requires h1 == Published(s.heap.(mem := s'.heap.mem), b, InHeader(s.heap, b, n)) && Quiet(s.heap, h1, b, -1)
    requires PinOk(s.heap, s.pins, t, Pinned(o, 0, true, false, n))
    ensures HoldOk(s'.heap, t, HoldOf(s'.threads[t]))
  {
    hide Inv, HeapInv;
    InvParts(s);
    OldHeader(s, o);
    KeptHeader(s.heap, h1, b, o, ClassOf(s.heap.live[o].size));
  }

  lemma KeptHeader(h: Heap, h': Heap, b: Addr, o: Addr, cls: int)
    requires Quiet(h, h', b, -1) && Held(h, o) && o != b && o in h.ext && HeapInv(h)
    requires HeaderFits(h.mem, o, cls, h.ext[o])
    ensures o in h'.ext && HeaderFits(h'.mem, o, cls, h'.ext[o]) && Load(h'.mem, o) == Load(h.mem, o)
  {
    HeldExtent(h, o);
    LoadsSame(h.mem, h'.mem, o, h.ext[o]);
  }

  /** A step of t that publishes block b, the one in its hands, and takes the live block o it pinned. */
  ghost predicate SwapMove(s: State, t: int, s': State, b: Addr, o: Addr)
    requires Shape(s, t)
  {
    && |s'.threads| == |s.threads| && |s'.rets| == |s.rets|
    && s' == Moves(s, t, s'.threads[t], s'.heap).(pins := s.pins - {o}, rets := s'.rets)
    && HeapInv(s'.heap) && Quiet2(s.heap, s'.heap, b, o, -1) && s.init == 2 && s'.heap.ready == s.heap.ready
    && s'.heap.slabs == s.heap.slabs && s'.heap.regs == s.heap.regs && s'.heap.acc == s.heap.acc
    && b != o && b in s.heap.hands && o in s.heap.live && b in s'.heap.live && o in s'.heap.hands
    && o !in s'.heap.live && b !in s'.heap.hands && s'.heap.hands[o].owner == t
    && b in s.heap.acc && s.heap.acc[b] == s'.heap.live[b].size
    && (s'.heap.live[b].mapped != 0 <==> s.heap.hands[b].cls == -1)
    && (s.heap.live[o].mapped != 0 ==> s'.heap.hands[o].cls == -1)
  }

  lemma KeepSwap(s: State, t: int, s': State, d: Hold, d': Hold, p: Pin, b: Addr, o: Addr)
    requires Inv(s) && Shape(s, t) && SwapMove(s, t, s', b, o)
    requires d == HoldOf(s.threads[t]) && LockOf(s.threads[t]) == NoLock && p == PinOf(s.threads[t])
    requires d.Block? && d.b == b && (d.cls == -1 ==> d.region) && p.Pinned? && p.b == o
    requires Placed(s', t, s'.threads[t], d', NoLock, NoPin) && d'.Block? && d'.b == o
    ensures Inv(s') && Background(s.heap, s'.heap)
  {
    hide Inv, HeapInv, PcOk, InitOk, PinOk, HoldOk, Quiet2;
    InvParts(s);
    OwnOf(s, t, d, NoLock, p);
    InitStays(s, s');
    SameLocks(s, t, s', NoLock, NoLock, d, p);
    SwapOwn(s, t, s', d, d', p, b, o);
    SwapFootprint(s, t, s', d, p, b, o);
    SwapRegions(s, t, s', d, p, b, o);
    Keep(s, t, s', b, -1, o, d', NoLock, NoPin);
  }

  lemma SwapOwn(s: State, t: int, s': State, d: Hold, d': Hold, p: Pin, b: Addr, o: Addr)
    requires Inv(s) && Shape(s, t) && SwapMove(s, t, s', b, o) && Own(s, t, d, NoLock, p)
    requires d.Block? && d.b == b && p.Pinned? && p.b == o && d'.Block? && d'.b == o
    ensures OwnPins(t, s', NoPin, o) && OwnCounts(s', b, o) && OwnHands(t, s'.heap, d', b, o)
  {
    hide Inv, HeapInv;
  }

  lemma SwapFootprint(s: State, t: int, s': State, d: Hold, p: Pin, b: Addr, o: Addr)
    requires Inv(s) && Shape(s, t) && SwapMove(s, t, s', b, o) && Own(s, t, d, NoLock, p)
    requires d.Block? && d.b == b && p.Pinned? && p.b == o
    ensures Footprint(s, t, s', b, -1, o)
  {
    hide Inv, HeapInv, Quiet2;
    HandFacts(s, t, d, p);
    LiveNotInHands(s, o);
  }

  lemma SwapRegions(s: State, t: int, s': State, d: Hold, p: Pin, b: Addr, o: Addr)
    requires Inv(s) && Shape(s, t) && SwapMove(s, t, s', b, o) && Own(s, t, d, NoLock, p)
    requires NoLock == LockOf(s.threads[t]) && d.Block? && d.b == b && (d.cls == -1 ==> d.region)
    ensures OwnRegions(s, t, s', NoLock, b, o, -1)
  {
    hide HeapInv, ThreadsOk, LocksInv, HandsInv, PinsInv, InitInv, LiveCounted, Quiet2;
    forall x | x in s.heap.regs && (x == b || x == o) && !IsPage(s.heap.slabs, x) ensures RegionUser(s'.heap, x) {
      assert RegionUser(s.heap, x);
      LiveNotInHands(s, o);
      HandFacts(s, t, d, p);
    }
    SameRegions(s, t, s', NoLock, NoLock, d, p, b, o);
  }

  lemma MovePlaced(s: State, t: int, d: Hold, o: Addr, n: nat, b: Addr, s': State)
    requires Inv(s) && Shape(s, t) && s.init == 2 && Moved(s, t, b, o, n, s')
    requires d.Block? && d == Block(b, d.cls, true, n, 0, true, true, false) && HoldOk(s.heap, t, d) && n > 0
    requires PinOk(s.heap, s.pins, t, Pinned(o, 0, true, false, n))
    ensures SwapMove(s, t, s', b, o) && Reallocs(Abs(s.heap), Abs(s'.heap), o, b, n)
    ensures HoldOk(s'.heap, t, Block(o, ClassOf(s.heap.live[o].size), true, 0, 0, true, true, false))
  {
    hide Inv, HeapInv, Abs, Reallocs, Quiet, Quiet2;
    InvParts(s);
    var h1 := Published(s.heap.(mem := s'.heap.mem), b, InHeader(s.heap, b, n));
    MovedHeap(s.heap, t, d, o, s'.heap.mem, h1, s'.heap);
    QuietBoth(s.heap, h1, s'.heap, b, o);
    HandFacts(s, t, d, Pinned(o, 0, true, false, n));
    OldHeader(s, o);
    MoveEffect(s.heap, s'.heap, b, o, n);
    MoveHold(s, t, d, b, o, n, s', h1);
  }

  lemma KeepMove(s: State, t: int, o: Addr, n: nat, b: Addr, s': State)
    requires Inv(s) && Shape(s, t) && s.threads[t] == Finish(ReallocCall(o, n), b) && Moved(s, t, b, o, n, s')
    ensures Inv(s') && Effect(s, t, s')
  {
    hide Inv, HeapInv, HoldOk, PinOk, SwapMove, Abs, Reallocs;
    InvParts(s);
    var d, p := HoldOf(s.threads[t]), PinOf(s.threads[t]);
    OwnOf(s, t, d, NoLock, p);
    MovePlaced(s, t, d, o, n, b, s');
    FreeUsedPlace(s', t);
    KeepSwap(s, t, s', d, HoldOf(s'.threads[t]), p, b, o);
  }

  lemma FreeUsedPlace(s': State, t: int)
    requires |s'.locks| == CLASSES == |s'.heap.slabs| && 0 <= t < |s'.threads| && s'.threads[t].FreeUsed?
    requires s'.init == 2 && HoldOk(s'.heap, t, HoldOf(s'.threads[t]))
    ensures Placed(s', t, s'.threads[t], HoldOf(s'.threads[t]), NoLock, NoPin)
  {
  }
}

/** The steps of a thread on the block in its hands: headers, counters, tripwire, return to the OS. */
module ThreadBlockSteps {
  import opened Bytes
  import opened Sizes
  import opened Os
  import opened Heaps
  import opened HeapSteps
  import opened HeapRegions
  import opened Threads
  import opened ThreadInvariant
  import opened AbstractHeap
  import opened ThreadSteps

  /** A step on block d.b, which stays in the hands of t with the same class, under no lock. */
  lemma KeepBlock(s: State, t: int, s': State, d: Hold, d': Hold, p: Pin)
    requires Inv(s) && Shape(s, t) && s.init == 2 && d.Block? && d'.Block?
    requires d == HoldOf(s.threads[t]) && p == PinOf(s.threads[t]) && LockOf(s.threads[t]) == NoLock
    requires |s'.threads| == |s.threads| && s' == Moves(s, t, s'.threads[t], s'.heap)
    requires HeapInv(s'.heap) && Quiet(s.heap, s'.heap, d.b, -1) && s'.heap.hands == s.heap.hands
    requires s'.heap.slabs == s.heap.slabs && s'.heap.ready == s.heap.ready && s'.heap.live == s.heap.live
    requires PcOk(s'.threads[t]) && InitOk(s', t, s'.threads[t]) && HoldOk(s'.heap, t, d')
    requires d' == HoldOf(s'.threads[t]) && NoLock == LockOf(s'.threads[t]) && p == PinOf(s'.threads[t])
    requires d'.b == d.b && d'.cls == d.cls
    requires s'.heap.regs == s.heap.regs || d.cls == -1
    ensures Inv(s') && Abs(s'.heap) == Abs(s.heap) && Background(s.heap, s'.heap)
  {
    hide Inv, HeapInv, Quiet, PcOk, InitOk;
    InvParts(s);
    OwnOf(s, t, d, NoLock, p);
    HandFacts(s, t, d, p);
    HandStutter(s, t, s', d);
    KeepPinned(s, t, s', d, p, -1);
    InitStays(s, s');
    BlockRegion(s, d, s');
    KeepHand(s, t, s', d, d', NoLock, NoLock, p);
  }

  lemma BlockRegion(s: State, d: Hold, s': State)
    requires Inv(s) && d.Block? && d.b in s'.heap.hands && s'.heap.hands[d.b].cls == d.cls
    ensures d.cls == -1 ==> RegionUser(s'.heap, d.b)
  {
  }

  // ----- p2malloc: the counters -----

  lemma BlockCounted(h: Heap, t: int, d: Hold)
    requires HeapInv(h) && HoldOk(h, t, d) && d.Block? && d.header && d.size > 0 && !d.counted
    ensures HeapInv(Counted(h, d.b, d.size)) && Quiet(h, Counted(h, d.b, d.size), d.b, -1)
    ensures HoldOk(Counted(h, d.b, d.size), t, d.(counted := true))
  {
    CountStep(h, d.b, d.size);
  }

  lemma KeepLargeUsed(s: State, t: int, k: Call, b: Addr, s': State)
    requires Inv(s) && Shape(s, t) && s.threads[t] == LargeUsed(k, b) && CallOk(k)
    requires DoCount(s, t, b, k.size, LargeTotal(k, b), s')
    ensures Inv(s') && Effect(s, t, s')
  {
    hide Inv, HeapInv, HoldOk, PinOk;
    InvParts(s);
    var d, p := HoldOf(LargeUsed(k, b)), PinOf(LargeUsed(k, b));
    OwnOf(s, t, d, NoLock, p);
    BlockCounted(s.heap, t, d);
    KeepBlock(s, t, s', d, HoldOf(LargeTotal(k, b)), p);
  }

  /** Of a slab block nothing is said about regions. */
  lemma SlabRegion(h: Heap, t: int, d: Hold)
    requires HoldOk(h, t, d) && d.Block? && d.cls != -1
    ensures HoldOk(h, t, d.(region := true))
  {
  }

  lemma KeepUsed(s: State, t: int, k: Call, b: Addr, s': State)
    requires Inv(s) && Shape(s, t) && s.threads[t] == Used(k, b) && CallOk(k)
    requires DoCount(s, t, b, k.size, Finish(k, b), s')
    ensures Inv(s') && Effect(s, t, s')
  {
    hide Inv, HeapInv, PinOk, HoldOk;
    InvParts(s);
    var d, p := HoldOf(Used(k, b)), PinOf(Used(k, b));
    OwnOf(s, t, d, NoLock, p);
    BlockCounted(s.heap, t, d);
    SlabRegion(s'.heap, t, d.(counted := true));
    KeepBlock(s, t, s', d, HoldOf(Finish(k, b)), p);
  }

  lemma KeepLargeTotal(s: State, t: int, k: Call, b: Addr, s': State)
    requires Inv(s) && Shape(s, t) && s.threads[t] == LargeTotal(k, b) && CallOk(k)
    requires DoCountRegion(s, t, b, LargeBytes(k), Finish(k, b), s')
    ensures Inv(s') && Effect(s, t, s')
  {
    hide Inv, HeapInv, HoldOk, PinOk;
    InvParts(s);
    var d, p := HoldOf(LargeTotal(k, b)), PinOf(LargeTotal(k, b));
    OwnOf(s, t, d, NoLock, p);
    BlockTotalled(s.heap, t, d);
    KeepBlock(s, t, s', d, HoldOf(Finish(k, b)), p);
  }

  lemma BlockTotalled(h: Heap, t: int, d: Hold)
    requires HeapInv(h) && HoldOk(h, t, d) && d.Block? && d.cls == -1 && d.len > 0 && !d.region
    ensures HeapInv(RegionCounted(h, d.b, d.len)) && Quiet(h, RegionCounted(h, d.b, d.len), d.b, -1)
    ensures HoldOk(RegionCounted(h, d.b, d.len), t, d.(region := true, len := 0))
  {
    HandIsRegion(h, t, d);
    CountRegionStep(h, d.b);
  }

  lemma HandIsRegion(h: Heap, t: int, d: Hold)
    requires HeapInv(h) && HoldOk(h, t, d) && d.Block? && d.cls == -1
    ensures LargeRegion(d.b, h.ext, h.os, h.abandoned) && (d.region ==> h.regs[d.b] == h.ext[d.b])
  {
    HeldExtent(h, d.b);
  }

  lemma KeepHeader(s: State, t: int, k: Call, b: Addr, s': State)
    requires Inv(s) && Shape(s, t) && s.threads[t] == Header(k, b) && CallOk(k)
    requires DoHeader(s, t, k, b, 0, Used(k, b), s')
    ensures Inv(s') && Effect(s, t, s')
  {
    hide Inv, HeapInv, Quiet, PinOk, Abs, HeaderFits;
    InvParts(s);
    var d, p := HoldOf(s.threads[t]), PinOf(s.threads[t]);
    OwnOf(s, t, d, NoLock, p);
    HandRoom(s.heap, t, d);
    ClassIsSmallestFit(k.size, d.cls);
    HeaderWrite(s.heap, t, k, b, s'.heap.mem, d);
    KeepBlock(s, t, s', d, HoldOf(Used(k, b)), p);
  }

  lemma HandRoom(h: Heap, t: int, d: Hold)
    requires HeapInv(h) && HoldOk(h, t, d) && d.Block? && d.cls >= 0
    ensures d.cls < CLASSES && h.ext[d.b] == BlockSize(d.cls)
  {
    HeldExtent(h, d.b);
  }

  // ----- p2free -----

  lemma BlockUncounted(h: Heap, t: int, d: Hold)
    requires HeapInv(h) && HoldOk(h, t, d) && d.Block? && d.counted
    ensures Load(h.mem, d.b) == h.acc[d.b]
    ensures var h' := Uncounted(h, d.b, Load(h.mem, d.b));
            HeapInv(h') && Quiet(h, h', d.b, -1) && HoldOk(h', t, d.(counted := false))
  {
    UncountStep(h, d.b);
  }

  lemma KeepFreeUsed(s: State, t: int, b: Addr, i: int, s': State)
    requires Inv(s) && Shape(s, t) && s.threads[t] == FreeUsed(b, i) && DoFreeUsed(s, t, b, i, s')
    ensures Inv(s') && Effect(s, t, s')
  {
    hide Inv, HeapInv;
    InvParts(s);
    var d, d' := HoldOf(FreeUsed(b, i)), HoldOf(s'.threads[t]);
    OwnOf(s, t, d, NoLock, NoPin);
    BlockUncounted(s.heap, t, d);
    HandClass(s.heap, t, d);
    KeepBlock(s, t, s', d, d', NoPin);
  }

  lemma HandClass(h: Heap, t: int, d: Hold)
    requires HeapInv(h) && HoldOk(h, t, d) && d.Block? && d.header
    ensures -1 <= d.cls < CLASSES && (Load(h.mem, d.b + 8) != 0 <==> d.cls == -1)
    ensures d.cls >= 0 ==> ClassOf(Load(h.mem, d.b)) == d.cls
  {
    HeldExtent(h, d.b);
  }

  lemma KeepFreeTotal(s: State, t: int, b: Addr, s': State)
    requires Inv(s) && Shape(s, t) && s.threads[t] == FreeTotal(b) && DoFreeTotal(s, t, b, s')
    ensures Inv(s') && Effect(s, t, s')
  {
    hide Inv, HeapInv, Quiet, Abs, Tight;
    InvParts(s);
    var d := HoldOf(FreeTotal(b));
    OwnOf(s, t, d, NoLock, NoPin);
    HandIsRegion(s.heap, t, d);
    UncountRegionStep(s.heap, b);
    KeepBlock(s, t, s', d, HoldOf(Unmap(b)), NoPin);
  }

  lemma KeepWipe(s: State, t: int, b: Addr, i: int, s': State)
    requires Inv(s) && Shape(s, t) && s.threads[t] == Wipe(b, i) && DoWipe(s, t, b, s')
    ensures Inv(s') && Effect(s, t, s')
  {
    hide Inv, HeapInv, HoldOk, Quiet, Zeroed;
    InvParts(s);
    var d := HoldOf(Wipe(b, i));
    OwnOf(s, t, d, NoLock, NoPin);
    BlockWiped(s.heap, t, d, s'.heap.mem);
    KeepBlock(s, t, s', d, HoldOf(LockFree(b, i)), NoPin);
  }

  /** The tripwire set, and the class the header gives is that of the block. */
  lemma BlockWiped(h: Heap, t: int, d: Hold, m': Memory)
    requires HeapInv(h) && HoldOk(h, t, d) && d.Block? && d.cls >= 0 && d.header && !d.counted
    requires Zeroed(h.mem, m', d.b + HEADER, 8)
    ensures HeapInv(h.(mem := m')) && Quiet(h, h.(mem := m'), d.b, -1) && d.cls < CLASSES
    ensures ClassOf(Load(h.mem, d.b)) == d.cls
    ensures HoldOk(h.(mem := m'), t, d.(header := false, size := 0, wiped := true))
  {
    HandClass(h, t, d);
    HandRoom(h, t, d);
    WritesInside(h.mem, m', d.b, h.ext[d.b], d.b + HEADER, 8);
    HandWrite(h, d.b, m');
    ZeroedWord(h.mem, m', d.b + HEADER, 8);
  }

  lemma KeepUnmap(s: State, t: int, b: Addr, s': State)
    requires Inv(s) && Shape(s, t) && s.threads[t] == Unmap(b) && DoUnmap(s, t, b, s')
    ensures Inv(s') && Effect(s, t, s')
  {
    hide Inv, HeapInv;
    InvParts(s);
    var d := HoldOf(Unmap(b));
    OwnOf(s, t, d, NoLock, NoPin);
    HandIsRegion(s.heap, t, d);
    HandClass(s.heap, t, d);
    ReleaseStep(s.heap, b, s'.heap.mem);
    HandFacts(s, t, d, NoPin);
    HandStutter(s, t, s', d);
    InitStays(s, s');
    KeepHand(s, t, s', d, Nothing, NoLock, NoLock, NoPin);
  }

  // ----- A block comes into hands -----

  /** A step after which t, which held no block, has block b in hands; if t had pinned b, no longer. */
  ghost predicate NewMove(s: State, t: int, s': State, b: Addr)
    requires Shape(s, t)
  {
    && |s'.threads| == |s.threads| && |s'.rets| == |s.rets| && s.init == 2
    && s' == Moves(s, t, s'.threads[t], s'.heap).(pins := s'.pins, rets := s'.rets)
    && HeapInv(s'.heap) && Quiet(s.heap, s'.heap, b, -1)
    && s'.heap.slabs == s.heap.slabs && s'.heap.ready == s.heap.ready && s'.heap.regs == s.heap.regs
    && b !in s.heap.hands && b in s'.heap.hands && b !in s'.heap.live && b !in s'.pins
    && (b in s.heap.live && s.heap.live[b].mapped != 0 ==> s'.heap.hands[b].cls == -1)
    && (forall x :: x != b ==> (x in s'.pins <==> x in s.pins) && (x in s.pins ==> s'.pins[x] == s.pins[x]))
  }

  /** The pin of t before and after. */
  ghost predicate NewPin(s: State, t: int, b: Addr, p: Pin, p': Pin) {
    if b in s.pins then s.pins[b] == t && p.Pinned? && p.b == b && p' == NoPin else p' == p
  }

  lemma KeepNew(s: State, t: int, s': State, b: Addr, d': Hold, p: Pin, p': Pin)
    requires Inv(s) && Shape(s, t) && NewMove(s, t, s', b) && (b in s.heap.live || b !in s.heap.regs)
    requires HoldOf(s.threads[t]) == Nothing && LockOf(s.threads[t]) == NoLock && p == PinOf(s.threads[t])
    requires Placed(s', t, s'.threads[t], d', NoLock, p') && d'.Block? && d'.b == b && NewPin(s, t, b, p, p')
    ensures Inv(s') && Background(s.heap, s'.heap)
  {
    hide Inv, HeapInv, PcOk, InitOk, HoldOk, PinOk, Quiet, NewPin;
    InvParts(s);
    OwnOf(s, t, Nothing, NoLock, p);
    InitStays(s, s');
    SameLocks(s, t, s', NoLock, NoLock, Nothing, p);
    NewPins(s, t, s', b, p, p');
    NewHands(s, t, s', b, d', p);
    NewFootprint(s, t, s', b, p, p');
    NewRegions(s, t, s', b, d', p);
    Keep(s, t, s', b, -1, b, d', NoLock, p');
  }

  lemma NewPins(s: State, t: int, s': State, b: Addr, p: Pin, p': Pin)
    requires Inv(s) && Shape(s, t) && NewMove(s, t, s', b) && Own(s, t, Nothing, NoLock, p) && NewPin(s, t, b, p, p')
    ensures OwnPins(t, s', p', b)
  {
    hide Inv, HeapInv;
  }

  lemma NewHands(s: State, t: int, s': State, b: Addr, d': Hold, p: Pin)
    requires Inv(s) && Shape(s, t) && NewMove(s, t, s', b) && Own(s, t, Nothing, NoLock, p)
    requires HoldOk(s'.heap, t, d') && d'.Block? && d'.b == b
    ensures OwnHands(t, s'.heap, d', b, b) && OwnCounts(s', b, b)
  {
    hide Inv, HeapInv;
  }

  lemma NewFootprint(s: State, t: int, s': State, b: Addr, p: Pin, p': Pin)
    requires Inv(s) && Shape(s, t) && NewMove(s, t, s', b) && NewPin(s, t, b, p, p')
    ensures Footprint(s, t, s', b, -1, b)
  {
    hide Inv, HeapInv;
    QuietIsQuiet2(s.heap, s'.heap, b, b, -1);
  }

  lemma NewRegions(s: State, t: int, s': State, b: Addr, d': Hold, p: Pin)
    requires Inv(s) && Shape(s, t) && NewMove(s, t, s', b) && (b in s.heap.live || b !in s.heap.regs)
    requires Own(s, t, Nothing, NoLock, p) && HoldOk(s'.heap, t, d') && d'.Block? && d'.b == b
    requires LockOf(s.threads[t]) == NoLock
    ensures OwnRegions(s, t, s', NoLock, b, b, -1)
  {
    hide HeapInv, ThreadsOk, LocksInv, HandsInv, PinsInv, InitInv, LiveCounted, Quiet;
    if b in s'.heap.regs {
      NewUser(s, t, s', b);
    }
  }

  lemma NewUser(s: State, t: int, s': State, b: Addr)
    requires Inv(s) && Shape(s, t) && NewMove(s, t, s', b) && b in s.heap.live && b in s.heap.regs
    ensures RegionUser(s'.heap, b)
  {
    hide HeapInv, ThreadsOk, LocksInv, HandsInv, PinsInv, InitInv, LiveCounted, Quiet;
    assert RegionUser(s.heap, b);
  }

  lemma KeepLargeAnswer(s: State, t: int, k: Call, b: Addr, s': State)
    requires Inv(s) && Shape(s, t) && s.threads[t] == LargeAsk(k) && CallOk(k) && LargeAnswer(s, t, k, b, s')
    ensures Inv(s') && Effect(s, t, s')
  {
    hide Inv, HeapInv, Quiet, PinOk;
    InvParts(s);
    var p, d' := PinOf(LargeAsk(k)), HoldOf(LargeHeader(k, b));
    OwnOf(s, t, Nothing, NoLock, p);
    LargeRoom(k);
    LargeStep(s.heap, b, LargeBytes(k), t, s'.heap.mem);
    NotHeld(s, b);
    LargeStutter(s, t, s', b, p);
    KeepNew(s, t, s', b, d', p, p);
  }

  /** A request for which no class has room is mapped with more than one page; a wrapped size is not
      mapped at all. */
  lemma LargeRoom(k: Call)
    requires CallOk(k) && ClassOf(k.size) == -1
    ensures LargeBytes(k) > PAGE || LargeBytes(k) == 0
  {
    PageAlignIsLeast(HEADER + k.size, 0);
  }

  lemma LargeStutter(s: State, t: int, s': State, b: Addr, p: Pin)
    requires Inv(s) && Quiet(s.heap, s'.heap, b, -1) && b !in s.heap.live && b !in s'.heap.live
    requires PinOk(s.heap, s.pins, t, p) && b !in s.pins && s'.pins == s.pins
    ensures Abs(s'.heap) == Abs(s.heap) && PinOk(s'.heap, s'.pins, t, p)
  {
    HeapParts(s.heap);
    QuietIsStutter(s.heap, s'.heap, b, -1);
  }

  /** p2free takes the block it was given, and no other, from its client. */
  lemma KeepFreeStart(s: State, t: int, b: Addr, s': State)
    requires Inv(s) && Shape(s, t) && s.threads[t] == FreeStart(b) && DoFreeStart(s, t, b, s')
    ensures Inv(s') && Effect(s, t, s')
  {
    hide Inv, HeapInv, HoldOk, Quiet, Frees, Abs;
    InvParts(s);
    var p := PinOf(FreeStart(b));
    OwnOf(s, t, Nothing, NoLock, p);
    BlockRetired(s, t, b, s'.heap);
    FreeEffect(s.heap, s'.heap, b);
    KeepNew(s, t, s', b, HoldOf(s'.threads[t]), p, NoPin);
  }

  /** The old header of a block taken over by a call that has pinned it. */
  lemma BlockRetired(s: State, t: int, b: Addr, h': Heap)
    requires Inv(s) && b in s.heap.live && s.heap.live[b].size <= SIZE_MAX && h' == Retired(s.heap, b, t)
    requires PinOk(s.heap, s.pins, t, Pinned(b, 0, true, false, 0))
    ensures HeapInv(h') && Quiet(s.heap, h', b, -1) && b !in s.heap.hands
    ensures s.heap.live[b].mapped != 0 ==> h'.hands[b].cls == -1
    ensures HoldOk(h', t, Block(b, ClassOf(s.heap.live[b].size), true, 0, 0, true, true, false))
  {
    hide Inv, HeapInv;
    InvParts(s);
    OldHeader(s, b);
    LiveNotInHands(s, b);
    RetireStep(s.heap, b, t);
  }

  /** The header of a live block: its class, its size, and that a large one is counted. */
  lemma OldHeader(s: State, o: Addr)
    requires Inv(s) && o in s.heap.live && s.heap.live[o].size <= SIZE_MAX
    ensures o in s.heap.ext && HeaderFits(s.heap.mem, o, ClassOf(s.heap.live[o].size), s.heap.ext[o])
    ensures Load(s.heap.mem, o) == s.heap.live[o].size && Held(s.heap, o)
    ensures ClassOf(s.heap.live[o].size) == -1 <==> s.heap.live[o].mapped != 0
    ensures ClassOf(s.heap.live[o].size) == -1 ==> o in s.heap.regs
  {
    hide ThreadsOk, LocksInv, HandsInv, PinsInv, InitInv;
    assert LiveBlock(o, s.heap.live[o], s.heap.ext, s.heap.os, s.heap.abandoned);
    assert HasHeader(s.heap.mem, o, s.heap.live[o]);
  }

  lemma FreeEffect(h: Heap, h': Heap, b: Addr)
    requires HeapInv(h) && Quiet(h, h', b, -1) && b in h.live && b !in h'.live
    ensures Frees(Abs(h), Abs(h'), b)
  {
    hide HeapInv;
    HeapParts(h);
    QuietBlocks(h, h', b, -1, {b});
    AbsFree(h, h', b);
  }
}

/** What the invariant means in every state of every run of any number of threads. */
module ThreadSafety {
  import opened Bytes
  import opened Sizes
  import opened PsList
  import opened Slabs
  import opened Extents
  import opened Os
  import opened Heaps
  import opened HeapSteps
  import opened HeapRegions
  import opened Threads
  import opened ThreadInvariant
  import opened ThreadSteps
  import opened ThreadCallSteps
  import opened ThreadSlabSteps
  import opened ThreadBlockSteps
  import opened ThreadFinishSteps
  import opened ThreadRuns
  import opened ThreadRefinement
  import A = AllocSpec

  // ----- Blocks -----

  /** Thread t has block x in hands. */
  ghost predicate InHandsOf(s: State, t: int, x: Addr) {
    0 <= t < |s.threads| && HoldOf(s.threads[t]).Block? && HoldOf(s.threads[t]).b == x
  }

  lemma HandOwner(s: State, t: int, x: Addr)
    requires Inv(s)
    ensures InHandsOf(s, t, x) <==> x in s.heap.hands && s.heap.hands[x].owner == t
  {
    hide HeapInv, LocksInv, PinsInv, InitInv, LiveCounted, RegionsCounted;
    InvParts(s);
    if 0 <= t < |s.threads| {
      assert ThreadOk(s, t, s.threads[t]);
    }
  }

  lemma CarvedBlock(h: Heap, i: int, x: Addr)
    requires Ownership(h) && 0 <= i < CLASSES && Carved(i, h.slabs[i], x)
    ensures x in h.slabs[i].free <==> !Held(h, x)
    ensures Held(h, x) ==> HeldClass(h.live, h.hands, x) == i
    ensures x in h.live ==> x !in h.hands
    ensures forall k :: 0 <= k < CLASSES && k != i ==> x !in h.slabs[k].free
  {
    var s := h.slabs[i];
    assert SlabInv(i, s);
    if x in s.free {
      assert RingCell(h, i, x);
      RingCellAlone(h, i, x);
    } else {
      assert x in s.out && HeldClass(h.live, h.hands, x) == i;
      HeldAlone(h, x);
    }
    forall k | 0 <= k < CLASSES && k != i ensures x !in h.slabs[k].free {
      assert !RingCell(h, k, x);
    }
  }

  /** In every reachable state a carved block has exactly one place: the free list of its class, the
      hands of exactly one thread, or the live blocks of its class. */
  lemma OnePlace(r: seq<State>, j: nat, i: int, x: Addr)
    requires Run(r) && j < |r| && 0 <= i < CLASSES == |r[j].heap.slabs| && Carved(i, r[j].heap.slabs[i], x)
    ensures var s, h := r[j], r[j].heap;
            && (x in h.slabs[i].free <==> !Held(h, x)) && (x in h.live ==> x !in h.hands)
            && (Held(h, x) ==> HeldClass(h.live, h.hands, x) == i)
            && (forall k :: 0 <= k < CLASSES && k != i ==> x !in h.slabs[k].free)
            && (x in h.hands <==> exists t :: InHandsOf(s, t, x))
            && (forall t, u :: InHandsOf(s, t, x) && InHandsOf(s, u, x) ==> t == u)
  {
    hide Inv, HeapInv, Run, InHandsOf, Carved;
    var s := r[j];
    RunKeeps(r, j);
    InvParts(s);
    HeapParts(s.heap);
    CarvedBlock(s.heap, i, x);
    forall t ensures InHandsOf(s, t, x) <==> x in s.heap.hands && s.heap.hands[x].owner == t {
      HandOwner(s, t, x);
    }
    if x in s.heap.hands {
      assert InHandsOf(s, s.heap.hands[x].owner, x);
    }
  }

  /** Block x of class i is a whole block of a page of that class. */
  ghost predicate InPage(h: Heap, i: int, x: Addr)
    requires 0 <= i < CLASSES == |h.slabs|
  {
    && PageOf(x) in h.slabs[i].pages && x in h.ext && h.ext[x] == BlockSize(i)
    && PageOf(x) <= x && x + BlockSize(i) <= PageOf(x) + PAGE
  }

  /** Block x is a region of its own that shares no byte with a page of any class. */
  ghost predicate OwnRegion(h: Heap, x: Addr)
    requires |h.slabs| == CLASSES
  {
    && x in h.ext && x in h.os && h.os[x] == h.ext[x]
    && forall i, p :: 0 <= i < CLASSES && p in h.slabs[i].pages ==> Apart(x, h.ext[x], p, PAGE)
  }

  lemma HeldPlace(h: Heap, x: Addr)
    requires Ownership(h) && Held(h, x) && |h.slabs| == CLASSES
    ensures (x + HEADER) % 16 == 0
    ensures var c := HeldClass(h.live, h.hands, x);
            -1 <= c < CLASSES && if c == -1 then OwnRegion(h, x) else InPage(h, c, x)
  {
    hide Layout, Classes, Owned, Sentinels, Outstanding, HeldClass, OwnRegion;
    HeldExtent(h, x);
    BlockInRegion(h, x);
    if HeldClass(h.live, h.hands, x) == -1 {
      LargePlace(h, x);
    }
  }

  lemma LargePlace(h: Heap, x: Addr)
    requires Ownership(h) && Held(h, x) && |h.slabs| == CLASSES && HeldClass(h.live, h.hands, x) == -1
    ensures OwnRegion(h, x)
  {
    hide Layout, Classes, Owned, Sentinels, Outstanding, HeldClass;
    BlockInRegion(h, x);
    forall i, p | 0 <= i < CLASSES && p in h.slabs[i].pages ensures x in h.ext && Apart(x, h.ext[x], p, PAGE) {
      LargeAvoidsPages(h, x, i, p);
    }
  }

  lemma FreePlace(h: Heap, i: int, x: Addr)
    requires Classes(h) && 0 <= i < CLASSES && x in h.slabs[i].free
    ensures InPage(h, i, x)
  {
    SlabBlock(h, i, x);
    BlockInPage(i, x);
  }

  /** In every reachable state no two blocks, free, live or in hands, share a byte; a free block and a held slab
      block are whole blocks of a page of their class; a held large block is a region of its own, apart from all
      pages; every pointer handed out is 16-aligned. */
  lemma AllApart(r: seq<State>, j: nat, x: Addr, y: Addr)
    requires Run(r) && j < |r| && x in r[j].heap.ext && y in r[j].heap.ext && x != y
    ensures |r[j].heap.slabs| == CLASSES
    ensures var h := r[j].heap;
            && Apart(x, h.ext[x], y, h.ext[y])
            && (Held(h, x) ==>
                  && (x + HEADER) % 16 == 0 && -1 <= HeldClass(h.live, h.hands, x) < CLASSES
                  && if HeldClass(h.live, h.hands, x) == -1 then OwnRegion(h, x)
                     else InPage(h, HeldClass(h.live, h.hands, x), x))
            && (forall i :: 0 <= i < CLASSES && x in h.slabs[i].free ==> InPage(h, i, x))
  {
    hide Inv, HeapInv, Run, InPage, OwnRegion;
    RunKeeps(r, j);
    InvParts(r[j]);
    HeapParts(r[j].heap);
    BlocksDisjoint(r[j].heap, x, y);
    if Held(r[j].heap, x) {
      HeldPlace(r[j].heap, x);
    }
    forall i | 0 <= i < CLASSES && x in r[j].heap.slabs[i].free ensures InPage(r[j].heap, i, x) {
      FreePlace(r[j].heap, i, x);
    }
  }

  // ----- Lists and pages -----

  lemma ClassFacts(h: Heap, i: int)
    requires Classes(h) && Lists(h) && Tripwires(h) && h.ready == CLASSES && 0 <= i < CLASSES
    ensures var s := h.slabs[i];
            && IsList(h.mem, h.heads[i], s.free) && ThreeRuns(BlockSize(i), s.free, s.last, s.na, s.nd)
            && (!s.claiming ==> PerPage(i) * |s.pages| == |s.free| + |s.out|)
            && (!s.claiming ==> |s.pages| == (s.peak + PerPage(i) - 1) / PerPage(i))
            && (forall k :: 0 <= k < |s.free| && !(s.na <= k < s.na + s.nd) ==> TripWord(h.mem, s.free[k]))
  {
    var s := h.slabs[i];
    assert SlabInv(i, s) && TripsOf(h.mem, s.free, s.na, s.nd);
    if !s.claiming {
      NotCarving(h, i);
      Conservation(i, s);
      HighWater(i, s);
    }
  }

  /** In every reachable state in which a thread may be past ensure_init, every list is a circular list
      through its sentinel of the form A + D + B, and the zeroed word of every block freed so far is
      still zero. While lock i is free the pages of class i are its free blocks and those handed out,
      and as many as the peak of blocks handed out needs. */
  lemma ListsWhole(r: seq<State>, j: nat, i: int)
    requires Run(r) && j < |r| && 0 <= i < CLASSES == |r[j].heap.slabs| == |r[j].heap.heads| == |r[j].locks|
    requires r[j].init == 2
    ensures var h, s := r[j].heap, r[j].heap.slabs[i];
            && IsList(h.mem, h.heads[i], s.free) && ThreeRuns(BlockSize(i), s.free, s.last, s.na, s.nd)
            && (forall k :: 0 <= k < |s.free| && !(s.na <= k < s.na + s.nd) ==> TripWord(h.mem, s.free[k]))
            && (r[j].locks[i] == -1 ==> PerPage(i) * |s.pages| == |s.free| + |s.out|)
            && (r[j].locks[i] == -1 ==> |s.pages| == (s.peak + PerPage(i) - 1) / PerPage(i))
  {
    hide Inv, HeapInv, Run, IsList, ThreeRuns, TripWord, Layout, Classes, Owned, Lists, Accounts;
    RunKeeps(r, j);
    InvParts(r[j]);
    HeapParts(r[j].heap);
    TripParts(r[j].heap);
    ClassFacts(r[j].heap, i);
    if r[j].locks[i] == -1 {
      FreeLock(r[j], i);
    }
  }

  lemma TripParts(h: Heap)
    requires HeapInv(h)
    ensures Tripwires(h)
  {
  }

  // ----- Locks and initialisation -----

  /** In every reachable state a thread holds at most one lock, at a place inside a critical section, and none
      between calls. */
  lemma OneLock(r: seq<State>, j: nat, a: int, b: int)
    requires Run(r) && j < |r| && 0 <= a < CLASSES && 0 <= b < CLASSES && |r[j].locks| == CLASSES
    requires r[j].locks[a] != -1
    ensures 0 <= r[j].locks[a] < |r[j].threads| && LockOf(r[j].threads[r[j].locks[a]]) != NoLock
    ensures r[j].locks[a] == r[j].locks[b] ==> a == b
    ensures !r[j].threads[r[j].locks[a]].Idle?
  {
    hide HeapInv, Run, ThreadsOk, HandsInv, PinsInv, InitInv, LiveCounted, RegionsCounted;
    RunKeeps(r, j);
    InvParts(r[j]);
  }

  /** Past ensure_init, in p2malloc, or in a call that presupposes a live block. */
  predicate PastInit(pc: Pc) {
    !pc.Idle? && !pc.Cas? && !pc.Heads? && !pc.Store2? && !pc.Spin?
  }

  predicate Initialising(pc: Pc) { pc.Heads? || pc.Store2? }

  /** In every reachable state at most one thread runs freelists_init, and none is past ensure_init before
      init_state is 2 and all eight lists are initialised. */
  lemma InitialisedFirst(r: seq<State>, j: nat, t: int, u: int)
    requires Run(r) && j < |r| && 0 <= t < |r[j].threads| && 0 <= u < |r[j].threads|
    ensures Initialising(r[j].threads[t]) && Initialising(r[j].threads[u]) ==> t == u
    ensures Initialising(r[j].threads[t]) ==> !PastInit(r[j].threads[u])
    ensures PastInit(r[j].threads[t]) ==> r[j].init == 2 && r[j].heap.ready == CLASSES
  {
    hide HeapInv, Run, LocksInv, HandsInv, PinsInv, LiveCounted, RegionsCounted, HoldOk, LockOk, PinOk, PcOk;
    RunKeeps(r, j);
    InvParts(r[j]);
    assert ThreadOk(r[j], t, r[j].threads[t]) && ThreadOk(r[j], u, r[j].threads[u]);
  }

  /** init_state only grows. */
  lemma {:induction false} InitGrows(r: seq<State>, j: nat, k: nat)
    requires Run(r) && j <= k < |r|
    ensures r[j].init <= r[k].init
  {
    hide Inv, Initial, Follows;
    if j < k {
      InitGrows(r, j, k - 1);
      RunKeeps(r, k - 1);
      InitForward(r[k - 1], r[k]);
    }
  }

  lemma InitForward(s: State, s': State)
    requires Inv(s) && Follows(s, s')
    ensures s.init <= s'.init <= 2
  {
    hide Inv, HeapInv, Step, ClientStep, ResetStep;
    InvParts(s);
    if t :| Shape(s, t) && Step(s, t, s') {
      StepTurns(s, t, s');
      OwnOf(s, t, HoldOf(s.threads[t]), LockOf(s.threads[t]), PinOf(s.threads[t]));
    } else if b :| ClientStep(s, b, s') {
      ClientInit(s, b, s');
    } else {
      ResetIsNew(s, s');
    }
  }

  lemma ClientInit(s: State, b: Addr, s': State)
    requires ClientStep(s, b, s')
    ensures s'.init == s.init
  {
  }

  /** init_state leaves 0 once in a whole run, so at most one thread ever wins the compare-and-swap. */
  lemma InitOnce(r: seq<State>, j: nat, k: nat)
    requires Run(r) && j < |r| - 1 && k < |r| - 1
    requires r[j].init == 0 && r[j + 1].init != 0 && r[k].init == 0 && r[k + 1].init != 0
    ensures j == k
  {
    if j < k {
      InitGrows(r, j + 1, k);
      InitGrows(r, 0, j + 1);
    } else if k < j {
      InitGrows(r, k + 1, j);
      InitGrows(r, 0, k + 1);
    }
  }

  // ----- NULL -----

  lemma PopIsBlock(s: State, t: int, s': State)
    requires Inv(s) && Shape(s, t) && s.threads[t].PopFirst? && Step(s, t, s') && |s'.threads| == |s.threads|
    ensures s'.threads[t].Unlock? && s'.threads[t].b != 0
  {
    hide Inv, HeapInv;
    var k := s.threads[t].k;
    OwnOf(s, t, Nothing, LockOf(s.threads[t]), PinOf(s.threads[t]));
    PopPlaced(s, t, k, ClassOf(k.size), s.heap.slabs[ClassOf(k.size)].free[0], s');
  }

  /** The place at which a call returns NULL is reached only by the refusal of the OS: a large request is
      answered there itself, a slab request gets there only from the request for a page. */
  lemma NullIsRefusal(r: seq<State>, j: nat, t: int, s': State)
    requires Run(r) && j < |r| && Shape(r[j], t) && Step(r[j], t, s')
    ensures |s'.threads| == |r[j].threads|
    ensures s'.threads[t].Unlock? && s'.threads[t].b == 0 ==> r[j].threads[t].AskPage? && s'.heap == r[j].heap
  {
    hide Inv, HeapInv, Run, Step;
    RunKeeps(r, j);
    StepTurns(r[j], t, s');
    if r[j].threads[t].PopFirst? {
      PopIsBlock(r[j], t, s');
    } else if r[j].threads[t].AskPage? {
      AskLeavesHeap(r[j], t, s');
    }
  }

  lemma AskLeavesHeap(s: State, t: int, s': State)
    requires Shape(s, t) && s.threads[t].AskPage? && Step(s, t, s') && |s'.threads| == |s.threads|
    ensures s'.threads[t].Unlock? ==> s'.heap == s.heap
  {
    hide FreshRegion, Claimed, ClassOf;
  }

  // ----- Counters -----

  /** The add of block b has happened and the subtraction that follows has not. */
  ghost predicate Accounted(s: State, b: Addr) {
    if b in s.pins then 0 <= s.pins[b] < |s.threads| && PinOf(s.threads[s.pins[b]]).Pinned?
                        && PinOf(s.threads[s.pins[b]]).counted
    else if b in s.heap.hands then
      0 <= s.heap.hands[b].owner < |s.threads| && HoldOf(s.threads[s.heap.hands[b].owner]).Block?
      && HoldOf(s.threads[s.heap.hands[b].owner]).counted
    else b in s.heap.live
  }

  /** What `allocated` counts for block b: the size in its header; for a block that is being resized in place
      the old size up to the subtraction and the new one after the add. */
  ghost function Amount(s: State, b: Addr): int {
    if b in s.pins && 0 <= s.pins[b] < |s.threads| && PinOf(s.threads[s.pins[b]]).Pinned?
       && PinOf(s.threads[s.pins[b]]).resized then PinOf(s.threads[s.pins[b]]).size
    else if b in s.heap.live then s.heap.live[b].size
    else if Mapped(s.heap.mem, b, HEADER) then Load(s.heap.mem, b)
    else -1
  }

  lemma AccountedIff(s: State, b: Addr)
    requires Inv(s)
    ensures b in s.heap.acc <==> Accounted(s, b)
    ensures b in s.heap.acc ==> s.heap.acc[b] == Amount(s, b)
  {
    hide LocksInv, InitInv, RegionsCounted;
    if b in s.pins {
      assert ThreadOk(s, s.pins[b], s.threads[s.pins[b]]);
    } else if b in s.heap.hands {
      var o := s.heap.hands[b].owner;
      assert ThreadOk(s, o, s.threads[o]);
    }
  }

  /** The add of region p to `totmem` has happened and the subtraction that follows has not. */
  ghost predicate Totalled(s: State, p: Addr)
    requires |s.locks| == CLASSES == |s.heap.slabs|
  {
    || (exists i :: 0 <= i < CLASSES && p in s.heap.slabs[i].pages && !PageUncounted(s, i, p))
    || (p in s.heap.live && s.heap.live[p].mapped != 0)
    || (p in s.heap.hands && s.heap.hands[p].cls == -1 && 0 <= s.heap.hands[p].owner < |s.threads|
        && HoldOf(s.threads[s.heap.hands[p].owner]).Block? && HoldOf(s.threads[s.heap.hands[p].owner]).region)
  }

  lemma PageTotalled(s: State, i: int, p: Addr)
    requires Inv(s) && 0 <= i < CLASSES == |s.heap.slabs| && p in s.heap.slabs[i].pages
    ensures p in s.heap.regs <==> !PageUncounted(s, i, p)
  {
    hide HeapInv, HandsInv, PinsInv, InitInv, LiveCounted;
    if PageUncounted(s, i, p) {
      assert ThreadOk(s, s.locks[i], s.threads[s.locks[i]]);
    }
  }

  lemma HandTotalled(s: State, p: Addr)
    requires Inv(s) && p in s.heap.hands && s.heap.hands[p].cls == -1
    ensures var o := s.heap.hands[p].owner;
            && 0 <= o < |s.threads| && HoldOf(s.threads[o]).Block?
            && (p in s.heap.regs <==> HoldOf(s.threads[o]).region)
  {
    hide HeapInv, LocksInv, PinsInv, InitInv, LiveCounted, RegionsCounted;
    InvParts(s);
    var o := s.heap.hands[p].owner;
    assert ThreadOk(s, o, s.threads[o]);
  }

  lemma TotalledIff(s: State, p: Addr)
    requires Inv(s)
    ensures |s.locks| == CLASSES == |s.heap.slabs| && (p in s.heap.regs <==> Totalled(s, p))
    ensures p in s.heap.regs ==> p in s.heap.os && s.heap.regs[p] == s.heap.os[p]
  {
    hide HeapInv, ThreadsOk, LocksInv, HandsInv, PinsInv, InitInv, LiveCounted;
    InvParts(s);
    RegionPart(s.heap);
    forall i | 0 <= i < CLASSES && p in s.heap.slabs[i].pages
      ensures p in s.heap.regs <==> !PageUncounted(s, i, p)
    {
      PageTotalled(s, i, p);
    }
    if p in s.heap.hands && s.heap.hands[p].cls == -1 {
      HandTotalled(s, p);
    }
    if p in s.heap.regs {
      assert RegionUser(s.heap, p);
    }
  }

  lemma RegionPart(h: Heap)
    requires HeapInv(h)
    ensures forall p :: p in h.regs ==> p in h.os && h.regs[p] == h.os[p]
  {
  }

  /** In every reachable state `allocated` is the sum, over exactly the blocks whose add has happened and whose
      subtraction has not, of what was added, whichever threads allocate, resize and free them; and `totmem` is
      the sum of the bytes of exactly the regions whose add has happened and whose subtraction has not. */
  lemma CounterSum(r: seq<State>, j: nat)
    requires Run(r) && j < |r|
    ensures |r[j].locks| == CLASSES == |r[j].heap.slabs|
    ensures var s := r[j];
            && s.heap.used == Sum(s.heap.acc) && s.heap.total == Sum(s.heap.regs)
            && (forall b :: b in s.heap.acc <==> Accounted(s, b))
            && (forall b :: b in s.heap.acc ==> s.heap.acc[b] == Amount(s, b))
            && (forall p :: p in s.heap.regs <==> Totalled(s, p))
            && (forall p :: p in s.heap.regs ==> p in s.heap.os && s.heap.regs[p] == s.heap.os[p])
  {
    hide Inv, HeapInv, Run, Accounted, Amount, Totalled;
    RunKeeps(r, j);
    InvParts(r[j]);
    HeapParts(r[j].heap);
    TotalPart(r[j].heap);
    forall b
      ensures b in r[j].heap.acc <==> Accounted(r[j], b)
      ensures b in r[j].heap.acc ==> r[j].heap.acc[b] == Amount(r[j], b)
    {
      AccountedIff(r[j], b);
    }
    forall p
      ensures p in r[j].heap.regs <==> Totalled(r[j], p)
      ensures p in r[j].heap.regs ==> p in r[j].heap.os && r[j].heap.regs[p] == r[j].heap.os[p]
    {
      TotalledIff(r[j], p);
    }
  }

  lemma TotalPart(h: Heap)
    requires HeapInv(h)
    ensures h.total == Sum(h.regs)
  {
  }

  /** What the step of a thread at pc adds to `allocated`. */
  ghost function UsedChange(m: Memory, pc: Pc): int {
    match pc
    case LargeUsed(k, _) => k.size
    case Used(k, _) => k.size
    case ResizeAdd(_, n) => n
    case FreeUsed(b, _) => if Mapped(m, b, HEADER) then var v: int := Load(m, b); -v else 0
    case ResizeSub(b, _) => if Mapped(m, b, HEADER) then var v: int := Load(m, b); -v else 0
    case _ => 0
  }

  /** What the step of a thread at pc adds to `totmem`. */
  ghost function TotalChange(m: Memory, pc: Pc): int {
    match pc
    case CountPage(_, _) => PAGE
    case LargeTotal(k, _) => if k.size <= SIZE_MAX - HEADER then LargeBytes(k) else 0
    case FreeTotal(b) => if Mapped(m, b, HEADER) then var v: int := Load(m, b + 8); -v else 0
    case _ => 0
  }

  ghost predicate ExactChange(s: State, pc: Pc, s': State) {
    && s'.heap.used == s.heap.used + UsedChange(s.heap.mem, pc)
    && s'.heap.total == s.heap.total + TotalChange(s.heap.mem, pc)
  }

  lemma ExactSlabCount(s: State, t: int, s': State)
    requires Inv(s) && Shape(s, t) && Step(s, t, s') && (s.threads[t].CountPage? || s.threads[t].Used?)
    ensures ExactChange(s, s.threads[t], s')
  {
    hide Inv, HeapInv, PinOk, Quiet;
    InvParts(s);
    var d, l := HoldOf(s.threads[t]), LockOf(s.threads[t]);
    OwnOf(s, t, d, l, PinOf(s.threads[t]));
    if s.threads[t].CountPage? {
      CountPageStep(s.heap, l.i, l.page);
    } else {
      CountStep(s.heap, d.b, d.size);
    }
  }

  lemma ExactInSlab(s: State, t: int, s': State)
    requires Inv(s) && Shape(s, t) && Step(s, t, s') && InSlab(s.threads[t])
    ensures ExactChange(s, s.threads[t], s')
  {
    hide Inv, FreshRegion, HeaderWritten, Cell, DoCarve, DoPop;
    match s.threads[t]
    case Lock(k) =>
    case Check(k) =>
    case AskPage(k) =>
    case CountPage(k, p) => ExactSlabCount(s, t, s');
    case Carve(k, p, a) => ExactCarve(s, t, k, p, a, s');
    case PopFirst(k) => ExactPop(s, t, k, s');
    case Unlock(k, b) =>
    case Header(k, b) =>
    case Used(k, b) => ExactSlabCount(s, t, s');
  }

  lemma ExactCarve(s: State, t: int, k: Call, p: Addr, a: Addr, s': State)
    requires Shape(s, t) && CallOk(k) && DoCarve(s, t, k, ClassOf(k.size), p, a, s')
    ensures ExactChange(s, Carve(k, p, a), s')
  {
    hide Pushed, CarveOne, ClassOf;
  }

  lemma ExactPop(s: State, t: int, k: Call, s': State)
    requires Shape(s, t) && CallOk(k) && DoPop(s, t, k, ClassOf(k.size), s')
    ensures ExactChange(s, PopFirst(k), s')
  {
    hide Unlinked, Pop, ClassOf;
  }

  lemma ExactLarge(s: State, t: int, s': State)
    requires Inv(s) && Shape(s, t) && Step(s, t, s') && (s.threads[t].LargeUsed? || s.threads[t].LargeTotal?)
    ensures ExactChange(s, s.threads[t], s')
  {
    hide Inv, HeapInv, PinOk, Quiet;
    InvParts(s);
    var d := HoldOf(s.threads[t]);
    OwnOf(s, t, d, NoLock, PinOf(s.threads[t]));
    HandIsRegion(s.heap, t, d);
    if s.threads[t].LargeUsed? {
      CountStep(s.heap, d.b, d.size);
    } else {
      CountRegionStep(s.heap, d.b);
    }
  }

  lemma ExactInMalloc(s: State, t: int, s': State)
    requires Inv(s) && Shape(s, t) && Step(s, t, s') && InMalloc(s.threads[t]) && !InSlab(s.threads[t])
    ensures ExactChange(s, s.threads[t], s')
  {
    hide Inv, Initialised, FreshRegion, HeaderWritten, DoFinish;
    match s.threads[t]
    case Cas(k) =>
    case Heads(k) =>
    case Store2(k) =>
    case Spin(k) =>
    case LargeAsk(k) =>
    case LargeHeader(k, b) =>
    case LargeUsed(k, b) => ExactLarge(s, t, s');
    case LargeTotal(k, b) => ExactLarge(s, t, s');
    case Finish(k, b) => ExactFinish(s, t, k, b, s');
  }

  lemma ExactFinish(s: State, t: int, k: Call, b: Addr, s': State)
    requires Shape(s, t) && DoFinish(s, t, k, b, s')
    ensures ExactChange(s, Finish(k, b), s')
  {
    hide Copied, Zeroed, Mapped, ClassOf;
  }

  lemma ExactFree(s: State, t: int, s': State)
    requires Inv(s) && Shape(s, t) && Step(s, t, s')
    requires s.threads[t].FreeUsed? || s.threads[t].FreeTotal?
    ensures ExactChange(s, s.threads[t], s')
  {
    hide Inv, HeapInv;
    InvParts(s);
    var d := HoldOf(s.threads[t]);
    OwnOf(s, t, d, NoLock, NoPin);
    if s.threads[t].FreeUsed? {
      BlockUncounted(s.heap, t, d);
      UncountStep(s.heap, d.b);
    } else {
      HandIsRegion(s.heap, t, d);
      UncountRegionStep(s.heap, d.b);
    }
  }

  lemma ExactResize(s: State, t: int, s': State)
    requires Inv(s) && Shape(s, t) && Step(s, t, s')
    requires s.threads[t].ResizeSub? || s.threads[t].ResizeAdd?
    ensures ExactChange(s, s.threads[t], s')
  {
    hide Inv, HeapInv;
    InvParts(s);
    var p := PinOf(s.threads[t]);
    OwnOf(s, t, Nothing, NoLock, p);
    PinIsLive(s, t, p.b, p);
    if p.counted {
      UncountStep(s.heap, p.b);
    } else {
      CountStep(s.heap, p.b, p.size);
    }
  }

  lemma ExactElsewhere(s: State, t: int, s': State)
    requires Inv(s) && Shape(s, t) && Step(s, t, s') && !InMalloc(s.threads[t])
    ensures ExactChange(s, s.threads[t], s')
  {
    hide Inv;
    match s.threads[t]
    case Idle =>
    case FreeStart(b) =>
    case FreeUsed(b, i) => ExactFree(s, t, s');
    case FreeTotal(b) => ExactFree(s, t, s');
    case Unmap(b) =>
    case Wipe(b, i) =>
    case LockFree(b, i) =>
    case Insert(b, i) =>
    case UnlockFree(i) =>
    case ResizeSub(b, n) => ExactResize(s, t, s');
    case ResizeAdd(b, n) => ExactResize(s, t, s');
    case ResizeSet(b, n) =>
  }

  /** Every atomic add and subtraction of every run is exact: no fetch_add wraps, no fetch_sub underflows. */
  lemma CountersExact(r: seq<State>, j: nat, t: int, s': State)
    requires Run(r) && j < |r| && Shape(r[j], t) && Step(r[j], t, s')
    ensures ExactChange(r[j], r[j].threads[t], s')
  {
    hide Inv, Run, Step, ExactChange;
    RunKeeps(r, j);
    if InSlab(r[j].threads[t]) {
      ExactInSlab(r[j], t, s');
    } else if InMalloc(r[j].threads[t]) {
      ExactInMalloc(r[j], t, s');
    } else {
      ExactElsewhere(r[j], t, s');
    }
  }

  // ----- All threads between calls -----

  lemma RegionIff(s: State, p: Addr)
    requires Inv(s) && forall t :: 0 <= t < |s.threads| ==> s.threads[t] == Idle
    ensures p in s.heap.regs <==> IsPage(s.heap.slabs, p) || (p in s.heap.live && s.heap.live[p].mapped != 0)
  {
    hide HeapInv, ThreadsOk, LocksInv, HandsInv, PinsInv, InitInv, LiveCounted;
    InvParts(s);
    NobodyHolds(s, p);
    if p in s.heap.regs {
      assert RegionUser(s.heap, p);
    }
    if IsPage(s.heap.slabs, p) {
      var i :| 0 <= i < CLASSES && p in s.heap.slabs[i].pages;
      assert p in s.heap.regs || PageUncounted(s, i, p);
    }
  }

  /** When no call is under way the heap is quiescent, so the counters are exact - `allocated` the sum of the
      live sizes, `totmem` the slab pages and the live large regions - and every class is accounted for. */
  lemma BetweenCalls(r: seq<State>, j: nat, i: int)
    requires Run(r) && j < |r| && 0 <= i < CLASSES == |r[j].heap.slabs|
    requires forall t :: 0 <= t < |r[j].threads| ==> r[j].threads[t] == Idle
    ensures A.Quiescent(r[j].heap)
    ensures var h, s := r[j].heap, r[j].heap.slabs[i];
            && h.used == Sum(A.LiveSizes(h.live))
            && h.total == PAGE * A.PageCount(h.slabs) + Sum(A.LargeSizes(h.live))
            && PerPage(i) * |s.pages| == |s.free| + |s.out| && |s.pages| == (s.peak + PerPage(i) - 1) / PerPage(i)
  {
    hide Inv, HeapInv, Run, Layout, Owned, Lists, Accounts, Ownership, Classes, A.Quiescent, PerPage;
    RunKeeps(r, j);
    QuietHeap(r[j]);
    InvParts(r[j]);
    HeapParts(r[j].heap);
    A.ExactCounters(r[j].heap);
    A.ExactClass(r[j].heap, i);
  }

  lemma QuietHeap(s: State)
    requires Inv(s) && forall t :: 0 <= t < |s.threads| ==> s.threads[t] == Idle
    ensures A.Quiescent(s.heap)
  {
    hide Inv, HeapInv;
    InvParts(s);
    NobodyHolds(s, 0);
    forall b ensures b !in s.heap.hands && b !in s.pins {
      NobodyHolds(s, b);
    }
    forall p ensures p in s.heap.regs <==> IsPage(s.heap.slabs, p)
                                           || (p in s.heap.live && s.heap.live[p].mapped != 0) {
      RegionIff(s, p);
    }
    forall i | 0 <= i < CLASSES ensures !s.heap.slabs[i].claiming {
      FreeLock(s, i);
    }
    forall b ensures b in s.heap.acc <==> b in s.heap.live {
      AccountedIff(s, b);
    }
    LiveAmounts(s);
  }

  lemma LiveAmounts(s: State)
    requires Inv(s)
    ensures forall b :: b in s.heap.live && b !in s.pins ==> b in s.heap.acc && s.heap.acc[b] == s.heap.live[b].size
  {
  }
}

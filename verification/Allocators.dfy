/** The allocator of p2malloc.c with its global state, run by one thread at a time. */
module Allocators {
  import opened Bytes
  import opened Collections
  import opened Sizes
  import opened PsList
  import opened Slabs
  import opened Extents
  import opened Os
  import opened Heaps
  import opened HeapSteps
  import opened HeapRegions
  import opened Ram
  import opened ListOps
  import A = AllocSpec

  /** Whatever was held in h is still held in h', in the same place and with the same bytes. */
  ghost predicate Kept(h: Heap, h': Heap) {
    && KeepsAbandoned(h, h')
    && forall x :: Held(h, x) && x in h.ext ==>
                  Held(h', x) && x in h'.ext && h'.ext[x] == h.ext[x] && Same(h.mem, h'.mem, x, h.ext[x])
  }

  lemma KeptStep(h0: Heap, h: Heap, h': Heap, b: Addr, i: int)
    requires Kept(h0, h) && Quiet(h, h', b, i) && !(Held(h0, b) && b in h0.ext)
    ensures Kept(h0, h')
  {
  }

  // ----- What a call does to the blocks -----

  /** No other block becomes live, ceases to be or gets another header. */
  ghost predicate OthersLive(h: Heap, h': Heap, z: set<Addr>) {
    forall x :: x !in z ==> (x in h'.live <==> x in h.live) && (x in h.live ==> h'.live[x] == h.live[x])
  }

  /** A request of n bytes cannot be served without the OS. */
  ghost predicate MustAsk(h: Heap, n: nat)
    requires n <= SIZE_MAX && |h.slabs| == CLASSES
  {
    ClassOf(n) == -1 || h.slabs[ClassOf(n)].free == []
  }

  /** From h to h' exactly block b has become live, with n bytes, which `allocated` counts. It is the region the OS
      has answered with, counted in `totmem`, or a block of the class of n. */
  ghost predicate Gained(h: Heap, h': Heap, b: Addr, n: nat, answer: Addr) {
    && b !in h.live && b in h'.live && h'.live[b].size == n && OthersLive(h, h', {b})
    && h'.used == h.used + n && n <= SIZE_MAX && |h.slabs| == |h'.slabs| == CLASSES
    && if ClassOf(n) == -1 then
         b == answer && Tight(n, h'.live[b].mapped) && h'.slabs == h.slabs
         && h'.total == h.total + h'.live[b].mapped && h'.os == h.os[answer := h'.live[b].mapped]
       else
         h'.live[b].mapped == 0 && ListTaken(h, h', b, ClassOf(n), answer)
  }

  /** b is the first free block of class i if there was one, else the highest block of the page the OS has answered
      with, which `totmem` counts; no other list has changed. */
  ghost predicate ListTaken(h: Heap, h': Heap, b: Addr, i: int, answer: Addr)
    requires 0 <= i < CLASSES == |h.slabs| == |h'.slabs|
  {
    && (forall j :: 0 <= j < CLASSES && j != i ==> h'.slabs[j] == h.slabs[j])
    && if h.slabs[i].free != [] then
         && b == h.slabs[i].free[0] && h'.slabs[i].free == h.slabs[i].free[1..]
         && h'.slabs[i].pages == h.slabs[i].pages && h'.total == h.total && h'.os == h.os
       else
         && b == answer + PAGE - BlockSize(i) && |h'.slabs[i].free| == PerPage(i) - 1
         && h'.slabs[i].pages == h.slabs[i].pages + {answer}
         && h'.total == h.total + PAGE && h'.os == h.os[answer := PAGE]
  }

  /** From h to h' exactly block b has ceased to be live, and neither counter counts it: a slab block is on the
      list of its class with its tripwire set, a large one no region of the OS any more. */
  ghost predicate Lost(h: Heap, h': Heap, b: Addr) {
    && b in h.live && b !in h'.live && OthersLive(h, h', {b}) && h'.used == h.used - h.live[b].size
    && if h.live[b].mapped != 0 then
         h'.slabs == h.slabs && h'.os == h.os - {b} && h'.total == h.total - h.live[b].mapped
       else
         Returned(h, h', b) && h'.os == h.os && h'.total == h.total
  }

  /** b is on the free list of its class, which has gained nothing else, its tripwire set. */
  ghost predicate Returned(h: Heap, h': Heap, b: Addr) {
    && b in h.live && h.live[b].size <= SIZE_MAX && |h.slabs| == |h'.slabs| == CLASSES
    && var i := ClassOf(h.live[b].size);
    && 0 <= i && |h'.slabs[i].free| == |h.slabs[i].free| + 1 && TripWord(h'.mem, b)
    && (forall x :: x in h'.slabs[i].free <==> x == b || x in h.slabs[i].free)
    && forall j :: 0 <= j < CLASSES && j != i ==> h'.slabs[j] == h.slabs[j]
  }

  class Allocator {
    const ram: Ram
    const heads: seq<Addr>     // addresses of the sentinels freelists[i].list_head
    var pow2: seq<nat>         // freelists[i].pow2
    var initState: int         // 0 = uninit, 1 = initing, 2 = ready
    var inUse: nat             // the counter `allocated`
    var totmem: nat
    ghost var heap: Heap

    /** Memory and sentinels are those of the ghost heap, whose invariant holds. */
    ghost predicate Mirrors()
      reads this, ram
    {
      heap.mem == ram.bytes && heap.heads == heads && HeapInv(heap)
    }

    ghost predicate Counting()
      reads this
    {
      inUse == heap.used && totmem == heap.total
    }

    ghost predicate Ready()
      reads this
    {
      && initState == 2 && heap.ready == CLASSES
      && |pow2| == CLASSES && forall i :: 0 <= i < CLASSES ==> pow2[i] == BlockSize(i)
    }

    /** The state inside a call, once initialised. */
    ghost predicate Working()
      reads this, ram
    {
      Mirrors() && Counting() && Ready()
    }

    /** The state between calls, once initialised. */
    ghost predicate Idle()
      reads this, ram
    {
      Working() && A.Quiescent(heap)
    }

    /** The state between calls. */
    ghost predicate Valid()
      reads this, ram
    {
      if initState != 0 then Idle() else
        && Mirrors() && Counting() && A.Quiescent(heap)
        && heap.ready == 0 && |pow2| == CLASSES && forall b :: b !in heap.live
    }

    ghost function View(): A.View
      reads this
    {
      A.ViewOf(heap)
    }

    /** Static data: no list initialised, both counters zero. */
    constructor (memory: Ram, sentinels: seq<Addr>)
      requires SentinelSpace(memory.bytes, sentinels)
      ensures Valid() && View() == A.NEW_VIEW && initState == 0
      ensures ram == memory && heads == sentinels && ram.bytes == old(memory.bytes)
    {
      ram, heads := memory, sentinels;
      pow2 := seq(CLASSES, _ => 0);
      initState, inUse, totmem := 0, 0, 0;
      heap := NewHeap(memory.bytes, sentinels, memory.bytes.Keys, map[]);
      new;
      NewHeapInv(memory.bytes, sentinels, memory.bytes.Keys, map[]);
    }

    // ----- Initialisation -----

    /** freelists_init. */
    method FreelistsInit()
      requires Mirrors() && heap.ready == 0 && |pow2| == CLASSES
      modifies this`heap, this`pow2, ram`bytes
      ensures Mirrors() && heap.ready == CLASSES
      ensures |pow2| == CLASSES && forall i :: 0 <= i < CLASSES ==> pow2[i] == BlockSize(i)
      ensures heap == old(heap).(mem := ram.bytes, ready := CLASSES) && Kept(old(heap), heap)
    {
      hide HeapInv, Kept, Quiet;
      SelfKept(heap);
      ZeroIsFree(heap);
      for i := 0 to CLASSES
        invariant Mirrors() && heap.ready == i && |pow2| == CLASSES
        invariant forall j :: 0 <= j < i ==> pow2[j] == BlockSize(j)
        invariant heap == old(heap).(mem := ram.bytes, ready := i) && Kept(old(heap), heap)
      {
        ghost var h := heap;
        InitHead(i);
        KeptStep(old(heap), h, heap, 0, -1);
        pow2 := pow2[i := BlockSize(i)];
      }
    }

    /** ps_list_head_init of sentinel i. */
    method InitHead(i: int)
      requires Mirrors() && 0 <= i < CLASSES && heap.ready == i
      modifies this`heap, ram`bytes
      ensures Mirrors() && heap == old(heap).(mem := ram.bytes, ready := i + 1)
      ensures Quiet(old(heap), heap, 0, -1)
    {
      HeadAllowed(heap);
      ListInit(ram, heads[i]);
      HeadStep(heap, ram.bytes);
      heap := HeadReady(heap, ram.bytes);
    }

    /** ensure_init: the compare-and-swap succeeds for the first caller; with no other thread about,
        every later caller finds init_state == 2 and does not spin. */
    method EnsureInit()
      requires Valid()
      modifies this`heap, this`pow2, this`initState, ram`bytes
      ensures Idle() && View() == old(View()) && Kept(old(heap), heap)
      ensures old(initState) == 2 ==> heap == old(heap)
      ensures heap == old(heap).(mem := ram.bytes, ready := CLASSES)
    {
      if initState == 0 {
        initState := 1;
        FreelistsInit();
        initState := 2;
      }
    }

    // ----- Slab path -----

    /** One turn of the carve loop of p2malloc. */
    method CarveBlock(i: int, a: Addr)
      requires Working() && 0 <= i < CLASSES && Uncarved(heap.slabs[i]) > 0 && a == heap.slabs[i].next
      modifies this`heap, ram`bytes
      ensures Working()
      ensures heap == CarvedHeap(old(heap), i, ram.bytes) && Quiet(old(heap), heap, 0, i)
    {
      hide HeapInv, Quiet, Accounts, Owned, Layout, Classes, Added, OffRing, IsList;
      ghost var m := ram.bytes;
      HeapParts(heap);
      CarveAllowed(heap, i);
      ListInit(ram, a);
      PushAllowed(m, ram.bytes, heads[i], heap.slabs[i].free, a);
      ListAdd(ram, heads[i], a);
      assert Pushed(m, ram.bytes, heads[i], a);
      CarveStep(heap, i, ram.bytes);
      heap := CarvedHeap(heap, i, ram.bytes);
    }

    /** The carve loop: the page is cut into blocks, each pushed at the front. */
    method CarvePage(i: int, page: Addr)
      requires Working() && 0 <= i < CLASSES && page in heap.slabs[i].pages
      requires heap.slabs[i].next == heap.slabs[i].last == page
      modifies this`heap, ram`bytes
      ensures Working() && Kept(old(heap), heap)
      ensures heap == old(heap).(mem := ram.bytes, slabs := old(heap.slabs)[i := CarveAll(i, old(heap.slabs[i]))])
      ensures Uncarved(heap.slabs[i]) == 0
    {
      hide HeapInv, Kept, Quiet;
      ghost var h0 := heap;
      HeapBytes(heap);
      SelfKept(heap);
      ZeroIsFree(heap);
      var a := page;
      while a < page + PAGE
        invariant Working() && |heap.slabs| == CLASSES && CarvedUpTo(h0, heap, i, page, a)
        decreases page + PAGE - a
      {
        ghost var h := heap;
        CarveBlock(i, a);
        CarveTurn(h0, h, heap, i, page, a);
        a := a + pow2[i];
      }
    }

    /** os_alloc(PAGE_BYTES) and its count, for an empty list. */
    method ClaimPage(i: int) returns (page: Addr)
      requires Working() && 0 <= i < CLASSES
      requires heap.slabs[i].free == [] && !heap.slabs[i].claiming
      modifies this`heap, this`totmem, ram
      ensures Working() && Kept(old(heap), heap)
      ensures page == 0 ==> heap == old(heap)
      ensures ram.asks == old(ram.asks) + [(PAGE, page)]
      ensures page != 0 ==>
                && page > 0 && page % PAGE == 0 && page !in old(heap.os)
                && heap == RegionCounted(Claimed(old(heap), i, page, ram.bytes), page, PAGE)
    {
      hide HeapInv, Quiet, FreshRegion;
      HeapParts(heap);
      SelfKept(heap);
      page := ram.OsAlloc(PAGE);
      if page != 0 {
        totmem := AddWord(totmem, PAGE);
        ghost var h := RegionCounted(Claimed(heap, i, page, ram.bytes), page, PAGE);
        PageClaimed(heap, i, page, ram.bytes, h);
        heap := h;
      }
    }

    /** The refill of an empty list: a page from the OS, counted and carved. */
    method Refill(i: int) returns (ok: bool, ghost answer: Addr)
      requires Working() && 0 <= i < CLASSES
      requires heap.slabs[i].free == [] && !heap.slabs[i].claiming
      modifies this`heap, this`totmem, ram
      ensures Working() && Kept(old(heap), heap) && ok == (answer != 0)
      ensures !ok ==> heap == old(heap)
      ensures ram.asks == old(ram.asks) + [(PAGE, answer)]
      ensures ok ==> RefilledHeap(old(heap), heap, i, answer)
    {
      hide HeapInv, Kept, RefilledHeap, CarveAll;
      ghost var h0 := heap;
      HeapParts(heap);
      var page := ClaimPage(i);
      ok, answer := page != 0, page;
      if ok {
        ghost var h := heap;
        HeapParts(h);
        CarvePage(i, page);
        KeptTrans(h0, h, heap);
        RefillDone(h0, h, heap, i, page);
      }
    }

    /** hdr->size = size; hdr->alloc_size = mapped, for a block in hands. */
    method WriteHeader(b: Addr, size: nat, mapped: nat)
      requires Working() && b in heap.hands && size < WORDS && mapped < WORDS
      modifies this`heap, ram`bytes
      ensures Working() && heap == old(heap).(mem := ram.bytes) && Quiet(old(heap), heap, b, -1)
      ensures HasHeader(ram.bytes, b, Alloc(size, mapped))
    {
      hide HeapInv, Quiet, Lists, Accounts, Owned, Classes;
      HeapParts(heap);
      HeldHeader(heap, b);
      ram.Write(b, size);
      ram.Write(b + 8, mapped);
      HandWrite(heap, b, ram.bytes);
      heap := heap.(mem := ram.bytes);
    }

    /** The first block of a non-empty list, unlinked. */
    method PopFirst(i: int) returns (first: Addr)
      requires Working() && 0 <= i < CLASSES && heap.slabs[i].free != [] && Uncarved(heap.slabs[i]) == 0
      modifies this`heap, ram`bytes
      ensures Working() && heap == Popped(old(heap), i, 0, ram.bytes) && first == old(heap.slabs[i].free[0])
      ensures Quiet(old(heap), heap, first, i) && !Held(old(heap), first)
      ensures first in heap.ext && heap.ext[first] == BlockSize(i)
    {
      hide HeapInv, Quiet, Accounts, Owned;
      HeapParts(heap);
      ListView(heap, i);
      first := Next(ram.bytes, heads[i]);
      ListRemove(ram, first);
      PopStep(heap, i, 0, ram.bytes);
      heap := Popped(heap, i, 0, ram.bytes);
    }

    /** Header and count of a block in hands, which so becomes live. */
    method HandOut(b: Addr, size: nat, mapped: nat)
      requires Working() && b in heap.hands && b in heap.ext && b !in heap.acc
      requires 0 < size && size + HEADER <= heap.ext[b] <= WORDS && ClassOf(size) == heap.hands[b].cls
      requires mapped == if heap.hands[b].cls == -1 then heap.ext[b] else 0
      requires heap.hands[b].cls == -1 ==> Tight(size, mapped)
      requires mapped < WORDS
      modifies this`heap, this`inUse, ram`bytes
      ensures Working() && Quiet(old(heap), heap, b, -1)
      ensures heap == Published(Counted(old(heap).(mem := ram.bytes), b, size), b, Alloc(size, mapped))
    {
      hide HeapInv, Quiet, Lists, Accounts, Owned, Classes;
      HeapParts(heap);
      ghost var h0 := heap;
      WriteHeader(b, size, mapped);
      ghost var h1 := heap;
      ghost var h2 := Published(Counted(heap, b, size), b, Alloc(size, mapped));
      CountPublish(h1, b, Alloc(size, mapped), h2);
      QuietTrans(h0, h1, h2, b);
      inUse := AddWord(inUse, size);
      heap := h2;
    }

    /** The first block of a non-empty list, unlinked, given its header and counted. */
    method TakeFirst(i: int, size: nat) returns (b: Addr)
      requires Working() && 0 <= i < CLASSES && heap.slabs[i].free != [] && Uncarved(heap.slabs[i]) == 0
      requires 0 < size && size + HEADER <= BlockSize(i) && ClassOf(size) == i
      modifies this`heap, this`inUse, ram`bytes
      ensures Working() && Kept(old(heap), heap) && b == old(heap.slabs[i].free[0]) && !Held(old(heap), b)
      ensures var h := Counted(Popped(old(heap), i, 0, ram.bytes), b, size);
              heap == Published(h, b, Alloc(size, 0))
    {
      ghost var h0 := heap;
      FirstFree(heap, i);
      b := PopFirst(i);
      ghost var h := heap;
      KeptStep(h0, h0, h, b, i);
      HandOut(b, size, 0);
      KeptStep(h0, h, heap, b, -1);
    }

    /** The slab path of p2malloc, for a size of class i. */
    method MallocSlab(i: int, size: nat) returns (p: Addr, ghost answer: Addr)
      requires Idle() && 0 < size <= SIZE_MAX - HEADER && ClassOf(size) == i >= 0
      modifies this`heap, this`inUse, this`totmem, ram
      ensures Idle() && MallocDone(old(heap), heap, size, answer, p)
      ensures ram.asks == old(ram.asks) + A.Asks(A.ViewOf(old(heap)), size, answer)
    {
      hide A.Asks, A.Malloc, MallocDone, Kept, A.Quiescent, HeapInv, Layout, Classes, Owned, Accounts;
      ghost var h0 := heap;
      HeapParts(heap);
      SelfKept(heap);
      var ok := true;
      p, answer := 0, 0;
      ListView(heap, i);
      NoCarve(heap, i);
      if HeadEmpty(ram.bytes, heads[i]) {
        ok, answer := Refill(i);
      }
      A.SlabAsks(A.ViewOf(h0), size, answer, i);
      if ok {
        ghost var h := heap;
        ClassIsSmallestFit(size, i);
        var b := TakeFirst(i, size);
        SlabDone(h0, h, heap, i, answer, b, size);
        p := b + HEADER;
      } else {
        RefusedDone(h0, size);
      }
    }

    /** os_alloc(n) for a large block. */
    method MapRegion(n: nat) returns (p: Addr)
      requires Working() && (n == 0 || n > PAGE)
      modifies this`heap, ram
      ensures Working() && (n == 0 ==> p == 0) && ram.asks == old(ram.asks) + [(n, p)]
      ensures if p == 0 then heap == old(heap) else heap == LargeClaimed(old(heap), p, n, 0, ram.bytes)
      ensures p != 0 ==> Quiet(old(heap), heap, p, -1) && !Held(old(heap), p) && p !in heap.acc
                         && p !in heap.regs && p + n <= WORDS && p > 0 && p !in old(heap.os)
    {
      p := ram.OsAlloc(n);
      if p == 0 {
        return;
      }
      ghost var h := LargeClaimed(heap, p, n, 0, ram.bytes);
      FreshIsNew(heap, p, n, ram.bytes);
      LargeStep(heap, p, n, 0, ram.bytes);
      heap := h;
    }

    /** atomic_fetch_add(&totmem, n) for region p. */
    method CountRegion(p: Addr, n: nat)
      requires Working() && LargeExtent(heap, p) && p in heap.os && heap.os[p] == n && p !in heap.regs
      modifies this`heap, this`totmem
      ensures Working() && heap == RegionCounted(old(heap), p, n) && Quiet(old(heap), heap, p, -1)
    {
      totmem := AddWord(totmem, n);
      CountRegionStep(heap, p);
      heap := RegionCounted(heap, p, n);
    }

    /** Header and both counters for a region just mapped. */
    method RecordLarge(ghost h0: Heap, b: Addr, size: nat, n: nat)
      requires Working() && 0 < size && Tight(size, n) && n < WORDS && n > PAGE && ClassOf(size) == -1
      requires heap == LargeClaimed(h0, b, n, 0, ram.bytes) && Quiet(h0, heap, b, -1) && !Held(h0, b)
      requires b !in h0.acc && b !in h0.regs && b + n <= WORDS
      modifies this`heap, this`inUse, this`totmem, ram`bytes
      ensures Working() && Kept(h0, heap)
      ensures var h := LargeClaimed(h0, b, n, 0, ram.bytes);
              heap == RegionCounted(Published(Counted(h, b, size), b, Alloc(size, n)), b, n)
    {
      ghost var h1 := heap;
      HandOut(b, size, n);
      ghost var h2 := heap;
      CountRegion(b, n);
      LargeKept(h0, h1, h2, heap, b);
    }

    /** The large path of p2malloc. */
    method MallocLarge(size: nat) returns (p: Addr, ghost answer: Addr)
      requires Idle() && 0 < size <= SIZE_MAX - HEADER && ClassOf(size) == -1
      modifies this`heap, this`inUse, this`totmem, ram
      ensures Idle() && MallocDone(old(heap), heap, size, answer, p)
      ensures ram.asks == old(ram.asks) + A.Asks(A.ViewOf(old(heap)), size, answer)
    {
      hide A.Asks, A.Malloc, MallocDone, Kept, A.Quiescent, HeapInv, Quiet;
      HeapParts(heap);
      var n := PageAlign(HEADER + size);
      PageAlignIsLeast(HEADER + size, 0);
      ghost var h0 := heap;
      var hdr := MapRegion(n);
      p, answer := 0, hdr;
      A.LargeAsks(A.ViewOf(h0), size, hdr);
      if hdr != 0 {
        PageAlignTight(size);
        RecordLarge(h0, hdr, size, n);
        LargeDone(h0, heap, hdr, size);
        p := hdr + HEADER;
      } else {
        RefusedDone(h0, size);
      }
    }

    /** p2malloc. */
    method Malloc(size: nat) returns (p: Addr, ghost answer: Addr)
      requires Valid() && size <= SIZE_MAX
      modifies this, ram
      ensures Valid() && MallocDone(old(heap), heap, size, answer, p)
      ensures ram.asks == old(ram.asks) + A.Asks(A.ViewOf(old(heap)), size, answer)
      ensures p != 0 ==> Usable(heap, p, size)
    {
      hide HeapInv, A.Quiescent, A.Malloc, A.Asks, MallocDone, Kept, Usable;
      HeapBytes(heap);
      p, answer := 0, 0;
      if size == 0 || size > SIZE_MAX - HEADER {
        NothingDone(heap, size);
        return;
      }
      ghost var h0 := heap;
      EnsureInit();
      ghost var h1 := heap;
      p, answer := MallocReady(size);
      DoneAfterInit(h0, h1, heap, size, answer, p);
      if p != 0 {
        LiveUsable(heap, p, size);
      }
    }

    /** p2malloc after its guards and ensure_init. */
    method MallocReady(size: nat) returns (p: Addr, ghost answer: Addr)
      requires Idle() && 0 < size <= SIZE_MAX - HEADER
      modifies this`heap, this`inUse, this`totmem, ram
      ensures Idle() && MallocDone(old(heap), heap, size, answer, p)
      ensures ram.asks == old(ram.asks) + A.Asks(A.ViewOf(old(heap)), size, answer)
    {
      var idx := ClassOf(size);
      if idx == -1 {
        p, answer := MallocLarge(size);
      } else {
        p, answer := MallocSlab(idx, size);
      }
    }

    // ----- p2free -----

    /** IS_LARGE(hdr): the counts undone and the region given back to the OS. */
    method FreeLarge(b: Addr)
      requires Idle() && b in heap.live && heap.live[b].mapped != 0
      modifies this`heap, this`inUse, this`totmem, ram`bytes
      ensures Idle() && KeptBut(old(heap), heap, b)
      ensures View() == A.Free(old(View()), b + HEADER)
      ensures Lost(old(heap), heap, b) && Unmapped(old(ram.bytes), ram.bytes, b, old(heap.live[b].mapped))
    {
      hide HeapInv, A.Quiescent, KeptBut, Lost;
      LiveFacts(heap, b);
      var size, mapped := Load(ram.bytes, b), Load(ram.bytes, b + 8);
      inUse := SubWord(inUse, size);
      totmem := SubWord(totmem, mapped);
      ghost var h0 := heap;
      ram.OsFree(b, mapped);
      ghost var h := Released(RegionUncounted(Uncounted(Retired(h0, b, 0), b, size), b, mapped), b, ram.bytes);
      FreeLargeStep(h0, b, ram.bytes, h);
      LargeLost(h0, h, b);
      heap := h;
    }

    /** The slab path: the count undone, the tripwire set, the block put back on its list. */
    method FreeSlab(b: Addr)
      requires Idle() && b in heap.live && heap.live[b].mapped == 0
      modifies this`heap, this`inUse, ram`bytes
      ensures Idle() && KeptBut(old(heap), heap, b)
      ensures View() == A.Free(old(View()), b + HEADER)
      ensures Lost(old(heap), heap, b)
    {
      hide HeapInv, KeptBut, Quiet, IsPage, TripWord, Layout, Classes, Owned, Lists, Accounts, Lost;
      HeapParts(heap);
      ghost var h0 := heap;
      LiveFacts(heap, b);
      var size := Load(ram.bytes, b);
      inUse := SubWord(inUse, size);
      ram.Zero(b + HEADER, 8);
      ghost var h1 := Uncounted(Retired(h0, b, 0), b, size).(mem := ram.bytes);
      WipeStep(h0, b, ram.bytes, h1);
      heap := h1;
      var idx := ClassOf(size);
      assert 0 <= idx < CLASSES;
      InsertFree(idx, b);
      FreeDone(h0, h1, b, heap);
      SlabLost(h0, heap, b);
    }

    /** p2orderedinsert of a wiped block in hands into the list of its class. */
    method InsertFree(i: int, b: Addr)
      requires Working() && 0 <= i < CLASSES && b in heap.hands && heap.hands[b].cls == i && b !in heap.acc
      requires !heap.slabs[i].claiming && TripWord(ram.bytes, b)
      modifies this`heap, ram`bytes
      ensures Working() && heap == PutBack(old(heap), i, b, ram.bytes) && Quiet(old(heap), heap, b, i)
      ensures TripWord(ram.bytes, b)
    {
      hide HeapInv, Quiet, Accounts, Owned, Layout, Classes;
      HeapParts(heap);
      PutAllowed(heap, i, b);
      OrderedInsert(ram, b, heads[i], heap.slabs[i].free);
      ghost var h := PutBack(heap, i, b, ram.bytes);
      PutStep(heap, i, b, ram.bytes);
      PutKeepsTrip(heap, i, b, ram.bytes);
      heap := h;
    }

    /** p2free of NULL or a live block. */
    method Free(p: Addr)
      requires Valid() && (p != 0 ==> p - HEADER in heap.live)
      modifies this, ram`bytes
      ensures Valid() && KeptBut(old(heap), heap, p - HEADER)
      ensures View() == A.Free(old(View()), p)
      ensures if p == 0 then heap == old(heap) && ram.bytes == old(ram.bytes) else Lost(old(heap), heap, p - HEADER)
      ensures p != 0 && old(heap.live[p - HEADER].mapped) != 0 ==>
                Unmapped(old(ram.bytes), ram.bytes, p - HEADER, old(heap.live[p - HEADER].mapped))
    {
      hide Lost;
      if p != 0 {
        var hdr := p - HEADER;
        LiveIsReady(heap, hdr);
        if Load(ram.bytes, hdr + 8) != 0 {
          FreeLarge(hdr);
        } else {
          FreeSlab(hdr);
        }
      }
    }

    // ----- p2calloc -----

    /** memset of the payload of a live block. */
    method ZeroPayload(p: Addr, n: nat)
      requires Idle() && p - HEADER in heap.live && n <= heap.live[p - HEADER].size
      modifies this`heap, ram`bytes
      ensures Idle() && heap == old(heap).(mem := ram.bytes) && KeptBut(old(heap), heap, p - HEADER)
      ensures Zeroed(old(ram.bytes), ram.bytes, p, n)
    {
      hide HeapInv, A.Quiescent, KeptBut, Lists, Accounts, Owned, Classes;
      HeapParts(heap);
      LiveFacts(heap, p - HEADER);
      ram.Zero(p, n);
      ghost var h := heap.(mem := ram.bytes);
      PayloadWritten(heap, p - HEADER, h);
      heap := h;
    }

    /** p2malloc and, if it succeeds, memset of the whole request. */
    method MallocZeroed(size: nat) returns (p: Addr, ghost answer: Addr)
      requires Valid() && size <= SIZE_MAX
      modifies this, ram
      ensures Valid() && MallocDone(old(heap), heap, size, answer, p)
      ensures ram.asks == old(ram.asks) + A.Asks(A.ViewOf(old(heap)), size, answer)
      ensures p != 0 ==> Usable(heap, p, size)
      ensures p != 0 ==> forall b :: p <= b < p + size ==> b in ram.bytes && ram.bytes[b] == 0
    {
      hide A.Quiescent, HeapInv, A.Asks, A.Malloc, Gained, Kept, MustAsk, Usable;
      HeapParts(heap);
      ghost var h0 := heap;
      p, answer := Malloc(size);
      if p != 0 {
        ghost var h1 := heap;
        ZeroPayload(p, size);
        DoneAfterZero(h0, h1, heap, size, answer, p);
        UsableAfterZero(h1, heap, p, size);
      }
    }

    /** p2calloc: p2malloc of the product, which is not wrapped, and the whole request cleared. */
    method Calloc(n: nat, size: nat) returns (p: Addr, ghost answer: Addr, ghost bytes: nat)
      requires Valid() && n <= SIZE_MAX && size <= SIZE_MAX
      modifies this, ram
      ensures bytes == n * size
      ensures Valid() && MallocDone(old(heap), heap, bytes, answer, p)
      ensures ram.asks == old(ram.asks) + A.Asks(A.ViewOf(old(heap)), bytes, answer)
      ensures p == 0 <==> bytes == 0 || bytes > SIZE_MAX - HEADER || (MustAsk(old(heap), bytes) && answer == 0)
      ensures bytes == 0 || bytes > SIZE_MAX ==> heap == old(heap) && ram.bytes == old(ram.bytes)
      ensures p != 0 ==> Usable(heap, p, bytes)
      ensures p != 0 ==> forall b :: p <= b < p + bytes ==> b in ram.bytes && ram.bytes[b] == 0
    {
      hide HeapInv, A.Quiescent, A.Malloc, A.Asks, Gained, MustAsk, Kept, LiveAt, Usable;
      p, answer := 0, 0;
      HeapParts(heap);
      bytes := Product(n, size);
      if n == 0 || size == 0 || n > SIZE_MAX / size {
        NothingDone(heap, bytes);
      } else {
        p, answer := MallocZeroed(n * size);
      }
    }

    // ----- p2realloc -----

    /** Same slab bucket: the count moved and the size word rewritten, whatever the size. The block holds the
        new size, and so the state is sound, if the size has room for its header or the class is not 0. */
    method ResizeInPlace(b: Addr, size: nat)
      requires Idle() && b in heap.live && heap.live[b].mapped == 0
      requires 0 < size <= SIZE_MAX && ClassOf(size) == ClassOf(heap.live[b].size)
      modifies this`heap, this`inUse, ram`bytes
      ensures Mapped(old(ram.bytes), b, 8) && ram.bytes == Store(old(ram.bytes), b, size)
      ensures inUse == AddWord(SubWord(old(inUse), old(heap.live[b].size)), size)
      ensures size <= SIZE_MAX - HEADER || ClassOf(old(heap.live[b].size)) != 0 ==>
                && Idle() && KeptBut(old(heap), heap, b)
                && heap == Resized(Counted(Uncounted(old(heap), b, old(heap.live[b].size)), b, size), b, size,
                                   ram.bytes)
    {
      hide HeapInv, A.Quiescent, KeptBut;
      ghost var h0 := heap;
      LiveFacts(heap, b);
      var oldSize := Load(ram.bytes, b);
      inUse := SubWord(inUse, oldSize);
      inUse := AddWord(inUse, size);
      ram.Write(b, size);
      ghost var h := Resized(Counted(Uncounted(h0, b, oldSize), b, size), b, size, ram.bytes);
      if size <= SIZE_MAX - HEADER || ClassOf(oldSize) != 0 {
        ResizeInPlaceStep(h0, b, size, h);
        heap := h;
      }
    }

    /** memcpy from one live block to another. */
    method CopyPayload(q: Addr, p: Addr, n: nat)
      requires Idle() && q - HEADER in heap.live && p - HEADER in heap.live && q != p
      requires n <= heap.live[q - HEADER].size && n <= heap.live[p - HEADER].size
      modifies this`heap, ram`bytes
      ensures Idle() && heap == old(heap).(mem := ram.bytes) && KeptBut(old(heap), heap, q - HEADER)
      ensures Copied(old(ram.bytes), ram.bytes, q, p, n)
    {
      hide HeapInv, A.Quiescent, KeptBut, Lists, Accounts, Owned, Classes;
      HeapParts(heap);
      LiveFacts(heap, q - HEADER);
      LiveFacts(heap, p - HEADER);
      BlocksDisjoint(heap, q - HEADER, p - HEADER);
      ram.Copy(q, p, n);
      ghost var h := heap.(mem := ram.bytes);
      PayloadWritten(heap, q - HEADER, h);
      heap := h;
    }

    /** memcpy to a new block and p2free of the old one. */
    method MoveInto(q: Addr, p: Addr, n: nat)
      requires Idle() && q - HEADER in heap.live && p - HEADER in heap.live && q != p && p != 0
      requires n <= heap.live[q - HEADER].size && n <= heap.live[p - HEADER].size
      modifies this, ram`bytes
      ensures Idle() && View() == A.Free(old(View()), p)
      ensures BlockMoved(old(heap), heap, p, q) && SamePrefix(old(ram.bytes), ram.bytes, p, q, n)
      ensures Lost(old(heap), heap, p - HEADER)
    {
      hide Lost, HeapInv, A.Quiescent, KeptBut, BlockMoved, SamePrefix, Copied;
      ghost var h1 := heap;
      LiveFacts(h1, p - HEADER);
      LiveFacts(h1, q - HEADER);
      CopyPayload(q, p, n);
      ghost var h2 := heap;
      Free(p);
      LostIsGivenBack(h2, heap, p - HEADER);
      MovePrefix(h1, h2, heap, p, q, n);
      LostFromCopy(h1, h2, heap, p - HEADER);
    }

    /** The moving path of p2realloc: a new block, the common prefix copied, the old block freed. */
    method Move(p: Addr, size: nat) returns (q: Addr, ghost answer: Addr)
      requires Idle() && p - HEADER in heap.live && p != 0 && 0 < size <= SIZE_MAX
      requires heap.live[p - HEADER].size < WORDS && !KeepsClass(heap, p, size)
      modifies this, ram
      ensures Idle() && ReallocDone(old(heap), heap, p, size, answer, q)
      ensures ram.asks == old(ram.asks) + A.Asks(A.ViewOf(old(heap)), size, answer)
    {
      hide A.Quiescent, HeapInv, Quiet, A.Asks, A.Realloc, A.Malloc;
      hide ReallocDone, MallocDone, Kept, KeptBut, Lost, BlockMoved, SamePrefix, Usable, A.Free, Layout, Classes, Owned,
           Lists, Accounts;
      ghost var h0 := heap;
      HeapParts(heap);
      LiveFacts(heap, p - HEADER);
      var oldSize := Load(ram.bytes, p - HEADER);
      q, answer := Malloc(size);
      if q != 0 {
        ghost var h1 := heap;
        HeapParts(h1);
        StillLive(h0, h1, p, size, answer, q);
        LiveFacts(h1, p - HEADER);
        MoveInto(q, p, Min(oldSize, size));
        MoveDone(h0, h1, heap, p, q, size, answer);
      } else {
        MoveRefused(h0, heap, p, size, answer);
      }
    }

    /** p2realloc of a live block to a size other than 0. */
    method Resize(p: Addr, size: nat) returns (q: Addr, ghost answer: Addr)
      requires Idle() && p != 0 && p - HEADER in heap.live && 0 < size <= SIZE_MAX
      requires heap.live[p - HEADER].size < WORDS
      modifies this, ram
      ensures WellSized(old(heap), p, size) ==> Idle() && ReallocDone(old(heap), heap, p, size, answer, q)
      ensures !WellSized(old(heap), p, size) ==>
                && q == p && Mapped(old(ram.bytes), p - HEADER, 8)
                && ram.bytes == Store(old(ram.bytes), p - HEADER, size)
                && inUse == AddWord(SubWord(old(inUse), old(heap.live[p - HEADER].size)), size)
                && totmem == old(totmem)
      ensures KeepsClass(old(heap), p, size) ==> q == p && ram.asks == old(ram.asks)
      ensures !KeepsClass(old(heap), p, size) ==>
                ram.asks == old(ram.asks) + A.Asks(A.ViewOf(old(heap)), size, answer)
    {
      hide A.Quiescent, HeapInv, Quiet, A.Asks, A.Realloc, KeptBut, ReallocDone, Resized;
      HeapParts(heap);
      ghost var h0 := heap;
      LiveFacts(heap, p - HEADER);
      var oldSize := Load(ram.bytes, p - HEADER);
      if Load(ram.bytes, p - HEADER + 8) == 0 && ClassOf(size) == ClassOf(oldSize) {
        ResizeInPlace(p - HEADER, size);
        q, answer := p, 0;
        if WellSized(h0, p, size) {
          InPlaceDone(h0, heap, p, size);
        }
      } else {
        WrapsInPlace(h0, p, size);
        q, answer := Move(p, size);
      }
    }

    /** p2realloc. Of NULL: p2malloc. To size 0: p2free. Of a slab block to a size of its class: the block itself,
        its header rewritten. Otherwise: another block, or NULL. The last clause is the one case it cannot serve. */
    method Realloc(p: Addr, size: nat) returns (q: Addr, ghost answer: Addr)
      requires Valid() && size <= SIZE_MAX && (p != 0 ==> p - HEADER in heap.live && heap.live[p - HEADER].size < WORDS)
      modifies this, ram
      ensures p == 0 ==> Valid() && MallocDone(old(heap), heap, size, answer, q)
                         && ram.asks == old(ram.asks) + A.Asks(A.ViewOf(old(heap)), size, answer)
      ensures p != 0 && size == 0 ==>
                Valid() && q == 0 && Lost(old(heap), heap, p - HEADER) && ram.asks == old(ram.asks)
      ensures p != 0 && size != 0 && KeepsClass(old(heap), p, size) ==> q == p && ram.asks == old(ram.asks)
      ensures p != 0 && size != 0 && KeepsClass(old(heap), p, size) && WellSized(old(heap), p, size) ==>
                Valid() && Rewritten(old(heap), heap, p - HEADER, size)
      ensures p != 0 && size != 0 && !KeepsClass(old(heap), p, size) ==>
                && Valid() && MovedOrNull(old(heap), heap, p - HEADER, q, size, answer)
                && ram.asks == old(ram.asks) + A.Asks(A.ViewOf(old(heap)), size, answer)
      ensures p == 0 || WellSized(old(heap), p, size) ==>
                && A.Realloc(old(View()), p, size, answer) == (View(), q)
                && KeptBut(old(heap), heap, p - HEADER)
                && (q != 0 ==> Usable(heap, q, size))
                && (q == 0 && size != 0 ==> Kept(old(heap), heap) && View() == old(View()))
                && (p != 0 && q != 0 ==> SamePrefix(old(ram.bytes), ram.bytes, p, q,
                                                    Min(old(heap.live[p - HEADER].size), size)))
                && (p != 0 && (q != 0 || size == 0) ==> GivenBack(old(heap), heap, p - HEADER))
      ensures p != 0 && !WellSized(old(heap), p, size) ==>
                && q == p && Mapped(old(ram.bytes), p - HEADER, 8)
                && ram.bytes == Store(old(ram.bytes), p - HEADER, size)
                && inUse == AddWord(SubWord(old(inUse), old(heap.live[p - HEADER].size)), size)
                && totmem == old(totmem)
    {
      hide HeapInv, A.Quiescent, A.Malloc, A.Asks, Usable, SamePrefix, Lost, Rewritten, MovedOrNull, Gained;
      ghost var h0 := heap;
      if p == 0 {
        q, answer := Malloc(size);
        KeptIsKeptBut(h0, heap, p - HEADER);
      } else if size == 0 {
        Free(p);
        LostIsGivenBack(h0, heap, p - HEADER);
        q, answer := 0, 0;
      } else {
        LiveIsReady(heap, p - HEADER);
        WrapsInPlace(heap, p, size);
        q, answer := Resize(p, size);
        if q != 0 && WellSized(h0, p, size) {
          LiveUsable(heap, q, size);
        }
      }
    }

    // ----- Counters and reset -----

    method Allocated() returns (n: nat)
      requires Valid()
      ensures n == Sum(A.LiveSizes(heap.live))
    {
      A.ExactCounters(heap);
      n := inUse;
    }

    method TotalMemory() returns (n: nat)
      requires Valid()
      ensures n == PAGE * A.PageCount(heap.slabs) + Sum(A.LargeSizes(heap.live))
    {
      A.ExactCounters(heap);
      n := totmem;
    }

    /** The loop of p2reset over initialised lists: the locks and pow2 stay as they are. */
    method RelinkHeads()
      requires Mirrors() && heap.ready == 0
      modifies this`heap, ram`bytes
      ensures Mirrors() && heap == old(heap).(mem := ram.bytes, ready := CLASSES)
    {
      for i := 0 to CLASSES
        invariant Mirrors() && heap == old(heap).(mem := ram.bytes, ready := i)
      {
        InitHead(i);
      }
    }

    /** The list part of p2reset. */
    method ResetLists()
      requires Mirrors() && heap.ready == 0 && |pow2| == CLASSES
      requires initState == 2 ==> forall i :: 0 <= i < CLASSES ==> pow2[i] == BlockSize(i)
      modifies this`heap, this`pow2, this`initState, ram`bytes
      ensures Mirrors() && Ready() && heap == old(heap).(mem := ram.bytes, ready := CLASSES)
    {
      if initState == 2 {
        RelinkHeads();
      } else {
        FreelistsInit();
        initState := 2;
      }
    }

    /** p2reset: the view of a new allocator; every region mapped so far is given up for good. */
    method Reset()
      requires Valid()
      modifies this, ram`bytes
      ensures Valid() && View() == A.NEW_VIEW && initState == 2
      ensures heap.os == old(heap.os) && heap.abandoned == old(heap.os).Keys
    {
      hide HeapInv, A.Quiescent;
      ghost var h := Abandoned(heap);
      AbandonInv(heap);
      heap := h;
      ResetLists();
      inUse := 0;
      totmem := 0;
      ResetDone(h, heap);
    }
  }

  lemma ResetDone(h: Heap, h': Heap)
    requires h == NewHeap(h.mem, h.heads, h.fixed, h.os) && h' == h.(mem := h'.mem, ready := h'.ready)
    ensures A.Quiescent(h') && A.ViewOf(h') == A.NEW_VIEW && h'.used == h'.total == 0
  {
  }

  /** Pointer p is that of a slab block and n bytes are of its own class. */
  ghost predicate KeepsClass(h: Heap, p: Addr, n: nat) {
    && p - HEADER in h.live && h.live[p - HEADER].size <= SIZE_MAX && n <= SIZE_MAX
    && h.live[p - HEADER].mapped == 0 && ClassOf(n) == ClassOf(h.live[p - HEADER].size)
  }

  /** From h to h' exactly the size of block b has become n, which `allocated` counts; no list, page or region has
      changed. */
  ghost predicate Rewritten(h: Heap, h': Heap, b: Addr, n: nat) {
    && b in h.live && b in h'.live && h'.live[b] == Alloc(n, 0) && OthersLive(h, h', {b})
    && h'.used == h.used - h.live[b].size + n && h'.total == h.total
    && h'.slabs == h.slabs && h'.os == h.os
  }

  /** NULL and no change for a request without room for its header or refused by the OS; otherwise the effect of
      p2malloc of n bytes, which gains block q - 16, and then that of p2free of block o. */
  ghost predicate MovedOrNull(h: Heap, h': Heap, o: Addr, q: Addr, n: nat, answer: Addr)
    requires |h.slabs| == CLASSES && n <= SIZE_MAX
  {
    && (q == 0 <==> n > SIZE_MAX - HEADER || (MustAsk(h, n) && answer == 0))
    && if q == 0 then A.ViewOf(h') == A.ViewOf(h) && h'.os == h.os
       else q - HEADER != o && exists h1 :: Gained(h, h1, q - HEADER, n, answer) && Lost(h1, h', o)
  }

  /** p2realloc of p took h to h' and answered q: what it computes; all other blocks kept; on failure
      nothing changed; on success the old contents up to the smaller size. */
  ghost predicate ReallocDone(h: Heap, h': Heap, p: Addr, size: nat, answer: Addr, q: Addr)
    requires |h.slabs| == CLASSES && 0 < size <= SIZE_MAX && p != 0
    requires p - HEADER in h.live && h.live[p - HEADER].size < WORDS
  {
    && A.Realloc(A.ViewOf(h), p, size, answer) == (A.ViewOf(h'), q)
    && KeptBut(h, h', p - HEADER)
    && (if KeepsClass(h, p, size) then q == p && Rewritten(h, h', p - HEADER, size)
        else MovedOrNull(h, h', p - HEADER, q, size, answer))
    && if q == 0 then Kept(h, h') && A.ViewOf(h') == A.ViewOf(h)
       else LiveAt(h', q, size) && SamePrefix(h.mem, h'.mem, p, q, Min(h.live[p - HEADER].size, size))
            && GivenBack(h, h', p - HEADER)
  }

  /** The one case p2realloc cannot serve: an in-place resize of a block of the smallest class to a
      size whose sum with the header wraps. */
  ghost predicate WellSized(h: Heap, p: Addr, size: nat)
    requires p - HEADER in h.live && h.live[p - HEADER].size < WORDS
  {
    var a := h.live[p - HEADER];
    size <= SIZE_MAX - HEADER || a.mapped != 0 || ClassOf(a.size) != 0
  }

  /** p2realloc of a live block to any size: if it resizes in place, the block has room for the new size
      exactly when the call is well-sized; if not, a size without room for its header gets NULL. */
  lemma ReallocRoom(h: Heap, p: Addr, size: nat, answer: Addr)
    requires HeapInv(h) && A.Quiescent(h) && p != 0 && p - HEADER in h.live && h.live[p - HEADER].size < WORDS
    requires 0 < size <= SIZE_MAX
    ensures KeepsClass(h, p, size) ==>
              && A.Realloc(A.ViewOf(h), p, size, answer).1 == p
              && (size + HEADER <= h.ext[p - HEADER] <==> WellSized(h, p, size))
    ensures !KeepsClass(h, p, size) && size > SIZE_MAX - HEADER ==>
              A.Realloc(A.ViewOf(h), p, size, answer) == (A.ViewOf(h), 0)
  {
    hide HeapInv, Layout, Classes, Owned, Lists, Accounts, A.Quiescent;
    HeapParts(h);
    LiveFacts(h, p - HEADER);
    HeldExtent(h, p - HEADER);
    if KeepsClass(h, p, size) {
      ClassFitsIffNoWrap(size);
    }
  }

  /** The failing case, on a new allocator that gets page p from the OS: p2malloc(1) returns a block of 32 bytes,
      and p2realloc of it to SIZE_MAX bytes returns the same block and records SIZE_MAX as its size. */
  lemma ReallocOverclaims(page: Addr)
    requires page > 0 && page % PAGE == 0
    ensures var (v, p) := A.Malloc(A.NEW_VIEW, 1, page);
            && p != 0 && p - HEADER in v.live && v.live[p - HEADER] == Alloc(1, 0)
            && A.Realloc(v, p, SIZE_MAX, 0).1 == p
            && A.Realloc(v, p, SIZE_MAX, 0).0.live[p - HEADER].size == SIZE_MAX
            && forall h :: HeapInv(h) && A.ViewOf(h) == v ==> p - HEADER in h.ext && h.ext[p - HEADER] == 32
  {
    hide HeapInv, A.Realloc;
    FirstByte(page);
    var (v, p) := A.Malloc(A.NEW_VIEW, 1, page);
    OneByteGrown(v, p);
    forall h | HeapInv(h) && A.ViewOf(h) == v ensures p - HEADER in h.ext && h.ext[p - HEADER] == 32 {
      SmallBlock(h, p - HEADER);
    }
  }

  lemma FirstByte(page: Addr)
    requires page > 0 && page % PAGE == 0
    ensures var (v, p) := A.Malloc(A.NEW_VIEW, 1, page);
            |v.slabs| == CLASSES && p > HEADER && p - HEADER in v.live && v.live[p - HEADER] == Alloc(1, 0)
  {
    NoSlabInv(0);
    RefillTiles(0, NO_SLAB, page);
  }

  lemma OneByteGrown(v: A.View, p: Addr)
    requires |v.slabs| == CLASSES && p != 0 && p - HEADER in v.live && v.live[p - HEADER] == Alloc(1, 0)
    ensures A.Realloc(v, p, SIZE_MAX, 0).1 == p && p - HEADER in A.Realloc(v, p, SIZE_MAX, 0).0.live
    ensures A.Realloc(v, p, SIZE_MAX, 0).0.live[p - HEADER].size == SIZE_MAX
  {
  }

  lemma SmallBlock(h: Heap, b: Addr)
    requires HeapInv(h) && b in h.live && h.live[b] == Alloc(1, 0)
    ensures b in h.ext && h.ext[b] == 32
  {
    hide HeapInv;
    HeapParts(h);
    HeldExtent(h, b);
  }

  /** A call that is not well-sized keeps the class, so it is a resize in place. */
  lemma WrapsInPlace(h: Heap, p: Addr, size: nat)
    requires p - HEADER in h.live && h.live[p - HEADER].size < WORDS && size <= SIZE_MAX
    ensures !WellSized(h, p, size) ==> KeepsClass(h, p, size)
  {
    if !WellSized(h, p, size) && ClassOf(size) != -1 {
      ClassFitsIffNoWrap(size);
    }
  }

  lemma KeptIsKeptBut(h: Heap, h': Heap, b: Addr)
    requires Kept(h, h')
    ensures KeptBut(h, h', b)
  {
  }

  lemma InPlaceDone(h: Heap, h': Heap, p: Addr, size: nat)
    requires |h.slabs| == CLASSES && 0 < size <= SIZE_MAX && p - HEADER in h.live && h.live[p - HEADER].size < WORDS
    requires p > HEADER && KeepsClass(h, p, size)
    requires p - HEADER in h.ext && Mapped(h.mem, p - HEADER, h.ext[p - HEADER])
    requires h.live[p - HEADER].size + HEADER <= h.ext[p - HEADER]
    requires Mapped(h.mem, p - HEADER, 8) && h'.mem == Store(h.mem, p - HEADER, size)
    requires h' == Resized(Counted(Uncounted(h, p - HEADER, h.live[p - HEADER].size), p - HEADER, size), p - HEADER,
                           size, h'.mem)
    requires KeptBut(h, h', p - HEADER)
    requires HeapInv(h) && HeapInv(h') && A.Quiescent(h)
    ensures ReallocDone(h, h', p, size, 0, p)
  {
    hide KeptBut, Store, HeapInv, A.Quiescent;
    LiveFacts(h, p - HEADER);
    RewrittenInPlace(h, h', p - HEADER, size);
    InPlacePrefix(h, h'.mem, p, h.live[p - HEADER].size);
  }

  lemma RewrittenInPlace(h: Heap, h': Heap, b: Addr, n: nat)
    requires HeapInv(h) && HeapInv(h') && b in h.live && h.live[b].mapped == 0 && b in h.acc
    requires h.acc[b] == h.live[b].size
    requires h' == Resized(Counted(Uncounted(h, b, h.live[b].size), b, n), b, n, h'.mem)
    ensures Rewritten(h, h', b, n)
  {
    hide HeapInv, Accounts, AddWord, SubWord;
    HeapParts(h);
    HeapParts(h');
    SumOfOther(h, h', b, n);
  }

  lemma SumOfOther(h: Heap, h': Heap, b: Addr, n: nat)
    requires Accounts(h) && Accounts(h') && b in h.acc && h'.acc == (h.acc - {b})[b := n]
    ensures h'.used == h.used - h.acc[b] + n
  {
    SumRemove(h.acc, b);
    SumInsert(h.acc - {b}, b, n);
  }

  lemma InPlacePrefix(h: Heap, m': Memory, p: Addr, n: nat)
    requires p - HEADER in h.ext && Mapped(h.mem, p - HEADER, h.ext[p - HEADER]) && n + HEADER <= h.ext[p - HEADER]
    requires WritesIn(h.mem, m', p - HEADER, 8)
    ensures SamePrefix(h.mem, m', p, p, n)
  {
  }

  /** Block b of h, if large, has gone back to the OS in h'. */
  ghost predicate GivenBack(h: Heap, h': Heap, b: Addr) {
    b in h.live && h.live[b].mapped != 0 ==>
      b !in h'.os && forall a :: b <= a < b + h.live[b].mapped ==> a !in h'.mem
  }

  /** p's block is gone, to the OS if it was large; q's and all others are still held, the others with their
      bytes. */
  ghost predicate BlockMoved(h: Heap, h': Heap, p: Addr, q: Addr) {
    && KeepsAbandoned(h, h') && GivenBack(h, h', p - HEADER)
    && q - HEADER in h'.live && q - HEADER in h.live && h'.live[q - HEADER] == h.live[q - HEADER]
    && forall x :: Held(h, x) && x in h.ext && x != p - HEADER && x != q - HEADER ==>
         Held(h', x) && x in h'.ext && h'.ext[x] == h.ext[x] && Same(h.mem, h'.mem, x, h.ext[x])
  }

  /** The n bytes from q on are what the n bytes from p on were. */
  ghost predicate SamePrefix(m: Memory, m': Memory, p: Addr, q: Addr, n: nat) {
    forall b :: q <= b < q + n ==> b in m' && p + (b - q) in m && m'[b] == m[p + (b - q)]
  }

  /** A new block leaves the old one live. */
  lemma StillLive(h0: Heap, h1: Heap, p: Addr, size: nat, answer: Addr, q: Addr)
    requires |h0.slabs| == CLASSES && MallocDone(h0, h1, size, answer, q) && q != 0
    requires p - HEADER in h0.live
    ensures p - HEADER in h1.live && h1.live[p - HEADER] == h0.live[p - HEADER] && q != p
    ensures q - HEADER in h1.live && h1.live[q - HEADER].size == size
  {
  }

  lemma MoveRefused(h: Heap, h': Heap, p: Addr, size: nat, answer: Addr)
    requires |h.slabs| == CLASSES && 0 < size <= SIZE_MAX && p != 0
    requires p - HEADER in h.live && h.live[p - HEADER].size < WORDS && !KeepsClass(h, p, size)
    requires MallocDone(h, h', size, answer, 0)
    ensures ReallocDone(h, h', p, size, answer, 0) && A.ViewOf(h') == A.ViewOf(h)
  {
    hide Gained, Lost, Kept;
    KeptIsKeptBut(h, h', p - HEADER);
  }

  lemma MoveDone(h0: Heap, h1: Heap, h2: Heap, p: Addr, q: Addr, size: nat, answer: Addr)
    requires |h0.slabs| == |h1.slabs| == CLASSES && 0 < size <= SIZE_MAX && p != 0 && q != 0 && q != p
    requires p - HEADER in h0.live && h0.live[p - HEADER].size < WORDS
    requires !KeepsClass(h0, p, size) && Lost(h1, h2, p - HEADER)
    requires p - HEADER in h0.ext && h0.live[p - HEADER].size + HEADER <= h0.ext[p - HEADER]
    requires MallocDone(h0, h1, size, answer, q) && BlockMoved(h1, h2, p, q)
    requires p - HEADER in h1.live && h1.live[p - HEADER].size < WORDS
    requires A.ViewOf(h2) == A.Free(A.ViewOf(h1), p)
    requires SamePrefix(h1.mem, h2.mem, p, q, Min(h0.live[p - HEADER].size, size))
    ensures ReallocDone(h0, h2, p, size, answer, q)
  {
    hide Gained, Lost, A.Malloc, A.Free;
    assert Gained(h0, h1, q - HEADER, size, answer) && Lost(h1, h2, p - HEADER);
    assert Same(h0.mem, h1.mem, p - HEADER, h0.ext[p - HEADER]);
  }

  lemma LostIsGivenBack(h: Heap, h': Heap, b: Addr)
    requires Lost(h, h', b)
    requires b in h.live && h.live[b].mapped != 0 ==> Unmapped(h.mem, h'.mem, b, h.live[b].mapped)
    ensures GivenBack(h, h', b)
  {
  }

  lemma LostFromCopy(h1: Heap, h2: Heap, h3: Heap, b: Addr)
    requires h2 == h1.(mem := h2.mem) && Lost(h2, h3, b)
    ensures Lost(h1, h3, b)
  {
  }

  lemma MovePrefix(h1: Heap, h2: Heap, h3: Heap, p: Addr, q: Addr, n: nat)
    requires KeptBut(h2, h3, p - HEADER) && q != p && h2 == h1.(mem := h2.mem)
    requires KeptBut(h1, h2, q - HEADER) && GivenBack(h2, h3, p - HEADER)
    requires q - HEADER in h1.live && q - HEADER in h2.ext && n + HEADER <= h2.ext[q - HEADER]
    requires h3.live == h1.live - {p - HEADER} && Copied(h1.mem, h2.mem, q, p, n)
    ensures SamePrefix(h1.mem, h3.mem, p, q, n) && BlockMoved(h1, h3, p, q)
  {
    assert Same(h2.mem, h3.mem, q - HEADER, h2.ext[q - HEADER]);
    forall b | q <= b < q + n
      ensures b in h3.mem && p + (b - q) in h1.mem && h3.mem[b] == h1.mem[p + (b - q)]
    {
      assert b in h3.mem && h3.mem[b] == h2.mem[b];
    }
  }

  lemma PayloadWritten(h: Heap, b: Addr, h': Heap)
    requires HeapInv(h) && A.Quiescent(h) && b in h.live && h' == h.(mem := h'.mem)
    requires WritesIn(h.mem, h'.mem, b + HEADER, h.live[b].size)
    ensures HeapInv(h') && A.Quiescent(h') && KeptBut(h, h', b)
  {
    ClientWrite(h, b, h'.mem);
    KeptButStep(h, h, h', b, -1);
  }

  lemma DoneAfterZero(h0: Heap, h1: Heap, h: Heap, size: nat, answer: Addr, p: Addr)
    requires |h0.slabs| == CLASSES && size <= SIZE_MAX && p != 0
    requires MallocDone(h0, h1, size, answer, p) && h == h1.(mem := h.mem) && KeptBut(h1, h, p - HEADER)
    ensures MallocDone(h0, h, size, answer, p)
  {
    hide Gained, A.Malloc;
    GainedInMemory(h0, h1, h, p - HEADER, size, answer);
  }

  lemma UsableAfterZero(h1: Heap, h: Heap, p: Addr, size: nat)
    requires h == h1.(mem := h.mem) && Usable(h1, p, size)
    ensures Usable(h, p, size)
  {
  }

  lemma GainedInMemory(h0: Heap, h1: Heap, h: Heap, b: Addr, n: nat, answer: Addr)
    requires h == h1.(mem := h.mem) && Gained(h0, h1, b, n, answer)
    ensures Gained(h0, h, b, n, answer)
  {
  }

  /** The subtraction of the old size and the add of the new one. */
  lemma RecountStep(h: Heap, b: Addr, size: nat)
    requires HeapInv(h) && b in h.live && b in h.acc && b in h.ext && size + HEADER <= h.ext[b]
    ensures var h' := Counted(Uncounted(h, b, h.acc[b]), b, size); HeapInv(h') && Quiet(h, h', b, -1)
  {
    hide HeapInv;
    UncountStep(h, b);
    CountStep(Uncounted(h, b, h.acc[b]), b, size);
  }

  lemma ResizeQuiescent(h: Heap, b: Addr, size: nat, m': Memory)
    requires A.Quiescent(h) && b in h.live
    ensures A.Quiescent(Resized(Counted(Uncounted(h, b, h.live[b].size), b, size), b, size, m'))
  {
    hide IsPage;
  }

  lemma ResizeInPlaceStep(h: Heap, b: Addr, size: nat, h': Heap)
    requires HeapInv(h) && A.Quiescent(h) && b in h.live && h.live[b].mapped == 0 && h.live[b].size < WORDS
    requires 0 < size <= SIZE_MAX && ClassOf(size) == ClassOf(h.live[b].size)
    requires size <= SIZE_MAX - HEADER || ClassOf(h.live[b].size) != 0
    requires Mapped(h.mem, b, 8)
    requires h' == Resized(Counted(Uncounted(h, b, h.live[b].size), b, size), b, size, Store(h.mem, b, size))
    ensures HeapInv(h') && A.Quiescent(h') && KeptBut(h, h', b)
  {
    hide HeapInv, Quiet, A.Quiescent;
    HeapParts(h);
    LiveFacts(h, b);
    HeldExtent(h, b);
    ResizeQuiescent(h, b, size, h'.mem);
    ResizeFits(size, ClassOf(size));
    RecountStep(h, b, size);
    var h2 := Counted(Uncounted(h, b, h.live[b].size), b, size);
    KeptButStep(h, h, h2, b, -1);
    ResizeStep(h2, b, size);
    KeptButStep(h, h2, h', b, -1);
  }

  lemma ResizeFits(size: nat, i: int)
    requires size <= SIZE_MAX && ClassOf(size) == i >= 0 && (size <= SIZE_MAX - HEADER || i != 0)
    ensures size + HEADER <= BlockSize(i)
  {
    ClassFitsIffNoWrap(size);
  }

  /** Whatever was held in h, except b, is still held in h' with the same bytes. */
  ghost predicate KeptBut(h: Heap, h': Heap, b: Addr) {
    && KeepsAbandoned(h, h')
    && forall x :: Held(h, x) && x in h.ext && x != b ==>
                  Held(h', x) && x in h'.ext && h'.ext[x] == h.ext[x] && Same(h.mem, h'.mem, x, h.ext[x])
  }

  lemma KeptButStep(h0: Heap, h: Heap, h': Heap, b: Addr, i: int)
    requires KeptBut(h0, h, b) && Quiet(h, h', b, i)
    ensures KeptBut(h0, h', b)
  {
  }

  /** What the header of a live block says. */
  lemma LiveFacts(h: Heap, b: Addr)
    requires HeapInv(h) && A.Quiescent(h) && b in h.live
    ensures b in h.ext && Mapped(h.mem, b, HEADER + 8) && 0 < h.live[b].size < WORDS && 0 < b
    ensures h.live[b].size + HEADER <= h.ext[b] && b + h.ext[b] <= WORDS && Mapped(h.mem, b, h.ext[b])
    ensures Load(h.mem, b) == h.live[b].size && Load(h.mem, b + 8) == h.live[b].mapped
    ensures b in h.acc && h.acc[b] == h.live[b].size
    ensures h.live[b].mapped != 0 <==> ClassOf(h.live[b].size) == -1
    ensures h.live[b].mapped != 0 ==>
              b in h.regs && b in h.os && h.regs[b] == h.os[b] == h.live[b].mapped && !IsPage(h.slabs, b)
  {
    assert LiveBlock(b, h.live[b], h.ext, h.os, h.abandoned) && HasHeader(h.mem, b, h.live[b]);
    HeldHeader(h, b);
    if h.live[b].mapped != 0 {
      assert b in A.LargeSizes(h.live);
      A.RegionValues(h, b);
      A.AllPagesMembers(h.slabs, b);
    }
  }

  lemma LiveIsReady(h: Heap, b: Addr)
    requires HeapInv(h) && A.Quiescent(h) && b in h.live
    ensures Mapped(h.mem, b + 8, 8) && Load(h.mem, b + 8) == h.live[b].mapped
    ensures ClassOf(h.live[b].size) >= 0 ==> h.ready == CLASSES
  {
    LiveFacts(h, b);
    HeldExtent(h, b);
  }

  lemma FreeLargeStep(h: Heap, b: Addr, m': Memory, h': Heap)
    requires HeapInv(h) && A.Quiescent(h) && b in h.live && h.live[b].mapped != 0
    requires h.live[b].size < WORDS && Unmapped(h.mem, m', b, h.live[b].mapped)
    requires var a := h.live[b];
             h' == Released(RegionUncounted(Uncounted(Retired(h, b, 0), b, a.size), b, a.mapped), b, m')
    ensures HeapInv(h') && A.Quiescent(h') && KeptBut(h, h', b)
  {
    LiveFacts(h, b);
    var h2 := Uncounted(Retired(h, b, 0), b, h.live[b].size);
    RetireUncount(h, b, h2);
    ReleaseCounted(h2, b, m', h');
    KeptButStep(h, h2, h', b, -1);
    FreeLargeQuiescent(h, h', b);
  }

  lemma FreeLargeQuiescent(h: Heap, h': Heap, b: Addr)
    requires A.Quiescent(h) && b in h.live && h'.slabs == h.slabs && !IsPage(h.slabs, b)
    requires h'.live == h.live - {b} && h'.acc == h.acc - {b} && h'.regs == h.regs - {b}
    requires forall x :: x in h'.hands ==> x in h.hands
    ensures A.Quiescent(h')
  {
  }

  lemma RetireUncount(h: Heap, b: Addr, h': Heap)
    requires HeapInv(h) && b in h.live && h.live[b].size < WORDS && b in h.acc && h.acc[b] == h.live[b].size
    requires h' == Uncounted(Retired(h, b, 0), b, h.live[b].size)
    ensures HeapInv(h') && KeptBut(h, h', b)
  {
    var h1 := Retired(h, b, 0);
    RetireStep(h, b, 0);
    KeptButStep(h, h, h1, b, -1);
    UncountStep(h1, b);
    KeptButStep(h, h1, h', b, -1);
  }

  lemma ReleaseCounted(h: Heap, b: Addr, m': Memory, h': Heap)
    requires HeapInv(h) && b in h.hands && h.hands[b].cls == -1 && b !in h.acc && b in h.regs
    requires Unmapped(h.mem, m', b, h.regs[b]) && h' == Released(RegionUncounted(h, b, h.regs[b]), b, m')
    ensures HeapInv(h') && Quiet(h, h', b, -1)
  {
    var h1 := RegionUncounted(h, b, h.regs[b]);
    UncountRegionStep(h, b);
    ReleaseStep(h1, b, m');
    QuietTrans(h, h1, h', b);
  }

  /** A live slab block retired, uncounted and its tripwire set. */
  lemma WipeStep(h: Heap, b: Addr, m': Memory, h': Heap)
    requires HeapInv(h) && A.Quiescent(h) && b in h.live && h.live[b].mapped == 0
    requires h.live[b].size < WORDS && Zeroed(h.mem, m', b + HEADER, 8)
    requires h' == Uncounted(Retired(h, b, 0), b, h.live[b].size).(mem := m')
    ensures HeapInv(h') && KeptBut(h, h', b) && TripWord(m', b)
    ensures b in h'.hands && b !in h'.acc && h'.hands[b].cls == ClassOf(h.live[b].size) >= 0
  {
    LiveFacts(h, b);
    HeldHeader(h, b);
    var h2 := Uncounted(Retired(h, b, 0), b, h.live[b].size);
    RetireUncount(h, b, h2);
    HandWrite(h2, b, m');
    KeptButStep(h, h2, h', b, -1);
    ZeroedWord(h.mem, m', b + HEADER, 8);
  }

  /** The wiped block linked back into its list: the call is over. */
  lemma FreeDone(h: Heap, h1: Heap, b: Addr, h': Heap)
    requires A.Quiescent(h) && |h.slabs| == CLASSES && b in h.live && h.live[b].mapped == 0 && 0 < b
    requires h.live[b].size < WORDS && 0 <= ClassOf(h.live[b].size)
    requires h1 == Uncounted(Retired(h, b, 0), b, h.live[b].size).(mem := h1.mem) && KeptBut(h, h1, b)
    requires h' == PutBack(h1, ClassOf(h.live[b].size), b, h'.mem)
    requires Quiet(h1, h', b, ClassOf(h.live[b].size))
    ensures A.Quiescent(h') && KeptBut(h, h', b)
    ensures A.ViewOf(h') == A.Free(A.ViewOf(h), b + HEADER)
  {
    var i := ClassOf(h.live[b].size);
    KeptButStep(h, h1, h', b, i);
    FreeQuiescent(h, h', b, i);
  }

  /** What FreeSlab leaves, without the specification. */
  lemma SlabLost(h: Heap, h': Heap, b: Addr)
    requires HeapInv(h) && A.Quiescent(h) && HeapInv(h') && A.Quiescent(h') && b in h.live && h.live[b].mapped == 0
    requires h.live[b].size < WORDS && 0 <= ClassOf(h.live[b].size)
    requires var i := ClassOf(h.live[b].size); h'.slabs == h.slabs[i := Put(h.slabs[i], b)]
    requires h'.live == h.live - {b} && h'.acc == h.acc - {b}
    requires h'.total == h.total && h'.os == h.os && TripWord(h'.mem, b)
    ensures Lost(h, h', b)
  {
    hide HeapInv, Accounts, Layout, Classes, Owned, Lists, TripWord, Put;
    HeapParts(h);
    HeapParts(h');
    HeapBytes(h);
    PutFacts(h.slabs[ClassOf(h.live[b].size)], b);
    SameMap(h.acc, h'.acc[b := h.live[b].size]);
    CountedMore(h', h, b, h.live[b].size);
  }

  lemma PutFacts(s: Slab, x: Addr)
    ensures |Put(s, x).free| == |s.free| + 1 && forall a :: a in Put(s, x).free <==> a == x || a in s.free
  {
    var p := InsertPos(s.free, x);
    assert s.free == s.free[..p] + s.free[p..];
  }

  lemma LargeLost(h: Heap, h': Heap, b: Addr)
    requires HeapInv(h) && A.Quiescent(h) && HeapInv(h') && b in h.live && h.live[b].mapped != 0
    requires h'.slabs == h.slabs && h'.live == h.live - {b} && h'.acc == h.acc - {b} && h'.regs == h.regs - {b}
    requires h'.os == h.os - {b}
    ensures Lost(h, h', b)
  {
    hide HeapInv, Accounts, Regions, A.Quiescent, Layout, Classes, Owned, Lists;
    HeapParts(h);
    HeapParts(h');
    RegionParts(h);
    RegionParts(h');
    LiveFacts(h, b);
    SameMap(h.acc, h'.acc[b := h.live[b].size]);
    CountedMore(h', h, b, h.live[b].size);
    SameMap(h.regs, h'.regs[b := h.live[b].mapped]);
    TotalledMore(h', h, b, h.live[b].mapped);
  }

  lemma PutKeepsTrip(h: Heap, i: int, b: Addr, m': Memory)
    requires HeapInv(h) && 0 <= i < CLASSES == h.ready && b in h.hands && TripWord(h.mem, b)
    requires Added(h.mem, m', InsertAfter(h, i, b), b)
    ensures TripWord(m', b)
  {
    PutMemory(h, i, b, m');
  }

  lemma FreeQuiescent(h: Heap, h': Heap, b: Addr, i: int)
    requires A.Quiescent(h) && b in h.live && h.live[b].mapped == 0 && 0 <= i < |h.slabs|
    requires h'.slabs == h.slabs[i := Put(h.slabs[i], b)] && h'.regs == h.regs
    requires h'.live == h.live - {b} && h'.acc == h.acc - {b}
    requires forall x :: x in h'.hands ==> x in h.hands
    ensures A.Quiescent(h')
  {
    forall p ensures IsPage(h'.slabs, p) <==> IsPage(h.slabs, p) {
      PagesOfUpdate(h.slabs, i, Put(h.slabs[i], b), p);
    }
  }

  /** p2malloc took h to h' and answered p: what it computes, a new live block or no change, and all
      blocks held before kept. */
  ghost predicate MallocDone(h: Heap, h': Heap, size: nat, answer: Addr, p: Addr)
    requires |h.slabs| == CLASSES
  {
    && Kept(h, h')
    && A.Malloc(A.ViewOf(h), size, answer) == (A.ViewOf(h'), p)
    && (p == 0 <==> size == 0 || size > SIZE_MAX - HEADER || (MustAsk(h, size) && answer == 0))
    && if p == 0 then A.ViewOf(h') == A.ViewOf(h) && h'.os == h.os
       else !Held(h, p - HEADER) && LiveAt(h', p, size) && Gained(h, h', p - HEADER, size, answer)
  }

  /** A request of no bytes, or of more than the address space holds behind a header. */
  lemma NothingDone(h: Heap, size: nat)
    requires HeapInv(h) && |h.slabs| == CLASSES && (size == 0 || size > SIZE_MAX - HEADER)
    ensures MallocDone(h, h, size, 0, 0) && A.Asks(A.ViewOf(h), size, 0) == []
  {
    hide HeapInv, Kept;
    SelfKept(h);
  }

  lemma DoneAfterInit(h0: Heap, h1: Heap, h: Heap, size: nat, answer: Addr, p: Addr)
    requires |h0.slabs| == |h1.slabs| == CLASSES && size <= SIZE_MAX
    requires Kept(h0, h1) && h1 == h0.(mem := h1.mem, ready := h1.ready)
    requires MallocDone(h1, h, size, answer, p)
    ensures MallocDone(h0, h, size, answer, p)
  {
    KeptTrans(h0, h1, h);
  }

  lemma NoCarve(h: Heap, i: int)
    requires Classes(h) && A.Quiescent(h) && 0 <= i < CLASSES
    ensures Uncarved(h.slabs[i]) == 0 && !h.slabs[i].claiming
  {
    assert SlabInv(i, h.slabs[i]);
  }

  ghost predicate LiveAt(h: Heap, p: Addr, size: nat) {
    p - HEADER in h.live && h.live[p - HEADER].size == size && p > HEADER
  }

  lemma LargeKept(h0: Heap, h1: Heap, h2: Heap, h3: Heap, b: Addr)
    requires !Held(h0, b)
    requires Quiet(h0, h1, b, -1) && Quiet(h1, h2, b, -1) && Quiet(h2, h3, b, -1)
    ensures Kept(h0, h3)
  {
    KeptStep(h0, h0, h1, b, -1);
    KeptStep(h0, h1, h2, b, -1);
    KeptStep(h0, h2, h3, b, -1);
  }

  lemma SlabView(h0: Heap, h: Heap, h': Heap, i: int, page: Addr, b: Addr, size: nat)
    requires 0 < size <= SIZE_MAX - HEADER
    requires HeapInv(h') && |h0.slabs| == CLASSES && 0 <= i < CLASSES && ClassOf(size) == i
    requires if page != 0 then h0.slabs[i].free == [] && RefilledHeap(h0, h, i, page) else h == h0
    requires h.slabs[i].free != [] && b == h.slabs[i].free[0]
    requires h' == Published(Counted(Popped(h, i, 0, h'.mem), b, size), b, Alloc(size, 0))
    ensures A.Malloc(A.ViewOf(h0), size, page) == (A.ViewOf(h'), b + HEADER) && LiveAt(h', b + HEADER, size)
  {
    hide HeapInv;
    LivePositive(h', b);
    assert h.slabs[i := Pop(h.slabs[i])] == h0.slabs[i := Pop(h.slabs[i])];
  }

  lemma SlabDone(h0: Heap, h: Heap, h': Heap, i: int, page: Addr, b: Addr, size: nat)
    requires 0 < size <= SIZE_MAX - HEADER && HeapInv(h0) && A.Quiescent(h0) && HeapInv(h')
    requires |h0.slabs| == CLASSES == |h.slabs| && 0 <= i < CLASSES && ClassOf(size) == i
    requires page == 0 ==> h0.slabs[i].free != []
    requires if page != 0 then h0.slabs[i].free == [] && RefilledHeap(h0, h, i, page) else h == h0
    requires h.slabs[i].free != [] && b == h.slabs[i].free[0] && !Held(h, b)
    requires h' == Published(Counted(Popped(h, i, 0, h'.mem), b, size), b, Alloc(size, 0))
    requires Kept(h0, h) && Kept(h, h')
    ensures A.Quiescent(h') && MallocDone(h0, h', size, page, b + HEADER)
  {
    hide HeapInv, Kept, A.Quiescent, RefilledHeap, Gained, A.Malloc, A.Refilled;
    KeptTrans(h0, h, h');
    SlabQuiescent(h0, h, h', i, page, b, size);
    SlabView(h0, h, h', i, page, b, size);
    RefillHeld(h0, h, i, page, b);
    SlabGained(h0, h, h', i, page, b, size);
    SlabNotNull(h0, h, i, page);
  }

  lemma SlabNotNull(h0: Heap, h: Heap, i: int, page: Addr)
    requires |h0.slabs| == CLASSES && 0 <= i < CLASSES
    requires if page != 0 then RefilledHeap(h0, h, i, page) else h0.slabs[i].free != []
    ensures page == 0 ==> h0.slabs[i].free != []
  {
  }

  /** A sum over one more entry. */
  lemma CountedMore(h: Heap, h': Heap, b: Addr, n: nat)
    requires Accounts(h) && Accounts(h') && b !in h.acc && h'.acc == h.acc[b := n]
    ensures h'.used == h.used + n
  {
    SumInsert(h.acc, b, n);
  }

  lemma TotalledMore(h: Heap, h': Heap, p: Addr, n: nat)
    requires Regions(h) && Regions(h') && p !in h.os && h'.regs == h.regs[p := n]
    ensures h'.total == h.total + n
  {
    SumInsert(h.regs, p, n);
  }

  lemma RefilledClass(h: Heap, i: int, page: Addr)
    requires HeapInv(h) && A.Quiescent(h) && 0 <= i < CLASSES && h.slabs[i].free == []
    requires page > 0 && page % PAGE == 0 && page !in h.os
    ensures var t := A.Refilled(i, h.slabs[i], page);
            && |t.free| == PerPage(i) && t.free[0] == page + PAGE - BlockSize(i)
            && t.pages == h.slabs[i].pages + {page}
  {
    hide Layout, Owned, Lists, Accounts;
    assert SlabInv(i, h.slabs[i]) && Grid(i, h.slabs[i], h.ext, h.os, h.abandoned);
    RefillTiles(i, h.slabs[i], page);
  }

  lemma SlabGained(h0: Heap, h: Heap, h': Heap, i: int, page: Addr, b: Addr, size: nat)
    requires 0 < size <= SIZE_MAX - HEADER && HeapInv(h0) && A.Quiescent(h0) && HeapInv(h')
    requires |h0.slabs| == CLASSES == |h.slabs| && 0 <= i < CLASSES && ClassOf(size) == i
    requires if page != 0 then h0.slabs[i].free == [] && RefilledHeap(h0, h, i, page) else h == h0
    requires h.slabs[i].free != [] && b == h.slabs[i].free[0] && !Held(h, b)
    requires h' == Published(Counted(Popped(h, i, 0, h'.mem), b, size), b, Alloc(size, 0))
    ensures Gained(h0, h', b, size, page)
  {
    hide HeapInv, Accounts, Layout, Classes, Owned, Lists, A.Refilled, Pop, ListTaken, Regions;
    HeapParts(h0);
    HeapParts(h');
    CountedMore(h0, h', b, size);
    SlabTaken(h0, h, h', i, page, b);
  }

  lemma SlabTaken(h0: Heap, h: Heap, h': Heap, i: int, page: Addr, b: Addr)
    requires HeapInv(h0) && A.Quiescent(h0) && HeapInv(h')
    requires |h0.slabs| == CLASSES == |h.slabs| && 0 <= i < CLASSES
    requires if page != 0 then h0.slabs[i].free == [] && RefilledHeap(h0, h, i, page) else h == h0
    requires h.slabs[i].free != [] && b == h.slabs[i].free[0] && h'.slabs == h.slabs[i := Pop(h.slabs[i])]
    requires h'.regs == h.regs && h'.total == h.total && h'.os == h.os
    ensures ListTaken(h0, h', b, i, page)
  {
    hide HeapInv, A.Refilled, Pop, Regions, A.Quiescent;
    PopFacts(h.slabs[i]);
    RegionParts(h0);
    RegionParts(h');
    if page != 0 {
      TotalledMore(h0, h', page, PAGE);
      RefilledClass(h0, i, page);
    }
  }

  lemma PopFacts(s: Slab)
    requires s.free != []
    ensures Pop(s).free == s.free[1..] && Pop(s).pages == s.pages
  {
  }

  lemma RegionParts(h: Heap)
    requires HeapInv(h)
    ensures Regions(h)
  {
  }

  lemma RefillHeld(h0: Heap, h: Heap, i: int, page: Addr, b: Addr)
    requires |h0.slabs| == CLASSES && 0 <= i < CLASSES && !Held(h, b)
    requires if page != 0 then RefilledHeap(h0, h, i, page) else h == h0
    ensures !Held(h0, b)
  {
  }

  /** NULL after the OS has refused. */
  lemma RefusedDone(h: Heap, size: nat)
    requires HeapInv(h) && size <= SIZE_MAX
    requires 0 < size <= SIZE_MAX - HEADER ==> ClassOf(size) == -1 || h.slabs[ClassOf(size)].free == []
    ensures MallocDone(h, h, size, 0, 0)
  {
    SelfKept(h);
  }

  lemma ZeroIsFree(h: Heap)
    requires HeapInv(h)
    ensures 0 !in h.ext
  {
  }

  lemma SelfKept(h: Heap)
    requires HeapInv(h)
    ensures Kept(h, h)
  {
  }

  lemma LargeDone(h0: Heap, h': Heap, b: Addr, size: nat)
    requires 0 < size <= SIZE_MAX - HEADER && |h0.slabs| == CLASSES && ClassOf(size) == -1 && b > 0
    requires HeapInv(h0) && HeapInv(h') && b !in h0.os && h'.os == h0.os[b := PageAlign(HEADER + size)]
    requires A.Quiescent(h0) && !Held(h0, b) && Kept(h0, h') && PageAlign(HEADER + size) != 0
    requires h'.slabs == h0.slabs && h'.live == h0.live[b := Alloc(size, PageAlign(HEADER + size))]
    requires h'.acc == h0.acc[b := size] && h'.regs == h0.regs[b := PageAlign(HEADER + size)]
    requires forall x :: x in h'.hands ==> x in h0.hands
    requires h'.used == AddWord(h0.used, size) && h'.total == AddWord(h0.total, PageAlign(HEADER + size))
    ensures A.Quiescent(h') && MallocDone(h0, h', size, b, b + HEADER)
  {
    hide A.Quiescent, Kept, HeapInv, PageAlign, Gained, A.Malloc;
    LargeGained(h0, h', b, size, PageAlign(HEADER + size));
    LargeQuiescent(h0, h', b, size, PageAlign(HEADER + size));
    LargeView(h0, h', b, size);
  }

  lemma NotCounted(h: Heap, b: Addr)
    requires A.Quiescent(h) && b !in h.live
    ensures b !in h.acc
  {
  }

  lemma LargeHasBytes(h: Heap, b: Addr)
    requires HeapInv(h) && b in h.live && h.live[b].size <= SIZE_MAX && ClassOf(h.live[b].size) == -1
    ensures h.live[b].mapped != 0
  {
    assert LiveBlock(b, h.live[b], h.ext, h.os, h.abandoned);
  }

  lemma LargeGained(h: Heap, h': Heap, b: Addr, size: nat, n: nat)
    requires HeapInv(h) && HeapInv(h') && A.Quiescent(h) && !Held(h, b) && b !in h.os && h'.os == h.os[b := n]
    requires size <= SIZE_MAX && ClassOf(size) == -1 && h'.slabs == h.slabs && h'.live == h.live[b := Alloc(size, n)]
    requires h'.acc == h.acc[b := size] && h'.regs == h.regs[b := n]
    ensures Gained(h, h', b, size, b)
  {
    hide HeapInv, Accounts, Regions, Layout, Classes, Owned, Lists, Tight;
    HeapParts(h);
    HeapParts(h');
    HeapBytes(h);
    RegionParts(h);
    RegionParts(h');
    NotCounted(h, b);
    CountedMore(h, h', b, size);
    TotalledMore(h, h', b, n);
    LargeHasBytes(h', b);
    LiveTight(h', b);
  }

  lemma LargeView(h0: Heap, h': Heap, b: Addr, size: nat)
    requires 0 < size <= SIZE_MAX - HEADER && |h0.slabs| == CLASSES && ClassOf(size) == -1 && b > 0
    requires h'.slabs == h0.slabs && h'.live == h0.live[b := Alloc(size, PageAlign(HEADER + size))]
    requires h'.used == AddWord(h0.used, size) && h'.total == AddWord(h0.total, PageAlign(HEADER + size))
    ensures A.Malloc(A.ViewOf(h0), size, b) == (A.ViewOf(h'), b + HEADER) && LiveAt(h', b + HEADER, size)
  {
  }

  /** A pointer the caller may use: aligned, with room for the request, sharing no byte with any other
      block, free or live, nor with a region given up by a reset. */
  ghost predicate Usable(h: Heap, p: Addr, size: nat) {
    var b := p - HEADER;
    && p % HEADER == 0
    && b in h.live && h.live[b].size == size
    && b in h.ext && size + HEADER <= h.ext[b]
    && (forall x :: x in h.ext && x != b ==> Apart(x, h.ext[x], b, h.ext[b]))
    && (forall q :: q in h.abandoned && q in h.os ==> Apart(q, h.os[q], b, h.ext[b]))
  }

  lemma LiveRoom(h: Heap, b: Addr)
    requires Owned(h) && b in h.live
    ensures b in h.ext && h.live[b].size + HEADER <= h.ext[b]
  {
    assert LiveBlock(b, h.live[b], h.ext, h.os, h.abandoned);
  }

  lemma LiveApart(h: Heap, b: Addr)
    requires HeapInv(h) && b in h.live
    ensures b in h.ext && b % HEADER == 0
    ensures forall x :: x in h.ext && x != b ==> Apart(x, h.ext[x], b, h.ext[b])
  {
    hide HeapInv, Owned, Classes, Lists, Accounts;
    HeapParts(h);
    BlockInRegion(h, b);
    forall x | x in h.ext && x != b ensures Apart(x, h.ext[x], b, h.ext[b]) {
      BlocksDisjoint(h, x, b);
    }
  }

  lemma LiveFresh(h: Heap, b: Addr)
    requires HeapInv(h) && b in h.live
    ensures b in h.ext && forall q :: q in h.abandoned && q in h.os ==> Apart(q, h.os[q], b, h.ext[b])
  {
    hide HeapInv, Owned, Classes, Lists, Accounts, Layout;
    HeapParts(h);
    forall q | q in h.abandoned && q in h.os ensures b in h.ext && Apart(q, h.os[q], b, h.ext[b]) {
      BlockAvoidsAbandoned(h, b, q);
    }
    BlockInRegion(h, b);
  }

  lemma LiveUsable(h: Heap, p: Addr, size: nat)
    requires HeapInv(h) && LiveAt(h, p, size)
    ensures Usable(h, p, size)
  {
    hide HeapInv, Owned, Classes, Lists, Accounts, Layout, Apart;
    HeapParts(h);
    LiveRoom(h, p - HEADER);
    LiveApart(h, p - HEADER);
    LiveFresh(h, p - HEADER);
  }

  /** After a slab allocation the state is again one between calls. */
  lemma SlabQuiescent(h0: Heap, h: Heap, h': Heap, i: int, page: Addr, b: Addr, size: nat)
    requires A.Quiescent(h0) && 0 <= i < CLASSES == |h0.slabs| == |h.slabs|
    requires if page != 0 then RefilledHeap(h0, h, i, page) else h == h0
    requires h.slabs[i].free != [] && b == h.slabs[i].free[0] && !Held(h, b)
    requires h' == Published(Counted(Popped(h, i, 0, h'.mem), b, size), b, Alloc(size, 0))
    ensures A.Quiescent(h')
  {
    forall p ensures IsPage(h'.slabs, p) <==> IsPage(h.slabs, p) {
      PagesOfUpdate(h.slabs, i, Pop(h.slabs[i]), p);
    }
    forall p ensures IsPage(h.slabs, p) <==> IsPage(h0.slabs, p) || (page != 0 && p == page) {
      PagesOfUpdate(h0.slabs, i, h.slabs[i], p);
    }
  }

  lemma PagesOfUpdate(slabs: seq<Slab>, i: int, s: Slab, p: Addr)
    requires 0 <= i < |slabs| && slabs[i].pages <= s.pages
    ensures IsPage(slabs[i := s], p) <==> IsPage(slabs, p) || p in s.pages
  {
    var t := slabs[i := s];
    if IsPage(slabs, p) {
      var j :| 0 <= j < |slabs| && p in slabs[j].pages;
      assert p in t[j].pages;
    }
    if p in s.pages {
      assert p in t[i].pages;
    }
  }

  lemma LargeQuiescent(h0: Heap, h': Heap, b: Addr, size: nat, n: nat)
    requires A.Quiescent(h0) && n != 0 && !Held(h0, b)
    requires h'.slabs == h0.slabs && h'.live == h0.live[b := Alloc(size, n)]
    requires h'.acc == h0.acc[b := size] && h'.regs == h0.regs[b := n]
    requires forall x :: x in h'.hands ==> x in h0.hands
    ensures A.Quiescent(h')
  {
  }

  /** The state of the carve loop at address a of the page. */
  ghost predicate CarvedUpTo(h0: Heap, h: Heap, i: int, page: Addr, a: Addr)
    requires 0 <= i < CLASSES == |h0.slabs| == |h.slabs|
  {
    var s := h.slabs[i];
    && Kept(h0, h) && h == h0.(mem := h.mem, slabs := h0.slabs[i := s])
    && s.last == page && page in s.pages && s.next == a <= page + PAGE
    && CarveAll(i, s) == CarveAll(i, h0.slabs[i])
  }

  lemma CarveTurn(h0: Heap, h: Heap, h': Heap, i: int, page: Addr, a: Addr)
    requires HeapInv(h) && HeapInv(h') && 0 <= i < CLASSES == |h0.slabs|
    requires CarvedUpTo(h0, h, i, page, a) && a < page + PAGE
    requires h' == CarvedHeap(h, i, h'.mem) && Quiet(h, h', 0, i) && 0 !in h0.ext
    ensures CarvedUpTo(h0, h', i, page, a + BlockSize(i))
  {
    hide HeapInv, Kept, Layout, Owned, Lists, Accounts, Quiet;
    HeapParts(h);
    HeapParts(h');
    assert SlabInv(i, h.slabs[i]) && SlabInv(i, h'.slabs[i]);
    KeptStep(h0, h, h', 0, i);
  }

  lemma RefillDone(h0: Heap, h: Heap, h': Heap, i: int, p: Addr)
    requires HeapInv(h) && 0 <= i < CLASSES == |h0.slabs| && p in h.slabs[i].pages
    requires h == RegionCounted(Claimed(h0, i, p, h.mem), p, PAGE) && p > 0 && p % PAGE == 0 && p !in h0.os
    requires h' == h.(mem := h'.mem, slabs := h.slabs[i := CarveAll(i, h.slabs[i])]) && Uncarved(h'.slabs[i]) == 0
    ensures RefilledHeap(h0, h', i, p)
  {
    hide HeapInv;
    RefillPages(i, h.slabs[i]);
    assert h'.slabs == h0.slabs[i := CarveAll(i, h.slabs[i])];
  }

  /** What a successful refill of class i from page p leaves. */
  ghost predicate RefilledHeap(h: Heap, h': Heap, i: int, p: Addr)
    requires 0 <= i < CLASSES == |h.slabs|
  {
    && h'.slabs == h.slabs[i := A.Refilled(i, h.slabs[i], p)]
    && h'.live == h.live && h'.hands == h.hands && h'.acc == h.acc && h'.used == h.used
    && h'.regs == h.regs[p := PAGE] && h'.total == AddWord(h.total, PAGE) && h'.abandoned == h.abandoned
    && p > 0 && p % PAGE == 0 && p !in h.os && h'.os == h.os[p := PAGE]
    && A.Refilled(i, h.slabs[i], p).pages == h.slabs[i].pages + {p}
    && Uncarved(A.Refilled(i, h.slabs[i], p)) == 0
  }

  lemma FreshIsNew(h: Heap, p: Addr, n: nat, m': Memory)
    requires Layout(h) && FreshRegion(h.mem, m', p, n)
    ensures p !in h.os
  {
    forall q | q in h.os ensures q in h.mem {
      assert Mapped(h.mem, q, h.os[q]);
    }
    assert p !in h.mem;
  }

  lemma PageClaimed(h: Heap, i: int, p: Addr, m': Memory, h': Heap)
    requires HeapInv(h) && 0 <= i < CLASSES == h.ready && FreshRegion(h.mem, m', p, PAGE)
    requires h.slabs[i].free == [] && !h.slabs[i].claiming
    requires h' == RegionCounted(Claimed(h, i, p, m'), p, PAGE)
    ensures HeapInv(h') && Kept(h, h') && p > 0 && p % PAGE == 0 && p !in h.os
    ensures h'.mem == m' && h'.heads == h.heads && h'.ready == h.ready
    ensures h'.used == h.used && h'.total == AddWord(h.total, PAGE)
  {
    HeapParts(h);
    FreshIsNew(h, p, PAGE, m');
    ClaimStep(h, i, p, m');
    var h1 := Claimed(h, i, p, m');
    KeptStep(h, h, h1, 0, i);
    CountPageStep(h1, i, p);
    KeptStep(h, h1, RegionCounted(h1, p, PAGE), 0, i);
  }

  lemma CountPublish(h: Heap, b: Addr, a: Alloc, h': Heap)
    requires HeapInv(h) && b in h.hands && b in h.ext && b !in h.acc && a.size <= SIZE_MAX
    requires 0 < a.size && a.size + HEADER <= h.ext[b] && ClassOf(a.size) == h.hands[b].cls
    requires HasHeader(h.mem, b, a) && a.mapped == if h.hands[b].cls == -1 then h.ext[b] else 0
    requires h.hands[b].cls == -1 ==> Tight(a.size, a.mapped)
    requires h' == Published(Counted(h, b, a.size), b, a)
    ensures HeapInv(h') && Quiet(h, h', b, -1)
    ensures h'.mem == h.mem && h'.heads == h.heads && h'.ready == h.ready
    ensures h'.used == AddWord(h.used, a.size) && h'.total == h.total
  {
    CountStep(h, b, a.size);
    var h1 := Counted(h, b, a.size);
    PublishStep(h1, b, a);
    QuietTrans(h, h1, Published(h1, b, a), b);
  }

  lemma QuietTrans(h0: Heap, h: Heap, h': Heap, b: Addr)
    requires Quiet(h0, h, b, -1) && Quiet(h, h', b, -1) && (LargeExtent(h, b) ==> LargeExtent(h0, b))
    ensures Quiet(h0, h', b, -1)
  {
  }

  lemma KeptTrans(h0: Heap, h: Heap, h': Heap)
    requires Kept(h0, h) && Kept(h, h')
    ensures Kept(h0, h')
  {
  }

  /** A carved page adds itself and nothing else to the pages of its class. */
  lemma {:induction false} RefillPages(i: int, s: Slab)
    requires 0 <= i < CLASSES
    ensures CarveAll(i, s).pages == s.pages && CarveAll(i, s).claiming == s.claiming
    ensures CarveAll(i, s).out == s.out
    decreases s.last + PAGE - s.next
  {
    if s.next < s.last + PAGE {
      RefillPages(i, CarveOne(i, s));
    }
  }

  lemma HeldHeader(h: Heap, b: Addr)
    requires Ownership(h) && Held(h, b)
    ensures b in h.ext && Mapped(h.mem, b, HEADER) && h.ext[b] >= 32 && 0 < b
  {
    HeldExtent(h, b);
  }

  lemma FirstFree(h: Heap, i: int)
    requires HeapInv(h) && 0 <= i < CLASSES && h.slabs[i].free != []
    ensures !Held(h, h.slabs[i].free[0]) && h.slabs[i].free[0] !in h.acc
  {
    RingCellAlone(h, i, h.slabs[i].free[0]);
  }
}

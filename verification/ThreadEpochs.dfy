/** What lasts between two resets, and beyond them: regions given up are never handed out again, and the pages of
    a class are what the largest number of its blocks ever out in the epoch needs. */
module ThreadEpochs {
  import opened Bytes
  import opened Collections
  import opened Extents
  import opened Sizes
  import opened Slabs
  import opened Heaps
  import opened HeapRegions
  import opened AbstractHeap
  import opened Threads
  import opened ThreadInvariant
  import opened ThreadCallSteps
  import opened ThreadRuns
  import opened ThreadSafety
  import A = AllocSpec

  /** State e is the first of an epoch: that of a new process or the one after a reset. */
  ghost predicate EpochStart(r: seq<State>, e: nat) {
    e < |r| && (e == 0 || ResetStep(r[e - 1], r[e]))
  }

  /** No reset from state e to state j. */
  ghost predicate SameEpoch(r: seq<State>, e: nat, j: nat) {
    e <= j < |r| && forall k :: e <= k < j ==> Works(r[k], r[k + 1])
  }

  /** Every epoch starts like a new process: with the view of a new allocator and no block of any client. */
  lemma EpochIsNew(r: seq<State>, e: nat)
    requires Run(r) && EpochStart(r, e)
    ensures A.ViewOf(r[e].heap) == A.NEW_VIEW && Abs(r[e].heap) == map[]
  {
    if e == 0 {
      InitialIsNew(r[0]);
    } else {
      ResetIsNew(r[e - 1], r[e]);
    }
  }

  // ----- Regions given up -----

  /** Regions given up in h are given up in h', and still mapped with the same size. */
  ghost predicate StayGiven(h: Heap, h': Heap) {
    forall q :: q in h.abandoned && q in h.os ==> q in h'.abandoned && q in h'.os && h'.os[q] == h.os[q]
  }

  lemma FollowsGiven(s: State, s': State)
    requires Inv(s) && Follows(s, s')
    ensures StayGiven(s.heap, s'.heap)
  {
    hide Inv, Works, ResetStep;
    if Works(s, s') {
      WorksKeeps(s, s');
    } else {
      ResetIsNew(s, s');
    }
  }

  lemma {:induction false} GivenForGood(r: seq<State>, j: nat, k: nat)
    requires Run(r) && j <= k < |r|
    ensures StayGiven(r[j].heap, r[k].heap)
  {
    hide Inv, Initial, Follows;
    if j < k {
      GivenForGood(r, j, k - 1);
      RunKeeps(r, k - 1);
      FollowsGiven(r[k - 1], r[k]);
    }
  }

  // ----- What is mapped -----

  lemma FollowsFixed(s: State, s': State)
    requires Inv(s) && Follows(s, s')
    ensures s'.heap.fixed == s.heap.fixed
  {
    hide Inv, Works, ResetStep;
    if Works(s, s') {
      WorksKeeps(s, s');
    } else {
      ResetIsNew(s, s');
    }
  }

  lemma {:induction false} FixedForGood(r: seq<State>, j: nat)
    requires Run(r) && j < |r|
    ensures r[j].heap.fixed == r[0].heap.mem.Keys
  {
    hide Inv, Follows;
    if j > 0 {
      FixedForGood(r, j - 1);
      RunKeeps(r, j - 1);
      FollowsFixed(r[j - 1], r[j]);
    }
  }

  /** In every reachable state a byte is mapped exactly if it was when the process started or if it lies in a
      region of the OS that has not been given back; and such a region is given up by a reset, a page of a class,
      a live large block or a large block in hands: none is lost. */
  lemma NothingLost(r: seq<State>, j: nat, a: Addr, p: Addr)
    requires Run(r) && j < |r|
    ensures var h := r[j].heap;
            && (a in h.mem <==> a in r[0].heap.mem || InRegion(h.os, a))
            && (p in h.os && p !in h.abandoned ==>
                  || IsPage(h.slabs, p)
                  || (p in h.live && h.live[p].mapped != 0)
                  || (p in h.hands && h.hands[p].cls == -1))
  {
    hide Inv, HeapInv, Run;
    RunKeeps(r, j);
    InvParts(r[j]);
    FixedForGood(r, j);
    RegionParts(r[j].heap);
  }

  lemma RegionParts(h: Heap)
    requires HeapInv(h)
    ensures MappedBytes(h) && Users(h)
  {
  }

  /** When no call is under way `totmem` is the bytes of exactly the regions mapped since the last reset. */
  lemma TotalIsMapped(r: seq<State>, j: nat)
    requires Run(r) && j < |r| && forall t :: 0 <= t < |r[j].threads| ==> r[j].threads[t] == Idle
    ensures var h := r[j].heap; h.regs == h.os - h.abandoned && h.total == Sum(h.os - h.abandoned)
  {
    hide Inv, HeapInv, Run;
    var h := r[j].heap;
    RunKeeps(r, j);
    InvParts(r[j]);
    forall p ensures p in h.regs <==> p in h.os && p !in h.abandoned {
      RegionMapped(r[j], p);
    }
    RegionPart(h);
    TotalPart(h);
    SameMap(h.regs, h.os - h.abandoned);
  }

  lemma RegionMapped(s: State, p: Addr)
    requires Inv(s) && forall t :: 0 <= t < |s.threads| ==> s.threads[t] == Idle
    ensures p in s.heap.regs <==> p in s.heap.os && p !in s.heap.abandoned
  {
    hide Inv, HeapInv;
    InvParts(s);
    NobodyHolds(s, p);
    RegionIff(s, p);
    RegionParts(s.heap);
    UsedNotGiven(s.heap, p);
  }

  lemma UsedNotGiven(h: Heap, p: Addr)
    requires HeapInv(h)
    ensures IsPage(h.slabs, p) || (p in h.live && h.live[p].mapped != 0) ==> p in h.os && p !in h.abandoned
  {
    if IsPage(h.slabs, p) {
      var i :| 0 <= i < |h.slabs| && p in h.slabs[i].pages;
      assert Grid(i, h.slabs[i], h.ext, h.os, h.abandoned);
    } else if p in h.live && h.live[p].mapped != 0 {
      assert LiveBlock(p, h.live[p], h.ext, h.os, h.abandoned);
    }
  }

  // ----- Blocks of different epochs -----

  /** A block of class i is no part of a region given up. */
  lemma FreeAvoidsAbandoned(h: Heap, i: int, x: Addr, q: Addr)
    requires Ownership(h) && 0 <= i < CLASSES && x in h.slabs[i].free && q in h.abandoned
    ensures x in h.ext && q in h.os && Apart(x, h.ext[x], q, h.os[q])
  {
    SlabBlock(h, i, x);
    BlockInPage(i, x);
    assert Grid(i, h.slabs[i], h.ext, h.os, h.abandoned);
    assert Apart(PageOf(x), h.os[PageOf(x)], q, h.os[q]);
  }

  lemma AvoidsAbandoned(h: Heap, x: Addr, q: Addr)
    requires Ownership(h) && q in h.abandoned
    requires Held(h, x) || exists i :: 0 <= i < CLASSES && x in h.slabs[i].free
    ensures x in h.ext && q in h.os && Apart(x, h.ext[x], q, h.os[q])
  {
    if Held(h, x) {
      BlockAvoidsAbandoned(h, x, q);
    } else {
      var i :| 0 <= i < CLASSES && x in h.slabs[i].free;
      FreeAvoidsAbandoned(h, i, x, q);
    }
  }

  /** Whatever happens after a reset, further resets included, no block, live, in hands or free, ever shares a
      byte with a region that was mapped when the reset was made. */
  lemma EpochsApart(r: seq<State>, j: nat, k: nat, x: Addr, q: Addr)
    requires Run(r) && j < k < |r| && ResetStep(r[j], r[j + 1]) && q in r[j].heap.os
    requires |r[k].heap.slabs| == CLASSES
    requires Held(r[k].heap, x) || exists i :: 0 <= i < CLASSES && x in r[k].heap.slabs[i].free
    ensures x in r[k].heap.ext && Apart(x, r[k].heap.ext[x], q, r[j].heap.os[q])
  {
    hide Inv, HeapInv, Run, ResetStep;
    ResetIsNew(r[j], r[j + 1]);
    GivenForGood(r, j + 1, k);
    RunKeeps(r, k);
    InvParts(r[k]);
    HeapParts(r[k].heap);
    AvoidsAbandoned(r[k].heap, x, q);
  }

  // ----- The peak -----

  /** The blocks of class i handed out in state s. */
  function Out(s: State, i: int): nat
    requires 0 <= i < |s.heap.slabs|
  {
    |s.heap.slabs[i].out|
  }

  lemma RunSlabs(r: seq<State>, k: nat)
    requires Run(r) && k < |r|
    ensures |r[k].heap.slabs| == CLASSES
  {
    hide Inv, HeapInv, Run;
    RunKeeps(r, k);
    InvParts(r[k]);
  }

  /** In every state of an epoch the recorded peak of a class is the largest number of its blocks out in any
      state of the epoch so far: none has more, and some state has as many. */
  lemma {:induction false} PeakIsMax(r: seq<State>, e: nat, j: nat, i: int) returns (k: nat)
    requires Run(r) && EpochStart(r, e) && SameEpoch(r, e, j) && 0 <= i < CLASSES
    ensures |r[j].heap.slabs| == CLASSES && e <= k <= j && |r[k].heap.slabs| == CLASSES
    ensures forall l :: e <= l <= j ==> |r[l].heap.slabs| == CLASSES && Out(r[l], i) <= r[j].heap.slabs[i].peak
    ensures Out(r[k], i) == r[j].heap.slabs[i].peak
  {
    hide Inv, HeapInv, Run, EpochStart, Works;
    RunSlabs(r, j);
    if e == j {
      k := e;
      EpochIsNew(r, e);
    } else {
      var k' := PeakIsMax(r, e, j - 1, i);
      RunKeeps(r, j - 1);
      WorksKeeps(r[j - 1], r[j]);
      assert PeakStep(r[j - 1].heap.slabs[i], r[j].heap.slabs[i]);
      k := if Out(r[j], i) > r[j - 1].heap.slabs[i].peak then j else k';
    }
  }

  /** In every state of an epoch in which lock i is free, the pages ever claimed for class i in the epoch are the
      largest number of its blocks ever out at once, divided by the blocks per page and rounded up. */
  lemma PagesMatchPeak(r: seq<State>, e: nat, j: nat, i: int) returns (k: nat)
    requires Run(r) && EpochStart(r, e) && SameEpoch(r, e, j)
    requires 0 <= i < CLASSES == |r[j].heap.slabs| == |r[j].locks| && r[j].locks[i] == -1
    ensures e <= k <= j && |r[k].heap.slabs| == CLASSES
    ensures forall l :: e <= l <= j ==> |r[l].heap.slabs| == CLASSES && Out(r[l], i) <= Out(r[k], i)
    ensures |r[j].heap.slabs[i].pages| == (Out(r[k], i) + PerPage(i) - 1) / PerPage(i)
  {
    hide Inv, HeapInv, Run, EpochStart, Works;
    RunKeeps(r, j);
    InvParts(r[j]);
    HeapParts(r[j].heap);
    FreeLock(r[j], i);
    ClassPages(r[j].heap, i);
    k := PeakIsMax(r, e, j, i);
  }

  lemma ClassPages(h: Heap, i: int)
    requires Classes(h) && 0 <= i < CLASSES && !h.slabs[i].claiming
    ensures |h.slabs[i].pages| == (h.slabs[i].peak + PerPage(i) - 1) / PerPage(i)
  {
    assert SlabInv(i, h.slabs[i]);
    HighWater(i, h.slabs[i]);
  }
}

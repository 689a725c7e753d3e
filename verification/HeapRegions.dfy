/** The heap steps that obtain regions from the OS, give them back, or start afresh. */
module HeapRegions {
  import opened Bytes
  import opened Sizes
  import opened PsList
  import opened Slabs
  import opened Extents
  import opened Os
  import opened Heaps
  import opened HeapSteps

  lemma FreshApart(m: Memory, p: Addr, n: nat, x: Addr, k: nat)
    requires Mapped(m, x, k) && k > 0 && n > 0 && forall b :: p <= b < p + n ==> b !in m
    ensures Apart(x, k, p, n)
  {
    assert x in m;
    if x < p {
      assert p !in m;
    }
  }

  /** Adding extents that lie in a fresh region, disjoint from each other. */
  lemma AddExtents(m: Memory, m': Memory, p: Addr, n: nat, e: map<Addr, nat>, e1: map<Addr, nat>)
    requires FreshRegion(m, m', p, n) && Disjoint(e) && InMemory(m, e) && Disjoint(e1)
    requires forall x :: x in e ==> e[x] > 0
    requires forall x :: x in e1 ==> p <= x && x + e1[x] <= p + n && e1[x] > 0
    ensures Disjoint(e + e1) && InMemory(m', e + e1)
    ensures forall x :: x in e ==> x in e + e1 && (e + e1)[x] == e[x]
  {
    forall x | x in e ensures Apart(x, e[x], p, n) {
      FreshApart(m, p, n, x, e[x]);
    }
    forall x | x in e1 ensures x !in e {
      assert x in m';
    }
  }

  lemma OneExtent(m: Memory, m': Memory, p: Addr, n: nat, e: map<Addr, nat>)
    requires FreshRegion(m, m', p, n) && Disjoint(e) && InMemory(m, e)
    requires forall x :: x in e ==> e[x] > 0
    ensures Disjoint(e[p := n]) && InMemory(m', e[p := n]) && p !in e
  {
    AddExtents(m, m', p, n, e, map[p := n]);
    assert e + map[p := n] == e[p := n];
    if p in e {
      FreshApart(m, p, n, p, e[p]);
    }
  }

  lemma FreshKeeps(h: Heap, m': Memory, p: Addr, n: nat)
    requires HeapInv(h) && FreshRegion(h.mem, m', p, n)
    ensures KeepsOthers(h, m', {}) && Lists(h.(mem := m')) && HeadersOf(m', h.live)
    ensures TripwiresOf(m', h.slabs)
    ensures forall x :: x in h.ext ==> Same(h.mem, m', x, h.ext[x])
  {
    assert KeepsOthers(h, m', {});
    KeepLists(h, m', {});
    KeepHeaders(h, m', {});
    FrameTrips(h, m', {});
  }

  // ----- A page for a class -----

  /** The blocks of class i in the page at p. */
  function PageBlocks(i: int, p: Addr): map<Addr, nat>
    requires 0 <= i < CLASSES
  {
    map a | p <= a < p + PAGE && a % BlockSize(i) == 0 :: BlockSize(i)
  }

  function Claimed(h: Heap, i: int, p: Addr, m': Memory): Heap
    requires 0 <= i < CLASSES == |h.slabs|
  {
    h.(mem := m', slabs := h.slabs[i := Claim(h.slabs[i], p)], ext := h.ext + PageBlocks(i, p),
       os := h.os[p := PAGE])
  }

  lemma PageBlocksTile(i: int, p: Addr)
    requires 0 <= i < CLASSES && p % PAGE == 0
    ensures Disjoint(PageBlocks(i, p))
    ensures forall x :: x in PageBlocks(i, p) ==> p <= x && x + BlockSize(i) <= p + PAGE
  {
    var e := PageBlocks(i, p);
    forall x, y | x in e && y in e && x != y ensures Apart(x, e[x], y, e[y]) {
      BlocksApart(i, x, y);
    }
    forall x | x in e ensures x + BlockSize(i) <= p + PAGE {
      BlockInPage(i, x);
      assert PageOf(x) == p;
    }
  }

  lemma ClaimLayout(h: Heap, i: int, p: Addr, m': Memory)
    requires Layout(h) && Sentinels(h) && 0 <= i < CLASSES == |h.slabs| && FreshRegion(h.mem, m', p, PAGE)
    ensures Layout(Claimed(h, i, p, m')) && Sentinels(Claimed(h, i, p, m')) && p !in h.os
    ensures forall x :: x in h.ext ==> x in Claimed(h, i, p, m').ext && Claimed(h, i, p, m').ext[x] == h.ext[x]
  {
    PageBlocksTile(i, p);
    AddExtents(h.mem, m', p, PAGE, h.ext, PageBlocks(i, p));
    OneExtent(h.mem, m', p, PAGE, h.os);
  }

  lemma ClaimGrid(h: Heap, i: int, p: Addr, m': Memory, j: int)
    requires Classes(h) && 0 <= i < CLASSES && 0 <= j < CLASSES && p !in h.os && p !in h.abandoned
    requires p % PAGE == 0
    requires forall x :: x in h.ext ==> x in Claimed(h, i, p, m').ext && Claimed(h, i, p, m').ext[x] == h.ext[x]
    ensures var h' := Claimed(h, i, p, m'); Grid(j, h'.slabs[j], h'.ext, h'.os, h'.abandoned)
  {
    var h' := Claimed(h, i, p, m');
    assert Grid(j, h.slabs[j], h.ext, h.os, h.abandoned);
    forall a | PageOf(a) in h'.slabs[j].pages && a % BlockSize(j) == 0
      ensures a in h'.ext && h'.ext[a] == BlockSize(j)
    {
      if PageOf(a) !in h.slabs[j].pages {
        assert j == i && a in PageBlocks(i, p);
      }
    }
  }

  lemma ClaimClasses(h: Heap, i: int, p: Addr, m': Memory)
    requires Classes(h) && Layout(h) && 0 <= i < CLASSES == h.ready && p !in h.os && p % PAGE == 0 && 0 < p
    requires h.slabs[i].free == [] && !h.slabs[i].claiming
    requires forall x :: x in h.ext ==> x in Claimed(h, i, p, m').ext && Claimed(h, i, p, m').ext[x] == h.ext[x]
    ensures Classes(Claimed(h, i, p, m'))
  {
    var h' := Claimed(h, i, p, m');
    assert SlabInv(i, h.slabs[i]) && Grid(i, h.slabs[i], h.ext, h.os, h.abandoned);
    ClaimInv(i, h.slabs[i], p);
    forall j | 0 <= j < CLASSES ensures Grid(j, h'.slabs[j], h'.ext, h'.os, h'.abandoned) {
      ClaimGrid(h, i, p, m', j);
    }
  }

  lemma ClaimLists(h: Heap, i: int, p: Addr, m': Memory)
    requires Lists(h.(mem := m')) && 0 <= i < CLASSES && TripwiresOf(m', h.slabs)
    requires h.slabs[i].free == []
    ensures Lists(Claimed(h, i, p, m')) && Tripwires(Claimed(h, i, p, m'))
  {
  }

  lemma ClaimOthers(h: Heap, i: int, p: Addr, m': Memory)
    requires Owned(h) && Outstanding(h) && Accounts(h) && Regions(h) && 0 <= i < CLASSES && p !in h.os
    requires forall x :: x in h.ext ==> x in Claimed(h, i, p, m').ext && Claimed(h, i, p, m').ext[x] == h.ext[x]
    ensures var h' := Claimed(h, i, p, m'); Owned(h') && Outstanding(h') && Accounts(h') && Regions(h')
  {
  }

  lemma ClaimQuiet(h: Heap, i: int, p: Addr, m': Memory)
    requires 0 <= i < CLASSES == |h.slabs| && p !in h.os
    requires forall x :: x in h.ext ==> Same(h.mem, m', x, h.ext[x])
    requires forall x :: x in h.ext ==> x in Claimed(h, i, p, m').ext && Claimed(h, i, p, m').ext[x] == h.ext[x]
    ensures Quiet(h, Claimed(h, i, p, m'), 0, i)
  {
  }

  lemma ClaimUsers(h: Heap, i: int, p: Addr, m': Memory)
    requires Users(h) && 0 <= i < CLASSES == |h.slabs|
    ensures Users(Claimed(h, i, p, m'))
  {
    hide IsPage;
    var h' := Claimed(h, i, p, m');
    forall q | IsPage(h.slabs, q) ensures IsPage(h'.slabs, q) {
      PageStays(h.slabs, i, h'.slabs[i], q);
    }
    PageThere(h'.slabs, i, p);
  }

  lemma PageThere(slabs: seq<Slab>, i: int, p: Addr)
    requires 0 <= i < |slabs| && p in slabs[i].pages
    ensures IsPage(slabs, p)
  {
  }

  /** A fresh region adds exactly its bytes to those mapped. */
  lemma FreshBytes(h: Heap, p: Addr, n: nat, m': Memory)
    requires MappedBytes(h) && FreshRegion(h.mem, m', p, n) && p !in h.os
    ensures MappedBytesOf(m'.Keys, h.fixed, h.heads, h.os[p := n])
  {
    var os' := h.os[p := n];
    forall a ensures InRegion(os', a) <==> InRegion(h.os, a) || p <= a < p + n {
      RegionAdded(h.os, p, n, a);
    }
  }

  lemma RegionAdded(os: map<Addr, nat>, p: Addr, n: nat, a: Addr)
    requires p !in os
    ensures InRegion(os[p := n], a) <==> InRegion(os, a) || p <= a < p + n
  {
    if InRegion(os, a) {
      var q :| q in os && q <= a < q + os[q];
      assert q in os[p := n];
    }
    if p <= a < p + n {
      assert p in os[p := n];
    }
  }

  /** A page from the OS for an empty list. */
  lemma ClaimStep(h: Heap, i: int, p: Addr, m': Memory)
    requires HeapInv(h) && 0 <= i < CLASSES == h.ready && FreshRegion(h.mem, m', p, PAGE)
    requires h.slabs[i].free == [] && !h.slabs[i].claiming
    ensures HeapInv(Claimed(h, i, p, m')) && Quiet(h, Claimed(h, i, p, m'), 0, i)
    ensures p !in h.regs && p !in h.os && p !in h.ext && p !in h.slabs[i].pages
  {
    OneExtent(h.mem, m', p, PAGE, h.ext);
    assert Grid(i, h.slabs[i], h.ext, h.os, h.abandoned);
    FreshKeeps(h, m', p, PAGE);
    ClaimLayout(h, i, p, m');
    ClaimClasses(h, i, p, m');
    ClaimLists(h, i, p, m');
    ClaimOthers(h, i, p, m');
    ClaimUsers(h, i, p, m');
    FreshBytes(h, p, PAGE, m');
    ClaimQuiet(h, i, p, m');
  }

  // ----- Large regions -----

  function LargeClaimed(h: Heap, p: Addr, n: nat, t: int, m': Memory): Heap {
    h.(mem := m', ext := h.ext[p := n], os := h.os[p := n], hands := h.hands[p := Hand(-1, t)])
  }

  lemma LargeOwned(h: Heap, p: Addr, n: nat, t: int, m': Memory)
    requires Owned(h) && Accounts(h) && Regions(h) && p !in h.ext && p !in h.os && p !in h.abandoned
    requires n > PAGE
    ensures var h' := LargeClaimed(h, p, n, t, m'); Owned(h') && Accounts(h') && Regions(h')
  {
  }

  lemma LargeOutstanding(h: Heap, p: Addr, n: nat, t: int, m': Memory)
    requires Owned(h) && Outstanding(h) && p !in h.ext
    ensures Outstanding(LargeClaimed(h, p, n, t, m'))
  {
    var h' := LargeClaimed(h, p, n, t, m');
    forall j, x | 0 <= j < CLASSES
      ensures x in h'.slabs[j].out <==> HeldClass(h'.live, h'.hands, x) == j
    {
      assert x in h.slabs[j].out <==> HeldClass(h.live, h.hands, x) == j;
    }
  }

  lemma LargeClasses(h: Heap, p: Addr, n: nat, t: int, m': Memory)
    requires Classes(h) && p !in h.ext && p !in h.os
    ensures Classes(LargeClaimed(h, p, n, t, m'))
  {
    forall j | 0 <= j < CLASSES ensures Grid(j, h.slabs[j], h.ext[p := n], h.os[p := n], h.abandoned) {
      assert Grid(j, h.slabs[j], h.ext, h.os, h.abandoned);
    }
  }

  lemma LargeUsers(h: Heap, p: Addr, n: nat, t: int, m': Memory)
    requires Users(h)
    ensures Users(LargeClaimed(h, p, n, t, m'))
  {
    hide IsPage;
    assert forall q :: q in h.hands && h.hands[q].cls == -1 ==> LargeClaimed(h, p, n, t, m').hands[q].cls == -1;
  }

  lemma LargeLayout(h: Heap, p: Addr, n: nat, t: int, m': Memory)
    requires Layout(h) && Sentinels(h) && FreshRegion(h.mem, m', p, n) && n > PAGE
    ensures p !in h.ext && p !in h.os
    ensures Layout(LargeClaimed(h, p, n, t, m')) && Sentinels(LargeClaimed(h, p, n, t, m'))
  {
    OneExtent(h.mem, m', p, n, h.ext);
    OneExtent(h.mem, m', p, n, h.os);
  }

  lemma LargeQuiet(h: Heap, p: Addr, n: nat, t: int, m': Memory)
    requires p !in h.os && p !in h.ext && forall x :: x in h.ext ==> Same(h.mem, m', x, h.ext[x])
    ensures Quiet(h, LargeClaimed(h, p, n, t, m'), p, -1)
  {
  }

  lemma LargeUnheld(h: Heap, p: Addr)
    requires Owned(h) && Accounts(h) && Regions(h) && p !in h.ext && p !in h.os
    ensures !Held(h, p) && p !in h.acc && p !in h.regs
  {
  }

  /** A region of its own for a large request. */
  lemma LargeStep(h: Heap, p: Addr, n: nat, t: int, m': Memory)
    requires HeapInv(h) && FreshRegion(h.mem, m', p, n) && n > PAGE
    ensures HeapInv(LargeClaimed(h, p, n, t, m')) && Quiet(h, LargeClaimed(h, p, n, t, m'), p, -1)
    ensures !Held(h, p) && p !in h.acc && p !in h.regs && p !in h.os && p !in h.ext
  {
    hide LayoutOf, SentinelsOf, ClassesOf, OwnedOf, OutstandingOf, ListsOf, HeadersOf, SizesOf, RegionsOf, TripwiresOf;
    hide UsersOf, MappedBytesOf, FreshRegion, Quiet, KeepsOthers;
    FreshKeeps(h, m', p, n);
    LargeLayout(h, p, n, t, m');
    LargeUnheld(h, p);
    AbandonedMapped(h);
    LargeOwned(h, p, n, t, m');
    LargeUsers(h, p, n, t, m');
    FreshBytes(h, p, n, m');
    LargeOutstanding(h, p, n, t, m');
    LargeClasses(h, p, n, t, m');
    LargeQuiet(h, p, n, t, m');
  }

  lemma AbandonedMapped(h: Heap)
    requires Layout(h)
    ensures forall q :: q in h.abandoned ==> q in h.os
  {
  }

  function Released(h: Heap, p: Addr, m': Memory): Heap {
    h.(mem := m', ext := h.ext - {p}, os := h.os - {p}, hands := h.hands - {p})
  }

  /** A large block in hands is no page of a class and holds no block of one. */
  lemma LargeIsNoPage(h: Heap, p: Addr, i: int, a: Addr)
    requires Classes(h) && 0 <= i < CLASSES && p in h.ext && h.ext[p] > PAGE && p % PAGE == 0
    ensures p !in h.slabs[i].pages
    ensures PageOf(a) in h.slabs[i].pages && a % BlockSize(i) == 0 ==> a != p
  {
    assert Grid(i, h.slabs[i], h.ext, h.os, h.abandoned);
    PageIsBlock(i, p);
  }

  lemma ReleaseLayout(h: Heap, p: Addr, m': Memory)
    requires Layout(h) && LargeRegion(p, h.ext, h.os, h.abandoned) && Unmapped(h.mem, m', p, h.os[p])
    ensures Layout(Released(h, p, m'))
    ensures KeepsOthers(h, m', {p})
  {
    forall x | x in h.ext && x != p ensures Same(h.mem, m', x, h.ext[x]) {
      assert Apart(x, h.ext[x], p, h.ext[p]);
    }
    forall x | x in h.os && x != p ensures Mapped(m', x, h.os[x]) {
      assert Apart(x, h.os[x], p, h.os[p]);
    }
  }

  lemma ReleaseClasses(h: Heap, p: Addr, m': Memory)
    requires Classes(h) && Sentinels(h) && Layout(h) && LargeRegion(p, h.ext, h.os, h.abandoned)
    ensures Classes(Released(h, p, m')) && Sentinels(Released(h, p, m'))
  {
    forall j | 0 <= j < CLASSES ensures Grid(j, h.slabs[j], h.ext - {p}, h.os - {p}, h.abandoned) {
      assert Grid(j, h.slabs[j], h.ext, h.os, h.abandoned);
      forall a ensures PageOf(a) in h.slabs[j].pages && a % BlockSize(j) == 0 ==> a != p {
        LargeIsNoPage(h, p, j, a);
      }
      LargeIsNoPage(h, p, j, 0);
    }
  }

  lemma ReleaseOwned(h: Heap, p: Addr, m': Memory)
    requires Owned(h) && Accounts(h) && Regions(h) && Outstanding(h)
    requires p in h.hands && h.hands[p].cls == -1 && p !in h.acc && p !in h.regs
    ensures var h' := Released(h, p, m'); Owned(h') && Accounts(h') && Regions(h') && Outstanding(h')
  {
    var h' := Released(h, p, m');
    forall j, x | 0 <= j < CLASSES
      ensures x in h'.slabs[j].out <==> HeldClass(h'.live, h'.hands, x) == j
    {
      assert x in h.slabs[j].out <==> HeldClass(h.live, h.hands, x) == j;
    }
  }

  lemma ReleaseQuiet(h: Heap, p: Addr, m': Memory)
    requires p in h.hands && KeepsOthers(h, m', {p}) && p !in h.abandoned
    ensures Quiet(h, Released(h, p, m'), p, -1)
  {
  }

  lemma ReleaseUsers(h: Heap, p: Addr, m': Memory)
    requires Users(h)
    ensures Users(Released(h, p, m'))
  {
    hide IsPage;
  }

  /** Giving a region back takes exactly its bytes from those mapped. */
  lemma ReleaseBytes(h: Heap, p: Addr, m': Memory)
    requires Layout(h) && MappedBytes(h) && p in h.os && Unmapped(h.mem, m', p, h.os[p])
    ensures MappedBytes(Released(h, p, m'))
  {
    var os' := h.os - {p};
    forall a ensures InRegion(os', a) <==> InRegion(h.os, a) && !(p <= a < p + h.os[p]) {
      RegionTaken(h.os, p, a);
    }
    assert forall a :: p <= a < p + h.os[p] ==> InRegion(h.os, a);
  }

  lemma RegionTaken(os: map<Addr, nat>, p: Addr, a: Addr)
    requires Disjoint(os) && p in os
    ensures InRegion(os - {p}, a) <==> InRegion(os, a) && !(p <= a < p + os[p])
  {
    if InRegion(os, a) && !(p <= a < p + os[p]) {
      var q :| q in os && q <= a < q + os[q];
      assert q in os - {p};
    }
    if InRegion(os - {p}, a) {
      var q :| q in os - {p} && q <= a < q + os[q];
      assert q in os && Apart(q, os[q], p, os[p]);
    }
  }

  /** os_free of a large block in hands that no counter counts any more. */
  lemma ReleaseStep(h: Heap, p: Addr, m': Memory)
    requires HeapInv(h) && p in h.hands && h.hands[p].cls == -1 && p !in h.acc && p !in h.regs
    requires p in h.os && Unmapped(h.mem, m', p, h.os[p])
    ensures HeapInv(Released(h, p, m')) && Quiet(h, Released(h, p, m'), p, -1)
  {
    ReleaseLayout(h, p, m');
    ReleaseClasses(h, p, m');
    ReleaseOwned(h, p, m');
    ReleaseUsers(h, p, m');
    ReleaseBytes(h, p, m');
    ReleaseQuiet(h, p, m');
    HeldOffRings(h, p);
    KeepLists(h, m', {p});
    KeepHeaders(h, m', {p});
    FrameTrips(h, m', {p});
  }

  // ----- Initialisation and reset -----

  /** One turn of the loop that initialises the sentinels. */
  function HeadReady(h: Heap, m': Memory): Heap {
    h.(mem := m', ready := h.ready + 1)
  }

  lemma HeadAllowed(h: Heap)
    requires Layout(h) && Sentinels(h) && h.ready < CLASSES
    ensures Cell(h.mem, h.heads[h.ready])
  {
  }

  lemma HeadStep(h: Heap, m': Memory)
    requires HeapInv(h) && h.ready < CLASSES && Initialised(h.mem, m', h.heads[h.ready])
    ensures HeapInv(HeadReady(h, m')) && Quiet(h, HeadReady(h, m'), 0, -1)
  {
    HeadMemory(h, m');
    HeadLists(h, m');
    HeadQuiet(h, m');
  }

  /** Only the next sentinel to be initialised is written. */
  ghost predicate HeadWritten(h: Heap, m': Memory)
    requires h.ready < |h.heads|
  {
    WritesIn(h.mem, m', h.heads[h.ready], LINK)
  }

  lemma HeadMemory(h: Heap, m': Memory)
    requires Ownership(h) && Headers(h) && h.ready < CLASSES && HeadWritten(h, m')
    ensures KeepsOthers(h, m', {h.heads[h.ready]})
    ensures LayoutOf(m', h.ext, h.os, h.abandoned) && HeadersOf(m', h.live)
  {
    var x := h.heads[h.ready];
    RingCellAlone(h, h.ready, x);
    WriteKeeps(h, m', x);
    KeepLayout(h, m');
    KeepHeaders(h, m', {x});
  }

  lemma HeadQuiet(h: Heap, m': Memory)
    requires Ownership(h) && h.ready < CLASSES && KeepsOthers(h, m', {h.heads[h.ready]})
    ensures Quiet(h, HeadReady(h, m'), 0, -1)
    ensures Classes(HeadReady(h, m')) && TripwiresOf(m', h.slabs)
  {
    RingCellAlone(h, h.ready, h.heads[h.ready]);
  }

  lemma HeadFrame(h: Heap, m': Memory, i: int)
    requires Ownership(h) && Lists(h) && h.ready < CLASSES && 0 <= i < h.ready
    requires KeepsOthers(h, m', {h.heads[h.ready]})
    ensures IsList(m', h.heads[i], h.slabs[i].free)
  {
    RingCellAlone(h, h.ready, h.heads[h.ready]);
    FrameList(h, m', {h.heads[h.ready]}, i);
  }

  lemma HeadEmptySlab(h: Heap)
    requires Classes(h) && h.ready < CLASSES
    ensures h.slabs[h.ready].free == []
  {
    assert h.slabs[h.ready] == NO_SLAB;
  }

  lemma HeadLists(h: Heap, m': Memory)
    requires Ownership(h) && Lists(h) && h.ready < CLASSES
    requires Initialised(h.mem, m', h.heads[h.ready]) && KeepsOthers(h, m', {h.heads[h.ready]})
    ensures ListsOf(m', h.heads, h.ready + 1, h.slabs)
  {
    InitIsEmpty(h.mem, m', h.heads[h.ready]);
    HeadEmptySlab(h);
    forall i | 0 <= i < h.ready + 1 ensures IsList(m', h.heads[i], h.slabs[i].free) {
      if i < h.ready {
        HeadFrame(h, m', i);
      }
    }
  }

  /** The heap of a process whose sentinels are static data and that has asked for no memory yet. */
  function NewHeap(m: Memory, heads: seq<Addr>, fixed: set<Addr>, os: map<Addr, nat>): Heap {
    Heap(m, heads, fixed, 0, NoSlabs(), map x | x in heads :: LINK, os, os.Keys,
         map[], map[], map[], map[], 0, 0)
  }

  /** What p2reset gives up: every block, page and count; the regions stay mapped. */
  function Abandoned(h: Heap): Heap {
    NewHeap(h.mem, h.heads, h.fixed, h.os)
  }

  ghost predicate SentinelSpace(m: Memory, heads: seq<Addr>) {
    && |heads| == CLASSES
    && (forall i :: 0 <= i < CLASSES ==> 0 < heads[i] && heads[i] + LINK <= WORDS && Mapped(m, heads[i], LINK))
    && (forall i, j :: 0 <= i < j < CLASSES ==> Apart(heads[i], LINK, heads[j], LINK))
  }

  lemma NewHeapInv(m: Memory, heads: seq<Addr>, fixed: set<Addr>, os: map<Addr, nat>)
    requires SentinelSpace(m, heads) && Disjoint(os) && InMemory(m, os) && MappedBytesOf(m.Keys, fixed, heads, os)
    requires forall p :: p in os ==> p % PAGE == 0 && os[p] >= PAGE
    ensures HeapInv(NewHeap(m, heads, fixed, os))
  {
    hide Layout, Sentinels, Classes, Disjoint, InMemory;
    NewLayout(m, heads, fixed, os);
    NewClasses(m, heads, fixed, os);
    NewTables(m, heads, fixed, os);
  }

  lemma NewLayout(m: Memory, heads: seq<Addr>, fixed: set<Addr>, os: map<Addr, nat>)
    requires SentinelSpace(m, heads) && Disjoint(os) && InMemory(m, os)
    requires forall p :: p in os ==> p % PAGE == 0 && os[p] >= PAGE
    ensures Layout(NewHeap(m, heads, fixed, os)) && Sentinels(NewHeap(m, heads, fixed, os))
  {
    var h := NewHeap(m, heads, fixed, os);
    forall x, y | x in h.ext && y in h.ext && x != y ensures Apart(x, LINK, y, LINK) {
      var i :| 0 <= i < CLASSES && heads[i] == x;
      var j :| 0 <= j < CLASSES && heads[j] == y;
    }
  }

  lemma NewClasses(m: Memory, heads: seq<Addr>, fixed: set<Addr>, os: map<Addr, nat>)
    ensures Classes(NewHeap(m, heads, fixed, os))
  {
    hide SlabInv;
    forall i | 0 <= i < CLASSES ensures SlabInv(i, NoSlabs()[i]) {
      NoSlabInv(i);
    }
  }

  /** Nothing is held, counted or listed in a new heap. */
  lemma NewTables(m: Memory, heads: seq<Addr>, fixed: set<Addr>, os: map<Addr, nat>)
    requires |heads| == CLASSES && MappedBytesOf(m.Keys, fixed, heads, os)
    ensures var h := NewHeap(m, heads, fixed, os);
            && Owned(h) && Outstanding(h) && Lists(h) && Headers(h) && Accounts(h) && Regions(h) && Tripwires(h)
            && MappedBytes(h) && Users(h)
  {
    hide MappedBytesOf;
    var h := NewHeap(m, heads, fixed, os);
    assert Sum(h.acc) == 0 && Sum(h.regs) == 0;
  }

  lemma SentinelsApart(h: Heap)
    requires HeapInv(h)
    ensures SentinelSpace(h.mem, h.heads)
  {
    hide Classes, Owned, Outstanding, Lists, Headers, Accounts, Regions, Tripwires, MappedBytes, Users;
    forall i | 0 <= i < CLASSES
      ensures 0 < h.heads[i] && h.heads[i] + LINK <= WORDS && Mapped(h.mem, h.heads[i], LINK)
    {
      assert h.heads[i] in h.ext && h.ext[h.heads[i]] == LINK;
    }
    forall i, j | 0 <= i < j < CLASSES ensures Apart(h.heads[i], LINK, h.heads[j], LINK) {
      assert Apart(h.heads[i], h.ext[h.heads[i]], h.heads[j], h.ext[h.heads[j]]);
    }
  }

  lemma AbandonInv(h: Heap)
    requires HeapInv(h)
    ensures HeapInv(Abandoned(h))
  {
    SentinelsApart(h);
    NewHeapInv(h.mem, h.heads, h.fixed, h.os);
  }

  // ----- Where blocks lie -----

  /** The region of the OS that a held block belongs to. */
  ghost function RegionOf(h: Heap, b: Addr): Addr {
    if HeldClass(h.live, h.hands, b) >= 0 then PageOf(b) else b
  }

  /** Every held block lies in a region of the OS that no reset has abandoned: a slab block inside one
      page of its class, a large block as the whole region. */
  lemma BlockInRegion(h: Heap, b: Addr)
    requires Ownership(h) && Held(h, b)
    ensures var p := RegionOf(h, b);
            && p in h.os && p !in h.abandoned && b in h.ext && p <= b && b + h.ext[b] <= p + h.os[p]
            && b % HEADER == 0
    ensures var c := HeldClass(h.live, h.hands, b);
            if c >= 0 then c < CLASSES && RegionOf(h, b) in h.slabs[c].pages && h.os[RegionOf(h, b)] == PAGE
            else c == -1 && RegionOf(h, b) == b && h.os[b] == h.ext[b]
  {
    HeldExtent(h, b);
    var i := HeldClass(h.live, h.hands, b);
    if i >= 0 {
      SlabBlockInPage(h, i, b);
    } else {
      LargeAligned(h, b);
    }
  }

  lemma LargeAligned(h: Heap, b: Addr)
    requires Layout(h) && b in h.os
    ensures b % HEADER == 0
  {
    assert b % PAGE == 0;
  }

  lemma SlabBlockInPage(h: Heap, i: int, b: Addr)
    requires Classes(h) && 0 <= i < CLASSES && b in h.slabs[i].out
    ensures PageOf(b) in h.os && h.os[PageOf(b)] == PAGE && PageOf(b) !in h.abandoned
    ensures PageOf(b) in h.slabs[i].pages
    ensures PageOf(b) <= b && b + BlockSize(i) <= PageOf(b) + PAGE && b % HEADER == 0
  {
    SlabBlock(h, i, b);
    BlockInPage(i, b);
    assert Grid(i, h.slabs[i], h.ext, h.os, h.abandoned);
  }

  /** No held block shares a byte with a region that was mapped before the last reset. */
  lemma BlockAvoidsAbandoned(h: Heap, b: Addr, p: Addr)
    requires Ownership(h) && Held(h, b) && p in h.abandoned
    ensures b in h.ext && p in h.os && Apart(b, h.ext[b], p, h.os[p])
  {
    BlockInRegion(h, b);
    var q := RegionOf(h, b);
    assert Apart(q, h.os[q], p, h.os[p]);
  }

  /** A block held in any later state h of an epoch that began with state h0 shares no byte with a region
      mapped before that epoch: all slab pages claimed before the reset among them. */
  lemma EpochApart(h0: Heap, h: Heap, b: Addr, q: Addr)
    requires KeepsAbandoned(h0, h) && Ownership(h) && Held(h, b) && q in h0.abandoned && q in h0.os
    ensures b in h.ext && Apart(b, h.ext[b], q, h0.os[q])
  {
    BlockAvoidsAbandoned(h, b, q);
  }

  /** A large block shares no byte with a slab page of any class. */
  lemma LargeAvoidsPages(h: Heap, b: Addr, i: int, p: Addr)
    requires Ownership(h) && Held(h, b) && HeldClass(h.live, h.hands, b) == -1
    requires 0 <= i < CLASSES && p in h.slabs[i].pages
    ensures b in h.ext && Apart(b, h.ext[b], p, PAGE)
  {
    HeldExtent(h, b);
    assert Grid(i, h.slabs[i], h.ext, h.os, h.abandoned);
    LargeIsNoPage(h, b, i, 0);
    assert Apart(b, h.os[b], p, h.os[p]);
  }

  /** The extents of two different blocks, held or free, share no byte. */
  lemma BlocksDisjoint(h: Heap, x: Addr, y: Addr)
    requires Layout(h) && x in h.ext && y in h.ext && x != y
    ensures Apart(x, h.ext[x], y, h.ext[y])
  {
  }
}

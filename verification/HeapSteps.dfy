/** The elementary steps every operation of the allocator is made of. Each keeps the heap invariant
    and is quiet about everything but its own block and class. */
module HeapSteps {
  import opened Bytes
  import opened Sizes
  import opened PsList
  import opened Slabs
  import opened Extents
  import opened Heaps

  // ----- Keeping lists and live headers -----

  ghost predicate OffRings(h: Heap, z: set<Addr>)
    requires |h.heads| == |h.slabs| == CLASSES
  {
    forall i, x :: 0 <= i < CLASSES && x in z ==> !RingCell(h, i, x)
  }

  lemma HeldOffRings(h: Heap, b: Addr)
    requires Ownership(h) && Held(h, b)
    ensures OffRings(h, {b})
  {
    forall i | 0 <= i < CLASSES ensures !RingCell(h, i, b) {
      if RingCell(h, i, b) {
        RingExtent(h, i, b);
      }
    }
  }

  lemma KeepLists(h: Heap, m': Memory, z: set<Addr>)
    requires Ownership(h) && Lists(h) && KeepsOthers(h, m', z) && OffRings(h, z)
    ensures Lists(h.(mem := m'))
  {
    forall i | 0 <= i < h.ready ensures IsList(m', h.heads[i], h.slabs[i].free) {
      FrameList(h, m', z, i);
    }
  }

  lemma KeepHeaders(h: Heap, m': Memory, z: set<Addr>)
    requires Layout(h) && Owned(h) && Headers(h) && KeepsOthers(h, m', z)
    requires forall b :: b in z ==> b !in h.live
    ensures HeadersOf(m', h.live)
  {
    forall b | b in h.live ensures HasHeader(m', b, h.live[b]) {
      FrameHeader(h, m', z, b, h.live[b]);
    }
  }

  lemma KeepLayout(h: Heap, m': Memory)
    requires Layout(h) && m'.Keys >= h.mem.Keys
    ensures Layout(h.(mem := m'))
  {
    FrameMapped(h.mem, m', h.ext);
    FrameMapped(h.mem, m', h.os);
  }

  /** A write inside a held block keeps the layout and every list. */
  lemma HeldWrite(h: Heap, b: Addr, m': Memory)
    requires Ownership(h) && Lists(h) && Tripwires(h) && Held(h, b)
    requires b in h.ext && WritesIn(h.mem, m', b, h.ext[b])
    ensures Layout(h.(mem := m')) && Lists(h.(mem := m')) && Tripwires(h.(mem := m'))
    ensures KeepsOthers(h, m', {b}) && Quiet(h, h.(mem := m'), b, -1)
  {
    WriteKeeps(h, m', b);
    HeldOffRings(h, b);
    KeepLayout(h, m');
    KeepLists(h, m', {b});
    FrameTrips(h, m', {b});
  }

  // ----- Writes to a held block -----

  /** Any write inside a block in hands: header words, the tripwire, memcpy and memset. */
  lemma HandWrite(h: Heap, b: Addr, m': Memory)
    requires HeapInv(h) && b in h.hands && b in h.ext && WritesIn(h.mem, m', b, h.ext[b])
    ensures HeapInv(h.(mem := m')) && Quiet(h, h.(mem := m'), b, -1)
  {
    HeldWrite(h, b, m');
    KeepHeaders(h, m', {b});
  }

  /** A client writing to the payload of its live block. */
  lemma ClientWrite(h: Heap, b: Addr, m': Memory)
    requires HeapInv(h) && b in h.live && WritesIn(h.mem, m', b + HEADER, h.live[b].size)
    ensures HeapInv(h.(mem := m')) && Quiet(h, h.(mem := m'), b, -1)
  {
    HeldWrite(h, b, m');
    forall x | x in h.live ensures HasHeader(m', x, h.live[x]) {
      if x == b {
        WordSame(h.mem, m', b);
        WordSame(h.mem, m', b + 8);
      } else {
        FrameHeader(h, m', {b}, x, h.live[x]);
      }
    }
  }

  /** The header of a live slab block rewritten for a size of the same class. */
  function Resized(h: Heap, b: Addr, size: nat, m': Memory): Heap
    requires b in h.live
  {
    h.(mem := m', live := h.live[b := Alloc(size, h.live[b].mapped)])
  }

  lemma ResizeStep(h: Heap, b: Addr, size: nat)
    requires HeapInv(h) && b in h.live && b in h.ext && 0 < size && size + HEADER <= h.ext[b] <= WORDS
    requires ClassOf(size) == ClassOf(h.live[b].size) >= 0
    requires Mapped(h.mem, b, 8)
    ensures var h' := Resized(h, b, size, Store(h.mem, b, size));
            HeapInv(h') && Quiet(h, h', b, -1)
  {
    hide LayoutOf, SentinelsOf, ClassesOf, OutstandingOf, ListsOf, HeadersOf, SizesOf, RegionsOf, TripwiresOf;
    hide MappedBytesOf, UsersOf;
    var m' := Store(h.mem, b, size);
    HeldWrite(h, b, m');
    ResizeHeaders(h, b, size);
    ResizeUsers(h, b, size, m');
    SameHeld(h, Resized(h, b, size, m'));
    ResizeOwned(h, b, size, m');
    ResizeQuiet(h, b, size, m');
  }

  lemma ResizeOwned(h: Heap, b: Addr, size: nat, m': Memory)
    requires Owned(h) && Accounts(h) && b in h.live && 0 < size && size + HEADER <= h.ext[b]
    requires size <= SIZE_MAX && h.live[b].size <= SIZE_MAX && ClassOf(size) == ClassOf(h.live[b].size) >= 0
    ensures Owned(Resized(h, b, size, m')) && Accounts(Resized(h, b, size, m'))
  {
  }

  lemma ResizeUsers(h: Heap, b: Addr, size: nat, m': Memory)
    requires Users(h) && b in h.live
    ensures Users(Resized(h, b, size, m'))
  {
  }

  lemma ResizeQuiet(h: Heap, b: Addr, size: nat, m': Memory)
    requires b in h.live && Quiet(h, h.(mem := m'), b, -1)
    ensures Quiet(h, Resized(h, b, size, m'), b, -1)
  {
  }

  lemma ResizeHeaders(h: Heap, b: Addr, size: nat)
    requires Layout(h) && Owned(h) && Headers(h) && b in h.live && size < WORDS
    requires Mapped(h.mem, b, 8) && KeepsOthers(h, Store(h.mem, b, size), {b})
    ensures HeadersOf(Store(h.mem, b, size), h.live[b := Alloc(size, h.live[b].mapped)])
  {
    var m', live' := Store(h.mem, b, size), h.live[b := Alloc(size, h.live[b].mapped)];
    forall x | x in live' ensures HasHeader(m', x, live'[x]) {
      if x == b {
        assert HasHeader(h.mem, b, h.live[b]);
      } else {
        FrameHeader(h, m', {b}, x, h.live[x]);
      }
    }
  }

  /** If every address keeps its class the outstanding blocks are the same. */
  lemma SameHeld(h: Heap, h': Heap)
    requires Outstanding(h) && h'.slabs == h.slabs
    requires forall x :: HeldClass(h'.live, h'.hands, x) == HeldClass(h.live, h.hands, x)
    ensures Outstanding(h')
  {
  }

  // ----- Changing hands -----

  /** A block in hands becomes live. */
  function Published(h: Heap, b: Addr, a: Alloc): Heap {
    h.(live := h.live[b := a], hands := h.hands - {b})
  }

  lemma PublishStep(h: Heap, b: Addr, a: Alloc)
    requires HeapInv(h) && b in h.hands && a.size <= SIZE_MAX && ClassOf(a.size) == h.hands[b].cls
    requires b in h.ext && 0 < a.size && a.size + HEADER <= h.ext[b] && HasHeader(h.mem, b, a)
    requires a.mapped == if h.hands[b].cls == -1 then h.ext[b] else 0
    requires h.hands[b].cls == -1 ==> Tight(a.size, a.mapped)
    ensures HeapInv(Published(h, b, a)) && Quiet(h, Published(h, b, a), b, -1)
  {
    PublishOwned(h, b, a);
    PublishQuiet(h, b, a);
  }

  lemma PublishQuiet(h: Heap, b: Addr, a: Alloc)
    requires b in h.hands && forall x :: x in h.ext ==> Mapped(h.mem, x, h.ext[x])
    ensures Quiet(h, Published(h, b, a), b, -1)
  {
  }

  lemma PublishOwned(h: Heap, b: Addr, a: Alloc)
    requires Owned(h) && Headers(h) && Outstanding(h) && Accounts(h)
    requires b in h.hands && a.size <= SIZE_MAX && ClassOf(a.size) == h.hands[b].cls
    requires HasHeader(h.mem, b, a) && LiveBlock(b, a, h.ext, h.os, h.abandoned)
    ensures var h' := Published(h, b, a); Owned(h') && Headers(h') && Outstanding(h') && Accounts(h')
  {
    SameHeld(h, Published(h, b, a));
  }

  /** A live block comes into the hands of a call. */
  function Retired(h: Heap, b: Addr, t: int): Heap
    requires b in h.live && h.live[b].size <= SIZE_MAX
  {
    h.(live := h.live - {b}, hands := h.hands[b := Hand(ClassOf(h.live[b].size), t)])
  }

  lemma RetireStep(h: Heap, b: Addr, t: int)
    requires HeapInv(h) && b in h.live
    ensures HeapInv(Retired(h, b, t)) && Quiet(h, Retired(h, b, t), b, -1)
  {
    hide SentinelsOf, ClassesOf, OutstandingOf, ListsOf, HeadersOf, TripwiresOf, SizesOf, RegionsOf, UsersOf;
    hide MappedBytesOf, Quiet;
    assert LiveBlock(b, h.live[b], h.ext, h.os, h.abandoned);
    SameHeld(h, Retired(h, b, t));
    RetireOwned(h, b, t);
    RetireUsers(h, b, t);
    RetireQuiet(h, b, t);
  }

  lemma RetireUsers(h: Heap, b: Addr, t: int)
    requires Owned(h) && Users(h) && b in h.live && h.live[b].size <= SIZE_MAX
    ensures Users(Retired(h, b, t))
  {
    assert LiveBlock(b, h.live[b], h.ext, h.os, h.abandoned);
  }

  lemma RetireQuiet(h: Heap, b: Addr, t: int)
    requires b in h.live && h.live[b].size <= SIZE_MAX && InMemory(h.mem, h.ext)
    ensures Quiet(h, Retired(h, b, t), b, -1)
  {
  }

  lemma RetireOwned(h: Heap, b: Addr, t: int)
    requires Owned(h) && Headers(h) && Accounts(h) && b in h.live && h.live[b].size <= SIZE_MAX
    ensures var h' := Retired(h, b, t); Owned(h') && Headers(h') && Accounts(h')
  {
  }

  // ----- Counters, modulo the word size -----

  function AddWord(v: nat, n: nat): nat { (v + n) % WORDS }

  function SubWord(v: nat, n: nat): nat { (v - n) % WORDS }

  /** atomic_fetch_add(&allocated, n) for block b. */
  function Counted(h: Heap, b: Addr, n: nat): Heap {
    h.(acc := h.acc[b := n], used := AddWord(h.used, n))
  }

  /** atomic_fetch_sub(&allocated, n) for block b. */
  function Uncounted(h: Heap, b: Addr, n: nat): Heap {
    h.(acc := h.acc - {b}, used := SubWord(h.used, n))
  }

  lemma AccFits(h: Heap, acc: map<Addr, nat>)
    requires Layout(h) && forall b :: b in acc ==> b in h.ext && acc[b] + HEADER <= h.ext[b]
    ensures Sum(acc) < WORDS
  {
    forall x, y | x in acc && y in acc && x != y ensures Apart(x, acc[x], y, acc[y]) {
      assert Apart(x, h.ext[x], y, h.ext[y]);
    }
    SumFits(acc, 1, WORDS);
  }

  lemma RegsFit(h: Heap, regs: map<Addr, nat>)
    requires Layout(h) && forall p :: p in regs ==> p in h.os && h.os[p] == regs[p]
    ensures Sum(regs) < WORDS
  {
    SumFits(regs, 1, WORDS);
  }

  lemma AddExact(v: nat, n: nat)
    requires v + n < WORDS
    ensures AddWord(v, n) == v + n
  {
  }

  lemma SubExact(v: nat, n: nat)
    requires n <= v < WORDS
    ensures SubWord(v, n) == v - n
  {
  }

  lemma CountSum(h: Heap, b: Addr, n: nat)
    requires Layout(h) && Accounts(h) && Held(h, b) && b !in h.acc && b in h.ext && n + HEADER <= h.ext[b]
    ensures Accounts(Counted(h, b, n)) && h.used + n < WORDS && AddWord(h.used, n) == h.used + n
  {
    hide AddWord, InMemory, Disjoint, Sum;
    SumInsert(h.acc, b, n);
    AccFits(h, h.acc[b := n]);
    AddExact(h.used, n);
  }

  /** The add does not wrap: the counter is the exact sum, because the blocks counted are disjoint. */
  lemma CountStep(h: Heap, b: Addr, n: nat)
    requires HeapInv(h) && Held(h, b) && b !in h.acc && b in h.ext && n + HEADER <= h.ext[b]
    ensures HeapInv(Counted(h, b, n)) && Quiet(h, Counted(h, b, n), b, -1)
    ensures h.used + n < WORDS && Counted(h, b, n).used == h.used + n
  {
    hide SentinelsOf, ClassesOf, OwnedOf, OutstandingOf, ListsOf, HeadersOf, TripwiresOf, RegionsOf, Sum;
    hide MappedBytesOf, UsersOf;
    CountSum(h, b, n);
  }

  lemma UncountSum(h: Heap, b: Addr)
    requires Layout(h) && Accounts(h) && b in h.acc
    ensures Accounts(Uncounted(h, b, h.acc[b]))
    ensures h.acc[b] <= h.used && SubWord(h.used, h.acc[b]) == h.used - h.acc[b]
  {
    hide SubWord, InMemory, Disjoint, Sum;
    SumRemove(h.acc, b);
    AccFits(h, h.acc);
    SubExact(h.used, h.acc[b]);
  }

  /** The subtraction does not underflow. */
  lemma UncountStep(h: Heap, b: Addr)
    requires HeapInv(h) && b in h.acc
    ensures HeapInv(Uncounted(h, b, h.acc[b])) && Quiet(h, Uncounted(h, b, h.acc[b]), b, -1)
    ensures h.acc[b] <= h.used && Uncounted(h, b, h.acc[b]).used == h.used - h.acc[b]
  {
    hide SentinelsOf, ClassesOf, OwnedOf, OutstandingOf, ListsOf, HeadersOf, TripwiresOf, RegionsOf, Sum;
    hide MappedBytesOf, UsersOf;
    UncountSum(h, b);
  }

  /** atomic_fetch_add(&totmem, os[p]) for region p. */
  function RegionCounted(h: Heap, p: Addr, n: nat): Heap {
    h.(regs := h.regs[p := n], total := AddWord(h.total, n))
  }

  function RegionUncounted(h: Heap, p: Addr, n: nat): Heap {
    h.(regs := h.regs - {p}, total := SubWord(h.total, n))
  }

  /** The region of a large block counted. */
  lemma CountRegionStep(h: Heap, p: Addr)
    requires HeapInv(h) && LargeExtent(h, p) && p in h.os && p !in h.regs
    ensures HeapInv(RegionCounted(h, p, h.os[p])) && Quiet(h, RegionCounted(h, p, h.os[p]), p, -1)
    ensures h.total + h.os[p] < WORDS && RegionCounted(h, p, h.os[p]).total == h.total + h.os[p]
  {
    hide SentinelsOf, ClassesOf, OwnedOf, OutstandingOf, ListsOf, HeadersOf, TripwiresOf, SizesOf, Sum;
    hide MappedBytesOf, UsersOf;
    CountRegionSum(h, p);
  }

  /** A page of class i counted. */
  lemma CountPageStep(h: Heap, i: int, p: Addr)
    requires HeapInv(h) && 0 <= i < CLASSES && p in h.slabs[i].pages && p !in h.regs
    ensures p in h.os && h.os[p] == PAGE
    ensures HeapInv(RegionCounted(h, p, PAGE)) && Quiet(h, RegionCounted(h, p, PAGE), 0, i)
    ensures h.total + PAGE < WORDS && RegionCounted(h, p, PAGE).total == h.total + PAGE
  {
    hide SentinelsOf, OwnedOf, OutstandingOf, ListsOf, HeadersOf, TripwiresOf, SizesOf, Sum;
    hide MappedBytesOf, UsersOf, Quiet;
    PageRegion(h, i, p);
    CountRegionSum(h, p);
    CountPageQuiet(h, i, p);
  }

  lemma CountPageQuiet(h: Heap, i: int, p: Addr)
    requires Layout(h) && 0 <= i < |h.slabs| && p in h.slabs[i].pages
    ensures Quiet(h, RegionCounted(h, p, PAGE), 0, i)
  {
    hide Disjoint;
  }

  lemma PageRegion(h: Heap, i: int, p: Addr)
    requires Classes(h) && 0 <= i < CLASSES && p in h.slabs[i].pages
    ensures p in h.os && h.os[p] == PAGE
  {
    assert Grid(i, h.slabs[i], h.ext, h.os, h.abandoned);
  }

  lemma CountRegionSum(h: Heap, p: Addr)
    requires Layout(h) && Regions(h) && p in h.os && p !in h.regs
    ensures Regions(RegionCounted(h, p, h.os[p]))
    ensures h.total + h.os[p] < WORDS && AddWord(h.total, h.os[p]) == h.total + h.os[p]
  {
    hide AddWord, InMemory, Disjoint, Sum;
    SumInsert(h.regs, p, h.os[p]);
    RegsFit(h, h.regs[p := h.os[p]]);
    AddExact(h.total, h.os[p]);
  }

  lemma UncountRegionStep(h: Heap, p: Addr)
    requires HeapInv(h) && p in h.regs && LargeExtent(h, p)
    ensures var h' := RegionUncounted(h, p, h.regs[p]);
            HeapInv(h') && Quiet(h, h', p, -1) && h.regs[p] <= h.total && h'.total == h.total - h.regs[p]
  {
    hide SentinelsOf, ClassesOf, OwnedOf, OutstandingOf, ListsOf, HeadersOf, TripwiresOf, SizesOf, Sum;
    hide MappedBytesOf, UsersOf;
    UncountRegionSum(h, p);
  }

  lemma UncountRegionSum(h: Heap, p: Addr)
    requires Layout(h) && Regions(h) && p in h.regs
    ensures Regions(RegionUncounted(h, p, h.regs[p]))
    ensures h.regs[p] <= h.total && SubWord(h.total, h.regs[p]) == h.total - h.regs[p]
  {
    hide SubWord, InMemory, Disjoint, Sum;
    SumRemove(h.regs, p);
    RegsFit(h, h.regs);
    SubExact(h.total, h.regs[p]);
  }

  // ----- Free-list steps of one class -----

  function WithSlab(h: Heap, i: int, s: Slab): Heap
    requires 0 <= i < |h.slabs|
  {
    h.(slabs := h.slabs[i := s])
  }

  /** A splice among cells of class i and a cell n that no other list uses. */
  ghost predicate SpliceOf(h: Heap, i: int, m': Memory, x: Addr, y: Addr, n: Addr)
    requires 0 <= i < CLASSES == |h.heads| == |h.slabs|
  {
    && ChangedIn(h.mem, m', x, y, n) && RingCell(h, i, x) && RingCell(h, i, y)
    && n in h.ext && forall j :: 0 <= j < CLASSES && j != i ==> !RingCell(h, j, n)
  }

  lemma SpliceOthers(h: Heap, i: int, m': Memory, x: Addr, y: Addr, n: Addr)
    requires Ownership(h) && 0 <= i < CLASSES && SpliceOf(h, i, m', x, y, n)
    ensures KeepsOthers(h, m', {x, y, n}) && !Held(h, x) && !Held(h, y)
  {
    RingExtent(h, i, x);
    RingExtent(h, i, y);
    SpliceKeeps(h, m', x, y, n);
  }

  lemma SpliceFrame(h: Heap, i: int, m': Memory, x: Addr, y: Addr, n: Addr, j: int)
    requires Ownership(h) && Lists(h) && 0 <= i < CLASSES && SpliceOf(h, i, m', x, y, n)
    requires 0 <= j < h.ready && j != i
    ensures IsList(m', h.heads[j], h.slabs[j].free)
  {
    SpliceOthers(h, i, m', x, y, n);
    forall z | z in {x, y, n} ensures !RingCell(h, j, z) {
      if RingCell(h, j, z) {
        RingsApart(h, i, j, z);
      }
    }
    FrameList(h, m', {x, y, n}, j);
  }

  /** A list operation on class i: the new list is well-formed, the others are the same lists. */
  lemma SpliceLists(h: Heap, i: int, m': Memory, x: Addr, y: Addr, n: Addr, s': Slab)
    requires Ownership(h) && Lists(h) && 0 <= i < h.ready && SpliceOf(h, i, m', x, y, n)
    requires IsList(m', h.heads[i], s'.free)
    ensures ListsOf(m', h.heads, h.ready, h.slabs[i := s'])
  {
    forall j | 0 <= j < h.ready && j != i ensures IsList(m', h.heads[j], h.slabs[j].free) {
      SpliceFrame(h, i, m', x, y, n, j);
    }
  }

  /** An extent that is no cell of ring i shares no byte with its cells. */
  lemma OffRingOf(h: Heap, i: int, n: Addr)
    requires Ownership(h) && 0 <= i < CLASSES && n in h.ext && !RingCell(h, i, n)
    ensures OffRing(h.heads[i], h.slabs[i].free, n, LINK)
  {
    var s := h.slabs[i].free;
    assert RingCell(h, i, h.heads[i]);
    assert Apart(h.heads[i], h.ext[h.heads[i]], n, h.ext[n]);
    forall k | 0 <= k < |s| ensures Apart(s[k], LINK, n, LINK) {
      assert RingCell(h, i, s[k]);
      RingExtent(h, i, s[k]);
      assert Apart(s[k], h.ext[s[k]], n, h.ext[n]);
    }
  }

  lemma ReplaceSlab(h: Heap, i: int, s': Slab)
    requires Classes(h) && 0 <= i < CLASSES == h.ready && SlabInv(i, s') && s'.pages == h.slabs[i].pages
    ensures Classes(WithSlab(h, i, s'))
  {
    assert Grid(i, h.slabs[i], h.ext, h.os, h.abandoned);
  }

  /** Removal of the first free block by ps_list_rem. */
  function Popped(h: Heap, i: int, t: int, m': Memory): Heap
    requires 0 <= i < |h.slabs| && h.slabs[i].free != []
  {
    var s := h.slabs[i];
    h.(mem := m', slabs := h.slabs[i := Pop(s)], hands := h.hands[s.free[0] := Hand(i, t)])
  }

  /** The list of class i as the code sees it: empty test, first cell, and room to unlink it. */
  lemma ListView(h: Heap, i: int)
    requires Lists(h) && 0 <= i < CLASSES == h.ready
    ensures Cell(h.mem, h.heads[i])
    ensures Next(h.mem, h.heads[i]) == h.heads[i] <==> h.slabs[i].free == []
    ensures var f := h.slabs[i].free;
            f != [] ==> Next(h.mem, h.heads[i]) == f[0] && Removable(h.mem, f[0])
  {
    EmptyTest(h.mem, h.heads[i], h.slabs[i].free);
    if h.slabs[i].free != [] {
      RemoveAllowed(h.mem, h.heads[i], h.slabs[i].free, 0);
    }
  }

  lemma PopMemory(h: Heap, i: int, m': Memory)
    requires Ownership(h) && Lists(h) && Headers(h) && Tripwires(h) && 0 <= i < CLASSES == h.ready
    requires h.slabs[i].free != [] && Unlinked(h.mem, m', h.slabs[i].free[0])
    ensures LayoutOf(m', h.ext, h.os, h.abandoned) && HeadersOf(m', h.live) && TripwiresOf(m', h.slabs)
    ensures ListsOf(m', h.heads, h.ready, h.slabs[i := Pop(h.slabs[i])])
    ensures forall x :: Held(h, x) && x in h.ext ==> Same(h.mem, m', x, h.ext[x])
  {
    var s, head := h.slabs[i], h.heads[i];
    var f := s.free;
    RemoveDeletes(h.mem, m', head, f, 0);
    var y := At(head, f, 2);
    assert Removed(f, 0) == Pop(s).free;
    assert RingCell(h, i, f[0]) && RingCell(h, i, y);
    RingCellAlone(h, i, f[0]);
    SpliceStep(h, i, m', head, y, f[0], Pop(s));
  }

  lemma RingCellAlone(h: Heap, i: int, n: Addr)
    requires Ownership(h) && 0 <= i < CLASSES && RingCell(h, i, n)
    ensures n in h.ext && !Held(h, n)
    ensures forall j :: 0 <= j < CLASSES && j != i ==> !RingCell(h, j, n)
  {
    RingExtent(h, i, n);
    forall j | 0 <= j < CLASSES && j != i ensures !RingCell(h, j, n) {
      if RingCell(h, j, n) {
        RingsApart(h, i, j, n);
      }
    }
  }

  /** The zeroed words of all freed blocks survive a splice. */
  lemma SpliceTrips(h: Heap, i: int, m': Memory, x: Addr, y: Addr, n: Addr)
    requires Ownership(h) && Tripwires(h) && 0 <= i < CLASSES && SpliceOf(h, i, m', x, y, n)
    ensures TripwiresOf(m', h.slabs)
  {
    RingExtent(h, i, x);
    RingExtent(h, i, y);
    forall j, k | 0 <= j < CLASSES && 0 <= k < |h.slabs[j].free|
                  && !(h.slabs[j].na <= k < h.slabs[j].na + h.slabs[j].nd)
      ensures TripWord(m', h.slabs[j].free[k])
    {
      assert TripsOf(h.mem, h.slabs[j].free, h.slabs[j].na, h.slabs[j].nd);
      SlabBlock(h, j, h.slabs[j].free[k]);
      SpliceTrip(h, m', x, y, n, h.slabs[j].free[k]);
    }
  }

  /** What every list operation keeps: layout, lists, headers and the bytes of held blocks. */
  lemma SpliceStep(h: Heap, i: int, m': Memory, x: Addr, y: Addr, n: Addr, s': Slab)
    requires Ownership(h) && Lists(h) && Headers(h) && Tripwires(h) && 0 <= i < h.ready
    requires ChangedIn(h.mem, m', x, y, n) && RingCell(h, i, x) && RingCell(h, i, y)
    requires n in h.ext && n !in h.live && forall j :: 0 <= j < CLASSES && j != i ==> !RingCell(h, j, n)
    requires IsList(m', h.heads[i], s'.free)
    ensures LayoutOf(m', h.ext, h.os, h.abandoned) && HeadersOf(m', h.live) && TripwiresOf(m', h.slabs)
    ensures ListsOf(m', h.heads, h.ready, h.slabs[i := s'])
    ensures forall z :: z != n && Held(h, z) && z in h.ext ==> Same(h.mem, m', z, h.ext[z])
  {
    hide LayoutOf, SentinelsOf, ClassesOf, OwnedOf, OutstandingOf, HeadersOf, TripwiresOf, IsList;
    assert SpliceOf(h, i, m', x, y, n);
    SpliceOthers(h, i, m', x, y, n);
    SpliceLists(h, i, m', x, y, n, s');
    SpliceTrips(h, i, m', x, y, n);
    KeepLayout(h, m');
    KeepHeaders(h, m', {x, y, n});
  }

  lemma PopOwned(h: Heap, i: int, t: int, m': Memory)
    requires Owned(h) && Accounts(h) && 0 <= i < CLASSES == |h.slabs|
    requires h.slabs[i].free != [] && h.slabs[i].free[0] in h.ext && !Held(h, h.slabs[i].free[0])
    ensures Owned(Popped(h, i, t, m')) && Accounts(Popped(h, i, t, m'))
  {
  }

  lemma PopOutstanding(h: Heap, i: int, t: int, m': Memory)
    requires Outstanding(h) && 0 <= i < CLASSES
    requires h.slabs[i].free != [] && !Held(h, h.slabs[i].free[0])
    ensures Outstanding(Popped(h, i, t, m'))
  {
    var h', b := Popped(h, i, t, m'), h.slabs[i].free[0];
    forall j, x | 0 <= j < CLASSES
      ensures x in h'.slabs[j].out <==> HeldClass(h'.live, h'.hands, x) == j
    {
      assert x in h.slabs[j].out <==> HeldClass(h.live, h.hands, x) == j;
      assert x in h'.slabs[j].out <==> x in h.slabs[j].out || (x == b && j == i);
    }
  }

  lemma PopQuiet(h: Heap, i: int, t: int, m': Memory)
    requires 0 <= i < |h.slabs| && h.slabs[i].free != [] && !Held(h, h.slabs[i].free[0])
    requires forall x :: Held(h, x) && x in h.ext ==> Same(h.mem, m', x, h.ext[x])
    ensures Quiet(h, Popped(h, i, t, m'), h.slabs[i].free[0], i)
  {
  }

  lemma PopTrips(h: Heap, i: int, t: int, m': Memory)
    requires 0 <= i < |h.slabs| && h.slabs[i].free != [] && TripwiresOf(m', h.slabs)
    requires h.slabs[i].nd == 0 ==> h.slabs[i].na == 0
    ensures Tripwires(Popped(h, i, t, m'))
  {
    assert forall k :: 0 <= k < |h.slabs[i].free| - 1 ==> Pop(h.slabs[i]).free[k] == h.slabs[i].free[k + 1];
  }

  lemma PageStays(slabs: seq<Slab>, i: int, s': Slab, p: Addr)
    requires 0 <= i < |slabs| && slabs[i].pages <= s'.pages && IsPage(slabs, p)
    ensures IsPage(slabs[i := s'], p)
  {
    var j :| 0 <= j < |slabs| && p in slabs[j].pages;
    assert p in slabs[i := s'][j].pages;
  }

  lemma PopUsers(h: Heap, i: int, t: int, m': Memory)
    requires Users(h) && 0 <= i < |h.slabs| && h.slabs[i].free != [] && !Held(h, h.slabs[i].free[0])
    ensures Users(Popped(h, i, t, m'))
  {
    hide IsPage;
    forall p | IsPage(h.slabs, p) ensures IsPage(Popped(h, i, t, m').slabs, p) {
      PageStays(h.slabs, i, Pop(h.slabs[i]), p);
    }
  }

  lemma PutUsers(h: Heap, i: int, b: Addr, m': Memory)
    requires Users(h) && 0 <= i < |h.slabs| && b in h.hands && h.hands[b].cls == i
    ensures Users(PutBack(h, i, b, m'))
  {
    hide IsPage;
    forall p | IsPage(h.slabs, p) ensures IsPage(PutBack(h, i, b, m').slabs, p) {
      PageStays(h.slabs, i, Put(h.slabs[i], b), p);
    }
  }

  lemma CarveUsers(h: Heap, i: int, m': Memory)
    requires Users(h) && 0 <= i < CLASSES == |h.slabs|
    ensures Users(CarvedHeap(h, i, m'))
  {
    hide IsPage;
    forall p | IsPage(h.slabs, p) ensures IsPage(CarvedHeap(h, i, m').slabs, p) {
      PageStays(h.slabs, i, CarveOne(i, h.slabs[i]), p);
    }
  }

  /** Popping moves the first free block into the hands of call t. */
  lemma PopStep(h: Heap, i: int, t: int, m': Memory)
    requires HeapInv(h) && 0 <= i < CLASSES == h.ready
    requires h.slabs[i].free != [] && Uncarved(h.slabs[i]) == 0 && Unlinked(h.mem, m', h.slabs[i].free[0])
    ensures var b := h.slabs[i].free[0];
            && !Held(h, b) && b in h.ext && h.ext[b] == BlockSize(i)
            && var h' := Popped(h, i, t, m'); HeapInv(h') && Quiet(h, h', b, i)
  {
    var b := h.slabs[i].free[0];
    PopMemory(h, i, m');
    RingCellAlone(h, i, b);
    SlabBlock(h, i, b);
    PopInv(i, h.slabs[i]);
    ReplaceSlab(h, i, Pop(h.slabs[i]));
    PopTrips(h, i, t, m');
    PopUsers(h, i, t, m');
    PopOwned(h, i, t, m');
    PopOutstanding(h, i, t, m');
    PopQuiet(h, i, t, m');
  }

  /** Insertion of a block in hands by p2orderedinsert. */
  function PutBack(h: Heap, i: int, b: Addr, m': Memory): Heap
    requires 0 <= i < |h.slabs|
  {
    h.(mem := m', slabs := h.slabs[i := Put(h.slabs[i], b)], hands := h.hands - {b})
  }

  /** The cell p2orderedinsert links the block in after. */
  function InsertAfter(h: Heap, i: int, b: Addr): Addr
    requires 0 <= i < |h.slabs| && i < |h.heads|
  {
    At(h.heads[i], h.slabs[i].free, InsertPos(h.slabs[i].free, b))
  }

  /** A held block is no cell of any ring and its own class is the only one it can join. */
  lemma HeldAlone(h: Heap, b: Addr)
    requires Ownership(h) && Held(h, b)
    ensures b in h.ext && forall j :: 0 <= j < CLASSES ==> !RingCell(h, j, b)
  {
    HeldExtent(h, b);
    HeldOffRings(h, b);
  }

  lemma PutAllowed(h: Heap, i: int, b: Addr)
    requires Ownership(h) && Lists(h) && 0 <= i < CLASSES == h.ready && Held(h, b)
    ensures Cell(h.mem, b) && OffRing(h.heads[i], h.slabs[i].free, b, LINK)
    ensures Addable(h.mem, InsertAfter(h, i, b), b)
  {
    HeldAlone(h, b);
    OffRingOf(h, i, b);
    AddAllowed(h.mem, h.heads[i], h.slabs[i].free, InsertPos(h.slabs[i].free, b), b);
  }

  lemma PutMemory(h: Heap, i: int, b: Addr, m': Memory)
    requires Ownership(h) && Lists(h) && Headers(h) && Tripwires(h) && 0 <= i < CLASSES == h.ready
    requires b in h.hands && b !in h.live && Added(h.mem, m', InsertAfter(h, i, b), b) && TripWord(h.mem, b)
    ensures LayoutOf(m', h.ext, h.os, h.abandoned) && HeadersOf(m', h.live)
    ensures TripwiresOf(m', h.slabs) && TripWord(m', b)
    ensures ListsOf(m', h.heads, h.ready, h.slabs[i := Put(h.slabs[i], b)])
    ensures forall z :: z != b && Held(h, z) && z in h.ext ==> Same(h.mem, m', z, h.ext[z])
  {
    var s, head := h.slabs[i], h.heads[i];
    var p := InsertPos(s.free, b);
    HeldAlone(h, b);
    OffRingOf(h, i, b);
    AddInserts(h.mem, m', head, s.free, p, At(head, s.free, p), b);
    var x, y := At(head, s.free, p), At(head, s.free, p + 1);
    assert RingCell(h, i, x) && RingCell(h, i, y);
    SpliceStep(h, i, m', x, y, b, Put(s, b));
    SpliceOfCells(h, i, m', x, y, b);
  }

  lemma SpliceOfCells(h: Heap, i: int, m': Memory, x: Addr, y: Addr, b: Addr)
    requires Ownership(h) && 0 <= i < CLASSES && RingCell(h, i, x) && RingCell(h, i, y) && Held(h, b)
    requires ChangedIn(h.mem, m', x, y, b) && TripWord(h.mem, b)
    ensures TripWord(m', b)
  {
    RingExtent(h, i, x);
    RingExtent(h, i, y);
    HeldExtent(h, b);
    SpliceTrip(h, m', x, y, b, b);
  }

  lemma PutOwned(h: Heap, i: int, b: Addr, m': Memory)
    requires Owned(h) && Accounts(h) && 0 <= i < |h.slabs| && b in h.hands && b !in h.acc
    ensures Owned(PutBack(h, i, b, m')) && Accounts(PutBack(h, i, b, m'))
  {
  }

  lemma PutOutstanding(h: Heap, i: int, b: Addr, m': Memory)
    requires Owned(h) && Outstanding(h) && 0 <= i < CLASSES && b in h.hands && h.hands[b].cls == i
    ensures Outstanding(PutBack(h, i, b, m')) && b in h.slabs[i].out
  {
    var h' := PutBack(h, i, b, m');
    assert b in h.slabs[i].out <==> HeldClass(h.live, h.hands, b) == i;
    forall j, x | 0 <= j < CLASSES
      ensures x in h'.slabs[j].out <==> HeldClass(h'.live, h'.hands, x) == j
    {
      assert x in h.slabs[j].out <==> HeldClass(h.live, h.hands, x) == j;
      assert x in h'.slabs[j].out <==> x in h.slabs[j].out && !(x == b && j == i);
    }
  }

  lemma PutQuiet(h: Heap, i: int, b: Addr, m': Memory)
    requires 0 <= i < |h.slabs| && b in h.hands
    requires forall z :: z != b && Held(h, z) && z in h.ext ==> Same(h.mem, m', z, h.ext[z])
    ensures Quiet(h, PutBack(h, i, b, m'), b, i)
  {
  }

  lemma TripsShifted(m: Memory, f: seq<Addr>, f': seq<Addr>, p: nat, x: Addr, na: nat, nd: nat)
    requires Shifted(f, f', p, x) && TripsOf(m, f, na, nd) && TripWord(m, x)
    ensures p <= na ==> TripsOf(m, f', na + 1, nd)
    ensures na + nd <= p ==> TripsOf(m, f', na, nd)
  {
  }

  lemma OutNotFree(i: int, s: Slab, b: Addr)
    requires 0 <= i < CLASSES && SlabInv(i, s) && b in s.out
    ensures b !in s.free
  {
  }

  lemma PutTrips(h: Heap, i: int, b: Addr, m': Memory)
    requires 0 <= i < CLASSES == |h.slabs| && SlabInv(i, h.slabs[i]) && b in h.slabs[i].out
    requires TripwiresOf(m', h.slabs) && TripWord(m', b)
    ensures Tripwires(PutBack(h, i, b, m'))
  {
    hide Partition, Paging, Carving, Counting, ThreeRuns, TripWord, TripsOf, Inserted;
    var s := h.slabs[i];
    OutNotFree(i, s, b);
    PutSide(BlockSize(i), s.free, s.last, s.na, s.nd, b);
    InsertedShifted(s.free, b);
    TripsShifted(m', s.free, Put(s, b).free, InsertPos(s.free, b), b, s.na, s.nd);
  }

  /** Inserting puts a block in hands back on the list of its class. */
  lemma PutStep(h: Heap, i: int, b: Addr, m': Memory)
    requires HeapInv(h) && 0 <= i < CLASSES == h.ready
    requires b in h.hands && h.hands[b].cls == i && b !in h.acc && !h.slabs[i].claiming
    requires TripWord(h.mem, b) && Added(h.mem, m', InsertAfter(h, i, b), b)
    ensures HeapInv(PutBack(h, i, b, m')) && Quiet(h, PutBack(h, i, b, m'), b, i)
  {
    PutMemory(h, i, b, m');
    PutOutstanding(h, i, b, m');
    PutTrips(h, i, b, m');
    PutInv(i, h.slabs[i], b);
    ReplaceSlab(h, i, Put(h.slabs[i], b));
    PutOwned(h, i, b, m');
    PutUsers(h, i, b, m');
    PutQuiet(h, i, b, m');
  }

  /** One turn of the carve loop: the next block pushed at the front. */
  function CarvedHeap(h: Heap, i: int, m': Memory): Heap
    requires 0 <= i < CLASSES == |h.slabs|
  {
    h.(mem := m', slabs := h.slabs[i := CarveOne(i, h.slabs[i])])
  }

  /** The block to be carved next is an extent that nobody uses yet. */
  lemma NextUnused(h: Heap, i: int)
    requires Ownership(h) && 0 <= i < CLASSES && Uncarved(h.slabs[i]) > 0
    ensures var n := h.slabs[i].next;
            && n in h.ext && h.ext[n] == BlockSize(i) && !Held(h, n)
            && forall j :: 0 <= j < CLASSES ==> !RingCell(h, j, n)
  {
    var s, n := h.slabs[i], h.slabs[i].next;
    assert SlabInv(i, s) && Grid(i, s, h.ext, h.os, h.abandoned);
    CarvePartition(i, s);
    if Held(h, n) {
      HeldExtent(h, n);
      BlockSizesDiffer(i, HeldClass(h.live, h.hands, n));
    }
    forall j | 0 <= j < CLASSES ensures !RingCell(h, j, n) {
      if RingCell(h, j, n) {
        RingExtent(h, j, n);
        BlockSizesDiffer(i, j);
      }
    }
  }

  lemma CarveAllowed(h: Heap, i: int)
    requires Ownership(h) && Lists(h) && 0 <= i < CLASSES == h.ready && Uncarved(h.slabs[i]) > 0
    ensures Cell(h.mem, h.slabs[i].next) && OffRing(h.heads[i], h.slabs[i].free, h.slabs[i].next, LINK)
  {
    NextUnused(h, i);
    OffRingOf(h, i, h.slabs[i].next);
  }

  lemma CarveMemory(h: Heap, i: int, m': Memory)
    requires Ownership(h) && Lists(h) && Headers(h) && Tripwires(h) && 0 <= i < CLASSES == h.ready
    requires Uncarved(h.slabs[i]) > 0 && Pushed(h.mem, m', h.heads[i], h.slabs[i].next)
    ensures LayoutOf(m', h.ext, h.os, h.abandoned) && HeadersOf(m', h.live) && TripwiresOf(m', h.slabs)
    ensures ListsOf(m', h.heads, h.ready, h.slabs[i := CarveOne(i, h.slabs[i])])
    ensures forall z :: Held(h, z) && z in h.ext ==> Same(h.mem, m', z, h.ext[z])
  {
    var s, head, n := h.slabs[i], h.heads[i], h.slabs[i].next;
    CarveAllowed(h, i);
    PushFront(h.mem, m', head, s.free, n);
    NextUnused(h, i);
    var y := At(head, s.free, 1);
    assert RingCell(h, i, y);
    SpliceStep(h, i, m', head, y, n, CarveOne(i, s));
  }

  /** The carve loop pushes one more block of its page. */
  lemma CarveStep(h: Heap, i: int, m': Memory)
    requires HeapInv(h) && 0 <= i < CLASSES == h.ready && Uncarved(h.slabs[i]) > 0
    requires Pushed(h.mem, m', h.heads[i], h.slabs[i].next)
    ensures HeapInv(CarvedHeap(h, i, m')) && Quiet(h, CarvedHeap(h, i, m'), 0, i)
  {
    CarveMemory(h, i, m');
    CarveInv(i, h.slabs[i]);
    ReplaceSlab(h, i, CarveOne(i, h.slabs[i]));
    CarveQuiet(h, i, m');
    CarveTrips(h, i, m');
    CarveUsers(h, i, m');
  }

  lemma CarveQuiet(h: Heap, i: int, m': Memory)
    requires 0 <= i < CLASSES == |h.slabs| && Outstanding(h)
    requires forall z :: Held(h, z) && z in h.ext ==> Same(h.mem, m', z, h.ext[z])
    ensures Quiet(h, CarvedHeap(h, i, m'), 0, i) && Outstanding(CarvedHeap(h, i, m'))
  {
  }

  lemma CarveTrips(h: Heap, i: int, m': Memory)
    requires 0 <= i < CLASSES == |h.slabs| && Carving(i, h.slabs[i]) && Uncarved(h.slabs[i]) > 0
    requires TripwiresOf(m', h.slabs)
    ensures Tripwires(CarvedHeap(h, i, m'))
  {
  }

}

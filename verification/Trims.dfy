/** Memory and heap without some regions that a reset has given up: every operation of the allocator does to what
    is left what it does to the whole. */
module Trims {
  import opened Bytes
  import opened Collections
  import opened Sizes
  import opened PsList
  import opened Slabs
  import opened Os
  import opened Heaps
  import opened HeapSteps
  import opened HeapRegions

  // ----- Memory -----

  /** Memory m without the bytes of the regions g. */
  ghost function Trim(m: Memory, g: map<Addr, nat>): Memory {
    map a | a in m && !InRegion(g, a) :: m[a]
  }

  /** No byte of [a, a + n) is one of the regions g. */
  ghost predicate Off(g: map<Addr, nat>, a: Addr, n: int) {
    forall b :: a <= b < a + n ==> !InRegion(g, b)
  }

  lemma TrimSame(m: Memory, g: map<Addr, nat>, a: Addr, n: int)
    requires Mapped(m, a, n) && Off(g, a, n)
    ensures Same(m, Trim(m, g), a, n) && Mapped(Trim(m, g), a, n)
  {
  }

  lemma TrimLoad(m: Memory, g: map<Addr, nat>, a: Addr)
    requires Mapped(m, a, 8) && Off(g, a, 8)
    ensures Mapped(Trim(m, g), a, 8) && Load(Trim(m, g), a) == Load(m, a)
  {
    TrimSame(m, g, a, 8);
    WordSame(m, Trim(m, g), a);
  }

  lemma TrimmedMapped(m: Memory, g: map<Addr, nat>, a: Addr, n: int)
    requires Mapped(Trim(m, g), a, n)
    ensures Mapped(m, a, n) && Off(g, a, n)
  {
    forall b | a <= b < a + n ensures b in m && !InRegion(g, b) {
      assert b in Trim(m, g);
    }
  }

  /** Both words of a cell or header. */
  lemma TrimPair(m: Memory, g: map<Addr, nat>, a: Addr)
    requires Mapped(m, a, LINK) && Off(g, a, LINK)
    ensures Mapped(Trim(m, g), a, LINK)
    ensures Load(Trim(m, g), a) == Load(m, a) && Load(Trim(m, g), a + 8) == Load(m, a + 8)
  {
    TrimSame(m, g, a, LINK);
    TrimLoad(m, g, a);
    TrimLoad(m, g, a + 8);
  }

  lemma TrimWrites(m: Memory, m': Memory, g: map<Addr, nat>, a: Addr, n: int)
    requires WritesIn(m, m', a, n)
    ensures WritesIn(Trim(m, g), Trim(m', g), a, n)
  {
    TrimKeys(m, m', g);
  }

  lemma TrimKeys(m: Memory, m': Memory, g: map<Addr, nat>)
    requires m'.Keys == m.Keys
    ensures Trim(m', g).Keys == Trim(m, g).Keys
  {
    assert forall a :: a in m <==> a in m.Keys;
    assert forall a :: a in m' <==> a in m'.Keys;
  }

  lemma TrimLinked(m: Memory, g: map<Addr, nat>, x: Addr, y: Addr)
    requires Linked(m, x, y) && Off(g, x, LINK) && Off(g, y, LINK)
    ensures Linked(Trim(m, g), x, y)
  {
    TrimPair(m, g, x);
    TrimPair(m, g, y);
  }

  lemma TrimInitialised(m: Memory, m': Memory, g: map<Addr, nat>, x: Addr)
    requires Initialised(m, m', x) && Off(g, x, LINK)
    ensures Initialised(Trim(m, g), Trim(m', g), x)
  {
    TrimWrites(m, m', g, x, LINK);
    TrimLinked(m', g, x, x);
  }

  lemma TrimWords(m: Memory, m': Memory, g: map<Addr, nat>, x: Addr, n: Addr, y: Addr)
    requires OtherWordsKept(m, m', x, n, y)
    ensures OtherWordsKept(Trim(m, g), Trim(m', g), x, n, y)
  {
    var l, l' := Trim(m, g), Trim(m', g);
    TrimKeys(m, m', g);
    forall w | Mapped(l, w, 8) && Apart(w, 8, x, 8) && Apart(w, 8, n, LINK) && Apart(w, 8, y + 8, 8)
      ensures Mapped(l', w, 8) && Load(l', w) == Load(l, w)
    {
      TrimmedMapped(m, g, w, 8);
      TrimmedMapped(m', g, w, 8);
      TrimLoad(m, g, w);
      TrimLoad(m', g, w);
    }
  }

  lemma TrimChanged(m: Memory, m': Memory, g: map<Addr, nat>, x: Addr, y: Addr, n: Addr)
    requires ChangedIn(m, m', x, y, n)
    ensures ChangedIn(Trim(m, g), Trim(m', g), x, y, n)
  {
    TrimKeys(m, m', g);
  }

  lemma TrimAdded(m: Memory, m': Memory, g: map<Addr, nat>, x: Addr, n: Addr)
    requires Added(m, m', x, n) && Off(g, x, LINK) && Off(g, n, LINK) && Off(g, Next(m, x), LINK)
    ensures Added(Trim(m, g), Trim(m', g), x, n)
  {
    hide Linked, ChangedIn, OtherWordsKept, Off;
    var y := Next(m, x);
    TrimPair(m, g, x);
    TrimPair(m, g, n);
    TrimPair(m, g, y);
    TrimWords(m, m', g, x, n, y);
    TrimChanged(m, m', g, x, y, n);
    TrimLinked(m', g, x, n);
    TrimLinked(m', g, n, y);
  }

  lemma TrimUnlinked(m: Memory, m': Memory, g: map<Addr, nat>, x: Addr)
    requires Unlinked(m, m', x) && Off(g, x, LINK) && Off(g, Next(m, x), LINK) && Off(g, Previous(m, x), LINK)
    ensures Unlinked(Trim(m, g), Trim(m', g), x)
  {
    hide Linked, ChangedIn, OtherWordsKept, Off;
    var y, w := Next(m, x), Previous(m, x);
    TrimPair(m, g, x);
    TrimPair(m, g, y);
    TrimPair(m, g, w);
    TrimWords(m, m', g, w, x, y);
    TrimChanged(m, m', g, w, y, x);
    TrimLinked(m', g, w, y);
    TrimLinked(m', g, x, x);
  }

  lemma TrimFresh(m: Memory, m': Memory, g: map<Addr, nat>, p: Addr, n: nat)
    requires FreshRegion(m, m', p, n) && forall a :: InRegion(g, a) ==> a in m
    ensures FreshRegion(Trim(m, g), Trim(m', g), p, n) && !InRegion(g, p)
  {
  }

  lemma TrimUnmapped(m: Memory, m': Memory, g: map<Addr, nat>, p: Addr, n: nat)
    requires Unmapped(m, m', p, n)
    ensures Unmapped(Trim(m, g), Trim(m', g), p, n)
  {
  }

  lemma TrimZeroed(m: Memory, m': Memory, g: map<Addr, nat>, p: Addr, n: nat)
    requires Zeroed(m, m', p, n) && Off(g, p, n)
    ensures Zeroed(Trim(m, g), Trim(m', g), p, n)
  {
    TrimWrites(m, m', g, p, n);
  }

  lemma TrimCopied(m: Memory, m': Memory, g: map<Addr, nat>, dst: Addr, src: Addr, n: nat)
    requires Copied(m, m', dst, src, n) && Off(g, dst, n) && Off(g, src, n)
    ensures Copied(Trim(m, g), Trim(m', g), dst, src, n)
  {
    TrimWrites(m, m', g, dst, n);
  }

  lemma TrimByte(m: Memory, g: map<Addr, nat>, a: Addr, v: Byte)
    requires !InRegion(g, a)
    ensures Trim(m[a := v], g) == Trim(m, g)[a := v]
  {
    SameMap(Trim(m[a := v], g), Trim(m, g)[a := v]);
  }

  lemma {:induction false} TrimStores(m: Memory, g: map<Addr, nat>, a: Addr, e: Addr, v: nat)
    requires a <= e && Mapped(m, a, e - a) && Off(g, a, e - a)
    ensures Mapped(Trim(m, g), a, e - a) && Trim(StoreUpTo(m, a, e, v), g) == StoreUpTo(Trim(m, g), a, e, v)
    decreases e - a
  {
    if a < e {
      TrimByte(m, g, a, v % 256);
      TrimStores(m[a := v % 256], g, a + 1, e, v / 256);
    }
  }

  lemma TrimStore(m: Memory, g: map<Addr, nat>, a: Addr, v: nat)
    requires Mapped(m, a, 8) && v < WORDS && Off(g, a, 8)
    ensures Mapped(Trim(m, g), a, 8) && Trim(Store(m, a, v), g) == Store(Trim(m, g), a, v)
  {
    TrimStores(m, g, a, a + 8, v);
  }

  // ----- The heap -----

  /** The regions g are among those that resets have given up. */
  ghost predicate GivenUp(h: Heap, g: map<Addr, nat>) {
    forall q :: q in g ==> q in h.abandoned && q in h.os && h.os[q] == g[q]
  }

  /** Heap h without the regions g: neither mapped nor known of. */
  ghost function TrimHeap(h: Heap, g: map<Addr, nat>): Heap {
    h.(mem := Trim(h.mem, g), os := h.os - g.Keys, abandoned := h.abandoned - g.Keys)
  }

  lemma GivenMapped(h: Heap, g: map<Addr, nat>)
    requires Layout(h) && GivenUp(h, g)
    ensures forall a :: InRegion(g, a) ==> a in h.mem && InRegion(h.os, a)
    ensures forall q :: q in g ==> InRegion(g, q)
  {
    forall a | InRegion(g, a) ensures a in h.mem && InRegion(h.os, a) {
      var q :| q in g && q <= a < q + g[q];
      assert Mapped(h.mem, q, h.os[q]);
    }
  }

  lemma ApartOff(g: map<Addr, nat>, x: Addr, n: int)
    requires forall q :: q in g ==> Apart(x, n, q, g[q])
    ensures Off(g, x, n)
  {
    forall b | x <= b < x + n ensures !InRegion(g, b) {
      forall q | q in g ensures !(q <= b < q + g[q]) {
        assert Apart(x, n, q, g[q]);
      }
    }
  }

  lemma SentinelOff(h: Heap, g: map<Addr, nat>, i: int)
    requires Layout(h) && MappedBytes(h) && GivenUp(h, g) && 0 <= i < |h.heads|
    ensures Off(g, h.heads[i], LINK)
  {
    hide Layout;
    GivenMapped(h, g);
  }

  /** A block inside a region that is in use shares no byte with the regions g. */
  lemma InsideOff(h: Heap, g: map<Addr, nat>, p: Addr, x: Addr, n: nat)
    requires Layout(h) && GivenUp(h, g) && p in h.os && p !in h.abandoned && p <= x && x + n <= p + h.os[p]
    ensures Off(g, x, n)
  {
    forall q | q in g ensures Apart(x, n, q, g[q]) {
      assert Apart(p, h.os[p], q, h.os[q]);
    }
    ApartOff(g, x, n);
  }

  lemma HeldOff(h: Heap, g: map<Addr, nat>, b: Addr)
    requires Ownership(h) && GivenUp(h, g) && Held(h, b)
    ensures b in h.ext && h.ext[b] >= HEADER + 8 && Off(g, b, h.ext[b])
  {
    BlockInRegion(h, b);
    HeldExtent(h, b);
    InsideOff(h, g, RegionOf(h, b), b, h.ext[b]);
  }

  lemma CellOff(h: Heap, g: map<Addr, nat>, i: int, x: Addr)
    requires Ownership(h) && MappedBytes(h) && GivenUp(h, g) && 0 <= i < CLASSES && RingCell(h, i, x)
    ensures Off(g, x, LINK)
  {
    if x == h.heads[i] {
      SentinelOff(h, g, i);
    } else {
      SlabBlock(h, i, x);
      CarvedOff(h, g, i, x);
    }
  }

  /** A multiple of the block size in a page of the class. */
  lemma CarvedOff(h: Heap, g: map<Addr, nat>, i: int, x: Addr)
    requires Layout(h) && Classes(h) && GivenUp(h, g) && 0 <= i < CLASSES
    requires PageOf(x) in h.slabs[i].pages && x % BlockSize(i) == 0
    ensures Off(g, x, LINK)
  {
    BlockInPage(i, x);
    assert Grid(i, h.slabs[i], h.ext, h.os, h.abandoned);
    InsideOff(h, g, PageOf(x), x, LINK);
  }

  lemma NextOff(h: Heap, g: map<Addr, nat>, i: int)
    requires Layout(h) && Classes(h) && GivenUp(h, g) && 0 <= i < CLASSES && Uncarved(h.slabs[i]) > 0
    ensures Off(g, h.slabs[i].next, LINK)
  {
    hide SlabInv, Grid;
    assert SlabInv(i, h.slabs[i]);
    NextInPage(i, h.slabs[i]);
    CarvedOff(h, g, i, h.slabs[i].next);
  }

  lemma NextInPage(i: int, s: Slab)
    requires 0 <= i < CLASSES && SlabInv(i, s) && Uncarved(s) > 0
    ensures PageOf(s.next) in s.pages && s.next % BlockSize(i) == 0
  {
    hide Partition, Carving, Counting, ThreeRuns;
    CarvePartition(i, s);
  }

  // ----- What the operations do to the rest of the heap -----

  lemma TrimFreshHeap(h: Heap, m': Memory, g: map<Addr, nat>, p: Addr, n: nat)
    requires Layout(h) && GivenUp(h, g) && FreshRegion(h.mem, m', p, n)
    ensures FreshRegion(Trim(h.mem, g), Trim(m', g), p, n) && p !in g
  {
    hide Layout, FreshRegion;
    GivenMapped(h, g);
    TrimFresh(h.mem, m', g, p, n);
  }

  lemma TrimClaimed(h: Heap, g: map<Addr, nat>, i: int, p: Addr, m': Memory)
    requires 0 <= i < CLASSES == |h.slabs| && p !in g
    ensures TrimHeap(Claimed(h, i, p, m'), g) == Claimed(TrimHeap(h, g), i, p, Trim(m', g))
  {
    hide Claim, PageBlocks, Trim;
    SameMap(h.os[p := PAGE] - g.Keys, (h.os - g.Keys)[p := PAGE]);
  }

  lemma TrimLargeClaimed(h: Heap, g: map<Addr, nat>, p: Addr, n: nat, t: int, m': Memory)
    requires p !in g
    ensures TrimHeap(LargeClaimed(h, p, n, t, m'), g) == LargeClaimed(TrimHeap(h, g), p, n, t, Trim(m', g))
  {
    hide Trim;
    SameMap(h.os[p := n] - g.Keys, (h.os - g.Keys)[p := n]);
  }

  lemma TrimReleased(h: Heap, g: map<Addr, nat>, p: Addr, m': Memory)
    ensures TrimHeap(Released(h, p, m'), g) == Released(TrimHeap(h, g), p, Trim(m', g))
  {
    hide Trim;
    SameMap(h.os - {p} - g.Keys, h.os - g.Keys - {p});
  }

  /** The list of class i is spliced in the same way. */
  lemma TrimPop(h: Heap, m': Memory, g: map<Addr, nat>, i: int)
    requires HeapInv(h) && GivenUp(h, g) && 0 <= i < CLASSES == h.ready && h.slabs[i].free != []
    requires Cell(h.mem, h.heads[i]) && Unlinked(h.mem, m', Next(h.mem, h.heads[i]))
    ensures Cell(Trim(h.mem, g), h.heads[i]) && Next(Trim(h.mem, g), h.heads[i]) == Next(h.mem, h.heads[i])
    ensures Unlinked(Trim(h.mem, g), Trim(m', g), Next(h.mem, h.heads[i]))
  {
    hide Layout, Classes, Owned, Accounts, Unlinked, Off, GivenUp;
    HeapParts(h);
    HeapBytes(h);
    var f := h.slabs[i].free;
    ListView(h, i);
    TrimCheck(h, g, i);
    IsListCell(h.mem, h.heads[i], f, 0);
    IsListCell(h.mem, h.heads[i], f, 1);
    assert RingCell(h, i, h.heads[i]) && RingCell(h, i, f[0]) && RingCell(h, i, At(h.heads[i], f, 2));
    CellOff(h, g, i, h.heads[i]);
    CellOff(h, g, i, f[0]);
    CellOff(h, g, i, At(h.heads[i], f, 2));
    TrimUnlinked(h.mem, m', g, f[0]);
  }

  lemma TrimCheck(h: Heap, g: map<Addr, nat>, i: int)
    requires HeapInv(h) && GivenUp(h, g) && 0 <= i < CLASSES && Cell(h.mem, h.heads[i])
    ensures Cell(Trim(h.mem, g), h.heads[i]) && Next(Trim(h.mem, g), h.heads[i]) == Next(h.mem, h.heads[i])
  {
    hide Layout, Classes, Owned, Accounts, Lists, Off, GivenUp;
    HeapParts(h);
    HeapBytes(h);
    SentinelOff(h, g, i);
    TrimPair(h.mem, g, h.heads[i]);
  }

  lemma TrimPut(h: Heap, m': Memory, g: map<Addr, nat>, i: int, b: Addr)
    requires HeapInv(h) && GivenUp(h, g) && 0 <= i < CLASSES == h.ready && b in h.hands
    requires Added(h.mem, m', InsertAfter(h, i, b), b)
    ensures Added(Trim(h.mem, g), Trim(m', g), InsertAfter(h, i, b), b)
  {
    hide Layout, Classes, Owned, Accounts, Added, Off, GivenUp;
    HeapParts(h);
    HeapBytes(h);
    var f, p := h.slabs[i].free, InsertPos(h.slabs[i].free, b);
    PutAllowed(h, i, b);
    AddAllowed(h.mem, h.heads[i], f, p, b);
    assert RingCell(h, i, At(h.heads[i], f, p)) && RingCell(h, i, At(h.heads[i], f, p + 1));
    CellOff(h, g, i, At(h.heads[i], f, p));
    CellOff(h, g, i, At(h.heads[i], f, p + 1));
    HeldLink(h, g, b);
    TrimAdded(h.mem, m', g, At(h.heads[i], f, p), b);
  }

  /** The links or the header of a held block. */
  lemma HeldLink(h: Heap, g: map<Addr, nat>, b: Addr)
    requires Ownership(h) && GivenUp(h, g) && Held(h, b)
    ensures Off(g, b, LINK) && Off(g, b + HEADER, 8) && Off(g, b, 8)
  {
    hide Layout, Classes, Owned, Sentinels, Outstanding, GivenUp, InRegion;
    HeldOff(h, g, b);
  }

  lemma TrimPush(h: Heap, m': Memory, g: map<Addr, nat>, i: int)
    requires HeapInv(h) && GivenUp(h, g) && 0 <= i < CLASSES == h.ready && Uncarved(h.slabs[i]) > 0
    requires Pushed(h.mem, m', h.heads[i], h.slabs[i].next)
    ensures Pushed(Trim(h.mem, g), Trim(m', g), h.heads[i], h.slabs[i].next)
  {
    hide Layout, Classes, Owned, Accounts, Added, Off, GivenUp, Linked;
    HeapParts(h);
    HeapBytes(h);
    var f, n, head := h.slabs[i].free, h.slabs[i].next, h.heads[i];
    var m1 :| Initialised(h.mem, m1, n) && Added(m1, m', head, n);
    NextUnused(h, i);
    OffRingOf(h, i, n);
    InitFrame(h.mem, m1, head, f, n);
    IsListCell(m1, head, f, 0);
    assert RingCell(h, i, head) && RingCell(h, i, At(head, f, 1));
    CellOff(h, g, i, head);
    CellOff(h, g, i, At(head, f, 1));
    NextOff(h, g, i);
    TrimInitialised(h.mem, m1, g, n);
    TrimAdded(m1, m', g, head, n);
  }
}

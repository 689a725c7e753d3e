/** The allocator's heap: flat memory together with who owns which part of it. */
module Heaps {
  import opened Bytes
  import opened Sizes
  import opened PsList
  import opened Slabs
  import opened Extents

  /** A live allocation: the two header words. mapped is 0 for a slab block, else the bytes mapped. */
  datatype Alloc = Alloc(size: nat, mapped: nat)

  /** A block that a call of thread `owner` holds: neither free nor live. cls is -1 for a large one. */
  datatype Hand = Hand(cls: int, owner: int)

  /** fixed: the bytes of memory that are no answer of the OS, the sentinels among them.
      ext: every extent the allocator owns - sentinels, slab blocks, large blocks - by base.
      os: every region obtained from the OS and still mapped. abandoned: regions given up by a reset.
      acc: sizes added to `allocated` and not yet subtracted. regs: regions counted in `totmem`.
      used and total are the counters `allocated` and `totmem`. */
  datatype Heap = Heap(mem: Memory, heads: seq<Addr>, fixed: set<Addr>, ready: nat, slabs: seq<Slab>,
                       ext: map<Addr, nat>, os: map<Addr, nat>, abandoned: set<Addr>,
                       live: map<Addr, Alloc>, hands: map<Addr, Hand>,
                       acc: map<Addr, nat>, regs: map<Addr, nat>, used: nat, total: nat)

  // ----- Invariant -----

  ghost predicate LayoutOf(m: Memory, ext: map<Addr, nat>, os: map<Addr, nat>, abandoned: set<Addr>) {
    && Disjoint(ext) && InMemory(m, ext)
    && Disjoint(os) && InMemory(m, os)
    && (forall x :: x in ext ==> ext[x] >= LINK)
    && (forall p :: p in os ==> p % PAGE == 0 && os[p] >= PAGE)
    && (forall p :: p in abandoned ==> p in os)
  }

  ghost predicate SentinelsOf(heads: seq<Addr>, ext: map<Addr, nat>) {
    && |heads| == CLASSES
    && (forall i :: 0 <= i < CLASSES ==> heads[i] in ext && ext[heads[i]] == LINK)
    && (forall i, j :: 0 <= i < j < CLASSES ==> heads[i] != heads[j])
  }

  /** The pages of a class are whole regions, and their blocks are extents. */
  ghost predicate Grid(i: int, s: Slab, ext: map<Addr, nat>, os: map<Addr, nat>, abandoned: set<Addr>)
    requires 0 <= i < CLASSES
  {
    && (forall p :: p in s.pages ==> p in os && os[p] == PAGE && p !in abandoned)
    && (forall a :: PageOf(a) in s.pages && a % BlockSize(i) == 0 ==> a in ext && ext[a] == BlockSize(i))
  }

  ghost predicate ClassesOf(ready: nat, slabs: seq<Slab>, ext: map<Addr, nat>, os: map<Addr, nat>,
                            abandoned: set<Addr>) {
    && |slabs| == CLASSES && ready <= CLASSES
    && (forall i :: 0 <= i < CLASSES ==> SlabInv(i, slabs[i]))
    && (forall i :: 0 <= i < CLASSES ==> Grid(i, slabs[i], ext, os, abandoned))
    && (ready < CLASSES ==> forall i :: 0 <= i < CLASSES ==> slabs[i] == NO_SLAB)
  }

  ghost predicate ListsOf(m: Memory, heads: seq<Addr>, ready: nat, slabs: seq<Slab>) {
    && |heads| == |slabs| == CLASSES && ready <= CLASSES
    && forall i :: 0 <= i < ready ==> IsList(m, heads[i], slabs[i].free)
  }

  /** b is a whole region of its own. */
  ghost predicate LargeRegion(b: Addr, ext: map<Addr, nat>, os: map<Addr, nat>, abandoned: set<Addr>) {
    b in ext && ext[b] > PAGE && b in os && os[b] == ext[b] && b !in abandoned
  }

  ghost predicate HasHeader(m: Memory, b: Addr, a: Alloc) {
    Mapped(m, b, HEADER) && Load(m, b) == a.size && Load(m, b + 8) == a.mapped
  }

  ghost predicate LiveBlock(b: Addr, a: Alloc, ext: map<Addr, nat>, os: map<Addr, nat>, abandoned: set<Addr>) {
    && b in ext && 0 < a.size && a.size + HEADER <= ext[b] <= WORDS
    && if ClassOf(a.size) == -1 then
         LargeRegion(b, ext, os, abandoned) && a.mapped == ext[b] && Tight(a.size, a.mapped)
       else a.mapped == 0
  }

  ghost predicate HeadersOf(m: Memory, live: map<Addr, Alloc>) {
    forall b :: b in live ==> HasHeader(m, b, live[b])
  }

  ghost predicate OwnedOf(live: map<Addr, Alloc>, hands: map<Addr, Hand>, ext: map<Addr, nat>,
                          os: map<Addr, nat>, abandoned: set<Addr>) {
    && (forall b :: b in live ==> b !in hands && LiveBlock(b, live[b], ext, os, abandoned))
    && (forall b :: b in hands ==> b in ext && -1 <= hands[b].cls < CLASSES)
    && (forall b :: b in hands && hands[b].cls == -1 ==> LargeRegion(b, ext, os, abandoned))
  }

  /** The class of a held block, or -2 for any other address. */
  ghost function HeldClass(live: map<Addr, Alloc>, hands: map<Addr, Hand>, b: Addr): int {
    if b in live then if live[b].size < WORDS then ClassOf(live[b].size) else -2
    else if b in hands then hands[b].cls else -2
  }

  ghost predicate OutstandingOf(slabs: seq<Slab>, live: map<Addr, Alloc>, hands: map<Addr, Hand>) {
    && |slabs| == CLASSES
    && forall i, b :: 0 <= i < CLASSES ==> (b in slabs[i].out <==> HeldClass(live, hands, b) == i)
  }

  ghost predicate SizesOf(acc: map<Addr, nat>, used: nat, live: map<Addr, Alloc>, hands: map<Addr, Hand>,
                          ext: map<Addr, nat>) {
    && (forall b :: b in acc ==> (b in live || b in hands) && b in ext && acc[b] + HEADER <= ext[b])
    && used == Sum(acc)
  }

  ghost predicate RegionsOf(regs: map<Addr, nat>, total: nat, os: map<Addr, nat>) {
    && (forall p :: p in regs ==> p in os && os[p] == regs[p])
    && total == Sum(regs)
  }

  ghost predicate IsPage(slabs: seq<Slab>, p: Addr) {
    exists i :: 0 <= i < |slabs| && p in slabs[i].pages
  }

  ghost predicate InRegion(os: map<Addr, nat>, a: Addr) {
    exists p :: p in os && p <= a < p + os[p]
  }

  /** A byte is mapped exactly if it is static or in a region of the OS that has not been given back. */
  ghost predicate MappedBytesOf(keys: set<Addr>, fixed: set<Addr>, heads: seq<Addr>, os: map<Addr, nat>) {
    && (forall a :: a in keys <==> a in fixed || InRegion(os, a))
    && (forall a :: a in fixed ==> !InRegion(os, a))
    && (forall i, a :: 0 <= i < |heads| && heads[i] <= a < heads[i] + LINK ==> a in fixed)
  }

  /** Every region that no reset has given up is a page of a class, a live large block or one in hands. */
  ghost predicate UsersOf(os: map<Addr, nat>, abandoned: set<Addr>, slabs: seq<Slab>, live: map<Addr, Alloc>,
                          hands: map<Addr, Hand>) {
    forall p :: p in os && p !in abandoned ==>
      IsPage(slabs, p) || (p in live && live[p].mapped != 0) || (p in hands && hands[p].cls == -1)
  }

  /** The word p2free zeroes at the start of the payload. */
  ghost predicate TripWord(m: Memory, x: Addr) {
    Mapped(m, x + HEADER, 8) && Load(m, x + HEADER) == 0
  }

  ghost predicate TripsOf(m: Memory, f: seq<Addr>, na: nat, nd: nat) {
    forall k :: 0 <= k < |f| && !(na <= k < na + nd) ==> TripWord(m, f[k])
  }

  /** Every free block outside the untouched rest of the latest carve has been freed before, and its
      zeroed word is still zero. */
  ghost predicate TripwiresOf(m: Memory, slabs: seq<Slab>) {
    forall i :: 0 <= i < |slabs| ==> TripsOf(m, slabs[i].free, slabs[i].na, slabs[i].nd)
  }

  ghost predicate Layout(h: Heap) { LayoutOf(h.mem, h.ext, h.os, h.abandoned) }

  ghost predicate Sentinels(h: Heap) { SentinelsOf(h.heads, h.ext) }

  ghost predicate Classes(h: Heap) { ClassesOf(h.ready, h.slabs, h.ext, h.os, h.abandoned) }

  ghost predicate Lists(h: Heap) { ListsOf(h.mem, h.heads, h.ready, h.slabs) }

  ghost predicate Headers(h: Heap) { HeadersOf(h.mem, h.live) }

  ghost predicate Owned(h: Heap) { OwnedOf(h.live, h.hands, h.ext, h.os, h.abandoned) }

  ghost predicate Outstanding(h: Heap) { OutstandingOf(h.slabs, h.live, h.hands) }

  ghost predicate Accounts(h: Heap) { SizesOf(h.acc, h.used, h.live, h.hands, h.ext) }

  ghost predicate Regions(h: Heap) { RegionsOf(h.regs, h.total, h.os) }

  ghost predicate Tripwires(h: Heap) { TripwiresOf(h.mem, h.slabs) }

  ghost predicate MappedBytes(h: Heap) { MappedBytesOf(h.mem.Keys, h.fixed, h.heads, h.os) }

  ghost predicate Users(h: Heap) { UsersOf(h.os, h.abandoned, h.slabs, h.live, h.hands) }

  ghost predicate HeapInv(h: Heap) {
    && MappedBytes(h) && Users(h)
    && Layout(h) && Sentinels(h) && Classes(h) && Owned(h) && Outstanding(h)
    && Lists(h) && Headers(h) && Accounts(h) && Regions(h) && Tripwires(h)
  }

  // ----- Everything has one owner -----

  ghost predicate Held(h: Heap, b: Addr) {
    b in h.live || b in h.hands
  }

  ghost predicate RingCell(h: Heap, i: int, x: Addr)
    requires 0 <= i < CLASSES == |h.heads| == |h.slabs|
  {
    x == h.heads[i] || x in h.slabs[i].free
  }

  /** The owned part of the invariant, without memory contents. */
  ghost predicate Ownership(h: Heap) {
    Layout(h) && Sentinels(h) && Classes(h) && Owned(h) && Outstanding(h)
  }

  lemma SlabBlock(h: Heap, i: int, x: Addr)
    requires Classes(h) && 0 <= i < CLASSES
    requires x in h.slabs[i].free || x in h.slabs[i].out
    ensures x in h.ext && h.ext[x] == BlockSize(i) && Carved(i, h.slabs[i], x)
  {
    assert SlabInv(i, h.slabs[i]) && Grid(i, h.slabs[i], h.ext, h.os, h.abandoned);
  }

  lemma HeldExtent(h: Heap, b: Addr)
    requires Ownership(h) && Held(h, b)
    ensures b in h.ext && HeldClass(h.live, h.hands, b) >= -1
    ensures HeldClass(h.live, h.hands, b) >= 0 ==>
              b in h.slabs[HeldClass(h.live, h.hands, b)].out && h.ext[b] == BlockSize(HeldClass(h.live, h.hands, b))
    ensures HeldClass(h.live, h.hands, b) == -1 ==> LargeRegion(b, h.ext, h.os, h.abandoned)
  {
    var i := HeldClass(h.live, h.hands, b);
    if i >= 0 {
      assert b in h.slabs[i].out;
      SlabBlock(h, i, b);
    }
  }

  lemma RingExtent(h: Heap, i: int, x: Addr)
    requires Ownership(h) && 0 <= i < CLASSES && RingCell(h, i, x)
    ensures x in h.ext && h.ext[x] >= LINK && !Held(h, x)
    ensures x != h.heads[i] ==> h.ext[x] == BlockSize(i)
  {
    if x != h.heads[i] {
      SlabBlock(h, i, x);
      assert SlabInv(i, h.slabs[i]);
    }
    if Held(h, x) {
      HeldExtent(h, x);
      var j := HeldClass(h.live, h.hands, x);
      if j >= 0 {
        SlabBlock(h, j, x);
        BlockSizesDiffer(i, j);
      }
    }
  }

  lemma BlockSizesDiffer(i: int, j: int)
    requires 0 <= i < CLASSES && 0 <= j < CLASSES
    ensures BlockSize(i) == BlockSize(j) <==> i == j
  {
  }

  lemma RingsApart(h: Heap, i: int, j: int, x: Addr)
    requires Ownership(h) && 0 <= i < CLASSES && 0 <= j < CLASSES
    requires RingCell(h, i, x) && RingCell(h, j, x)
    ensures i == j
  {
    RingExtent(h, i, x);
    RingExtent(h, j, x);
    BlockSizesDiffer(i, j);
  }

  /** The invariant split, for proofs that hide it. */
  lemma HeapParts(h: Heap)
    requires HeapInv(h)
    ensures Layout(h) && Classes(h) && Owned(h) && Lists(h) && Ownership(h) && Accounts(h)
  {
  }

  lemma LivePositive(h: Heap, b: Addr)
    requires HeapInv(h) && b in h.live
    ensures b > 0
  {
    assert LiveBlock(b, h.live[b], h.ext, h.os, h.abandoned);
  }

  /** A live large block is a region of its own, as long as its header says. */
  lemma LiveTight(h: Heap, b: Addr)
    requires HeapInv(h) && b in h.live && h.live[b].mapped != 0
    ensures b in h.os && h.os[b] == h.live[b].mapped && Tight(h.live[b].size, h.live[b].mapped)
    ensures HasHeader(h.mem, b, h.live[b])
  {
    assert LiveBlock(b, h.live[b], h.ext, h.os, h.abandoned);
  }

  lemma HeapBytes(h: Heap)
    requires HeapInv(h)
    ensures MappedBytes(h) && |h.heads| == CLASSES == |h.slabs|
  {
  }

  // ----- Frames -----

  /** Every extent outside z keeps its bytes. */
  ghost predicate KeepsOthers(h: Heap, m': Memory, z: set<Addr>) {
    forall x :: x in h.ext && x !in z ==> Same(h.mem, m', x, h.ext[x])
  }

  lemma FrameList(h: Heap, m': Memory, z: set<Addr>, i: int)
    requires Ownership(h) && Lists(h) && 0 <= i < h.ready && KeepsOthers(h, m', z)
    requires forall x :: x in z ==> !RingCell(h, i, x)
    ensures IsList(m', h.heads[i], h.slabs[i].free)
  {
    var s := h.slabs[i].free;
    assert RingCell(h, i, h.heads[i]);
    forall k | 0 <= k < |s| ensures Same(h.mem, m', s[k], LINK) {
      assert RingCell(h, i, s[k]);
      RingExtent(h, i, s[k]);
    }
    ListFrame(h.mem, m', h.heads[i], s);
  }

  lemma FrameHeader(h: Heap, m': Memory, z: set<Addr>, b: Addr, a: Alloc)
    requires Layout(h) && KeepsOthers(h, m', z) && b in h.ext && b !in z && HasHeader(h.mem, b, a)
    ensures HasHeader(m', b, a)
  {
    assert Same(h.mem, m', b, h.ext[b]);
    WordSame(h.mem, m', b);
    WordSame(h.mem, m', b + 8);
  }

  lemma TripKept(m: Memory, m': Memory, x: Addr)
    requires TripWord(m, x) && Same(m, m', x + HEADER, 8)
    ensures TripWord(m', x)
  {
    WordSame(m, m', x + HEADER);
  }

  lemma FrameTrips(h: Heap, m': Memory, z: set<Addr>)
    requires Ownership(h) && Tripwires(h) && KeepsOthers(h, m', z)
    requires forall i, x :: 0 <= i < CLASSES && x in z ==> !RingCell(h, i, x)
    ensures TripwiresOf(m', h.slabs)
  {
    forall i, k | 0 <= i < CLASSES && 0 <= k < |h.slabs[i].free|
                  && !(h.slabs[i].na <= k < h.slabs[i].na + h.slabs[i].nd)
      ensures TripWord(m', h.slabs[i].free[k])
    {
      var x := h.slabs[i].free[k];
      assert RingCell(h, i, x);
      assert TripsOf(h.mem, h.slabs[i].free, h.slabs[i].na, h.slabs[i].nd);
      SlabBlock(h, i, x);
      assert Same(h.mem, m', x, h.ext[x]);
      TripKept(h.mem, m', x);
    }
  }

  /** List links lie in bytes 0 to 15 of a block, so a splice never writes a tripwire word. */
  lemma SpliceTrip(h: Heap, m': Memory, x: Addr, y: Addr, n: Addr, b: Addr)
    requires Layout(h) && x in h.ext && y in h.ext && n in h.ext && ChangedIn(h.mem, m', x, y, n)
    requires b in h.ext && h.ext[b] >= HEADER + 8 && TripWord(h.mem, b)
    ensures TripWord(m', b)
  {
    assert x == b || Apart(x, h.ext[x], b, h.ext[b]);
    assert y == b || Apart(y, h.ext[y], b, h.ext[b]);
    assert n == b || Apart(n, h.ext[n], b, h.ext[b]);
    TripKept(h.mem, m', b);
  }

  /** A splice of three cells that are extents of their own leaves the other extents alone. */
  lemma SpliceKeeps(h: Heap, m': Memory, x: Addr, y: Addr, n: Addr)
    requires Layout(h) && x in h.ext && y in h.ext && n in h.ext && ChangedIn(h.mem, m', x, y, n)
    ensures KeepsOthers(h, m', {x, y, n})
  {
    forall w | w in h.ext && w !in {x, y, n} ensures Same(h.mem, m', w, h.ext[w]) {
      assert Apart(w, h.ext[w], x, h.ext[x]) && Apart(w, h.ext[w], y, h.ext[y]);
      assert Apart(w, h.ext[w], n, h.ext[n]);
    }
  }

  /** Writing inside one extent leaves the others alone. */
  lemma WriteKeeps(h: Heap, m': Memory, b: Addr)
    requires Layout(h) && b in h.ext && WritesIn(h.mem, m', b, h.ext[b])
    ensures KeepsOthers(h, m', {b})
  {
    forall w | w in h.ext && w !in {b} ensures Same(h.mem, m', w, h.ext[w]) {
      assert Apart(w, h.ext[w], b, h.ext[b]);
    }
  }

  lemma FrameMapped(m: Memory, m': Memory, e: map<Addr, nat>)
    requires InMemory(m, e) && m'.Keys >= m.Keys
    ensures InMemory(m', e)
  {
  }

  /** What a step that concerns block b and class i leaves alone: every other held block with its
      bytes and its counts, every other class. */
  ghost predicate Quiet(h: Heap, h': Heap, b: Addr, i: int) {
    && h'.heads == h.heads && |h'.slabs| == |h.slabs| && KeepsAbandoned(h, h')
    && (forall x :: x != b ==>
          && (x in h'.live <==> x in h.live) && (x in h.live ==> h'.live[x] == h.live[x])
          && (x in h'.hands <==> x in h.hands) && (x in h.hands ==> h'.hands[x] == h.hands[x])
          && (x in h'.acc <==> x in h.acc) && (x in h.acc ==> h'.acc[x] == h.acc[x]))
    && (forall x :: x != b && Held(h, x) && x in h.ext ==>
          x in h'.ext && h'.ext[x] == h.ext[x] && Same(h.mem, h'.mem, x, h.ext[x]))
    && (forall j :: 0 <= j < |h.slabs| && j != i ==> h'.slabs[j] == h.slabs[j])
    && (forall p :: !(p == b && LargeExtent(h, p)) && (0 <= i < |h.slabs| ==> p !in h'.slabs[i].pages) ==>
          (p in h'.regs <==> p in h.regs))
  }

  /** Regions given up by a reset stay given up and mapped; static memory stays the same. */
  ghost predicate KeepsAbandoned(h: Heap, h': Heap) {
    h'.fixed == h.fixed && h'.abandoned == h.abandoned
    && forall q :: q in h.abandoned && q in h.os ==> q in h'.os && h'.os[q] == h.os[q]
  }

  ghost predicate LargeExtent(h: Heap, p: Addr) {
    p in h.ext && h.ext[p] > PAGE
  }
}

/** What each call of the allocator computes, as a function of what it can see and of the answer of
    the operating system. */
module AllocSpec {
  import opened Bytes
  import opened Collections
  import opened Sizes
  import opened Slabs
  import opened Extents
  import opened Heaps
  import opened HeapSteps

  /** The free lists, the live blocks by base and the two counters. */
  datatype View = View(slabs: seq<Slab>, live: map<Addr, Alloc>, used: nat, total: nat)

  function ViewOf(h: Heap): View {
    View(h.slabs, h.live, h.used, h.total)
  }

  const NEW_VIEW := View(NoSlabs(), map[], 0, 0)

  /** The first block of class i handed out for a request of the given size. */
  function Take(v: View, i: int, s: Slab, size: nat): (View, Addr)
    requires 0 <= i < |v.slabs| && s.free != []
  {
    var b := s.free[0];
    (v.(slabs := v.slabs[i := Pop(s)], live := v.live[b := Alloc(size, 0)], used := AddWord(v.used, size)),
     b + HEADER)
  }

  /** The class after a page p has been claimed and carved. */
  function Refilled(i: int, s: Slab, p: Addr): (t: Slab)
    requires 0 <= i < CLASSES
    ensures t.free != []
  {
    CarveAll(i, Claim(s, p))
  }

  /** p2malloc, when the OS answers `answer` if it is asked. */
  function Malloc(v: View, size: nat, answer: Addr): (r: (View, Addr))
    requires |v.slabs| == CLASSES
    ensures |r.0.slabs| == CLASSES
    ensures forall b :: b in v.live && b + HEADER != r.1 ==> b in r.0.live && r.0.live[b] == v.live[b]
  {
    if size == 0 || size > SIZE_MAX - HEADER then (v, 0)
    else
      var i := ClassOf(size);
      if i == -1 then
        if answer == 0 then (v, 0)
        else
          var n := PageAlign(HEADER + size);
          (v.(live := v.live[answer := Alloc(size, n)], used := AddWord(v.used, size),
              total := AddWord(v.total, n)), answer + HEADER)
      else if v.slabs[i].free != [] then Take(v, i, v.slabs[i], size)
      else if answer == 0 then (v, 0)
      else Take(v.(total := AddWord(v.total, PAGE)), i, Refilled(i, v.slabs[i], answer), size)
  }

  /** p2free of a live block or NULL. */
  function Free(v: View, p: Addr): View
    requires |v.slabs| == CLASSES && (p != 0 ==> p - HEADER in v.live && v.live[p - HEADER].size <= SIZE_MAX)
  {
    if p == 0 then v
    else
      var b := p - HEADER;
      var a := v.live[b];
      var i := ClassOf(a.size);
      if a.mapped != 0 || i == -1 then
        v.(live := v.live - {b}, used := SubWord(v.used, a.size), total := SubWord(v.total, a.mapped))
      else
        v.(slabs := v.slabs[i := Put(v.slabs[i], b)], live := v.live - {b}, used := SubWord(v.used, a.size))
  }

  /** p2realloc of a live block or NULL. */
  function Realloc(v: View, p: Addr, size: nat, answer: Addr): (View, Addr)
    requires |v.slabs| == CLASSES && size <= SIZE_MAX
    requires p != 0 ==> p - HEADER in v.live && v.live[p - HEADER].size <= SIZE_MAX
  {
    if p == 0 then Malloc(v, size, answer)
    else if size == 0 then (Free(v, p), 0)
    else
      var b := p - HEADER;
      var a := v.live[b];
      if a.mapped == 0 && ClassOf(size) == ClassOf(a.size) then
        (v.(live := v.live[b := Alloc(size, 0)], used := AddWord(SubWord(v.used, a.size), size)), p)
      else
        var (w, q) := Malloc(v, size, answer);
        if q == 0 || q == p then (w, q) else (Free(w, p), q)
  }

  // ----- What the OS is asked -----

  /** The requests p2malloc makes to the OS, with the answer: one region for a large size, one page for an
      empty list, otherwise none. */
  function Asks(v: View, size: nat, answer: Addr): seq<(nat, Addr)>
    requires |v.slabs| == CLASSES
  {
    if size == 0 || size > SIZE_MAX - HEADER then []
    else if ClassOf(size) == -1 then [(PageAlign(HEADER + size), answer)]
    else if v.slabs[ClassOf(size)].free != [] then []
    else [(PAGE, answer)]
  }

  lemma SlabAsks(v: View, size: nat, answer: Addr, i: int)
    requires |v.slabs| == CLASSES && 0 < size <= SIZE_MAX - HEADER && ClassOf(size) == i >= 0
    ensures Asks(v, size, answer) == if v.slabs[i].free == [] then [(PAGE, answer)] else []
  {
  }

  lemma LargeAsks(v: View, size: nat, answer: Addr)
    requires |v.slabs| == CLASSES && 0 < size <= SIZE_MAX - HEADER && ClassOf(size) == -1
    ensures Asks(v, size, answer) == [(PageAlign(HEADER + size), answer)]
  {
  }

  /** The OS is asked for nothing when the request is empty, too large or met by a free block, and otherwise once:
      for one page, or for whole pages with room for header and request and less than a page more, 0 if that is no
      size_t. */
  lemma AsksOnce(v: View, size: nat, answer: Addr)
    requires |v.slabs| == CLASSES
    ensures size == 0 || size > SIZE_MAX - HEADER ==> Asks(v, size, answer) == []
    ensures 0 < size <= SIZE_MAX - HEADER && ClassOf(size) != -1 ==>
              Asks(v, size, answer) == if v.slabs[ClassOf(size)].free != [] then [] else [(4096, answer)]
    ensures 0 < size <= SIZE_MAX - HEADER && ClassOf(size) == -1 ==>
              && |Asks(v, size, answer)| == 1 && Asks(v, size, answer)[0].1 == answer
              && var n := Asks(v, size, answer)[0].0;
                 if size + 16 > WORDS - 4096 then n == 0
                 else n % 4096 == 0 && size + 16 <= n < size + 16 + 4096
  {
    if 0 < size <= SIZE_MAX - HEADER && ClassOf(size) == -1 {
      PageAlignIsLeast(HEADER + size, 0);
      if PageAlign(HEADER + size) != 0 {
        PageAlignTight(size);
      }
    }
  }

  /** Between calls p2malloc returns NULL exactly for a size of 0, a size that has no room for its header, or
      when it has to ask the OS and is refused. */
  lemma NullWhenRefused(v: View, size: nat, answer: Addr)
    requires |v.slabs| == CLASSES && size <= SIZE_MAX
    requires forall i :: 0 <= i < CLASSES ==> SlabInv(i, v.slabs[i]) && !v.slabs[i].claiming
    requires answer == 0 || (answer > 0 && answer % PAGE == 0 && !IsPage(v.slabs, answer))
    ensures Malloc(v, size, answer).1 == 0 <==>
              size == 0 || size > SIZE_MAX - HEADER || (Asks(v, size, answer) != [] && answer == 0)
  {
    if 0 < size <= SIZE_MAX - HEADER && ClassOf(size) >= 0 {
      var s := v.slabs[ClassOf(size)];
      assert SlabInv(ClassOf(size), s);
      if s.free != [] {
        assert s.free[0] in s.free;
      } else if answer != 0 {
        RefillTiles(ClassOf(size), s, answer);
      }
    }
  }

  // ----- States between calls -----

  /** No call is under way: no block is in hands, no page is being carved, and each counter counts
      exactly the live blocks and the regions behind blocks. */
  ghost predicate Quiescent(h: Heap) {
    && (forall b :: b !in h.hands)
    && (forall i :: 0 <= i < |h.slabs| ==> !h.slabs[i].claiming)
    && (forall b :: b in h.acc <==> b in h.live)
    && (forall b :: b in h.live ==> h.acc[b] == h.live[b].size)
    && (forall p :: p in h.regs <==> IsPage(h.slabs, p) || (p in h.live && h.live[p].mapped != 0))
  }

  function LiveSizes(live: map<Addr, Alloc>): map<Addr, nat> {
    map b | b in live :: live[b].size
  }

  function LargeSizes(live: map<Addr, Alloc>): map<Addr, nat> {
    map b | b in live && live[b].mapped != 0 :: live[b].mapped
  }

  ghost function AllPages(slabs: seq<Slab>): set<Addr> {
    if slabs == [] then {} else AllPages(slabs[..|slabs| - 1]) + slabs[|slabs| - 1].pages
  }

  ghost function PageCount(slabs: seq<Slab>): nat {
    if slabs == [] then 0 else PageCount(slabs[..|slabs| - 1]) + |slabs[|slabs| - 1].pages|
  }

  lemma {:induction false} AllPagesMembers(slabs: seq<Slab>, p: Addr)
    ensures p in AllPages(slabs) <==> IsPage(slabs, p)
  {
    if slabs != [] {
      var n := |slabs| - 1;
      AllPagesMembers(slabs[..n], p);
      assert forall i :: 0 <= i < n ==> slabs[..n][i] == slabs[i];
      if IsPage(slabs, p) {
        var i :| 0 <= i < |slabs| && p in slabs[i].pages;
        assert i < n ==> p in slabs[..n][i].pages;
      }
    }
  }

  lemma {:induction false} PagesAddUp(slabs: seq<Slab>)
    requires forall i, j, p :: 0 <= i < j < |slabs| && p in slabs[i].pages ==> p !in slabs[j].pages
    ensures |AllPages(slabs)| == PageCount(slabs)
  {
    if slabs != [] {
      var n := |slabs| - 1;
      PagesAddUp(slabs[..n]);
      var a, b := AllPages(slabs[..n]), slabs[n].pages;
      if |a * b| != 0 {
        var p := Pick(a * b);
        AllPagesMembers(slabs[..n], p);
      }
    }
  }

  /** Regions that are one page each or appear in l: their bytes are those of the pages and of l. */
  lemma {:induction false} SumOfPages(regs: map<Addr, nat>, pages: set<Addr>, l: map<Addr, nat>)
    requires forall p :: p in pages ==> p in regs && regs[p] == PAGE && p !in l
    requires forall p :: p in regs ==> p in pages || (p in l && l[p] == regs[p])
    requires forall p :: p in l ==> p in regs
    ensures Sum(regs) == PAGE * |pages| + Sum(l)
    decreases |pages|
  {
    if |pages| == 0 {
      assert pages == {};
      SameMap(regs, l);
    } else {
      var p := Pick(pages);
      SumRemove(regs, p);
      SumOfPages(regs - {p}, pages - {p}, l);
    }
  }

  /** A page starts with a block of its class. */
  lemma PageExtent(h: Heap, i: int, p: Addr)
    requires Classes(h) && 0 <= i < CLASSES && p in h.slabs[i].pages
    ensures p in h.ext && h.ext[p] == BlockSize(i)
  {
    assert SlabInv(i, h.slabs[i]) && Grid(i, h.slabs[i], h.ext, h.os, h.abandoned);
    PageIsBlock(i, p);
  }

  lemma PagesDisjoint(h: Heap, i: int, j: int, p: Addr)
    requires Classes(h) && 0 <= i < CLASSES && 0 <= j < CLASSES && i != j
    ensures p !in h.slabs[i].pages || p !in h.slabs[j].pages
  {
    if p in h.slabs[i].pages && p in h.slabs[j].pages {
      PageExtent(h, i, p);
      PageExtent(h, j, p);
      BlockSizesDiffer(i, j);
    }
  }

  lemma RegionValues(h: Heap, p: Addr)
    requires HeapInv(h) && Quiescent(h)
    ensures p in AllPages(h.slabs) ==> p in h.regs && h.regs[p] == PAGE && p !in LargeSizes(h.live)
    ensures p in h.regs ==>
              p in AllPages(h.slabs) || (p in LargeSizes(h.live) && LargeSizes(h.live)[p] == h.regs[p])
    ensures p in LargeSizes(h.live) ==> p in h.regs
  {
    AllPagesMembers(h.slabs, p);
    if p in AllPages(h.slabs) {
      var i :| 0 <= i < CLASSES && p in h.slabs[i].pages;
      assert Grid(i, h.slabs[i], h.ext, h.os, h.abandoned);
    }
    if p in LargeSizes(h.live) {
      assert LiveBlock(p, h.live[p], h.ext, h.os, h.abandoned);
    }
  }

  /** Between calls `allocated` is the sum of the live requested sizes, and `totmem` is the slab pages
      plus what was mapped for live large blocks. */
  lemma ExactCounters(h: Heap)
    requires HeapInv(h) && Quiescent(h)
    ensures h.used == Sum(LiveSizes(h.live))
    ensures h.total == PAGE * PageCount(h.slabs) + Sum(LargeSizes(h.live))
  {
    SameMap(h.acc, LiveSizes(h.live));
    forall p
      ensures p in AllPages(h.slabs) ==> p in h.regs && h.regs[p] == PAGE && p !in LargeSizes(h.live)
      ensures p in h.regs ==>
                p in AllPages(h.slabs) || (p in LargeSizes(h.live) && LargeSizes(h.live)[p] == h.regs[p])
      ensures p in LargeSizes(h.live) ==> p in h.regs
    {
      RegionValues(h, p);
    }
    SumOfPages(h.regs, AllPages(h.slabs), LargeSizes(h.live));
    forall i, j, p | 0 <= i < j < |h.slabs| && p in h.slabs[i].pages ensures p !in h.slabs[j].pages {
      PagesDisjoint(h, i, j, p);
    }
    PagesAddUp(h.slabs);
  }

  /** Between calls the blocks of a class that are out are exactly its live blocks. */
  lemma OutIsLive(h: Heap, i: int)
    requires Outstanding(h) && Quiescent(h) && 0 <= i < CLASSES
    requires forall b :: b in h.live ==> h.live[b].size < WORDS
    ensures h.slabs[i].out == set b | b in h.live && ClassOf(h.live[b].size) == i
  {
    forall b ensures b in h.slabs[i].out <==> b in h.live && ClassOf(h.live[b].size) == i {
      assert b in h.slabs[i].out <==> HeldClass(h.live, h.hands, b) == i;
    }
  }

  /** Between calls the live blocks of a class fill its pages together with the free list, and the
      pages are what the peak of live blocks needs. */
  lemma ExactClass(h: Heap, i: int)
    requires Classes(h) && Quiescent(h) && 0 <= i < CLASSES
    ensures var s := h.slabs[i];
            && PerPage(i) * |s.pages| == |s.free| + |s.out|
            && |s.pages| == (s.peak + PerPage(i) - 1) / PerPage(i) && |s.out| <= s.peak
  {
    var s := h.slabs[i];
    assert SlabInv(i, s) && Uncarved(s) <= 0;
    Conservation(i, s);
    HighWater(i, s);
  }
}

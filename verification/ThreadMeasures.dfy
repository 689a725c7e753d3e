/** Which calls any threads can make and how much memory they take: what is mapped for a large request, when a page
    is asked for, and which block a request gets. */
module ThreadMeasures {
  import opened Bytes
  import opened Sizes
  import opened PsList
  import opened Slabs
  import opened Os
  import opened Heaps
  import opened HeapSteps
  import opened HeapRegions
  import opened Threads
  import opened ThreadInvariant
  import opened ThreadRuns

  /** In every reachable state a live large block is a region of whole pages, with room for its header and the
      requested bytes and less than a page more, and its header says so. */
  lemma LargeTight(r: seq<State>, j: nat, b: Addr)
    requires Run(r) && j < |r| && b in r[j].heap.live && r[j].heap.live[b].mapped != 0
    ensures var h, a := r[j].heap, r[j].heap.live[b];
            && b in h.os && h.os[b] == a.mapped && a.mapped % 4096 == 0
            && a.size + 16 <= a.mapped < a.size + 16 + 4096 && Mapped(h.mem, b, 16) && Load(h.mem, b + 8) == a.mapped
  {
    hide Inv, HeapInv, Run;
    RunKeeps(r, j);
    InvParts(r[j]);
    LiveTight(r[j].heap, b);
  }

  /** The same of a large block in the hands of a thread, from the write of its header until its region goes back
      to the OS. */
  lemma HandTight(r: seq<State>, j: nat, t: int)
    requires Run(r) && j < |r| && 0 <= t < |r[j].threads|
    requires var d := HoldOf(r[j].threads[t]); d.Block? && d.header && d.cls == -1
    ensures var h, b := r[j].heap, HoldOf(r[j].threads[t]).b;
            && b in h.os && h.os[b] % 4096 == 0 && Mapped(h.mem, b, 16) && Load(h.mem, b + 8) == h.os[b]
            && Load(h.mem, b) + 16 <= h.os[b] < Load(h.mem, b) + 16 + 4096
  {
    hide Inv, HeapInv, Run;
    RunKeeps(r, j);
    InvParts(r[j]);
    HeapParts(r[j].heap);
    var pc := r[j].threads[t];
    OwnOf(r[j], t, HoldOf(pc), LockOf(pc), PinOf(pc));
    HeldExtent(r[j].heap, HoldOf(pc).b);
  }

  /** A page is asked for only with no free block of the class and every block of its pages out, as many as ever
      in the epoch: blocks once freed are used again before any page is mapped. */
  lemma AsksWhenFull(r: seq<State>, j: nat, t: int, k: Call)
    requires Run(r) && j < |r| && 0 <= t < |r[j].threads| && r[j].threads[t] == AskPage(k)
    ensures k.size <= SIZE_MAX && |r[j].heap.slabs| == CLASSES && 0 <= ClassOf(k.size)
    ensures var s := r[j].heap.slabs[ClassOf(k.size)];
            s.free == [] && |s.out| == PerPage(ClassOf(k.size)) * |s.pages| == s.peak
  {
    hide Inv, HeapInv, Run;
    RunKeeps(r, j);
    InvParts(r[j]);
    HeapParts(r[j].heap);
    OwnOf(r[j], t, Nothing, LockOf(AskPage(k)), PinOf(AskPage(k)));
    ClassFull(r[j].heap, ClassOf(k.size));
  }

  lemma ClassFull(h: Heap, i: int)
    requires Classes(h) && 0 <= i < CLASSES && h.slabs[i].free == [] && !h.slabs[i].claiming
    ensures |h.slabs[i].out| == PerPage(i) * |h.slabs[i].pages| == h.slabs[i].peak
  {
    assert SlabInv(i, h.slabs[i]);
    ClaimOnlyWhenFull(i, h.slabs[i]);
  }

  /** A request served by a slab gets the first block of the list of its class, which loses no other; once the
      latest page of the class has been used up that is the free block of the lowest address. */
  lemma TakesFirst(r: seq<State>, j: nat, t: int, k: Call)
    requires Run(r) && j + 1 < |r| && Shape(r[j], t) && r[j].threads[t] == PopFirst(k) && Step(r[j], t, r[j + 1])
    ensures k.size <= SIZE_MAX && 0 <= ClassOf(k.size) && |r[j + 1].heap.slabs| == CLASSES
    ensures var s, s' := r[j].heap.slabs[ClassOf(k.size)], r[j + 1].heap.slabs[ClassOf(k.size)];
            && s.free != [] && s'.free == s.free[1..] && s'.pages == s.pages && r[j + 1].heap.os == r[j].heap.os
            && t < |r[j + 1].threads| && r[j + 1].threads[t] == Unlock(k, s.free[0])
            && (s.nd == 0 ==> forall a :: a in s.free ==> s.free[0] <= a)
  {
    hide Inv, HeapInv, Run, Unlinked;
    RunKeeps(r, j);
    var h, i := r[j].heap, ClassOf(k.size);
    InvParts(r[j]);
    HeapParts(h);
    OwnOf(r[j], t, Nothing, LockOf(PopFirst(k)), PinOf(PopFirst(k)));
    ListView(h, i);
    if h.slabs[i].nd == 0 {
      FirstIsLowest(h, i);
    }
  }

  lemma FirstIsLowest(h: Heap, i: int)
    requires Classes(h) && 0 <= i < CLASSES && h.slabs[i].nd == 0
    ensures forall a :: a in h.slabs[i].free ==> h.slabs[i].free != [] && h.slabs[i].free[0] <= a
  {
    assert SlabInv(i, h.slabs[i]);
    forall a | a in h.slabs[i].free ensures h.slabs[i].free[0] <= a {
      LowestFirst(i, h.slabs[i], a);
    }
  }

  // ----- The OS answers -----

  /** Whatever region of whole pages the OS gives for a large request, if it has room for header and request and
      less than a page more, the call takes it. */
  lemma LargeServed(r: seq<State>, j: nat, t: int, k: Call, p: Addr, n: nat, m': Memory) returns (s': State)
    requires Run(r) && j < |r| && Shape(r[j], t) && r[j].threads[t] == LargeAsk(k)
    requires FreshRegion(r[j].heap.mem, m', p, n) && n % 4096 == 0 && k.size + 16 <= n < k.size + 16 + 4096
    ensures Step(r[j], t, s') && s'.threads == r[j].threads[t := LargeHeader(k, p)]
    ensures s'.heap.mem == m' && s'.heap.os == r[j].heap.os[p := n]
  {
    hide Inv, HeapInv, Run, FreshRegion;
    RunKeeps(r, j);
    OwnOf(r[j], t, HoldOf(LargeAsk(k)), LockOf(LargeAsk(k)), PinOf(LargeAsk(k)));
    TightIsAligned(r[j].heap.mem, m', p, k.size, n);
    s' := Moves(r[j], t, LargeHeader(k, p), LargeClaimed(r[j].heap, p, n, t, m'));
    assert LargeAnswer(r[j], t, k, p, s');
  }

  lemma TightIsAligned(m: Memory, m': Memory, p: Addr, size: nat, n: nat)
    requires FreshRegion(m, m', p, n) && Tight(size, n)
    ensures PageAlign(HEADER + size) == n
  {
    PageAlignIsLeast(HEADER + size, n);
  }

  /** Whatever page the OS gives, the class of the request takes it. */
  lemma PageServed(r: seq<State>, j: nat, t: int, k: Call, p: Addr, m': Memory) returns (s': State)
    requires Run(r) && j < |r| && Shape(r[j], t) && r[j].threads[t] == AskPage(k)
    requires FreshRegion(r[j].heap.mem, m', p, 4096)
    ensures Step(r[j], t, s') && s'.threads == r[j].threads[t := CountPage(k, p)]
    ensures s'.heap.mem == m' && s'.heap.os == r[j].heap.os[p := 4096]
  {
    hide Inv, HeapInv, Run, FreshRegion;
    RunKeeps(r, j);
    InvParts(r[j]);
    OwnOf(r[j], t, HoldOf(AskPage(k)), LockOf(AskPage(k)), PinOf(AskPage(k)));
    s' := Moves(r[j], t, CountPage(k, p), Claimed(r[j].heap, ClassOf(k.size), p, m'));
    assert PageAnswer(r[j], t, k, ClassOf(k.size), p, s');
  }

  // ----- Calls can be made -----

  /** In every reachable state a thread between calls can call p2malloc and p2calloc for every size with room for
      its header. */
  lemma MallocBegins(r: seq<State>, j: nat, t: int, k: Call) returns (s': State)
    requires Run(r) && j < |r| && Shape(r[j], t) && r[j].threads[t] == Idle
    requires !k.ReallocCall? && 0 < k.size && k.size + 16 < WORDS
    ensures Step(r[j], t, s') && s' == r[j].(threads := r[j].threads[t := Cas(k)])
  {
    s' := Moves(r[j], t, Cas(k), r[j].heap);
    assert BeginMalloc(r[j], t, k, s');
  }

  /** And p2free of every live block that no other call works on. */
  lemma FreeBegins(r: seq<State>, j: nat, t: int, b: Addr) returns (s': State)
    requires Run(r) && j < |r| && Shape(r[j], t) && r[j].threads[t] == Idle
    requires b in r[j].heap.live && b !in r[j].pins
    ensures Step(r[j], t, s') && s' == r[j].(threads := r[j].threads[t := FreeStart(b)], pins := r[j].pins[b := t])
  {
    hide Inv, HeapInv, Run;
    RunKeeps(r, j);
    InvParts(r[j]);
    LiveSize(r[j].heap, b);
    s' := Moves(r[j], t, FreeStart(b), r[j].heap).(pins := r[j].pins[b := t]);
    assert BeginFree(r[j], t, b, s');
  }

  lemma LiveSize(h: Heap, b: Addr)
    requires HeapInv(h) && b in h.live
    ensures 0 < h.live[b].size <= SIZE_MAX - HEADER && HasHeader(h.mem, b, h.live[b])
  {
    assert LiveBlock(b, h.live[b], h.ext, h.os, h.abandoned);
  }

  /** And p2realloc of every such block: in place if it is a slab block and the size of its class, through p2malloc
      otherwise, if the size has room for its header. */
  lemma ReallocBegins(r: seq<State>, j: nat, t: int, b: Addr, n: nat) returns (s': State)
    requires Run(r) && j < |r| && Shape(r[j], t) && r[j].threads[t] == Idle
    requires b in r[j].heap.live && b !in r[j].pins && 0 < n && n + 16 < WORDS
    ensures Step(r[j], t, s') && r[j].heap.live[b].size <= SIZE_MAX
    ensures var a := r[j].heap.live[b];
            var inPlace := a.mapped == 0 && ClassOf(n) == ClassOf(a.size);
            var pc := if inPlace then ResizeSub(b, n) else Cas(ReallocCall(b, n));
            s' == r[j].(threads := r[j].threads[t := pc], pins := r[j].pins[b := t])
  {
    hide Inv, HeapInv, Run;
    RunKeeps(r, j);
    InvParts(r[j]);
    LiveSize(r[j].heap, b);
    var a := r[j].heap.live[b];
    var pc := if a.mapped == 0 && ClassOf(n) == ClassOf(a.size) then ResizeSub(b, n) else Cas(ReallocCall(b, n));
    s' := Moves(r[j], t, pc, r[j].heap).(pins := r[j].pins[b := t]);
    assert BeginRealloc(r[j], t, b, n, s');
  }

  /** Between calls p2reset can be called. */
  lemma ResetBegins(r: seq<State>, j: nat) returns (s': State)
    requires Run(r) && j < |r| && forall t :: 0 <= t < |r[j].threads| ==> r[j].threads[t] == Idle
    ensures ResetStep(r[j], s')
  {
    hide Inv, HeapInv, Run, Initialised;
    RunKeeps(r, j);
    InvParts(r[j]);
    var h := r[j].heap;
    SentinelsApart(h);
    var ms := RelinksExist(h.mem, h.heads, CLASSES);
    s' := r[j].(heap := Abandoned(h).(mem := ms[CLASSES], ready := CLASSES), init := 2);
    assert ResetBy(r[j], ms, s');
  }

  lemma {:induction false} RelinksExist(m: Memory, heads: seq<Addr>, n: nat) returns (ms: seq<Memory>)
    requires SentinelSpace(m, heads) && n <= CLASSES
    ensures |ms| == n + 1 && ms[0] == m && ms[n].Keys == m.Keys
    ensures forall k :: 0 <= k < n ==> Initialised(ms[k], ms[k + 1], heads[k])
  {
    if n == 0 {
      ms := [m];
    } else {
      var ls := RelinksExist(m, heads, n - 1);
      SameKeysMapped(m, ls[n - 1], heads[n - 1], LINK);
      var l := InitExists(ls[n - 1], heads[n - 1]);
      ms := ls + [l];
    }
  }

  lemma SameKeysMapped(m: Memory, m': Memory, a: Addr, n: nat)
    requires m'.Keys == m.Keys && Mapped(m, a, n)
    ensures Mapped(m', a, n)
  {
    assert forall b :: b in m' <==> b in m'.Keys;
  }
}

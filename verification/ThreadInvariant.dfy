/** What holds between any two steps of any threads, and why a step of one thread does not disturb what
    another one relies on. */
module ThreadInvariant {
  import opened Bytes
  import opened Sizes
  import opened Slabs
  import opened Heaps
  import opened HeapRegions
  import opened Threads
  import A = AllocSpec

  ghost predicate LocksInv(s: State)
    requires |s.locks| == CLASSES == |s.heap.slabs|
  {
    forall i :: 0 <= i < CLASSES ==>
      if s.locks[i] == -1 then !s.heap.slabs[i].claiming
      else 0 <= s.locks[i] < |s.threads| && LockOf(s.threads[s.locks[i]]) != NoLock
           && LockOf(s.threads[s.locks[i]]).i == i
  }

  /** Every block in hands is in the hands of one thread, at a place of its program that says so. */
  ghost predicate HandsInv(s: State) {
    forall b :: b in s.heap.hands ==>
      var o := s.heap.hands[b].owner;
      0 <= o < |s.threads| && HoldOf(s.threads[o]).Block? && HoldOf(s.threads[o]).b == b
  }

  ghost predicate PinsInv(s: State) {
    forall b :: b in s.pins ==>
      && b in s.heap.live && 0 <= s.pins[b] < |s.threads|
      && PinOf(s.threads[s.pins[b]]).Pinned? && PinOf(s.threads[s.pins[b]]).b == b
  }

  ghost predicate InitInv(s: State) {
    && 0 <= s.init <= 2
    && (s.init == 0 ==> s.heap.ready == 0)
    && (s.init == 1 ==> 0 <= s.initer < |s.threads|
                        && (s.threads[s.initer].Heads? || s.threads[s.initer].Store2?))
    && (s.init == 2 ==> s.heap.ready == CLASSES)
    && (s.init != 2 ==> forall b :: !Held(s.heap, b))
  }

  /** Live blocks that no call works on are counted with their size. */
  ghost predicate LiveCounted(s: State) {
    forall b :: b in s.heap.live && b !in s.pins ==> b in s.heap.acc && s.heap.acc[b] == s.heap.live[b].size
  }

  /** A page whose holder is about to count it. */
  ghost predicate PageUncounted(s: State, i: int, p: Addr)
    requires 0 <= i < CLASSES == |s.locks|
  {
    0 <= s.locks[i] < |s.threads| && LockOf(s.threads[s.locks[i]]) == Claiming(i, p, p, false)
  }

  ghost predicate RegionsCounted(s: State)
    requires |s.locks| == CLASSES == |s.heap.slabs|
  {
    && (forall i, p :: 0 <= i < CLASSES && p in s.heap.slabs[i].pages ==> p in s.heap.regs || PageUncounted(s, i, p))
    && (forall b :: b in s.heap.live && s.heap.live[b].mapped != 0 ==> b in s.heap.regs)
    && (forall p :: p in s.heap.regs ==> RegionUser(s.heap, p))
  }

  /** Something behind which region p stands: a page of a class, a live large block or one in hands. */
  ghost predicate RegionUser(h: Heap, p: Addr) {
    || IsPage(h.slabs, p)
    || (p in h.live && h.live[p].mapped != 0)
    || (p in h.hands && h.hands[p].cls == -1)
  }

  ghost predicate ThreadsOk(s: State)
    requires |s.locks| == CLASSES == |s.heap.slabs|
  {
    forall t :: 0 <= t < |s.threads| ==> ThreadOk(s, t, s.threads[t])
  }

  ghost predicate Inv(s: State) {
    && HeapInv(s.heap) && |s.locks| == CLASSES && |s.rets| == |s.threads|
    && ThreadsOk(s) && LocksInv(s) && HandsInv(s) && PinsInv(s) && InitInv(s)
    && LiveCounted(s) && RegionsCounted(s)
  }

  /** What a step that concerns blocks b and c and class i leaves alone. */
  ghost predicate Quiet2(h: Heap, h': Heap, b: Addr, c: Addr, i: int) {
    && h'.heads == h.heads && |h'.slabs| == |h.slabs| && KeepsAbandoned(h, h')
    && (forall x :: x != b && x != c ==>
          && (x in h'.live <==> x in h.live) && (x in h.live ==> h'.live[x] == h.live[x])
          && (x in h'.hands <==> x in h.hands) && (x in h.hands ==> h'.hands[x] == h.hands[x])
          && (x in h'.acc <==> x in h.acc) && (x in h.acc ==> h'.acc[x] == h.acc[x]))
    && (forall x :: x != b && x != c && Held(h, x) && x in h.ext ==>
          x in h'.ext && h'.ext[x] == h.ext[x] && Same(h.mem, h'.mem, x, h.ext[x]))
    && (forall j :: 0 <= j < |h.slabs| && j != i ==> h'.slabs[j] == h.slabs[j])
    && (forall p :: !((p == b || p == c) && LargeExtent(h, p)) && (0 <= i < |h.slabs| ==> p !in h'.slabs[i].pages)
          ==> (p in h'.regs <==> p in h.regs))
  }

  lemma QuietIsQuiet2(h: Heap, h': Heap, b: Addr, c: Addr, i: int)
    requires Quiet(h, h', b, i)
    ensures Quiet2(h, h', b, c, i)
  {
  }

  lemma HeapShape(h: Heap)
    requires HeapInv(h)
    ensures |h.slabs| == CLASSES == |h.heads|
  {
  }

  lemma InvParts(s: State)
    requires Inv(s)
    ensures HeapInv(s.heap) && |s.locks| == CLASSES == |s.heap.slabs| == |s.heap.heads| && InitInv(s)
  {
  }

  /** What every step keeps of an epoch: the regions given up, and the peak of each class as the largest
      number of its blocks ever out. */
  ghost predicate Background(h: Heap, h': Heap) {
    && KeepsAbandoned(h, h') && |h'.slabs| == |h.slabs|
    && forall i :: 0 <= i < |h.slabs| ==> PeakStep(h.slabs[i], h'.slabs[i])
  }

  lemma KeepBackground(s: State, t: int, s': State, b: Addr, i: int, c: Addr)
    requires HeapInv(s.heap) && |s.locks| == CLASSES == |s'.locks| && Footprint(s, t, s', b, i, c)
    ensures Background(s.heap, s'.heap)
  {
    hide HeapInv;
    HeapParts(s.heap);
    forall j | 0 <= j < |s.heap.slabs| ensures PeakStep(s.heap.slabs[j], s'.heap.slabs[j]) {
      if j != i {
        SamePeak(s.heap, j);
      }
    }
  }

  lemma SamePeak(h: Heap, i: int)
    requires Classes(h) && 0 <= i < CLASSES
    ensures PeakStep(h.slabs[i], h.slabs[i])
  {
    assert SlabInv(i, h.slabs[i]);
  }

  // ----- Rely -----

  lemma LoadsSame(m: Memory, m': Memory, b: Addr, n: nat)
    requires Same(m, m', b, n) && n >= 32 && Mapped(m, b, HEADER + 8)
    ensures Mapped(m', b, HEADER + 8)
    ensures Load(m', b) == Load(m, b) && Load(m', b + 8) == Load(m, b + 8) && Load(m', b + 16) == Load(m, b + 16)
  {
    WordSame(m, m', b);
    WordSame(m, m', b + 8);
    WordSame(m, m', b + 16);
  }

  /** A large block is no page, so the pages a step touches are not its region. */
  lemma LargeNotPage(h: Heap, b: Addr, i: int)
    requires Layout(h) && Classes(h) && Owned(h) && 0 <= i < CLASSES
    requires (b in h.hands && h.hands[b].cls == -1) || (b in h.live && h.live[b].size < WORDS && h.live[b].mapped != 0)
    ensures b !in h.slabs[i].pages
  {
    if b in h.live {
      assert LiveBlock(b, h.live[b], h.ext, h.os, h.abandoned);
    }
    assert LargeRegion(b, h.ext, h.os, h.abandoned);
    LargeIsNoPage(h, b, i, 0);
  }

  lemma RelyHold(h: Heap, h': Heap, b: Addr, c: Addr, i: int, u: int, d: Hold)
    requires HeapInv(h) && HeapInv(h') && Quiet2(h, h', b, c, i) && -1 <= i < CLASSES
    requires HoldOk(h, u, d) && (d.Block? ==> d.b != b && d.b != c)
    ensures HoldOk(h', u, d)
  {
    if d.Block? {
      HeldExtent(h, d.b);
      assert Same(h.mem, h'.mem, d.b, h.ext[d.b]);
      LoadsSame(h.mem, h'.mem, d.b, h.ext[d.b]);
      if d.cls == -1 && i >= 0 {
        LargeNotPage(h', d.b, i);
      }
    }
  }

  lemma RelyLock(h: Heap, h': Heap, locks: seq<int>, locks': seq<int>, b: Addr, c: Addr, i: int, u: int,
                 d: LockHold)
    requires HeapInv(h) && HeapInv(h') && Quiet2(h, h', b, c, i) && -1 <= i < CLASSES
    requires |locks| == |locks'| == CLASSES && LockOk(h, locks, u, d)
    requires d != NoLock ==> d.i != i && locks'[d.i] == locks[d.i]
    ensures LockOk(h', locks', u, d)
  {
    hide HeapInv, Layout, Classes, Owned, Lists, Accounts, Sentinels, Outstanding;
    HeapParts(h);
    HeapParts(h');
    HeapShape(h);
    HeapShape(h');
    if d.Claiming? {
      A.PageExtent(h, d.i, d.page);
      if i >= 0 {
        A.PagesDisjoint(h', d.i, i, d.page);
      }
    }
  }

  lemma RelyPin(h: Heap, h': Heap, pins: map<Addr, int>, pins': map<Addr, int>, b: Addr, c: Addr, i: int, u: int,
                d: Pin)
    requires Quiet2(h, h', b, c, i) && PinOk(h, pins, u, d)
    requires d.Pinned? ==> d.b != b && d.b != c && d.b in pins' && pins'[d.b] == pins[d.b]
    ensures PinOk(h', pins', u, d)
  {
  }

  /** What a step of t may do to init_state. */
  ghost predicate InitMoves(s: State, t: int, s': State) {
    || (s'.init == s.init && s'.initer == s.initer
        && (s'.heap.ready == s.heap.ready || (s.init == 1 && s.initer == t)))
    || (s.init == 0 && s'.init == 1 && s'.initer == t && s'.heap.ready == s.heap.ready)
    || (s.init == 1 && s.initer == t && s'.init == 2 && s'.initer == t && s'.heap.ready == s.heap.ready)
  }

  lemma RelyInit(s: State, t: int, s': State, u: int, pc: Pc)
    requires InitMoves(s, t, s') && u != t && InitOk(s, u, pc)
    ensures InitOk(s', u, pc)
  {
  }

  /** The footprint of a step of t: blocks b and c and class i of the heap, block c of the pins. b and c are
      no blocks of another thread, i a class whose lock t holds. */
  ghost predicate Footprint(s: State, t: int, s': State, b: Addr, i: int, c: Addr)
    requires |s.locks| == CLASSES == |s'.locks|
  {
    && 0 <= t < |s.threads| == |s'.threads| && s'.threads == s.threads[t := s'.threads[t]]
    && |s.rets| == |s'.rets|
    && Quiet2(s.heap, s'.heap, b, c, i) && -1 <= i < CLASSES && (i >= 0 ==> s.locks[i] == t)
    && (0 <= i < |s.heap.slabs| ==> PeakStep(s.heap.slabs[i], s'.heap.slabs[i]))
    && (b in s.heap.hands ==> s.heap.hands[b].owner == t) && (b in s.pins ==> s.pins[b] == t)
    && (c in s.heap.hands ==> s.heap.hands[c].owner == t) && (c in s.pins ==> s.pins[c] == t)
    && (forall x :: x != c ==> (x in s'.pins <==> x in s.pins) && (x in s.pins ==> s'.pins[x] == s.pins[x]))
    && (forall j :: 0 <= j < CLASSES ==>
          s'.locks[j] == s.locks[j] || (s.locks[j] in {-1, t} && s'.locks[j] in {-1, t}))
    && InitMoves(s, t, s')
  }

  /** A step with footprint b, i, c leaves every other thread's assertion true. */
  lemma Rely(s: State, t: int, s': State, b: Addr, i: int, c: Addr, u: int)
    requires Inv(s) && HeapInv(s'.heap) && |s'.locks| == CLASSES && |s'.threads| == |s.threads|
    requires 0 <= t < |s.threads| && Footprint(s, t, s', b, i, c) && 0 <= u < |s.threads| && u != t
    ensures ThreadOk(s', u, s'.threads[u])
  {
    var pc := s.threads[u];
    assert ThreadOk(s, u, pc);
    RelyInit(s, t, s', u, pc);
    RelyHold(s.heap, s'.heap, b, c, i, u, HoldOf(pc));
    RelyLock(s.heap, s'.heap, s.locks, s'.locks, b, c, i, u, LockOf(pc));
    RelyPin(s.heap, s'.heap, s.pins, s'.pins, b, c, i, u, PinOf(pc));
  }

  // ----- The step of one thread keeps the invariant -----

  /** After the step t holds exactly what its new place says: locks, block in hands, pinned block. */
  ghost predicate OwnLocks(s: State, t: int, s': State, l': LockHold)
    requires |s.locks| == CLASSES == |s'.locks| == |s'.heap.slabs|
  {
    forall j :: 0 <= j < CLASSES ==>
      && (s'.locks[j] == t ==> l' != NoLock && l'.i == j)
      && (s'.locks[j] == -1 && s.locks[j] == t ==> !s'.heap.slabs[j].claiming)
  }

  ghost predicate OwnHands(t: int, h': Heap, d': Hold, b: Addr, c: Addr) {
    && (b in h'.hands ==> h'.hands[b].owner == t) && (c in h'.hands ==> h'.hands[c].owner == t)
    && forall x :: x in h'.hands && h'.hands[x].owner == t ==> d'.Block? && d'.b == x
  }

  ghost predicate OwnPins(t: int, s': State, p': Pin, c: Addr) {
    && (c in s'.pins ==> s'.pins[c] == t)
    && forall x :: x in s'.pins && s'.pins[x] == t ==> x in s'.heap.live && p'.Pinned? && p'.b == x
  }

  ghost predicate OwnCounts(s': State, b: Addr, c: Addr) {
    forall x :: (x == b || x == c) && x in s'.heap.live && x !in s'.pins ==>
      x in s'.heap.acc && s'.heap.acc[x] == s'.heap.live[x].size
  }

  ghost predicate OwnRegions(s: State, t: int, s': State, l': LockHold, b: Addr, c: Addr, i: int)
    requires |s.locks| == CLASSES == |s'.locks| == |s'.heap.slabs| == |s.heap.slabs| && -1 <= i < CLASSES
  {
    && (i >= 0 ==> s.heap.slabs[i].pages <= s'.heap.slabs[i].pages)
    && (forall j, p :: 0 <= j < CLASSES && (j == i || s.locks[j] == t) && p in s'.heap.slabs[j].pages ==>
          p in s'.heap.regs || (s'.locks[j] == t && l' == Claiming(j, p, p, false)))
    && (forall x :: (x == b || x == c) && x in s'.heap.live && s'.heap.live[x].mapped != 0 ==> x in s'.heap.regs)
    && (forall x :: (x == b || x == c) && x in s'.heap.regs ==> RegionUser(s'.heap, x))
  }

  /** The new place of t and what it says of block, lock and pin. */
  ghost predicate Placed(s': State, t: int, pc': Pc, d': Hold, l': LockHold, p': Pin)
    requires |s'.locks| == CLASSES == |s'.heap.slabs|
  {
    && PcOk(pc') && InitOk(s', t, pc')
    && d' == HoldOf(pc') && l' == LockOf(pc') && p' == PinOf(pc')
    && HoldOk(s'.heap, t, d') && LockOk(s'.heap, s'.locks, t, l') && PinOk(s'.heap, s'.pins, t, p')
  }

  lemma FootprintShape(s: State, t: int, s': State, b: Addr, i: int, c: Addr)
    requires |s.locks| == CLASSES == |s'.locks| && Footprint(s, t, s', b, i, c)
    ensures 0 <= t < |s.threads| == |s'.threads| && |s.rets| == |s'.rets|
  {
  }

  lemma KeepThreads(s: State, t: int, s': State, b: Addr, i: int, c: Addr)
    requires Inv(s) && HeapInv(s'.heap) && |s'.locks| == CLASSES && Footprint(s, t, s', b, i, c)
    requires ThreadOk(s', t, s'.threads[t])
    ensures ThreadsOk(s')
  {
    hide Inv, HeapInv, Footprint, ThreadOk;
    InvParts(s);
    HeapShape(s'.heap);
    FootprintShape(s, t, s', b, i, c);
    forall u | 0 <= u < |s'.threads| ensures ThreadOk(s', u, s'.threads[u]) {
      if u != t {
        Rely(s, t, s', b, i, c, u);
      }
    }
  }

  lemma KeepLocks(s: State, t: int, s': State, b: Addr, i: int, c: Addr)
    requires |s.locks| == CLASSES == |s'.locks| == |s.heap.slabs| == |s'.heap.slabs|
    requires LocksInv(s) && Footprint(s, t, s', b, i, c) && OwnLocks(s, t, s', LockOf(s'.threads[t]))
    ensures LocksInv(s')
  {
    forall j | 0 <= j < CLASSES
      ensures if s'.locks[j] == -1 then !s'.heap.slabs[j].claiming
              else 0 <= s'.locks[j] < |s'.threads| && LockOf(s'.threads[s'.locks[j]]) != NoLock
                   && LockOf(s'.threads[s'.locks[j]]).i == j
    {
      assert s'.locks[j] == s.locks[j] || (s.locks[j] in {-1, t} && s'.locks[j] in {-1, t});
    }
  }

  lemma KeepHands(s: State, t: int, s': State, b: Addr, i: int, c: Addr)
    requires |s.locks| == CLASSES == |s'.locks|
    requires HandsInv(s) && Footprint(s, t, s', b, i, c) && OwnHands(t, s'.heap, HoldOf(s'.threads[t]), b, c)
    ensures HandsInv(s')
  {
  }

  lemma KeepPins(s: State, t: int, s': State, b: Addr, i: int, c: Addr)
    requires |s.locks| == CLASSES == |s'.locks|
    requires PinsInv(s) && Footprint(s, t, s', b, i, c) && OwnPins(t, s', PinOf(s'.threads[t]), c)
    ensures PinsInv(s')
  {
  }

  lemma KeepCounts(s: State, t: int, s': State, b: Addr, i: int, c: Addr)
    requires |s.locks| == CLASSES == |s'.locks|
    requires LiveCounted(s) && Footprint(s, t, s', b, i, c) && OwnCounts(s', b, c)
    ensures LiveCounted(s')
  {
  }

  lemma KeepPages(s: State, t: int, s': State, b: Addr, i: int, c: Addr, j: int, p: Addr)
    requires Classes(s.heap) && Classes(s'.heap) && |s.locks| == |s'.locks| == CLASSES
    requires RegionsCounted(s) && Footprint(s, t, s', b, i, c)
    requires OwnRegions(s, t, s', LockOf(s'.threads[t]), b, c, i)
    requires 0 <= j < CLASSES && p in s'.heap.slabs[j].pages
    ensures p in s'.heap.regs || PageUncounted(s', j, p)
  {
    hide Classes;
    assert |s.heap.slabs| == CLASSES by { ClassesShape(s.heap); }
    if j != i && s.locks[j] != t {
      PageHolderKept(s, t, s', b, i, c, j, p);
      PageCountKept(s.heap, s'.heap, b, c, i, j, p);
    }
  }

  lemma ClassesShape(h: Heap)
    requires Classes(h)
    ensures |h.slabs| == CLASSES
  {
  }

  lemma PageHolderKept(s: State, t: int, s': State, b: Addr, i: int, c: Addr, j: int, p: Addr)
    requires |s.locks| == |s'.locks| == CLASSES == |s.heap.slabs| && Footprint(s, t, s', b, i, c)
    requires 0 <= j < CLASSES && j != i && s.locks[j] != t
    ensures s'.heap.slabs[j] == s.heap.slabs[j]
    ensures PageUncounted(s, j, p) ==> PageUncounted(s', j, p)
  {
  }

  lemma PageCountKept(h: Heap, h': Heap, b: Addr, c: Addr, i: int, j: int, p: Addr)
    requires Classes(h) && Classes(h') && Quiet2(h, h', b, c, i) && -1 <= i < CLASSES
    requires 0 <= j < CLASSES && j != i && p in h.slabs[j].pages
    ensures p in h'.regs <==> p in h.regs
  {
    A.PageExtent(h, j, p);
    if i >= 0 {
      A.PagesDisjoint(h', j, i, p);
    }
  }

  lemma KeepUsers(s: State, t: int, s': State, b: Addr, i: int, c: Addr, p: Addr)
    requires Inv(s) && HeapInv(s'.heap) && |s'.locks| == CLASSES && Footprint(s, t, s', b, i, c)
    requires OwnRegions(s, t, s', LockOf(s'.threads[t]), b, c, i) && p in s'.heap.regs
    ensures RegionUser(s'.heap, p)
  {
    hide HeapInv, ThreadsOk, LocksInv, HandsInv, PinsInv, InitInv, LiveCounted;
    HeapShape(s.heap);
    HeapShape(s'.heap);
    if i >= 0 && p in s'.heap.slabs[i].pages {
      assert IsPage(s'.heap.slabs, p);
    } else if p != b && p != c {
      assert p in s.heap.regs && RegionUser(s.heap, p);
      if IsPage(s.heap.slabs, p) {
        var j :| 0 <= j < CLASSES && p in s.heap.slabs[j].pages;
        assert p in s'.heap.slabs[j].pages;
      }
    }
  }

  lemma KeepLargeCounted(s: State, t: int, s': State, b: Addr, i: int, c: Addr, x: Addr)
    requires Inv(s) && HeapInv(s'.heap) && |s'.locks| == CLASSES && Footprint(s, t, s', b, i, c)
    requires OwnRegions(s, t, s', LockOf(s'.threads[t]), b, c, i) && x in s'.heap.live && s'.heap.live[x].mapped != 0
    ensures x in s'.heap.regs
  {
    if x != b && x != c && i >= 0 {
      assert LiveBlock(x, s'.heap.live[x], s'.heap.ext, s'.heap.os, s'.heap.abandoned);
      LargeNotPage(s'.heap, x, i);
    }
  }

  lemma KeepRegions(s: State, t: int, s': State, b: Addr, i: int, c: Addr)
    requires Inv(s) && HeapInv(s'.heap) && |s'.locks| == CLASSES && Footprint(s, t, s', b, i, c)
    requires OwnRegions(s, t, s', LockOf(s'.threads[t]), b, c, i)
    ensures RegionsCounted(s')
  {
    forall j, p | 0 <= j < CLASSES && p in s'.heap.slabs[j].pages
      ensures p in s'.heap.regs || PageUncounted(s', j, p)
    {
      KeepPages(s, t, s', b, i, c, j, p);
    }
    forall p | p in s'.heap.regs ensures RegionUser(s'.heap, p) {
      KeepUsers(s, t, s', b, i, c, p);
    }
    forall x | x in s'.heap.live && s'.heap.live[x].mapped != 0 ensures x in s'.heap.regs {
      KeepLargeCounted(s, t, s', b, i, c, x);
    }
  }

  /** A step that stays in its footprint and leaves its own thread in order keeps the invariant. */
  lemma Keep(s: State, t: int, s': State, b: Addr, i: int, c: Addr, d': Hold, l': LockHold, p': Pin)
    requires Inv(s) && HeapInv(s'.heap) && |s'.locks| == CLASSES && Footprint(s, t, s', b, i, c)
    requires Placed(s', t, s'.threads[t], d', l', p') && InitInv(s')
    requires OwnLocks(s, t, s', l') && OwnHands(t, s'.heap, d', b, c)
    requires OwnPins(t, s', p', c) && OwnCounts(s', b, c) && OwnRegions(s, t, s', l', b, c, i)
    ensures Inv(s') && Background(s.heap, s'.heap)
  {
    hide HeapInv, Footprint, ThreadsOk, LocksInv, HandsInv, PinsInv, InitInv, LiveCounted, RegionsCounted;
    hide OwnLocks, OwnHands, OwnPins, OwnCounts, OwnRegions, HoldOk, LockOk, PinOk;
    FootprintShape(s, t, s', b, i, c);
    HeapShape(s.heap);
    HeapShape(s'.heap);
    assert ThreadOk(s', t, s'.threads[t]);
    KeepThreads(s, t, s', b, i, c);
    KeepLocks(s, t, s', b, i, c);
    KeepHands(s, t, s', b, i, c);
    KeepPins(s, t, s', b, i, c);
    KeepCounts(s, t, s', b, i, c);
    KeepRegions(s, t, s', b, i, c);
    KeepBackground(s, t, s', b, i, c);
  }

  // ----- What the invariant says of one thread -----

  /** The place of t, and that it holds no more than the place says. */
  ghost predicate Own(s: State, t: int, d: Hold, l: LockHold, p: Pin)
    requires |s.locks| == CLASSES == |s.heap.slabs|
  {
    && HoldOk(s.heap, t, d) && LockOk(s.heap, s.locks, t, l) && PinOk(s.heap, s.pins, t, p)
    && (forall j :: 0 <= j < CLASSES && s.locks[j] == t ==> l != NoLock && l.i == j)
    && (forall x :: x in s.heap.hands && s.heap.hands[x].owner == t ==> d.Block? && d.b == x)
    && (forall x :: x in s.pins && s.pins[x] == t ==> x in s.heap.live && p.Pinned? && p.b == x)
  }

  lemma OwnOf(s: State, t: int, d: Hold, l: LockHold, p: Pin)
    requires Inv(s) && 0 <= t < |s.threads|
    requires d == HoldOf(s.threads[t]) && l == LockOf(s.threads[t]) && p == PinOf(s.threads[t])
    ensures Own(s, t, d, l, p) && PcOk(s.threads[t]) && InitOk(s, t, s.threads[t])
  {
    assert ThreadOk(s, t, s.threads[t]);
  }

  lemma HoldsNothing(h: Heap, pins: map<Addr, int>, t: int)
    ensures HoldOk(h, t, Nothing) && PinOk(h, pins, t, NoPin)
  {
  }

  // ----- The premises of Keep in the usual cases -----

  lemma SameLocks(s: State, t: int, s': State, l: LockHold, l': LockHold, d: Hold, p: Pin)
    requires |s.locks| == CLASSES == |s.heap.slabs| == |s'.heap.slabs| && s'.locks == s.locks && t >= 0
    requires Own(s, t, d, l, p) && (l != NoLock ==> l' != NoLock && l'.i == l.i)
    ensures OwnLocks(s, t, s', l')
  {
  }

  lemma SamePins(s: State, t: int, s': State, d: Hold, l: LockHold, p: Pin, p': Pin)
    requires |s.locks| == CLASSES == |s.heap.slabs| && Own(s, t, d, l, p) && s'.pins == s.pins && 0 !in s.pins
    requires p.Pinned? ==> p'.Pinned? && p'.b == p.b && (p.b in s.heap.live ==> p.b in s'.heap.live)
    ensures OwnPins(t, s', p', 0)
  {
  }

  /** Regions stay counted when neither pages nor counts nor users of regions change. */
  lemma SameRegions(s: State, t: int, s': State, l: LockHold, l': LockHold, d: Hold, p: Pin, b: Addr, c: Addr)
    requires Inv(s) && |s.heap.slabs| == CLASSES
    requires 0 <= t < |s.threads| && Own(s, t, d, l, p) && l == LockOf(s.threads[t])
    requires |s'.locks| == CLASSES && s'.heap.slabs == s.heap.slabs && s'.heap.regs == s.heap.regs
    requires !(l.Claiming? && !l.counted)
    requires forall x :: x in s.heap.regs && (x == b || x == c) && !IsPage(s.heap.slabs, x) ==> RegionUser(s'.heap, x)
    requires forall x :: (x == b || x == c) && x in s'.heap.live && s'.heap.live[x].mapped != 0 ==> x in s'.heap.regs
    ensures OwnRegions(s, t, s', l', b, c, -1)
  {
    hide HeapInv, ThreadsOk, LocksInv, HandsInv, PinsInv, InitInv, LiveCounted;
    InvParts(s);
    forall j, q | 0 <= j < CLASSES && s.locks[j] == t && q in s'.heap.slabs[j].pages ensures q in s'.heap.regs {
      assert q in s.heap.regs || PageUncounted(s, j, q);
    }
    forall x | (x == b || x == c) && x in s'.heap.regs ensures RegionUser(s'.heap, x) {
      if IsPage(s.heap.slabs, x) {
        assert IsPage(s'.heap.slabs, x);
      }
    }
  }
}

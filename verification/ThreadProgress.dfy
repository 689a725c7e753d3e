/** No deadlock and no livelock: some thread inside a call can always take a real step, every memory access
    of a step is to mapped memory, and every call ends after boundedly many steps of its own. */
module ThreadProgress {
  import opened Bytes
  import opened Sizes
  import opened PsList
  import opened Slabs
  import opened Os
  import opened Heaps
  import opened HeapSteps
  import opened HeapRegions
  import opened Threads
  import opened ThreadInvariant
  import opened AbstractHeap
  import opened ThreadBlockSteps
  import opened ThreadFinishSteps
  import opened ThreadRuns
  import opened ThreadRefinement

  /** The thread waits for init_state or for a lock that is taken. */
  ghost predicate Blocked(s: State, pc: Pc) {
    match pc
    case Spin(_) => s.init != 2
    case Lock(k) => k.size <= SIZE_MAX && 0 <= ClassOf(k.size) < |s.locks| && s.locks[ClassOf(k.size)] != -1
    case LockFree(_, i) => 0 <= i < |s.locks| && s.locks[i] != -1
    case _ => false
  }

  ghost predicate CanStep(s: State, t: int)
    requires Shape(s, t)
  {
    exists s' :: Step(s, t, s')
  }

  // ----- The writes of every step can be made -----

  lemma HeaderExists(m: Memory, b: Addr, size: nat, mapped: nat) returns (m': Memory)
    requires Mapped(m, b, HEADER) && size < WORDS && mapped < WORDS
    ensures HeaderWritten(m, m', b, size, mapped)
  {
    m' := Store(Store(m, b, size), b + 8, mapped);
  }

  lemma ZeroExists(m: Memory, p: Addr, n: nat) returns (m': Memory)
    requires Mapped(m, p, n)
    ensures Zeroed(m, m', p, n)
  {
    m' := map a | a in m :: if p <= a < p + n then 0 else m[a];
    assert m'.Keys == m.Keys;
  }

  lemma CopyExists(m: Memory, dst: Addr, src: Addr, n: nat) returns (m': Memory)
    requires Mapped(m, dst, n) && Mapped(m, src, n)
    ensures Copied(m, m', dst, src, n)
  {
    m' := map a | a in m :: if dst <= a < dst + n then ByteAt(m, src + (a - dst)) else m[a];
    assert m'.Keys == m.Keys;
    forall a | dst <= a < dst + n ensures a in m' && src + (a - dst) in m && m'[a] == m[src + (a - dst)] {
      assert a in m;
    }
  }

  lemma UnmapExists(m: Memory, p: Addr, n: nat) returns (m': Memory)
    ensures Unmapped(m, m', p, n)
  {
    m' := map a | a in m && !(p <= a < p + n) :: m[a];
  }

  lemma PushExists(m: Memory, h: Addr, s: seq<Addr>, n: Addr) returns (m': Memory)
    requires IsList(m, h, s) && Cell(m, n) && OffRing(h, s, n, LINK)
    ensures Pushed(m, m', h, n)
  {
    var m1 := InitExists(m, n);
    PushAllowed(m, m1, h, s, n);
    m' := AddExists(m1, h, n);
  }

  // ----- Steps that are possible -----

  lemma CanInit(s: State, t: int)
    requires Inv(s) && Shape(s, t) && !Blocked(s, s.threads[t])
    requires s.threads[t].Cas? || s.threads[t].Heads? || s.threads[t].Store2? || s.threads[t].Spin?
    ensures CanStep(s, t)
  {
    hide Inv, HeapInv, Layout, Classes, Owned, Lists, Accounts;
    InvParts(s);
    HeapParts(s.heap);
    OwnOf(s, t, Nothing, NoLock, PinOf(s.threads[t]));
    match s.threads[t]
    case Cas(k) =>
      assert Step(s, t, if s.init == 0 then Moves(s, t, Heads(k), s.heap).(init := 1, initer := t)
                        else Moves(s, t, Spin(k), s.heap));
    case Heads(k) =>
      HeadAllowed(s.heap);
      var m' := InitExists(s.heap.mem, s.heap.heads[s.heap.ready]);
      assert Step(s, t, Moves(s, t, if s.heap.ready + 1 < CLASSES then Heads(k) else Store2(k), HeadReady(s.heap, m')));
    case Store2(k) => assert Step(s, t, Moves(s, t, Entered(k), s.heap).(init := 2));
    case Spin(k) => assert Step(s, t, Moves(s, t, Entered(k), s.heap));
  }

  lemma CanLarge(s: State, t: int)
    requires Inv(s) && Shape(s, t)
    requires s.threads[t].LargeAsk? || s.threads[t].LargeHeader? || s.threads[t].LargeUsed? || s.threads[t].LargeTotal?
    ensures CanStep(s, t)
  {
    hide Inv, HeapInv;
    InvParts(s);
    HeapParts(s.heap);
    OwnOf(s, t, HoldOf(s.threads[t]), NoLock, PinOf(s.threads[t]));
    match s.threads[t]
    case LargeAsk(k) => assert Step(s, t, Fails(s, t, k));
    case LargeHeader(k, b) =>
      HandIsRegion(s.heap, t, HoldOf(s.threads[t]));
      var m' := HeaderExists(s.heap.mem, b, k.size, LargeBytes(k));
      assert Step(s, t, Moves(s, t, LargeUsed(k, b), s.heap.(mem := m')));
    case LargeUsed(k, b) => assert Step(s, t, Moves(s, t, LargeTotal(k, b), Counted(s.heap, b, k.size)));
    case LargeTotal(k, b) => assert Step(s, t, Moves(s, t, Finish(k, b), RegionCounted(s.heap, b, LargeBytes(k))));
  }

  lemma CanRefill(s: State, t: int)
    requires Inv(s) && Shape(s, t)
    requires s.threads[t].Check? || s.threads[t].AskPage? || s.threads[t].CountPage? || s.threads[t].Carve?
    ensures CanStep(s, t)
  {
    hide Inv, HeapInv, Layout, Classes, Owned, Lists, Accounts;
    InvParts(s);
    HeapParts(s.heap);
    var l := LockOf(s.threads[t]);
    OwnOf(s, t, Nothing, l, PinOf(s.threads[t]));
    match s.threads[t]
    case Check(k) =>
      ListView(s.heap, l.i);
      assert Step(s, t, Moves(s, t, if Next(s.heap.mem, s.heap.heads[l.i]) == s.heap.heads[l.i] then AskPage(k)
                                    else PopFirst(k), s.heap));
    case AskPage(k) => assert Step(s, t, Moves(s, t, Unlock(k, 0), s.heap));
    case CountPage(k, p) => assert Step(s, t, Moves(s, t, Carve(k, p, p), RegionCounted(s.heap, p, PAGE)));
    case Carve(k, p, a) => CanCarve(s, t, k, p, a, l.i);
  }

  lemma CanCarve(s: State, t: int, k: Call, p: Addr, a: Addr, i: int)
    requires Inv(s) && Shape(s, t) && s.threads[t] == Carve(k, p, a) && CallOk(k) && ClassOf(k.size) == i >= 0
    requires s.init == 2 && LockOk(s.heap, s.locks, t, Claiming(i, p, a, true))
    ensures CanStep(s, t)
  {
    hide Inv, HeapInv;
    InvParts(s);
    HeapParts(s.heap);
    if a < p + PAGE {
      CarveAllowed(s.heap, i);
      var m' := PushExists(s.heap.mem, s.heap.heads[i], s.heap.slabs[i].free, a);
      assert Step(s, t, Moves(s, t, Carve(k, p, a + BlockSize(i)), CarvedHeap(s.heap, i, m')));
    } else {
      assert Step(s, t, Moves(s, t, PopFirst(k), s.heap));
    }
  }

  lemma CanPop(s: State, t: int)
    requires Inv(s) && Shape(s, t) && s.threads[t].PopFirst?
    ensures CanStep(s, t)
  {
    hide Inv, HeapInv, Layout, Classes, Owned, Lists, Accounts;
    InvParts(s);
    HeapParts(s.heap);
    var k, l := s.threads[t].k, LockOf(s.threads[t]);
    OwnOf(s, t, Nothing, l, PinOf(s.threads[t]));
    ListView(s.heap, l.i);
    var b := s.heap.slabs[l.i].free[0];
    var m' := RemoveExists(s.heap.mem, b);
    assert Step(s, t, Moves(s, t, Unlock(k, b), Popped(s.heap, l.i, t, m')));
  }

  lemma CanHandOut(s: State, t: int)
    requires Inv(s) && Shape(s, t) && !Blocked(s, s.threads[t])
    requires s.threads[t].Lock? || s.threads[t].Unlock? || s.threads[t].Header? || s.threads[t].Used?
    ensures CanStep(s, t)
  {
    hide Inv, HeapInv, Owned, Lists, Accounts;
    InvParts(s);
    HeapParts(s.heap);
    OwnOf(s, t, HoldOf(s.threads[t]), LockOf(s.threads[t]), PinOf(s.threads[t]));
    match s.threads[t]
    case Lock(k) =>
      var i := ClassOf(k.size);
      assert Step(s, t, Moves(s, t, Check(k), s.heap).(locks := s.locks[i := t]));
    case Unlock(k, b) =>
      var i := ClassOf(k.size);
      assert Step(s, t, (if b == 0 then Fails(s, t, k) else Moves(s, t, Header(k, b), s.heap))
                        .(locks := s.locks[i := -1]));
    case Header(k, b) =>
      HandRoom(s.heap, t, HoldOf(s.threads[t]));
      var m' := HeaderExists(s.heap.mem, b, k.size, 0);
      assert Step(s, t, Moves(s, t, Used(k, b), s.heap.(mem := m')));
    case Used(k, b) => assert Step(s, t, Moves(s, t, Finish(k, b), Counted(s.heap, b, k.size)));
  }

  /** The block in hands has room for header and payload. */
  lemma HandMapped(h: Heap, t: int, d: Hold)
    requires HeapInv(h) && HoldOk(h, t, d) && d.Block? && d.header
    ensures Mapped(h.mem, d.b, HEADER) && Mapped(h.mem, d.b + HEADER, Load(h.mem, d.b))
    ensures h.ext[d.b] >= 32 && Mapped(h.mem, d.b + HEADER, 8)
  {
    HeldExtent(h, d.b);
  }

  /** The memset of p2calloc and the memcpy of p2realloc stay inside both blocks, which do not overlap. */
  lemma CopyFits(s: State, t: int, d: Hold, o: Addr, n: nat)
    requires Inv(s) && HoldOk(s.heap, t, d) && d.Block? && d.header && d.size == n > 0
    requires PinOk(s.heap, s.pins, t, Pinned(o, 0, true, false, n))
    ensures s.heap.live[o].size <= SIZE_MAX && o != d.b && o in s.heap.ext && d.b in s.heap.ext
    ensures Mapped(s.heap.mem, d.b + HEADER, Min(s.heap.live[o].size, n))
    ensures Mapped(s.heap.mem, o + HEADER, Min(s.heap.live[o].size, n))
    ensures Apart(d.b, s.heap.ext[d.b], o, s.heap.ext[o])
    ensures Min(s.heap.live[o].size, n) + HEADER <= s.heap.ext[o]
    ensures Min(s.heap.live[o].size, n) + HEADER <= s.heap.ext[d.b]
  {
    hide ThreadsOk, LocksInv, HandsInv, PinsInv, InitInv, LiveCounted, RegionsCounted;
    HandMapped(s.heap, t, d);
    assert LiveBlock(o, s.heap.live[o], s.heap.ext, s.heap.os, s.heap.abandoned);
    assert Mapped(s.heap.mem, o, s.heap.ext[o]);
  }

  lemma CanReturn(s: State, t: int, k: Call, b: Addr)
    requires Shape(s, t) && s.threads[t] == Finish(k, b) && !k.ReallocCall?
    requires Mapped(s.heap.mem, b, HEADER) && Mapped(s.heap.mem, b + HEADER, k.size)
    ensures CanStep(s, t)
  {
    hide Zeroed;
    var h := s.heap;
    if k.MallocCall? {
      assert Step(s, t, Moves(s, t, Idle, Published(h, b, InHeader(h, b, k.size))).(rets := s.rets[t := b + HEADER]));
    } else {
      var m' := ZeroExists(h.mem, b + HEADER, k.size);
      assert Step(s, t, Moves(s, t, Idle, Published(h.(mem := m'), b, InHeader(h, b, k.size)))
                        .(rets := s.rets[t := b + HEADER]));
    }
  }

  lemma CanMove(s: State, t: int, o: Addr, n: nat, b: Addr)
    requires Shape(s, t) && s.threads[t] == Finish(ReallocCall(o, n), b) && Mapped(s.heap.mem, b, HEADER)
    requires o in s.heap.live && s.heap.live[o].size <= SIZE_MAX && o != b
    requires Mapped(s.heap.mem, b + HEADER, Min(s.heap.live[o].size, n))
    requires Mapped(s.heap.mem, o + HEADER, Min(s.heap.live[o].size, n))
    ensures CanStep(s, t)
  {
    hide Copied;
    var h := s.heap;
    var m' := CopyExists(h.mem, b + HEADER, o + HEADER, Min(h.live[o].size, n));
    assert Step(s, t, Moves(s, t, FreeUsed(o, ClassOf(h.live[o].size)),
                            Retired(Published(h.(mem := m'), b, InHeader(h, b, n)), o, t))
                      .(pins := s.pins - {o}, rets := s.rets[t := b + HEADER]));
  }

  lemma CanFinish(s: State, t: int)
    requires Inv(s) && Shape(s, t) && s.threads[t].Finish?
    ensures CanStep(s, t)
  {
    hide Inv, HeapInv;
    var k, d := s.threads[t].k, HoldOf(s.threads[t]);
    OwnOf(s, t, d, NoLock, PinOf(s.threads[t]));
    InvParts(s);
    HandMapped(s.heap, t, d);
    if k.ReallocCall? {
      CopyFits(s, t, d, k.from, k.size);
      CanMove(s, t, k.from, k.size, d.b);
    } else {
      CanReturn(s, t, k, d.b);
    }
  }

  lemma CanUncount(s: State, t: int, b: Addr)
    requires Shape(s, t) && (s.threads[t].FreeUsed? || s.threads[t].FreeTotal?) && b == s.threads[t].b
    requires Mapped(s.heap.mem, b, HEADER)
    ensures CanStep(s, t)
  {
    hide Load, SubWord;
    var h := s.heap;
    match s.threads[t]
    case FreeUsed(_, i) =>
      assert Step(s, t, Moves(s, t, if Load(h.mem, b + 8) != 0 then FreeTotal(b) else Wipe(b, i),
                              Uncounted(h, b, Load(h.mem, b))));
    case FreeTotal(_) => assert Step(s, t, Moves(s, t, Unmap(b), RegionUncounted(h, b, Load(h.mem, b + 8))));
  }

  lemma CanUnmap(s: State, t: int, b: Addr)
    requires Shape(s, t) && s.threads[t] == Unmap(b) && Mapped(s.heap.mem, b, HEADER)
    ensures CanStep(s, t)
  {
    hide Unmapped;
    var m' := UnmapExists(s.heap.mem, b, Load(s.heap.mem, b + 8));
    assert DoUnmap(s, t, b, Moves(s, t, Idle, Released(s.heap, b, m')));
    assert Step(s, t, Moves(s, t, Idle, Released(s.heap, b, m')));
  }

  lemma CanWipe(s: State, t: int, b: Addr, i: int)
    requires Shape(s, t) && s.threads[t] == Wipe(b, i)
    requires Mapped(s.heap.mem, b, HEADER) && Mapped(s.heap.mem, b + HEADER, 8)
    ensures CanStep(s, t)
  {
    hide Zeroed;
    var m' := ZeroExists(s.heap.mem, b + HEADER, 8);
    assert Step(s, t, Moves(s, t, LockFree(b, ClassOf(Load(s.heap.mem, b))), s.heap.(mem := m')));
  }

  lemma CanFree(s: State, t: int)
    requires Inv(s) && Shape(s, t)
    requires s.threads[t].FreeUsed? || s.threads[t].FreeTotal? || s.threads[t].Unmap? || s.threads[t].Wipe?
    ensures CanStep(s, t)
  {
    hide Inv, HeapInv, TripWord, PinOk;
    InvParts(s);
    var d := HoldOf(s.threads[t]);
    OwnOf(s, t, d, NoLock, NoPin);
    HandMapped(s.heap, t, d);
    if s.threads[t].Unmap? {
      CanUnmap(s, t, s.threads[t].b);
    } else if s.threads[t].Wipe? {
      CanWipe(s, t, s.threads[t].b, s.threads[t].i);
    } else {
      CanUncount(s, t, s.threads[t].b);
    }
  }

  lemma CanFreeStart(s: State, t: int)
    requires Inv(s) && Shape(s, t) && s.threads[t].FreeStart?
    ensures CanStep(s, t)
  {
    hide Inv, HeapInv;
    InvParts(s);
    var b, h := s.threads[t].b, s.heap;
    OwnOf(s, t, Nothing, NoLock, PinOf(s.threads[t]));
    PinIsLive(s, t, b, PinOf(s.threads[t]));
    assert Step(s, t, Moves(s, t, FreeUsed(b, ClassOf(h.live[b].size)), Retired(h, b, t))
                      .(pins := s.pins - {b}, rets := s.rets[t := 0]));
  }

  lemma CanPut(s: State, t: int)
    requires Inv(s) && Shape(s, t) && !Blocked(s, s.threads[t])
    requires s.threads[t].LockFree? || s.threads[t].Insert? || s.threads[t].UnlockFree?
    ensures CanStep(s, t)
  {
    hide Inv, HeapInv;
    InvParts(s);
    HeapParts(s.heap);
    OwnOf(s, t, HoldOf(s.threads[t]), LockOf(s.threads[t]), NoPin);
    match s.threads[t]
    case LockFree(b, i) => assert Step(s, t, Moves(s, t, Insert(b, i), s.heap).(locks := s.locks[i := t]));
    case Insert(b, i) =>
      PutAllowed(s.heap, i, b);
      var m' := AddExists(s.heap.mem, InsertAfter(s.heap, i, b), b);
      assert Step(s, t, Moves(s, t, UnlockFree(i), PutBack(s.heap, i, b, m')));
    case UnlockFree(i) => assert Step(s, t, Moves(s, t, Idle, s.heap).(locks := s.locks[i := -1]));
  }

  lemma CanResizeSet(s: State, t: int, b: Addr, n: nat)
    requires Shape(s, t) && s.threads[t] == ResizeSet(b, n) && s.init == 2
    requires Mapped(s.heap.mem, b, HEADER) && n < WORDS && b in s.heap.live
    ensures CanStep(s, t)
  {
    assert Step(s, t, Moves(s, t, Idle, Resized(s.heap, b, n, Store(s.heap.mem, b, n)))
                      .(pins := s.pins - {b}, rets := s.rets[t := b + HEADER]));
  }

  lemma CanResize(s: State, t: int)
    requires Inv(s) && Shape(s, t)
    requires s.threads[t].ResizeSub? || s.threads[t].ResizeAdd? || s.threads[t].ResizeSet?
    ensures CanStep(s, t)
  {
    hide Inv, HeapInv;
    var p, h := PinOf(s.threads[t]), s.heap;
    OwnOf(s, t, Nothing, NoLock, p);
    PinIsLive(s, t, p.b, p);
    match s.threads[t]
    case ResizeSub(b, n) => assert Step(s, t, Moves(s, t, ResizeAdd(b, n), Uncounted(h, b, Load(h.mem, b))));
    case ResizeAdd(b, n) => assert Step(s, t, Moves(s, t, ResizeSet(b, n), Counted(h, b, n)));
    case ResizeSet(b, n) => CanResizeSet(s, t, b, n);
  }

  /** A thread inside a call that waits for nothing can step, and no step of it faults. */
  lemma Enabled(s: State, t: int)
    requires Inv(s) && Shape(s, t) && s.threads[t] != Idle && !Blocked(s, s.threads[t])
    ensures CanStep(s, t)
  {
    hide Inv, CanStep, Blocked;
    var pc := s.threads[t];
    if pc.Cas? || pc.Heads? || pc.Store2? || pc.Spin? {
      CanInit(s, t);
    } else if pc.LargeAsk? || pc.LargeHeader? || pc.LargeUsed? || pc.LargeTotal? {
      CanLarge(s, t);
    } else if pc.Check? || pc.AskPage? || pc.CountPage? || pc.Carve? {
      CanRefill(s, t);
    } else if pc.PopFirst? {
      CanPop(s, t);
    } else if pc.Lock? || pc.Unlock? || pc.Header? || pc.Used? {
      CanHandOut(s, t);
    } else if pc.Finish? {
      CanFinish(s, t);
    } else if pc.FreeStart? {
      CanFreeStart(s, t);
    } else if pc.FreeUsed? || pc.FreeTotal? || pc.Unmap? || pc.Wipe? {
      CanFree(s, t);
    } else if pc.LockFree? || pc.Insert? || pc.UnlockFree? {
      CanPut(s, t);
    } else {
      CanResize(s, t);
    }
  }

  /** A blocked thread waits for another one that is not blocked. */
  lemma Unblocked(s: State, t: int) returns (u: int)
    requires Inv(s) && Shape(s, t) && s.threads[t] != Idle
    ensures Shape(s, u) && s.threads[u] != Idle && !Blocked(s, s.threads[u])
  {
    hide HeapInv, HandsInv, PinsInv, LiveCounted, RegionsCounted;
    InvParts(s);
    assert ThreadOk(s, t, s.threads[t]);
    u := match s.threads[t]
         case Spin(_) => if s.init == 2 then t else s.initer
         case Lock(k) => if s.locks[ClassOf(k.size)] == -1 then t else s.locks[ClassOf(k.size)]
         case LockFree(_, i) => if s.locks[i] == -1 then t else s.locks[i]
         case _ => t;
  }

  /** In every reachable state, as long as some call is under way, some thread can make a real step. */
  lemma Progress(r: seq<State>, j: nat, t: int)
    requires Run(r) && j < |r| && 0 <= t < |r[j].threads| && r[j].threads[t] != Idle
    ensures exists u :: Shape(r[j], u) && r[j].threads[u] != Idle && !Blocked(r[j], r[j].threads[u]) && CanStep(r[j], u)
  {
    hide Inv, Run, CanStep, Blocked;
    RunKeeps(r, j);
    InvParts(r[j]);
    InvRets(r[j]);
    var u := Unblocked(r[j], t);
    Enabled(r[j], u);
  }

  // ----- Every call ends -----

  /** An upper bound on the steps a thread at pc still takes before it is between calls. */
  function Rank(ready: nat, pc: Pc): nat {
    match pc
    case Idle => 0
    case UnlockFree(_) => 1
    case Insert(_, _) => 2
    case LockFree(_, _) => 3
    case Wipe(_, _) => 4
    case Unmap(_) => 1
    case FreeTotal(_) => 2
    case FreeUsed(_, _) => 5
    case FreeStart(_) => 6
    case Finish(_, _) => 6
    case Used(_, _) => 7
    case Header(_, _) => 8
    case Unlock(_, _) => 9
    case PopFirst(_) => 10
    case Carve(_, p, a) => if a < p + PAGE then 11 + (p + PAGE - a) else 11
    case CountPage(_, _) => 12 + PAGE
    case AskPage(_) => 13 + PAGE
    case Check(_) => 14 + PAGE
    case Lock(_) => 15 + PAGE
    case LargeTotal(_, _) => 7
    case LargeUsed(_, _) => 8
    case LargeHeader(_, _) => 9
    case LargeAsk(_) => 10
    case Spin(_) => 16 + PAGE
    case Store2(_) => 16 + PAGE
    case Heads(_) => 17 + PAGE + (if ready < CLASSES then CLASSES - ready else 0)
    case Cas(_) => 18 + PAGE + CLASSES
    case ResizeSet(_, _) => 1
    case ResizeAdd(_, _) => 2
    case ResizeSub(_, _) => 3
  }

  ghost predicate Descends(s: State, t: int, s': State)
    requires 0 <= t < |s.threads|
  {
    && |s'.threads| == |s.threads| && s'.threads == s.threads[t := s'.threads[t]]
    && s'.heap.ready >= s.heap.ready && Rank(s'.heap.ready, s'.threads[t]) < Rank(s.heap.ready, s.threads[t])
  }

  lemma DescendsInSlab(s: State, t: int, s': State)
    requires Shape(s, t) && Step(s, t, s') && InSlab(s.threads[t])
    ensures Descends(s, t, s')
  {
    hide FreshRegion, Next, Claim, HeaderWritten, AddWord, PageBlocks, Cell, ClassOf, DoCarve, DoPop;
    match s.threads[t]
    case Lock(k) =>
    case Check(k) =>
    case AskPage(k) =>
    case CountPage(k, p) =>
    case Carve(k, p, a) => DescendsCarve(s, t, k, p, a, s');
    case PopFirst(k) => DescendsPop(s, t, k, s');
    case Unlock(k, b) =>
    case Header(k, b) =>
    case Used(k, b) =>
  }

  lemma DescendsCarve(s: State, t: int, k: Call, p: Addr, a: Addr, s': State)
    requires Shape(s, t) && CallOk(k) && s.threads[t] == Carve(k, p, a) && DoCarve(s, t, k, ClassOf(k.size), p, a, s')
    ensures Descends(s, t, s')
  {
    hide Pushed, CarveOne, ClassOf;
  }

  lemma DescendsPop(s: State, t: int, k: Call, s': State)
    requires Shape(s, t) && CallOk(k) && s.threads[t] == PopFirst(k) && DoPop(s, t, k, ClassOf(k.size), s')
    ensures Descends(s, t, s')
  {
    hide Unlinked, Pop, ClassOf;
  }

  lemma DescendsInMalloc(s: State, t: int, s': State)
    requires Shape(s, t) && Step(s, t, s') && InMalloc(s.threads[t]) && !InSlab(s.threads[t])
    ensures Descends(s, t, s')
  {
    hide Initialised, FreshRegion, HeaderWritten, AddWord, PageAlign, ClassOf, DoFinish;
    match s.threads[t]
    case Cas(k) =>
    case Heads(k) =>
    case Store2(k) =>
    case Spin(k) =>
    case LargeAsk(k) =>
    case LargeHeader(k, b) =>
    case LargeUsed(k, b) =>
    case LargeTotal(k, b) =>
    case Finish(k, b) => DescendsFinish(s, t, k, b, s');
  }

  lemma DescendsFinish(s: State, t: int, k: Call, b: Addr, s': State)
    requires Shape(s, t) && DoFinish(s, t, k, b, s') && s.threads[t] == Finish(k, b)
    ensures Descends(s, t, s')
  {
    hide Copied, Zeroed, MappedSize, ClassOf, Mapped;
  }

  lemma DescendsElsewhere(s: State, t: int, s': State)
    requires Shape(s, t) && Step(s, t, s') && !InMalloc(s.threads[t]) && s.threads[t] != Idle
    ensures Descends(s, t, s')
  {
    hide Unmapped, Zeroed, Added, InsertAfter, SubWord, AddWord, Put, Load, Store, ClassOf, Mapped;
    match s.threads[t]
    case FreeStart(b) =>
    case FreeUsed(b, i) =>
    case FreeTotal(b) =>
    case Unmap(b) =>
    case Wipe(b, i) =>
    case LockFree(b, i) =>
    case Insert(b, i) =>
    case UnlockFree(i) =>
    case ResizeSub(b, n) =>
    case ResizeAdd(b, n) =>
    case ResizeSet(b, n) =>
  }

  lemma StepDescends(s: State, t: int, s': State)
    requires Shape(s, t) && Step(s, t, s') && s.threads[t] != Idle
    ensures Descends(s, t, s')
  {
    hide Step;
    if InSlab(s.threads[t]) {
      DescendsInSlab(s, t, s');
    } else if InMalloc(s.threads[t]) {
      DescendsInMalloc(s, t, s');
    } else {
      DescendsElsewhere(s, t, s');
    }
  }

  /** The bounds of all threads together. */
  function Work(ready: nat, threads: seq<Pc>): nat {
    if threads == [] then 0 else Work(ready, threads[..|threads| - 1]) + Rank(ready, threads[|threads| - 1])
  }

  lemma {:induction false} WorkFalls(ready: nat, ready': nat, threads: seq<Pc>, t: int, pc': Pc)
    requires 0 <= t < |threads| && ready <= ready' && Rank(ready', pc') < Rank(ready, threads[t])
    ensures Work(ready', threads[t := pc']) < Work(ready, threads)
  {
    var n := |threads| - 1;
    if t == n {
      assert threads[t := pc'][..n] == threads[..n];
      WorkNoMore(ready, ready', threads[..n]);
    } else {
      assert threads[t := pc'][..n] == threads[..n][t := pc'];
      WorkFalls(ready, ready', threads[..n], t, pc');
    }
  }

  lemma {:induction false} WorkNoMore(ready: nat, ready': nat, threads: seq<Pc>)
    requires ready <= ready'
    ensures Work(ready', threads) <= Work(ready, threads)
  {
    if threads != [] {
      WorkNoMore(ready, ready', threads[..|threads| - 1]);
    }
  }

  /** Any step of a thread inside a call brings all calls together closer to their ends. */
  lemma StepWorks(s: State, t: int, s': State)
    requires Shape(s, t) && Step(s, t, s') && s.threads[t] != Idle
    ensures |s'.threads| == |s.threads|
    ensures Work(s'.heap.ready, s'.threads) < Work(s.heap.ready, s.threads)
  {
    hide Step;
    StepDescends(s, t, s');
    WorkFalls(s.heap.ready, s'.heap.ready, s.threads, t, s'.threads[t]);
  }

  /** Step j of the run is made by a thread inside a call: no call begins and no client writes. */
  ghost predicate OldCallStep(s: State, s': State) {
    exists t :: Shape(s, t) && s.threads[t] != Idle && Step(s, t, s')
  }

  /** As long as no call begins and no client writes, at most Work steps can follow before all threads are
      between calls, whatever the order in which they are taken. */
  lemma {:induction false} CallsEnd(r: seq<State>, j: nat, k: nat)
    requires j <= k < |r|
    requires forall i :: j <= i < k ==> OldCallStep(r[i], r[i + 1])
    ensures k - j <= Work(r[j].heap.ready, r[j].threads) - Work(r[k].heap.ready, r[k].threads)
  {
    hide OldCallStep;
    if j < k {
      CallsEnd(r, j, k - 1);
      OldCallWorks(r[k - 1], r[k]);
    }
  }

  lemma OldCallWorks(s: State, s': State)
    requires OldCallStep(s, s')
    ensures Work(s'.heap.ready, s'.threads) < Work(s.heap.ready, s.threads)
  {
    hide Step;
    var t :| Shape(s, t) && s.threads[t] != Idle && Step(s, t, s');
    StepWorks(s, t, s');
  }

  // ----- Every single call ends -----

  /** The steps from state j to state k of the run that thread t makes. */
  ghost function OwnSteps(r: seq<State>, t: int, j: nat, k: nat): nat
    requires j <= k < |r|
    decreases k
  {
    if j == k then 0
    else OwnSteps(r, t, j, k - 1) + if Shape(r[k - 1], t) && Step(r[k - 1], t, r[k]) then 1 else 0
  }

  /** No call takes more steps than this. */
  const CALL_STEPS := PAGE + CLASSES + 18

  lemma RankBound(ready: nat, pc: Pc)
    requires pc.Carve? ==> pc.a >= pc.page
    ensures Rank(ready, pc) <= CALL_STEPS
  {
  }

  lemma RankFalls(ready: nat, ready': nat, pc: Pc)
    requires ready <= ready'
    ensures Rank(ready', pc) <= Rank(ready, pc)
  {
  }

  /** A step that t does not make leaves its place alone and brings it no further from its end. */
  lemma OthersKeepRank(s: State, t: int, s': State)
    requires Inv(s) && Follows(s, s') && 0 <= t < |s.threads| && s.threads[t] != Idle
    requires !(Shape(s, t) && Step(s, t, s'))
    ensures |s'.threads| == |s.threads| && s'.threads[t] == s.threads[t] && s'.heap.ready >= s.heap.ready
  {
    hide Inv, Step, ClientStep, Turns;
    if u :| Shape(s, u) && Step(s, u, s') {
      OtherTurn(s, u, s', t);
    } else if b :| ClientStep(s, b, s') {
      ClientReady(s, b, s');
    }
  }

  lemma ClientReady(s: State, b: Addr, s': State)
    requires ClientStep(s, b, s')
    ensures s'.threads == s.threads && s'.heap.ready == s.heap.ready
  {
  }

  lemma OtherTurn(s: State, u: int, s': State, t: int)
    requires Shape(s, u) && Step(s, u, s') && 0 <= t < |s.threads| && t != u
    ensures |s'.threads| == |s.threads| && s'.threads[t] == s.threads[t] && s'.heap.ready >= s.heap.ready
  {
    hide Step;
    if s.threads[u] == Idle {
      BeginKeepsHeap(s, u, s');
    } else {
      StepDescends(s, u, s');
    }
  }

  lemma BeginKeepsHeap(s: State, u: int, s': State)
    requires Shape(s, u) && Step(s, u, s') && s.threads[u] == Idle
    ensures s'.heap == s.heap && |s'.threads| == |s.threads| && s'.threads == s.threads[u := s'.threads[u]]
  {
    hide Load, ClassOf, Mapped;
  }

  /** In every run, whatever other threads begin and clients write meanwhile: from any point inside a call to any
      later point up to its return, the thread makes at most as many steps as its rank says. */
  lemma {:induction false} OwnStepsBounded(r: seq<State>, t: int, j: nat, k: nat)
    requires Run(r) && j <= k < |r| && 0 <= t < |r[0].threads|
    requires forall i :: j <= i <= k ==> |r[i].threads| == |r[0].threads|
    requires forall i :: j <= i < k ==> r[i].threads[t] != Idle
    ensures OwnSteps(r, t, j, k) + Rank(r[k].heap.ready, r[k].threads[t]) <= Rank(r[j].heap.ready, r[j].threads[t])
  {
    hide Inv, Initial, Follows, Step, Shape;
    if j < k {
      OwnStepsBounded(r, t, j, k - 1);
      RunKeeps(r, k - 1);
      OneStepBounded(r, t, k - 1);
    }
  }

  lemma OneStepBounded(r: seq<State>, t: int, k: nat)
    requires k + 1 < |r| && Inv(r[k]) && Follows(r[k], r[k + 1])
    requires 0 <= t < |r[k].threads| == |r[k + 1].threads| && r[k].threads[t] != Idle
    ensures OwnSteps(r, t, k, k + 1) + Rank(r[k + 1].heap.ready, r[k + 1].threads[t])
            <= Rank(r[k].heap.ready, r[k].threads[t])
  {
    hide Inv, Follows, Step, Rank;
    if Shape(r[k], t) && Step(r[k], t, r[k + 1]) {
      StepDescends(r[k], t, r[k + 1]);
    } else {
      OthersKeepRank(r[k], t, r[k + 1]);
      RankFalls(r[k].heap.ready, r[k + 1].heap.ready, r[k].threads[t]);
    }
    assert OwnSteps(r, t, k, k) == 0;
  }

  lemma RunLength(r: seq<State>, t: int, i: nat)
    requires Run(r) && i < |r| && 0 <= t < |r[i].threads|
    ensures |r[i].threads| == |r[0].threads| && Rank(r[i].heap.ready, r[i].threads[t]) <= CALL_STEPS
  {
    hide Inv, Run;
    RunKeeps(r, i);
    CarveForward(r[i], t);
    RankBound(r[i].heap.ready, r[i].threads[t]);
  }

  lemma CarveForward(s: State, t: int)
    requires Inv(s) && 0 <= t < |s.threads|
    ensures s.threads[t].Carve? ==> s.threads[t].a >= s.threads[t].page
  {
    hide HeapInv, LocksInv, HandsInv, PinsInv, InitInv, LiveCounted, RegionsCounted;
    InvParts(s);
    assert ThreadOk(s, t, s.threads[t]);
    if s.threads[t].Carve? {
      NextBeyond(s.heap, LockOf(s.threads[t]).i);
    }
  }

  lemma NextBeyond(h: Heap, i: int)
    requires HeapInv(h) && 0 <= i < CLASSES
    ensures h.slabs[i].pages != {} ==> h.slabs[i].last <= h.slabs[i].next
  {
    assert SlabInv(i, h.slabs[i]);
  }

  /** Every call of every run ends after at most CALL_STEPS steps of its own, waiting not counted. */
  lemma CallBounded(r: seq<State>, t: int, j: nat, k: nat)
    requires Run(r) && j <= k < |r| && 0 <= t < |r[j].threads|
    requires forall i :: j <= i < k ==> t < |r[i].threads| && r[i].threads[t] != Idle
    ensures OwnSteps(r, t, j, k) <= CALL_STEPS
  {
    hide Run, Rank, Inv;
    RunLength(r, t, j);
    forall i | j <= i <= k ensures |r[i].threads| == |r[0].threads| {
      RunKeeps(r, i);
    }
    OwnStepsBounded(r, t, j, k);
  }
}

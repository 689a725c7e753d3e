/** The steps of a thread that leave memory alone: it enters and leaves calls, takes and releases locks,
    claims and releases the block passed to it. */
module ThreadCallSteps {
  import opened Bytes
  import opened Sizes
  import opened Heaps
  import opened HeapRegions
  import opened Threads
  import opened ThreadInvariant
  import opened AbstractHeap
  import opened ThreadSteps

  /** The heap stays; pins change at block c only, which is no block of another thread. */
  ghost predicate CalmMove(s: State, t: int, s': State, c: Addr)
    requires Shape(s, t)
  {
    && |s'.threads| == |s.threads| && s'.threads == s.threads[t := s'.threads[t]] && s'.heap == s.heap
    && |s'.rets| == |s.rets|
    && |s'.locks| == CLASSES
    && (forall j :: 0 <= j < CLASSES ==>
          s'.locks[j] == s.locks[j] || (s.locks[j] in {-1, t} && s'.locks[j] in {-1, t}))
    && (forall x :: x != c ==> (x in s'.pins <==> x in s.pins) && (x in s.pins ==> s'.pins[x] == s.pins[x]))
    && (c in s.pins ==> s.pins[c] == t) && c !in s.heap.hands
    && InitMoves(s, t, s') && InitInv(s')
  }

  lemma KeepCalm(s: State, t: int, s': State, d: Hold, l: LockHold, l': LockHold, p: Pin, p': Pin, c: Addr)
    requires Inv(s) && Shape(s, t) && CalmMove(s, t, s', c)
    requires d == HoldOf(s.threads[t]) && l == LockOf(s.threads[t]) && p == PinOf(s.threads[t])
    requires Placed(s', t, s'.threads[t], d, l', p') && !(l.Claiming? && !l.counted)
    requires OwnLocks(s, t, s', l') && OwnPins(t, s', p', c) && OwnCounts(s', c, c)
    ensures Inv(s') && Background(s.heap, s'.heap)
  {
    hide Inv, HeapInv, PcOk, InitOk, HoldOk, LockOk, PinOk, OwnLocks, OwnPins, OwnCounts;
    InvParts(s);
    OwnOf(s, t, d, l, p);
    CalmFootprint(s, t, s', c);
    CalmRegions(s, t, s', d, l, l', p, c);
    Keep(s, t, s', c, -1, c, d, l', p');
  }

  lemma CalmFootprint(s: State, t: int, s': State, c: Addr)
    requires Inv(s) && Shape(s, t) && CalmMove(s, t, s', c)
    ensures Footprint(s, t, s', c, -1, c)
  {
    hide Inv, InitMoves, InitInv;
    assert Layout(s.heap) by { InvParts(s); HeapParts(s.heap); }
  }

  lemma CalmRegions(s: State, t: int, s': State, d: Hold, l: LockHold, l': LockHold, p: Pin, c: Addr)
    requires Inv(s) && Shape(s, t) && CalmMove(s, t, s', c) && Own(s, t, d, l, p)
    requires l == LockOf(s.threads[t]) && !(l.Claiming? && !l.counted)
    ensures OwnRegions(s, t, s', l', c, c, -1) && OwnHands(t, s'.heap, d, c, c)
  {
    hide HeapInv, ThreadsOk, LocksInv, PinsInv, InitInv, LiveCounted;
    forall j, q | 0 <= j < CLASSES && s.locks[j] == t && q in s'.heap.slabs[j].pages ensures q in s'.heap.regs {
      assert q in s.heap.regs || PageUncounted(s, j, q);
    }
  }

  // ----- Entering p2malloc; ensure_init -----

  lemma KeepStay(s: State, t: int, s': State, pc': Pc)
    requires Inv(s) && Shape(s, t) && |s'.threads| == |s.threads| && s'.threads == s.threads[t := pc']
    requires s'.heap == s.heap && s'.locks == s.locks && s'.pins == s.pins && s'.rets == s.rets
    requires LockOf(s.threads[t]) == LockOf(pc') == NoLock
    requires Placed(s', t, pc', HoldOf(s.threads[t]), NoLock, PinOf(s.threads[t]))
    requires InitMoves(s, t, s') && InitInv(s')
    ensures Inv(s') && Abs(s'.heap) == Abs(s.heap) && Background(s.heap, s'.heap)
  {
    hide Inv, HeapInv;
    InvParts(s);
    HeapParts(s.heap);
    SelfQuiet(s.heap);
    KeepPlace(s, t, s', HoldOf(s.threads[t]), NoLock, NoLock, PinOf(s.threads[t]));
  }

  lemma KeepBeginMalloc(s: State, t: int, k: Call, s': State)
    requires Inv(s) && Shape(s, t) && s.threads[t] == Idle && BeginMalloc(s, t, k, s')
    ensures Inv(s') && Effect(s, t, s')
  {
    hide Inv, HeapInv;
    InvParts(s);
    OwnOf(s, t, Nothing, NoLock, NoPin);
    KeepStay(s, t, s', Cas(k));
  }

  lemma KeepCas(s: State, t: int, k: Call, s': State)
    requires Inv(s) && Shape(s, t) && s.threads[t] == Cas(k) && DoCas(s, t, k, s')
    ensures Inv(s') && Effect(s, t, s')
  {
    hide Inv, HeapInv;
    InvParts(s);
    OwnOf(s, t, Nothing, NoLock, PinOf(Cas(k)));
    KeepStay(s, t, s', s'.threads[t]);
  }

  lemma KeepStore2(s: State, t: int, k: Call, s': State)
    requires Inv(s) && Shape(s, t) && s.threads[t] == Store2(k) && DoStore2(s, t, k, s')
    ensures Inv(s') && Effect(s, t, s')
  {
    hide Inv, HeapInv;
    InvParts(s);
    OwnOf(s, t, Nothing, NoLock, PinOf(Store2(k)));
    KeepStay(s, t, s', Entered(k));
  }

  /** The winner of the compare-and-swap initialises the next sentinel. */
  lemma KeepHeads(s: State, t: int, k: Call, s': State)
    requires Inv(s) && Shape(s, t) && s.threads[t] == Heads(k) && DoHeads(s, t, k, s')
    ensures Inv(s') && Effect(s, t, s')
  {
    hide Inv, HeapInv;
    InvParts(s);
    var p := PinOf(Heads(k));
    OwnOf(s, t, Nothing, NoLock, p);
    HeadStep(s.heap, s'.heap.mem);
    ZeroQuiet(s, s');
    forall b ensures !Held(s'.heap, b) {
      assert !Held(s.heap, b);
    }
    KeepPlace(s, t, s', Nothing, NoLock, NoLock, p);
  }

  // ----- Locks -----

  /** Lock i taken or released. */
  lemma KeepTurn(s: State, t: int, s': State, pc': Pc, i: int, v: int, l: LockHold, l': LockHold)
    requires Inv(s) && Shape(s, t) && 0 <= i < CLASSES && s.init == 2
    requires s' == Moves(s, t, pc', s.heap).(locks := s.locks[i := v])
    requires l == LockOf(s.threads[t])
    requires (l == NoLock && s.locks[i] == -1 && v == t && l' != NoLock && l'.i == i)
             || (l == Plain(i) && v == -1 && l' == NoLock)
    requires Placed(s', t, pc', HoldOf(s.threads[t]), l', PinOf(s.threads[t]))
    ensures Inv(s') && Abs(s'.heap) == Abs(s.heap) && Background(s.heap, s'.heap)
  {
    hide Inv, HeapInv, HoldOk, PinOk, PcOk, InitOk;
    InvParts(s);
    var d, p := HoldOf(s.threads[t]), PinOf(s.threads[t]);
    OwnOf(s, t, d, l, p);
    ZeroIsNoBlock(s);
    InitStays(s, s');
    SamePins(s, t, s', d, l, p, p);
    KeepCalm(s, t, s', d, l, l', p, p, 0);
  }

  lemma KeepLock(s: State, t: int, k: Call, s': State)
    requires Inv(s) && Shape(s, t) && s.threads[t] == Lock(k) && CallOk(k)
    requires DoLock(s, t, ClassOf(k.size), Check(k), s')
    ensures Inv(s') && Effect(s, t, s')
  {
    hide Inv, HeapInv;
    InvParts(s);
    OwnOf(s, t, Nothing, NoLock, PinOf(Lock(k)));
    FreeLock(s, ClassOf(k.size));
    KeepTurn(s, t, s', Check(k), ClassOf(k.size), t, NoLock, Plain(ClassOf(k.size)));
  }

  lemma FreeLock(s: State, i: int)
    requires Inv(s) && 0 <= i < CLASSES == |s.heap.slabs| && s.locks[i] == -1
    ensures !s.heap.slabs[i].claiming
  {
  }

  lemma KeepLockFree(s: State, t: int, b: Addr, i: int, s': State)
    requires Inv(s) && Shape(s, t) && s.threads[t] == LockFree(b, i) && DoLock(s, t, i, Insert(b, i), s')
    ensures Inv(s') && Effect(s, t, s')
  {
    hide Inv, HeapInv, HoldOk, Abs;
    InvParts(s);
    OwnOf(s, t, HoldOf(LockFree(b, i)), NoLock, NoPin);
    FreeLock(s, i);
    KeepTurn(s, t, s', Insert(b, i), i, t, NoLock, Plain(i));
  }

  lemma KeepUnlockFree(s: State, t: int, i: int, s': State)
    requires Inv(s) && Shape(s, t) && s.threads[t] == UnlockFree(i) && DoUnlock(s, t, i, Idle, s')
    ensures Inv(s') && Effect(s, t, s')
  {
    hide Inv, HeapInv;
    InvParts(s);
    OwnOf(s, t, Nothing, Plain(i), NoPin);
    KeepTurn(s, t, s', Idle, i, -1, Plain(i), NoLock);
  }

  // ----- p2malloc returns NULL, p2realloc takes hold of its block -----

  /** NULL: every lock is released and a realloc lets go of its block, which it leaves as it was. */
  lemma KeepFails(s: State, t: int, k: Call, l: LockHold, s': State)
    requires Inv(s) && Shape(s, t) && CallOf(s.threads[t]) == Some(k) && s.init == 2
    requires HoldOf(s.threads[t]) == Nothing && l == LockOf(s.threads[t])
    requires if l == NoLock then s' == Fails(s, t, k)
             else l.Plain? && 0 <= l.i < CLASSES && s' == Fails(s, t, k).(locks := s.locks[l.i := -1])
    ensures Inv(s') && Abs(s'.heap) == Abs(s.heap) && Background(s.heap, s'.heap)
  {
    hide Inv, HeapInv;
    InvParts(s);
    var p := PinOf(s.threads[t]);
    OwnOf(s, t, Nothing, l, p);
    ZeroIsNoBlock(s);
    InitStays(s, s');
    var c := if k.ReallocCall? then k.from else 0;
    PinsOff(s, t, k, l, s');
    KeepCalm(s, t, s', Nothing, l, NoLock, p, NoPin, c);
  }

  lemma PinsOff(s: State, t: int, k: Call, l: LockHold, s': State)
    requires Inv(s) && Shape(s, t) && Own(s, t, Nothing, l, PinOf(s.threads[t])) && CallOf(s.threads[t]) == Some(k)
    requires s'.heap == s.heap && s'.pins == if k.ReallocCall? then s.pins - {k.from} else s.pins
    ensures var c := if k.ReallocCall? then k.from else 0;
            && OwnPins(t, s', NoPin, c) && OwnCounts(s', c, c)
            && (c in s.pins ==> s.pins[c] == t) && c !in s.heap.hands
  {
    hide Inv, HeapInv;
    ZeroIsNoBlock(s);
    if k.ReallocCall? {
      LiveNotInHands(s, k.from);
    }
  }

  lemma KeepUnlockMalloc(s: State, t: int, k: Call, b: Addr, s': State)
    requires Inv(s) && Shape(s, t) && s.threads[t] == Unlock(k, b) && CallOk(k)
    requires DoUnlockMalloc(s, t, k, ClassOf(k.size), b, s')
    ensures Inv(s') && Effect(s, t, s')
  {
    hide Inv, HeapInv;
    InvParts(s);
    var i := ClassOf(k.size);
    OwnOf(s, t, HoldOf(Unlock(k, b)), Plain(i), PinOf(Unlock(k, b)));
    if b == 0 {
      KeepFails(s, t, k, Plain(i), s');
    } else {
      KeepTurn(s, t, s', Header(k, b), i, -1, Plain(i), NoLock);
    }
  }

  lemma KeepPin(s: State, t: int, b: Addr, pc': Pc, p': Pin, s': State)
    requires Inv(s) && Shape(s, t) && s.threads[t] == Idle && Available(s, b)
    requires s' == Moves(s, t, pc', s.heap).(pins := s.pins[b := t])
    requires Placed(s', t, pc', Nothing, NoLock, p') && p'.Pinned? && p'.b == b
    ensures Inv(s') && Abs(s'.heap) == Abs(s.heap) && Background(s.heap, s'.heap)
  {
    hide Inv, HeapInv, PinOk, PcOk, InitOk;
    InvParts(s);
    OwnOf(s, t, Nothing, NoLock, NoPin);
    LiveNotInHands(s, b);
    KeepCalm(s, t, s', Nothing, NoLock, NoLock, NoPin, p', b);
  }

  lemma KeepBeginFree(s: State, t: int, b: Addr, s': State)
    requires Inv(s) && Shape(s, t) && s.threads[t] == Idle && BeginFree(s, t, b, s')
    ensures Inv(s') && Effect(s, t, s')
  {
    hide Inv, HeapInv, PinOk;
    InitWhenLive(s, b);
    PinsLive(s, b, t);
    KeepPin(s, t, b, FreeStart(b), Pinned(b, 0, true, false, 0), s');
  }

  lemma PinsLive(s: State, b: Addr, t: int)
    requires Inv(s) && Available(s, b)
    ensures PinOk(s.heap, s.pins[b := t], t, Pinned(b, 0, true, false, 0))
  {
    hide ThreadsOk, LocksInv, HandsInv, PinsInv, InitInv, RegionsCounted;
    assert LiveBlock(b, s.heap.live[b], s.heap.ext, s.heap.os, s.heap.abandoned);
  }

  lemma PinsAway(s: State, b: Addr, t: int, size: nat)
    requires Inv(s) && Available(s, b) && Mapped(s.heap.mem, b, HEADER) && size <= SIZE_MAX
    requires !(Load(s.heap.mem, b + 8) == 0 && ClassOf(size) == ClassOf(Load(s.heap.mem, b)))
    ensures PinOk(s.heap, s.pins[b := t], t, Pinned(b, 0, true, false, size))
  {
    hide Inv, HeapInv;
    InvParts(s);
    PinsLive(s, b, t);
    LiveRoom(s.heap, b);
  }

  lemma KeepBeginResize(s: State, t: int, b: Addr, size: nat, s': State)
    requires Inv(s) && Shape(s, t) && s.threads[t] == Idle && BeginRealloc(s, t, b, size, s')
    requires Load(s.heap.mem, b + 8) == 0 && ClassOf(size) == ClassOf(Load(s.heap.mem, b))
    ensures Inv(s') && Effect(s, t, s')
  {
    hide Inv, HeapInv, PinOk, Abs;
    PinsOn(s, b, t, size);
    InitWhenLive(s, b);
    KeepPin(s, t, b, ResizeSub(b, size), Pinned(b, size, true, false, 0), s');
  }

  lemma KeepBeginMove(s: State, t: int, b: Addr, size: nat, s': State)
    requires Inv(s) && Shape(s, t) && s.threads[t] == Idle && BeginRealloc(s, t, b, size, s')
    requires !(Load(s.heap.mem, b + 8) == 0 && ClassOf(size) == ClassOf(Load(s.heap.mem, b)))
    ensures Inv(s') && Effect(s, t, s')
  {
    hide Inv, HeapInv, PinOk, Abs;
    PinsAway(s, b, t, size);
    KeepPin(s, t, b, Cas(ReallocCall(b, size)), Pinned(b, 0, true, false, size), s');
  }

  lemma KeepBeginRealloc(s: State, t: int, b: Addr, size: nat, s': State)
    requires Inv(s) && Shape(s, t) && s.threads[t] == Idle && BeginRealloc(s, t, b, size, s')
    ensures Inv(s') && Effect(s, t, s')
  {
    hide Inv, HeapInv, PinOk, Abs;
    if Load(s.heap.mem, b + 8) == 0 && ClassOf(size) == ClassOf(Load(s.heap.mem, b)) {
      KeepBeginResize(s, t, b, size, s');
    } else {
      KeepBeginMove(s, t, b, size, s');
    }
  }

  lemma InitWhenLive(s: State, b: Addr)
    requires Inv(s) && b in s.heap.live
    ensures s.init == 2
  {
    assert Held(s.heap, b);
  }

  /** The extent of a live block and what its header in memory says. */
  lemma LiveRoom(h: Heap, b: Addr)
    requires HeapInv(h) && b in h.live && h.live[b].size < WORDS
    ensures b in h.ext && h.live[b].size + HEADER <= h.ext[b] && HasHeader(h.mem, b, h.live[b])
    ensures ClassOf(h.live[b].size) == -1 <==> h.live[b].mapped != 0
    ensures ClassOf(h.live[b].size) >= 0 ==> h.ext[b] == BlockSize(ClassOf(h.live[b].size))
  {
    HeldExtent(h, b);
    assert LiveBlock(b, h.live[b], h.ext, h.os, h.abandoned);
  }

  /** What p2realloc reads in the header of an available block: if it goes on in place, the block has
      room for the new size. */
  lemma PinsOn(s: State, b: Addr, t: int, size: nat)
    requires Inv(s) && Shape(s, t) && Available(s, b) && Mapped(s.heap.mem, b, HEADER) && 0 < size <= SIZE_MAX
    requires size <= SIZE_MAX - HEADER || s.heap.live[b].mapped != 0 || ClassOf(s.heap.live[b].size) != 0
    ensures Load(s.heap.mem, b + 8) == 0 && ClassOf(size) == ClassOf(Load(s.heap.mem, b)) ==>
              PinOk(s.heap, s.pins[b := t], t, Pinned(b, size, true, false, 0))
  {
    hide ThreadsOk, LocksInv, HandsInv, PinsInv, InitInv, RegionsCounted, HeapInv;
    LiveRoom(s.heap, b);
    var i := ClassOf(size);
    if i == ClassOf(s.heap.live[b].size) >= 0 {
      ClassFitsIffNoWrap(size);
    }
  }
}

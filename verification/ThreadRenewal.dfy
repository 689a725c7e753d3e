/** After a reset the process is a new one that has lost some memory: without the regions given up, every run that
    follows a reset is a run of a new process. */
module ThreadRenewal {
  import opened Bytes
  import opened Collections
  import opened Sizes
  import opened PsList
  import opened Os
  import opened Heaps
  import opened HeapRegions
  import opened Trims
  import opened Threads
  import opened ThreadInvariant
  import opened AbstractHeap
  import opened ThreadRuns
  import opened ThreadEpochs
  import A = AllocSpec

  ghost function TrimState(s: State, g: map<Addr, nat>): State {
    s.(heap := TrimHeap(s.heap, g))
  }

  // ----- Steps that read and write no memory -----

  lemma TrimCas(s: State, t: int, k: Call, s': State, g: map<Addr, nat>)
    requires Shape(s, t) && DoCas(s, t, k, s')
    ensures DoCas(TrimState(s, g), t, k, TrimState(s', g))
  {
    hide Trim;
  }

  /** Past ensure_init, the winner of the compare-and-swap or a thread that has waited for it. */
  lemma TrimEntered(s: State, t: int, k: Call, s': State, g: map<Addr, nat>)
    requires Shape(s, t)
    ensures DoStore2(s, t, k, s') ==> DoStore2(TrimState(s, g), t, k, TrimState(s', g))
    ensures DoSpin(s, t, k, s') ==> DoSpin(TrimState(s, g), t, k, TrimState(s', g))
  {
    hide Trim;
  }

  lemma TrimCount(s: State, t: int, b: Addr, n: nat, pc': Pc, s': State, g: map<Addr, nat>)
    requires Shape(s, t)
    ensures DoCount(s, t, b, n, pc', s') ==> DoCount(TrimState(s, g), t, b, n, pc', TrimState(s', g))
    ensures DoCountRegion(s, t, b, n, pc', s') ==> DoCountRegion(TrimState(s, g), t, b, n, pc', TrimState(s', g))
  {
    hide Trim;
  }

  lemma TrimLock(s: State, t: int, i: int, pc': Pc, s': State, g: map<Addr, nat>)
    requires Shape(s, t)
    ensures DoLock(s, t, i, pc', s') ==> DoLock(TrimState(s, g), t, i, pc', TrimState(s', g))
    ensures DoUnlock(s, t, i, pc', s') ==> DoUnlock(TrimState(s, g), t, i, pc', TrimState(s', g))
  {
    hide Trim;
  }

  lemma TrimUnlock(s: State, t: int, k: Call, i: int, b: Addr, s': State, g: map<Addr, nat>)
    requires Shape(s, t) && DoUnlockMalloc(s, t, k, i, b, s')
    ensures DoUnlockMalloc(TrimState(s, g), t, k, i, b, TrimState(s', g))
  {
    hide Trim;
  }

  lemma TrimFreeStart(s: State, t: int, b: Addr, s': State, g: map<Addr, nat>)
    requires Shape(s, t) && DoFreeStart(s, t, b, s')
    ensures DoFreeStart(TrimState(s, g), t, b, TrimState(s', g))
  {
    hide Trim;
  }

  // ----- Calls -----

  lemma TrimBegin(s: State, t: int, s': State, g: map<Addr, nat>)
    requires Inv(s) && GivenUp(s.heap, g) && Shape(s, t) && Begin(s, t, s')
    ensures Begin(TrimState(s, g), t, TrimState(s', g))
  {
    hide Inv, Trim, GivenUp;
    if k :| BeginMalloc(s, t, k, s') {
      assert BeginMalloc(TrimState(s, g), t, k, TrimState(s', g));
    } else if b :| BeginFree(s, t, b, s') {
      assert BeginFree(TrimState(s, g), t, b, TrimState(s', g));
    } else {
      var b, size :| BeginRealloc(s, t, b, size, s');
      BlockWords(s, g, b);
      assert BeginRealloc(TrimState(s, g), t, b, size, TrimState(s', g));
    }
  }

  /** The header of a held block reads the same. */
  lemma BlockWords(s: State, g: map<Addr, nat>, b: Addr)
    requires Inv(s) && GivenUp(s.heap, g) && Held(s.heap, b) && Mapped(s.heap.mem, b, HEADER)
    ensures Off(g, b, HEADER) && Off(g, b + HEADER, 8) && Off(g, b, 8)
    ensures var m, l := s.heap.mem, Trim(s.heap.mem, g);
            Mapped(l, b, HEADER) && Load(l, b) == Load(m, b) && Load(l, b + 8) == Load(m, b + 8)
  {
    hide Inv, HeapInv, GivenUp, Layout, Classes, Owned, Lists, Accounts, Off, Trim;
    InvParts(s);
    HeapParts(s.heap);
    HeldLink(s.heap, g, b);
    TrimPair(s.heap.mem, g, b);
  }

  lemma TrimHeads(s: State, t: int, k: Call, s': State, g: map<Addr, nat>)
    requires Inv(s) && GivenUp(s.heap, g) && Shape(s, t) && s.threads[t] == Heads(k) && DoHeads(s, t, k, s')
    ensures DoHeads(TrimState(s, g), t, k, TrimState(s', g))
  {
    hide Inv, HeapInv, Layout, Classes, Owned, Lists, Accounts, Trim, GivenUp, Initialised, Off;
    InvParts(s);
    HeapParts(s.heap);
    HeapBytes(s.heap);
    SentinelOff(s.heap, g, s.heap.ready);
    TrimInitialised(s.heap.mem, s'.heap.mem, g, s.heap.heads[s.heap.ready]);
  }

  lemma TrimLargeAsk(s: State, t: int, k: Call, s': State, g: map<Addr, nat>)
    requires Inv(s) && GivenUp(s.heap, g) && Shape(s, t) && s.threads[t] == LargeAsk(k) && DoLargeAsk(s, t, k, s')
    ensures DoLargeAsk(TrimState(s, g), t, k, TrimState(s', g))
  {
    hide Inv, HeapInv, Layout, Classes, Owned, Lists, Accounts, Trim, GivenUp, FreshRegion;
    InvParts(s);
    HeapParts(s.heap);
    if s' != Fails(s, t, k) {
      var p :| LargeAnswer(s, t, k, p, s');
      TrimFreshHeap(s.heap, s'.heap.mem, g, p, LargeBytes(k));
      TrimLargeClaimed(s.heap, g, p, LargeBytes(k), t, s'.heap.mem);
      assert LargeAnswer(TrimState(s, g), t, k, p, TrimState(s', g));
    }
  }

  lemma TrimAskPage(s: State, t: int, k: Call, i: int, s': State, g: map<Addr, nat>)
    requires Inv(s) && GivenUp(s.heap, g) && Shape(s, t) && DoAskPage(s, t, k, i, s')
    ensures DoAskPage(TrimState(s, g), t, k, i, TrimState(s', g))
  {
    hide Inv, HeapInv, Layout, Classes, Owned, Lists, Accounts, Trim, GivenUp, FreshRegion, Claimed;
    InvParts(s);
    HeapParts(s.heap);
    if s' != Moves(s, t, Unlock(k, 0), s.heap) {
      var p :| PageAnswer(s, t, k, i, p, s');
      TrimFreshHeap(s.heap, s'.heap.mem, g, p, PAGE);
      TrimClaimed(s.heap, g, i, p, s'.heap.mem);
      assert PageAnswer(TrimState(s, g), t, k, i, p, TrimState(s', g));
    }
  }

  lemma TrimHeader(s: State, t: int, k: Call, b: Addr, mapped: nat, pc': Pc, s': State, g: map<Addr, nat>)
    requires Inv(s) && GivenUp(s.heap, g) && Shape(s, t) && Inv(s') && GivenUp(s'.heap, g)
    requires b in s'.heap.hands && DoHeader(s, t, k, b, mapped, pc', s')
    ensures DoHeader(TrimState(s, g), t, k, b, mapped, pc', TrimState(s', g))
  {
    hide Inv, Trim, GivenUp, Off, WritesIn;
    BlockWords(s', g, b);
    TrimWrites(s.heap.mem, s'.heap.mem, g, b, HEADER);
  }

  // ----- The free list -----

  lemma TrimDoCheck(s: State, t: int, k: Call, i: int, s': State, g: map<Addr, nat>)
    requires Inv(s) && GivenUp(s.heap, g) && Shape(s, t) && DoCheck(s, t, k, i, s')
    ensures DoCheck(TrimState(s, g), t, k, i, TrimState(s', g))
  {
    hide Inv, HeapInv, Trim, GivenUp;
    InvParts(s);
    TrimCheck(s.heap, g, i);
  }

  lemma TrimDoCarve(s: State, t: int, k: Call, i: int, p: Addr, a: Addr, s': State, g: map<Addr, nat>)
    requires Inv(s) && GivenUp(s.heap, g) && Shape(s, t) && s.threads[t] == Carve(k, p, a) && CallOk(k)
    requires i == ClassOf(k.size) && DoCarve(s, t, k, i, p, a, s')
    ensures DoCarve(TrimState(s, g), t, k, i, p, a, TrimState(s', g))
  {
    hide Inv, HeapInv, Trim, GivenUp, Pushed;
    InvParts(s);
    OwnOf(s, t, Nothing, Claiming(i, p, a, true), PinOf(Carve(k, p, a)));
    if a < p + PAGE {
      TrimPush(s.heap, s'.heap.mem, g, i);
    }
  }

  lemma TrimDoPop(s: State, t: int, k: Call, i: int, s': State, g: map<Addr, nat>)
    requires Inv(s) && GivenUp(s.heap, g) && Shape(s, t) && s.init == 2 && DoPop(s, t, k, i, s')
    ensures DoPop(TrimState(s, g), t, k, i, TrimState(s', g))
  {
    hide Inv, HeapInv, Trim, GivenUp, Unlinked;
    InvParts(s);
    TrimPop(s.heap, s'.heap.mem, g, i);
  }

  lemma TrimDoInsert(s: State, t: int, b: Addr, i: int, s': State, g: map<Addr, nat>)
    requires Inv(s) && GivenUp(s.heap, g) && Shape(s, t) && s.init == 2 && b in s.heap.hands
    requires DoInsert(s, t, b, i, s')
    ensures DoInsert(TrimState(s, g), t, b, i, TrimState(s', g))
  {
    hide Inv, HeapInv, Trim, GivenUp, Added;
    InvParts(s);
    TrimPut(s.heap, s'.heap.mem, g, i, b);
  }

  // ----- The block in hands -----

  lemma TrimFreeUsed(s: State, t: int, b: Addr, i: int, s': State, g: map<Addr, nat>)
    requires Inv(s) && GivenUp(s.heap, g) && Shape(s, t) && Held(s.heap, b) && DoFreeUsed(s, t, b, i, s')
    ensures DoFreeUsed(TrimState(s, g), t, b, i, TrimState(s', g))
  {
    hide Inv, Trim, GivenUp, Off;
    BlockWords(s, g, b);
  }

  lemma TrimFreeTotal(s: State, t: int, b: Addr, s': State, g: map<Addr, nat>)
    requires Inv(s) && GivenUp(s.heap, g) && Shape(s, t) && Held(s.heap, b) && DoFreeTotal(s, t, b, s')
    ensures DoFreeTotal(TrimState(s, g), t, b, TrimState(s', g))
  {
    hide Inv, Trim, GivenUp, Off;
    BlockWords(s, g, b);
  }

  lemma TrimUnmap(s: State, t: int, b: Addr, s': State, g: map<Addr, nat>)
    requires Inv(s) && GivenUp(s.heap, g) && Shape(s, t) && Held(s.heap, b) && DoUnmap(s, t, b, s')
    ensures DoUnmap(TrimState(s, g), t, b, TrimState(s', g))
  {
    hide Inv, Trim, GivenUp, Unmapped, Off;
    BlockWords(s, g, b);
    TrimUnmapped(s.heap.mem, s'.heap.mem, g, b, Load(s.heap.mem, b + 8));
    TrimReleased(s.heap, g, b, s'.heap.mem);
  }

  lemma TrimWipe(s: State, t: int, b: Addr, s': State, g: map<Addr, nat>)
    requires Inv(s) && GivenUp(s.heap, g) && Shape(s, t) && Held(s.heap, b) && DoWipe(s, t, b, s')
    ensures DoWipe(TrimState(s, g), t, b, TrimState(s', g))
  {
    hide Inv, Trim, GivenUp, Zeroed, Off;
    BlockWords(s, g, b);
    TrimZeroed(s.heap.mem, s'.heap.mem, g, b + HEADER, 8);
  }

  lemma TrimResizeSub(s: State, t: int, b: Addr, n: nat, s': State, g: map<Addr, nat>)
    requires Inv(s) && GivenUp(s.heap, g) && Shape(s, t) && Held(s.heap, b) && DoResizeSub(s, t, b, n, s')
    requires Mapped(s.heap.mem, b, HEADER)
    ensures DoResizeSub(TrimState(s, g), t, b, n, TrimState(s', g))
  {
    hide Inv, Trim, GivenUp, Off;
    BlockWords(s, g, b);
  }

  lemma TrimResizeSet(s: State, t: int, b: Addr, n: nat, s': State, g: map<Addr, nat>)
    requires Inv(s) && GivenUp(s.heap, g) && Shape(s, t) && DoResizeSet(s, t, b, n, s')
    requires Mapped(s.heap.mem, b, HEADER)
    ensures DoResizeSet(TrimState(s, g), t, b, n, TrimState(s', g))
  {
    hide Inv, Trim, GivenUp, Off, Store;
    BlockWords(s, g, b);
    TrimStore(s.heap.mem, g, b, n);
  }

  // ----- p2malloc has returned -----

  lemma PayloadOff(s: State, g: map<Addr, nat>, b: Addr, n: nat)
    requires Inv(s) && GivenUp(s.heap, g) && Held(s.heap, b)
    requires b in s.heap.ext && n + HEADER <= s.heap.ext[b]
    ensures Off(g, b + HEADER, n)
  {
    hide Inv, HeapInv, GivenUp, Layout, Classes, Owned, Lists, Accounts, InRegion;
    InvParts(s);
    HeapParts(s.heap);
    HeldOff(s.heap, g, b);
  }

  lemma TrimFinish(s: State, t: int, k: Call, b: Addr, s': State, g: map<Addr, nat>)
    requires Inv(s) && GivenUp(s.heap, g) && Shape(s, t) && s.threads[t] == Finish(k, b) && DoFinish(s, t, k, b, s')
    ensures DoFinish(TrimState(s, g), t, k, b, TrimState(s', g))
  {
    hide Inv, Trim, GivenUp, Off, Zeroed, Copied, HoldOf, PinOf, LockOf;
    FinishFacts(s, t, k, b);
    BlockWords(s, g, b);
    match k
    case MallocCall(_) =>
    case CallocCall(n) =>
      PayloadOff(s, g, b, n);
      TrimZeroed(s.heap.mem, s'.heap.mem, g, b + HEADER, n);
    case ReallocCall(o, n) =>
      TrimCopy(s, s'.heap.mem, g, b, o, n);
  }

  lemma FinishFacts(s: State, t: int, k: Call, b: Addr)
    requires Inv(s) && Shape(s, t) && s.threads[t] == Finish(k, b)
    ensures b in s.heap.hands && b in s.heap.ext && k.size + HEADER <= s.heap.ext[b]
  {
    hide Inv;
    OwnOf(s, t, HoldOf(Finish(k, b)), NoLock, PinOf(Finish(k, b)));
  }

  /** The copy that p2realloc makes of the common prefix. */
  lemma TrimCopy(s: State, m': Memory, g: map<Addr, nat>, b: Addr, o: Addr, n: nat)
    requires Inv(s) && GivenUp(s.heap, g) && b in s.heap.hands && o in s.heap.live
    requires b in s.heap.ext && n + HEADER <= s.heap.ext[b]
    requires Copied(s.heap.mem, m', b + HEADER, o + HEADER, Min(s.heap.live[o].size, n))
    ensures Copied(Trim(s.heap.mem, g), Trim(m', g), b + HEADER, o + HEADER, Min(s.heap.live[o].size, n))
  {
    hide Inv, Trim, GivenUp, Off, Copied;
    OldRoom(s, o);
    var c := Min(s.heap.live[o].size, n);
    PayloadOff(s, g, b, c);
    PayloadOff(s, g, o, c);
    TrimCopied(s.heap.mem, m', g, b + HEADER, o + HEADER, c);
  }

  lemma OldRoom(s: State, o: Addr)
    requires Inv(s) && o in s.heap.live
    ensures o in s.heap.ext && s.heap.live[o].size + HEADER <= s.heap.ext[o]
  {
    assert LiveBlock(o, s.heap.live[o], s.heap.ext, s.heap.os, s.heap.abandoned);
  }

  // ----- Every step -----

  /** What the steps below need of the place of a thread: the block in hands, the block being resized, and
      init_state 2 while it works on a free list. */
  lemma PlaceFacts(s: State, t: int)
    requires Inv(s) && Shape(s, t)
    ensures var pc := s.threads[t]; pc.LargeHeader? || pc.Header? ==> pc.b in s.heap.hands
    ensures var pc := s.threads[t];
            pc.FreeUsed? || pc.FreeTotal? || pc.Unmap? || pc.Wipe? || pc.Insert? ==> pc.b in s.heap.hands
    ensures var pc := s.threads[t];
            pc.ResizeSub? || pc.ResizeSet? ==> pc.b in s.heap.live && Mapped(s.heap.mem, pc.b, HEADER)
    ensures var pc := s.threads[t]; pc.PopFirst? || pc.Insert? ==> s.init == 2
  {
    hide LocksInv, HandsInv, PinsInv, LiveCounted, RegionsCounted;
    var pc := s.threads[t];
    OwnOf(s, t, HoldOf(pc), LockOf(pc), PinOf(pc));
    if PinOf(pc).Pinned? {
      assert HasHeader(s.heap.mem, PinOf(pc).b, s.heap.live[PinOf(pc).b]);
    }
  }

  lemma TrimMalloc(s: State, t: int, s': State, g: map<Addr, nat>)
    requires Inv(s) && Inv(s') && GivenUp(s.heap, g) && GivenUp(s'.heap, g) && Shape(s, t)
    requires InMalloc(s.threads[t]) && Step(s, t, s')
    ensures Step(TrimState(s, g), t, TrimState(s', g))
  {
    hide Inv, GivenUp, TrimHeap, DoCas, DoHeads, DoStore2, DoSpin, DoLargeAsk, DoCount, DoCountRegion;
    hide DoLock, DoCheck, DoAskPage, DoCarve, DoPop, DoUnlockMalloc, DoFinish, Trim, HoldOf, PinOf, LockOf, Entered;
    PlaceFacts(s, t);
    match s.threads[t]
    case Cas(k) => TrimCas(s, t, k, s', g);
    case Heads(k) => TrimHeads(s, t, k, s', g);
    case Store2(k) => TrimEntered(s, t, k, s', g);
    case Spin(k) => TrimEntered(s, t, k, s', g);
    case LargeAsk(k) => TrimLargeAsk(s, t, k, s', g);
    case LargeHeader(k, b) => TrimHeader(s, t, k, b, LargeBytes(k), LargeUsed(k, b), s', g);
    case LargeUsed(k, b) => TrimCount(s, t, b, k.size, LargeTotal(k, b), s', g);
    case LargeTotal(k, b) => TrimCount(s, t, b, LargeBytes(k), Finish(k, b), s', g);
    case Lock(k) => TrimLock(s, t, ClassOf(k.size), Check(k), s', g);
    case Check(k) => TrimDoCheck(s, t, k, ClassOf(k.size), s', g);
    case AskPage(k) => TrimAskPage(s, t, k, ClassOf(k.size), s', g);
    case CountPage(k, p) => TrimCount(s, t, p, PAGE, Carve(k, p, p), s', g);
    case Carve(k, p, a) => TrimDoCarve(s, t, k, ClassOf(k.size), p, a, s', g);
    case PopFirst(k) => TrimDoPop(s, t, k, ClassOf(k.size), s', g);
    case Unlock(k, b) => TrimUnlock(s, t, k, ClassOf(k.size), b, s', g);
    case Header(k, b) => TrimHeader(s, t, k, b, 0, Used(k, b), s', g);
    case Used(k, b) => TrimCount(s, t, b, k.size, Finish(k, b), s', g);
    case Finish(k, b) => TrimFinish(s, t, k, b, s', g);
  }

  lemma TrimOther(s: State, t: int, s': State, g: map<Addr, nat>)
    requires Inv(s) && GivenUp(s.heap, g) && Shape(s, t) && !InMalloc(s.threads[t]) && Step(s, t, s')
    ensures Step(TrimState(s, g), t, TrimState(s', g))
  {
    hide Inv, GivenUp, TrimHeap, Begin, DoFreeStart, DoFreeUsed, DoFreeTotal, DoUnmap, DoWipe, DoLock, DoUnlock;
    hide DoInsert, DoResizeSub, DoCount, DoResizeSet, Trim, HoldOf, PinOf, LockOf;
    PlaceFacts(s, t);
    match s.threads[t]
    case Idle => TrimBegin(s, t, s', g);
    case FreeStart(b) => TrimFreeStart(s, t, b, s', g);
    case FreeUsed(b, i) => TrimFreeUsed(s, t, b, i, s', g);
    case FreeTotal(b) => TrimFreeTotal(s, t, b, s', g);
    case Unmap(b) => TrimUnmap(s, t, b, s', g);
    case Wipe(b, i) => TrimWipe(s, t, b, s', g);
    case LockFree(b, i) => TrimLock(s, t, i, Insert(b, i), s', g);
    case Insert(b, i) => TrimDoInsert(s, t, b, i, s', g);
    case UnlockFree(i) => TrimLock(s, t, i, Idle, s', g);
    case ResizeSub(b, n) => TrimResizeSub(s, t, b, n, s', g);
    case ResizeAdd(b, n) => TrimCount(s, t, b, n, ResizeSet(b, n), s', g);
    case ResizeSet(b, n) => TrimResizeSet(s, t, b, n, s', g);
  }

  /** A step of a thread or of a client is the same step without the regions given up. */
  lemma TrimWorks(s: State, s': State, g: map<Addr, nat>)
    requires Inv(s) && Inv(s') && GivenUp(s.heap, g) && GivenUp(s'.heap, g) && Works(s, s')
    ensures Works(TrimState(s, g), TrimState(s', g))
  {
    hide Inv, GivenUp, TrimHeap, Step, ClientStep;
    if t :| Shape(s, t) && Step(s, t, s') {
      if InMalloc(s.threads[t]) {
        TrimMalloc(s, t, s', g);
      } else {
        TrimOther(s, t, s', g);
      }
      TrimShape(s, t, g);
    } else {
      var b :| ClientStep(s, b, s');
      TrimClient(s, b, s', g);
    }
  }

  lemma TrimShape(s: State, t: int, g: map<Addr, nat>)
    requires Shape(s, t)
    ensures Shape(TrimState(s, g), t)
  {
    hide Trim;
  }

  lemma TrimClient(s: State, b: Addr, s': State, g: map<Addr, nat>)
    requires ClientStep(s, b, s')
    ensures ClientStep(TrimState(s, g), b, TrimState(s', g))
  {
    hide Trim, WritesIn;
    TrimWrites(s.heap.mem, s'.heap.mem, g, b + HEADER, s.heap.live[b].size);
  }

  // ----- Resets -----

  ghost function TrimAll(ms: seq<Memory>, g: map<Addr, nat>): (ls: seq<Memory>)
    ensures |ls| == |ms| && forall k :: 0 <= k < |ms| ==> ls[k] == Trim(ms[k], g)
  {
    if ms == [] then [] else TrimAll(ms[..|ms| - 1], g) + [Trim(ms[|ms| - 1], g)]
  }

  lemma TrimRelinks(h: Heap, ms: seq<Memory>, g: map<Addr, nat>)
    requires HeapInv(h) && GivenUp(Abandoned(h), g) && Relinks(ms, h.heads)
    ensures Relinks(TrimAll(ms, g), h.heads)
  {
    hide HeapInv, Layout, Classes, Owned, Lists, Accounts, Initialised, Trim, Off, GivenUp;
    AbandonInv(h);
    HeapParts(Abandoned(h));
    HeapBytes(Abandoned(h));
    forall k | 0 <= k < CLASSES ensures Initialised(Trim(ms[k], g), Trim(ms[k + 1], g), h.heads[k]) {
      SentinelOff(Abandoned(h), g, k);
      TrimInitialised(ms[k], ms[k + 1], g, h.heads[k]);
    }
  }

  lemma TrimReset(s: State, s': State, g: map<Addr, nat>)
    requires Inv(s) && GivenUp(s.heap, g) && ResetStep(s, s')
    ensures ResetStep(TrimState(s, g), TrimState(s', g))
  {
    hide Inv, HeapInv, Initialised, Trim, Layout;
    var ms :| ResetBy(s, ms, s');
    InvParts(s);
    TrimRelinks(s.heap, ms, g);
    KeptRegions(s.heap.os, g);
    assert ResetBy(TrimState(s, g), TrimAll(ms, g), TrimState(s', g));
  }

  lemma KeptRegions(os: map<Addr, nat>, g: map<Addr, nat>)
    ensures (os - g.Keys).Keys == os.Keys - g.Keys
  {
  }

  // ----- Runs after a reset -----

  /** The process as if it had just been started, in the memory that a reset does not give up. */
  ghost function NewProcess(s: State): State {
    var m := Trim(s.heap.mem, s.heap.os);
    State(NewHeap(m, s.heap.heads, m.Keys, map[]), 0, s.initer, s.locks, map[], s.threads, s.rets)
  }

  lemma SentinelsFree(h: Heap)
    requires HeapInv(h)
    ensures SentinelSpace(Trim(h.mem, h.os), h.heads)
  {
    hide HeapInv, Layout, Classes, Owned, Lists, Accounts, Off, Trim;
    AbandonInv(h);
    HeapParts(Abandoned(h));
    HeapBytes(Abandoned(h));
    SentinelsApart(h);
    forall i | 0 <= i < CLASSES ensures Mapped(Trim(h.mem, h.os), h.heads[i], LINK) {
      SentinelOff(Abandoned(h), h.os, i);
      TrimSame(h.mem, h.os, h.heads[i], LINK);
    }
  }

  lemma NewProcessInitial(s: State)
    requires Inv(s) && forall t :: 0 <= t < |s.threads| ==> s.threads[t] == Idle
    ensures Initial(NewProcess(s))
  {
    hide Inv, HeapInv, Trim, SentinelSpace;
    InvParts(s);
    InvRets(s);
    SentinelsFree(s.heap);
    NobodyHolds(s, 0);
    assert s.locks == seq(CLASSES, _ => -1);
  }

  /** Of what is mapped at a reset, what is not given up is what was mapped when the process started. */
  lemma TrimmedKeys(h: Heap)
    requires HeapInv(h)
    ensures Trim(h.mem, h.os).Keys == h.fixed
  {
    hide Layout, Classes, Owned, Outstanding, Lists, Headers, Accounts, Regions, Tripwires, Users;
    var m := Trim(h.mem, h.os);
    forall a ensures a in m.Keys <==> a in h.fixed {
      assert a in m <==> a in h.mem && !InRegion(h.os, a);
    }
    SameSet(m.Keys, h.fixed);
  }

  /** The reset does to the new process what it does to the old one. */
  lemma FirstReset(s: State, s': State)
    requires Inv(s) && ResetStep(s, s')
    ensures ResetStep(NewProcess(s), TrimState(s', s.heap.os))
  {
    hide Inv, HeapInv, Initialised, Trim, Layout;
    var g := s.heap.os;
    var ms :| ResetBy(s, ms, s');
    InvParts(s);
    TrimRelinks(s.heap, ms, g);
    TrimmedKeys(s.heap);
    NoRegions(g);
    NobodyPins(s);
    assert ResetBy(NewProcess(s), TrimAll(ms, g), TrimState(s', g));
  }

  lemma NobodyPins(s: State)
    requires Inv(s) && forall t :: 0 <= t < |s.threads| ==> s.threads[t] == Idle
    ensures s.pins == map[]
  {
    hide Inv;
    forall b ensures b !in s.pins {
      NobodyHolds(s, b);
    }
    SameMap(s.pins, map[]);
  }

  lemma NoRegions(g: map<Addr, nat>)
    ensures g - g.Keys == map[] && g.Keys - g.Keys == {}
  {
    SameMap(g - g.Keys, map[]);
  }

  /** Clients and the allocator itself see the same in both states: contents of blocks, lists, peaks, counters,
      places of threads and pointers returned. */
  ghost predicate SameView(s: State, s': State) {
    && A.ViewOf(s'.heap) == A.ViewOf(s.heap) && Abs(s'.heap) == Abs(s.heap)
    && s'.threads == s.threads && s'.rets == s.rets && s'.locks == s.locks && s'.init == s.init
  }

  lemma ExtentMapped(s: State, b: Addr)
    requires Inv(s) && b in s.heap.ext
    ensures Mapped(s.heap.mem, b, s.heap.ext[b])
  {
  }

  lemma TrimView(s: State, g: map<Addr, nat>)
    requires Inv(s) && GivenUp(s.heap, g)
    ensures SameView(s, TrimState(s, g))
  {
    hide Inv, GivenUp, Trim, Abs;
    forall b | b in s.heap.live ensures Same(s.heap.mem, Trim(s.heap.mem, g), b + HEADER, s.heap.live[b].size) {
      OldRoom(s, b);
      PayloadOff(s, g, b, s.heap.live[b].size);
      ExtentMapped(s, b);
      TrimSame(s.heap.mem, g, b + HEADER, s.heap.live[b].size);
    }
    AbsSame(s.heap, TrimHeap(s.heap, g));
  }

  /** The run from state e on, the regions that the reset before e gave up taken away, after the start of a new
      process. */
  ghost function Renewed(r: seq<State>, e: nat): seq<State>
    requires 0 < e < |r|
  {
    [NewProcess(r[e - 1])] + seq(|r| - e, k requires 0 <= k < |r| - e => TrimState(r[e + k], r[e - 1].heap.os))
  }

  lemma GivenAfter(r: seq<State>, e: nat, j: nat)
    requires Run(r) && 0 < e <= j < |r| && ResetStep(r[e - 1], r[e])
    ensures GivenUp(r[j].heap, r[e - 1].heap.os)
  {
    hide Run, ResetStep;
    ResetIsNew(r[e - 1], r[e]);
    GivenForGood(r, e, j);
  }

  lemma TrimFollows(s: State, s': State, g: map<Addr, nat>)
    requires Inv(s) && Inv(s') && GivenUp(s.heap, g) && GivenUp(s'.heap, g) && Follows(s, s')
    ensures Follows(TrimState(s, g), TrimState(s', g))
  {
    hide Inv, GivenUp, TrimState, Works, ResetStep;
    if Works(s, s') {
      TrimWorks(s, s', g);
    } else {
      TrimReset(s, s', g);
    }
  }

  lemma StartRenewed(r: seq<State>, e: nat)
    requires Run(r) && 0 < e < |r| && ResetStep(r[e - 1], r[e])
    ensures Initial(NewProcess(r[e - 1])) && Follows(NewProcess(r[e - 1]), TrimState(r[e], r[e - 1].heap.os))
  {
    hide Run, Inv, NewProcess, TrimState, Initial;
    RunKeeps(r, e - 1);
    NewProcessInitial(r[e - 1]);
    FirstReset(r[e - 1], r[e]);
  }

  lemma StepRenewed(r: seq<State>, e: nat, j: nat)
    requires Run(r) && 0 < e <= j < |r| - 1 && ResetStep(r[e - 1], r[e])
    ensures var g := r[e - 1].heap.os; Follows(TrimState(r[j], g), TrimState(r[j + 1], g))
  {
    hide Inv, TrimState, Initial, ResetStep, Follows, GivenUp;
    RunKeeps(r, j);
    RunKeeps(r, j + 1);
    GivenAfter(r, e, j);
    GivenAfter(r, e, j + 1);
    TrimFollows(r[j], r[j + 1], r[e - 1].heap.os);
  }

  /** Whatever the process did before a reset, every run that follows the reset is, without the regions given up,
      a run of a new process that starts with p2reset: same steps, same answers, same contents, same counters. */
  lemma ResetRenews(r: seq<State>, e: nat)
    requires Run(r) && 0 < e < |r| && ResetStep(r[e - 1], r[e])
    ensures var n, g := Renewed(r, e), r[e - 1].heap.os;
            && Run(n) && |n| == |r| - e + 1
            && forall j :: e <= j < |r| ==> n[j - e + 1] == TrimState(r[j], g) && SameView(r[j], n[j - e + 1])
  {
    hide Inv, GivenUp, ResetStep, TrimState, NewProcess, SameView, Follows, Initial;
    var n, g := Renewed(r, e), r[e - 1].heap.os;
    forall j | e <= j < |r| ensures n[j - e + 1] == TrimState(r[j], g) && SameView(r[j], n[j - e + 1]) {
      RunKeeps(r, j);
      GivenAfter(r, e, j);
      TrimView(r[j], g);
    }
    RunKeeps(r, e - 1);
    StartRenewed(r, e);
    forall j | 0 <= j < |n| - 1 ensures Follows(n[j], n[j + 1]) {
      if j > 0 {
        StepRenewed(r, e, j + e - 1);
      }
    }
  }
}

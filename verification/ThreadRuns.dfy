/** Every step of every thread keeps the invariant; so do clients and resets; so it holds in every state that
    any schedule can reach. */
module ThreadRuns {
  import opened Bytes
  import opened Collections
  import opened Sizes
  import opened PsList
  import opened Slabs
  import opened Heaps
  import opened HeapSteps
  import opened HeapRegions
  import opened Threads
  import opened ThreadInvariant
  import opened AbstractHeap
  import opened ThreadSteps
  import opened ThreadSlabSteps
  import opened ThreadCallSteps
  import opened ThreadBlockSteps
  import opened ThreadFinishSteps
  import A = AllocSpec

  // ----- Every step -----

  lemma KeepBegin(s: State, t: int, s': State)
    requires Inv(s) && Shape(s, t) && s.threads[t] == Idle && Begin(s, t, s')
    ensures Inv(s') && Effect(s, t, s')
  {
    hide Inv, Effect, BeginMalloc, BeginFree, BeginRealloc;
    if k :| BeginMalloc(s, t, k, s') {
      KeepBeginMalloc(s, t, k, s');
    } else if b :| BeginFree(s, t, b, s') {
      KeepBeginFree(s, t, b, s');
    } else {
      var b, size :| BeginRealloc(s, t, b, size, s');
      KeepBeginRealloc(s, t, b, size, s');
    }
  }

  lemma KeepLargeAsk(s: State, t: int, k: Call, s': State)
    requires Inv(s) && Shape(s, t) && s.threads[t] == LargeAsk(k) && DoLargeAsk(s, t, k, s')
    ensures Inv(s') && Effect(s, t, s')
  {
    hide Inv, HeapInv;
    if s' == Fails(s, t, k) {
      OwnOf(s, t, Nothing, NoLock, PinOf(LargeAsk(k)));
      KeepFails(s, t, k, NoLock, s');
    } else {
      var p :| LargeAnswer(s, t, k, p, s');
      KeepLargeAnswer(s, t, k, p, s');
    }
  }

  lemma KeepDone(s: State, t: int, k: Call, b: Addr, s': State)
    requires Inv(s) && Shape(s, t) && s.threads[t] == Finish(k, b) && DoFinish(s, t, k, b, s')
    ensures Inv(s') && Effect(s, t, s')
  {
    hide Inv, Effect;
    if k.ReallocCall? {
      KeepMove(s, t, k.from, k.size, b, s');
    } else {
      KeepFinish(s, t, k, b, s');
    }
  }

  /** t is on its way into or through p2malloc. */
  predicate InMalloc(pc: Pc) { CallOf(pc).Some? }

  lemma MallocStep(s: State, t: int, s': State)
    requires Inv(s) && Shape(s, t) && Step(s, t, s') && InMalloc(s.threads[t])
    ensures Inv(s') && Effect(s, t, s')
  {
    hide Inv, Effect;
    OwnOf(s, t, HoldOf(s.threads[t]), LockOf(s.threads[t]), PinOf(s.threads[t]));
    match s.threads[t]
    case Cas(k) => KeepCas(s, t, k, s');
    case Heads(k) => KeepHeads(s, t, k, s');
    case Store2(k) => KeepStore2(s, t, k, s');
    case Spin(k) => KeepSpin(s, t, k, s');
    case LargeAsk(k) => KeepLargeAsk(s, t, k, s');
    case LargeHeader(k, b) => KeepLargeHeader(s, t, k, b, s');
    case LargeUsed(k, b) => KeepLargeUsed(s, t, k, b, s');
    case LargeTotal(k, b) => KeepLargeTotal(s, t, k, b, s');
    case Lock(k) => KeepLock(s, t, k, s');
    case Check(k) => KeepCheck(s, t, k, s');
    case AskPage(k) => KeepAskPage(s, t, k, s');
    case CountPage(k, p) => KeepCountPage(s, t, k, p, s');
    case Carve(k, p, a) => KeepCarve(s, t, k, p, a, s');
    case PopFirst(k) => KeepPop(s, t, k, s');
    case Unlock(k, b) => KeepUnlockMalloc(s, t, k, b, s');
    case Header(k, b) => KeepHeader(s, t, k, b, s');
    case Used(k, b) => KeepUsed(s, t, k, b, s');
    case Finish(k, b) => KeepDone(s, t, k, b, s');
  }

  lemma OtherStep(s: State, t: int, s': State)
    requires Inv(s) && Shape(s, t) && Step(s, t, s') && !InMalloc(s.threads[t])
    ensures Inv(s') && Effect(s, t, s')
  {
    hide Inv, Effect;
    match s.threads[t]
    case Idle => KeepBegin(s, t, s');
    case FreeStart(b) => KeepFreeStart(s, t, b, s');
    case FreeUsed(b, i) => KeepFreeUsed(s, t, b, i, s');
    case FreeTotal(b) => KeepFreeTotal(s, t, b, s');
    case Unmap(b) => KeepUnmap(s, t, b, s');
    case Wipe(b, i) => KeepWipe(s, t, b, i, s');
    case LockFree(b, i) => KeepLockFree(s, t, b, i, s');
    case Insert(b, i) => KeepInsert(s, t, b, i, s');
    case UnlockFree(i) => KeepUnlockFree(s, t, i, s');
    case ResizeSub(b, n) => KeepResizeSub(s, t, b, n, s');
    case ResizeAdd(b, n) => KeepResizeAdd(s, t, b, n, s');
    case ResizeSet(b, n) => KeepResizeSet(s, t, b, n, s');
  }

  /** Every step of every thread keeps the invariant, and clients see of it the effect of one call or
      nothing. */
  lemma StepKeeps(s: State, t: int, s': State)
    requires Inv(s) && Shape(s, t) && Step(s, t, s')
    ensures Inv(s') && Effect(s, t, s')
  {
    hide Inv, Effect, Step;
    if InMalloc(s.threads[t]) {
      MallocStep(s, t, s');
    } else {
      OtherStep(s, t, s');
    }
  }

  // ----- Clients write to their blocks -----

  lemma ClientLeaves(s: State, b: Addr, s': State, u: int)
    requires Inv(s) && ClientStep(s, b, s') && 0 <= u < |s.threads|
    requires HeapInv(s'.heap) && Quiet(s.heap, s'.heap, b, -1)
    ensures |s'.heap.slabs| == CLASSES && ThreadOk(s', u, s'.threads[u])
  {
    hide HeapInv, LocksInv, HandsInv, PinsInv, InitInv, LiveCounted, RegionsCounted, HoldOk, PinOk, Quiet;
    InvParts(s);
    HeapShape(s'.heap);
    var pc := s.threads[u];
    assert ThreadOk(s, u, pc);
    ClientBlock(s, b, u, HoldOf(pc), PinOf(pc));
    QuietIsQuiet2(s.heap, s'.heap, b, b, -1);
    RelyHold(s.heap, s'.heap, b, b, -1, u, HoldOf(pc));
    RelyLock(s.heap, s'.heap, s.locks, s.locks, b, b, -1, u, LockOf(pc));
    RelyPin(s.heap, s'.heap, s.pins, s.pins, b, b, -1, u, PinOf(pc));
  }

  lemma ClientBlock(s: State, b: Addr, u: int, d: Hold, p: Pin)
    requires Inv(s) && b in s.heap.live && b !in s.pins && HoldOk(s.heap, u, d) && PinOk(s.heap, s.pins, u, p)
    ensures (d.Block? ==> d.b != b) && (p.Pinned? ==> p.b != b && p.b in s.pins)
  {
  }

  lemma ClientThreads(s: State, b: Addr, s': State)
    requires Inv(s) && ClientStep(s, b, s') && HeapInv(s'.heap) && Quiet(s.heap, s'.heap, b, -1)
    ensures |s'.locks| == CLASSES == |s'.heap.slabs| && ThreadsOk(s')
  {
    hide Inv, HeapInv, Quiet, ThreadOk;
    InvParts(s);
    HeapShape(s'.heap);
    forall u | 0 <= u < |s'.threads| ensures ThreadOk(s', u, s'.threads[u]) {
      ClientLeaves(s, b, s', u);
    }
  }

  /** A client that writes to the payload of its block disturbs no call and no other block. */
  lemma ClientKeeps(s: State, b: Addr, s': State)
    requires Inv(s) && ClientStep(s, b, s')
    ensures Inv(s') && Abs(s'.heap) - {b} == Abs(s.heap) - {b}
    ensures b in Abs(s'.heap) && b in Abs(s.heap) && |Abs(s'.heap)[b]| == |Abs(s.heap)[b]|
  {
    hide Inv, HeapInv;
    InvParts(s);
    ClientWrite(s.heap, b, s'.heap.mem);
    ClientThreads(s, b, s');
    ClientRest(s, s');
    HeapParts(s.heap);
    QuietBlocks(s.heap, s'.heap, b, -1, {b});
    AbsOthers(s.heap, s'.heap, {b});
  }

  /** The invariant speaks of memory only through the heap and the places of the threads. */
  lemma ClientRest(s: State, s': State)
    requires Inv(s) && s' == s.(heap := s.heap.(mem := s'.heap.mem)) && HeapInv(s'.heap)
    requires |s'.locks| == CLASSES == |s'.heap.slabs| && ThreadsOk(s')
    ensures Inv(s')
  {
    hide HeapInv, ThreadsOk;
    forall x ensures Held(s'.heap, x) <==> Held(s.heap, x) {
    }
    forall p | p in s'.heap.regs ensures RegionUser(s'.heap, p) {
      assert RegionUser(s.heap, p);
    }
    forall i, p | 0 <= i < CLASSES && p in s'.heap.slabs[i].pages
      ensures p in s'.heap.regs || PageUncounted(s', i, p)
    {
      assert p in s.heap.regs || PageUncounted(s, i, p);
    }
  }

  lemma ClientBackground(s: State, b: Addr, s': State)
    requires Inv(s) && ClientStep(s, b, s')
    ensures Background(s.heap, s'.heap) && |s'.threads| == |s.threads|
  {
    hide HeapInv, ThreadsOk, LocksInv, HandsInv, PinsInv, InitInv, LiveCounted, RegionsCounted;
    HeapParts(s.heap);
    forall i | 0 <= i < CLASSES ensures PeakStep(s.heap.slabs[i], s'.heap.slabs[i]) {
      SamePeak(s.heap, i);
    }
  }

  // ----- p2reset -----

  /** ms[k] is memory after the first k sentinels have been initialised. */
  ghost predicate Relinks(ms: seq<Memory>, heads: seq<Addr>) {
    |heads| == CLASSES && |ms| == CLASSES + 1
    && forall k :: 0 <= k < CLASSES ==> Initialised(ms[k], ms[k + 1], heads[k])
  }

  /** p2reset while no thread is inside a call: the lists emptied one after the other, whether or not they were
      initialised before, init_state 2, both counters 0; what was mapped stays mapped and is given up. */
  ghost predicate ResetStep(s: State, s': State) {
    && (forall t :: 0 <= t < |s.threads| ==> s.threads[t] == Idle)
    && exists ms :: ResetBy(s, ms, s')
  }

  ghost predicate ResetBy(s: State, ms: seq<Memory>, s': State) {
    && Relinks(ms, s.heap.heads) && ms[0] == s.heap.mem
    && s' == s.(heap := Abandoned(s.heap).(mem := ms[CLASSES], ready := CLASSES), init := 2)
  }

  lemma {:induction false} RelinkHeap(h: Heap, ms: seq<Memory>, k: nat)
    requires HeapInv(h) && h.ready == 0 && Relinks(ms, h.heads) && ms[0] == h.mem && k <= CLASSES
    ensures HeapInv(h.(mem := ms[k], ready := k))
  {
    hide HeapInv;
    if k > 0 {
      RelinkHeap(h, ms, k - 1);
      HeadStep(h.(mem := ms[k - 1], ready := k - 1), ms[k]);
    }
  }

  lemma NobodyHolds(s: State, b: Addr)
    requires Inv(s) && forall t :: 0 <= t < |s.threads| ==> s.threads[t] == Idle
    ensures b !in s.heap.hands && b !in s.pins
    ensures |s.locks| == CLASSES && forall i :: 0 <= i < CLASSES ==> s.locks[i] == -1
  {
    hide HeapInv, ThreadsOk, InitInv, LiveCounted, RegionsCounted;
    InvParts(s);
  }

  /** A reset keeps the invariant of all threads. */
  lemma ResetKeeps(s: State, s': State)
    requires Inv(s) && ResetStep(s, s')
    ensures Inv(s') && |s'.threads| == |s.threads|
  {
    hide Inv, HeapInv;
    var ms :| ResetBy(s, ms, s');
    InvParts(s);
    InvRets(s);
    AbandonInv(s.heap);
    RelinkHeap(Abandoned(s.heap), ms, CLASSES);
    NobodyHolds(s, 0);
    forall b ensures b !in s.pins {
      NobodyHolds(s, b);
    }
    IdleInv(s');
  }

  lemma InvRets(s: State)
    requires Inv(s)
    ensures |s.rets| == |s.threads|
  {
  }

  lemma IdleInv(s: State)
    requires HeapInv(s.heap) && |s.locks| == CLASSES && |s.rets| == |s.threads| && s.init == 2
    requires s.heap.ready == CLASSES && s.heap.slabs == NoSlabs()
    requires (forall b :: b !in s.heap.live && b !in s.heap.hands) && s.heap.regs == map[]
    requires (forall b :: b !in s.pins) && (forall i :: 0 <= i < CLASSES ==> s.locks[i] == -1)
    requires forall t :: 0 <= t < |s.threads| ==> s.threads[t] == Idle
    ensures Inv(s)
  {
    hide HeapInv;
    HeapShape(s.heap);
  }

  /** After a reset the allocator is, for itself, a new one, with no block of any client, and every region
      mapped so far is given up and still mapped. */
  lemma ResetIsNew(s: State, s': State)
    requires ResetStep(s, s')
    ensures A.ViewOf(s'.heap) == A.NEW_VIEW && Abs(s'.heap) == map[]
    ensures s'.heap.os == s.heap.os && s'.heap.abandoned == s.heap.os.Keys && s'.heap.fixed == s.heap.fixed
    ensures s'.threads == s.threads && s'.rets == s.rets && s'.init == 2
  {
    SameMap(Abs(s'.heap), map[]);
  }

  // ----- Runs -----

  /** A process that has not called the allocator: sentinels in fixed memory, init_state 0. */
  ghost predicate Initial(s: State) {
    && SentinelSpace(s.heap.mem, s.heap.heads)
    && s.heap == NewHeap(s.heap.mem, s.heap.heads, s.heap.mem.Keys, map[])
    && s.init == 0 && s.locks == seq(CLASSES, _ => -1) && s.pins == map[] && |s.rets| == |s.threads|
    && forall t :: 0 <= t < |s.threads| ==> s.threads[t] == Idle
  }

  lemma InitialInv(s: State)
    requires Initial(s)
    ensures Inv(s)
  {
    NewHeapInv(s.heap.mem, s.heap.heads, s.heap.mem.Keys, map[]);
  }

  lemma InitialIsNew(s: State)
    requires Initial(s)
    ensures A.ViewOf(s.heap) == A.NEW_VIEW && Abs(s.heap) == map[]
  {
    SameMap(Abs(s.heap), map[]);
  }

  /** A step of a thread or of a client. */
  ghost predicate Works(s: State, s': State) {
    (exists t :: Shape(s, t) && Step(s, t, s')) || exists b :: ClientStep(s, b, s')
  }

  ghost predicate Follows(s: State, s': State) {
    Works(s, s') || ResetStep(s, s')
  }

  /** A run of any number of threads and clients, from the start, under any schedule, with any number of resets. */
  ghost predicate Run(r: seq<State>) {
    |r| > 0 && Initial(r[0]) && forall j :: 0 <= j < |r| - 1 ==> Follows(r[j], r[j + 1])
  }

  lemma WorksKeeps(s: State, s': State)
    requires Inv(s) && Works(s, s')
    ensures Inv(s') && |s'.threads| == |s.threads| && Background(s.heap, s'.heap)
  {
    hide Inv, Step, ClientStep, Background;
    if t :| Shape(s, t) && Step(s, t, s') {
      StepKeeps(s, t, s');
    } else {
      var b :| ClientStep(s, b, s');
      ClientKeeps(s, b, s');
      ClientBackground(s, b, s');
    }
  }

  lemma FollowsKeeps(s: State, s': State)
    requires Inv(s) && Follows(s, s')
    ensures Inv(s') && |s'.threads| == |s.threads|
  {
    hide Inv, Works, ResetStep;
    if Works(s, s') {
      WorksKeeps(s, s');
    } else {
      ResetKeeps(s, s');
    }
  }

  /** The invariant holds in every state of every run. */
  lemma {:induction false} RunKeeps(r: seq<State>, j: nat)
    requires Run(r) && j < |r|
    ensures Inv(r[j]) && |r[j].threads| == |r[0].threads|
  {
    hide Inv, Initial, Follows;
    if j == 0 {
      InitialInv(r[0]);
    } else {
      RunKeeps(r, j - 1);
      FollowsKeeps(r[j - 1], r[j]);
    }
  }
}

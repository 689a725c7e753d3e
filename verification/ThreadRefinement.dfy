/** The threads refine an abstract allocator whose calls take effect in one step each: what each call is given,
    what it does to the blocks of its clients, and the pointer it returns. */
module ThreadRefinement {
  import opened Bytes
  import opened Sizes
  import opened PsList
  import opened Os
  import opened Heaps
  import opened HeapSteps
  import opened HeapRegions
  import opened Threads
  import opened ThreadInvariant
  import opened AbstractHeap
  import opened ThreadSteps
  import opened ThreadCallSteps
  import opened ThreadRuns

  /** A thread as its client sees it: between calls, with the pointer its last call returned; inside p2malloc,
      p2calloc or p2realloc; inside p2free of a block; or past the effect of its call, about to return p. */
  datatype Op = Returned(p: Addr) | Pending(call: Call) | FreePending(b: Addr) | Returning(p: Addr)

  /** The contents of the live blocks and what each thread is doing. */
  datatype Client = Client(blocks: Blocks, ops: seq<Op>)

  function OpOf(pc: Pc, ret: Addr): Op {
    match pc
    case Idle => Returned(ret)
    case FreeStart(b) => FreePending(b)
    case ResizeSub(b, n) => Pending(ReallocCall(b, n))
    case ResizeAdd(b, n) => Pending(ReallocCall(b, n))
    case ResizeSet(b, n) => Pending(ReallocCall(b, n))
    case _ => if CallOf(pc).Some? then Pending(CallOf(pc).value) else Returning(ret)
  }

  function ClientView(s: State): Client
    requires |s.rets| == |s.threads|
  {
    Client(Abs(s.heap), seq(|s.threads|, t requires 0 <= t < |s.threads| => OpOf(s.threads[t], s.rets[t])))
  }

  /** A call is invoked on a block its client has, if on any. */
  predicate Invokes(blocks: Blocks, o: Op) {
    match o
    case Pending(ReallocCall(b, _)) => b in blocks
    case Pending(_) => true
    case FreePending(b) => b in blocks
    case _ => false
  }

  /** Block b is a slab block and n bytes are of its own class. */
  ghost predicate Stays(a: Blocks, b: Addr, n: nat) {
    b in a && |a[b]| <= SIZE_MAX && n <= SIZE_MAX && ClassOf(n) == ClassOf(|a[b]|) != -1
  }

  /** Call k answers with pointer o.p: with the effect of the call on block o.p - 16, or with NULL and no effect
      after the OS has refused. A p2realloc to the class of its block answers with the very block, never with
      NULL; any other p2realloc never answers with it. */
  ghost predicate Answers(k: Call, a: Blocks, a': Blocks, o: Op, refused: bool) {
    && (o.Returning? || o.Returned?)
    && (if o.p == 0 then refused && a' == a else Returns(k, a, a', o.p - HEADER))
    && (k.ReallocCall? ==> (o.p == k.from + HEADER <==> Stays(a, k.from, k.size)))
  }

  /** What becomes of operation o of a thread: it invokes a call; or its pending call takes effect and answers;
      or its p2free releases the block it was given; or its call returns what it has answered; or nothing
      happens. */
  ghost predicate OpStep(o: Op, a: Blocks, refused: bool, o': Op, a': Blocks) {
    match o
    case Returned(_) => a' == a && Invokes(a, o')
    case Pending(k) => (a' == a && o' == o) || Answers(k, a, a', o', refused)
    case FreePending(b) => Frees(a, a', b) && o' == Returning(0)
    case Returning(p) => a' == a && o' in {Returning(p), Returned(p)}
  }

  /** A step of the abstract allocator: the operation of one thread moves on. */
  ghost predicate AbstractStep(c: Client, t: int, refused: bool, c': Client)
    requires 0 <= t < |c.ops| == |c'.ops|
  {
    && c'.ops == c.ops[t := c'.ops[t]]
    && OpStep(c.ops[t], c.blocks, refused, c'.ops[t], c'.blocks)
  }

  /** The OS has refused memory: to a large request, which returns NULL at once, or for a page, after which the
      lock is released with no block in hands. */
  predicate Refused(pc: Pc) {
    pc.LargeAsk? || (pc.Unlock? && pc.b == 0)
  }

  /** What a step of a thread at pc makes of its operation o. */
  ghost predicate OpMoves(pc: Pc, o: Op, live: map<Addr, Alloc>, o': Op) {
    match pc
    case Finish(_, b) => o' in {Returned(b + HEADER), Returning(b + HEADER)}
    case ResizeSet(b, _) => o' == Returned(b + HEADER)
    case FreeStart(_) => o' == Returning(0)
    case Idle => (o'.Pending? && (o'.call.ReallocCall? ==> o'.call.from in live)) || (o'.FreePending? && o'.b in live)
    case _ => o' == o || (o.Pending? && Refused(pc) && o' == Returned(0)) || (o.Returning? && o' == Returned(o.p))
  }

  /** What a step of t does to the threads: only its own place and return register change, its operation moves
      on, and only the compare-and-swap and the store of 2 change init_state. */
  ghost predicate Turns(s: State, t: int, s': State)
    requires 0 <= t < |s.threads| == |s.rets|
  {
    && |s'.threads| == |s.threads| && s'.threads == s.threads[t := s'.threads[t]]
    && |s'.rets| == |s.rets| && s'.rets == s.rets[t := s'.rets[t]]
    && OpMoves(s.threads[t], OpOf(s.threads[t], s.rets[t]), s.heap.live, OpOf(s'.threads[t], s'.rets[t]))
    && (s'.threads[t].Unlock? ==> s.threads[t].AskPage? || s.threads[t].PopFirst?)
    && (s'.init == s.init || (s.init == 0 && s.threads[t].Cas? && s'.threads[t].Heads? && s'.init == 1)
        || (s.threads[t].Store2? && s'.init == 2))
  }

  /** t is in the slab path of p2malloc. */
  predicate InSlab(pc: Pc) {
    pc.Lock? || pc.Check? || pc.AskPage? || pc.CountPage? || pc.Carve? || pc.PopFirst? || pc.Unlock? || pc.Header?
    || pc.Used?
  }

  lemma OpsInSlab(s: State, t: int, s': State)
    requires Shape(s, t) && Step(s, t, s') && InSlab(s.threads[t])
    ensures Turns(s, t, s')
  {
    hide FreshRegion, Pushed, Unlinked, HeaderWritten, Cell, Claimed, CarvedHeap, Popped;
    match s.threads[t]
    case Lock(k) =>
    case Check(k) =>
    case AskPage(k) =>
    case CountPage(k, p) =>
    case Carve(k, p, a) =>
    case PopFirst(k) =>
    case Unlock(k, b) =>
    case Header(k, b) =>
    case Used(k, b) =>
  }

  lemma OpsInMalloc(s: State, t: int, s': State)
    requires Shape(s, t) && Step(s, t, s') && InMalloc(s.threads[t]) && !InSlab(s.threads[t])
    ensures Turns(s, t, s')
  {
    hide Initialised, FreshRegion, Copied, Zeroed, HeaderWritten, PageAlign;
    hide LargeClaimed, HeadReady, Published, Retired;
    match s.threads[t]
    case Cas(k) =>
    case Heads(k) =>
    case Store2(k) =>
    case Spin(k) =>
    case LargeAsk(k) =>
    case LargeHeader(k, b) =>
    case LargeUsed(k, b) =>
    case LargeTotal(k, b) =>
    case Finish(k, b) =>
  }

  lemma OpsBegin(s: State, t: int, s': State)
    requires Shape(s, t) && s.threads[t] == Idle && Begin(s, t, s')
    ensures Turns(s, t, s')
  {
    hide Load, ClassOf, Mapped;
  }

  lemma OpsElsewhere(s: State, t: int, s': State)
    requires Shape(s, t) && Step(s, t, s') && !InMalloc(s.threads[t])
    ensures Turns(s, t, s')
  {
    hide Begin, Unmapped, Zeroed, Added, InsertAfter, PutBack, Released, Retired, Uncounted, Counted, RegionUncounted,
         Resized, Load, Store, ClassOf, Mapped;
    match s.threads[t]
    case Idle => OpsBegin(s, t, s');
    case FreeStart(b) =>
    case FreeUsed(b, i) =>
    case FreeTotal(b) =>
    case Unmap(b) =>
    case Wipe(b, i) =>
    case LockFree(b, i) =>
    case Insert(b, i) =>
    case UnlockFree(i) =>
    case ResizeSub(b, n) =>
    case ResizeAdd(b, n) =>
    case ResizeSet(b, n) =>
  }

  lemma StepTurns(s: State, t: int, s': State)
    requires Shape(s, t) && Step(s, t, s')
    ensures Turns(s, t, s')
  {
    hide Step, Turns;
    if InSlab(s.threads[t]) {
      OpsInSlab(s, t, s');
    } else if InMalloc(s.threads[t]) {
      OpsInMalloc(s, t, s');
    } else {
      OpsElsewhere(s, t, s');
    }
  }

  lemma BlockAddress(s: State, t: int)
    requires Inv(s) && 0 <= t < |s.threads| && (s.threads[t].Finish? || s.threads[t].ResizeSet?)
    ensures s.threads[t].b > 0
  {
    hide Inv, HeapInv;
    OwnOf(s, t, HoldOf(s.threads[t]), LockOf(s.threads[t]), PinOf(s.threads[t]));
    InvParts(s);
    HeapParts(s.heap);
  }

  /** In every state a p2realloc under way is on its way through p2malloc exactly if the new size is not of the
      class of its block; the block is still its client's. */
  lemma ReallocPlace(s: State, t: int, o: Addr, n: nat)
    requires Inv(s) && 0 <= t < |s.threads| == |s.rets| && OpOf(s.threads[t], s.rets[t]) == Pending(ReallocCall(o, n))
    ensures o in s.heap.live && o > 0 && (InMalloc(s.threads[t]) <==> !Stays(Abs(s.heap), o, n))
    ensures s.threads[t].Finish? ==> s.threads[t].b != o
  {
    hide Inv, HeapInv, Abs, Stays, ClassOf;
    var pc := s.threads[t];
    InvParts(s);
    PinPlace(s, t, pc, o, n);
    StaysInHeap(s.heap, o, n);
    LiveNotInHands(s, o);
    ZeroIsNoBlock(s);
    LivePositive(s.heap, o);
    if pc.Finish? {
      FinishBlock(s, t, pc.k, pc.b);
    }
  }

  lemma PinPlace(s: State, t: int, pc: Pc, o: Addr, n: nat)
    requires Inv(s) && 0 <= t < |s.threads| == |s.rets| && pc == s.threads[t]
    requires CallOf(pc) == Some(ReallocCall(o, n)) || pc in {ResizeSub(o, n), ResizeAdd(o, n), ResizeSet(o, n)}
    ensures o in s.heap.live && s.heap.live[o].size <= SIZE_MAX && n <= SIZE_MAX
    ensures CallOf(pc).Some? <==> s.heap.live[o].mapped != 0 || ClassOf(n) != ClassOf(s.heap.live[o].size)
  {
    hide Inv, HeapInv, HoldOk, LockOk, HoldOf, LockOf;
    OwnOf(s, t, HoldOf(pc), LockOf(pc), PinOf(pc));
    InvParts(s);
    if s.heap.live[o].size < WORDS {
      LiveRoom(s.heap, o);
    }
  }

  lemma FinishBlock(s: State, t: int, k: Call, b: Addr)
    requires Inv(s) && 0 <= t < |s.threads| && s.threads[t] == Finish(k, b)
    ensures b in s.heap.hands
  {
    hide Inv, HeapInv;
    OwnOf(s, t, HoldOf(Finish(k, b)), NoLock, PinOf(Finish(k, b)));
  }

  /** What OpSteps needs of a p2realloc under way. */
  ghost predicate ReallocOk(s: State, t: int)
    requires 0 <= t < |s.threads| == |s.rets|
  {
    forall o, n :: OpOf(s.threads[t], s.rets[t]) == Pending(ReallocCall(o, n)) ==>
      && o > 0 && (InMalloc(s.threads[t]) <==> !Stays(Abs(s.heap), o, n))
      && (s.threads[t].Finish? ==> s.threads[t].b != o)
  }

  lemma OpSteps(s: State, t: int, s': State)
    requires 0 <= t < |s.threads| == |s.rets| && Turns(s, t, s') && Effect(s, t, s') && ReallocOk(s, t)
    requires s.threads[t].Finish? || s.threads[t].ResizeSet? ==> s.threads[t].b > 0
    ensures OpStep(OpOf(s.threads[t], s.rets[t]), Abs(s.heap), Refused(s.threads[t]),
                   OpOf(s'.threads[t], s'.rets[t]), Abs(s'.heap))
  {
    hide Background, Mallocs, Callocs, Frees, Reallocs, Stays;
    var o' := OpOf(s'.threads[t], s'.rets[t]);
    match s.threads[t]
    case Idle => assert forall b :: b in Abs(s.heap) <==> b in s.heap.live;
    case Finish(k, b) => assert o'.p == b + HEADER && Returns(k, Abs(s.heap), Abs(s'.heap), b);
    case ResizeSet(b, n) => assert Returns(ReallocCall(b, n), Abs(s.heap), Abs(s'.heap), b);
    case _ =>
  }

  /** Every step of every thread is a step of the abstract allocator: what a call does is what its arguments
      and the pointer it returns say, it does so in one step, and it returns NULL only when refused. */
  lemma Refines(s: State, t: int, s': State)
    requires Inv(s) && Shape(s, t) && Step(s, t, s')
    ensures |s'.threads| == |s.threads| == |s'.rets|
    ensures AbstractStep(ClientView(s), t, Refused(s.threads[t]), ClientView(s'))
  {
    hide Inv, Step, Effect, OpMoves, OpOf, Abs, Answers, Frees, Invokes, Refused, Stays;
    StepKeeps(s, t, s');
    StepTurns(s, t, s');
    if s.threads[t].Finish? || s.threads[t].ResizeSet? {
      BlockAddress(s, t);
    }
    forall o, n | OpOf(s.threads[t], s.rets[t]) == Pending(ReallocCall(o, n))
      ensures o > 0 && (InMalloc(s.threads[t]) <==> !Stays(Abs(s.heap), o, n))
      ensures s.threads[t].Finish? ==> s.threads[t].b != o
    {
      ReallocPlace(s, t, o, n);
    }
    OpSteps(s, t, s');
    var c, c' := ClientView(s), ClientView(s');
    assert c.ops[t] == OpOf(s.threads[t], s.rets[t]) && c'.ops[t] == OpOf(s'.threads[t], s'.rets[t]);
    assert c'.ops == c.ops[t := c'.ops[t]];
  }

  // ----- Runs of the abstract allocator -----

  /** In every reachable state: a p2realloc that is on its way through p2malloc is one of a large block or to a
      size of another class than its block's; one that resizes in place is neither. */
  lemma ReallocPlaces(r: seq<State>, j: nat, t: int, o: Addr, n: nat)
    requires Run(r) && j < |r| && 0 <= t < |r[j].threads|
    requires var pc := r[j].threads[t];
             CallOf(pc) == Some(ReallocCall(o, n)) || pc in {ResizeSub(o, n), ResizeAdd(o, n), ResizeSet(o, n)}
    ensures var h := r[j].heap;
            && o in h.live && h.live[o].size <= SIZE_MAX && n <= SIZE_MAX
            && (CallOf(r[j].threads[t]) == Some(ReallocCall(o, n)) <==>
                  h.live[o].mapped != 0 || ClassOf(n) != ClassOf(h.live[o].size))
  {
    hide Inv, Run;
    RunKeeps(r, j);
    InvRets(r[j]);
    PinPlace(r[j], t, r[j].threads[t], o, n);
  }

  /** A p2realloc invoked on a slab block with a size of its own class goes on in place. */
  lemma StaysBegun(s: State, t: int, o: Addr, n: nat, s': State)
    requires Inv(s) && Shape(s, t) && BeginRealloc(s, t, o, n, s') && Stays(Abs(s.heap), o, n)
    ensures s' == Moves(s, t, ResizeSub(o, n), s.heap).(pins := s.pins[o := t])
  {
    hide Inv, HeapInv, Load, ClassOf;
    InvParts(s);
    LiveRoom(s.heap, o);
    StaysInHeap(s.heap, o, n);
  }

  lemma StaysInHeap(h: Heap, o: Addr, n: nat)
    requires HeapInv(h) && o in h.live && h.live[o].size <= SIZE_MAX && n <= SIZE_MAX
    ensures Stays(Abs(h), o, n) <==> h.live[o].mapped == 0 && ClassOf(n) == ClassOf(h.live[o].size)
  {
    hide HeapInv, ClassOf, Payload;
    LiveRoom(h, o);
    assert |Abs(h)[o]| == h.live[o].size;
  }

  /** Such a p2realloc never asks the OS, takes no lock and no block: its every step leaves all lists, pages and
      regions as they were and writes at most the size in the header of its block, and its last one answers with
      the block. */
  lemma StaysAlone(s: State, t: int, o: Addr, n: nat, s': State)
    requires Inv(s) && Shape(s, t) && Step(s, t, s') && Stays(Abs(s.heap), o, n)
    requires OpOf(s.threads[t], s.rets[t]) == Pending(ReallocCall(o, n))
    ensures s'.heap.slabs == s.heap.slabs && s'.heap.os == s.heap.os && s'.heap.hands == s.heap.hands
    ensures s'.locks == s.locks && WritesIn(s.heap.mem, s'.heap.mem, o, 8)
    ensures t < |s'.threads| == |s'.rets|
            && (s'.threads[t] in {ResizeAdd(o, n), ResizeSet(o, n)}
                || (s'.threads[t] == Idle && s'.rets[t] == o + HEADER))
  {
    hide Inv, Stays, Abs, Load, ClassOf, Available;
    ReallocPlace(s, t, o, n);
    ResizeLeaves(s, t, o, n, s');
  }

  lemma ResizeLeaves(s: State, t: int, o: Addr, n: nat, s': State)
    requires Shape(s, t) && Step(s, t, s') && s.threads[t] in {ResizeSub(o, n), ResizeAdd(o, n), ResizeSet(o, n)}
    ensures s'.heap.slabs == s.heap.slabs && s'.heap.os == s.heap.os && s'.heap.hands == s.heap.hands
    ensures s'.locks == s.locks && WritesIn(s.heap.mem, s'.heap.mem, o, 8)
    ensures t < |s'.threads| == |s'.rets|
            && (s'.threads[t] in {ResizeAdd(o, n), ResizeSet(o, n)}
                || (s'.threads[t] == Idle && s'.rets[t] == o + HEADER))
  {
    hide Load, ClassOf;
  }

  /** A step of the abstract allocator, a client writing to a block of its own, or a reset. */
  ghost predicate AbstractNext(c: Client, c': Client) {
    || (exists t, refused :: 0 <= t < |c.ops| == |c'.ops| && AbstractStep(c, t, refused, c'))
    || (c'.ops == c.ops && exists b :: Rewrites(c.blocks, c'.blocks, b))
    || (c'.ops == c.ops && c'.blocks == map[] && forall t :: 0 <= t < |c.ops| ==> c.ops[t].Returned?)
  }

  ghost predicate Rewrites(a: Blocks, a': Blocks, b: Addr) {
    b in a && b in a' && |a'[b]| == |a[b]| && a' - {b} == a - {b}
  }

  lemma ClientRewrites(s: State, b: Addr, s': State)
    requires Inv(s) && ClientStep(s, b, s') && |s.rets| == |s.threads|
    ensures s'.threads == s.threads && s'.rets == s.rets && Rewrites(Abs(s.heap), Abs(s'.heap), b)
  {
    hide Inv;
    ClientKeeps(s, b, s');
  }

  lemma SameOps(s: State, s': State)
    requires s'.threads == s.threads && s'.rets == s.rets && |s.rets| == |s.threads|
    ensures ClientView(s').ops == ClientView(s).ops
  {
  }

  /** Every run of the threads is a run of the abstract allocator, which starts with no block. */
  lemma RunRefines(r: seq<State>, j: nat)
    requires Run(r) && j < |r|
    ensures |r[j].rets| == |r[j].threads|
    ensures j == 0 ==> ClientView(r[0]).blocks == map[]
    ensures j + 1 < |r| ==>
              |r[j + 1].rets| == |r[j + 1].threads| && AbstractNext(ClientView(r[j]), ClientView(r[j + 1]))
  {
    hide Inv, Initial, Follows;
    RunKeeps(r, j);
    InvRets(r[j]);
    if j == 0 {
      InitialIsNew(r[0]);
    }
    if j + 1 < |r| {
      RunKeeps(r, j + 1);
      InvRets(r[j + 1]);
      FollowsRefines(r[j], r[j + 1]);
    }
  }

  lemma FollowsRefines(s: State, s': State)
    requires Inv(s) && Follows(s, s') && |s.rets| == |s.threads| && |s'.rets| == |s'.threads|
    ensures AbstractNext(ClientView(s), ClientView(s'))
  {
    hide Inv, Step, ClientStep, AbstractStep, Rewrites, Abs;
    if t :| Shape(s, t) && Step(s, t, s') {
      Refines(s, t, s');
    } else if b :| ClientStep(s, b, s') {
      ClientRewrites(s, b, s');
      SameOps(s, s');
    } else {
      ResetIsNew(s, s');
      SameOps(s, s');
    }
  }
}

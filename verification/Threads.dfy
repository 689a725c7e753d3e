/** Any number of threads inside p2malloc, p2free, p2calloc and p2realloc at once, one atomic step at a
    time: a lock operation, an atomic counter update, an OS call, a list operation made under its lock,
    or a write to memory that only the thread itself may touch. */
module Threads {
  import opened Bytes
  import opened Sizes
  import opened PsList
  import opened Slabs
  import opened Os
  import opened Heaps
  import opened HeapSteps
  import opened HeapRegions

  /** The call a thread is in, as far as p2malloc matters to it. */
  datatype Call = MallocCall(size: nat) | CallocCall(size: nat) | ReallocCall(from: Addr, size: nat)

  /** Where a thread stands. b is the block it has in hands, i the class of that block. */
  datatype Pc =
    | Idle
      // ensure_init
    | Cas(k: Call) | Heads(k: Call) | Store2(k: Call) | Spin(k: Call)
      // p2malloc, large
    | LargeAsk(k: Call) | LargeHeader(k: Call, b: Addr) | LargeUsed(k: Call, b: Addr) | LargeTotal(k: Call, b: Addr)
      // p2malloc, slab; Unlock with b == 0 returns NULL
    | Lock(k: Call) | Check(k: Call) | AskPage(k: Call) | CountPage(k: Call, page: Addr)
    | Carve(k: Call, page: Addr, a: Addr) | PopFirst(k: Call) | Unlock(k: Call, b: Addr)
    | Header(k: Call, b: Addr) | Used(k: Call, b: Addr)
      // p2malloc has returned b
    | Finish(k: Call, b: Addr)
      // p2free
    | FreeStart(b: Addr) | FreeUsed(b: Addr, i: int) | FreeTotal(b: Addr) | Unmap(b: Addr)
    | Wipe(b: Addr, i: int) | LockFree(b: Addr, i: int) | Insert(b: Addr, i: int) | UnlockFree(i: int)
      // p2realloc in place
    | ResizeSub(b: Addr, size: nat) | ResizeAdd(b: Addr, size: nat) | ResizeSet(b: Addr, size: nat)

  /** locks[i] is the thread that holds lock i or -1. pins: live blocks passed to a p2free or p2realloc that
      has not taken effect yet, with the thread. initer: the thread that won the compare-and-swap. rets[t]:
      the pointer the call of thread t returns or has returned, 0 for NULL and for p2free. */
  datatype State = State(heap: Heap, init: int, initer: int, locks: seq<int>, pins: map<Addr, int>,
                         threads: seq<Pc>, rets: seq<Addr>)

  ghost predicate CallOk(k: Call) {
    0 < k.size <= SIZE_MAX - HEADER
  }

  /** After ensure_init p2malloc takes one of two ways. */
  function Entered(k: Call): Pc
    requires k.size <= SIZE_MAX
  {
    if ClassOf(k.size) == -1 then LargeAsk(k) else Lock(k)
  }

  function LargeBytes(k: Call): nat
    requires k.size <= SIZE_MAX - HEADER
  {
    PageAlign(HEADER + k.size)
  }

  // ----- Steps -----

  /** Thread t moves to pc and leaves heap h. */
  function Moves(s: State, t: int, pc: Pc, h: Heap): State
    requires 0 <= t < |s.threads|
  {
    s.(heap := h, threads := s.threads[t := pc])
  }

  /** p2malloc returns NULL to call k: a realloc lets go of its block. */
  function Fails(s: State, t: int, k: Call): State
    requires 0 <= t < |s.threads| == |s.rets|
  {
    Moves(s, t, Idle, s.heap).(pins := if k.ReallocCall? then s.pins - {k.from} else s.pins, rets := s.rets[t := 0])
  }

  ghost predicate Shape(s: State, t: int) {
    0 <= t < |s.threads| == |s.rets| && |s.locks| == CLASSES == |s.heap.slabs| == |s.heap.heads|
  }

  /** A client may pass block b: it is live and no other call works on it. */
  ghost predicate Available(s: State, b: Addr) {
    b in s.heap.live && b !in s.pins && s.heap.live[b].size <= SIZE_MAX
  }

  ghost predicate BeginMalloc(s: State, t: int, k: Call, s': State)
    requires Shape(s, t)
  {
    !k.ReallocCall? && CallOk(k) && s' == Moves(s, t, Cas(k), s.heap)
  }

  ghost predicate BeginFree(s: State, t: int, b: Addr, s': State)
    requires Shape(s, t)
  {
    Available(s, b) && s' == Moves(s, t, FreeStart(b), s.heap).(pins := s.pins[b := t])
  }

  /** p2realloc reads the header and either resizes in place or goes on to p2malloc. */
  ghost predicate BeginRealloc(s: State, t: int, b: Addr, size: nat, s': State)
    requires Shape(s, t)
  {
    var h := s.heap;
    && Available(s, b) && 0 < size <= SIZE_MAX && Mapped(h.mem, b, HEADER)
    && (size <= SIZE_MAX - HEADER || h.live[b].mapped != 0 || ClassOf(h.live[b].size) != 0)
    && if Load(h.mem, b + 8) == 0 && ClassOf(size) == ClassOf(Load(h.mem, b)) then
         s' == Moves(s, t, ResizeSub(b, size), h).(pins := s.pins[b := t])
       else
         CallOk(ReallocCall(b, size))
         && s' == Moves(s, t, Cas(ReallocCall(b, size)), h).(pins := s.pins[b := t])
  }

  ghost predicate Begin(s: State, t: int, s': State)
    requires Shape(s, t)
  {
    || (exists k :: BeginMalloc(s, t, k, s'))
    || (exists b :: BeginFree(s, t, b, s'))
    || (exists b, size :: BeginRealloc(s, t, b, size, s'))
  }

  // ensure_init and freelists_init

  ghost predicate DoCas(s: State, t: int, k: Call, s': State)
    requires Shape(s, t)
  {
    if s.init == 0 then s' == Moves(s, t, Heads(k), s.heap).(init := 1, initer := t)
    else s' == Moves(s, t, Spin(k), s.heap)
  }

  ghost predicate DoHeads(s: State, t: int, k: Call, s': State)
    requires Shape(s, t)
  {
    var h, m' := s.heap, s'.heap.mem;
    && h.ready < CLASSES && Initialised(h.mem, m', h.heads[h.ready])
    && s' == Moves(s, t, if h.ready + 1 < CLASSES then Heads(k) else Store2(k), HeadReady(h, m'))
  }

  ghost predicate DoStore2(s: State, t: int, k: Call, s': State)
    requires Shape(s, t)
  {
    CallOk(k) && s' == Moves(s, t, Entered(k), s.heap).(init := 2)
  }

  /** A thread leaves the spin loop once it reads 2. */
  ghost predicate DoSpin(s: State, t: int, k: Call, s': State)
    requires Shape(s, t)
  {
    s.init == 2 && CallOk(k) && s' == Moves(s, t, Entered(k), s.heap)
  }

  // p2malloc, large path

  ghost predicate DoLargeAsk(s: State, t: int, k: Call, s': State)
    requires Shape(s, t)
  {
    CallOk(k)
    && (s' == Fails(s, t, k) || exists p :: LargeAnswer(s, t, k, p, s'))
  }

  ghost predicate LargeAnswer(s: State, t: int, k: Call, p: Addr, s': State)
    requires Shape(s, t) && CallOk(k)
  {
    && FreshRegion(s.heap.mem, s'.heap.mem, p, LargeBytes(k))
    && s' == Moves(s, t, LargeHeader(k, p), LargeClaimed(s.heap, p, LargeBytes(k), t, s'.heap.mem))
  }

  /** The two header words of block b written. */
  ghost predicate HeaderWritten(m: Memory, m': Memory, b: Addr, size: nat, mapped: nat) {
    WritesIn(m, m', b, HEADER) && HasHeader(m', b, Alloc(size, mapped))
  }

  ghost predicate DoHeader(s: State, t: int, k: Call, b: Addr, mapped: nat, pc': Pc, s': State)
    requires Shape(s, t)
  {
    && HeaderWritten(s.heap.mem, s'.heap.mem, b, k.size, mapped)
    && s' == Moves(s, t, pc', s.heap.(mem := s'.heap.mem))
  }

  ghost predicate DoCount(s: State, t: int, b: Addr, n: nat, pc': Pc, s': State)
    requires Shape(s, t)
  {
    s' == Moves(s, t, pc', Counted(s.heap, b, n))
  }

  ghost predicate DoCountRegion(s: State, t: int, p: Addr, n: nat, pc': Pc, s': State)
    requires Shape(s, t)
  {
    s' == Moves(s, t, pc', RegionCounted(s.heap, p, n))
  }

  // p2malloc, slab path, and the locks

  ghost predicate DoLock(s: State, t: int, i: int, pc': Pc, s': State)
    requires Shape(s, t)
  {
    0 <= i < CLASSES && s.locks[i] == -1 && s' == Moves(s, t, pc', s.heap).(locks := s.locks[i := t])
  }

  ghost predicate DoUnlock(s: State, t: int, i: int, pc': Pc, s': State)
    requires Shape(s, t)
  {
    0 <= i < CLASSES && s' == Moves(s, t, pc', s.heap).(locks := s.locks[i := -1])
  }

  ghost predicate DoCheck(s: State, t: int, k: Call, i: int, s': State)
    requires Shape(s, t)
  {
    var h := s.heap;
    && 0 <= i < CLASSES && Cell(h.mem, h.heads[i])
    && s' == Moves(s, t, if Next(h.mem, h.heads[i]) == h.heads[i] then AskPage(k) else PopFirst(k), h)
  }

  ghost predicate DoAskPage(s: State, t: int, k: Call, i: int, s': State)
    requires Shape(s, t)
  {
    && 0 <= i < CLASSES
    && (s' == Moves(s, t, Unlock(k, 0), s.heap) || exists p :: PageAnswer(s, t, k, i, p, s'))
  }

  ghost predicate PageAnswer(s: State, t: int, k: Call, i: int, p: Addr, s': State)
    requires Shape(s, t) && 0 <= i < CLASSES
  {
    && FreshRegion(s.heap.mem, s'.heap.mem, p, PAGE)
    && s' == Moves(s, t, CountPage(k, p), Claimed(s.heap, i, p, s'.heap.mem))
  }

  ghost predicate DoCarve(s: State, t: int, k: Call, i: int, page: Addr, a: Addr, s': State)
    requires Shape(s, t)
  {
    var h, m' := s.heap, s'.heap.mem;
    && 0 <= i < CLASSES
    && if a < page + PAGE then
         Pushed(h.mem, m', h.heads[i], a) && s' == Moves(s, t, Carve(k, page, a + BlockSize(i)), CarvedHeap(h, i, m'))
       else
         s' == Moves(s, t, PopFirst(k), h)
  }

  ghost predicate DoPop(s: State, t: int, k: Call, i: int, s': State)
    requires Shape(s, t)
  {
    var h, m' := s.heap, s'.heap.mem;
    && 0 <= i < CLASSES && Cell(h.mem, h.heads[i]) && h.slabs[i].free != []
    && Unlinked(h.mem, m', Next(h.mem, h.heads[i]))
    && s' == Moves(s, t, Unlock(k, Next(h.mem, h.heads[i])), Popped(h, i, t, m'))
  }

  ghost predicate DoUnlockMalloc(s: State, t: int, k: Call, i: int, b: Addr, s': State)
    requires Shape(s, t)
  {
    0 <= i < CLASSES
    && s' == (if b == 0 then Fails(s, t, k) else Moves(s, t, Header(k, b), s.heap)).(locks := s.locks[i := -1])
  }

  // What follows the return of b by p2malloc

  function MappedSize(h: Heap, b: Addr): nat
    requires Mapped(h.mem, b, HEADER)
  {
    Load(h.mem, b + 8)
  }

  /** p2malloc returns b. p2calloc clears it first. p2realloc copies the old contents into it and starts
      to free the old block. */
  ghost predicate DoFinish(s: State, t: int, k: Call, b: Addr, s': State)
    requires Shape(s, t)
  {
    var h, m' := s.heap, s'.heap.mem;
    && Mapped(h.mem, b, HEADER)
    && var a := Alloc(k.size, MappedSize(h, b));
    match k
    case MallocCall(_) => s' == Moves(s, t, Idle, Published(h, b, a)).(rets := s.rets[t := b + HEADER])
    case CallocCall(n) =>
      && Zeroed(h.mem, m', b + HEADER, n)
      && s' == Moves(s, t, Idle, Published(h.(mem := m'), b, a)).(rets := s.rets[t := b + HEADER])
    case ReallocCall(o, n) =>
      && o in h.live && h.live[o].size <= SIZE_MAX && o != b
      && Copied(h.mem, m', b + HEADER, o + HEADER, Min(h.live[o].size, n))
      && s' == Moves(s, t, FreeUsed(o, ClassOf(h.live[o].size)), Retired(Published(h.(mem := m'), b, a), o, t))
               .(pins := s.pins - {o}, rets := s.rets[t := b + HEADER])
  }

  // p2free of block b

  /** p2free takes effect: the block is no longer the client's. */
  ghost predicate DoFreeStart(s: State, t: int, b: Addr, s': State)
    requires Shape(s, t)
  {
    && b in s.heap.live && s.heap.live[b].size <= SIZE_MAX
    && s' == Moves(s, t, FreeUsed(b, ClassOf(s.heap.live[b].size)), Retired(s.heap, b, t))
             .(pins := s.pins - {b}, rets := s.rets[t := 0])
  }

  ghost predicate DoFreeUsed(s: State, t: int, b: Addr, i: int, s': State)
    requires Shape(s, t)
  {
    var h := s.heap;
    && Mapped(h.mem, b, HEADER)
    && s' == Moves(s, t, if Load(h.mem, b + 8) != 0 then FreeTotal(b) else Wipe(b, i),
                   Uncounted(h, b, Load(h.mem, b)))
  }

  ghost predicate DoFreeTotal(s: State, t: int, b: Addr, s': State)
    requires Shape(s, t)
  {
    Mapped(s.heap.mem, b, HEADER) && s' == Moves(s, t, Unmap(b), RegionUncounted(s.heap, b, Load(s.heap.mem, b + 8)))
  }

  ghost predicate DoUnmap(s: State, t: int, b: Addr, s': State)
    requires Shape(s, t)
  {
    var h, m' := s.heap, s'.heap.mem;
    && Mapped(h.mem, b, HEADER) && Unmapped(h.mem, m', b, Load(h.mem, b + 8))
    && s' == Moves(s, t, Idle, Released(h, b, m'))
  }

  /** The tripwire, and the class computed from the header before it is overwritten by links. */
  ghost predicate DoWipe(s: State, t: int, b: Addr, s': State)
    requires Shape(s, t)
  {
    var h, m' := s.heap, s'.heap.mem;
    && Mapped(h.mem, b, HEADER) && Zeroed(h.mem, m', b + HEADER, 8)
    && s' == Moves(s, t, LockFree(b, ClassOf(Load(h.mem, b))), h.(mem := m'))
  }

  ghost predicate DoInsert(s: State, t: int, b: Addr, i: int, s': State)
    requires Shape(s, t)
  {
    var h, m' := s.heap, s'.heap.mem;
    && 0 <= i < CLASSES && Added(h.mem, m', InsertAfter(h, i, b), b)
    && s' == Moves(s, t, UnlockFree(i), PutBack(h, i, b, m'))
  }

  // p2realloc in place

  ghost predicate DoResizeSub(s: State, t: int, b: Addr, size: nat, s': State)
    requires Shape(s, t)
  {
    Mapped(s.heap.mem, b, HEADER)
    && s' == Moves(s, t, ResizeAdd(b, size), Uncounted(s.heap, b, Load(s.heap.mem, b)))
  }

  ghost predicate DoResizeSet(s: State, t: int, b: Addr, size: nat, s': State)
    requires Shape(s, t)
  {
    && Mapped(s.heap.mem, b, 8) && size < WORDS && b in s.heap.live
    && s' == Moves(s, t, Idle, Resized(s.heap, b, size, Store(s.heap.mem, b, size)))
             .(pins := s.pins - {b}, rets := s.rets[t := b + HEADER])
  }

  /** One step of thread t. Waiting for a lock or for init_state is no step. */
  ghost predicate Step(s: State, t: int, s': State)
    requires Shape(s, t)
  {
    match s.threads[t]
    case Idle => Begin(s, t, s')
    case Cas(k) => DoCas(s, t, k, s')
    case Heads(k) => DoHeads(s, t, k, s')
    case Store2(k) => DoStore2(s, t, k, s')
    case Spin(k) => DoSpin(s, t, k, s')
    case LargeAsk(k) => DoLargeAsk(s, t, k, s')
    case LargeHeader(k, b) => CallOk(k) && DoHeader(s, t, k, b, LargeBytes(k), LargeUsed(k, b), s')
    case LargeUsed(k, b) => DoCount(s, t, b, k.size, LargeTotal(k, b), s')
    case LargeTotal(k, b) => CallOk(k) && DoCountRegion(s, t, b, LargeBytes(k), Finish(k, b), s')
    case Lock(k) => CallOk(k) && DoLock(s, t, ClassOf(k.size), Check(k), s')
    case Check(k) => CallOk(k) && DoCheck(s, t, k, ClassOf(k.size), s')
    case AskPage(k) => CallOk(k) && DoAskPage(s, t, k, ClassOf(k.size), s')
    case CountPage(k, p) => DoCountRegion(s, t, p, PAGE, Carve(k, p, p), s')
    case Carve(k, p, a) => CallOk(k) && DoCarve(s, t, k, ClassOf(k.size), p, a, s')
    case PopFirst(k) => CallOk(k) && DoPop(s, t, k, ClassOf(k.size), s')
    case Unlock(k, b) => CallOk(k) && DoUnlockMalloc(s, t, k, ClassOf(k.size), b, s')
    case Header(k, b) => DoHeader(s, t, k, b, 0, Used(k, b), s')
    case Used(k, b) => DoCount(s, t, b, k.size, Finish(k, b), s')
    case Finish(k, b) => DoFinish(s, t, k, b, s')
    case FreeStart(b) => DoFreeStart(s, t, b, s')
    case FreeUsed(b, i) => DoFreeUsed(s, t, b, i, s')
    case FreeTotal(b) => DoFreeTotal(s, t, b, s')
    case Unmap(b) => DoUnmap(s, t, b, s')
    case Wipe(b, _) => DoWipe(s, t, b, s')
    case LockFree(b, i) => DoLock(s, t, i, Insert(b, i), s')
    case Insert(b, i) => DoInsert(s, t, b, i, s')
    case UnlockFree(i) => DoUnlock(s, t, i, Idle, s')
    case ResizeSub(b, size) => DoResizeSub(s, t, b, size, s')
    case ResizeAdd(b, size) => DoCount(s, t, b, size, ResizeSet(b, size), s')
    case ResizeSet(b, size) => DoResizeSet(s, t, b, size, s')
  }

  /** A client writes to the payload of a live block that no call works on. */
  ghost predicate ClientStep(s: State, b: Addr, s': State) {
    && b in s.heap.live && b !in s.pins
    && WritesIn(s.heap.mem, s'.heap.mem, b + HEADER, s.heap.live[b].size)
    && s' == s.(heap := s.heap.(mem := s'.heap.mem))
  }

  // ----- What a thread holds, by where it stands -----

  /** The block in hands. header: it has a header for its class; size: the size in that header, if known;
      len: the length of its extent, if it matters; counted, region: it is in `allocated`, its region is
      in `totmem`; wiped: its tripwire is set. */
  datatype Hold = Nothing | Block(b: Addr, cls: int, header: bool, size: nat, len: nat,
                                  counted: bool, region: bool, wiped: bool)

  function HoldOf(pc: Pc): Hold {
    match pc
    case LargeHeader(k, b) =>
      Block(b, -1, false, 0, if k.size <= SIZE_MAX - HEADER then LargeBytes(k) else 0, false, false, false)
    case LargeUsed(k, b) =>
      Block(b, -1, true, k.size, if k.size <= SIZE_MAX - HEADER then LargeBytes(k) else 0, false, false, false)
    case LargeTotal(k, b) =>
      Block(b, -1, true, k.size, if k.size <= SIZE_MAX - HEADER then LargeBytes(k) else 0, true, false, false)
    case Unlock(k, b) =>
      if b == 0 || k.size > SIZE_MAX then Nothing else Block(b, ClassOf(k.size), false, 0, 0, false, false, false)
    case Header(k, b) =>
      if k.size > SIZE_MAX then Nothing else Block(b, ClassOf(k.size), false, 0, 0, false, false, false)
    case Used(k, b) =>
      if k.size > SIZE_MAX then Nothing else Block(b, ClassOf(k.size), true, k.size, 0, false, false, false)
    case Finish(k, b) =>
      if k.size > SIZE_MAX then Nothing else Block(b, ClassOf(k.size), true, k.size, 0, true, true, false)
    case FreeUsed(b, i) => Block(b, i, true, 0, 0, true, true, false)
    case FreeTotal(b) => Block(b, -1, true, 0, 0, false, true, false)
    case Unmap(b) => Block(b, -1, true, 0, 0, false, false, false)
    case Wipe(b, i) => Block(b, i, true, 0, 0, false, false, false)
    case LockFree(b, i) => Block(b, i, false, 0, 0, false, false, true)
    case Insert(b, i) => Block(b, i, false, 0, 0, false, false, true)
    case _ => Nothing
  }

  /** The header in memory fits the class and extent of the block. */
  ghost predicate HeaderFits(m: Memory, b: Addr, cls: int, len: nat) {
    && Mapped(m, b, HEADER)
    && 0 < Load(m, b) && Load(m, b) + HEADER <= len
    && ClassOf(Load(m, b)) == cls && Load(m, b + 8) == (if cls == -1 then len else 0)
    && (cls == -1 ==> Tight(Load(m, b), len))
  }

  ghost predicate HoldOk(h: Heap, t: int, d: Hold) {
    d.Block? ==>
      && d.b in h.hands && h.hands[d.b] == Hand(d.cls, t) && d.b in h.ext
      && (d.header ==> HeaderFits(h.mem, d.b, d.cls, h.ext[d.b]))
      && (d.header && d.size > 0 ==> Load(h.mem, d.b) == d.size)
      && (d.len > 0 ==> h.ext[d.b] == d.len)
      && (if d.counted then d.header && d.b in h.acc && h.acc[d.b] == Load(h.mem, d.b) else d.b !in h.acc)
      && (d.cls == -1 ==> (d.b in h.regs <==> d.region))
      && (d.wiped ==> TripWord(h.mem, d.b))
  }

  /** The lock held and what is known of its list. */
  datatype LockHold = NoLock | Plain(i: int) | Empty(i: int) | Claiming(i: int, page: Addr, next: Addr, counted: bool)
                 | Full(i: int)

  function LockOf(pc: Pc): LockHold {
    match pc
    case Check(k) => Plain(if k.size <= SIZE_MAX then ClassOf(k.size) else -1)
    case AskPage(k) => Empty(if k.size <= SIZE_MAX then ClassOf(k.size) else -1)
    case CountPage(k, p) => Claiming(if k.size <= SIZE_MAX then ClassOf(k.size) else -1, p, p, false)
    case Carve(k, p, a) => Claiming(if k.size <= SIZE_MAX then ClassOf(k.size) else -1, p, a, true)
    case PopFirst(k) => Full(if k.size <= SIZE_MAX then ClassOf(k.size) else -1)
    case Unlock(k, _) => Plain(if k.size <= SIZE_MAX then ClassOf(k.size) else -1)
    case Insert(_, i) => Plain(i)
    case UnlockFree(i) => Plain(i)
    case _ => NoLock
  }

  ghost predicate LockOk(h: Heap, locks: seq<int>, t: int, d: LockHold)
    requires |locks| == CLASSES == |h.slabs|
  {
    d != NoLock ==>
      && 0 <= d.i < CLASSES && locks[d.i] == t
      && var s := h.slabs[d.i];
         match d
         case Plain(_) => !s.claiming
         case Empty(_) => !s.claiming && s.free == []
         case Claiming(_, p, a, c) =>
           s.claiming && p in s.pages && s.last == p && s.next == a <= p + PAGE && (p in h.regs <==> c)
         case Full(_) => s.free != [] && Uncarved(s) == 0
  }

  /** The live block passed to the call. size > 0: it is being resized in place to this size. counted: it
      is in `allocated`, with the old size or, if resized, with the new one. moves > 0: this size is of another
      class and needs another block. */
  datatype Pin = NoPin | Pinned(b: Addr, size: nat, counted: bool, resized: bool, moves: nat)

  function PinOf(pc: Pc): Pin {
    match pc
    case ResizeSub(b, size) => Pinned(b, size, true, false, 0)
    case ResizeAdd(b, size) => Pinned(b, size, false, false, 0)
    case ResizeSet(b, size) => Pinned(b, size, true, true, 0)
    case FreeStart(b) => Pinned(b, 0, true, false, 0)
    case _ => match CallOf(pc)
              case Some(ReallocCall(b, n)) => Pinned(b, 0, true, false, n)
              case _ => NoPin
  }

  datatype Option<T> = None | Some(value: T)

  function CallOf(pc: Pc): Option<Call> {
    match pc
    case Cas(k) => Some(k) case Heads(k) => Some(k) case Store2(k) => Some(k) case Spin(k) => Some(k)
    case LargeAsk(k) => Some(k) case LargeHeader(k, _) => Some(k) case LargeUsed(k, _) => Some(k)
    case LargeTotal(k, _) => Some(k) case Lock(k) => Some(k) case Check(k) => Some(k)
    case AskPage(k) => Some(k) case CountPage(k, _) => Some(k) case Carve(k, _, _) => Some(k)
    case PopFirst(k) => Some(k) case Unlock(k, _) => Some(k) case Header(k, _) => Some(k)
    case Used(k, _) => Some(k) case Finish(k, _) => Some(k)
    case _ => None
  }

  ghost predicate PinOk(h: Heap, pins: map<Addr, int>, t: int, d: Pin) {
    d.Pinned? ==>
      && d.b in pins && pins[d.b] == t && d.b in h.live && d.b in h.ext
      && (if d.counted then d.b in h.acc && h.acc[d.b] == (if d.resized then d.size else h.live[d.b].size)
          else d.b !in h.acc)
      && (d.size > 0 ==> d.size < WORDS && d.size + HEADER <= h.ext[d.b] && h.live[d.b].size < WORDS
                         && ClassOf(d.size) == ClassOf(h.live[d.b].size) >= 0)
      && (!d.counted || d.resized ==> d.size > 0)
      && (d.moves > 0 ==> d.moves < WORDS && h.live[d.b].size < WORDS
                          && (h.live[d.b].mapped != 0 || ClassOf(d.moves) != ClassOf(h.live[d.b].size)))
  }

  /** What init_state has to be for a thread to stand at pc. */
  ghost predicate InitOk(s: State, t: int, pc: Pc) {
    match pc
    case Idle => true
    case Cas(_) => true
    case Spin(_) => s.init != 0
    case Heads(_) => s.init == 1 && s.initer == t && s.heap.ready < CLASSES
    case Store2(_) => s.init == 1 && s.initer == t && s.heap.ready == CLASSES
    case _ => s.init == 2
  }

  /** Sizes and classes in the program counter fit together. */
  ghost predicate PcOk(pc: Pc) {
    && (CallOf(pc).Some? ==> CallOk(CallOf(pc).value))
    && match pc
       case LargeAsk(k) => ClassOf(k.size) == -1
       case LargeHeader(k, _) => ClassOf(k.size) == -1 && LargeBytes(k) > 0
       case LargeUsed(k, _) => ClassOf(k.size) == -1 && LargeBytes(k) > 0
       case LargeTotal(k, _) => ClassOf(k.size) == -1 && LargeBytes(k) > 0
       case Lock(k) => ClassOf(k.size) >= 0
       case Header(k, _) => ClassOf(k.size) >= 0
       case Used(k, _) => ClassOf(k.size) >= 0
       case Wipe(_, i) => i >= 0
       case LockFree(_, i) => 0 <= i < CLASSES
       case ResizeSub(_, n) => n > 0
       case ResizeAdd(_, n) => n > 0
       case ResizeSet(_, n) => n > 0
       case _ => true
  }

  ghost predicate ThreadOk(s: State, t: int, pc: Pc)
    requires |s.locks| == CLASSES == |s.heap.slabs|
  {
    && PcOk(pc) && InitOk(s, t, pc)
    && HoldOk(s.heap, t, HoldOf(pc)) && LockOk(s.heap, s.locks, t, LockOf(pc))
    && PinOk(s.heap, s.pins, t, PinOf(pc))
  }
}

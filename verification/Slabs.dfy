/** One size class on values: its free list, the blocks handed out and its pages. */
module Slabs {
  import opened Bytes
  import opened Sizes
  import opened PsList

  // ----- Where p2orderedinsert puts a node -----

  /** Scanning from the back, the index after the last address that is not above n. */
  function InsertPos(s: seq<Addr>, n: Addr): (p: nat)
    ensures p <= |s|
    ensures p > 0 ==> s[p - 1] <= n
    ensures forall k :: p <= k < |s| ==> s[k] > n
  {
    if s == [] then 0
    else if s[|s| - 1] > n then InsertPos(s[..|s| - 1], n)
    else |s|
  }

  ghost predicate Ascending(s: seq<Addr>) {
    forall j, k :: 0 <= j < k < |s| ==> s[j] < s[k]
  }

  /** The stated split of any list, sorted or not, has only one answer. */
  lemma InsertPosUnique(s: seq<Addr>, n: Addr, p: nat)
    requires p <= |s| && (p > 0 ==> s[p - 1] <= n) && forall k :: p <= k < |s| ==> s[k] > n
    ensures p == InsertPos(s, n)
  {
  }

  /** f' is f with x put in at index p, where the scan from the back stops. */
  ghost predicate Shifted(f: seq<Addr>, f': seq<Addr>, p: nat, x: Addr) {
    && p <= |f| && |f'| == |f| + 1
    && (forall k {:trigger f'[k]} ::
          0 <= k < |f'| ==> f'[k] == if k < p then f[k] else if k == p then x else f[k - 1])
    && (p > 0 ==> f[p - 1] < x)
    && (forall k :: p <= k < |f| ==> f[k] > x)
  }

  lemma InsertedShifted(s: seq<Addr>, x: Addr)
    requires x !in s
    ensures Shifted(s, Inserted(s, InsertPos(s, x), x), InsertPos(s, x), x)
  {
    assert forall k :: 0 <= k < |s| ==> s[k] in s;
  }

  lemma ShiftedAscending(f: seq<Addr>, f': seq<Addr>, p: nat, x: Addr)
    requires Ascending(f) && Shifted(f, f', p, x)
    ensures Ascending(f')
  {
    assert forall k :: 0 <= k < p ==> f[k] <= f[p - 1];
  }

  /** Inserting in address order keeps an ascending list ascending. */
  lemma InsertKeepsAscending(s: seq<Addr>, n: Addr)
    requires Ascending(s) && n !in s
    ensures Ascending(Inserted(s, InsertPos(s, n), n))
  {
    InsertedShifted(s, n);
    ShiftedAscending(s, Inserted(s, InsertPos(s, n), n), InsertPos(s, n), n);
  }

  // ----- State of a size class -----

  /** free: the free list in order. out: blocks neither free nor uncarved. last: page of the latest
      carve, carved up to next. na, nd: how many of the free blocks form its first two runs.
      claiming: a page has been claimed for a request that has not popped its block yet.
      peak: largest number of blocks ever out at once. */
  datatype Slab = Slab(free: seq<Addr>, out: set<Addr>, pages: set<Addr>, last: Addr, next: Addr,
                       na: nat, nd: nat, claiming: bool, peak: nat)

  const NO_SLAB := Slab([], {}, {}, 0, 0, 0, 0, false, 0)

  function NoSlabs(): (s: seq<Slab>)
    ensures |s| == CLASSES && forall i :: 0 <= i < CLASSES ==> s[i] == NO_SLAB
  {
    seq(CLASSES, _ => NO_SLAB)
  }

  /** a is the start of a block that the carve loop has put on the list. */
  predicate Carved(i: int, s: Slab, a: Addr)
    requires 0 <= i < CLASSES
  {
    PageOf(a) in s.pages && a % BlockSize(i) == 0 && (PageOf(a) == s.last ==> a < s.next)
  }

  /** The free list is A + D + B: A ascending below the base m of the latest page, D what remains of
      its carve, descending block by block down to m, B ascending above m. A is empty once D is. */
  ghost predicate ThreeRuns(b: nat, f: seq<Addr>, m: Addr, na: nat, nd: nat) {
    && na + nd <= |f| && (nd == 0 ==> na == 0)
    && RunA(f, m, na) && RunD(b, f, m, na, na + nd) && RunB(f, m, na + nd, nd > 0)
  }

  ghost predicate RunA(f: seq<Addr>, m: Addr, na: nat)
    requires na <= |f|
  {
    (forall j, k :: 0 <= j < k < na ==> f[j] < f[k]) && forall j :: 0 <= j < na ==> f[j] < m
  }

  ghost predicate RunD(b: nat, f: seq<Addr>, m: Addr, na: nat, e: nat)
    requires na <= e <= |f|
  {
    && (forall j, k :: na <= j && k == j + 1 && k < e ==> f[j] == f[k] + b)
    && (forall j, k :: na <= j < k < e ==> f[j] > f[k])
    && (na < e ==> f[e - 1] == m)
    && (forall j :: na <= j < e ==> m <= f[j] && f[j] + b <= m + PAGE)
  }

  ghost predicate RunB(f: seq<Addr>, m: Addr, e: nat, above: bool)
    requires e <= |f|
  {
    && (forall j, k :: e <= j < k < |f| ==> f[j] < f[k])
    && (above ==> forall j :: e <= j < |f| ==> f[j] > m)
  }

  ghost predicate Partition(i: int, s: Slab)
    requires 0 <= i < CLASSES
  {
    && (forall j, k :: 0 <= j < k < |s.free| ==> s.free[j] != s.free[k])
    && (forall a :: a in s.free ==> a !in s.out)
    && (forall a :: a in s.free || a in s.out <==> Carved(i, s, a))
  }

  ghost predicate Paging(i: int, s: Slab)
    requires 0 <= i < CLASSES
  {
    && (forall p :: p in s.pages ==> p % PAGE == 0 && 0 < p)
    && if s.pages == {} then
         s.free == [] && s.out == {} && s.peak == 0 && !s.claiming && s.nd == 0
       else
         s.last in s.pages && s.last <= s.next <= s.last + PAGE && s.next % BlockSize(i) == 0
  }

  /** Bytes of the pages that are still uncarved. */
  function Uncarved(s: Slab): int {
    if s.pages == {} then 0 else s.last + PAGE - s.next
  }

  /** While the carve loop runs the list is what it has pushed so far. */
  ghost predicate Carving(i: int, s: Slab)
    requires 0 <= i < CLASSES
  {
    Uncarved(s) > 0 ==>
      && s.claiming && s.na == 0 && s.nd == |s.free|
      && if s.free == [] then s.next == s.last else s.free[0] + BlockSize(i) == s.next
  }

  /** Byte conservation and the high-water bound on pages. */
  ghost predicate Counting(i: int, s: Slab)
    requires 0 <= i < CLASSES
  {
    var b := BlockSize(i);
    && b * (|s.free| + |s.out|) == PAGE * |s.pages| - Uncarved(s)
    && |s.out| <= s.peak
    && b * s.peak <= PAGE * |s.pages|
    && if s.claiming then s.peak == |s.out| && b * s.peak == PAGE * (|s.pages| - 1)
       else s.pages != {} ==> PAGE * (|s.pages| - 1) < b * s.peak
  }

  ghost predicate SlabInv(i: int, s: Slab)
    requires 0 <= i < CLASSES
  {
    && Partition(i, s) && Paging(i, s) && Carving(i, s) && Counting(i, s)
    && ThreeRuns(BlockSize(i), s.free, s.last, s.na, s.nd)
  }

  lemma NoSlabInv(i: int)
    requires 0 <= i < CLASSES
    ensures SlabInv(i, NO_SLAB)
  {
  }

  // ----- Operations -----

  /** A page p fetched for an empty list. */
  function Claim(s: Slab, p: Addr): Slab {
    s.(pages := s.pages + {p}, last := p, next := p, na := 0, nd := 0, claiming := true)
  }

  /** One turn of the carve loop. */
  function CarveOne(i: int, s: Slab): Slab
    requires 0 <= i < CLASSES
  {
    s.(free := [s.next] + s.free, next := s.next + BlockSize(i), nd := s.nd + 1)
  }

  function Pop(s: Slab): Slab
    requires s.free != []
  {
    var na := if s.na > 0 then s.na - 1 else 0;
    var nd := if s.na == 0 && s.nd > 0 then s.nd - 1 else s.nd;
    var out := s.out + {s.free[0]};
    s.(free := s.free[1..], out := out, na := na, nd := nd, claiming := false,
       peak := Max(s.peak, |out|))
  }

  /** A block that was out, back on the list. */
  function Put(s: Slab, x: Addr): Slab {
    s.(free := Inserted(s.free, InsertPos(s.free, x), x), out := s.out - {x},
       na := if s.nd > 0 && x < s.last then s.na + 1 else s.na)
  }

  /** The peak of s' is that of s or, if more, the blocks out in s'. */
  ghost predicate PeakStep(s: Slab, s': Slab) {
    s'.peak == Max(s.peak, |s'.out|)
  }

  /** Every step of a class keeps the peak up to date with the number of blocks out. */
  lemma PeakSteps(i: int, s: Slab, p: Addr, x: Addr)
    requires 0 <= i < CLASSES && SlabInv(i, s)
    ensures PeakStep(s, s) && PeakStep(s, Claim(s, p)) && PeakStep(s, CarveOne(i, s)) && PeakStep(s, Put(s, x))
    ensures s.free != [] ==> PeakStep(s, Pop(s))
  {
    assert |s.out - {x}| <= |s.out|;
  }

  lemma PageFull(i: int, s: Slab)
    requires 0 <= i < CLASSES && SlabInv(i, s) && s.free == [] && !s.claiming
    ensures BlockSize(i) * |s.out| == PAGE * |s.pages| && s.peak == |s.out| && Uncarved(s) == 0
  {
    MulCancel(BlockSize(i), s.peak, |s.out|);
  }

  lemma MulCancel(b: nat, x: int, y: int)
    requires b > 0 && x >= y && b * x <= b * y
    ensures x == y
  {
    if x > y {
      MulMono(y + 1, x, b);
    }
  }

  lemma ClaimInv(i: int, s: Slab, p: Addr)
    requires 0 <= i < CLASSES && SlabInv(i, s) && s.free == [] && !s.claiming
    requires p !in s.pages && p % PAGE == 0 && 0 < p
    ensures SlabInv(i, Claim(s, p))
  {
    PageFull(i, s);
    PageIsBlock(i, p);
    var s' := Claim(s, p);
    forall a ensures a in s'.free || a in s'.out <==> Carved(i, s', a) {
      if PageOf(a) == p {
        assert a % PAGE >= 0 && a >= p;
        assert !Carved(i, s, a);
      } else {
        assert Carved(i, s', a) <==> Carved(i, s, a) by {
          if PageOf(a) == s.last && a % BlockSize(i) == 0 && s.pages != {} {
            BlockInPage(i, a);
          }
        }
      }
    }
  }

  lemma NextFacts(i: int, s: Slab)
    requires 0 <= i < CLASSES && Paging(i, s) && Uncarved(s) > 0
    ensures PageOf(s.next) == s.last && !Carved(i, s, s.next) && s.next % BlockSize(i) == 0
    ensures s.next + BlockSize(i) <= s.last + PAGE && (s.next + BlockSize(i)) % BlockSize(i) == 0
  {
    PageOfInside(s.last, s.next);
    NextBlock(i, s.next);
    BlockInPage(i, s.next);
  }

  lemma CarvedNext(i: int, s: Slab, a: Addr)
    requires 0 <= i < CLASSES && Paging(i, s) && Uncarved(s) > 0
    ensures Carved(i, CarveOne(i, s), a) <==> Carved(i, s, a) || a == s.next
  {
    NextFacts(i, s);
    if a % BlockSize(i) == 0 && a != s.next {
      BlocksApart(i, a, s.next);
    }
  }

  lemma CarvePartition(i: int, s: Slab)
    requires 0 <= i < CLASSES && Partition(i, s) && Paging(i, s) && Uncarved(s) > 0
    ensures PageOf(s.next) == s.last && !Carved(i, s, s.next)
    ensures s.next + BlockSize(i) <= s.last + PAGE
    ensures Partition(i, CarveOne(i, s)) && Paging(i, CarveOne(i, s))
  {
    NextFacts(i, s);
    var s' := CarveOne(i, s);
    forall a ensures a in s'.free || a in s'.out <==> Carved(i, s', a) {
      CarvedNext(i, s, a);
    }
  }

  lemma PushD(b: nat, f: seq<Addr>, f': seq<Addr>, m: Addr, n: Addr)
    requires f' == [n] + f && RunD(b, f, m, 0, |f|) && m <= n && n + b <= m + PAGE && b > 0
    requires if f == [] then n == m else f[0] + b == n
    ensures RunD(b, f', m, 0, |f'|)
  {
    assert forall k :: 0 <= k < |f'| ==> f'[k] == if k == 0 then n else f[k - 1];
    assert forall k :: 0 <= k < |f| ==> f[k] <= f[0];
  }

  lemma CarveRuns(i: int, s: Slab)
    requires 0 <= i < CLASSES && Carving(i, s) && Uncarved(s) > 0
    requires ThreeRuns(BlockSize(i), s.free, s.last, s.na, s.nd)
    requires s.last <= s.next && s.next + BlockSize(i) <= s.last + PAGE
    ensures ThreeRuns(BlockSize(i), CarveOne(i, s).free, s.last, s.na, s.nd + 1)
    ensures Carving(i, CarveOne(i, s))
  {
    PushD(BlockSize(i), s.free, CarveOne(i, s).free, s.last, s.next);
  }

  lemma CarveInv(i: int, s: Slab)
    requires 0 <= i < CLASSES && SlabInv(i, s) && Uncarved(s) > 0
    ensures PageOf(s.next) == s.last && !Carved(i, s, s.next)
    ensures s.next + BlockSize(i) <= s.last + PAGE
    ensures SlabInv(i, CarveOne(i, s))
  {
    CarvePartition(i, s);
    CarveRuns(i, s);
    CarveCounting(i, s);
  }

  lemma CarveCounting(i: int, s: Slab)
    requires 0 <= i < CLASSES && Counting(i, s) && Carving(i, s) && Uncarved(s) > 0
    ensures Counting(i, CarveOne(i, s))
  {
    var s', b := CarveOne(i, s), BlockSize(i);
    assert b * (|s'.free| + |s'.out|) == b * (|s.free| + |s.out|) + b;
  }

  lemma PopPartition(i: int, s: Slab)
    requires 0 <= i < CLASSES && Partition(i, s) && s.free != []
    ensures Partition(i, Pop(s))
  {
    var s' := Pop(s);
    assert s.free == [s.free[0]] + s'.free;
    forall a ensures a in s'.free || a in s'.out <==> Carved(i, s', a) {
      assert Carved(i, s', a) <==> Carved(i, s, a);
    }
  }

  lemma PopCounting(i: int, s: Slab)
    requires 0 <= i < CLASSES && Partition(i, s) && Paging(i, s) && Counting(i, s)
    requires s.free != [] && Uncarved(s) == 0
    ensures Counting(i, Pop(s)) && Paging(i, Pop(s)) && Carving(i, Pop(s))
  {
    var s', b := Pop(s), BlockSize(i);
    assert s.free[0] in s.free && |s'.out| == |s.out| + 1;
    assert s.pages != {} by { assert Carved(i, s, s.free[0]); }
    MulMono(|s'.out|, |s.free| + |s.out|, b);
    assert b * (|s.out| + 1) == b * |s.out| + b;
  }

  lemma PopA(b: nat, f: seq<Addr>, f': seq<Addr>, m: Addr, na: nat, nd: nat)
    requires f != [] && f' == f[1..] && 0 < na && 0 < nd && na + nd <= |f|
    requires RunA(f, m, na) && RunD(b, f, m, na, na + nd) && RunB(f, m, na + nd, true)
    ensures RunA(f', m, na - 1) && RunD(b, f', m, na - 1, na - 1 + nd) && RunB(f', m, na - 1 + nd, true)
  {
  }

  lemma PopD(b: nat, f: seq<Addr>, f': seq<Addr>, m: Addr, e: nat)
    requires f != [] && f' == f[1..] && 0 < e <= |f| && RunD(b, f, m, 0, e) && RunB(f, m, e, true)
    ensures RunD(b, f', m, 0, e - 1) && RunB(f', m, e - 1, 0 < e - 1)
  {
  }

  lemma PopB(f: seq<Addr>, f': seq<Addr>, m: Addr)
    requires f != [] && f' == f[1..] && RunB(f, m, 0, false)
    ensures RunB(f', m, 0, false)
  {
  }

  lemma PopAt(b: nat, f: seq<Addr>, f': seq<Addr>, m: Addr, na: nat, nd: nat)
    requires f != [] && f' == f[1..] && ThreeRuns(b, f, m, na, nd)
    ensures if na > 0 then ThreeRuns(b, f', m, na - 1, nd)
            else if nd > 0 then ThreeRuns(b, f', m, 0, nd - 1)
            else ThreeRuns(b, f', m, 0, 0)
  {
    if na > 0 {
      PopA(b, f, f', m, na, nd);
    } else if nd > 0 {
      PopD(b, f, f', m, nd);
    } else {
      PopB(f, f', m);
    }
  }

  lemma PopRuns(b: nat, s: Slab)
    requires ThreeRuns(b, s.free, s.last, s.na, s.nd) && s.free != []
    ensures ThreeRuns(b, Pop(s).free, s.last, Pop(s).na, Pop(s).nd)
  {
    PopAt(b, s.free, s.free[1..], s.last, s.na, s.nd);
  }

  lemma PopInv(i: int, s: Slab)
    requires 0 <= i < CLASSES && SlabInv(i, s) && s.free != [] && Uncarved(s) == 0
    ensures SlabInv(i, Pop(s))
  {
    PopPartition(i, s);
    PopCounting(i, s);
    PopRuns(BlockSize(i), s);
  }

  /** p2orderedinsert never lands inside the untouched rest of a carve: the scan stops in B for an
      address above m and in A for one below. */
  lemma PutSide(b: nat, f: seq<Addr>, m: Addr, na: nat, nd: nat, x: Addr)
    requires ThreeRuns(b, f, m, na, nd) && x !in f
    ensures nd > 0 ==> x != m
    ensures if nd > 0 && x < m then InsertPos(f, x) <= na else na + nd <= InsertPos(f, x)
  {
    if nd > 0 {
      assert f[na + nd - 1] == m;
      assert m in f;
    }
  }

  lemma PutBelow(f: seq<Addr>, f': seq<Addr>, m: Addr, na: nat, p: nat, x: Addr)
    requires Shifted(f, f', p, x) && p <= na <= |f| && x < m && RunA(f, m, na)
    ensures RunA(f', m, na + 1)
  {
    assert p > 0 ==> forall j :: 0 <= j < p ==> f[j] <= f[p - 1];
  }

  lemma ShiftUp(b: nat, f: seq<Addr>, f': seq<Addr>, m: Addr, na: nat, nd: nat, p: nat, x: Addr)
    requires Shifted(f, f', p, x) && p <= na && na + nd <= |f|
    requires RunD(b, f, m, na, na + nd) && RunB(f, m, na + nd, nd > 0)
    ensures RunD(b, f', m, na + 1, na + 1 + nd) && RunB(f', m, na + 1 + nd, nd > 0)
  {
  }

  lemma PutAbove(f: seq<Addr>, f': seq<Addr>, m: Addr, e: nat, above: bool, p: nat, x: Addr)
    requires Shifted(f, f', p, x) && e <= p && (above ==> x > m) && RunB(f, m, e, above)
    ensures RunB(f', m, e, above)
  {
    assert p > e ==> forall j :: e <= j < p ==> f[j] <= f[p - 1];
  }

  lemma KeepBelow(b: nat, f: seq<Addr>, f': seq<Addr>, m: Addr, na: nat, e: nat, p: nat, x: Addr)
    requires Shifted(f, f', p, x) && na <= e <= p && RunA(f, m, na) && RunD(b, f, m, na, e)
    ensures RunA(f', m, na) && RunD(b, f', m, na, e)
  {
  }

  lemma PutAt(b: nat, f: seq<Addr>, f': seq<Addr>, m: Addr, na: nat, nd: nat, p: nat, x: Addr, low: bool)
    requires ThreeRuns(b, f, m, na, nd) && Shifted(f, f', p, x) && low == (nd > 0 && x < m)
    requires nd > 0 ==> x != m
    requires if low then p <= na else na + nd <= p
    ensures ThreeRuns(b, f', m, if low then na + 1 else na, nd)
  {
    hide RunA, RunB, RunD;
    if low {
      PutBelow(f, f', m, na, p, x);
      ShiftUp(b, f, f', m, na, nd, p, x);
    } else {
      PutAbove(f, f', m, na + nd, nd > 0, p, x);
      KeepBelow(b, f, f', m, na, na + nd, p, x);
    }
  }

  lemma PutRuns(b: nat, s: Slab, x: Addr)
    requires ThreeRuns(b, s.free, s.last, s.na, s.nd) && x !in s.free
    ensures ThreeRuns(b, Put(s, x).free, s.last, Put(s, x).na, s.nd)
  {
    hide ThreeRuns, Shifted, InsertPos;
    var p, low := InsertPos(s.free, x), s.nd > 0 && x < s.last;
    InsertedShifted(s.free, x);
    PutSide(b, s.free, s.last, s.na, s.nd, x);
    PutAt(b, s.free, Put(s, x).free, s.last, s.na, s.nd, p, x, low);
  }

  lemma PutDistinct(f: seq<Addr>, f': seq<Addr>, p: nat, x: Addr)
    requires x !in f && Shifted(f, f', p, x)
    requires forall j, k :: 0 <= j < k < |f| ==> f[j] != f[k]
    ensures forall j, k :: 0 <= j < k < |f'| ==> f'[j] != f'[k]
  {
    assert forall k :: 0 <= k < |f| ==> f[k] in f;
  }

  lemma PutPartition(i: int, s: Slab, x: Addr)
    requires 0 <= i < CLASSES && Partition(i, s) && x in s.out
    ensures Partition(i, Put(s, x))
  {
    var s', p := Put(s, x), InsertPos(s.free, x);
    InsertedShifted(s.free, x);
    PutDistinct(s.free, s'.free, p, x);
    forall a ensures a in s'.free <==> a in s.free || a == x {
      InsertedMembers(s.free, p, x, a);
    }
    forall a ensures a in s'.free || a in s'.out <==> Carved(i, s', a) {
      assert Carved(i, s', a) <==> Carved(i, s, a);
    }
  }

  lemma InsertedMembers(f: seq<Addr>, p: nat, x: Addr, a: Addr)
    requires p <= |f|
    ensures a in Inserted(f, p, x) <==> a in f || a == x
  {
    assert f == f[..p] + f[p..];
  }

  lemma PutCounting(i: int, s: Slab, x: Addr)
    requires 0 <= i < CLASSES && Counting(i, s) && Paging(i, s) && x in s.out && !s.claiming
    requires s.pages != {} && Uncarved(s) == 0
    ensures Counting(i, Put(s, x)) && Paging(i, Put(s, x)) && Carving(i, Put(s, x))
  {
    assert |Put(s, x).out| == |s.out| - 1;
  }

  lemma PutInv(i: int, s: Slab, x: Addr)
    requires 0 <= i < CLASSES && SlabInv(i, s) && x in s.out && !s.claiming
    ensures SlabInv(i, Put(s, x))
  {
    PutPartition(i, s, x);
    PutRuns(BlockSize(i), s, x);
    assert Carved(i, s, x);
    PutCounting(i, s, x);
  }

  // ----- What the invariant means -----

  /** A free list is in ascending address order exactly when at most one block of the latest carve
      is left in it. */
  lemma SortedIffCarveUsedUp(i: int, s: Slab)
    requires 0 <= i < CLASSES && SlabInv(i, s)
    ensures Ascending(s.free) <==> s.nd <= 1
    ensures i == 7 ==> s.nd <= 1
  {
    var f, e := s.free, s.na + s.nd;
    if s.nd >= 2 {
      assert f[s.na] > f[s.na + 1];
      assert f[s.na] == f[s.na + 1] + BlockSize(i);
    } else if s.nd == 1 {
      assert f[s.na] == s.last;
    }
  }

  /** Once the carve is used up, malloc pops the lowest free address. */
  lemma LowestFirst(i: int, s: Slab, a: Addr)
    requires 0 <= i < CLASSES && SlabInv(i, s) && s.nd == 0 && a in s.free
    ensures s.free[0] <= a
  {
  }

  /** Pages ever claimed are exactly what the largest number of blocks ever out at once needs. */
  lemma HighWater(i: int, s: Slab)
    requires 0 <= i < CLASSES && SlabInv(i, s) && !s.claiming
    ensures |s.pages| == (s.peak + PerPage(i) - 1) / PerPage(i)
  {
    PagesNeeded(i, s.peak, |s.pages|);
  }

  lemma PagesNeeded(i: int, peak: nat, k: nat)
    requires 0 <= i < CLASSES && BlockSize(i) * peak <= PAGE * k
    requires if k == 0 then peak == 0 else PAGE * (k - 1) < BlockSize(i) * peak
    ensures k == (peak + PerPage(i) - 1) / PerPage(i)
  {
    var b, n := BlockSize(i), PerPage(i);
    PageProduct(i, k);
    PageProduct(i, k - 1);
    MulOrder(b, peak, n * k);
    MulOrder(b, peak, n * (k - 1));
    DivCeil(peak, n, k);
  }

  lemma PageProduct(i: int, k: int)
    requires 0 <= i < CLASSES
    ensures BlockSize(i) * (PerPage(i) * k) == PAGE * k
  {
    BlockSizes(i);
  }

  lemma MulOrder(b: nat, x: int, y: int)
    requires b > 0
    ensures b * x <= b * y <==> x <= y
  {
    if x > y {
      MulMono(y + 1, x, b);
    } else {
      MulMono(x, y, b);
    }
  }

  lemma DivCeil(p: nat, n: nat, k: nat)
    requires n > 0 && p <= n * k && (k > 0 ==> n * (k - 1) < p)
    ensures (p + n - 1) / n == k
  {
    var q := (p + n - 1) / n;
    assert n * q <= p + n - 1 < n * q + n;
    assert n * (k - 1) == n * k - n;
    if q < k {
      MulMono(q, k - 1, n);
    } else if q > k {
      MulMono(k + 1, q, n);
    }
  }

  /** Every block of the carved pages is either free or out. */
  lemma Conservation(i: int, s: Slab)
    requires 0 <= i < CLASSES && SlabInv(i, s) && Uncarved(s) == 0
    ensures PerPage(i) * |s.pages| == |s.free| + |s.out|
  {
    BlockSizes(i);
    var b, n := BlockSize(i), PerPage(i);
    assert b * (n * |s.pages|) == b * (|s.free| + |s.out|);
    if n * |s.pages| < |s.free| + |s.out| {
      MulCancel(b, |s.free| + |s.out|, n * |s.pages|);
    } else {
      MulCancel(b, n * |s.pages|, |s.free| + |s.out|);
    }
  }

  /** A page is claimed only when every block of the class is out. */
  lemma ClaimOnlyWhenFull(i: int, s: Slab)
    requires 0 <= i < CLASSES && SlabInv(i, s) && s.free == [] && !s.claiming
    ensures |s.out| == PerPage(i) * |s.pages| == s.peak
  {
    PageFull(i, s);
    Conservation(i, s);
  }

  // ----- The whole carve loop -----

  function CarveAll(i: int, s: Slab): (t: Slab)
    requires 0 <= i < CLASSES
    ensures |t.free| >= |s.free| && (s.next < s.last + PAGE ==> t.free != [])
    decreases s.last + PAGE - s.next
  {
    if s.next >= s.last + PAGE then s else CarveAll(i, CarveOne(i, s))
  }

  /** The list holds the blocks below next, highest first. */
  ghost predicate Tiles(i: int, s: Slab)
    requires 0 <= i < CLASSES
  {
    forall j :: 0 <= j < |s.free| ==> s.free[j] == s.next - (j + 1) * BlockSize(i)
  }

  lemma {:induction false} CarveAllTiles(i: int, s: Slab)
    requires 0 <= i < CLASSES && SlabInv(i, s) && s.claiming && s.pages != {} && Tiles(i, s)
    ensures var t := CarveAll(i, s);
            && SlabInv(i, t) && Tiles(i, t) && t.next == s.last + PAGE
            && t == s.(free := t.free, next := t.next, nd := t.nd)
    decreases s.last + PAGE - s.next
  {
    if s.next < s.last + PAGE {
      CarveInv(i, s);
      var s' := CarveOne(i, s);
      forall j | 0 <= j < |s'.free|
        ensures s'.free[j] == s'.next - (j + 1) * BlockSize(i)
      {
        if j > 0 {
          assert s'.free[j] == s.free[j - 1];
          assert (j + 1) * BlockSize(i) == j * BlockSize(i) + BlockSize(i);
        }
      }
      CarveAllTiles(i, s');
    }
  }

  /** For every class and page base the carve loop leaves exactly PerPage(i) blocks on the list, from
      the last block of the page down to its base, one block size apart. */
  lemma RefillTiles(i: int, s: Slab, p: Addr)
    requires 0 <= i < CLASSES && SlabInv(i, s) && s.free == [] && !s.claiming
    requires p !in s.pages && p % PAGE == 0 && 0 < p
    ensures var t := CarveAll(i, Claim(s, p));
            && SlabInv(i, t) && |t.free| == PerPage(i)
            && (forall j :: 0 <= j < |t.free| ==> t.free[j] == p + PAGE - (j + 1) * BlockSize(i))
            && t.out == s.out && t.pages == s.pages + {p} && t.peak == s.peak
  {
    var c := Claim(s, p);
    ClaimInv(i, s, p);
    CarveAllTiles(i, c);
    var t := CarveAll(i, c);
    Conservation(i, t);
    ClaimOnlyWhenFull(i, s);
    OnePageMore(PerPage(i), s.pages, p, |s.out|, |t.free|);
  }

  /** So after the refill of any class but the last the list is not in ascending order. */
  lemma FreshPageUnsorted(i: int, s: Slab, p: Addr)
    requires 0 <= i < CLASSES && SlabInv(i, s) && s.free == [] && !s.claiming
    requires p !in s.pages && p % PAGE == 0 && 0 < p
    ensures Ascending(CarveAll(i, Claim(s, p)).free) <==> i == 7
  {
    RefillTiles(i, s, p);
    var f := CarveAll(i, Claim(s, p)).free;
    if i < 7 {
      assert f[0] > f[1];
    }
  }

  lemma OnePageMore(n: nat, pages: set<Addr>, p: Addr, out: nat, free: nat)
    requires p !in pages && n * |pages| == out && n * |pages + {p}| == free + out
    ensures free == n
  {
    assert |pages + {p}| == |pages| + 1;
  }
}

/** The intrusive circular doubly-linked list of ps_list.h, on flat memory: a list cell at x is the
    word `next` at x and the word `previous` at x + 8. */
module PsList {
  import opened Bytes

  const LINK := 16

  ghost predicate Cell(m: Memory, x: Addr) {
    Mapped(m, x, LINK) && 0 <= x < WORDS
  }

  function Next(m: Memory, x: Addr): nat
    requires Cell(m, x)
  {
    Load(m, x)
  }

  function Previous(m: Memory, x: Addr): nat
    requires Cell(m, x)
  {
    Load(m, x + 8)
  }

  ghost predicate SameOrApart(x: Addr, y: Addr) {
    x == y || Apart(x, LINK, y, LINK)
  }

  // ----- What a circular list is -----

  /** Position k on the ring of a list: the sentinel at both ends, s[k - 1] in between. */
  function At(h: Addr, s: seq<Addr>, k: int): Addr
    requires 0 <= k <= |s| + 1
  {
    if 1 <= k <= |s| then s[k - 1] else h
  }

  ghost predicate Linked(m: Memory, x: Addr, y: Addr) {
    Cell(m, x) && Cell(m, y) && Next(m, x) == y && Previous(m, y) == x
  }

  /** The ring through sentinel h holds exactly the cells s, in this order. */
  ghost predicate IsList(m: Memory, h: Addr, s: seq<Addr>) {
    && (forall j, k :: 0 <= j < k <= |s| ==> Apart(At(h, s, j), LINK, At(h, s, k), LINK))
    && (forall j, k :: 0 <= j <= |s| && k == j + 1 ==> Linked(m, At(h, s, j), At(h, s, k)))
  }

  /** No cell of the ring shares a byte with [x, x + n). */
  ghost predicate OffRing(h: Addr, s: seq<Addr>, x: Addr, n: int) {
    Apart(h, LINK, x, n) && forall k :: 0 <= k < |s| ==> Apart(s[k], LINK, x, n)
  }

  /** Only bytes of the cells x, y and z may differ. */
  ghost predicate ChangedIn(m: Memory, m': Memory, x: Addr, y: Addr, z: Addr) {
    && m'.Keys == m.Keys
    && forall b :: b in m && !(x <= b < x + LINK) && !(y <= b < y + LINK) && !(z <= b < z + LINK)
                   ==> m'[b] == m[b]
  }

  // ----- What the list operations do to memory -----

  /** ps_list_ll_init: x linked to itself, nothing else written. */
  ghost predicate Initialised(m: Memory, m': Memory, x: Addr) {
    WritesIn(m, m', x, LINK) && Linked(m', x, x)
  }

  /** The word at w keeps its value unless it overlaps one of the words that a splice writes: the
      `next` of x, both words of n, the `previous` of y. */
  ghost predicate OtherWordsKept(m: Memory, m': Memory, x: Addr, n: Addr, y: Addr) {
    && m'.Keys == m.Keys
    && forall w {:trigger Load(m', w)} ::
         Mapped(m, w, 8) && Apart(w, 8, x, 8) && Apart(w, 8, n, LINK) && Apart(w, 8, y + 8, 8)
         ==> Load(m', w) == Load(m, w)
  }

  ghost predicate Addable(m: Memory, x: Addr, n: Addr) {
    && Cell(m, x) && Cell(m, n) && Cell(m, Next(m, x))
    && Apart(x, LINK, n, LINK) && Apart(Next(m, x), LINK, n, LINK)
    && SameOrApart(x, Next(m, x))
  }

  /** ps_list_ll_add: n linked in between x and its old successor. */
  ghost predicate Added(m: Memory, m': Memory, x: Addr, n: Addr) {
    && Addable(m, x, n)
    && OtherWordsKept(m, m', x, n, Next(m, x))
    && Linked(m', x, n) && Linked(m', n, Next(m, x))
    && ChangedIn(m, m', x, Next(m, x), n)
  }

  ghost predicate Removable(m: Memory, x: Addr) {
    && Cell(m, x) && Cell(m, Next(m, x)) && Cell(m, Previous(m, x))
    && Apart(x, LINK, Next(m, x), LINK) && Apart(x, LINK, Previous(m, x), LINK)
    && SameOrApart(Next(m, x), Previous(m, x))
  }

  /** ps_list_ll_rem: the neighbours of x linked to each other and x to itself. */
  ghost predicate Unlinked(m: Memory, m': Memory, x: Addr) {
    && Removable(m, x)
    && OtherWordsKept(m, m', Previous(m, x), x, Next(m, x))
    && Linked(m', Previous(m, x), Next(m, x)) && Linked(m', x, x)
    && ChangedIn(m, m', Previous(m, x), Next(m, x), x)
  }

  // ----- The stores that do it -----

  /** Two stores: the links of cell n are y and x. */
  ghost predicate Aimed(m: Memory, m': Memory, n: Addr, x: Addr, y: Addr) {
    && Cell(m, n) && WritesIn(m, m', n, LINK) && Next(m', n) == y && Previous(m', n) == x
    && forall w {:trigger Load(m', w)} :: Mapped(m, w, 8) && Apart(w, 8, n, LINK) ==> Load(m', w) == Load(m, w)
  }

  /** Two stores: the `next` of x and the `previous` of y are given. */
  ghost predicate Hooked(m: Memory, m': Memory, x: Addr, nx: Addr, y: Addr, py: Addr) {
    && Cell(m, x) && Cell(m, y) && ChangedIn(m, m', x, y, y) && Next(m', x) == nx && Previous(m', y) == py
    && forall w {:trigger Load(m', w)} ::
         Mapped(m, w, 8) && Apart(w, 8, x, 8) && Apart(w, 8, y + 8, 8) ==> Load(m', w) == Load(m, w)
  }

  lemma AimHook(m: Memory, m1: Memory, m': Memory, x: Addr, n: Addr)
    requires Addable(m, x, n) && Aimed(m, m1, n, x, Next(m, x)) && Hooked(m1, m', x, n, Next(m, x), n)
    ensures Added(m, m', x, n)
  {
  }

  lemma HookAim(m: Memory, m1: Memory, m': Memory, x: Addr)
    requires Removable(m, x) && Hooked(m, m1, Previous(m, x), Next(m, x), Next(m, x), Previous(m, x))
    requires Aimed(m1, m', x, x, x)
    ensures Unlinked(m, m', x)
  {
  }

  /** The stores of the two operations can always be made: their results exist. */
  lemma AddExists(m: Memory, x: Addr, n: Addr) returns (m': Memory)
    requires Addable(m, x, n)
    ensures Added(m, m', x, n)
  {
    var y := Next(m, x);
    var m1 := Store(Store(m, n, y), n + 8, x);
    assert Aimed(m, m1, n, x, y);
    m' := HookExists(m1, x, n, y, n);
    AimHook(m, m1, m', x, n);
  }

  lemma HookStores(m: Memory, x: Addr, nx: Addr, y: Addr, py: Addr)
    requires Cell(m, x) && Cell(m, y) && SameOrApart(x, y) && 0 <= nx < WORDS && 0 <= py < WORDS
    ensures Hooked(m, Store(Store(m, x, nx), y + 8, py), x, nx, y, py)
  {
  }

  lemma HookExists(m: Memory, x: Addr, nx: Addr, y: Addr, py: Addr) returns (m': Memory)
    requires Cell(m, x) && Cell(m, y) && SameOrApart(x, y) && 0 <= nx < WORDS && 0 <= py < WORDS
    ensures Hooked(m, m', x, nx, y, py)
  {
    m' := Store(Store(m, x, nx), y + 8, py);
    HookStores(m, x, nx, y, py);
  }

  lemma InitExists(m: Memory, x: Addr) returns (m': Memory)
    requires Cell(m, x)
    ensures Initialised(m, m', x) && Aimed(m, m', x, x, x)
  {
    m' := Store(Store(m, x + 8, x), x, x);
  }

  lemma RemoveExists(m: Memory, x: Addr) returns (m': Memory)
    requires Removable(m, x)
    ensures Unlinked(m, m', x)
  {
    var m1 := HookExists(m, Previous(m, x), Next(m, x), Next(m, x), Previous(m, x));
    m' := InitExists(m1, x);
    HookAim(m, m1, m', x);
  }

  // ----- Refinement of sequence operations -----

  lemma IsListCell(m: Memory, h: Addr, s: seq<Addr>, k: int)
    requires IsList(m, h, s) && 0 <= k <= |s|
    ensures Linked(m, At(h, s, k), At(h, s, k + 1))
    ensures Cell(m, At(h, s, k)) && Cell(m, At(h, s, k + 1))
  {
  }

  lemma InitIsEmpty(m: Memory, m': Memory, h: Addr)
    requires Initialised(m, m', h)
    ensures IsList(m', h, [])
  {
  }

  lemma EmptyTest(m: Memory, h: Addr, s: seq<Addr>)
    requires IsList(m, h, s)
    ensures Cell(m, h)
    ensures Next(m, h) == h <==> s == []
    ensures s != [] ==> Next(m, h) == s[0] && Previous(m, h) == s[|s| - 1]
    ensures s == [] ==> Previous(m, h) == h
  {
    IsListCell(m, h, s, 0);
    IsListCell(m, h, s, |s|);
    assert s != [] ==> Apart(At(h, s, 0), LINK, At(h, s, 1), LINK);
  }

  function Inserted(s: seq<Addr>, p: nat, n: Addr): seq<Addr>
    requires p <= |s|
  {
    s[..p] + [n] + s[p..]
  }

  lemma AddAllowed(m: Memory, h: Addr, s: seq<Addr>, p: nat, n: Addr)
    requires IsList(m, h, s) && p <= |s| && Cell(m, n) && OffRing(h, s, n, LINK)
    ensures Addable(m, At(h, s, p), n) && Next(m, At(h, s, p)) == At(h, s, p + 1)
  {
    IsListCell(m, h, s, p);
    if p < |s| {
      assert Apart(At(h, s, p), LINK, At(h, s, p + 1), LINK);
    } else if p > 0 {
      assert Apart(At(h, s, 0), LINK, At(h, s, p), LINK);
    }
  }

  lemma RingOfInserted(h: Addr, s: seq<Addr>, p: nat, n: Addr, k: nat)
    requires p <= |s| && k <= |s| + 2
    ensures At(h, Inserted(s, p, n), k)
         == if k <= p then At(h, s, k) else if k == p + 1 then n else At(h, s, k - 1)
  {
  }

  /** Any splice of n after ring position p inserts it at index p. */
  lemma SpliceInserts(m: Memory, m': Memory, h: Addr, s: seq<Addr>, p: nat, n: Addr)
    requires IsList(m, h, s) && p <= |s| && Cell(m, n) && OffRing(h, s, n, LINK)
    requires OtherWordsKept(m, m', At(h, s, p), n, At(h, s, p + 1))
    requires Linked(m', At(h, s, p), n) && Linked(m', n, At(h, s, p + 1))
    ensures IsList(m', h, Inserted(s, p, n))
  {
    var s' := Inserted(s, p, n);
    forall j, k | 0 <= j <= |s'| && k == j + 1
      ensures Linked(m', At(h, s', j), At(h, s', k))
    {
      RingOfInserted(h, s, p, n, j);
      RingOfInserted(h, s, p, n, k);
      if j < p {
        LinkKept(m, m', h, s, p, n, p + 1, j);
      } else if j > p + 1 {
        LinkKept(m, m', h, s, p, n, p + 1, j - 1);
      }
    }
    forall j, k | 0 <= j < k <= |s'|
      ensures Apart(At(h, s', j), LINK, At(h, s', k), LINK)
    {
      RingOfInserted(h, s, p, n, j);
      RingOfInserted(h, s, p, n, k);
    }
  }

  /** Ring positions j and k are the same cell exactly when they are the same position, or the
      two ends of the ring. */
  lemma RingApart(m: Memory, h: Addr, s: seq<Addr>, j: nat, k: nat)
    requires IsList(m, h, s) && j <= |s| + 1 && k <= |s| + 1
    ensures SameOrApart(At(h, s, j), At(h, s, k))
    ensures j != k && {j, k} != {0, |s| + 1} ==> Apart(At(h, s, j), LINK, At(h, s, k), LINK)
  {
    var j', k' := if j == |s| + 1 then 0 else j, if k == |s| + 1 then 0 else k;
    assert At(h, s, j) == At(h, s, j') && At(h, s, k) == At(h, s, k');
    if j' < k' {
      assert Apart(At(h, s, j'), LINK, At(h, s, k'), LINK);
    } else if k' < j' {
      assert Apart(At(h, s, k'), LINK, At(h, s, j'), LINK);
    } else if j != k {
      assert {j, k} == {0, |s| + 1};
    }
  }

  /** A link of the ring survives a splice between ring positions p and q if it starts before p and
      ends before q, or starts at q or later. */
  lemma LinkKept(m: Memory, m': Memory, h: Addr, s: seq<Addr>, p: nat, n: Addr, q: nat, j: nat)
    requires IsList(m, h, s) && j <= |s| && p < q <= |s| + 1
    requires j < p || q <= j
    requires OtherWordsKept(m, m', At(h, s, p), n, At(h, s, q))
    requires Apart(n, LINK, At(h, s, j), LINK) && Apart(n, LINK, At(h, s, j + 1), LINK)
    ensures Linked(m', At(h, s, j), At(h, s, j + 1))
  {
    IsListCell(m, h, s, j);
    RingApart(m, h, s, j, p);
    RingApart(m, h, s, j, q);
    RingApart(m, h, s, j + 1, p);
    RingApart(m, h, s, j + 1, q);
    var x, y := At(h, s, j), At(h, s, j + 1);
    assert Load(m', x) == Load(m, x);
    assert Load(m', y + 8) == Load(m, y + 8);
  }

  /** ps_list_ll_add after x at ring position p is insertion at index p; only n and its two new
      neighbours are written. */
  lemma AddInserts(m: Memory, m': Memory, h: Addr, s: seq<Addr>, p: nat, x: Addr, n: Addr)
    requires IsList(m, h, s) && p <= |s| && Cell(m, n) && OffRing(h, s, n, LINK) && x == At(h, s, p)
    requires Added(m, m', x, n)
    ensures IsList(m', h, Inserted(s, p, n)) && ChangedIn(m, m', x, At(h, s, p + 1), n)
  {
    AddAllowed(m, h, s, p, n);
    SpliceInserts(m, m', h, s, p, n);
  }

  function Removed(s: seq<Addr>, p: nat): seq<Addr>
    requires p < |s|
  {
    s[..p] + s[p + 1..]
  }

  lemma RemoveAllowed(m: Memory, h: Addr, s: seq<Addr>, p: nat)
    requires IsList(m, h, s) && p < |s|
    ensures Removable(m, s[p])
    ensures Previous(m, s[p]) == At(h, s, p) && Next(m, s[p]) == At(h, s, p + 2)
  {
    IsListCell(m, h, s, p);
    IsListCell(m, h, s, p + 1);
    RingApart(m, h, s, p, p + 1);
    RingApart(m, h, s, p + 1, p + 2);
    RingApart(m, h, s, p, p + 2);
  }

  lemma RingOfRemoved(h: Addr, s: seq<Addr>, p: nat, k: nat)
    requires p < |s| && k <= |s|
    ensures At(h, Removed(s, p), k) == if k <= p then At(h, s, k) else At(h, s, k + 1)
  {
  }

  lemma UnspliceRemoves(m: Memory, m': Memory, h: Addr, s: seq<Addr>, p: nat)
    requires IsList(m, h, s) && p < |s|
    requires OtherWordsKept(m, m', At(h, s, p), s[p], At(h, s, p + 2))
    requires Linked(m', At(h, s, p), At(h, s, p + 2))
    ensures IsList(m', h, Removed(s, p))
  {
    var s' := Removed(s, p);
    forall j, k | 0 <= j <= |s'| && k == j + 1
      ensures Linked(m', At(h, s', j), At(h, s', k))
    {
      RingOfRemoved(h, s, p, j);
      RingOfRemoved(h, s, p, k);
      var i := if j < p then j else j + 1;
      if j != p {
        RingApart(m, h, s, p + 1, i);
        RingApart(m, h, s, p + 1, i + 1);
        LinkKept(m, m', h, s, p, s[p], p + 2, i);
      }
    }
    forall j, k | 0 <= j < k <= |s'|
      ensures Apart(At(h, s', j), LINK, At(h, s', k), LINK)
    {
      RingOfRemoved(h, s, p, j);
      RingOfRemoved(h, s, p, k);
    }
  }

  /** ps_list_ll_rem of the cell at index p deletes that index and leaves the cell linked to
      itself; only the cell and its two old neighbours are written. */
  lemma RemoveDeletes(m: Memory, m': Memory, h: Addr, s: seq<Addr>, p: nat)
    requires IsList(m, h, s) && p < |s| && Unlinked(m, m', s[p])
    ensures IsList(m', h, Removed(s, p)) && IsList(m', s[p], [])
    ensures ChangedIn(m, m', At(h, s, p), At(h, s, p + 2), s[p])
  {
    RemoveAllowed(m, h, s, p);
    UnspliceRemoves(m, m', h, s, p);
  }

  /** A list whose cells were not written is the same list. */
  lemma ListFrame(m: Memory, m': Memory, h: Addr, s: seq<Addr>)
    requires IsList(m, h, s)
    requires Same(m, m', h, LINK)
    requires forall k :: 0 <= k < |s| ==> Same(m, m', s[k], LINK)
    ensures IsList(m', h, s)
  {
    forall j, k | 0 <= j <= |s| && k == j + 1
      ensures Linked(m', At(h, s, j), At(h, s, k))
    {
      IsListCell(m, h, s, j);
      var x, y := At(h, s, j), At(h, s, k);
      assert Same(m, m', x, LINK) && Same(m, m', y, LINK);
      WordSame(m, m', x);
      WordSame(m, m', y + 8);
    }
  }

  /** A cell off the ring, initialised and then added at the head: a push at the front. */
  ghost predicate Pushed(m: Memory, m': Memory, h: Addr, n: Addr) {
    exists m1 :: Initialised(m, m1, n) && Added(m1, m', h, n)
  }

  lemma PushFront(m: Memory, m': Memory, h: Addr, s: seq<Addr>, n: Addr)
    requires IsList(m, h, s) && Cell(m, n) && OffRing(h, s, n, LINK) && Pushed(m, m', h, n)
    ensures IsList(m', h, [n] + s) && ChangedIn(m, m', h, At(h, s, 1), n)
  {
    var m1 :| Initialised(m, m1, n) && Added(m1, m', h, n);
    InitFrame(m, m1, h, s, n);
    assert Inserted(s, 0, n) == [n] + s;
    AddInserts(m1, m', h, s, 0, h, n);
    ChangedBoth(m, m1, m', h, At(h, s, 1), n);
  }

  lemma PushAllowed(m: Memory, m1: Memory, h: Addr, s: seq<Addr>, n: Addr)
    requires IsList(m, h, s) && Cell(m, n) && OffRing(h, s, n, LINK) && Initialised(m, m1, n)
    ensures Addable(m1, h, n)
  {
    InitFrame(m, m1, h, s, n);
    AddAllowed(m1, h, s, 0, n);
    assert At(h, s, 0) == h;
  }

  lemma ChangedBoth(m: Memory, m1: Memory, m2: Memory, x: Addr, y: Addr, n: Addr)
    requires WritesIn(m, m1, n, LINK) && ChangedIn(m1, m2, x, y, n)
    ensures ChangedIn(m, m2, x, y, n)
  {
  }

  lemma InitFrame(m: Memory, m1: Memory, h: Addr, s: seq<Addr>, n: Addr)
    requires IsList(m, h, s) && OffRing(h, s, n, LINK) && WritesIn(m, m1, n, LINK)
    ensures IsList(m1, h, s)
  {
    forall k | 0 <= k <= |s| ensures Same(m, m1, At(h, s, k), LINK) {
      IsListCell(m, h, s, k);
    }
    assert At(h, s, 0) == h;
    forall k | 0 <= k < |s| ensures Same(m, m1, s[k], LINK) {
      assert At(h, s, k + 1) == s[k];
    }
    ListFrame(m, m1, h, s);
  }
}

/** The allocator as its clients see it: the contents of every live block, and what each call does to
    them. */
module AbstractHeap {
  import opened Bytes
  import opened Collections
  import opened Sizes
  import opened Heaps

  /** The requested bytes of every live block, by the base of the block. */
  type Blocks = map<Addr, seq<Byte>>

  function ByteAt(m: Memory, a: Addr): Byte {
    if a in m then m[a] else 0
  }

  function Payload(m: Memory, b: Addr, n: nat): (s: seq<Byte>)
    ensures |s| == n && forall k :: 0 <= k < n ==> s[k] == ByteAt(m, b + HEADER + k)
  {
    if n == 0 then [] else Payload(m, b, n - 1) + [ByteAt(m, b + HEADER + n - 1)]
  }

  function Abs(h: Heap): Blocks {
    map b | b in h.live :: Payload(h.mem, b, h.live[b].size)
  }

  // ----- The abstract calls -----

  /** A new block of the given size; every other block as it was. */
  ghost predicate Mallocs(a: Blocks, a': Blocks, b: Addr, size: nat) {
    b !in a && b in a' && |a'[b]| == size && a' - {b} == a - {b}
  }

  ghost predicate Callocs(a: Blocks, a': Blocks, b: Addr, size: nat) {
    Mallocs(a, a', b, size) && forall k :: 0 <= k < size ==> a'[b][k] == 0
  }

  ghost predicate Frees(a: Blocks, a': Blocks, b: Addr) {
    b in a && b !in a' && a' - {b} == a - {b}
  }

  /** Block o becomes block b of the given size, which keeps the common prefix of the contents. */
  ghost predicate Reallocs(a: Blocks, a': Blocks, o: Addr, b: Addr, size: nat) {
    && o in a && b in a' && (b != o ==> b !in a && o !in a')
    && |a'[b]| == size
    && (forall k :: 0 <= k < size && k < |a[o]| ==> a'[b][k] == a[o][k])
    && a' - {b, o} == a - {b, o}
  }

  // ----- Frames -----

  /** Live blocks outside z are live in both heaps with the same size and payload. */
  ghost predicate SameBlocks(h: Heap, h': Heap, z: set<Addr>) {
    forall x :: x !in z ==>
      && (x in h'.live <==> x in h.live)
      && (x in h.live ==> h'.live[x].size == h.live[x].size && Same(h.mem, h'.mem, x + HEADER, h.live[x].size))
  }

  lemma SamePayload(m: Memory, m': Memory, b: Addr, n: nat)
    requires Same(m, m', b + HEADER, n)
    ensures Payload(m', b, n) == Payload(m, b, n)
  {
  }

  lemma AbsOthers(h: Heap, h': Heap, z: set<Addr>)
    requires SameBlocks(h, h', z)
    ensures Abs(h') - z == Abs(h) - z
  {
    var l, l' := Abs(h) - z, Abs(h') - z;
    forall x ensures x in l' <==> x in l {
    }
    forall x | x in l' ensures l'[x] == l[x] {
      SamePayload(h.mem, h'.mem, x, h.live[x].size);
    }
    SameMap(l', l);
  }

  lemma AbsSame(h: Heap, h': Heap)
    requires SameBlocks(h, h', {})
    ensures Abs(h') == Abs(h)
  {
    AbsOthers(h, h', {});
    assert Abs(h) - {} == Abs(h) by { SameMap(Abs(h) - {}, Abs(h)); }
    assert Abs(h') - {} == Abs(h') by { SameMap(Abs(h') - {}, Abs(h')); }
  }

  lemma AbsMalloc(h: Heap, h': Heap, b: Addr, size: nat)
    requires SameBlocks(h, h', {b}) && b !in h.live && b in h'.live && h'.live[b].size == size
    ensures Mallocs(Abs(h), Abs(h'), b, size)
  {
    AbsOthers(h, h', {b});
  }

  lemma AbsCalloc(h: Heap, h': Heap, b: Addr, size: nat)
    requires SameBlocks(h, h', {b}) && b !in h.live && b in h'.live && h'.live[b].size == size
    requires forall a :: b + HEADER <= a < b + HEADER + size ==> a in h'.mem && h'.mem[a] == 0
    ensures Callocs(Abs(h), Abs(h'), b, size)
  {
    AbsMalloc(h, h', b, size);
  }

  lemma AbsFree(h: Heap, h': Heap, b: Addr)
    requires SameBlocks(h, h', {b}) && b in h.live && b !in h'.live
    ensures Frees(Abs(h), Abs(h'), b)
  {
    AbsOthers(h, h', {b});
  }

  lemma AbsRealloc(h: Heap, h': Heap, o: Addr, b: Addr, size: nat)
    requires SameBlocks(h, h', {b, o}) && o in h.live && b in h'.live && (b != o ==> b !in h.live && o !in h'.live)
    requires h'.live[b].size == size
    requires forall a :: b + HEADER <= a < b + HEADER + size && a < b + HEADER + h.live[o].size ==>
               ByteAt(h'.mem, a) == ByteAt(h.mem, o + (a - b))
    ensures Reallocs(Abs(h), Abs(h'), o, b, size)
  {
    AbsOthers(h, h', {b, o});
    forall k | 0 <= k < size && k < |Abs(h)[o]| ensures Abs(h')[b][k] == Abs(h)[o][k] {
      assert ByteAt(h'.mem, b + HEADER + k) == ByteAt(h.mem, o + (b + HEADER + k - b));
    }
  }

  /** A step that is quiet about everything but a block that is not live changes nothing for clients. */
  lemma QuietIsStutter(h: Heap, h': Heap, b: Addr, i: int)
    requires Owned(h) && Quiet(h, h', b, i) && b !in h.live && b !in h'.live
    ensures Abs(h') == Abs(h)
  {
    assert SameBlocks(h, h', {}) by { QuietBlocks(h, h', b, i, {}); }
    AbsSame(h, h');
  }

  lemma QuietBlocks(h: Heap, h': Heap, b: Addr, i: int, z: set<Addr>)
    requires Owned(h) && Quiet(h, h', b, i)
    requires b in z || (b !in h.live && b !in h'.live)
    ensures SameBlocks(h, h', z)
  {
    forall x | x !in z
      ensures (x in h'.live <==> x in h.live)
      ensures x in h.live ==> h'.live[x].size == h.live[x].size && Same(h.mem, h'.mem, x + HEADER, h.live[x].size)
    {
      if x in h.live {
        assert LiveBlock(x, h.live[x], h.ext, h.os, h.abandoned);
        assert Same(h.mem, h'.mem, x, h.ext[x]);
      }
    }
  }
}

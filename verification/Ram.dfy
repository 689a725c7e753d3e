/** The memory of the process, changed in place. */
module Ram {
  import opened Bytes
  import opened Sizes
  import opened Os

  /** The answers the OS may give to a request for n bytes. */
  predicate Answer(m: Memory, p: Addr, n: nat) {
    p == 0 || (0 < p && p % PAGE == 0 && 0 < n && p + n <= WORDS
              && forall b {:trigger b in m} :: p <= b < p + n ==> b !in m)
  }

  function Zeros(p: Addr, n: nat): (m: Memory)
    ensures forall b {:trigger b in m} :: b in m <==> p <= b < p + n
  {
    if n == 0 then map[] else Zeros(p, n - 1)[p + n - 1 := 0]
  }

  class Ram {
    var bytes: Memory
    ghost var asks: seq<(nat, Addr)>  // every request to the OS, with its answer

    constructor (m: Memory)
      ensures bytes == m && asks == []
    {
      bytes, asks := m, [];
    }

    /** *(size_t *)a = v. */
    method Write(a: Addr, v: nat)
      requires Mapped(bytes, a, 8) && v < WORDS
      modifies this`bytes
      ensures bytes == Store(old(bytes), a, v)
    {
      bytes := Store(bytes, a, v);
    }

    /** os_alloc: NULL, or a region the contract allows. Which of them is the OS's choice. */
    method OsAlloc(n: nat) returns (p: Addr)
      modifies this
      ensures asks == old(asks) + [(n, p)]
      ensures p != 0 ==> FreshRegion(old(bytes), bytes, p, n)
      ensures p == 0 ==> bytes == old(bytes)
      ensures n == 0 ==> p == 0
    {
      assert Answer(bytes, 0, n);
      p :| Answer(bytes, p, n);
      assert Answer(bytes, p, n);
      asks := asks + [(n, p)];
      if p != 0 {
        bytes := bytes + Zeros(p, n);
      }
    }

    /** os_free. */
    method OsFree(p: Addr, n: nat)
      modifies this`bytes
      ensures Unmapped(old(bytes), bytes, p, n)
    {
      bytes := map b | b in bytes && !(p <= b < p + n) :: bytes[b];
    }

    /** memset(p, 0, n), byte by byte. */
    method Zero(p: Addr, n: nat)
      requires Mapped(bytes, p, n)
      modifies this`bytes
      ensures Zeroed(old(bytes), bytes, p, n)
    {
      for k := 0 to n
        invariant Zeroed(old(bytes), bytes, p, k)
      {
        bytes := bytes[p + k := 0];
      }
    }

    /** memcpy(dst, src, n), byte by byte; C leaves overlapping ranges undefined. */
    method Copy(dst: Addr, src: Addr, n: nat)
      requires Mapped(bytes, dst, n) && Mapped(bytes, src, n) && Apart(dst, n, src, n)
      modifies this`bytes
      ensures Copied(old(bytes), bytes, dst, src, n)
    {
      for k := 0 to n
        invariant Copied(old(bytes), bytes, dst, src, k)
      {
        bytes := bytes[dst + k := bytes[src + k]];
      }
    }
  }
}

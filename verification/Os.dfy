/** The contract of the operating system's memory calls and of the C library's block moves. */
module Os {
  import opened Bytes
  import opened Sizes

  /** What os_alloc(n) guarantees for a non-NULL answer p: a page-aligned region of n bytes, none of
      them mapped before, everything mapped before unchanged, and nothing else mapped. */
  ghost predicate FreshRegion(m: Memory, m': Memory, p: Addr, n: nat) {
    && 0 < p && p % PAGE == 0 && 0 < n && p + n <= WORDS
    && (forall b :: p <= b < p + n ==> b !in m && b in m')
    && (forall b :: b in m ==> b in m' && m'[b] == m[b])
    && (forall b :: b in m' ==> b in m || p <= b < p + n)
  }

  /** os_free(p, n): the bytes are no longer mapped, all others are unchanged. */
  ghost predicate Unmapped(m: Memory, m': Memory, p: Addr, n: nat) {
    forall b {:trigger b in m'} {:trigger b in m} ::
      (b in m' <==> b in m && !(p <= b < p + n)) && (b in m' ==> m'[b] == m[b])
  }

  /** memset(p, 0, n). */
  ghost predicate Zeroed(m: Memory, m': Memory, p: Addr, n: nat) {
    WritesIn(m, m', p, n) && forall b :: p <= b < p + n ==> b in m' && m'[b] == 0
  }

  /** memcpy(dst, src, n). */
  ghost predicate Copied(m: Memory, m': Memory, dst: Addr, src: Addr, n: nat) {
    WritesIn(m, m', dst, n)
    && forall b :: dst <= b < dst + n ==> b in m' && src + (b - dst) in m && m'[b] == m[src + (b - dst)]
  }

  lemma ZeroedWord(m: Memory, m': Memory, p: Addr, n: nat)
    requires Zeroed(m, m', p, n) && n >= 8
    ensures Mapped(m', p, 8) && Load(m', p) == 0
  {
    LoadZero(m', p, p + 8);
  }

  lemma {:induction false} LoadZero(m: Memory, a: Addr, e: Addr)
    requires a <= e && forall b :: a <= b < e ==> b in m && m[b] == 0
    ensures LoadUpTo(m, a, e) == 0
    decreases e - a
  {
    if a < e {
      LoadZero(m, a + 1, e);
    }
  }
}

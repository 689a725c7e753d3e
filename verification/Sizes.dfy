/** Size classes and 64-bit size arithmetic of p2malloc.c. */
module Sizes {
  import opened Bytes

  const SIZE_MAX := WORDS - 1
  const HEADER := 16
  const PAGE := 4096
  const CLASSES := 8

  /** page_align: the sum is a size_t, so it wraps. */
  function PageAlign(n: nat): (r: nat)
    requires n <= SIZE_MAX
  {
    var t := (n + 4095) % WORDS;
    t - t % PAGE
  }

  /** get_freelist_idx: the class for a request, -1 for a large one. The sum wraps. */
  function ClassOf(size: nat): (i: int)
    requires size <= SIZE_MAX
    ensures -1 <= i < CLASSES
  {
    var swh := (size + HEADER) % WORDS;
    if swh > 4096 then -1
    else if swh > 2048 then 7
    else if swh > 1024 then 6
    else if swh > 512 then 5
    else if swh > 256 then 4
    else if swh > 128 then 3
    else if swh > 64 then 2
    else if swh > 32 then 1
    else 0
  }

  /** Bytes per block of class i: 1 << (i + 5). */
  function BlockSize(i: int): (b: nat)
    requires 0 <= i < CLASSES
    ensures 32 <= b <= PAGE && b % HEADER == 0
  {
    if i == 0 then 32
    else if i == 1 then 64
    else if i == 2 then 128
    else if i == 3 then 256
    else if i == 4 then 512
    else if i == 5 then 1024
    else if i == 6 then 2048
    else 4096
  }

  /** Blocks per page of class i: 2^(7 - i). */
  function PerPage(i: int): (n: nat)
    requires 0 <= i < CLASSES
    ensures n > 0
  {
    if i == 0 then 128
    else if i == 1 then 64
    else if i == 2 then 32
    else if i == 3 then 16
    else if i == 4 then 8
    else if i == 5 then 4
    else if i == 6 then 2
    else 1
  }

  function Min(a: nat, b: nat): nat { if a < b then a else b }

  function Max(a: nat, b: nat): nat { if a > b then a else b }

  function Pow2(n: nat): nat {
    if n == 0 then 1 else 2 * Pow2(n - 1)
  }

  /** The block sizes are the powers 2^5 to 2^12 and a page holds 2^(7 - i) of them exactly. */
  lemma {:induction false} BlockSizes(i: int)
    requires 0 <= i < CLASSES
    ensures BlockSize(i) == Pow2(i + 5) && PerPage(i) == Pow2(7 - i)
    ensures BlockSize(i) * PerPage(i) == PAGE
    ensures forall j :: 0 <= j < i ==> BlockSize(j) < BlockSize(i)
  {
    assert Pow2(3) == 8 && Pow2(5) == 32;
    if i > 0 {
      BlockSizes(i - 1);
    }
  }

  /** For every request that passes the overflow guard, the class chosen is the smallest whose
      block holds the request and its header, and none is chosen exactly when no block does. */
  lemma ClassIsSmallestFit(size: nat, j: int)
    requires size <= SIZE_MAX - HEADER && 0 <= j < CLASSES
    ensures size + HEADER <= BlockSize(j) <==> ClassOf(size) != -1 && ClassOf(size) <= j
  {
  }

  /** Without the guard the class is a fit exactly when the sum with the header does not wrap. */
  lemma ClassFitsIffNoWrap(size: nat)
    requires size <= SIZE_MAX && ClassOf(size) != -1
    ensures size + HEADER <= BlockSize(ClassOf(size)) <==> size <= SIZE_MAX - HEADER
    ensures size > SIZE_MAX - HEADER ==> ClassOf(size) == 0
  {
  }

  /** page_align is the least page multiple that is not below n, or exactly 0 when that multiple is
      not a size_t. */
  lemma PageAlignIsLeast(n: nat, k: nat)
    requires n <= SIZE_MAX
    ensures PageAlign(n) % PAGE == 0
    ensures n <= WORDS - PAGE ==> n <= PageAlign(n) <= WORDS - PAGE
    ensures n <= WORDS - PAGE && k % PAGE == 0 && n <= k ==> PageAlign(n) <= k
    ensures n > WORDS - PAGE ==> PageAlign(n) == 0
  {
  }

  /** len is whole pages, enough for size bytes behind a header, with less than one page to spare. */
  predicate Tight(size: nat, len: nat) {
    len % PAGE == 0 && size + HEADER <= len < size + HEADER + PAGE
  }

  /** What is mapped for a large request is tight. */
  lemma PageAlignTight(size: nat)
    requires size + HEADER <= SIZE_MAX && PageAlign(HEADER + size) != 0
    ensures Tight(size, PageAlign(HEADER + size))
  {
    var n := HEADER + size;
    PageAlignIsLeast(n, if PageAlign(n) >= PAGE then PageAlign(n) - PAGE else 0);
  }

  /** The division guard of p2calloc rejects exactly the products that are not a size_t. */
  lemma CallocGuard(n: nat, size: nat)
    requires size > 0
    ensures n > SIZE_MAX / size <==> n * size > SIZE_MAX
  {
    var q := SIZE_MAX / size;
    assert q * size <= SIZE_MAX < (q + 1) * size;
    if n > q {
      assert n * size >= (q + 1) * size by { MulMono(q + 1, n, size); }
    } else {
      MulMono(n, q, size);
    }
  }

  /** The product of two sizes, unbounded: 0 exactly if a factor is, above SIZE_MAX exactly if the guard says so. */
  lemma Product(n: nat, size: nat) returns (bytes: nat)
    ensures bytes == n * size
    ensures bytes == 0 <==> n == 0 || size == 0
    ensures size > 0 ==> (n > SIZE_MAX / size <==> bytes > SIZE_MAX)
  {
    bytes := n * size;
    if size > 0 {
      CallocGuard(n, size);
    }
  }

  lemma MulMono(a: int, b: int, c: nat)
    requires a <= b
    ensures a * c <= b * c
  {
  }

  /** Address of the page that holds a. */
  function PageOf(a: Addr): Addr {
    a - a % PAGE
  }

  lemma PageOfInside(p: Addr, a: Addr)
    requires p % PAGE == 0 && p <= a < p + PAGE
    ensures PageOf(a) == p
  {
  }

  /** A multiple of a block size is a whole block of its page. */
  lemma BlockInPage(i: int, a: Addr)
    requires 0 <= i < CLASSES && a % BlockSize(i) == 0
    ensures PageOf(a) <= a && a + BlockSize(i) <= PageOf(a) + PAGE
    ensures a % HEADER == 0
  {
    BlockSizes(i);
    var b, n := BlockSize(i), PerPage(i);
    var t := a / b - n * (a / PAGE);
    assert a % PAGE == b * t;
    if t < 0 {
    } else if t >= n {
      MulMono(n, t, b);
    } else {
      MulMono(t, n - 1, b);
    }
    assert b * (n - 1) == b * n - b;
    Multiple16(i, a);
  }

  lemma Multiple16(i: int, a: Addr)
    requires 0 <= i < CLASSES && a % BlockSize(i) == 0
    ensures a % HEADER == 0
  {
    var b := BlockSize(i);
    assert a == HEADER * ((b / HEADER) * (a / b));
    ModOfProduct((b / HEADER) * (a / b), HEADER);
  }

  /** Different multiples of a block size start blocks that do not overlap. */
  lemma BlocksApart(i: int, a: Addr, b: Addr)
    requires 0 <= i < CLASSES && a % BlockSize(i) == 0 && b % BlockSize(i) == 0 && a != b
    ensures Apart(a, BlockSize(i), b, BlockSize(i))
  {
    var n := BlockSize(i);
    assert a == n * (a / n) && b == n * (b / n);
    if a / n < b / n {
      MulMono(a / n + 1, b / n, n);
    } else {
      MulMono(b / n + 1, a / n, n);
    }
  }

  lemma NextBlock(i: int, a: Addr)
    requires 0 <= i < CLASSES && a % BlockSize(i) == 0
    ensures (a + BlockSize(i)) % BlockSize(i) == 0
  {
  }

  lemma PageIsBlock(i: int, p: Addr)
    requires 0 <= i < CLASSES && p % PAGE == 0
    ensures p % BlockSize(i) == 0
  {
    BlockSizes(i);
    var b, n := BlockSize(i), PerPage(i);
    assert p == b * (n * (p / PAGE));
    ModOfProduct(n * (p / PAGE), b);
  }

  lemma ModOfProduct(k: int, b: int)
    requires b > 0
    ensures (b * k) % b == 0
  {
    var d := (b * k) / b - k;
    assert b * k == b * ((b * k) / b) + (b * k) % b;
    assert b * d == -((b * k) % b);
  }
}

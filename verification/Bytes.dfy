/** Flat, byte-addressed memory with 64-bit little-endian words.
    An address that is not a key of the map is not mapped. */
module Bytes {
  type Byte = x: int | 0 <= x < 256
  type Addr = int
  type Memory = map<Addr, Byte>

  /** Number of values of a 64-bit word; also the size of the address space. */
  const WORDS := 0x1_0000_0000_0000_0000

  ghost predicate Mapped(m: Memory, a: Addr, n: int) {
    forall b :: a <= b < a + n ==> b in m
  }

  /** The n bytes from a are mapped and equal in both memories. */
  ghost predicate Same(m: Memory, m': Memory, a: Addr, n: int) {
    forall b :: a <= b < a + n ==> b in m && b in m' && m'[b] == m[b]
  }

  /** No byte of [a, a + n) is a byte of [b, b + k). */
  predicate Apart(a: Addr, n: int, b: Addr, k: int) {
    a + n <= b || b + k <= a
  }

  /** Only bytes of [a, a + n) may differ. */
  ghost predicate WritesIn(m: Memory, m': Memory, a: Addr, n: int) {
    m'.Keys == m.Keys && forall b :: b in m && !(a <= b < a + n) ==> m'[b] == m[b]
  }

  ghost function Power256(n: nat): nat {
    if n == 0 then 1 else 256 * Power256(n - 1)
  }

  /** The little-endian number stored in the bytes from a up to e. */
  function LoadUpTo(m: Memory, a: Addr, e: Addr): (v: nat)
    requires a <= e && Mapped(m, a, e - a)
    ensures v < Power256(e - a)
    decreases e - a
  {
    if a == e then 0 else m[a] + 256 * LoadUpTo(m, a + 1, e)
  }

  function StoreUpTo(m: Memory, a: Addr, e: Addr, v: nat): (m': Memory)
    requires a <= e && Mapped(m, a, e - a)
    ensures m'.Keys == m.Keys
    ensures forall b :: b in m && !(a <= b < e) ==> m'[b] == m[b]
    decreases e - a
  {
    if a == e then m else StoreUpTo(m[a := v % 256], a + 1, e, v / 256)
  }

  lemma {:induction false} LoadSame(m: Memory, m': Memory, a: Addr, e: Addr)
    requires a <= e && Same(m, m', a, e - a)
    ensures LoadUpTo(m', a, e) == LoadUpTo(m, a, e)
    decreases e - a
  {
    if a < e {
      LoadSame(m, m', a + 1, e);
    }
  }

  lemma {:induction false} LoadStored(m: Memory, a: Addr, e: Addr, v: nat)
    requires a <= e && Mapped(m, a, e - a) && v < Power256(e - a)
    ensures LoadUpTo(StoreUpTo(m, a, e, v), a, e) == v
    decreases e - a
  {
    if a < e {
      LoadStored(m[a := v % 256], a + 1, e, v / 256);
    }
  }

  lemma Power8()
    ensures Power256(8) == WORDS
  {
    assert Power256(2) == 65536;
    assert Power256(4) == 0x1_0000_0000;
    assert Power256(6) == 0x1_0000_0000_0000;
  }

  /** Reads the 64-bit word at a. */
  function Load(m: Memory, a: Addr): (v: nat)
    requires Mapped(m, a, 8)
    ensures v < WORDS
  {
    Power8();
    LoadUpTo(m, a, a + 8)
  }

  /** Writes the 64-bit word at a: it reads back, every word apart from it and every byte outside
      it keep their values. */
  function Store(m: Memory, a: Addr, v: nat): (m': Memory)
    requires Mapped(m, a, 8) && v < WORDS
    ensures m'.Keys == m.Keys
    ensures Load(m', a) == v
    ensures forall b {:trigger m'[b]} :: b in m && !(a <= b < a + 8) ==> m'[b] == m[b]
    ensures forall b {:trigger Load(m', b)} ::
              Mapped(m, b, 8) && Apart(a, 8, b, 8) ==> Load(m', b) == Load(m, b)
  {
    Power8();
    LoadStored(m, a, a + 8, v);
    StoreFrames(m, a, v);
    StoreUpTo(m, a, a + 8, v)
  }

  lemma StoreFrames(m: Memory, a: Addr, v: nat)
    requires Mapped(m, a, 8)
    ensures var m' := StoreUpTo(m, a, a + 8, v);
            forall b {:trigger LoadUpTo(m', b, b + 8)} ::
              Mapped(m, b, 8) && Apart(a, 8, b, 8) ==> LoadUpTo(m', b, b + 8) == LoadUpTo(m, b, b + 8)
  {
    var m' := StoreUpTo(m, a, a + 8, v);
    forall b | Mapped(m, b, 8) && Apart(a, 8, b, 8)
      ensures LoadUpTo(m', b, b + 8) == LoadUpTo(m, b, b + 8)
    {
      LoadSame(m, m', b, b + 8);
    }
  }

  lemma WordSame(m: Memory, m': Memory, a: Addr)
    requires Same(m, m', a, 8)
    ensures Load(m', a) == Load(m, a)
  {
    LoadSame(m, m', a, a + 8);
  }
}

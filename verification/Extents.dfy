/** Disjoint address ranges, given as a map from base to length, and sums over such maps. */
module Extents {
  import opened Bytes

  ghost predicate Disjoint(e: map<Addr, nat>) {
    forall x, y :: x in e && y in e && x != y ==> Apart(x, e[x], y, e[y])
  }

  /** Every range lies in the address space above address 0 and is mapped. */
  ghost predicate InMemory(m: Memory, e: map<Addr, nat>) {
    forall x :: x in e ==> 0 < x && x + e[x] <= WORDS && Mapped(m, x, e[x])
  }

  ghost function Sum(e: map<Addr, nat>): (n: nat) {
    if exists x :: x in e then
      var x :| x in e;
      e[x] + Sum(e - {x})
    else 0
  }

  /** The sum does not depend on the order in which the map is emptied. */
  lemma {:induction false} SumRemove(e: map<Addr, nat>, x: Addr)
    requires x in e
    ensures Sum(e) == e[x] + Sum(e - {x})
    decreases |e|
  {
    var y :| y in e && Sum(e) == e[y] + Sum(e - {y});
    if y != x {
      assert |e - {y}| < |e| by { assert (e - {y}).Keys == e.Keys - {y}; }
      assert |e - {x}| < |e| by { assert (e - {x}).Keys == e.Keys - {x}; }
      SumRemove(e - {y}, x);
      SumRemove(e - {x}, y);
      assert e - {y} - {x} == e - {x} - {y};
    }
  }

  lemma SumInsert(e: map<Addr, nat>, x: Addr, n: nat)
    requires x !in e
    ensures Sum(e[x := n]) == Sum(e) + n
  {
    SumRemove(e[x := n], x);
    assert e[x := n] - {x} == e;
  }

  lemma {:induction false} HighestBase(e: map<Addr, nat>) returns (x: Addr)
    requires exists x :: x in e
    ensures x in e && forall y :: y in e ==> y <= x
    decreases |e|
  {
    var z :| z in e;
    var rest := e - {z};
    assert rest.Keys == e.Keys - {z};
    assert forall w :: w in e ==> w == z || w in rest;
    if forall y :: y !in rest {
      x := z;
    } else {
      var y := HighestBase(rest);
      x := if y > z then y else z;
    }
  }

  /** Disjoint ranges between lo and hi have at most hi - lo bytes together. */
  lemma {:induction false} SumFits(e: map<Addr, nat>, lo: int, hi: int)
    requires Disjoint(e) && lo <= hi
    requires forall x :: x in e ==> lo <= x && x + e[x] <= hi
    ensures Sum(e) <= hi - lo
    decreases |e|
  {
    if exists x :: x in e {
      var x := HighestBase(e);
      var rest := e - {x};
      assert rest.Keys == e.Keys - {x};
      forall y | y in rest ensures y + rest[y] <= x {
        assert Apart(y, e[y], x, e[x]);
      }
      SumRemove(e, x);
      SumFits(rest, lo, x);
    }
  }
}

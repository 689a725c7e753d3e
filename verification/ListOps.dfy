/** The functions of ps_list.h and p2orderedinsert of p2malloc.c, writing links word by word. */
module ListOps {
  import opened Bytes
  import opened PsList
  import opened Slabs
  import opened Ram

  /** ps_list_ll_init. */
  method ListInit(ram: Ram, list: Addr)
    requires Cell(ram.bytes, list)
    modifies ram`bytes
    ensures Initialised(old(ram.bytes), ram.bytes, list)
    ensures Aimed(old(ram.bytes), ram.bytes, list, list, list)
  {
    ram.Write(list + 8, list);
    ram.Write(list, list);
  }

  /** ps_list_ll_add: first the links of the new node, then those of its neighbours. */
  method ListAdd(ram: Ram, list: Addr, node: Addr)
    requires Addable(ram.bytes, list, node)
    modifies ram`bytes
    ensures Added(old(ram.bytes), ram.bytes, list, node)
  {
    hide Added, Hooked;
    ghost var m := ram.bytes;
    SetLinks(ram, node, Next(ram.bytes, list), list);
    ghost var m1 := ram.bytes;
    HookIn(ram, list, node);
    AimHook(m, m1, ram.bytes, list, node);
  }

  /** list->next = node; node->next->previous = node. */
  method HookIn(ram: Ram, list: Addr, node: Addr)
    requires Cell(ram.bytes, list) && Cell(ram.bytes, node) && Cell(ram.bytes, Next(ram.bytes, node))
    requires Apart(list, LINK, node, LINK) && SameOrApart(list, Next(ram.bytes, node))
    modifies ram`bytes
    ensures Hooked(old(ram.bytes), ram.bytes, list, node, Next(old(ram.bytes), node), node)
  {
    hide Hooked;
    HookStores(ram.bytes, list, node, Next(ram.bytes, node), node);
    ram.Write(list, node);
    ram.Write(Next(ram.bytes, node) + 8, node);
  }

  /** node->next = next; node->previous = previous. */
  method SetLinks(ram: Ram, node: Addr, next: Addr, previous: Addr)
    requires Cell(ram.bytes, node) && 0 <= next < WORDS && 0 <= previous < WORDS
    modifies ram`bytes
    ensures Aimed(old(ram.bytes), ram.bytes, node, previous, next)
  {
    ram.Write(node, next);
    ram.Write(node + 8, previous);
  }

  /** ps_list_ll_rem. */
  method ListRemove(ram: Ram, list: Addr)
    requires Removable(ram.bytes, list)
    modifies ram`bytes
    ensures Unlinked(old(ram.bytes), ram.bytes, list)
  {
    ghost var m, p, q := ram.bytes, Previous(ram.bytes, list), Next(ram.bytes, list);
    ram.Write(Next(ram.bytes, list) + 8, Previous(ram.bytes, list));
    ram.Write(Previous(ram.bytes, list), Next(ram.bytes, list));
    ghost var m1 := ram.bytes;
    assert Hooked(m, m1, p, q, q, p);
    ListInit(ram, list);
    HookAim(m, m1, ram.bytes, list);
  }

  /** ps_list_head_empty. */
  predicate HeadEmpty(m: Memory, head: Addr)
    requires Cell(m, head)
  {
    Next(m, head) == head
  }

  /** p2orderedinsert: the new node goes after the last node whose address is not above its own. The
      list need not be sorted. */
  method OrderedInsert(ram: Ram, node: Addr, head: Addr, ghost s: seq<Addr>)
    requires IsList(ram.bytes, head, s) && Cell(ram.bytes, node) && OffRing(head, s, node, LINK)
    modifies ram`bytes
    ensures Added(old(ram.bytes), ram.bytes, At(head, s, InsertPos(s, node)), node)
    ensures IsList(ram.bytes, head, Inserted(s, InsertPos(s, node), node))
  {
    ghost var m, p := ram.bytes, InsertPos(s, node);
    AddAllowed(m, head, s, p, node);
    EmptyTest(m, head, s);
    if HeadEmpty(ram.bytes, head) {
      ListAdd(ram, Previous(ram.bytes, head), node);
      AddInserts(m, ram.bytes, head, s, p, head, node);
      return;
    }
    var cursor := Previous(ram.bytes, head);
    ghost var k := |s|;
    while cursor > node
      invariant 1 <= k <= |s| && cursor == s[k - 1]
      invariant p <= k && ram.bytes == m
      decreases k
    {
      assert p < k;
      CursorCell(m, head, s, k);
      if Previous(ram.bytes, cursor) == head {
        ListAdd(ram, head, node);
        AddInserts(m, ram.bytes, head, s, p, head, node);
        return;
      }
      cursor := Previous(ram.bytes, cursor);
      k := k - 1;
    }
    ListAdd(ram, cursor, node);
    AddInserts(m, ram.bytes, head, s, p, cursor, node);
  }

  /** The cell before position k, and when it is the sentinel. */
  lemma CursorCell(m: Memory, h: Addr, s: seq<Addr>, k: nat)
    requires IsList(m, h, s) && 1 <= k <= |s|
    ensures Cell(m, s[k - 1]) && Previous(m, s[k - 1]) == At(h, s, k - 1)
    ensures At(h, s, k - 1) == h <==> k == 1
  {
    IsListCell(m, h, s, k - 1);
    RingApart(m, h, s, 0, k - 1);
  }

  /** ps_list_foreach_del with a body that removes the visited node: every node is visited once, in
      list order, and the list ends up empty. */
  method Drain(ram: Ram, head: Addr, ghost s: seq<Addr>) returns (visited: seq<Addr>)
    requires IsList(ram.bytes, head, s)
    modifies ram`bytes
    ensures visited == s && IsList(ram.bytes, head, [])
  {
    hide IsList, Unlinked, Removable;
    visited := [];
    ghost var rest := s;
    SecondCell(ram.bytes, head, s);
    var iter := Next(ram.bytes, head);
    var tmp := Next(ram.bytes, iter);
    while iter != head
      invariant IsList(ram.bytes, head, rest) && visited + rest == s
      invariant iter == At(head, rest, 1) && (rest != [] ==> tmp == At(head, rest, 2))
      decreases |rest|
    {
      assert rest != [];
      ghost var m := ram.bytes;
      RemoveAllowed(m, head, rest, 0);
      visited := visited + [iter];
      ListRemove(ram, iter);
      RemoveDeletes(m, ram.bytes, head, rest, 0);
      assert Removed(rest, 0) == rest[1..];
      rest := rest[1..];
      SecondCell(ram.bytes, head, rest);
      iter := tmp;
      tmp := Next(ram.bytes, tmp);
    }
    SecondCell(ram.bytes, head, rest);
    assert rest == [];
  }

  lemma SecondCell(m: Memory, h: Addr, s: seq<Addr>)
    requires IsList(m, h, s)
    ensures Cell(m, h) && Next(m, h) == At(h, s, 1) && Cell(m, At(h, s, 1))
    ensures s != [] ==> Next(m, At(h, s, 1)) == At(h, s, 2)
    ensures At(h, s, 1) == h <==> s == []
  {
    EmptyTest(m, h, s);
    IsListCell(m, h, s, 0);
    if s != [] {
      IsListCell(m, h, s, 1);
    }
  }
}

/**
  What the ownership of pages means for a user of os/vm.c.
*/
module UserTheorems {
  import opened Sv39
  import opened UserPages
  import opened UserAreas
  import opened UserCopy
  import opened Vm

  // Two user pages on one allocator frame are the same page; the frame is on no free
  // list and is no page table.
  lemma NoSharing(mem: Memory, owner: map<nat, Owner>, tables: map<nat, Tables>, free: seq<nat>, m: nat, v: nat, k: nat, u: nat)
    requires World(mem, owner, tables) && FreeList(free, owner) && m in tables && k in tables && v < VPNS && u < VPNS
    ensures Root in tables[m] && Root in tables[k]
    ensures var e, f := Translate(mem, tables[m][Root], v), Translate(mem, tables[k][Root], u);
      e.Some? && f.Some? && e.value.ppn == f.value.ppn && e.value.ppn in mem ==> m == k && v == u
    ensures var e := Translate(mem, tables[m][Root], v);
      e.Some? && e.value.ppn in mem ==> e.value.ppn !in free && forall a :: a in tables[k] ==> tables[k][a] != e.value.ppn
  {
    hide Translate, Shape, Tidy;
    assert Good(mem, owner, m, tables[m]) && Good(mem, owner, k, tables[k]);
  }

  // Two table nodes on one frame are the same node, and the frame is on no free list.
  lemma TablesApart(mem: Memory, owner: map<nat, Owner>, tables: map<nat, Tables>, free: seq<nat>, m: nat, a: Node, k: nat, b: Node)
    requires World(mem, owner, tables) && FreeList(free, owner) && m in tables && k in tables && a in tables[m] && b in tables[k]
    ensures tables[m][a] == tables[k][b] ==> m == k && a == b
    ensures tables[m][a] !in free
  {
    hide Translate, Shape, Tidy;
    assert Good(mem, owner, m, tables[m]) && Good(mem, owner, k, tables[k]);
  }

  // walk gives every page of every address space an entry of its own.
  lemma SlotsApart(mem: Memory, owner: map<nat, Owner>, tables: map<nat, Tables>, m: nat, v: nat, k: nat, u: nat)
    requires World(mem, owner, tables) && m in tables && k in tables && v < VPNS && u < VPNS
    requires LowOf(v) in tables[m] && LowOf(u) in tables[k]
    ensures tables[m][LowOf(v)] == tables[k][LowOf(u)] && I0(v) == I0(u) ==> m == k && v == u
  {
    TableOwner(mem, owner, tables, m, LowOf(v));
    TableOwner(mem, owner, tables, k, LowOf(u));
    SplitVpn(v);
    SplitVpn(u);
  }

  // Every page of the allocator is free, or a table or a user page of one live address
  // space, or held by the kernel, or lost; and it is what its owner says.
  lemma Partition(mem: Memory, owner: map<nat, Owner>, tables: map<nat, Tables>, free: seq<nat>, p: nat)
    requires World(mem, owner, tables) && FreeList(free, owner) && p in mem
    ensures p in owner && (p in free <==> owner[p] == Free)
    ensures owner[p].Table? <==> exists m, a :: m in tables && a in tables[m] && tables[m][a] == p
    ensures owner[p].Data? <==>
      exists m, v: nat :: m in tables && v < VPNS && Root in tables[m] && Translate(mem, tables[m][Root], v).Some? && Translate(mem, tables[m][Root], v).value.ppn == p
  {
    hide Translate, Shape, Tidy;
    assert Used(mem, tables, p, owner[p]);
    if m, a :| m in tables && a in tables[m] && tables[m][a] == p {
      assert Good(mem, owner, m, tables[m]);
    }
    if m, v: nat :| m in tables && v < VPNS && Root in tables[m] && Translate(mem, tables[m][Root], v).Some? && Translate(mem, tables[m][Root], v).value.ppn == p {
      assert Good(mem, owner, m, tables[m]);
    }
  }

  // A store through page v of m is seen by no other page of any address space, and
  // moves no translation.
  lemma StoreSeenOnce(mem: Memory, owner: map<nat, Owner>, tables: map<nat, Tables>, m: nat, v: nat, page: Page, k: nat, u: nat)
    requires World(mem, owner, tables) && m in tables && k in tables && v < VPNS && u < VPNS && (k != m || u != v) && Root in tables[m] && Root in tables[k]
    requires HasPage(mem, owner, tables[m][Root], v) && HasPage(mem, owner, tables[k][Root], u) && 0 !in owner
    ensures var p, q := UserPage(mem, tables[m][Root], v), UserPage(mem, tables[k][Root], u);
      var mem' := mem[p := page];
      && World(mem', owner, tables) && UserPage(mem', tables[k][Root], u) == q && UserPage(mem', tables[m][Root], v) == p
      && q in mem && mem'[q] == mem[q] && mem'[p] == page
  {
    hide Translate, World, UserPage;
    PageOwner(mem, owner, tables, m, v);
    PageOwner(mem, owner, tables, k, u);
    WorldKeys(mem, owner, tables);
    var p := UserPage(mem, tables[m][Root], v);
    StoreWorld(mem, owner, tables, p, page);
    SamePage(mem, mem[p := page], tables[k][Root], u);
    SamePage(mem, mem[p := page], tables[m][Root], v);
  }

  lemma WorldKeys(mem: Memory, owner: map<nat, Owner>, tables: map<nat, Tables>)
    requires World(mem, owner, tables)
    ensures mem.Keys == owner.Keys
  {
  }

  // mm_mappages of area w, from 0 to 1, and then freevma of it, from 1 to 2.
  ghost predicate ThereAndBack(mem0: Memory, owner0: map<nat, Owner>, tables0: map<nat, Tables>, mem1: Memory, owner1: map<nat, Owner>, tables1: map<nat, Tables>,
                               mem2: Memory, owner2: map<nat, Owner>, m: nat, w: Vma, root: nat)
  {
    && m in tables0 && Root in tables0[m] && tables0[m][Root] == root
    && World(mem0, owner0, tables0) && World(mem1, owner1, tables1) && Grew(mem0, owner0, tables0, mem1, owner1, tables1, m)
    && Placed(mem0, owner0, mem1, owner1, root, m, First(w), Count(w), w.flags)
    && Cleared(mem1, owner1, mem2, owner2, root, m, First(w), Count(w), Free)
  }

  // freevma after mm_mappages of the same area: every translation is what it was, the
  // frames that were mapped are free again, and nothing else is given back or taken.
  lemma FreevmaRestores(mem0: Memory, owner0: map<nat, Owner>, tables0: map<nat, Tables>, mem1: Memory, owner1: map<nat, Owner>, tables1: map<nat, Tables>,
                        mem2: Memory, owner2: map<nat, Owner>, m: nat, w: Vma, root: nat)
    requires NOPAGE !in owner0 && ThereAndBack(mem0, owner0, tables0, mem1, owner1, tables1, mem2, owner2, m, w, root)
    ensures owner2.Keys == owner1.Keys == owner0.Keys == mem0.Keys == mem2.Keys
    ensures forall v: nat :: v < VPNS ==> Translate(mem2, root, v) == Translate(mem0, root, v)
    ensures forall p :: p in owner0 && owner0[p] != Free ==> owner2[p] == owner0[p] && (!owner0[p].Table? ==> mem2[p] == mem0[p])
    ensures forall p :: p in owner0 ==> (owner1[p] != Free && owner2[p] == Free <==> Within(owner1[p], m, First(w), Count(w)))
    ensures forall p :: p in owner0 && Within(owner1[p], m, First(w), Count(w)) ==> owner0[p] == Free
  {
    hide Translate, First, Count, World;
    forall p | p in owner0 && owner0[p] != Free ensures owner2[p] == owner0[p] && (!owner0[p].Table? ==> mem2[p] == mem0[p]) {
      StaysOwned(mem0, owner0, tables0, mem1, owner1, tables1, m, First(w), Count(w), w.flags, p, root);
    }
    forall p | p in owner1 && Within(owner1[p], m, First(w), Count(w)) ensures p in owner0 && owner0[p] == Free {
      WasFree(mem0, owner0, tables0, mem1, owner1, tables1, m, First(w), Count(w), w.flags, p, root);
    }
  }

  lemma WasFree(mem0: Memory, owner0: map<nat, Owner>, tables0: map<nat, Tables>, mem1: Memory, owner1: map<nat, Owner>, tables1: map<nat, Tables>,
                m: nat, s: nat, n: nat, flags: Perm, p: nat, root: nat)
    requires World(mem1, owner1, tables1) && Grew(mem0, owner0, tables0, mem1, owner1, tables1, m) && NOPAGE !in owner0
    requires Placed(mem0, owner0, mem1, owner1, root, m, s, n, flags) && Root in tables0[m] && tables0[m][Root] == root && p in owner1 && Within(owner1[p], m, s, n)
    ensures p in owner0 && owner0[p] == Free
  {
    hide Translate, Good;
    assert Used(mem1, tables1, p, owner1[p]);
    assert Fresh(owner0, owner1, m, owner1[p].v, flags, Translate(mem1, root, owner1[p].v));
  }

  lemma TableOwner(mem: Memory, owner: map<nat, Owner>, tables: map<nat, Tables>, m: nat, a: Node)
    requires World(mem, owner, tables) && m in tables && a in tables[m]
    ensures tables[m][a] in owner && owner[tables[m][a]] == Table(m, a)
  {
    hide Translate, Shape, Tidy, Accounted;
    assert Good(mem, owner, m, tables[m]);
  }

  lemma ForeignKept(mem: Memory, owner: map<nat, Owner>, mem': Memory, owner': map<nat, Owner>, m: nat, p: nat)
    requires Around(mem, owner, mem', owner', m) && p in owner && Foreign(owner[p], m)
    ensures p in owner' && owner'[p] == owner[p]
  {
  }

  lemma StaysOwned(mem0: Memory, owner0: map<nat, Owner>, tables0: map<nat, Tables>, mem1: Memory, owner1: map<nat, Owner>, tables1: map<nat, Tables>,
                   m: nat, s: nat, n: nat, flags: Perm, p: nat, root: nat)
    requires World(mem0, owner0, tables0) && World(mem1, owner1, tables1) && Grew(mem0, owner0, tables0, mem1, owner1, tables1, m)
    requires Placed(mem0, owner0, mem1, owner1, root, m, s, n, flags) && Root in tables0[m] && tables0[m][Root] == root && p in owner0 && owner0[p] != Free
    ensures p in owner1 && owner1[p] == owner0[p] && !Within(owner0[p], m, s, n) && (!owner0[p].Table? ==> mem1[p] == mem0[p])
  {
    hide Translate, Good, Around, Same;
    assert Used(mem0, tables0, p, owner0[p]);
    if owner0[p].Table? {
      if owner0[p].m == m { TableOwner(mem1, owner1, tables1, m, owner0[p].a); } else { ForeignKept(mem0, owner0, mem1, owner1, m, p); }
    }
  }

  // With three pages in all, an address space takes one and the tables of its first page
  // two; mapping that page then finds none left, and mm_mappages reports success.
  method MapsNoPage() returns (r: Status, frame: nat)
    ensures r == Done && frame == NOPAGE
  {
    hide World, FreeList, Grew, Beside, AllListed, Translate, NodesOf, ZeroPage;
    var user := NoPerm.(r := true, u := true);
    var um := new UserMemory(1, 4, map[1 := ZeroPage(), 2 := ZeroPage(), 3 := ZeroPage()]);
    var created := um.MmCreate(0);
    FirstPath(um.tables[0], um.mem, um.mms[0].pgt);
    ghost var mem0, owner0, root := um.mem, um.owner, um.mms[0].pgt;
    r := um.MmMappages(0, Vma(0, PGSIZE, user));
    OnlyNoPage(mem0, owner0, um.mem, um.owner, root, user);
    var pa := um.Walkaddr(0, 0);
    frame := pa.value;
  }

  lemma OnlyNoPage(mem0: Memory, owner0: map<nat, Owner>, mem: Memory, owner: map<nat, Owner>, root: nat, flags: Perm)
    requires Placed(mem0, owner0, mem, owner, root, 0, 0, 1, flags) && !Real(mem, owner, root, 0, 1) && flags.u
    ensures UserPage(mem, root, 0) == NOPAGE
  {
    hide Translate;
    assert Fresh(owner0, owner, 0, 0, flags, Translate(mem, root, 0));
  }

  lemma FirstPath(t: Tables, mem: Memory, root: nat)
    requires t.Keys == {Root} && forall v: nat :: Translate(mem, root, v).None?
    ensures Need(t, 0, 1) == 3 && !Blocked(mem, t, 2, root, 0, 0)
  {
    hide Translate;
    assert NodesOf(0, 1) == Path(0) == {Mid(0), Low(0, 0)};
    assert NodesOf(0, 1) - t.Keys == {Mid(0)} + {Low(0, 0)};
  }
}

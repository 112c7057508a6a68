/**
  User memory (os/vm.c) on the page allocator (os/kalloc.c:37-73): address spaces,
  their page tables in physical memory, and the free list.
*/
module Vm {
  import opened Sv39
  import opened UserPages
  import opened UserAreas
  import opened UserCopy

  // What a call found: the memory, who owns it, and how many pages are free.
  datatype Snapshot = Snapshot(mem: Memory, owner: map<nat, Owner>, tables: map<nat, Tables>, pages: nat)

  class UserMemory {
    var mem: Memory               // the pages of the allocator, by frame number
    var free: seq<nat>            // kmem.freelist, head first
    var mms: map<nat, Mm>         // the mm structures in use
    const lo: nat                 // first frame of the allocator
    const hi: nat                 // one past its last frame
    ghost var owner: map<nat, Owner>
    ghost var tables: map<nat, Tables>

    // The allocator on its own.
    ghost predicate Pages()
      reads `mem, `free, `owner
    {
      && 0 < lo <= hi <= NOPAGE
      && (forall p :: p in owner <==> lo <= p < hi)
      && mem.Keys == owner.Keys && FreeList(free, owner)
    }

    ghost predicate Ok()
      reads this
    {
      && Pages() && World(mem, owner, tables)
      && Rooted(tables, mms)
    }

    // kpgmgrinit: freerange frees every page, the last one first.
    constructor (first: nat, end: nat, memory: Memory)
      requires 0 < first <= end <= NOPAGE && forall p :: p in memory <==> first <= p < end
      ensures Ok() && Lists() && lo == first && hi == end && mms == map[]
      ensures |free| == end - first && forall i :: 0 <= i < |free| ==> free[i] == first + i
    {
      lo, hi, mem, free, mms := first, end, memory, [], map[];
      owner, tables := map p | p in memory :: Held, map[];
      new;
      var p := end;
      while p > first
        invariant first <= p <= end && Pages() && lo == first && hi == end && mms == map[] && tables == map[]
        invariant forall q :: q in owner ==> owner[q] == if q < p then Held else Free
        invariant |free| == end - p && forall i :: 0 <= i < |free| ==> free[i] == p + i
      {
        p := p - 1;
        var ok := Kfreepage(p);
      }
    }

    // os/kalloc.c:60-73; the page comes filled with junk.
    method Kallocpage(ghost m: nat) returns (p: nat)
      requires Ok()
      modifies `mem, `free, `owner
      ensures Ok() && SameAll(old(mem), mem, tables) && Around(old(mem), old(owner), mem, owner, m)
      ensures old(free) == [] ==> p == NOPAGE && mem == old(mem) && owner == old(owner) && free == old(free)
      ensures old(free) != [] ==>
        && p == old(free)[0] && free == old(free)[1..]
        && p in old(owner) && old(owner)[p] == Free && owner == old(owner)[p := Held]
        && p in mem && mem == old(mem)[p := mem[p]]
    {
      hide World, SameAll, Around, FreeList;
      if |free| == 0 {
        SameRefl(mem, owner, tables, m);
        return NOPAGE;
      }
      p := free[0];
      var junk: Page := *;
      TakeHead(free, owner);
      Idle(mem, owner, tables, p, junk, Held, m);
      free := free[1..];
      mem := mem[p := junk];
      owner := owner[p := Held];
    }

    // os/kalloc.c:37-55: false is the panic for a page outside the allocator's range.
    // The caller never frees a page twice.
    method Kfreepage(p: nat) returns (ok: bool)
      requires Pages() && (p in owner ==> owner[p] != Free)
      modifies `mem, `free, `owner
      ensures Pages() && (ok <==> p in old(owner))
      ensures !ok ==> mem == old(mem) && owner == old(owner) && free == old(free)
      ensures ok ==> free == [p] + old(free) && owner == old(owner)[p := Free] && p in mem && mem == old(mem)[p := mem[p]]
    {
      if !(lo <= p < hi) { return false; }
      var junk: Page := *;
      PutHead(free, owner, p);
      free := [p] + free;
      mem := mem[p := junk];
      owner := owner[p := Free];
      return true;
    }

    // Take a page, zero it, and hang it below the empty entry i of table a.
    method HangFresh(m: nat, ghost a: Node, page: nat, i: nat) returns (p: nat)
      requires Ok() && m in mms && a in tables[m] && tables[m][a] == page && !a.Low? && i < 512
      requires page in mem && !mem[page][i].perm.v && owner[page] == Table(m, a) && Child(a, i) !in tables[m]
      modifies `mem, `free, `owner, `tables
      ensures Ok() && Walked(old(mem), old(owner), old(tables), old(free), mem, owner, tables, free, m)
      ensures old(free) == [] ==> p == NOPAGE && mem == old(mem) && owner == old(owner) && tables == old(tables) && free == old(free)
      ensures old(free) != [] ==> p != NOPAGE && tables[m] == old(tables[m])[Child(a, i) := p] && free == old(free)[1..]
    {
      hide Good, Accounted, SameAll, Around, ZeroPage, Walked, FreeList;
      WalkedRefl(mem, owner, tables, free, m);
      p := Kallocpage(m);
      if p == NOPAGE { return; }
      ghost var mem1, owner1 := mem, owner;
      Hang(mem, owner, tables, m, a, i, p);
      KeepFree(free, owner, p, Table(m, Child(a, i)));
      mem := mem[p := ZeroPage()];
      mem := SetWord(mem, page, i, MakePte(p, NoPerm));
      owner := owner[p := Table(m, Child(a, i))];
      ghost var t': Tables := tables[m][Child(a, i) := p];
      tables := tables[m := t'];
      HangWalked(old(mem), old(owner), old(tables), old(free), mem1, owner1, mem, owner, m, a, i, p);
    }

    // One level of walk: follow the pointer in entry i of table a, or, if alloc, hang a
    // zeroed page there.
    method Follow(m: nat, ghost a: Node, page: nat, i: nat, alloc: bool) returns (next: Option<nat>)
      requires Ok() && m in mms && a in tables[m] && tables[m][a] == page && !a.Low? && i < 512
      modifies `mem, `free, `owner, `tables
      ensures Ok() && Walked(old(mem), old(owner), old(tables), old(free), mem, owner, tables, free, m)
      ensures !alloc || next.None? ==> mem == old(mem) && owner == old(owner) && tables == old(tables) && free == old(free)
      ensures m in tables && (next.Some? ==> Child(a, i) in tables[m] && tables[m][Child(a, i)] == next.value)
      ensures next.Some? ==> tables[m].Keys == old(tables[m]).Keys + {Child(a, i)}
      ensures next.None? <==> Child(a, i) !in old(tables[m]) && (!alloc || old(free) == [])
      ensures |free| + |tables[m]| == |old(free)| + |old(tables[m])|
    {
      hide Good, Accounted, SameAll, Around, FreeList, Walked;
      WalkedRefl(mem, owner, tables, free, m);
      PointerIs(mem, owner, tables, m, a, i);
      var e := mem[page][i];
      if e.perm.v { return Some(e.ppn); }
      if !alloc { return None; }
      var p := HangFresh(m, a, page, i);
      next := if p == NOPAGE then None else Some(p);
    }

    lemma Refl(m: nat)
      requires Ok() && m in mms
      ensures m in tables && Root in tables[m] && tables[m][Root] == mms[m].pgt
      ensures Walked(mem, owner, tables, free, mem, owner, tables, free, m)
    {
      WalkedRefl(mem, owner, tables, free, m);
    }

    lemma LowMid(m: nat, v: nat)
      requires Ok() && m in mms && m in tables && LowOf(v) in tables[m]
      ensures Mid(I2(v)) in tables[m]
    {
      LowNeedsMid(mem, owner, tables, m, v);
    }

    // walk: the lowest table of va, or NULL; with alloc it makes the missing tables.
    method Walk(m: nat, va: nat, alloc: bool) returns (r: WalkResult)
      requires Ok() && m in mms
      modifies `mem, `free, `owner, `tables
      ensures Ok() && Walked(old(mem), old(owner), old(tables), old(free), mem, owner, tables, free, m)
      ensures r.BadAddress? <==> va > MAXVA
      ensures !alloc || r.BadAddress? ==> mem == old(mem) && owner == old(owner) && tables == old(tables) && free == old(free)
      ensures r.Slot? ==> LowOf(va / PGSIZE) in tables[m] && tables[m][LowOf(va / PGSIZE)] == r.page
      ensures r.Slot? && alloc ==> tables[m].Keys == old(tables[m]).Keys + Path(va / PGSIZE)
      ensures alloc && va <= MAXVA ==> (r.NoTable? <==> |old(free)| < |Path(va / PGSIZE) - old(tables[m]).Keys|)
      ensures r.NoTable? && !alloc ==> LowOf(va / PGSIZE) !in tables[m]
      ensures r.NoTable? && alloc ==> free == []
    {
      hide Ok, Walked, At, Px, Above2, Child, Path, LowOf, I2;
      Refl(m);
      StepDown(2, va / PGSIZE);
      if va > MAXVA {
        return BadAddress;
      }
      var v := va / PGSIZE;
      var page, level := mms[m].pgt, 2;
      while level > 0
        invariant Ok() && m in mms && m in tables && mms == old(mms) && level <= 2
        invariant Walked(old(mem), old(owner), old(tables), old(free), mem, owner, tables, free, m)
        invariant At(level, v) in tables[m] && tables[m][At(level, v)] == page
        invariant !alloc ==> mem == old(mem) && owner == old(owner) && tables == old(tables) && free == old(free)
        invariant |free| + |tables[m]| == |old(free)| + |old(tables[m])|
        invariant alloc ==> tables[m].Keys == old(tables[m]).Keys + Above2(level, v)
      {
        ghost var mem1, owner1, tables1, free1 := mem, owner, tables, free;
        StepDown(level, v);
        var next := Follow(m, At(level, v), page, Px(level, v), alloc);
        WalkedTrans(old(mem), old(owner), old(tables), old(free), mem1, owner1, tables1, free1, mem, owner, tables, free, m);
        if next.None? {
          if alloc { WalkShort(old(tables[m]).Keys, tables[m].Keys, level, v, |old(free)|); }
          if LowOf(v) in tables[m] { LowMid(m, v); }
          return NoTable;
        }
        page := next.value;
        level := level - 1;
      }
      Grow(old(tables[m]).Keys, Path(v));
      return Slot(page);
    }

    // Allocate a page and write it into the empty entry of v; solid: there was a page.
    method Fill(m: nat, v: nat, page: nat, flags: Perm) returns (ghost solid: bool)
      requires Ok() && m in mms && v < VPNS && Leaf(flags)
      requires LowOf(v) in tables[m] && tables[m][LowOf(v)] == page && page in mem && !mem[page][I0(v)].perm.v
      modifies `mem, `free, `owner
      ensures Ok() && m in tables && Grew(old(mem), old(owner), old(tables), mem, owner, tables, m)
      ensures Placed(old(mem), old(owner), mem, owner, mms[m].pgt, m, v, 1, flags)
      ensures solid <==> old(free) != []
      ensures solid ==> free == old(free)[1..]
      ensures !solid ==> free == []
      ensures solid <==> Real(mem, owner, mms[m].pgt, v, 1)
    {
      hide Good, FreeList, Leaf, I0, I1, I2, Around, SameAll, Accounted, Grew, Placed, Real, Translate;
      SlotIs(mem, owner, tables, m, v);
      ghost var mem0, owner0 := mem, owner;
      var pa := Kallocpage(m);
      ghost var mem1, owner1 := mem, owner;
      solid := pa in owner;
      ghost var owner2 := if pa in owner then owner[pa := Data(m, v)] else owner;
      SameOf(mem0, mem1, tables, m, v);
      FillWorld(mem0, owner0, tables, m, v, pa, flags, mem1, owner1, owner2);
      mem := SetWord(mem, page, I0(v), MakePte(pa, flags));
      owner := owner2;
      if pa in owner1 { KeepFree(free, owner1, pa, Data(m, v)); }
      FillGrew(mem0, owner0, tables, m, v, pa, flags, page, mem1, owner1, mem, owner);
    }

    // One round of mm_mappages at page v; solid tells whether it got a page.
    method MapOne(m: nat, v: nat, flags: Perm) returns (r: Status, ghost solid: bool)
      requires Ok() && m in mms && v * PGSIZE < MAXVA && Leaf(flags)
      modifies `mem, `free, `owner, `tables
      ensures Ok() && m in tables && Grew(old(mem), old(owner), old(tables), mem, owner, tables, m)
      ensures r == Done ==>
        && Placed(old(mem), old(owner), mem, owner, mms[m].pgt, m, v, 1, flags)
        && tables[m].Keys == old(tables[m]).Keys + Path(v)
      ensures r == Done && solid ==> Real(mem, owner, mms[m].pgt, v, 1) && |free| + |tables[m]| + 1 == |old(free)| + |old(tables[m])|
      ensures r == Done && !solid ==> !Real(mem, owner, mms[m].pgt, v, 1) && free == [] && |tables[m]| == |old(free)| + |old(tables[m])|
      ensures r != Done ==> r == Failed && SameAll(old(mem), mem, old(tables))
      ensures r == Done <==> Translate(old(mem), mms[m].pgt, v).None? && |old(free)| >= |Path(v) - old(tables[m]).Keys|
    {
      hide World, FreeList, Around, Kept, Placed, Real, SameAll, Path, LowOf, I0, I1, I2, Leaf, Translate;
      ghost var mem0, owner0, tables0, free0 := mem, owner, tables, free;
      var w := Walk(m, v * PGSIZE, true);
      assert v * PGSIZE / PGSIZE == v;
      if !w.Slot? { return Failed, false; }
      ghost var mem1, owner1, tables1, free1 := mem, owner, tables, free;
      SameOf(mem0, mem1, tables0, m, v);
      SlotIs(mem, owner, tables, m, v);
      if mem[w.page][I0(v)].perm.v { return Failed, false; }
      solid := Fill(m, v, w.page, flags);
      GrewTrans(mem0, owner0, tables0, mem1, owner1, tables1, mem, owner, tables, m);
      PlacedAfter(mem0, owner0, mem1, owner1, mem, owner, tables0, m, v, flags);
      r := Done;
    }

    lemma RangeBegin(m: nat, s: nat, flags: Perm)
      requires Ok() && m in mms
      ensures m in tables && Grew(mem, owner, tables, mem, owner, tables, m)
      ensures Placed(mem, owner, mem, owner, mms[m].pgt, m, s, 0, flags) && Real(mem, owner, mms[m].pgt, s, 0) && NodesOf(s, 0) == {}
    {
      RangeStart(mem, owner, tables, m, s, mms[m].pgt, flags);
    }

    // The loop of mm_mappages over the n pages from s; d pages are done when it stops.
    method MapRange(m: nat, s: nat, n: nat, flags: Perm) returns (r: Status, ghost d: nat, ghost solid: bool)
      requires Ok() && m in mms && (s + n) * PGSIZE <= MAXVA && Leaf(flags)
      modifies `mem, `free, `owner, `tables
      ensures Ok() && m in tables && Grew(old(mem), old(owner), old(tables), mem, owner, tables, m)
      ensures r != Panic && (r == Done <==> d == n) && d <= n
      ensures Placed(old(mem), old(owner), mem, owner, mms[m].pgt, m, s, d, flags)
      ensures solid <==> Real(mem, owner, mms[m].pgt, s, d)
      ensures r == Done ==> tables[m].Keys == old(tables[m]).Keys + NodesOf(s, n)
      ensures r == Done && solid ==> |free| + |tables[m]| + n == |old(free)| + |old(tables[m])|
      ensures r == Done && solid <==> RangeFree(old(mem), mms[m].pgt, s, n) && |old(free)| >= Need(old(tables[m]), s, n)
      ensures forall k: nat :: k < d ==> !Blocked(old(mem), old(tables[m]), |old(free)|, mms[m].pgt, s, k)
      ensures r == Failed ==> Blocked(old(mem), old(tables[m]), |old(free)|, mms[m].pgt, s, d)
    {
      hide Ok, Placed, Real, SameAll, RangeFree, Path, Leaf, Translate, NodesOf, Grew, Blocked;
      ghost var mem0, owner0, tables0, free0, root := mem, owner, tables, free, mms[m].pgt;
      d, solid := 0, true;
      RangeBegin(m, s, flags);
      var v := s;
      while v < s + n
        invariant Ok() && m in mms && m in tables && mms == old(mms) && d <= n && v == s + d
        invariant Grew(mem0, owner0, tables0, mem, owner, tables, m)
        invariant Placed(mem0, owner0, mem, owner, root, m, s, d, flags) && (solid <==> Real(mem, owner, root, s, d))
        invariant tables[m].Keys == tables0[m].Keys + NodesOf(s, d)
        invariant solid ==> |free| + |tables[m]| + d == |free0| + |tables0[m]|
        invariant !solid ==> free == [] && |free0| + |tables0[m]| < |tables[m]| + d
        invariant forall k: nat :: k < d ==> !Blocked(mem0, tables0[m], |free0|, root, s, k)
      {
        ghost var mem1, owner1, tables1, free1 := mem, owner, tables, free;
        ghost var one;
        Refl(m);
        r, one := MapOne(m, v, flags);
        GrewTrans(mem0, owner0, tables0, mem1, owner1, tables1, mem, owner, tables, m);
        if r != Done {
          RangeFail(mem0, owner0, mem1, owner1, mem, owner, tables0, tables1, tables, m, s, d, root, flags);
          NotFree(mem0, root, s, d, n);
          RangeShort(tables0[m].Keys, tables1[m].Keys, s, d, n, |free0|, |free1|, solid);
          BlockedIs(mem0, tables0[m], |free0|, root, s, d, tables1[m], |free1|, solid);
          return;
        }
        PlacedAt(mem0, owner0, mem1, owner1, root, m, s, d, flags);
        BlockedIs(mem0, tables0[m], |free0|, root, s, d, tables1[m], |free1|, solid);
        RangeStep(mem0, owner0, mem1, owner1, mem, owner, tables0, tables1, tables, m, s, d, root, flags);
        RangeKeys(tables0[m].Keys, tables1[m].Keys, tables[m].Keys, s, d);
        v, d, solid := v + 1, d + 1, solid && one;
      }
      RangeSettled(tables0[m].Keys, tables[m].Keys, s, n, |free0|, |free|, solid);
      PlacedFree(mem0, owner0, mem, owner, root, m, s, n, flags);
      r := Done;
    }

    // freevma at page v; false: walk or kfreepage panics.
    method FreeOne(m: nat, v: nat, phys: bool) returns (ok: bool)
      requires Ok() && m in mms
      modifies `mem, `free, `owner, `tables
      ensures Ok() && tables == old(tables) && Beside(old(mem), old(owner), tables, mem, owner, m)
      ensures ok <==> FreeableAt(old(mem), old(owner), tables[m], phys, v)
      ensures ok ==> Cleared(old(mem), old(owner), mem, owner, mms[m].pgt, m, v, 1, if phys then Free else Held)
    {
      hide Good, Accounted, FreeList, Around, Kept, I0, I1, I2, Translate, Cleared, Beside, Walked;
      ClearNone(mem, owner, tables, m, v, Free);
      var w := Walk(m, v * PGSIZE, false);
      assert v * PGSIZE / PGSIZE == v;
      if w.BadAddress? { return false; }
      if w.NoTable? {
        ClearSkip(mem, owner, tables, m, v, if phys then Free else Held);
        return true;
      }
      SlotIs(mem, owner, tables, m, v);
      var e := mem[w.page][I0(v)];
      if !phys {
        ClearKeep(mem, owner, tables, m, v);
        if e.perm.v && e.ppn in owner { KeepFree(free, owner, e.ppn, Held); }
        owner := if e.perm.v && e.ppn in owner then owner[e.ppn := Held] else owner;
        mem := SetWord(mem, w.page, I0(v), Empty);
        return true;
      }
      ok := FreeEntry(m, v, w.page);
    }

    // kfreepage(PTE2PA(*pte)); *pte = 0
    method FreeEntry(m: nat, v: nat, page: nat) returns (ok: bool)
      requires Ok() && m in mms && v < VPNS && LowOf(v) in tables[m] && tables[m][LowOf(v)] == page
      modifies `mem, `free, `owner
      ensures Ok() && Beside(old(mem), old(owner), tables, mem, owner, m)
      ensures ok <==> var e := Translate(old(mem), mms[m].pgt, v); e.Some? && e.value.ppn in old(owner)
      ensures ok ==> Cleared(old(mem), old(owner), mem, owner, mms[m].pgt, m, v, 1, Free)
    {
      hide Good, Accounted, FreeList, Around, Kept, I0, I1, I2, Translate, Cleared, Beside;
      SlotIs(mem, owner, tables, m, v);
      ClearNone(mem, owner, tables, m, v, Free);
      ghost var mem0, owner0 := mem, owner;
      var p := mem[page][I0(v)].ppn;
      ok := Kfreepage(p);
      if ok {
        ClearFree(mem0, owner0, tables, m, v, p, mem[p]);
        mem := SetWord(mem, page, I0(v), Empty);
      }
    }

    // The loop of freevma over the n pages from s; false: it panics.
    method FreeRange(m: nat, s: nat, n: nat, phys: bool) returns (ok: bool)
      requires Ok() && m in mms
      modifies `mem, `free, `owner, `tables
      ensures Ok() && tables == old(tables) && Beside(old(mem), old(owner), tables, mem, owner, m)
      ensures ok <==> Freeable(old(mem), old(owner), tables[m], phys, s, n)
      ensures ok ==> Cleared(old(mem), old(owner), mem, owner, mms[m].pgt, m, s, n, if phys then Free else Held)
    {
      hide Pages, World, Translate, Cleared, Beside, FreeableAt;
      ghost var mem0, owner0, root := mem, owner, mms[m].pgt;
      ghost var to := if phys then Free else Held;
      ClearNone(mem, owner, tables, m, s, to);
      var v := s;
      while v < s + n
        invariant Ok() && m in mms && mms == old(mms) && tables == old(tables) && s <= v <= s + n
        invariant Beside(mem0, owner0, tables, mem, owner, m) && Cleared(mem0, owner0, mem, owner, root, m, s, v - s, to)
        invariant Freeable(mem0, owner0, tables[m], phys, s, v - s)
      {
        FreeableStep(mem0, owner0, mem, owner, tables[m], phys, m, s, v - s, n, to);
        ghost var mem1, owner1 := mem, owner;
        ok := FreeOne(m, v, phys);
        BesideTrans(mem0, owner0, tables, mem1, owner1, mem, owner, m);
        if !ok { return; }
        ClearStep(mem0, owner0, mem1, owner1, mem, owner, root, m, s, v - s, to);
        v := v + 1;
      }
      return true;
    }

    // freevma
    method Freevma(m: nat, w: Vma, phys: bool) returns (r: Status)
      requires Ok() && m in mms
      modifies `mem, `free, `owner, `tables
      ensures Ok() && tables == old(tables) && Beside(old(mem), old(owner), tables, mem, owner, m)
      ensures r == Done <==> Aligned(w) && Freeable(old(mem), old(owner), tables[m], phys, First(w), Count(w))
      ensures r == Done ==> Cleared(old(mem), old(owner), mem, owner, mms[m].pgt, m, First(w), Count(w), if phys then Free else Held)
      ensures r == Done || r == Panic
      ensures r == Done && (forall v :: In(w, v) ==> !Covers(mms[m].vmas, v)) ==> (old(Lists()) ==> Lists())
    {
      hide World, Translate, Cleared, Freeable, Pages, Covers, AllListed, Around;
      ghost var mem0, owner0 := mem, owner;
      if !Aligned(w) {
        ClearNone(mem, owner, tables, m, 0, Free);
        return Panic;
      }
      var ok := FreeRange(m, First(w), Count(w), phys);
      if ok && forall v :: In(w, v) ==> !Covers(mms[m].vmas, v) {
        ClearLists(mem0, owner0, tables, mms, mem, owner, m, w, if phys then Free else Held);
      }
      r := if ok then Done else Panic;
    }

    // Every area on a list is mapped with its flags, and no two of them overlap.
    ghost predicate Lists()
      reads `mem, `mms
    {
      AllListed(mem, mms)
    }

    // mm_mappages
    method MmMappages(m: nat, w: Vma) returns (r: Status)
      requires Ok() && m in mms
      modifies this
      ensures Ok() && (old(Lists()) ==> Lists())
      ensures r == Panic <==> w.start > MAXVA || w.end > MAXVA || !Aligned(w) || !Leaf(w.flags)
      ensures m in tables && Grew(old(mem), old(owner), old(tables), mem, owner, tables, m)
      ensures r == Done ==>
        && Placed(old(mem), old(owner), mem, owner, mms[m].pgt, m, First(w), Count(w), w.flags)
        && mms == old(mms)[m := Mm(old(mms[m].pgt), [w] + old(mms[m].vmas))]
        && tables[m].Keys == old(tables[m]).Keys + NodesOf(First(w), Count(w))
      ensures r == Done && Real(mem, owner, mms[m].pgt, First(w), Count(w)) ==>
        |free| + |tables[m]| + Count(w) == |old(free)| + |old(tables[m])|
      ensures r == Failed ==> 
        mms == old(mms) && exists d: nat :: Stopped(old(mem), old(owner), old(tables[m]), |old(free)|, mem, owner, mms[m].pgt, m, w, d)
      ensures r != Panic ==>
        (r == Done <==> forall k: nat :: k < Count(w) ==> !Blocked(old(mem), old(tables[m]), |old(free)|, old(mms[m].pgt), First(w), k))
      ensures r != Panic ==>
        (r == Done && Real(mem, owner, mms[m].pgt, First(w), Count(w)) <==>
         RangeFree(old(mem), mms[m].pgt, First(w), Count(w)) && |old(free)| >= Need(old(tables[m]), First(w), Count(w)))
    {
      hide Pages, World, Translate, Placed, Grew, Real, RangeFree, NodesOf, Path, Leaf, Listed, AllListed, Need, Count, First, Blocked;
      RangeBegin(m, 0, w.flags);
      if w.start > MAXVA || w.end > MAXVA || !Aligned(w) || !Leaf(w.flags) { return Panic; }
      ghost var mem0, owner0, tables0, mms0, d, solid := mem, owner, tables, mms, 0, true;
      InUser(w);
      r, d, solid := MapRange(m, First(w), Count(w), w.flags);
      if r == Done {
        mms := mms[m := Mm(mms[m].pgt, [w] + mms[m].vmas)];
      } else {
        assert Stopped(mem0, owner0, tables0[m], |old(free)|, mem, owner, mms[m].pgt, m, w, d);
      }
      MapLists(mem0, owner0, tables0, mms0, mem, owner, tables, mms, m, w, d, r);
    }

    // The entry of v in table page, empty so far, gets the frame pa.
    method Enter(m: nat, v: nat, page: nat, pa: nat, flags: Perm)
      requires Ok() && m in mms && v < VPNS && Leaf(flags) && Spare(owner, pa)
      requires EmptySlot(mem, tables, m, v, page)
      modifies `mem, `owner
      ensures Ok() && Entered(old(mem), old(owner), tables, mem, owner, m, v, page, pa, flags, mms[m].pgt)
    {
      hide Good, Accounted, FreeList, Around, Changed, I0, I1, I2, Translate, Leaf;
      SlotIs(mem, owner, tables, m, v);
      ghost var owner' := if pa in owner then owner[pa := Data(m, v)] else owner;
      EnterWorld(mem, owner, tables, m, v, pa, flags, owner');
      if pa in owner { KeepFree(free, owner, pa, Data(m, v)); }
      mem := SetWord(mem, page, I0(v), MakePte(pa, flags));
      owner := owner';
    }

    // mm_mappagesat up to the list.
    method MapAt(m: nat, va: nat, pa: nat, flags: Perm) returns (r: Status)
      requires Ok() && m in mms && Leaf(flags) && Spare(owner, pa)
      modifies `mem, `free, `owner, `tables
      ensures Beside(old(mem), old(owner), old(tables), mem, owner, m)
      ensures r == Panic <==> va > MAXVA
      ensures r == Done <==>
        va <= MAXVA && Translate(old(mem), mms[m].pgt, va / PGSIZE).None? && |old(free)| >= |Path(va / PGSIZE) - old(tables[m]).Keys|
      ensures r == Failed && Translate(old(mem), old(mms[m].pgt), va / PGSIZE).None? ==> free == []
      ensures m in tables && tables == old(tables)[m := tables[m]] && (r == Done ==>
        tables[m].Keys == old(tables[m]).Keys + Path(va / PGSIZE) && |free| + |tables[m]| == |old(free)| + |old(tables[m])|)
      ensures r == Done ==> Changed(old(mem), mem, mms[m].pgt, va / PGSIZE, Some(MakePte(pa, flags)))
      ensures r != Done ==> SameAll(old(mem), mem, old(tables))
      ensures EnteredOnly(old(mem), old(owner), mem, owner, if r == Done then Some(pa) else None, Data(m, va / PGSIZE))
      ensures Ok()
    {
      hide World, FreeList, Around, Walked, Grew, I0, I1, I2, Translate, Leaf, Kept, Changed, SameAll, Same, EnteredOnly, Beside, Path, LowOf, Entered;
      ghost var mem0, owner0, tables0, free0, v := mem, owner, tables, free, va / PGSIZE;
      var w := Walk(m, va, true);
      ghost var mem1, owner1 := mem, owner;
      WalkedIs(mem0, owner0, tables0, free0, mem, owner, tables, free, m, v, pa);
      if w.BadAddress? { return Panic; }
      if w.NoTable? { return Failed; }
      SlotIs(mem, owner, tables, m, v);
      if mem[w.page][I0(va / PGSIZE)].perm.v { return Failed; }
      Enter(m, va / PGSIZE, w.page, pa, flags);
      EnterAfter(mem0, owner0, tables0, mem1, owner1, tables, mem, owner, m, v, pa, flags, w.page, mms[m].pgt);
      r := Done;
    }

    // mm_mappagesat: one page, on the frame pa that no one else has; NULL is Failed.
    method MmMappagesat(m: nat, va: nat, pa: nat, flags: Perm, add: bool) returns (r: Status)
      requires Ok() && m in mms && Leaf(flags) && Spare(owner, pa)
      modifies this
      ensures Ok() && (old(Lists()) ==> (add && r == Done && (va == MAXVA || va % PGSIZE != 0)) || Lists())
      ensures r == Panic <==> va > MAXVA
      ensures r == Done <==>
        va <= MAXVA && Translate(old(mem), old(mms[m].pgt), va / PGSIZE).None? && |old(free)| >= |Path(va / PGSIZE) - old(tables[m]).Keys|
      ensures r == Failed && Translate(old(mem), old(mms[m].pgt), va / PGSIZE).None? ==> free == []
      ensures m in tables && tables == old(tables)[m := tables[m]] && (r == Done ==>
        tables[m].Keys == old(tables[m]).Keys + Path(va / PGSIZE) && |free| + |tables[m]| == |old(free)| + |old(tables[m])|)
      ensures r == Done ==> Changed(old(mem), mem, old(mms[m].pgt), va / PGSIZE, Some(MakePte(pa, flags)))
      ensures r != Done ==> SameAll(old(mem), mem, old(tables))
      ensures Beside(old(mem), old(owner), old(tables), mem, owner, m)
      ensures EnteredOnly(old(mem), old(owner), mem, owner, if r == Done then Some(pa) else None, Data(m, va / PGSIZE))
      ensures mms == if r == Done && add then old(mms)[m := Mm(old(mms[m].pgt), [Vma(va, va + PGSIZE, flags)] + old(mms[m].vmas))] else old(mms)
    {
      hide Pages, World, Translate, Leaf, Changed, SameAll, AllListed, EnteredOnly, Beside, Path;
      ghost var mem0, owner0, tables0, mms0 := mem, owner, tables, mms;
      r := MapAt(m, va, pa, flags);
      if r != Done {
        ListsSame(mem0, mem, tables0, mms);
        return;
      }
      if add {
        RootedList(tables, mms, m, [Vma(va, va + PGSIZE, flags)] + mms[m].vmas);
        mms := mms[m := Mm(mms[m].pgt, [Vma(va, va + PGSIZE, flags)] + mms[m].vmas)];
      }
      EnterLists(mem0, owner0, tables0, mms0, mem, owner, m, va, pa, flags, add);
    }

    // mm_free_pages
    method MmFreePages(m: nat) returns (r: Status)
      requires Ok() && m in mms
      modifies this
      ensures Ok() && tables == old(tables) && Beside(old(mem), old(owner), tables, mem, owner, m)
      ensures r == Done || r == Panic
      ensures old(Listed(mem, mms[m])) ==> (r == Done <==> old(RealList(mem, owner, mms[m].pgt, mms[m].vmas)))
      ensures r == Done ==>
        && mms == old(mms)[m := Mm(old(mms[m].pgt), [])]
        && ClearedList(old(mem), old(owner), mem, owner, mms[m].pgt, m, old(mms[m].vmas))
        && (old(Lists()) ==> Lists())
      ensures r == Panic ==> mms == old(mms)
    {
      hide Pages, World, Translate, Cleared, ClearedList, Beside, Freeable, Listed, AllListed, RealList;
      ghost var mem0, owner0, mm, root := mem, owner, mms[m], mms[m].pgt;
      var vmas, i := mms[m].vmas, 0;
      ListStart(mem0, owner0, tables, m, root, vmas);
      while i < |vmas|
        invariant Ok() && m in mms && mms == old(mms) && tables == old(tables) && i <= |vmas|
        invariant Beside(mem0, owner0, tables, mem, owner, m) && ClearedList(mem0, owner0, mem, owner, root, m, vmas[..i])
        invariant Listed(mem0, mm) ==> RealList(mem0, owner0, root, vmas[..i])
      {
        ghost var mem1, owner1 := mem, owner;
        ListNext(mem0, owner0, mem1, owner1, tables, m, mm, i);
        r := Freevma(m, vmas[i], true);
        BesideTrans(mem0, owner0, tables, mem1, owner1, mem, owner, m);
        if r != Done { return; }
        ListCleared(mem0, owner0, mem1, owner1, mem, owner, root, m, vmas, i);
        i := i + 1;
      }
      assert vmas[..i] == vmas;
      mms := mms[m := Mm(mms[m].pgt, [])];
      ListsFreed(mem0, owner0, tables, old(mms), mem, owner, m);
      r := Done;
    }

    // mm_create, for an mm structure m the object allocator just returned.
    method MmCreate(m: nat) returns (r: Status)
      requires Ok() && m !in mms
      modifies this
      ensures Ok() && (old(Lists()) ==> Lists())
      ensures r == if old(free) == [] then Failed else Done
      ensures r == Failed ==> mms == old(mms) && tables == old(tables) && mem == old(mem) && owner == old(owner)
      ensures r == Done ==>
        && mms == old(mms)[m := Mm(old(free)[0], [])] && free == old(free)[1..]
        && Beside(old(mem), old(owner), old(tables), mem, owner, m) && m in tables && tables == old(tables)[m := tables[m]] && tables[m].Keys == {Root}
        && forall v: nat :: Translate(mem, mms[m].pgt, v).None?
    {
      hide World, Translate, Beside, Around, FreeList, AllListed, Listed, SameAll, ZeroPage, Same;
      ghost var mem0, owner0 := mem, owner;
      var p := Kallocpage(m);
      if p == NOPAGE {
        ListsSame(mem0, mem, tables, mms);
        return Failed;
      }
      ghost var mem1, owner1 := mem, owner;
      CreateWorld(mem, owner, tables, m, p);
      KeepFree(free, owner, p, Table(m, Root));
      BesideAll(mem0, owner0, tables, mem1, owner1, m);
      mem := mem[p := ZeroPage()];
      owner := owner[p := Table(m, Root)];
      ghost var t: Tables := map[Root := p];
      BesideTrans(mem0, owner0, tables, mem1, owner1, mem, owner, m);
      CreateLists(mem0, owner0, tables, mms, mem, owner, m, p);
      RootedAdd(tables, mms, m, p);
      hide Rooted;
      tables := tables[m := t];
      mms := mms[m := Mm(p, [])];
      r := Done;
    }

    // mm_free: the root goes back to the free list, the tables below it do not.
    method MmFree(m: nat) returns (r: Status)
      requires Ok() && m in mms
      modifies this
      ensures r == Done || r == Panic
      ensures r == Done ==>
        && Ok() && (old(Lists()) ==> Lists())
        && mms == old(mms) - {m} && tables == old(tables) - {m}
        && Beside(old(mem), old(owner), old(tables), mem, owner, m)
        && forall p :: p in old(owner) ==> owner[p] == FreedAs(old(owner)[p], m, old(mms[m].vmas))
      ensures old(Listed(mem, mms[m])) ==> (r == Done <==> old(RealList(mem, owner, mms[m].pgt, mms[m].vmas)))
    {
      hide Ok, Translate, Beside, AllListed, Listed, ClearedList, RealList, FreedAs, OrphanAll;
      ghost var mem0, owner0, tables0, vmas := mem, owner, tables, mms[m].vmas;
      r := MmFreePages(m);
      if r != Done { return; }
      ghost var mem1, owner1 := mem, owner;
      FreedTwice(mem0, owner0, mem1, owner1, mms[m].pgt, m, vmas);
      DropRoot(m);
      BesideTrans(mem0, owner0, tables0, mem1, owner1, mem, owner, m);
    }

    // kfreepage(KVA_TO_PA(mm->pgt)) and kfree(mm)
    method DropRoot(m: nat)
      requires Ok() && m in mms
      modifies this
      ensures Ok() && (old(Lists()) ==> Lists())
      ensures mms == old(mms) - {m} && tables == old(tables) - {m} && owner == OrphanAll(old(owner), m)
      ensures Beside(old(mem), old(owner), old(tables), mem, owner, m)
    {
      hide World, Translate, Beside, FreeList, AllListed, OrphanAll;
      ghost var mem1, owner1, free1, root := mem, owner, free, mms[m].pgt;
      assert Rooted(tables, mms);
      RootOnly(mem, owner, tables, m);
      RootedDrop(tables, mms, m);
      hide Rooted;
      var ok := Kfreepage(mms[m].pgt);
      DropWorld(mem1, owner1, tables, m, mem[root]);
      DropFree(free1, owner1, m, root);
      DropLists(mem1, owner1, tables, mms, mem, OrphanAll(owner1, m), m);
      owner := OrphanAll(owner1, m);
      tables := tables - {m};
      mms := mms - {m};
    }

    // The page fault case of usertrap (os/trap.c:119-134): A, and D for a store, are set
    // in the entry; Failed is a process that is killed.
    method PageFault(m: nat, va: nat, store: bool) returns (r: Status)
      requires Ok() && m in mms
      modifies `mem, `free, `owner, `tables
      ensures Ok() && free == old(free) && owner == old(owner) && tables == old(tables) && (old(Lists()) ==> Lists())
      ensures r == Panic <==> va > MAXVA
      ensures r == Done <==> va <= MAXVA && Translate(old(mem), mms[m].pgt, va / PGSIZE).Some?
      ensures r == Done ==> var e := Translate(old(mem), mms[m].pgt, va / PGSIZE).value;
        && Changed(old(mem), mem, mms[m].pgt, va / PGSIZE, Some(e.(perm := e.perm.(a := true, d := e.perm.d || store))))
        && Beside(old(mem), owner, tables, mem, owner, m)
      ensures r != Done ==> mem == old(mem)
    {
      hide World, FreeList, Translate, Walked, I0, I1, I2, Changed, Beside, AllListed;
      var w := Walk(m, va, false);
      if w.BadAddress? { return Panic; }
      if w.NoTable? {
        NoSlot(mem, owner, tables, m, va / PGSIZE);
        return Failed;
      }
      SlotIs(mem, owner, tables, m, va / PGSIZE);
      var e := mem[w.page][I0(va / PGSIZE)];
      if !e.perm.v { return Failed; }
      var e' := e.(perm := e.perm.(a := true, d := e.perm.d || store));
      ReflagWorld(mem, owner, tables, m, va / PGSIZE, e');
      ghost var mem0 := mem;
      mem := SetWord(mem, w.page, I0(va / PGSIZE), e');
      ReflagLists(mem0, mem, owner, tables, mms, m, va / PGSIZE, e, e');
      r := Done;
    }

    // A user page gets new contents, as by memset through the kernel's direct mapping.
    method Overwrite(p: nat, page: Page)
      requires Ok() && p in owner && owner[p].Data?
      modifies `mem
      ensures Ok() && (old(Lists()) ==> Lists()) && SameAll(old(mem), mem, tables) && mem == old(mem)[p := page]
      ensures Around(old(mem), owner, mem, owner, owner[p].m)
    {
      hide World, Translate, SameAll, AllListed, Around;
      StoreWorld(mem, owner, tables, p, page);
      ListsSame(mem, mem[p := page], tables, mms);
      mem := mem[p := page];
    }

    // walkaddr: the frame, 0 when there is no user page, None for its panics.
    method Walkaddr(m: nat, va: nat) returns (r: Option<nat>)
      requires Ok() && m in mms
      modifies `mem, `free, `owner, `tables
      ensures Ok() && mem == old(mem) && free == old(free) && owner == old(owner) && tables == old(tables)
      ensures r.None? <==> va > MAXVA || va % PGSIZE != 0
      ensures r.Some? ==> r.value == UserPage(mem, mms[m].pgt, va / PGSIZE)
    {
      hide Good, Accounted, FreeList, I0, I1, I2, Translate, Walked;
      if va > MAXVA || va % PGSIZE != 0 { return None; }
      var w := Walk(m, va, false);
      if !w.Slot? {
        NoSlot(mem, owner, tables, m, va / PGSIZE);
        return Some(0);
      }
      SlotIs(mem, owner, tables, m, va / PGSIZE);
      var e := mem[w.page][I0(va / PGSIZE)];
      if !e.perm.v || !e.perm.u { return Some(0); }
      return Some(e.ppn);
    }

    // useraddr: the physical address of byte va, 0 when there is no user page.
    method Useraddr(m: nat, va: nat) returns (r: Option<nat>)
      requires Ok() && m in mms
      modifies `mem, `free, `owner, `tables
      ensures Ok() && mem == old(mem) && free == old(free) && owner == old(owner) && tables == old(tables)
      ensures r.None? <==> va / PGSIZE * PGSIZE > MAXVA
      ensures r.Some? ==> var p := UserPage(mem, mms[m].pgt, va / PGSIZE); r.value == if p == 0 then 0 else p * PGSIZE + va % PGSIZE
    {
      hide Pages, World, Translate;
      var page := Walkaddr(m, va / PGSIZE * PGSIZE);
      if page.None? || page.value == 0 { return page; }
      r := Some(page.value * PGSIZE + va % PGSIZE);
    }

    // One page of mm_copy's inner loop; false is the fault on an address of no page.
    method CopyOne(a: nat, b: nat, v: nat) returns (ok: bool)
      requires Ok() && a in mms && b in mms && a != b && v * PGSIZE <= MAXVA
      modifies `mem, `free, `owner, `tables
      ensures Ok() && owner == old(owner) && tables == old(tables) && free == old(free)
      ensures SameAll(old(mem), mem, tables) && Around(old(mem), owner, mem, owner, b)
      ensures ok <==> HasPage(old(mem), owner, mms[a].pgt, v) && HasPage(old(mem), owner, mms[b].pgt, v)
      ensures ok ==> var src, dst := UserPage(old(mem), mms[a].pgt, v), UserPage(old(mem), mms[b].pgt, v);
        src in old(mem) && dst in old(mem) && mem == old(mem)[dst := old(mem)[src]]
    {
      hide World, FreeList, SameAll, Around, UserPage;
      SameRefl(mem, owner, tables, b);
      assert v * PGSIZE / PGSIZE == v;
      var pa_old := Walkaddr(a, v * PGSIZE);
      var pa_new := Walkaddr(b, v * PGSIZE);
      var src, dst := pa_old.value, pa_new.value;
      if !(lo <= src < hi && lo <= dst < hi) { return false; }
      PageOwner(mem, owner, tables, b, v);
      StoreWorld(mem, owner, tables, dst, mem[src]) by { assert dst in owner; }
      mem := mem[dst := mem[src]];
      return true;
    }

    // mm_copy's inner loop over the n pages from s.
    method CopyRange(a: nat, b: nat, s: nat, n: nat) returns (ok: bool)
      requires Ok() && a in mms && b in mms && a != b && (s + n) * PGSIZE <= MAXVA
      modifies `mem, `free, `owner, `tables
      ensures Ok() && owner == old(owner) && tables == old(tables) && free == old(free)
      ensures SameAll(old(mem), mem, tables) && Around(old(mem), owner, mem, owner, b)
      ensures ok <==> HasPages(old(mem), owner, mms[a].pgt, s, n) && HasPages(old(mem), owner, mms[b].pgt, s, n)
      ensures ok ==> Copied(old(mem), mem, owner, mms[a].pgt, mms[b].pgt, b, s, n)
    {
      hide Pages, World, SameAll, Around, Copied, HasPage, UserPage;
      ghost var mem0, src, dst := mem, mms[a].pgt, mms[b].pgt;
      CopyStart(mem, owner, tables, src, dst, b, s);
      var v := s;
      while v < s + n
        invariant Ok() && a in mms && b in mms && mms == old(mms) && s <= v <= s + n
        invariant owner == old(owner) && tables == old(tables) && free == old(free)
        invariant SameAll(mem0, mem, tables) && Around(mem0, owner, mem, owner, b)
        invariant Copied(mem0, mem, owner, src, dst, b, s, v - s)
        invariant HasPages(mem0, owner, src, s, v - s) && HasPages(mem0, owner, dst, s, v - s)
      {
        ghost var mem1 := mem;
        SameHas(mem0, mem1, owner, tables, a, v);
        SameHas(mem0, mem1, owner, tables, b, v);
        ok := CopyOne(a, b, v);
        SameAllTrans(mem0, mem1, mem, tables);
        AroundTrans(mem0, owner, mem1, owner, mem, owner, b);
        if !ok { return; }
        NoZero();
        CopyNext(mem0, mem1, mem, owner, tables, a, b, src, dst, s, v - s);
        v := v + 1;
      }
      ok := true;
    }

    lemma NoZero()
      requires Ok()
      ensures 0 !in owner && NOPAGE !in owner
    {
    }

    // One round of mm_copy's outer loop, for area i of a; mid is the memory after mm_mappages.
    method CopyArea(a: nat, b: nat, i: nat) returns (r: Status, ghost mid: Memory)
      requires Ok() && Lists() && a in mms && b in mms && a != b && i < |mms[a].vmas|
      modifies this
      ensures r != Panic ==> Ok() && Lists() && b in tables && Grew(old(mem), old(owner), old(tables), mem, owner, tables, b)
      ensures r == Failed ==>
        && mms == old(mms)
        && exists d: nat :: Stopped(old(mem), old(owner), old(tables[b]), |old(free)|, mem, owner, old(mms[b].pgt), b, old(mms[a].vmas[i]), d)
      ensures var w, src, dst := old(mms[a].vmas[i]), old(mms[a].pgt), old(mms[b].pgt);
        && (r == Done <==>
            && RangeFree(old(mem), dst, First(w), Count(w)) && |old(free)| >= Need(old(tables[b]), First(w), Count(w))
            && HasPages(old(mem), old(owner), src, First(w), Count(w)))
        && (r == Done ==>
            && mms == old(mms)[b := Mm(dst, [w] + old(mms[b].vmas))]
            && Copying(old(mem), old(owner), mid, mem, owner, src, dst, b, w)
            && tables[b].Keys == old(tables[b]).Keys + NodesOf(First(w), Count(w))
            && |free| + |tables[b]| + Count(w) == |old(free)| + |old(tables[b])|)
    {
      hide Pages, World, AllListed, Listed, Translate, Grew, Placed, Real, RangeFree, HasPages, SameAll, Copied, First, Count, Around, Need, NodesOf, Copying;
      ghost var mem1, owner1, tables1, src, dst, mm := mem, owner, tables, mms[a].pgt, mms[b].pgt, mms[a];
      var w := mms[a].vmas[i];
      AreaListed(mem, mms, a, i);
      r := MmMappages(b, w);
      mid := mem;
      ghost var owner2, tables2 := owner, tables;
      if r == Failed { return; }
      GrewSame(mem1, owner1, tables1, mem, owner, tables, a, b);
      NoZero();
      PagesMatch(mem1, owner1, mem1, owner1, mem, owner, mm, dst, b, i);
      var ok := CopyRange(a, b, First(w), Count(w));
      if !ok { return Panic, mid; }
      ListsSame(mid, mem, tables, mms);
      CopyGrew(mem1, owner1, tables1, mid, mem, owner, tables, a, b, src, dst, w);
      r := Done;
    }

    lemma CopyBegin(a: nat, b: nat)
      requires Ok() && Lists() && a in mms && b in mms
      ensures a in tables && b in tables && Root in tables[a] && tables[a][Root] == mms[a].pgt && World(mem, owner, tables)
      ensures Root in tables[b] && tables[b][Root] == mms[b].pgt
      ensures 0 !in owner && NOPAGE !in owner && Listed(mem, mms[a]) && Reverse(mms[a].vmas[..0]) == []
      ensures Progress(mem, owner, tables, |free|, mem, owner, tables, |free|, mms[a].pgt, mms[b].pgt, b, mms[a].vmas[..0])
    {
      NoZero();
      CopyListStart(mem, owner, tables, free, a, b, mms[a], mms[b].pgt);
      AllListedAt(mem, mms, a);
      assert Good(mem, owner, a, tables[a]);
    }

    // The error exit of mm_copy in area i; s0 is what the call found, s1 what the round began with.
    method Abandon(b: nat, ghost s0: Snapshot, ghost s1: Snapshot, ghost src: nat, ghost vmas: seq<Vma>, ghost own: seq<Vma>, ghost i: nat) returns (r: Status)
      requires Ok() && Lists() && b in mms && i < |vmas| && mms[b].vmas == Reverse(vmas[..i]) + own
      requires World(s0.mem, s0.owner, s0.tables) && b in s0.tables && b in s1.tables && Root in s0.tables[b] && s0.tables[b][Root] == mms[b].pgt
      requires Progress(s0.mem, s0.owner, s0.tables, s0.pages, s1.mem, s1.owner, s1.tables, s1.pages, src, mms[b].pgt, b, vmas[..i])
      requires Grew(s1.mem, s1.owner, s1.tables, mem, owner, tables, b)
      requires exists d: nat :: Stopped(s1.mem, s1.owner, s1.tables[b], s1.pages, mem, owner, mms[b].pgt, b, vmas[i], d)
      modifies this
      ensures r != Done
      ensures r == Failed ==>
        && Ok() && Lists() && mms == old(mms)[b := Mm(old(mms[b].pgt), [])] && Beside(s0.mem, s0.owner, s0.tables, mem, owner, b)
        && exists j: nat, d: nat :: GaveUp(s0.mem, s0.owner, mem, owner, old(mms[b].pgt), b, vmas, own, j, d)
    {
      hide Lists, Beside, ClearedList, Listed, RealList, World, Pages, Rooted, Progress, Grew, Stopped, GaveUp, Reverse;
      ghost var mem2, owner2, tables2, dst := mem, owner, tables, mms[b].pgt;
      var freed := MmFreePages(b);
      if freed != Done { return Panic; }
      ProgressBeside(s0.mem, s0.owner, s0.tables, s0.pages, s1.mem, s1.owner, s1.tables, s1.pages, mem2, owner2, tables2, mem, owner, src, dst, b, vmas[..i]);
      ProgressLeft(s0.mem, s0.owner, s0.tables, s0.pages, s1.mem, s1.owner, s1.tables, s1.pages, mem2, owner2, tables2, mem, owner, src, dst, b, vmas, own, i,
                   s1.tables[b], s1.pages);
      r := Failed;
    }

    // Where mm_copy stands after i areas; s0 and mms0 are what the call found.
    ghost predicate CopyState(s0: Snapshot, mms0: map<nat, Mm>, a: nat, b: nat, i: nat)
      reads this
    {
      && World(s0.mem, s0.owner, s0.tables) && 0 !in s0.owner && NOPAGE !in s0.owner
      && a != b && a in mms0 && b in mms0 && a in s0.tables && b in s0.tables && b in tables
      && Root in s0.tables[a] && s0.tables[a][Root] == mms0[a].pgt && Root in s0.tables[b] && s0.tables[b][Root] == mms0[b].pgt
      && Listed(s0.mem, mms0[a]) && i <= |mms0[a].vmas|
      && mms == mms0[b := Mm(mms0[b].pgt, Reverse(mms0[a].vmas[..i]) + mms0[b].vmas)]
      && Progress(s0.mem, s0.owner, s0.tables, s0.pages, mem, owner, tables, |free|, mms0[a].pgt, mms0[b].pgt, b, mms0[a].vmas[..i])
    }

    lemma CopyBegun(a: nat, b: nat)
      requires Ok() && Lists() && a in mms && b in mms && a != b
      ensures CopyState(Snapshot(mem, owner, tables, |free|), mms, a, b, 0)
    {
      hide Pages, World, Lists, Progress, Listed, Reverse;
      CopyBegin(a, b);
      assert [] + mms[b].vmas == mms[b].vmas;
    }

    // One round of mm_copy's outer loop, with what it means for the whole call.
    method CopyRound(a: nat, b: nat, i: nat, ghost s0: Snapshot, ghost mms0: map<nat, Mm>) returns (r: Status)
      requires Ok() && Lists() && CopyState(s0, mms0, a, b, i) && i < |mms0[a].vmas|
      modifies this
      ensures r == Done ==> Ok() && Lists() && CopyState(s0, mms0, a, b, i + 1)
      ensures r != Done ==> !Ready(s0.mem, s0.owner, s0.tables[b], s0.pages, mms0[a].pgt, mms0[b].pgt, mms0[a].vmas)
      ensures r == Failed ==>
        && Ok() && Lists() && Beside(s0.mem, s0.owner, s0.tables, mem, owner, b)
        && mms == mms0[b := Mm(mms0[b].pgt, [])]
        && exists j: nat, d: nat :: GaveUp(s0.mem, s0.owner, mem, owner, mms0[b].pgt, b, mms0[a].vmas, mms0[b].vmas, j, d)
    {
      hide Ok, Lists, Translate, Grew, ClonedList, Ready, RangeFree, HasPages, First, Count, Beside, Need, NodesOf, Copying, Reverse, Listed, Progress, World, GaveUp, Stopped;
      ghost var s1, mm, dst := Snapshot(mem, owner, tables, |free|), mms0[a], mms0[b].pgt;
      ghost var mid;
      r, mid := CopyArea(a, b, i);
      if r != Done {
        ProgressStuck(s0.mem, s0.owner, s0.tables, s0.pages, s1.mem, s1.owner, s1.tables, s1.pages, mm, dst, a, b, i);
        if r == Failed {
          ghost var mms2 := mms;
          r := Abandon(b, s0, s1, mm.pgt, mm.vmas, mms0[b].vmas, i);
          SetTwice(mms0, b, mms2[b], Mm(dst, []));
        }
        return;
      }
      ProgressNext(s0.mem, s0.owner, s0.tables, s0.pages, s1.mem, s1.owner, s1.tables, s1.pages, mid, mem, owner, tables, |free|, mm, dst, a, b, i);
      ReverseNext(mm.vmas, i, mms0[b].vmas);
      SetTwice(mms0, b, Mm(dst, Reverse(mm.vmas[..i]) + mms0[b].vmas), Mm(dst, Reverse(mm.vmas[..i + 1]) + mms0[b].vmas));
    }

    lemma CopyEnds(s0: Snapshot, mms0: map<nat, Mm>, a: nat, b: nat)
      requires a in mms0 && CopyState(s0, mms0, a, b, |mms0[a].vmas|)
      ensures Ready(s0.mem, s0.owner, s0.tables[b], s0.pages, mms0[a].pgt, mms0[b].pgt, mms0[a].vmas)
      ensures Beside(s0.mem, s0.owner, s0.tables, mem, owner, b)
      ensures mms == mms0[b := Mm(mms0[b].pgt, Reverse(mms0[a].vmas) + mms0[b].vmas)]
      ensures ClonedList(s0.mem, mem, owner, mms0[a].pgt, mms0[b].pgt, b, mms0[a].vmas)
    {
      hide World, Listed, Progress, Ready, Beside, ClonedList;
      var vmas := mms0[a].vmas;
      assert vmas[..|vmas|] == vmas;
      CopyListDone(s0.mem, s0.owner, s0.tables, s0.pages, mem, owner, tables, |free|, a, b, mms0[a].pgt, mms0[b].pgt, vmas);
    }

    // mm_copy from a to b.
    method MmCopy(a: nat, b: nat) returns (r: Status)
      requires Ok() && Lists() && a in mms && b in mms && a != b
      modifies this
      ensures r == Done <==> old(Ready(mem, owner, tables[b], |free|, mms[a].pgt, mms[b].pgt, mms[a].vmas))
      ensures r != Panic ==> Ok() && Lists() && Beside(old(mem), old(owner), old(tables), mem, owner, b)
      ensures r == Done ==>
        && mms == old(mms)[b := Mm(old(mms[b].pgt), Reverse(old(mms[a].vmas)) + old(mms[b].vmas))]
        && ClonedList(old(mem), mem, owner, old(mms[a].pgt), old(mms[b].pgt), b, old(mms[a].vmas))
      ensures r == Failed ==>
        && mms == old(mms)[b := Mm(old(mms[b].pgt), [])]
        && exists i: nat, d: nat :: GaveUp(old(mem), old(owner), mem, owner, old(mms[b].pgt), b, old(mms[a].vmas), old(mms[b].vmas), i, d)
    {
      hide Ok, Lists, ClonedList, Ready, Beside, Reverse, GaveUp, CopyState;
      ghost var s0, mms0 := Snapshot(mem, owner, tables, |free|), mms;
      CopyBegun(a, b);
      CopyKeeps(s0, mms0, a, b, 0);
      var vmas, i := mms[a].vmas, 0;
      while i < |vmas|
        invariant Ok() && Lists() && i <= |vmas| && CopyState(s0, mms0, a, b, i)
      {
        r := CopyRound(a, b, i, s0, mms0);
        if r != Done { return; }
        i := i + 1;
      }
      CopyEnds(s0, mms0, a, b);
      r := Done;
    }

    lemma CopyKeeps(s0: Snapshot, mms0: map<nat, Mm>, a: nat, b: nat, i: nat)
      requires CopyState(s0, mms0, a, b, i)
      ensures b in s0.tables
    {
    }
  }
}

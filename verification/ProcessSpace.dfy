/**
  The address space of a process through its life: the part of allocproc and freeproc that
  deals with memory (os/proc.c:92-114, 126-133).
*/
module ProcessSpace {
  import opened Sv39
  import opened UserPages
  import opened UserAreas
  import opened UserCopy
  import opened Vm

  const TRAMPOLINE: nat := MAXVA - PGSIZE
  const TRAPFRAME: nat := TRAMPOLINE - PGSIZE
  const TOP: nat := LASTPAGE - 1               // the page of the trampoline
  const CODE: Perm := NoPerm.(a := true, r := true, x := true)
  const FRAME: Perm := NoPerm.(a := true, d := true, r := true, w := true, x := true)

  // The trampoline and the trap frame are mapped, and nothing else is.
  ghost predicate OnlyFixed(mem: Memory, root: nat, trampoline: nat, tf: nat) {
    forall v: nat :: v < VPNS ==>
      Translate(mem, root, v) ==
        if v == TOP then Some(MakePte(trampoline, CODE)) else if v == TOP - 1 then Some(MakePte(tf, FRAME)) else None
  }

  // No user access reaches a page of such a space; the kernel runs the trampoline, which
  // cannot be written, and reads and writes the trap frame.
  ghost predicate KernelOnly(mem: Memory, root: nat, trampoline: nat, tf: nat) {
    var t, f := Translate(mem, root, TOP), Translate(mem, root, TOP - 1);
    && (forall v: nat :: v < VPNS ==> UserPage(mem, root, v) == 0)
    && t.Some? && t.value.ppn == trampoline && t.value.perm.v && t.value.perm.x && !t.value.perm.w && !t.value.perm.u
    && f.Some? && f.value.ppn == tf && f.value.perm.v && f.value.perm.r && f.value.perm.w && !f.value.perm.u
  }

  lemma FixedPages(mem: Memory, root: nat, trampoline: nat, tf: nat)
    requires OnlyFixed(mem, root, trampoline, tf)
    ensures KernelOnly(mem, root, trampoline, tf)
  {
    hide Translate;
  }

  // mm_create and the trampoline's page, if there are pages enough.
  method NewSpace(um: UserMemory, m: nat, trampoline: nat) returns (created: bool)
    requires um.Ok() && m !in um.mms && trampoline !in um.owner
    modifies um
    ensures created <==> old(um.free) != []
    ensures created ==>
      && um.Ok() && (old(um.Lists()) ==> um.Lists()) && m in um.mms && m in um.tables
      && um.mms == old(um.mms)[m := Mm(um.mms[m].pgt, [])]
      && |um.free| == (if |old(um.free)| >= 3 then |old(um.free)| - 3 else 0)
      && Beside(old(um.mem), old(um.owner), old(um.tables), um.mem, um.owner, m) && um.tables == old(um.tables)[m := um.tables[m]]
      && (um.free != [] ==> Path(TOP) <= um.tables[m].Keys && OnlyAt(um.mem, um.mms[m].pgt, TOP, MakePte(trampoline, CODE)))
  {
    hide World, Translate, Changed, SameAll, Beside, Around, EnteredOnly, AllListed, Path, FreeList, OnlyAt, Unmapped, Rooted, ZeroPage;
    ghost var mem0, owner0, tables0 := um.mem, um.owner, um.tables;
    FixedPath();
    var made := um.MmCreate(m);
    if made != Done { return false; }
    ghost var mem1, owner1, tables1, root := um.mem, um.owner, um.tables, um.mms[m].pgt;
    Nothing(mem1, root);
    var vma_trampoline := um.MmMappagesat(m, TRAMPOLINE, trampoline, CODE, false);
    BesideMore(mem0, owner0, tables0, mem1, owner1, tables1, um.mem, um.owner, m);
    if vma_trampoline == Done { AtFirst(mem1, um.mem, root, TOP, MakePte(trampoline, CODE)); }
    created := true;
  }

  // memset((void *)p->trapframe, 0, PGSIZE)
  method Ready(um: UserMemory, m: nat, tf: nat)
    requires um.Ok() && m in um.mms && tf in um.owner && um.owner[tf] == Data(m, TOP - 1)
    modifies um`mem
    ensures um.Ok() && (old(um.Lists()) ==> um.Lists()) && um.mem == old(um.mem)[tf := ZeroPage()]
    ensures Beside(old(um.mem), um.owner, um.tables, um.mem, um.owner, m)
    ensures m in um.tables && Same(old(um.mem), um.mem, um.mms[m].pgt)
  {
    hide World, Translate, Changed, SameAll, Beside, Around, AllListed, FreeList, ZeroPage;
    ghost var mem0 := um.mem;
    um.Overwrite(tf, ZeroPage());
    BesideAll(mem0, um.owner, um.tables, um.mem, um.owner, m);
    AllSameAt(mem0, um.mem, um.tables, m);
  }

  lemma AllSameAt(mem: Memory, mem': Memory, tables: map<nat, Tables>, m: nat)
    requires SameAll(mem, mem', tables) && m in tables
    ensures Root in tables[m] && Same(mem, mem', tables[m][Root])
  {
  }

  // A page for the trap frame, mapped.
  method MapFrame(um: UserMemory, m: nat) returns (tf: nat)
    requires um.Ok() && m in um.mms && m in um.tables
    requires um.free != [] ==> Path(TOP - 1) <= um.tables[m].Keys && Translate(um.mem, um.mms[m].pgt, TOP - 1).None?
    modifies um
    ensures um.Ok() && (old(um.Lists()) ==> um.Lists()) && um.mms == old(um.mms) && m in um.tables
    ensures old(um.free) == [] ==> tf == NOPAGE
    ensures Beside(old(um.mem), old(um.owner), old(um.tables), um.mem, um.owner, m) && um.tables == old(um.tables)[m := um.tables[m]]
    ensures old(um.free) != [] ==>
      && |um.free| + 1 == |old(um.free)| && tf in um.owner && um.owner[tf] == Data(m, TOP - 1)
      && Changed(old(um.mem), um.mem, um.mms[m].pgt, TOP - 1, Some(MakePte(tf, FRAME)))
  {
    hide World, Translate, Changed, SameAll, Beside, Around, AllListed, Path, FreeList, Same, EnteredOnly;
    ghost var mem0, owner0, tables0, free0, root := um.mem, um.owner, um.tables, um.free, um.mms[m].pgt;
    FixedPath();
    tf := um.Kallocpage(m);
    ghost var mem1, owner1 := um.mem, um.owner;
    ListsSame(mem0, mem1, tables0, um.mms);
    BesideAll(mem0, owner0, tables0, mem1, owner1, m);
    SameOf(mem0, mem1, tables0, m, TOP - 1);
    AllSameAt(mem0, mem1, tables0, m);
    if free0 != [] { NoneMissing(Path(TOP - 1), tables0[m].Keys); }
    var vma_trapframe := um.MmMappagesat(m, TRAPFRAME, tf, FRAME, false);
    BesideMore(mem0, owner0, tables0, mem1, owner1, tables0, um.mem, um.owner, m);
    if free0 != [] {
      SameChanged(mem0, mem1, um.mem, root, TOP - 1, Some(MakePte(tf, FRAME)));
      WasHeld(mem1, owner1, um.mem, um.owner, tf, Data(m, TOP - 1));
    }
  }

  lemma NoneMissing(a: set<Node>, b: set<Node>)
    requires a <= b
    ensures |a - b| == 0 && b + a == b
  {
    assert a - b == {};
  }

  lemma WasHeld(mem: Memory, owner: map<nat, Owner>, mem': Memory, owner': map<nat, Owner>, p: nat, data: Owner)
    requires EnteredOnly(mem, owner, mem', owner', Some(p), data) && p in owner && owner[p] == Held
    ensures p in owner' && owner'[p] == data
  {
  }

  lemma SameChanged(mem0: Memory, mem1: Memory, mem2: Memory, root: nat, v: nat, now: Option<Pte>)
    requires Same(mem0, mem1, root) && Changed(mem1, mem2, root, v, now)
    ensures Changed(mem0, mem2, root, v, now)
  {
    hide Translate;
  }

  lemma ChangedSame(mem0: Memory, mem1: Memory, mem2: Memory, root: nat, v: nat, now: Option<Pte>)
    requires Changed(mem0, mem1, root, v, now) && Same(mem1, mem2, root)
    ensures Changed(mem0, mem2, root, v, now)
  {
    hide Translate;
  }

  // The page for the trap frame, mapped and cleared.
  method NewFrame(um: UserMemory, m: nat) returns (r: Status, tf: nat)
    requires um.Ok() && m in um.mms && m in um.tables
    requires um.free != [] ==> Path(TOP - 1) <= um.tables[m].Keys && Translate(um.mem, um.mms[m].pgt, TOP - 1).None?
    modifies um
    ensures r == if old(um.free) != [] then Done else Panic
    ensures um.Ok() && (old(um.Lists()) ==> um.Lists()) && um.mms == old(um.mms)
    ensures Beside(old(um.mem), old(um.owner), old(um.tables), um.mem, um.owner, m)
    ensures r == Done ==>
      && |um.free| + 1 == |old(um.free)| && tf in um.mem && um.mem[tf] == ZeroPage()
      && tf in um.owner && um.owner[tf] == Data(m, TOP - 1)
      && Changed(old(um.mem), um.mem, um.mms[m].pgt, TOP - 1, Some(MakePte(tf, FRAME)))
  {
    hide World, Translate, Changed, SameAll, Beside, Around, AllListed, Path, FreeList, ZeroPage, Same;
    ghost var mem0, owner0, tables0 := um.mem, um.owner, um.tables;
    tf := MapFrame(um, m);
    if !(um.lo <= tf < um.hi) { return Panic, tf; }
    ghost var mem1, owner1, tables1 := um.mem, um.owner, um.tables;
    Ready(um, m, tf);
    BesideMore(mem0, owner0, tables0, mem1, owner1, tables1, um.mem, um.owner, m);
    ChangedSame(mem0, mem1, um.mem, um.mms[m].pgt, TOP - 1, Some(MakePte(tf, FRAME)));
    r := Done;
  }

  // The memory part of allocproc, for an mm structure m. Its test of the page for the trap
  // frame never fails; without a page, clearing the trap frame faults, which is Panic.
  method AllocSpace(um: UserMemory, m: nat, trampoline: nat) returns (r: Status, tf: nat)
    requires um.Ok() && m !in um.mms && trampoline !in um.owner
    modifies um
    ensures r == if |old(um.free)| >= 4 then Done else Panic
    ensures r == Done ==>
      && um.Ok() && (old(um.Lists()) ==> um.Lists()) && m in um.mms
      && um.mms == old(um.mms)[m := Mm(um.mms[m].pgt, [])] && |um.free| + 4 == |old(um.free)|
      && OnlyFixed(um.mem, um.mms[m].pgt, trampoline, tf) && KernelOnly(um.mem, um.mms[m].pgt, trampoline, tf)
      && tf in um.mem && um.mem[tf] == ZeroPage()
      && tf in um.owner && um.owner[tf] == Data(m, TOP - 1)
      && Beside(old(um.mem), old(um.owner), old(um.tables), um.mem, um.owner, m)
  {
    hide World, Translate, Changed, SameAll, Beside, Around, AllListed, Path, FreeList, ZeroPage, Same, OnlyAt, OnlyFixed, KernelOnly;
    ghost var mem0, owner0, tables0 := um.mem, um.owner, um.tables;
    FixedPath();
    var created := NewSpace(um, m, trampoline);
    if !created { return Panic, 0; }
    ghost var mem1, owner1, tables1, root := um.mem, um.owner, um.tables, um.mms[m].pgt;
    if um.free != [] { NotThere(mem1, root, TOP, MakePte(trampoline, CODE)); }
    r, tf := NewFrame(um, m);
    if r == Done {
      BesideMore(mem0, owner0, tables0, mem1, owner1, tables1, um.mem, um.owner, m);
      BothFixed(mem1, um.mem, root, trampoline, tf);
      FixedPages(um.mem, root, trampoline, tf);
    }
  }

  lemma NotThere(mem: Memory, root: nat, v: nat, e: Pte)
    requires 0 < v < VPNS && OnlyAt(mem, root, v, e)
    ensures Translate(mem, root, v - 1).None?
  {
    hide Translate;
  }

  lemma BothFixed(mem1: Memory, mem: Memory, root: nat, trampoline: nat, tf: nat)
    requires OnlyAt(mem1, root, TOP, MakePte(trampoline, CODE)) && Changed(mem1, mem, root, TOP - 1, Some(MakePte(tf, FRAME)))
    ensures OnlyFixed(mem, root, trampoline, tf)
  {
    hide Translate;
  }

  ghost predicate Unmapped(mem: Memory, root: nat) { forall v: nat :: Translate(mem, root, v).None? }

  ghost predicate OnlyAt(mem: Memory, root: nat, v: nat, e: Pte) {
    forall u: nat :: u < VPNS ==> Translate(mem, root, u) == if u == v then Some(e) else None
  }

  lemma Nothing(mem: Memory, root: nat)
    requires forall v: nat :: Translate(mem, root, v).None?
    ensures Unmapped(mem, root) && Translate(mem, root, TOP).None?
  {
    hide Translate;
  }

  lemma AtFirst(mem0: Memory, mem: Memory, root: nat, v: nat, e: Pte)
    requires Unmapped(mem0, root) && Changed(mem0, mem, root, v, Some(e))
    ensures OnlyAt(mem, root, v, e)
  {
    hide Translate;
  }

  lemma BesideMore(mem0: Memory, owner0: map<nat, Owner>, tables0: map<nat, Tables>, mem1: Memory, owner1: map<nat, Owner>, tables1: map<nat, Tables>,
                   mem2: Memory, owner2: map<nat, Owner>, m: nat)
    requires Beside(mem0, owner0, tables0, mem1, owner1, m) && Beside(mem1, owner1, tables1, mem2, owner2, m)
    requires forall k :: k in tables0 && k != m ==> k in tables1 && tables1[k] == tables0[k]
    ensures Beside(mem0, owner0, tables0, mem2, owner2, m)
  {
    hide Same, Around;
    AroundTrans(mem0, owner0, mem1, owner1, mem2, owner2, m);
    forall k | k in tables0 && k != m ensures Root in tables0[k] && Same(mem0, mem2, tables0[k][Root]) {
      SameTrans(mem0, mem1, mem2, tables0[k][Root]);
    }
  }

  // Both fixed pages hang off the same two tables.
  lemma FixedPath()
    ensures TRAMPOLINE / PGSIZE == TOP && TRAPFRAME / PGSIZE == TOP - 1 && Path(TOP - 1) == Path(TOP)
    ensures |Path(TOP) - {Root}| == 2 && |Path(TOP) + {Root}| == 3
  {
    assert I2(TOP) == I2(TOP - 1) && I1(TOP) == I1(TOP - 1);
    assert Path(TOP) - {Root} == {Mid(I2(TOP)), LowOf(TOP)};
    assert Path(TOP) + {Root} == {Mid(I2(TOP)), LowOf(TOP), Root};
  }

  // The fixed pages are as allocproc left them and on no list.
  ghost predicate Standing(mem: Memory, owner: map<nat, Owner>, mm: Mm) {
    var t, f := Translate(mem, mm.pgt, TOP), Translate(mem, mm.pgt, TOP - 1);
    && t.Some? && t.value.ppn !in owner && f.Some? && f.value.ppn in owner
    && !Covers(mm.vmas, TOP) && !Covers(mm.vmas, TOP - 1)
  }

  // The memory part of freeproc. It panics exactly when some listed page has no frame; if
  // not, the trap frame, the listed pages and the root are free again, the lower tables
  // are lost, and no page of another address space is touched.
  method FreeSpace(um: UserMemory, m: nat) returns (r: Status)
    requires um.Ok() && um.Lists() && m in um.mms && Standing(um.mem, um.owner, um.mms[m])
    modifies um
    ensures r == if old(RealList(um.mem, um.owner, um.mms[m].pgt, um.mms[m].vmas)) then Done else Panic
    ensures r == Done ==>
      && um.Ok() && um.Lists() && um.mms == old(um.mms) - {m}
      && Beside(old(um.mem), old(um.owner), old(um.tables), um.mem, um.owner, m)
      && forall p :: p in old(um.owner) ==>
           p in um.owner && um.owner[p] == if old(um.owner)[p] == Data(m, TOP - 1) then Free else FreedAs(old(um.owner)[p], m, old(um.mms[m].vmas))
  {
    hide World, Translate, Beside, Around, AllListed, Listed, RealList, FreeList, FreedAs, Covers, Cleared, Freeable;
    ghost var mem0, owner0, tables0, mm := um.mem, um.owner, um.tables, um.mms[m];
    OneArea(mem0, owner0, tables0[m], mm);
    OneIn(TRAMPOLINE, MAXVA, CODE);
    OneIn(TRAPFRAME, TRAMPOLINE, FRAME);
    AllListedAt(mem0, um.mms, m);
    var a := um.Freevma(m, Vma(TRAMPOLINE, MAXVA, CODE), false);
    ghost var mem1, owner1 := um.mem, um.owner;
    TrampolineOnly(mem0, owner0, tables0, mem1, owner1, m, mm);
    RealKept(mem0, owner0, mem1, owner1, mm, m, TOP, Held);
    AllListedAt(mem1, um.mms, m);
    StillStanding(mem0, mem1, owner0, tables0[m], mm);
    var b := um.Freevma(m, Vma(TRAPFRAME, TRAMPOLINE, FRAME), true);
    ghost var mem2, owner2 := um.mem, um.owner;
    RealKept(mem1, owner1, mem2, owner2, mm, m, TOP - 1, Free);
    AllListedAt(mem2, um.mms, m);
    BesideTrans(mem0, owner0, tables0, mem1, owner1, mem2, owner2, m);
    r := um.MmFree(m);
    if r == Done {
      BesideTrans(mem0, owner0, tables0, mem2, owner2, um.mem, um.owner, m);
      FrameFreed(mem1, owner1, mem2, owner2, mm, m);
    }
  }

  lemma OneIn(start: nat, end: nat, flags: Perm)
    requires start % PGSIZE == 0 && end == start + PGSIZE
    ensures forall v: nat :: In(Vma(start, end, flags), v) <==> v == start / PGSIZE
  {
  }

  lemma StillStanding(mem0: Memory, mem1: Memory, owner: map<nat, Owner>, t: Tables, mm: Mm)
    requires Root in t && t[Root] == mm.pgt && Standing(mem0, owner, mm) && Translate(mem1, mm.pgt, TOP - 1) == Translate(mem0, mm.pgt, TOP - 1)
    ensures Freeable(mem1, owner, t, true, TOP - 1, 1)
  {
    hide Translate, LowOf;
  }

  lemma FrameFreed(mem1: Memory, owner1: map<nat, Owner>, mem2: Memory, owner2: map<nat, Owner>, mm: Mm, m: nat)
    requires Cleared(mem1, owner1, mem2, owner2, mm.pgt, m, TOP - 1, 1, Free)
    ensures owner2.Keys == owner1.Keys
    ensures forall p :: p in owner1 ==>
      FreedAs(owner2[p], m, mm.vmas) == if owner1[p] == Data(m, TOP - 1) then Free else FreedAs(owner1[p], m, mm.vmas)
  {
    hide Translate, Covers;
  }

  lemma OneArea(mem: Memory, owner: map<nat, Owner>, t: Tables, mm: Mm)
    requires Root in t && t[Root] == mm.pgt && Standing(mem, owner, mm)
    ensures var w, f := Vma(TRAMPOLINE, MAXVA, CODE), Vma(TRAPFRAME, TRAMPOLINE, FRAME);
      && Aligned(w) && Aligned(f) && First(w) == TOP && Count(w) == 1 && First(f) == TOP - 1 && Count(f) == 1
      && Freeable(mem, owner, t, false, TOP, 1) && Freeable(mem, owner, t, true, TOP - 1, 1)
  {
    hide Translate, LowOf;
  }

  // Unmapping a page that no list mentions leaves the listed pages' frames.
  lemma RealKept(mem0: Memory, owner0: map<nat, Owner>, mem: Memory, owner: map<nat, Owner>, mm: Mm, m: nat, s: nat, to: Owner)
    requires Listed(mem0, mm) && Cleared(mem0, owner0, mem, owner, mm.pgt, m, s, 1, to) && !Covers(mm.vmas, s)
    ensures RealList(mem, owner, mm.pgt, mm.vmas) <==> RealList(mem0, owner0, mm.pgt, mm.vmas)
  {
    forall i | 0 <= i < |mm.vmas|
      ensures Real(mem, owner, mm.pgt, First(mm.vmas[i]), Count(mm.vmas[i])) <==> Real(mem0, owner0, mm.pgt, First(mm.vmas[i]), Count(mm.vmas[i]))
    {
      hide Translate, Real;
      forall v: nat | In(mm.vmas[i], v) ensures Translate(mem, mm.pgt, v) == Translate(mem0, mm.pgt, v) {
        Earlier(mem0, mm, i, v);
        assert Covers(mm.vmas, v);
      }
      RealSame(mem0, owner0, mem, owner, mm.pgt, First(mm.vmas[i]), Count(mm.vmas[i]));
    }
  }

  // No frame of the allocator is behind the trampoline's page, so unmapping it moves none.
  lemma TrampolineOnly(mem0: Memory, owner0: map<nat, Owner>, tables: map<nat, Tables>, mem: Memory, owner: map<nat, Owner>, m: nat, mm: Mm)
    requires World(mem0, owner0, tables) && m in tables && Root in tables[m] && tables[m][Root] == mm.pgt && Standing(mem0, owner0, mm)
    requires Cleared(mem0, owner0, mem, owner, mm.pgt, m, TOP, 1, Held)
    ensures owner == owner0 && Translate(mem, mm.pgt, TOP - 1) == Translate(mem0, mm.pgt, TOP - 1)
  {
    hide Translate, Good;
    forall p | p in owner0 ensures owner[p] == owner0[p] {
      if Within(owner0[p], m, TOP, 1) { OnlyPage(mem0, owner0, tables, m, TOP, p); }
    }
  }

  // A fork's copy meets nothing in the new space when the parent's areas end below the
  // trap frame, so mm_copy can fail only for want of pages or frames.
  lemma ForkMeetsNothing(mem: Memory, root: nat, trampoline: nat, tf: nat, vmas: seq<Vma>)
    requires OnlyFixed(mem, root, trampoline, tf) && forall i :: 0 <= i < |vmas| ==> Aligned(vmas[i]) && vmas[i].end <= TRAPFRAME
    ensures FreeList0(mem, root, vmas)
  {
    hide Translate;
    forall i | 0 <= i < |vmas| ensures RangeFree(mem, root, First(vmas[i]), Count(vmas[i])) {
      forall v: nat | First(vmas[i]) <= v < First(vmas[i]) + Count(vmas[i]) ensures Translate(mem, root, v).None? {
        assert v < TOP - 1;
      }
    }
  }
}

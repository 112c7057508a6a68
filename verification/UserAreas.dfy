/**
  What the loops of os/vm.c keep: walks, mappings of whole areas, lists of areas.
*/
module UserAreas {
  import opened Sv39
  import opened UserPages

  const PGSIZE: nat := 4096
  const MAXVA: nat := 0x40_0000_0000

  datatype Vma = Vma(start: nat, end: nat, flags: Perm)

  datatype Mm = Mm(pgt: nat, vmas: seq<Vma>)

  datatype Status = Done | Failed | Panic

  datatype WalkResult = Slot(page: nat) | NoTable | BadAddress

  // PGALIGNED(vm_start) && PGALIGNED(vm_end), and the pages of an aligned area.
  predicate Aligned(w: Vma) { w.start % PGSIZE == 0 && w.end % PGSIZE == 0 }
  function First(w: Vma): nat { w.start / PGSIZE }
  function Count(w: Vma): nat { if w.start < w.end then w.end / PGSIZE - w.start / PGSIZE else 0 }
  predicate In(w: Vma, v: nat) { First(w) <= v < First(w) + Count(w) }

  lemma InUser(w: Vma)
    requires Aligned(w) && w.start <= MAXVA && w.end <= MAXVA
    ensures (First(w) + Count(w)) * PGSIZE <= MAXVA
  {
  }

  // The page fault handler may have set A and D since the mapping was made.
  predicate UpToAD(p: Perm, flags: Perm) { p.(a := flags.a, d := flags.d) == flags.(v := true) }

  ghost predicate ListedVma(mem: Memory, root: nat, w: Vma) {
    && Aligned(w) && w.start <= MAXVA && w.end <= MAXVA && Leaf(w.flags)
    && forall v: nat :: In(w, v) ==> var e := Translate(mem, root, v); e.Some? && UpToAD(e.value.perm, w.flags)
  }

  ghost predicate Listed(mem: Memory, mm: Mm) {
    && (forall i :: 0 <= i < |mm.vmas| ==> ListedVma(mem, mm.pgt, mm.vmas[i]))
    && (forall i, j, v: nat :: 0 <= i < j < |mm.vmas| && In(mm.vmas[i], v) ==> !In(mm.vmas[j], v))
  }

  // The tables an address needs besides the root.
  function Path(v: nat): set<Node> { {Mid(I2(v)), LowOf(v)} }

  // Page tables of m grew by new tables taken from the free list, and nothing else
  // that anyone can see changed.
  ghost predicate Walked(mem: Memory, owner: map<nat, Owner>, tables: map<nat, Tables>, free: seq<nat>,
                         mem': Memory, owner': map<nat, Owner>, tables': map<nat, Tables>, free': seq<nat>, m: nat)
  {
    && Grew(mem, owner, tables, mem', owner', tables', m)
    && SameAll(mem, mem', tables)
    && |free'| + |tables'[m]| == |free| + |tables[m]|
  }

  ghost predicate Covers(vmas: seq<Vma>, v: nat) { exists i :: 0 <= i < |vmas| && In(vmas[i], v) }

  ghost predicate RealList(mem: Memory, owner: map<nat, Owner>, root: nat, vmas: seq<Vma>) {
    forall i :: 0 <= i < |vmas| ==> Real(mem, owner, root, First(vmas[i]), Count(vmas[i]))
  }

  // The pages of all areas are unmapped and on the free list; all else stayed.
  ghost predicate ClearedList(mem0: Memory, owner0: map<nat, Owner>, mem: Memory, owner: map<nat, Owner>, root: nat, m: nat, vmas: seq<Vma>) {
    && mem0.Keys == owner0.Keys == owner.Keys == mem.Keys
    && (forall v: nat :: v < VPNS ==> Translate(mem, root, v) == if Covers(vmas, v) then None else Translate(mem0, root, v))
    && (forall p :: p in owner0 ==> owner[p] == if owner0[p].Data? && owner0[p].m == m && Covers(vmas, owner0[p].v) then Free else owner0[p])
    && (forall p :: p in owner0 && owner0[p] != Free && !owner0[p].Table? && owner[p] == owner0[p] ==> mem[p] == mem0[p])
  }

  // PX(level, va), and the table walk has reached when level is left to do.
  function Px(level: nat, v: nat): (i: nat) ensures i < 512 { if level == 2 then I2(v) else if level == 1 then I1(v) else I0(v) }
  function At(level: nat, v: nat): Node { if level == 2 then Root else if level == 1 then Mid(I2(v)) else LowOf(v) }
  function Above2(level: nat, v: nat): set<Node> { if level == 2 then {} else if level == 1 then {Mid(I2(v))} else Path(v) }

  // The tables that the n pages from s need besides the root.
  ghost function NodesOf(s: nat, n: nat): set<Node> {
    if n == 0 then {} else NodesOf(s, n - 1) + Path(s + n - 1)
  }

  // The pages that mapping n new pages from s takes: one each, and the missing tables.
  ghost function Need(t: Tables, s: nat, n: nat): nat { n + |NodesOf(s, n) - t.Keys| }

  lemma WalkedRefl(mem: Memory, owner: map<nat, Owner>, tables: map<nat, Tables>, free: seq<nat>, m: nat)
    requires World(mem, owner, tables) && m in tables
    ensures Walked(mem, owner, tables, free, mem, owner, tables, free, m)
  {
    hide Good;
    SameRefl(mem, owner, tables, m);
    assert tables == tables[m := tables[m]];
  }

  lemma WalkedTrans(mem: Memory, owner: map<nat, Owner>, tables: map<nat, Tables>, free: seq<nat>,
                    mem1: Memory, owner1: map<nat, Owner>, tables1: map<nat, Tables>, free1: seq<nat>,
                    mem2: Memory, owner2: map<nat, Owner>, tables2: map<nat, Tables>, free2: seq<nat>, m: nat)
    requires Walked(mem, owner, tables, free, mem1, owner1, tables1, free1, m)
    requires Walked(mem1, owner1, tables1, free1, mem2, owner2, tables2, free2, m)
    ensures Walked(mem, owner, tables, free, mem2, owner2, tables2, free2, m)
  {
    hide Translate, Around, Kept;
    GrewTrans(mem, owner, tables, mem1, owner1, tables1, mem2, owner2, tables2, m);
    forall k | k in tables ensures Root in tables[k] && Same(mem, mem2, tables[k][Root]) {
      assert tables1[k][Root] == tables[k][Root];
    }
  }

  lemma Grow(a: set<Node>, b: set<Node>)
    ensures |a + b| == |a| + |b - a|
  {
    assert a + b == a + (b - a);
  }

  lemma StepDown(level: nat, v: nat)
    requires 0 < level <= 2
    ensures !At(level, v).Low? && Child(At(level, v), Px(level, v)) == At(level - 1, v) && Px(level, v) < 512
    ensures Above2(level - 1, v) == Above2(level, v) + {At(level - 1, v)}
    ensures At(2, v) == Root && Above2(2, v) == {} && At(1, v) == Mid(I2(v)) && At(0, v) == LowOf(v) && Above2(0, v) == Path(v)
  {
  }

  // A walk that stops for want of a page had fewer pages than missing tables.
  lemma WalkShort(before: set<Node>, now: set<Node>, level: nat, v: nat, pages: nat)
    requires 0 < level <= 2 && now == before + Above2(level, v) && pages + |before| <= |now| && At(level - 1, v) !in now
    ensures pages < |Path(v) - before|
  {
    Grow(before, Above2(level, v));
    assert Above2(level, v) - before <= Path(v) - before - {At(level - 1, v)};
    SubsetSize(Above2(level, v) - before, Path(v) - before - {At(level - 1, v)});
  }

  lemma {:induction false} SubsetSize(a: set<Node>, b: set<Node>)
    requires a <= b
    ensures |a| <= |b|
  {
    assert b == a + (b - a);
  }

  lemma HangWalked(mem: Memory, owner: map<nat, Owner>, tables: map<nat, Tables>, free: seq<nat>,
                   mem1: Memory, owner1: map<nat, Owner>, mem2: Memory, owner2: map<nat, Owner>, m: nat, a: Node, i: nat, p: nat)
    requires m in tables && p in owner && owner[p] == Free && mem.Keys == owner.Keys && owner1 == owner[p := Held] && p in mem1 && mem1 == mem[p := mem1[p]]
    requires SameAll(mem, mem1, tables) && Around(mem, owner, mem1, owner1, m)
    requires a in tables[m] && tables[m][a] in owner && owner[tables[m][a]] == Table(m, a) && tables[m][a] in mem && i < 512 && Child(a, i) !in tables[m] && free != []
    requires mem2 == SetWord(mem1[p := ZeroPage()], tables[m][a], i, MakePte(p, NoPerm)) && owner2 == owner1[p := Table(m, Child(a, i))]
    requires SameAll(mem1, mem2, tables) && Around(mem1, owner1, mem2, owner2, m)
    ensures var t': Tables := tables[m][Child(a, i) := p];
      Walked(mem, owner, tables, free, mem2, owner2, tables[m := t'], free[1..], m)
  {
    hide Translate, Same, Around, ZeroPage;
    AroundTrans(mem, owner, mem1, owner1, mem2, owner2, m);
    forall k | k in tables ensures Root in tables[k] && Same(mem, mem2, tables[k][Root]) {
      SameTrans(mem, mem1, mem2, tables[k][Root]);
    }
  }

  // Mapping from s stops at page d: it is taken, or it needs a table and the pages before
  // it, with their tables, leave none.
  ghost predicate Blocked(mem: Memory, t: Tables, pages: nat, root: nat, s: nat, d: nat) {
    || Translate(mem, root, s + d).Some?
    || (!(Path(s + d) <= t.Keys + NodesOf(s, d)) && pages < d + |NodesOf(s, d + 1) - t.Keys|)
  }

  // The loop stopped at page d of w.
  ghost predicate Stopped(mem0: Memory, owner0: map<nat, Owner>, t0: Tables, pages: nat, mem: Memory, owner: map<nat, Owner>, root: nat, m: nat, w: Vma, d: nat) {
    && d < Count(w) && Placed(mem0, owner0, mem, owner, root, m, First(w), d, w.flags)
    && Blocked(mem0, t0, pages, root, First(w), d)
  }

  // ---------- the loop of mm_mappages, step by step

  lemma RangeStart(mem: Memory, owner: map<nat, Owner>, tables: map<nat, Tables>, m: nat, s: nat, root: nat, flags: Perm)
    requires World(mem, owner, tables) && m in tables
    ensures Grew(mem, owner, tables, mem, owner, tables, m) && Placed(mem, owner, mem, owner, root, m, s, 0, flags)
    ensures Real(mem, owner, root, s, 0) && NodesOf(s, 0) == {}
  {
    hide Translate, Good, Accounted;
    SameRefl(mem, owner, tables, m);
    assert Root in tables[m] by { assert Good(mem, owner, m, tables[m]); }
    assert tables == tables[m := tables[m]];
  }

  lemma RangeStep(mem0: Memory, owner0: map<nat, Owner>, mem1: Memory, owner1: map<nat, Owner>, mem2: Memory, owner2: map<nat, Owner>,
                  tables0: map<nat, Tables>, tables1: map<nat, Tables>, tables2: map<nat, Tables>, m: nat, s: nat, d: nat, root: nat, flags: Perm)
    requires Grew(mem0, owner0, tables0, mem1, owner1, tables1, m) && Grew(mem1, owner1, tables1, mem2, owner2, tables2, m) && s + d < VPNS
    requires Placed(mem0, owner0, mem1, owner1, root, m, s, d, flags) && Placed(mem1, owner1, mem2, owner2, root, m, s + d, 1, flags)
    ensures Placed(mem0, owner0, mem2, owner2, root, m, s, d + 1, flags)
    ensures Real(mem2, owner2, root, s, d + 1) <==> Real(mem1, owner1, root, s, d) && Real(mem2, owner2, root, s + d, 1)
  {
    hide Translate;
    PlacedStep(mem0, owner0, mem1, owner1, mem2, owner2, root, m, s, d, flags);
    RealSame(mem1, owner1, mem2, owner2, root, s, d);
    RealJoin(mem2, owner2, root, s, d);
  }

  lemma RangeFail(mem0: Memory, owner0: map<nat, Owner>, mem1: Memory, owner1: map<nat, Owner>, mem2: Memory, owner2: map<nat, Owner>,
                  tables0: map<nat, Tables>, tables1: map<nat, Tables>, tables2: map<nat, Tables>, m: nat, s: nat, d: nat, root: nat, flags: Perm)
    requires Grew(mem0, owner0, tables0, mem1, owner1, tables1, m) && Grew(mem1, owner1, tables1, mem2, owner2, tables2, m) && SameAll(mem1, mem2, tables1)
    requires m in tables1 && Root in tables1[m] && tables1[m][Root] == root && s + d < VPNS
    requires Placed(mem0, owner0, mem1, owner1, root, m, s, d, flags)
    ensures Placed(mem0, owner0, mem2, owner2, root, m, s, d, flags)
    ensures Real(mem2, owner2, root, s, d) <==> Real(mem1, owner1, root, s, d)
    ensures Translate(mem1, root, s + d) == Translate(mem0, root, s + d)
  {
    hide Translate;
    RealSame(mem1, owner1, mem2, owner2, root, s, d);
  }

  lemma NotFree(mem: Memory, root: nat, s: nat, d: nat, n: nat)
    requires d < n
    ensures Translate(mem, root, s + d).Some? ==> !RangeFree(mem, root, s, n)
  {
  }

  lemma PlacedFree(mem0: Memory, owner0: map<nat, Owner>, mem: Memory, owner: map<nat, Owner>, root: nat, m: nat, s: nat, d: nat, flags: Perm)
    requires Placed(mem0, owner0, mem, owner, root, m, s, d, flags) && s + d <= VPNS
    ensures RangeFree(mem0, root, s, d)
  {
    hide Translate;
  }

  lemma RangeKeys(t0: set<Node>, t1: set<Node>, t2: set<Node>, s: nat, d: nat)
    requires t1 == t0 + NodesOf(s, d) && t2 == t1 + Path(s + d)
    ensures t2 == t0 + NodesOf(s, d + 1) && |t2| >= |t1|
  {
    SubsetSize(t1, t2);
  }

  lemma {:induction false} NodesMono(s: nat, d: nat, n: nat)
    requires d <= n
    ensures NodesOf(s, d) <= NodesOf(s, n)
  {
    if d < n { NodesMono(s, d, n - 1); }
  }

  lemma NodesStep(s: nat, d: nat)
    ensures NodesOf(s, d + 1) == NodesOf(s, d) + Path(s + d)
  {
  }

  // The table pages ran out at page d of n.
  lemma RangeShort(t0: set<Node>, t1: set<Node>, s: nat, d: nat, n: nat, free0: nat, free1: nat, solid: bool)
    requires t1 == t0 + NodesOf(s, d) && d < n
    requires if solid then free1 + |t1| + d == free0 + |t0| else free1 == 0 && free0 + |t0| < |t1| + d
    ensures free1 < |Path(s + d) - t1| ==> free0 < n + |NodesOf(s, n) - t0|
  {
    hide Path, NodesOf;
    assert NodesOf(s, d + 1) == NodesOf(s, d) + Path(s + d) by { NodesStep(s, d); }
    Grow(t0, NodesOf(s, d));
    Grow(t1, Path(s + d));
    Grow(t0, NodesOf(s, d + 1));
    assert t1 + Path(s + d) == t0 + NodesOf(s, d + 1);
    NodesMono(s, d + 1, n);
    SubsetSize(NodesOf(s, d + 1) - t0, NodesOf(s, n) - t0);
  }

  lemma TableShort(t0: set<Node>, had: set<Node>, path: set<Node>, free0: nat, t1: set<Node>, free1: nat, d: nat, solid: bool)
    requires t1 == t0 + had
    requires if solid then free1 + |t1| + d == free0 + |t0| else free1 == 0 && free0 + |t0| < |t1| + d
    ensures !(path <= t1) && free0 < d + |had + path - t0| <==> free1 < |path - t1|
  {
    Grow(t0, had);
    Grow(t1, path);
    Grow(t0, had + path);
    assert t1 + path == t0 + (had + path);
    if path <= t1 {
      assert path - t1 == {};
    } else {
      var x :| x in path && x !in t1;
      assert x in path - t1;
    }
  }

  // At page d, mm_mappages finds pages enough exactly when it is not short of a table.
  lemma BlockedIs(mem: Memory, t0: Tables, free0: nat, root: nat, s: nat, d: nat, t1: Tables, free1: nat, solid: bool)
    requires t1.Keys == t0.Keys + NodesOf(s, d)
    requires if solid then free1 + |t1| + d == free0 + |t0| else free1 == 0 && free0 + |t0| < |t1| + d
    ensures Blocked(mem, t0, free0, root, s, d) <==> Translate(mem, root, s + d).Some? || free1 < |Path(s + d) - t1.Keys|
  {
    hide Path, NodesOf, Translate;
    NodesStep(s, d);
    TableShort(t0.Keys, NodesOf(s, d), Path(s + d), free0, t1.Keys, free1, d, solid);
  }

  lemma PlacedAt(mem0: Memory, owner0: map<nat, Owner>, mem1: Memory, owner1: map<nat, Owner>, root: nat, m: nat, s: nat, d: nat, flags: Perm)
    requires Placed(mem0, owner0, mem1, owner1, root, m, s, d, flags) && s + d < VPNS
    ensures Translate(mem1, root, s + d) == Translate(mem0, root, s + d)
  {
    hide Translate;
  }

  lemma RangeSettled(t0: set<Node>, t1: set<Node>, s: nat, n: nat, free0: nat, free1: nat, solid: bool)
    requires t1 == t0 + NodesOf(s, n)
    requires if solid then free1 + |t1| + n == free0 + |t0| else free1 == 0 && free0 + |t0| < |t1| + n
    ensures solid <==> free0 >= n + |NodesOf(s, n) - t0|
  {
    Grow(t0, NodesOf(s, n));
  }

  // ---------- the lists of areas

  ghost predicate AllListed(mem: Memory, mms: map<nat, Mm>) {
    forall m :: m in mms ==> Listed(mem, mms[m])
  }

  ghost predicate Rooted(tables: map<nat, Tables>, mms: map<nat, Mm>) {
    && mms.Keys == tables.Keys
    && forall m :: m in mms ==> Root in tables[m] && tables[m][Root] == mms[m].pgt
  }

  lemma MapLists(mem0: Memory, owner0: map<nat, Owner>, tables0: map<nat, Tables>, mms0: map<nat, Mm>,
                 mem: Memory, owner: map<nat, Owner>, tables: map<nat, Tables>, mms: map<nat, Mm>, m: nat, w: Vma, d: nat, r: Status)
    requires Rooted(tables0, mms0) && m in mms0 && Grew(mem0, owner0, tables0, mem, owner, tables, m)
    requires Aligned(w) && w.start <= MAXVA && w.end <= MAXVA && Leaf(w.flags) && d <= Count(w) && (r == Done ==> d == Count(w))
    requires Placed(mem0, owner0, mem, owner, mms0[m].pgt, m, First(w), d, w.flags)
    requires mms == if r == Done then mms0[m := Mm(mms0[m].pgt, [w] + mms0[m].vmas)] else mms0
    ensures AllListed(mem0, mms0) ==> AllListed(mem, mms)
  {
    hide Translate, Around, Kept;
    if AllListed(mem0, mms0) {
      forall k | k in mms ensures Listed(mem, mms[k]) {
        assert Listed(mem0, mms0[k]);
        if k != m {
          ListedSame(mem0, mem, mms0[k]);
        } else {
          ListedPlaced(mem0, owner0, mem, owner, mms0[m], m, w, d);
        }
      }
    }
  }

  lemma ListedSame(mem0: Memory, mem: Memory, mm: Mm)
    requires Listed(mem0, mm) && Same(mem0, mem, mm.pgt)
    ensures Listed(mem, mm)
  {
    hide Translate;
  }

  lemma ListedPlaced(mem0: Memory, owner0: map<nat, Owner>, mem: Memory, owner: map<nat, Owner>, mm: Mm, m: nat, w: Vma, d: nat)
    requires Listed(mem0, mm) && d <= Count(w) && Placed(mem0, owner0, mem, owner, mm.pgt, m, First(w), d, w.flags)
    requires Aligned(w) && w.start <= MAXVA && w.end <= MAXVA && Leaf(w.flags)
    ensures Listed(mem, mm) && (d == Count(w) ==> Listed(mem, Mm(mm.pgt, [w] + mm.vmas)))
  {
    hide Translate, Leaf;
  }

  // ---------- the loop of mm_free_pages, step by step

  lemma ListStart(mem: Memory, owner: map<nat, Owner>, tables: map<nat, Tables>, m: nat, root: nat, vmas: seq<Vma>)
    requires World(mem, owner, tables) && m in tables
    ensures Beside(mem, owner, tables, mem, owner, m) && ClearedList(mem, owner, mem, owner, root, m, vmas[..0])
    ensures RealList(mem, owner, root, vmas[..0])
  {
    hide Translate, Good, Accounted;
    SameRefl(mem, owner, tables, m);
  }

  lemma CoversNext(vmas: seq<Vma>, i: nat, v: nat)
    requires i < |vmas|
    ensures Covers(vmas[..i + 1], v) <==> Covers(vmas[..i], v) || In(vmas[i], v)
  {
    if Covers(vmas[..i], v) {
      var k :| 0 <= k < i && In(vmas[..i][k], v);
      assert In(vmas[..i + 1][k], v);
    }
    if In(vmas[i], v) { assert In(vmas[..i + 1][i], v); }
  }

  lemma ListCleared(mem0: Memory, owner0: map<nat, Owner>, mem1: Memory, owner1: map<nat, Owner>, mem2: Memory, owner2: map<nat, Owner>,
                    root: nat, m: nat, vmas: seq<Vma>, i: nat)
    requires i < |vmas| && ClearedList(mem0, owner0, mem1, owner1, root, m, vmas[..i])
    requires Cleared(mem1, owner1, mem2, owner2, root, m, First(vmas[i]), Count(vmas[i]), Free)
    ensures ClearedList(mem0, owner0, mem2, owner2, root, m, vmas[..i + 1])
  {
    hide Translate, Covers, First, Count;
    forall v: nat ensures Covers(vmas[..i + 1], v) <==> Covers(vmas[..i], v) || In(vmas[i], v) {
      CoversNext(vmas, i, v);
    }
  }

  lemma NotEarlier(mem: Memory, mm: Mm, i: nat, v: nat)
    requires Listed(mem, mm) && i < |mm.vmas| && In(mm.vmas[i], v)
    ensures Aligned(mm.vmas[i]) && !Covers(mm.vmas[..i], v) && Translate(mem, mm.pgt, v).Some? && v < LASTPAGE
  {
    hide Translate, Leaf;
    assert ListedVma(mem, mm.pgt, mm.vmas[i]);
    InUser(mm.vmas[i]);
  }

  lemma RealNext(mem: Memory, owner: map<nat, Owner>, root: nat, vmas: seq<Vma>, i: nat)
    requires i < |vmas|
    ensures RealList(mem, owner, root, vmas[..i + 1]) <==>
      RealList(mem, owner, root, vmas[..i]) && Real(mem, owner, root, First(vmas[i]), Count(vmas[i]))
    ensures RealList(mem, owner, root, vmas) ==> RealList(mem, owner, root, vmas[..i + 1])
  {
    hide Real, First, Count;
    if RealList(mem, owner, root, vmas[..i + 1]) {
      assert vmas[..i + 1][i] == vmas[i];
      forall k | 0 <= k < i ensures Real(mem, owner, root, First(vmas[k]), Count(vmas[k])) { assert vmas[..i + 1][k] == vmas[k]; }
    }
  }

  // The next area of a well-formed list can be freed exactly if its pages are real.
  lemma ListNext(mem0: Memory, owner0: map<nat, Owner>, mem1: Memory, owner1: map<nat, Owner>, tables: map<nat, Tables>, m: nat, mm: Mm, i: nat)
    requires World(mem1, owner1, tables) && m in tables && Root in tables[m] && tables[m][Root] == mm.pgt && i < |mm.vmas|
    requires ClearedList(mem0, owner0, mem1, owner1, mm.pgt, m, mm.vmas[..i])
    requires Listed(mem0, mm) ==> RealList(mem0, owner0, mm.pgt, mm.vmas[..i])
    ensures Listed(mem0, mm) ==>
      (Aligned(mm.vmas[i]) && Freeable(mem1, owner1, tables[m], true, First(mm.vmas[i]), Count(mm.vmas[i])) <==>
       RealList(mem0, owner0, mm.pgt, mm.vmas[..i + 1]))
    ensures !RealList(mem0, owner0, mm.pgt, mm.vmas[..i + 1]) ==> !RealList(mem0, owner0, mm.pgt, mm.vmas)
  {
    hide World, Translate, Covers, First, Count, Aligned, Listed, RealList, LowOf;
    var w := mm.vmas[i];
    RealNext(mem0, owner0, mm.pgt, mm.vmas, i);
    if Listed(mem0, mm) {
      AlignedAt(mem0, mm, i);
      forall v: nat | In(w, v)
        ensures FreeableAt(mem1, owner1, tables[m], true, v) <==>
          RealAt(mem0, owner0, mm.pgt, v)
      {
        NotEarlier(mem0, mm, i, v);
        assert Translate(mem1, mm.pgt, v) == Translate(mem0, mm.pgt, v);
        if LowOf(v) !in tables[m] { NoSlot(mem1, owner1, tables, m, v); }
      }
      assert Freeable(mem1, owner1, tables[m], true, First(w), Count(w)) <==> Real(mem0, owner0, mm.pgt, First(w), Count(w)) by {
        FreeableReal(mem0, owner0, mem1, owner1, tables[m], mm.pgt, w);
      }
    }
  }

  lemma AlignedAt(mem: Memory, mm: Mm, i: nat)
    requires Listed(mem, mm) && i < |mm.vmas|
    ensures Aligned(mm.vmas[i])
  {
    assert ListedVma(mem, mm.pgt, mm.vmas[i]);
  }

  lemma FreeableReal(mem0: Memory, owner0: map<nat, Owner>, mem1: Memory, owner1: map<nat, Owner>, t: Tables, root: nat, w: Vma)
    requires Root in t && forall v: nat :: In(w, v) ==>
      (FreeableAt(mem1, owner1, t, true, v) <==> RealAt(mem0, owner0, root, v))
    ensures Freeable(mem1, owner1, t, true, First(w), Count(w)) <==> Real(mem0, owner0, root, First(w), Count(w))
  {
    hide RealAt, FreeableAt, First, Count;
    if Freeable(mem1, owner1, t, true, First(w), Count(w)) {
      forall v: nat | First(w) <= v < First(w) + Count(w) ensures RealAt(mem0, owner0, root, v) {
        assert FreeableAt(mem1, owner1, t, true, v) && In(w, v);
      }
    }
    if Real(mem0, owner0, root, First(w), Count(w)) {
      forall v: nat | First(w) <= v < First(w) + Count(w) ensures FreeableAt(mem1, owner1, t, true, v) {
        assert In(w, v) && RealAt(mem0, owner0, root, v);
      }
    }
  }

  lemma ListsFreed(mem0: Memory, owner0: map<nat, Owner>, tables: map<nat, Tables>, mms: map<nat, Mm>, mem: Memory, owner: map<nat, Owner>, m: nat)
    requires Rooted(tables, mms) && m in mms && Beside(mem0, owner0, tables, mem, owner, m)
    ensures AllListed(mem0, mms) ==> AllListed(mem, mms[m := Mm(mms[m].pgt, [])])
  {
    hide Translate, Around;
    if AllListed(mem0, mms) {
      forall k | k in mms && k != m ensures Listed(mem, mms[k]) {
        assert Listed(mem0, mms[k]);
        ListedSame(mem0, mem, mms[k]);
      }
    }
  }

  lemma WalkedIs(mem0: Memory, owner0: map<nat, Owner>, tables0: map<nat, Tables>, free0: seq<nat>,
                 mem: Memory, owner: map<nat, Owner>, tables: map<nat, Tables>, free: seq<nat>, m: nat, v: nat, pa: nat)
    requires Walked(mem0, owner0, tables0, free0, mem, owner, tables, free, m)
    ensures Grew(mem0, owner0, tables0, mem, owner, tables, m) && SameAll(mem0, mem, tables0)
    ensures pa in owner0 <==> pa in owner
    ensures m in tables && m in tables0 && |free| + |tables[m]| == |free0| + |tables0[m]| && tables == tables0[m := tables[m]]
    ensures pa in owner0 && owner0[pa] == Held ==> owner[pa] == Held
    ensures Beside(mem0, owner0, tables0, mem, owner, m) && EnteredOnly(mem0, owner0, mem, owner, None, Data(m, v))
    ensures m in tables0 && Root in tables0[m] && Same(mem0, mem, tables0[m][Root])
    ensures Translate(mem, tables0[m][Root], v) == Translate(mem0, tables0[m][Root], v)
  {
    hide Translate, Around;
  }

  lemma EnterLists(mem0: Memory, owner0: map<nat, Owner>, tables: map<nat, Tables>, mms: map<nat, Mm>, mem: Memory, owner: map<nat, Owner>, m: nat, va: nat, pa: nat, flags: Perm, add: bool)
    requires Rooted(tables, mms) && m in mms && Beside(mem0, owner0, tables, mem, owner, m) && va <= MAXVA && Leaf(flags)
    requires Translate(mem0, mms[m].pgt, va / PGSIZE).None? && Changed(mem0, mem, mms[m].pgt, va / PGSIZE, Some(MakePte(pa, flags)))
    ensures AllListed(mem0, mms) ==>
      AllListed(mem, mms) && (va < MAXVA && va % PGSIZE == 0 ==> AllListed(mem, mms[m := Mm(mms[m].pgt, [Vma(va, va + PGSIZE, flags)] + mms[m].vmas)]))
  {
    hide Translate, Around;
    if AllListed(mem0, mms) {
      forall k | k in mms ensures Listed(mem, mms[k]) {
        assert Listed(mem0, mms[k]);
        if k != m { ListedSame(mem0, mem, mms[k]); } else { ListedEntered(mem0, mem, mms[m], va, pa, flags); }
      }
      ListedEntered(mem0, mem, mms[m], va, pa, flags);
    }
  }

  lemma ListedEntered(mem0: Memory, mem: Memory, mm: Mm, va: nat, pa: nat, flags: Perm)
    requires Listed(mem0, mm) && va <= MAXVA && Leaf(flags)
    requires Translate(mem0, mm.pgt, va / PGSIZE).None? && Changed(mem0, mem, mm.pgt, va / PGSIZE, Some(MakePte(pa, flags)))
    ensures Listed(mem, mm) && (va < MAXVA && va % PGSIZE == 0 ==> Listed(mem, Mm(mm.pgt, [Vma(va, va + PGSIZE, flags)] + mm.vmas)))
  {
    hide Translate, Leaf;
    var w := Vma(va, va + PGSIZE, flags);
    assert First(w) == va / PGSIZE && Count(w) == 1;
    if va < MAXVA && va % PGSIZE == 0 { assert w.end <= MAXVA; }
  }

  // Unmapping what no list mentions.
  lemma ClearLists(mem0: Memory, owner0: map<nat, Owner>, tables: map<nat, Tables>, mms: map<nat, Mm>, mem: Memory, owner: map<nat, Owner>, m: nat, w: Vma, to: Owner)
    requires Rooted(tables, mms) && m in mms && Beside(mem0, owner0, tables, mem, owner, m)
    requires Cleared(mem0, owner0, mem, owner, mms[m].pgt, m, First(w), Count(w), to)
    requires forall v :: In(w, v) ==> !Covers(mms[m].vmas, v)
    ensures AllListed(mem0, mms) ==> AllListed(mem, mms)
  {
    hide Translate, Around;
    if AllListed(mem0, mms) {
      forall k | k in mms ensures Listed(mem, mms[k]) {
        assert Listed(mem0, mms[k]);
        if k != m { ListedSame(mem0, mem, mms[k]); } else { ClearListed(mem0, owner0, mem, owner, mms[m], m, w, to); }
      }
    }
  }

  lemma ClearListed(mem0: Memory, owner0: map<nat, Owner>, mem: Memory, owner: map<nat, Owner>, mm: Mm, m: nat, w: Vma, to: Owner)
    requires Listed(mem0, mm) && Cleared(mem0, owner0, mem, owner, mm.pgt, m, First(w), Count(w), to)
    requires forall v :: In(w, v) ==> !Covers(mm.vmas, v)
    ensures Listed(mem, mm)
  {
    hide Translate, Leaf;
    forall i | 0 <= i < |mm.vmas| ensures ListedVma(mem, mm.pgt, mm.vmas[i]) {
      assert ListedVma(mem0, mm.pgt, mm.vmas[i]);
      InUser(mm.vmas[i]);
      forall v: nat | In(mm.vmas[i], v) ensures Translate(mem, mm.pgt, v) == Translate(mem0, mm.pgt, v) {
        assert Covers(mm.vmas, v);
      }
    }
  }

  lemma ReflagLists(mem0: Memory, mem: Memory, owner: map<nat, Owner>, tables: map<nat, Tables>, mms: map<nat, Mm>, m: nat, v: nat, e: Pte, e': Pte)
    requires Rooted(tables, mms) && m in mms && Beside(mem0, owner, tables, mem, owner, m) && v < VPNS
    requires Translate(mem0, mms[m].pgt, v) == Some(e) && Changed(mem0, mem, mms[m].pgt, v, Some(e'))
    requires e'.perm == e.perm.(a := e'.perm.a, d := e'.perm.d)
    ensures AllListed(mem0, mms) ==> AllListed(mem, mms)
  {
    hide Translate, Around;
    if AllListed(mem0, mms) {
      forall k | k in mms ensures Listed(mem, mms[k]) {
        assert Listed(mem0, mms[k]);
        if k != m { ListedSame(mem0, mem, mms[k]); } else { ReflagListed(mem0, mem, mms[m], v, e, e'); }
      }
    }
  }

  lemma ReflagListed(mem0: Memory, mem: Memory, mm: Mm, v: nat, e: Pte, e': Pte)
    requires Listed(mem0, mm) && v < VPNS && Translate(mem0, mm.pgt, v) == Some(e) && Changed(mem0, mem, mm.pgt, v, Some(e'))
    requires e'.perm == e.perm.(a := e'.perm.a, d := e'.perm.d)
    ensures Listed(mem, mm)
  {
    hide Translate, Leaf;
    forall i | 0 <= i < |mm.vmas| ensures ListedVma(mem, mm.pgt, mm.vmas[i]) {
      assert ListedVma(mem0, mm.pgt, mm.vmas[i]);
      InUser(mm.vmas[i]);
    }
  }

  // ---------- the life of an address space

  lemma ListsSame(mem0: Memory, mem: Memory, tables: map<nat, Tables>, mms: map<nat, Mm>)
    requires Rooted(tables, mms) && SameAll(mem0, mem, tables)
    ensures AllListed(mem0, mms) ==> AllListed(mem, mms)
  {
    hide Translate;
    if AllListed(mem0, mms) {
      forall k | k in mms ensures Listed(mem, mms[k]) {
        assert Listed(mem0, mms[k]);
        ListedSame(mem0, mem, mms[k]);
      }
    }
  }

  lemma CreateLists(mem0: Memory, owner0: map<nat, Owner>, tables: map<nat, Tables>, mms: map<nat, Mm>, mem: Memory, owner: map<nat, Owner>, m: nat, p: nat)
    requires Rooted(tables, mms) && m !in mms && Beside(mem0, owner0, tables, mem, owner, m)
    ensures AllListed(mem0, mms) ==> AllListed(mem, mms[m := Mm(p, [])])
  {
    hide Translate, Around;
    if AllListed(mem0, mms) {
      forall k | k in mms ensures Listed(mem, mms[k]) {
        assert Listed(mem0, mms[k]);
        ListedSame(mem0, mem, mms[k]);
      }
    }
  }

  // What becomes of a page when its address space m, with areas vmas, is freed.
  ghost function FreedAs(o: Owner, m: nat, vmas: seq<Vma>): Owner {
    if o.Data? && o.m == m && Covers(vmas, o.v) then Free else Orphaned(o, m)
  }

  lemma RootedAdd(tables: map<nat, Tables>, mms: map<nat, Mm>, m: nat, p: nat)
    requires Rooted(tables, mms)
    ensures var t: Tables := map[Root := p]; Rooted(tables[m := t], mms[m := Mm(p, [])])
  {
  }

  lemma RootedList(tables: map<nat, Tables>, mms: map<nat, Mm>, m: nat, vmas: seq<Vma>)
    requires Rooted(tables, mms) && m in mms
    ensures Rooted(tables, mms[m := Mm(mms[m].pgt, vmas)])
  {
  }

  lemma RootedDrop(tables: map<nat, Tables>, mms: map<nat, Mm>, m: nat)
    requires Rooted(tables, mms)
    ensures Rooted(tables - {m}, mms - {m})
  {
  }

  lemma RootOnly(mem: Memory, owner: map<nat, Owner>, tables: map<nat, Tables>, m: nat)
    requires World(mem, owner, tables) && m in tables
    ensures Root in tables[m] && tables[m][Root] in owner && owner[tables[m][Root]] == Table(m, Root)
    ensures forall p :: p in owner && owner[p] == Table(m, Root) ==> p == tables[m][Root]
  {
    hide Good;
    GoodRoot(mem, owner, m, tables[m]);
    forall p | p in owner && owner[p] == Table(m, Root) ensures p == tables[m][Root] {
      assert Used(mem, tables, p, owner[p]);
    }
  }

  lemma DropLists(mem0: Memory, owner0: map<nat, Owner>, tables: map<nat, Tables>, mms: map<nat, Mm>, mem: Memory, owner: map<nat, Owner>, m: nat)
    requires Rooted(tables, mms) && Beside(mem0, owner0, tables, mem, owner, m)
    ensures AllListed(mem0, mms) ==> AllListed(mem, mms - {m})
  {
    hide Translate, Around;
    if AllListed(mem0, mms) {
      forall k | k in mms && k != m ensures Listed(mem, mms[k]) {
        assert Listed(mem0, mms[k]);
        ListedSame(mem0, mem, mms[k]);
      }
    }
  }

  lemma FreedTwice(mem0: Memory, owner0: map<nat, Owner>, mem1: Memory, owner1: map<nat, Owner>, root: nat, m: nat, vmas: seq<Vma>)
    requires ClearedList(mem0, owner0, mem1, owner1, root, m, vmas)
    ensures owner1.Keys == owner0.Keys && forall p :: p in owner0 ==> OrphanAll(owner1, m)[p] == FreedAs(owner0[p], m, vmas)
  {
    hide Translate, Covers;
  }
}

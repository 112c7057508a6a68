/**
  What mm_copy makes: pages with equal bytes on frames of their own (os/vm.c:233-267).
*/
module UserCopy {
  import opened Sv39
  import opened UserPages
  import opened UserAreas

  // walkaddr at page v: the frame of a user page, 0 otherwise.
  function UserPage(mem: Memory, root: nat, v: nat): nat {
    var e := Translate(mem, root, v);
    if e.Some? && e.value.perm.u then e.value.ppn else 0
  }

  // The user page v of a space has a page of the allocator.
  ghost predicate HasPage(mem: Memory, owner: map<nat, Owner>, root: nat, v: nat) { UserPage(mem, root, v) in owner }

  ghost predicate HasPages(mem: Memory, owner: map<nat, Owner>, root: nat, s: nat, d: nat) {
    forall v: nat :: s <= v < s + d ==> HasPage(mem, owner, root, v)
  }

  lemma SamePage(mem: Memory, mem': Memory, root: nat, v: nat)
    requires Same(mem, mem', root)
    ensures UserPage(mem', root, v) == UserPage(mem, root, v)
  {
    hide Translate;
    assert Translate(mem', root, v) == Translate(mem, root, v);
  }

  // A user page may be overwritten: nobody's translation changes, nor any other page.
  lemma StoreWorld(mem: Memory, owner: map<nat, Owner>, tables: map<nat, Tables>, p: nat, page: Page)
    requires World(mem, owner, tables) && p in owner && owner[p].Data?
    ensures World(mem[p := page], owner, tables) && SameAll(mem, mem[p := page], tables)
    ensures Around(mem, owner, mem[p := page], owner, owner[p].m)
  {
    hide Translate, Good, Used, Same;
    var mem' := mem[p := page];
    forall k | k in tables ensures Root in tables[k] && Same(mem, mem', tables[k][Root]) && Good(mem', owner, k, tables[k]) {
      StoreGood(mem, owner, k, tables[k], p, page);
    }
    forall q | q in owner ensures Used(mem', tables, q, owner[q]) {
      UsedSame(mem, mem', tables, q, owner[q]);
    }
  }

  lemma UsedSame(mem: Memory, mem': Memory, tables: map<nat, Tables>, q: nat, o: Owner)
    requires Used(mem, tables, q, o) && forall k :: k in tables && Root in tables[k] ==> Same(mem, mem', tables[k][Root])
    ensures Used(mem', tables, q, o)
  {
    hide Translate;
  }

  lemma StoreGood(mem: Memory, owner: map<nat, Owner>, m: nat, t: Tables, p: nat, page: Page)
    requires Good(mem, owner, m, t) && p in owner && owner[p].Data?
    ensures Root in t && Good(mem[p := page], owner, m, t) && Same(mem, mem[p := page], t[Root])
  {
    hide Translate;
    ViewFrame(mem, mem[p := page], t);
  }

  // The d pages from s: the bytes of the one space are now in the pages of the other.
  ghost predicate Copied(mem0: Memory, mem: Memory, owner: map<nat, Owner>, src: nat, dst: nat, m: nat, s: nat, d: nat) {
    && mem0.Keys == mem.Keys == owner.Keys
    && (forall v: nat :: s <= v < s + d ==> Equal(mem0, mem, src, dst, v))
    && (forall p :: p in owner && !Within(owner[p], m, s, d) ==> mem[p] == mem0[p])
  }

  ghost predicate Equal(mem0: Memory, mem: Memory, src: nat, dst: nat, v: nat) {
    && UserPage(mem0, src, v) in mem0 && UserPage(mem0, dst, v) in mem
    && mem[UserPage(mem0, dst, v)] == mem0[UserPage(mem0, src, v)]
  }

  lemma CopyNext(mem0: Memory, mem1: Memory, mem2: Memory, owner: map<nat, Owner>, tables: map<nat, Tables>, a: nat, b: nat, src: nat, dst: nat, s: nat, d: nat)
    requires World(mem1, owner, tables) && a in tables && b in tables && a != b && 0 !in owner && s + d < VPNS
    requires Root in tables[a] && tables[a][Root] == src && Root in tables[b] && tables[b][Root] == dst
    requires Copied(mem0, mem1, owner, src, dst, b, s, d) && SameAll(mem0, mem1, tables)
    requires UserPage(mem1, src, s + d) in mem1 && UserPage(mem1, dst, s + d) in mem1
    requires mem2 == mem1[UserPage(mem1, dst, s + d) := mem1[UserPage(mem1, src, s + d)]]
    ensures Copied(mem0, mem2, owner, src, dst, b, s, d + 1)
  {
    hide Translate, World, UserPage;
    SamePage(mem0, mem1, src, s + d);
    SamePage(mem0, mem1, dst, s + d);
    PageOwner(mem1, owner, tables, a, s + d);
    PageOwner(mem1, owner, tables, b, s + d);
    forall v: nat | s <= v < s + d + 1 ensures Equal(mem0, mem2, src, dst, v) {
      if v < s + d {
        assert Equal(mem0, mem1, src, dst, v);
        SamePage(mem0, mem1, dst, v);
        PageOwner(mem1, owner, tables, b, v);
      }
    }
  }

  lemma PageOwner(mem: Memory, owner: map<nat, Owner>, tables: map<nat, Tables>, m: nat, v: nat)
    requires World(mem, owner, tables) && m in tables && v < VPNS
    ensures Root in tables[m]
    ensures var p := UserPage(mem, tables[m][Root], v); p in owner && p != 0 ==> owner[p] == Data(m, v)
  {
    hide Translate, Shape, Tidy, Accounted;
    assert Good(mem, owner, m, tables[m]);
  }

  lemma CopyStart(mem: Memory, owner: map<nat, Owner>, tables: map<nat, Tables>, src: nat, dst: nat, m: nat, s: nat)
    requires World(mem, owner, tables)
    ensures Copied(mem, mem, owner, src, dst, m, s, 0) && SameAll(mem, mem, tables) && Around(mem, owner, mem, owner, m)
  {
    hide Translate, UserPage;
    SameRefl(mem, owner, tables, m);
  }

  lemma SameHas(mem0: Memory, mem: Memory, owner: map<nat, Owner>, tables: map<nat, Tables>, m: nat, v: nat)
    requires SameAll(mem0, mem, tables) && m in tables && Root in tables[m]
    ensures HasPage(mem, owner, tables[m][Root], v) <==> HasPage(mem0, owner, tables[m][Root], v)
  {
    hide Translate, UserPage;
    SamePage(mem0, mem, tables[m][Root], v);
  }

  // ---------- all areas of a list

  // Page v of the copy has the bytes that page v of the original had, on its own frame.
  ghost predicate ClonedAt(mem0: Memory, mem: Memory, owner: map<nat, Owner>, src: nat, dst: nat, m: nat, v: nat) {
    && Translate(mem0, dst, v).None? && UserPage(mem0, src, v) in mem0
    && var p := UserPage(mem, dst, v);
       p in owner && owner[p] == Data(m, v) && p in mem && mem[p] == mem0[UserPage(mem0, src, v)]
  }

  ghost predicate ClonedList(mem0: Memory, mem: Memory, owner: map<nat, Owner>, src: nat, dst: nat, m: nat, vmas: seq<Vma>) {
    forall v: nat :: v < VPNS ==>
      if Covers(vmas, v) then ClonedAt(mem0, mem, owner, src, dst, m, v) else Translate(mem, dst, v) == Translate(mem0, dst, v)
  }

  ghost function Total(vmas: seq<Vma>): nat {
    if vmas == [] then 0 else Total(vmas[..|vmas| - 1]) + Count(vmas[|vmas| - 1])
  }

  ghost function NodesList(vmas: seq<Vma>): set<Node> {
    if vmas == [] then {} else NodesList(vmas[..|vmas| - 1]) + NodesOf(First(vmas[|vmas| - 1]), Count(vmas[|vmas| - 1]))
  }

  // The copy has nothing where the original has its areas.
  ghost predicate FreeList0(mem: Memory, dst: nat, vmas: seq<Vma>) {
    forall i :: 0 <= i < |vmas| ==> RangeFree(mem, dst, First(vmas[i]), Count(vmas[i]))
  }

  // Every page of the original's areas is a user page of the allocator.
  ghost predicate HasList(mem: Memory, owner: map<nat, Owner>, src: nat, vmas: seq<Vma>) {
    forall i :: 0 <= i < |vmas| ==> HasPages(mem, owner, src, First(vmas[i]), Count(vmas[i]))
  }

  function Reverse(vmas: seq<Vma>): (r: seq<Vma>)
    ensures |r| == |vmas| && forall i :: 0 <= i < |vmas| ==> r[i] == vmas[|vmas| - 1 - i]
  {
    if vmas == [] then [] else [vmas[|vmas| - 1]] + Reverse(vmas[..|vmas| - 1])
  }

  lemma Earlier(mem: Memory, mm: Mm, i: nat, v: nat)
    requires Listed(mem, mm) && i < |mm.vmas| && In(mm.vmas[i], v)
    ensures !Covers(mm.vmas[..i], v) && v < VPNS
  {
    NotEarlier(mem, mm, i, v);
  }

  // mem1: before area i; mem2: after mm_mappages; mem3: after the inner loop.
  lemma CloneNext(mem0: Memory, owner0: map<nat, Owner>, mem1: Memory, owner1: map<nat, Owner>, mem2: Memory, owner2: map<nat, Owner>, mem3: Memory,
                  mm: Mm, dst: nat, b: nat, i: nat)
    requires Listed(mem0, mm) && i < |mm.vmas| && 0 !in owner2 && NOPAGE !in owner2
    requires ClonedList(mem0, mem1, owner1, mm.pgt, dst, b, mm.vmas[..i])
    requires Kept(mem0, owner0, mem1, owner1) && Same(mem0, mem1, mm.pgt) && Kept(mem1, owner1, mem2, owner2) && Same(mem1, mem2, mm.pgt)
    requires Placed(mem1, owner1, mem2, owner2, dst, b, First(mm.vmas[i]), Count(mm.vmas[i]), mm.vmas[i].flags)
    requires Same(mem2, mem3, dst) && Copied(mem2, mem3, owner2, mm.pgt, dst, b, First(mm.vmas[i]), Count(mm.vmas[i]))
    requires HasPages(mem2, owner2, dst, First(mm.vmas[i]), Count(mm.vmas[i]))
    requires forall v: nat :: In(mm.vmas[i], v) ==> KeptPage(mem0, owner0, mm.pgt, v)
    ensures ClonedList(mem0, mem3, owner2, mm.pgt, dst, b, mm.vmas[..i + 1])
  {
    hide Translate, UserPage, Covers, First, Count, Listed;
    var w := mm.vmas[i];
    forall v: nat | v < VPNS
      ensures if Covers(mm.vmas[..i + 1], v) then ClonedAt(mem0, mem3, owner2, mm.pgt, dst, b, v) else Translate(mem3, dst, v) == Translate(mem0, dst, v)
    {
      CoversNext(mm.vmas, i, v);
      if In(w, v) {
        Earlier(mem0, mm, i, v);
        CloneNew(mem0, owner0, mem1, owner1, mem2, owner2, mem3, mm.pgt, dst, b, w, v);
      } else if Covers(mm.vmas[..i], v) {
        CloneOld(mem0, mem1, owner1, mem2, owner2, mem3, mm.pgt, dst, b, w, v);
      }
    }
  }

  // The page of the original is user data of its space.
  ghost predicate KeptPage(mem: Memory, owner: map<nat, Owner>, src: nat, v: nat) {
    HasPage(mem, owner, src, v) && owner[UserPage(mem, src, v)].Data?
  }

  lemma CloneNew(mem0: Memory, owner0: map<nat, Owner>, mem1: Memory, owner1: map<nat, Owner>, mem2: Memory, owner2: map<nat, Owner>, mem3: Memory,
                 src: nat, dst: nat, b: nat, w: Vma, v: nat)
    requires In(w, v) && v < VPNS && Translate(mem1, dst, v) == Translate(mem0, dst, v) && 0 !in owner2 && NOPAGE !in owner2
    requires Kept(mem0, owner0, mem1, owner1) && Same(mem0, mem1, src) && Kept(mem1, owner1, mem2, owner2) && Same(mem1, mem2, src)
    requires Placed(mem1, owner1, mem2, owner2, dst, b, First(w), Count(w), w.flags)
    requires Same(mem2, mem3, dst) && Copied(mem2, mem3, owner2, src, dst, b, First(w), Count(w))
    requires HasPages(mem2, owner2, dst, First(w), Count(w)) && KeptPage(mem0, owner0, src, v)
    ensures ClonedAt(mem0, mem3, owner2, src, dst, b, v)
  {
    hide Translate, First, Count;
    SamePage(mem0, mem1, src, v);
    SamePage(mem1, mem2, src, v);
    SamePage(mem2, mem3, dst, v);
    assert HasPage(mem2, owner2, dst, v) && Equal(mem2, mem3, src, dst, v);
  }

  lemma CloneOld(mem0: Memory, mem1: Memory, owner1: map<nat, Owner>, mem2: Memory, owner2: map<nat, Owner>, mem3: Memory,
                 src: nat, dst: nat, b: nat, w: Vma, v: nat)
    requires !In(w, v) && v < VPNS && ClonedAt(mem0, mem1, owner1, src, dst, b, v)
    requires Kept(mem1, owner1, mem2, owner2) && Placed(mem1, owner1, mem2, owner2, dst, b, First(w), Count(w), w.flags)
    requires Same(mem2, mem3, dst) && Copied(mem2, mem3, owner2, src, dst, b, First(w), Count(w))
    ensures ClonedAt(mem0, mem3, owner2, src, dst, b, v)
  {
    hide Translate, First, Count;
    SamePage(mem2, mem3, dst, v);
    assert Translate(mem2, dst, v) == Translate(mem1, dst, v);
  }

  // ---------- exactly when mm_copy succeeds

  // Nothing in the way, every original page there, and pages enough for the copy.
  ghost predicate Ready(mem: Memory, owner: map<nat, Owner>, t: Tables, pages: nat, src: nat, dst: nat, vmas: seq<Vma>) {
    FreeList0(mem, dst, vmas) && HasList(mem, owner, src, vmas) && pages >= Total(vmas) + |NodesList(vmas) - t.Keys|
  }

  // What the first i areas have used up.
  ghost predicate Paid(t0: set<Node>, pages0: nat, t1: set<Node>, pages1: nat, vmas: seq<Vma>) {
    t1 == t0 + NodesList(vmas) && pages1 + |t1| + Total(vmas) == pages0 + |t0|
  }

  lemma Prefix(vmas: seq<Vma>, i: nat)
    requires i < |vmas|
    ensures Total(vmas[..i + 1]) == Total(vmas[..i]) + Count(vmas[i])
    ensures NodesList(vmas[..i + 1]) == NodesList(vmas[..i]) + NodesOf(First(vmas[i]), Count(vmas[i]))
  {
    assert vmas[..i + 1][..i] == vmas[..i];
  }

  lemma {:induction false} PrefixMono(vmas: seq<Vma>, i: nat)
    requires i <= |vmas|
    ensures Total(vmas[..i]) <= Total(vmas) && NodesList(vmas[..i]) <= NodesList(vmas)
    decreases |vmas| - i
  {
    if i < |vmas| {
      Prefix(vmas, i);
      PrefixMono(vmas, i + 1);
    } else {
      assert vmas[..i] == vmas;
    }
  }

  lemma PaidNext(t0: set<Node>, pages0: nat, t1: set<Node>, pages1: nat, t2: set<Node>, pages2: nat, vmas: seq<Vma>, i: nat)
    requires i < |vmas| && Paid(t0, pages0, t1, pages1, vmas[..i])
    requires t2 == t1 + NodesOf(First(vmas[i]), Count(vmas[i])) && pages2 + |t2| + Count(vmas[i]) == pages1 + |t1|
    ensures Paid(t0, pages0, t2, pages2, vmas[..i + 1])
  {
    hide NodesOf, First, Count, Total, NodesList;
    Prefix(vmas, i);
  }

  // Too few pages for area i are too few for all.
  lemma PaidShort(t0: set<Node>, pages0: nat, t1: set<Node>, pages1: nat, vmas: seq<Vma>, i: nat)
    requires i < |vmas| && Paid(t0, pages0, t1, pages1, vmas[..i])
    requires pages1 < Count(vmas[i]) + |NodesOf(First(vmas[i]), Count(vmas[i])) - t1|
    ensures pages0 < Total(vmas) + |NodesList(vmas) - t0|
  {
    hide NodesOf, First, Count, Total, NodesList;
    var more := NodesOf(First(vmas[i]), Count(vmas[i]));
    Prefix(vmas, i);
    PrefixMono(vmas, i + 1);
    Grow(t0, NodesList(vmas[..i]));
    Grow(t1, more);
    Grow(t0, NodesList(vmas[..i + 1]));
    assert t1 + more == t0 + NodesList(vmas[..i + 1]);
    SubsetSize(NodesList(vmas[..i + 1]) - t0, NodesList(vmas) - t0);
  }

  // Area i of the original is still unmapped in the copy if it was at first.
  lemma StillFree(mem0: Memory, mem1: Memory, owner1: map<nat, Owner>, mm: Mm, dst: nat, b: nat, i: nat)
    requires Listed(mem0, mm) && i < |mm.vmas| && ClonedList(mem0, mem1, owner1, mm.pgt, dst, b, mm.vmas[..i])
    ensures RangeFree(mem1, dst, First(mm.vmas[i]), Count(mm.vmas[i])) <==> RangeFree(mem0, dst, First(mm.vmas[i]), Count(mm.vmas[i]))
  {
    hide Translate, Covers, Listed, ClonedAt, First, Count;
    forall v: nat | In(mm.vmas[i], v) ensures Translate(mem1, dst, v) == Translate(mem0, dst, v) {
      Earlier(mem0, mm, i, v);
    }
    SameFree(mem0, mem1, dst, First(mm.vmas[i]), Count(mm.vmas[i]));
  }

  lemma SameFree(mem0: Memory, mem1: Memory, dst: nat, s: nat, n: nat)
    requires forall v: nat :: s <= v < s + n ==> Translate(mem1, dst, v) == Translate(mem0, dst, v)
    ensures RangeFree(mem1, dst, s, n) <==> RangeFree(mem0, dst, s, n)
  {
    hide Translate;
    if RangeFree(mem0, dst, s, n) {
      forall v: nat | s <= v < s + n ensures Translate(mem1, dst, v).None? { assert Translate(mem0, dst, v).None?; }
    }
    if RangeFree(mem1, dst, s, n) {
      forall v: nat | s <= v < s + n ensures Translate(mem0, dst, v).None? { assert Translate(mem1, dst, v).None?; }
    }
  }

  // mm_copy cannot get past area i: it could not have succeeded.
  lemma Stuck(mem0: Memory, owner0: map<nat, Owner>, t0: Tables, pages0: nat, mem1: Memory, owner1: map<nat, Owner>, t1: Tables, pages1: nat,
              mm: Mm, dst: nat, b: nat, i: nat)
    requires Listed(mem0, mm) && i < |mm.vmas| && ClonedList(mem0, mem1, owner1, mm.pgt, dst, b, mm.vmas[..i])
    requires Paid(t0.Keys, pages0, t1.Keys, pages1, mm.vmas[..i])
    requires var w := mm.vmas[i]; !(RangeFree(mem1, dst, First(w), Count(w)) && pages1 >= Need(t1, First(w), Count(w)) && HasPages(mem0, owner0, mm.pgt, First(w), Count(w)))
    ensures !Ready(mem0, owner0, t0, pages0, mm.pgt, dst, mm.vmas)
  {
    hide RangeFree, HasPages, ClonedList, Paid, NodesOf, First, Count, Total, NodesList, Listed;
    StillFree(mem0, mem1, owner1, mm, dst, b, i);
    if pages1 < Need(t1, First(mm.vmas[i]), Count(mm.vmas[i])) {
      PaidShort(t0.Keys, pages0, t1.Keys, pages1, mm.vmas, i);
    }
  }

  // The inner loop finds all pages exactly if the original has them and the new ones are real.
  lemma PagesMatch(mem0: Memory, owner0: map<nat, Owner>, mem1: Memory, owner1: map<nat, Owner>, mem2: Memory, owner2: map<nat, Owner>, mm: Mm, dst: nat, b: nat, i: nat)
    requires Listed(mem0, mm) && i < |mm.vmas| && 0 !in owner0 && owner2.Keys == owner0.Keys && NOPAGE !in owner0
    requires Same(mem0, mem2, mm.pgt)
    requires Placed(mem1, owner1, mem2, owner2, dst, b, First(mm.vmas[i]), Count(mm.vmas[i]), mm.vmas[i].flags)
    ensures var s, n := First(mm.vmas[i]), Count(mm.vmas[i]);
      HasPages(mem2, owner2, mm.pgt, s, n) && HasPages(mem2, owner2, dst, s, n) <==>
      HasPages(mem0, owner0, mm.pgt, s, n) && Real(mem2, owner2, dst, s, n)
  {
    hide Translate, First, Count, Covers, Leaf;
    var w := mm.vmas[i];
    forall v: nat | In(w, v)
      ensures HasPage(mem2, owner2, mm.pgt, v) <==> HasPage(mem0, owner0, mm.pgt, v)
      ensures HasPage(mem2, owner2, dst, v) ==> RealAt(mem2, owner2, dst, v)
      ensures HasPage(mem0, owner0, mm.pgt, v) && RealAt(mem2, owner2, dst, v) ==> HasPage(mem2, owner2, dst, v)
    {
      SamePage(mem0, mem2, mm.pgt, v);
      Earlier(mem0, mm, i, v);
      assert ListedVma(mem0, mm.pgt, w);
    }
    MatchAll(mem0, owner0, mem2, owner2, mm.pgt, dst, First(w), Count(w));
  }

  lemma MatchAll(mem0: Memory, owner0: map<nat, Owner>, mem2: Memory, owner2: map<nat, Owner>, src: nat, dst: nat, s: nat, n: nat)
    requires forall v: nat :: s <= v < s + n ==>
      && (HasPage(mem2, owner2, src, v) <==> HasPage(mem0, owner0, src, v))
      && (HasPage(mem2, owner2, dst, v) ==> RealAt(mem2, owner2, dst, v))
      && (HasPage(mem0, owner0, src, v) && RealAt(mem2, owner2, dst, v) ==> HasPage(mem2, owner2, dst, v))
    ensures HasPages(mem2, owner2, src, s, n) && HasPages(mem2, owner2, dst, s, n) <==>
      HasPages(mem0, owner0, src, s, n) && Real(mem2, owner2, dst, s, n)
  {
    hide HasPage, RealAt;
    if HasPages(mem2, owner2, src, s, n) && HasPages(mem2, owner2, dst, s, n) {
      forall v: nat | s <= v < s + n ensures HasPage(mem0, owner0, src, v) && RealAt(mem2, owner2, dst, v) {
        assert HasPage(mem2, owner2, src, v) && HasPage(mem2, owner2, dst, v);
      }
    }
    if HasPages(mem0, owner0, src, s, n) && Real(mem2, owner2, dst, s, n) {
      forall v: nat | s <= v < s + n ensures HasPage(mem2, owner2, src, v) && HasPage(mem2, owner2, dst, v) {
        assert HasPage(mem0, owner0, src, v) && RealAt(mem2, owner2, dst, v);
      }
    }
  }

  // ---------- mm_copy's outer loop, step by step

  // Area w was mapped in the copy, giving mid, and filled from the original, giving mem.
  ghost predicate Copying(mem1: Memory, owner1: map<nat, Owner>, mid: Memory, mem: Memory, owner: map<nat, Owner>, src: nat, dst: nat, b: nat, w: Vma) {
    && Kept(mem1, owner1, mid, owner) && Same(mem1, mid, src) && Same(mid, mem, dst)
    && Placed(mem1, owner1, mid, owner, dst, b, First(w), Count(w), w.flags)
    && Copied(mid, mem, owner, src, dst, b, First(w), Count(w))
    && HasPages(mid, owner, dst, First(w), Count(w))
  }

  lemma AreaListed(mem: Memory, mms: map<nat, Mm>, a: nat, i: nat)
    requires AllListed(mem, mms) && a in mms && i < |mms[a].vmas|
    ensures Listed(mem, mms[a])
    ensures var w := mms[a].vmas[i]; Aligned(w) && w.start <= MAXVA && w.end <= MAXVA && Leaf(w.flags) && (First(w) + Count(w)) * PGSIZE <= MAXVA
  {
    hide Translate;
    assert ListedVma(mem, mms[a].pgt, mms[a].vmas[i]);
    InUser(mms[a].vmas[i]);
  }

  lemma AllListedAt(mem: Memory, mms: map<nat, Mm>, a: nat)
    requires AllListed(mem, mms) && a in mms
    ensures Listed(mem, mms[a])
  {
  }

  lemma GrewSame(mem1: Memory, owner1: map<nat, Owner>, tables1: map<nat, Tables>, mem: Memory, owner: map<nat, Owner>, tables: map<nat, Tables>, a: nat, b: nat)
    requires Grew(mem1, owner1, tables1, mem, owner, tables, b) && a in tables1 && a != b
    ensures Root in tables1[a] && Same(mem1, mem, tables1[a][Root]) && Kept(mem1, owner1, mem, owner)
  {
  }

  lemma CopyGrew(mem1: Memory, owner1: map<nat, Owner>, tables1: map<nat, Tables>, mid: Memory, mem: Memory, owner: map<nat, Owner>, tables: map<nat, Tables>,
                 a: nat, b: nat, src: nat, dst: nat, w: Vma)
    requires World(mem1, owner1, tables1) && Grew(mem1, owner1, tables1, mid, owner, tables, b) && SameAll(mid, mem, tables) && Around(mid, owner, mem, owner, b)
    requires Copied(mid, mem, owner, src, dst, b, First(w), Count(w)) && HasPages(mid, owner, dst, First(w), Count(w))
    requires Placed(mem1, owner1, mid, owner, dst, b, First(w), Count(w), w.flags)
    requires a in tables1 && a != b && Root in tables1[a] && tables1[a][Root] == src && b in tables1 && Root in tables1[b] && tables1[b][Root] == dst
    ensures Grew(mem1, owner1, tables1, mem, owner, tables, b) && Copying(mem1, owner1, mid, mem, owner, src, dst, b, w)
  {
    hide World, Translate, HasPages, Same, Around, UserPage;
    AroundTrans(mem1, owner1, mid, owner, mem, owner, b);
    forall p | p in owner1 && owner1[p].Data? ensures !Within(owner1[p], b, First(w), Count(w)) {
      OnlyPage(mem1, owner1, tables1, owner1[p].m, owner1[p].v, p);
    }
    forall k | k in tables1 && k != b ensures Root in tables1[k] && Same(mem1, mem, tables1[k][Root]) {
      assert tables[k] == tables1[k];
      SameTrans(mem1, mid, mem, tables1[k][Root]);
    }
    assert Same(mid, mem, tables[b][Root]);
  }

  lemma ReverseNext(vmas: seq<Vma>, i: nat, list: seq<Vma>)
    requires i < |vmas|
    ensures Reverse(vmas[..i + 1]) + list == [vmas[i]] + (Reverse(vmas[..i]) + list)
  {
    assert vmas[..i + 1][..i] == vmas[..i];
  }

  lemma CopyListStart(mem: Memory, owner: map<nat, Owner>, tables: map<nat, Tables>, free: seq<nat>, a: nat, b: nat, mm: Mm, dst: nat)
    requires World(mem, owner, tables) && b in tables
    ensures Progress(mem, owner, tables, |free|, mem, owner, tables, |free|, mm.pgt, dst, b, mm.vmas[..0]) && Reverse(mm.vmas[..0]) == []
  {
    hide Translate, Good, Accounted;
    RangeStart(mem, owner, tables, b, 0, dst, NoPerm);
  }

  lemma HasSame(mem0: Memory, owner0: map<nat, Owner>, tables0: map<nat, Tables>, mem: Memory, owner: map<nat, Owner>, tables: map<nat, Tables>,
                a: nat, b: nat, src: nat, s: nat, n: nat)
    requires Grew(mem0, owner0, tables0, mem, owner, tables, b) && a in tables0 && a != b && Root in tables0[a] && tables0[a][Root] == src
    ensures HasPages(mem, owner, src, s, n) <==> HasPages(mem0, owner0, src, s, n)
  {
    GrewSame(mem0, owner0, tables0, mem, owner, tables, a, b);
    hide Grew, Same, UserPage;
    forall v: nat ensures HasPage(mem, owner, src, v) <==> HasPage(mem0, owner0, src, v) {
      SamePage(mem0, mem, src, v);
    }
    hide HasPage;
    if HasPages(mem, owner, src, s, n) {
      forall v: nat | s <= v < s + n ensures HasPage(mem0, owner0, src, v) { assert HasPage(mem, owner, src, v); }
    }
    if HasPages(mem0, owner0, src, s, n) {
      forall v: nat | s <= v < s + n ensures HasPage(mem, owner, src, v) { assert HasPage(mem0, owner0, src, v); }
    }
  }

  lemma GrewBeside(mem0: Memory, owner0: map<nat, Owner>, tables0: map<nat, Tables>, mem1: Memory, owner1: map<nat, Owner>, tables1: map<nat, Tables>,
                   mem2: Memory, owner2: map<nat, Owner>, b: nat)
    requires Grew(mem0, owner0, tables0, mem1, owner1, tables1, b) && Beside(mem1, owner1, tables1, mem2, owner2, b)
    ensures Beside(mem0, owner0, tables0, mem2, owner2, b)
  {
    hide Same, Kept, Around;
    AroundTrans(mem0, owner0, mem1, owner1, mem2, owner2, b);
    forall k | k in tables0 && k != b ensures Root in tables0[k] && Same(mem0, mem2, tables0[k][Root]) {
      assert tables1[k] == tables0[k];
      SameTrans(mem0, mem1, mem2, tables0[k][Root]);
    }
  }

  lemma CopyListNext(mem0: Memory, owner0: map<nat, Owner>, tables0: map<nat, Tables>, mem1: Memory, owner1: map<nat, Owner>, tables1: map<nat, Tables>,
                     mid: Memory, mem: Memory, owner: map<nat, Owner>, tables: map<nat, Tables>, mm: Mm, dst: nat, a: nat, b: nat, i: nat)
    requires World(mem0, owner0, tables0) && Grew(mem0, owner0, tables0, mem1, owner1, tables1, b) && 0 !in owner0 && NOPAGE !in owner0
    requires a in tables0 && a != b && Root in tables0[a] && tables0[a][Root] == mm.pgt && Listed(mem0, mm) && i < |mm.vmas|
    requires ClonedList(mem0, mem1, owner1, mm.pgt, dst, b, mm.vmas[..i])
    requires FreeList0(mem0, dst, mm.vmas[..i]) && HasList(mem0, owner0, mm.pgt, mm.vmas[..i])
    requires var w := mm.vmas[i]; RangeFree(mem1, dst, First(w), Count(w)) && HasPages(mem1, owner1, mm.pgt, First(w), Count(w))
    requires Copying(mem1, owner1, mid, mem, owner, mm.pgt, dst, b, mm.vmas[i])
    ensures ClonedList(mem0, mem, owner, mm.pgt, dst, b, mm.vmas[..i + 1])
    ensures FreeList0(mem0, dst, mm.vmas[..i + 1]) && HasList(mem0, owner0, mm.pgt, mm.vmas[..i + 1])
  {
    hide Grew, World, Same, Listed, ClonedList, RangeFree, First, Count, UserPage, Placed, Copied, Translate, Covers, Good;
    var w := mm.vmas[i];
    GrewSame(mem0, owner0, tables0, mem1, owner1, tables1, a, b);
    HasSame(mem0, owner0, tables0, mem1, owner1, tables1, a, b, mm.pgt, First(w), Count(w));
    StillFree(mem0, mem1, owner1, mm, dst, b, i);
    forall v: nat | In(w, v) ensures KeptPage(mem0, owner0, mm.pgt, v) {
      Earlier(mem0, mm, i, v);
      assert HasPage(mem0, owner0, mm.pgt, v);
      PageOwner(mem0, owner0, tables0, a, v);
    }
    CloneNext(mem0, owner0, mem1, owner1, mid, owner, mem, mm, dst, b, i);
    hide HasPages;
    forall k | 0 <= k < i + 1
      ensures RangeFree(mem0, dst, First(mm.vmas[k]), Count(mm.vmas[k])) && HasPages(mem0, owner0, mm.pgt, First(mm.vmas[k]), Count(mm.vmas[k]))
    {
      if k < i { assert mm.vmas[..i][k] == mm.vmas[k]; }
    }
  }

  lemma CopyListDone(mem0: Memory, owner0: map<nat, Owner>, tables0: map<nat, Tables>, free0: nat, mem: Memory, owner: map<nat, Owner>, tables: map<nat, Tables>,
                     free: nat, a: nat, b: nat, src: nat, dst: nat, vmas: seq<Vma>)
    requires Progress(mem0, owner0, tables0, free0, mem, owner, tables, free, src, dst, b, vmas)
    ensures b in tables0 && Ready(mem0, owner0, tables0[b], free0, src, dst, vmas) && Beside(mem0, owner0, tables0, mem, owner, b)
    ensures ClonedList(mem0, mem, owner, src, dst, b, vmas)
  {
    hide FreeList0, HasList, Around, Kept, Same, NodesList, Total, ClonedList;
    Grow(tables0[b].Keys, NodesList(vmas));
  }

  // Where mm_copy stands after the areas vmas.
  ghost predicate Progress(mem0: Memory, owner0: map<nat, Owner>, tables0: map<nat, Tables>, free0: nat,
                           mem: Memory, owner: map<nat, Owner>, tables: map<nat, Tables>, free: nat, src: nat, dst: nat, b: nat, vmas: seq<Vma>)
  {
    && Grew(mem0, owner0, tables0, mem, owner, tables, b)
    && ClonedList(mem0, mem, owner, src, dst, b, vmas)
    && Paid(tables0[b].Keys, free0, tables[b].Keys, free, vmas)
    && FreeList0(mem0, dst, vmas) && HasList(mem0, owner0, src, vmas)
  }

  lemma ProgressNext(mem0: Memory, owner0: map<nat, Owner>, tables0: map<nat, Tables>, free0: nat,
                     mem1: Memory, owner1: map<nat, Owner>, tables1: map<nat, Tables>, free1: nat,
                     mid: Memory, mem: Memory, owner: map<nat, Owner>, tables: map<nat, Tables>, free: nat, mm: Mm, dst: nat, a: nat, b: nat, i: nat)
    requires b in tables0 && World(mem0, owner0, tables0) && 0 !in owner0 && NOPAGE !in owner0
    requires a in tables0 && a != b && Root in tables0[a] && tables0[a][Root] == mm.pgt && Listed(mem0, mm) && i < |mm.vmas|
    requires Progress(mem0, owner0, tables0, free0, mem1, owner1, tables1, free1, mm.pgt, dst, b, mm.vmas[..i])
    requires var w := mm.vmas[i]; RangeFree(mem1, dst, First(w), Count(w)) && HasPages(mem1, owner1, mm.pgt, First(w), Count(w))
    requires Copying(mem1, owner1, mid, mem, owner, mm.pgt, dst, b, mm.vmas[i]) && Grew(mem1, owner1, tables1, mem, owner, tables, b)
    requires b in tables1 && b in tables && tables[b].Keys == tables1[b].Keys + NodesOf(First(mm.vmas[i]), Count(mm.vmas[i]))
    requires free + |tables[b]| + Count(mm.vmas[i]) == free1 + |tables1[b]|
    ensures Progress(mem0, owner0, tables0, free0, mem, owner, tables, free, mm.pgt, dst, b, mm.vmas[..i + 1])
  {
    hide World, Listed, ClonedList, RangeFree, HasPages, Copying, First, Count, NodesOf, FreeList0, HasList, Grew, Paid;
    CopyListNext(mem0, owner0, tables0, mem1, owner1, tables1, mid, mem, owner, tables, mm, dst, a, b, i);
    PaidNext(tables0[b].Keys, free0, tables1[b].Keys, free1, tables[b].Keys, free, mm.vmas, i);
    GrewTrans(mem0, owner0, tables0, mem1, owner1, tables1, mem, owner, tables, b);
  }

  lemma ProgressStuck(mem0: Memory, owner0: map<nat, Owner>, tables0: map<nat, Tables>, free0: nat,
                      mem1: Memory, owner1: map<nat, Owner>, tables1: map<nat, Tables>, free1: nat, mm: Mm, dst: nat, a: nat, b: nat, i: nat)
    requires a in tables0 && a != b && Root in tables0[a] && tables0[a][Root] == mm.pgt && Listed(mem0, mm) && i < |mm.vmas|
    requires Progress(mem0, owner0, tables0, free0, mem1, owner1, tables1, free1, mm.pgt, dst, b, mm.vmas[..i])
    requires b in tables0 && b in tables1
    requires var w := mm.vmas[i];
      !(RangeFree(mem1, dst, First(w), Count(w)) && free1 >= Need(tables1[b], First(w), Count(w)) && HasPages(mem1, owner1, mm.pgt, First(w), Count(w)))
    ensures !Ready(mem0, owner0, tables0[b], free0, mm.pgt, dst, mm.vmas)
  {
    hide Listed, ClonedList, RangeFree, HasPages, First, Count, NodesOf, FreeList0, HasList, Grew, Paid, Ready, Need;
    HasSame(mem0, owner0, tables0, mem1, owner1, tables1, a, b, mm.pgt, First(mm.vmas[i]), Count(mm.vmas[i]));
    Stuck(mem0, owner0, tables0[b], free0, mem1, owner1, tables1[b], free1, mm, dst, b, i);
  }

  lemma ProgressBeside(mem0: Memory, owner0: map<nat, Owner>, tables0: map<nat, Tables>, free0: nat,
                       mem1: Memory, owner1: map<nat, Owner>, tables1: map<nat, Tables>, free1: nat, mem2: Memory, owner2: map<nat, Owner>, tables2: map<nat, Tables>,
                       mem: Memory, owner: map<nat, Owner>, src: nat, dst: nat, b: nat, vmas: seq<Vma>)
    requires Progress(mem0, owner0, tables0, free0, mem1, owner1, tables1, free1, src, dst, b, vmas)
    requires Grew(mem1, owner1, tables1, mem2, owner2, tables2, b) && Beside(mem2, owner2, tables2, mem, owner, b)
    ensures Beside(mem0, owner0, tables0, mem, owner, b)
  {
    hide Grew, Beside, ClonedList, Paid, FreeList0, HasList;
    GrewTrans(mem0, owner0, tables0, mem1, owner1, tables1, mem2, owner2, tables2, b);
    GrewBeside(mem0, owner0, tables0, mem2, owner2, tables2, mem, owner, b);
  }

  // mm_copy gave up at page d of area w: the areas of `gone` are unmapped, the first d
  // pages of w are still mapped, on frames that were free, and no other page of the copy
  // changed.  A frame that was free is free, a table of the copy, or behind one of those d
  // pages; of the other frames only those behind the areas of `gone` changed: they are free.
  ghost predicate Abandoned(mem0: Memory, owner0: map<nat, Owner>, mem: Memory, owner: map<nat, Owner>, dst: nat, b: nat, gone: seq<Vma>, w: Vma, d: nat) {
    && owner.Keys == owner0.Keys
    && (forall v: nat :: v < VPNS ==> LeftAt(mem0, owner0, mem, owner, dst, b, gone, w, d, v))
    && (forall p :: p in owner0 ==> LeftFrame(owner0[p], owner[p], b, gone, w, d))
  }

  ghost predicate LeftAt(mem0: Memory, owner0: map<nat, Owner>, mem: Memory, owner: map<nat, Owner>, dst: nat, b: nat, gone: seq<Vma>, w: Vma, d: nat, v: nat) {
    if Covers(gone, v) then Translate(mem, dst, v).None?
    else if First(w) <= v < First(w) + d then
      Translate(mem0, dst, v).None? && Fresh(owner0, owner, b, v, w.flags, Translate(mem, dst, v))
    else Translate(mem, dst, v) == Translate(mem0, dst, v)
  }

  ghost predicate LeftFrame(o: Owner, o': Owner, b: nat, gone: seq<Vma>, w: Vma, d: nat) {
    if o == Free then o' == Free || (o'.Table? && o'.m == b) || Within(o', b, First(w), d)
    else o' == if o.Data? && o.m == b && Covers(gone, o.v) then Free else o
  }

  // The failure of mm_copy, in area i of the original.
  ghost predicate GaveUp(mem0: Memory, owner0: map<nat, Owner>, mem: Memory, owner: map<nat, Owner>, dst: nat, b: nat, vmas: seq<Vma>, own: seq<Vma>, i: nat, d: nat) {
    i < |vmas| && d < Count(vmas[i]) && Abandoned(mem0, owner0, mem, owner, dst, b, Reverse(vmas[..i]) + own, vmas[i], d)
  }

  lemma CoversReverse(vmas: seq<Vma>, own: seq<Vma>, v: nat)
    ensures Covers(vmas, v) ==> Covers(Reverse(vmas) + own, v)
  {
    if Covers(vmas, v) {
      var k :| 0 <= k < |vmas| && In(vmas[k], v);
      var r := Reverse(vmas) + own;
      assert r[|vmas| - 1 - k] == vmas[k];
      assert In(r[|vmas| - 1 - k], v);
    }
  }

  lemma LeftPage(mem0: Memory, owner0: map<nat, Owner>, mem1: Memory, owner1: map<nat, Owner>, mem2: Memory, owner2: map<nat, Owner>, mem: Memory, owner: map<nat, Owner>,
                 src: nat, dst: nat, b: nat, done: seq<Vma>, own: seq<Vma>, w: Vma, d: nat, v: nat)
    requires v < VPNS && Kept(mem0, owner0, mem1, owner1) && ClonedList(mem0, mem1, owner1, src, dst, b, done)
    requires Placed(mem1, owner1, mem2, owner2, dst, b, First(w), d, w.flags)
    requires ClearedList(mem2, owner2, mem, owner, dst, b, Reverse(done) + own)
    ensures LeftAt(mem0, owner0, mem, owner, dst, b, Reverse(done) + own, w, d, v)
  {
    hide Translate, Covers, First, Count, Reverse, UserPage;
    CoversReverse(done, own, v);
  }

  lemma LeftTable(mem0: Memory, owner0: map<nat, Owner>, tables0: map<nat, Tables>, mem2: Memory, owner2: map<nat, Owner>, tables2: map<nat, Tables>, b: nat, p: nat)
    requires World(mem0, owner0, tables0) && World(mem2, owner2, tables2) && Grew(mem0, owner0, tables0, mem2, owner2, tables2, b)
    requires p in owner0 && owner0[p] != Free
    ensures p in owner2 && owner2[p] == owner0[p]
  {
    hide Translate, Same, Shape, Tidy, Backed;
    if owner0[p].Table? && owner0[p].m == b {
      assert Used(mem0, tables0, p, owner0[p]);
      assert Good(mem2, owner2, b, tables2[b]);
    }
  }

  // A frame that was free and is behind page v of the copy.
  lemma LeftData(mem0: Memory, owner0: map<nat, Owner>, tables0: map<nat, Tables>, mem: Memory, owner: map<nat, Owner>, tables: map<nat, Tables>,
                 dst: nat, b: nat, gone: seq<Vma>, w: Vma, d: nat, p: nat, v: nat)
    requires World(mem0, owner0, tables0) && World(mem, owner, tables) && b in tables0 && b in tables
    requires Root in tables0[b] && tables0[b][Root] == dst && Root in tables[b] && tables[b][Root] == dst
    requires p in owner0 && owner0[p] == Free && p in owner && owner[p] == Data(b, v)
    requires forall u: nat :: u < VPNS ==> LeftAt(mem0, owner0, mem, owner, dst, b, gone, w, d, u)
    ensures First(w) <= v < First(w) + d
  {
    hide Translate, Covers, First, Count, Shape, Tidy, Fresh;
    OnlyPage(mem, owner, tables, b, v, p);
    assert LeftAt(mem0, owner0, mem, owner, dst, b, gone, w, d, v);
    assert Good(mem0, owner0, b, tables0[b]);
  }

  // mem1: before area w; mem2: after its mm_mappages stopped at page d; mem: after mm_free_pages.
  lemma LeftAll(mem0: Memory, owner0: map<nat, Owner>, tables0: map<nat, Tables>, mem1: Memory, owner1: map<nat, Owner>, mem2: Memory, owner2: map<nat, Owner>, tables2: map<nat, Tables>,
                mem: Memory, owner: map<nat, Owner>, src: nat, dst: nat, b: nat, done: seq<Vma>, own: seq<Vma>, w: Vma, d: nat)
    requires World(mem0, owner0, tables0) && World(mem2, owner2, tables2) && World(mem, owner, tables2)
    requires Grew(mem0, owner0, tables0, mem2, owner2, tables2, b) && Root in tables0[b] && tables0[b][Root] == dst
    requires Kept(mem0, owner0, mem1, owner1) && ClonedList(mem0, mem1, owner1, src, dst, b, done)
    requires Placed(mem1, owner1, mem2, owner2, dst, b, First(w), d, w.flags)
    requires ClearedList(mem2, owner2, mem, owner, dst, b, Reverse(done) + own)
    ensures Abandoned(mem0, owner0, mem, owner, dst, b, Reverse(done) + own, w, d)
  {
    hide World, Translate, Covers, First, Count, Reverse, UserPage, Same, ClonedList, Placed, LeftAt, Around;
    var gone := Reverse(done) + own;
    forall v: nat | v < VPNS ensures LeftAt(mem0, owner0, mem, owner, dst, b, gone, w, d, v) {
      LeftPage(mem0, owner0, mem1, owner1, mem2, owner2, mem, owner, src, dst, b, done, own, w, d, v);
    }
    forall p | p in owner0 ensures LeftFrame(owner0[p], owner[p], b, gone, w, d) {
      if owner0[p] != Free {
        LeftTable(mem0, owner0, tables0, mem2, owner2, tables2, b, p);
      } else {
        FreeBecomes(mem0, owner0, tables0, mem2, owner2, tables2, b, p);
        if owner[p].Data? && owner[p].m == b { LeftData(mem0, owner0, tables0, mem, owner, tables2, dst, b, gone, w, d, p, owner[p].v); }
      }
    }
  }

  lemma FreeBecomes(mem0: Memory, owner0: map<nat, Owner>, tables0: map<nat, Tables>, mem2: Memory, owner2: map<nat, Owner>, tables2: map<nat, Tables>, b: nat, p: nat)
    requires Grew(mem0, owner0, tables0, mem2, owner2, tables2, b) && p in owner0 && owner0[p] == Free
    ensures p in owner2 && (owner2[p] == Free || ((owner2[p].Table? || owner2[p].Data?) && owner2[p].m == b))
  {
    hide Same;
  }

  // The same, for mm_copy: mem1 is where the loop stood, mem2 where mm_mappages stopped.
  lemma ProgressLeft(mem0: Memory, owner0: map<nat, Owner>, tables0: map<nat, Tables>, free0: nat,
                     mem1: Memory, owner1: map<nat, Owner>, tables1: map<nat, Tables>, free1: nat, mem2: Memory, owner2: map<nat, Owner>, tables2: map<nat, Tables>,
                     mem: Memory, owner: map<nat, Owner>, src: nat, dst: nat, b: nat, vmas: seq<Vma>, own: seq<Vma>, i: nat, t1: Tables, free: nat)
    requires World(mem0, owner0, tables0) && World(mem2, owner2, tables2) && World(mem, owner, tables2)
    requires b in tables0 && Root in tables0[b] && tables0[b][Root] == dst && i < |vmas|
    requires Progress(mem0, owner0, tables0, free0, mem1, owner1, tables1, free1, src, dst, b, vmas[..i])
    requires Grew(mem1, owner1, tables1, mem2, owner2, tables2, b)
    requires exists d: nat :: Stopped(mem1, owner1, t1, free, mem2, owner2, dst, b, vmas[i], d)
    requires ClearedList(mem2, owner2, mem, owner, dst, b, Reverse(vmas[..i]) + own)
    ensures exists d: nat :: GaveUp(mem0, owner0, mem, owner, dst, b, vmas, own, i, d)
  {
    hide World, ClonedList, Paid, FreeList0, HasList, ClearedList, Placed, Blocked, Abandoned, Reverse, First, Count;
    GrewTrans(mem0, owner0, tables0, mem1, owner1, tables1, mem2, owner2, tables2, b);
    var d: nat :| Stopped(mem1, owner1, t1, free, mem2, owner2, dst, b, vmas[i], d);
    LeftAll(mem0, owner0, tables0, mem1, owner1, mem2, owner2, tables2, mem, owner, src, dst, b, vmas[..i], own, vmas[i], d);
    assert GaveUp(mem0, owner0, mem, owner, dst, b, vmas, own, i, d);
  }

  lemma SetTwice(mms: map<nat, Mm>, b: nat, x: Mm, y: Mm)
    ensures mms[b := x][b := y] == mms[b := y]
  {
  }
}

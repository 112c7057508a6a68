/**
  The kernel's mapper (os/kvm.c): kvmmap chooses 2 MiB leaves where it can, and
  still maps exactly what a mapper of single pages would.
*/
module Kvm {
  import opened Sv39

  const PGSIZE: nat := 4096
  const PGSIZE_2M: nat := 0x200000
  const U64: nat := 0x1_0000_0000_0000_0000
  const SPAN: nat := 0x80_0000_0000       // bytes one page table covers

  // The virtual page of a 64-bit address, as PX selects it.
  function Vpn(va: nat): (v: nat) ensures v < VPNS { va / PGSIZE % VPNS }

  // kvmmap returns, or panics; the address is the page it was working on.
  datatype KvmResult = Mapped | Misaligned | Wrapped | AlreadyMapped(vaddr: nat) | OutOfPages(vaddr: nat)

  // The n pages from v0 translate to the pages from ppn with permissions perm, and
  // every other page translates as in mem0.
  ghost predicate Extended(mem0: Memory, mem: Memory, root: nat, v0: nat, n: nat, ppn: nat, perm: Perm) {
    forall v: nat :: v < VPNS ==>
      Translate(mem, root, v) == if v0 <= v < v0 + n then Some(MakePte(ppn + v - v0, perm)) else Translate(mem0, root, v)
  }

  lemma VpnOf(va: nat)
    ensures Vpn(va) == va % SPAN / PGSIZE
  {
    assert va == va / SPAN * SPAN + va % SPAN;
  }

  lemma VpnStep(va: nat, d: nat, n: nat)
    requires va % PGSIZE == 0 && va % SPAN + n * PGSIZE <= SPAN && d < n
    ensures Vpn(va + d * PGSIZE) == Vpn(va) + d && Vpn(va) + n <= VPNS
    ensures (va + d * PGSIZE) % SPAN == va % SPAN + d * PGSIZE
  {
    VpnOf(va);
    VpnOf(va + d * PGSIZE);
    SpanOf(va + d * PGSIZE, va / SPAN, va % SPAN + d * PGSIZE);
    hide Vpn;
  }

  lemma SpanOf(x: nat, q: nat, r: nat)
    requires x == SPAN * q + r && r < SPAN
    ensures x % SPAN == r
  {
  }

  lemma VpnFits(va: nat, size: nat)
    requires va % PGSIZE == 0 && size % PGSIZE == 0 && va % SPAN + size <= SPAN
    ensures Vpn(va) + size / PGSIZE <= VPNS
  {
    VpnOf(va);
  }

  // ---------- the tables a range needs

  // The loop body tries a 2 MiB leaf first.
  predicate Huge(vaddr: nat, paddr: nat, sz: nat) {
    vaddr % PGSIZE_2M == 0 && paddr % PGSIZE_2M == 0 && sz >= PGSIZE_2M
  }

  // The 2 MiB block of page v lies inside the n pages from v0, and its frames are
  // aligned like its pages.
  predicate Whole(v0: nat, n: nat, ppn: nat, v: nat) {
    v0 <= v / BLOCK * BLOCK && v / BLOCK * BLOCK + BLOCK <= v0 + n && (ppn + v / BLOCK * BLOCK - v0) % BLOCK == 0
  }

  // A level 1 table for every gigabyte touched, and a level 0 table for every block
  // that no single leaf can map.
  ghost function Wanted(v0: nat, n: nat, ppn: nat): set<Node> {
    (set v: nat | v0 <= v < v0 + n :: Mid(I2(v)))
    + (set v: nat | v0 <= v < v0 + n && !Whole(v0, n, ppn, v) :: Low(I2(v), I1(v)))
  }

  // Those of them that are missing.
  ghost function Need(t: Tables, v0: nat, n: nat, ppn: nat): set<Node> { Wanted(v0, n, ppn) - t.Keys }

  // A range of whole blocks with aligned frames needs no level 0 table: 64 MiB of direct
  // mapping, 16384 pages, take one page of the pool at most.
  lemma AlignedWanted(v0: nat, n: nat, ppn: nat)
    requires v0 % BLOCK == 0 && n % BLOCK == 0 && ppn % BLOCK == 0
    ensures Wanted(v0, n, ppn) == set v: nat | v0 <= v < v0 + n :: Mid(I2(v))
  {
    hide I1, I2;
    forall v: nat | v0 <= v < v0 + n ensures Whole(v0, n, ppn, v) {
      assert v / BLOCK * BLOCK >= v0 && v / BLOCK * BLOCK + BLOCK <= v0 + n;
    }
  }

  // At most table x was added, from one page of the pool.
  ghost predicate Grown(t0: Tables, pool0: seq<nat>, t: Tables, pool: seq<nat>, x: set<Node>) {
    t0.Keys <= t.Keys <= t0.Keys + x && |t.Keys| + |pool| == |t0.Keys| + |pool0|
  }

  // What the first d rounds have done about the tables of the range.
  ghost predicate Made(t0: Tables, t: Tables, v0: nat, n: nat, ppn: nat, d: nat) {
    && t0.Keys <= t.Keys <= t0.Keys + Wanted(v0, n, ppn)
    && (forall u: nat :: v0 <= u < v0 + d ==> MadeAt(t, v0, n, ppn, u))
    && (d > 0 && (v0 + d) % BLOCK != 0 ==> Low(I2(v0 + d), I1(v0 + d)) in t)
  }

  ghost predicate MadeAt(t: Tables, v0: nat, n: nat, ppn: nat, u: nat) {
    Mid(I2(u)) in t && (Whole(v0, n, ppn, u) || Low(I2(u), I1(u)) in t)
  }

  lemma HugeWhole(va: nat, pa: nat, size: nat, d: nat)
    requires va % PGSIZE == 0 && pa % PGSIZE == 0 && size % PGSIZE == 0 && d < size / PGSIZE && va % SPAN + size <= SPAN
    ensures var v0, n, ppn := Vpn(va), size / PGSIZE, pa / PGSIZE;
      && d * PGSIZE <= size
      && (Huge(va + d * PGSIZE, pa + d * PGSIZE, size - d * PGSIZE) <==>
            (v0 + d) % BLOCK == 0 && Whole(v0, n, ppn, v0 + d))
  {
    var v0, n, ppn := Vpn(va), size / PGSIZE, pa / PGSIZE;
    VpnStep(va, d, n);
    AlignedPages(va + d * PGSIZE);
    assert (pa + d * PGSIZE) / PGSIZE == ppn + d;
    AlignedFrame(pa + d * PGSIZE);
  }

  // Where kvmmap's three counters stand after d pages.
  ghost predicate At(va: nat, pa: nat, size: nat, vaddr: nat, paddr: nat, sz: nat, d: nat) {
    vaddr == va + d * PGSIZE && paddr == pa + d * PGSIZE && sz + d * PGSIZE == size && d <= size / PGSIZE
  }

  predicate PageRange(va: nat, pa: nat, size: nat) { va % PGSIZE == 0 && pa % PGSIZE == 0 && size % PGSIZE == 0 }

  lemma AtHere(va: nat, pa: nat, size: nat, vaddr: nat, paddr: nat, sz: nat, d: nat)
    requires PageRange(va, pa, size) && va % SPAN + size <= SPAN && At(va, pa, size, vaddr, paddr, sz, d) && vaddr < va + size
    ensures d < size / PGSIZE && sz > 0 && vaddr % SPAN + sz <= SPAN
    ensures Vpn(vaddr) == Vpn(va) + d && paddr / PGSIZE == pa / PGSIZE + d
    ensures Huge(vaddr, paddr, sz) <==> (Vpn(va) + d) % BLOCK == 0 && Whole(Vpn(va), size / PGSIZE, pa / PGSIZE, Vpn(va) + d)
    ensures vaddr % PGSIZE == 0 && va <= vaddr && (vaddr - va) / PGSIZE == d
  {
    hide Whole, Huge, Vpn;
    VpnStep(va, d, size / PGSIZE);
    HugeWhole(va, pa, size, d);
    FrameStep(pa, d);
  }

  lemma FrameStep(pa: nat, d: nat)
    requires pa % PGSIZE == 0
    ensures (pa + d * PGSIZE) / PGSIZE == pa / PGSIZE + d
  {
  }

  lemma AtStart(va: nat, pa: nat, size: nat)
    ensures At(va, pa, size, va, pa, size, 0)
  {
  }

  lemma AtNext(va: nat, pa: nat, size: nat, vaddr: nat, paddr: nat, sz: nat, d: nat, pages: nat)
    requires At(va, pa, size, vaddr, paddr, sz, d) && d + pages <= size / PGSIZE
    ensures sz >= pages * PGSIZE
    ensures At(va, pa, size, vaddr + pages * PGSIZE, paddr + pages * PGSIZE, sz - pages * PGSIZE, d + pages)
  {
  }

  lemma AtEnd(va: nat, pa: nat, size: nat, vaddr: nat, paddr: nat, sz: nat, d: nat)
    requires PageRange(va, pa, size) && At(va, pa, size, vaddr, paddr, sz, d)
    ensures vaddr >= va + size ==> d == size / PGSIZE && sz == 0 && vaddr == va + size
  {
  }

  lemma AlignedPages(va: nat)
    requires va % PGSIZE == 0
    ensures va % PGSIZE_2M == 0 <==> Vpn(va) % BLOCK == 0
  {
    AlignedFrame(va);
    var q := va / PGSIZE;
    assert q == q / VPNS * 0x40000 * BLOCK + q % VPNS;
  }

  lemma AlignedFrame(pa: nat)
    requires pa % PGSIZE == 0
    ensures pa % PGSIZE_2M == 0 <==> pa / PGSIZE % BLOCK == 0
  {
  }

  // The pages of one block agree about it.
  lemma WholeBlock(v0: nat, n: nat, ppn: nat, v: nat, u: nat)
    requires v % BLOCK == 0 && v <= u < v + BLOCK && v + BLOCK <= VPNS
    ensures Whole(v0, n, ppn, u) == Whole(v0, n, ppn, v) && I2(u) == I2(v)
  {
    assert u / BLOCK == v / BLOCK;
    assert u / 0x40000 == u / BLOCK / 512 && v / 0x40000 == v / BLOCK / 512;
  }

  // A table the round at page v0 + d adds is one of those wanted.
  lemma WantedHere(t0: Tables, t1: Tables, v0: nat, n: nat, ppn: nat, d: nat, low: bool)
    requires Made(t0, t1, v0, n, ppn, d) && d < n
    requires low ==> !((v0 + d) % BLOCK == 0 && Whole(v0, n, ppn, v0 + d)) && Low(I2(v0 + d), I1(v0 + d)) !in t1
    ensures Mid(I2(v0 + d)) in Wanted(v0, n, ppn)
    ensures low ==> Low(I2(v0 + d), I1(v0 + d)) in Wanted(v0, n, ppn)
  {
    hide I1, I2;
    if low {
      assert !Whole(v0, n, ppn, v0 + d);
    }
  }

  // The tables added in one round, for any outcome.
  ghost predicate Round(t1: Tables, pool1: seq<nat>, t2: Tables, pool2: seq<nat>, v: nat, huge: bool) {
    && Grown(t1, pool1, t2, pool2, {Mid(I2(v)), Low(I2(v), I1(v))})
    && (huge && Low(I2(v), I1(v)) in t2 ==> Low(I2(v), I1(v)) in t1)
  }

  // Between t1 and t2 only wanted tables were added.
  ghost predicate Added(t0: Tables, t1: Tables, t2: Tables, v0: nat, n: nat, ppn: nat) {
    t1.Keys <= t2.Keys && t0.Keys <= t2.Keys <= t0.Keys + Wanted(v0, n, ppn)
  }

  lemma RoundWanted(t0: Tables, t1: Tables, pool1: seq<nat>, t2: Tables, pool2: seq<nat>, v0: nat, n: nat, ppn: nat, d: nat, huge: bool)
    requires Made(t0, t1, v0, n, ppn, d) && d < n && Round(t1, pool1, t2, pool2, v0 + d, huge)
    requires huge <==> (v0 + d) % BLOCK == 0 && Whole(v0, n, ppn, v0 + d)
    ensures Added(t0, t1, t2, v0, n, ppn) && |t2.Keys| + |pool2| == |t1.Keys| + |pool1|
  {
    hide I1, I2, Wanted, Whole;
    var low := Low(I2(v0 + d), I1(v0 + d)) in t2 && Low(I2(v0 + d), I1(v0 + d)) !in t1;
    WantedHere(t0, t1, v0, n, ppn, d, low);
    Widen(t0.Keys, t1.Keys, t2.Keys, Wanted(v0, n, ppn), Mid(I2(v0 + d)), Low(I2(v0 + d), I1(v0 + d)));
  }

  lemma Widen<T>(had: set<T>, has1: set<T>, has2: set<T>, wanted: set<T>, a: T, b: T)
    requires had <= has1 <= had + wanted && has1 <= has2 <= has1 + {a, b} && a in wanted
    requires b in has2 && b !in has1 ==> b in wanted
    ensures had <= has2 <= had + wanted
  {
  }

  lemma MadePage(t0: Tables, t1: Tables, t2: Tables, v0: nat, n: nat, ppn: nat, d: nat)
    requires Made(t0, t1, v0, n, ppn, d) && Added(t0, t1, t2, v0, n, ppn)
    requires Mid(I2(v0 + d)) in t2 && Low(I2(v0 + d), I1(v0 + d)) in t2
    ensures Made(t0, t2, v0, n, ppn, d + 1)
  {
    hide Wanted, Whole, I1, I2;
    var v := v0 + d;
    forall u: nat | v0 <= u < v ensures MadeAt(t2, v0, n, ppn, u) {
      assert MadeAt(t1, v0, n, ppn, u);
    }
    if (v + 1) % BLOCK != 0 { NextInBlock(v); }
  }

  lemma NextInBlock(v: nat)
    requires (v + 1) % BLOCK != 0
    ensures I1(v + 1) == I1(v) && I2(v + 1) == I2(v)
  {
    assert (v + 1) / BLOCK == v / BLOCK;
    assert (v + 1) / 0x40000 == (v + 1) / BLOCK / 512 && v / 0x40000 == v / BLOCK / 512;
  }

  lemma MadeBlock(t0: Tables, t1: Tables, t2: Tables, v0: nat, n: nat, ppn: nat, d: nat)
    requires Made(t0, t1, v0, n, ppn, d) && Added(t0, t1, t2, v0, n, ppn)
    requires (v0 + d) % BLOCK == 0 && Whole(v0, n, ppn, v0 + d) && v0 + d + BLOCK <= VPNS && Mid(I2(v0 + d)) in t2
    ensures Made(t0, t2, v0, n, ppn, d + BLOCK)
  {
    hide Wanted, Whole, I1, I2;
    forall u: nat | v0 <= u < v0 + d + BLOCK ensures MadeAt(t2, v0, n, ppn, u) {
      if u < v0 + d { assert MadeAt(t1, v0, n, ppn, u); } else { WholeBlock(v0, n, ppn, v0 + d, u); }
    }
    assert (v0 + d + BLOCK) % BLOCK == 0;
  }

  lemma MadeMore(t0: Tables, t1: Tables, t2: Tables, v0: nat, n: nat, ppn: nat, d: nat, pages: nat)
    requires Made(t0, t1, v0, n, ppn, d) && Added(t0, t1, t2, v0, n, ppn)
    requires d < n && v0 + n <= VPNS && Mid(I2(v0 + d)) in t2
    requires (pages == 1 && Low(I2(v0 + d), I1(v0 + d)) in t2)
             || (pages == BLOCK && (v0 + d) % BLOCK == 0 && Whole(v0, n, ppn, v0 + d))
    ensures Made(t0, t2, v0, n, ppn, d + pages) && d + pages <= n
  {
    hide Made, Wanted, Added, I1, I2;
    if pages == 1 { MadePage(t0, t1, t2, v0, n, ppn, d); } else { MadeBlock(t0, t1, t2, v0, n, ppn, d); }
  }

  lemma PointerFollowed(mem: Memory, t: Tables, a: Node, i: nat)
    requires Shape(mem, t) && a in t && i < 512 && IsPointer(mem[t[a]][i])
    ensures Child(a, i) in t && t[Child(a, i)] == mem[t[a]][i].ppn
  {
    assert Filled(mem, t, a);
    assert Linked(mem, t, Child(a, i));
  }

  lemma MadeWanted(t: Tables, v0: nat, n: nat, ppn: nat)
    requires forall u: nat :: v0 <= u < v0 + n ==> MadeAt(t, v0, n, ppn, u)
    ensures Wanted(v0, n, ppn) <= t.Keys
  {
    hide I1, I2, Whole;
    forall x | x in Wanted(v0, n, ppn) ensures x in t {
      if x.Mid? {
        var v: nat :| v0 <= v < v0 + n && x == Mid(I2(v));
        assert MadeAt(t, v0, n, ppn, v);
      } else {
        var v: nat :| v0 <= v < v0 + n && x == Low(I2(v), I1(v)) && !Whole(v0, n, ppn, v);
        assert MadeAt(t, v0, n, ppn, v);
      }
    }
  }

  lemma Enough<T>(had: set<T>, has: set<T>, wanted: set<T>, m: nat)
    requires had <= has && wanted <= has && |has| <= |had| + m
    ensures |wanted - had| <= m
  {
    SubsetSize(wanted - had, has - had);
    assert has == had + (has - had);
  }

  // All rounds done: the tables wanted are there, so the pool held the missing ones.
  lemma MadeAll(t0: Tables, t: Tables, pool0: seq<nat>, pool: seq<nat>, v0: nat, n: nat, ppn: nat)
    requires Made(t0, t, v0, n, ppn, n) && |t.Keys| + |pool| == |t0.Keys| + |pool0|
    ensures |Need(t0, v0, n, ppn)| <= |pool0|
  {
    hide Wanted, MadeAt;
    MadeWanted(t, v0, n, ppn);
    Enough(t0.Keys, t.Keys, Wanted(v0, n, ppn), |pool0|);
  }

  // A table wanted is missing and the pool is empty.
  lemma MadeNot(t0: Tables, t: Tables, pool0: seq<nat>, v0: nat, n: nat, ppn: nat, x: Node)
    requires t0.Keys <= t.Keys <= t0.Keys + Wanted(v0, n, ppn) && |t.Keys| == |t0.Keys| + |pool0|
    requires x in Wanted(v0, n, ppn) && x !in t
    ensures |Need(t0, v0, n, ppn)| > |pool0|
  {
    hide Wanted;
    Short(t0.Keys, t.Keys, Wanted(v0, n, ppn), x, |pool0|);
  }

  lemma Short<T>(had: set<T>, has: set<T>, wanted: set<T>, x: T, m: nat)
    requires had <= has <= had + wanted && |has| == |had| + m && x in wanted && x !in has
    ensures |wanted - had| > m
  {
    var made := has - had;
    assert has == had + made;
    assert made + {x} <= wanted - had;
    SubsetSize(made + {x}, wanted - had);
  }

  // The round at page v0 + d found the pool empty.
  lemma NoPageMade(t0: Tables, t1: Tables, pool1: seq<nat>, t: Tables, pool0: seq<nat>, v0: nat, n: nat, ppn: nat, d: nat, huge: bool)
    requires Made(t0, t1, v0, n, ppn, d) && d < n && Round(t1, pool1, t, [], v0 + d, huge)
    requires huge <==> (v0 + d) % BLOCK == 0 && Whole(v0, n, ppn, v0 + d)
    requires |t.Keys| == |t0.Keys| + |pool0|
    requires Mid(I2(v0 + d)) !in t || (!huge && Low(I2(v0 + d), I1(v0 + d)) !in t)
    ensures |Need(t0, v0, n, ppn)| > |pool0|
  {
    hide Made, Whole, Wanted, I1, I2;
    RoundWanted(t0, t1, pool1, t, [], v0, n, ppn, d, huge);
    if Mid(I2(v0 + d)) !in t {
      WantedHere(t0, t1, v0, n, ppn, d, false);
      MadeNot(t0, t, pool0, v0, n, ppn, Mid(I2(v0 + d)));
    } else {
      WantedHere(t0, t1, v0, n, ppn, d, true);
      MadeNot(t0, t, pool0, v0, n, ppn, Low(I2(v0 + d), I1(v0 + d)));
    }
  }

  lemma SubsetSize<T>(a: set<T>, b: set<T>)
    requires a <= b
    ensures |a| <= |b|
  {
    assert b == a + (b - a);
  }

  // One round of the loop at page v and frame ppn: it maps one free page, or 512 where
  // a 2 MiB leaf fits, or finds page v taken, or lacks a page for a table.
  ghost predicate Stepped(r: StepResult, mem0: Memory, t0: Tables, pool0: seq<nat>, mem: Memory, t: Tables, pool: seq<nat>,
                          root: nat, v: nat, ppn: nat, huge: bool, perm: Perm)
  {
    && Round(t0, pool0, t, pool, v, huge)
    && match r
       case Advanced(pages) =>
         && RangeFree(mem0, root, v, pages) && Extended(mem0, mem, root, v, pages, ppn, perm)
         && Mid(I2(v)) in t
         && ((pages == 1 && Low(I2(v), I1(v)) in t) || (pages == 512 && huge))
       case Taken => Translate(mem0, root, v).Some? && Same(mem0, mem, root)
       case NoPage =>
         && pool == [] && Same(mem0, mem, root)
         && (Mid(I2(v)) !in t || (!huge && Low(I2(v), I1(v)) !in t))
  }

  lemma RoundTop(t0: Tables, pool0: seq<nat>, t1: Tables, pool1: seq<nat>, v: nat, huge: bool)
    requires Grown(t0, pool0, t1, pool1, {Mid(I2(v))})
    ensures Round(t0, pool0, t1, pool1, v, huge)
  {
  }

  lemma RoundBoth(t0: Tables, pool0: seq<nat>, t1: Tables, pool1: seq<nat>, t2: Tables, pool2: seq<nat>, v: nat, huge: bool)
    requires Grown(t0, pool0, t1, pool1, {Mid(I2(v))}) && Grown(t1, pool1, t2, pool2, {Low(I2(v), I1(v))})
    requires Low(I2(v), I1(v)) in t2 && Low(I2(v), I1(v)) !in t1 ==> !huge
    ensures Round(t0, pool0, t2, pool2, v, huge)
  {
  }

  // The range so far, as the memory, the tables and the pool show it.
  ghost predicate DoneIn(j: Job, mem: Memory, t: Tables, pool: seq<nat>, root: nat, d: nat) {
    && d <= j.n && j.v0 + j.n <= VPNS
    && RangeFree(j.mem0, root, j.v0, d) && Extended(j.mem0, mem, root, j.v0, d, j.ppn, j.perm)
    && Made(j.t0, t, j.v0, j.n, j.ppn, d) && |t.Keys| + |pool| == |j.t0.Keys| + |j.pool0|
  }

  lemma SteppedOn(r: StepResult, j: Job, mem1: Memory, t1: Tables, pool1: seq<nat>, mem: Memory, t: Tables, pool: seq<nat>,
                  root: nat, d: nat, huge: bool)
    requires DoneIn(j, mem1, t1, pool1, root, d) && d < j.n
    requires huge <==> (j.v0 + d) % BLOCK == 0 && Whole(j.v0, j.n, j.ppn, j.v0 + d)
    requires Stepped(r, mem1, t1, pool1, mem, t, pool, root, j.v0 + d, j.ppn + d, huge, j.perm)
    ensures r.Advanced? ==> (r.pages == 1 || r.pages == 512) && d + r.pages <= j.n && DoneIn(j, mem, t, pool, root, d + r.pages)
    ensures r.Taken? || r.NoPage? ==> RangeFree(j.mem0, root, j.v0, d) && Extended(j.mem0, mem, root, j.v0, d, j.ppn, j.perm)
    ensures r.Taken? ==> Translate(j.mem0, root, j.v0 + d).Some? && !RangeFree(j.mem0, root, j.v0, j.n)
    ensures r.NoPage? ==> |Need(j.t0, j.v0, j.n, j.ppn)| > |j.pool0|
  {
    hide Translate, RangeFree, Extended, Wanted, Added, Whole, Made, I1, I2, Round, Need, Same;
    RoundWanted(j.t0, t1, pool1, t, pool, j.v0, j.n, j.ppn, d, huge);
    if r.Advanced? {
      MadeMore(j.t0, t1, t, j.v0, j.n, j.ppn, d, r.pages);
      ExtendedJoin(j.mem0, mem1, mem, root, j.v0, d, r.pages, j.ppn, j.perm);
    } else {
      SameAfter(j.mem0, mem1, mem, root, j.v0, d, j.ppn, j.perm);
      if r.Taken? {
        TakenInside(j.mem0, mem1, root, j.v0, d, j.n, j.ppn, j.perm);
      } else {
        NoPageMade(j.t0, t1, pool1, t, j.pool0, j.v0, j.n, j.ppn, d, huge);
      }
    }
  }

  // The pages of the pool are memory, no tables, and different.
  ghost predicate PoolOk(mem: Memory, t: Tables, pool: seq<nat>) {
    && (forall i :: 0 <= i < |pool| ==> pool[i] in mem && pool[i] !in t.Values)
    && (forall i, j :: 0 <= i < j < |pool| ==> pool[i] != pool[j])
  }

  lemma PoolHead(mem: Memory, t: Tables, pool: seq<nat>, a: Node, page: nat, i: nat, e: Pte)
    requires PoolOk(mem, t, pool) && pool != [] && page in mem && i < 512
    ensures pool[0] in mem && pool[0] !in t.Values
    ensures PoolOk(SetWord(mem[pool[0] := ZeroPage()], page, i, e), t[a := pool[0]], pool[1..])
  {
    hide ZeroPage;
    var t' := t[a := pool[0]];
    assert forall x :: x in t'.Values ==> x in t.Values || x == pool[0];
  }

  lemma GrownNot(t: Tables, pool: seq<nat>, x: Node)
    ensures Grown(t, pool, t, pool, {x})
  {
  }

  // A fresh table hung below the empty entry i of table a: what stays and what is new.
  lemma Hung(mem0: Memory, t0: Tables, pool0: seq<nat>, a: Node, i: nat, e: Pte)
    requires Shape(mem0, t0) && PoolOk(mem0, t0, pool0) && pool0 != [] && a in t0 && !a.Low? && i < 512
    requires t0[a] in mem0 && !mem0[t0[a]][i].perm.v && IsPointer(e) && e.ppn == pool0[0] && Child(a, i) !in t0
    ensures var mem := SetWord(mem0[pool0[0] := ZeroPage()], t0[a], i, e); var t := t0[Child(a, i) := pool0[0]];
      && Root in t && t[Root] == t0[Root] && Shape(mem, t) && PoolOk(mem, t, pool0[1..])
      && (forall b :: b in t0 ==> b in t && t[b] == t0[b])
      && (forall u: nat :: Translate(mem, t0[Root], u) == Translate(mem0, t0[Root], u))
      && Grown(t0, pool0, t, pool0[1..], {Child(a, i)})
  {
    hide Shape, Translate, ZeroPage, SetWord;
    TableLinked(mem0, t0, a, i);
    PoolHead(mem0, t0, pool0, Child(a, i), t0[a], i, e);
    AddTable(mem0, t0, a, i, pool0[0], e);
    var t := t0[Child(a, i) := pool0[0]];
    assert t.Keys == t0.Keys + {Child(a, i)};
    hide PoolOk;
  }

  class KernelSpace {
    var mem: Memory
    var pool: seq<nat>        // the pages allockernelpage has left, next first
    const root: nat
    ghost var t: Tables

    ghost predicate Ok()
      reads this
    {
      && Shape(mem, t) && t[Root] == root
      && PoolOk(mem, t, pool)
    }

    // kvmmake's start: the first page of the allocator, zeroed, is the root.
    constructor (memory: Memory, pages: seq<nat>)
      requires pages != [] && forall i :: 0 <= i < |pages| ==> pages[i] in memory
      requires forall i, j :: 0 <= i < j < |pages| ==> pages[i] != pages[j]
      ensures Ok() && root == pages[0] && pool == pages[1..]
      ensures forall v: nat :: Translate(mem, root, v).None?
    {
      root, pool, mem, t := pages[0], pages[1..], memory[pages[0] := ZeroPage()], map[Root := pages[0]];
      new;
      assert Linked(mem, t, Root) && Filled(mem, t, Root);
    }

    // The first half of kvmmap's loop body, for one level: follow the pointer in
    // entry i of table a, or hang a fresh zeroed table there.
    method Descend(ghost a: Node, page: nat, i: nat) returns (next: Option<nat>)
      requires Ok() && a in t && t[a] == page && !a.Low? && i < 512
      requires mem[page][i].perm.v ==> !Leaf(mem[page][i].perm)
      modifies this
      ensures Ok() && (forall b :: b in old(t) ==> b in t && t[b] == old(t[b]))
      ensures forall u: nat :: Translate(mem, root, u) == Translate(old(mem), root, u)
      ensures next.None? ==> mem == old(mem) && t == old(t) && pool == old(pool) == [] && Child(a, i) !in t
      ensures next.Some? ==> Child(a, i) in t && t[Child(a, i)] == next.value
      ensures Grown(old(t), old(pool), t, pool, {Child(a, i)})
      ensures Child(a, i) in t && Child(a, i) !in old(t) ==> !old(mem)[page][i].perm.v
      ensures next.None? ==> !old(mem)[page][i].perm.v
    {
      TableLinked(mem, t, a, i);
      hide Shape, Translate, PoolOk, Grown, Child, SetWord, ZeroPage;
      var e := mem[page][i];
      if !e.perm.v {
        if |pool| == 0 {
          GrownNot(t, pool, Child(a, i));
          return None;
        }
        var newpg := pool[0];
        ghost var mem0, t0 := mem, t;
        var pointer := MakePte(newpg, NoPerm.(g := true));
        Hung(mem0, t0, pool, a, i, pointer);
        pool := pool[1..];
        mem := mem[newpg := ZeroPage()];
        mem := SetWord(mem, page, i, pointer);
        t := t[Child(a, i) := newpg];
        return Some(newpg);
      }
      PointerFollowed(mem, t, a, i);
      GrownNot(t, pool, Child(a, i));
      return Some(e.ppn);
    }

    // pgtbl_level1[vpn1] = MAKE_PTE(paddr, perm), for a free slot and aligned addresses.
    method PutBlock(vaddr: nat, paddr: nat, page: nat, perm: Perm)
      requires Ok() && Leaf(perm) && vaddr % PGSIZE_2M == 0 && paddr % PGSIZE_2M == 0
      requires Mid(I2(Vpn(vaddr))) in t && t[Mid(I2(Vpn(vaddr)))] == page && page in mem && !mem[page][I1(Vpn(vaddr))].perm.v
      modifies `mem
      ensures Ok() && RangeFree(old(mem), root, Vpn(vaddr), 512)
      ensures Extended(old(mem), mem, root, Vpn(vaddr), 512, paddr / PGSIZE, perm)
    {
      hide Shape, Translate;
      BlockAligned(vaddr, paddr);
      SetBlock(mem, t, Vpn(vaddr), MakePte(paddr / PGSIZE, perm));
      mem := SetWord(mem, page, I1(Vpn(vaddr)), MakePte(paddr / PGSIZE, perm));
    }

    // pgtbl_level0[vpn0] = MAKE_PTE(paddr, perm), for a free slot.
    method PutPage(v: nat, ppn: nat, page: nat, perm: Perm)
      requires Ok() && Leaf(perm) && v < VPNS
      requires Low(I2(v), I1(v)) in t && t[Low(I2(v), I1(v))] == page && !mem[page][I0(v)].perm.v
      modifies `mem
      ensures Ok() && RangeFree(old(mem), root, v, 1)
      ensures Extended(old(mem), mem, root, v, 1, ppn, perm)
    {
      TranslateShape(mem, t, v);
      assert Linked(mem, t, Low(I2(v), I1(v))) && Linked(mem, t, Mid(I2(v)));
      SetLow(mem, t, v, MakePte(ppn, perm));
      mem := SetWord(mem, page, I0(v), MakePte(ppn, perm));
    }

    // Follow or make the level 1 table of page v, as the first half of the loop body does.
    method Middle(v: nat) returns (r: Reached)
      requires Ok() && v < VPNS
      modifies this
      ensures Ok() && Same(old(mem), mem, root) && Grown(old(t), old(pool), t, pool, {Mid(I2(v))})
      ensures r.Table? ==> Mid(I2(v)) in t && t[Mid(I2(v))] == r.page && r.page in mem
      ensures r.Blocked? ==> Translate(old(mem), root, v).Some?
      ensures r.Exhausted? ==> pool == [] && Mid(I2(v)) !in t
    {
      TranslateShape(mem, t, v);
      assert Filled(mem, t, Root);
      if mem[root][I2(v)].perm.v && Leaf(mem[root][I2(v)].perm) { return Blocked; }
      var next := Descend(Root, root, I2(v));
      r := if next.Some? then Table(next.value) else Exhausted;
    }

    // Follow or make the level 0 table of page v, below the level 1 table.
    method Lowest(v: nat, level1: nat) returns (r: Reached)
      requires Ok() && v < VPNS && Mid(I2(v)) in t && t[Mid(I2(v))] == level1
      modifies this
      ensures Ok() && Same(old(mem), mem, root) && Grown(old(t), old(pool), t, pool, {Low(I2(v), I1(v))})
      ensures r.Table? ==> Low(I2(v), I1(v)) in t && t[Low(I2(v), I1(v))] == r.page && r.page in mem
      ensures r.Blocked? ==> Translate(old(mem), root, v).Some?
      ensures r.Exhausted? ==> pool == [] && Low(I2(v), I1(v)) !in t
      ensures r.Exhausted? || (Low(I2(v), I1(v)) in t && Low(I2(v), I1(v)) !in old(t)) ==>
        level1 in old(mem) && !old(mem)[level1][I1(v)].perm.v
    {
      TranslateShape(mem, t, v);
      assert Linked(mem, t, Mid(I2(v))) && Filled(mem, t, Mid(I2(v)));
      if mem[level1][I1(v)].perm.v && Leaf(mem[level1][I1(v)].perm) { return Blocked; }
      var next := Descend(Mid(I2(v)), level1, I1(v));
      r := if next.Some? then Table(next.value) else Exhausted;
    }

    // The last two lines of the loop body: the entry must be free, and is written.
    method Place(v: nat, ppn: nat, page: nat, perm: Perm) returns (ok: bool)
      requires Ok() && Leaf(perm) && v < VPNS && Low(I2(v), I1(v)) in t && t[Low(I2(v), I1(v))] == page
      modifies `mem
      ensures Ok()
      ensures !ok ==> mem == old(mem) && Translate(mem, root, v).Some?
      ensures ok ==> RangeFree(old(mem), root, v, 1) && Extended(old(mem), mem, root, v, 1, ppn, perm)
    {
      if mem[page][I0(v)].perm.v {
        TranslateShape(mem, t, v);
        assert Linked(mem, t, Mid(I2(v))) && Linked(mem, t, Low(I2(v), I1(v))) && Filled(mem, t, Low(I2(v), I1(v)));
        return false;
      }
      PutPage(v, ppn, page, perm);
      return true;
    }

    // One round of kvmmap's loop at vaddr, with sz bytes to go.
    method MapStep(vaddr: nat, paddr: nat, sz: nat, perm: Perm) returns (r: StepResult)
      requires Ok() && Leaf(perm)
      requires sz > 0 && vaddr % SPAN + sz <= SPAN
      modifies this
      ensures Ok()
      ensures Stepped(r, old(mem), old(t), old(pool), mem, t, pool, root, Vpn(vaddr), paddr / PGSIZE, Huge(vaddr, paddr, sz), perm)
    {
      hide Shape, Translate, RangeFree, Extended, I0, I1, I2, Grown, Round;
      var v := Vpn(vaddr);
      ghost var mem0, t0, pool0, huge := mem, t, pool, Huge(vaddr, paddr, sz);
      var l1 := Middle(v);
      ghost var mem1, t1, pool1 := mem, t, pool;
      RoundTop(t0, pool0, t, pool, v, huge);
      if l1.Blocked? { return Taken; }
      if l1.Exhausted? { return NoPage; }
      if !mem[l1.page][I1(v)].perm.v && Huge(vaddr, paddr, sz) {
        PutBlock(vaddr, paddr, l1.page, perm);
        SameExtended(mem0, mem1, mem, root, v, 512, paddr / PGSIZE, perm);
        return Advanced(512);
      }
      var l0 := Lowest(v, l1.page);
      ghost var mem2 := mem;
      RoundBoth(t0, pool0, t1, pool1, t, pool, v, huge);
      if l0.Blocked? { return Taken; }
      if l0.Exhausted? { return NoPage; }
      var ok := Place(v, paddr / PGSIZE, l0.page, perm);
      if !ok { return Taken; }
      SameExtended(mem0, mem2, mem, root, v, 1, paddr / PGSIZE, perm);
      return Advanced(1);
    }

    // The first d pages of a range are mapped, from what the call found.
    ghost predicate Done(j: Job, d: nat)
      reads this
    {
      Ok() && DoneIn(j, mem, t, pool, root, d)
    }

    // One round, with what it means for the range.
    method MapMore(vaddr: nat, paddr: nat, sz: nat, perm: Perm, ghost j: Job, ghost d: nat) returns (r: StepResult)
      requires Done(j, d) && d < j.n && j.perm == perm && Leaf(perm) && sz > 0 && vaddr % SPAN + sz <= SPAN
      requires Vpn(vaddr) == j.v0 + d && paddr / PGSIZE == j.ppn + d
      requires Huge(vaddr, paddr, sz) <==> (j.v0 + d) % BLOCK == 0 && Whole(j.v0, j.n, j.ppn, j.v0 + d)
      modifies this
      ensures Ok()
      ensures r.Advanced? ==> (r.pages == 1 || r.pages == 512) && d + r.pages <= j.n && Done(j, d + r.pages)
      ensures r.Taken? || r.NoPage? ==>
        RangeFree(j.mem0, root, j.v0, d) && Extended(j.mem0, mem, root, j.v0, d, j.ppn, perm)
      ensures r.Taken? ==> Translate(j.mem0, root, j.v0 + d).Some? && !RangeFree(j.mem0, root, j.v0, j.n)
      ensures r.NoPage? ==> |Need(j.t0, j.v0, j.n, j.ppn)| > |j.pool0|
    {
      hide Shape, Translate, RangeFree, Extended, Vpn, Whole, Huge, Need, Stepped, DoneIn;
      ghost var mem1, t1, pool1, huge := mem, t, pool, Huge(vaddr, paddr, sz);
      r := MapStep(vaddr, paddr, sz, perm);
      SteppedOn(r, j, mem1, t1, pool1, mem, t, pool, root, d, huge);
    }

    lemma DoneNone(j: Job)
      requires Ok() && j.mem0 == mem && j.t0 == t && j.pool0 == pool && j.v0 + j.n <= VPNS
      ensures Done(j, 0)
    {
      hide Shape, Translate, Wanted;
    }

    lemma DoneFacts(j: Job, d: nat)
      requires Done(j, d)
      ensures Ok() && RangeFree(j.mem0, root, j.v0, d) && Extended(j.mem0, mem, root, j.v0, d, j.ppn, j.perm)
      ensures d == j.n ==> |Need(j.t0, j.v0, j.n, j.ppn)| <= |j.pool0|
    {
      hide Shape, Translate, Wanted, RangeFree, Extended, Made, Need;
      if d == j.n { MadeAll(j.t0, t, j.pool0, pool, j.v0, j.n, j.ppn); }
    }

    // kvmmap: the whole range, or the reason it panics.
    method Kvmmap(va: nat, pa: nat, size: nat, perm: Perm) returns (r: KvmResult)
      requires Ok() && Leaf(perm) && va < U64 && size < U64 && (va % SPAN + size <= SPAN || va + size >= U64)
      modifies this
      ensures Ok()
      ensures r.Misaligned? <==> va % PGSIZE != 0 || pa % PGSIZE != 0 || size % PGSIZE != 0
      ensures r.Wrapped? <==> va % PGSIZE == 0 && pa % PGSIZE == 0 && size % PGSIZE == 0 && size > 0 && va + size >= U64
      ensures r.Misaligned? || r.Wrapped? ==> mem == old(mem)
      ensures r.Mapped? ==>
        && RangeFree(old(mem), root, Vpn(va), size / PGSIZE)
        && Extended(old(mem), mem, root, Vpn(va), size / PGSIZE, pa / PGSIZE, perm)
      ensures r.AlreadyMapped? || r.OutOfPages? ==>
        && r.vaddr % PGSIZE == 0 && va <= r.vaddr < va + size
        && RangeFree(old(mem), root, Vpn(va), (r.vaddr - va) / PGSIZE)
        && Extended(old(mem), mem, root, Vpn(va), (r.vaddr - va) / PGSIZE, pa / PGSIZE, perm)
      ensures r.AlreadyMapped? ==> Translate(old(mem), root, Vpn(r.vaddr)).Some?
      ensures r.OutOfPages? ==> |Need(old(t), Vpn(va), size / PGSIZE, pa / PGSIZE)| > |old(pool)|
      ensures !r.Misaligned? && !r.Wrapped? ==>
        (r.Mapped? <==> RangeFree(old(mem), root, Vpn(va), size / PGSIZE)
                        && |Need(old(t), Vpn(va), size / PGSIZE, pa / PGSIZE)| <= |old(pool)|)
    {
      hide Shape, Translate, RangeFree, Extended, Vpn, Wanted, Whole, Made, I1, I2, Huge, Need, Done, At;
      if va % PGSIZE != 0 || pa % PGSIZE != 0 || size % PGSIZE != 0 { return Misaligned; }
      var vaddr: nat, paddr: nat, sz: nat := va, pa, size;
      var vaddr_end := (va + size) % U64;
      ghost var d: nat := 0;
      AtStart(va, pa, size);
      ghost var j := Job(mem, t, pool, Vpn(va), size / PGSIZE, pa / PGSIZE, perm);
      if va + size < U64 {
        VpnFits(va, size);
        DoneNone(j);
      }
      while vaddr < vaddr_end
        invariant At(va, pa, size, vaddr, paddr, sz, d) && va <= vaddr && d <= j.n
        invariant Ok() && if va + size < U64 then Done(j, d) else vaddr == va && mem == old(mem)
        decreases j.n - d
      {
        AtHere(va, pa, size, vaddr, paddr, sz, d);
        DoneFacts(j, d);
        var step := MapMore(vaddr, paddr, sz, perm, j, d);
        if step.Taken? { return AlreadyMapped(vaddr); }
        if step.NoPage? { return OutOfPages(vaddr); }
        AtNext(va, pa, size, vaddr, paddr, sz, d, step.pages);
        vaddr := vaddr + step.pages * PGSIZE;
        paddr := paddr + step.pages * PGSIZE;
        sz := sz - step.pages * PGSIZE;
        d := d + step.pages;
      }
      AtEnd(va, pa, size, vaddr, paddr, sz, d);
      if vaddr != vaddr_end || sz != 0 { return Wrapped; }
      DoneFacts(j, d);
      return Mapped;
    }
  }

  // A call of kvmmap: the memory, tables and pool it found, and what it was asked for.
  datatype Job = Job(mem0: Memory, t0: Tables, pool0: seq<nat>, v0: nat, n: nat, ppn: nat, perm: Perm)

  datatype Reached = Table(page: nat) | Blocked | Exhausted

  lemma SameExtended(mem0: Memory, mem1: Memory, mem: Memory, root: nat, v0: nat, n: nat, ppn: nat, perm: Perm)
    requires Same(mem0, mem1, root) && RangeFree(mem1, root, v0, n) && Extended(mem1, mem, root, v0, n, ppn, perm)
    ensures RangeFree(mem0, root, v0, n) && Extended(mem0, mem, root, v0, n, ppn, perm)
  {
    hide Translate;
  }

  datatype StepResult = Advanced(pages: nat) | Taken | NoPage

  lemma SameAfter(mem0: Memory, mem1: Memory, mem: Memory, root: nat, v0: nat, n: nat, ppn: nat, perm: Perm)
    requires Same(mem1, mem, root) && Extended(mem0, mem1, root, v0, n, ppn, perm)
    ensures Extended(mem0, mem, root, v0, n, ppn, perm)
  {
    hide Translate;
  }

  lemma ExtendedJoin(mem0: Memory, mem1: Memory, mem: Memory, root: nat, v0: nat, d: nat, n: nat, ppn: nat, perm: Perm)
    requires v0 + d + n <= VPNS
    requires RangeFree(mem0, root, v0, d) && Extended(mem0, mem1, root, v0, d, ppn, perm)
    requires RangeFree(mem1, root, v0 + d, n) && Extended(mem1, mem, root, v0 + d, n, ppn + d, perm)
    ensures RangeFree(mem0, root, v0, d + n) && Extended(mem0, mem, root, v0, d + n, ppn, perm)
  {
    hide Translate;
  }

  // The page after the first d translates only if it did before, so not all n were free.
  lemma TakenInside(mem0: Memory, mem: Memory, root: nat, v0: nat, d: nat, n: nat, ppn: nat, perm: Perm)
    requires v0 + n <= VPNS && d < n && Extended(mem0, mem, root, v0, d, ppn, perm)
    ensures Translate(mem, root, v0 + d) == Translate(mem0, root, v0 + d)
    ensures Translate(mem, root, v0 + d).Some? ==> !RangeFree(mem0, root, v0, n)
  {
    hide Translate;
  }

  // The 512 pages from an aligned page are exactly its block.
  lemma BlockAligned(vaddr: nat, paddr: nat)
    requires vaddr % PGSIZE_2M == 0 && paddr % PGSIZE_2M == 0
    ensures paddr / PGSIZE % BLOCK == 0 && Vpn(vaddr) % BLOCK == 0
    ensures forall u: nat :: BlockOf(u) == BlockOf(Vpn(vaddr)) <==> Vpn(vaddr) <= u < Vpn(vaddr) + 512
    ensures forall u: nat :: BlockOf(u) == BlockOf(Vpn(vaddr)) ==> u % BLOCK == u - Vpn(vaddr)
  {
    var q := vaddr / PGSIZE_2M;
    assert vaddr / PGSIZE == q * BLOCK;
    assert Vpn(vaddr) % BLOCK == 0;
  }
}

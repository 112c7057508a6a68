/**
  Sv39 page tables in physical memory (os/riscv.h:180-218; sections 4.3.2 and 4.4
  of the RISC-V Privileged Architecture, Volume II, V1.10).

  Addresses are counted in pages: a virtual page number has 27 bits, a physical
  page number is PTE2PA(pte) >> 12.  A 64-bit word is shown as the page table
  entry it encodes; PteBits relates the two.
*/
module Sv39 {
  datatype Option<+T> = None | Some(value: T)

  // The ten low bits of an entry: V, R, W, X, U, G, A, D and two for software.
  datatype Perm = Perm(v: bool, r: bool, w: bool, x: bool, u: bool, g: bool, a: bool, d: bool, rsw: nat)

  datatype Pte = Pte(ppn: nat, perm: Perm)

  const VPNS: nat := 0x8000000     // virtual pages
  const BLOCK: nat := 512          // pages of a 2 MiB leaf
  const GIANT: nat := 0x40000      // pages of a 1 GiB leaf

  // A page of 512 words.
  type Page = t: seq<Pte> | |t| == 512 witness seq(512, _ => Pte(0, Perm(false, false, false, false, false, false, false, false, 0)))

  type Memory = map<nat, Page>

  const NoPerm: Perm := Perm(false, false, false, false, false, false, false, false, 0)

  // memset(page, 0, PGSIZE)
  function ZeroPage(): Page { seq(512, _ => Pte(0, NoPerm)) }

  predicate Leaf(p: Perm) { p.r || p.w || p.x }

  predicate IsPointer(e: Pte) { e.perm.v && !Leaf(e.perm) }

  // MAKE_PTE(pa, flags), and PA2PTE(pa) | flags | PTE_V
  function MakePte(ppn: nat, flags: Perm): Pte { Pte(ppn, flags.(v := true)) }

  // PX(level, va) on page numbers
  function I0(v: nat): (i: nat) ensures i < 512 { v % 512 }
  function I1(v: nat): (i: nat) ensures i < 512 { v / 512 % 512 }
  function I2(v: nat): (i: nat) ensures i < 512 { v / 0x40000 % 512 }

  lemma SplitVpn(v: nat)
    requires v < VPNS
    ensures v == I2(v) * 0x40000 + I1(v) * 512 + I0(v)
  {
    assert v / 0x40000 == v / 512 / 512;
  }

  // ---------- the translation of the hardware

  function Translate0(mem: Memory, low: nat, v: nat): Option<Pte> {
    if low !in mem then None else
    var e := mem[low][I0(v)];
    if e.perm.v && Leaf(e.perm) then Some(e) else None
  }

  function Translate1(mem: Memory, mid: nat, v: nat): Option<Pte> {
    if mid !in mem then None else
    var e := mem[mid][I1(v)];
    if !e.perm.v then None
    else if Leaf(e.perm) then if e.ppn % BLOCK == 0 then Some(e.(ppn := e.ppn + v % BLOCK)) else None
    else Translate0(mem, e.ppn, v)
  }

  // The page and the permissions found for virtual page v, or None; Access adds the page
  // fault for reserved entries.
  function Translate(mem: Memory, root: nat, v: nat): Option<Pte> {
    if root !in mem then None else
    var e := mem[root][I2(v)];
    if !e.perm.v then None
    else if Leaf(e.perm) then if e.ppn % GIANT == 0 then Some(e.(ppn := e.ppn + v % GIANT)) else None
    else Translate1(mem, e.ppn, v)
  }

  // The encoding section 4.3.2 reserves: writable but not readable.
  predicate Reserved(p: Perm) { p.w && !p.r }

  function Access0(mem: Memory, low: nat, v: nat): Option<Pte> {
    if low !in mem || Reserved(mem[low][I0(v)].perm) then None else Translate0(mem, low, v)
  }

  function Access1(mem: Memory, mid: nat, v: nat): Option<Pte> {
    if mid !in mem || Reserved(mem[mid][I1(v)].perm) then None
    else if IsPointer(mem[mid][I1(v)]) then Access0(mem, mem[mid][I1(v)].ppn, v)
    else Translate1(mem, mid, v)
  }

  // The walk with the page fault for a reserved entry at any level.
  function Access(mem: Memory, root: nat, v: nat): Option<Pte> {
    if root !in mem || Reserved(mem[root][I2(v)].perm) then None
    else if IsPointer(mem[root][I2(v)]) then Access1(mem, mem[root][I2(v)].ppn, v)
    else Translate(mem, root, v)
  }

  // The reserved encoding is all the two walks differ in: what Translate finds is what
  // an access reaches, unless the leaf found is writable and not readable.
  lemma AccessTranslate(mem: Memory, root: nat, v: nat)
    ensures var e := Translate(mem, root, v);
      Access(mem, root, v) == if e.Some? && Reserved(e.value.perm) then None else e
  {
  }

  // ---------- the tree of tables under a root

  datatype Node = Root | Mid(i: nat) | Low(i: nat, j: nat)

  type Tables = map<Node, nat>

  function Above(a: Node): Node { match a case Root => Root case Mid(_) => Root case Low(i, _) => Mid(i) }
  function Slot(a: Node): nat { match a case Root => 0 case Mid(i) => i case Low(_, j) => j }
  function Child(a: Node, i: nat): Node { match a case Root => Mid(i) case Mid(k) => Low(k, i) case Low(_, _) => Root }

  // The entry that table node a points to is where its parent says.
  ghost predicate Linked(mem: Memory, t: Tables, a: Node)
    requires a in t && forall b :: b in t ==> t[b] in mem
  {
    a != Root ==>
      && Slot(a) < 512 && Above(a) in t
      && IsPointer(mem[t[Above(a)]][Slot(a)]) && mem[t[Above(a)]][Slot(a)].ppn == t[a]
  }

  // A leaf at this level covers an aligned range.
  predicate FitsAt(a: Node, e: Pte) {
    e.perm.v && Leaf(e.perm) ==> (a.Root? ==> e.ppn % GIANT == 0) && (a.Mid? ==> e.ppn % BLOCK == 0)
  }

  // Pointers in a table lead to tables; the lowest tables hold only leaves.
  ghost predicate Filled(mem: Memory, t: Tables, a: Node)
    requires a in t && forall b :: b in t ==> t[b] in mem
  {
    forall i: nat :: i < 512 ==>
      FitsAt(a, mem[t[a]][i]) && (IsPointer(mem[t[a]][i]) ==> !a.Low? && Child(a, i) in t)
  }

  ghost predicate Injective(t: Tables) { forall a, b :: a in t && b in t && t[a] == t[b] ==> a == b }

  // Every table is reached by one path only, and pointers and tables match.
  ghost predicate Shape(mem: Memory, t: Tables) {
    && Root in t && Injective(t)
    && (forall a :: a in t ==> t[a] in mem)
    && (forall a :: a in t ==> Linked(mem, t, a) && Filled(mem, t, a))
  }

  function SetWord(mem: Memory, p: nat, i: nat, e: Pte): Memory
    requires p in mem && i < 512
  {
    mem[p := mem[p][i := e]]
  }

  // ---------- the same translation, by nodes

  function Look0(mem: Memory, t: Tables, v: nat): Option<Pte> {
    if Low(I2(v), I1(v)) in t then Translate0(mem, t[Low(I2(v), I1(v))], v) else None
  }

  lemma TranslateShape(mem: Memory, t: Tables, v: nat)
    requires Shape(mem, t)
    ensures Translate(mem, t[Root], v) ==
      (var e2 := mem[t[Root]][I2(v)];
       if !e2.perm.v then None
       else if Leaf(e2.perm) then if e2.ppn % GIANT == 0 then Some(e2.(ppn := e2.ppn + v % GIANT)) else None
       else if Mid(I2(v)) !in t then None else
       var e1 := mem[t[Mid(I2(v))]][I1(v)];
       if !e1.perm.v then None
       else if Leaf(e1.perm) then if e1.ppn % BLOCK == 0 then Some(e1.(ppn := e1.ppn + v % BLOCK)) else None
       else Look0(mem, t, v))
  {
    assert Filled(mem, t, Root);
    if Mid(I2(v)) in t {
      assert Linked(mem, t, Mid(I2(v))) && Filled(mem, t, Mid(I2(v)));
      if Low(I2(v), I1(v)) in t { assert Linked(mem, t, Low(I2(v), I1(v))); }
    }
  }

  // Both memories give every page the same translation from this root.
  ghost predicate Same(mem0: Memory, mem: Memory, root: nat) {
    forall v: nat :: Translate(mem, root, v) == Translate(mem0, root, v)
  }

  // None of the n pages from v0 translates.
  ghost predicate RangeFree(mem: Memory, root: nat, v0: nat, n: nat) {
    forall v: nat :: v0 <= v < v0 + n ==> Translate(mem, root, v).None?
  }

  // ---------- what one write does to the whole translation

  // Writing entry i of table a, where no pointer comes or goes, keeps the tree.
  lemma SetLeafShape(mem: Memory, t: Tables, a: Node, i: nat, e: Pte)
    requires Shape(mem, t) && a in t && i < 512 && !IsPointer(e) && !IsPointer(mem[t[a]][i]) && FitsAt(a, e)
    ensures Shape(SetWord(mem, t[a], i, e), t)
  {
    var mem' := SetWord(mem, t[a], i, e);
    forall b | b in t ensures Linked(mem', t, b) && Filled(mem', t, b) {
      assert Linked(mem, t, b) && Filled(mem, t, b);
    }
  }

  // An entry of a lowest table maps, or unmaps, exactly one page.
  lemma SetLow(mem: Memory, t: Tables, v: nat, e: Pte)
    requires Shape(mem, t) && v < VPNS && Low(I2(v), I1(v)) in t && !IsPointer(e)
    ensures var mem' := SetWord(mem, t[Low(I2(v), I1(v))], I0(v), e);
      && Shape(mem', t)
      && forall u: nat :: u < VPNS ==>
           Translate(mem', t[Root], u) == if u == v then (if e.perm.v then Some(e) else None) else Translate(mem, t[Root], u)
  {
    var a := Low(I2(v), I1(v));
    var mem' := SetWord(mem, t[a], I0(v), e);
    assert Filled(mem, t, a) && Linked(mem, t, a) && Linked(mem, t, Mid(I2(v)));
    SetLeafShape(mem, t, a, I0(v), e);
    forall u: nat | u < VPNS
      ensures Translate(mem', t[Root], u) == if u == v then (if e.perm.v then Some(e) else None) else Translate(mem, t[Root], u)
    {
      TranslateShape(mem, t, u);
      TranslateShape(mem', t, u);
      SplitVpn(u);
      SplitVpn(v);
    }
  }

  function BlockOf(v: nat): nat { v / BLOCK }

  // A leaf in an empty slot of a middle table maps 512 pages at once.
  lemma SetBlock(mem: Memory, t: Tables, v: nat, e: Pte)
    requires Shape(mem, t) && v < VPNS && Mid(I2(v)) in t && !mem[t[Mid(I2(v))]][I1(v)].perm.v
    requires e.perm.v && Leaf(e.perm) && e.ppn % BLOCK == 0
    ensures var mem' := SetWord(mem, t[Mid(I2(v))], I1(v), e);
      && Shape(mem', t)
      && (forall u: nat :: u < VPNS && BlockOf(u) == BlockOf(v) ==> Translate(mem, t[Root], u).None?)
      && forall u: nat :: u < VPNS ==>
           Translate(mem', t[Root], u) ==
             if BlockOf(u) == BlockOf(v) then Some(e.(ppn := e.ppn + u % BLOCK)) else Translate(mem, t[Root], u)
  {
    var a := Mid(I2(v));
    var mem' := SetWord(mem, t[a], I1(v), e);
    assert Linked(mem, t, a);
    SetLeafShape(mem, t, a, I1(v), e);
    forall u: nat | u < VPNS
      ensures BlockOf(u) == BlockOf(v) ==> Translate(mem, t[Root], u).None?
      ensures Translate(mem', t[Root], u) ==
        if BlockOf(u) == BlockOf(v) then Some(e.(ppn := e.ppn + u % BLOCK)) else Translate(mem, t[Root], u)
    {
      TranslateShape(mem, t, u);
      TranslateShape(mem', t, u);
      SameBlock(u, v);
      if Low(I2(u), I1(u)) in t { assert Linked(mem, t, Low(I2(u), I1(u))); }
    }
  }

  lemma SameBlock(u: nat, v: nat)
    requires u < VPNS && v < VPNS
    ensures BlockOf(u) == BlockOf(v) <==> I2(u) == I2(v) && I1(u) == I1(v)
  {
    SplitVpn(u);
    SplitVpn(v);
  }

  lemma TableLinked(mem: Memory, t: Tables, a: Node, i: nat)
    requires Shape(mem, t) && a in t && !a.Low? && i < 512
    ensures t[a] in mem && Root in t && (Child(a, i) in t ==> mem[t[a]][i].perm.v)
  {
    if Child(a, i) in t { assert Linked(mem, t, Child(a, i)); }
  }

  // A zeroed page, linked into an empty slot, changes no translation.
  lemma AddTable(mem: Memory, t: Tables, a: Node, i: nat, p: nat, e: Pte)
    requires Shape(mem, t) && a in t && !a.Low? && i < 512 && !mem[t[a]][i].perm.v
    requires p in mem && p !in t.Values && IsPointer(e) && e.ppn == p
    ensures var mem' := SetWord(mem[p := ZeroPage()], t[a], i, e); var t' := t[Child(a, i) := p];
      && Child(a, i) !in t && t'[Root] == t[Root] && Shape(mem', t')
      && forall u: nat :: Translate(mem', t[Root], u) == Translate(mem, t[Root], u)
  {
    var mem' := SetWord(mem[p := ZeroPage()], t[a], i, e);
    var t' := t[Child(a, i) := p];
    AddTableShape(mem, t, a, i, p, e);
    TableLinked(mem, t, a, i);
    hide Shape, Translate, SetWord;
    forall u: nat ensures Translate(mem', t[Root], u) == Translate(mem, t[Root], u) {
      AddTableAt(mem, t, a, i, p, e, u);
    }
  }

  lemma AddTableAt(mem: Memory, t: Tables, a: Node, i: nat, p: nat, e: Pte, u: nat)
    requires Shape(mem, t) && a in t && !a.Low? && i < 512 && !mem[t[a]][i].perm.v
    requires p in mem && p !in t.Values && IsPointer(e) && e.ppn == p && Child(a, i) !in t
    requires Shape(SetWord(mem[p := ZeroPage()], t[a], i, e), t[Child(a, i) := p])
    ensures Translate(SetWord(mem[p := ZeroPage()], t[a], i, e), t[Root], u) == Translate(mem, t[Root], u)
  {
    var mem' := SetWord(mem[p := ZeroPage()], t[a], i, e);
    var t' := t[Child(a, i) := p];
    TranslateShape(mem, t, u);
    TranslateShape(mem', t', u);
    if Low(I2(u), I1(u)) in t { assert Linked(mem, t, Low(I2(u), I1(u))); }
    hide Filled, FitsAt;
  }

  lemma AddTableShape(mem: Memory, t: Tables, a: Node, i: nat, p: nat, e: Pte)
    requires Shape(mem, t) && a in t && !a.Low? && i < 512 && !mem[t[a]][i].perm.v
    requires p in mem && p !in t.Values && IsPointer(e) && e.ppn == p
    ensures Shape(SetWord(mem[p := ZeroPage()], t[a], i, e), t[Child(a, i) := p])
  {
    var mem' := SetWord(mem[p := ZeroPage()], t[a], i, e);
    var t' := t[Child(a, i) := p];
    assert Injective(t') by {
      forall b, d | b in t' && d in t' && t'[b] == t'[d] ensures b == d {
        if b in t { assert t[b] in t.Values; }
        if d in t { assert t[d] in t.Values; }
      }
    }
    forall b | b in t' ensures Linked(mem', t', b) && Filled(mem', t', b) {
      if b in t { assert Linked(mem, t, b) && Filled(mem, t, b) && t[b] in t.Values; }
    }
  }
}

/**
  Who owns each page of the page allocator (os/kalloc.c, os/vm.c): the free list, a
  table of one address space, one user page of one address space, the kernel code
  that just allocated it, or nobody any more.
*/
module UserPages {
  import opened Sv39

  datatype Owner = Free | Table(m: nat, a: Node) | Data(m: nat, v: nat) | Held | Lost

  const NOPAGE: nat := 0x400_0000        // KVA_TO_PA(0) >> 12, what an exhausted kallocpage returns

  const LASTPAGE: nat := 0x400_0000      // MAXVA >> 12: IS_USER_VA accepts it too

  const Empty: Pte := Pte(0, NoPerm)

  // An unused entry is zero; only the lowest tables have leaves.
  predicate Clean(a: Node, e: Pte) { if e.perm.v then (Leaf(e.perm) <==> a.Low?) else e == Empty }

  ghost predicate Tidy(mem: Memory, t: Tables)
    requires forall a :: a in t ==> t[a] in mem
  {
    forall a, i: nat :: a in t && i < 512 ==> Clean(a, mem[t[a]][i])
  }

  // Pages of the allocator that address space m can reach are its own.
  ghost predicate Backed(mem: Memory, owner: map<nat, Owner>, m: nat, root: nat) {
    forall v: nat :: v < VPNS ==>
      var e := Translate(mem, root, v);
      e.Some? && e.value.ppn in owner ==> owner[e.value.ppn] == Data(m, v)
  }

  ghost predicate Owned(owner: map<nat, Owner>, m: nat, t: Tables) {
    forall a :: a in t ==> t[a] in owner && owner[t[a]] == Table(m, a)
  }

  // One address space, whose tables are t.
  ghost predicate Good(mem: Memory, owner: map<nat, Owner>, m: nat, t: Tables) {
    && Root in t && Shape(mem, t) && Tidy(mem, t) && Owned(owner, m, t) && Backed(mem, owner, m, t[Root])
  }

  // What frame p is said to be used for, it is used for.
  ghost predicate Used(mem: Memory, tables: map<nat, Tables>, p: nat, o: Owner) {
    match o
    case Table(m, a) => m in tables && a in tables[m] && tables[m][a] == p
    case Data(m, v) =>
      && m in tables && Root in tables[m] && v < VPNS
      && var e := Translate(mem, tables[m][Root], v); e.Some? && e.value.ppn == p
    case _ => true
  }

  ghost predicate Accounted(mem: Memory, owner: map<nat, Owner>, tables: map<nat, Tables>) {
    forall p :: p in owner ==> Used(mem, tables, p, owner[p])
  }

  ghost predicate FreeList(free: seq<nat>, owner: map<nat, Owner>) {
    && (forall i, j :: 0 <= i < j < |free| ==> free[i] != free[j])
    && (forall p :: p in free ==> p in owner && owner[p] == Free)
    && (forall p :: p in owner && owner[p] == Free ==> p in free)
  }

  // All address spaces together.
  ghost predicate World(mem: Memory, owner: map<nat, Owner>, tables: map<nat, Tables>) {
    && mem.Keys == owner.Keys
    && Accounted(mem, owner, tables)
    && forall m :: m in tables ==> Good(mem, owner, m, tables[m])
  }

  // ---------- a step on behalf of one address space

  predicate Foreign(o: Owner, m: nat) { (o.Table? || o.Data?) && o.m != m }

  // Nothing of another address space is touched, and nothing becomes its.
  ghost predicate Around(mem: Memory, owner: map<nat, Owner>, mem': Memory, owner': map<nat, Owner>, m: nat) {
    && mem.Keys == owner.Keys == owner'.Keys == mem'.Keys
    && forall p :: p in owner && (Foreign(owner[p], m) || Foreign(owner'[p], m)) ==> owner'[p] == owner[p] && mem'[p] == mem[p]
  }

  lemma AroundTrans(mem: Memory, owner: map<nat, Owner>, mem1: Memory, owner1: map<nat, Owner>, mem2: Memory, owner2: map<nat, Owner>, m: nat)
    requires Around(mem, owner, mem1, owner1, m) && Around(mem1, owner1, mem2, owner2, m)
    ensures Around(mem, owner, mem2, owner2, m)
  {
  }

  // Tables that are not written translate as before.
  lemma ViewFrame(mem: Memory, mem': Memory, t: Tables)
    requires Shape(mem, t) && forall a :: a in t ==> t[a] in mem' && mem'[t[a]] == mem[t[a]]
    ensures Shape(mem', t) && (Tidy(mem, t) ==> Tidy(mem', t)) && Same(mem, mem', t[Root])
  {
    forall a | a in t ensures Linked(mem', t, a) && Filled(mem', t, a) {
      assert Linked(mem, t, a) && Filled(mem, t, a);
    }
    forall v: nat ensures Translate(mem', t[Root], v) == Translate(mem, t[Root], v) {
      TranslateShape(mem, t, v);
      TranslateShape(mem', t, v);
      if Low(I2(v), I1(v)) in t { assert Linked(mem, t, Low(I2(v), I1(v))); }
    }
  }

  lemma GoodFrame(mem: Memory, owner: map<nat, Owner>, mem': Memory, owner': map<nat, Owner>, m: nat, t: Tables, k: nat)
    requires Around(mem, owner, mem', owner', k) && Good(mem, owner, m, t) && m != k
    ensures Good(mem', owner', m, t) && Root in t && Same(mem, mem', t[Root])
  {
    hide Translate;
    ViewFrame(mem, mem', t);
  }

  // A page of another address space is used as before.
  lemma UsedFrame(mem: Memory, owner: map<nat, Owner>, tables: map<nat, Tables>, mem': Memory, m: nat, t': Tables, p: nat)
    requires p in owner && Foreign(owner[p], m) && Used(mem, tables, p, owner[p])
    requires forall k :: k in tables && k != m ==> Root in tables[k] && Same(mem, mem', tables[k][Root])
    ensures Used(mem', tables[m := t'], p, owner[p])
  {
    hide Translate;
    assert owner[p].m in tables;
  }

  lemma UsedIdle(mem: Memory, tables: map<nat, Tables>, p: nat, o: Owner)
    requires !o.Table? && !o.Data?
    ensures Used(mem, tables, p, o)
  {
  }

  // Only address space m changed: it is good again, and its pages are accounted for.
  lemma WorldStep(mem: Memory, owner: map<nat, Owner>, tables: map<nat, Tables>, mem': Memory, owner': map<nat, Owner>, m: nat, t': Tables)
    requires World(mem, owner, tables) && Around(mem, owner, mem', owner', m)
    requires Good(mem', owner', m, t')
    requires forall p :: p in owner' && (owner'[p].Table? || owner'[p].Data?) && owner'[p].m == m ==> Used(mem', tables[m := t'], p, owner'[p])
    ensures World(mem', owner', tables[m := t'])
    ensures forall k :: k in tables && k != m ==> Root in tables[k] && Same(mem, mem', tables[k][Root])
  {
    hide Translate, Good, Used, Same;
    forall k | k in tables && k != m ensures Good(mem', owner', k, tables[k]) && Root in tables[k] && Same(mem, mem', tables[k][Root]) {
      GoodFrame(mem, owner, mem', owner', k, tables[k], m);
    }
    forall p | p in owner' ensures Used(mem', tables[m := t'], p, owner'[p]) {
      if Foreign(owner'[p], m) {
        UsedFrame(mem, owner, tables, mem', m, t', p);
      } else if !(owner'[p].Table? || owner'[p].Data?) {
        UsedIdle(mem', tables[m := t'], p, owner'[p]);
      }
    }
  }

  // No translation of any address space changed.
  ghost predicate SameAll(mem: Memory, mem': Memory, tables: map<nat, Tables>) {
    forall k :: k in tables ==> Root in tables[k] && Same(mem, mem', tables[k][Root])
  }

  lemma SameRefl(mem: Memory, owner: map<nat, Owner>, tables: map<nat, Tables>, m: nat)
    requires World(mem, owner, tables)
    ensures SameAll(mem, mem, tables) && Around(mem, owner, mem, owner, m)
  {
    hide Translate;
  }

  lemma SameTrans(mem: Memory, mem1: Memory, mem2: Memory, root: nat)
    requires Same(mem, mem1, root) && Same(mem1, mem2, root)
    ensures Same(mem, mem2, root)
  {
    hide Translate;
  }

  lemma SameAllTrans(mem: Memory, mem1: Memory, mem2: Memory, tables: map<nat, Tables>)
    requires SameAll(mem, mem1, tables) && SameAll(mem1, mem2, tables)
    ensures SameAll(mem, mem2, tables)
  {
    hide Same;
    forall k | k in tables ensures Root in tables[k] && Same(mem, mem2, tables[k][Root]) {
      SameTrans(mem, mem1, mem2, tables[k][Root]);
    }
  }

  lemma SameOf(mem: Memory, mem': Memory, tables: map<nat, Tables>, m: nat, v: nat)
    requires SameAll(mem, mem', tables) && m in tables
    ensures Root in tables[m] && Translate(mem', tables[m][Root], v) == Translate(mem, tables[m][Root], v)
  {
    hide Translate;
  }

  // A page that is no table and no user page may be filled, and may be freed or taken.
  lemma Idle(mem: Memory, owner: map<nat, Owner>, tables: map<nat, Tables>, p: nat, page: Page, o: Owner, m: nat)
    requires World(mem, owner, tables) && p in owner && owner[p] in {Free, Held, Lost} && o in {Free, Held, Lost}
    ensures World(mem[p := page], owner[p := o], tables) && SameAll(mem, mem[p := page], tables)
    ensures Around(mem, owner, mem[p := page], owner[p := o], m)
  {
    hide Translate, Good, Same;
    var mem', owner' := mem[p := page], owner[p := o];
    forall k | k in tables ensures Root in tables[k] && Same(mem, mem', tables[k][Root]) && Good(mem', owner', k, tables[k]) {
      assert Around(mem, owner, mem', owner', k + 1);
      GoodFrame(mem, owner, mem', owner', k, tables[k], k + 1);
    }
    forall q | q in owner' ensures Used(mem', tables, q, owner'[q]) {
      assert Used(mem, tables, q, owner[q]);
      if owner[q].Data? { SamePpn(mem, mem', tables[owner[q].m][Root], owner[q].v); }
    }
  }

  lemma SamePpn(mem: Memory, mem': Memory, root: nat, v: nat)
    requires Same(mem, mem', root)
    ensures Translate(mem', root, v) == Translate(mem, root, v)
  {
    hide Translate;
  }

  lemma TakeHead(free: seq<nat>, owner: map<nat, Owner>)
    requires FreeList(free, owner) && free != []
    ensures free[0] in owner && owner[free[0]] == Free && FreeList(free[1..], owner[free[0] := Held])
  {
  }

  lemma PutHead(free: seq<nat>, owner: map<nat, Owner>, p: nat)
    requires FreeList(free, owner) && p in owner && owner[p] != Free
    ensures FreeList([p] + free, owner[p := Free])
  {
  }

  lemma KeepFree(free: seq<nat>, owner: map<nat, Owner>, p: nat, o: Owner)
    requires FreeList(free, owner) && p in owner && owner[p] != Free && o != Free
    ensures FreeList(free, owner[p := o])
  {
  }

  // ---------- what the steps of os/vm.c do to the ownership

  // Address space m translates page v to now, and every other page as before.
  ghost predicate Changed(mem: Memory, mem': Memory, root: nat, v: nat, now: Option<Pte>) {
    forall u: nat :: u < VPNS ==> Translate(mem', root, u) == if u == v then now else Translate(mem, root, u)
  }

  // Hanging the fresh page p, zeroed, below entry i of table a.
  lemma Hang(mem: Memory, owner: map<nat, Owner>, tables: map<nat, Tables>, m: nat, a: Node, i: nat, p: nat)
    requires World(mem, owner, tables) && m in tables && a in tables[m] && !a.Low? && i < 512
    requires tables[m][a] in mem && !mem[tables[m][a]][i].perm.v && p in owner && owner[p] == Held
    ensures p in mem && tables[m][a] in mem[p := ZeroPage()] && Root in tables[m]
    ensures var mem' := SetWord(mem[p := ZeroPage()], tables[m][a], i, MakePte(p, NoPerm));
      var owner' := owner[p := Table(m, Child(a, i))];
      var t': Tables := tables[m][Child(a, i) := p];
      && World(mem', owner', tables[m := t']) && Around(mem, owner, mem', owner', m)
      && Child(a, i) !in tables[m] && t'[Root] == tables[m][Root]
      && SameAll(mem, mem', tables)
  {
    hide World, Translate, Good, Around, SameAll, Same, Used, SetWord, ZeroPage;
    WorldParts(mem, owner, tables, m);
    var t': Tables := tables[m][Child(a, i) := p];
    HangGood(mem, owner, m, tables[m], a, i, p);
    HangRest(mem, owner, tables, m, a, i, p);
    var mem' := SetWord(mem[p := ZeroPage()], tables[m][a], i, MakePte(p, NoPerm));
    WorldStep(mem, owner, tables, mem', owner[p := Table(m, Child(a, i))], m, t');
    forall k | k in tables ensures Root in tables[k] && Same(mem, mem', tables[k][Root]) {
    }
    AllSame(mem, mem', tables);
  }

  lemma AllSame(mem: Memory, mem': Memory, tables: map<nat, Tables>)
    requires forall k :: k in tables ==> Root in tables[k] && Same(mem, mem', tables[k][Root])
    ensures SameAll(mem, mem', tables)
  {
    hide Same;
  }

  lemma HangRest(mem: Memory, owner: map<nat, Owner>, tables: map<nat, Tables>, m: nat, a: Node, i: nat, p: nat)
    requires World(mem, owner, tables) && m in tables && Root in tables[m] && a in tables[m] && i < 512 && Child(a, i) !in tables[m]
    requires tables[m][a] in mem && tables[m][a] in owner && owner[tables[m][a]] == Table(m, a) && p in owner && owner[p] == Held && p in mem
    requires Same(mem, SetWord(mem[p := ZeroPage()], tables[m][a], i, MakePte(p, NoPerm)), tables[m][Root])
    ensures var mem' := SetWord(mem[p := ZeroPage()], tables[m][a], i, MakePte(p, NoPerm));
      var owner' := owner[p := Table(m, Child(a, i))];
      var t': Tables := tables[m][Child(a, i) := p];
      && Around(mem, owner, mem', owner', m) && t'[Root] == tables[m][Root]
      && forall q :: q in owner' && (owner'[q].Table? || owner'[q].Data?) && owner'[q].m == m ==> Used(mem', tables[m := t'], q, owner'[q])
  {
    hide Translate, Good, ZeroPage;
    var mem' := SetWord(mem[p := ZeroPage()], tables[m][a], i, MakePte(p, NoPerm));
    var owner' := owner[p := Table(m, Child(a, i))];
    var t': Tables := tables[m][Child(a, i) := p];
    forall q | q in owner' && (owner'[q].Table? || owner'[q].Data?) && owner'[q].m == m ensures Used(mem', tables[m := t'], q, owner'[q]) {
      if q != p { assert Used(mem, tables, q, owner[q]); }
    }
  }

  lemma HangGood(mem: Memory, owner: map<nat, Owner>, m: nat, t: Tables, a: Node, i: nat, p: nat)
    requires Good(mem, owner, m, t) && a in t && !a.Low? && i < 512 && !mem[t[a]][i].perm.v
    requires p in owner && p in mem && owner[p] == Held && mem.Keys == owner.Keys
    ensures Root in t && t[a] in owner && owner[t[a]] == Table(m, a)
    ensures var mem' := SetWord(mem[p := ZeroPage()], t[a], i, MakePte(p, NoPerm));
      && Good(mem', owner[p := Table(m, Child(a, i))], m, t[Child(a, i) := p]) && Same(mem, mem', t[Root]) && Child(a, i) !in t
  {
    hide Translate;
    assert p !in t.Values;
    AddTable(mem, t, a, i, p, MakePte(p, NoPerm));
  }

  function LowOf(v: nat): Node { Low(I2(v), I1(v)) }

  // Only page v of address space m, and pages nobody had, change hands.
  ghost predicate Handed(owner: map<nat, Owner>, owner': map<nat, Owner>, m: nat, v: nat, e: Pte) {
    && owner'.Keys == owner.Keys
    && (forall p :: p in owner && owner'[p] != owner[p] ==> owner[p] in {Held, Data(m, v)} && owner'[p] in {Held, Data(m, v)})
    && (e.perm.v && e.ppn in owner ==> owner'[e.ppn] == Data(m, v))
    && (forall p :: p in owner && owner'[p] == Data(m, v) ==> e.perm.v && e.ppn == p)
  }

  // Writing the lowest entry of page v, to map it, unmap it or change its flags.
  lemma WriteLow(mem: Memory, owner: map<nat, Owner>, tables: map<nat, Tables>, m: nat, v: nat, e: Pte, owner': map<nat, Owner>)
    requires World(mem, owner, tables) && m in tables && LowOf(v) in tables[m] && v < VPNS && Clean(LowOf(v), e)
    requires Handed(owner, owner', m, v, e)
    ensures tables[m][LowOf(v)] in mem && forall k :: k in tables ==> Root in tables[k]
    ensures var mem' := SetWord(mem, tables[m][LowOf(v)], I0(v), e);
      && World(mem', owner', tables) && Around(mem, owner, mem', owner', m)
      && Changed(mem, mem', tables[m][Root], v, if e.perm.v then Some(e) else None)
      && forall k :: k in tables && k != m ==> Same(mem, mem', tables[k][Root])
  {
    hide World, Translate, Good, Clean, I0, I1, I2, Same, Handed, Around, Used, SetWord;
    WorldParts(mem, owner, tables, m);
    WriteLowGood(mem, owner, m, tables[m], v, e, owner');
    WriteLowRest(mem, owner, tables, m, v, e, owner');
    assert tables[m := tables[m]] == tables;
    WorldStep(mem, owner, tables, SetWord(mem, tables[m][LowOf(v)], I0(v), e), owner', m, tables[m]);
  }

  lemma WorldParts(mem: Memory, owner: map<nat, Owner>, tables: map<nat, Tables>, m: nat)
    requires World(mem, owner, tables) && m in tables
    ensures mem.Keys == owner.Keys && Good(mem, owner, m, tables[m]) && forall k :: k in tables ==> Root in tables[k]
  {
    forall k | k in tables ensures Root in tables[k] { assert Good(mem, owner, k, tables[k]); }
  }

  lemma WriteLowRest(mem: Memory, owner: map<nat, Owner>, tables: map<nat, Tables>, m: nat, v: nat, e: Pte, owner': map<nat, Owner>)
    requires World(mem, owner, tables) && m in tables && Root in tables[m] && LowOf(v) in tables[m] && v < VPNS && tables[m][LowOf(v)] in mem
    requires Handed(owner, owner', m, v, e) && tables[m][LowOf(v)] in owner && owner[tables[m][LowOf(v)]] == Table(m, LowOf(v))
    requires Changed(mem, SetWord(mem, tables[m][LowOf(v)], I0(v), e), tables[m][Root], v, if e.perm.v then Some(e) else None)
    ensures var mem' := SetWord(mem, tables[m][LowOf(v)], I0(v), e);
      && Around(mem, owner, mem', owner', m)
      && forall q :: q in owner' && (owner'[q].Table? || owner'[q].Data?) && owner'[q].m == m ==> Used(mem', tables, q, owner'[q])
  {
    hide Translate, Good, I0, I1, I2, LowOf;
    var mem' := SetWord(mem, tables[m][LowOf(v)], I0(v), e);
    forall q | q in owner' && (owner'[q].Table? || owner'[q].Data?) && owner'[q].m == m ensures Used(mem', tables, q, owner'[q]) {
      assert Used(mem, tables, q, owner[q]);
    }
  }

  lemma WriteLowGood(mem: Memory, owner: map<nat, Owner>, m: nat, t: Tables, v: nat, e: Pte, owner': map<nat, Owner>)
    requires Good(mem, owner, m, t) && LowOf(v) in t && v < VPNS && Clean(LowOf(v), e) && Handed(owner, owner', m, v, e)
    ensures t[LowOf(v)] in mem && t[LowOf(v)] in owner && owner[t[LowOf(v)]] == Table(m, LowOf(v))
    ensures var mem' := SetWord(mem, t[LowOf(v)], I0(v), e);
      Good(mem', owner', m, t) && Changed(mem, mem', t[Root], v, if e.perm.v then Some(e) else None)
  {
    hide Translate, I1, I2;
    SetLow(mem, t, v, e);
  }

  // A valid entry above the lowest level points to a table, an invalid one to none.
  lemma PointerIs(mem: Memory, owner: map<nat, Owner>, tables: map<nat, Tables>, m: nat, a: Node, i: nat)
    requires World(mem, owner, tables) && m in tables && a in tables[m] && !a.Low? && i < 512
    ensures tables[m][a] in mem && owner[tables[m][a]] == Table(m, a)
    ensures var e := mem[tables[m][a]][i];
      if e.perm.v then Child(a, i) in tables[m] && tables[m][Child(a, i)] == e.ppn else Child(a, i) !in tables[m]
  {
    hide Translate, Accounted, Backed;
    assert Filled(mem, tables[m], a);
    if Child(a, i) in tables[m] { assert Linked(mem, tables[m], Child(a, i)); }
  }

  lemma LowNeedsMid(mem: Memory, owner: map<nat, Owner>, tables: map<nat, Tables>, m: nat, v: nat)
    requires World(mem, owner, tables) && m in tables && LowOf(v) in tables[m]
    ensures Mid(I2(v)) in tables[m]
  {
    hide Translate, Accounted, Backed;
    assert Linked(mem, tables[m], LowOf(v));
  }

  // ---------- what an address space gains, and what nobody notices

  // Pages with contents somebody relies on keep their owner and their contents, and no
  // page is left held or lost that was not before.
  ghost predicate Kept(mem: Memory, owner: map<nat, Owner>, mem': Memory, owner': map<nat, Owner>) {
    && owner'.Keys == owner.Keys == mem.Keys == mem'.Keys
    && (forall p :: p in owner && (owner[p].Data? || owner[p] in {Held, Lost}) ==> owner'[p] == owner[p] && mem'[p] == mem[p])
    && (forall p :: p in owner && owner'[p] in {Free, Held, Lost} ==> owner[p] == owner'[p])
  }

  // The page tables of m grew, on pages that were free.
  ghost predicate Grew(mem: Memory, owner: map<nat, Owner>, tables: map<nat, Tables>, mem': Memory, owner': map<nat, Owner>, tables': map<nat, Tables>, m: nat) {
    && m in tables && m in tables' && tables' == tables[m := tables'[m]]
    && Root in tables[m] && (forall a :: a in tables[m] ==> a in tables'[m] && tables'[m][a] == tables[m][a])
    && Around(mem, owner, mem', owner', m) && Kept(mem, owner, mem', owner')
    && (forall k :: k in tables && k != m ==> Root in tables[k] && Same(mem, mem', tables[k][Root]))
  }

  lemma GrewTrans(mem: Memory, owner: map<nat, Owner>, tables: map<nat, Tables>, mem1: Memory, owner1: map<nat, Owner>, tables1: map<nat, Tables>,
                  mem2: Memory, owner2: map<nat, Owner>, tables2: map<nat, Tables>, m: nat)
    requires Grew(mem, owner, tables, mem1, owner1, tables1, m) && Grew(mem1, owner1, tables1, mem2, owner2, tables2, m)
    ensures Grew(mem, owner, tables, mem2, owner2, tables2, m)
  {
    hide Translate;
    AroundTrans(mem, owner, mem1, owner1, mem2, owner2, m);
    assert tables2 == tables[m := tables2[m]];
    forall k | k in tables && k != m ensures Root in tables[k] && Same(mem, mem2, tables[k][Root]) {
      assert tables1[k] == tables[k];
    }
  }

  // Page v got a page of its own that was free before, or the address of no page.
  predicate Fresh(owner0: map<nat, Owner>, owner: map<nat, Owner>, m: nat, v: nat, flags: Perm, e: Option<Pte>) {
    && e.Some? && e.value.perm == flags.(v := true)
    && (e.value.ppn == NOPAGE ||
        (e.value.ppn in owner0 && e.value.ppn in owner && owner0[e.value.ppn] == Free && owner[e.value.ppn] == Data(m, v)))
  }

  // The d pages from s were free to map and are mapped; no other page of m changed.
  ghost predicate Placed(mem0: Memory, owner0: map<nat, Owner>, mem: Memory, owner: map<nat, Owner>, root: nat, m: nat, s: nat, d: nat, flags: Perm) {
    forall v: nat :: v < VPNS ==>
      if s <= v < s + d then Translate(mem0, root, v).None? && Fresh(owner0, owner, m, v, flags, Translate(mem, root, v))
      else Translate(mem, root, v) == Translate(mem0, root, v)
  }

  // The d pages from s have pages of the allocator behind them.
  ghost predicate Real(mem: Memory, owner: map<nat, Owner>, root: nat, s: nat, d: nat) {
    forall v: nat :: s <= v < s + d ==> RealAt(mem, owner, root, v)
  }

  ghost predicate RealAt(mem: Memory, owner: map<nat, Owner>, root: nat, v: nat) {
    var e := Translate(mem, root, v);
    e.Some? && e.value.ppn in owner
  }

  lemma RealSame(mem1: Memory, owner1: map<nat, Owner>, mem2: Memory, owner2: map<nat, Owner>, root: nat, s: nat, d: nat)
    requires owner1.Keys == owner2.Keys && forall v: nat :: s <= v < s + d ==> Translate(mem2, root, v) == Translate(mem1, root, v)
    ensures Real(mem2, owner2, root, s, d) <==> Real(mem1, owner1, root, s, d)
  {
    hide Translate;
    forall v: nat | s <= v < s + d ensures RealAt(mem2, owner2, root, v) <==> RealAt(mem1, owner1, root, v) {
      assert Translate(mem2, root, v) == Translate(mem1, root, v);
    }
    hide RealAt;
    if Real(mem1, owner1, root, s, d) {
      forall v: nat | s <= v < s + d ensures RealAt(mem2, owner2, root, v) { assert RealAt(mem1, owner1, root, v); }
    }
    if Real(mem2, owner2, root, s, d) {
      forall v: nat | s <= v < s + d ensures RealAt(mem1, owner1, root, v) { assert RealAt(mem2, owner2, root, v); }
    }
  }

  lemma RealJoin(mem: Memory, owner: map<nat, Owner>, root: nat, s: nat, d: nat)
    ensures Real(mem, owner, root, s, d + 1) <==> Real(mem, owner, root, s, d) && Real(mem, owner, root, s + d, 1)
  {
    hide RealAt;
  }

  lemma PlacedStep(mem0: Memory, owner0: map<nat, Owner>, mem1: Memory, owner1: map<nat, Owner>, mem2: Memory, owner2: map<nat, Owner>,
                   root: nat, m: nat, s: nat, d: nat, flags: Perm)
    requires Kept(mem0, owner0, mem1, owner1) && Kept(mem1, owner1, mem2, owner2) && s + d < VPNS
    requires Placed(mem0, owner0, mem1, owner1, root, m, s, d, flags) && Placed(mem1, owner1, mem2, owner2, root, m, s + d, 1, flags)
    ensures Placed(mem0, owner0, mem2, owner2, root, m, s, d + 1, flags)
  {
    hide Translate;
  }

  lemma PlacedAfter(mem0: Memory, owner0: map<nat, Owner>, mem1: Memory, owner1: map<nat, Owner>, mem2: Memory, owner2: map<nat, Owner>,
                    tables: map<nat, Tables>, m: nat, v: nat, flags: Perm)
    requires SameAll(mem0, mem1, tables) && Kept(mem0, owner0, mem1, owner1) && m in tables && Root in tables[m]
    requires Placed(mem1, owner1, mem2, owner2, tables[m][Root], m, v, 1, flags)
    ensures Placed(mem0, owner0, mem2, owner2, tables[m][Root], m, v, 1, flags)
  {
    hide Translate;
  }

  // ---------- reading the lowest table

  lemma SlotIs(mem: Memory, owner: map<nat, Owner>, tables: map<nat, Tables>, m: nat, v: nat)
    requires World(mem, owner, tables) && m in tables && LowOf(v) in tables[m] && v < VPNS
    ensures Root in tables[m] && tables[m][LowOf(v)] in mem && owner[tables[m][LowOf(v)]] == Table(m, LowOf(v))
    ensures var e := mem[tables[m][LowOf(v)]][I0(v)];
      && Translate(mem, tables[m][Root], v) == (if e.perm.v then Some(e) else None)
      && (if e.perm.v then Leaf(e.perm) && (e.ppn in owner ==> owner[e.ppn] == Data(m, v)) else e == Empty)
  {
    hide Accounted;
    var t := tables[m];
    TranslateShape(mem, t, v);
    assert Linked(mem, t, LowOf(v)) && Linked(mem, t, Mid(I2(v)));
  }

  lemma NoSlot(mem: Memory, owner: map<nat, Owner>, tables: map<nat, Tables>, m: nat, v: nat)
    requires World(mem, owner, tables) && m in tables && LowOf(v) !in tables[m]
    ensures Root in tables[m] && Translate(mem, tables[m][Root], v).None?
  {
    hide Accounted, Backed;
    TranslateShape(mem, tables[m], v);
  }

  // Page pa, or no page, came from the free list and went to page v of m.
  ghost predicate Took(mem: Memory, owner: map<nat, Owner>, m: nat, v: nat, pa: nat,
                       mem1: Memory, owner1: map<nat, Owner>, owner2: map<nat, Owner>)
  {
    if pa in owner then owner[pa] == Free && owner1 == owner[pa := Held] && pa in mem1 && mem1 == mem[pa := mem1[pa]] && owner2 == owner1[pa := Data(m, v)]
    else pa == NOPAGE && owner1 == owner == owner2 && mem1 == mem
  }

  // mem1, owner1: after kallocpage returned pa; mem2, owner2: after the entry was written.
  lemma FillWorld(mem: Memory, owner: map<nat, Owner>, tables: map<nat, Tables>, m: nat, v: nat, pa: nat, flags: Perm,
                  mem1: Memory, owner1: map<nat, Owner>, owner2: map<nat, Owner>)
    requires World(mem1, owner1, tables) && Took(mem, owner, m, v, pa, mem1, owner1, owner2)
    requires m in tables && v < VPNS && LowOf(v) in tables[m] && Leaf(flags) && Root in tables[m]
    requires Translate(mem1, tables[m][Root], v).None?
    ensures tables[m][LowOf(v)] in mem1
    ensures var mem2 := SetWord(mem1, tables[m][LowOf(v)], I0(v), MakePte(pa, flags));
      && World(mem2, owner2, tables) && Around(mem1, owner1, mem2, owner2, m)
      && Changed(mem1, mem2, tables[m][Root], v, Some(MakePte(pa, flags)))
      && forall k :: k in tables && k != m ==> Root in tables[k] && Same(mem1, mem2, tables[k][Root])
  {
    hide Translate, Good, I0, I1, I2;
    forall p | p in owner1 ensures owner1[p] != Data(m, v) {
      assert Used(mem1, tables, p, owner1[p]);
    }
    WriteLow(mem1, owner1, tables, m, v, MakePte(pa, flags), owner2);
  }

  lemma FillGrew(mem: Memory, owner: map<nat, Owner>, tables: map<nat, Tables>, m: nat, v: nat, pa: nat, flags: Perm, table: nat,
                 mem1: Memory, owner1: map<nat, Owner>, mem2: Memory, owner2: map<nat, Owner>)
    requires mem.Keys == owner.Keys && Took(mem, owner, m, v, pa, mem1, owner1, owner2) && SameAll(mem, mem1, tables)
    requires Around(mem, owner, mem1, owner1, m) && Around(mem1, owner1, mem2, owner2, m)
    requires m in tables && v < VPNS && Root in tables[m] && table in mem1 && table in owner && owner[table].Table?
    requires mem2 == mem1[table := mem2[table]]
    requires Changed(mem1, mem2, tables[m][Root], v, Some(MakePte(pa, flags))) && Translate(mem, tables[m][Root], v).None?
    requires forall k :: k in tables && k != m ==> Root in tables[k] && Same(mem1, mem2, tables[k][Root])
    ensures Grew(mem, owner, tables, mem2, owner2, tables, m)
    ensures Placed(mem, owner, mem2, owner2, tables[m][Root], m, v, 1, flags)
    ensures pa in owner <==> Real(mem2, owner2, tables[m][Root], v, 1)
  {
    hide Translate;
    AroundTrans(mem, owner, mem1, owner1, mem2, owner2, m);
    assert tables == tables[m := tables[m]];
    assert Translate(mem2, tables[m][Root], v) == Some(MakePte(pa, flags));
    assert RealAt(mem2, owner2, tables[m][Root], v) <==> pa in owner;
  }

  // Other address spaces see nothing of it.
  ghost predicate Beside(mem: Memory, owner: map<nat, Owner>, tables: map<nat, Tables>, mem': Memory, owner': map<nat, Owner>, m: nat) {
    && Around(mem, owner, mem', owner', m)
    && forall k :: k in tables && k != m ==> Root in tables[k] && Same(mem, mem', tables[k][Root])
  }

  lemma EnterWorld(mem: Memory, owner: map<nat, Owner>, tables: map<nat, Tables>, m: nat, v: nat, pa: nat, flags: Perm, owner': map<nat, Owner>)
    requires World(mem, owner, tables) && m in tables && v < VPNS && LowOf(v) in tables[m] && Leaf(flags) && Root in tables[m]
    requires Translate(mem, tables[m][Root], v).None? && (pa in owner ==> owner[pa] == Held)
    requires owner' == if pa in owner then owner[pa := Data(m, v)] else owner
    ensures tables[m][LowOf(v)] in mem
    ensures var mem' := SetWord(mem, tables[m][LowOf(v)], I0(v), MakePte(pa, flags));
      && World(mem', owner', tables) && Beside(mem, owner, tables, mem', owner', m)
      && Changed(mem, mem', tables[m][Root], v, Some(MakePte(pa, flags)))
  {
    hide Translate, Good, I0, I1, I2;
    forall p | p in owner ensures owner[p] != Data(m, v) {
      assert Used(mem, tables, p, owner[p]);
    }
    WriteLow(mem, owner, tables, m, v, MakePte(pa, flags), owner');
  }

  // Of the pages with contents somebody relies on, at most pa got an owner, data.
  ghost predicate EnteredOnly(mem: Memory, owner: map<nat, Owner>, mem': Memory, owner': map<nat, Owner>, pa: Option<nat>, data: Owner) {
    && owner'.Keys == owner.Keys == mem.Keys == mem'.Keys
    && (forall p :: p in owner && (owner[p].Data? || owner[p] in {Held, Lost}) ==> mem'[p] == mem[p] && owner'[p] == if pa == Some(p) then data else owner[p])
    && (forall p :: p in owner && owner'[p] == Free ==> owner[p] == Free)
  }

  // The caller holds frame pa, or it is not the allocator's.
  ghost predicate Spare(owner: map<nat, Owner>, pa: nat) { pa in owner ==> owner[pa] == Held }

  ghost predicate EmptySlot(mem: Memory, tables: map<nat, Tables>, m: nat, v: nat, page: nat) {
    m in tables && LowOf(v) in tables[m] && tables[m][LowOf(v)] == page && page in mem && !mem[page][I0(v)].perm.v
  }

  // Only the lowest table of v was written.
  ghost predicate Wrote(mem: Memory, owner: map<nat, Owner>, mem': Memory, page: nat, m: nat, v: nat) {
    page in owner && owner[page] == Table(m, LowOf(v)) && page in mem' && mem' == mem[page := mem'[page]]
  }

  // Page v of m is now on frame pa.
  ghost predicate Entered(mem: Memory, owner: map<nat, Owner>, tables: map<nat, Tables>, mem': Memory, owner': map<nat, Owner>,
                          m: nat, v: nat, page: nat, pa: nat, flags: Perm, root: nat)
  {
    && Beside(mem, owner, tables, mem', owner', m) && Changed(mem, mem', root, v, Some(MakePte(pa, flags)))
    && owner' == (if pa in owner then owner[pa := Data(m, v)] else owner)
    && Wrote(mem, owner, mem', page, m, v)
  }

  lemma EnterAfter(mem0: Memory, owner0: map<nat, Owner>, tables0: map<nat, Tables>, mem1: Memory, owner1: map<nat, Owner>, tables: map<nat, Tables>,
                   mem: Memory, owner: map<nat, Owner>, m: nat, v: nat, pa: nat, flags: Perm, page: nat, root: nat)
    requires Grew(mem0, owner0, tables0, mem1, owner1, tables, m) && Same(mem0, mem1, root) && Spare(owner0, pa)
    requires Entered(mem1, owner1, tables, mem, owner, m, v, page, pa, flags, root)
    ensures Beside(mem0, owner0, tables0, mem, owner, m) && Changed(mem0, mem, root, v, Some(MakePte(pa, flags)))
    ensures EnteredOnly(mem0, owner0, mem, owner, Some(pa), Data(m, v))
  {
    hide Translate, Around, LowOf;
    AroundTrans(mem0, owner0, mem1, owner1, mem, owner, m);
    forall k | k in tables0 && k != m ensures Root in tables0[k] && Same(mem0, mem, tables0[k][Root]) {
      assert tables[k] == tables0[k];
      SameTrans(mem0, mem1, mem, tables0[k][Root]);
    }
  }

  // New flags for a mapped page.
  lemma ReflagWorld(mem: Memory, owner: map<nat, Owner>, tables: map<nat, Tables>, m: nat, v: nat, e: Pte)
    requires World(mem, owner, tables) && m in tables && v < VPNS && LowOf(v) in tables[m] && Root in tables[m]
    requires var o := Translate(mem, tables[m][Root], v); o.Some? && o.value.ppn == e.ppn && e.perm.v && Leaf(e.perm)
    ensures tables[m][LowOf(v)] in mem
    ensures var mem' := SetWord(mem, tables[m][LowOf(v)], I0(v), e);
      World(mem', owner, tables) && Beside(mem, owner, tables, mem', owner, m) && Changed(mem, mem', tables[m][Root], v, Some(e))
  {
    hide Translate, Good, I0, I1, I2, Leaf;
    assert e.ppn in owner ==> owner[e.ppn] == Data(m, v) by { SlotIs(mem, owner, tables, m, v); }
    forall p | p in owner && owner[p] == Data(m, v) ensures e.ppn == p {
      OnlyPage(mem, owner, tables, m, v, p);
    }
    WriteLow(mem, owner, tables, m, v, e, owner);
  }

  // ---------- giving pages back

  predicate Within(o: Owner, m: nat, s: nat, d: nat) { o.Data? && o.m == m && s <= o.v < s + d }

  // The d pages from s of m are gone and their frames became to; all else stayed.
  ghost predicate Cleared(mem0: Memory, owner0: map<nat, Owner>, mem: Memory, owner: map<nat, Owner>, root: nat, m: nat, s: nat, d: nat, to: Owner) {
    && mem0.Keys == owner0.Keys == owner.Keys == mem.Keys
    && (forall v: nat :: v < VPNS ==> Translate(mem, root, v) == if s <= v < s + d then None else Translate(mem0, root, v))
    && (forall p :: p in owner0 ==> owner[p] == if Within(owner0[p], m, s, d) then to else owner0[p])
    && (forall p :: p in owner0 && (owner0[p].Data? || owner0[p] in {Held, Lost}) && !Within(owner0[p], m, s, d) ==> mem[p] == mem0[p])
  }

  // Unmapping page v, and with phys freeing its page, meets no entry that panics.
  ghost predicate FreeableAt(mem: Memory, owner: map<nat, Owner>, t: Tables, phys: bool, v: nat)
    requires Root in t
  {
    v <= LASTPAGE && (phys && LowOf(v) in t ==> var e := Translate(mem, t[Root], v); e.Some? && e.value.ppn in owner)
  }

  ghost predicate Freeable(mem: Memory, owner: map<nat, Owner>, t: Tables, phys: bool, s: nat, d: nat)
    requires Root in t
  {
    forall v: nat :: s <= v < s + d ==> FreeableAt(mem, owner, t, phys, v)
  }

  lemma FreeableStep(mem0: Memory, owner0: map<nat, Owner>, mem: Memory, owner: map<nat, Owner>, t: Tables, phys: bool, m: nat, s: nat, d: nat, n: nat, to: Owner)
    requires Root in t && Cleared(mem0, owner0, mem, owner, t[Root], m, s, d, to) && d < n
    requires Freeable(mem0, owner0, t, phys, s, d)
    ensures FreeableAt(mem, owner, t, phys, s + d) <==> Freeable(mem0, owner0, t, phys, s, d + 1)
    ensures !FreeableAt(mem, owner, t, phys, s + d) ==> !Freeable(mem0, owner0, t, phys, s, n)
  {
    hide Translate, LowOf;
    assert FreeableAt(mem, owner, t, phys, s + d) <==> FreeableAt(mem0, owner0, t, phys, s + d) by {
      if s + d <= LASTPAGE { assert Translate(mem, t[Root], s + d) == Translate(mem0, t[Root], s + d); }
    }
    hide FreeableAt;
    assert Freeable(mem0, owner0, t, phys, s, d + 1) ==> FreeableAt(mem0, owner0, t, phys, s + d);
    if Freeable(mem0, owner0, t, phys, s, n) { assert FreeableAt(mem0, owner0, t, phys, s + d); }
  }

  lemma BesideAll(mem: Memory, owner: map<nat, Owner>, tables: map<nat, Tables>, mem': Memory, owner': map<nat, Owner>, m: nat)
    requires SameAll(mem, mem', tables) && Around(mem, owner, mem', owner', m)
    ensures Beside(mem, owner, tables, mem', owner', m)
  {
    hide Translate, Around;
  }

  lemma BesideTrans(mem: Memory, owner: map<nat, Owner>, tables: map<nat, Tables>, mem1: Memory, owner1: map<nat, Owner>, mem2: Memory, owner2: map<nat, Owner>, m: nat)
    requires Beside(mem, owner, tables, mem1, owner1, m) && Beside(mem1, owner1, tables, mem2, owner2, m)
    ensures Beside(mem, owner, tables, mem2, owner2, m)
  {
    hide Translate;
    AroundTrans(mem, owner, mem1, owner1, mem2, owner2, m);
  }

  lemma ClearStep(mem0: Memory, owner0: map<nat, Owner>, mem1: Memory, owner1: map<nat, Owner>, mem2: Memory, owner2: map<nat, Owner>,
                  root: nat, m: nat, s: nat, d: nat, to: Owner)
    requires Cleared(mem0, owner0, mem1, owner1, root, m, s, d, to) && Cleared(mem1, owner1, mem2, owner2, root, m, s + d, 1, to)
    requires to in {Free, Held}
    ensures Cleared(mem0, owner0, mem2, owner2, root, m, s, d + 1, to)
  {
    hide Translate;
  }

  // Nothing to clear where there is no table.
  lemma ClearSkip(mem: Memory, owner: map<nat, Owner>, tables: map<nat, Tables>, m: nat, v: nat, to: Owner)
    requires World(mem, owner, tables) && m in tables && LowOf(v) !in tables[m]
    ensures Root in tables[m] && Cleared(mem, owner, mem, owner, tables[m][Root], m, v, 1, to) && Beside(mem, owner, tables, mem, owner, m)
  {
    hide Translate, Shape, Tidy;
    NoSlot(mem, owner, tables, m, v);
    SameRefl(mem, owner, tables, m);
    forall p | p in owner ensures !Within(owner[p], m, v, 1) {
      assert Used(mem, tables, p, owner[p]);
    }
  }

  lemma ClearNone(mem: Memory, owner: map<nat, Owner>, tables: map<nat, Tables>, m: nat, s: nat, to: Owner)
    requires World(mem, owner, tables) && m in tables
    ensures Root in tables[m] && Cleared(mem, owner, mem, owner, tables[m][Root], m, s, 0, to) && Beside(mem, owner, tables, mem, owner, m)
  {
    hide Translate, Shape, Tidy;
    SameRefl(mem, owner, tables, m);
    assert Good(mem, owner, m, tables[m]);
  }

  // Unmapping page v without freeing its page.
  lemma ClearKeep(mem: Memory, owner: map<nat, Owner>, tables: map<nat, Tables>, m: nat, v: nat)
    requires World(mem, owner, tables) && m in tables && LowOf(v) in tables[m] && v < VPNS
    ensures Root in tables[m] && tables[m][LowOf(v)] in mem
    ensures var e := mem[tables[m][LowOf(v)]][I0(v)];
      var mem', owner' := SetWord(mem, tables[m][LowOf(v)], I0(v), Empty), if e.perm.v && e.ppn in owner then owner[e.ppn := Held] else owner;
      && World(mem', owner', tables) && Cleared(mem, owner, mem', owner', tables[m][Root], m, v, 1, Held)
      && Beside(mem, owner, tables, mem', owner', m)
  {
    hide Translate, Shape, Tidy, Backed, Accounted, I0, I1, I2;
    SlotIs(mem, owner, tables, m, v);
    var table := tables[m][LowOf(v)];
    var e := mem[table][I0(v)];
    var owner' := if e.perm.v && e.ppn in owner then owner[e.ppn := Held] else owner;
    forall p | p in owner && owner[p] == Data(m, v) ensures e.perm.v && e.ppn == p {
      OnlyPage(mem, owner, tables, m, v, p);
    }
    WriteLow(mem, owner, tables, m, v, Empty, owner');
  }

  lemma OnlyPage(mem: Memory, owner: map<nat, Owner>, tables: map<nat, Tables>, m: nat, v: nat, p: nat)
    requires World(mem, owner, tables) && p in owner && owner[p] == Data(m, v)
    ensures m in tables && Root in tables[m] && v < VPNS
    ensures var e := Translate(mem, tables[m][Root], v); e.Some? && e.value.ppn == p
  {
    hide Good;
    assert Used(mem, tables, p, owner[p]);
  }

  // kfreepage(PTE2PA(*pte)), then *pte = 0, for an entry whose page is the allocator's.
  lemma ClearFree(mem: Memory, owner: map<nat, Owner>, tables: map<nat, Tables>, m: nat, v: nat, p: nat, junk: Page)
    requires World(mem, owner, tables) && m in tables && LowOf(v) in tables[m] && v < VPNS && Root in tables[m]
    requires var e := Translate(mem, tables[m][Root], v); e.Some? && e.value.ppn == p && p in owner
    ensures owner[p] == Data(m, v) && tables[m][LowOf(v)] in mem && tables[m][LowOf(v)] != p
    ensures var mem' := SetWord(mem[p := junk], tables[m][LowOf(v)], I0(v), Empty);
      && World(mem', owner[p := Free], tables) && Cleared(mem, owner, mem', owner[p := Free], tables[m][Root], m, v, 1, Free)
      && Beside(mem, owner, tables, mem', owner[p := Free], m)
  {
    hide Translate, Good, Accounted, I0, I1, I2;
    SlotIs(mem, owner, tables, m, v);
    var table := tables[m][LowOf(v)];
    var mem1 := SetWord(mem, table, I0(v), Empty);
    ClearKeep(mem, owner, tables, m, v);
    Idle(mem1, owner[p := Held], tables, p, junk, Free, m);
    assert mem1[p := junk] == SetWord(mem[p := junk], table, I0(v), Empty);
    assert owner[p := Held][p := Free] == owner[p := Free];
    ClearToFree(mem, owner, mem1, mem1[p := junk], tables, m, v, p);
  }

  lemma ClearToFree(mem: Memory, owner: map<nat, Owner>, mem1: Memory, mem2: Memory, tables: map<nat, Tables>, m: nat, v: nat, p: nat)
    requires m in tables && Root in tables[m] && p in owner && owner[p] == Data(m, v) && p in mem2 && mem2 == mem1[p := mem2[p]]
    requires Cleared(mem, owner, mem1, owner[p := Held], tables[m][Root], m, v, 1, Held) && Beside(mem, owner, tables, mem1, owner[p := Held], m)
    requires SameAll(mem1, mem2, tables) && Around(mem1, owner[p := Held], mem2, owner[p := Free], m)
    ensures Cleared(mem, owner, mem2, owner[p := Free], tables[m][Root], m, v, 1, Free) && Beside(mem, owner, tables, mem2, owner[p := Free], m)
  {
    hide Translate;
    AroundTrans(mem, owner, mem1, owner[p := Held], mem2, owner[p := Free], m);
    forall q | q in owner && q != p ensures !Within(owner[q], m, v, 1) {
      assert owner[p := Held][q] == owner[q];
    }
  }

  // ---------- the life of an address space

  // mm_create: an empty root table.
  lemma CreateWorld(mem: Memory, owner: map<nat, Owner>, tables: map<nat, Tables>, m: nat, p: nat)
    requires World(mem, owner, tables) && m !in tables && p in owner && owner[p] == Held
    ensures p in mem
    ensures var mem', owner' := mem[p := ZeroPage()], owner[p := Table(m, Root)];
      var t: Tables := map[Root := p];
      && World(mem', owner', tables[m := t]) && Beside(mem, owner, tables, mem', owner', m)
      && forall v: nat :: Translate(mem', p, v).None?
  {
    hide Good;
    var mem', owner' := mem[p := ZeroPage()], owner[p := Table(m, Root)];
    var t: Tables := map[Root := p];
    CreateGood(mem', owner', m, p);
    forall q | q in owner' && (owner'[q].Table? || owner'[q].Data?) && owner'[q].m == m ensures Used(mem', tables[m := t], q, owner'[q]) {
      if q != p { assert Used(mem, tables, q, owner[q]); }
    }
    WorldStep(mem, owner, tables, mem', owner', m, t);
  }

  lemma CreateGood(mem: Memory, owner: map<nat, Owner>, m: nat, p: nat)
    requires p in mem && mem[p] == ZeroPage() && p in owner && owner[p] == Table(m, Root)
    ensures Good(mem, owner, m, map[Root := p]) && forall v: nat :: Translate(mem, p, v).None?
  {
    var t: Tables := map[Root := p];
    assert Linked(mem, t, Root) && Filled(mem, t, Root);
  }

  // What becomes of the pages of m when its root is freed and m is forgotten.
  function Orphaned(o: Owner, m: nat): Owner {
    if o == Table(m, Root) then Free else if (o.Table? || o.Data?) && o.m == m then Lost else o
  }

  function OrphanAll(owner: map<nat, Owner>, m: nat): (r: map<nat, Owner>)
    ensures r.Keys == owner.Keys
  {
    map p | p in owner :: Orphaned(owner[p], m)
  }

  // mm_free, after mm_free_pages: the root is free, other pages of m are lost.
  lemma DropWorld(mem: Memory, owner: map<nat, Owner>, tables: map<nat, Tables>, m: nat, junk: Page)
    requires World(mem, owner, tables) && m in tables && Root in tables[m] && tables[m][Root] in owner
    ensures var owner' := OrphanAll(owner, m);
      && World(mem[tables[m][Root] := junk], owner', tables - {m}) && Beside(mem, owner, tables, mem[tables[m][Root] := junk], owner', m)
  {
    hide Translate, Good;
    var mem' := mem[tables[m][Root] := junk];
    var owner' := OrphanAll(owner, m);
    GoodRoot(mem, owner, m, tables[m]);
    forall k | k in tables && k != m ensures Good(mem', owner', k, tables[k]) && Root in tables[k] && Same(mem, mem', tables[k][Root]) {
      assert Good(mem, owner, k, tables[k]);
      GoodFrame(mem, owner, mem', owner', k, tables[k], m);
      GoodRoot(mem', owner', k, tables[k]);
    }
    forall p | p in owner' ensures Used(mem', tables - {m}, p, owner'[p]) {
      assert Used(mem, tables, p, owner[p]);
      if owner[p].Data? && owner[p].m != m { assert Same(mem, mem', tables[owner[p].m][Root]); }
    }
  }

  lemma GoodRoot(mem: Memory, owner: map<nat, Owner>, m: nat, t: Tables)
    requires Good(mem, owner, m, t)
    ensures Root in t && t[Root] in owner && owner[t[Root]] == Table(m, Root)
  {
  }

  // The free list after the root of m was pushed.
  lemma DropFree(free: seq<nat>, owner: map<nat, Owner>, m: nat, root: nat)
    requires FreeList(free, owner) && root in owner && owner[root] == Table(m, Root)
    requires forall p :: p in owner && owner[p] == Table(m, Root) ==> p == root
    ensures FreeList([root] + free, OrphanAll(owner, m))
  {
  }
}

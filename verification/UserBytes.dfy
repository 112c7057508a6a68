/**
  User memory as bytes: the copies of os/uaccess.c over the page tables and the page
  ownership of os/vm.c.
*/
module UserBytes {
  import opened Sv39
  import opened PteBits
  import opened UserPages
  import opened UserAreas
  import opened UserCopy
  import U = Uaccess

  // Word i of a page, lowest byte first.
  function WordAt(page: U.Page, i: nat): Word
    requires i < 512
  {
    var b := j requires 0 <= j < 8 => page[8 * i + j] as bv64;
    b(0) | (b(1) << 8) | (b(2) << 16) | (b(3) << 24) | (b(4) << 32) | (b(5) << 40) | (b(6) << 48) | (b(7) << 56)
  }

  // The page of entries that 4096 bytes encode.
  function Show(page: U.Page): Page { PageOf(seq(512, i requires 0 <= i < 512 => WordAt(page, i))) }

  // The memory of os/vm.c, from the bytes.
  function View(ram: U.Ram): Memory { map p | p in ram :: Show(ram[p]) }

  // What walkaddr answers for every page, without the zeros.
  function Answers(mem: Memory, root: nat): map<nat, nat> {
    map v | 0 <= v < VPNS && UserPage(mem, root, v) != 0 :: UserPage(mem, root, v)
  }

  lemma AnswersSame(mem: Memory, mem': Memory, root: nat)
    requires Same(mem, mem', root)
    ensures Answers(mem', root) == Answers(mem, root)
  {
    hide Translate, UserPage;
    forall v: nat ensures UserPage(mem', root, v) == UserPage(mem, root, v) {
      SamePage(mem, mem', root, v);
    }
  }

  // A copy meets the outcome walkaddr's answer stands for.
  lemma ReachIs(ram: U.Ram, root: nat, va: nat)
    ensures var p := UserPage(View(ram), root, va / PGSIZE);
      U.Reach(ram, Answers(View(ram), root), va) ==
        if va / PGSIZE * PGSIZE > MAXVA then U.Panic else if p == 0 then U.Failed else if p !in ram then U.Panic else U.Done
  {
    hide UserPage, View;
    assert va / PGSIZE * PGSIZE <= MAXVA ==> va / PGSIZE < VPNS;
  }

  // The frame behind a byte that can be reached belongs to that page of that space.
  lemma ReachedFrame(ram: U.Ram, owner: map<nat, Owner>, tables: map<nat, Tables>, m: nat, va: nat)
    requires World(View(ram), owner, tables) && m in tables && Root in tables[m]
    requires U.Reach(ram, Answers(View(ram), tables[m][Root]), va) == U.Done
    ensures var p := UserPage(View(ram), tables[m][Root], va / PGSIZE);
      Answers(View(ram), tables[m][Root])[U.Vpn(va)] == p && p in ram && p in owner && owner[p] == Data(m, va / PGSIZE)
  {
    hide World, UserPage, Show;
    ReachIs(ram, tables[m][Root], va);
    WorldKeys(View(ram), owner, tables);
    PageOwner(View(ram), owner, tables, m, va / PGSIZE);
  }

  lemma WorldKeys(mem: Memory, owner: map<nat, Owner>, tables: map<nat, Tables>)
    requires World(mem, owner, tables)
    ensures mem.Keys == owner.Keys
  {
  }

  // What one address space's user data is written over changes nothing else.
  ghost predicate Undisturbed(ram: U.Ram, ram': U.Ram, owner: map<nat, Owner>, tables: map<nat, Tables>, m: nat) {
    && ram'.Keys == ram.Keys == owner.Keys
    && World(View(ram'), owner, tables) && SameAll(View(ram), View(ram'), tables)
    && forall p :: p in ram && ram'[p] != ram[p] ==> owner[p].Data? && owner[p].m == m
  }

  lemma ViewStore(ram: U.Ram, p: nat, page: U.Page)
    requires p in ram
    ensures View(ram[p := page]) == View(ram)[p := Show(page)]
  {
    hide Show;
  }

  lemma PokeKeeps(ram: U.Ram, owner: map<nat, Owner>, tables: map<nat, Tables>, m: nat, va: nat, b: U.Byte)
    requires World(View(ram), owner, tables) && m in tables && Root in tables[m]
    requires U.Reach(ram, Answers(View(ram), tables[m][Root]), va) == U.Done
    ensures Undisturbed(ram, U.Poke(ram, Answers(View(ram), tables[m][Root]), va, b), owner, tables, m)
  {
    hide World, UserPage, Show, SameAll, Answers;
    var pt, p := Answers(View(ram), tables[m][Root]), UserPage(View(ram), tables[m][Root], va / PGSIZE);
    ReachedFrame(ram, owner, tables, m, va);
    WorldKeys(View(ram), owner, tables);
    var page := ram[p][U.Off(va) := b];
    ViewStore(ram, p, page);
    StoreWorld(View(ram), owner, tables, p, Show(page));
    assert U.Poke(ram, pt, va, b) == ram[p := page];
  }

  lemma UndisturbedTrans(ram: U.Ram, ram1: U.Ram, ram2: U.Ram, owner: map<nat, Owner>, tables: map<nat, Tables>, m: nat)
    requires Undisturbed(ram, ram1, owner, tables, m) && Undisturbed(ram1, ram2, owner, tables, m)
    ensures Undisturbed(ram, ram2, owner, tables, m)
  {
    hide World, SameAll, View;
    SameAllTrans(View(ram), View(ram1), View(ram2), tables);
  }

  // copy_to_user, wherever it stops, writes only frames behind user pages of its address
  // space: every table, every translation and every page of another space stay, so
  // walkaddr gives the same answers all through the copy.
  lemma {:induction false} PutUndisturbed(ram: U.Ram, owner: map<nat, Owner>, tables: map<nat, Tables>, m: nat, va: nat, src: seq<U.Byte>)
    requires World(View(ram), owner, tables) && m in tables && Root in tables[m]
    ensures var pt := Answers(View(ram), tables[m][Root]); var ram' := U.PutBytes(ram, pt, va, src).ram;
      Undisturbed(ram, ram', owner, tables, m) && Answers(View(ram'), tables[m][Root]) == pt
    decreases |src|
  {
    hide World, SameAll, View, Answers, Undisturbed, U.Poke, U.Reach;
    var root := tables[m][Root];
    var pt := Answers(View(ram), root);
    if src == [] || U.Reach(ram, pt, va) != U.Done {
      UndisturbedRefl(ram, owner, tables, m);
    } else {
      var ram1 := U.Poke(ram, pt, va, src[0]);
      PokeKeeps(ram, owner, tables, m, va, src[0]);
      UndisturbedAnswers(ram, ram1, owner, tables, m);
      PutUndisturbed(ram1, owner, tables, m, va + 1, src[1..]);
      UndisturbedTrans(ram, ram1, U.PutBytes(ram1, pt, va + 1, src[1..]).ram, owner, tables, m);
    }
  }

  lemma UndisturbedRefl(ram: U.Ram, owner: map<nat, Owner>, tables: map<nat, Tables>, m: nat)
    requires World(View(ram), owner, tables)
    ensures Undisturbed(ram, ram, owner, tables, m)
  {
    hide World, SameAll, Show;
    WorldKeys(View(ram), owner, tables);
    SameRefl(View(ram), owner, tables, m);
  }

  lemma UndisturbedAnswers(ram: U.Ram, ram1: U.Ram, owner: map<nat, Owner>, tables: map<nat, Tables>, m: nat)
    requires Undisturbed(ram, ram1, owner, tables, m) && m in tables
    ensures World(View(ram1), owner, tables) && Root in tables[m]
    ensures Answers(View(ram1), tables[m][Root]) == Answers(View(ram), tables[m][Root])
  {
    hide World, Same, View, Answers;
    AnswersSame(View(ram), View(ram1), tables[m][Root]);
  }

  // No two pages of an address space share a frame of the memory.
  lemma AnswersApart(ram: U.Ram, owner: map<nat, Owner>, tables: map<nat, Tables>, m: nat)
    requires World(View(ram), owner, tables) && m in tables && Root in tables[m]
    ensures U.NoAlias(ram, Answers(View(ram), tables[m][Root]))
  {
    hide World, UserPage, Show;
    var pt := Answers(View(ram), tables[m][Root]);
    WorldKeys(View(ram), owner, tables);
    forall v | v in pt && pt[v] in ram ensures pt[v] in owner && owner[pt[v]] == Data(m, v) {
      PageOwner(View(ram), owner, tables, m, v);
    }
  }

  // What copy_to_user wrote through the page tables of a space, copy_from_user reads back.
  lemma UserReadsBack(ram: U.Ram, owner: map<nat, Owner>, tables: map<nat, Tables>, m: nat, va: nat, src: seq<U.Byte>)
    requires World(View(ram), owner, tables) && m in tables && Root in tables[m]
    requires U.PutBytes(ram, Answers(View(ram), tables[m][Root]), va, src).status == U.Done
    ensures var ram' := U.PutBytes(ram, Answers(View(ram), tables[m][Root]), va, src).ram;
      U.GetBytes(ram', Answers(View(ram'), tables[m][Root]), va, |src|) == U.Got(src, U.Done)
  {
    hide World, View, Answers, U.PutBytes, U.GetBytes;
    AnswersApart(ram, owner, tables, m);
    PutUndisturbed(ram, owner, tables, m, va, src);
    U.ReadsBack(ram, Answers(View(ram), tables[m][Root]), va, src);
  }
}

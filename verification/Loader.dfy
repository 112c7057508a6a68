/**
  Filling a PT_LOAD segment of a user program (os/loader.c:36-95; Program Header, chapter 5
  of the System V ABI).
*/
module Loader {
  import opened Uaccess

  function Down(a: nat): nat { a / PGSIZE * PGSIZE }
  function Up(a: nat): nat { (a + PGSIZE - 1) / PGSIZE * PGSIZE }

  // The program header fields used here.
  datatype Phdr = Phdr(vaddr: nat, offset: nat, filesz: nat, memsz: nat)

  function Start(h: Phdr): nat { Down(h.vaddr) }
  function End(h: Phdr): nat { Up(Start(h) + h.memsz) }

  // Byte i of the segment: from the file, then zeros.
  function Want(h: Phdr, file: seq<Byte>, i: nat): Byte
    requires h.offset + h.filesz <= |file|
  {
    if i < h.filesz then file[h.offset + i] else 0
  }

  // mm_mappages has mapped the segment's pages.
  ghost predicate Mapped(ram: Ram, pt: map<nat, nat>, h: Phdr) {
    forall a: nat :: Start(h) <= a < End(h) ==> Reach(ram, pt, a) == Done
  }

  // The bytes from..to of the address space are as wanted, all other bytes as before.
  ghost predicate Filled(ram0: Ram, ram: Ram, pt: map<nat, nat>, h: Phdr, file: seq<Byte>, to: nat)
    requires h.offset + h.filesz <= |file|
  {
    && ram.Keys == ram0.Keys
    && forall a: nat :: Reach(ram0, pt, a) == Done ==>
         && Reach(ram, pt, a) == Done
         && Peek(ram, pt, a) == if Start(h) <= a < to then Want(h, file, a - Start(h)) else Peek(ram0, pt, a)
  }

  // The whole page of va is replaced.
  lemma NewPage(ram: Ram, pt: map<nat, nat>, va: nat, page: Page, a: nat)
    requires NoAlias(ram, pt) && Reach(ram, pt, va) == Done && Reach(ram, pt, a) == Done
    ensures var ram' := ram[pt[Vpn(va)] := page];
      Reach(ram', pt, a) == Done && Peek(ram', pt, a) == if Vpn(a) == Vpn(va) then page[Off(a)] else Peek(ram, pt, a)
  {
  }

  // memmove of size bytes of the file into a page, and memset of its rest.
  function PageOf(file: seq<Byte>, from: nat, size: nat): (p: Page)
    requires from + size <= |file| && size <= PGSIZE
  {
    file[from..from + size] + seq(PGSIZE - size, _ => 0)
  }

  // Where the file stands when the page at distance done from the start is filled.
  predicate Along(h: Phdr, file_off: nat, remains: nat, done: nat) {
    file_off + remains == h.filesz && (remains == 0 || file_off == done) && file_off <= done
  }

  lemma PageWanted(h: Phdr, file: seq<Byte>, file_off: nat, remains: nat, done: nat, o: nat)
    requires h.offset + h.filesz <= |file| && Along(h, file_off, remains, done) && o < PGSIZE
    ensures var size := if remains < PGSIZE then remains else PGSIZE;
      PageOf(file, h.offset + file_off, size)[o] == Want(h, file, done + o)
  {
  }

  lemma SamePageAs(va: nat, a: nat)
    requires va % PGSIZE == 0
    ensures Vpn(a) == Vpn(va) <==> va <= a < va + PGSIZE
    ensures Vpn(a) == Vpn(va) ==> Off(a) == a - va
  {
  }

  lemma FillPage(ram0: Ram, ram1: Ram, pt: map<nat, nat>, h: Phdr, file: seq<Byte>, va: nat, file_off: nat, remains: nat)
    requires NoAlias(ram0, pt) && h.offset + h.filesz <= |file| && Filled(ram0, ram1, pt, h, file, va) && Reach(ram0, pt, va) == Done
    requires va % PGSIZE == 0 && Start(h) <= va && Along(h, file_off, remains, va - Start(h))
    ensures Reach(ram1, pt, va) == Done
    ensures var size := if remains < PGSIZE then remains else PGSIZE;
      Filled(ram0, ram1[pt[Vpn(va)] := PageOf(file, h.offset + file_off, size)], pt, h, file, va + PGSIZE)
  {
    var page := PageOf(file, h.offset + file_off, if remains < PGSIZE then remains else PGSIZE);
    var ram2 := ram1[pt[Vpn(va)] := page];
    hide PageOf, Want, Start;
    forall a: nat | Reach(ram0, pt, a) == Done
      ensures Reach(ram2, pt, a) == Done
      ensures Peek(ram2, pt, a) == if Start(h) <= a < va + PGSIZE then Want(h, file, a - Start(h)) else Peek(ram0, pt, a)
    {
      NewPage(ram1, pt, va, page, a);
      SamePageAs(va, a);
      if Vpn(a) == Vpn(va) { PageWanted(h, file, file_off, remains, va - Start(h), a - va); }
    }
  }

  class Program {
    var ram: Ram
    const pt: map<nat, nat>

    // The loop over the pages of the segment; what is left of the file comes back.
    method CopyFile(h: Phdr, file: seq<Byte>) returns (remains: nat)
      requires NoAlias(ram, pt) && h.offset + h.filesz <= |file| && Mapped(ram, pt, h)
      modifies this
      ensures Filled(old(ram), ram, pt, h, file, End(h))
      ensures remains == if h.filesz <= End(h) - Start(h) then 0 else h.filesz - (End(h) - Start(h))
    {
      hide Reach, Peek, Want, PageOf, Vpn, Filled;
      var va: nat, file_off: nat := Start(h), 0;
      remains := h.filesz;
      EndAligned(h);
      FilledNone(ram, pt, h, file);
      while va < End(h)
        invariant Start(h) <= va <= End(h) && va % PGSIZE == 0
        invariant Along(h, file_off, remains, va - Start(h))
        invariant Filled(old(ram), ram, pt, h, file, va)
      {
        var copy_size := if remains < PGSIZE then remains else PGSIZE;
        ghost var ram1 := ram;
        FillPage(old(ram), ram, pt, h, file, va, file_off, remains);
        Reachable(ram, pt, va);
        ram := ram[pt[Vpn(va)] := PageOf(file, h.offset + file_off, copy_size)];
        file_off := file_off + copy_size;
        remains := remains - copy_size;
        va := va + PGSIZE;
      }
    }

    // The .bss loop; false is a fault on an address without memory.
    method ClearBss(h: Phdr, ghost file: seq<Byte>, ghost ram0: Ram) returns (ok: bool)
      requires NoAlias(ram, pt) && h.offset + h.filesz <= |file| && h.filesz < h.memsz
      requires Mapped(ram0, pt, h) && Filled(ram0, ram, pt, h, file, End(h))
      modifies this
      ensures ok ==> Loaded(ram, pt, h, file)
      ensures h.vaddr % PGSIZE == 0 ==> ok && Filled(ram0, ram, pt, h, file, End(h))
    {
      hide Reach, Peek, Poke, Want, Vpn, Filled, Loaded, Mapped, Start, End;
      var va: nat, bss_end := h.vaddr + h.filesz, h.vaddr + h.memsz;
      FilledLoaded(ram0, ram, pt, h, file);
      while va < bss_end
        invariant NoAlias(ram, pt) && h.vaddr + h.filesz <= va && Loaded(ram, pt, h, file)
        invariant h.vaddr % PGSIZE == 0 ==> Filled(ram0, ram, pt, h, file, End(h))
        decreases bss_end - va
      {
        var page_off := va - Down(va);
        var clear_size := Up(va) - va;
        ZeroStep(ram0, ram, pt, h, file, va, clear_size);
        if Reach(ram, pt, va) != Done { return false; }
        Reachable(ram, pt, va);
        ram := ram[pt[Vpn(va)] := Blit(ram[pt[Vpn(va)]], page_off, seq(clear_size, _ => 0))];
        va := Down(va) + PGSIZE;
      }
      ok := true;
    }

    // One PT_LOAD segment whose pages are mapped; Panic is the assertion that the file was
    // used up, or a fault.
    method LoadSegment(h: Phdr, file: seq<Byte>) returns (r: Status)
      requires NoAlias(ram, pt) && h.offset + h.filesz <= |file| && Mapped(ram, pt, h)
      modifies this
      ensures r != Failed && (r == Done ==> Loaded(ram, pt, h, file) && h.filesz <= End(h) - Start(h))
      ensures h.vaddr % PGSIZE == 0 ==> (r == Done <==> h.filesz <= End(h) - Start(h)) && Filled(old(ram), ram, pt, h, file, End(h))
    {
      ghost var ram0 := ram;
      var file_remains := CopyFile(h, file);
      FilledLoaded(ram0, ram, pt, h, file);
      if h.memsz > h.filesz {
        var ok := ClearBss(h, file, ram0);
        if !ok { return Panic; }
      }
      r := if file_remains == 0 then Done else Panic;
    }
  }

  lemma EndAligned(h: Phdr)
    ensures Start(h) % PGSIZE == 0 && End(h) % PGSIZE == 0 && Start(h) <= Start(h) + h.memsz <= End(h)
    ensures Start(h) <= h.vaddr < Start(h) + PGSIZE && (h.vaddr % PGSIZE == 0 ==> Start(h) == h.vaddr)
  {
  }

  // Every byte of the segment's pages is what the file and the zeros after it say.
  ghost predicate Loaded(ram: Ram, pt: map<nat, nat>, h: Phdr, file: seq<Byte>)
    requires h.offset + h.filesz <= |file|
  {
    forall a: nat :: Start(h) <= a < End(h) ==> Reach(ram, pt, a) == Done && Peek(ram, pt, a) == Want(h, file, a - Start(h))
  }

  lemma FilledLoaded(ram0: Ram, ram: Ram, pt: map<nat, nat>, h: Phdr, file: seq<Byte>)
    requires h.offset + h.filesz <= |file| && Filled(ram0, ram, pt, h, file, End(h)) && Mapped(ram0, pt, h)
    ensures Loaded(ram, pt, h, file)
  {
    hide Reach, Peek, Want, Start, End;
  }

  // Zeroing from va to the end of its page, past the file's bytes.
  lemma ZeroStep(ram0: Ram, ram: Ram, pt: map<nat, nat>, h: Phdr, file: seq<Byte>, va: nat, size: nat)
    requires NoAlias(ram, pt) && h.offset + h.filesz <= |file| && h.vaddr + h.filesz <= va < h.vaddr + h.memsz && size == Up(va) - va
    requires Loaded(ram, pt, h, file) && (h.vaddr % PGSIZE == 0 ==> Filled(ram0, ram, pt, h, file, End(h)))
    ensures va - Down(va) + size <= PGSIZE
    ensures h.vaddr % PGSIZE == 0 ==> Reach(ram, pt, va) == Done
    ensures Reach(ram, pt, va) == Done ==> Vpn(va) in pt && pt[Vpn(va)] in ram
    ensures Reach(ram, pt, va) == Done ==>
      var ram' := ram[pt[Vpn(va)] := Blit(ram[pt[Vpn(va)]], va - Down(va), seq(size, _ => 0))];
      Loaded(ram', pt, h, file) && (h.vaddr % PGSIZE == 0 ==> Filled(ram0, ram', pt, h, file, End(h)))
  {
    EndAligned(h);
    if Reach(ram, pt, va) == Done {
      var ram' := ram[pt[Vpn(va)] := Blit(ram[pt[Vpn(va)]], va - Down(va), seq(size, _ => 0))];
      forall a: nat | Reach(ram, pt, a) == Done
        ensures Reach(ram', pt, a) == Done
        ensures Peek(ram', pt, a) == if va <= a < va + size then 0 else Peek(ram, pt, a)
      {
        ZeroByte(ram, pt, va, size, a);
      }
    }
  }

  lemma ZeroByte(ram: Ram, pt: map<nat, nat>, va: nat, size: nat, a: nat)
    requires NoAlias(ram, pt) && Reach(ram, pt, va) == Done && Reach(ram, pt, a) == Done && size == Up(va) - va
    ensures va - Down(va) + size <= PGSIZE
    ensures var ram' := ram[pt[Vpn(va)] := Blit(ram[pt[Vpn(va)]], va - Down(va), seq(size, _ => 0))];
      Reach(ram', pt, a) == Done && Peek(ram', pt, a) == if va <= a < va + size then 0 else Peek(ram, pt, a)
  {
    NewPage(ram, pt, va, Blit(ram[pt[Vpn(va)]], va - Down(va), seq(size, _ => 0)), a);
    SamePageAs(Down(va), a);
    SamePageAs(Down(va), va);
  }

  lemma Reachable(ram: Ram, pt: map<nat, nat>, va: nat)
    requires Reach(ram, pt, va) == Done
    ensures Vpn(va) in pt && pt[Vpn(va)] in ram
  {
  }

  lemma FilledNone(ram: Ram, pt: map<nat, nat>, h: Phdr, file: seq<Byte>)
    requires h.offset + h.filesz <= |file|
    ensures Filled(ram, ram, pt, h, file, Start(h))
  {
  }

  // What the program header asks for: the file's bytes, from vaddr on.
  ghost predicate AsAsked(ram: Ram, pt: map<nat, nat>, h: Phdr, file: seq<Byte>)
    requires h.offset + h.filesz <= |file|
  {
    forall a: nat :: h.vaddr <= a < h.vaddr + h.filesz ==> Reach(ram, pt, a) == Done && Peek(ram, pt, a) == file[h.offset + (a - h.vaddr)]
  }

  // The loop copies from the start of the page, so the bytes are where they belong exactly
  // when vaddr is the start of a page; told by a segment whose last file byte is not zero.
  lemma AlignedExactly(ram: Ram, pt: map<nat, nat>, h: Phdr, file: seq<Byte>)
    requires 0 < h.filesz <= h.memsz && h.offset + h.filesz <= |file| && Loaded(ram, pt, h, file) && file[h.offset + h.filesz - 1] != 0
    requires h.vaddr + h.filesz <= End(h)
    ensures AsAsked(ram, pt, h, file) <==> h.vaddr % PGSIZE == 0
  {
    EndAligned(h);
    hide Reach, Peek, Start, End;
    var last := h.vaddr + h.filesz - 1;
    assert Peek(ram, pt, last) == Want(h, file, last - Start(h));
    if AsAsked(ram, pt, h, file) {
      assert Peek(ram, pt, last) == file[h.offset + (last - h.vaddr)];
    }
  }

  // A program header in point: one byte, asked for at address 1, is loaded at address 0.
  lemma OffByOne()
    ensures var h, file := Phdr(1, 0, 1, 1), [7];
      var pt, ram: Ram := map[0 := 1], map[1 := PageOf(file, 0, 1)];
      Loaded(ram, pt, h, file) && !AsAsked(ram, pt, h, file) && Peek(ram, pt, 0) == 7
  {
    var h, file := Phdr(1, 0, 1, 1), [7];
    var pt, ram: Ram := map[0 := 1], map[1 := PageOf(file, 0, 1)];
    forall a: nat | Start(h) <= a < End(h) ensures Reach(ram, pt, a) == Done && Peek(ram, pt, a) == Want(h, file, a - Start(h)) {
      assert Vpn(a) == 0 && Off(a) == a;
    }
    AlignedExactly(ram, pt, h, file);
  }
}

/**
  Copies between the kernel and user memory (os/uaccess.c), page by page, against copies
  that go byte by byte through the translation.
*/
module Uaccess {
  const PGSIZE: nat := 4096
  const MAXVA: nat := 0x40_0000_0000

  type Byte = x: nat | x < 256
  type Page = p: seq<Byte> | |p| == 4096 witness seq(4096, _ => 0)
  type Ram = map<nat, Page>

  // Done is 0, Failed is -1; Panic is walkaddr's, or a frame that is no memory.
  datatype Status = Done | Failed | Panic

  function Vpn(va: nat): nat { va / PGSIZE }
  function Off(va: nat): (o: nat) ensures o < PGSIZE { va % PGSIZE }

  // Where byte va of a user address space lives; pt gives walkaddr's answers, with its 0
  // as absence.
  function Reach(ram: Ram, pt: map<nat, nat>, va: nat): Status {
    if Vpn(va) * PGSIZE > MAXVA then Panic
    else if Vpn(va) !in pt then Failed
    else if pt[Vpn(va)] !in ram then Panic
    else Done
  }

  function Poke(ram: Ram, pt: map<nat, nat>, va: nat, b: Byte): Ram
    requires Reach(ram, pt, va) == Done
  {
    ram[pt[Vpn(va)] := ram[pt[Vpn(va)]][Off(va) := b]]
  }

  function Peek(ram: Ram, pt: map<nat, nat>, va: nat): Byte
    requires Reach(ram, pt, va) == Done
  {
    ram[pt[Vpn(va)]][Off(va)]
  }

  // ---------- byte by byte

  datatype Put = Put(ram: Ram, moved: nat, status: Status)

  function PutBytes(ram: Ram, pt: map<nat, nat>, va: nat, src: seq<Byte>): (r: Put)
    ensures r.moved <= |src| && (r.status == Done <==> r.moved == |src|)
    decreases |src|
  {
    if src == [] then Put(ram, 0, Done)
    else if Reach(ram, pt, va) != Done then Put(ram, 0, Reach(ram, pt, va))
    else
      var r := PutBytes(Poke(ram, pt, va, src[0]), pt, va + 1, src[1..]);
      r.(moved := r.moved + 1)
  }

  datatype Got = Got(bytes: seq<Byte>, status: Status)

  function GetBytes(ram: Ram, pt: map<nat, nat>, va: nat, n: nat): (r: Got)
    ensures |r.bytes| <= n && (r.status == Done <==> |r.bytes| == n)
    decreases n
  {
    if n == 0 then Got([], Done)
    else if Reach(ram, pt, va) != Done then Got([], Reach(ram, pt, va))
    else
      var r := GetBytes(ram, pt, va + 1, n - 1);
      Got([Peek(ram, pt, va)] + r.bytes, r.status)
  }

  // A string of at most n bytes, with its terminator if it has one.
  function GetString(ram: Ram, pt: map<nat, nat>, va: nat, n: nat): (r: Got)
    decreases n
  {
    if n == 0 then Got([], Done)
    else if Reach(ram, pt, va) != Done then Got([], Reach(ram, pt, va))
    else if Peek(ram, pt, va) == 0 then Got([0], Done)
    else
      var r := GetString(ram, pt, va + 1, n - 1);
      Got([Peek(ram, pt, va)] + r.bytes, r.status)
  }

  // ---------- what the byte-by-byte copies do

  lemma PokeReach(ram: Ram, pt: map<nat, nat>, va: nat, b: Byte, a: nat)
    requires Reach(ram, pt, va) == Done
    ensures Reach(Poke(ram, pt, va, b), pt, a) == Reach(ram, pt, a) && Poke(ram, pt, va, b).Keys == ram.Keys
  {
  }

  // The copy stops exactly at the first byte that cannot be reached.
  lemma {:induction false} StopsAtFirst(ram: Ram, pt: map<nat, nat>, va: nat, src: seq<Byte>)
    ensures var r := PutBytes(ram, pt, va, src);
      && (forall a: nat :: va <= a < va + r.moved ==> Reach(ram, pt, a) == Done)
      && (r.status != Done ==> Reach(ram, pt, va + r.moved) == r.status)
    decreases |src|
  {
    if src != [] && Reach(ram, pt, va) == Done {
      var ram1 := Poke(ram, pt, va, src[0]);
      StopsAtFirst(ram1, pt, va + 1, src[1..]);
      var r := PutBytes(ram1, pt, va + 1, src[1..]);
      assert PutBytes(ram, pt, va, src) == r.(moved := r.moved + 1);
      hide PutBytes;
      forall a: nat ensures Reach(ram1, pt, a) == Reach(ram, pt, a) { PokeReach(ram, pt, va, src[0], a); }
      hide Reach, Poke;
      assert va + 1 + r.moved == va + (r.moved + 1);
    }
  }

  // Everything before that byte, and nothing else, has been moved.
  lemma {:induction false} MovesPrefix(ram: Ram, pt: map<nat, nat>, va: nat, src: seq<Byte>)
    ensures var r := PutBytes(ram, pt, va, src); PutBytes(ram, pt, va, src[..r.moved]) == Put(r.ram, r.moved, Done)
    decreases |src|
  {
    if src != [] && Reach(ram, pt, va) == Done {
      var ram1 := Poke(ram, pt, va, src[0]);
      MovesPrefix(ram1, pt, va + 1, src[1..]);
      var r := PutBytes(ram1, pt, va + 1, src[1..]);
      assert src[..r.moved + 1][1..] == src[1..][..r.moved];
    } else {
      assert src[..0] == [];
    }
  }

  // No frame of the memory is behind two pages.
  ghost predicate NoAlias(ram: Ram, pt: map<nat, nat>) { forall a, b :: a in pt && b in pt && pt[a] == pt[b] && pt[a] in ram ==> a == b }

  // Writing from va on leaves every earlier byte alone.
  lemma {:induction false} PutKeeps(ram: Ram, pt: map<nat, nat>, va: nat, src: seq<Byte>, a: nat)
    requires NoAlias(ram, pt) && a < va && Reach(ram, pt, a) == Done
    ensures var r := PutBytes(ram, pt, va, src).ram; Reach(r, pt, a) == Done && Peek(r, pt, a) == Peek(ram, pt, a)
    decreases |src|
  {
    if src != [] && Reach(ram, pt, va) == Done {
      PutKeeps(Poke(ram, pt, va, src[0]), pt, va + 1, src[1..], a);
    }
  }

  // What was written can be read back.
  lemma {:induction false} ReadsBack(ram: Ram, pt: map<nat, nat>, va: nat, src: seq<Byte>)
    requires NoAlias(ram, pt) && PutBytes(ram, pt, va, src).status == Done
    ensures GetBytes(PutBytes(ram, pt, va, src).ram, pt, va, |src|) == Got(src, Done)
    decreases |src|
  {
    if src != [] {
      var ram1 := Poke(ram, pt, va, src[0]);
      ReadsBack(ram1, pt, va + 1, src[1..]);
      PutKeeps(ram1, pt, va + 1, src[1..], va);
      assert [src[0]] + src[1..] == src;
    }
  }

  // A string read holds no zero but, at most, its last byte.
  lemma {:induction false} StringEnds(ram: Ram, pt: map<nat, nat>, va: nat, n: nat)
    ensures var r := GetString(ram, pt, va, n);
      && |r.bytes| <= n
      && (forall k :: 0 <= k < |r.bytes| - 1 ==> r.bytes[k] != 0)
      && (r.status == Done && (r.bytes == [] || r.bytes[|r.bytes| - 1] != 0) ==> |r.bytes| == n)
      && r.bytes <= GetBytes(ram, pt, va, n).bytes
    decreases n
  {
    if n > 0 && Reach(ram, pt, va) == Done && Peek(ram, pt, va) != 0 {
      StringEnds(ram, pt, va + 1, n - 1);
    }
  }

  // ---------- one page at a time

  function Blit(page: Page, off: nat, bytes: seq<Byte>): Page
    requires off + |bytes| <= PGSIZE
  {
    page[..off] + bytes + page[off + |bytes|..]
  }

  lemma BlitStep(page: Page, off: nat, bytes: seq<Byte>)
    requires off + |bytes| <= PGSIZE && bytes != []
    ensures Blit(page[off := bytes[0]], off + 1, bytes[1..]) == Blit(page, off, bytes)
  {
  }

  lemma NextByte(ram: Ram, pt: map<nat, nat>, va: nat)
    requires Off(va) + 1 < PGSIZE && Reach(ram, pt, va) == Done
    ensures Vpn(va + 1) == Vpn(va) && Off(va + 1) == Off(va) + 1 && Reach(ram, pt, va + 1) == Done
  {
  }

  // A chunk within one page is as good as its bytes one by one.
  lemma {:induction false} PutChunk(ram: Ram, pt: map<nat, nat>, va: nat, src: seq<Byte>, n: nat)
    requires 0 < n <= |src| && Off(va) + n <= PGSIZE && Reach(ram, pt, va) == Done
    ensures var p := pt[Vpn(va)];
      var r := PutBytes(ram[p := Blit(ram[p], Off(va), src[..n])], pt, va + n, src[n..]);
      PutBytes(ram, pt, va, src) == r.(moved := r.moved + n)
    decreases n
  {
    hide PutBytes, Reach, Blit, Vpn, Off;
    PutStep(ram, pt, va, src);
    var p, b := pt[Vpn(va)], src[..n];
    var ram1 := Poke(ram, pt, va, src[0]);
    BlitStep(ram[p], Off(va), b);
    PokeReach(ram, pt, va, src[0], va);
    assert ram1 == ram[p := ram[p][Off(va) := src[0]]];
    if n == 1 {
      BlitOne(ram[p], Off(va), b);
    } else {
      NextByte(ram, pt, va);
      PokeReach(ram, pt, va, src[0], va + 1);
      PutChunk(ram1, pt, va + 1, src[1..], n - 1);
      assert src[1..][..n - 1] == b[1..] && src[1..][n - 1..] == src[n..];
      assert ram1[p := Blit(ram[p], Off(va), b)] == ram[p := Blit(ram[p], Off(va), b)];
      assert va + 1 + (n - 1) == va + n;
    }
  }

  lemma BlitOne(page: Page, off: nat, bytes: seq<Byte>)
    requires off + 1 <= PGSIZE && |bytes| == 1
    ensures Blit(page, off, bytes) == page[off := bytes[0]]
  {
  }

  lemma PutStep(ram: Ram, pt: map<nat, nat>, va: nat, src: seq<Byte>)
    requires src != [] && Reach(ram, pt, va) == Done
    ensures Vpn(va) in pt && pt[Vpn(va)] in ram
    ensures var r := PutBytes(Poke(ram, pt, va, src[0]), pt, va + 1, src[1..]);
      PutBytes(ram, pt, va, src) == r.(moved := r.moved + 1)
  {
  }

  lemma GetStep(ram: Ram, pt: map<nat, nat>, va: nat, len: nat)
    requires 0 < len && Reach(ram, pt, va) == Done
    ensures Vpn(va) in pt && pt[Vpn(va)] in ram
    ensures var r := GetBytes(ram, pt, va + 1, len - 1);
      GetBytes(ram, pt, va, len) == Got([ram[pt[Vpn(va)]][Off(va)]] + r.bytes, r.status)
  {
  }

  lemma {:induction false} GetChunk(ram: Ram, pt: map<nat, nat>, va: nat, len: nat, n: nat)
    requires 0 < n <= len && Off(va) + n <= PGSIZE && Reach(ram, pt, va) == Done
    ensures Vpn(va) in pt && pt[Vpn(va)] in ram
    ensures var r := GetBytes(ram, pt, va + n, len - n);
      GetBytes(ram, pt, va, len) == r.(bytes := ram[pt[Vpn(va)]][Off(va)..Off(va) + n] + r.bytes)
    decreases n
  {
    hide GetBytes, Reach, Vpn, Off;
    GetStep(ram, pt, va, len);
    var page, o := ram[pt[Vpn(va)]], Off(va);
    if n == 1 {
      assert page[o..o + 1] == [page[o]];
    } else {
      NextByte(ram, pt, va);
      GetChunk(ram, pt, va + 1, len - 1, n - 1);
      var r := GetBytes(ram, pt, va + n, len - n);
      assert va + 1 + (n - 1) == va + n;
      assert page[o..o + n] == [page[o]] + page[o + 1..o + n];
      assert [page[o]] + (page[o + 1..o + n] + r.bytes) == page[o..o + n] + r.bytes;
    }
  }

  lemma {:induction false} StringChunk(ram: Ram, pt: map<nat, nat>, va: nat, max: nat)
    requires max > 0 && Reach(ram, pt, va) == Done
    ensures Off(va) + 1 < PGSIZE ==> Reach(ram, pt, va + 1) == Done
    ensures GetString(ram, pt, va, max) ==
      if Peek(ram, pt, va) == 0 then Got([0], Done)
      else var r := GetString(ram, pt, va + 1, max - 1); r.(bytes := [Peek(ram, pt, va)] + r.bytes)
  {
    if Off(va) + 1 < PGSIZE { NextByte(ram, pt, va); }
  }

  class User {
    var ram: Ram
    const pt: map<nat, nat>

    // copy_to_user
    method CopyToUser(dstva0: nat, src0: seq<Byte>) returns (r: Status)
      modifies this
      ensures var p := PutBytes(old(ram), pt, dstva0, src0); ram == p.ram && r == p.status
    {
      hide PutBytes, Blit;
      var dstva: nat, src := dstva0, src0;
      while |src| > 0
        invariant PutBytes(old(ram), pt, dstva0, src0).ram == PutBytes(ram, pt, dstva, src).ram
        invariant PutBytes(old(ram), pt, dstva0, src0).status == PutBytes(ram, pt, dstva, src).status
        decreases |src|
      {
        var va0 := dstva / PGSIZE * PGSIZE;
        PutStops(ram, pt, dstva, src);
        if va0 > MAXVA { return Panic; }
        if Vpn(va0) !in pt { return Failed; }
        var pa0 := pt[Vpn(va0)];
        if pa0 !in ram { return Panic; }
        var n := PGSIZE - (dstva - va0);
        if n > |src| { n := |src|; }
        PutChunk(ram, pt, dstva, src, n);
        PutAll(ram[pa0 := Blit(ram[pa0], dstva - va0, src[..n])], pt, dstva + n, va0 + PGSIZE, src[n..]);
        ram := ram[pa0 := Blit(ram[pa0], dstva - va0, src[..n])];
        src := src[n..];
        dstva := va0 + PGSIZE;
      }
      PutAll(ram, pt, dstva, dstva, src);
      r := Done;
    }

    // copy_from_user; the bytes that reached dst.
    method CopyFromUser(srcva0: nat, len0: nat) returns (r: Status, dst: seq<Byte>)
      ensures GetBytes(ram, pt, srcva0, len0) == Got(dst, r)
    {
      hide GetBytes;
      var srcva: nat, len: nat := srcva0, len0;
      dst := [];
      assert [] + GetBytes(ram, pt, srcva, len).bytes == GetBytes(ram, pt, srcva, len).bytes;
      while len > 0
        invariant GetBytes(ram, pt, srcva0, len0) == Prepend(dst, GetBytes(ram, pt, srcva, len))
        decreases len
      {
        var va0 := srcva / PGSIZE * PGSIZE;
        GetStops(ram, pt, srcva, len);
        if va0 > MAXVA { return Panic, dst; }
        if Vpn(va0) !in pt { return Failed, dst; }
        var pa0 := pt[Vpn(va0)];
        if pa0 !in ram { return Panic, dst; }
        var n := PGSIZE - (srcva - va0);
        if n > len { n := len; }
        GetChunk(ram, pt, srcva, len, n);
        GetAll(ram, pt, srcva + n, va0 + PGSIZE, len - n);
        assert ram[pa0][srcva - va0..srcva - va0 + n] == ram[pa0][Off(srcva)..Off(srcva) + n];
        dst := dst + ram[pa0][srcva - va0..srcva - va0 + n];
        len := len - n;
        srcva := va0 + PGSIZE;
      }
      GetAll(ram, pt, srcva, srcva, len);
      r := Done;
    }

    // copystr_from_user: the bytes that reached dst, and the length it returns.
    method CopystrFromUser(srcva0: nat, max0: nat) returns (r: Status, len: nat, dst: seq<Byte>)
      ensures GetString(ram, pt, srcva0, max0) == Got(dst, r)
      ensures r == Done ==> len == |dst| - if dst != [] && dst[|dst| - 1] == 0 then 1 else 0
    {
      hide GetString, Peek;
      var srcva: nat, max: nat := srcva0, max0;
      dst, len := [], 0;
      assert Prepend([], GetString(ram, pt, srcva, max)) == GetString(ram, pt, srcva, max);
      while max > 0
        invariant len == |dst| && NoZero(dst)
        invariant GetString(ram, pt, srcva0, max0) == Prepend(dst, GetString(ram, pt, srcva, max))
        decreases max
      {
        var va0 := srcva / PGSIZE * PGSIZE;
        ghost var total := max;
        StringStops(ram, pt, srcva, max);
        if va0 > MAXVA { return Panic, len, dst; }
        if Vpn(va0) !in pt { return Failed, len, dst; }
        var pa0 := pt[Vpn(va0)];
        if pa0 !in ram { return Panic, len, dst; }
        var n := PGSIZE - (srcva - va0);
        if n > max { n := max; }
        var p: nat := srcva;
        ghost var end := p + n;
        while n > 0
          invariant 0 <= n <= max && srcva <= p && p + n == end <= va0 + PGSIZE && (end == va0 + PGSIZE || n == max)
          invariant n > 0 ==> Vpn(p) == Vpn(va0) && Off(p) == p - va0 && Reach(ram, pt, p) == Done
          invariant len == |dst| && NoZero(dst) && (p == srcva ==> n > 0)
          invariant max + (p - srcva) == total
          invariant GetString(ram, pt, srcva0, max0) == Prepend(dst, GetString(ram, pt, p, max))
          decreases n
        {
          var b := ram[pa0][p - va0];
          StringChunk(ram, pt, p, max);
          PeekIs(ram, pt, p);
          if b == 0 { return Done, len, dst + [0]; }
          if n > 1 { NextByte(ram, pt, p); }
          ghost var rest := GetString(ram, pt, p + 1, max - 1);
          assert dst + ([b] + rest.bytes) == dst + [b] + rest.bytes;
          dst := dst + [b];
          n, max, p, len := n - 1, max - 1, p + 1, len + 1;
        }
        StringAll(ram, pt, p, va0 + PGSIZE, max);
        srcva := va0 + PGSIZE;
      }
      StringAll(ram, pt, srcva, srcva, max);
      r := Done;
    }
  }

  predicate NoZero(s: seq<Byte>) { forall i :: 0 <= i < |s| ==> s[i] != 0 }

  lemma PeekIs(ram: Ram, pt: map<nat, nat>, va: nat)
    requires Reach(ram, pt, va) == Done
    ensures Peek(ram, pt, va) == ram[pt[Vpn(va)]][Off(va)]
  {
  }

  lemma StringAll(ram: Ram, pt: map<nat, nat>, a: nat, b: nat, n: nat)
    requires n > 0 ==> a == b
    ensures GetString(ram, pt, a, n) == GetString(ram, pt, b, n) && (n == 0 ==> GetString(ram, pt, a, n) == Got([], Done))
  {
  }

  lemma StringStops(ram: Ram, pt: map<nat, nat>, va: nat, n: nat)
    requires n > 0
    ensures Reach(ram, pt, va) != Done ==> GetString(ram, pt, va, n) == Got([], Reach(ram, pt, va))
  {
  }

  function Prepend(dst: seq<Byte>, r: Got): Got { r.(bytes := dst + r.bytes) }

  // Nothing left to copy: the address does not matter.
  lemma PutAll(ram: Ram, pt: map<nat, nat>, a: nat, b: nat, src: seq<Byte>)
    requires src != [] ==> a == b
    ensures PutBytes(ram, pt, a, src).ram == PutBytes(ram, pt, b, src).ram && PutBytes(ram, pt, a, src).status == PutBytes(ram, pt, b, src).status
    ensures src == [] ==> PutBytes(ram, pt, a, src) == Put(ram, 0, Done)
  {
  }

  lemma GetAll(ram: Ram, pt: map<nat, nat>, a: nat, b: nat, n: nat)
    requires n > 0 ==> a == b
    ensures GetBytes(ram, pt, a, n) == GetBytes(ram, pt, b, n) && (n == 0 ==> GetBytes(ram, pt, a, n) == Got([], Done))
  {
  }

  lemma PutStops(ram: Ram, pt: map<nat, nat>, va: nat, src: seq<Byte>)
    requires src != []
    ensures Reach(ram, pt, va) != Done ==> PutBytes(ram, pt, va, src) == Put(ram, 0, Reach(ram, pt, va))
  {
  }

  lemma GetStops(ram: Ram, pt: map<nat, nat>, va: nat, n: nat)
    requires n > 0
    ensures Reach(ram, pt, va) != Done ==> GetBytes(ram, pt, va, n) == Got([], Reach(ram, pt, va))
  {
  }
}

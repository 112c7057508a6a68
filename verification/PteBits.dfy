/**
  The address and entry macros of os/riscv.h:180-218, as bit operations on 64-bit words.
*/
module PteBits {
  import opened Sv39

  type Word = bv64

  const PTE_V: Word := 1
  const PTE_R: Word := 1 << 1
  const PTE_W: Word := 1 << 2
  const PTE_X: Word := 1 << 3
  const PTE_U: Word := 1 << 4
  const PTE_G: Word := 1 << 5
  const PTE_A: Word := 1 << 6
  const PTE_D: Word := 1 << 7

  function PA2PTE(pa: Word): Word { (pa >> 12) << 10 }
  function PTE2PA(pte: Word): Word { (pte >> 10) << 12 }
  function PTE_FLAGS(pte: Word): Word { pte & 0x3FF }
  function MAKE_PTE(pa: Word, flags: Word): Word { PA2PTE(pa) | (flags | PTE_V) }
  function PX0(va: Word): Word { (va >> 12) & 0x1FF }
  function PX1(va: Word): Word { (va >> 21) & 0x1FF }
  function PX2(va: Word): Word { (va >> 30) & 0x1FF }
  predicate PGALIGNED(a: Word) { a & 0xFFF == 0 }

  // What walk stores in an entry is what it reads back.
  lemma MakeAndTake(pa: Word, flags: Word)
    requires PGALIGNED(pa) && pa < 0x100_0000_0000_0000 && flags < 0x400
    ensures PTE2PA(MAKE_PTE(pa, flags)) == pa && PTE_FLAGS(MAKE_PTE(pa, flags)) == flags | PTE_V
  {
  }

  // An entry without reserved bits is the one made of its parts.
  lemma TakeAndMake(pte: Word)
    requires pte < 0x40_0000_0000_0000 && pte & PTE_V == PTE_V
    ensures MAKE_PTE(PTE2PA(pte), PTE_FLAGS(pte)) == pte
  {
  }

  // The three indices and the offset are all of a 39-bit address, so no two pages share
  // all three.
  lemma IndicesSplit(va: Word)
    requires va < 0x80_0000_0000
    ensures va == (PX2(va) << 30) | (PX1(va) << 21) | (PX0(va) << 12) | (va & 0xFFF)
  {
  }

  // The entry a word encodes.
  function Entry(w: Word): Pte { Pte(((w >> 10) & 0xFFF_FFFF_FFFF) as nat, Flags(w)) }

  function Flags(w: Word): Perm {
    Perm(w & 1 != 0, w & 2 != 0, w & 4 != 0, w & 8 != 0, w & 16 != 0, w & 32 != 0, w & 64 != 0, w & 128 != 0, ((w >> 8) & 3) as nat)
  }

  // Each flag macro is the permission of its name, and no other.
  lemma FlagOf(w: Word)
    ensures Flags(w).v == (w & PTE_V == PTE_V) && Flags(w).r == (w & PTE_R == PTE_R) && Flags(w).w == (w & PTE_W == PTE_W)
    ensures Flags(w).x == (w & PTE_X == PTE_X) && Flags(w).u == (w & PTE_U == PTE_U) && Flags(w).g == (w & PTE_G == PTE_G)
    ensures Flags(w).a == (w & PTE_A == PTE_A) && Flags(w).d == (w & PTE_D == PTE_D)
    ensures Flags(w).rsw == (w / 256 % 4) as nat
  {
  }

  lemma FlagAlone()
    ensures Flags(0) == NoPerm
    ensures Flags(PTE_V) == NoPerm.(v := true) && Flags(PTE_R) == NoPerm.(r := true)
    ensures Flags(PTE_W) == NoPerm.(w := true) && Flags(PTE_X) == NoPerm.(x := true)
    ensures Flags(PTE_U) == NoPerm.(u := true) && Flags(PTE_G) == NoPerm.(g := true)
    ensures Flags(PTE_A) == NoPerm.(a := true) && Flags(PTE_D) == NoPerm.(d := true)
  {
  }

  // Flags joined with | are the permissions of either.
  lemma FlagsOr(p: Word, q: Word)
    requires p < 256 && q < 256
    ensures var f, g, b := Flags(p), Flags(q), Flags(p | q);
      && b.v == (f.v || g.v) && b.r == (f.r || g.r) && b.w == (f.w || g.w) && b.x == (f.x || g.x)
      && b.u == (f.u || g.u) && b.g == (f.g || g.g) && b.a == (f.a || g.a) && b.d == (f.d || g.d)
  {
  }

  // MAKE_PTE makes the entry that MakePte stands for: its frame, its flags, and both.
  lemma PpnOfMake(pa: Word, flags: Word)
    requires PGALIGNED(pa) && pa < 0x100_0000_0000_0000 && flags < 0x400
    ensures Entry(MAKE_PTE(pa, flags)).ppn == (pa >> 12) as nat
  {
    MakeParts(pa, flags);
    hide MAKE_PTE, Flags, PGALIGNED;
  }

  lemma FlagsOfMake(pa: Word, flags: Word)
    requires PGALIGNED(pa) && pa < 0x100_0000_0000_0000 && flags < 0x400
    ensures Entry(MAKE_PTE(pa, flags)).perm == Flags(flags).(v := true)
  {
    MakeParts(pa, flags);
    FlagsOf(MAKE_PTE(pa, flags), flags);
    hide MAKE_PTE, Flags, PGALIGNED;
  }

  lemma EntryOfMake(pa: Word, flags: Word)
    requires PGALIGNED(pa) && pa < 0x100_0000_0000_0000 && flags < 0x400
    ensures Entry(MAKE_PTE(pa, flags)) == MakePte((pa >> 12) as nat, Flags(flags))
  {
    hide MAKE_PTE, Flags, PGALIGNED, Entry;
    PpnOfMake(pa, flags);
    FlagsOfMake(pa, flags);
  }

  lemma MakeParts(pa: Word, flags: Word)
    requires PGALIGNED(pa) && pa < 0x100_0000_0000_0000 && flags < 0x400
    ensures (MAKE_PTE(pa, flags) >> 10) & 0xFFF_FFFF_FFFF == pa >> 12 && MAKE_PTE(pa, flags) & 0x3FF == flags | 1
  {
  }

  lemma FlagsOf(w: Word, flags: Word)
    requires w & 0x3FF == flags | 1 && flags < 0x400
    ensures Flags(w) == Flags(flags).(v := true)
  {
    assert (w >> 8) & 3 == (flags >> 8) & 3;
  }

  // A zero word is the empty entry.
  lemma EntryOfZero()
    ensures Entry(0) == Pte(0, NoPerm)
  {
  }

  // The page that 512 words encode.
  function PageOf(words: seq<Word>): Page
    requires |words| == 512
  {
    seq(512, i requires 0 <= i < 512 => Entry(words[i]))
  }

  // memset(page, 0, PGSIZE) makes the page the memory model calls zero.
  lemma ZeroedPage(words: seq<Word>)
    requires |words| == 512 && forall i :: 0 <= i < 512 ==> words[i] == 0
    ensures PageOf(words) == ZeroPage()
  {
    EntryOfZero();
    hide Entry;
  }
}

/**
  The allocator of fixed-size objects (os/kalloc.c:75-180): a bitmap, two counters, and a
  pool of kernel addresses.
*/
module ObjectAllocator {
  const PGSIZE: nat := 4096
  const GAP: nat := 0x100_0000          // KERNEL_ALLOCATOR_GAP

  // ---------- as a set of slots

  // The slots in use, and what the counters say.
  type Slots = seq<bool>

  datatype Op = Alloc | Free(slot: nat)

  datatype Reply = Got(slot: nat) | Full | Freed | DoubleFree

  function FirstFree(s: Slots): (i: nat)
    ensures i <= |s| && (forall j :: 0 <= j < i ==> s[j]) && (i < |s| ==> !s[i])
  {
    if s == [] || !s[0] then 0 else 1 + FirstFree(s[1..])
  }

  function Unused(s: Slots): (n: nat)
    ensures n <= |s|
  {
    if s == [] then 0 else Unused(s[1..]) + if s[0] then 0 else 1
  }

  // What one call does; Full and DoubleFree are the panics of kalloc and kfree.
  function Call(s: Slots, op: Op): (Slots, Reply) {
    match op
    case Alloc => var i := FirstFree(s); if i < |s| then (s[i := true], Got(i)) else (s, Full)
    case Free(i) => if i < |s| && s[i] then (s[i := false], Freed) else (s, DoubleFree)
  }

  function Run(s: Slots, ops: seq<Op>): (r: Slots)
    ensures |r| == |s|
    decreases ops
  {
    if ops == [] then s else Run(Call(s, ops[0]).0, ops[1..])
  }

  // The slots handed out and not given back since.
  function Live(s: Slots, live: set<nat>, ops: seq<Op>): set<nat>
    decreases ops
  {
    if ops == [] then live else
    var (s', r) := Call(s, ops[0]);
    Live(s', match r case Got(i) => live + {i} case Freed => live - {ops[0].slot} case _ => live, ops[1..])
  }

  ghost predicate Matches(s: Slots, live: set<nat>) { forall i: nat :: i in live <==> i < |s| && s[i] }

  // Over any run the bitmap marks exactly the live objects, so no object is handed out
  // twice, and kalloc fails only when all are live.
  lemma {:induction false} LiveIsMarked(s: Slots, live: set<nat>, ops: seq<Op>)
    requires Matches(s, live)
    ensures Matches(Run(s, ops), Live(s, live, ops))
    decreases ops
  {
    if ops != [] {
      var (s', r) := Call(s, ops[0]);
      LiveIsMarked(s', match r case Got(i) => live + {i} case Freed => live - {ops[0].slot} case _ => live, ops[1..]);
    }
  }

  lemma NeverTwice(s: Slots, live: set<nat>, ops: seq<Op>)
    requires Matches(s, live)
    ensures var (_, r) := Call(Run(s, ops), Alloc);
      match r
      case Got(i) => i < |s| && i !in Live(s, live, ops)
      case _ => r == Full && forall i: nat :: i < |s| ==> i in Live(s, live, ops)
  {
    LiveIsMarked(s, live, ops);
  }

  // The live objects after one more call.
  lemma {:induction false} LiveMore(s: Slots, live: set<nat>, ops: seq<Op>, op: Op)
    ensures Run(s, ops + [op]) == Call(Run(s, ops), op).0
    ensures Live(s, live, ops + [op]) ==
      match Call(Run(s, ops), op).1
      case Got(i) => Live(s, live, ops) + {i}
      case Freed => Live(s, live, ops) - {op.slot}
      case _ => Live(s, live, ops)
    decreases ops
  {
    if ops == [] {
      assert ops + [op] == [op] && [op][1..] == [];
    } else {
      var (s', r) := Call(s, ops[0]);
      assert (ops + [op])[1..] == ops[1..] + [op];
      LiveMore(s', match r case Got(i) => live + {i} case Freed => live - {ops[0].slot} case _ => live, ops[1..], op);
    }
  }

  // After any run kfree succeeds on the live objects and on no other. Then that object and
  // no other is live no more; where it panics nothing changes.
  lemma LiveFrees(s: Slots, live: set<nat>, ops: seq<Op>, i: nat)
    requires Matches(s, live)
    ensures i in Live(s, live, ops) <==> Call(Run(s, ops), Free(i)).1 == Freed
    ensures Live(s, live, ops + [Free(i)]) == Live(s, live, ops) - {i}
    ensures forall j: nat :: j < |s| ==> Run(s, ops + [Free(i)])[j] == (j != i && Run(s, ops)[j])
  {
    LiveIsMarked(s, live, ops);
    LiveMore(s, live, ops, Free(i));
  }

  // And kalloc succeeds unless all are live; then one object more is live.
  lemma AllocLives(s: Slots, live: set<nat>, ops: seq<Op>)
    requires Matches(s, live)
    ensures Call(Run(s, ops), Alloc).1 == Full <==> forall i: nat :: i < |s| ==> i in Live(s, live, ops)
    ensures Call(Run(s, ops), Alloc).1 != Full ==>
      exists i: nat :: i < |s| && i !in Live(s, live, ops) && Live(s, live, ops + [Alloc]) == Live(s, live, ops) + {i}
  {
    LiveIsMarked(s, live, ops);
    LiveMore(s, live, ops, Alloc);
  }

  // No call of the run hands out slot i.
  ghost predicate NeverGot(s: Slots, ops: seq<Op>, i: nat)
    decreases ops
  {
    ops == [] || (Call(s, ops[0]).1 != Got(i) && NeverGot(Call(s, ops[0]).0, ops[1..], i))
  }

  // A freed object stays free until it is handed out again, so freeing it a second time
  // before that always panics.
  lemma {:induction false} SecondFreePanics(s: Slots, i: nat, ops: seq<Op>)
    requires i < |s| && !s[i] && NeverGot(s, ops, i)
    ensures Call(Run(s, ops), Free(i)).1 == DoubleFree
    decreases ops
  {
    if ops != [] {
      SecondFreePanics(Call(s, ops[0]).0, i, ops[1..]);
    }
  }

  lemma {:induction false} UnusedSet(s: Slots, i: nat, b: bool)
    requires i < |s|
    ensures Unused(s[i := b]) == Unused(s) + (if s[i] then 1 else 0) - (if b then 1 else 0)
  {
    if i == 0 {
      assert s[0 := b][1..] == s[1..];
    } else {
      assert s[i := b][1..] == s[1..][i - 1 := b];
      UnusedSet(s[1..], i - 1, b);
    }
  }

  lemma {:induction false} UnusedAll(n: nat)
    ensures Unused(seq(n, _ => false)) == n
  {
    if n > 0 {
      assert seq(n, _ => false)[1..] == seq(n - 1, _ => false);
      UnusedAll(n - 1);
    }
  }

  lemma {:induction false} UnusedNone(s: Slots)
    ensures Unused(s) == 0 <==> FirstFree(s) == |s|
  {
    if s != [] { UnusedNone(s[1..]); }
  }

  // The counter of available objects is exact over any run.
  lemma {:induction false} CounterExact(s: Slots, ops: seq<Op>, k: nat)
    requires k < |ops|
    ensures var before, (after, r) := Run(s, ops[..k]), Call(Run(s, ops[..k]), ops[k]);
      Unused(after) == Unused(before) - (if r.Got? then 1 else 0) + (if r.Freed? then 1 else 0)
  {
    var before := Run(s, ops[..k]);
    match ops[k]
    case Alloc => if FirstFree(before) < |before| { UnusedSet(before, FirstFree(before), true); }
    case Free(i) => if i < |before| && before[i] { UnusedSet(before, i, false); }
  }

  // ---------- objects and pools

  // ROUNDUP_2N, on numbers.
  function RoundUp(n: nat, b: nat): (r: nat)
    requires b > 0
    ensures n <= r < n + b
  {
    if n % b == 0 then n else n - n % b + b
  }

  lemma RoundUpMultiple(n: nat, b: nat)
    requires b > 0
    ensures RoundUp(n, b) % b == 0
  {
    var q := n / b;
    assert n == b * q + n % b;
    if n % b != 0 {
      assert RoundUp(n, b) == b * q + b == b * (q + 1) by { assert b * (q + 1) == b * q + b; }
      ModTimes(b, q + 1);
    }
  }

  lemma {:induction false} ModTimes(b: nat, q: nat)
    requires b > 0
    ensures b * q % b == 0 && b * q / b == q
  {
    if q > 0 {
      ModTimes(b, q - 1);
      assert b * q == b * (q - 1) + b;
      AddOnce(b * (q - 1), b);
    }
  }

  lemma AddOnce(x: nat, b: nat)
    requires b > 0
    ensures (x + b) % b == x % b && (x + b) / b == x / b + 1
  {
    var q, r := x / b, x % b;
    assert x + b == b * (q + 1) + r by { assert b * (q + 1) == b * q + b; }
    DivUnique(x + b, b, q + 1, r);
  }

  lemma DivUnique(x: nat, b: nat, q: nat, r: nat)
    requires r < b && x == b * q + r
    ensures x / b == q && x % b == r
  {
    var d := x / b - q;
    assert x == b * (x / b) + x % b;
    assert b * (x / b) == b * q + b * d by { assert x / b == q + d; }
    assert b * d == r - x % b;
    FarApart(b, d);
  }

  lemma FarApart(b: int, d: int)
    requires b >= 0
    ensures (d >= 1 ==> b * d >= b) && (d <= -1 ==> b * d <= -b)
  {
    if d >= 1 { assert b * d == b + b * (d - 1); }
    if d <= -1 { assert b * d == -b + b * (d + 1); }
  }

  function Aligned16(size: nat): nat { RoundUp(size, 16) }
  function PoolSize(size: nat, count: nat): nat { RoundUp(Aligned16(size) * count, PGSIZE) }
  function Address(base: nat, size: nat, slot: nat): nat { base + slot * Aligned16(size) }

  predicate InPool(base: nat, size: nat, count: nat, obj: nat) { base <= obj < base + PoolSize(size, count) }

  // The slot an address of the pool belongs to.
  function SlotAt(base: nat, size: nat, obj: nat): nat
    requires size > 0
  {
    if obj < base then 0 else (obj - base) / Aligned16(size)
  }

  // Objects of different slots do not overlap and lie in the pool.
  lemma ObjectsApart(base: nat, size: nat, count: nat, i: nat, j: nat)
    requires i < j < count
    ensures Address(base, size, i) + size <= Address(base, size, j)
    ensures base <= Address(base, size, i) && Address(base, size, j) + size <= base + PoolSize(size, count)
  {
    hide RoundUp;
    Times(i + 1, j, Aligned16(size));
    Times(j + 1, count, Aligned16(size));
  }

  lemma ObjectAligned(base: nat, size: nat, i: nat)
    requires base % 16 == 0
    ensures Address(base, size, i) % 16 == 0
  {
    RoundUpMultiple(size, 16);
    hide RoundUp;
    Multiple16(i, Aligned16(size));
  }

  lemma Times(i: nat, j: nat, a: nat)
    requires i <= j
    ensures i * a <= j * a && (i > 0 ==> i * a == (i - 1) * a + a)
  {
    assert j * a == i * a + (j - i) * a;
  }

  lemma Multiple16(i: nat, a: nat)
    requires a % 16 == 0
    ensures i * a % 16 == 0
  {
    assert i * a == i * (a / 16) * 16;
  }

  lemma SlotOf(base: nat, size: nat, i: nat)
    requires size > 0
    ensures SlotAt(base, size, Address(base, size, i)) == i
  {
    ModTimes(Aligned16(size), i);
  }

  // kfree of the address kalloc returned finds it in the pool and frees that very slot,
  // which makes everything as it was; a second kfree of the address panics.
  lemma FreeGivesBack(s: Slots, base: nat, size: nat)
    requires size > 0 && Call(s, Alloc).1.Got?
    ensures var (after, got) := Call(s, Alloc); var obj := Address(base, size, got.slot);
      && InPool(base, size, |s|, obj)
      && Call(after, Free(SlotAt(base, size, obj))) == (s, Freed)
      && Call(s, Free(SlotAt(base, size, obj))) == (s, DoubleFree)
  {
    hide RoundUp;
    var i := FirstFree(s);
    SlotOf(base, size, i);
    Times(i + 1, |s|, Aligned16(size));
    assert s[i := true][i := false] == s;
  }

  // allocator_init moves the next base past the pool by a multiple of the gap.
  function Bases(base: nat, sizes: seq<(nat, nat)>): (bases: seq<nat>)
    ensures |bases| == |sizes| && (forall i :: 0 <= i < |bases| ==> base <= bases[i])
    decreases sizes
  {
    if sizes == [] then [] else
    [base] + Bases(base + RoundUp(PoolSize(sizes[0].0, sizes[0].1), GAP), sizes[1..])
  }

  // Pools of different allocators never overlap.
  lemma {:induction false} PoolsApart(base: nat, sizes: seq<(nat, nat)>, i: nat, j: nat)
    requires i < j < |sizes|
    ensures Bases(base, sizes)[i] + PoolSize(sizes[i].0, sizes[i].1) <= Bases(base, sizes)[j]
    decreases sizes
  {
    hide RoundUp, PoolSize;
    var next := base + RoundUp(PoolSize(sizes[0].0, sizes[0].1), GAP);
    if i > 0 {
      PoolsApart(next, sizes[1..], i - 1, j - 1);
    } else {
      assert Bases(base, sizes)[j] == Bases(next, sizes[1..])[j - 1];
    }
  }

  const U64: nat := 0x1_0000_0000_0000_0000

  // Where the address after the last pool is.
  function End(base: nat, sizes: seq<(nat, nat)>): (e: nat)
    ensures base <= e
    decreases sizes
  {
    if sizes == [] then base else End(base + RoundUp(PoolSize(sizes[0].0, sizes[0].1), GAP), sizes[1..])
  }

  // When all pools fit below 2^64, no product and no sum of allocator_init wraps, so the
  // pools lie where PoolsApart says.
  lemma {:induction false} PoolsFit(base: nat, sizes: seq<(nat, nat)>, i: nat)
    requires i < |sizes| && End(base, sizes) < U64
    ensures var (size, count) := sizes[i];
      Aligned16(size) * count < U64 && PoolSize(size, count) < U64 && Bases(base, sizes)[i] + PoolSize(size, count) < U64
    decreases sizes
  {
    hide RoundUp;
    if i > 0 {
      PoolsFit(base + RoundUp(PoolSize(sizes[0].0, sizes[0].1), GAP), sizes[1..], i - 1);
    }
  }

  // object_size_aligned * max_count in 64 bits, rounded up to pages.
  function PoolSize64(size: nat, count: nat): nat { RoundUp(Aligned16(size) * count % U64, PGSIZE) % U64 }

  // Without that condition pools may overlap: this one, of two objects, takes no room, so
  // the next pool starts at the same address.
  lemma PoolWraps()
    ensures Aligned16(0x8000_0000_0000_0000) == 0x8000_0000_0000_0000 && PoolSize64(0x8000_0000_0000_0000, 2) == 0
  {
    assert 0x8000_0000_0000_0000 * 2 == U64;
  }

  // ---------- the bitmap

  // 1 << k in a byte.
  function Mask(k: nat): bv8
    requires k < 8
  {
    if k == 0 then 1 else if k == 1 then 2 else if k == 2 then 4 else if k == 3 then 8
    else if k == 4 then 16 else if k == 5 then 32 else if k == 6 then 64 else 128
  }

  // is_bit_set, bit_set and bit_clear within the byte.
  predicate Test(b: bv8, k: nat)
    requires k < 8
  {
    b & Mask(k) != 0
  }

  function Or(b: bv8, k: nat): bv8
    requires k < 8
  {
    b | Mask(k)
  }

  function AndNot(b: bv8, k: nat): bv8
    requires k < 8
  {
    b & !Mask(k)
  }

  lemma MaskBits(b: bv8, j: nat, k: nat)
    requires j < 8 && k < 8
    ensures Test(Or(b, k), j) <==> j == k || Test(b, j)
    ensures Test(AndNot(b, k), j) <==> j != k && Test(b, j)
  {
  }

  predicate IsSet(map_: seq<bv8>, i: nat)
    requires i / 8 < |map_|
  {
    Test(map_[i / 8], i % 8)
  }

  function Marks(map_: seq<bv8>, n: nat): (s: Slots)
    requires n <= 8 * |map_|
    ensures |s| == n && forall i: nat :: i < n ==> s[i] == IsSet(map_, i)
  {
    seq(n, i requires 0 <= i < n => IsSet(map_, i))
  }

  function SetBit(map_: seq<bv8>, i: nat): (r: seq<bv8>)
    requires i / 8 < |map_|
    ensures |r| == |map_|
  {
    map_[i / 8 := Or(map_[i / 8], i % 8)]
  }

  function ClearBit(map_: seq<bv8>, i: nat): (r: seq<bv8>)
    requires i / 8 < |map_|
    ensures |r| == |map_|
  {
    map_[i / 8 := AndNot(map_[i / 8], i % 8)]
  }

  lemma OneBit(map_: seq<bv8>, i: nat, j: nat)
    requires i / 8 < |map_| && j / 8 < |map_|
    ensures IsSet(SetBit(map_, i), j) <==> j == i || IsSet(map_, j)
    ensures IsSet(ClearBit(map_, i), j) <==> j != i && IsSet(map_, j)
  {
    hide Test, Or, AndNot;
    if j / 8 == i / 8 {
      MaskBits(map_[i / 8], j % 8, i % 8);
      assert j == i <==> j % 8 == i % 8;
    }
  }

  lemma MarksSet(map_: seq<bv8>, n: nat, i: nat)
    requires i < n <= 8 * |map_|
    ensures Marks(SetBit(map_, i), n) == Marks(map_, n)[i := true]
    ensures Marks(ClearBit(map_, i), n) == Marks(map_, n)[i := false]
  {
    hide IsSet, SetBit, ClearBit;
    forall j: nat | j < n
      ensures IsSet(SetBit(map_, i), j) <==> j == i || IsSet(map_, j)
      ensures IsSet(ClearBit(map_, i), j) <==> j != i && IsSet(map_, j)
    {
      OneBit(map_, i, j);
    }
  }

  // kalloc's object, or its panic; kfree's end.
  datatype Object = Object(address: nat) | Unavailable
  datatype Done = Released | Nothing | Panic | Beyond

  // Slot i was the first clear one, and is set now.
  ghost predicate Hands(s: Slots, s': Slots, i: nat) {
    i < |s| && !s[i] && (forall j :: 0 <= j < i ==> s[j]) && s' == s[i := true]
  }

  class Allocator {
    const size: nat
    const count: nat
    const base: nat
    const bitmap: array<bv8>
    var available: int
    var inUse: int        // negative where the 64-bit counter has wrapped

    ghost predicate Valid()
      reads this, bitmap
    {
      && bitmap.Length == PGSIZE && count <= 8 * PGSIZE && size > 0 && base > 0
      && available == Unused(Slots()) && inUse + available == count
    }

    ghost function Slots(): (s: Slots)
      reads this, bitmap
      requires bitmap.Length == PGSIZE && count <= 8 * PGSIZE
      ensures |s| == count
    {
      Marks(bitmap[..], count)
    }

    // allocator_init: all bits set, then the first n cleared.
    constructor (address: nat, objectSize: nat, n: nat)
      requires n <= 8 * PGSIZE && objectSize > 0 && address > 0
      ensures Valid() && fresh(bitmap) && size == objectSize && count == n && base == address
      ensures Slots() == seq(n, _ => false) && available == n
    {
      size, count, base, available, inUse := objectSize, n, address, n, 0;
      bitmap := new bv8[PGSIZE](_ => 255);
      new;
      var i := 0;
      while i < n
        invariant i <= n && bitmap.Length == PGSIZE && fresh(bitmap) && available == n && inUse == 0 && count == n
        invariant forall j :: 0 <= j < i ==> !Marks(bitmap[..], n)[j]
      {
        MarksSet(bitmap[..], n, i);
        ghost var before := bitmap[..];
        bitmap[i / 8] := AndNot(bitmap[i / 8], i % 8);
        assert bitmap[..] == ClearBit(before, i);
        assert Slots() == Marks(before, n)[i := false];
        i := i + 1;
      }
      assert Slots() == seq(n, _ => false);
      UnusedAll(n);
    }

    method Kalloc() returns (r: Object)
      requires Valid()
      modifies this`available, this`inUse, bitmap
      ensures Valid()
      ensures var (s, reply) := Call(old(Slots()), Alloc);
        Slots() == s && r == match reply case Got(i) => Object(Address(base, size, i)) case _ => Unavailable
      ensures r == Unavailable <==> forall i :: 0 <= i < count ==> old(Slots())[i]
      ensures r == Unavailable ==> Slots() == old(Slots())
      ensures r != Unavailable ==> exists i: nat :: i < count && Hands(old(Slots()), Slots(), i) && r == Object(Address(base, size, i))
    {
      hide Test, Or, AndNot, RoundUp, Unused, FirstFree, Marks;
      UnusedNone(Slots());
      if available == 0 { return Unavailable; }
      ghost var s := Slots();
      available := available - 1;
      var i := 0;
      while i < count
        invariant i <= count && available + 1 == Unused(s) && Slots() == s && bitmap[..] == old(bitmap[..])
        invariant inUse == old(inUse) && forall j :: 0 <= j < i ==> s[j]
      {
        if !Test(bitmap[i / 8], i % 8) {
          assert !s[i] && i == FirstFree(s);
          MarksSet(bitmap[..], count, i);
          UnusedSet(s, i, true);
          bitmap[i / 8] := Or(bitmap[i / 8], i % 8);
          inUse := inUse + 1;
          assert bitmap[..] == SetBit(old(bitmap[..]), i);
          assert Hands(s, Slots(), i);
          return Object(Address(base, size, i));
        }
        i := i + 1;
      }
      assert false;        // panic("should not happen")
    }

    // kfree of any address.  A slot at count or above, in the rounding tail of the pool, is
    // marked too, so kfree takes it for an object and the counters go wrong; Beyond is one
    // past the bitmap page.
    method Kfree(obj: nat) returns (r: Done)
      requires Valid()
      modifies this`available, this`inUse, bitmap
      ensures r == Nothing <==> obj == 0
      ensures obj != 0 && !InPool(base, size, count, obj) ==> r == Panic
      ensures obj == 0 || !InPool(base, size, count, obj) || SlotAt(base, size, obj) >= count ==> Slots() == old(Slots())
      ensures obj != 0 && InPool(base, size, count, obj) && SlotAt(base, size, obj) < count ==>
        var s, i := old(Slots()), SlotAt(base, size, obj);
        && r == (if s[i] then Released else Panic) && Slots() == s[i := false]
        && Slots() == Call(s, Free(i)).0 && (r == Released <==> Call(s, Free(i)).1 == Freed)
      ensures obj != 0 && InPool(base, size, count, obj) && SlotAt(base, size, obj) >= count ==>
        r == if SlotAt(base, size, obj) >= 8 * PGSIZE then Beyond
             else if old(IsSet(bitmap[..], SlotAt(base, size, obj))) then Released else Panic
      ensures Valid() <==> !(r == Released && SlotAt(base, size, obj) >= count)
    {
      hide Test, Or, AndNot, InPool, SlotAt, Unused, Marks;
      if obj == 0 { return Nothing; }
      if !InPool(base, size, count, obj) { return Panic; }
      var index := SlotAt(base, size, obj);
      if index >= 8 * PGSIZE { return Beyond; }
      if !Test(bitmap[index / 8], index % 8) { return Panic; }
      ghost var s := Slots();
      ghost var before := bitmap[..];
      bitmap[index / 8] := AndNot(bitmap[index / 8], index % 8);
      assert bitmap[..] == ClearBit(before, index);
      inUse := inUse - 1;
      available := available + 1;
      if index < count {
        assert s[index];
        MarksSet(before, count, index);
        UnusedSet(s, index, false);
      } else {
        MarksBeyond(before, count, index);
      }
      return Released;
    }
  }

  // A bit at n or above is none of the first n.
  lemma MarksBeyond(map_: seq<bv8>, n: nat, i: nat)
    requires n <= i < 8 * |map_|
    ensures Marks(ClearBit(map_, i), n) == Marks(map_, n)
  {
    hide IsSet, ClearBit;
    forall j: nat | j < n ensures IsSet(ClearBit(map_, i), j) <==> IsSet(map_, j) {
      OneBit(map_, i, j);
    }
  }
}

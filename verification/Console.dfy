/**
  The console's line editor (os/console.c:81-121, 164-220): a ring of 128 bytes with
  32-bit read, write and edit indices that wrap around.
*/
module Console {
  const SIZE: nat := 128               // INPUT_BUF_SIZE
  const U32: nat := 0x1_0000_0000

  const CTRL_D: nat := 4
  const CTRL_H: nat := 8
  const NEWLINE: nat := 10
  const RETURN: nat := 13
  const CTRL_P: nat := 16
  const CTRL_U: nat := 21
  const DELETE: nat := 127

  type Byte = x: nat | x < 256

  // ---------- the line discipline, without a ring

  // committed: what readers may take, oldest first; tail: the line being edited.
  datatype Line = Line(committed: seq<Byte>, tail: seq<Byte>)

  function Stored(c: Byte): Byte { if c == RETURN then NEWLINE else c }

  predicate EndsLine(c: Byte) { c == NEWLINE || c == CTRL_D }

  // ^U erases back to a line end.
  function KillLine(tail: seq<Byte>): (r: seq<Byte>)
    ensures r <= tail && ((forall i :: 0 <= i < |tail| ==> tail[i] != NEWLINE) ==> r == [])
  {
    if tail == [] || tail[|tail| - 1] == NEWLINE then tail else KillLine(tail[..|tail| - 1])
  }

  lemma KillStep(tail: seq<Byte>)
    ensures tail == [] || tail[|tail| - 1] == NEWLINE ==> KillLine(tail) == tail
    ensures tail != [] && tail[|tail| - 1] != NEWLINE ==> KillLine(tail) == KillLine(tail[..|tail| - 1])
  {
  }

  // One key.
  function Typed(s: Line, c: Byte): Line {
    if c == CTRL_P then s
    else if c == CTRL_U then s.(tail := KillLine(s.tail))
    else if c == CTRL_H || c == DELETE then (if s.tail == [] then s else s.(tail := s.tail[..|s.tail| - 1]))
    else if c == 0 || |s.committed| + |s.tail| >= SIZE then s
    else if EndsLine(Stored(c)) || |s.committed| + |s.tail| + 1 == SIZE then Line(s.committed + s.tail + [Stored(c)], [])
    else s.(tail := s.tail + [c])
  }

  // The room is never exceeded, a full ring is all committed, and the tail holds no line end.
  predicate WellTyped(s: Line) {
    && |s.committed| + |s.tail| <= SIZE
    && (|s.committed| + |s.tail| == SIZE ==> s.tail == [])
    && forall i :: 0 <= i < |s.tail| ==> !EndsLine(s.tail[i])
  }

  function Keys(s: Line, keys: seq<Byte>): Line
    decreases keys
  {
    if keys == [] then s else Keys(Typed(s, keys[0]), keys[1..])
  }

  // Whatever is typed, the discipline holds, what was committed stays, in order, and is
  // only added to; and a reader with nothing to read never faces a full ring.
  lemma {:induction false} KeysKeep(s: Line, keys: seq<Byte>)
    requires WellTyped(s)
    ensures WellTyped(Keys(s, keys)) && s.committed <= Keys(s, keys).committed
    ensures Keys(s, keys).committed == [] ==> |Keys(s, keys).tail| < SIZE
    decreases keys
  {
    if keys != [] {
      KeysKeep(Typed(s, keys[0]), keys[1..]);
    }
  }

  // A key that only adds itself to the line.
  predicate Plain(c: Byte) { c !in {0, CTRL_P, CTRL_U, CTRL_H, DELETE, CTRL_D, NEWLINE, RETURN} }

  predicate PlainText(text: seq<Byte>) { forall i :: 0 <= i < |text| ==> Plain(text[i]) }

  lemma OneKey(s: Line, c: Byte)
    ensures Keys(s, [c]) == Typed(s, c)
  {
  }

  // What a person at the console sees, key by key.  Plain text is added to the line.
  lemma {:induction false} TextAppends(s: Line, text: seq<Byte>)
    requires PlainText(text) && |s.committed| + |s.tail| + |text| < SIZE
    ensures Keys(s, text) == Line(s.committed, s.tail + text)
    decreases text
  {
    if text != [] {
      TextAppends(s.(tail := s.tail + [text[0]]), text[1..]);
      assert s.tail + [text[0]] + text[1..] == s.tail + text;
    }
  }

  lemma LastKey(s: Line, text: seq<Byte>, c: Byte)
    requires PlainText(text) && |s.committed| + |s.tail| + |text| < SIZE
    ensures Keys(s, text + [c]) == Typed(Line(s.committed, s.tail + text), c)
  {
    hide Typed, Keys;
    TextAppends(s, text);
    KeysSplit(s, text, [c]);
    OneKey(Keys(s, text), c);
  }

  // Enter, which a terminal may send as either byte, commits the line and '\n'.
  lemma EnterCommits(s: Line, text: seq<Byte>, enter: Byte)
    requires PlainText(text) && |s.committed| + |s.tail| + |text| < SIZE && enter in {10, 13}
    ensures Keys(s, text + [enter]) == Line(s.committed + s.tail + text + [10], [])
  {
    hide Keys, PlainText;
    LastKey(s, text, enter);
    assert s.committed + (s.tail + text) == s.committed + s.tail + text;
  }

  // ^D commits the line and itself.
  lemma EndOfFileCommits(s: Line, text: seq<Byte>)
    requires PlainText(text) && |s.committed| + |s.tail| + |text| < SIZE
    ensures Keys(s, text + [4]) == Line(s.committed + s.tail + text + [4], [])
  {
    hide Keys, PlainText;
    LastKey(s, text, 4);
    assert s.committed + (s.tail + text) == s.committed + s.tail + text;
  }

  // The byte that fills the ring commits everything; after it no key changes anything.
  lemma FillCommits(s: Line, text: seq<Byte>, c: Byte)
    requires PlainText(text) && text != [] && |s.committed| + |s.tail| + |text| == SIZE
    ensures Keys(s, text) == Line(s.committed + s.tail + text, [])
    ensures Keys(s, text + [c]) == Keys(s, text)
  {
    var n := |text| - 1;
    var front := text[..n];
    assert front + [text[n]] == text && PlainText(front) && Plain(text[n]);
    hide Keys, PlainText;
    LastKey(s, front, text[n]);
    assert s.committed + (s.tail + front) + [text[n]] == s.committed + s.tail + text;
    KeysSplit(s, text, [c]);
    OneKey(Keys(s, text), c);
  }

  // ^U drops the line, ^H and DEL its last byte if there is one, ^P and NUL nothing.
  lemma EditingKeys(s: Line)
    requires WellTyped(s)
    ensures Keys(s, [21]) == Line(s.committed, [])
    ensures forall c: Byte :: c in {8, 127} ==> Keys(s, [c]) == Line(s.committed, if s.tail == [] then [] else s.tail[..|s.tail| - 1])
    ensures forall c: Byte :: c in {0, 16} ==> Keys(s, [c]) == s
  {
    assert forall c: Byte :: Keys(s, [c]) == Typed(s, c) by {
      forall c: Byte ensures Keys(s, [c]) == Typed(s, c) { OneKey(s, c); }
    }
  }

  // Editing: erasing as many bytes as were typed restores the line.
  lemma {:induction false} EraseUndoes(s: Line, text: seq<Byte>)
    requires WellTyped(s) && |s.committed| + |s.tail| + |text| < SIZE && PlainText(text)
    ensures Keys(Keys(s, text), seq(|text|, _ => DELETE)) == s
    decreases text
  {
    var n := |text|;
    if n > 0 {
      var s1 := Typed(s, text[0]);
      assert s1 == s.(tail := s.tail + [text[0]]);
      EraseUndoes(s1, text[1..]);
      KeysSplit(Keys(s1, text[1..]), seq(n - 1, _ => DELETE), [DELETE]);
      assert seq(n - 1, _ => DELETE) + [DELETE] == seq(n, _ => DELETE);
      assert Keys(s1, [DELETE]) == Typed(s1, DELETE) == s;
    }
  }

  lemma {:induction false} KeysSplit(s: Line, a: seq<Byte>, b: seq<Byte>)
    ensures Keys(s, a + b) == Keys(Keys(s, a), b)
    decreases a
  {
    if a == [] {
      assert a + b == b;
    } else {
      assert (a + b)[0] == a[0] && (a + b)[1..] == a[1..] + b;
      KeysSplit(Typed(s, a[0]), a[1..], b);
    }
  }

  // ---------- one read, on the stream of committed bytes

  // bytes went to the user, used were taken from the stream; waiting: it needs more.
  datatype Outcome = Outcome(bytes: seq<Byte>, used: nat, waiting: bool)

  // A read of n0 bytes with k delivered, when the user can take room bytes in all; the
  // target is kept in 32 bits.
  function Reading(s: seq<Byte>, n0: int, k: nat, room: nat): (o: Outcome)
    ensures o.used <= |s|
  {
    if n0 - k <= 0 then Outcome([], 0, false)
    else if s == [] then Outcome([], 0, true)
    else if s[0] == CTRL_D then Outcome([], if n0 - k < n0 % U32 then 0 else 1, false)
    else if k >= room then Outcome([], 1, false)
    else if s[0] == NEWLINE then Outcome([s[0]], 1, false)
    else
      var o := Reading(s[1..], n0, k + 1, room);
      Outcome([s[0]] + o.bytes, o.used + 1, o.waiting)
  }

  // A read delivers a prefix of the stream: no end-of-file mark, a line end only at the
  // end, and no more than was asked for or fits.
  lemma {:induction false} ReadsPrefix(s: seq<Byte>, n0: int, k: nat, room: nat)
    ensures var o := Reading(s, n0, k, room);
      && |o.bytes| <= o.used <= |o.bytes| + 1 && o.bytes == s[..|o.bytes|]
      && (forall i :: 0 <= i < |o.bytes| ==> o.bytes[i] != CTRL_D && (o.bytes[i] == NEWLINE ==> i == |o.bytes| - 1))
      && (n0 >= k ==> k + |o.bytes| <= n0) && (room >= k ==> k + |o.bytes| <= room)
  {
    if n0 - k > 0 && s != [] && s[0] != CTRL_D && k < room && s[0] != NEWLINE {
      ReadsPrefix(s[1..], n0, k + 1, room);
    }
  }

  // What stops a read, in the order it is looked for.
  predicate Stops(s: seq<Byte>, o: Outcome, n0: int, k: nat, room: nat) {
    var d := |o.bytes|;
    || (d > 0 && o.bytes[d - 1] == NEWLINE && o.used == d && !o.waiting)
    || (k + d >= n0 && o.used == d && !o.waiting)
    || (d == |s| && o.used == d && o.waiting)
    || (d < |s| && s[d] == CTRL_D && !o.waiting && o.used == if n0 - k - d < n0 % U32 then d else d + 1)
    || (d < |s| && k + d >= room && o.used == d + 1 && !o.waiting)
  }

  lemma {:induction false} ReadsUntil(s: seq<Byte>, n0: int, k: nat, room: nat)
    ensures Stops(s, Reading(s, n0, k, room), n0, k, room)
  {
    if n0 - k > 0 && s != [] && s[0] != CTRL_D && k < room && s[0] != NEWLINE {
      ReadsUntil(s[1..], n0, k + 1, room);
      var o := Reading(s[1..], n0, k + 1, room);
      if o.bytes != [] { assert ([s[0]] + o.bytes)[|o.bytes|] == o.bytes[|o.bytes| - 1]; }
    }
  }

  // A ^D met after data is kept: the next read returns no bytes and takes it away.
  lemma EndOfFileOnce(s: seq<Byte>, n0: int, room: nat, m: int, room': nat)
    requires 0 <= n0 < U32 && 0 < m < U32
    ensures var o := Reading(s, n0, 0, room);
      o.bytes != [] && !o.waiting && o.bytes[|o.bytes| - 1] != NEWLINE && |o.bytes| < n0 && |o.bytes| < room ==>
        && o.used == |o.bytes| && s[o.used..] != [] && s[o.used..][0] == CTRL_D
        && Reading(s[o.used..], m, 0, room') == Outcome([], 1, false)
  {
    ReadsUntil(s, n0, 0, room);
    ReadsPrefix(s, n0, 0, room);
  }

  // The value user_console_read returns.
  function Value(n0: int, delivered: nat): int { n0 % U32 - (n0 - delivered) }

  // It is the number of bytes delivered exactly for the counts a 32-bit target can hold.
  lemma ValueIsCount(n0: int, delivered: nat)
    ensures Value(n0, delivered) == delivered <==> 0 <= n0 < U32
  {
  }

  // A read can go past its first byte.
  predicate Passes(s: seq<Byte>, n0: int, k: nat, room: nat) {
    n0 - k > 0 && s != [] && s[0] != CTRL_D && k < room && s[0] != NEWLINE
  }

  lemma ReadingStep(s: seq<Byte>, n0: int, k: nat, room: nat)
    ensures Passes(s, n0, k, room) ==>
      var o := Reading(s[1..], n0, k + 1, room); Reading(s, n0, k, room) == Outcome([s[0]] + o.bytes, o.used + 1, o.waiting)
    ensures Reading(s, n0, k, room).waiting ==> if s == [] then Reading(s, n0, k, room).bytes == [] else Passes(s, n0, k, room)
  {
  }

  // A read that waited goes on as if all had been there.
  lemma {:induction false} ReadingMore(s: seq<Byte>, t: seq<Byte>, n0: int, k: nat, room: nat)
    requires Reading(s, n0, k, room).waiting
    ensures Reading(s, n0, k, room).bytes == s
    ensures var o := Reading(t, n0, k + |s|, room);
      Reading(s + t, n0, k, room) == Outcome(s + o.bytes, |s| + o.used, o.waiting)
    decreases s
  {
    hide Reading;
    ReadingStep(s, n0, k, room);
    if s == [] {
      assert s + t == t;
    } else {
      assert (s + t)[0] == s[0] && (s + t)[1..] == s[1..] + t;
      ReadingStep(s + t, n0, k, room);
      ReadingMore(s[1..], t, n0, k + 1, room);
      assert k + 1 + |s[1..]| == k + |s|;
      var o := Reading(t, n0, k + |s|, room);
      assert [s[0]] + s[1..] == s;
      assert [s[0]] + (s[1..] + o.bytes) == s + o.bytes;
    }
  }

  // A line typed at an empty console is what a large enough read returns.
  lemma {:induction false} LineIsRead(line: seq<Byte>, n0: int, k: nat, room: nat)
    requires PlainText(line) && n0 - k > |line| && room - k > |line|
    ensures Reading(line + [10], n0, k, room) == Outcome(line + [10], |line| + 1, false)
    decreases line
  {
    if line != [] {
      assert (line + [10])[0] == line[0] && (line + [10])[1..] == line[1..] + [10];
      LineIsRead(line[1..], n0, k + 1, room);
      assert [line[0]] + (line[1..] + [10]) == line + [10];
    }
  }

  lemma TypedLineIsRead(line: seq<Byte>, enter: Byte, n0: int, room: nat)
    requires PlainText(line) && |line| < SIZE && n0 > |line| && room > |line| && enter in {10, 13}
    ensures Reading(Keys(Line([], []), line + [enter]).committed, n0, 0, room) == Outcome(line + [10], |line| + 1, false)
  {
    EnterCommits(Line([], []), line, enter);
    assert [] + [] + line + [10] == line + [10];
    LineIsRead(line, n0, 0, room);
  }

  // What has been committed when a reader, which has taken every committed byte before
  // each of its sleeps, has slept through these keys; and the line being edited then.
  function Fed(s: Line, sleeps: seq<seq<Byte>>): (f: Line)
    ensures s.committed <= f.committed
    decreases |sleeps|
  {
    if sleeps == [] then s else
    var n := |sleeps| - 1;
    var f := Fed(s, sleeps[..n]);
    var l := Keys(Line([], f.tail), sleeps[n]);
    Line(f.committed + l.committed, l.tail)
  }

  lemma Unfed(s: Line, sleeps: seq<seq<Byte>>)
    ensures Fed(s, sleeps[..0]) == s
  {
  }

  // One sleep more.
  lemma FedMore(s: Line, sleeps: seq<seq<Byte>>, j: nat, bytes: seq<Byte>, now: Line)
    requires j < |sleeps| && Fed(s, sleeps[..j]) == Line(bytes, now.tail) && now.committed == []
    ensures var after := Keys(now, sleeps[j]); Fed(s, sleeps[..j + 1]) == Line(bytes + after.committed, after.tail)
  {
    assert sleeps[..j + 1][..j] == sleeps[..j];
    assert now == Line([], now.tail);
  }

  // A read of the stream has delivered bytes and goes on with the rest.
  ghost predicate OnCourse(stream: seq<Byte>, bytes: seq<Byte>, n0: int, room: nat) {
    && bytes <= stream
    && var o := Reading(stream[|bytes|..], n0, |bytes|, room);
       Reading(stream, n0, 0, room) == Outcome(bytes + o.bytes, |bytes| + o.used, o.waiting)
  }

  lemma Unread(stream: seq<Byte>, n0: int, room: nat)
    ensures OnCourse(stream, [], n0, room)
  {
    hide Reading;
    assert stream[0..] == stream;
  }

  // How the read goes on, by the rest of the stream.
  lemma Rest(stream: seq<Byte>, bytes: seq<Byte>, rest: seq<Byte>, n0: int, room: nat)
    requires OnCourse(stream, bytes, n0, room) && stream == bytes + rest && n0 > |bytes|
    ensures var o := Reading(stream, n0, 0, room);
      if rest == [] then o == Outcome(bytes, |bytes|, true)
      else if rest[0] == CTRL_D then o == Outcome(bytes, if n0 - |bytes| < n0 % U32 then |bytes| else |bytes| + 1, false)
      else if |bytes| >= room then o == Outcome(bytes, |bytes| + 1, false)
      else if rest[0] == NEWLINE then o == Outcome(bytes + [NEWLINE], |bytes| + 1, false)
      else OnCourse(stream, bytes + [rest[0]], n0, room)
  {
    assert stream[|bytes|..] == rest;
    if Passes(rest, n0, |bytes|, room) {
      ReadingStep(rest, n0, |bytes|, room);
      hide Reading;
      var b := bytes + [rest[0]];
      assert stream[|b|..] == rest[1..];
      var o := Reading(rest[1..], n0, |b|, room);
      assert bytes + ([rest[0]] + o.bytes) == b + o.bytes;
    }
  }

  lemma Grown(stream: seq<Byte>, bytes: seq<Byte>, before: seq<Byte>, after: seq<Byte>, n0: int, room: nat)
    requires OnCourse(stream, bytes, n0, room) && stream == bytes + before && n0 > |bytes|
    requires before <= after && (before != [] ==> after == before)
    ensures stream <= bytes + after && OnCourse(bytes + after, bytes, n0, room)
  {
    Rest(stream, bytes, before, n0, room);
    if before == [] {
      assert stream == bytes;
      More(bytes, after, n0, room);
    }
  }

  lemma Satisfied(stream: seq<Byte>, bytes: seq<Byte>, n0: int, room: nat)
    requires OnCourse(stream, bytes, n0, room) && n0 <= |bytes|
    ensures Reading(stream, n0, 0, room) == Outcome(bytes, |bytes|, false)
  {
  }

  // The read is over, with these bytes, and the rest of the stream was left.
  ghost predicate Finished(stream: seq<Byte>, bytes: seq<Byte>, rest: seq<Byte>, n0: int, room: nat) {
    var o := Reading(stream, n0, 0, room);
    o.bytes == bytes && !o.waiting && rest == stream[o.used..]
  }

  // More of the stream arrives while the read waits.
  lemma More(bytes: seq<Byte>, t: seq<Byte>, n0: int, room: nat)
    requires Reading(bytes, n0, 0, room).waiting
    ensures OnCourse(bytes + t, bytes, n0, room)
  {
    hide Reading;
    ReadingMore(bytes, t, n0, 0, room);
    assert (bytes + t)[|bytes|..] == t;
  }

  // ---------- the ring

  // Unsigned 32-bit subtraction.
  function Gap(a: nat, b: nat): (g: nat) ensures g < U32 { (a - b) % U32 }

  function Pos(i: nat, j: nat): (p: nat) ensures p < SIZE { (i + j) % SIZE }

  // The n bytes of the ring from index i.
  function Window(a: seq<Byte>, i: nat, n: nat): (s: seq<Byte>)
    requires |a| == SIZE
    ensures |s| == n && forall j :: 0 <= j < n ==> s[j] == a[Pos(i, j)]
  {
    seq(n, j requires 0 <= j < n => a[Pos(i, j)])
  }

  lemma GapAdd(e: nat, w: nat, r: nat)
    requires e < U32 && w < U32 && r < U32 && Gap(w, r) <= Gap(e, r)
    ensures Gap(e, w) == Gap(e, r) - Gap(w, r)
  {
  }

  // Index i + g of the ring, where e is g past i, also when e wrapped around.
  lemma RingIndex(e: nat, i: nat)
    requires e < U32 && i < U32
    ensures e % SIZE == Pos(i, Gap(e, i))
  {
    if e < i { assert i + Gap(e, i) == e + U32; }
  }

  lemma RingApart(i: nat, j: nat, g: nat)
    requires j < g < SIZE || g < j < SIZE
    ensures Pos(i, j) != Pos(i, g)
  {
  }

  lemma GapUp(e: nat, i: nat)
    requires e < U32 && i < U32 && Gap(e, i) < SIZE
    ensures Gap((e + 1) % U32, i) == Gap(e, i) + 1
  {
  }

  lemma GapDown(e: nat, i: nat)
    requires e < U32 && i < U32 && 0 < Gap(e, i)
    ensures Gap((e - 1) % U32, i) == Gap(e, i) - 1
  {
  }

  // Writing the byte after a window of less than the whole ring extends it.
  lemma WindowPush(a: seq<Byte>, i: nat, e: nat, c: Byte)
    requires |a| == SIZE && i < U32 && e < U32 && Gap(e, i) < SIZE
    ensures Window(a[e % SIZE := c], i, Gap(e, i) + 1) == Window(a, i, Gap(e, i)) + [c]
    ensures Gap((e + 1) % U32, i) == Gap(e, i) + 1
  {
    RingIndex(e, i);
    GapUp(e, i);
    forall j | 0 <= j < Gap(e, i) ensures Pos(i, j) != e % SIZE { RingApart(i, j, Gap(e, i)); }
    hide Gap, Pos;
  }

  // Stepping the end of a window back drops its last byte.
  lemma WindowPop(a: seq<Byte>, i: nat, e: nat)
    requires |a| == SIZE && i < U32 && e < U32 && 0 < Gap(e, i) <= SIZE
    ensures Gap((e - 1) % U32, i) == Gap(e, i) - 1
    ensures Window(a, i, Gap(e, i)) == Window(a, i, Gap(e, i) - 1) + [a[(e - 1) % U32 % SIZE]]
  {
    hide Gap, Pos;
    GapDown(e, i);
    RingIndex((e - 1) % U32, i);
  }

  // Stepping the start of a window on drops its first byte.
  lemma WindowShift(a: seq<Byte>, i: nat, e: nat)
    requires |a| == SIZE && i < U32 && e < U32 && 0 < Gap(e, i) <= SIZE
    ensures Gap(e, (i + 1) % U32) == Gap(e, i) - 1
    ensures Window(a, i, Gap(e, i)) == [a[i % SIZE]] + Window(a, (i + 1) % U32, Gap(e, i) - 1)
  {
    assert Gap((i + 1) % U32, i) == 1;
    WindowSplit(a, i, 1, Gap(e, i), (i + 1) % U32);
    assert Window(a, i, 1) == [a[i % SIZE]];
  }

  lemma WindowSplit(a: seq<Byte>, i: nat, m: nat, n: nat, w: nat)
    requires |a| == SIZE && i < U32 && w < U32 && m <= n && Gap(w, i) == m
    ensures Window(a, i, n) == Window(a, i, m) + Window(a, w, n - m)
  {
    RingIndex(w, i);
    forall j | 0 <= j < n - m ensures Pos(i, m + j) == Pos(w, j) {
      AddMod(i + m, w, j);
    }
  }

  lemma AddMod(x: nat, y: nat, j: nat)
    requires x % SIZE == y % SIZE
    ensures (x + j) % SIZE == (y + j) % SIZE
  {
  }

  class Cons {
    const buf: array<Byte>
    var r: nat
    var w: nat
    var e: nat

    ghost predicate Valid()
      reads this, buf
    {
      && buf.Length == SIZE && r < U32 && w < U32 && e < U32
      && Gap(w, r) <= Gap(e, r) <= SIZE && WellTyped(State())
    }

    ghost function State(): Line
      reads this, buf
      requires buf.Length == SIZE
    {
      Line(Window(buf[..], r, Gap(w, r)), Window(buf[..], w, Gap(e, w)))
    }

    constructor ()
      ensures Valid() && fresh(buf) && State() == Line([], [])
    {
      buf := new Byte[SIZE];
      r, w, e := 0, 0, 0;
    }

    // The end of the tail steps back.
    method Back()
      requires Valid() && e != w
      modifies this`e
      ensures Valid() && State() == old(State()).(tail := old(State()).tail[..|old(State()).tail| - 1])
      ensures Gap(e, w) < old(Gap(e, w))
    {
      GapAdd(e, w, r);
      WindowPop(buf[..], w, e);
      WindowPop(buf[..], r, e);
      hide Gap, Window;
      e := (e - 1) % U32;
    }

    // ^U
    method EraseLine()
      requires Valid()
      modifies this`e
      ensures Valid() && State() == old(State()).(tail := KillLine(old(State()).tail))
    {
      hide Window, WellTyped, Gap, KillLine;
      ghost var line := State();
      while e != w && buf[(e - 1) % U32 % SIZE] != NEWLINE
        invariant Valid() && State().committed == line.committed && KillLine(State().tail) == KillLine(line.tail)
        decreases Gap(e, w)
      {
        LastByte();
        KillStep(State().tail);
        Back();
      }
      if e != w { LastByte(); } else { NoTail(); }
      KillStep(State().tail);
    }

    lemma LastByte()
      requires Valid() && e != w
      ensures State().tail != [] && State().tail[|State().tail| - 1] == buf[(e - 1) % U32 % SIZE]
    {
      GapAdd(e, w, r);
      WindowPop(buf[..], w, e);
    }

    lemma NoTail()
      requires Valid() && e == w
      ensures State().tail == []
    {
    }

    // A key that is kept: echoed, stored at e, and committed when it ends a line or fills the ring.
    method Store(c: Byte)
      requires Valid() && Gap(e, r) < SIZE && c !in {0, CTRL_P, CTRL_U, CTRL_H, DELETE}
      modifies this`e, this`w, buf
      ensures Valid() && State() == Typed(old(State()), c)
    {
      ghost var a, line := buf[..], State();
      var c' := if c == RETURN then NEWLINE else c;
      GapAdd(e, w, r);
      WindowPush(a, w, e, c');
      WindowPush(a, r, e, c');
      WindowSplit(a, r, Gap(w, r), Gap(e, r), w);
      WindowPrefix(a, a[e % SIZE := c'], r, Gap(w, r), e, c');
      buf[e % SIZE] := c';
      e := (e + 1) % U32;
      assert buf[..] == a[old(e) % SIZE := c'];
      hide Window;
      if c' == NEWLINE || c' == CTRL_D || Gap(e, r) == SIZE {
        w := e;
      }
    }

    lemma WindowPrefix(a: seq<Byte>, b: seq<Byte>, i: nat, m: nat, e: nat, c: Byte)
      requires |a| == SIZE && i < U32 && e < U32 && m <= Gap(e, i) < SIZE && b == a[e % SIZE := c]
      ensures Window(b, i, m) == Window(a, i, m)
    {
      RingIndex(e, i);
      forall j | 0 <= j < m ensures Pos(i, j) != e % SIZE { RingApart(i, j, Gap(e, i)); }
    }

    // consintr
    method Consintr(c: Byte)
      requires Valid()
      modifies this`e, this`w, buf
      ensures Valid() && State() == Keys(old(State()), [c]) == Typed(old(State()), c)
    {
      OneKey(State(), c);
      GapAdd(e, w, r);
      if c == CTRL_P {
      } else if c == CTRL_U {
        EraseLine();
      } else if c == CTRL_H || c == DELETE {
        if e != w { Back(); }
      } else if c != 0 && (e - r) % U32 < SIZE {
        Store(c);
      }
    }

    // What stepping r on does to the windows.
    lemma TakeFacts()
      requires Valid() && r != w
      ensures var r' := (r + 1) % U32;
        && r' < U32 && Gap(w, r') + 1 == Gap(w, r) && Gap(e, r') + 1 == Gap(e, r) && (r' - 1) % U32 == r
        && Window(buf[..], r, Gap(w, r)) == [buf[r % SIZE]] + Window(buf[..], r', Gap(w, r'))
    {
      GapApart(w, r);
      GapApart(e, r);
      GapNext(w, r);
      GapNext(e, r);
      WindowShift(buf[..], r, w);
    }

    // The next committed byte is taken.
    method Take() returns (c: Byte)
      requires Valid() && r != w
      modifies this`r
      ensures Valid() && old(State()).committed == [c] + State().committed && State().tail == old(State()).tail
      ensures r == (old(r) + 1) % U32
    {
      TakeFacts();
      hide Gap, Window;
      c := buf[r % SIZE];
      r := (r + 1) % U32;
    }

    // The keys that arrive while the reader sleeps.
    method Arrive(keys: seq<Byte>)
      requires Valid()
      modifies this`e, this`w, buf
      ensures Valid() && State() == Keys(old(State()), keys)
    {
      var i := 0;
      ghost var line := State();
      assert keys[0..] == keys;
      while i < |keys|
        invariant i <= |keys| && Valid() && Keys(State(), keys[i..]) == Keys(line, keys)
      {
        assert keys[i..][1..] == keys[i + 1..];
        Consintr(keys[i]);
        i := i + 1;
      }
    }

    // while (cons.r == cons.w) sleep(...): up to the end of the sleeps listed from i on,
    // by a reader that has taken bytes since the console was as line says.
    method Await(sleeps: seq<seq<Byte>>, i: nat, ghost line: Line, ghost bytes: seq<Byte>) returns (j: nat)
      requires Valid() && i <= |sleeps| && Fed(line, sleeps[..i]) == Line(bytes + State().committed, State().tail)
      modifies this`e, this`w, buf
      ensures Valid() && i <= j <= |sleeps| && (r == w ==> j == |sleeps|)
      ensures Fed(line, sleeps[..j]) == Line(bytes + State().committed, State().tail)
      ensures forall k :: i <= k < j ==> Fed(line, sleeps[..k]).committed == bytes
      ensures old(State()).committed != [] ==> j == i && State() == old(State())
    {
      hide Window, Gap, WellTyped, Fed;
      j := i;
      if r != w { return; }
      NothingCommitted();
      while r == w && j < |sleeps|
        invariant Valid() && i <= j <= |sleeps| && old(State()).committed == []
        invariant Fed(line, sleeps[..j]) == Line(bytes + State().committed, State().tail)
        invariant forall k :: i <= k < j ==> Fed(line, sleeps[..k]).committed == bytes
      {
        NothingCommitted();
        assert bytes + [] == bytes;
        FedMore(line, sleeps, j, bytes, State());
        Arrive(sleeps[j]);
        j := j + 1;
      }
    }

    // user_console_read of n0 bytes into a buffer that can take room bytes; sleeps lists
    // what is typed during each sleep, and the reader stays blocked when it ends.  It
    // sleeps exactly as long as the read of what is there waits, and it reads what was
    // typed; the line being edited is as typing left it.
    method UserConsoleRead(n0: int, room: nat, sleeps: seq<seq<Byte>>)
      returns (value: int, bytes: seq<Byte>, blocked: bool, ghost slept: nat)
      requires Valid()
      modifies this, buf
      ensures Valid() && slept <= |sleeps| && (blocked ==> slept == |sleeps|)
      ensures var f := Fed(old(State()), sleeps[..slept]);
        var o := Reading(f.committed, n0, 0, room);
        bytes == o.bytes && blocked == o.waiting && State() == Line(f.committed[o.used..], f.tail)
      ensures forall k :: 0 <= k < slept ==> Reading(Fed(old(State()), sleeps[..k]).committed, n0, 0, room).waiting
      ensures !blocked ==> value == Value(n0, |bytes|)
    {
      hide Reading, WellTyped, Window, Gap, OnCourse, Fed;
      var n, i := n0, 0;
      bytes, blocked, value, slept := [], false, 0, 0;
      var ended := false;
      ghost var line := State();
      ghost var stream := line.committed;
      Unread(stream, n0, room);
      Unfed(line, sleeps);
      while n > 0
        invariant Valid() && n == n0 - |bytes| && i <= |sleeps| && !blocked && !ended
        invariant stream == bytes + State().committed && Fed(line, sleeps[..i]) == Line(stream, State().tail)
        invariant OnCourse(stream, bytes, n0, room)
        invariant forall k :: 0 <= k < i ==> Reading(Fed(line, sleeps[..k]).committed, n0, 0, room).waiting
        decreases n
      {
        ghost var before := State().committed;
        if before == [] {
          assert stream == bytes;
          Rest(stream, bytes, [], n0, room);
        }
        i := Await(sleeps, i, line, bytes);
        Grown(stream, bytes, before, State().committed, n0, room);
        stream := bytes + State().committed;
        if r == w {
          NothingCommitted();
          Rest(stream, bytes, [], n0, room);
          return 0, bytes, true, i;
        }
        bytes, ended := Deliver(stream, bytes, n0, room);
        if ended { break; }
        n := n - 1;
      }
      if !ended { Satisfied(stream, bytes, n0, room); }
      value := n0 % U32 - (n0 - |bytes|);
      slept := i;
    }

    // One byte for a read that has n0 - |bytes| to go: it is delivered, or the read ends.
    method Deliver(ghost stream: seq<Byte>, bytes: seq<Byte>, n0: int, room: nat) returns (more: seq<Byte>, ended: bool)
      requires Valid() && r != w && n0 > |bytes| && stream == bytes + State().committed && OnCourse(stream, bytes, n0, room)
      modifies this`r
      ensures Valid() && State().tail == old(State()).tail
      ensures !ended ==> |more| == |bytes| + 1 && stream == more + State().committed && OnCourse(stream, more, n0, room)
      ensures ended ==> Finished(stream, more, State().committed, n0, room)
    {
      hide Reading, WellTyped, Window, Gap, OnCourse;
      ghost var rest := State().committed;
      SomethingCommitted();
      Rest(stream, bytes, rest, n0, room);
      var target := n0 % U32;
      var c, copied := TakeOne(n0 - |bytes| < target, |bytes| < room);
      assert stream[|bytes|..] == rest && stream[|bytes| + 1..] == rest[1..];
      if !copied { return bytes, true; }
      more, ended := bytes + [c], c == NEWLINE;
    }

    // One byte: a ^D ends the read and is put back if more than nothing was read; a byte
    // that cannot be copied is gone.
    method TakeOne(partial: bool, fits: bool) returns (c: Byte, copied: bool)
      requires Valid() && r != w && State().committed != []
      modifies this`r
      ensures Valid() && c == old(State()).committed[0] && (copied <==> c != CTRL_D && fits)
      ensures State().committed == if c == CTRL_D && partial then old(State()).committed else old(State()).committed[1..]
      ensures State().tail == old(State()).tail
    {
      hide Window, Gap, WellTyped;
      TakeFacts();
      label Before:
      c := Take();
      assert old(State()).committed[1..] == State().committed;
      if c == CTRL_D {
        if partial {
          r := (r - 1) % U32;
          assert r == old@Before(r);
        }
        return c, false;
      }
      copied := fits;
    }

    lemma SomethingCommitted()
      requires Valid() && r != w
      ensures State().committed != []
    {
      GapApart(w, r);
    }

    lemma NothingCommitted()
      requires Valid() && r == w
      ensures State().committed == []
    {
    }
  }

  lemma GapApart(e: nat, r: nat)
    requires e < U32 && r < U32
    ensures Gap(e, r) == 0 <==> e == r
  {
  }

  lemma GapNext(e: nat, r: nat)
    requires e < U32 && r < U32 && e != r
    ensures Gap(e, (r + 1) % U32) == Gap(e, r) - 1 && ((r + 1) % U32 - 1) % U32 == r
  {
  }
}

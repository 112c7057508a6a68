/**
  The task queue (os/queue.c): a ring of NPROC of the QUEUE_SIZE slots, with an empty flag
  that tells a full ring from an empty one.
*/
module TaskQueue {
  const NPROC: nat := 512
  const QUEUE_SIZE: nat := 1024

  datatype Option<+T> = None | Some(value: T)

  function Pos(front: nat, i: nat): (p: nat) ensures p < NPROC { (front + i) % NPROC }

  // The n entries of the ring from front.
  function Ring<T>(a: seq<T>, front: nat, n: nat): (s: seq<T>)
    requires |a| == QUEUE_SIZE
    ensures |s| == n && forall i :: 0 <= i < n ==> s[i] == a[Pos(front, i)]
  {
    seq(n, i requires 0 <= i < n => a[Pos(front, i)])
  }

  class Queue<T> {
    const data: array<T>
    var front: nat
    var tail: nat
    var empty: bool

    ghost predicate Valid()
      reads this
    {
      data.Length == QUEUE_SIZE && front < NPROC && tail < NPROC && (empty ==> front == tail)
    }

    function Count(): (n: nat)
      reads this
      requires Valid()
      ensures n <= NPROC && tail == Pos(front, n)
    {
      if empty then 0 else if front < tail then tail - front else tail - front + NPROC
    }

    // The entries, the one to be popped first.
    ghost function Contents(): (s: seq<T>)
      reads this, data
      requires Valid()
      ensures |s| == Count()
    {
      Ring(data[..], front, Count())
    }

    // init_queue
    constructor (zero: T)
      ensures Valid() && fresh(data) && Contents() == []
    {
      data := new T[QUEUE_SIZE](_ => zero);
      front, tail, empty := 0, 0, true;
    }

    // push_queue; false is its panic.
    method Push(x: T) returns (ok: bool)
      requires Valid()
      modifies this`tail, this`empty, data
      ensures Valid() && (ok <==> |old(Contents())| < NPROC)
      ensures Contents() == if ok then old(Contents()) + [x] else old(Contents())
    {
      if !empty && front == tail { return false; }
      Apart(front, Count());
      empty := false;
      data[tail] := x;
      tail := (tail + 1) % NPROC;
      ok := true;
    }

    // pop_queue; None is NULL.
    method Pop() returns (r: Option<T>)
      requires Valid()
      modifies this`front, this`empty
      ensures Valid()
      ensures r.None? <==> old(Contents()) == []
      ensures r.None? ==> Contents() == []
      ensures r.Some? ==> old(Contents()) == [r.value] + Contents()
    {
      if empty { return None; }
      var x := data[front];
      ShiftRing(data[..], front, Count());
      hide Ring, Pos;
      front := (front + 1) % NPROC;
      if front == tail { empty := true; }
      r := Some(x);
    }
  }

  lemma Apart(front: nat, n: nat)
    requires n < NPROC
    ensures forall i :: 0 <= i < n ==> Pos(front, i) != Pos(front, n)
  {
  }

  lemma ShiftRing<T>(a: seq<T>, front: nat, n: nat)
    requires |a| == QUEUE_SIZE && front < NPROC && n > 0
    ensures Ring(a, front, n) == [a[front]] + Ring(a, (front + 1) % NPROC, n - 1)
  {
    var next := (front + 1) % NPROC;
    forall i | 0 <= i < n - 1 ensures Pos(next, i) == Pos(front, i + 1) { Shift(front, i); }
  }

  lemma Shift(front: nat, i: nat)
    ensures Pos((front + 1) % NPROC, i) == Pos(front, i + 1)
  {
  }
}

/**
  memmove (os/string.c:29-47): a copy between ranges that may overlap.
*/
module Memmove {
  type Byte = x: nat | x < 256

  // The n bytes from s, put at d; the rest as it was.
  function Moved(a: seq<Byte>, d: nat, s: nat, n: nat): (r: seq<Byte>)
    requires d + n <= |a| && s + n <= |a|
    ensures |r| == |a| && r[d..d + n] == a[s..s + n] && r[..d] == a[..d] && r[d + n..] == a[d + n..]
  {
    a[..d] + a[s..s + n] + a[d + n..]
  }

  lemma MovedAt(a: seq<Byte>, d: nat, s: nat, n: nat)
    requires d + n <= |a| && s + n <= |a|
    ensures forall k :: 0 <= k < |a| ==> Moved(a, d, s, n)[k] == if d <= k < d + n then a[s + (k - d)] else a[k]
  {
  }

  // Both directions, chosen so that no byte is overwritten before it was read.
  method Move(a: array<Byte>, dst: nat, src: nat, n0: nat)
    requires dst + n0 <= a.Length && src + n0 <= a.Length
    modifies a
    ensures a[..] == Moved(old(a[..]), dst, src, n0)
  {
    ghost var b := a[..];
    var s, d, n := src, dst, n0;
    if s < d && s + n > d {
      s := s + n;
      d := d + n;
      while n > 0
        invariant 0 <= n <= n0 && s == src + n && d == dst + n
        invariant forall k :: (0 <= k < d || dst + n0 <= k < a.Length) ==> a[k] == b[k]
        invariant forall k :: d <= k < dst + n0 ==> a[k] == b[src + (k - dst)]
        decreases n
      {
        n := n - 1;
        d := d - 1;
        s := s - 1;
        a[d] := a[s];
      }
    } else {
      while n > 0
        invariant 0 <= n <= n0 && s == src + (n0 - n) && d == dst + (n0 - n)
        invariant forall k :: (0 <= k < dst || d <= k < a.Length) ==> a[k] == b[k]
        invariant forall k :: dst <= k < d ==> a[k] == b[src + (k - dst)]
        decreases n
      {
        n := n - 1;
        a[d] := a[s];
        d := d + 1;
        s := s + 1;
      }
    }
    assert a[..] == Moved(b, dst, src, n0) by { MovedAt(b, dst, src, n0); }
  }
}

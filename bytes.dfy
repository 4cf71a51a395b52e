/** Byte-level primitives the container writer relies on: bytes, 32-bit
    unsigned words in little-endian order, and the concatenation of a
    sequence of byte blocks (what a MemoryStream holds after successive
    Write calls). */
module Bytes {

  newtype byte = x: int | 0 <= x < 256

  /** 2^32: the modulus of C#'s `uint` arithmetic. */
  const TwoTo32: int := 0x1_0000_0000

  /** The four bytes BitConverter.GetBytes(uint) yields on a little-endian host. */
  function LE32(x: nat): (b: seq<byte>)
    requires x < TwoTo32
    ensures |b| == 4
  {
    [(x % 0x100) as byte, (x / 0x100 % 0x100) as byte,
     (x / 0x1_0000 % 0x100) as byte, (x / 0x100_0000) as byte]
  }

  /** Reads back a little-endian 32-bit word. */
  function FromLE32(b: seq<byte>): (x: nat)
    requires |b| == 4
    ensures x < TwoTo32
  {
    b[0] as nat + 0x100 * b[1] as nat + 0x1_0000 * b[2] as nat + 0x100_0000 * b[3] as nat
  }

  lemma LE32RoundTrip(x: nat)
    requires x < TwoTo32
    ensures FromLE32(LE32(x)) == x
  {
    var b := LE32(x);
    var q1 := x / 0x100;
    var q2 := q1 / 0x100;
    assert x == x % 0x100 + 0x100 * q1;
    assert q1 == q1 % 0x100 + 0x100 * q2;
    assert x / 0x1_0000 == q2;
    assert q2 == q2 % 0x100 + 0x100 * (q2 / 0x100);
    assert x / 0x100_0000 == q2 / 0x100;
  }

  lemma FromLE32RoundTrip(b: seq<byte>)
    requires |b| == 4
    ensures LE32(FromLE32(b)) == b
  {
    var x := FromLE32(b);
    assert x % 0x100 == b[0] as nat && x / 0x100 == b[1] as nat + 0x100 * b[2] as nat + 0x1_0000 * b[3] as nat;
    var y := x / 0x100;
    assert y % 0x100 == b[1] as nat && y / 0x100 == b[2] as nat + 0x100 * b[3] as nat;
    assert x / 0x1_0000 == y / 0x100;
    var z := y / 0x100;
    assert z % 0x100 == b[2] as nat && z / 0x100 == b[3] as nat;
    assert x / 0x100_0000 == z / 0x100;
  }

  /** Sum of the first `i` elements of `s`. */
  function SumTo(s: seq<nat>, i: nat): nat
    requires i <= |s|
  {
    if i == 0 then 0 else SumTo(s, i - 1) + s[i - 1]
  }

  /** The lengths of a sequence of blocks. */
  function Lengths<T>(parts: seq<seq<T>>): (r: seq<nat>)
    ensures |r| == |parts| && forall i :: 0 <= i < |parts| ==> r[i] == |parts[i]|
  {
    seq(|parts|, i requires 0 <= i < |parts| => |parts[i]|)
  }

  /** The blocks written one after the other. */
  function Concat<T>(parts: seq<seq<T>>): seq<T>
  {
    if parts == [] then [] else Concat(parts[..|parts| - 1]) + parts[|parts| - 1]
  }

  lemma ConcatSnoc<T>(parts: seq<seq<T>>, p: seq<T>)
    ensures Concat(parts + [p]) == Concat(parts) + p
  {
    assert (parts + [p])[..|parts|] == parts;
  }

  lemma {:induction false} ConcatLength<T>(parts: seq<seq<T>>)
    ensures |Concat(parts)| == SumTo(Lengths(parts), |parts|)
  {
    if parts != [] {
      var init := parts[..|parts| - 1];
      ConcatLength(init);
      SumToPrefix(Lengths(parts), Lengths(init), |init|);
    }
  }

  /** Block `i` sits in the concatenation right after the blocks before it. */
  lemma {:induction false} ConcatAt<T>(parts: seq<seq<T>>, i: nat)
    requires i < |parts|
    ensures SumTo(Lengths(parts), i) + |parts[i]| <= |Concat(parts)|
    ensures Concat(parts)[SumTo(Lengths(parts), i)..SumTo(Lengths(parts), i) + |parts[i]|] == parts[i]
  {
    var init := parts[..|parts| - 1];
    ConcatLength(init);
    if i == |parts| - 1 {
      SumToPrefix(Lengths(parts), Lengths(init), i);
    } else {
      ConcatAt(init, i);
      SumToPrefix(Lengths(parts), Lengths(init), i);
      SumToPrefix(Lengths(parts), Lengths(init), i + 1);
      SumToMonotone(Lengths(init), i + 1, |init|);
      assert Concat(parts) == Concat(init) + parts[|parts| - 1];
    }
  }

  /** Two sequences that agree on their first `i` elements have the same prefix sum. */
  lemma {:induction false} SumToPrefix(s: seq<nat>, t: seq<nat>, i: nat)
    requires i <= |s| && i <= |t| && s[..i] == t[..i]
    ensures SumTo(s, i) == SumTo(t, i)
  {
    if i > 0 {
      assert s[..i - 1] == s[..i][..i - 1] && t[..i - 1] == t[..i][..i - 1];
      assert s[i - 1] == s[..i][i - 1];
      SumToPrefix(s, t, i - 1);
    }
  }

  lemma {:induction false} SumToMonotone(s: seq<nat>, i: nat, j: nat)
    requires i <= j <= |s|
    ensures SumTo(s, i) <= SumTo(s, j)
  {
    if i < j {
      SumToMonotone(s, i, j - 1);
    }
  }
}

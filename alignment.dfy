/** Alignment of a stream payload to the 0x10 boundary the container uses
    (the `Align(ref wavContent, 0x10)` step of the repacker): the payload is
    extended with zero bytes up to the next multiple of 16. */
module Alignment {
  import opened Bytes

  const PayloadAlignment: nat := 0x10

  /** Number of zero bytes that bring a length `n` up to a multiple of 16. */
  function PaddingFor(n: nat): (p: nat)
    ensures (n + p) % PayloadAlignment == 0 && p < PayloadAlignment
  {
    (PayloadAlignment - n % PayloadAlignment) % PayloadAlignment
  }

  function Zeros(n: nat): (z: seq<byte>)
    ensures |z| == n && forall k :: 0 <= k < n ==> z[k] == 0
  {
    seq(n, _ => 0)
  }

  /** The payload followed by the fewest zero bytes that make its length a
      multiple of 16; an already aligned payload is returned unchanged. */
  function Align(s: seq<byte>): (r: seq<byte>)
    ensures |r| % PayloadAlignment == 0
    ensures |s| <= |r| < |s| + PayloadAlignment
    ensures r[..|s|] == s
    ensures forall k :: |s| <= k < |r| ==> r[k] == 0
  {
    s + Zeros(PaddingFor(|s|))
  }

  /** No shorter multiple of 16 can hold the payload: the padding is minimal. */
  lemma AlignMinimal(s: seq<byte>, n: nat)
    requires n % PayloadAlignment == 0 && |s| <= n
    ensures |Align(s)| <= n
  {
    var q := |s| / PayloadAlignment;
    assert |s| == PayloadAlignment * q + |s| % PayloadAlignment;
    if |s| % PayloadAlignment != 0 {
      assert n / PayloadAlignment > q;
    }
  }

  /** Aligning twice is aligning once. */
  lemma AlignIdempotent(s: seq<byte>)
    ensures Align(Align(s)) == Align(s)
  {
    var r := Align(s);
    assert PaddingFor(|r|) == 0;
    assert Zeros(0) == [];
  }
}

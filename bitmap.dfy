/** The pixel fix-up done after a 24-bit BMP image is read: the bytes of
    each pixel arrive blue, green, red, and the loop swaps the first and the
    third byte of every triple in place to give red, green, blue. */
module Bitmap {
  newtype byte = x: int | 0 <= x < 256

  /** The byte that lands at position `i` once every triple is reversed. */
  function SwappedAt(s: seq<byte>, i: nat): byte
    requires |s| % 3 == 0 && i < |s|
  {
    if i % 3 == 0 then s[i + 2] else if i % 3 == 2 then s[i - 2] else s[i]
  }

  /** The buffer with the first and third byte of every triple exchanged. */
  function SwapRB(s: seq<byte>): (r: seq<byte>)
    requires |s| % 3 == 0
    ensures |r| == |s|
    ensures forall i :: 0 <= i < |s| && i % 3 == 1 ==> r[i] == s[i]
    ensures forall p :: 0 <= p < |s| / 3 ==> r[3 * p] == s[3 * p + 2] && r[3 * p + 2] == s[3 * p]
  {
    seq(|s|, i requires 0 <= i < |s| => SwappedAt(s, i))
  }

  /** Swapping twice gives back the buffer. */
  lemma SwapRBInvolution(s: seq<byte>)
    requires |s| % 3 == 0
    ensures SwapRB(SwapRB(s)) == s
  {
    var r := SwapRB(SwapRB(s));
    forall i | 0 <= i < |s|
      ensures r[i] == s[i]
    {
      assert SwapRB(SwapRB(s))[i] == SwappedAt(SwapRB(s), i);
    }
  }

  /** The swap moves bytes only within their own pixel. */
  lemma SwapRBKeepsPixels(s: seq<byte>, p: nat)
    requires |s| % 3 == 0 && 3 * p + 3 <= |s|
    ensures SwapRB(s)[3 * p .. 3 * p + 3] == [s[3 * p + 2], s[3 * p + 1], s[3 * p]]
  {
    var r := SwapRB(s);
    assert r[3 * p] == s[3 * p + 2];
    assert r[3 * p + 1] == s[3 * p + 1];
    assert r[3 * p + 2] == s[3 * p];
  }

  /** The loop of `getBMPData`: for every `i` stepping by 3, exchange
      `data[i]` and `data[i + 2]` through a temporary. */
  method ReverseChannels(data: array<byte>)
    requires data.Length % 3 == 0
    modifies data
    ensures data[..] == SwapRB(old(data[..]))
  {
    ghost var original := data[..];
    var i := 0;
    while i < data.Length
      invariant 0 <= i <= data.Length && i % 3 == 0
      invariant forall k :: 0 <= k < i ==> data[k] == SwapRB(original)[k]
      invariant forall k :: i <= k < data.Length ==> data[k] == original[k]
    {
      var temp := data[i];
      data[i] := data[i + 2];
      data[i + 2] := temp;
      i := i + 3;
    }
    assert data[..] == SwapRB(original);
  }
}

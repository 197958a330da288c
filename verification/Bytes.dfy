/** Byte strings, big-endian integers and concatenations of chunks. */
module Bytes {
  type byte = b: int | 0 <= b < 256

  datatype Option<+T> = None | Some(value: T)

  function Min(a: nat, b: nat): nat {
    if a <= b then a else b
  }

  /** The first `n` elements of `s`, or all of `s` when it is shorter. */
  function Take<T>(s: seq<T>, n: nat): (r: seq<T>)
    ensures |r| == Min(n, |s|)
  {
    s[..Min(n, |s|)]
  }

  function Pow256(w: nat): (p: nat)
    ensures p >= 1
  {
    if w == 0 then 1 else 256 * Pow256(w - 1)
  }

  /** `v` in network byte order on `w` bytes; like the unsigned casts of the
      source it keeps only the low bytes of a value that does not fit. */
  function PutBe(v: nat, w: nat): (s: seq<byte>)
    ensures |s| == w
  {
    if w == 0 then [] else PutBe(v / 256, w - 1) + [v % 256]
  }

  function GetBe(s: seq<byte>): (v: nat)
    ensures v < Pow256(|s|)
  {
    if s == [] then 0 else 256 * GetBe(s[..|s| - 1]) + s[|s| - 1]
  }

  lemma {:induction false} GetPutBe(v: nat, w: nat)
    requires v < Pow256(w)
    ensures GetBe(PutBe(v, w)) == v
  {
    if w > 0 {
      assert PutBe(v, w)[..w - 1] == PutBe(v / 256, w - 1);
      GetPutBe(v / 256, w - 1);
    }
  }

  function Zeros(n: nat): (s: seq<byte>)
    ensures |s| == n
  {
    seq(n, _ => 0)
  }

  function Flatten(chunks: seq<seq<byte>>): seq<byte> {
    if chunks == [] then [] else chunks[0] + Flatten(chunks[1..])
  }

  function Sum(sizes: seq<nat>): nat {
    if sizes == [] then 0 else sizes[0] + Sum(sizes[1..])
  }
}

/** Byte strings, and the few byte-buffer operations that the codecs are written with. */
module Bytes {

  type Byte = b: int | 0 <= b < 0x100

  type UInt64 = n: int | 0 <= n < 0x1_0000_0000_0000_0000

  const NUL: Byte := 0
  const QUOTE: Byte := 34
  const DOT: Byte := 46

  /** The first position of `b` in `s`, or -1. */
  function IndexByte(s: seq<Byte>, b: Byte): (i: int)
    ensures -1 <= i < |s|
    ensures i == -1 <==> b !in s
    ensures i >= 0 ==> s[i] == b && b !in s[..i]
  {
    if s == [] then -1
    else if s[0] == b then 0
    else
      var i := IndexByte(s[1..], b);
      if i == -1 then -1
      else
        assert s[..i + 1] == [s[0]] + s[1..][..i];
        i + 1
  }

  /** The position that the postcondition of IndexByte describes is unique. */
  lemma IndexByteIs(s: seq<Byte>, b: Byte, i: nat)
    requires i < |s| && s[i] == b && b !in s[..i]
    ensures IndexByte(s, b) == i
  {
    var j := IndexByte(s, b);
    assert j != -1;
    assert forall k | 0 <= k < i :: s[k] == s[..i][k];
    assert forall k | 0 <= k < j :: s[k] == s[..j][k];
  }

  function Zeros(n: nat): seq<Byte> {
    seq(n, _ => NUL)
  }

  /** `dst` after `src` has been copied over it from position `at`; what does not fit is dropped. */
  function Overlay(dst: seq<Byte>, at: nat, src: seq<Byte>): (r: seq<Byte>)
    requires at <= |dst|
    ensures |r| == |dst|
  {
    var n := if |src| <= |dst| - at then |src| else |dst| - at;
    dst[..at] + src[..n] + dst[at + n..]
  }

  /** Copies `src` into the buffer from position `at` and stops at the shorter end. */
  method Copy(dst: array<Byte>, at: nat, src: seq<Byte>)
    requires at <= dst.Length
    modifies dst
    ensures dst[..] == Overlay(old(dst[..]), at, src)
  {
    var n := if |src| <= dst.Length - at then |src| else dst.Length - at;
    var i := 0;
    while i < n
      invariant 0 <= i <= n
      invariant dst[at..at + i] == src[..i]
      invariant dst[..at] == old(dst[..at]) && dst[at + i..] == old(dst[at + i..])
    {
      dst[at + i] := src[i];
      i := i + 1;
    }
    assert dst[..] == dst[..at] + dst[at..at + n] + dst[at + n..];
  }
}

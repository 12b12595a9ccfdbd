/** Byte strings and the big-endian numbers they spell. */
module Bytes {
  type byte = x: int | 0 <= x < 256

  /** The number whose base-256 digits are `s`, most significant first. */
  function BigEndian(s: seq<byte>): (v: nat) {
    if s == [] then 0 else 256 * BigEndian(s[..|s| - 1]) + s[|s| - 1]
  }

  lemma {:induction false} BigEndianAppend(s: seq<byte>, b: byte)
    ensures BigEndian(s + [b]) == 256 * BigEndian(s) + b
  {
    assert (s + [b])[..|s|] == s;
  }

  lemma {:induction false} BigEndianPrefix(s: seq<byte>, n: nat)
    requires n < |s|
    ensures BigEndian(s[..n + 1]) == 256 * BigEndian(s[..n]) + s[n]
  {
    assert s[..n + 1] == s[..n] + [s[n]];
    BigEndianAppend(s[..n], s[n]);
  }

  function Repeat(b: byte, n: nat): (s: seq<byte>)
    ensures |s| == n && forall i :: 0 <= i < n ==> s[i] == b
  {
    seq(n, _ => b)
  }

  /** Adding one to a number that ends in `n` digits 255 clears them and carries into the digit before. */
  lemma {:induction false} CarryRipples(prefix: seq<byte>, digit: byte, n: nat)
    requires digit < 255
    ensures BigEndian(prefix + [digit + 1] + Repeat(0, n))
         == BigEndian(prefix + [digit] + Repeat(255, n)) + 1
  {
    if n == 0 {
      assert prefix + [digit + 1] + Repeat(0, 0) == prefix + [digit + 1];
      assert prefix + [digit] + Repeat(255, 0) == prefix + [digit];
      BigEndianAppend(prefix, digit + 1);
      BigEndianAppend(prefix, digit);
    } else {
      CarryRipples(prefix, digit, n - 1);
      assert prefix + [digit + 1] + Repeat(0, n) == (prefix + [digit + 1] + Repeat(0, n - 1)) + [0];
      assert prefix + [digit] + Repeat(255, n) == (prefix + [digit] + Repeat(255, n - 1)) + [255];
      BigEndianAppend(prefix + [digit + 1] + Repeat(0, n - 1), 0);
      BigEndianAppend(prefix + [digit] + Repeat(255, n - 1), 255);
    }
  }
}

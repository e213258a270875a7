/**
 What several parts of the model share.
 */
module Basics {
  /** The limit on service threads (`ld_preload.h`). */
  const MAXTHREAD := 65535

  predicate Distinct<T(==)>(s: seq<T>) {
    forall i, j :: 0 <= i < j < |s| ==> s[i] != s[j]
  }

  predicate Fits32(x: int) {
    -0x8000_0000 <= x < 0x8000_0000
  }

  /** A conversion to a 32-bit signed integer. */
  function Trunc32(x: int): int {
    var low := x % 0x1_0000_0000;
    if low < 0x8000_0000 then low else low - 0x1_0000_0000
  }

  lemma Trunc32Iff(x: int)
    ensures Trunc32(x) == x <==> Fits32(x)
  {
    if 0 <= x < 0x8000_0000 {
      assert x % 0x1_0000_0000 == x;
    } else if -0x8000_0000 <= x < 0 {
      assert (x + 0x1_0000_0000) % 0x1_0000_0000 == x % 0x1_0000_0000;
    }
  }

  /** A conversion gives the one 32-bit value that differs by a multiple of 2^32. */
  lemma Trunc32Wraps(x: int)
    ensures -0x8000_0000 <= Trunc32(x) < 0x8000_0000
    ensures (x - Trunc32(x)) % 0x1_0000_0000 == 0
  {
  }

  lemma Scale(a: int, b: int, n: int)
    requires a <= b && n >= 0
    ensures a * n <= b * n
  {
  }
}

/** Option and the kernel's fixed-width counters. */
module Wrappers {

  datatype Option<+T> = None | Some(value: T)

  /** `unsigned int`, and `unsigned long` or `u64`. */
  type U32 = x: int | 0 <= x < 0x1_0000_0000
  type U64 = x: int | 0 <= x < 0x1_0000_0000_0000_0000

  function Inc32(x: U32): U32 { (x + 1) % 0x1_0000_0000 }
  function Inc64(x: U64): U64 { (x + 1) % 0x1_0000_0000_0000_0000 }
  function Dec64(x: U64): U64 { (x - 1) % 0x1_0000_0000_0000_0000 }

  /** A common factor cancels. */
  lemma Cancel(d: nat, x: nat, y: nat)
    requires d * x < d * y
    ensures x < y
  {
    assert d * (y - x) == d * y - d * x > 0;
  }

  /** A member of a list without duplicates occurs in it once. */
  lemma OnceInDistinct<T>(l: seq<T>, x: T)
    requires x in l && forall i, j :: 0 <= i < j < |l| ==> l[i] != l[j]
    ensures multiset(l)[x] == 1
  {
    var i :| 0 <= i < |l| && l[i] == x;
    assert l == l[..i] + [x] + l[i + 1..];
    assert x !in l[..i] && x !in l[i + 1..];
    assert multiset(l)[x] == multiset(l[..i])[x] + multiset([x])[x] + multiset(l[i + 1..])[x];
  }
}

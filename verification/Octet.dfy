/** Octets as numbers, for the codecs whose fields are lengths, counts and bit fields. */
module Octet {
  type Octet = x: int | 0 <= x < 256
  type Octets = seq<Octet>
  type Nibble = x: int | 0 <= x < 16

  function Min(a: nat, b: nat): nat { if a < b then a else b }

  function Word(high: nat, low: nat): nat { high * 256 + low }

  predicate SetBit(o: Octet, weight: nat)
    requires weight > 0
  {
    o / weight % 2 == 1
  }

  function Flag(b: bool, weight: nat): nat { if b then weight else 0 }

  lemma JoinSlices(s: Octets, a: nat, b: nat, c: nat)
    requires a <= b <= c <= |s|
    ensures s[a..b] + s[b..c] == s[a..c]
  {
  }

  lemma Regroup(a: Octets, b: Octets, c: Octets)
    ensures a + (b + c) == a + b + c
  {
  }
}

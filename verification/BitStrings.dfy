/** BIT STRING padding: the unused trailing bits of the last octet are cleared. */
module BitStrings {
  import opened Common

  /** Bit `b` of a number, bit 0 being the least significant. */
  function Bit(x: nat, b: nat): nat {
    if b == 0 then x % 2 else Bit(x / 2, b - 1)
  }

  /** `octet & (0xFF << padding)`: shift the low bits out, then zeros in. */
  function ClearLow(octet: Octet, padding: nat): (r: Octet)
    ensures r <= octet
  {
    if padding == 0 then octet else 2 * (ClearLow(octet as int / 2, padding - 1) as int)
  }

  /** The padding a BIT STRING of `length` octets may have. */
  predicate PaddingAllowed(length: nat, padding: int) {
    0 <= padding <= 7 && (length == 0 ==> padding == 0)
  }

  /** The data with the unused bits of its last octet cleared. */
  function ClearTrailing(data: Octets, padding: nat): Octets
    requires padding <= 7
  {
    if data == [] then [] else data[..|data| - 1] + [ClearLow(data[|data| - 1], padding)]
  }

  /** A BIT STRING as the converters leave it. */
  predicate Canonical(padding: int, data: Octets) {
    PaddingAllowed(|data|, padding) && ClearTrailing(data, padding) == data
  }

  lemma {:induction false} ClearLowBit(octet: Octet, padding: nat, b: nat)
    ensures Bit(ClearLow(octet, padding), b) == if b < padding then 0 else Bit(octet, b)
  {
    if padding > 0 && b > 0 {
      ClearLowBit(octet as int / 2, padding - 1, b - 1);
    }
  }

  lemma {:induction false} ClearLowTwice(octet: Octet, padding: nat)
    ensures ClearLow(ClearLow(octet, padding), padding) == ClearLow(octet, padding)
  {
    if padding > 0 {
      ClearLowTwice(octet as int / 2, padding - 1);
    }
  }

  /** Bit for bit: the trailing `padding` bits are zero, every other bit is as it was. */
  lemma ClearTrailingBits(data: Octets, padding: nat)
    requires PaddingAllowed(|data|, padding)
    ensures |ClearTrailing(data, padding)| == |data|
    ensures forall i, b: nat :: 0 <= i < |data| ==>
              Bit(ClearTrailing(data, padding)[i], b) ==
              if i == |data| - 1 && b < padding then 0 else Bit(data[i], b)
    ensures Canonical(padding, ClearTrailing(data, padding))
  {
    forall i, b: nat | 0 <= i < |data|
      ensures Bit(ClearTrailing(data, padding)[i], b) ==
              if i == |data| - 1 && b < padding then 0 else Bit(data[i], b)
    {
      if i == |data| - 1 {
        ClearLowBit(data[i], padding, b);
      }
    }
    if data != [] {
      ClearLowTwice(data[|data| - 1], padding);
      assert ClearTrailing(data, padding)[..|data| - 1] == data[..|data| - 1];
    }
  }

  /** The in-place form: only the last octet is rewritten. */
  method ClearInPlace(data: array<Octet>, padding: nat)
    requires padding <= 7
    modifies data
    ensures data[..] == ClearTrailing(old(data[..]), padding)
  {
    if data.Length > 0 {
      data[data.Length - 1] := ClearLow(data[data.Length - 1], padding);
    }
  }
}

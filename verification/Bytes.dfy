/** Big-endian numbers and slices, as Python's `bytes` has them. */
module Bytes {
  import opened Common

  /** `int.from_bytes(octets, "big")`. */
  function FromBytes(octets: Octets): nat {
    if octets == [] then 0 else FromBytes(octets[..|octets| - 1]) * 0x100 + octets[|octets| - 1] as int
  }

  /** `n.to_bytes(2, "big")`. */
  function ToBytes2(n: nat): Result<Octets> {
    if n <= 0xFFFF then Ok([n / 0x100, n % 0x100]) else Raised(OverflowError)
  }

  /** A slice: bounds past the end are cut off. */
  function Slice(buf: Octets, from: nat, to: nat): Octets
    requires from <= to
  {
    if from >= |buf| then [] else buf[from..if to <= |buf| then to else |buf|]
  }

  lemma FromOne(a: Octet)
    ensures FromBytes([a]) == a
  {
    assert [a][..0] == [];
  }

  lemma FromTwo(a: Octet, b: Octet)
    ensures FromBytes([a, b]) == a as int * 0x100 + b as int
  {
    FromOne(a);
    assert [a, b][..1] == [a];
  }

  lemma FromSnoc(octets: Octets, last: Octet)
    ensures FromBytes(octets + [last]) == FromBytes(octets) * 0x100 + last as int
  {
    assert (octets + [last])[..|octets|] == octets;
  }

  lemma ToBytes2Back(n: nat)
    requires ToBytes2(n).Ok?
    ensures |ToBytes2(n).value| == 2 && FromBytes(ToBytes2(n).value) == n
  {
    FromTwo(n / 0x100, n % 0x100);
  }

  function Power256(n: nat): nat {
    if n == 0 then 1 else 0x100 * Power256(n - 1)
  }

  /** The first octet weighs most. */
  lemma {:induction false} FirstWeighsMost(first: Octet, rest: Octets)
    ensures FromBytes([first] + rest) == first as int * Power256(|rest|) + FromBytes(rest)
  {
    if rest == [] {
      assert [first] + [] == [first];
      FromOne(first);
    } else {
      var init, last := rest[..|rest| - 1], rest[|rest| - 1];
      FirstWeighsMost(first, init);
      assert [first] + rest == [first] + init + [last];
      FromSnoc([first] + init, last);
    }
  }
}

/** MMS values, their Python counterparts, and the widths the two sides put on them. */
module MmsValues {
  import opened Common

  const I64_MIN := -0x8000_0000_0000_0000
  const I64_MAX := 0x7FFF_FFFF_FFFF_FFFF
  const U64_MAX := 0xFFFF_FFFF_FFFF_FFFF

  type I64 = i: int | I64_MIN <= i <= I64_MAX
  type U64 = i: int | 0 <= i <= U64_MAX
  type U8 = Octet

  /** Binary32 and binary64 numbers as terms. All that is known of them is that widening keeps a
      binary32 apart from every other and that narrowing undoes it; how any other binary64, or an
      integer, is rounded is left open. */
  datatype F32 = Single(bits: nat) | Rounded(double: F64)

  datatype F64 = Widened(single: F32) | Double(bits: nat) | OfInt(i: int)

  function Widen(f: F32): F64 { Widened(f) }

  function Narrow(d: F64): F32 {
    match d
    case Widened(f) => f
    case _ => Rounded(d)
  }

  datatype MmsValue =
    | Boolean(b: bool)
    | Integer(i: I64)
    | Unsigned(u: U64)
    | Float32(single: F32)
    | Float64(double: F64)
    | VisibleString(text: string)
    | MmsString(text: string)
    | OctetString(octets: Octets)
    | UtcTime(octets: Octets)
    | BinaryTime(octets: Octets)
    | BitString(padding: U8, data: Octets)
    | Array(items: seq<MmsValue>)
    | Structure(items: seq<MmsValue>)

  /** A dict key; only string keys are ever looked up. */
  datatype PyKey = Name(name: string) | OtherKey(id: nat)

  datatype PyValue =
    | PyNone
    | PyBool(b: bool)
    | PyInt(i: int)
    | PyFloat(d: F64)
    | PyStr(text: string)
    | PyBytes(octets: Octets)
    | PyByteArray(octets: Octets)
    | PyList(items: seq<PyValue>)
    | PyTuple(items: seq<PyValue>)
    | PyDict(entries: map<PyKey, PyValue>)
}

/** The UtcTime decoder of the facade: whole seconds, a 24-bit binary fraction, a quality octet. */
module UtcTime {
  import opened Common
  import opened Bytes

  const FRACTION_UNITS := 0x100_0000
  const MICROS_PER_SECOND := 1_000_000

  function Seconds(buf: Octets): nat
    requires |buf| == 8
  {
    FromBytes(buf[0..4])
  }

  function Fraction(buf: Octets): nat
    requires |buf| == 8
  {
    buf[4] as int * 0x1_0000 + buf[5] as int * 0x100 + buf[6] as int
  }

  /** A decoded instant: seconds since the epoch and microseconds within the second. */
  datatype Instant = Instant(seconds: nat, micros: nat) {
    function Total(): nat { seconds * MICROS_PER_SECOND + micros }
  }

  function Decode(buf: Octets): Result<Instant> {
    if |buf| != 8 then Raised(ValueError)
    else Ok(Instant(Seconds(buf), Fraction(buf) * MICROS_PER_SECOND / FRACTION_UNITS))
  }

  /** The first seven octets as one big-endian number: the instant in units of 2^-24 s. */
  function Timestamp(buf: Octets): nat
    requires |buf| == 8
  {
    FromBytes(buf[..7])
  }

  lemma TimestampParts(buf: Octets)
    requires |buf| == 8
    ensures Timestamp(buf) == Seconds(buf) * FRACTION_UNITS + Fraction(buf)
    ensures Fraction(buf) < FRACTION_UNITS
  {
    FromSnoc(buf[..4], buf[4]);
    FromSnoc(buf[..5], buf[5]);
    FromSnoc(buf[..6], buf[6]);
    assert buf[..5] == buf[..4] + [buf[4]] && buf[..6] == buf[..5] + [buf[5]] && buf[..7] == buf[..6] + [buf[6]];
    assert buf[0..4] == buf[..4];
  }

  /** The decoded instant is the exact one rounded down to a whole microsecond, and carries no overflow
      of microseconds into the next second. */
  lemma DecodeIsTight(buf: Octets)
    requires |buf| == 8
    ensures var t := Decode(buf).value;
            && t.micros < MICROS_PER_SECOND
            && t.Total() * FRACTION_UNITS <= Timestamp(buf) * MICROS_PER_SECOND < (t.Total() + 1) * FRACTION_UNITS
  {
    TimestampParts(buf);
    var scaled := Fraction(buf) * MICROS_PER_SECOND;
    assert scaled == scaled / FRACTION_UNITS * FRACTION_UNITS + scaled % FRACTION_UNITS;
  }

  /** Later octets never decode to an earlier instant, whatever the quality octets say. */
  lemma DecodeIsMonotone(a: Octets, b: Octets)
    requires |a| == 8 && |b| == 8 && Timestamp(a) <= Timestamp(b)
    ensures Decode(a).value.Total() <= Decode(b).value.Total()
  {
    DecodeIsTight(a);
    DecodeIsTight(b);
  }

  /** The smallest fraction that decodes to `micros`. */
  function FractionFor(micros: nat): (fraction: nat)
    requires micros < MICROS_PER_SECOND
    ensures fraction < FRACTION_UNITS
  {
    (micros * FRACTION_UNITS + (MICROS_PER_SECOND - 1)) / MICROS_PER_SECOND
  }

  function BigEndian4(n: nat): (octets: Octets)
    requires n <= U32_MAX
    ensures |octets| == 4 && FromBytes(octets) == n
  {
    var high, low := n / 0x1_0000, n % 0x1_0000;
    FromTwo(high / 0x100, high % 0x100);
    FromSnoc([high / 0x100, high % 0x100], low / 0x100);
    FromSnoc([high / 0x100, high % 0x100, low / 0x100], low % 0x100);
    assert [high / 0x100, high % 0x100] + [low / 0x100] == [high / 0x100, high % 0x100, low / 0x100];
    assert [high / 0x100, high % 0x100, low / 0x100] + [low % 0x100] ==
           [high / 0x100, high % 0x100, low / 0x100, low % 0x100];
    [high / 0x100, high % 0x100, low / 0x100, low % 0x100]
  }

  function Encode(t: Instant, quality: Octet): (buf: Octets)
    requires t.seconds <= U32_MAX && t.micros < MICROS_PER_SECOND
    ensures |buf| == 8
  {
    var f := FractionFor(t.micros);
    BigEndian4(t.seconds) + [f / 0x1_0000, f / 0x100 % 0x100, f % 0x100, quality]
  }

  /** Every instant of the wire's range, to the microsecond, is decoded from some eight octets. */
  lemma EveryInstantIsDecoded(t: Instant, quality: Octet)
    requires t.seconds <= U32_MAX && t.micros < MICROS_PER_SECOND
    ensures Decode(Encode(t, quality)) == Ok(t)
  {
    var buf, f := Encode(t, quality), FractionFor(t.micros);
    assert buf[0..4] == BigEndian4(t.seconds);
    assert Fraction(buf) == f;
    assert t.micros * FRACTION_UNITS <= f * MICROS_PER_SECOND < (t.micros + 1) * FRACTION_UNITS;
  }

  /** Eight octets are taken, no other number. */
  lemma EightOctets(buf: Octets)
    ensures Decode(buf).Ok? <==> |buf| == 8
    ensures Decode(buf).Raised? ==> Decode(buf) == Raised(ValueError)
  {
  }
}

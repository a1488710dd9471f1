/** The BER codec of the loopback peer: definite-length TLVs (X.690 sections 8.1.2 and 8.1.3) and the MMS PDU
    inside a session DATA SPDU. */
module Ber {
  import opened Common
  import opened Bytes

  // Encoding.

  function LengthOctets(n: nat): Result<Octets> {
    if n < 0x80 then Ok([n])
    else if n <= 0xFF then Ok([0x81, n])
    else
      var two :- ToBytes2(n);
      Ok([0x82] + two)
  }

  function Tlv(tag: Octets, value: Octets): Result<Octets> {
    var length :- LengthOctets(|value|);
    Ok(tag + length + value)
  }

  /** The identifier octets of X.690 section 8.1.2: one octet, or a leading octet with all five number bits
      set and a run of continuation octets ended by one without bit 8. */
  predicate IsTag(tag: Octets) {
    && tag != []
    && if tag[0] % 0x20 != 0x1F then |tag| == 1
       else |tag| > 1 && tag[|tag| - 1] < 0x80 && forall i :: 1 <= i < |tag| - 1 ==> tag[i] >= 0x80
  }

  // Decoding.

  datatype Read = Read(tag: Octet, value: Octets, end: nat)

  /** The end of the run of continuation octets at `pos`, past its last octet. */
  function SkipContinuation(buf: Octets, pos: nat): (r: Result<nat>)
    ensures r.Ok? ==> pos < r.value <= |buf|
    decreases |buf| - pos
  {
    if pos >= |buf| then Raised(IndexError)
    else if buf[pos] >= 0x80 then SkipContinuation(buf, pos + 1)
    else Ok(pos + 1)
  }

  /** Where the length starts after the identifier octets at `pos`. */
  function IdentifierEnd(buf: Octets, pos: nat): (r: Result<nat>)
    ensures r.Ok? ==> pos < r.value <= |buf|
  {
    if pos >= |buf| then Raised(IndexError)
    else if buf[pos] % 0x20 == 0x1F then SkipContinuation(buf, pos + 1)
    else Ok(pos + 1)
  }

  /** Where the value starts, and its length, after the length octets at `pos`. */
  function ReadLength(buf: Octets, pos: nat): (r: Result<(nat, nat)>)
    ensures r.Ok? ==> pos < r.value.0
  {
    if pos >= |buf| then Raised(IndexError)
    else if buf[pos] < 0x80 then Ok((pos + 1, buf[pos]))
    else
      var valueAt := pos + 1 + buf[pos] as int % 0x80;
      Ok((valueAt, FromBytes(Slice(buf, pos + 1, valueAt))))
  }

  /** What `read_tlv` answers; it advances by at least two octets. */
  function ReadTlv(buf: Octets, pos: nat): (r: Result<Read>)
    ensures r.Ok? ==> pos + 2 <= r.value.end
  {
    match IdentifierEnd(buf, pos)
    case Raised(e) => Raised(e)
    case Ok(lengthAt) =>
      match ReadLength(buf, lengthAt)
      case Raised(e) => Raised(e)
      case Ok((valueAt, length)) => Ok(Read(buf[pos], Slice(buf, valueAt, valueAt + length), valueAt + length))
  }

  /** Moves past the identifier octets. */
  method SkipIdentifier(buf: Octets, start: nat) returns (r: Result<nat>)
    ensures r == IdentifierEnd(buf, start)
  {
    if start >= |buf| {
      return Raised(IndexError);
    }
    var pos := start + 1;
    if buf[start] % 0x20 == 0x1F {
      while pos < |buf| && buf[pos] >= 0x80
        invariant start < pos
        invariant SkipContinuation(buf, start + 1) == SkipContinuation(buf, pos)
        decreases |buf| - pos
      {
        pos := pos + 1;
      }
      if pos >= |buf| {
        return Raised(IndexError);
      }
      pos := pos + 1;
    }
    r := Ok(pos);
  }

  method ReadTlvAt(buf: Octets, start: nat) returns (r: Result<Read>)
    ensures r == ReadTlv(buf, start)
  {
    var skipped := SkipIdentifier(buf, start);
    if skipped.Raised? {
      return Raised(skipped.error);
    }
    var pos := skipped.value;
    if pos >= |buf| {
      return Raised(IndexError);
    }
    var first := buf[pos];
    pos := pos + 1;
    var length: nat := first;
    if first >= 0x80 {
      var count := first as int % 0x80;
      length := FromBytes(Slice(buf, pos, pos + count));
      pos := pos + count;
    }
    r := Ok(Read(buf[start], Slice(buf, pos, pos + length), pos + length));
  }

  // Round trip in context.

  lemma {:induction false} SkipTag(buf: Octets, start: nat, tag: Octets, i: nat)
    requires IsTag(tag) && 1 <= i < |tag|
    requires start + |tag| <= |buf| && buf[start..start + |tag|] == tag
    ensures SkipContinuation(buf, start + i) == Ok(start + |tag|)
    decreases |tag| - i
  {
    assert buf[start + i] == buf[start..start + |tag|][i];
    if i < |tag| - 1 {
      SkipTag(buf, start, tag, i + 1);
    }
  }

  lemma IdentifierInContext(buf: Octets, start: nat, tag: Octets)
    requires IsTag(tag) && start + |tag| <= |buf| && buf[start..start + |tag|] == tag
    ensures IdentifierEnd(buf, start) == Ok(start + |tag|) && buf[start] == tag[0]
  {
    assert buf[start] == buf[start..start + |tag|][0];
    if tag[0] % 0x20 == 0x1F {
      SkipTag(buf, start, tag, 1);
    }
  }

  lemma LengthInContext(buf: Octets, at: nat, n: nat)
    requires LengthOctets(n).Ok?
    requires var octets := LengthOctets(n).value; at + |octets| <= |buf| && buf[at..at + |octets|] == octets
    ensures ReadLength(buf, at) == Ok((at + |LengthOctets(n).value|, n))
  {
    var octets := LengthOctets(n).value;
    assert buf[at..at + |octets|][0] == buf[at];
    if n >= 0x80 {
      assert Slice(buf, at + 1, at + |octets|) == octets[1..];
      if n > 0xFF {
        ToBytes2Back(n);
        assert octets[1..] == ToBytes2(n).value;
      } else {
        FromOne(n);
        assert octets[1..] == [n];
      }
    }
  }

  /** Reading at the start of an encoding, wherever it stands, gives back the leading tag octet, the value and
      the exact end, for one-octet and longer tags and all three forms of length. */
  lemma ReadTlvInContext(prefix: Octets, tag: Octets, value: Octets, suffix: Octets)
    requires IsTag(tag) && Tlv(tag, value).Ok?
    ensures var encoded := Tlv(tag, value).value;
            ReadTlv(prefix + encoded + suffix, |prefix|) == Ok(Read(tag[0], value, |prefix| + |encoded|))
  {
    var length := LengthOctets(|value|).value;
    var buf := prefix + (tag + length + value) + suffix;
    var lengthAt := |prefix| + |tag|;
    var valueAt := lengthAt + |length|;
    PartsInContext(prefix, tag, length, value, suffix);
    IdentifierInContext(buf, |prefix|, tag);
    LengthInContext(buf, lengthAt, |value|);
    ReadFromParts(buf, |prefix|, lengthAt, valueAt, |value|, value);
  }

  lemma Regroup(a: Octets, b: Octets, c: Octets)
    ensures a + (b + c) == a + b + c
  {
  }

  lemma PartsInContext(prefix: Octets, a: Octets, b: Octets, c: Octets, suffix: Octets)
    ensures var buf := prefix + (a + b + c) + suffix;
            var start, second, third := |prefix|, |prefix| + |a|, |prefix| + |a| + |b|;
            && buf[start..second] == a && buf[second..third] == b && Slice(buf, third, third + |c|) == c
  {
  }

  /** The encoder refuses exactly the values whose length needs more than two octets. */
  lemma TlvAccepts(tag: Octets, value: Octets)
    ensures Tlv(tag, value).Ok? <==> |value| <= 0xFFFF
    ensures Tlv(tag, value).Raised? ==> Tlv(tag, value) == Raised(OverflowError)
    ensures Tlv(tag, value).Ok? ==> |tag| + |value| + 1 <= |Tlv(tag, value).value| <= |tag| + |value| + 3
  {
  }

  // A PDV and the scan for its single-ASN1-type data.

  datatype Field = Field(tag: Octets, value: Octets)

  ghost predicate Encodable(fields: seq<Field>) {
    forall f <- fields :: IsTag(f.tag) && Tlv(f.tag, f.value).Ok?
  }

  function Concat(fields: seq<Field>): Octets
    requires Encodable(fields)
  {
    if fields == [] then [] else Tlv(fields[0].tag, fields[0].value).value + Concat(fields[1..])
  }

  const SINGLE_ASN1_TYPE: Octet := 0xA0

  /** The scan of `mms_of` from `pos`: the value of the first field tagged 0xA0. */
  function Scan(pdv: Octets, pos: nat): Result<Octets>
    decreases |pdv| - pos
  {
    if pos >= |pdv| then Raised(ValueError)
    else
      match ReadTlv(pdv, pos)
      case Raised(e) => Raised(e)
      case Ok(field) => if field.tag == SINGLE_ASN1_TYPE then Ok(field.value) else Scan(pdv, field.end)
  }

  /** `SPDU_DATA`: GIVE-TOKENS then DATA TRANSFER. */
  const SPDU_DATA: Octets := [0x01, 0x00, 0x01, 0x00]

  function MmsOf(spdu: Octets): Result<Octets> {
    var userData :- ReadTlv(spdu, |SPDU_DATA|);
    var pdv :- ReadTlv(userData.value, 0);
    Scan(pdv.value, 0)
  }

  method ExtractMms(spdu: Octets) returns (r: Result<Octets>)
    ensures r == MmsOf(spdu)
  {
    var userData := ReadTlvAt(spdu, |SPDU_DATA|);
    if userData.Raised? {
      return Raised(userData.error);
    }
    var list := ReadTlvAt(userData.value.value, 0);
    if list.Raised? {
      return Raised(list.error);
    }
    var pdv := list.value.value;
    var pos := 0;
    while pos < |pdv|
      invariant Scan(pdv, pos) == Scan(pdv, 0)
      decreases |pdv| - pos
    {
      var field := ReadTlvAt(pdv, pos);
      if field.Raised? {
        return Raised(field.error);
      }
      pos := field.value.end;
      if field.value.tag == SINGLE_ASN1_TYPE {
        return Ok(field.value.value);
      }
    }
    r := Raised(ValueError);
  }

  /** The value of the first field whose tag starts with 0xA0, if there is one. */
  function FirstData(fields: seq<Field>): Result<Octets>
    requires forall f <- fields :: f.tag != []
  {
    if fields == [] then Raised(ValueError)
    else if fields[0].tag[0] == SINGLE_ASN1_TYPE then Ok(fields[0].value)
    else FirstData(fields[1..])
  }

  lemma ScanOne(pdv: Octets, pos: nat, field: Read)
    requires pos < |pdv| && ReadTlv(pdv, pos) == Ok(field)
    ensures Scan(pdv, pos) == if field.tag == SINGLE_ASN1_TYPE then Ok(field.value) else Scan(pdv, field.end)
  {
  }

  /** On any run of encoded fields the scan stops at field boundaries only. */
  lemma {:induction false} ScanFindsFirst(before: Octets, fields: seq<Field>)
    requires Encodable(fields)
    ensures Scan(before + Concat(fields), |before|) == FirstData(fields)
    decreases fields
  {
    if fields != [] {
      var first, encoded, rest := fields[0], Tlv(fields[0].tag, fields[0].value).value, Concat(fields[1..]);
      var pdv := before + encoded + rest;
      Regroup(before, encoded, rest);
      TlvAccepts(first.tag, first.value);
      ReadTlvInContext(before, first.tag, first.value, rest);
      ScanOne(pdv, |before|, Read(first.tag[0], first.value, |before + encoded|));
      if first.tag[0] != SINGLE_ASN1_TYPE {
        ScanFindsFirst(before + encoded, fields[1..]);
      }
    }
  }

  /** `presentation_data`: one PDV of the context `context`. */
  function PresentationData(context: Octet, payload: Octets): Result<Octets> {
    var identifier :- Tlv([0x02], [context]);
    var data :- Tlv([0xA0], payload);
    var list :- Tlv([0x30], identifier + data);
    Tlv([0x61], list)
  }

  /** A payload can be sent exactly when it has at most 65524 octets, and then comes back from the session
      data SPDU that carries it, whatever its context. */
  lemma PayloadRoundTrip(context: Octet, payload: Octets)
    ensures PresentationData(context, payload).Ok? <==> |payload| <= 65524
    ensures PresentationData(context, payload).Raised? ==> PresentationData(context, payload) == Raised(OverflowError)
    ensures PresentationData(context, payload).Ok? ==>
            MmsOf(SPDU_DATA + PresentationData(context, payload).value) == Ok(payload)
  {
    TlvAccepts([0xA0], payload);
    if |payload| <= 0xFFFF {
      var fields := [Field([0x02], [context]), Field([0xA0], payload)];
      var pdv := Tlv([0x02], [context]).value + Tlv([0xA0], payload).value;
      TlvAccepts([0x30], pdv);
      if |pdv| <= 0xFFFF {
        var list := Tlv([0x30], pdv).value;
        TlvAccepts([0x61], list);
        if |list| <= 0xFFFF {
          var data := Tlv([0x61], list).value;
          ReadTlvInContext(SPDU_DATA, [0x61], list, []);
          assert SPDU_DATA + data + [] == SPDU_DATA + data;
          ReadTlvInContext([], [0x30], pdv, []);
          assert [] + list + [] == list;
          assert fields[1..] == [fields[1]];
          assert Concat([fields[1]]) == Tlv([0xA0], payload).value + Concat([]);
          assert pdv == Concat(fields);
          ScanFindsFirst([], fields);
          assert [] + pdv == pdv;
        }
      }
    }
  }

  // The octets themselves.

  /** The length octets are the shortest of X.690 section 8.1.3 for lengths below 65536: the length itself below 128,
      else the number of octets that follow, with bit 8 set, and the length in as few octets as it takes. */
  lemma LengthIsShortest(n: nat)
    ensures LengthOctets(n).Ok? <==> n <= 0xFFFF
    ensures n < 0x80 ==> LengthOctets(n).value == [n]
    ensures LengthOctets(n).Ok? && n >= 0x80 ==>
              var octets := LengthOctets(n).value;
              && |octets| >= 2 && octets[0] as int == 0x80 + |octets| - 1 && octets[1] != 0
              && FromBytes(octets[1..]) == n
  {
    if 0x80 <= n <= 0xFF {
      FromOne(n);
      assert LengthOctets(n).value[1..] == [n];
    } else if 0xFF < n <= 0xFFFF {
      ToBytes2Back(n);
      assert LengthOctets(n).value[1..] == ToBytes2(n).value;
    }
  }

  /** Any length octets of X.690 section 8.1.3 are read, shortest or not: one below 128, or the number of the octets
      that follow, with bit 8 set, and the length. */
  lemma LengthRead(before: Octets, first: Octet, octets: Octets, after: Octets)
    requires first >= 0x80 ==> |octets| == first as int - 0x80
    requires first < 0x80 ==> octets == []
    ensures ReadLength(before + [first] + octets + after, |before|) ==
            Ok((|before| + 1 + |octets|, if first < 0x80 then first as int else FromBytes(octets)))
  {
    LengthParts(before, first, octets, after);
    LengthReadAt(before + [first] + octets + after, |before|, first, octets);
  }

  lemma LengthReadAt(buf: Octets, at: nat, first: Octet, octets: Octets)
    requires at < |buf| && buf[at] == first && Slice(buf, at + 1, at + 1 + |octets|) == octets
    requires first >= 0x80 ==> |octets| == first as int - 0x80
    requires first < 0x80 ==> octets == []
    ensures ReadLength(buf, at) == Ok((at + 1 + |octets|, if first < 0x80 then first as int else FromBytes(octets)))
  {
    if first >= 0x80 {
      assert first as int % 0x80 == |octets|;
    }
  }

  lemma LengthParts(before: Octets, first: Octet, octets: Octets, after: Octets)
    ensures var buf := before + [first] + octets + after;
            buf[|before|] == first && Slice(buf, |before| + 1, |before| + 1 + |octets|) == octets
  {
  }

  lemma ReadFromParts(buf: Octets, start: nat, lengthAt: nat, valueAt: nat, length: nat, value: Octets)
    requires start < |buf| && IdentifierEnd(buf, start) == Ok(lengthAt)
    requires ReadLength(buf, lengthAt) == Ok((valueAt, length)) && Slice(buf, valueAt, valueAt + length) == value
    ensures ReadTlv(buf, start) == Ok(Read(buf[start], value, valueAt + length))
  {
  }

  /** An encoding that breaks off inside its value is read with what is there of it, up to the end it announces. */
  lemma CutInValue(prefix: Octets, tag: Octets, value: Octets, k: nat)
    requires IsTag(tag) && Tlv(tag, value).Ok? && k <= |value|
    ensures var length := LengthOctets(|value|).value;
            ReadTlv(prefix + tag + length + value[..k], |prefix|) ==
            Ok(Read(tag[0], value[..k], |prefix| + |tag| + |length| + |value|))
  {
    var length := LengthOctets(|value|).value;
    var buf := prefix + tag + length + value[..k];
    var lengthAt := |prefix| + |tag|;
    CutParts(prefix, tag, length, value[..k], |value|);
    IdentifierInContext(buf, |prefix|, tag);
    LengthInContext(buf, lengthAt, |value|);
    ReadFromParts(buf, |prefix|, lengthAt, lengthAt + |length|, |value|, value[..k]);
  }

  lemma CutParts(a: Octets, b: Octets, c: Octets, d: Octets, n: nat)
    requires |d| <= n
    ensures var buf := a + b + c + d;
            var second, third := |a| + |b|, |a| + |b| + |c|;
            && buf[|a|..second] == b && buf[second..third] == c && Slice(buf, third, third + n) == d
  {
  }

  /** A buffer that ends inside the identifier octets, or right after them, is an IndexError. */
  lemma CutInTag(prefix: Octets, tag: Octets, k: nat)
    requires IsTag(tag) && k <= |tag|
    ensures ReadTlv(prefix + tag[..k], |prefix|) == Raised(IndexError)
  {
    var buf := prefix + tag[..k];
    if k == |tag| {
      assert buf[|prefix|..|prefix| + |tag|] == tag;
      IdentifierInContext(buf, |prefix|, tag);
    } else if k > 0 {
      assert forall i :: 0 <= i < k ==> buf[|prefix| + i] == tag[i];
      RunsOut(buf, |prefix| + 1);
    }
  }

  lemma {:induction false} RunsOut(buf: Octets, pos: nat)
    requires forall i :: pos <= i < |buf| ==> buf[i] >= 0x80
    ensures SkipContinuation(buf, pos) == Raised(IndexError)
    decreases |buf| - pos
  {
    if pos < |buf| {
      RunsOut(buf, pos + 1);
    }
  }

  lemma ReadWhole(tag: Octets, value: Octets)
    requires IsTag(tag) && Tlv(tag, value).Ok?
    ensures var encoded := Tlv(tag, value).value; ReadTlv(encoded, 0) == Ok(Read(tag[0], value, |encoded|))
  {
    var encoded := Tlv(tag, value).value;
    ReadTlvInContext([], tag, value, []);
    assert [] + encoded + [] == encoded;
  }

  lemma ReadFirst(tag: Octets, value: Octets, rest: Octets)
    requires IsTag(tag) && Tlv(tag, value).Ok?
    ensures var encoded := Tlv(tag, value).value; ReadTlv(encoded + rest, 0) == Ok(Read(tag[0], value, |encoded|))
  {
    ReadTlvInContext([], tag, value, rest);
    assert [] + Tlv(tag, value).value == Tlv(tag, value).value;
  }

  lemma ReadLast(before: Octets, tag: Octets, value: Octets)
    requires IsTag(tag) && Tlv(tag, value).Ok?
    ensures var all := before + Tlv(tag, value).value; ReadTlv(all, |before|) == Ok(Read(tag[0], value, |all|))
  {
    ReadTlvInContext(before, tag, value, []);
    assert before + Tlv(tag, value).value + [] == before + Tlv(tag, value).value;
  }

  /** The layers of user data: a list of tag 0x61, in it one PDV of tag 0x30, in it the context as an INTEGER and the
      payload as single-ASN1-type data, and nothing else. */
  ghost predicate Layers(data: Octets, list: Octets, pdv: Octets, context: Octet, payload: Octets) {
    && ReadTlv(data, 0) == Ok(Read(0x61, list, |data|))
    && ReadTlv(list, 0) == Ok(Read(0x30, pdv, |list|))
    && ReadTlv(pdv, 0) == Ok(Read(0x02, [context], 3))
    && ReadTlv(pdv, 3) == Ok(Read(0xA0, payload, |pdv|))
  }

  lemma PresentationParts(context: Octet, payload: Octets)
    requires PresentationData(context, payload).Ok?
    ensures exists list: Octets, pdv: Octets ::
              Layers(PresentationData(context, payload).value, list, pdv, context, payload)
  {
    var identifier, encoded := Tlv([0x02], [context]).value, Tlv([0xA0], payload).value;
    var pdv := identifier + encoded;
    var list := Tlv([0x30], pdv).value;
    ReadWhole([0x61], list);
    ReadWhole([0x30], pdv);
    ReadFirst([0x02], [context], encoded);
    ReadLast(identifier, [0xA0], payload);
    assert Layers(PresentationData(context, payload).value, list, pdv, context, payload);
  }

  /** The MMS PDU is found behind any four octets, whatever the tags around the fields are: only 0xA0 is looked for. */
  lemma MmsFound(spdu: Octets, outer: Octets, inner: Octets, fields: seq<Field>)
    requires |spdu| == 4 && IsTag(outer) && IsTag(inner) && Encodable(fields)
    requires Tlv(inner, Concat(fields)).Ok? && Tlv(outer, Tlv(inner, Concat(fields)).value).Ok?
    ensures MmsOf(spdu + Tlv(outer, Tlv(inner, Concat(fields)).value).value) == FirstData(fields)
  {
    var pdv := Concat(fields);
    var list := Tlv(inner, pdv).value;
    var data := Tlv(outer, list).value;
    ReadTlvInContext(spdu, outer, list, []);
    assert spdu + data + [] == spdu + data;
    ReadTlvInContext([], inner, pdv, []);
    assert [] + list + [] == list;
    ScanFindsFirst([], fields);
    assert [] + pdv == pdv;
  }
}
